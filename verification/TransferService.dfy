/** The transfer service: transfer records, updated by PATCH and lazily expired by whoever looks. */
module TransferService {
  import opened Common

  datatype Status =
    | PendingSellerAcceptance | PendingBuyerOtp | PendingSellerOtp
    | Failed | Expired | Cancelled | Completed

  datatype Transfer = Transfer(
    listing: string, buyer: UserId, seller: UserId, amount: Money,
    status: Status, buyerOtp: bool, sellerOtp: bool,
    buyerSid: Option<string>, sellerSid: Option<string>,
    completedAt: Option<Time>, expiresAt: Time)

  const LIFETIME := 24 * 3600

  function Created(listing: string, buyer: UserId, seller: UserId, amount: Money, now: Time): Transfer {
    Transfer(listing, buyer, seller, amount, PendingSellerAcceptance, false, false, None, None, None, now + LIFETIME)
  }

  /** The record is past its deadline and nobody has recorded an end that shields it. */
  predicate Expires(t: Transfer, now: Time) {
    now > t.expiresAt && t.status !in {Completed, Cancelled, Expired}
  }

  function Lookup(t: Transfer, now: Time): Transfer {
    if Expires(t, now) then t.(status := Expired) else t
  }

  /** One entry of a PATCH body; `Foreign` is any field outside UPDATABLE_FIELDS. */
  datatype Field =
    | SetStatus(status: Status)
    | SetBuyerOtp(flag: bool) | SetSellerOtp(flag: bool)
    | SetBuyerSid(sid: string) | SetSellerSid(sid: string)
    | SetCompletedAt(stamp: Stamp)
    | Foreign(name: string)

  predicate Supported(body: seq<Field>) {
    body != [] && forall i :: 0 <= i < |body| ==> !body[i].Foreign?
  }

  predicate Readable(body: seq<Field>) {
    forall i :: 0 <= i < |body| && body[i].SetCompletedAt? ==> body[i].stamp.At?
  }

  function SetField(t: Transfer, f: Field): Transfer {
    match f
    case SetStatus(status) => t.(status := status)
    case SetBuyerOtp(flag) => t.(buyerOtp := flag)
    case SetSellerOtp(flag) => t.(sellerOtp := flag)
    case SetBuyerSid(sid) => t.(buyerSid := Some(sid))
    case SetSellerSid(sid) => t.(sellerSid := Some(sid))
    case SetCompletedAt(stamp) => if stamp.At? then t.(completedAt := Some(stamp.time)) else t
    case Foreign(_) => t
  }

  function SetAll(t: Transfer, body: seq<Field>): Transfer {
    if body == [] then t else SetField(SetAll(t, body[..|body| - 1]), body[|body| - 1])
  }

  predicate Accepts(t: Transfer, body: seq<Field>, now: Time) {
    Supported(body) && !Expires(t, now) && Readable(body)
  }

  function Patched(t: Transfer, body: seq<Field>, now: Time): Transfer {
    if Accepts(t, body, now) then SetAll(t, body)
    else if Supported(body) then Lookup(t, now)
    else t
  }

  /** No PATCH touches the parties, the listing, the amount or the deadline. */
  lemma {:induction false} PatchKeepsTerms(t: Transfer, body: seq<Field>, now: Time)
    ensures
      var p := Patched(t, body, now);
      (p.listing, p.buyer, p.seller, p.amount, p.expiresAt) == (t.listing, t.buyer, t.seller, t.amount, t.expiresAt)
  {
    SetAllKeepsTerms(t, body);
  }

  lemma {:induction false} SetAllKeepsTerms(t: Transfer, body: seq<Field>)
    ensures
      var p := SetAll(t, body);
      (p.listing, p.buyer, p.seller, p.amount, p.expiresAt) == (t.listing, t.buyer, t.seller, t.amount, t.expiresAt)
  {
    if body != [] {
      SetAllKeepsTerms(t, body[..|body| - 1]);
    }
  }

  /** The timeout consumer's PATCH names fields that the service does not know, so it never lands. */
  lemma TimeoutPatchIsRefused(t: Transfer, now: Time)
    ensures
      var body := [SetStatus(Cancelled), Foreign("cancelledAt"), Foreign("cancelReason")];
      !Accepts(t, body, now) && Patched(t, body, now) == t
  {
    var body := [SetStatus(Cancelled), Foreign("cancelledAt"), Foreign("cancelReason")];
    assert body[1].Foreign?;
  }

  datatype StoreReply = NotFound | Refused(code: string) | Found(transfer: Transfer)

  class TransferStore {
    var rows: map<string, Transfer>

    constructor ()
      ensures rows == map[]
    {
      rows := map[];
    }

    method Create(id: string, listing: string, buyer: UserId, seller: UserId, amount: Money, now: Time)
      requires id !in rows
      modifies this
      ensures rows == old(rows)[id := Created(listing, buyer, seller, amount, now)]
      ensures rows[id] == Transfer(listing, buyer, seller, amount, PendingSellerAcceptance, false, false, None, None, None, now + 86400)
    {
      rows := rows[id := Transfer(listing, buyer, seller, amount, PendingSellerAcceptance,
                                  false, false, None, None, None, now + LIFETIME)];
    }

    method Get(id: string, now: Time) returns (reply: StoreReply)
      modifies this
      ensures id !in old(rows) ==> reply.NotFound? && rows == old(rows)
      ensures id in old(rows) ==>
        && rows == old(rows)[id := Lookup(old(rows)[id], now)] && reply == Found(rows[id])
        && rows[id] == if now > old(rows)[id].expiresAt && old(rows)[id].status !in {Completed, Cancelled, Expired}
                       then old(rows)[id].(status := Expired) else old(rows)[id]
    {
      if id !in rows {
        return NotFound;
      }
      if Expires(rows[id], now) {
        rows := rows[id := rows[id].(status := Expired)];
      }
      return Found(rows[id]);
    }

    method Patch(id: string, body: seq<Field>, now: Time) returns (reply: StoreReply)
      modifies this
      ensures id !in old(rows) ==> rows == old(rows) && !reply.Found?
      ensures id in old(rows) ==>
        && rows == old(rows)[id := Patched(old(rows)[id], body, now)]
        && (reply.Found? <==> Accepts(old(rows)[id], body, now))
        && (reply.Found? ==> reply.transfer == rows[id])
        && !reply.NotFound?
      // accepted exactly if it names updatable fields only, at least one, the record is not overdue, and times are readable
      ensures id in old(rows) ==>
        var t := old(rows)[id];
        var overdue := now > t.expiresAt && t.status !in {Completed, Cancelled, Expired};
        var wellFormed := body != [] && forall i :: 0 <= i < |body| ==> !body[i].Foreign?;
        && (reply.Found? <==>
              wellFormed && !overdue && forall i :: 0 <= i < |body| && body[i].SetCompletedAt? ==> body[i].stamp.At?)
        && (!reply.Found? ==> rows[id] == if wellFormed && overdue then t.(status := Expired) else t)
    {
      var i := 0;
      if body == [] {
        return Refused("VALIDATION_ERROR");
      }
      var readable := true;
      while i < |body|
        invariant 0 <= i <= |body|
        invariant forall k :: 0 <= k < i ==> !body[k].Foreign?
        invariant readable <==> forall k :: 0 <= k < i && body[k].SetCompletedAt? ==> body[k].stamp.At?
        invariant rows == old(rows)
      {
        if body[i].Foreign? {
          return Refused("VALIDATION_ERROR");
        }
        readable := readable && (body[i].SetCompletedAt? ==> body[i].stamp.At?);
        i := i + 1;
      }
      if id !in rows {
        return NotFound;
      }
      if Expires(rows[id], now) {
        rows := rows[id := rows[id].(status := Expired)];
        return Refused("TRANSFER_EXPIRED");
      }
      if !readable {
        return Refused("VALIDATION_ERROR");
      }
      i := 0;
      while i < |body|
        invariant 0 <= i <= |body|
        invariant id in old(rows) && rows == old(rows)[id := SetAll(old(rows)[id], body[..i])]
      {
        rows := rows[id := SetField(rows[id], body[i])];
        assert body[..i + 1][..i] == body[..i];
        i := i + 1;
      }
      assert body[..i] == body;
      return Found(rows[id]);
    }

    method Cancel(id: string) returns (reply: StoreReply)
      modifies this
      ensures id !in old(rows) ==> reply.NotFound? && rows == old(rows)
      ensures id in old(rows) && old(rows)[id].status in {Completed, Cancelled, Expired} ==> reply.Refused? && rows == old(rows)
      ensures id in old(rows) && old(rows)[id].status !in {Completed, Cancelled, Expired} ==>
        rows == old(rows)[id := old(rows)[id].(status := Cancelled)] && reply == Found(rows[id])
    {
      if id !in rows {
        return NotFound;
      }
      if rows[id].status in {Completed, Cancelled, Expired} {
        return Refused("INVALID_STATE");
      }
      rows := rows[id := rows[id].(status := Cancelled)];
      return Found(rows[id]);
    }
  }
}
