/** Stripe top-ups: a payment intent may be confirmed by its user and delivered by Stripe's webhook,
    in any order and any number of times. */
module TopUp {
  import opened Common
  import opened TransferSaga

  datatype Books = Books(balances: map<UserId, Money>, ledger: seq<Txn>)

  function BalanceOf(b: Books, user: UserId): Money {
    if user in b.balances then b.balances[user] else 0.0
  }

  predicate HasReference(ledger: seq<Txn>, reference: string) {
    exists i :: 0 <= i < |ledger| && ledger[i].reference == reference
  }

  // The amount travels as a decimal string in the metadata of the intent.

  function Digit(d: nat): char
    requires d < 10
  {
    ['0', '1', '2', '3', '4', '5', '6', '7', '8', '9'][d]
  }

  function Decimal(n: nat): string {
    if n < 10 then [Digit(n)] else Decimal(n / 10) + [Digit(n % 10)]
  }

  predicate IsDigit(c: char) {
    '0' <= c <= '9'
  }

  function ParseDecimal(s: string): Option<nat> {
    if s == [] || !IsDigit(s[|s| - 1]) then None
    else
      var d := s[|s| - 1] as int - '0' as int;
      if |s| == 1 then Some(d)
      else
        var rest := ParseDecimal(s[..|s| - 1]);
        if rest.None? then None else Some(10 * rest.value + d)
  }

  lemma {:induction false} DecimalRoundTrip(n: nat)
    ensures ParseDecimal(Decimal(n)) == Some(n)
    ensures Decimal(n) != []
  {
    if n >= 10 {
      DecimalRoundTrip(n / 10);
      var s := Decimal(n);
      assert s[..|s| - 1] == Decimal(n / 10);
    }
  }

  /** A Stripe payment intent as the wrapper creates it. */
  datatype Intent = Intent(id: string, cents: int, userId: UserId, credits: string)

  function CreatePaymentIntent(id: string, user: UserId, amount: int): Option<Intent> {
    if amount <= 0 then None else Some(Intent(id, amount * 100, user, Decimal(amount)))
  }

  /** The amount of a request is cut to whole credits before the wrapper sees it. */
  function InitiateTopup(id: string, user: UserId, amount: Money): Option<Intent> {
    if amount <= 0.0 then None else CreatePaymentIntent(id, user, amount.Floor)
  }

  /** What the wrapper tells the orchestrator about a paid intent. */
  datatype Notice = Notice(userId: UserId, credits: string, intentId: string, eventId: Option<string>)

  /** Neither the retrieve route nor the webhook route ever returns an event id. */
  function WrapperNotice(i: Intent): Notice {
    Notice(i.userId, i.credits, i.id, None)
  }

  function CreditsOf(n: Notice): int {
    if ParseDecimal(n.credits).Some? then ParseDecimal(n.credits).value else 0
  }

  /** The reference under which a credit is looked up and booked. */
  function ReferenceOf(n: Notice): string {
    if n.eventId.Some? && n.eventId.value != "" then n.eventId.value else n.intentId
  }

  datatype Source = Confirm(caller: UserId) | Webhook

  /** One delivery and what its calls meet: the wrapper, the ledger lookup, the balance read, the balance
      write and the ledger post. */
  datatype Delivery = Delivery(source: Source, paid: bool, lookup: bool, read: bool, patch: Net, post: Net)

  /** Credits that are no number raise before anything is written. */
  predicate Admitted(n: Notice, d: Delivery) {
    d.paid && ParseDecimal(n.credits).Some? && (d.source.Confirm? ==> d.source.caller == n.userId) && (d.source.Webhook? ==> n.userId != "")
  }

  function NoticeReference(n: Notice, d: Delivery): string {
    if d.source.Confirm? then n.intentId else ReferenceOf(n)
  }

  /** The delivery gets as far as writing the balance. */
  predicate Reaches(b: Books, n: Notice, d: Delivery) {
    Admitted(n, d) && !(d.lookup && HasReference(b.ledger, NoticeReference(n, d))) && d.read
  }

  function CreditTxn(n: Notice, d: Delivery): Txn {
    Txn(n.userId, CreditsOf(n) as real, "topup", NoticeReference(n, d))
  }

  function Deliver(b: Books, n: Notice, d: Delivery): Books {
    if !Reaches(b, n, d) then b
    else
      Books(
        if d.patch.Applied() then b.balances[n.userId := BalanceOf(b, n.userId) + CreditsOf(n) as real] else b.balances,
        if d.patch.Ok? && d.post.Applied() then b.ledger + [CreditTxn(n, d)] else b.ledger)
  }

  function DeliverAll(b: Books, n: Notice, ds: seq<Delivery>): Books {
    if ds == [] then b else Deliver(DeliverAll(b, n, ds[..|ds| - 1]), n, ds[|ds| - 1])
  }

  /** Ledger calls succeed, and a failed balance write means no write. */
  predicate Reliable(d: Delivery) {
    d.lookup && d.post.Ok? && (d.patch.Ok? || !d.patch.Applied())
  }

  predicate Pays(n: Notice, d: Delivery) {
    Admitted(n, d) && d.read && d.patch.Ok?
  }

  lemma ReferenceKept(ledger: seq<Txn>, t: Txn, reference: string)
    ensures HasReference(ledger + [t], reference) <==> HasReference(ledger, reference) || t.reference == reference
  {
    var l := ledger + [t];
    assert l[|ledger|] == t;
    if HasReference(ledger, reference) {
      var i :| 0 <= i < |ledger| && ledger[i].reference == reference;
      assert l[i].reference == reference;
    }
  }

  lemma {:induction false} CreditedOnce(b: Books, n: Notice, ds: seq<Delivery>)
    requires n.eventId.None? && !HasReference(b.ledger, n.intentId)
    requires forall i :: 0 <= i < |ds| ==> Reliable(ds[i])
    ensures
      var e := DeliverAll(b, n, ds);
      var any := exists i :: 0 <= i < |ds| && Pays(n, ds[i]);
      && (HasReference(e.ledger, n.intentId) <==> any)
      && BalanceOf(e, n.userId) == BalanceOf(b, n.userId) + (if any then CreditsOf(n) as real else 0.0)
      && |e.ledger| == |b.ledger| + if any then 1 else 0
  {
    if ds != [] {
      var k := |ds| - 1;
      CreditedOnce(b, n, ds[..k]);
      var before := DeliverAll(b, n, ds[..k]);
      assert forall i :: 0 <= i < k ==> ds[..k][i] == ds[i];
      assert Reliable(ds[k]);
      ReferenceKept(before.ledger, CreditTxn(n, ds[k]), n.intentId);
      if exists i :: 0 <= i < k && Pays(n, ds[i]) {
        var i :| 0 <= i < k && Pays(n, ds[i]);
        assert Pays(n, ds[..k][i]);
      }
    }
  }

  /** However an intent's confirmations and webhooks are ordered and repeated, the user is credited once if
      any delivery gets through, never twice, and with the charged cents divided by 100. */
  lemma IntentCreditedOnce(id: string, user: UserId, amount: Money, b: Books, ds: seq<Delivery>)
    requires InitiateTopup(id, user, amount).Some? && !HasReference(b.ledger, id)
    requires forall i :: 0 <= i < |ds| ==> Reliable(ds[i])
    ensures
      var intent := InitiateTopup(id, user, amount).value;
      var n := WrapperNotice(intent);
      var any := exists i :: 0 <= i < |ds| && Pays(n, ds[i]);
      && CreditsOf(n) == amount.Floor && intent.cents == 100 * amount.Floor && CreditsOf(n) >= 1
      && BalanceOf(DeliverAll(b, n, ds), user) == BalanceOf(b, user) + if any then CreditsOf(n) as real else 0.0
  {
    var intent := InitiateTopup(id, user, amount).value;
    DecimalRoundTrip(amount.Floor);
    CreditedOnce(b, WrapperNotice(intent), ds);
  }

  /** A top-up below one credit is refused, any other one is charged in whole credits to the user who asked. */
  lemma IntentCreatedExactlyWhen(id: string, user: UserId, amount: Money)
    ensures InitiateTopup(id, user, amount).Some? <==> amount >= 1.0
    ensures amount >= 1.0 ==>
      InitiateTopup(id, user, amount).value == Intent(id, 100 * amount.Floor, user, Decimal(amount.Floor))
  {
  }

  /** What one delivery does to the books, for every notice, delivery and reply: it credits the user of the intent, and
      nobody else; an unpaid or already booked intent, credits that are no number, a caller who is not that user, a webhook
      without a user and an unreadable balance change nothing. */
  lemma DeliveredExactly(b: Books, n: Notice, d: Delivery)
    ensures
      var reference := if d.source.Webhook? && n.eventId.Some? && n.eventId.value != "" then n.eventId.value else n.intentId;
      var known := d.lookup && exists i :: 0 <= i < |b.ledger| && b.ledger[i].reference == reference;
      var entitled := if d.source.Confirm? then d.source.caller == n.userId else n.userId != "";
      var credits := CreditsOf(n) as real;
      var current := if n.userId in b.balances then b.balances[n.userId] else 0.0;
      var reached := d.paid && ParseDecimal(n.credits).Some? && entitled && !known && d.read;
      Deliver(b, n, d) == Books(
        if reached && d.patch.Applied() then b.balances[n.userId := current + credits] else b.balances,
        if reached && d.patch.Ok? && d.post.Applied() then b.ledger + [Txn(n.userId, credits, "topup", reference)] else b.ledger)
  {
  }

  /** Two deliveries that each could credit do both credit exactly when the first one leaves no ledger row
      under the reference that the second one looks up, or that lookup fails. */
  lemma CreditedTwiceExactlyWhen(b: Books, n: Notice, d: Delivery, e: Delivery)
    requires !HasReference(b.ledger, n.intentId) && !HasReference(b.ledger, ReferenceOf(n))
    requires Admitted(n, d) && d.read && d.patch.Applied() && Admitted(n, e) && e.read && e.patch.Applied()
    requires CreditsOf(n) != 0
    ensures
      BalanceOf(DeliverAll(b, n, [d, e]), n.userId) == BalanceOf(b, n.userId) + 2.0 * CreditsOf(n) as real
      <==> !(d.patch.Ok? && d.post.Applied() && NoticeReference(n, d) == NoticeReference(n, e)) || !e.lookup
  {
    assert [d, e][..1] == [d] && [d][..0] == [];
    assert DeliverAll(b, n, [d]) == Deliver(b, n, d);
    ReferenceKept(b.ledger, CreditTxn(n, d), NoticeReference(n, e));
  }

  /** A wrapper that did return event ids would break it: webhook and confirmation book under different
      references and both credit. */
  lemma EventIdWouldCreditTwice(b: Books, n: Notice, w: Delivery, c: Delivery)
    requires ReferenceOf(n) != n.intentId && n.userId != "" && CreditsOf(n) != 0
    requires !HasReference(b.ledger, n.intentId) && !HasReference(b.ledger, ReferenceOf(n))
    requires w == Delivery(Webhook, true, true, true, Ok, Ok) && c == Delivery(Confirm(n.userId), true, true, true, Ok, Ok)
    ensures BalanceOf(DeliverAll(b, n, [w, c]), n.userId) == BalanceOf(b, n.userId) + 2.0 * CreditsOf(n) as real
  {
    CreditedTwiceExactlyWhen(b, n, w, c);
  }

  class CreditOrchestrator {
    var balances: map<UserId, Money>
    var ledger: seq<Txn>

    constructor (b: Books)
      ensures State() == b
    {
      balances, ledger := b.balances, b.ledger;
    }

    ghost function State(): Books
      reads this
    {
      Books(balances, ledger)
    }

    /** The ledger's lookup by reference. */
    method FindByReference(reference: string) returns (found: bool)
      ensures found <==> HasReference(ledger, reference)
    {
      var i := 0;
      while i < |ledger|
        invariant 0 <= i <= |ledger|
        invariant forall k :: 0 <= k < i ==> ledger[k].reference != reference
      {
        if ledger[i].reference == reference {
          return true;
        }
        i := i + 1;
      }
      return false;
    }

    /** Balance read, absolute balance write, ledger post: the tail that both handlers share. */
    method Credit(user: UserId, credits: int, reference: string, d: Delivery)
      modifies this
      ensures d.read ==>
        && balances == (if d.patch.Applied() then old(balances)[user := BalanceOf(old(State()), user) + credits as real] else old(balances))
        && ledger == (if d.patch.Ok? && d.post.Applied() then old(ledger) + [Txn(user, credits as real, "topup", reference)] else old(ledger))
      ensures !d.read ==> unchanged(this)
    {
      if !d.read {
        return;
      }
      var current := if user in balances then balances[user] else 0.0;
      if d.patch.Applied() {
        balances := balances[user := current + credits as real];
      }
      if !d.patch.Ok? {
        return;
      }
      if d.post.Applied() {
        ledger := ledger + [Txn(user, credits as real, "topup", reference)];
      }
    }

    method ConfirmTopup(n: Notice, d: Delivery)
      requires d.source.Confirm?
      modifies this
      ensures State() == Deliver(old(State()), n, d)
    {
      if !d.paid || ParseDecimal(n.credits).None? || n.userId != d.source.caller {
        return;
      }
      var existing := FindByReference(n.intentId);
      if d.lookup && existing {
        return;
      }
      Credit(n.userId, CreditsOf(n), n.intentId, d);
    }

    method StripeWebhook(n: Notice, d: Delivery)
      requires d.source.Webhook?
      modifies this
      ensures State() == Deliver(old(State()), n, d)
    {
      if !d.paid || ParseDecimal(n.credits).None? || n.userId == "" {
        return;
      }
      var reference := if n.eventId.Some? && n.eventId.value != "" then n.eventId.value else n.intentId;
      var existing := FindByReference(reference);
      if d.lookup && existing {
        return;
      }
      Credit(n.userId, CreditsOf(n), reference, d);
    }
  }
}
