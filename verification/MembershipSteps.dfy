/** One provider's membership, payments and listings, and each locked transaction on them. */
module MembershipSteps {
  import opened BookingRows
  import opened MonthTable
  import opened Calendar
  import opened MembershipPolicy

  datatype PayStatus =
    | PayPending | PayFailed | PayExpired | PayCancelled | PaySucceeded | PayRefundRequired | PayRefunded

  /** `deadline` is the checkout's expiry, `claimed` when a caller began preparing it, `link` whether
      its checkout link is stored; `period` is the paid period recorded when the payment is applied. */
  datatype Payment = Payment(plan: Plan, amount: nat, action: Action, quotedUpdated: int, quotedExpires: Option<int>,
                             status: PayStatus, period: Option<(int, int)>, deadline: int, claimed: Option<int>,
                                 link: bool)
  {
    predicate Ready(now: int) { status == PayPending && link && deadline > now }
    predicate BeingPrepared(now: int) { status == PayPending && claimed.Some? && claimed.value > now - 60000 }
  }

  datatype ListingStatus = InReview | Shown | Hidden | Suspended | RejectedListing | Deleted

  /** `removed` is the ADMIN_REMOVED reason code. */
  datatype Listing = Listing(status: ListingStatus, available: bool, published: Option<int>, removed: bool)

  /** `quotes` are the signed quotes handed out, with their expiry; `applied` the applied
      payments and `starters` those that started a period, both in order. */
  datatype Provider = Provider(m: Membership, payments: map<Id, Payment>, quotes: set<(Quote, int)>,
      listings: map<Id, Listing>,
                               applied: seq<Id>, starters: seq<Id>, clock: int)

  function EndOfMonth(now: int): (e: int)
    ensures 28 * DAY_MS <= e - now <= 31 * DAY_MS
  {
    PhilippineMonth(FirstDay, now);
    MonthFrom(FirstDay, now)
  }

  // -------------------------------------------------------------- membership

  function StartTrial(p: Provider): Provider {
    if p.m.freeStarts.Some? then p
    else p.(m := p.m.(freeStarts := Some(p.clock), freeExpires := Some(p.clock + 30 * DAY_MS), updated := p.clock))
  }

  function CancelMembership(p: Provider): Option<Provider> {
    if !Access(p.m, p.clock) || p.m.plan == Free then None
    else Some(p.(m := p.m.(status := CancelledAtEnd, updated := p.clock)))
  }

  /** The maintenance job marks an ended plan; it does not touch `updated`. */
  function Maintain(p: Provider): Provider {
    var expires := if p.m.plan == Free then p.m.freeExpires else p.m.expires;
    if expires.Some? && expires.value <= p.clock then p.(m := p.m.(status := Lapsed)) else p
  }

  // ---------------------------------------------------------------- payments

  function IssueQuote(p: Provider, plan: Plan): Option<Provider> {
    if plan == Free || p.m.freeStarts.None? || Quoted(p.m, plan, p.clock).None? then None
    else Some(p.(quotes := p.quotes + {(Quoted(p.m, plan, p.clock).value, p.clock + 900000)}))
  }

  predicate SomePending(payments: map<Id, Payment>) { exists i | i in payments :: payments[i].status == PayPending }

  function NewPayment(q: Quote, signed: Option<Quote>, now: int): Payment {
    if signed.Some?
    then Payment(q.plan, signed.value.amount, signed.value.action, q.updated,
                 if signed.value.period.Some? then signed.value.period else q.period, PayPending, None,
                 now + 900000, Some(now), false)
    else Payment(q.plan, q.amount, q.action, q.updated, q.period, PayPending, None, now + 900000, Some(now), false)
  }

  /** The pending payment is claimed by the caller that prepares its checkout. */
  function TakenUp(payments: map<Id, Payment>, now: int): map<Id, Payment> {
    map i | i in payments ::
        if payments[i].status == PayPending then payments[i].(claimed := Some(now)) else payments[i]
  }

  /** startSubscriptionCheckout's transaction: a pending payment is taken up again, never replaced,
      and not while another caller prepares it. */
  function Checkout(p: Provider, id: Id, plan: Plan, signed: Option<(Quote, int)>): Option<Provider> {
    if plan == Free || id in p.payments || p.m.freeStarts.None? then None
    else if signed.Some?
        && (signed.value !in p.quotes || signed.value.0.plan != plan || signed.value.1 <= p.clock) then None
    else
      var quote := Quoted(p.m, plan, p.clock);
      if quote.None? || (signed.Some? && signed.value.0.updated != p.m.updated) then None
      else if exists i | i in p.payments :: p.payments[i].status == PayPending && p.payments[i].plan != plan then None
      else if exists i | i in p.payments :: p.payments[i].Ready(p.clock) then Some(p)
      else if exists i | i in p.payments :: p.payments[i].BeingPrepared(p.clock) then None
      else if SomePending(p.payments) then Some(p.(payments := TakenUp(p.payments, p.clock)))
      else Some(p.(payments :=
          p.payments[id := NewPayment(quote.value, if signed.Some? then Some(signed.value.0) else None, p.clock)]))
  }

  /** The caller that prepared a checkout stores its link, or gives up. */
  function EndPreparing(p: Provider, id: Id, link: bool): Option<Provider> {
    if id !in p.payments || p.payments[id].status != PayPending then None
    else Some(p.(payments := p.payments[id := p.payments[id].(claimed := None, link := p.payments[id].link || link)]))
  }

  function SetPayment(p: Provider, id: Id, status: PayStatus): Provider
    requires id in p.payments
  {
    p.(payments := p.payments[id := p.payments[id].(status := status)])
  }

  /** A failed, expired or cancelled checkout: only while pending. */
  function EndCheckout(p: Provider, id: Id, status: PayStatus): Option<Provider> {
    if id !in p.payments || status !in {PayFailed, PayExpired, PayCancelled} then None
    else if p.payments[id].status != PayPending then Some(p)
    else Some(SetPayment(p, id, status))
  }

  predicate Applicable(p: Provider, pay: Payment, accountOk: bool) {
    && pay.status != PayCancelled && accountOk && pay.quotedUpdated == p.m.updated
    && (if pay.action == Upgrade
        then Access(p.m, p.clock) && p.m.plan == Basic && pay.plan == Pro && pay.quotedExpires == p.m.expires
        else !(Access(p.m, p.clock) && p.m.plan != Free))
  }

  /** finalizeSubscriptionPayment. `order` is the query's listing of active services, oldest first. */
  function FinalizePayment(p: Provider, id: Id, accountOk: bool, order: seq<Id>): Option<Provider> {
    if id !in p.payments then None
    else
      var pay := p.payments[id];
      if pay.status in {PaySucceeded, PayRefunded, PayRefundRequired} then Some(p)
      else if !Applicable(p, pay, accountOk) then Some(SetPayment(p, id, PayRefundRequired))
      else
        Some(ApplyPayment(p, id, if pay.action == Upgrade then (p.m.starts.value, pay.quotedExpires.value)
            else (p.clock, EndOfMonth(p.clock)), order))
  }

  /** The payment takes effect: plan and period are set, and a move to Basic keeps three listings. */
  function ApplyPayment(p: Provider, id: Id, period: (int, int), order: seq<Id>): Provider
    requires id in p.payments
  {
    var pay := p.payments[id];
    p.(m := p.m.(plan := pay.plan, status := Active, starts := Some(period.0), expires := Some(period.1),
        updated := p.clock),
       payments := p.payments[id := pay.(status := PaySucceeded, period := Some(period), claimed := None)],
       listings := if pay.plan == Basic && |order| > 3 then Pause(p.listings, order[3..]) else p.listings,
       applied := p.applied + [id],
       starters := if pay.action == Upgrade then p.starters else p.starters + [id])
  }

  /** The refund pass of reconcileSubscriptionPayment. `settled` is whether the gateway reports the refund
      under the payment's own key as final; until it does, the debt stays on record. */
  function FinishRefund(p: Provider, id: Id, settled: bool): Option<Provider> {
    if id !in p.payments || p.payments[id].status != PayRefundRequired then None
    else if !settled then Some(p)
    else Some(SetPayment(p, id, PayRefunded))
  }

  // ---------------------------------------------------------------- listings

  function Pause(listings: map<Id, Listing>, ids: seq<Id>): map<Id, Listing> {
    map i | i in listings :: if i in ids then listings[i].(status := Hidden, available := false) else listings[i]
  }

  function ActiveIds(listings: map<Id, Listing>): set<Id> { set i | i in listings && listings[i].status == Shown }

  /** Older first: by time of publication, unpublished last, then by id. */
  predicate Older(listings: map<Id, Listing>, i: Id, j: Id)
    requires i in listings && j in listings
  {
    var a, b := listings[i].published, listings[j].published;
    || (a.Some? && (b.None? || a.value < b.value))
    || (a == b && i < j)
  }

  /** The active listings in the query's order. */
  ghost predicate OldestFirst(listings: map<Id, Listing>, order: seq<Id>) {
    && (forall k | 0 <= k < |order| :: order[k] in ActiveIds(listings))
    && (forall i | i in ActiveIds(listings) :: i in order)
    && (forall k, l | 0 <= k < l < |order| :: Older(listings, order[k], order[l]))
  }

  predicate RoomFor(p: Provider, occupied: nat) {
    Access(p.m, p.clock) && (Limit(p.m.plan).Some? ==> occupied < Limit(p.m.plan).value)
  }

  function Put(p: Provider, id: Id, l: Listing): Provider { p.(listings := p.listings[id := l]) }

  /** Starting new business enrols the provider in the free trial first. */
  function CreateListing(p: Provider, id: Id): Option<Provider> {
    var q := StartTrial(p);
    if id in p.listings || !RoomFor(q, |ActiveIds(p.listings)|) then None
    else Some(Put(q, id, Listing(Shown, true, Some(p.clock), false)))
  }

  /** `changed` is an edit of title, category or description. */
  function EditListing(p: Provider, id: Id, changed: bool): Option<Provider> {
    if id !in p.listings || p.listings[id].status in {Deleted, Suspended} then None
    else
      var l := p.listings[id];
      var material := changed || l.status in {RejectedListing, InReview};
      if !material then Some(p)
      else if l.status == Hidden then Some(Put(p, id, l.(available := false)))
      else if l.status == Shown
          then Some(Put(p, id,
          l.(available := true, published := if l.published.Some? then l.published else Some(p.clock))))
      else
        var q := StartTrial(p);
        if !RoomFor(q, |ActiveIds(p.listings)|) then None
        else Some(Put(q, id,
            l.(status := Shown, available := true, published := if l.published.Some? then l.published
            else Some(p.clock))))
  }

  function ToggleListing(p: Provider, id: Id): Option<Provider> {
    if id !in p.listings || p.listings[id].status !in {Shown, Hidden} then None
    else
      var l := p.listings[id];
      if l.status == Shown && l.available then Some(Put(p, id, l.(status := Hidden, available := false)))
      else
        var q := StartTrial(p);
        if !RoomFor(q, |ActiveIds(p.listings) - {id}|) then None
        else Some(Put(q, id,
            l.(status := Shown, available := true, published := if l.published.Some? then l.published
            else Some(p.clock))))
  }

  function DeleteListing(p: Provider, id: Id): Option<Provider> {
    if id !in p.listings then None else Some(Put(p, id, p.listings[id].(status := Deleted, available := false)))
  }

  function RemoveListing(p: Provider, id: Id): Option<Provider> {
    if id !in p.listings || p.listings[id].status !in {Shown, Hidden} then None
    else Some(Put(p, id, p.listings[id].(status := Suspended, available := false, removed := true)))
  }

  function RestoreListing(p: Provider, id: Id): Option<Provider> {
    if id !in p.listings || p.listings[id].status != Suspended || !p.listings[id].removed then None
    else if !RoomFor(p, |ActiveIds(p.listings)|) then None
    else Some(Put(p, id, p.listings[id].(status := Shown, available := true, removed := false,
                                         published := if p.listings[id].published.Some? then p.listings[id].published
                                             else Some(p.clock))))
  }

  // -------------------------------------------------------------------- runs

  datatype Step =
    | Tick(elapsed: nat)
    | Trial | Quit | Upkeep
    | AskQuote(plan: Plan)
    | Buy(id: Id, plan: Plan, signed: Option<(Quote, int)>)
    | Prepare(id: Id, link: bool)
    | Close(id: Id, status: PayStatus)
    | Capture(id: Id, accountOk: bool, order: seq<Id>)
    | Refund(id: Id, settled: bool)
    | Create(id: Id) | Edit(id: Id, changed: bool) | Toggle(id: Id) | Delete(id: Id) | Remove(id: Id) | Restore(id: Id)

  function Attempted(p: Provider, s: Step): Option<Provider> {
    match s
    case Tick(elapsed) => Some(p.(clock := p.clock + elapsed))
    case Trial => Some(StartTrial(p))
    case Quit => CancelMembership(p)
    case Upkeep => Some(Maintain(p))
    case AskQuote(plan) => IssueQuote(p, plan)
    case Buy(id, plan, signed) => Checkout(p, id, plan, signed)
    case Prepare(id, link) => EndPreparing(p, id, link)
    case Close(id, status) => EndCheckout(p, id, status)
    case Capture(id, accountOk, order) => FinalizePayment(p, id, accountOk, order)
    case Refund(id, settled) => FinishRefund(p, id, settled)
    case Create(id) => CreateListing(p, id)
    case Edit(id, changed) => EditListing(p, id, changed)
    case Toggle(id) => ToggleListing(p, id)
    case Delete(id) => DeleteListing(p, id)
    case Remove(id) => RemoveListing(p, id)
    case Restore(id) => RestoreListing(p, id)
  }
}
