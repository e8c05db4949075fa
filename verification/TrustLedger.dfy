/** Trust scores and the ledger of changes that produced them. */
module TrustLedger {
  import opened BookingRows

  datatype Category = Completion | ReportPenalty | CancellationPenalty | Correction | Untouchable | Plain

  /** The idempotency key of an event. */
  datatype Key =
    | AwardKey(booking: Id, provider: bool)
    | ReportKey(report: Id)
    | CancellationKey(request: Id, user: Id)
    | ManualKey(admin: Id, operation: Id)
    | AppealKey(appeal: Id)
    | OtherKey(id: Id)

  /** The reason given for a change and the administrator behind it. */
  datatype Why = Why(reason: string, admin: Option<Id>)

  /** Whether a reason, trimmed, is long enough to count as documented. */
  predicate Documented(reason: string) { |reason| >= 20 }

  /** `asked` is the requested change, `delta` the one recorded after clamping,
      `reverses` the index of the event it takes back. */
  datatype Event = Event(user: Id, asked: int, before: int, after: int, key: Key, category: Category,
                         booking: Option<Id>, penaltyFor: Option<(Id, Id)>, reverses: Option<nat>, time: nat, why: Why)
  {
    function Delta(): int { after - before }
  }

  /** `parties` are the provider and seeker of each booking. */
  datatype Ledger = Ledger(start: map<Id, int>, scores: map<Id, int>, events: seq<Event>, parties: map<Id, (Id, Id)>,
      clock: nat)

  const REWARD_WINDOW: nat := 7 * 86400000

  function Clamp(x: int): (r: int)
    ensures 0 <= r <= 100
    ensures 0 <= x <= 100 ==> r == x
  {
    if x < 0 then 0 else if x > 100 then 100 else x
  }

  predicate Reversed(events: seq<Event>, i: nat) {
    exists j | 0 <= j < |events| :: events[j].reverses == Some(i)
  }

  predicate KeyUsed(events: seq<Event>, key: Key) {
    exists j | 0 <= j < |events| :: events[j].key == key
  }

  /** What a caller asks for; `strict` is a request that states its delta, so a reused
      key must repeat the same details. */
  datatype Ask = Ask(user: Id, delta: int, key: Key, category: Category, booking: Option<Id>,
                     penaltyFor: Option<(Id, Id)>, reverses: Option<nat>, strict: bool, why: Why)

  predicate Conflicts(e: Event, ask: Ask) {
    ask.strict && (e.user != ask.user || e.asked != ask.delta || e.why != ask.why
        || (ask.reverses.Some? && e.reverses != ask.reverses))
  }

  /** The unique columns reversesEventId and penaltyKey. */
  predicate Clashes(events: seq<Event>, ask: Ask) {
    exists j | 0 <= j < |events| ::
      (ask.reverses.Some? && events[j].reverses == ask.reverses)
          || (ask.penaltyFor.Some? && events[j].penaltyFor == ask.penaltyFor)
  }

  /** applyTrustEventInTransaction: the one writer of scores. None is a thrown error. */
  function Apply(l: Ledger, ask: Ask): Option<Ledger> {
    if ask.user !in l.scores then None
    else if KeyUsed(l.events, ask.key) then
      (if exists j | 0 <= j < |l.events| ::
          l.events[j].key == ask.key && Conflicts(l.events[j], ask) then None else Some(l))
    else if Clashes(l.events, ask) then None
    else Some(Record(l, ask))
  }

  function Record(l: Ledger, ask: Ask): Ledger
    requires ask.user in l.scores
  {
    var before := l.scores[ask.user];
    var after := Clamp(before + ask.delta);
    l.(scores := l.scores[ask.user := after],
       events := l.events
           + [Event(ask.user, ask.delta, before, after, ask.key, ask.category, ask.booking, ask.penaltyFor,
           ask.reverses, l.clock,
                               ask.why)])
  }

  function Later(l: Ledger, elapsed: nat): Ledger { l.(clock := l.clock + elapsed) }

  function Join(l: Ledger, user: Id): Option<Ledger> {
    if user in l.scores then None else Some(l.(start := l.start[user := 50], scores := l.scores[user := 50]))
  }

  function Open(l: Ledger, booking: Id, provider: Id, seeker: Id): Option<Ledger> {
    if booking in l.parties
        || provider == seeker then None else Some(l.(parties := l.parties[booking := (provider, seeker)]))
  }

  // -------------------------------------------------------------- corrections

  predicate Correctable(e: Event, user: Id) {
    e.user == user && e.Delta() != 0 && e.reverses.None? && e.category != Untouchable
  }

  /** applyManualTrustAdjustment: an administrator takes back one recorded event. */
  function Correct(l: Ledger, user: Id, event: nat, admin: Id, operation: Id, reason: string): Option<Ledger> {
    if admin == user || !Documented(reason) || event >= |l.events| || !Correctable(l.events[event], user) then None
    else if exists j | 0 <= j < |l.events| ::
        l.events[j].reverses == Some(event) && l.events[j].key != ManualKey(admin, operation) then None
    else Apply(l, Ask(user, -l.events[event].Delta(), ManualKey(admin, operation), Correction, l.events[event].booking,
        None, Some(event), true,
                     Why(reason, Some(admin))))
  }

  /** decideTrustCase upholding an appeal against a penalty. */
  function Appeal(l: Ledger, event: nat, appeal: Id, admin: Id, reason: string): Option<Ledger> {
    if event >= |l.events| || l.events[event].user == admin
        || l.events[event].category !in {ReportPenalty, CancellationPenalty} then None
    else if Reversed(l.events, event) then Some(l)
    else Apply(l, Ask(l.events[event].user, -l.events[event].Delta(), AppealKey(appeal), Correction,
        l.events[event].booking, None, Some(event), false,
                     Why(reason, Some(admin))))
  }

  // ------------------------------------------------------ rewards and penalties

  function Pair(p: (Id, Id)): (Id, Id) { if p.0 <= p.1 then p else (p.1, p.0) }

  predicate AwardOf(l: Ledger, i: nat, pair: (Id, Id)) {
    && i < |l.events| && l.events[i].category == Completion && l.events[i].booking.Some?
    && l.events[i].booking.value in l.parties && Pair(l.parties[l.events[i].booking.value]) == pair
    && (l.events[i].user == pair.0 || l.events[i].user == pair.1)
  }

  /** Another booking of the pair was rewarded within the window, and not taken back. */
  predicate RecentlyRewarded(l: Ledger, booking: Id)
    requires booking in l.parties
  {
    exists i | 0 <= i < |l.events| ::
      && AwardOf(l, i, Pair(l.parties[booking])) && l.events[i].booking != Some(booking)
      && !Reversed(l.events, i) && l.events[i].time + REWARD_WINDOW > l.clock
  }

  predicate AtFault(events: seq<Event>, booking: Id, user: Id) {
    exists i | 0 <= i < |events| ::
      && events[i].booking == Some(booking) && events[i].user == user
      && events[i].category in {ReportPenalty, CancellationPenalty} && !Reversed(events, i)
  }

  function AwardAsk(l: Ledger, booking: Id, user: Id): Ask
    requires booking in l.parties
  {
    Ask(user, 3, AwardKey(booking, user == l.parties[booking].0), Completion, Some(booking), None, None, false,
        Why("Eligible booking completed and payment settled", None))
  }

  function AwardOne(l: Ledger, booking: Id, user: Id, active: bool): Option<Ledger>
    requires booking in l.parties
  {
    if !active || AtFault(l.events, booking, user) then Some(l) else Apply(l, AwardAsk(l, booking, user))
  }

  /** awardBookingCompletionTrust; `eligible` stands for the booking's, cases' and
      participants' own checks, `active` for the accounts in the order they are visited. */
  function Award(l: Ledger, booking: Id, eligible: bool, active: (bool, bool)): Option<Ledger> {
    if booking !in l.parties then None
    else if !eligible || RecentlyRewarded(l, booking) then Some(l)
    else
      var pair := Pair(l.parties[booking]);
      var first := AwardOne(l, booking, pair.0, active.0);
      if first.None? || booking !in first.value.parties then None else AwardOne(first.value, booking, pair.1, active.1)
  }

  /** applyBookingTrustPenalty: one penalty per booking and user. */
  function Penalize(l: Ledger, booking: Id, user: Id, admin: Id, cancellation: bool, started: bool, id: Id,
      reason: string): Option<Ledger> {
    if booking !in l.parties || !Documented(reason) then None
    else
      var p := l.parties[booking];
      if (user != p.0 && user != p.1) || admin == p.0 || admin == p.1 || (cancellation && !started) then None
      else if exists j | 0 <= j < |l.events| :: l.events[j].penaltyFor == Some((booking, user)) then Some(l)
      else Apply(l, Ask(user, if cancellation then -5 else -10, if cancellation then CancellationKey(id, user)
          else ReportKey(id),
                        if cancellation then CancellationPenalty
                            else ReportPenalty, Some(booking), Some((booking, user)), None, false,
                            Why(reason, Some(admin))))
  }

  // -------------------------------------------------------------------- runs

  /** Every step first lets the clock run on by `elapsed`. */
  datatype Step =
    | NewUser(user: Id)
    | NewBooking(booking: Id, provider: Id, seeker: Id)
    | Plainly(user: Id, delta: int, id: Id, category: Category, why: Why)
    | CorrectOne(user: Id, event: nat, admin: Id, operation: Id, reason: string)
    | Uphold(event: nat, appeal: Id, admin: Id, reason: string)
    | Reward(booking: Id, eligible: bool, active: (bool, bool))
    | Punish(booking: Id, user: Id, admin: Id, cancellation: bool, started: bool, id: Id, reason: string)

  function Attempted(l: Ledger, s: Step): Option<Ledger> {
    match s
    case NewUser(user) => Join(l, user)
    case NewBooking(booking, provider, seeker) => Open(l, booking, provider, seeker)
    case Plainly(user, delta, id, category, why) =>
      if category == Completion then None
          else Apply(l, Ask(user, delta, OtherKey(id), category, None, None, None, false, why))
    case CorrectOne(user, event, admin, operation, reason) => Correct(l, user, event, admin, operation, reason)
    case Uphold(event, appeal, admin, reason) => Appeal(l, event, appeal, admin, reason)
    case Reward(booking, eligible, active) => Award(l, booking, eligible, active)
    case Punish(booking, user, admin, cancellation, started, id, reason) =>
      Penalize(l, booking, user, admin, cancellation, started, id, reason)
  }

  function Do(l: Ledger, elapsed: nat, s: Step): Ledger {
    var r := Attempted(Later(l, elapsed), s);
    if r.Some? then r.value else Later(l, elapsed)
  }

  function Run(l: Ledger, steps: seq<(nat, Step)>): Ledger
    decreases |steps|
  {
    if steps == [] then l else Run(Do(l, steps[0].0, steps[0].1), steps[1..])
  }

  function EmptyLedger(): Ledger { Ledger(map[], map[], [], map[], 0) }
}
