/** What a reserved release to the provider can rely on, whatever ran before it. */
module ReleaseInvariant {
  import opened BookingRows
  import opened Transactions
  import opened ResolutionInvariant
  import opened PauseRestore

  predicate OpenDisputeIn(reports: map<Id, Report>, r: Id) {
    r in reports && reports[r].Active() && reports[r].kind == CompletionDispute
  }

  predicate OpenImmediateIn(cancellations: map<Id, Cancellation>, c: Id) {
    c in cancellations && cancellations[c].Active() && cancellations[c].immediate
  }

  /** Paused by its completion dispute, with the payment frozen. */
  predicate DisputedCompletion(b: Booking) {
    b.status == Disputed && b.before == Some(AwaitingConfirmation) && (b.online ==> b.payment == FrozenHeld)
  }

  predicate CancelsReport(ops: map<CaseKey, Operation>, r: Id) {
    ReportCase(r) in ops && ops[ReportCase(r)].outcome == CancelBooking
  }

  /** An open completion dispute keeps its booking disputed until a decision settles it. */
  ghost predicate DisputesParked(db: Db) {
    forall r | OpenDisputeIn(db.reports, r) ::
      DisputedCompletion(db.booking) || db.booking.status == Completed
          || (db.booking.status == Canceled && CancelsReport(db.ops, r))
  }

  /** Under review because of a cancellation before the start. */
  predicate EarlyReview(b: Booking) { b.status == UnderReview && !b.started && b.before != Some(AwaitingConfirmation) }

  ghost predicate ImmediateParked(db: Db) {
    forall c | OpenImmediateIn(db.cancellations, c) :: EarlyReview(db.booking) || db.booking.status == Canceled
  }

  predicate WorkBegun(s: BookingStatus) { s == Ongoing || s == AwaitingConfirmation }

  predicate StartedFits(b: Booking) {
    && (WorkBegun(b.status) || (b.before.Some? && WorkBegun(b.before.value)) ==> b.started)
    && (b.status == Accepted || b.before == Some(Accepted) ==> !b.started)
  }

  ghost predicate SomeImmediate(db: Db) { exists c :: OpenImmediateIn(db.cancellations, c) }

  ghost predicate CancellingHolder(ops: map<CaseKey, Operation>) {
    exists k | k in ops :: ops[k].HoldsMoney() && Cancels(ops[k].outcome)
  }

  ghost predicate ReleasingHolder(ops: map<CaseKey, Operation>) {
    exists k | k in ops :: ops[k].HoldsMoney() && ops[k].outcome == ReleaseAndComplete
  }

  /** A refund belongs to a decision that holds the money or to an immediate cancellation, and only a
      recorded refund is ever at the gateway. */
  ghost predicate RefundOwned(db: Db) {
    && (db.gateway.Some? ==> db.refund.Some?)
    && (db.refund.Some? && !db.booking.Terminal() ==> CancellingHolder(db.ops) || SomeImmediate(db))
  }

  /** The request of a cancellation decision that holds the money stays under review until the booking is
      settled; requests that are not immediate were made after the start. */
  ghost predicate RequestsHeld(db: Db) {
    && (forall id | CancellationCase(id) in db.ops && db.ops[CancellationCase(id)].HoldsMoney()
          && !db.booking.Terminal() ::
          id in db.cancellations && db.cancellations[id].status == CUnderReview)
    && (forall c | c in db.cancellations && !db.cancellations[c].immediate :: db.booking.started)
  }

  predicate DirectKey(k: CaseKey) { k.CompletionCase? || k.AdminCase? }

  ghost predicate DirectHolder(ops: map<CaseKey, Operation>) {
    exists k | k in ops :: DirectKey(k) && ops[k].HoldsMoney()
  }

  /** A booking under review is there for a decision that holds the money or an immediate cancellation. */
  ghost predicate ReviewOwned(db: Db) {
    db.booking.status == UnderReview ==> DirectHolder(db.ops) || SomeImmediate(db)
  }

  /** Releases are decided on completion disputes, and directly only for online bookings. */
  ghost predicate ReleaseKinds(db: Db) {
    && (forall r | ReportCase(r) in db.ops && db.ops[ReportCase(r)].outcome == ReleaseAndComplete ::
          r in db.reports && db.reports[r].kind == CompletionDispute)
    && (AdminCase in db.ops && db.ops[AdminCase].outcome == ReleaseAndComplete ==> db.booking.online)
  }

  /** What a completion or direct decision left when it put the booking under review. */
  predicate ReviewedFor(b: Booking, o: Outcome) {
    (b.online ==> b.payment == PaidHeld) && (o == ReleaseAndComplete ==> b.before == Some(AwaitingConfirmation))
  }

  ghost predicate DirectHeld(db: Db) {
    forall k | k in db.ops && DirectKey(k) && db.ops[k].HoldsMoney() ::
      db.booking.status == UnderReview ==> ReviewedFor(db.booking, db.ops[k].outcome)
  }

  ghost predicate Releasing(db: Db) {
    && DisputesParked(db) && ImmediateParked(db) && StartedFits(db.booking)
    && RefundOwned(db) && RequestsHeld(db) && ReviewOwned(db) && ReleaseKinds(db) && DirectHeld(db)
  }

  // ------------------------------------------------ what one step may do

  ghost predicate DisputeLink(a: Db, d: Db) {
    && (forall r | OpenDisputeIn(d.reports, r) && r !in a.reports :: DisputedCompletion(d.booking))
    && (!a.booking.Terminal() && d.booking.status == Canceled ==>
          forall r | OpenDisputeIn(d.reports, r) :: CancelsReport(d.ops, r))
  }

  ghost predicate ImmediateLink(a: Db, d: Db) {
    && (forall c | OpenImmediateIn(d.cancellations, c) && c !in a.cancellations :: EarlyReview(d.booking))
    && (a.booking.Paused() && d.booking.status == Completed ==>
          a.booking.before == Some(AwaitingConfirmation) && ReleasingHolder(a.ops))
  }

  ghost predicate RefundLink(a: Db, d: Db) {
    && (d.gateway.Some? ==> a.gateway.Some? || a.refund.Some?)
    && (d.refund.Some? ==> a.refund.Some? || d.booking.Terminal() || CancellingHolder(d.ops) || SomeImmediate(d))
  }

  /** A request leaves review only when the booking is cancelled or its decision is finished. */
  ghost predicate RequestLink(a: Db, d: Db) {
    && (forall id | CancellationCase(id) in d.ops && d.ops[CancellationCase(id)].HoldsMoney()
                    && !(CancellationCase(id) in a.ops && a.ops[CancellationCase(id)].HoldsMoney()) ::
          id in d.cancellations && d.cancellations[id].status == CUnderReview)
    && (forall c | c in a.cancellations && a.cancellations[c].status == CUnderReview ::
          || (c in d.cancellations && d.cancellations[c].status == CUnderReview)
          || d.booking.status == Canceled
          || (CancellationCase(c) in d.ops && d.ops[CancellationCase(c)].status == Done))
    && (forall c | c in d.cancellations && c !in a.cancellations && !d.cancellations[c].immediate :: d.booking.started)
  }

  ghost predicate ReviewLink(a: Db, d: Db) {
    && (a.booking.status != UnderReview && d.booking.status == UnderReview ==> DirectHolder(d.ops) || SomeImmediate(d))
    && (forall k | k in d.ops && DirectKey(k) && d.ops[k].HoldsMoney() && d.booking.status == UnderReview
                   && !(k in a.ops && a.ops[k].HoldsMoney()) :: ReviewedFor(d.booking, d.ops[k].outcome))
  }

  ghost predicate ReleaseLink(a: Db, d: Db) {
    && (forall r | ReportCase(r) in d.ops && ReportCase(r) !in a.ops
          && d.ops[ReportCase(r)].outcome == ReleaseAndComplete ::
          r in d.reports && d.reports[r].kind == CompletionDispute)
    && (AdminCase in d.ops && AdminCase !in a.ops && d.ops[AdminCase].outcome == ReleaseAndComplete ==>
          d.booking.online)
  }

  ghost predicate Link(a: Db, d: Db) {
    DisputeLink(a, d) && ImmediateLink(a, d) && RefundLink(a, d) && RequestLink(a, d) && ReviewLink(a, d)
        && ReleaseLink(a, d)
    && StartedFits(d.booking)
  }

  /** The link as one fact that proofs hand on whole. */
  ghost predicate Linked(a: Db, d: Db) { forall x | Is(x, d) :: Link(a, x) }

  lemma LinkedMeans(a: Db, d: Db)
    ensures Linked(a, d) <==> Link(a, d)
  {
    assert Is(d, d);
  }

  /** What every step is known to keep. */
  ghost predicate Steady(a: Db, d: Db) { Good(a) && Good(d) && Evolves(a, d) && PauseSteps(a, d) }

  lemma DisputesStayParked(a: Db, d: Db)
    requires Steady(a, d) && DisputesParked(a) && DisputeLink(a, d)
    ensures DisputesParked(d)
  {
    forall r | OpenDisputeIn(d.reports, r)
      ensures DisputedCompletion(d.booking) || d.booking.status == Completed
                || (d.booking.status == Canceled && CancelsReport(d.ops, r))
    {
      if r in a.reports {
        assert OpenDisputeIn(a.reports, r);
        assert OtherReport(d.reports, None);
      }
    }
  }

  lemma ImmediatesStayParked(a: Db, d: Db)
    requires Steady(a, d) && ImmediateParked(a) && ImmediateLink(a, d)
    ensures ImmediateParked(d)
  {
    forall c | OpenImmediateIn(d.cancellations, c) ensures EarlyReview(d.booking) || d.booking.status == Canceled {
      if c in a.cancellations {
        assert OpenImmediateIn(a.cancellations, c);
        assert OtherCancellation(d.cancellations, None);
      }
    }
  }

  lemma ImmediateLasts(a: Db, d: Db)
    requires Steady(a, d) && SomeImmediate(a) && !d.booking.Terminal()
    ensures SomeImmediate(d)
  {
    var c :| OpenImmediateIn(a.cancellations, c);
    assert OpenImmediateIn(d.cancellations, c);
  }

  lemma HolderLasts(a: Db, d: Db, k: CaseKey)
    requires Steady(a, d) && k in a.ops && a.ops[k].HoldsMoney() && !d.booking.Terminal()
    ensures k in d.ops && d.ops[k].HoldsMoney() && d.ops[k].outcome == a.ops[k].outcome
  {
    assert OpShape(k, a.ops[k]) && OpShape(k, d.ops[k]) && OpOnBooking(k, d.ops[k], d.booking);
  }

  lemma RefundStaysOwned(a: Db, d: Db)
    requires Steady(a, d) && RefundOwned(a) && RefundLink(a, d)
    ensures RefundOwned(d)
  {
    if d.refund.Some? && !d.booking.Terminal() && a.refund.Some? {
      if CancellingHolder(a.ops) {
        var k :| k in a.ops && a.ops[k].HoldsMoney() && Cancels(a.ops[k].outcome);
        HolderLasts(a, d, k);
      } else {
        ImmediateLasts(a, d);
      }
    }
  }

  lemma RequestsStayHeld(a: Db, d: Db)
    requires Steady(a, d) && RequestsHeld(a) && RequestLink(a, d)
    ensures RequestsHeld(d)
  {
    forall id | CancellationCase(id) in d.ops && d.ops[CancellationCase(id)].HoldsMoney() && !d.booking.Terminal()
      ensures id in d.cancellations && d.cancellations[id].status == CUnderReview
    {
      if CancellationCase(id) in a.ops && a.ops[CancellationCase(id)].HoldsMoney() {
        assert id in a.cancellations && a.cancellations[id].status == CUnderReview;
      }
    }
  }

  lemma ReviewStaysOwned(a: Db, d: Db)
    requires Steady(a, d) && ReviewOwned(a) && ReviewLink(a, d)
    ensures ReviewOwned(d)
  {
    if d.booking.status == UnderReview && a.booking.status == UnderReview {
      if DirectHolder(a.ops) {
        var k :| k in a.ops && DirectKey(k) && a.ops[k].HoldsMoney();
        HolderLasts(a, d, k);
      } else {
        ImmediateLasts(a, d);
      }
    }
  }

  lemma DirectStaysHeld(a: Db, d: Db)
    requires Steady(a, d) && DirectHeld(a) && ReviewLink(a, d)
    ensures DirectHeld(d)
  {
    forall k | k in d.ops && DirectKey(k) && d.ops[k].HoldsMoney() && d.booking.status == UnderReview
      ensures ReviewedFor(d.booking, d.ops[k].outcome)
    {
      if k in a.ops && a.ops[k].HoldsMoney() {
        assert OpShape(k, a.ops[k]) && OpOnBooking(k, a.ops[k], a.booking);
      }
    }
  }

  /** The invariant survives every step that keeps to its link. */
  lemma LinkKeeps(a: Db, d: Db)
    requires Steady(a, d) && Releasing(a) && Link(a, d)
    ensures Releasing(d)
  {
    DisputesStayParked(a, d);
    ImmediatesStayParked(a, d);
    RefundStaysOwned(a, d);
    RequestsStayHeld(a, d);
    ReviewStaysOwned(a, d);
    DirectStaysHeld(a, d);
    assert ReleaseKinds(d);
  }
}
