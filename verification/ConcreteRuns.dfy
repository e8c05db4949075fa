/** Concrete runs: one in which a dismissed report gives the booking back, and two in
    which the protocol falls short (money both refunded and released, and a reserved
    decision that can never finish). */
module ConcreteRuns {
  import opened BookingRows
  import opened Transactions
  import opened Interleaving
  import opened ResolutionInvariant
  import opened ResolutionRuns

  function PaidBooking(): Db {
    Db(Booking(true, Accepted, None, PaidHeld, false), Some(QueueRow(QWaiting, PaidHeld)), None, [], false,
       map[], map[], map[], map[], [], None)
  }

  /** A cash agreement, at once accepted or waiting for the provider. */
  function CashBooking(status: BookingStatus): Db {
    Db(Booking(false, status, None, Unpaid, false), None, None, [], false, map[], map[], map[], map[], [], None)
  }

  /** These are all the bookings a run can start from. */
  lemma CreatedExactly(db: Db)
    ensures Fresh(db) <==>
              db == PaidBooking() || db == CashBooking(Accepted) || db == CashBooking(PendingApproval)
  {
  }

  const CALM := Account(true, false, false)

  /** The job is finished, a cancellation is filed and its approval is reserved. */
  function ReservedByResponder(): seq<Step> {
    [ProviderStarts, ProviderFinishes, FileCancellation(0, 0), CallParticipant(1, 0), Advance(1, CALM, Refuses, 7)]
  }

  function WhileReserved(status: OpStatus, refund: Option<Refund>, gateway: Option<Id>): Db {
    Db(Booking(true, AwaitingConfirmation, None, PaidHeld, true), Some(QueueRow(QDone, PaidHeld)), refund, [], false,
       map[], map[0 := Cancellation(CUnderReview, false, None)], map[],
       map[CancellationCase(0) := Operation(Reserved, status, ParticipantApprove, NoPenalty)], [], gateway)
  }

  const APPROVAL := Resolve(CancellationCase(0), ParticipantApprove, NoPenalty)

  lemma FiledRuns()
    ensures var w0 := World(PaidBooking(), map[]);
            var d := WhileReserved(Processing, None, None);
            Do(Do(Do(w0, ProviderStarts), ProviderFinishes), FileCancellation(0, 0))
              == World(d.(cancellations := map[0 := Cancellation(CPending, false, None)], ops := map[]), map[])
  {
    var w1 := Do(World(PaidBooking(), map[]), ProviderStarts);
    var w2 := Do(w1, ProviderFinishes);
    assert w2.db == PaidBooking().(booking := Booking(true, AwaitingConfirmation, None, PaidHeld, true),
        queue := Some(QueueRow(QDone, PaidHeld)));
  }

  lemma ClaimedAndReservedRuns()
    ensures var d := WhileReserved(Processing, None, None);
            var w3 := World(d.(cancellations := map[0 := Cancellation(CPending, false, None)], ops := map[]), map[]);
            Do(Do(w3, CallParticipant(1, 0)), Advance(1, CALM, Refuses, 7))
                == World(d, map[1 := Call(APPROVAL, AtCancelRead)])
  {
    var d := WhileReserved(Processing, None, None);
    var w3 := World(d.(cancellations := map[0 := Cancellation(CPending, false, None)], ops := map[]), map[]);
    var w4 := Do(w3, CallParticipant(1, 0));
    assert w4.db.cancellations == d.cancellations;
    assert w4.db.ops == map[CancellationCase(0) := Operation(Claimed, Processing, ParticipantApprove, NoPenalty)];
    assert w4.calls == map[1 := Call(APPROVAL, AtReserve)];
    assert Reserve(w4.db, CancellationCase(0)).value.ops == d.ops;
  }

  lemma ReservedByResponderRuns()
    ensures Run(World(PaidBooking(), map[]), ReservedByResponder())
              == World(WhileReserved(Processing, None, None), map[1 := Call(APPROVAL, AtCancelRead)])
  {
    FiledRuns();
    ClaimedAndReservedRuns();
    RunFive(World(PaidBooking(), map[]), ReservedByResponder());
  }

  lemma RunTwo(w: World, s: seq<Step>)
    requires |s| == 2
    ensures Run(w, s) == Do(Do(w, s[0]), s[1])
  {
    assert Run(Do(w, s[0]), s[1..]) == Run(Do(Do(w, s[0]), s[1]), s[1..][1..]);
  }

  lemma RunFive(w: World, s: seq<Step>)
    requires |s| == 5
    ensures Run(w, s) == Do(Do(Do(Do(Do(w, s[0]), s[1]), s[2]), s[3]), s[4])
  {
    RunTwo(w, s[..2]);
    RunTwo(Do(Do(w, s[0]), s[1]), s[2..4]);
    RunSplits(w, s[..2], s[2..]);
    RunSplits(Do(Do(w, s[0]), s[1]), s[2..4], s[4..]);
    assert s[..2] + s[2..] == s && s[2..4] + s[4..] == s[2..];
    assert s[4..][1..] == [];
  }

  /** The gateway accepts, but its answer is lost and the error path records a failure. */
  function AnswerLost(): seq<Step> {
    [Advance(1, CALM, Refuses, 7), Advance(1, CALM, Refuses, 7), Advance(1, CALM, Refuses, 7),
     Advance(1, CALM, AcceptsButAnswerLost, 7), Advance(1, CALM, Refuses, 7)]
  }

  lemma GatewayAnswerLost()
    ensures var w :=
              World(WhileReserved(Processing, Some(Refund(RProcessing, None)), None),
              map[1 := Call(APPROVAL, AtGateway)]);
            Do(Do(w, Advance(1, CALM, AcceptsButAnswerLost, 7)), Advance(1, CALM, Refuses, 7))
              == World(WhileReserved(Processing, Some(Refund(RFailed, None)), Some(7)),
                  map[1 := Call(APPROVAL, AtFailure)])
  {
    var w := World(WhileReserved(Processing, Some(Refund(RProcessing, None)), None),
        map[1 := Call(APPROVAL, AtGateway)]);
    assert Do(w, Advance(1, CALM, AcceptsButAnswerLost, 7))
        == World(WhileReserved(Processing, Some(Refund(RProcessing, None)), Some(7)),
            map[1 := Call(APPROVAL, AtGatewayError)]);
  }

  /** The two reads and the reservation that lead to the gateway. */
  lemma GatewayReached()
    ensures var w := World(WhileReserved(Processing, None, None), map[1 := Call(APPROVAL, AtCancelRead)]);
            var s := Advance(1, CALM, Refuses, 7);
            Do(Do(Do(w, s), s), s)
              == World(WhileReserved(Processing, Some(Refund(RProcessing, None)), None),
                  map[1 := Call(APPROVAL, AtGateway)])
  {
    var d := WhileReserved(Processing, None, None);
    var s := Advance(1, CALM, Refuses, 7);
    var w2 := Do(Do(World(d, map[1 := Call(APPROVAL, AtCancelRead)]), s), s);
    assert w2 == World(d, map[1 := Call(APPROVAL, AtRefundReserve)]);
  }

  lemma AnswerLostRuns()
    ensures Run(World(WhileReserved(Processing, None, None), map[1 := Call(APPROVAL, AtCancelRead)]), AnswerLost())
              == World(WhileReserved(Processing, Some(Refund(RFailed, None)), Some(7)),
                  map[1 := Call(APPROVAL, AtFailure)])
  {
    GatewayReached();
    GatewayAnswerLost();
    RunFive(World(WhileReserved(Processing, None, None), map[1 := Call(APPROVAL, AtCancelRead)]), AnswerLost());
  }

  /** Without truthful failures it happens: the gateway sends the money back, the
      error path forgets it, and the seeker's confirmation releases the money too. */
  lemma RefundedAndReleasedHappens()
    ensures Fresh(PaidBooking())
    ensures var d := After(PaidBooking(), ReservedByResponder() + AnswerLost() + [SeekerConfirms]);
            d.gateway == Some(7) && d.released && d.booking.payment == Released
  {
    ReservedByResponderRuns();
    AnswerLostRuns();
    LostThenConfirmed(World(PaidBooking(), map[]), ReservedByResponder(), AnswerLost());
  }

  lemma LostThenConfirmed(w: World, first: seq<Step>, second: seq<Step>)
    requires Run(Run(w, first), second)
               == World(WhileReserved(Processing, Some(Refund(RFailed, None)), Some(7)),
                   map[1 := Call(APPROVAL, AtFailure)])
    ensures var d := Run(w, first + second + [SeekerConfirms]).db;
            d.gateway == Some(7) && d.released && d.booking.payment == Released
  {
    RunSplits(w, first, second);
    RunThenOne(w, first + second, SeekerConfirms);
    ConfirmedAfterLoss();
  }

  lemma RunThenOne(w: World, steps: seq<Step>, s: Step)
    ensures Run(w, steps + [s]) == Do(Run(w, steps), s)
  {
    RunSplits(w, steps, [s]);
    assert [s][1..] == [];
  }

  lemma ConfirmedAfterLoss()
    ensures var w :=
              World(WhileReserved(Processing, Some(Refund(RFailed, None)), Some(7)),
              map[1 := Call(APPROVAL, AtFailure)]);
            var d := Do(w, SeekerConfirms).db;
            d.gateway == Some(7) && d.released && d.booking.payment == Released
  {
  }

  // ------------------------------------------------------ a stranded decision

  lemma ConfirmedWhileReserved()
    ensures var d := After(PaidBooking(), ReservedByResponder() + [SeekerConfirms]);
            && d.booking.status == Completed
            && CancellationCase(0) in d.ops
                && d.ops[CancellationCase(0)] == Operation(Reserved, Processing, ParticipantApprove, NoPenalty)
  {
    ReservedByResponderRuns();
    RunSplits(World(PaidBooking(), map[]), ReservedByResponder(), [SeekerConfirms]);
    var w := World(WhileReserved(Processing, None, None), map[1 := Call(APPROVAL, AtCancelRead)]);
    assert Run(w, [SeekerConfirms]) == Do(w, SeekerConfirms);
  }

  /** A financial decision against a booking completed otherwise never finishes. */
  lemma CompletedStrandsCancelling(db: Db, steps: seq<Step>, later: seq<Step>, key: CaseKey)
    requires Fresh(db)
    requires var d := After(db, steps);
             d.booking.status == Completed && key in d.ops && d.ops[key].HoldsMoney() && Cancels(d.ops[key].outcome)
    ensures var d := After(db, steps + later);
            d.booking.status == Completed && key in d.ops && d.ops[key].stage == Reserved && d.ops[key].status != Done
  {
    HistoryOnlyMovesForward(db, steps, later);
    AfterIsGood(db, steps + later);
    var d := After(db, steps + later);
    assert OpShape(key, d.ops[key]) && OpOnBooking(key, d.ops[key], d.booking);
  }

  /** The seeker's confirmation is not held back by a reserved cancellation: it
      completes the booking, and the reserved decision can then never finish. */
  lemma ConfirmationStrandsReservedCancellation(later: seq<Step>)
    ensures Fresh(PaidBooking())
    ensures var d := After(PaidBooking(), ReservedByResponder() + [SeekerConfirms] + later);
            && d.booking.status == Completed
            && CancellationCase(0) in d.ops && d.ops[CancellationCase(0)].HoldsMoney()
  {
    ConfirmedWhileReserved();
    CompletedStrandsCancelling(PaidBooking(), ReservedByResponder() + [SeekerConfirms], later, CancellationCase(0));
  }

  // ------------------------------------------------------------ a round trip

  /** A safety report is filed and dismissed. */
  function ReportDismissed(): seq<Step> {
    [FileSafetyReport(0), CallReport(1, 0, Dismiss, NoPenalty, CALM), Advance(1, CALM, Refuses, 7),
        Advance(1, CALM, Refuses, 7)]
  }

  const DISMISSAL := Resolve(ReportCase(0), Dismiss, NoPenalty)

  function Reported(status: ReportStatus, ops: map<CaseKey, Operation>): Db {
    PaidBooking().(booking := Booking(true, Disputed, Some(Accepted), FrozenHeld, false),
        queue := Some(QueueRow(QWaiting, FrozenHeld)),
                   reports := map[0 := Report(Safety, status)], ops := ops)
  }

  lemma ReportFiledAndClaimed()
    ensures var w := Do(World(PaidBooking(), map[]), FileSafetyReport(0));
            && w == World(Reported(RpPending, map[]), map[])
            && Do(w, CallReport(1, 0, Dismiss, NoPenalty, CALM))
                 == World(Reported(RpUnderReview,
                     map[ReportCase(0) := Operation(Claimed, Processing, Dismiss, NoPenalty)]),
                     map[1 := Call(DISMISSAL, AtMarkReady)])
  {
    var w := Do(World(PaidBooking(), map[]), FileSafetyReport(0));
    assert w.db == Reported(RpPending, map[]);
    var v := Do(w, CallReport(1, 0, Dismiss, NoPenalty, CALM));
    assert v.db.reports == map[0 := Report(Safety, RpUnderReview)];
    assert v.db.ops == map[ReportCase(0) := Operation(Claimed, Processing, Dismiss, NoPenalty)];
    assert v.calls == map[1 := Call(DISMISSAL, AtMarkReady)];
  }

  lemma DismissedAndRestored()
    ensures var w :=
              World(Reported(RpUnderReview, map[ReportCase(0) := Operation(Claimed, Processing, Dismiss, NoPenalty)]),
              map[1 := Call(DISMISSAL, AtMarkReady)]);
            var d := Do(Do(w, Advance(1, CALM, Refuses, 7)), Advance(1, CALM, Refuses, 7)).db;
            d.booking == PaidBooking().booking && d.queue == PaidBooking().queue
  {
    var w := World(Reported(RpUnderReview, map[ReportCase(0) := Operation(Claimed, Processing, Dismiss, NoPenalty)]),
        map[1 := Call(DISMISSAL, AtMarkReady)]);
    var v := Do(w, Advance(1, CALM, Refuses, 7));
    assert v == World(Reported(RpUnderReview,
        map[ReportCase(0) := Operation(DecisionReady, Processing, Dismiss, NoPenalty)]),
        map[1 := Call(DISMISSAL, AtFinalize)]);
    var r := FinalizeReport(v.db, 0, Dismiss, NoPenalty, CALM);
    assert r.Some?;
    assert !OtherReport(map[0 := Report(Safety, RpDismissed)], None);
  }

  /** The booking is paused by the report and comes back exactly as it was. */
  lemma DismissalGivesTheBookingBack()
    ensures Fresh(PaidBooking())
    ensures After(PaidBooking(), [FileSafetyReport(0)]).booking.Paused()
    ensures var d := After(PaidBooking(), ReportDismissed());
            d.booking == PaidBooking().booking && d.queue == PaidBooking().queue
  {
    ReportFiledAndClaimed();
    DismissedAndRestored();
    var w := World(PaidBooking(), map[]);
    RunThenOne(w, [], FileSafetyReport(0));
    assert [] + [FileSafetyReport(0)] == [FileSafetyReport(0)];
    RunFour(w, ReportDismissed());
  }

  lemma RunFour(w: World, s: seq<Step>)
    requires |s| == 4
    ensures Run(w, s) == Do(Do(Do(Do(w, s[0]), s[1]), s[2]), s[3])
  {
    RunTwo(w, s[..2]);
    RunTwo(Do(Do(w, s[0]), s[1]), s[2..]);
    RunSplits(w, s[..2], s[2..]);
    assert s[..2] + s[2..] == s;
  }
}
