/** What an undisturbed service call computes, as a function of the rows it starts from.
    The flag tells whether it went through or threw. Each is shown to be the solo run of
    the same call in the interleaved model. */
module CallOutcomes {
  import opened BookingRows
  import opened Transactions
  import opened Interleaving
  import opened CrashRecovery

  function Flag(db: Db, r: Option<Db>): (Db, bool) { if r.Some? then (r.value, true) else (db, false) }

  /** Ask the gateway, then finalize or record the failure. */
  function SubmittedRefund(db: Db, answer: GatewayAnswer, mint: Id): (Db, bool) {
    var asked := if answer.Refuses? then db else db.(gateway := Some(AcceptedRefund(db, mint)));
    if answer.Accepts? then Flag(asked, RefundFinalize(asked, false, AcceptedRefund(db, mint), answer.status))
    else
      var failed := RefundMarkFailed(asked);
      (if failed.Some? then failed.value else asked, false)
  }

  /** Reserve the refund and carry it through, or resume one already on record. */
  function ReservedRefund(db: Db, answer: GatewayAnswer, mint: Id): (Db, bool) {
    var r := RefundReserve(db);
    if r.None? then (db, false)
    else if r.value.refund.Some? && r.value.refund.value.gatewayId.Some?
    then Flag(r.value, RefundFinalize(r.value, true, r.value.refund.value.gatewayId.value, r.value.refund.value.status))
    else SubmittedRefund(r.value, answer, mint)
  }

  /** refundBookingPayment */
  function RefundCall(db: Db, answer: GatewayAnswer, mint: Id): (Db, bool) {
    var recorded := db.refund.Some? && db.refund.value.gatewayId.Some?;
    if db.queue.None? then (db, false)
    else if recorded && db.booking.status == Canceled && db.booking.payment == Refunded then (db, true)
    else if !recorded && !db.booking.Held() then (db, false)
    else ReservedRefund(db, answer, mint)
  }

  /** performImmediateCancel as a decision calls it. */
  function CancelCall(db: Db, answer: GatewayAnswer, mint: Id): (Db, bool) {
    if db.booking.status == Completed || db.booking.status == Declined then (db, false)
    else if db.booking.Held() then Closed(RefundCall(db, answer, mint))
    else Flag(db, CancelClose(db, false, false))
  }

  /** Record that the money was moved. */
  function Marked(moved: (Db, bool), key: CaseKey): (Db, bool) {
    if moved.1 then Flag(moved.0, MarkStage(moved.0, key, Established)) else moved
  }

  /** Move the money as the outcome says. */
  function MoneySent(db: Db, outcome: Outcome, answer: GatewayAnswer, mint: Id): (Db, bool) {
    if Cancels(outcome) then CancelCall(db, answer, mint) else Flag(db, Settle(db, true))
  }

  /** Move the money, then record that it was moved. */
  function EffectCall(db: Db, key: CaseKey, outcome: Outcome, answer: GatewayAnswer, mint: Id): (Db, bool) {
    Marked(MoneySent(db, outcome, answer, mint), key)
  }

  /** The part of a claimed report decision before its finalization. */
  function PreparedReport(db: Db, id: Id, outcome: Outcome, answer: GatewayAnswer, mint: Id): (Db, bool)
    requires ReportCase(id) in db.ops
  {
    var key := ReportCase(id);
    if Financial(outcome) && !db.ops[key].EffectEstablished() then
      ReservedEffect(db, key, outcome, answer, mint)
    else Flag(db, MarkStage(db, key, DecisionReady))
  }

  /** Finalize, or record the failure of whichever step threw. */
  function ClosedOrFailed(prepared: (Db, bool), id: Id, outcome: Outcome, penalty: Penalty, a: Account): (Db, bool) {
    var closed := FinalizeReport(prepared.0, id, outcome, penalty, a);
    if prepared.1 && closed.Some? then (closed.value, true) else (MarkFailed(prepared.0, ReportCase(id)), false)
  }

  /** A claimed report decision carried to its end. */
  function CarriedReport(db: Db, id: Id, outcome: Outcome, penalty: Penalty, a: Account, answer: GatewayAnswer,
      mint: Id): (Db, bool)
    requires ReportCase(id) in db.ops
  {
    ClosedOrFailed(PreparedReport(db, id, outcome, answer, mint), id, outcome, penalty, a)
  }

  // ------------------------------------------------- they are the solo runs

  /** From one point of a call to another: the rest of the run is the same. */
  ghost predicate Leads(d: Db, c: Call, d': Db, c': Call, a: Account, answer: GatewayAnswer, mint: Id, n: nat, m: nat) {
    forall end | EndsIn(d', c', a, answer, mint, m, end) :: EndsIn(d, c, a, answer, mint, n, end)
  }

  lemma LeadsTo(d: Db, c: Call, d': Db, c': Call, a: Account, answer: GatewayAnswer, mint: Id, n: nat, m: nat)
    ensures Leads(d, c, d', c', a, answer, mint, n, m) <==>
              Alone(d, c, a, answer, mint, n) == Alone(d', c', a, answer, mint, m)
  {
    if Leads(d, c, d', c', a, answer, mint, n, m) {
      assert EndsIn(d', c', a, answer, mint, m, Alone(d', c', a, answer, mint, m));
    }
  }

  /** The run goes on at `pc` if the outcome `r` went through, and at the failure handler if it threw. */
  ghost predicate Ends(d: Db, c: Call, r: (Db, bool), t: Task, pc: Pc, a: Account, answer: GatewayAnswer, mint: Id,
      n: nat, m: nat) {
    if r.1 then Leads(d, c, r.0, Call(t, pc), a, answer, mint, n, m)
        else Leads(d, c, r.0, Call(t, AtFailure), a, answer, mint, n, m)
  }

  lemma RefundTail(db: Db, t: Task, resumed: bool, id: Id, status: RefundStatus, a: Account, answer: GatewayAnswer,
      mint: Id, n: nat)
    requires n >= 1 && t.Resolve?
    ensures var r := Flag(db, RefundFinalize(db, resumed, id, status));
            Ends(db, Call(t, AtRefundFinalize(resumed, id, status)), r, t, AtCancelClose(true), a, answer, mint,
                n, n - 1)
  {
  }

  lemma SubmittedIsSolo(db: Db, t: Task, a: Account, answer: GatewayAnswer, mint: Id, n: nat)
    requires n >= 2 && t.Resolve?
    ensures var r := SubmittedRefund(db, answer, mint);
            Ends(db, Call(t, AtGateway), r, t, AtCancelClose(true), a, answer, mint, n, n - 2)
  {
    var id := AcceptedRefund(db, mint);
    var asked := if answer.Refuses? then db else db.(gateway := Some(id));
    if answer.Accepts? {
      RefundTail(asked, t, false, id, answer.status, a, answer, mint, n - 1);
      FirstThen(db, Call(t, AtGateway), asked, Call(t, AtRefundFinalize(false, id, answer.status)),
                SubmittedRefund(db, answer, mint), t, AtCancelClose(true), a, answer, mint, n, n - 2);
    } else {
      OneStep(db, Call(t, AtGateway), asked, Call(t, AtGatewayError), a, answer, mint, n);
      OneStep(asked, Call(t, AtGatewayError), SubmittedRefund(db, answer, mint).0, Call(t, AtFailure), a, answer, mint,
          n - 1);
    }
  }

  lemma ReservedIsSolo(db: Db, t: Task, a: Account, answer: GatewayAnswer, mint: Id, n: nat) returns (used: nat)
    requires n >= 3 && t.Resolve?
    ensures used <= 3
    ensures var r := ReservedRefund(db, answer, mint);
            Ends(db, Call(t, AtRefundReserve), r, t, AtCancelClose(true), a, answer, mint, n, n - used)
  {
    var r := RefundReserve(db);
    if r.None? {
      used := 1;
    } else if r.value.refund.Some? && r.value.refund.value.gatewayId.Some? {
      RefundTail(r.value, t, true, r.value.refund.value.gatewayId.value, r.value.refund.value.status, a, answer, mint,
          n - 1);
      used := 2;
    } else {
      SubmittedIsSolo(r.value, t, a, answer, mint, n - 1);
      used := 3;
    }
  }

  /** What the unlocked reads of a refund see. */
  lemma RefundReads(db: Db, t: Task, a: Account, answer: GatewayAnswer, mint: Id)
    requires t.Resolve?
    ensures var recorded := db.refund.Some? && db.refund.value.gatewayId.Some?;
            AdvanceCall(db, Call(t, AtRefundRead), a, answer, mint) == (db, Call(t,
              if db.queue.None? then AtFailure
              else if recorded && db.booking.status == Canceled
                  && db.booking.payment == Refunded then AtCancelClose(true)
              else if !recorded && !db.booking.Held() then AtFailure
              else AtRefundReserve))
  {
  }

  lemma RefundIsSolo(db: Db, t: Task, a: Account, answer: GatewayAnswer, mint: Id, n: nat) returns (used: nat)
    requires n >= 4 && t.Resolve?
    ensures used <= 4
    ensures Ends(db, Call(t, AtRefundRead), RefundCall(db, answer, mint), t, AtCancelClose(true), a, answer, mint, n,
              n - used)
  {
    var recorded := db.refund.Some? && db.refund.value.gatewayId.Some?;
    RefundReads(db, t, a, answer, mint);
    if db.queue.None? || (!recorded && !db.booking.Held()) {
      used := 1;
      OneStep(db, Call(t, AtRefundRead), db, Call(t, AtFailure), a, answer, mint, n);
    } else if recorded && db.booking.status == Canceled && db.booking.payment == Refunded {
      used := 1;
      OneStep(db, Call(t, AtRefundRead), db, Call(t, AtCancelClose(true)), a, answer, mint, n);
    } else {
      used := ReadThenReserve(db, t, a, answer, mint, n);
    }
  }

  lemma ReadThenReserve(db: Db, t: Task, a: Account, answer: GatewayAnswer, mint: Id, n: nat) returns (used: nat)
    requires n >= 4 && t.Resolve?
               && AdvanceCall(db, Call(t, AtRefundRead), a, answer, mint) == (db, Call(t, AtRefundReserve))
    ensures used <= 4
    ensures Ends(db, Call(t, AtRefundRead), ReservedRefund(db, answer, mint), t, AtCancelClose(true), a, answer, mint,
              n, n - used)
  {
    var more := ReservedIsSolo(db, t, a, answer, mint, n - 1);
    used := more + 1;
    FirstThen(db, Call(t, AtRefundRead), db, Call(t, AtRefundReserve), ReservedRefund(db, answer, mint), t,
        AtCancelClose(true), a, answer, mint, n, n - used);
  }

  lemma CloseTail(db: Db, t: Task, held: bool, a: Account, answer: GatewayAnswer, mint: Id, n: nat)
    requires n >= 1 && t.Resolve?
    ensures var r := Flag(db, CancelClose(db, held, false));
            Ends(db, Call(t, AtCancelClose(held)), r, t, AtMarkEstablished, a, answer, mint, n, n - 1)
  {
  }

  /** Close the cancellation of a booking whose money has gone back. */
  function Closed(paid: (Db, bool)): (Db, bool) {
    if paid.1 then Flag(paid.0, CancelClose(paid.0, true, false)) else paid
  }

  lemma ThenClosed(db: Db, c: Call, paid: (Db, bool), t: Task, a: Account, answer: GatewayAnswer, mint: Id, n: nat,
      m: nat)
    requires m >= 1 && t.Resolve? && paid.1 && Ends(db, c, paid, t, AtCancelClose(true), a, answer, mint, n, m)
    ensures Ends(db, c, Closed(paid), t, AtMarkEstablished, a, answer, mint, n, m - 1)
  {
    CloseTail(paid.0, t, true, a, answer, mint, m);
  }

  lemma HeldCancelIsSolo(db: Db, t: Task, a: Account, answer: GatewayAnswer, mint: Id, n: nat) returns (used: nat)
    requires n >= 5 && t.Resolve?
    ensures used <= 5
    ensures Ends(db, Call(t, AtRefundRead), Closed(RefundCall(db, answer, mint)), t, AtMarkEstablished, a, answer, mint,
              n, n - used)
  {
    used := RefundIsSolo(db, t, a, answer, mint, n);
    if RefundCall(db, answer, mint).1 {
      ThenClosed(db, Call(t, AtRefundRead), RefundCall(db, answer, mint), t, a, answer, mint, n, n - used);
      used := used + 1;
    }
  }

  lemma FirstThen(d: Db, c: Call, d': Db, c': Call, r: (Db, bool), t: Task, pc: Pc, a: Account, answer: GatewayAnswer,
      mint: Id, n: nat, m: nat)
    requires n >= 1 && AdvanceCall(d, c, a, answer, mint) == (d', c')
               && Ends(d', c', r, t, pc, a, answer, mint, n - 1, m)
    ensures Ends(d, c, r, t, pc, a, answer, mint, n, m)
  {
    OneStep(d, c, d', c', a, answer, mint, n);
  }

  /** What the unlocked read of a cancellation sees. */
  lemma CancelReads(db: Db, t: Task, a: Account, answer: GatewayAnswer, mint: Id)
    requires t.Resolve?
    ensures AdvanceCall(db, Call(t, AtCancelRead), a, answer, mint) == (db, Call(t,
              if db.booking.status == Completed || db.booking.status == Declined then AtFailure
              else if db.booking.Held() then AtRefundRead else AtCancelClose(false)))
  {
  }

  lemma ReadThenRefund(db: Db, t: Task, a: Account, answer: GatewayAnswer, mint: Id, n: nat) returns (used: nat)
    requires n >= 6 && t.Resolve?
               && AdvanceCall(db, Call(t, AtCancelRead), a, answer, mint) == (db, Call(t, AtRefundRead))
    ensures used <= 6
    ensures Ends(db, Call(t, AtCancelRead), Closed(RefundCall(db, answer, mint)), t, AtMarkEstablished, a, answer, mint,
              n, n - used)
  {
    var more := HeldCancelIsSolo(db, t, a, answer, mint, n - 1);
    used := more + 1;
    FirstThen(db, Call(t, AtCancelRead), db, Call(t, AtRefundRead), Closed(RefundCall(db, answer, mint)), t,
        AtMarkEstablished, a, answer, mint, n, n - used);
  }

  lemma ReadThenClose(db: Db, t: Task, a: Account, answer: GatewayAnswer, mint: Id, n: nat)
    requires n >= 2 && t.Resolve?
               && AdvanceCall(db, Call(t, AtCancelRead), a, answer, mint) == (db, Call(t, AtCancelClose(false)))
    ensures Ends(db, Call(t, AtCancelRead), Flag(db, CancelClose(db, false, false)), t, AtMarkEstablished, a, answer,
              mint, n, n - 2)
  {
    CloseTail(db, t, false, a, answer, mint, n - 1);
    FirstThen(db, Call(t, AtCancelRead), db, Call(t, AtCancelClose(false)), Flag(db, CancelClose(db, false, false)), t,
        AtMarkEstablished, a, answer, mint, n, n - 2);
  }

  lemma CancelIsSolo(db: Db, t: Task, a: Account, answer: GatewayAnswer, mint: Id, n: nat) returns (used: nat)
    requires n >= 6 && t.Resolve?
    ensures used <= 6
    ensures Ends(db, Call(t, AtCancelRead), CancelCall(db, answer, mint), t, AtMarkEstablished, a, answer, mint, n,
              n - used)
  {
    CancelReads(db, t, a, answer, mint);
    if db.booking.status == Completed || db.booking.status == Declined {
      used := 1;
      OneStep(db, Call(t, AtCancelRead), db, Call(t, AtFailure), a, answer, mint, n);
    } else if db.booking.Held() {
      used := ReadThenRefund(db, t, a, answer, mint, n);
    } else {
      ReadThenClose(db, t, a, answer, mint, n);
      used := 2;
    }
  }

  lemma MarkTail(db: Db, t: Task, a: Account, answer: GatewayAnswer, mint: Id, n: nat)
    requires n >= 1 && t.Resolve?
    ensures var r := Flag(db, MarkStage(db, t.key, Established));
            Ends(db, Call(t, AtMarkEstablished), r, t, AtFinalize, a, answer, mint, n, n - 1)
    ensures var r := Flag(db, MarkStage(db, t.key, DecisionReady));
            Ends(db, Call(t, AtMarkReady), r, t, AtFinalize, a, answer, mint, n, n - 1)
  {
  }

  /** Recording the effect of money moved by the time `moved` was reached. */
  lemma MovedThenMarked(db: Db, c: Call, moved: (Db, bool), t: Task, a: Account, answer: GatewayAnswer, mint: Id,
      n: nat, m: nat)
    requires m >= 1 && t.Resolve? && moved.1 && Leads(db, c, moved.0, Call(t, AtMarkEstablished), a, answer, mint, n, m)
    ensures var r := Flag(moved.0, MarkStage(moved.0, t.key, Established));
            Ends(db, c, r, t, AtFinalize, a, answer, mint, n, m - 1)
  {
    MarkTail(moved.0, t, a, answer, mint, m);
  }

  lemma CancelEffectIsSolo(db: Db, t: Task, a: Account, answer: GatewayAnswer, mint: Id, n: nat) returns (used: nat)
    requires n >= 7 && t.Resolve? && Cancels(t.outcome)
    ensures used <= 7
    ensures var r := EffectCall(db, t.key, t.outcome, answer, mint);
            Ends(db, Call(t, AtCancelRead), r, t, AtFinalize, a, answer, mint, n, n - used)
  {
    used := CancelIsSolo(db, t, a, answer, mint, n);
    var moved := CancelCall(db, answer, mint);
    if moved.1 {
      MovedThenMarked(db, Call(t, AtCancelRead), moved, t, a, answer, mint, n, n - used);
      used := used + 1;
    }
  }

  lemma SettledGoesOn(db: Db, d: Db, t: Task, a: Account, answer: GatewayAnswer, mint: Id, n: nat)
    requires n >= 1 && Settle(db, true) == Some(d)
    ensures Leads(db, Call(t, AtSettle), d, Call(t, AtMarkEstablished), a, answer, mint, n, n - 1)
  {
    OneStep(db, Call(t, AtSettle), d, Call(t, AtMarkEstablished), a, answer, mint, n);
  }

  lemma SettleEffectIsSolo(db: Db, t: Task, a: Account, answer: GatewayAnswer, mint: Id, n: nat) returns (used: nat)
    requires n >= 2 && t.Resolve?
    ensures used <= 2
    ensures Ends(db, Call(t, AtSettle), Marked(Flag(db, Settle(db, true)), t.key), t, AtFinalize, a, answer, mint, n,
              n - used)
  {
    var settled := Settle(db, true);
    used := 1;
    if settled.Some? {
      SettledGoesOn(db, settled.value, t, a, answer, mint, n);
      MovedThenMarked(db, Call(t, AtSettle), (settled.value, true), t, a, answer, mint, n, n - 1);
      used := 2;
    } else {
      OneStep(db, Call(t, AtSettle), db, Call(t, AtFailure), a, answer, mint, n);
    }
  }

  /** Where the reserving transaction sends the call. */
  lemma ReserveSends(db: Db, t: Task, a: Account, answer: GatewayAnswer, mint: Id)
    requires t.Resolve? && t.key.ReportCase?
    ensures var reserved := Reserve(db, t.key);
            AdvanceCall(db, Call(t, AtReserve), a, answer, mint)
              == if reserved.None? then (db, Call(t, AtFailure))
                 else (reserved.value, Call(t, if Cancels(t.outcome) then AtCancelRead else AtSettle))
  {
  }

  lemma ReserveRefused(db: Db, t: Task, a: Account, answer: GatewayAnswer, mint: Id, n: nat)
    requires n >= 1 && AdvanceCall(db, Call(t, AtReserve), a, answer, mint) == (db, Call(t, AtFailure))
    ensures Ends(db, Call(t, AtReserve), (db, false), t, AtFinalize, a, answer, mint, n, n - 1)
  {
    OneStep(db, Call(t, AtReserve), db, Call(t, AtFailure), a, answer, mint, n);
  }

  /** The reserved effect of a report decision. */
  function ReservedEffect(db: Db, key: CaseKey, outcome: Outcome, answer: GatewayAnswer, mint: Id): (Db, bool) {
    var reserved := Reserve(db, key);
    if reserved.None? then (db, false) else EffectCall(reserved.value, key, outcome, answer, mint)
  }

  lemma ReservedEffectIsSolo(db: Db, t: Task, a: Account, answer: GatewayAnswer, mint: Id, n: nat) returns (used: nat)
    requires n >= 8 && t.Resolve? && t.key.ReportCase?
    ensures used <= 8
    ensures Ends(db, Call(t, AtReserve), ReservedEffect(db, t.key, t.outcome, answer, mint), t, AtFinalize, a, answer,
              mint, n, n - used)
  {
    var reserved := Reserve(db, t.key);
    ReserveSends(db, t, a, answer, mint);
    if reserved.None? {
      used := 1;
      ReserveRefused(db, t, a, answer, mint, n);
    } else {
      used := EffectOnceReserved(db, reserved.value, t, a, answer, mint, n);
    }
  }

  lemma EffectOnceReserved(db: Db, d: Db, t: Task, a: Account, answer: GatewayAnswer, mint: Id, n: nat)
      returns (used: nat)
    requires n >= 8 && t.Resolve?
    requires AdvanceCall(db, Call(t, AtReserve), a, answer, mint)
               == (d, Call(t, if Cancels(t.outcome) then AtCancelRead else AtSettle))
    ensures used <= 8
    ensures Ends(db, Call(t, AtReserve), EffectCall(d, t.key, t.outcome, answer, mint), t, AtFinalize, a, answer, mint,
              n, n - used)
  {
    var r, more := EffectIsSolo(d, t, a, answer, mint, n - 1);
    used := more + 1;
    var pc := if Cancels(t.outcome) then AtCancelRead else AtSettle;
    FirstThen(db, Call(t, AtReserve), d, Call(t, pc), r, t, AtFinalize, a, answer, mint, n, n - used);
  }

  /** The effect of a decision, from the point its reservation leads to. */
  lemma EffectIsSolo(db: Db, t: Task, a: Account, answer: GatewayAnswer, mint: Id, n: nat)
      returns (r: (Db, bool), used: nat)
    requires n >= 7 && t.Resolve?
    ensures used <= 7 && r == EffectCall(db, t.key, t.outcome, answer, mint)
    ensures Ends(db, Call(t, if Cancels(t.outcome) then AtCancelRead else AtSettle), r, t, AtFinalize, a, answer, mint,
              n, n - used)
  {
    r := EffectCall(db, t.key, t.outcome, answer, mint);
    if Cancels(t.outcome) {
      used := CancelEffectIsSolo(db, t, a, answer, mint, n);
    } else {
      used := SettleEffectIsSolo(db, t, a, answer, mint, n);
    }
  }

  lemma FailTail(db: Db, t: Task, a: Account, answer: GatewayAnswer, mint: Id, n: nat)
    requires n >= 1 && t.Resolve?
    ensures Alone(db, Call(t, AtFailure), a, answer, mint, n) == MarkFailed(db, t.key)
  {
    OneStep(db, Call(t, AtFailure), MarkFailed(db, t.key), Call(t, Stopped), a, answer, mint, n);
    StoppedStays(MarkFailed(db, t.key), Call(t, Stopped), a, answer, mint, n - 1);
  }

  lemma FinalizeTail(db: Db, id: Id, t: Task, a: Account, answer: GatewayAnswer, mint: Id, n: nat)
    requires n >= 2 && t.Resolve? && t.key == ReportCase(id)
    ensures var closed := FinalizeReport(db, id, t.outcome, t.penalty, a);
            Alone(db, Call(t, AtFinalize), a, answer, mint, n)
                == if closed.Some? then closed.value else MarkFailed(db, t.key)
  {
    var closed := FinalizeReport(db, id, t.outcome, t.penalty, a);
    if closed.Some? {
      OneStep(db, Call(t, AtFinalize), closed.value, Call(t, Stopped), a, answer, mint, n);
      StoppedStays(closed.value, Call(t, Stopped), a, answer, mint, n - 1);
    } else {
      OneStep(db, Call(t, AtFinalize), db, Call(t, AtFailure), a, answer, mint, n);
      FailTail(db, t, a, answer, mint, n - 1);
    }
  }

  lemma PreparedIsSolo(db: Db, id: Id, t: Task, a: Account, answer: GatewayAnswer, mint: Id, n: nat) returns (used: nat)
    requires n >= 8 && t.Resolve? && t.key == ReportCase(id) && t.key in db.ops && db.ops[t.key].status != Done
               && db.ops[t.key].outcome == t.outcome
    ensures used <= 8
    ensures var r := PreparedReport(db, id, t.outcome, answer, mint);
            Ends(db, Call(t, StartOf(t.key, db.ops[t.key])), r, t, AtFinalize, a, answer, mint, n, n - used)
  {
    if Financial(t.outcome) && !db.ops[t.key].EffectEstablished() {
      used := ReservedEffectIsSolo(db, t, a, answer, mint, n);
    } else {
      MarkTail(db, t, a, answer, mint, n);
      used := 1;
    }
  }

  /** A claimed report decision, carried out by straight-line code, is its solo run. */
  lemma CarriedIsSolo(db: Db, id: Id, t: Task, a: Account, answer: GatewayAnswer, mint: Id, n: nat)
    requires n >= 10 && t.Resolve? && t.key == ReportCase(id) && t.key in db.ops && db.ops[t.key].status != Done
               && db.ops[t.key].outcome == t.outcome
    ensures CarriedReport(db, id, t.outcome, t.penalty, a, answer, mint).0
              == Alone(db, Call(t, StartOf(t.key, db.ops[t.key])), a, answer, mint, n)
  {
    var used := PreparedIsSolo(db, id, t, a, answer, mint, n);
    var prepared := PreparedReport(db, id, t.outcome, answer, mint);
    PreparedCloses(db, Call(t, StartOf(t.key, db.ops[t.key])), prepared, id, t, a, answer, mint, n, n - used);
  }

  lemma PreparedCloses(db: Db, c: Call, prepared: (Db, bool), id: Id, t: Task, a: Account, answer: GatewayAnswer,
      mint: Id, n: nat, m: nat)
    requires m >= 2 && t.Resolve? && t.key == ReportCase(id)
               && Ends(db, c, prepared, t, AtFinalize, a, answer, mint, n, m)
    ensures ClosedOrFailed(prepared, id, t.outcome, t.penalty, a).0 == Alone(db, c, a, answer, mint, n)
  {
    if prepared.1 {
      LeadsTo(db, c, prepared.0, Call(t, AtFinalize), a, answer, mint, n, m);
      FinalizeTail(prepared.0, id, t, a, answer, mint, m);
    } else {
      LeadsTo(db, c, prepared.0, Call(t, AtFailure), a, answer, mint, n, m);
      FailTail(prepared.0, t, a, answer, mint, m);
    }
  }
}
