/**
 Verdicts and events: what happens to an order's status and to its events on the
 topic, as long as reconciliation only takes orders whose saga has ended. Lost
 messages, crashes at any moment and overlapping passes are all allowed, unless a
 lemma says otherwise.
 */
module SagaVerdicts {
  import opened Sums
  import opened Stock
  import opened ChargeBook
  import opened Saga
  import opened SagaOrders
  import opened SagaSystem
  import opened SagaLedgers
  import opened SagaTheorems

  function One(b: bool): nat { if b then 1 else 0 }

  /** Some reconciliation pass is at work on the order. */
  predicate Swept(o: Order) { o.rec != RecIdle || o.recs != [] }

  /** The saga has not come to its terminal commit. */
  predicate Ongoing(pc: Pc) { pc != PublishPaid && pc != PublishFailed && pc != Returned && pc != Crashed }

  predicate StatusInv(o: Order) {
    (Swept(o) ==> o.pc == Crashed && o.status != PAID) &&
    (Ongoing(o.pc) ==> o.status == PENDING) && (o.pc == PublishPaid ==> o.status == PAID) &&
    (o.pc == PublishFailed ==> o.status == FAILED) && (o.pc == Returned ==> o.status != PENDING)
  }

  /** The saga's own events are those of its position; the rest were published by passes, after the FAILED commit. */
  predicate SentTrue(o: Order) {
    o.sent.paid == One(o.pc == Returned && o.status == PAID) &&
    (o.pc != Crashed ==> o.sent.failed == One(o.pc == Returned && o.status == FAILED)) &&
    (0 < o.sent.failed ==> o.status == FAILED) && (o.rec == RecPublish ==> o.status == FAILED) &&
    forall e | 0 <= e < |o.recs| && o.recs[e] == RecPublish :: o.status == FAILED
  }

  predicate DeliveryTrue(o: Order) {
    (o.delivered ==> o.status == PAID) && ShipTrue(o, o.ship) && (0 < o.sent.delivered ==> o.delivered) &&
    forall e | 0 <= e < |o.ships| :: ShipTrue(o, o.ships[e])
  }

  predicate VerdictInv(o: Order) { StatusInv(o) && SentTrue(o) && DeliveryTrue(o) }

  /** A decided order keeps its status. */
  predicate SameVerdict(a: Order, b: Order) { a.status != PENDING ==> b.status == a.status }

  lemma SagaKeepsStatus(f: Faults, o: Order, a: SagaMove)
    requires StatusInv(o) && CanAct(f, o, a)
    ensures StatusInv(SagaMoved(f, o, a)) && SameVerdict(o, SagaMoved(f, o, a))
  {
  }

  lemma SagaKeepsSent(f: Faults, o: Order, a: SagaMove)
    requires StatusInv(o) && SentTrue(o) && CanAct(f, o, a)
    ensures SentTrue(SagaMoved(f, o, a))
  {
  }

  lemma SagaKeepsDelivery(f: Faults, o: Order, a: SagaMove)
    requires StatusInv(o) && DeliveryTrue(o) && CanAct(f, o, a)
    ensures DeliveryTrue(SagaMoved(f, o, a))
  {
  }

  lemma SagaKeepsVerdict(f: Faults, o: Order, a: SagaMove)
    requires VerdictInv(o) && CanAct(f, o, a)
    ensures VerdictInv(SagaMoved(f, o, a)) && SameVerdict(o, SagaMoved(f, o, a))
  {
    SagaKeepsStatus(f, o, a);
    SagaKeepsSent(f, o, a);
    SagaKeepsDelivery(f, o, a);
  }

  lemma SweepKeepsVerdict(f: Faults, o: Order, b: SweepMove)
    requires !f.liveSweep && VerdictInv(o) && CanSweep(f, o, b)
    ensures VerdictInv(SweepMoved(f, o, b)) && SameVerdict(o, SweepMoved(f, o, b))
  {
  }

  lemma ShipKeepsVerdict(f: Faults, o: Order, c: ShipMove)
    requires VerdictInv(o) && CanShip(f, o, c)
    ensures VerdictInv(ShipMoved(f, o, c)) && SameVerdict(o, ShipMoved(f, o, c))
  {
  }

  lemma LossKeepsVerdict(f: Faults, o: Order, d: LostMove)
    requires VerdictInv(o) && CanLose(f, o, d)
    ensures VerdictInv(Dropped(f, o, d)) && SameVerdict(o, Dropped(f, o, d))
  {
  }

  lemma MoveKeepsVerdict(f: Faults, o: Order, m: Move)
    requires !f.liveSweep && VerdictInv(o) && CanMove(f, o, m)
    ensures VerdictInv(Moved(f, o, m)) && SameVerdict(o, Moved(f, o, m))
  {
    match m
    case Act(a) => SagaKeepsVerdict(f, o, a);
    case Sweep(b) => SweepKeepsVerdict(f, o, b);
    case Ship(c) => ShipKeepsVerdict(f, o, c);
    case Lose(d) => LossKeepsVerdict(f, o, d);
  }

  predicate VerdictsInv(s: State) { forall o | 0 <= o < |s.orders| :: VerdictInv(s.orders[o]) }

  /** A step on a row, seen on that row. */
  lemma RowKeepsVerdict(f: Faults, s: State, st: Step)
    requires !f.liveSweep && CanStep(f, s, st) && OnRow(st) && VerdictInv(s.orders[st.o])
    ensures VerdictInv(Apply(f, s, st).orders[st.o]) && SameVerdict(s.orders[st.o], Apply(f, s, st).orders[st.o])
  {
    if st.Thread? {
      MoveKeepsVerdict(f, s.orders[st.o], st.m);
    }
  }

  lemma StepKeepsVerdicts(f: Faults, s: State, st: Step)
    requires !f.liveSweep && VerdictsInv(s) && CanStep(f, s, st)
    ensures VerdictsInv(Apply(f, s, st)) && |s.orders| <= |Apply(f, s, st).orders|
    ensures forall o | 0 <= o < |s.orders| :: SameVerdict(s.orders[o], Apply(f, s, st).orders[o])
  {
    if OnRow(st) {
      RowStepShape(f, s, st);
      RowKeepsVerdict(f, s, st);
    } else if Quiet(st) {
      QuietStepShape(f, s, st);
    }
  }

  lemma {:induction false} RunKeepsVerdicts(f: Faults, s: State, steps: seq<Step>)
    requires !f.liveSweep && VerdictsInv(s) && IsRun(f, s, steps)
    ensures VerdictsInv(Final(f, s, steps)) && |s.orders| <= |Final(f, s, steps).orders|
    ensures forall o | 0 <= o < |s.orders| :: SameVerdict(s.orders[o], Final(f, s, steps).orders[o])
    decreases |steps|
  {
    if steps != [] {
      StepKeepsVerdicts(f, s, steps[0]);
      RunKeepsVerdicts(f, Apply(f, s, steps[0]), steps[1..]);
    }
  }

  // ----------------------------------------------------------------- theorems

  /** PAID and FAILED are final: from any reachable state, whatever is lost, crashes or overlaps next. */
  lemma VerdictIsFinal(f: Faults, s: State, steps: seq<Step>, more: seq<Step>, o: nat)
    requires !f.liveSweep && Initial(s) && IsRun(f, s, steps) && IsRun(f, Final(f, s, steps), more)
    requires o < |Final(f, s, steps).orders| && Final(f, s, steps).orders[o].status != PENDING
    ensures var t := Final(f, s, steps);
            o < |Final(f, t, more).orders| && Final(f, t, more).orders[o].status == t.orders[o].status
  {
    RunKeepsVerdicts(f, s, steps);
    RunKeepsVerdicts(f, Final(f, s, steps), more);
  }

  lemma TopicTallies(f: Faults, s: State, steps: seq<Step>, o: nat)
    requires Initial(s) && IsRun(f, s, steps) && o < |Final(f, s, steps).orders|
    ensures var t := Final(f, s, steps);
            var sent := t.orders[o].sent;
            Published(t, o, Paid) == sent.paid && Published(t, o, Failed) == sent.failed &&
            Published(t, o, Delivered) == sent.delivered
  {
    ReachableBooks(f, s, steps);
    var t := Final(f, s, steps);
    assert TopicInv(t, o);
    assert Tally(t.orders[o].sent, Paid) == t.orders[o].sent.paid;
    assert Tally(t.orders[o].sent, Failed) == t.orders[o].sent.failed;
    assert Tally(t.orders[o].sent, Delivered) == t.orders[o].sent.delivered;
  }

  /** Every event is published for an order in that state, whatever is lost, crashes or overlaps. */
  lemma EventsAreTrue(f: Faults, s: State, steps: seq<Step>, o: nat)
    requires !f.liveSweep && Initial(s) && IsRun(f, s, steps) && o < |Final(f, s, steps).orders|
    ensures var t := Final(f, s, steps);
            var ord := t.orders[o];
            (0 < Published(t, o, Paid) ==> ord.status == PAID) && (0 < Published(t, o, Failed) ==> ord.status == FAILED) &&
            (0 < Published(t, o, Delivered) ==> ord.status == PAID && ord.delivered)
  {
    RunKeepsVerdicts(f, s, steps);
    TopicTallies(f, s, steps, o);
    assert VerdictInv(Final(f, s, steps).orders[o]);
  }

  /** A call that returned published its one terminal event, whatever is lost, crashes or overlaps elsewhere. */
  lemma TerminalEventPublished(f: Faults, s: State, steps: seq<Step>, o: nat)
    requires !f.liveSweep && Initial(s) && IsRun(f, s, steps) && o < |Final(f, s, steps).orders|
    requires Final(f, s, steps).orders[o].pc == Returned
    ensures var t := Final(f, s, steps);
            t.orders[o].status != PENDING && Published(t, o, Paid) == One(t.orders[o].status == PAID) &&
            Published(t, o, Failed) == One(t.orders[o].status == FAILED)
  {
    RunKeepsVerdicts(f, s, steps);
    TopicTallies(f, s, steps, o);
    assert VerdictInv(Final(f, s, steps).orders[o]);
  }

  lemma {:induction false} CountedWhenPresent(f: Event -> int, log: seq<Event>, e: nat)
    requires e < |log| && f(log[e]) == 1 && forall i | 0 <= i < |log| :: 0 <= f(log[i])
    ensures 0 < SumBy(f, log)
  {
    var n := |log| - 1;
    if e < n {
      CountedWhenPresent(f, log[..n], e);
    } else {
      SumNonNegative(f, log[..n]);
    }
  }

  /** A delivery event on the topic tells the truth about its order, and names the product of every line. */
  lemma DeliveryEventsAreTrue(f: Faults, s: State, steps: seq<Step>, e: nat)
    requires !f.liveSweep && Initial(s) && IsRun(f, s, steps)
    requires e < |Final(f, s, steps).log| && Final(f, s, steps).log[e].kind == Delivered
    ensures var t := Final(f, s, steps);
            var ev := t.log[e];
            ev.order < |t.orders| && t.orders[ev.order].status == PAID && t.orders[ev.order].delivered &&
            ev.user == t.orders[ev.order].user && |ev.products| == |t.orders[ev.order].lines| &&
            forall j | 0 <= j < |ev.products| :: ev.products[j] == t.orders[ev.order].lines[j].product
  {
    ReachableBooks(f, s, steps);
    var t := Final(f, s, steps);
    CountedWhenPresent(EventFor(t.log[e].order, Delivered), t.log, e);
    EventsAreTrue(f, s, steps, t.log[e].order);
  }

  // ---------------------------------------------------------- one terminal event

  /** One pass at most is at the order, and owes order.failed exactly while it has not published it. */
  predicate SoloInv(o: Order) {
    o.recs == [] && o.sent.failed <= 1 && (o.rec.RecRelease? || o.rec.RecWait? ==> o.status == PENDING) &&
    (o.rec == RecPublish ==> o.sent.failed == 0)
  }

  predicate Solitary(f: Faults) { !f.liveSweep && !(f.crash && f.overlap) }

  lemma MoveKeepsSolo(f: Faults, o: Order, m: Move)
    requires Solitary(f) && VerdictInv(o) && SoloInv(o) && CrashAllowed(f, o) && CanMove(f, o, m)
    ensures SoloInv(Moved(f, o, m)) && CrashAllowed(f, Moved(f, o, m))
  {
    if m.Act? {
      SagaKeepsSolo(f, o, m.a);
    }
  }

  lemma SagaKeepsSolo(f: Faults, o: Order, a: SagaMove)
    requires VerdictInv(o) && SoloInv(o) && CrashAllowed(f, o) && CanAct(f, o, a)
    ensures SoloInv(SagaMoved(f, o, a)) && CrashAllowed(f, SagaMoved(f, o, a))
  {
  }

  predicate SolosInv(f: Faults, s: State) {
    forall o | 0 <= o < |s.orders| :: SoloInv(s.orders[o]) && CrashAllowed(f, s.orders[o])
  }

  lemma StepKeepsSolos(f: Faults, s: State, st: Step)
    requires Solitary(f) && VerdictsInv(s) && SolosInv(f, s) && CanStep(f, s, st)
    ensures SolosInv(f, Apply(f, s, st))
  {
    if OnRow(st) {
      RowStepShape(f, s, st);
      if st.Thread? {
        MoveKeepsSolo(f, s.orders[st.o], st.m);
      }
    } else if Quiet(st) {
      QuietStepShape(f, s, st);
    }
  }

  lemma {:induction false} RunKeepsSolos(f: Faults, s: State, steps: seq<Step>)
    requires Solitary(f) && VerdictsInv(s) && SolosInv(f, s) && IsRun(f, s, steps)
    ensures SolosInv(f, Final(f, s, steps))
    decreases |steps|
  {
    if steps != [] {
      StepKeepsVerdicts(f, s, steps[0]);
      StepKeepsSolos(f, s, steps[0]);
      RunKeepsSolos(f, Apply(f, s, steps[0]), steps[1..]);
    }
  }

  /** One terminal event at most, whatever is lost and whoever dies where, if no two passes meet at a crashed order. */
  lemma EventsAtMostOnce(f: Faults, s: State, steps: seq<Step>, o: nat)
    requires Solitary(f) && Initial(s) && IsRun(f, s, steps) && o < |Final(f, s, steps).orders|
    ensures Published(Final(f, s, steps), o, Paid) + Published(Final(f, s, steps), o, Failed) <= 1
  {
    RunKeepsVerdicts(f, s, steps);
    RunKeepsSolos(f, s, steps);
    TopicTallies(f, s, steps, o);
    assert VerdictInv(Final(f, s, steps).orders[o]) && SoloInv(Final(f, s, steps).orders[o]);
  }

  // ---------------------------------------------------------- one delivery event

  /** One delivery pass at most is at the order, and its event is still owed exactly while it is marked. */
  predicate ShipInv(o: Order) {
    o.ships == [] && (o.ship == Picked ==> !o.delivered) && (o.ship == Marked ==> o.delivered && o.sent.delivered == 0) &&
    (0 < o.sent.delivered ==> o.delivered) && o.sent.delivered <= 1
  }

  predicate ShipsInv(s: State) { forall o | 0 <= o < |s.orders| :: ShipInv(s.orders[o]) }

  lemma ShipMoveKeepsShip(f: Faults, o: Order, c: ShipMove)
    requires !f.overlap && ShipInv(o) && CanShip(f, o, c)
    ensures ShipInv(ShipMoved(f, o, c))
  {
  }

  predicate SameShip(a: Order, b: Order) {
    b.ships == a.ships && b.ship == a.ship && b.delivered == a.delivered && b.sent.delivered == a.sent.delivered
  }

  lemma SagaKeepsShip(f: Faults, o: Order, a: SagaMove)
    requires CanAct(f, o, a)
    ensures SameShip(o, SagaMoved(f, o, a))
  {
  }

  lemma OtherMoveKeepsShip(f: Faults, o: Order, m: Move)
    requires CanMove(f, o, m) && !m.Ship?
    ensures SameShip(o, Moved(f, o, m))
  {
    if m.Act? {
      SagaKeepsShip(f, o, m.a);
    }
  }

  lemma StepKeepsShips(f: Faults, s: State, st: Step)
    requires !f.overlap && ShipsInv(s) && CanStep(f, s, st)
    ensures ShipsInv(Apply(f, s, st))
  {
    if st.Thread? {
      if st.m.Ship? {
        ShipMoveKeepsShip(f, s.orders[st.o], st.m.c);
      } else {
        OtherMoveKeepsShip(f, s.orders[st.o], st.m);
      }
    } else if Quiet(st) {
      QuietStepShape(f, s, st);
    }
  }

  lemma {:induction false} RunKeepsShips(f: Faults, s: State, steps: seq<Step>)
    requires !f.overlap && ShipsInv(s) && LogInv(s) && IsRun(f, s, steps)
    ensures ShipsInv(Final(f, s, steps)) && LogInv(Final(f, s, steps))
    decreases |steps|
  {
    if steps != [] {
      StepKeepsShips(f, s, steps[0]);
      StepKeepsLog(f, s, steps[0]);
      RunKeepsShips(f, Apply(f, s, steps[0]), steps[1..]);
    }
  }

  /** Unless two passes overlap, whatever else goes wrong, an order is announced as delivered at most once. */
  lemma DeliveredAtMostOnce(f: Faults, s: State, steps: seq<Step>, o: nat)
    requires !f.overlap && Initial(s) && IsRun(f, s, steps) && o < |Final(f, s, steps).orders|
    ensures Published(Final(f, s, steps), o, Delivered) <= 1
  {
    RunKeepsShips(f, s, steps);
    var s' := Final(f, s, steps);
    assert TopicInv(s', o) && Tally(s'.orders[o].sent, Delivered) == s'.orders[o].sent.delivered;
  }

  // --------------------------------------------------------- charges and verdicts

  /** Where an answered or awaited charge leaves the saga when no message is lost. */
  predicate ChargeKept(o: Order) {
    o.charge == InFlight || o.charge == Done(Approved) ==>
      o.pc == ChargeWait || o.pc == Crashed ||
      (o.charge == Done(Approved) && (o.pc == CommitPaid || o.pc == PublishPaid || (o.pc == Returned && o.status == PAID)))
  }

  lemma SagaKeepsChargeKept(f: Faults, o: Order, a: SagaMove)
    requires !f.transport && VerdictInv(o) && ChargeInv(o) && ChargeKept(o) && CanAct(f, o, a)
    ensures ChargeKept(SagaMoved(f, o, a))
  {
  }

  lemma MoveKeepsChargeKept(f: Faults, o: Order, m: Move)
    requires !f.transport && VerdictInv(o) && ChargeInv(o) && ChargeKept(o) && CanMove(f, o, m)
    ensures ChargeKept(Moved(f, o, m))
  {
    if m.Act? {
      SagaKeepsChargeKept(f, o, m.a);
    }
  }

  predicate ChargesKept(s: State) { forall o | 0 <= o < |s.orders| :: ChargeKept(s.orders[o]) }

  lemma StepKeepsChargesKept(f: Faults, s: State, st: Step)
    requires !f.transport && VerdictsInv(s) && ChargesInv(s) && ChargesKept(s) && CanStep(f, s, st)
    ensures ChargesKept(Apply(f, s, st))
  {
    if OnRow(st) {
      RowStepShape(f, s, st);
      if st.Thread? {
        MoveKeepsChargeKept(f, s.orders[st.o], st.m);
      }
    } else if Quiet(st) {
      QuietStepShape(f, s, st);
    }
  }

  lemma {:induction false} RunKeepsChargesKept(f: Faults, s: State, steps: seq<Step>)
    requires !f.transport && !f.liveSweep && Books(s) && VerdictsInv(s) && ChargesKept(s) && IsRun(f, s, steps)
    ensures ChargesKept(Final(f, s, steps))
    decreases |steps|
  {
    if steps != [] {
      StepKeepsBooks(f, s, steps[0]);
      StepKeepsVerdicts(f, s, steps[0]);
      StepKeepsChargesKept(f, s, steps[0]);
      RunKeepsChargesKept(f, Apply(f, s, steps[0]), steps[1..]);
    }
  }

  /** Every call has returned to its client. */
  predicate Settled(s: State) { forall o | 0 <= o < |s.orders| :: s.orders[o].pc == Returned }

  lemma PaidIsApproved(o: Order)
    requires ChargeInv(o) && ChargeKept(o) && o.pc == Returned
    ensures PaidAmount()(o) == ApprovedAmount()(o)
  {
  }

  /** Once every call has returned, with no message lost, what was charged is what PAID orders owe, to the cent. */
  lemma ChargedEqualsPaid(f: Faults, s: State, steps: seq<Step>)
    requires !f.transport && !f.liveSweep && Initial(s) && IsRun(f, s, steps) && Settled(Final(f, s, steps))
    ensures SumBy(PaymentAmount(), Final(f, s, steps).ledger) == SumBy(PaidAmount(), Final(f, s, steps).orders)
  {
    ReachableBooks(f, s, steps);
    RunKeepsChargesKept(f, s, steps);
    var t := Final(f, s, steps);
    forall o | 0 <= o < |t.orders| ensures PaidAmount()(t.orders[o]) == ApprovedAmount()(t.orders[o]) {
      PaidIsApproved(t.orders[o]);
    }
    SumCongruent(PaidAmount(), t.orders, ApprovedAmount(), t.orders);
  }
}
