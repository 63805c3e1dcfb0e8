/**
 What every step keeps true of one order, when no process dies between a
 compensating release and the FAILED commit, reconciliation only takes orders
 whose saga has ended, and two passes do not work on one crashed order at once.
 */
module SagaOrders {
  import opened Stock
  import opened ChargeBook
  import opened Saga

  predicate Guarded(f: Faults) { !(f.crash && (f.windowCrash || f.overlap)) && !f.liveSweep }

  predicate CrashAllowed(f: Faults, o: Order) { o.pc == Crashed ==> f.crash }

  predicate Got(l: Line) { l.reserve.Done? && l.reserve.result.Ok? }

  predicate Clean(l: Line) { l.releasing == 0 && l.released == 0 }

  /** One release at most, and only of units that were taken. */
  predicate LineInv(l: Line) {
    l.releasing + l.released <= 1 &&
    (0 < l.releasing + l.released ==> Got(l)) &&
    (Got(l) ==> 0 < l.quantity) &&
    l.net == if Got(l) && l.released == 0 then l.quantity else 0
  }

  predicate AllGot(o: Order, n: nat) { forall j | 0 <= j < n && j < |o.lines| :: Got(o.lines[j]) }

  predicate CleanFrom(o: Order, i: nat) { forall j | i <= j < |o.lines| :: Clean(o.lines[j]) }

  predicate UnsentFrom(o: Order, i: nat) { forall j | i <= j < |o.lines| :: o.lines[j].reserve == Idle }

  predicate Reserving(o: Order, got: nat, sent: nat) {
    got <= sent <= |o.lines| &&
    o.status == PENDING && !o.stockReserved && AllGot(o, got) && CleanFrom(o, 0) && UnsentFrom(o, sent)
  }

  /** Undoing a partial reservation: releases were sent for lines before i only. */
  predicate Undoing(o: Order, i: nat, k: nat) {
    i <= k < |o.lines| && o.status == PENDING && !o.stockReserved && AllGot(o, k) && CleanFrom(o, i)
  }

  predicate Settling(o: Order, i: nat) {
    i <= |o.lines| && o.status == PENDING && o.stockReserved && CleanFrom(o, i)
  }

  predicate ThreadInv(o: Order) {
    match o.pc
    case PublishCreated => Reserving(o, 0, 0) && o.sent.created == 0
    case Reserve(i) => Reserving(o, i, i)
    case ReserveWait(i) => i < |o.lines| && Reserving(o, i, i + 1) && o.lines[i].reserve != Idle
    case Undo(i, k) => Undoing(o, i, k)
    case UndoWait(i, k) => i < k && Undoing(o, i + 1, k)
    case Charge => Settling(o, 0) && o.charge == Idle
    case ChargeWait => Settling(o, 0) && o.charge != Idle
    case Refund(i) => Settling(o, i)
    case RefundWait(i) => Settling(o, i + 1)
    case CommitPaid => Settling(o, 0) && o.charge == Done(Approved)
    case PublishPaid => o.status == PAID && o.sent.paid == 0
    case PublishFailed => o.status == FAILED && o.sent.failed == 0
    case Returned => o.status != PENDING
    case Crashed => true
  }

  predicate SweepInv(o: Order) {
    o.recs == [] && (o.rec != RecIdle ==> o.pc == Crashed) &&
    match o.rec
    case RecIdle => o.pc == Crashed && o.status == PENDING && o.stockReserved ==> CleanFrom(o, 0)
    case RecRelease(i) => i <= |o.lines| && o.status == PENDING && CleanFrom(o, i) && (i < |o.lines| ==> o.stockReserved)
    case RecWait(i) => i < |o.lines| && o.status == PENDING && CleanFrom(o, i + 1) && o.stockReserved
    case RecPublish => o.status == FAILED && o.sent.failed == 0
  }

  predicate RowInv(o: Order) {
    (o.stockReserved ==> AllGot(o, |o.lines|)) &&
    (o.charge != Idle ==> o.stockReserved) &&
    (o.status == PAID ==>
      o.stockReserved && o.charge == Done(Approved) && CleanFrom(o, 0) &&
      (o.pc == PublishPaid || o.pc == Returned || o.pc == Crashed) && o.rec == RecIdle) &&
    (o.delivered ==> o.status == PAID) && ShipTrue(o, o.ship) &&
    forall e | 0 <= e < |o.ships| :: ShipTrue(o, o.ships[e])
  }

  /** A delivery pass holds a PAID order, and one that it marked is delivered. */
  predicate ShipTrue(o: Order, ship: ShipPc) {
    (ship == Picked ==> o.status == PAID) && (ship == Marked ==> o.delivered)
  }

  /** Each event of the saga at most once, and every event only after its commit. */
  predicate SentInv(o: Order) {
    o.sent.created <= 1 && o.sent.paid <= 1 && o.sent.failed <= 1 &&
    (0 < o.sent.paid ==> o.status == PAID) &&
    (0 < o.sent.failed ==> o.status == FAILED) &&
    (0 < o.sent.delivered ==> o.delivered)
  }

  predicate LinesInv(o: Order) { o.lines != [] && forall j | 0 <= j < |o.lines| :: LineInv(o.lines[j]) }

  predicate OrderInv(o: Order) { LinesInv(o) && ThreadInv(o) && SweepInv(o) && RowInv(o) && SentInv(o) }

  /** What a move never changes. */
  predicate SameOrder(a: Order, b: Order) {
    a.key == b.key && a.user == b.user && a.amount == b.amount && |a.lines| == |b.lines| &&
    forall j | 0 <= j < |a.lines| ::
      a.lines[j].product == b.lines[j].product && a.lines[j].quantity == b.lines[j].quantity
  }

  /** The same order, with every line's ledger as it was. */
  predicate SameShape(a: Order, b: Order) {
    SameOrder(a, b) && forall j | 0 <= j < |a.lines| :: b.lines[j].net == a.lines[j].net
  }

  lemma SagaKeepsShape(f: Faults, o: Order, a: SagaMove)
    requires CanAct(f, o, a)
    ensures SameShape(o, SagaMoved(f, o, a))
  {
  }

  lemma SweepKeepsShape(f: Faults, o: Order, b: SweepMove)
    requires CanSweep(f, o, b)
    ensures SameShape(o, SweepMoved(f, o, b))
  {
  }

  lemma ShipKeepsShape(f: Faults, o: Order, c: ShipMove)
    requires CanShip(f, o, c)
    ensures SameShape(o, ShipMoved(f, o, c))
  {
  }

  lemma LossKeepsShape(f: Faults, o: Order, d: LostMove)
    requires CanLose(f, o, d)
    ensures SameShape(o, Dropped(f, o, d))
  {
  }

  lemma MoveKeepsShape(f: Faults, o: Order, m: Move)
    requires CanMove(f, o, m)
    ensures SameShape(o, Moved(f, o, m))
  {
    match m
    case Act(a) => SagaKeepsShape(f, o, a);
    case Sweep(b) => SweepKeepsShape(f, o, b);
    case Ship(c) => ShipKeepsShape(f, o, c);
    case Lose(d) => LossKeepsShape(f, o, d);
  }

  /** The saga up to `stock_reserved`, with the compensation of a partial reservation. */
  predicate ReservePhase(a: SagaMove) {
    a == DoPublishCreated || a == SendReserve || a == ReserveReply || a == ReserveTimeout || a == MarkReserved ||
    a == SendUndo || a == UndoReply
  }

  lemma ReserveMoveKeepsInv(f: Faults, o: Order, a: SagaMove)
    requires OrderInv(o) && CanAct(f, o, a) && ReservePhase(a)
    ensures OrderInv(SagaMoved(f, o, a))
  {
  }

  lemma PayMoveKeepsLines(f: Faults, o: Order, a: SagaMove)
    requires Guarded(f) && OrderInv(o) && CanAct(f, o, a) && !ReservePhase(a)
    ensures LinesInv(SagaMoved(f, o, a))
  {
  }

  lemma PayMoveKeepsThread(f: Faults, o: Order, a: SagaMove)
    requires Guarded(f) && OrderInv(o) && CanAct(f, o, a) && !ReservePhase(a)
    ensures ThreadInv(SagaMoved(f, o, a))
  {
  }

  lemma PayMoveKeepsSweep(f: Faults, o: Order, a: SagaMove)
    requires Guarded(f) && OrderInv(o) && CanAct(f, o, a) && !ReservePhase(a)
    ensures SweepInv(SagaMoved(f, o, a))
  {
  }

  lemma PayMoveKeepsRow(f: Faults, o: Order, a: SagaMove)
    requires Guarded(f) && OrderInv(o) && CanAct(f, o, a) && !ReservePhase(a)
    ensures RowInv(SagaMoved(f, o, a))
  {
  }

  lemma PayMoveKeepsSent(f: Faults, o: Order, a: SagaMove)
    requires Guarded(f) && OrderInv(o) && CanAct(f, o, a) && !ReservePhase(a)
    ensures SentInv(SagaMoved(f, o, a))
  {
  }

  lemma PayMoveKeepsInv(f: Faults, o: Order, a: SagaMove)
    requires Guarded(f) && OrderInv(o) && CanAct(f, o, a) && !ReservePhase(a)
    ensures OrderInv(SagaMoved(f, o, a))
  {
    PayMoveKeepsLines(f, o, a);
    PayMoveKeepsThread(f, o, a);
    PayMoveKeepsSweep(f, o, a);
    PayMoveKeepsRow(f, o, a);
    PayMoveKeepsSent(f, o, a);
  }

  /** No second sweep ever joins one: the order of a sweep is a crashed one. */
  lemma SweepMoveKeepsInv(f: Faults, o: Order, b: SweepMove)
    requires Guarded(f) && OrderInv(o) && CrashAllowed(f, o) && CanSweep(f, o, b)
    ensures OrderInv(SweepMoved(f, o, b))
  {
  }

  /** What delivery passes change is not looked at. */
  lemma SameKeepsThread(a: Order, b: Order)
    requires ThreadInv(a) && b.pc == a.pc && b.status == a.status && b.stockReserved == a.stockReserved
    requires b.lines == a.lines && b.charge == a.charge && b.sent == a.sent.(delivered := b.sent.delivered)
    ensures ThreadInv(b)
  {
  }

  lemma ShipMoveKeepsThread(f: Faults, o: Order, c: ShipMove)
    requires OrderInv(o) && CanShip(f, o, c)
    ensures ThreadInv(ShipMoved(f, o, c))
  {
    SameKeepsThread(o, ShipMoved(f, o, c));
  }

  lemma ShipMoveKeepsSweep(f: Faults, o: Order, c: ShipMove)
    requires OrderInv(o) && CanShip(f, o, c)
    ensures SweepInv(ShipMoved(f, o, c))
  {
  }

  lemma ShipMoveKeepsRow(f: Faults, o: Order, c: ShipMove)
    requires OrderInv(o) && CanShip(f, o, c)
    ensures RowInv(ShipMoved(f, o, c))
  {
  }

  lemma ShipMoveKeepsSent(f: Faults, o: Order, c: ShipMove)
    requires OrderInv(o) && CanShip(f, o, c)
    ensures SentInv(ShipMoved(f, o, c))
  {
  }

  lemma ShipMoveKeepsInv(f: Faults, o: Order, c: ShipMove)
    requires OrderInv(o) && CanShip(f, o, c)
    ensures OrderInv(ShipMoved(f, o, c))
  {
    assert ShipMoved(f, o, c).lines == o.lines;
    ShipMoveKeepsThread(f, o, c);
    ShipMoveKeepsSweep(f, o, c);
    ShipMoveKeepsRow(f, o, c);
    ShipMoveKeepsSent(f, o, c);
  }

  lemma LossKeepsLines(f: Faults, o: Order, d: LostMove)
    requires OrderInv(o) && CanLose(f, o, d)
    ensures LinesInv(Dropped(f, o, d))
  {
  }

  lemma LossKeepsThread(f: Faults, o: Order, d: LostMove)
    requires OrderInv(o) && CanLose(f, o, d)
    ensures ThreadInv(Dropped(f, o, d))
  {
  }

  lemma LossKeepsSweep(f: Faults, o: Order, d: LostMove)
    requires OrderInv(o) && CanLose(f, o, d)
    ensures SweepInv(Dropped(f, o, d))
  {
  }

  lemma LossKeepsRow(f: Faults, o: Order, d: LostMove)
    requires OrderInv(o) && CanLose(f, o, d)
    ensures RowInv(Dropped(f, o, d))
  {
  }

  lemma LossKeepsInv(f: Faults, o: Order, d: LostMove)
    requires OrderInv(o) && CanLose(f, o, d)
    ensures OrderInv(Dropped(f, o, d))
  {
    LossKeepsLines(f, o, d);
    LossKeepsThread(f, o, d);
    LossKeepsSweep(f, o, d);
    LossKeepsRow(f, o, d);
  }

  lemma SagaMoveKeepsInv(f: Faults, o: Order, a: SagaMove)
    requires Guarded(f) && OrderInv(o) && CanAct(f, o, a)
    ensures OrderInv(SagaMoved(f, o, a))
  {
    if ReservePhase(a) {
      ReserveMoveKeepsInv(f, o, a);
    } else {
      PayMoveKeepsInv(f, o, a);
    }
  }

  lemma MoveKeepsInv(f: Faults, o: Order, m: Move)
    requires Guarded(f) && OrderInv(o) && CrashAllowed(f, o) && CanMove(f, o, m)
    ensures OrderInv(Moved(f, o, m))
  {
    match m
    case Act(a) => SagaMoveKeepsInv(f, o, a);
    case Sweep(b) => SweepMoveKeepsInv(f, o, b);
    case Ship(c) => ShipMoveKeepsInv(f, o, c);
    case Lose(d) => LossKeepsInv(f, o, d);
  }

  lemma MoveKeepsCrashAllowed(f: Faults, o: Order, m: Move)
    requires CrashAllowed(f, o) && CanMove(f, o, m)
    ensures CrashAllowed(f, Moved(f, o, m))
  {
  }

  lemma FreshOrderInv(c: Client)
    requires c.at.Flushed? && c.items != []
    ensures OrderInv(FreshOrder(c))
  {
  }

  lemma ReserveEffectKeepsInv(o: Order, i: nat, r: Outcome)
    requires OrderInv(o) && i < |o.lines| && o.lines[i].reserve == InFlight
    requires r.Ok? ==> 0 < o.lines[i].quantity
    ensures OrderInv(WithLine(o, i, ReservedLine(o.lines[i], r)))
  {
  }

  lemma ReleaseEffectKeepsInv(o: Order, i: nat, r: Outcome)
    requires OrderInv(o) && i < |o.lines| && 0 < o.lines[i].releasing
    ensures OrderInv(WithLine(o, i, ReleasedLine(o.lines[i], r)))
  {
  }
}
