/**
 Without faults the books balance exactly: in every reachable state the catalog
 lacks precisely the lines the orders hold, where what an order holds is read
 off its row and the position of its saga, not off the ledger.
 */
module SagaExact {
  import opened Sums
  import opened Stock
  import opened ChargeBook
  import opened Saga
  import opened SagaOrders
  import opened SagaSystem
  import opened SagaLedgers
  import opened SagaTheorems
  import opened SagaVerdicts

  predicate FaultFree(f: Faults) { !f.transport && !f.crash && !f.liveSweep }

  /** The lines an order holds are lines[HeldFrom(o)..HeldTo(o)]. */
  function HeldFrom(o: Order): nat {
    match o.pc
    case Undo(i, _) => i
    case UndoWait(i, _) => if i < |o.lines| then i + o.lines[i].released else i
    case Refund(i) => i
    case RefundWait(i) => if i < |o.lines| then i + o.lines[i].released else i
    case _ => 0
  }

  function HeldTo(o: Order): nat {
    match o.pc
    case PublishCreated => 0
    case Reserve(i) => i
    case ReserveWait(i) => if i < |o.lines| then i + One(Got(o.lines[i])) else i
    case Undo(_, k) => k
    case UndoWait(_, k) => k
    case PublishFailed => 0
    case Crashed => if o.status == PAID || (o.status == PENDING && o.stockReserved) then |o.lines| else 0
    case Returned => if o.status == PAID then |o.lines| else 0
    case _ => |o.lines|
  }

  /** Only the call being waited for is under way. */
  predicate NothingLate(o: Order) {
    (forall j | 0 <= j < |o.lines| :: o.lines[j].reserve != Lost) &&
    (forall j | 0 <= j < |o.lines| && o.lines[j].reserve == InFlight :: o.pc == ReserveWait(j)) &&
    (forall j | 0 <= j < |o.lines| && 0 < o.lines[j].releasing :: o.pc == RefundWait(j) || (o.pc.UndoWait? && o.pc.i == j)) &&
    (o.charge == InFlight ==> o.pc == ChargeWait) && o.charge != Lost
  }

  predicate ExactInv(o: Order) {
    o.pc != Crashed && o.rec == RecIdle && NothingLate(o) &&
    HeldFrom(o) <= HeldTo(o) <= |o.lines| &&
    (match o.pc
     case UndoWait(i, _) => i < |o.lines| && o.lines[i].releasing + o.lines[i].released == 1
     case RefundWait(i) => i < |o.lines| && o.lines[i].releasing + o.lines[i].released == 1
     case _ => true) &&
    forall j | 0 <= j < |o.lines| ::
      o.lines[j].net == if HeldFrom(o) <= j < HeldTo(o) then o.lines[j].quantity else 0
  }

  predicate UndoSend(a: SagaMove) { a == SendUndo || a == SendRefund }

  predicate UndoEnd(a: SagaMove) { a == UndoReply || a == RefundReply }

  predicate Commits(a: SagaMove) { a == DoCommitFailed || a == DoCommitPaid }

  lemma ReserveMoveKeepsExact(f: Faults, o: Order, a: SagaMove)
    requires FaultFree(f) && OrderInv(o) && ExactInv(o) && CanAct(f, o, a) && ReservePhase(a) && !UndoSend(a) && !UndoEnd(a)
    ensures ExactInv(SagaMoved(f, o, a))
  {
  }

  lemma UndoSendKeepsExact(f: Faults, o: Order, a: SagaMove)
    requires FaultFree(f) && OrderInv(o) && ExactInv(o) && CanAct(f, o, a) && UndoSend(a)
    ensures ExactInv(SagaMoved(f, o, a))
  {
  }

  lemma UndoEndKeepsExact(f: Faults, o: Order, a: SagaMove)
    requires FaultFree(f) && OrderInv(o) && ExactInv(o) && CanAct(f, o, a) && UndoEnd(a)
    ensures ExactInv(SagaMoved(f, o, a))
  {
  }

  lemma CommitKeepsExact(f: Faults, o: Order, a: SagaMove)
    requires FaultFree(f) && OrderInv(o) && ExactInv(o) && CanAct(f, o, a) && Commits(a)
    ensures ExactInv(SagaMoved(f, o, a))
  {
  }

  lemma PayMoveKeepsExact(f: Faults, o: Order, a: SagaMove)
    requires FaultFree(f) && OrderInv(o) && ExactInv(o) && CanAct(f, o, a)
    requires !ReservePhase(a) && !UndoSend(a) && !UndoEnd(a) && !Commits(a)
    ensures ExactInv(SagaMoved(f, o, a))
  {
  }

  lemma SagaKeepsExact(f: Faults, o: Order, a: SagaMove)
    requires FaultFree(f) && OrderInv(o) && ExactInv(o) && CanAct(f, o, a)
    ensures ExactInv(SagaMoved(f, o, a))
  {
    if UndoSend(a) {
      UndoSendKeepsExact(f, o, a);
    } else if UndoEnd(a) {
      UndoEndKeepsExact(f, o, a);
    } else if ReservePhase(a) {
      ReserveMoveKeepsExact(f, o, a);
    } else if Commits(a) {
      CommitKeepsExact(f, o, a);
    } else {
      PayMoveKeepsExact(f, o, a);
    }
  }

  /** Without faults nothing is swept. */
  lemma NothingSwept(f: Faults, o: Order, b: SweepMove)
    requires FaultFree(f) && SweepInv(o) && o.rec == RecIdle && o.pc != Crashed
    ensures !CanSweep(f, o, b)
  {
  }

  /** Everything the invariant looks at is as it was. */
  lemma SameKeepsExact(a: Order, b: Order)
    requires ExactInv(a) && b.pc == a.pc && b.status == a.status && b.lines == a.lines && b.rec == a.rec && b.charge == a.charge
    ensures ExactInv(b)
  {
  }

  lemma ShipMoveKeepsExact(f: Faults, o: Order, c: ShipMove)
    requires ExactInv(o) && CanShip(f, o, c)
    ensures ExactInv(ShipMoved(f, o, c))
  {
    SameKeepsExact(o, ShipMoved(f, o, c));
  }

  lemma CatalogKeepsExact(s: State, o: nat, i: nat)
    requires o < |s.orders| && i < |s.orders[o].lines| && OrderInv(s.orders[o]) && ExactInv(s.orders[o])
    requires s.orders[o].lines[i].product in s.stock
    ensures s.orders[o].lines[i].reserve == InFlight ==> ExactInv(ReserveApplied(s, o, i).orders[o])
    ensures 0 < s.orders[o].lines[i].releasing ==> ExactInv(ReleaseApplied(s, o, i).orders[o])
  {
  }

  lemma ChargeKeepsExact(s: State, o: nat, approve: bool, at: int)
    requires o < |s.orders| && OrderInv(s.orders[o]) && ExactInv(s.orders[o]) && s.orders[o].charge == InFlight
    ensures ExactInv(ChargeApplied(s, o, approve, at).orders[o])
  {
  }

  lemma MoveKeepsExact(f: Faults, o: Order, m: Move)
    requires FaultFree(f) && OrderInv(o) && ExactInv(o) && CanMove(f, o, m)
    ensures ExactInv(Moved(f, o, m))
  {
    match m
    case Act(a) => SagaKeepsExact(f, o, a);
    case Sweep(b) => NothingSwept(f, o, b);
    case Ship(c) => ShipMoveKeepsExact(f, o, c);
    case Lose(_) =>
  }

  predicate AllExact(s: State) {
    s.prices.Keys == s.stock.Keys && forall o | 0 <= o < |s.orders| :: ExactInv(s.orders[o])
  }

  lemma LineIsKnown(s: State, o: nat, i: nat)
    requires o < |s.orders| && i < |s.orders[o].lines| && PricedRight(s.prices, s.orders[o]) && s.prices.Keys == s.stock.Keys
    ensures s.orders[o].lines[i].product in s.stock
  {
    assert s.orders[o].lines[i].product == ItemsOf(s.orders[o])[i].product;
  }

  lemma RowStepKeepsExact(f: Faults, s: State, st: Step)
    requires FaultFree(f) && CanStep(f, s, st) && OnRow(st)
    requires OrderInv(s.orders[st.o]) && ExactInv(s.orders[st.o]) && PricedRight(s.prices, s.orders[st.o])
    requires s.prices.Keys == s.stock.Keys
    ensures ExactInv(Apply(f, s, st).orders[st.o]) && Apply(f, s, st).stock.Keys == s.stock.Keys
  {
    if st.Thread? {
      MoveKeepsExact(f, s.orders[st.o], st.m);
    } else if st.ApplyCharge? {
      ChargeKeepsExact(s, st.o, st.approve, st.at);
    } else {
      LineIsKnown(s, st.o, st.i);
      CatalogKeepsExact(s, st.o, st.i);
    }
  }

  lemma InsertKeepsExact(f: Faults, s: State, c: nat)
    requires AllExact(s) && CanHandle(f, s, c, Insert)
    ensures AllExact(Handled(f, s, c, Insert))
  {
  }

  lemma OneExact(s: State, s': State, o: nat)
    requires AllExact(s) && o < |s.orders| == |s'.orders| && s'.orders == s.orders[o := s'.orders[o]] && ExactInv(s'.orders[o])
    requires s'.stock.Keys == s.stock.Keys && s'.prices == s.prices
    ensures AllExact(s')
  {
  }

  lemma StepKeepsExact(f: Faults, s: State, st: Step)
    requires FaultFree(f) && AllExact(s) && OrdersInv(s) && PricesInv(s) && CanStep(f, s, st)
    ensures AllExact(Apply(f, s, st))
  {
    if OnRow(st) {
      RowStepShape(f, s, st);
      RowStepKeepsExact(f, s, st);
      OneExact(s, Apply(f, s, st), st.o);
    } else if Quiet(st) {
      QuietStepShape(f, s, st);
    } else {
      InsertKeepsExact(f, s, st.c);
    }
  }

  lemma {:induction false} RunKeepsExact(f: Faults, initial: Table, s: State, steps: seq<Step>)
    requires FaultFree(f) && Inv(f, initial, s) && AllExact(s) && IsRun(f, s, steps)
    ensures Inv(f, initial, Final(f, s, steps)) && AllExact(Final(f, s, steps))
    decreases |steps|
  {
    if steps != [] {
      StepKeepsInv(f, initial, s, steps[0]);
      StepKeepsExact(f, s, steps[0]);
      RunKeepsExact(f, initial, Apply(f, s, steps[0]), steps[1..]);
    }
  }

  lemma ReachableExact(f: Faults, s: State, steps: seq<Step>)
    requires FaultFree(f) && Initial(s) && IsRun(f, s, steps)
    ensures Inv(f, s.stock, Final(f, s, steps)) && AllExact(Final(f, s, steps))
  {
    InitialInv(f, s);
    RunKeepsExact(f, s.stock, s, steps);
  }

  // ----------------------------------------------------------------- theorems

  function HeldLines(o: Order): seq<Line>
    requires HeldFrom(o) <= HeldTo(o) <= |o.lines|
  {
    o.lines[HeldFrom(o)..HeldTo(o)]
  }

  /** Units of p an order holds, from its row and its saga's position. */
  function HeldUnits(p: ProductId): Order -> int {
    (o: Order) => if HeldFrom(o) <= HeldTo(o) <= |o.lines| then SumBy(LineUnits(p), HeldLines(o)) else 0
  }

  /** A measure that vanishes outside a slice sums to the slice's sum. */
  lemma {:induction false} SliceSum<T>(f: T -> int, g: T -> int, xs: seq<T>, lo: nat, hi: nat)
    requires lo <= hi <= |xs|
    requires forall j | 0 <= j < |xs| :: f(xs[j]) == if lo <= j < hi then g(xs[j]) else 0
    ensures SumBy(f, xs) == SumBy(g, xs[lo..hi])
  {
    var n := |xs| - 1;
    if lo == hi {
      SumZero(f, xs);
    } else if hi <= n {
      assert xs[..n][lo..hi] == xs[lo..hi];
      SliceSum(f, g, xs[..n], lo, hi);
    } else {
      assert xs[lo..hi][..hi - lo - 1] == xs[..n][lo..hi - 1];
      SliceSum(f, g, xs[..n], lo, hi - 1);
    }
  }

  lemma HeldIsNet(p: ProductId, o: Order)
    requires ExactInv(o)
    ensures HeldUnits(p)(o) == OrderNet(p)(o)
  {
    forall j | 0 <= j < |o.lines|
      ensures LineNet(p)(o.lines[j]) == if HeldFrom(o) <= j < HeldTo(o) then LineUnits(p)(o.lines[j]) else 0
    {
      assert o.lines[j].net == if HeldFrom(o) <= j < HeldTo(o) then o.lines[j].quantity else 0;
    }
    SliceSum(LineNet(p), LineUnits(p), o.lines, HeldFrom(o), HeldTo(o));
  }

  /** Stock and held lines add up to the initial stock, at every moment and for every product. */
  lemma ExactConservation(f: Faults, s: State, steps: seq<Step>, p: ProductId)
    requires FaultFree(f) && Initial(s) && IsRun(f, s, steps) && p in s.stock
    ensures var s' := Final(f, s, steps);
            p in s'.stock && s'.stock[p] + SumBy(HeldUnits(p), s'.orders) == s.stock[p]
  {
    ReachableExact(f, s, steps);
    var s' := Final(f, s, steps);
    forall o | 0 <= o < |s'.orders| ensures HeldUnits(p)(s'.orders[o]) == OrderNet(p)(s'.orders[o]) {
      HeldIsNet(p, s'.orders[o]);
    }
    SumCongruent(HeldUnits(p), s'.orders, OrderNet(p), s'.orders);
  }

  /**
   A FAILED order holds nothing and a PAID order all of its lines, repeated
   products included: by its row and its saga's position, and by the ledger of
   what the catalog did for each line.
   */
  lemma TerminalHoldings(f: Faults, s: State, steps: seq<Step>, o: nat)
    requires FaultFree(f) && Initial(s) && IsRun(f, s, steps) && o < |Final(f, s, steps).orders|
    ensures var ord := Final(f, s, steps).orders[o];
            HeldFrom(ord) <= HeldTo(ord) <= |ord.lines| &&
            (ord.status == FAILED ==> HeldLines(ord) == [] && forall j | 0 <= j < |ord.lines| :: ord.lines[j].net == 0) &&
            (ord.status == PAID ==>
              HeldLines(ord) == ord.lines && forall j | 0 <= j < |ord.lines| :: ord.lines[j].net == ord.lines[j].quantity)
  {
    ReachableExact(f, s, steps);
    TerminalLedger(Final(f, s, steps).orders[o]);
  }

  lemma TerminalLedger(o: Order)
    requires OrderInv(o) && ExactInv(o)
    ensures o.status == FAILED ==> HeldFrom(o) == HeldTo(o)
    ensures o.status == PAID ==> HeldFrom(o) == 0 && HeldTo(o) == |o.lines|
  {
  }
}
