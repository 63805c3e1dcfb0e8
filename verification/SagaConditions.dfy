/**
 Exactly when a promise of the checkout can be broken: for every new shop, which
 faults it takes. In each equivalence one half is a theorem about all runs, and
 the other a run in which one unit is checked out.
 */
module SagaConditions {
  import opened Sums
  import opened Stock
  import opened ChargeBook
  import opened Saga
  import opened SagaOrders
  import opened SagaSystem
  import opened SagaLedgers
  import opened SagaTheorems
  import opened SagaVerdicts
  import opened SagaExact
  import opened SagaWitnesses

  /** A new shop that has something in stock. */
  predicate InStock(s: State) { exists p | p in s.stock :: Stocks(s, p) }

  /** A new shop with a unit of p that costs something. */
  predicate Offers(s: State, p: ProductId) { Stocks(s, p) && 0 < s.prices[p] }

  /** A new shop that can sell something. */
  predicate Sellable(s: State) { exists p | p in s.stock :: Offers(s, p) }

  // ------------------------------------------------------- reading the witnesses

  lemma OneOrder(g: Order -> int, o: Order)
    ensures SumBy(g, [o]) == g(o)
  {
    assert [o][..0] == [];
  }

  /** The units that one order of one line sold. */
  lemma SoldByOne(p: ProductId, o: Order)
    requires |o.lines| == 1 && o.lines[0].product == p
    ensures SumBy(SoldUnits(p), [o]) == if o.status == PAID then o.lines[0].quantity else 0
  {
    assert [o][..0] == [] && o.lines[..0] == [];
    assert SumBy(LineUnits(p), o.lines) == o.lines[0].quantity;
  }

  function Is(kind: Kind): Kind -> int { (k: Kind) => if k == kind then 1 else 0 }

  /** What was heard is what is on the topic. */
  lemma {:induction false} HeardCounts(b: State, p: ProductId, kinds: seq<Kind>, kind: Kind, o: Order)
    requires b.log == [Event(Created, 0, "U", [p])] && kind != Created
    ensures Published(With(Heard(b, p, kinds), o), 0, kind) == SumBy(Is(kind), kinds)
  {
    if kinds == [] {
      assert Heard(b, p, []).log == [] + b.log;
      SumAppend(EventFor(0, kind), [], b.log[0]);
    } else {
      var n := |kinds| - 1;
      HeardCounts(b, p, kinds[..n], kind, o);
      HeardNext(b, p, kinds[..n], kinds[n]);
      assert kinds[..n] + [kinds[n]] == kinds;
      SumAppend(EventFor(0, kind), Heard(b, p, kinds[..n]).log, Event(kinds[n], 0, "U", [p]));
    }
  }

  // ------------------------------------------------------------ stock and lines

  /** The stock of p is negative, or with what PAID orders took it exceeds what there was. */
  predicate Oversold(s: State, t: State, p: ProductId) {
    p in s.stock && (p !in t.stock || t.stock[p] < 0 || s.stock[p] < t.stock[p] + SumBy(SoldUnits(p), t.orders))
  }

  ghost predicate Oversells(f: Faults, s: State) {
    exists t: State, p: ProductId :: Reaches(f, s, t) && Oversold(s, t, p)
  }

  /** A reachable state with one unit too many in stock and a line with net -1. */
  lemma ReleasedTwice(f: Faults, s: State, p: ProductId) returns (t: State)
    requires !Guarded(f) && Stocks(s, p)
    ensures Reaches(f, s, t) && p in t.stock && t.stock[p] == s.stock[p] + 1
    ensures |t.orders| == 1 && |t.orders[0].lines| == 1 && t.orders[0].status == PENDING
    ensures t.orders[0].lines[0].product == p && t.orders[0].lines[0].quantity == 1 && t.orders[0].lines[0].net == -1
  {
    if f.liveSweep {
      LiveSweepReleasesTwice(f, s, p);
      t := With(Refunded(s, p, 1), Placed(s, p, Unit(s, p, 0, 2, -1), PENDING, true, RefundWait(0),
                                          Done(Rejection(s, p)), RecWait(0)));
    } else if f.windowCrash {
      WindowCrashReleasesTwice(f, s, p);
      t := With(Refunded(s, p, 1), Placed(s, p, Unit(s, p, 0, 2, -1), PENDING, true, Crashed, Done(Rejection(s, p)),
                                          RecWait(0)));
    } else {
      OverlapReleasesTwice(f, s, p);
      t := With(Around(s, p, s.stock[p] + 1), Abandoned(s, p, Unit(s, p, 0, 2, -1), RecWait(0), [RecWait(0)]));
    }
  }

  /**
   Whatever messages are lost, stock can be oversold if and only if
   reconciliation may take a saga that still runs, or processes may crash and
   either one may die between a compensating release and the FAILED commit, or
   two passes may reconcile one order at the same time.
   */
  lemma OversellsIffUnguarded(f: Faults, s: State)
    requires InStock(s)
    ensures Oversells(f, s) <==> (f.crash && f.windowCrash) || f.liveSweep || (f.crash && f.overlap)
  {
    if !Guarded(f) {
      var p :| p in s.stock && Stocks(s, p);
      var t := ReleasedTwice(f, s, p);
      assert t.orders == [t.orders[0]];
      SoldByOne(p, t.orders[0]);
      assert Oversold(s, t, p);
    } else {
      forall t: State, p: ProductId | Reaches(f, s, t) ensures !Oversold(s, t, p) {
        var steps :| IsRun(f, s, steps) && Final(f, s, steps) == t;
        if p in s.stock {
          NeverOversold(f, s, steps, p);
        }
      }
    }
  }

  /** The catalog did something to the line that is neither all nor nothing, or not all for a PAID order. */
  predicate LineBroken(t: State, o: nat, j: nat) {
    o < |t.orders| && j < |t.orders[o].lines| &&
    var l := t.orders[o].lines[j];
    (l.net != 0 && l.net != l.quantity) || (t.orders[o].status == PAID && l.net != l.quantity)
  }

  ghost predicate BreaksLines(f: Faults, s: State) {
    exists t: State, o: nat, j: nat :: Reaches(f, s, t) && LineBroken(t, o, j)
  }

  /** The same faults, and no others, break the ledger of a line. */
  lemma BreaksLinesIffUnguarded(f: Faults, s: State)
    requires InStock(s)
    ensures BreaksLines(f, s) <==> (f.crash && f.windowCrash) || f.liveSweep || (f.crash && f.overlap)
  {
    if !Guarded(f) {
      var p :| p in s.stock && Stocks(s, p);
      var t := ReleasedTwice(f, s, p);
      assert LineBroken(t, 0, 0);
    } else {
      forall t: State, o: nat, j: nat | Reaches(f, s, t) ensures !LineBroken(t, o, j) {
        var steps :| IsRun(f, s, steps) && Final(f, s, steps) == t;
        if o < |t.orders| && j < |t.orders[o].lines| {
          LinesAllOrNothing(f, s, steps, o, j);
        }
      }
    }
  }

  // ------------------------------------------------------------------- leaks

  /** A FAILED order of one line that kept its unit. */
  lemma Leak(f: Faults, s: State, p: ProductId) returns (t: State)
    requires !FaultFree(f) && Stocks(s, p)
    ensures Reaches(f, s, t) && p in t.stock && t.stock[p] == s.stock[p] - 1
    ensures |t.orders| == 1 && |t.orders[0].lines| == 1 && t.orders[0].status == FAILED
    ensures t.orders[0].lines[0].product == p && t.orders[0].lines[0].net == 1
  {
    if f.transport {
      LostReserveReplyLeaksStock(f, s, p);
      t := With(Less(s, p), Placed(s, p, Taken(s, p), FAILED, false, PublishFailed, Idle, RecIdle));
    } else if f.crash {
      EarlyCrashLeaksStock(f, s, p);
      t := With(Less(s, p), Placed(s, p, Taken(s, p), FAILED, false, Crashed, Idle, RecPublish));
    } else {
      LiveSweepLeaksStock(f, s, p);
      t := With(Less(s, p), Placed(s, p, Taken(s, p), FAILED, false, Reserve(1), Idle, RecPublish));
    }
  }

  predicate FailedHolds(t: State, o: nat, j: nat) {
    o < |t.orders| && j < |t.orders[o].lines| && t.orders[o].status == FAILED && t.orders[o].lines[j].net != 0
  }

  ghost predicate FailsHolding(f: Faults, s: State) {
    exists t: State, o: nat, j: nat :: Reaches(f, s, t) && FailedHolds(t, o, j)
  }

  /** A FAILED order can keep what it was granted if and only if messages, processes or running sagas can be cut off. */
  lemma FailsHoldingIffFaulty(f: Faults, s: State)
    requires InStock(s)
    ensures FailsHolding(f, s) <==> f.transport || f.crash || f.liveSweep
  {
    if !FaultFree(f) {
      var p :| p in s.stock && Stocks(s, p);
      var t := Leak(f, s, p);
      assert FailedHolds(t, 0, 0);
    } else {
      forall t: State, o: nat, j: nat | Reaches(f, s, t) ensures !FailedHolds(t, o, j) {
        var steps :| IsRun(f, s, steps) && Final(f, s, steps) == t;
        if o < |t.orders| {
          TerminalHoldings(f, s, steps, o);
        }
      }
    }
  }

  /** Every order has its verdict, and yet the units of p in stock and in PAID orders are not those there were. */
  predicate DecidedOff(s: State, t: State, p: ProductId) {
    p in s.stock && (forall o | 0 <= o < |t.orders| :: t.orders[o].status != PENDING) &&
    (p !in t.stock || t.stock[p] + SumBy(SoldUnits(p), t.orders) != s.stock[p])
  }

  ghost predicate LosesCount(f: Faults, s: State) {
    exists t: State, p: ProductId :: Reaches(f, s, t) && DecidedOff(s, t, p)
  }

  lemma DecidedNet(f: Faults, s: State, steps: seq<Step>, o: nat, p: ProductId)
    requires FaultFree(f) && Initial(s) && IsRun(f, s, steps) && o < |Final(f, s, steps).orders|
    requires Final(f, s, steps).orders[o].status != PENDING
    ensures SoldUnits(p)(Final(f, s, steps).orders[o]) == OrderNet(p)(Final(f, s, steps).orders[o])
  {
    TerminalHoldings(f, s, steps, o);
    var ord := Final(f, s, steps).orders[o];
    if ord.status == PAID {
      SumCongruent(LineUnits(p), ord.lines, LineNet(p), ord.lines);
    } else {
      SumZero(LineNet(p), ord.lines);
    }
  }

  /** So can stock and PAID orders, once all orders are decided, fail to add up to the initial stock. */
  lemma LosesCountIffFaulty(f: Faults, s: State)
    requires InStock(s)
    ensures LosesCount(f, s) <==> f.transport || f.crash || f.liveSweep
  {
    if !FaultFree(f) {
      var p :| p in s.stock && Stocks(s, p);
      var t := Leak(f, s, p);
      assert t.orders == [t.orders[0]];
      SoldByOne(p, t.orders[0]);
      assert DecidedOff(s, t, p);
    } else {
      forall t: State, p: ProductId | Reaches(f, s, t) ensures !DecidedOff(s, t, p) {
        var steps :| IsRun(f, s, steps) && Final(f, s, steps) == t;
        if p in s.stock && forall o | 0 <= o < |t.orders| :: t.orders[o].status != PENDING {
          DecidedAddsUp(f, s, steps, p);
        }
      }
    }
  }

  /** Without faults, once all orders are decided, stock and PAID orders make up the initial stock. */
  lemma DecidedAddsUp(f: Faults, s: State, steps: seq<Step>, p: ProductId)
    requires FaultFree(f) && Initial(s) && IsRun(f, s, steps) && p in s.stock
    requires forall o | 0 <= o < |Final(f, s, steps).orders| :: Final(f, s, steps).orders[o].status != PENDING
    ensures var t := Final(f, s, steps);
            p in t.stock && t.stock[p] + SumBy(SoldUnits(p), t.orders) == s.stock[p]
  {
    ReachableExact(f, s, steps);
    var t := Final(f, s, steps);
    forall o | 0 <= o < |t.orders| ensures SoldUnits(p)(t.orders[o]) == OrderNet(p)(t.orders[o]) {
      DecidedNet(f, s, steps, o, p);
    }
    SumCongruent(SoldUnits(p), t.orders, OrderNet(p), t.orders);
  }

  /** What is in stock and what the orders hold, by their rows and positions, is not what there was. */
  predicate OffBalance(s: State, t: State, p: ProductId) {
    p in s.stock && (p !in t.stock || t.stock[p] + SumBy(HeldUnits(p), t.orders) != s.stock[p])
  }

  ghost predicate Unbalances(f: Faults, s: State) {
    exists t: State, p: ProductId :: Reaches(f, s, t) && OffBalance(s, t, p)
  }

  /** One order of one line, with nothing of it held. */
  lemma HeldByNone(p: ProductId, o: Order)
    requires |o.lines| == 1 && HeldTo(o) <= HeldFrom(o)
    ensures SumBy(HeldUnits(p), [o]) == 0
  {
    OneOrder(HeldUnits(p), o);
  }

  lemma TipsOver(f: Faults, s: State, p: ProductId) returns (t: State)
    requires !FaultFree(f) && Stocks(s, p)
    ensures Reaches(f, s, t) && OffBalance(s, t, p)
  {
    var b, o;
    if f.transport {
      LostReserveReplyLeaksStock(f, s, p);
      b, o := Less(s, p), Placed(s, p, Taken(s, p), FAILED, false, PublishFailed, Idle, RecIdle);
    } else if f.crash {
      EarlyCrashLeaksStock(f, s, p);
      b, o := Less(s, p), Placed(s, p, Taken(s, p), FAILED, false, Crashed, Idle, RecPublish);
    } else {
      LiveSweepReleasesTwice(f, s, p);
      b := Refunded(s, p, 1);
      o := Placed(s, p, Unit(s, p, 0, 2, -1), PENDING, true, RefundWait(0), Done(Rejection(s, p)), RecWait(0));
    }
    t := With(b, o);
    HeldByNone(p, o);
  }

  /** And stock and holdings, at some moment. */
  lemma UnbalancesIffFaulty(f: Faults, s: State)
    requires InStock(s)
    ensures Unbalances(f, s) <==> f.transport || f.crash || f.liveSweep
  {
    if !FaultFree(f) {
      var p :| p in s.stock && Stocks(s, p);
      var t := TipsOver(f, s, p);
    } else {
      forall t: State, p: ProductId | Reaches(f, s, t) ensures !OffBalance(s, t, p) {
        var steps :| IsRun(f, s, steps) && Final(f, s, steps) == t;
        if p in s.stock {
          ExactConservation(f, s, steps, p);
        }
      }
    }
  }

  // ------------------------------------------------------- charges and verdicts

  /** Every call has returned, and the charged total is not the total of the PAID orders. */
  predicate SettledOff(t: State) {
    Settled(t) && SumBy(PaymentAmount(), t.ledger) != SumBy(PaidAmount(), t.orders)
  }

  ghost predicate MisCharges(f: Faults, s: State) {
    exists t: State :: Reaches(f, s, t) && SettledOff(t)
  }

  /** A settled shop can have charged more than its PAID orders if and only if messages or a live saga may be lost. */
  lemma MisChargesIffLost(f: Faults, s: State)
    requires Sellable(s)
    ensures MisCharges(f, s) <==> f.transport || f.liveSweep
  {
    if f.transport || f.liveSweep {
      var p :| p in s.stock && Offers(s, p);
      var t := ChargedInVain(f, s, p);
      assert t.orders == [t.orders[0]] && t.ledger[..0] == [];
      OneOrder(PaidAmount(), t.orders[0]);
      assert SettledOff(t);
    } else {
      forall t: State | Reaches(f, s, t) ensures !SettledOff(t) {
        var steps :| IsRun(f, s, steps) && Final(f, s, steps) == t;
        if Settled(t) {
          ChargedEqualsPaid(f, s, steps);
        }
      }
    }
  }

  /** The one call has returned, with a FAILED order that was charged. */
  lemma ChargedInVain(f: Faults, s: State, p: ProductId) returns (t: State)
    requires (f.transport || f.liveSweep) && Stocks(s, p) && 0 < s.prices[p]
    ensures Reaches(f, s, t) && |t.orders| == 1 && t.orders[0].pc == Returned && t.orders[0].status == FAILED
    ensures |t.ledger| == 1 && 0 < t.ledger[0].amount
  {
    if f.transport {
      LostReplyChargesFailedOrder(f, s, p);
      t := With(Heard(Billed(s, p), p, [Failed]),
                Placed(s, p, Unit(s, p, 1, 0, 1), FAILED, true, Returned, Done(Approved),
                       RecIdle).(sent := Sent(1, 0, 1, 0)));
    } else {
      LiveSweepSaysBoth(f, s, p);
      t := With(Heard(Billed(s, p), p, [Paid, Failed]),
                Placed(s, p, Taken(s, p), FAILED, true, Returned, Done(Approved), RecIdle).(sent := Sent(1, 1, 1, 0)));
    }
  }

  /** The step changes the status of an order that had its verdict. */
  predicate Reverses(f: Faults, t: State, st: Step, o: nat) {
    CanStep(f, t, st) && o < |t.orders| && t.orders[o].status != PENDING &&
    (|Apply(f, t, st).orders| <= o || Apply(f, t, st).orders[o].status != t.orders[o].status)
  }

  ghost predicate VerdictChanges(f: Faults, s: State) {
    exists t: State, st: Step, o: nat :: Reaches(f, s, t) && Reverses(f, t, st, o)
  }

  /** A verdict can change if and only if reconciliation may take a saga that still runs. */
  lemma VerdictChangesIffLiveSweep(f: Faults, s: State)
    requires Sellable(s)
    ensures VerdictChanges(f, s) <==> f.liveSweep
  {
    if f.liveSweep {
      var p :| p in s.stock && Offers(s, p);
      LiveSweepUndoesPaid(f, s, p);
      assert Reverses(f, With(Billed(s, p), Bought(s, p, RecRelease(1))), Thread(0, Sweep(SweepCommit)), 0);
    } else {
      forall t: State, st: Step, o: nat | Reaches(f, s, t) ensures !Reverses(f, t, st, o) {
        var steps :| IsRun(f, s, steps) && Final(f, s, steps) == t;
        RunKeepsVerdicts(f, s, steps);
        if CanStep(f, t, st) {
          StepKeepsVerdicts(f, t, st);
        }
      }
    }
  }

  // ------------------------------------------------------------------- events

  predicate SaidTwice(t: State, o: nat) {
    o < |t.orders| && 1 < Published(t, o, Paid) + Published(t, o, Failed)
  }

  ghost predicate SaysTwice(f: Faults, s: State) {
    exists t: State, o: nat :: Reaches(f, s, t) && SaidTwice(t, o)
  }

  /**
   More than one order.paid or order.failed can be published for an order if and
   only if reconciliation may take a saga that still runs, or two passes may be
   at the order of one that crashed.
   */
  lemma SaysTwiceIffMet(f: Faults, s: State)
    requires InStock(s)
    ensures SaysTwice(f, s) <==> f.liveSweep || (f.crash && f.overlap)
  {
    if f.liveSweep || (f.crash && f.overlap) {
      var p :| p in s.stock && Stocks(s, p);
      var t := FailedTwice(f, s, p);
      assert SaidTwice(t, 0);
    } else {
      forall t: State, o: nat | Reaches(f, s, t) ensures !SaidTwice(t, o) {
        var steps :| IsRun(f, s, steps) && Final(f, s, steps) == t;
        if o < |t.orders| {
          EventsAtMostOnce(f, s, steps, o);
        }
      }
    }
  }

  lemma FailedTwice(f: Faults, s: State, p: ProductId) returns (t: State)
    requires (f.liveSweep || (f.crash && f.overlap)) && Stocks(s, p)
    ensures Reaches(f, s, t) && |t.orders| == 1 && Published(t, 0, Failed) == 2 && Published(t, 0, Paid) == 0
  {
    var b, ord;
    if f.liveSweep {
      LiveSweepFailsTwice(f, s, p);
      b := Refunded(s, p, 1);
      ord := Placed(s, p, Unit(s, p, 0, 2, -1), FAILED, true, Returned, Done(Rejection(s, p)),
                    RecIdle).(sent := Sent(1, 0, 2, 0));
    } else {
      OverlapFailsTwice(f, s, p);
      b := Around(s, p, s.stock[p]);
      ord := Stillborn(s, p, FAILED, RecIdle, [], 2);
    }
    t := With(Heard(b, p, [Failed, Failed]), ord);
    HeardCounts(b, p, [Failed, Failed], Failed, ord);
    HeardCounts(b, p, [Failed, Failed], Paid, ord);
    TwoKinds(Failed, Failed, Failed);
    TwoKinds(Failed, Failed, Paid);
  }

  lemma TwoKinds(a: Kind, b: Kind, kind: Kind)
    ensures SumBy(Is(kind), [a, b]) == Is(kind)(a) + Is(kind)(b)
  {
    SumAppend(Is(kind), [], a);
    SumAppend(Is(kind), [a], b);
    assert [] + [a] == [a] && [a] + [b] == [a, b];
  }

  predicate DeliveredTwice(t: State, o: nat) { o < |t.orders| && 1 < Published(t, o, Delivered) }

  ghost predicate DeliversTwice(f: Faults, s: State) {
    exists t: State, o: nat :: Reaches(f, s, t) && DeliveredTwice(t, o)
  }

  /** An order can be announced as delivered twice if and only if two passes may overlap, whatever else goes wrong. */
  lemma DeliversTwiceIffOverlap(f: Faults, s: State)
    requires Sellable(s)
    ensures DeliversTwice(f, s) <==> f.overlap
  {
    if f.overlap {
      var p :| p in s.stock && Offers(s, p);
      OverlapDeliversTwice(f, s, p);
      var ord := Due(s, p, true, ShipIdle, [], 2);
      HeardCounts(Billed(s, p), p, [Delivered, Delivered], Delivered, ord);
      TwoKinds(Delivered, Delivered, Delivered);
      assert DeliveredTwice(With(Heard(Billed(s, p), p, [Delivered, Delivered]), ord), 0);
    } else {
      forall t: State, o: nat | Reaches(f, s, t) ensures !DeliveredTwice(t, o) {
        var steps :| IsRun(f, s, steps) && Final(f, s, steps) == t;
        if o < |t.orders| {
          DeliveredAtMostOnce(f, s, steps, o);
        }
      }
    }
  }

  /** What an event of this kind says of its order. */
  predicate Says(kind: Kind, o: Order) {
    match kind
    case Created => true
    case Paid => o.status == PAID
    case Failed => o.status == FAILED
    case Delivered => o.status == PAID && o.delivered
  }

  /** An event of the kind is on the topic although its order is not in that state. */
  predicate FalseEvent(t: State, e: nat, kind: Kind) {
    e < |t.log| && t.log[e].kind == kind && t.log[e].order < |t.orders| && !Says(kind, t.orders[t.log[e].order])
  }

  ghost predicate Misleads(f: Faults, s: State, kind: Kind) {
    exists t: State, e: nat :: Reaches(f, s, t) && FalseEvent(t, e, kind)
  }

  /** The one order failed, and the topic says it was delivered. */
  lemma FalseDelivery(f: Faults, s: State, p: ProductId) returns (t: State)
    requires f.liveSweep && Stocks(s, p) && 0 < s.prices[p]
    ensures Reaches(f, s, t) && |t.orders| == 1 && t.orders[0].status == FAILED
    ensures 1 < |t.log| && t.log[1] == Event(Delivered, 0, "U", [p])
  {
    LiveSweepDeliversFailed(f, s, p);
    t := With(Heard(Billed(s, p), p, [Delivered]),
              Bought(s, p, RecPublish).(status := FAILED, delivered := true, sent := Sent(1, 0, 0, 1)));
  }

  /** A reachable state in which the topic says of order 0 what it is not. */
  lemma Lie(f: Faults, s: State, p: ProductId, kind: Kind) returns (t: State)
    requires f.liveSweep && Stocks(s, p) && 0 < s.prices[p] && kind != Created
    ensures Reaches(f, s, t) && FalseEvent(t, 1, kind)
  {
    match kind
    case Paid =>
      LiveSweepSaysBoth(f, s, p);
      t := With(Heard(Billed(s, p), p, [Paid, Failed]),
                Placed(s, p, Taken(s, p), FAILED, true, Returned, Done(Approved), RecIdle).(sent := Sent(1, 1, 1, 0)));
    case Failed =>
      LiveSweepPaysFailed(f, s, p);
      t := With(Heard(Billed(s, p), p, [Failed]),
                Placed(s, p, Taken(s, p), PAID, true, PublishPaid, Done(Approved), RecIdle).(sent := Sent(1, 0, 1, 0)));
    case Delivered =>
      t := FalseDelivery(f, s, p);
    case Created =>
  }

  /** Each of the three events can be false if and only if reconciliation may take a saga that still runs. */
  lemma MisleadsIffLiveSweep(f: Faults, s: State, kind: Kind)
    requires Sellable(s) && kind != Created
    ensures Misleads(f, s, kind) <==> f.liveSweep
  {
    if f.liveSweep {
      var p :| p in s.stock && Offers(s, p);
      var t := Lie(f, s, p, kind);
    } else {
      forall t: State, e: nat | Reaches(f, s, t) ensures !FalseEvent(t, e, kind) {
        var steps :| IsRun(f, s, steps) && Final(f, s, steps) == t;
        if e < |t.log| && t.log[e].kind == kind && t.log[e].order < |t.orders| {
          CountedWhenPresent(EventFor(t.log[e].order, kind), t.log, e);
          EventsAreTrue(f, s, steps, t.log[e].order);
        }
      }
    }
  }

  /** The call returned, but the topic does not have exactly the event of its verdict. */
  predicate Untold(t: State, o: nat) {
    o < |t.orders| && t.orders[o].pc == Returned &&
    (t.orders[o].status == PENDING || Published(t, o, Paid) != One(t.orders[o].status == PAID) ||
     Published(t, o, Failed) != One(t.orders[o].status == FAILED))
  }

  ghost predicate ReturnsUntold(f: Faults, s: State) {
    exists t: State, o: nat :: Reaches(f, s, t) && Untold(t, o)
  }

  /** A call can return without exactly its verdict's event if and only if a saga that still runs may be reconciled. */
  lemma ReturnsUntoldIffLiveSweep(f: Faults, s: State)
    requires InStock(s)
    ensures ReturnsUntold(f, s) <==> f.liveSweep
  {
    if f.liveSweep {
      var p :| p in s.stock && Stocks(s, p);
      LiveSweepFailsTwice(f, s, p);
      var b := Refunded(s, p, 1);
      var ord := Placed(s, p, Unit(s, p, 0, 2, -1), FAILED, true, Returned, Done(Rejection(s, p)),
                        RecIdle).(sent := Sent(1, 0, 2, 0));
      HeardCounts(b, p, [Failed, Failed], Failed, ord);
      TwoKinds(Failed, Failed, Failed);
      assert Untold(With(Heard(b, p, [Failed, Failed]), ord), 0);
    } else {
      forall t: State, o: nat | Reaches(f, s, t) ensures !Untold(t, o) {
        var steps :| IsRun(f, s, steps) && Final(f, s, steps) == t;
        if o < |t.orders| && t.orders[o].pc == Returned {
          TerminalEventPublished(f, s, steps, o);
        }
      }
    }
  }
}
