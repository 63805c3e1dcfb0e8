/**
 What holds in every state the checkout system can reach, whatever the
 interleaving: calls, charges and prices under any faults at all, and the stock
 as long as no process dies between a compensating release and the FAILED commit,
 reconciliation only takes orders whose saga has ended, and no two passes overlap
 where processes crash. Module SagaConditions shows when exactly this is so.
 */
module SagaTheorems {
  import opened Sums
  import opened Stock
  import opened ChargeBook
  import opened Saga
  import opened SagaOrders
  import opened SagaSystem
  import opened SagaLedgers

  // ------------------------------------------------- what no fault can disturb

  /** Calls, prices, payments and topic agree with the order rows. */
  predicate Books(s: State) {
    ClientsInv(s) && OwnersDistinct(s.clients, |s.orders|) && PricesInv(s) && PaymentsInv(s) && LogInv(s)
  }

  lemma StepKeepsBooks(f: Faults, s: State, st: Step)
    requires Books(s) && CanStep(f, s, st)
    ensures Books(Apply(f, s, st))
  {
    StepKeepsClients(f, s, st);
    StepKeepsOwners(f, s, st);
    StepKeepsPrices(f, s, st);
    StepKeepsPayments(f, s, st);
    StepKeepsLog(f, s, st);
  }

  lemma {:induction false} RunKeepsBooks(f: Faults, s: State, steps: seq<Step>)
    requires Books(s) && IsRun(f, s, steps)
    ensures Books(Final(f, s, steps))
    decreases |steps|
  {
    if steps != [] {
      StepKeepsBooks(f, s, steps[0]);
      RunKeepsBooks(f, Apply(f, s, steps[0]), steps[1..]);
    }
  }

  /** Under any faults, the books are in order in every reachable state. */
  lemma ReachableBooks(f: Faults, s: State, steps: seq<Step>)
    requires Initial(s) && IsRun(f, s, steps)
    ensures Books(Final(f, s, steps))
  {
    RunKeepsBooks(f, s, steps);
  }

  // --------------------------------------------- what the guarded model keeps

  predicate Inv(f: Faults, initial: Table, s: State) {
    OrdersInv(s) && CrashesAllowed(f, s) && StockInv(initial, s) && Books(s)
  }

  lemma StepKeepsInv(f: Faults, initial: Table, s: State, st: Step)
    requires Guarded(f) && Inv(f, initial, s) && CanStep(f, s, st)
    ensures Inv(f, initial, Apply(f, s, st))
  {
    StepKeepsOrders(f, s, st);
    StepKeepsStock(f, initial, s, st);
    StepKeepsBooks(f, s, st);
  }

  lemma {:induction false} RunKeepsInv(f: Faults, initial: Table, s: State, steps: seq<Step>)
    requires Guarded(f) && Inv(f, initial, s) && IsRun(f, s, steps)
    ensures Inv(f, initial, Final(f, s, steps))
    decreases |steps|
  {
    if steps != [] {
      StepKeepsInv(f, initial, s, steps[0]);
      RunKeepsInv(f, initial, Apply(f, s, steps[0]), steps[1..]);
    }
  }

  lemma InitialInv(f: Faults, s: State)
    requires Initial(s)
    ensures Inv(f, s.stock, s)
  {
  }

  lemma ReachableInv(f: Faults, s: State, steps: seq<Step>)
    requires Guarded(f) && Initial(s) && IsRun(f, s, steps)
    ensures Inv(f, s.stock, Final(f, s, steps))
  {
    InitialInv(f, s);
    RunKeepsInv(f, s.stock, s, steps);
  }

  // ------------------------------------------------------ stock conservation

  /** Units of p that a PAID order sold, read off its row and its lines. */
  function LineUnits(p: ProductId): Line -> int { (l: Line) => if l.product == p then l.quantity else 0 }

  function SoldUnits(p: ProductId): Order -> int {
    (o: Order) => if o.status == PAID then SumBy(LineUnits(p), o.lines) else 0
  }

  lemma SoldAtMostHeld(p: ProductId, o: Order)
    requires OrderInv(o)
    ensures SoldUnits(p)(o) <= OrderNet(p)(o)
  {
    if o.status == PAID {
      SumCongruent(LineUnits(p), o.lines, LineNet(p), o.lines);
    } else {
      SumNonNegative(LineNet(p), o.lines);
    }
  }

  /** Each line's ledger is all or nothing, and exactly the line once the order is PAID. */
  lemma LinesAllOrNothing(f: Faults, s: State, steps: seq<Step>, o: nat, j: nat)
    requires Guarded(f) && Initial(s) && IsRun(f, s, steps)
    requires o < |Final(f, s, steps).orders| && j < |Final(f, s, steps).orders[o].lines|
    ensures var ord := Final(f, s, steps).orders[o];
            var l := ord.lines[j];
            0 <= l.net && (l.net == 0 || l.net == l.quantity) && (ord.status == PAID ==> l.net == l.quantity)
  {
    ReachableInv(f, s, steps);
    assert OrderInv(Final(f, s, steps).orders[o]);
  }

  /** Nothing is oversold: stock stays non-negative and, with what PAID orders took, within the initial stock. */
  lemma NeverOversold(f: Faults, s: State, steps: seq<Step>, p: ProductId)
    requires Guarded(f) && Initial(s) && IsRun(f, s, steps) && p in s.stock
    ensures var s' := Final(f, s, steps);
            p in s'.stock && 0 <= s'.stock[p] && s'.stock[p] + SumBy(SoldUnits(p), s'.orders) <= s.stock[p]
  {
    ReachableInv(f, s, steps);
    var s' := Final(f, s, steps);
    forall o | 0 <= o < |s'.orders| ensures SoldUnits(p)(s'.orders[o]) <= OrderNet(p)(s'.orders[o]) {
      SoldAtMostHeld(p, s'.orders[o]);
    }
    SumMonotone(SoldUnits(p), s'.orders, OrderNet(p), s'.orders);
  }

  // ------------------------------------------------------------------ charges

  /** What a line of an order costs. */
  function LinePrice(prices: map<ProductId, int>): Line -> int {
    (l: Line) => if l.product in prices then l.quantity * prices[l.product] else 0
  }

  lemma AmountIsPrice(prices: map<ProductId, int>, o: Order)
    requires PricedRight(prices, o)
    ensures o.amount == SumBy(LinePrice(prices), o.lines)
    ensures forall j | 0 <= j < |o.lines| :: o.lines[j].product in prices
  {
    AmountIsSum(prices, ItemsOf(o));
    forall j | 0 <= j < |o.lines| ensures o.lines[j].product in prices {
      assert ItemsOf(o)[j].product in prices;
    }
    SumCongruent(LineCost(prices), ItemsOf(o), LinePrice(prices), o.lines);
  }

  function PaidAmount(): Order -> int { (o: Order) => if o.status == PAID then o.amount else 0 }

  /** Under any faults, no order, whatever became of it, is charged twice. */
  lemma ChargedAtMostOnce(f: Faults, s: State, steps: seq<Step>, o: nat)
    requires Initial(s) && IsRun(f, s, steps) && o < |Final(f, s, steps).orders|
    ensures SumBy(UnderKey(Final(f, s, steps).orders[o].key), Final(f, s, steps).ledger) <= 1
  {
    ReachableBooks(f, s, steps);
    assert CardInv(Final(f, s, steps), o);
  }

  /**
   Under any faults, a PAID order was charged exactly once: one successful
   execution under its key, made for it, of the price of its lines, which is
   quantity times unit price, summed.
   */
  lemma PaidChargedOnce(f: Faults, s: State, steps: seq<Step>, o: nat)
    requires Initial(s) && IsRun(f, s, steps)
    requires o < |Final(f, s, steps).orders| && Final(f, s, steps).orders[o].status == PAID
    ensures var s' := Final(f, s, steps);
            var ord := s'.orders[o];
            SumBy(UnderKey(ord.key), s'.ledger) == 1 &&
            (forall j | 0 <= j < |ord.lines| :: ord.lines[j].product in s'.prices) &&
            ord.amount == SumBy(LinePrice(s'.prices), ord.lines) &&
            forall r | 0 <= r < |s'.ledger| && s'.ledger[r].key == ord.key ::
              s'.ledger[r] == Payment(ord.key, o, ord.amount)
  {
    ReachableBooks(f, s, steps);
    var s' := Final(f, s, steps);
    assert ChargeInv(s'.orders[o]) && CardInv(s', o);
    AmountIsPrice(s'.prices, s'.orders[o]);
    forall r | 0 <= r < |s'.ledger| && s'.ledger[r].key == s'.orders[o].key
      ensures s'.ledger[r] == Payment(s'.orders[o].key, o, s'.orders[o].amount)
    {
      PaymentIsOwn(s', o, r);
    }
  }

  lemma PaymentIsOwn(s: State, o: nat, r: nat)
    requires KeysDistinct(s.orders) && LedgerInv(s) && o < |s.orders| && r < |s.ledger| && s.ledger[r].key == s.orders[o].key
    ensures s.ledger[r] == Payment(s.orders[o].key, o, s.orders[o].amount)
  {
    var d := s.ledger[r].order;
    assert s.orders[d].key == s.orders[o].key;
  }

  /** Under any faults, what was charged covers what PAID orders owe; it can only be more. */
  lemma ChargedCoversPaid(f: Faults, s: State, steps: seq<Step>)
    requires Initial(s) && IsRun(f, s, steps)
    ensures SumBy(PaidAmount(), Final(f, s, steps).orders) <= SumBy(PaymentAmount(), Final(f, s, steps).ledger)
  {
    ReachableBooks(f, s, steps);
    var s' := Final(f, s, steps);
    forall o | 0 <= o < |s'.orders| ensures PaidAmount()(s'.orders[o]) <= ApprovedAmount()(s'.orders[o]) {
      assert ChargeInv(s'.orders[o]) && CardInv(s', o);
    }
    SumMonotone(PaidAmount(), s'.orders, ApprovedAmount(), s'.orders);
  }

  // ------------------------------------------------- one order per Idempotency-Key

  predicate Answers(c: Client, o: OrderId) { c.at == Owns(o) || c.at == Replied(o) }

  /**
   Whatever faults there are, calls with one Idempotency-Key get one order: at
   most one of them runs a saga, every order id they are given is the same one,
   and no other row has the key.
   */
  lemma OneOrderPerKey(f: Faults, s: State, steps: seq<Step>, a: nat, b: nat, oa: OrderId, ob: OrderId)
    requires Initial(s) && IsRun(f, s, steps)
    requires a < |Final(f, s, steps).clients| && b < |Final(f, s, steps).clients|
    requires Final(f, s, steps).clients[a].key == Final(f, s, steps).clients[b].key
    requires Answers(Final(f, s, steps).clients[a], oa) && Answers(Final(f, s, steps).clients[b], ob)
    ensures oa == ob && oa < |Final(f, s, steps).orders|
    ensures Final(f, s, steps).clients[a].at.Owns? && Final(f, s, steps).clients[b].at.Owns? ==> a == b
    ensures forall d | 0 <= d < |Final(f, s, steps).orders| && d != oa ::
              Final(f, s, steps).orders[d].key != Final(f, s, steps).clients[a].key
  {
    ReachableBooks(f, s, steps);
    var s' := Final(f, s, steps);
    assert ClientInv(s', a) && ClientInv(s', b);
  }

  /** A call that looks a key up which has a row is answered with that row's order, and nothing else happens. */
  lemma ReplayIsAnswered(f: Faults, s: State, c: nat, cm: CallMove, o: OrderId)
    requires KeysDistinct(s.orders) && CanHandle(f, s, c, cm) && (cm == Lookup || cm == Requery)
    requires s.clients[c].key != "" && o < |s.orders| && s.orders[o].key == s.clients[c].key
    ensures Handled(f, s, c, cm) == s.(clients := s.clients[c := s.clients[c].(at := Replied(o))])
  {
  }

  /** A step of a call moves that call alone, and no answered one. */
  lemma HandleMovesOne(f: Faults, s: State, c: nat, cm: CallMove)
    requires CanHandle(f, s, c, cm)
    ensures var s' := Handled(f, s, c, cm);
            |s'.clients| == |s.clients| && s'.prices == s.prices && !s.clients[c].at.Replied? &&
            forall d | 0 <= d < |s.clients| && d != c :: s'.clients[d] == s.clients[d]
  {
  }

  /**
   A call that priced its basket and finds its key taken by then is not held up:
   its insert collides, and the lookup after that answers it.
   */
  lemma LostRaceIsAnswered(f: Faults, s: State, c: nat, o: OrderId)
    requires KeysDistinct(s.orders) && c < |s.clients| && s.clients[c].at.Priced? && s.clients[c].key != ""
    requires o < |s.orders| && s.orders[o].key == s.clients[c].key
    ensures CanHandle(f, s, c, Flush)
    ensures var collided := Handled(f, s, c, Flush);
            CanHandle(f, collided, c, Requery) &&
            Handled(f, collided, c, Requery) == s.(clients := s.clients[c := s.clients[c].(at := Replied(o))])
  {
    assert FindKey(s.orders, s.clients[c].key).Row?;
    var collided := Handled(f, s, c, Flush);
    assert collided == s.(clients := s.clients[c := s.clients[c].(at := Collided)]);
    ReplayIsAnswered(f, collided, c, Requery, o);
    assert collided.clients[c := s.clients[c].(at := Replied(o))] == s.clients[c := s.clients[c].(at := Replied(o))];
  }

  /** A call that was answered has its answer for good. */
  lemma {:induction false} AnswerIsFinal(f: Faults, s: State, steps: seq<Step>, c: nat)
    requires IsRun(f, s, steps) && c < |s.clients| && s.clients[c].at.Replied?
    ensures c < |Final(f, s, steps).clients| && Final(f, s, steps).clients[c] == s.clients[c]
    decreases |steps|
  {
    if steps != [] {
      if OnRow(steps[0]) {
        RowStepShape(f, s, steps[0]);
      } else if steps[0].Handle? {
        HandleMovesOne(f, s, steps[0].c, steps[0].cm);
      }
      AnswerIsFinal(f, Apply(f, s, steps[0]), steps[1..], c);
    }
  }

  /** Why a call is turned away: no key, no basket or an unknown product, or else a fault. */
  predicate TurnedAwayInv(f: Faults, s: State, c: Client) {
    (c.at == Rejected ==> c.key == "" || c.items == [] || !Priceable(s.prices, c.items) || f.transport || f.crash) &&
    (c.key == "" ==> c.at == Looking || c.at == Rejected)
  }

  predicate AllTurnedAwayInv(f: Faults, s: State) {
    forall c | 0 <= c < |s.clients| :: TurnedAwayInv(f, s, s.clients[c])
  }

  lemma HandleKeepsTurnedAway(f: Faults, s: State, c: nat, cm: CallMove)
    requires CanHandle(f, s, c, cm) && TurnedAwayInv(f, s, s.clients[c])
    ensures TurnedAwayInv(f, s, Handled(f, s, c, cm).clients[c])
  {
  }

  lemma StepKeepsTurnedAway(f: Faults, s: State, st: Step)
    requires AllTurnedAwayInv(f, s) && CanStep(f, s, st)
    ensures AllTurnedAwayInv(f, Apply(f, s, st)) && Apply(f, s, st).prices == s.prices
  {
    if OnRow(st) {
      RowStepShape(f, s, st);
    } else if st.Handle? {
      HandleMovesOne(f, s, st.c, st.cm);
      HandleKeepsTurnedAway(f, s, st.c, st.cm);
    }
  }

  lemma {:induction false} RunKeepsTurnedAway(f: Faults, s: State, steps: seq<Step>)
    requires AllTurnedAwayInv(f, s) && IsRun(f, s, steps)
    ensures AllTurnedAwayInv(f, Final(f, s, steps)) && Final(f, s, steps).prices == s.prices
    decreases |steps|
  {
    if steps != [] {
      StepKeepsTurnedAway(f, s, steps[0]);
      RunKeepsTurnedAway(f, Apply(f, s, steps[0]), steps[1..]);
    }
  }

  /**
   Unless a message is lost or a process dies, only a call without a key, or
   with a basket that is empty or has an unknown product, is turned away; a call
   without a key gets nothing else.
   */
  lemma RejectedForAReason(f: Faults, s: State, steps: seq<Step>, c: nat)
    requires Initial(s) && IsRun(f, s, steps) && c < |Final(f, s, steps).clients|
    ensures var client := Final(f, s, steps).clients[c];
            (client.at == Rejected && !f.transport && !f.crash ==>
              client.key == "" || client.items == [] ||
              exists i | 0 <= i < |client.items| :: client.items[i].product !in s.prices) &&
            (client.key == "" ==> client.at == Looking || client.at == Rejected)
  {
    RunKeepsTurnedAway(f, s, steps);
    assert TurnedAwayInv(f, Final(f, s, steps), Final(f, s, steps).clients[c]);
  }

  /** Whatever faults there are, the row behind a collision on the key is found. */
  lemma NeverReraised(f: Faults, s: State, steps: seq<Step>, c: nat)
    requires Initial(s) && IsRun(f, s, steps) && c < |Final(f, s, steps).clients|
    ensures Final(f, s, steps).clients[c].at != Reraised
  {
    ReachableBooks(f, s, steps);
    assert ClientInv(Final(f, s, steps), c);
  }
}
