/** The invariant of the whole checkout system, and that every guarded run keeps it. */
module SagaSystem {
  import opened Sums
  import opened Stock
  import opened ChargeBook
  import opened Saga
  import opened SagaOrders

  /** A step on a row replaces that one order and leaves the calls alone. */
  lemma RowStepShape(f: Faults, s: State, st: Step)
    requires CanStep(f, s, st) && OnRow(st)
    ensures var s' := Apply(f, s, st);
            s'.orders == s.orders[st.o := s'.orders[st.o]] && SameOrder(s.orders[st.o], s'.orders[st.o]) &&
            s'.clients == s.clients && s'.holders == s.holders && s'.prices == s.prices
  {
    if st.Thread? {
      MoveKeepsShape(f, s.orders[st.o], st.m);
    }
  }

  lemma QuietCallShape(f: Faults, s: State, c: nat, cm: CallMove)
    requires CanHandle(f, s, c, cm) && cm != Insert
    ensures Handled(f, s, c, cm) == s.(clients := Handled(f, s, c, cm).clients, holders := Handled(f, s, c, cm).holders)
  {
  }

  lemma QuietStepShape(f: Faults, s: State, st: Step)
    requires CanStep(f, s, st) && Quiet(st)
    ensures var s' := Apply(f, s, st);
            s'.orders == s.orders && s'.stock == s.stock && s'.prices == s.prices &&
            s'.book == s.book && s'.ledger == s.ledger && s'.log == s.log
  {
    if st.Handle? {
      QuietCallShape(f, s, st.c, st.cm);
    }
  }

  // ------------------------------------------------------------------- orders

  predicate OrdersInv(s: State) { forall o | 0 <= o < |s.orders| :: OrderInv(s.orders[o]) }

  predicate CrashesAllowed(f: Faults, s: State) { forall o | 0 <= o < |s.orders| :: CrashAllowed(f, s.orders[o]) }

  lemma CatalogKeepsInv(s: State, o: nat, i: nat)
    requires o < |s.orders| && i < |s.orders[o].lines| && OrderInv(s.orders[o])
    ensures s.orders[o].lines[i].reserve == InFlight ==> OrderInv(ReserveApplied(s, o, i).orders[o])
    ensures 0 < s.orders[o].lines[i].releasing ==> OrderInv(ReleaseApplied(s, o, i).orders[o])
  {
    var l := s.orders[o].lines[i];
    if l.reserve == InFlight {
      ReserveEffectKeepsInv(s.orders[o], i, Stock.Reserve(s.stock, l.product, l.quantity).1);
    }
    if 0 < l.releasing {
      ReleaseEffectKeepsInv(s.orders[o], i, Stock.Release(s.stock, l.product, l.quantity).1);
    }
  }

  lemma ChargeKeepsInv(s: State, o: nat, approve: bool, at: int)
    requires o < |s.orders| && OrderInv(s.orders[o]) && s.orders[o].charge == InFlight
    ensures OrderInv(ChargeApplied(s, o, approve, at).orders[o])
  {
  }

  lemma RowStepKeepsInv(f: Faults, s: State, st: Step)
    requires Guarded(f) && CanStep(f, s, st) && OnRow(st) && OrderInv(s.orders[st.o]) && CrashAllowed(f, s.orders[st.o])
    ensures OrderInv(Apply(f, s, st).orders[st.o]) && CrashAllowed(f, Apply(f, s, st).orders[st.o])
  {
    if st.Thread? {
      MoveKeepsInv(f, s.orders[st.o], st.m);
      MoveKeepsCrashAllowed(f, s.orders[st.o], st.m);
    } else if st.ApplyCharge? {
      ChargeKeepsInv(s, st.o, st.approve, st.at);
    } else {
      CatalogKeepsInv(s, st.o, st.i);
    }
  }

  lemma InsertKeepsOrders(f: Faults, s: State, c: nat)
    requires OrdersInv(s) && CrashesAllowed(f, s) && ClientsInv(s) && CanHandle(f, s, c, Insert)
    ensures OrdersInv(Handled(f, s, c, Insert)) && CrashesAllowed(f, Handled(f, s, c, Insert))
  {
    assert ClientInv(s, c);
    FreshOrderInv(s.clients[c]);
  }

  lemma OneOrderKeepsInv(f: Faults, s: State, s': State, o: nat)
    requires OrdersInv(s) && CrashesAllowed(f, s) && o < |s.orders| == |s'.orders| && s'.orders == s.orders[o := s'.orders[o]]
    requires OrderInv(s'.orders[o]) && CrashAllowed(f, s'.orders[o])
    ensures OrdersInv(s') && CrashesAllowed(f, s')
  {
  }

  lemma StepKeepsOrders(f: Faults, s: State, st: Step)
    requires Guarded(f) && OrdersInv(s) && CrashesAllowed(f, s) && ClientsInv(s) && CanStep(f, s, st)
    ensures OrdersInv(Apply(f, s, st)) && CrashesAllowed(f, Apply(f, s, st))
  {
    if OnRow(st) {
      RowStepShape(f, s, st);
      RowStepKeepsInv(f, s, st);
      OneOrderKeepsInv(f, s, Apply(f, s, st), st.o);
    } else if Quiet(st) {
      QuietStepShape(f, s, st);
    } else {
      InsertKeepsOrders(f, s, st.c);
    }
  }

  // -------------------------------------------------------------------- stock

  /** Net units of product p that a line, or an order, holds according to the ledger. */
  function LineNet(p: ProductId): Line -> int { (l: Line) => if l.product == p then l.net else 0 }

  function OrderNet(p: ProductId): Order -> int { (o: Order) => SumBy(LineNet(p), o.lines) }

  predicate StockInv(initial: Table, s: State) {
    s.stock.Keys == initial.Keys &&
    forall p | p in initial :: 0 <= s.stock[p] && s.stock[p] + SumBy(OrderNet(p), s.orders) == initial[p]
  }

  lemma LineChange(p: ProductId, orders: seq<Order>, o: nat, i: nat, l: Line)
    requires o < |orders| && i < |orders[o].lines|
    ensures SumBy(OrderNet(p), orders[o := WithLine(orders[o], i, l)])
         == SumBy(OrderNet(p), orders) - LineNet(p)(orders[o].lines[i]) + LineNet(p)(l)
  {
    SumUpdate(LineNet(p), orders[o].lines, i, l);
    SumUpdate(OrderNet(p), orders, o, WithLine(orders[o], i, l));
  }

  lemma QuietChange(p: ProductId, orders: seq<Order>, o: nat, ord: Order)
    requires o < |orders| && SameOrder(orders[o], ord)
    requires forall j | 0 <= j < |ord.lines| :: ord.lines[j].net == orders[o].lines[j].net
    ensures SumBy(OrderNet(p), orders[o := ord]) == SumBy(OrderNet(p), orders)
  {
    SumCongruent(LineNet(p), orders[o].lines, LineNet(p), ord.lines);
    SumUpdate(OrderNet(p), orders, o, ord);
  }

  lemma FreshHoldsNothing(p: ProductId, c: Client)
    requires c.at.Flushed?
    ensures OrderNet(p)(FreshOrder(c)) == 0
  {
    SumZero(LineNet(p), FreshLines(c.items));
  }

  lemma ReserveKeepsStock(initial: Table, s: State, o: nat, i: nat)
    requires StockInv(initial, s) && o < |s.orders| && i < |s.orders[o].lines|
    ensures StockInv(initial, ReserveApplied(s, o, i))
  {
    forall p | p in initial {
      LineChange(p, s.orders, o, i, ReserveApplied(s, o, i).orders[o].lines[i]);
    }
  }

  lemma ReleaseKeepsStock(initial: Table, s: State, o: nat, i: nat)
    requires StockInv(initial, s) && o < |s.orders| && i < |s.orders[o].lines| && 0 < s.orders[o].lines[i].releasing
    ensures StockInv(initial, ReleaseApplied(s, o, i))
  {
    forall p | p in initial {
      LineChange(p, s.orders, o, i, ReleaseApplied(s, o, i).orders[o].lines[i]);
    }
  }

  lemma QuietKeepsStock(initial: Table, s: State, s': State, o: nat)
    requires StockInv(initial, s) && o < |s.orders| == |s'.orders| && s'.stock == s.stock
    requires s'.orders == s.orders[o := s'.orders[o]] && SameOrder(s.orders[o], s'.orders[o])
    requires forall j | 0 <= j < |s.orders[o].lines| :: s'.orders[o].lines[j].net == s.orders[o].lines[j].net
    ensures StockInv(initial, s')
  {
    forall p | p in initial {
      QuietChange(p, s.orders, o, s'.orders[o]);
    }
  }

  lemma HandleKeepsStock(f: Faults, initial: Table, s: State, c: nat, cm: CallMove)
    requires StockInv(initial, s) && CanHandle(f, s, c, cm)
    ensures StockInv(initial, Handled(f, s, c, cm))
  {
    if cm == Insert {
      forall p | p in initial
        ensures SumBy(OrderNet(p), s.orders + [FreshOrder(s.clients[c])]) == SumBy(OrderNet(p), s.orders)
      {
        FreshHoldsNothing(p, s.clients[c]);
        SumAppend(OrderNet(p), s.orders, FreshOrder(s.clients[c]));
      }
    }
  }

  lemma StepKeepsStock(f: Faults, initial: Table, s: State, st: Step)
    requires StockInv(initial, s) && CanStep(f, s, st)
    ensures StockInv(initial, Apply(f, s, st))
  {
    if st.Handle? {
      HandleKeepsStock(f, initial, s, st.c, st.cm);
    } else if st.ApplyReserve? {
      ReserveKeepsStock(initial, s, st.o, st.i);
    } else if st.ApplyRelease? {
      ReleaseKeepsStock(initial, s, st.o, st.i);
    } else if !st.Arrive? {
      if st.Thread? {
        MoveKeepsShape(f, s.orders[st.o], st.m);
      }
      QuietKeepsStock(initial, s, Apply(f, s, st), st.o);
    }
  }

  // ------------------------------------------------- calls and idempotency keys

  predicate KeysDistinct(orders: seq<Order>) {
    forall a, b | 0 <= a < b < |orders| :: orders[a].key != orders[b].key
  }

  predicate ClientInv(s: State, c: nat)
    requires c < |s.clients|
  {
    var client := s.clients[c];
    match client.at
    case Priced(amount) =>
      client.items != [] && Priceable(s.prices, client.items) && amount == AmountOf(s.prices, client.items)
    case Flushed(amount) =>
      client.items != [] && Priceable(s.prices, client.items) && amount == AmountOf(s.prices, client.items) &&
      client.key in s.holders && s.holders[client.key] == c && FindKey(s.orders, client.key).Nothing?
    case Collided => FindKey(s.orders, client.key).Row?
    case Owns(o) => o < |s.orders| && s.orders[o].key == client.key
    case Replied(o) => o < |s.orders| && s.orders[o].key == client.key
    case Reraised => false
    case _ => true
  }

  predicate ClientsInv(s: State) {
    KeysDistinct(s.orders) &&
    (forall c | 0 <= c < |s.clients| :: ClientInv(s, c)) &&
    (forall k | k in s.holders :: s.holders[k] < |s.clients| && s.clients[s.holders[k]].at.Flushed?
                                  && s.clients[s.holders[k]].key == k)
  }

  /** Two calls never own the same order; n orders exist. */
  predicate OwnersDistinct(clients: seq<Client>, n: nat) {
    (forall c | 0 <= c < |clients| && clients[c].at.Owns? :: clients[c].at.order < n) &&
    forall a, b | 0 <= a < b < |clients| && clients[a].at.Owns? && clients[b].at.Owns? ::
      clients[a].at.order != clients[b].at.order
  }

  lemma FindKeyCongruent(a: seq<Order>, b: seq<Order>, k: Key)
    requires |a| == |b| && forall i | 0 <= i < |a| :: a[i].key == b[i].key
    ensures FindKey(a, k) == FindKey(b, k)
  {
    if a != [] {
      FindKeyCongruent(a[..|a| - 1], b[..|b| - 1], k);
    }
  }

  /** Replacing one order by another with its key disturbs no call. */
  lemma RowChangeKeepsClients(s: State, s': State, o: nat, ord: Order)
    requires ClientsInv(s) && o < |s.orders| && ord.key == s.orders[o].key
    requires s'.orders == s.orders[o := ord] && s'.clients == s.clients && s'.holders == s.holders && s'.prices == s.prices
    ensures ClientsInv(s')
  {
    forall c | 0 <= c < |s.clients| ensures ClientInv(s', c) {
      assert ClientInv(s, c);
      FindKeyCongruent(s.orders, s'.orders, s.clients[c].key);
    }
  }

  lemma InsertKeepsClients(f: Faults, s: State, c: nat)
    requires ClientsInv(s) && CanHandle(f, s, c, Insert)
    ensures ClientsInv(Handled(f, s, c, Insert))
  {
    var s' := Handled(f, s, c, Insert);
    assert ClientInv(s, c);
    assert s'.orders[..|s.orders|] == s.orders;
    forall d | 0 <= d < |s.clients| ensures ClientInv(s', d) {
      assert ClientInv(s, d);
    }
  }

  lemma FlushKeepsClients(f: Faults, s: State, c: nat)
    requires ClientsInv(s) && CanHandle(f, s, c, Flush)
    ensures ClientsInv(Handled(f, s, c, Flush))
  {
    var s' := Handled(f, s, c, Flush);
    assert ClientInv(s, c);
    forall d | 0 <= d < |s.clients| ensures ClientInv(s', d) {
      assert ClientInv(s, d);
    }
  }

  lemma HandleKeepsClients(f: Faults, s: State, c: nat, cm: CallMove)
    requires ClientsInv(s) && CanHandle(f, s, c, cm)
    ensures ClientsInv(Handled(f, s, c, cm))
  {
    if cm == Insert {
      InsertKeepsClients(f, s, c);
    } else if cm == Flush {
      FlushKeepsClients(f, s, c);
    } else {
      var s' := Handled(f, s, c, cm);
      assert ClientInv(s, c);
      forall d | 0 <= d < |s.clients| ensures ClientInv(s', d) {
        assert ClientInv(s, d);
      }
    }
  }

  lemma StepKeepsClients(f: Faults, s: State, st: Step)
    requires ClientsInv(s) && CanStep(f, s, st)
    ensures ClientsInv(Apply(f, s, st))
  {
    var s' := Apply(f, s, st);
    if OnRow(st) {
      RowStepShape(f, s, st);
      RowChangeKeepsClients(s, s', st.o, s'.orders[st.o]);
    } else if st.Handle? {
      HandleKeepsClients(f, s, st.c, st.cm);
    } else {
      forall d | 0 <= d < |s.clients| ensures ClientInv(s', d) {
        assert ClientInv(s, d);
      }
    }
  }

  lemma HandleKeepsOwners(f: Faults, s: State, c: nat, cm: CallMove)
    requires OwnersDistinct(s.clients, |s.orders|) && CanHandle(f, s, c, cm)
    ensures OwnersDistinct(Handled(f, s, c, cm).clients, |Handled(f, s, c, cm).orders|)
  {
  }

  lemma StepKeepsOwners(f: Faults, s: State, st: Step)
    requires OwnersDistinct(s.clients, |s.orders|) && CanStep(f, s, st)
    ensures OwnersDistinct(Apply(f, s, st).clients, |Apply(f, s, st).orders|)
  {
    if OnRow(st) {
      RowStepShape(f, s, st);
    } else if st.Handle? {
      HandleKeepsOwners(f, s, st.c, st.cm);
    }
  }
}
