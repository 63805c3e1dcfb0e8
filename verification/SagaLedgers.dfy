/**
 The payment side of the checkout system, the amounts charged, and the
 order-events topic: how they stay in step with the order rows.
 */
module SagaLedgers {
  import opened Sums
  import opened Stock
  import opened ChargeBook
  import opened Saga
  import opened SagaOrders
  import opened SagaSystem

  // ------------------------------------------------------------------- prices

  function ItemsOf(o: Order): seq<Item> {
    seq(|o.lines|, i requires 0 <= i < |o.lines| => Item(o.lines[i].product, o.lines[i].quantity))
  }

  /** The price loop computes the sum of what the lines cost. */
  lemma {:induction false} AmountIsSum(prices: map<ProductId, int>, items: seq<Item>)
    requires Priceable(prices, items)
    ensures AmountOf(prices, items) == SumBy(LineCost(prices), items)
  {
    if items != [] {
      AmountIsSum(prices, items[..|items| - 1]);
    }
  }

  /** A line of quantity q adds q times its unit price, anywhere in the basket. */
  lemma LineAddsItsPrice(prices: map<ProductId, int>, before: seq<Item>, p: ProductId, q: int, after: seq<Item>)
    requires p in prices && Priceable(prices, before) && Priceable(prices, after)
    ensures Priceable(prices, before + [Item(p, q)] + after) && Priceable(prices, before + after)
    ensures AmountOf(prices, before + [Item(p, q)] + after) == AmountOf(prices, before + after) + q * prices[p]
  {
    var f, line := LineCost(prices), Item(p, q);
    AmountIsSum(prices, before + [line] + after);
    AmountIsSum(prices, before + after);
    SumConcat(f, before + [line], after);
    SumAppend(f, before, line);
    SumConcat(f, before, after);
  }

  /** The amount is the price snapshot taken over the order's own lines. */
  predicate PricedRight(prices: map<ProductId, int>, o: Order) {
    Priceable(prices, ItemsOf(o)) && o.amount == AmountOf(prices, ItemsOf(o))
  }

  predicate PricesInv(s: State) { forall o | 0 <= o < |s.orders| :: PricedRight(s.prices, s.orders[o]) }

  lemma SameOrderSameItems(a: Order, b: Order)
    requires SameOrder(a, b)
    ensures ItemsOf(a) == ItemsOf(b) && ProductsOf(a) == ProductsOf(b)
  {
  }

  lemma InsertKeepsPrices(f: Faults, s: State, c: nat)
    requires PricesInv(s) && CanHandle(f, s, c, Insert) && ClientInv(s, c)
    ensures PricesInv(Handled(f, s, c, Insert))
  {
    assert ItemsOf(FreshOrder(s.clients[c])) == s.clients[c].items;
  }

  lemma StepKeepsPrices(f: Faults, s: State, st: Step)
    requires PricesInv(s) && ClientsInv(s) && CanStep(f, s, st)
    ensures PricesInv(Apply(f, s, st))
  {
    if OnRow(st) {
      RowStepShape(f, s, st);
      SameOrderSameItems(s.orders[st.o], Apply(f, s, st).orders[st.o]);
    } else if Quiet(st) {
      QuietStepShape(f, s, st);
    } else {
      InsertKeepsPrices(f, s, st.c);
    }
  }

  // ----------------------------------------------------------------- payments

  function UnderKey(k: Key): Payment -> int { (r: Payment) => if r.key == k then 1 else 0 }

  function PaymentAmount(): Payment -> int { (r: Payment) => r.amount }

  function ApprovedAmount(): Order -> int { (o: Order) => if o.charge == Done(Approved) then o.amount else 0 }

  predicate Undecided(c: Call<Verdict>) { c == Idle || c == InFlight || c == Lost }

  /** The stored result and the ledger entries under an order's key agree with its charge. */
  predicate CardInv(s: State, o: nat)
    requires o < |s.orders|
  {
    var ord := s.orders[o];
    (ord.key in s.book <==> ord.charge == Done(Approved) || ord.charge == Done(Refused)) &&
    (ord.key in s.book && s.book[ord.key].Success? ==>
      ord.charge == Done(Approved) && s.book[ord.key].order == o && s.book[ord.key].amount == ord.amount) &&
    (ord.charge == Done(Approved) ==> s.book[ord.key].Success? && 0 < ord.amount) &&
    SumBy(UnderKey(ord.key), s.ledger) == if ord.charge == Done(Approved) then 1 else 0
  }

  predicate CardsInv(s: State) {
    (forall k | k in s.book :: FindKey(s.orders, k).Row?) &&
    (forall o | 0 <= o < |s.orders| :: CardInv(s, o))
  }

  predicate LedgerInv(s: State) {
    (forall r | 0 <= r < |s.ledger| ::
      s.ledger[r].order < |s.orders| && s.ledger[r].key == s.orders[s.ledger[r].order].key &&
      s.ledger[r].amount == s.orders[s.ledger[r].order].amount) &&
    SumBy(PaymentAmount(), s.ledger) == SumBy(ApprovedAmount(), s.orders)
  }

  /** Where the saga has not come to the charge yet, or has gone round it. */
  predicate Uncharged(pc: Pc) {
    match pc
    case PublishCreated => true
    case Reserve(_) => true
    case ReserveWait(_) => true
    case Undo(_, _) => true
    case UndoWait(_, _) => true
    case Charge => true
    case _ => false
  }

  /** A charge is asked for once, and an order is PAID only with its approval. */
  predicate ChargeInv(o: Order) {
    (Uncharged(o.pc) ==> o.charge == Idle) &&
    (o.pc == CommitPaid || o.status == PAID ==> o.charge == Done(Approved))
  }

  predicate ChargesInv(s: State) { forall o | 0 <= o < |s.orders| :: ChargeInv(s.orders[o]) }

  predicate PaymentsInv(s: State) { CardsInv(s) && LedgerInv(s) && ChargesInv(s) }

  lemma SagaKeepsCharge(f: Faults, o: Order, a: SagaMove)
    requires CanAct(f, o, a) && ChargeInv(o)
    ensures var o' := SagaMoved(f, o, a);
            ChargeInv(o') && (o'.charge == o.charge || (o.charge == Idle && o'.charge == InFlight))
  {
  }

  lemma LossKeepsCharge(f: Faults, o: Order, d: LostMove)
    requires CanLose(f, o, d) && ChargeInv(o)
    ensures var o' := Dropped(f, o, d);
            ChargeInv(o') && (o'.charge == o.charge || (o.charge == InFlight && o'.charge == Lost))
  {
  }

  /** Until the payment service answers, a move leaves the charge unanswered; after that, as it is. */
  lemma MoveKeepsCharge(f: Faults, o: Order, m: Move)
    requires CanMove(f, o, m) && ChargeInv(o)
    ensures ChargeInv(Moved(f, o, m))
    ensures Moved(f, o, m).charge == o.charge || (Undecided(o.charge) && Undecided(Moved(f, o, m).charge))
  {
    if m.Act? {
      SagaKeepsCharge(f, o, m.a);
    } else if m.Lose? {
      LossKeepsCharge(f, o, m.d);
    }
  }

  /** A step on a row that does not settle its charge. */
  lemma UndecidedKeepsPayments(s: State, s': State, o: nat)
    requires PaymentsInv(s) && o < |s.orders| == |s'.orders| && s'.book == s.book && s'.ledger == s.ledger
    requires s'.orders == s.orders[o := s'.orders[o]] && SameOrder(s.orders[o], s'.orders[o]) && ChargeInv(s'.orders[o])
    requires s'.orders[o].charge == s.orders[o].charge
             || (Undecided(s.orders[o].charge) && Undecided(s'.orders[o].charge))
    ensures PaymentsInv(s')
  {
    forall k | k in s'.book ensures FindKey(s'.orders, k).Row? {
      FindKeyCongruent(s.orders, s'.orders, k);
    }
    forall d | 0 <= d < |s'.orders| ensures CardInv(s', d) {
      assert CardInv(s, d);
    }
    SumUpdate(ApprovedAmount(), s.orders, o, s'.orders[o]);
  }

  /** A first charge under a key: one more result, and one more ledger entry if it was approved. */
  lemma FirstAnswer(s: State, o: nat, approve: bool, at: int)
    requires o < |s.orders| && CardInv(s, o) && s.orders[o].charge == InFlight
    ensures var ord := s.orders[o];
            var answer := AnswerCharge(s.book, s.ledger, o, ord.key, ord.amount, approve, at);
            ord.key !in s.book && SumBy(UnderKey(ord.key), s.ledger) == 0 &&
            match answer.verdict
            case BadRequest => answer.book == s.book && answer.ledger == s.ledger
            case Refused => answer.book == s.book[ord.key := Decline] && answer.ledger == s.ledger
            case Approved => answer.book == s.book[ord.key := Success(o, ord.amount, at)] &&
                             answer.ledger == s.ledger + [Payment(ord.key, o, ord.amount)]
  {
  }

  lemma ChargeKeepsCard(s: State, o: nat, approve: bool, at: int, d: nat)
    requires o < |s.orders| && CardInv(s, o) && s.orders[o].charge == InFlight
    requires d < |s.orders| && CardInv(s, d) && (d != o ==> s.orders[d].key != s.orders[o].key)
    ensures CardInv(ChargeApplied(s, o, approve, at), d)
  {
  }

  lemma ChargeKeepsCards(s: State, o: nat, approve: bool, at: int)
    requires CardsInv(s) && KeysDistinct(s.orders) && o < |s.orders| && s.orders[o].charge == InFlight
    ensures CardsInv(ChargeApplied(s, o, approve, at))
  {
    forall d | 0 <= d < |s.orders| ensures CardInv(ChargeApplied(s, o, approve, at), d) {
      ChargeKeepsCard(s, o, approve, at, d);
    }
    ChargeKeepsKeys(s, o, approve, at);
  }

  lemma ChargeKeepsKeys(s: State, o: nat, approve: bool, at: int)
    requires CardsInv(s) && o < |s.orders| && s.orders[o].charge == InFlight
    ensures var s' := ChargeApplied(s, o, approve, at);
            forall k | k in s'.book :: FindKey(s'.orders, k).Row?
  {
    var s' := ChargeApplied(s, o, approve, at);
    forall k | k in s'.book ensures FindKey(s'.orders, k).Row? {
      FindKeyCongruent(s.orders, s'.orders, k);
    }
  }

  lemma ChargeKeepsLedger(s: State, o: nat, approve: bool, at: int)
    requires LedgerInv(s) && CardsInv(s) && o < |s.orders| && s.orders[o].charge == InFlight
    ensures LedgerInv(ChargeApplied(s, o, approve, at))
  {
    FirstAnswer(s, o, approve, at);
    SumUpdate(ApprovedAmount(), s.orders, o, ChargeApplied(s, o, approve, at).orders[o]);
    SumAppend(PaymentAmount(), s.ledger, Payment(s.orders[o].key, o, s.orders[o].amount));
  }

  lemma ChargeStepKeepsPayments(f: Faults, s: State, st: Step)
    requires PaymentsInv(s) && KeysDistinct(s.orders) && CanStep(f, s, st) && st.ApplyCharge?
    ensures PaymentsInv(Apply(f, s, st))
  {
    ChargeKeepsCards(s, st.o, st.approve, st.at);
    ChargeKeepsLedger(s, st.o, st.approve, st.at);
  }

  lemma InsertKeepsPayments(f: Faults, s: State, c: nat)
    requires PaymentsInv(s) && ClientsInv(s) && CanHandle(f, s, c, Insert)
    ensures PaymentsInv(Handled(f, s, c, Insert))
  {
    var s' := Handled(f, s, c, Insert);
    var ord := FreshOrder(s.clients[c]);
    assert ClientInv(s, c);
    assert s'.orders[..|s.orders|] == s.orders;
    assert ord.key !in s.book;
    SumZero(UnderKey(ord.key), s.ledger);
    SumAppend(ApprovedAmount(), s.orders, ord);
    forall d | 0 <= d < |s'.orders| ensures CardInv(s', d) {
      if d < |s.orders| {
        assert CardInv(s, d);
      }
    }
  }

  lemma UntouchedKeepsLedgers(s: State, s': State)
    requires s'.orders == s.orders && s'.book == s.book && s'.ledger == s.ledger && s'.log == s.log
    ensures PaymentsInv(s) ==> PaymentsInv(s')
    ensures LogInv(s) ==> LogInv(s')
  {
    if PaymentsInv(s) {
      forall d | 0 <= d < |s'.orders| ensures CardInv(s', d) {
        assert CardInv(s, d);
      }
    }
    if LogInv(s) {
      forall d | 0 <= d < |s'.orders| ensures TopicInv(s', d) {
        assert TopicInv(s, d);
      }
    }
  }

  lemma RowStepKeepsPayments(f: Faults, s: State, st: Step)
    requires PaymentsInv(s) && CanStep(f, s, st) && OnRow(st) && !st.ApplyCharge?
    ensures PaymentsInv(Apply(f, s, st))
  {
    RowStepShape(f, s, st);
    if st.Thread? {
      MoveKeepsCharge(f, s.orders[st.o], st.m);
    }
    UndecidedKeepsPayments(s, Apply(f, s, st), st.o);
  }

  lemma StepKeepsPayments(f: Faults, s: State, st: Step)
    requires PaymentsInv(s) && ClientsInv(s) && CanStep(f, s, st)
    ensures PaymentsInv(Apply(f, s, st))
  {
    if st.ApplyCharge? {
      ChargeStepKeepsPayments(f, s, st);
    } else if OnRow(st) {
      RowStepKeepsPayments(f, s, st);
    } else if Quiet(st) {
      QuietStepShape(f, s, st);
      UntouchedKeepsLedgers(s, Apply(f, s, st));
    } else {
      InsertKeepsPayments(f, s, st.c);
    }
  }

  // -------------------------------------------------------- the order-events topic

  function EventFor(o: OrderId, kind: Kind): Event -> int {
    (e: Event) => if e.order == o && e.kind == kind then 1 else 0
  }

  /** How often an event of this kind was published for order o. */
  function Published(s: State, o: OrderId, kind: Kind): int { SumBy(EventFor(o, kind), s.log) }

  function Tally(sent: Sent, kind: Kind): nat {
    match kind
    case Created => sent.created
    case Paid => sent.paid
    case Failed => sent.failed
    case Delivered => sent.delivered
  }

  predicate TopicInv(s: State, o: nat)
    requires o < |s.orders|
  {
    forall kind :: Published(s, o, kind) == Tally(s.orders[o].sent, kind)
  }

  predicate LogInv(s: State) {
    (forall e | 0 <= e < |s.log| ::
      s.log[e].order < |s.orders| && s.log[e].user == s.orders[s.log[e].order].user &&
      s.log[e].products == ProductsOf(s.orders[s.log[e].order])) &&
    (forall o | 0 <= o < |s.orders| :: TopicInv(s, o))
  }

  /** A tally grows by the event, if there is one. */
  predicate Tallied(a: Sent, b: Sent, e: Emission) {
    match e
    case Silent => b == a
    case Emit(k) => Tally(b, k) == Tally(a, k) + 1 && forall kind | kind != k :: Tally(b, kind) == Tally(a, kind)
  }

  lemma SagaTallies(f: Faults, o: Order, a: SagaMove)
    requires CanAct(f, o, a)
    ensures Tallied(o.sent, SagaMoved(f, o, a).sent, EmissionOf(Act(a)))
  {
  }

  lemma SweepTallies(f: Faults, o: Order, b: SweepMove)
    requires CanSweep(f, o, b)
    ensures Tallied(o.sent, SweepMoved(f, o, b).sent, EmissionOf(Sweep(b)))
  {
  }

  lemma ShipTallies(f: Faults, o: Order, c: ShipMove)
    requires CanShip(f, o, c)
    ensures Tallied(o.sent, ShipMoved(f, o, c).sent, EmissionOf(Ship(c)))
  {
  }

  lemma MoveTallies(f: Faults, o: Order, m: Move)
    requires CanMove(f, o, m)
    ensures Tallied(o.sent, Moved(f, o, m).sent, EmissionOf(m))
  {
    match m
    case Act(a) => SagaTallies(f, o, a);
    case Sweep(b) => SweepTallies(f, o, b);
    case Ship(c) => ShipTallies(f, o, c);
    case Lose(_) =>
  }

  lemma PublishedNext(s: State, s': State, d: OrderId, kind: Kind, e: Event)
    requires s'.log == s.log + [e]
    ensures Published(s', d, kind) == Published(s, d, kind) + EventFor(d, kind)(e)
  {
    SumAppend(EventFor(d, kind), s.log, e);
  }

  lemma ThreadKeepsLog(f: Faults, s: State, o: nat, m: Move)
    requires LogInv(s) && o < |s.orders| && CanMove(f, s.orders[o], m)
    ensures LogInv(Threaded(f, s, o, m))
  {
    var s' := Threaded(f, s, o, m);
    MoveKeepsShape(f, s.orders[o], m);
    MoveTallies(f, s.orders[o], m);
    SameOrderSameItems(s.orders[o], s'.orders[o]);
    forall d | 0 <= d < |s'.orders| ensures TopicInv(s', d) {
      assert TopicInv(s, d);
      forall kind ensures Published(s', d, kind) == Tally(s'.orders[d].sent, kind) {
        if EmissionOf(m).Emit? {
          PublishedNext(s, s', d, kind, s'.log[|s.log|]);
        }
      }
    }
  }

  /** A step on a row that publishes nothing. */
  lemma SilentKeepsLog(s: State, s': State, o: nat)
    requires LogInv(s) && s'.log == s.log && o < |s.orders| == |s'.orders|
    requires s'.orders == s.orders[o := s'.orders[o]] && SameOrder(s.orders[o], s'.orders[o])
    requires s'.orders[o].sent == s.orders[o].sent
    ensures LogInv(s')
  {
    SameOrderSameItems(s.orders[o], s'.orders[o]);
    forall d | 0 <= d < |s'.orders| ensures TopicInv(s', d) {
      assert TopicInv(s, d);
    }
  }

  lemma InsertKeepsLog(f: Faults, s: State, c: nat)
    requires LogInv(s) && CanHandle(f, s, c, Insert)
    ensures LogInv(Handled(f, s, c, Insert))
  {
    var s' := Handled(f, s, c, Insert);
    forall d | 0 <= d < |s'.orders| ensures TopicInv(s', d) {
      if d < |s.orders| {
        assert TopicInv(s, d);
      } else {
        forall kind ensures Published(s', d, kind) == 0 {
          SumZero(EventFor(d, kind), s.log);
        }
      }
    }
  }

  lemma StepKeepsLog(f: Faults, s: State, st: Step)
    requires LogInv(s) && CanStep(f, s, st)
    ensures LogInv(Apply(f, s, st))
  {
    if st.Thread? {
      ThreadKeepsLog(f, s, st.o, st.m);
    } else if OnRow(st) {
      RowStepShape(f, s, st);
      SilentKeepsLog(s, Apply(f, s, st), st.o);
    } else if Quiet(st) {
      QuietStepShape(f, s, st);
      UntouchedKeepsLedgers(s, Apply(f, s, st));
    } else {
      InsertKeepsLog(f, s, st.c);
    }
  }
}
