/**
 The order-service's code runs straight through several steps of the system:
 send, effect, reply. Each round here is such a stretch, with the change it makes.
 */
module CheckoutRounds {
  import opened Stock
  import opened ChargeBook
  import opened Saga
  import opened SagaOrders
  import opened SagaSystem
  import opened SagaLedgers
  import opened SagaTheorems

  /** What the network does to one call of the code. */
  datatype Net = Answered | RequestLost | ReplyLost

  predicate Allowed(f: Faults, net: Net) { net == Answered || f.transport }

  /** A guarded run from an initial state led here. */
  ghost predicate Reachable(f: Faults, start: State, s: State) {
    Guarded(f) && Initial(start) && Reaches(f, start, s)
  }

  lemma ReachableHasInv(f: Faults, start: State, s: State)
    requires Reachable(f, start, s)
    ensures Inv(f, start.stock, s)
  {
    var steps :| IsRun(f, start, steps) && Final(f, start, steps) == s;
    ReachableInv(f, start, steps);
  }

  lemma Take(f: Faults, start: State, s: State, st: Step)
    requires Reachable(f, start, s) && CanStep(f, s, st)
    ensures Reachable(f, start, Apply(f, s, st))
  {
    ReachesStep(f, start, s, st);
  }

  function Put(s: State, o: nat, ord: Order): State
    requires o < |s.orders|
  {
    s.(orders := s.orders[o := ord])
  }

  lemma TakeMove(f: Faults, start: State, s: State, o: nat, a: Order, m: Move)
    requires o < |s.orders| && Reachable(f, start, Put(s, o, a)) && CanMove(f, a, m) && EmissionOf(m) == Silent
    ensures Reachable(f, start, Put(s, o, Moved(f, a, m)))
  {
    Take(f, start, Put(s, o, a), Thread(o, m));
    assert s.orders[o := a][o := Moved(f, a, m)] == s.orders[o := Moved(f, a, m)];
  }

  lemma TakePublish(f: Faults, start: State, s: State, o: nat, a: Order, m: Move, kind: Kind)
    requires o < |s.orders| && Reachable(f, start, Put(s, o, a)) && CanMove(f, a, m) && EmissionOf(m) == Emit(kind)
    ensures Reachable(f, start, Put(s.(log := s.log + [Event(kind, o, a.user, ProductsOf(a))]), o, Moved(f, a, m)))
  {
    Take(f, start, Put(s, o, a), Thread(o, m));
    assert s.orders[o := a][o := Moved(f, a, m)] == s.orders[o := Moved(f, a, m)];
  }

  lemma TakeReserve(f: Faults, start: State, s: State, o: nat, a: Order, i: nat)
    requires o < |s.orders| && Reachable(f, start, Put(s, o, a)) && i < |a.lines| && a.lines[i].reserve == InFlight
    ensures var (stock, r) := Stock.Reserve(s.stock, a.lines[i].product, a.lines[i].quantity);
            Reachable(f, start, Put(s.(stock := stock), o, WithLine(a, i, ReservedLine(a.lines[i], r))))
  {
    var (stock, r) := Stock.Reserve(s.stock, a.lines[i].product, a.lines[i].quantity);
    Take(f, start, Put(s, o, a), ApplyReserve(o, i));
    assert s.orders[o := a][o := WithLine(a, i, ReservedLine(a.lines[i], r))]
        == s.orders[o := WithLine(a, i, ReservedLine(a.lines[i], r))];
  }

  lemma TakeRelease(f: Faults, start: State, s: State, o: nat, a: Order, i: nat)
    requires o < |s.orders| && Reachable(f, start, Put(s, o, a)) && i < |a.lines| && 0 < a.lines[i].releasing
    ensures var (stock, r) := Stock.Release(s.stock, a.lines[i].product, a.lines[i].quantity);
            Reachable(f, start, Put(s.(stock := stock), o, WithLine(a, i, ReleasedLine(a.lines[i], r))))
  {
    var (stock, r) := Stock.Release(s.stock, a.lines[i].product, a.lines[i].quantity);
    Take(f, start, Put(s, o, a), ApplyRelease(o, i));
    assert s.orders[o := a][o := WithLine(a, i, ReleasedLine(a.lines[i], r))]
        == s.orders[o := WithLine(a, i, ReleasedLine(a.lines[i], r))];
  }

  lemma TakeCharge(f: Faults, start: State, s: State, o: nat, a: Order, approve: bool, at: int)
    requires o < |s.orders| && Reachable(f, start, Put(s, o, a)) && a.charge == InFlight
    ensures var answer := AnswerCharge(s.book, s.ledger, o, a.key, a.amount, approve, at);
            Reachable(f, start, Put(s.(book := answer.book, ledger := answer.ledger), o, a.(charge := Done(answer.verdict))))
  {
    var answer := AnswerCharge(s.book, s.ledger, o, a.key, a.amount, approve, at);
    Take(f, start, Put(s, o, a), ApplyCharge(o, approve, at));
    assert s.orders[o := a][o := a.(charge := Done(answer.verdict))] == s.orders[o := a.(charge := Done(answer.verdict))];
  }

  lemma OrderInvAt(f: Faults, start: State, s: State, o: nat)
    requires Reachable(f, start, s) && o < |s.orders|
    ensures OrderInv(s.orders[o])
  {
    ReachableHasInv(f, start, s);
  }

  /** Everything about an order but its position, its lines' ledgers and its charge. */
  predicate SameRow(a: Order, b: Order) {
    SameOrder(a, b) && a.status == b.status && a.stockReserved == b.stockReserved && a.delivered == b.delivered &&
    a.rec == b.rec && a.ship == b.ship
  }

  /** Order o alone changed, with nothing published. */
  predicate OnlyOrder(s: State, s': State, o: nat) {
    o < |s.orders| == |s'.orders| && (forall d | 0 <= d < |s.orders| && d != o :: s'.orders[d] == s.orders[d]) &&
    SameOrder(s.orders[o], s'.orders[o]) && s'.prices == s.prices && s'.clients == s.clients && s'.holders == s.holders &&
    s'.log == s.log
  }

  // ------------------------------------------------------------- stock calls

  lemma ReserveLost(f: Faults, start: State, s: State, o: nat, b: Order, i: nat) returns (ord: Order)
    requires o < |s.orders| && Reachable(f, start, Put(s, o, b)) && f.transport
    requires b.pc == ReserveWait(i) && i < |b.lines| && b.lines[i].reserve == InFlight
    ensures Reachable(f, start, Put(s, o, ord)) && SameRow(b, ord) && ord.pc == Undo(0, i)
  {
    TakeMove(f, start, s, o, b, Lose(DropReserve(i)));
    ord := Moved(f, b, Lose(DropReserve(i)));
    TakeMove(f, start, s, o, ord, Act(ReserveTimeout));
    ord := Moved(f, ord, Act(ReserveTimeout));
  }

  lemma ReserveServed(f: Faults, start: State, s: State, o: nat, b: Order, i: nat, net: Net) returns (ord: Order)
    requires o < |s.orders| && Reachable(f, start, Put(s, o, b)) && Allowed(f, net)
    requires b.pc == ReserveWait(i) && i < |b.lines| && b.lines[i].reserve == InFlight
    ensures var (stock, r) := Stock.Reserve(s.stock, b.lines[i].product, b.lines[i].quantity);
            Reachable(f, start, Put(s.(stock := stock), o, ord)) && SameRow(b, ord) &&
            ord.pc == if net == Answered && r.Ok? then Saga.Reserve(i + 1) else Undo(0, i)
  {
    var (stock, r) := Stock.Reserve(s.stock, b.lines[i].product, b.lines[i].quantity);
    TakeReserve(f, start, s, o, b, i);
    ord := WithLine(b, i, ReservedLine(b.lines[i], r));
    var reply := if net == Answered then Act(ReserveReply) else Act(ReserveTimeout);
    TakeMove(f, start, s.(stock := stock), o, ord, reply);
    ord := Moved(f, ord, reply);
  }

  /** One `clients.reserve_stock` call. */
  lemma ReserveRound(f: Faults, start: State, s: State, o: nat, net: Net) returns (ord: Order)
    requires Reachable(f, start, s) && Allowed(f, net)
    requires o < |s.orders| && s.orders[o].pc.Reserve? && s.orders[o].pc.i < |s.orders[o].lines|
    ensures var i := s.orders[o].pc.i;
            var l := s.orders[o].lines[i];
            var (stock, r) := Stock.Reserve(s.stock, l.product, l.quantity);
            Reachable(f, start, Put(s.(stock := if net == RequestLost then s.stock else stock), o, ord)) &&
            SameRow(s.orders[o], ord) &&
            ord.pc == if net == Answered && r.Ok? then Saga.Reserve(i + 1) else Undo(0, i)
  {
    var a := s.orders[o];
    assert Put(s, o, a) == s;
    TakeMove(f, start, s, o, a, Act(SendReserve));
    if net == RequestLost {
      ord := ReserveLost(f, start, s, o, Moved(f, a, Act(SendReserve)), a.pc.i);
    } else {
      ord := ReserveServed(f, start, s, o, Moved(f, a, Act(SendReserve)), a.pc.i, net);
    }
  }

  /** The moves around one release, by the saga or by the sweep. */
  datatype Releaser = Undoer | Refunder | Sweeper

  predicate ReadyToRelease(who: Releaser, a: Order, i: nat) {
    i < |a.lines| &&
    match who
    case Undoer => a.pc.Undo? && a.pc.i == i && i < a.pc.k <= |a.lines|
    case Refunder => a.pc == Refund(i)
    case Sweeper => a.rec == RecRelease(i)
  }

  predicate PastRelease(who: Releaser, a: Order, b: Order, i: nat) {
    match who
    case Undoer => a.pc.Undo? && b.pc == Undo(i + 1, a.pc.k) && b.rec == a.rec
    case Refunder => b.pc == Refund(i + 1) && b.rec == a.rec
    case Sweeper => b.rec == RecRelease(i + 1) && b.pc == a.pc
  }

  function SendOf(who: Releaser): Move {
    match who case Undoer => Act(SendUndo) case Refunder => Act(SendRefund) case Sweeper => Sweep(SweepSend)
  }

  function ReplyOf(who: Releaser): Move {
    match who case Undoer => Act(UndoReply) case Refunder => Act(RefundReply) case Sweeper => Sweep(SweepReply)
  }

  lemma ReleaseServed(f: Faults, start: State, s: State, o: nat, b: Order, i: nat, net: Net) returns (ord: Order)
    requires o < |s.orders| && Reachable(f, start, Put(s, o, b)) && Allowed(f, net)
    requires i < |b.lines| && b.lines[i].releasing == 1
    ensures var stock := Stock.Release(s.stock, b.lines[i].product, b.lines[i].quantity).0;
            Reachable(f, start, Put(s.(stock := if net == RequestLost then s.stock else stock), o, ord)) &&
            ord == b.(lines := ord.lines) && SameOrder(b, ord) && ord.lines[i].releasing == 0
  {
    if net == RequestLost {
      TakeMove(f, start, s, o, b, Lose(DropRelease(i)));
      ord := Moved(f, b, Lose(DropRelease(i)));
    } else {
      TakeRelease(f, start, s, o, b, i);
      ord := WithLine(b, i, ReleasedLine(b.lines[i], Stock.Release(s.stock, b.lines[i].product, b.lines[i].quantity).1));
    }
  }

  lemma SendRelease(f: Faults, a: Order, who: Releaser, i: nat)
    requires ReadyToRelease(who, a, i) && Clean(a.lines[i])
    ensures CanMove(f, a, SendOf(who)) && SameOrder(a, Moved(f, a, SendOf(who)))
    ensures Moved(f, a, SendOf(who)).lines[i].releasing == 1
  {
  }

  lemma EndRelease(f: Faults, a: Order, c: Order, who: Releaser, i: nat)
    requires ReadyToRelease(who, a, i)
    requires CanMove(f, a, SendOf(who)) && c == Moved(f, a, SendOf(who)).(lines := c.lines)
    requires |c.lines| == |a.lines| && c.lines[i].releasing == 0
    ensures CanMove(f, c, ReplyOf(who)) && PastRelease(who, a, Moved(f, c, ReplyOf(who)), i)
    ensures Moved(f, c, ReplyOf(who)) == a.(lines := c.lines, pc := Moved(f, c, ReplyOf(who)).pc, rec := Moved(f, c, ReplyOf(who)).rec)
  {
  }

  /** A release request up to the catalog's side of it. */
  lemma ReleaseAnswered(f: Faults, start: State, s: State, o: nat, who: Releaser, i: nat, net: Net) returns (c: Order)
    requires Reachable(f, start, s) && Allowed(f, net) && o < |s.orders| && ReadyToRelease(who, s.orders[o], i)
    requires Clean(s.orders[o].lines[i])
    ensures var a := s.orders[o];
            var stock := Stock.Release(s.stock, a.lines[i].product, a.lines[i].quantity).0;
            Reachable(f, start, Put(s.(stock := if net == RequestLost then s.stock else stock), o, c)) &&
            CanMove(f, a, SendOf(who)) && c == Moved(f, a, SendOf(who)).(lines := c.lines) && SameOrder(a, c) &&
            c.lines[i].releasing == 0
  {
    var a := s.orders[o];
    SendRelease(f, a, who, i);
    assert Put(s, o, a) == s;
    TakeMove(f, start, s, o, a, SendOf(who));
    c := ReleaseServed(f, start, s, o, Moved(f, a, SendOf(who)), i, net);
  }

  /** One `clients.release_stock` call: the caller goes on whatever became of it. */
  lemma ReleaseRound(f: Faults, start: State, s: State, o: nat, who: Releaser, i: nat, net: Net) returns (ord: Order)
    requires Reachable(f, start, s) && Allowed(f, net) && o < |s.orders| && ReadyToRelease(who, s.orders[o], i)
    ensures var l := s.orders[o].lines[i];
            var stock := Stock.Release(s.stock, l.product, l.quantity).0;
            Reachable(f, start, Put(s.(stock := if net == RequestLost then s.stock else stock), o, ord)) &&
            SameOrder(s.orders[o], ord) && PastRelease(who, s.orders[o], ord, i) &&
            ord == s.orders[o].(lines := ord.lines, pc := ord.pc, rec := ord.rec)
  {
    var a := s.orders[o];
    OrderInvAt(f, start, s, o);
    assert Clean(a.lines[i]);
    var c := ReleaseAnswered(f, start, s, o, who, i, net);
    EndRelease(f, a, c, who, i);
    var stock := if net == RequestLost then s.stock else Stock.Release(s.stock, a.lines[i].product, a.lines[i].quantity).0;
    TakeMove(f, start, s.(stock := stock), o, c, ReplyOf(who));
    ord := Moved(f, c, ReplyOf(who));
  }

  // ---------------------------------------------------------------- the charge

  /** One `clients.charge` call. */
  lemma ChargeRound(f: Faults, start: State, s: State, o: nat, net: Net, approve: bool, at: int) returns (ord: Order)
    requires Reachable(f, start, s) && Allowed(f, net) && o < |s.orders| && s.orders[o].pc == Charge
    ensures var a := s.orders[o];
            var answer := AnswerCharge(s.book, s.ledger, o, a.key, a.amount, approve, at);
            Reachable(f, start, Put(if net == RequestLost then s else s.(book := answer.book, ledger := answer.ledger), o, ord)) &&
            ord == a.(charge := ord.charge, pc := ord.pc) &&
            ord.pc == if net == Answered && answer.verdict == Approved then CommitPaid else Refund(0)
  {
    var a := s.orders[o];
    assert Put(s, o, a) == s;
    TakeMove(f, start, s, o, a, Act(SendCharge));
    var b := Moved(f, a, Act(SendCharge));
    if net == RequestLost {
      TakeMove(f, start, s, o, b, Lose(DropCharge));
      ord := Moved(f, b, Lose(DropCharge));
      TakeMove(f, start, s, o, ord, Act(ChargeTimeout));
      ord := Moved(f, ord, Act(ChargeTimeout));
    } else {
      var answer := AnswerCharge(s.book, s.ledger, o, a.key, a.amount, approve, at);
      TakeCharge(f, start, s, o, b, approve, at);
      ord := b.(charge := Done(answer.verdict));
      var reply := if net == Answered then Act(ChargeReply) else Act(ChargeTimeout);
      TakeMove(f, start, s.(book := answer.book, ledger := answer.ledger), o, ord, reply);
      ord := Moved(f, ord, reply);
    }
  }

  // -------------------------------------------------------------- closing rounds

  function Closed(s: State, o: nat, kind: Kind, ord: Order): State
    requires o < |s.orders|
  {
    Put(s.(log := s.log + [Event(kind, o, s.orders[o].user, ProductsOf(s.orders[o]))]), o, ord)
  }

  /** The FAILED commit and its event. */
  lemma FailRound(f: Faults, start: State, s: State, o: nat) returns (ord: Order)
    requires Reachable(f, start, s) && o < |s.orders| && CanMove(f, s.orders[o], Act(DoCommitFailed))
    ensures Reachable(f, start, Closed(s, o, Failed, ord))
    ensures ord == s.orders[o].(status := FAILED, pc := Returned, sent := ord.sent)
  {
    var a := s.orders[o];
    assert Put(s, o, a) == s;
    TakeMove(f, start, s, o, a, Act(DoCommitFailed));
    TakePublish(f, start, s, o, Moved(f, a, Act(DoCommitFailed)), Act(DoPublishFailed), Failed);
    ord := Moved(f, Moved(f, a, Act(DoCommitFailed)), Act(DoPublishFailed));
  }

  /** The PAID commit and its event. */
  lemma PaidRound(f: Faults, start: State, s: State, o: nat) returns (ord: Order)
    requires Reachable(f, start, s) && o < |s.orders| && s.orders[o].pc == CommitPaid
    ensures Reachable(f, start, Closed(s, o, Paid, ord))
    ensures ord == s.orders[o].(status := PAID, pc := Returned, sent := ord.sent)
  {
    var a := s.orders[o];
    assert Put(s, o, a) == s;
    TakeMove(f, start, s, o, a, Act(DoCommitPaid));
    TakePublish(f, start, s, o, Moved(f, a, Act(DoCommitPaid)), Act(DoPublishPaid), Paid);
    ord := Moved(f, Moved(f, a, Act(DoCommitPaid)), Act(DoPublishPaid));
  }

  /** The sweep's FAILED commit and its event. */
  lemma SweepRound(f: Faults, start: State, s: State, o: nat) returns (ord: Order)
    requires Reachable(f, start, s) && o < |s.orders| && s.orders[o].rec == RecRelease(|s.orders[o].lines|)
    ensures Reachable(f, start, Closed(s, o, Failed, ord))
    ensures ord == s.orders[o].(status := FAILED, rec := RecIdle, sent := ord.sent)
  {
    var a := s.orders[o];
    assert Put(s, o, a) == s;
    TakeMove(f, start, s, o, a, Sweep(SweepCommit));
    TakePublish(f, start, s, o, Moved(f, a, Sweep(SweepCommit)), Sweep(SweepPublish), Failed);
    ord := Moved(f, Moved(f, a, Sweep(SweepCommit)), Sweep(SweepPublish));
  }

  /** Another replica's pass that is at the order goes on later. */
  lemma ShipParks(f: Faults, start: State, s: State, o: nat) returns (b: Order)
    requires Reachable(f, start, s) && o < |s.orders| && (f.overlap || s.orders[o].ship == ShipIdle)
    ensures Reachable(f, start, Put(s, o, b)) && b.ship == ShipIdle && b == s.orders[o].(ship := ShipIdle, ships := b.ships)
  {
    b := s.orders[o];
    assert Put(s, o, b) == s;
    if b.ship != ShipIdle {
      TakeMove(f, start, s, o, b, Ship(ParkShip));
      b := Moved(f, b, Ship(ParkShip));
    }
  }

  /** Marking a PAID order delivered, and its event. */
  lemma ShipRound(f: Faults, start: State, s: State, o: nat) returns (ord: Order)
    requires Reachable(f, start, s) && o < |s.orders| && s.orders[o].status == PAID && !s.orders[o].delivered
    requires f.overlap || s.orders[o].ship == ShipIdle
    ensures Reachable(f, start, Closed(s, o, Kind.Delivered, ord))
    ensures ord == s.orders[o].(delivered := true, sent := ord.sent, ship := ShipIdle, ships := ord.ships)
  {
    var a := ShipParks(f, start, s, o);
    TakeMove(f, start, s, o, a, Ship(ShipSelect));
    var b := Moved(f, a, Ship(ShipSelect));
    TakeMove(f, start, s, o, b, Ship(ShipCommit));
    TakePublish(f, start, s, o, Moved(f, b, Ship(ShipCommit)), Ship(ShipPublish), Kind.Delivered);
    ord := Moved(f, Moved(f, b, Ship(ShipCommit)), Ship(ShipPublish));
  }

  // ------------------------------------------------------ the order's insertion

  /** The key has no row yet, and no call has an insert for it under way. */
  predicate Free(s: State, k: Key) { k !in s.holders && FindKey(s.orders, k).Nothing? }

  /** A new call up to its committed PENDING row, with nobody in between. */
  lemma InsertRound(f: Faults, start: State, s: State, k: Key, user: string, items: seq<Item>) returns (s': State)
    requires Reachable(f, start, s) && Free(s, k) && k != "" && items != [] && Priceable(s.prices, items)
    ensures Reachable(f, start, s') && s'.holders == s.holders
    ensures s' == s.(clients := s'.clients,
                     orders := s.orders + [FreshOrder(Client(k, user, items, Flushed(AmountOf(s.prices, items))))])
  {
    var c := |s.clients|;
    var client := Client(k, user, items, Looking);
    Take(f, start, s, Arrive(k, user, items));
    var s1 := s.(clients := s.clients + [client]);
    Take(f, start, s1, Handle(c, Lookup));
    var s2 := s.(clients := s.clients + [client.(at := Missed)]);
    assert s1.clients[c := client.(at := Missed)] == s2.clients;
    Take(f, start, s2, Handle(c, Price));
    var amount := AmountOf(s.prices, items);
    var s3 := s.(clients := s.clients + [client.(at := Priced(amount))]);
    assert s2.clients[c := client.(at := Priced(amount))] == s3.clients;
    Take(f, start, s3, Handle(c, Flush));
    s' := InsertFlushed(f, start, s, client, amount);
  }

  lemma InsertFlushed(f: Faults, start: State, s: State, client: Client, amount: int) returns (s': State)
    requires Free(s, client.key)
    requires Reachable(f, start, Apply(f, s.(clients := s.clients + [client.(at := Priced(amount))]), Handle(|s.clients|, Flush)))
    ensures Reachable(f, start, s') && s'.holders == s.holders
    ensures s' == s.(clients := s'.clients, orders := s.orders + [FreshOrder(client.(at := Flushed(amount)))])
  {
    var c := |s.clients|;
    var s4 := s.(clients := s.clients + [client.(at := Flushed(amount))], holders := s.holders[client.key := c]);
    assert (s.clients + [client.(at := Priced(amount))])[c := client.(at := Flushed(amount))] == s4.clients;
    Take(f, start, s4, Handle(c, Insert));
    s' := Apply(f, s4, Handle(c, Insert));
    assert s.holders[client.key := c] - {client.key} == s.holders;
  }
}
