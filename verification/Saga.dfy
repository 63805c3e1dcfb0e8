/**
 The checkout saga as a step system: any number of `POST /orders` calls, the
 saga each inserted order runs, the catalog and the payment service answering
 it, the reconciliation sweep and the delivery simulator, interleaved in any
 order. Every HTTP call is a request put in flight, an effect at the server at
 most once, and a reply the caller may or may not see.
 */
module Saga {
  import opened Stock
  import opened ChargeBook

  // ------------------------------------------------------------------ orders

  datatype Status = PENDING | PAID | FAILED

  /** An outbound HTTP call, seen from the server's side. */
  datatype Call<R> = Idle | InFlight | Done(result: R) | Lost

  datatype Verdict = Approved | Refused | BadRequest

  /**
   One order line and what the catalog did for it: the reserve request, the
   release requests under way and applied, and the ledger of net units taken.
   */
  datatype Line = Line(
    product: ProductId, quantity: int,
    reserve: Call<Outcome>, releasing: nat, released: nat, net: int)

  /** The next thing the `create_order` call that owns the order will do. */
  datatype Pc =
    | PublishCreated
    | Reserve(i: nat) | ReserveWait(i: nat)
    | Undo(i: nat, k: nat) | UndoWait(i: nat, k: nat)  // reserved_so_far is lines[..k]
    | Charge | ChargeWait
    | Refund(i: nat) | RefundWait(i: nat)
    | CommitPaid
    | PublishPaid | PublishFailed
    | Returned | Crashed

  /**
   Where the reconciliation pass is with this order. Every replica of the
   service runs passes: `rec` and `ship` are those that act, `recs` and `ships`
   those of other replicas at work on the order at the same time.
   */
  datatype RecPc = RecIdle | RecRelease(i: nat) | RecWait(i: nat) | RecPublish

  /** Where the delivery simulator is with this order. */
  datatype ShipPc = ShipIdle | Picked | Marked

  datatype Kind = Created | Paid | Failed | Delivered
  datatype Sent = Sent(created: nat, paid: nat, failed: nat, delivered: nat)

  datatype Order = Order(
    key: Key, user: string, amount: int, lines: seq<Line>,
    status: Status, stockReserved: bool, delivered: bool,
    pc: Pc, charge: Call<Verdict>, rec: RecPc, ship: ShipPc, sent: Sent,
    recs: seq<RecPc>, ships: seq<ShipPc>)

  // ------------------------------------------------------------- fault model

  /**
   Which faults a run may contain. `transport`: a request is lost, or its reply
   is, or comes too late. `crash`: a process dies between two steps.
   `windowCrash`: it may die after a compensating release was sent and before
   the FAILED commit. `liveSweep`: reconciliation may take an order whose saga
   is still running. `overlap`: two replicas may have a pass at work on one
   order at the same time.
   */
  datatype Faults = Faults(transport: bool, crash: bool, windowCrash: bool, liveSweep: bool, overlap: bool)

  /** The saga died here: reconciliation would release lines a second time. */
  predicate SagaWindow(o: Order) {
    o.stockReserved && o.status == PENDING &&
    match o.pc
    case Refund(i) => 0 < i
    case RefundWait(_) => true
    case _ => false
  }

  predicate SweepWindow(o: Order) {
    o.stockReserved &&
    match o.rec
    case RecRelease(i) => 0 < i
    case RecWait(_) => true
    case _ => false
  }

  // ------------------------------------- steps that touch one order and no more

  /** A step of the `create_order` call that owns the order. */
  datatype SagaMove =
    | DoPublishCreated
    | SendReserve | ReserveReply | ReserveTimeout | MarkReserved
    | SendUndo | UndoReply
    | SendCharge | ChargeReply | ChargeTimeout
    | SendRefund | RefundReply
    | DoCommitFailed | DoCommitPaid | DoPublishPaid | DoPublishFailed
    | Crash

  /** A step of a reconciliation pass, or the turn of another replica's pass. */
  datatype SweepMove =
    | SweepSelect | SweepSend | SweepReply | SweepCommit | SweepPublish | SweepCrash
    | ParkSweep | ResumeSweep(e: nat)

  /** A step of a delivery pass, or the turn of another replica's pass. */
  datatype ShipMove = ShipSelect | ShipCommit | ShipPublish | ShipCrash | ParkShip | ResumeShip(e: nat)

  /** A request lost on its way. */
  datatype LostMove = DropReserve(line: nat) | DropRelease(line: nat) | DropCharge

  datatype Move = Act(a: SagaMove) | Sweep(b: SweepMove) | Ship(c: ShipMove) | Lose(d: LostMove)

  predicate Acknowledged(f: Faults, l: Line) { f.transport || l.releasing == 0 }

  predicate CanAct(f: Faults, o: Order, a: SagaMove) {
    var n := |o.lines|;
    match a
    case DoPublishCreated => o.pc == PublishCreated
    case SendReserve => o.pc.Reserve? && o.pc.i < n
    case ReserveReply => o.pc.ReserveWait? && o.pc.i < n && o.lines[o.pc.i].reserve.Done?
    case ReserveTimeout => f.transport && o.pc.ReserveWait?
    case MarkReserved => o.pc == Reserve(n)
    case SendUndo => o.pc.Undo? && o.pc.i < o.pc.k <= n
    case UndoReply => o.pc.UndoWait? && o.pc.i < n && Acknowledged(f, o.lines[o.pc.i])
    case SendCharge => o.pc == Charge
    case ChargeReply => o.pc == ChargeWait && o.charge.Done?
    case ChargeTimeout => f.transport && o.pc == ChargeWait
    case SendRefund => o.pc.Refund? && o.pc.i < n
    case RefundReply => o.pc.RefundWait? && o.pc.i < n && Acknowledged(f, o.lines[o.pc.i])
    case DoCommitFailed => (o.pc.Undo? && o.pc.i == o.pc.k) || o.pc == Refund(n)
    case DoCommitPaid => o.pc == CommitPaid
    case DoPublishPaid => o.pc == PublishPaid
    case DoPublishFailed => o.pc == PublishFailed
    case Crash => f.crash && o.pc != Returned && o.pc != Crashed && (SagaWindow(o) ==> f.windowCrash)
  }

  predicate CanSweep(f: Faults, o: Order, b: SweepMove) {
    match b
    case SweepSelect => o.rec == RecIdle && o.status == PENDING && (o.pc == Crashed || f.liveSweep)
    case SweepSend => o.rec.RecRelease? && o.rec.i < |o.lines|
    case SweepReply => o.rec.RecWait? && o.rec.i < |o.lines| && Acknowledged(f, o.lines[o.rec.i])
    case SweepCommit => o.rec == RecRelease(|o.lines|)
    case SweepPublish => o.rec == RecPublish
    case SweepCrash => f.crash && o.rec != RecIdle && (SweepWindow(o) ==> f.windowCrash)
    case ParkSweep => f.overlap && o.rec != RecIdle
    case ResumeSweep(e) => o.rec == RecIdle && e < |o.recs|
  }

  predicate CanShip(f: Faults, o: Order, c: ShipMove) {
    match c
    case ShipSelect => o.ship == ShipIdle && o.status == PAID && !o.delivered
    case ShipCommit => o.ship == Picked
    case ShipPublish => o.ship == Marked
    case ShipCrash => f.crash && o.ship != ShipIdle
    case ParkShip => f.overlap && o.ship != ShipIdle
    case ResumeShip(e) => o.ship == ShipIdle && e < |o.ships|
  }

  predicate CanLose(f: Faults, o: Order, d: LostMove) {
    match d
    case DropReserve(i) => f.transport && i < |o.lines| && o.lines[i].reserve == InFlight
    case DropRelease(i) => f.transport && i < |o.lines| && 0 < o.lines[i].releasing
    case DropCharge => f.transport && o.charge == InFlight
  }

  predicate CanMove(f: Faults, o: Order, m: Move) {
    match m
    case Act(a) => CanAct(f, o, a)
    case Sweep(b) => CanSweep(f, o, b)
    case Ship(c) => CanShip(f, o, c)
    case Lose(d) => CanLose(f, o, d)
  }

  function WithLine(o: Order, i: nat, l: Line): Order
    requires i < |o.lines|
  {
    o.(lines := o.lines[i := l])
  }

  /** Put one release request for line i in flight. */
  function Releasing(o: Order, i: nat): Order
    requires i < |o.lines|
  {
    WithLine(o, i, o.lines[i].(releasing := o.lines[i].releasing + 1))
  }

  function SagaMoved(f: Faults, o: Order, a: SagaMove): Order
    requires CanAct(f, o, a)
  {
    match a
    case DoPublishCreated => o.(pc := Reserve(0), sent := o.sent.(created := o.sent.created + 1))
    case SendReserve =>
      WithLine(o, o.pc.i, o.lines[o.pc.i].(reserve := InFlight)).(pc := ReserveWait(o.pc.i))
    case ReserveReply =>
      o.(pc := if o.lines[o.pc.i].reserve.result.Ok? then Reserve(o.pc.i + 1) else Undo(0, o.pc.i))
    case ReserveTimeout => o.(pc := Undo(0, o.pc.i))
    case MarkReserved => o.(stockReserved := true, pc := Charge)
    case SendUndo => Releasing(o, o.pc.i).(pc := UndoWait(o.pc.i, o.pc.k))
    case UndoReply => o.(pc := Undo(o.pc.i + 1, o.pc.k))
    case SendCharge => o.(charge := InFlight, pc := ChargeWait)
    case ChargeReply => o.(pc := if o.charge.result == Approved then CommitPaid else Refund(0))
    case ChargeTimeout => o.(pc := Refund(0))
    case SendRefund => Releasing(o, o.pc.i).(pc := RefundWait(o.pc.i))
    case RefundReply => o.(pc := Refund(o.pc.i + 1))
    case DoCommitFailed => o.(status := FAILED, pc := PublishFailed)
    case DoCommitPaid => o.(status := PAID, pc := PublishPaid)
    case DoPublishPaid => o.(pc := Returned, sent := o.sent.(paid := o.sent.paid + 1))
    case DoPublishFailed => o.(pc := Returned, sent := o.sent.(failed := o.sent.failed + 1))
    case Crash => o.(pc := Crashed)
  }

  function SweepMoved(f: Faults, o: Order, b: SweepMove): Order
    requires CanSweep(f, o, b)
  {
    match b
    case SweepSelect => o.(rec := RecRelease(if o.stockReserved then 0 else |o.lines|))
    case SweepSend => Releasing(o, o.rec.i).(rec := RecWait(o.rec.i))
    case SweepReply => o.(rec := RecRelease(o.rec.i + 1))
    case SweepCommit => o.(status := FAILED, rec := RecPublish)
    case SweepPublish => o.(rec := RecIdle, sent := o.sent.(failed := o.sent.failed + 1))
    case SweepCrash => o.(rec := RecIdle)
    case ParkSweep => o.(rec := RecIdle, recs := o.recs + [o.rec])
    case ResumeSweep(e) => o.(rec := o.recs[e], recs := o.recs[..e] + o.recs[e + 1..])
  }

  function ShipMoved(f: Faults, o: Order, c: ShipMove): Order
    requires CanShip(f, o, c)
  {
    match c
    case ShipSelect => o.(ship := Picked)
    case ShipCommit => o.(delivered := true, ship := Marked)
    case ShipPublish => o.(ship := ShipIdle, sent := o.sent.(delivered := o.sent.delivered + 1))
    case ShipCrash => o.(ship := ShipIdle)
    case ParkShip => o.(ship := ShipIdle, ships := o.ships + [o.ship])
    case ResumeShip(e) => o.(ship := o.ships[e], ships := o.ships[..e] + o.ships[e + 1..])
  }

  function Dropped(f: Faults, o: Order, d: LostMove): Order
    requires CanLose(f, o, d)
  {
    match d
    case DropReserve(i) => WithLine(o, i, o.lines[i].(reserve := Lost))
    case DropRelease(i) => WithLine(o, i, o.lines[i].(releasing := o.lines[i].releasing - 1))
    case DropCharge => o.(charge := Lost)
  }

  function Moved(f: Faults, o: Order, m: Move): Order
    requires CanMove(f, o, m)
  {
    match m
    case Act(a) => SagaMoved(f, o, a)
    case Sweep(b) => SweepMoved(f, o, b)
    case Ship(c) => ShipMoved(f, o, c)
    case Lose(d) => Dropped(f, o, d)
  }

  /** The event a move publishes to the order-events topic, if any. */
  datatype Emission = Silent | Emit(kind: Kind)

  function EmissionOf(m: Move): Emission {
    match m
    case Act(DoPublishCreated) => Emit(Created)
    case Act(DoPublishPaid) => Emit(Paid)
    case Act(DoPublishFailed) => Emit(Failed)
    case Sweep(SweepPublish) => Emit(Failed)
    case Ship(ShipPublish) => Emit(Delivered)
    case _ => Silent
  }

  // --------------------------------------------------------- the whole system

  datatype Item = Item(product: ProductId, quantity: int)

  /** One `POST /orders` call up to the insertion of its order. */
  datatype CallPc =
    | Looking | Missed | Priced(amount: int) | Flushed(amount: int)
    | Collided | Owns(order: OrderId) | Replied(order: OrderId) | Rejected | Reraised

  datatype Client = Client(key: Key, user: string, items: seq<Item>, at: CallPc)

  datatype Event = Event(kind: Kind, order: OrderId, user: string, products: seq<ProductId>)

  datatype Payment = Payment(key: Key, order: OrderId, amount: int)

  /**
   `holders` maps a key to the call whose uncommitted insert holds its index
   entry; `ledger` lists the successful executions of `_process_charge`.
   */
  datatype State = State(
    prices: map<ProductId, int>, stock: Table, orders: seq<Order>,
    clients: seq<Client>, holders: map<Key, nat>,
    book: Book, ledger: seq<Payment>, log: seq<Event>)

  /** A step of one call before its order exists. */
  datatype CallMove = Lookup | Price | PriceError | Flush | Insert | Rollback | Requery

  datatype Step =
    | Arrive(key: Key, user: string, items: seq<Item>)
    | Handle(c: nat, cm: CallMove)
    | Thread(o: nat, m: Move)
    | ApplyReserve(o: nat, i: nat) | ApplyRelease(o: nat, i: nat)
    | ApplyCharge(o: nat, approve: bool, at: int)

  /** `select(Order).where(Order.idempotency_key == k)` over the committed rows. */
  datatype Found = Nothing | Row(order: OrderId)

  function FindKey(orders: seq<Order>, k: Key): (r: Found)
    ensures r.Row? ==> r.order < |orders| && orders[r.order].key == k
    ensures r.Nothing? ==> forall j | 0 <= j < |orders| :: orders[j].key != k
  {
    if orders == [] then Nothing
    else if orders[|orders| - 1].key == k then Row(|orders| - 1)
    else FindKey(orders[..|orders| - 1], k)
  }

  predicate Priceable(prices: map<ProductId, int>, items: seq<Item>) {
    forall i | 0 <= i < |items| :: items[i].product in prices
  }

  function AmountOf(prices: map<ProductId, int>, items: seq<Item>): int
    requires Priceable(prices, items)
  {
    if items == [] then 0
    else
      var n := |items| - 1;
      assert forall i | 0 <= i < n :: items[..n][i] == items[i];
      AmountOf(prices, items[..n]) + prices[items[n].product] * items[n].quantity
  }

  /** What one line of a basket costs: its unit price, as often as it is ordered. */
  function LineCost(prices: map<ProductId, int>): Item -> int {
    (it: Item) => if it.product in prices then it.quantity * prices[it.product] else 0
  }

  function FreshLines(items: seq<Item>): (ls: seq<Line>)
    ensures |ls| == |items|
    ensures forall i | 0 <= i < |items| ::
              ls[i] == Line(items[i].product, items[i].quantity, Idle, 0, 0, 0)
  {
    seq(|items|, i requires 0 <= i < |items| => Line(items[i].product, items[i].quantity, Idle, 0, 0, 0))
  }

  function FreshOrder(c: Client): Order
    requires c.at.Flushed?
  {
    Order(c.key, c.user, c.at.amount, FreshLines(c.items), PENDING, false, false,
          PublishCreated, Idle, RecIdle, ShipIdle, Sent(0, 0, 0, 0), [], [])
  }

  function ProductsOf(o: Order): seq<ProductId> {
    seq(|o.lines|, i requires 0 <= i < |o.lines| => o.lines[i].product)
  }

  predicate CanHandle(f: Faults, s: State, c: nat, cm: CallMove) {
    c < |s.clients| &&
    var client := s.clients[c];
    match cm
    case Lookup => client.at == Looking
    case Price => client.at == Missed
    case PriceError => f.transport && client.at == Missed
    case Flush =>
      // an uncommitted entry for the key makes the insert wait
      client.at.Priced? && (FindKey(s.orders, client.key).Row? || client.key !in s.holders)
    case Insert => client.at.Flushed?
    case Rollback =>
      f.crash && (client.at == Looking || client.at == Missed || client.at.Priced? || client.at.Flushed?
                  || client.at == Collided)
    case Requery => client.at == Collided
  }

  predicate CanStep(f: Faults, s: State, st: Step) {
    match st
    case Arrive(_, _, _) => true
    case Handle(c, cm) => CanHandle(f, s, c, cm)
    case Thread(o, m) => o < |s.orders| && CanMove(f, s.orders[o], m)
    case ApplyReserve(o, i) =>
      o < |s.orders| && i < |s.orders[o].lines| && s.orders[o].lines[i].reserve == InFlight
    case ApplyRelease(o, i) =>
      o < |s.orders| && i < |s.orders[o].lines| && 0 < s.orders[o].lines[i].releasing
    case ApplyCharge(o, _, _) => o < |s.orders| && s.orders[o].charge == InFlight
  }

  function SetClient(s: State, c: nat, at: CallPc): State
    requires c < |s.clients|
  {
    s.(clients := s.clients[c := s.clients[c].(at := at)])
  }

  /** The first lookup, and the one after a rolled back insert. */
  function AfterLookup(s: State, k: Key, missed: CallPc): CallPc {
    var found := FindKey(s.orders, k);
    if found.Row? then Replied(found.order) else missed
  }

  function Handled(f: Faults, s: State, c: nat, cm: CallMove): State
    requires CanHandle(f, s, c, cm)
  {
    var client := s.clients[c];
    match cm
    case Lookup => SetClient(s, c, if client.key == "" then Rejected else AfterLookup(s, client.key, Missed))
    case Price =>
      SetClient(s, c, if client.items != [] && Priceable(s.prices, client.items)
                      then Priced(AmountOf(s.prices, client.items)) else Rejected)
    case PriceError => SetClient(s, c, Rejected)
    case Flush =>
      if FindKey(s.orders, client.key).Row? then SetClient(s, c, Collided)
      else SetClient(s, c, Flushed(client.at.amount)).(holders := s.holders[client.key := c])
    case Insert =>
      SetClient(s, c, Owns(|s.orders|)).(orders := s.orders + [FreshOrder(client)],
                                         holders := s.holders - {client.key})
    case Rollback =>
      SetClient(s, c, Rejected).(holders := if client.at.Flushed? then s.holders - {client.key} else s.holders)
    case Requery => SetClient(s, c, AfterLookup(s, client.key, Reraised))
  }

  function Threaded(f: Faults, s: State, o: nat, m: Move): State
    requires o < |s.orders| && CanMove(f, s.orders[o], m)
  {
    var ord := s.orders[o];
    s.(orders := s.orders[o := Moved(f, ord, m)],
       log := match EmissionOf(m)
              case Silent => s.log
              case Emit(kind) => s.log + [Event(kind, o, ord.user, ProductsOf(ord))])
  }

  function ReservedLine(l: Line, r: Outcome): Line {
    l.(reserve := Done(r), net := if r.Ok? then l.net + l.quantity else l.net)
  }

  function ReleasedLine(l: Line, r: Outcome): Line
    requires 0 < l.releasing
  {
    if r.Ok? then l.(releasing := l.releasing - 1, released := l.released + 1, net := l.net - l.quantity)
    else l.(releasing := l.releasing - 1)
  }

  function VerdictOf(r: Result): Verdict {
    if r.Success? then Approved else Refused
  }

  function ReserveApplied(s: State, o: nat, i: nat): State
    requires o < |s.orders| && i < |s.orders[o].lines|
  {
    var l := s.orders[o].lines[i];
    var (stock, r) := Stock.Reserve(s.stock, l.product, l.quantity);
    s.(stock := stock, orders := s.orders[o := WithLine(s.orders[o], i, ReservedLine(l, r))])
  }

  function ReleaseApplied(s: State, o: nat, i: nat): State
    requires o < |s.orders| && i < |s.orders[o].lines| && 0 < s.orders[o].lines[i].releasing
  {
    var l := s.orders[o].lines[i];
    var (stock, r) := Stock.Release(s.stock, l.product, l.quantity);
    s.(stock := stock, orders := s.orders[o := WithLine(s.orders[o], i, ReleasedLine(l, r))])
  }

  /** What the payment service does with the charge request of order o. */
  datatype Answer = Answer(book: Book, ledger: seq<Payment>, verdict: Verdict)

  function AnswerCharge(book: Book, ledger: seq<Payment>, o: OrderId, k: Key, amount: int,
                        approve: bool, at: int): Answer
  {
    if amount <= 0 then Answer(book, ledger, BadRequest)  // ChargeRequest.amount must be positive
    else
      var (book', result) := ChargeOnce(book, k, if approve then Success(o, amount, at) else Decline);
      Answer(book', if k !in book && approve then ledger + [Payment(k, o, amount)] else ledger, VerdictOf(result))
  }

  function ChargeApplied(s: State, o: nat, approve: bool, at: int): State
    requires o < |s.orders|
  {
    var ord := s.orders[o];
    var answer := AnswerCharge(s.book, s.ledger, o, ord.key, ord.amount, approve, at);
    s.(orders := s.orders[o := ord.(charge := Done(answer.verdict))], book := answer.book, ledger := answer.ledger)
  }

  function Apply(f: Faults, s: State, st: Step): State
    requires CanStep(f, s, st)
  {
    match st
    case Arrive(k, u, items) => s.(clients := s.clients + [Client(k, u, items, Looking)])
    case Handle(c, cm) => Handled(f, s, c, cm)
    case Thread(o, m) => Threaded(f, s, o, m)
    case ApplyReserve(o, i) => ReserveApplied(s, o, i)
    case ApplyRelease(o, i) => ReleaseApplied(s, o, i)
    case ApplyCharge(o, approve, at) => ChargeApplied(s, o, approve, at)
  }

  /** The steps that change one inserted order, possibly with shared state beside it. */
  predicate OnRow(st: Step) { !st.Arrive? && !st.Handle? }

  /** The steps that only move a call: no row, stock, payment or event changes. */
  predicate Quiet(st: Step) { st.Arrive? || (st.Handle? && st.cm != Insert) }

  // --------------------------------------------------------------------- runs

  predicate Initial(s: State) {
    s.orders == [] && s.clients == [] && s.holders == map[] && s.book == map[] && s.ledger == [] && s.log == [] &&
    s.prices.Keys == s.stock.Keys && forall p | p in s.stock :: 0 <= s.stock[p]
  }

  predicate IsRun(f: Faults, s: State, steps: seq<Step>)
    decreases |steps|
  {
    steps == [] || (CanStep(f, s, steps[0]) && IsRun(f, Apply(f, s, steps[0]), steps[1..]))
  }

  function Final(f: Faults, s: State, steps: seq<Step>): State
    requires IsRun(f, s, steps)
    decreases |steps|
  {
    if steps == [] then s else Final(f, Apply(f, s, steps[0]), steps[1..])
  }

  ghost predicate Reaches(f: Faults, s: State, t: State) {
    exists steps :: IsRun(f, s, steps) && Final(f, s, steps) == t
  }

  lemma {:induction false} RunExtends(f: Faults, s: State, steps: seq<Step>, st: Step)
    requires IsRun(f, s, steps) && CanStep(f, Final(f, s, steps), st)
    ensures IsRun(f, s, steps + [st]) && Final(f, s, steps + [st]) == Apply(f, Final(f, s, steps), st)
    decreases |steps|
  {
    if steps == [] {
      assert [st][1..] == [];
      assert IsRun(f, Apply(f, s, st), []);
    } else {
      assert (steps + [st])[1..] == steps[1..] + [st];
      RunExtends(f, Apply(f, s, steps[0]), steps[1..], st);
    }
  }

  lemma ReachesStep(f: Faults, s: State, t: State, st: Step)
    requires Reaches(f, s, t) && CanStep(f, t, st)
    ensures Reaches(f, s, Apply(f, t, st))
  {
    var steps :| IsRun(f, s, steps) && Final(f, s, steps) == t;
    RunExtends(f, s, steps, st);
  }

  lemma ReachesSelf(f: Faults, s: State)
    ensures Reaches(f, s, s)
  {
    assert IsRun(f, s, []) && Final(f, s, []) == s;
  }
}
