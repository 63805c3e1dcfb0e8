/**
 The order-service's own code: `create_order` with its reserve, compensation and
 refund loops, and the reconciliation and delivery passes. Each object carries
 the abstract system it is a part of as a ghost field, and every statement that
 calls a service, commits a row or publishes an event is a step of that system.
 */
module Checkout {
  import opened Sums
  import opened Stock
  import opened ChargeBook
  import opened Saga
  import opened SagaOrders
  import opened SagaSystem
  import opened SagaLedgers
  import opened SagaTheorems
  import opened CheckoutRounds

  /** The catalog's `products.stock` column. */
  class Catalog {
    var stock: Table

    constructor (stock: Table)
      ensures this.stock == stock
    {
      this.stock := stock;
    }

    method Reserve(p: ProductId, q: int) returns (r: Outcome)
      modifies this
      ensures (stock, r) == Stock.Reserve(old(stock), p, q)
      ensures r == if q <= 0 then Unprocessable else if p !in old(stock) then NotFound
                   else if old(stock)[p] < q then Insufficient else Outcome.Ok(old(stock)[p] - q)
      ensures stock == if r.Ok? then old(stock)[p := r.remaining] else old(stock)
    {
      if q <= 0 {
        return Unprocessable;
      }
      if p !in stock {
        return NotFound;
      }
      if stock[p] < q {
        return Insufficient;
      }
      stock := stock[p := stock[p] - q];
      r := Outcome.Ok(stock[p]);
    }

    method Release(p: ProductId, q: int) returns (r: Outcome)
      modifies this
      ensures (stock, r) == Stock.Release(old(stock), p, q)
      ensures r == if q <= 0 then Unprocessable else if p !in old(stock) then NotFound else Outcome.Ok(old(stock)[p] + q)
      ensures stock == if r.Ok? then old(stock)[p := r.remaining] else old(stock)
    {
      if q <= 0 {
        return Unprocessable;
      }
      if p !in stock {
        return NotFound;
      }
      stock := stock[p := stock[p] + q];
      r := Outcome.Ok(stock[p]);
    }
  }

  /** The payment-service's results by idempotency key, and what it really charged. */
  class PaymentService {
    var book: Book
    var ledger: seq<Payment>

    constructor ()
      ensures book == map[] && ledger == []
    {
      book := map[];
      ledger := [];
    }

    /** `approve` and `at` are what processing, if it happens, decides. */
    method Charge(o: OrderId, k: Key, amount: int, approve: bool, at: int) returns (v: Verdict)
      modifies this
      ensures Answer(book, ledger, v) == AnswerCharge(old(book), old(ledger), o, k, amount, approve, at)
      ensures v == BadRequest <==> amount <= 0
      ensures k in old(book) && 0 < amount ==> v == if old(book)[k].Success? then Approved else Refused
      ensures ledger == if 0 < amount && k !in old(book) && approve then old(ledger) + [Payment(k, o, amount)]
                        else old(ledger)
    {
      if amount <= 0 {
        return BadRequest;
      }
      if k !in book {
        if approve {
          book := book[k := Success(o, amount, at)];
          ledger := ledger + [Payment(k, o, amount)];
        } else {
          book := book[k := Decline];
        }
      }
      v := VerdictOf(book[k]);
    }
  }

  datatype OrderRow = OrderRow(key: Key, user: string, amount: int, items: seq<Item>,
                               status: Status, stockReserved: bool, delivered: bool)

  function RowOf(o: Order): OrderRow {
    OrderRow(o.key, o.user, o.amount, ItemsOf(o), o.status, o.stockReserved, o.delivered)
  }

  /** What the network and the payment processor do to the calls made for one order. */
  datatype Weather = Weather(reserve: nat -> Net, release: nat -> Net, charge: Net, approve: bool, at: int)

  ghost predicate Fits(f: Faults, w: Weather) {
    f.transport || (w.charge == Answered && forall i: nat :: w.reserve(i) == Answered && w.release(i) == Answered)
  }

  /** Everything answers: no request or reply is lost. */
  ghost predicate Calm(w: Weather) {
    w.charge == Answered && forall i: nat :: w.reserve(i) == Answered && w.release(i) == Answered
  }

  datatype Reply = MissingKey | EmptyCart | ProductNotFound | Given(order: OrderId)

  function ItemUnits(p: ProductId): Item -> int { (it: Item) => if it.product == p then it.quantity else 0 }

  /** The demand on every product, over all lines together, is in stock. */
  ghost predicate Feasible(items: seq<Item>, stock: Table) {
    (forall i | 0 <= i < |items| :: 0 < items[i].quantity && items[i].product in stock) &&
    forall p | p in stock :: SumBy(ItemUnits(p), items) <= stock[p]
  }

  class OrderService {
    const prices: map<ProductId, int>
    const catalog: Catalog
    const payments: PaymentService
    var rows: seq<OrderRow>
    var topic: seq<Event>
    ghost const faults: Faults
    ghost const start: State
    ghost var sys: State

    /** The objects' fields are the public part of a reachable state of the system. */
    ghost predicate Valid()
      reads this, catalog, payments
    {
      Reachable(faults, start, sys) &&
      sys.prices == prices && sys.stock == catalog.stock && sys.book == payments.book && sys.ledger == payments.ledger &&
      sys.log == topic && |rows| == |sys.orders| && forall o | 0 <= o < |rows| :: rows[o] == RowOf(sys.orders[o])
    }

    /** A new shop: no orders yet. */
    constructor (prices: map<ProductId, int>, catalog: Catalog, payments: PaymentService, ghost faults: Faults)
      requires Guarded(faults) && payments.book == map[] && payments.ledger == []
      requires prices.Keys == catalog.stock.Keys && forall p | p in catalog.stock :: 0 <= catalog.stock[p]
      ensures Valid() && this.catalog == catalog && this.payments == payments && this.prices == prices
      ensures rows == [] && topic == [] && sys.holders == map[] && this.faults == faults
    {
      this.prices := prices;
      this.catalog := catalog;
      this.payments := payments;
      this.rows := [];
      this.topic := [];
      this.faults := faults;
      this.start := State(prices, catalog.stock, [], [], map[], map[], [], []);
      this.sys := State(prices, catalog.stock, [], [], map[], map[], [], []);
      new;
      ReachesSelf(faults, start);
    }

    /** `clients.reserve_stock` for line i, with the catalog's side of the call. */
    method ReserveStock(o: nat, i: nat, net: Net) returns (reserved: bool)
      requires Valid() && Allowed(faults, net)
      requires o < |rows| && sys.orders[o].pc == Saga.Reserve(i) && i < |sys.orders[o].lines|
      modifies this`sys, catalog
      ensures Valid() && OnlyOrder(old(sys), sys, o) && SameRow(old(sys.orders[o]), sys.orders[o])
      ensures var l := old(sys.orders[o].lines[i]);
              var (stock, r) := Stock.Reserve(old(catalog.stock), l.product, l.quantity);
              catalog.stock == (if net == RequestLost then old(catalog.stock) else stock) &&
              reserved == (net == Answered && r.Ok?)
      ensures sys.orders[o].pc == if reserved then Saga.Reserve(i + 1) else Undo(0, i)
    {
      ghost var ord := ReserveRound(faults, start, sys, o, net);
      var item := rows[o].items[i];
      reserved := false;
      ghost var before := sys;
      if net != RequestLost {
        var r := catalog.Reserve(item.product, item.quantity);
        reserved := net == Answered && r.Ok?;
      }
      sys := Put(before.(stock := catalog.stock), o, ord);
      SameOrderSameItems(before.orders[o], ord);
    }

    /** `clients.release_stock` for line i of a loop over k lines: best effort, the result is ignored. */
    method ReleaseStock(o: nat, ghost who: Releaser, i: nat, ghost k: nat, net: Net)
      requires Valid() && Allowed(faults, net) && o < |rows| && i < k && AtRelease(who, sys.orders[o], i, k)
      modifies this`sys, catalog
      ensures Valid() && ReleasedSoFar(who, old(sys), sys, o, i + 1, k)
      ensures var item := rows[o].items[i];
              catalog.stock == if net == RequestLost then old(catalog.stock)
                               else Stock.Release(old(catalog.stock), item.product, item.quantity).0
    {
      ghost var ord := ReleaseRound(faults, start, sys, o, who, i, net);
      var item := rows[o].items[i];
      ghost var before := sys;
      if net != RequestLost {
        var _ := catalog.Release(item.product, item.quantity);
      }
      sys := Put(before.(stock := catalog.stock), o, ord);
      SameOrderSameItems(before.orders[o], ord);
    }

    /** `clients.charge`, with the payment service's side of the call. */
    method Charge(o: nat, net: Net, approve: bool, at: int) returns (charged: bool)
      requires Valid() && Allowed(faults, net) && o < |rows| && sys.orders[o].pc == Pc.Charge
      modifies this`sys, payments
      ensures Valid() && OnlyOrder(old(sys), sys, o)
      ensures sys.orders[o] == old(sys.orders[o]).(charge := sys.orders[o].charge, pc := sys.orders[o].pc)
      ensures sys.orders[o].pc == if charged then CommitPaid else Refund(0)
      ensures charged == (net == Answered && 0 < rows[o].amount && approve)
      ensures payments.ledger == if net == RequestLost || rows[o].amount <= 0 || !approve then old(payments.ledger)
                                 else old(payments.ledger) + [Payment(rows[o].key, o, rows[o].amount)]
    {
      ghost var ord := ChargeRound(faults, start, sys, o, net, approve, at);
      NotChargedYet(faults, start, sys, o);
      ghost var before := sys;
      charged := false;
      if net != RequestLost {
        var v := payments.Charge(o, rows[o].key, rows[o].amount, approve, at);
        charged := net == Answered && v == Approved;
      }
      sys := Put(before.(book := payments.book, ledger := payments.ledger), o, ord);
      SameOrderSameItems(before.orders[o], ord);
    }

    /** The committed row under a key, if there is one. */
    method FindByKey(key: Key) returns (found: Found)
      requires Valid()
      ensures found.Row? ==> found.order < |rows| && rows[found.order].key == key
      ensures found.Nothing? ==> forall o | 0 <= o < |rows| :: rows[o].key != key
    {
      var o := 0;
      while o < |rows|
        invariant o <= |rows| && forall d | 0 <= d < o :: rows[d].key != key
      {
        if rows[o].key == key {
          return Found.Row(o);
        }
        o := o + 1;
      }
      return Nothing;
    }

    /** The price loop: quantity times unit price, summed, unless a product is unknown. */
    method PriceItems(items: seq<Item>) returns (found: bool, amount: int)
      ensures found <==> forall i | 0 <= i < |items| :: items[i].product in prices
      ensures found ==> amount == SumBy(LineCost(prices), items)
    {
      amount := 0;
      var i := 0;
      while i < |items|
        invariant i <= |items| && Priceable(prices, items[..i]) && amount == AmountOf(prices, items[..i])
      {
        if items[i].product !in prices {
          return false, amount;
        }
        assert items[..i + 1][..i] == items[..i];
        amount := amount + prices[items[i].product] * items[i].quantity;
        i := i + 1;
      }
      assert items[..i] == items;
      AmountIsSum(prices, items);
      found := true;
    }

    /** The insert, its commit, and the order.created event. */
    method PlaceOrder(key: Key, user: string, items: seq<Item>, amount: int) returns (o: nat)
      requires Valid() && Free(sys, key) && key != "" && items != [] && Priceable(prices, items)
      requires amount == SumBy(LineCost(prices), items)
      modifies this`rows, this`topic, this`sys
      ensures Valid() && o == |old(rows)| && sys.holders == old(sys.holders) && sys.ledger == old(sys.ledger)
      ensures rows == old(rows) + [OrderRow(key, user, amount, items, PENDING, false, false)]
      ensures topic == old(topic) + [Event(Created, o, user, ProductsIn(items))]
      ensures sys.orders[o].pc == Saga.Reserve(0)
    {
      o := |rows|;
      AmountIsSum(prices, items);
      ghost var s := InsertRound(faults, start, sys, key, user, items);
      ghost var fresh0 := s.orders[o];
      assert ItemsOf(fresh0) == items && ProductsOf(fresh0) == ProductsIn(items);
      assert Put(s, o, fresh0) == s;
      TakePublish(faults, start, s, o, fresh0, Act(DoPublishCreated), Created);
      rows := rows + [OrderRow(key, user, amount, items, PENDING, false, false)];
      topic := topic + [Event(Created, o, user, ProductsIn(items))];
      sys := Put(s.(log := topic), o, Moved(faults, fresh0, Act(DoPublishCreated)));
      SameOrderSameItems(fresh0, sys.orders[o]);
    }

    method MarkStockReserved(o: nat)
      requires Valid() && o < |rows| && sys.orders[o].pc == Saga.Reserve(|sys.orders[o].lines|)
      modifies this`rows, this`sys
      ensures Valid() && OnlyOrder(old(sys), sys, o) && sys.ledger == old(sys.ledger)
      ensures sys.orders[o] == old(sys.orders[o]).(stockReserved := true, pc := Pc.Charge)
      ensures rows == old(rows)[o := old(rows)[o].(stockReserved := true)]
    {
      assert Put(sys, o, sys.orders[o]) == sys;
      TakeMove(faults, start, sys, o, sys.orders[o], Act(MarkReserved));
      sys := Put(sys, o, Moved(faults, sys.orders[o], Act(MarkReserved)));
      rows := rows[o := rows[o].(stockReserved := true)];
      SameOrderSameItems(old(sys.orders[o]), sys.orders[o]);
    }

    /** The terminal commit and its event, for whoever reached it. */
    method Close(o: nat, verdict: Status, ghost sweep: bool)
      requires Valid() && o < |rows| && verdict != PENDING
      requires if sweep then verdict == FAILED && sys.orders[o].rec == RecRelease(|sys.orders[o].lines|)
               else if verdict == PAID then sys.orders[o].pc == CommitPaid
               else CanMove(faults, sys.orders[o], Act(DoCommitFailed))
      modifies this`rows, this`topic, this`sys
      ensures Valid() && sys.holders == old(sys.holders) && |rows| == |old(rows)| && sys.ledger == old(sys.ledger)
      ensures rows == old(rows)[o := old(rows)[o].(status := verdict)]
      ensures topic == old(topic) + [Event(if verdict == PAID then Paid else Failed, o, rows[o].user, ProductsIn(rows[o].items))]
      ensures forall d | 0 <= d < |rows| && d != o :: sys.orders[d] == old(sys.orders[d])
      ensures sys.orders[o] == old(sys.orders[o]).(status := verdict, sent := sys.orders[o].sent,
                                                   pc := if sweep then old(sys.orders[o].pc) else Returned,
                                                   rec := if sweep then RecIdle else old(sys.orders[o].rec))
    {
      ghost var ord;
      if sweep {
        ord := SweepRound(faults, start, sys, o);
      } else if verdict == PAID {
        ord := PaidRound(faults, start, sys, o);
      } else {
        ord := FailRound(faults, start, sys, o);
      }
      var kind := if verdict == PAID then Paid else Failed;
      assert ProductsOf(sys.orders[o]) == ProductsIn(rows[o].items);
      rows := rows[o := rows[o].(status := verdict)];
      topic := topic + [Event(kind, o, rows[o].user, ProductsIn(rows[o].items))];
      sys := Closed(sys, o, kind, ord);
      SameOrderSameItems(old(sys.orders[o]), ord);
    }

    /** How far a reserve loop that began at `sys0` and `stock0` has come: k lines confirmed, and no failure if `ok`. */
    ghost predicate ReservedLines(o: nat, w: Weather, ok: bool, k: nat, sys0: State, stock0: Table)
      reads this, catalog, payments
    {
      o < |rows| && Valid() && OnlyOrder(sys0, sys, o) && SameRow(sys0.orders[o], sys.orders[o]) && sys.ledger == sys0.ledger &&
      ReserveOutcome(stock0, catalog.stock, rows[o].items, w, ok, k) &&
      sys.orders[o].pc == if ok then Saga.Reserve(k) else Undo(0, k)
    }

    lemma ReserveStarts(o: nat, w: Weather)
      requires Valid() && o < |rows| && sys.orders[o].pc == Saga.Reserve(0)
      ensures ReservedLines(o, w, true, 0, sys, catalog.stock)
    {
    }

    /** The reserve loop: stops at the first line that is not confirmed. */
    method ReserveLines(o: nat, w: Weather) returns (ok: bool, k: nat)
      requires Valid() && Fits(faults, w) && o < |rows| && sys.orders[o].pc == Saga.Reserve(0)
      modifies this`sys, catalog
      ensures Valid() && OnlyOrder(old(sys), sys, o) && SameRow(old(sys.orders[o]), sys.orders[o])
      ensures sys.ledger == old(sys.ledger) && k <= |rows[o].items|
      ensures if ok then k == |rows[o].items| && sys.orders[o].pc == Saga.Reserve(k)
              else k < |rows[o].items| && sys.orders[o].pc == Undo(0, k)
      ensures ReserveOutcome(old(catalog.stock), catalog.stock, rows[o].items, w, ok, k)
    {
      ghost var sys0, stock0 := sys, catalog.stock;
      ReserveStarts(o, w);
      k := 0;
      ok := true;
      while ok && k < |rows[o].items|
        invariant ReservedLines(o, w, ok, k, sys0, stock0)
        decreases ok, |rows[o].items| - k
      {
        ok := ReserveNext(o, k, w, sys0, stock0);
        if ok {
          k := k + 1;
        }
      }
    }

    /** One turn of the reserve loop that began at `sys0` and `stock0`. */
    method ReserveNext(o: nat, k: nat, w: Weather, ghost sys0: State, ghost stock0: Table) returns (ok: bool)
      requires Fits(faults, w) && ReservedLines(o, w, true, k, sys0, stock0) && k < |rows[o].items|
      modifies this`sys, catalog
      ensures ReservedLines(o, w, ok, if ok then k + 1 else k, sys0, stock0)
    {
      ghost var before, system := catalog.stock, sys;
      assert rows[o].items == ItemsOf(sys.orders[o]);
      ok := ReserveStock(o, k, w.reserve(k));
      OutcomeNext(stock0, before, rows[o].items, w, k);
      ReservedOn(sys0, system, sys, o);
    }

    /** How far a release loop that began at `sys0` and `stock0` has come. */
    ghost predicate ReleasedLines(o: nat, who: Releaser, i: nat, k: nat, w: Weather, sys0: State, stock0: Table)
      reads this, catalog, payments
    {
      o < |rows| && i <= k <= |rows[o].items| && Valid() && ReleasedSoFar(who, sys0, sys, o, i, k) &&
      catalog.stock == AfterReleases(stock0, rows[o].items, w, i)
    }

    lemma ReleaseBegins(o: nat, who: Releaser, k: nat, w: Weather)
      requires Valid() && o < |rows| && k <= |rows[o].items| && AtRelease(who, sys.orders[o], 0, k)
      ensures ReleasedLines(o, who, 0, k, w, sys, catalog.stock)
    {
      ReleaseStarts(who, sys, o, k);
    }

    /** A release loop over the first k lines. */
    method ReleaseLines(o: nat, ghost who: Releaser, k: nat, w: Weather)
      requires Valid() && Fits(faults, w) && o < |rows| && k <= |rows[o].items|
      requires AtRelease(who, sys.orders[o], 0, k)
      modifies this`sys, catalog
      ensures Valid() && ReleasedSoFar(who, old(sys), sys, o, k, k)
      ensures catalog.stock == AfterReleases(old(catalog.stock), rows[o].items, w, k)
    {
      ghost var sys0, stock0 := sys, catalog.stock;
      ReleaseBegins(o, who, k, w);
      for i := 0 to k
        invariant ReleasedLines(o, who, i, k, w, sys0, stock0)
      {
        ReleaseNext(o, who, i, k, w, sys0, stock0);
      }
    }

    /** One turn of the release loop that began at `sys0` and `stock0`. */
    method ReleaseNext(o: nat, ghost who: Releaser, i: nat, ghost k: nat, w: Weather, ghost sys0: State, ghost stock0: Table)
      requires Fits(faults, w) && ReleasedLines(o, who, i, k, w, sys0, stock0) && i < k
      modifies this`sys, catalog
      ensures ReleasedLines(o, who, i + 1, k, w, sys0, stock0)
    {
      ghost var before := sys;
      ReleaseStock(o, who, i, k, w.release(i));
      ReleasedOn(who, sys0, before, sys, o, i, k);
      ReleasesNext(stock0, rows[o].items, w, i);
    }

    /** A failed saga: release the first k lines, then commit FAILED. */
    method Compensate(o: nat, ghost who: Releaser, k: nat, w: Weather)
      requires Valid() && Fits(faults, w) && o < |rows| && k <= |rows[o].items|
      requires who != Sweeper && AtRelease(who, sys.orders[o], 0, k)
      modifies this`rows, this`topic, this`sys, catalog
      ensures Valid() && sys.holders == old(sys.holders) && |rows| == |old(rows)|
      ensures rows == old(rows)[o := old(rows)[o].(status := FAILED)]
      ensures topic == old(topic) + [Event(Failed, o, rows[o].user, ProductsIn(rows[o].items))]
      ensures catalog.stock == AfterReleases(old(catalog.stock), rows[o].items, w, k)
    {
      ReleaseLines(o, who, k, w);
      Close(o, FAILED, false);
    }

    /**
     The saga of a freshly inserted order: reserve, compensate or charge, refund
     or commit. If no message is lost it ends PAID exactly when every product's
     summed demand is in stock and the charge goes through; the catalog then
     lacks exactly the order's lines, and otherwise stock and charges are as
     they were.
     */
    method RunSaga(o: nat, w: Weather) returns (verdict: Status)
      requires Valid() && Fits(faults, w) && o < |rows| && sys.orders[o].pc == Saga.Reserve(0)
      modifies this`rows, this`topic, this`sys, catalog, payments
      ensures Valid() && sys.holders == old(sys.holders) && verdict != PENDING && |rows| == |old(rows)|
      ensures rows == old(rows)[o := old(rows)[o].(status := verdict, stockReserved := rows[o].stockReserved)]
      ensures topic == old(topic) + [Event(if verdict == PAID then Paid else Failed, o, rows[o].user, ProductsIn(rows[o].items))]
      ensures verdict == PAID ==> payments.ledger == old(payments.ledger) + [Payment(rows[o].key, o, rows[o].amount)]
      ensures Calm(w) ==> SagaMeaning(old(catalog.stock), catalog.stock, rows[o], w.approve, verdict)
      ensures Calm(w) && verdict == FAILED ==> payments.ledger == old(payments.ledger)
    {
      ghost var stock0, row := catalog.stock, rows[o];
      StockNonNegative(faults, start, sys);
      var ok, k := ReserveLines(o, w);
      ghost var stock1 := catalog.stock;
      if ok {
        MarkStockReserved(o);
        verdict := Settle(o, w);
      } else {
        Compensate(o, Undoer, k, w);
        verdict := FAILED;
      }
      VerdictMeaning(stock0, stock1, catalog.stock, row, w, ok, k, verdict);
      SameMeaning(stock0, catalog.stock, row, rows[o], w.approve, verdict);
    }

    /** The second half of the saga, from the charge on. */
    method Settle(o: nat, w: Weather) returns (verdict: Status)
      requires Valid() && Fits(faults, w) && o < |rows| && sys.orders[o].pc == Pc.Charge
      modifies this`rows, this`topic, this`sys, catalog, payments
      ensures Valid() && sys.holders == old(sys.holders) && |rows| == |old(rows)|
      ensures verdict == if w.charge == Answered && 0 < rows[o].amount && w.approve then PAID else FAILED
      ensures rows == old(rows)[o := old(rows)[o].(status := verdict)]
      ensures topic == old(topic) + [Event(if verdict == PAID then Paid else Failed, o, rows[o].user, ProductsIn(rows[o].items))]
      ensures verdict == PAID ==>
                catalog.stock == old(catalog.stock) &&
                payments.ledger == old(payments.ledger) + [Payment(rows[o].key, o, rows[o].amount)]
      ensures verdict == FAILED ==>
                catalog.stock == AfterReleases(old(catalog.stock), rows[o].items, w, |rows[o].items|) &&
                (w.charge == Answered ==> payments.ledger == old(payments.ledger))
    {
      var charged := Charge(o, w.charge, w.approve, w.at);
      if charged {
        Close(o, PAID, false);
        return PAID;
      }
      Compensate(o, Refunder, |rows[o].items|, w);
      verdict := FAILED;
    }

    /** The checks before anything is written: the key, the replay, the basket and its prices. */
    method Admit(key: Key, items: seq<Item>) returns (admitted: bool, reply: Reply, amount: int)
      requires Valid()
      ensures admitted <==> Accepts(key, items, rows, prices)
      ensures admitted ==> amount == SumBy(LineCost(prices), items) && FindKey(sys.orders, key).Nothing?
      ensures !admitted ==> (reply == MissingKey <==> key == "")
      ensures key != "" && (exists o | 0 <= o < |rows| :: rows[o].key == key) ==> !admitted && reply.Given?
      ensures !admitted && reply.Given? ==> reply.order < |rows| && rows[reply.order].key == key
      ensures !admitted ==>
                (reply == EmptyCart <==> key != "" && (forall o | 0 <= o < |rows| :: rows[o].key != key) && items == [])
      ensures !admitted && reply == ProductNotFound ==>
                key != "" && (forall o | 0 <= o < |rows| :: rows[o].key != key) && items != [] &&
                exists i | 0 <= i < |items| :: items[i].product !in prices
    {
      amount := 0;
      reply := MissingKey;
      if key == "" {
        return false, MissingKey, 0;
      }
      var existing := FindByKey(key);
      if existing.Row? {
        return false, Given(existing.order), 0;
      }
      if items == [] {
        return false, EmptyCart, 0;
      }
      admitted, amount := PriceItems(items);
      if !admitted {
        reply := ProductNotFound;
      }
    }

    /** The rows of one key are one row. */
    lemma OneRowPerKey(key: Key, o: nat)
      requires Valid() && o < |rows| && rows[o].key == key
      ensures forall d | 0 <= d < |rows| && rows[d].key == key :: d == o
    {
      ReachableHasInv(faults, start, sys);
      assert forall d | 0 <= d < |rows| :: rows[d].key == sys.orders[d].key;
    }

    /**
     `POST /orders`, with nobody in between. First the key: without one nothing
     else is looked at, and a known one is answered from its row, whatever the
     basket is by now. Then the basket, then its prices. A refusal or replay
     changes nothing; a checkout that is accepted leaves one new row, with the
     price of its lines, and two events.
     */
    method CreateOrder(key: Key, user: string, items: seq<Item>, w: Weather) returns (reply: Reply)
      requires Valid() && Fits(faults, w) && key !in sys.holders
      modifies this`rows, this`topic, this`sys, catalog, payments
      ensures Valid() && sys.holders == old(sys.holders)
      ensures Accepts(key, items, old(rows), prices) ==>
                NewRow(key, user, items, reply, old(rows), old(topic)) &&
                (rows[reply.order].status == PAID ==>
                   payments.ledger == old(payments.ledger) + [Payment(key, reply.order, SumBy(LineCost(prices), items))]) &&
                (Calm(w) ==>
                   SagaMeaning(old(catalog.stock), catalog.stock, rows[reply.order], w.approve, rows[reply.order].status)) &&
                (Calm(w) && rows[reply.order].status == FAILED ==> payments.ledger == old(payments.ledger))
      ensures !Accepts(key, items, old(rows), prices) ==>
                rows == old(rows) && topic == old(topic) && catalog.stock == old(catalog.stock) &&
                payments.ledger == old(payments.ledger)
      ensures reply == MissingKey <==> key == ""
      ensures key != "" && (exists o | 0 <= o < |old(rows)| :: old(rows)[o].key == key) ==>
                reply.Given? && reply.order < |old(rows)| && rows == old(rows)
      ensures reply.Given? ==>
                reply.order < |rows| && rows[reply.order].key == key &&
                forall d | 0 <= d < |rows| && rows[d].key == key :: d == reply.order
      ensures reply == EmptyCart <==>
                key != "" && (forall o | 0 <= o < |old(rows)| :: old(rows)[o].key != key) && items == []
      ensures reply == ProductNotFound <==>
                key != "" && (forall o | 0 <= o < |old(rows)| :: old(rows)[o].key != key) && items != [] &&
                exists i | 0 <= i < |items| :: items[i].product !in prices
    {
      var admitted, refusal, amount := Admit(key, items);
      if !admitted {
        if refusal.Given? {
          OneRowPerKey(key, refusal.order);
        }
        return refusal;
      }
      var o := CheckOut(key, user, items, amount, w);
      OneRowPerKey(key, o);
      reply := Given(o);
    }

    /** An admitted call: the row, then its saga. */
    method CheckOut(key: Key, user: string, items: seq<Item>, amount: int, w: Weather) returns (o: nat)
      requires Valid() && Fits(faults, w) && Free(sys, key) && key != "" && items != [] && Priceable(prices, items)
      requires amount == SumBy(LineCost(prices), items)
      modifies this`rows, this`topic, this`sys, catalog, payments
      ensures Valid() && sys.holders == old(sys.holders)
      ensures NewRow(key, user, items, Given(o), old(rows), old(topic))
      ensures rows[o].status == PAID ==> payments.ledger == old(payments.ledger) + [Payment(key, o, amount)]
      ensures Calm(w) ==> SagaMeaning(old(catalog.stock), catalog.stock, rows[o], w.approve, rows[o].status)
      ensures Calm(w) && rows[o].status == FAILED ==> payments.ledger == old(payments.ledger)
    {
      o := PlaceOrder(key, user, items, amount);
      var _ := RunSaga(o, w);
    }

    /** One stuck order: release what it reserved, then fail it. */
    method ReconcileOrder(o: nat, w: Weather)
      requires Valid() && Fits(faults, w) && o < |rows| && rows[o].status == PENDING
      requires sys.orders[o].pc == Crashed && sys.orders[o].rec == RecIdle
      modifies this`rows, this`topic, this`sys, catalog
      ensures Valid() && |rows| == |old(rows)| && rows == old(rows)[o := old(rows)[o].(status := FAILED)]
      ensures topic == old(topic) + [Event(Failed, o, rows[o].user, ProductsIn(rows[o].items))]
      ensures forall d | 0 <= d < |rows| && d != o :: sys.orders[d] == old(sys.orders[d])
      ensures catalog.stock == if rows[o].stockReserved
                               then AfterReleases(old(catalog.stock), rows[o].items, w, |rows[o].items|)
                               else old(catalog.stock)
    {
      ghost var ord := sys.orders[o];
      assert Put(sys, o, ord) == sys;
      TakeMove(faults, start, sys, o, ord, Sweep(SweepSelect));
      sys := Put(sys, o, Moved(faults, ord, Sweep(SweepSelect)));
      SameOrderSameItems(ord, sys.orders[o]);
      if rows[o].stockReserved {
        ReleaseLines(o, Sweeper, |rows[o].items|, w);
      }
      Close(o, FAILED, true);
    }

    method ReconcileIfStuck(o: nat, aged: nat -> bool, w: Weather) returns (swept: bool)
      requires Valid() && Fits(faults, w) && o < |rows|
      requires rows[o].status == PENDING && aged(o) ==> sys.orders[o].pc == Crashed && sys.orders[o].rec == RecIdle
      modifies this`rows, this`topic, this`sys, catalog
      ensures Valid() && |rows| == |old(rows)| && (swept <==> old(rows)[o].status == PENDING && aged(o))
      ensures rows == if swept then old(rows)[o := old(rows)[o].(status := FAILED)] else old(rows)
      ensures topic == old(topic) + if swept then [Event(Failed, o, rows[o].user, ProductsIn(rows[o].items))] else []
      ensures forall d | 0 <= d < |rows| && d != o :: sys.orders[d] == old(sys.orders[d])
      ensures catalog.stock == AfterOne(old(catalog.stock), old(rows)[o], aged, w, o)
    {
      swept := rows[o].status == PENDING && aged(o);
      if swept {
        ReconcileOrder(o, w);
      }
    }

    /**
     A reconciliation pass over the orders that are old enough, all of them left
     by sagas that ended: each that is PENDING is failed, with one event, and
     what it had reserved returned; the rest are left as they are.
     */
    method ReconcilePass(aged: nat -> bool, w: nat -> Weather) returns (reconciled: nat)
      requires Valid() && forall o | 0 <= o < |rows| :: Fits(faults, w(o))
      requires forall o | 0 <= o < |rows| && rows[o].status == PENDING && aged(o) ::
                 sys.orders[o].pc == Crashed && sys.orders[o].rec == RecIdle
      modifies this`rows, this`topic, this`sys, catalog
      ensures Valid() && |rows| == |old(rows)|
      ensures forall o | 0 <= o < |rows| ::
                rows[o] == if old(rows)[o].status == PENDING && aged(o) then old(rows)[o].(status := FAILED)
                           else old(rows)[o]
      ensures var before := old(rows);
              var stuck := set o | 0 <= o < |before| && before[o].status == PENDING && aged(o);
              reconciled == |stuck| && old(topic) <= topic && OneEach(before, stuck, Failed, topic[|old(topic)|..])
      ensures catalog.stock == AfterSweep(old(catalog.stock), old(rows), aged, w, |rows|)
    {
      ghost var rows0, topic0, stock0 := rows, topic, catalog.stock;
      reconciled := 0;
      for o := 0 to |rows|
        invariant |rows| == |rows0| && Valid() && Ahead(old(sys), sys, o)
        invariant SweptSoFar(rows0, topic0, stock0, rows, topic, catalog.stock, reconciled, aged, w, o)
      {
        reconciled := ReconcileNext(rows0, topic0, stock0, o, reconciled, aged, w);
      }
      SweepMeans(rows0, topic0, stock0, rows, topic, catalog.stock, reconciled, aged, w);
    }

    /** One turn of the pass that began at `rows0`, `topic0` and `stock0`. */
    method ReconcileNext(ghost rows0: seq<OrderRow>, ghost topic0: seq<Event>, ghost stock0: Table, o: nat, n: nat,
                         aged: nat -> bool, w: nat -> Weather) returns (reconciled: nat)
      requires Valid() && o < |rows| && Fits(faults, w(o))
      requires rows[o].status == PENDING && aged(o) ==> sys.orders[o].pc == Crashed && sys.orders[o].rec == RecIdle
      requires SweptSoFar(rows0, topic0, stock0, rows, topic, catalog.stock, n, aged, w, o)
      modifies this`rows, this`topic, this`sys, catalog
      ensures Valid() && |rows| == |old(rows)|
      ensures forall d | 0 <= d < |rows| && d != o :: sys.orders[d] == old(sys.orders[d])
      ensures SweptSoFar(rows0, topic0, stock0, rows, topic, catalog.stock, reconciled, aged, w, o + 1)
    {
      var swept := ReconcileIfStuck(o, aged, w(o));
      reconciled := if swept then n + 1 else n;
      SweptNext(rows0, topic0, stock0, old(rows), old(topic), old(catalog.stock), n, aged, w, o, rows, topic, catalog.stock);
    }

    /** Deliver one PAID order: the flag is committed before the event is published. */
    method DeliverOrder(o: nat)
      requires Valid() && o < |rows| && rows[o].status == PAID && !rows[o].delivered
      requires faults.overlap || sys.orders[o].ship == ShipIdle
      modifies this`rows, this`topic, this`sys
      ensures Valid() && |rows| == |old(rows)| && rows == old(rows)[o := old(rows)[o].(delivered := true)]
      ensures topic == old(topic) + [Event(Kind.Delivered, o, rows[o].user, ProductsIn(rows[o].items))]
      ensures forall d | 0 <= d < |rows| && d != o :: sys.orders[d] == old(sys.orders[d])
    {
      ghost var ord := ShipRound(faults, start, sys, o);
      assert ProductsOf(sys.orders[o]) == ProductsIn(rows[o].items);
      rows := rows[o := rows[o].(delivered := true)];
      topic := topic + [Event(Kind.Delivered, o, rows[o].user, ProductsIn(rows[o].items))];
      sys := Closed(sys, o, Kind.Delivered, ord);
    }

    /** A delivery pass: every PAID order that is due is marked and announced once. */
    method DeliveryPass(aged: nat -> bool) returns (count: nat)
      requires Valid()
      requires faults.overlap || forall o | 0 <= o < |rows| && rows[o].status == PAID && !rows[o].delivered && aged(o) ::
                                   sys.orders[o].ship == ShipIdle
      modifies this`rows, this`topic, this`sys
      ensures Valid() && |rows| == |old(rows)|
      ensures forall o | 0 <= o < |rows| ::
                rows[o] == if old(rows)[o].status == PAID && aged(o) then old(rows)[o].(delivered := true) else old(rows)[o]
      ensures var before := old(rows);
              var due := set o | 0 <= o < |before| && before[o].status == PAID && !before[o].delivered && aged(o);
              count == |due| && old(topic) <= topic && OneEach(before, due, Kind.Delivered, topic[|old(topic)|..])
    {
      count := 0;
      for o := 0 to |rows|
        invariant |rows| == |old(rows)| && Valid() && Ahead(old(sys), sys, o)
        invariant ShippedSoFar(old(rows), old(topic), rows, topic, count, aged, o)
      {
        ghost var rows1, topic1, n := rows, topic, count;
        if rows[o].status == PAID && !rows[o].delivered && aged(o) {
          DeliverOrder(o);
          count := count + 1;
        }
        ShippedNext(old(rows), old(topic), rows1, topic1, n, aged, o, rows, topic);
      }
      DeliveryMeans(old(rows), old(topic), rows, topic, count, aged);
    }

    /** The one new row and the two events of a checkout that was not refused. */
    predicate NewRow(key: Key, user: string, items: seq<Item>, reply: Reply, rows0: seq<OrderRow>, topic0: seq<Event>)
      reads this
      requires Priceable(prices, items)
    {
      var o := |rows0|;
      reply == Given(o) && |rows| == o + 1 && rows[..o] == rows0 &&
      rows[o].status != PENDING &&
      rows[o] == OrderRow(key, user, SumBy(LineCost(prices), items), items, rows[o].status, rows[o].stockReserved, false) &&
      topic == topic0 + [Event(Created, o, user, ProductsIn(items)),
                         Event(if rows[o].status == PAID then Paid else Failed, o, user, ProductsIn(items))]
    }
  }

  predicate Stuck(row: OrderRow, aged: nat -> bool, o: nat) { row.status == PENDING && aged(o) }

  predicate Due(row: OrderRow, aged: nat -> bool, o: nat) { row.status == PAID && !row.delivered && aged(o) }

  /** The first n rows were swept: the stuck ones among them failed, no other row changed. */
  predicate Swept(a: seq<OrderRow>, b: seq<OrderRow>, aged: nat -> bool, n: nat) {
    |a| == |b| && forall o | 0 <= o < |b| ::
      b[o] == if o < n && Stuck(a[o], aged, o) then a[o].(status := FAILED) else a[o]
  }

  /** The stuck orders. */
  function Stucks(rows: seq<OrderRow>, aged: nat -> bool): set<int> { set o | 0 <= o < |rows| && Stuck(rows[o], aged, o) }

  /** The orders due for delivery. */
  function Dues(rows: seq<OrderRow>, aged: nat -> bool): set<int> { set o | 0 <= o < |rows| && Due(rows[o], aged, o) }

  /** The events of a pass over the first n rows that publishes one of the kind for each chosen row. */
  function EventsOf(rows: seq<OrderRow>, chosen: set<int>, kind: Kind, n: nat): seq<Event>
    requires n <= |rows|
  {
    if n == 0 then []
    else EventsOf(rows, chosen, kind, n - 1) +
         if n - 1 in chosen then [Event(kind, n - 1, rows[n - 1].user, ProductsIn(rows[n - 1].items))] else []
  }

  /** How far a pass has come after n rows: rows, events, count and stock. */
  predicate SweptSoFar(rows0: seq<OrderRow>, topic0: seq<Event>, t0: Table, rows: seq<OrderRow>, topic: seq<Event>, t: Table,
                       count: nat, aged: nat -> bool, w: nat -> Weather, n: nat)
  {
    n <= |rows0| && Swept(rows0, rows, aged, n) && topic == topic0 + EventsOf(rows0, Stucks(rows0, aged), Failed, n) &&
    count == |EventsOf(rows0, Stucks(rows0, aged), Failed, n)| && t == AfterSweep(t0, rows0, aged, w, n)
  }

  lemma SweptNext(rows0: seq<OrderRow>, topic0: seq<Event>, t0: Table, rows: seq<OrderRow>, topic: seq<Event>, t: Table,
                  count: nat, aged: nat -> bool, w: nat -> Weather, n: nat, rows': seq<OrderRow>, topic': seq<Event>, t': Table)
    requires SweptSoFar(rows0, topic0, t0, rows, topic, t, count, aged, w, n) && n < |rows|
    requires rows' == if Stuck(rows[n], aged, n) then rows[n := rows[n].(status := FAILED)] else rows
    requires topic' == topic + if Stuck(rows[n], aged, n)
                               then [Event(Failed, n, rows[n].user, ProductsIn(rows[n].items))] else []
    requires t' == AfterOne(t, rows[n], aged, w(n), n)
    ensures SweptSoFar(rows0, topic0, t0, rows', topic', t', if Stuck(rows[n], aged, n) then count + 1 else count, aged, w, n + 1)
  {
    assert n in Stucks(rows0, aged) <==> Stuck(rows[n], aged, n);
  }

  /** These events are one of the kind for each of the chosen rows, with its user and every one of its products. */
  predicate OneEach(rows: seq<OrderRow>, chosen: set<int>, kind: Kind, news: seq<Event>) {
    OneEachBelow(rows, chosen, kind, news, |rows|)
  }

  /** So far, for the chosen ones among the first n rows. */
  predicate OneEachBelow(rows: seq<OrderRow>, chosen: set<int>, kind: Kind, news: seq<Event>, n: nat) {
    (forall e | 0 <= e < |news| :: Tells(rows, chosen, kind, news[e])) &&
    forall o | 0 <= o < |rows| :: SumBy(EventFor(o, kind), news) == if o in chosen && o < n then 1 else 0
  }

  predicate Tells(rows: seq<OrderRow>, chosen: set<int>, kind: Kind, e: Event) {
    e.kind == kind && e.order in chosen && e.order < |rows| && e.user == rows[e.order].user &&
    Lists(e.products, rows[e.order].items)
  }

  predicate Lists(products: seq<ProductId>, items: seq<Item>) {
    |products| == |items| && forall i | 0 <= i < |items| :: products[i] == items[i].product
  }

  lemma CountsOneMore(news: seq<Event>, event: Event, o: OrderId, kind: Kind)
    requires event.kind == kind
    ensures SumBy(EventFor(o, kind), news + [event]) == SumBy(EventFor(o, kind), news) + if event.order == o then 1 else 0
  {
    SumAppend(EventFor(o, kind), news, event);
  }

  /** One row more, with its event. */
  lemma OneEachNext(rows: seq<OrderRow>, chosen: set<int>, kind: Kind, news: seq<Event>, n: nat, event: Event)
    requires n < |rows| && n in chosen && OneEachBelow(rows, chosen, kind, news, n)
    requires Tells(rows, chosen, kind, event) && event.order == n
    ensures OneEachBelow(rows, chosen, kind, news + [event], n + 1)
  {
    forall o | 0 <= o < |rows| {
      CountsOneMore(news, event, o, kind);
    }
  }

  lemma {:induction false} EventsOfMean(rows: seq<OrderRow>, chosen: set<int>, kind: Kind, n: nat)
    requires n <= |rows|
    ensures OneEachBelow(rows, chosen, kind, EventsOf(rows, chosen, kind, n), n)
  {
    if n > 0 {
      EventsOfMean(rows, chosen, kind, n - 1);
      if n - 1 in chosen {
        var event := Event(kind, n - 1, rows[n - 1].user, ProductsIn(rows[n - 1].items));
        OneEachNext(rows, chosen, kind, EventsOf(rows, chosen, kind, n - 1), n - 1, event);
      } else {
        assert EventsOf(rows, chosen, kind, n) == EventsOf(rows, chosen, kind, n - 1);
      }
    }
  }

  function Below(chosen: set<int>, n: int): set<int> { set o | o in chosen && o < n }

  lemma BelowNext(chosen: set<int>, n: nat)
    ensures |Below(chosen, n + 1)| == |Below(chosen, n)| + if n in chosen then 1 else 0
  {
    assert Below(chosen, n + 1) == Below(chosen, n) + if n in chosen then {n} else {};
  }

  lemma {:induction false} EventsOfCount(rows: seq<OrderRow>, chosen: set<int>, kind: Kind, n: nat)
    requires n <= |rows| && forall o | o in chosen :: 0 <= o < |rows|
    ensures |EventsOf(rows, chosen, kind, n)| == |Below(chosen, n)|
    ensures n == |rows| ==> Below(chosen, n) == chosen
  {
    if n == 0 {
      assert Below(chosen, 0) == {};
    } else {
      EventsOfCount(rows, chosen, kind, n - 1);
      BelowNext(chosen, n - 1);
    }
  }

  /** The first n rows were visited: the due ones among them are delivered, no other row changed. */
  predicate Shipped(a: seq<OrderRow>, b: seq<OrderRow>, aged: nat -> bool, n: nat) {
    |a| == |b| && forall o | 0 <= o < |b| ::
      b[o] == if o < n && Due(a[o], aged, o) then a[o].(delivered := true) else a[o]
  }

  /** The orders from n on are as they were. */
  ghost predicate Ahead(a: State, b: State, n: nat) {
    |a.orders| == |b.orders| && forall d | n <= d < |b.orders| :: b.orders[d] == a.orders[d]
  }

  predicate ShippedSoFar(rows0: seq<OrderRow>, topic0: seq<Event>, rows: seq<OrderRow>, topic: seq<Event>,
                         count: nat, aged: nat -> bool, n: nat)
  {
    n <= |rows0| && Shipped(rows0, rows, aged, n) &&
    topic == topic0 + EventsOf(rows0, Dues(rows0, aged), Kind.Delivered, n) &&
    count == |EventsOf(rows0, Dues(rows0, aged), Kind.Delivered, n)|
  }

  lemma ShippedNext(rows0: seq<OrderRow>, topic0: seq<Event>, rows: seq<OrderRow>, topic: seq<Event>,
                    count: nat, aged: nat -> bool, n: nat, rows': seq<OrderRow>, topic': seq<Event>)
    requires ShippedSoFar(rows0, topic0, rows, topic, count, aged, n) && n < |rows|
    requires rows' == if Due(rows[n], aged, n) then rows[n := rows[n].(delivered := true)] else rows
    requires topic' == topic + if Due(rows[n], aged, n)
                               then [Event(Kind.Delivered, n, rows[n].user, ProductsIn(rows[n].items))] else []
    ensures ShippedSoFar(rows0, topic0, rows', topic', if Due(rows[n], aged, n) then count + 1 else count, aged, n + 1)
  {
    assert n in Dues(rows0, aged) <==> Due(rows[n], aged, n);
  }

  /** A whole pass, from the columns alone. */
  lemma SweepMeans(rows0: seq<OrderRow>, topic0: seq<Event>, t0: Table, rows: seq<OrderRow>, topic: seq<Event>, t: Table,
                   count: nat, aged: nat -> bool, w: nat -> Weather)
    requires SweptSoFar(rows0, topic0, t0, rows, topic, t, count, aged, w, |rows0|)
    ensures |rows| == |rows0| && topic0 <= topic && t == AfterSweep(t0, rows0, aged, w, |rows0|)
    ensures forall o | 0 <= o < |rows| ::
              rows[o] == if rows0[o].status == PENDING && aged(o) then rows0[o].(status := FAILED) else rows0[o]
    ensures var stuck := set o | 0 <= o < |rows0| && rows0[o].status == PENDING && aged(o);
            count == |stuck| && OneEach(rows0, stuck, Failed, topic[|topic0|..])
  {
    var stuck := Stucks(rows0, aged);
    EventsOfMean(rows0, stuck, Failed, |rows0|);
    assert topic[|topic0|..] == EventsOf(rows0, stuck, Failed, |rows0|);
    EventsOfCount(rows0, stuck, Failed, |rows0|);
    assert stuck == set o | 0 <= o < |rows0| && rows0[o].status == PENDING && aged(o);
  }

  lemma DeliveryMeans(rows0: seq<OrderRow>, topic0: seq<Event>, rows: seq<OrderRow>, topic: seq<Event>,
                      count: nat, aged: nat -> bool)
    requires ShippedSoFar(rows0, topic0, rows, topic, count, aged, |rows0|)
    ensures |rows| == |rows0| && topic0 <= topic
    ensures forall o | 0 <= o < |rows| ::
              rows[o] == if rows0[o].status == PAID && aged(o) then rows0[o].(delivered := true) else rows0[o]
    ensures var due := set o | 0 <= o < |rows0| && rows0[o].status == PAID && !rows0[o].delivered && aged(o);
            count == |due| && OneEach(rows0, due, Kind.Delivered, topic[|topic0|..])
  {
    var due := Dues(rows0, aged);
    EventsOfMean(rows0, due, Kind.Delivered, |rows0|);
    assert topic[|topic0|..] == EventsOf(rows0, due, Kind.Delivered, |rows0|);
    EventsOfCount(rows0, due, Kind.Delivered, |rows0|);
    assert due == set o | 0 <= o < |rows0| && rows0[o].status == PAID && !rows0[o].delivered && aged(o);
  }

  /** The stock after one row was visited by the sweep. */
  function AfterOne(t: Table, row: OrderRow, aged: nat -> bool, w: Weather, o: nat): Table {
    if Stuck(row, aged, o) && row.stockReserved then AfterReleases(t, row.items, w, |row.items|) else t
  }

  /** The stock after the first n rows were swept. */
  function AfterSweep(t: Table, rows: seq<OrderRow>, aged: nat -> bool, w: nat -> Weather, n: nat): Table
    requires n <= |rows|
  {
    if n == 0 then t else AfterOne(AfterSweep(t, rows, aged, w, n - 1), rows[n - 1], aged, w(n - 1), n - 1)
  }

  /** A first checkout under its key, of known products. */
  predicate Accepts(key: Key, items: seq<Item>, rows: seq<OrderRow>, prices: map<ProductId, int>) {
    key != "" && items != [] && Priceable(prices, items) && forall o | 0 <= o < |rows| :: rows[o].key != key
  }

  /** All or nothing: what a loss-free saga's verdict says about the stock. */
  ghost predicate SagaMeaning(t: Table, u: Table, row: OrderRow, approve: bool, verdict: Status) {
    (verdict == PAID <==> Feasible(row.items, t) && 0 < row.amount && approve) &&
    if verdict == PAID then Took(t, u, row.items) else u == t
  }

  function ProductsIn(items: seq<Item>): seq<ProductId> {
    seq(|items|, i requires 0 <= i < |items| => items[i].product)
  }

  // ------------------------------------------------ what the loops do to the stock

  /** The stock after the reserve requests for the first k lines. */
  function AfterReserves(t: Table, items: seq<Item>, w: Weather, k: nat): Table
    requires k <= |items|
  {
    if k == 0 then t
    else
      var u := AfterReserves(t, items, w, k - 1);
      if w.reserve(k - 1) == RequestLost then u else Stock.Reserve(u, items[k - 1].product, items[k - 1].quantity).0
  }

  /** The stock after the release requests for the first k lines. */
  function AfterReleases(t: Table, items: seq<Item>, w: Weather, k: nat): Table
    requires k <= |items|
  {
    if k == 0 then t
    else
      var u := AfterReleases(t, items, w, k - 1);
      if w.release(k - 1) == RequestLost then u else Stock.Release(u, items[k - 1].product, items[k - 1].quantity).0
  }

  /** Line i's reserve request was served and its reply arrived. */
  predicate Confirmed(t: Table, items: seq<Item>, w: Weather, i: nat)
    requires i < |items|
  {
    w.reserve(i) == Answered &&
    Stock.Reserve(AfterReserves(t, items, w, i), items[i].product, items[i].quantity).1.Ok?
  }

  /** The reserve loop confirmed k lines and, unless `ok`, failed at the next. */
  predicate ReserveOutcome(t: Table, u: Table, items: seq<Item>, w: Weather, ok: bool, k: nat) {
    k <= |items| && (forall i | 0 <= i < k :: Confirmed(t, items, w, i)) &&
    if ok then u == AfterReserves(t, items, w, k)
    else k < |items| && !Confirmed(t, items, w, k) && u == AfterReserves(t, items, w, k + 1)
  }

  /** Where a release loop over k lines is after i of them. */
  predicate AtRelease(who: Releaser, a: Order, i: nat, k: nat) {
    k <= |a.lines| &&
    match who
    case Undoer => a.pc == Undo(i, k)
    case Refunder => a.pc == Refund(i) && k == |a.lines|
    case Sweeper => a.rec == RecRelease(i) && k == |a.lines|
  }

  predicate ReleasedTo(who: Releaser, a: Order, b: Order, i: nat, k: nat) {
    AtRelease(who, b, i, k) && b == a.(lines := b.lines, pc := b.pc, rec := b.rec) &&
    if who == Sweeper then b.pc == a.pc else b.rec == a.rec
  }

  lemma ReservedOn(a: State, b: State, c: State, o: nat)
    requires OnlyOrder(a, b, o) && OnlyOrder(b, c, o)
    requires SameRow(a.orders[o], b.orders[o]) && SameRow(b.orders[o], c.orders[o])
    ensures OnlyOrder(a, c, o) && SameRow(a.orders[o], c.orders[o])
  {
  }

  /** From a to b, order o's release loop came to line i and nothing else happened. */
  predicate ReleasedSoFar(who: Releaser, a: State, b: State, o: nat, i: nat, k: nat) {
    OnlyOrder(a, b, o) && b.ledger == a.ledger && ReleasedTo(who, a.orders[o], b.orders[o], i, k)
  }

  lemma ReleaseStarts(who: Releaser, s: State, o: nat, k: nat)
    requires o < |s.orders| && AtRelease(who, s.orders[o], 0, k)
    ensures ReleasedSoFar(who, s, s, o, 0, k)
  {
  }

  lemma ReleasedOn(who: Releaser, a: State, b: State, c: State, o: nat, i: nat, k: nat)
    requires ReleasedSoFar(who, a, b, o, i, k) && ReleasedSoFar(who, b, c, o, i + 1, k)
    ensures ReleasedSoFar(who, a, c, o, i + 1, k)
  {
  }

  lemma ReleasesNext(t: Table, items: seq<Item>, w: Weather, i: nat)
    requires i < |items|
    ensures AfterReleases(t, items, w, i + 1) ==
              var u := AfterReleases(t, items, w, i);
              if w.release(i) == RequestLost then u else Stock.Release(u, items[i].product, items[i].quantity).0
  {
  }

  predicate Sellable(items: seq<Item>, stock: Table) {
    forall i | 0 <= i < |items| :: 0 < items[i].quantity && items[i].product in stock
  }

  /** From stock t the units of these lines were taken, leaving u. */
  ghost predicate Took(t: Table, u: Table, items: seq<Item>) {
    u.Keys == t.Keys && Sellable(items, t) && forall p | p in t :: u[p] == t[p] - SumBy(ItemUnits(p), items)
  }

  lemma OutcomeNext(t: Table, u: Table, items: seq<Item>, w: Weather, k: nat)
    requires k < |items| && ReserveOutcome(t, u, items, w, true, k)
    ensures var (stock, r) := Stock.Reserve(u, items[k].product, items[k].quantity);
            var ok := w.reserve(k) == Answered && r.Ok?;
            ReserveOutcome(t, if w.reserve(k) == RequestLost then u else stock, items, w, ok, if ok then k + 1 else k)
  {
  }

  lemma UnitsNext(items: seq<Item>, k: nat)
    requires k < |items|
    ensures items[..k + 1] == items[..k] + [items[k]]
    ensures forall p :: SumBy(ItemUnits(p), items[..k + 1]) == SumBy(ItemUnits(p), items[..k]) + ItemUnits(p)(items[k])
  {
  }

  /** One more line taken. */
  lemma TakesNext(t: Table, u: Table, items: seq<Item>, k: nat)
    requires k < |items| && Took(t, u, items[..k])
    requires Stock.Reserve(u, items[k].product, items[k].quantity).1.Ok?
    ensures Took(t, Stock.Reserve(u, items[k].product, items[k].quantity).0, items[..k + 1])
  {
    UnitsNext(items, k);
    assert forall i | 0 <= i < k :: items[..k + 1][i] == items[..k][i];
  }

  lemma ReservesNext(t: Table, items: seq<Item>, w: Weather, i: nat)
    requires i < |items| && w.reserve(i) != RequestLost
    ensures AfterReserves(t, items, w, i + 1)
         == Stock.Reserve(AfterReserves(t, items, w, i), items[i].product, items[i].quantity).0
  {
  }

  lemma {:induction false} ConfirmedTakes(t: Table, items: seq<Item>, w: Weather, k: nat)
    requires k <= |items| && forall i | 0 <= i < k :: Confirmed(t, items, w, i)
    ensures Took(t, AfterReserves(t, items, w, k), items[..k])
  {
    if k > 0 {
      ConfirmedTakes(t, items, w, k - 1);
      assert Confirmed(t, items, w, k - 1);
      ReservesNext(t, items, w, k - 1);
      TakesNext(t, AfterReserves(t, items, w, k - 1), items, k - 1);
    }
  }

  /** Releasing what was taken, line by line, restores the stock exactly. */
  lemma {:induction false} ReleasesGiveBack(t: Table, items: seq<Item>, w: Weather, k: nat)
    requires k <= |items| && Calm(w) && Sellable(items[..k], t)
    ensures Took(AfterReleases(t, items, w, k), t, items[..k])
  {
    if k > 0 {
      assert items[..k - 1] == items[..k][..k - 1];
      ReleasesGiveBack(t, items, w, k - 1);
      assert items[..k][k - 1] == items[k - 1];
      UnitsNext(items, k - 1);
    }
  }

  /** Units of p held by the stuck orders among the first n rows that had reserved their stock. */
  function StuckUnits(rows: seq<OrderRow>, aged: nat -> bool, n: nat, p: ProductId): int
    requires n <= |rows|
  {
    if n == 0 then 0
    else StuckUnits(rows, aged, n - 1, p) +
         if rows[n - 1].status == PENDING && aged(n - 1) && rows[n - 1].stockReserved
         then SumBy(ItemUnits(p), rows[n - 1].items) else 0
  }

  /** If no release is lost, a pass returns exactly what the stuck orders held, product by product. */
  lemma {:induction false} SweepReturnsUnits(t: Table, rows: seq<OrderRow>, aged: nat -> bool, w: nat -> Weather, n: nat)
    requires n <= |rows| && forall o | 0 <= o < n :: Calm(w(o))
    requires forall o | 0 <= o < n && rows[o].stockReserved :: Sellable(rows[o].items, t)
    ensures var u := AfterSweep(t, rows, aged, w, n);
            u.Keys == t.Keys && forall p | p in t :: u[p] == t[p] + StuckUnits(rows, aged, n, p)
  {
    if n > 0 {
      SweepReturnsUnits(t, rows, aged, w, n - 1);
      var items := rows[n - 1].items;
      assert items[..|items|] == items;
      if Stuck(rows[n - 1], aged, n - 1) && rows[n - 1].stockReserved {
        ReleasesGiveBack(AfterSweep(t, rows, aged, w, n - 1), items, w(n - 1), |items|);
      }
    }
  }

  /** Compensation undoes the reservations of a failed loop. */
  lemma CompensationRestores(t: Table, u: Table, items: seq<Item>, w: Weather, k: nat)
    requires k <= |items| && Calm(w) && Took(t, u, items[..k])
    ensures AfterReleases(u, items, w, k) == t
  {
    ReleasesGiveBack(u, items, w, k);
  }

  /** The reserve loop goes through exactly when every product's summed demand is in stock. */
  lemma LoopSucceedsIffFeasible(t: Table, u: Table, items: seq<Item>, w: Weather, ok: bool, k: nat)
    requires Calm(w) && ReserveOutcome(t, u, items, w, ok, k) && (ok ==> k == |items|) && forall p | p in t :: 0 <= t[p]
    ensures ok <==> Feasible(items, t)
  {
    ConfirmedTakes(t, items, w, k);
    if ok {
      assert items[..k] == items;
      StockStaysNonNegative(t, items, w, k);
    } else {
      assert !Confirmed(t, items, w, k);
      if Feasible(items, t) {
        var p := items[k].product;
        UnitsNext(items, k);
        SumPrefix(ItemUnits(p), items, k + 1);
        assert false;
      }
    }
  }

  lemma {:induction false} StockStaysNonNegative(t: Table, items: seq<Item>, w: Weather, k: nat)
    requires k <= |items| && forall p | p in t :: 0 <= t[p]
    ensures forall p | p in AfterReserves(t, items, w, k) :: 0 <= AfterReserves(t, items, w, k)[p]
  {
    if k > 0 {
      StockStaysNonNegative(t, items, w, k - 1);
    }
  }

  /** What a verdict reached through these loops means when nothing is lost. */
  lemma VerdictMeaning(t: Table, u: Table, v: Table, row: OrderRow, w: Weather, ok: bool, k: nat, verdict: Status)
    requires ReserveOutcome(t, u, row.items, w, ok, k) && (ok ==> k == |row.items|) && forall p | p in t :: 0 <= t[p]
    requires verdict == if ok && w.charge == Answered && 0 < row.amount && w.approve then PAID else FAILED
    requires v == if verdict == PAID then u else AfterReleases(u, row.items, w, k)
    ensures Calm(w) ==> SagaMeaning(t, v, row, w.approve, verdict)
  {
    var items := row.items;
    if Calm(w) {
      LoopSucceedsIffFeasible(t, u, items, w, ok, k);
      ConfirmedTakes(t, items, w, k);
      CompensationRestores(t, AfterReserves(t, items, w, k), items, w, k);
      assert items[..|items|] == items;
    }
  }

  lemma SameMeaning(t: Table, u: Table, a: OrderRow, b: OrderRow, approve: bool, verdict: Status)
    requires a.items == b.items && a.amount == b.amount
    ensures SagaMeaning(t, u, a, approve, verdict) ==> SagaMeaning(t, u, b, approve, verdict)
  {
  }

  lemma StockNonNegative(f: Faults, start: State, s: State)
    requires Reachable(f, start, s)
    ensures forall p | p in s.stock :: 0 <= s.stock[p]
  {
    ReachableHasInv(f, start, s);
  }

  lemma NotChargedYet(f: Faults, start: State, s: State, o: nat)
    requires Reachable(f, start, s) && o < |s.orders| && s.orders[o].pc == Pc.Charge
    ensures s.orders[o].key !in s.book
  {
    ReachableHasInv(f, start, s);
    assert OrderInv(s.orders[o]) && CardInv(s, o);
  }
}
