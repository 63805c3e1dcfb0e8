/**
 Short runs that leave the guarded fault model, or use up what it allows, and
 what goes wrong in them. Each starts from any shop that has a product in stock,
 and checks out one unit of it.
 */
module SagaWitnesses {
  import opened Stock
  import opened ChargeBook
  import opened Saga
  import opened SagaOrders
  import opened SagaLedgers

  /** A new shop with a unit of p. */
  predicate Stocks(s: State, p: ProductId) { Initial(s) && p in s.stock && p in s.prices && 0 < s.stock[p] }

  // ----------------------------------------------------- one checkout of one unit

  function Basket(p: ProductId): seq<Item> { [Item(p, 1)] }

  /** The system around order 0, with as many units of p left; the order itself is put in by `With`. */
  function Around(s: State, p: ProductId, units: int): State {
    State(s.prices, s.stock[p := units], [], [Client("K", "U", Basket(p), Owns(0))], map[], map[], [],
          [Event(Created, 0, "U", [p])])
  }

  function With(b: State, o: Order): State { b.(orders := [o]) }

  function Placed(s: State, p: ProductId, line: Line, status: Status, reserved: bool, pc: Pc, charge: Call<Verdict>,
                  rec: RecPc): Order
    requires p in s.prices
  {
    Order("K", "U", s.prices[p], [line], status, reserved, false, pc, charge, rec, ShipIdle, Sent(1, 0, 0, 0), [], [])
  }

  /** The line after its unit was granted, with this ledger. */
  function Unit(s: State, p: ProductId, releasing: nat, released: nat, net: int): Line
    requires p in s.stock
  {
    Line(p, 1, Done(Outcome.Ok(s.stock[p] - 1)), releasing, released, net)
  }

  function Taken(s: State, p: ProductId): Line
    requires p in s.stock
  {
    Unit(s, p, 0, 0, 1)
  }

  /** The system once the unit is taken. */
  function Less(s: State, p: ProductId): State
    requires p in s.stock
  {
    Around(s, p, s.stock[p] - 1)
  }

  /** A move of order 0 that publishes nothing. */
  lemma Go(f: Faults, s: State, b: State, o: Order, m: Move, o': Order)
    requires Reaches(f, s, With(b, o)) && CanMove(f, o, m) && Moved(f, o, m) == o' && EmissionOf(m) == Silent
    ensures Reaches(f, s, With(b, o'))
  {
    ReachesStep(f, s, With(b, o), Thread(0, m));
    assert Apply(f, With(b, o), Thread(0, m)) == With(b, o');
  }

  /** A move of order 0 that publishes an event. */
  lemma Say(f: Faults, s: State, p: ProductId, b: State, o: Order, m: Move, o': Order, kind: Kind)
    requires Reaches(f, s, With(b, o)) && CanMove(f, o, m) && Moved(f, o, m) == o' && EmissionOf(m) == Emit(kind)
    requires o.user == "U" && |o.lines| == 1 && o.lines[0].product == p
    ensures Reaches(f, s, With(b.(log := b.log + [Event(kind, 0, "U", [p])]), o'))
  {
    ReachesStep(f, s, With(b, o), Thread(0, m));
    assert ProductsOf(o) == [p];
    assert Apply(f, With(b, o), Thread(0, m)) == With(b.(log := b.log + [Event(kind, 0, "U", [p])]), o');
  }

  /** The catalog applies a release of the unit. */
  lemma GivesBack(f: Faults, s: State, p: ProductId, b: State, o: Order, o': Order)
    requires Reaches(f, s, With(b, o)) && p in b.stock && |o.lines| == 1 && 0 < o.lines[0].releasing
    requires o.lines[0].product == p && o.lines[0].quantity == 1
    requires o' == WithLine(o, 0, o.lines[0].(releasing := o.lines[0].releasing - 1,
                                              released := o.lines[0].released + 1,
                                              net := o.lines[0].net - 1))
    ensures Reaches(f, s, With(b.(stock := b.stock[p := b.stock[p] + 1]), o'))
  {
    ReachesStep(f, s, With(b, o), ApplyRelease(0, 0));
    assert Apply(f, With(b, o), ApplyRelease(0, 0)) == With(b.(stock := b.stock[p := b.stock[p] + 1]), o');
  }

  function Caller(p: ProductId, at: CallPc): Client { Client("K", "U", Basket(p), at) }

  lemma Prices(f: Faults, s: State, p: ProductId)
    requires Stocks(s, p)
    ensures Reaches(f, s, s.(clients := [Caller(p, Flushed(s.prices[p]))], holders := map["K" := 0]))
  {
    ReachesSelf(f, s);
    assert [] + [Caller(p, Looking)] == [Caller(p, Looking)];
    ReachesStep(f, s, s, Arrive("K", "U", Basket(p)));
    ReachesStep(f, s, s.(clients := [Caller(p, Looking)]), Handle(0, Lookup));
    assert AmountOf(s.prices, Basket(p)) == s.prices[p] by { assert Basket(p)[..0] == []; }
    ReachesStep(f, s, s.(clients := [Caller(p, Missed)]), Handle(0, Price));
    ReachesStep(f, s, s.(clients := [Caller(p, Priced(s.prices[p]))]), Handle(0, Flush));
    assert s.holders["K" := 0] == map["K" := 0];
  }

  /** The order is inserted and announced. */
  lemma Inserts(f: Faults, s: State, p: ProductId)
    requires Stocks(s, p)
    ensures Reaches(f, s, With(Around(s, p, s.stock[p]), Placed(s, p, Line(p, 1, Idle, 0, 0, 0), PENDING, false,
                                                                Reserve(0), Idle, RecIdle)))
  {
    Prices(f, s, p);
    var s1 := s.(clients := [Caller(p, Flushed(s.prices[p]))], holders := map["K" := 0]);
    ReachesStep(f, s, s1, Handle(0, Insert));
    var s2 := Apply(f, s1, Handle(0, Insert));
    assert s2.orders[0].lines == [Line(p, 1, Idle, 0, 0, 0)] && ProductsOf(s2.orders[0]) == [p];
    ReachesStep(f, s, s2, Thread(0, Act(DoPublishCreated)));
    assert s.stock[p := s.stock[p]] == s.stock && [] + [Event(Created, 0, "U", [p])] == [Event(Created, 0, "U", [p])];
  }

  /** The catalog granted the unit; the saga has not read the reply. */
  lemma Grants(f: Faults, s: State, p: ProductId)
    requires Stocks(s, p)
    ensures Reaches(f, s, With(Less(s, p), Placed(s, p, Taken(s, p), PENDING, false, ReserveWait(0), Idle, RecIdle)))
  {
    Inserts(f, s, p);
    var b := Around(s, p, s.stock[p]);
    var asked := Placed(s, p, Line(p, 1, InFlight, 0, 0, 0), PENDING, false, ReserveWait(0), Idle, RecIdle);
    Go(f, s, b, Placed(s, p, Line(p, 1, Idle, 0, 0, 0), PENDING, false, Reserve(0), Idle, RecIdle), Act(SendReserve),
       asked);
    ReachesStep(f, s, With(b, asked), ApplyReserve(0, 0));
    var granted := Placed(s, p, Taken(s, p), PENDING, false, ReserveWait(0), Idle, RecIdle);
    assert s.stock[p := s.stock[p]] == s.stock;
    assert WithLine(asked, 0, ReservedLine(asked.lines[0], Outcome.Ok(s.stock[p] - 1))) == granted;
    assert Apply(f, With(b, asked), ApplyReserve(0, 0)) == With(Less(s, p), granted);
  }

  /** The saga has its unit and is about to commit `stock_reserved`. */
  lemma Reserves(f: Faults, s: State, p: ProductId)
    requires Stocks(s, p)
    ensures Reaches(f, s, With(Less(s, p), Placed(s, p, Taken(s, p), PENDING, false, Reserve(1), Idle, RecIdle)))
  {
    Grants(f, s, p);
    Go(f, s, Less(s, p), Placed(s, p, Taken(s, p), PENDING, false, ReserveWait(0), Idle, RecIdle), Act(ReserveReply),
       Placed(s, p, Taken(s, p), PENDING, false, Reserve(1), Idle, RecIdle));
  }

  /** The saga committed `stock_reserved` and asked for its charge. */
  lemma AsksCharge(f: Faults, s: State, p: ProductId, rec: RecPc)
    requires Stocks(s, p) && Reaches(f, s, With(Less(s, p), Placed(s, p, Taken(s, p), PENDING, false, Reserve(1), Idle,
                                                                   rec)))
    ensures Reaches(f, s, With(Less(s, p), Placed(s, p, Taken(s, p), PENDING, true, ChargeWait, InFlight, rec)))
  {
    var marked := Placed(s, p, Taken(s, p), PENDING, true, Charge, Idle, rec);
    Go(f, s, Less(s, p), Placed(s, p, Taken(s, p), PENDING, false, Reserve(1), Idle, rec), Act(MarkReserved), marked);
    Go(f, s, Less(s, p), marked, Act(SendCharge), Placed(s, p, Taken(s, p), PENDING, true, ChargeWait, InFlight, rec));
  }

  /** The system once the charge was approved. */
  function Billed(s: State, p: ProductId): State
    requires p in s.stock && p in s.prices
  {
    Less(s, p).(book := map["K" := Success(0, s.prices[p], 0)], ledger := [Payment("K", 0, s.prices[p])])
  }

  lemma Approves(f: Faults, s: State, p: ProductId, rec: RecPc)
    requires Stocks(s, p) && 0 < s.prices[p]
    requires Reaches(f, s, With(Less(s, p), Placed(s, p, Taken(s, p), PENDING, false, Reserve(1), Idle, rec)))
    ensures Reaches(f, s, With(Billed(s, p), Placed(s, p, Taken(s, p), PENDING, true, ChargeWait, Done(Approved), rec)))
  {
    AsksCharge(f, s, p, rec);
    var t := With(Less(s, p), Placed(s, p, Taken(s, p), PENDING, true, ChargeWait, InFlight, rec));
    ReachesStep(f, s, t, ApplyCharge(0, true, 0));
    assert [] + [Payment("K", 0, s.prices[p])] == [Payment("K", 0, s.prices[p])];
    assert Apply(f, t, ApplyCharge(0, true, 0))
        == With(Billed(s, p), Placed(s, p, Taken(s, p), PENDING, true, ChargeWait, Done(Approved), rec));
  }

  /** A charge that is not approved: declined, or refused for its amount. */
  function Rejection(s: State, p: ProductId): Verdict
    requires p in s.prices
  {
    if 0 < s.prices[p] then Refused else BadRequest
  }

  function Unbilled(s: State, p: ProductId): State
    requires p in s.stock && p in s.prices
  {
    Less(s, p).(book := if 0 < s.prices[p] then map["K" := Decline] else map[])
  }

  lemma Rejects(f: Faults, s: State, p: ProductId)
    requires Stocks(s, p)
    ensures Reaches(f, s, With(Unbilled(s, p), Placed(s, p, Taken(s, p), PENDING, true, ChargeWait,
                                                      Done(Rejection(s, p)), RecIdle)))
  {
    Reserves(f, s, p);
    AsksCharge(f, s, p, RecIdle);
    var t := With(Less(s, p), Placed(s, p, Taken(s, p), PENDING, true, ChargeWait, InFlight, RecIdle));
    ReachesStep(f, s, t, ApplyCharge(0, false, 0));
    assert Apply(f, t, ApplyCharge(0, false, 0))
        == With(Unbilled(s, p), Placed(s, p, Taken(s, p), PENDING, true, ChargeWait, Done(Rejection(s, p)), RecIdle));
  }

  lemma Sells(f: Faults, s: State, p: ProductId, rec: RecPc)
    requires Stocks(s, p) && 0 < s.prices[p]
    requires Reaches(f, s, With(Less(s, p), Placed(s, p, Taken(s, p), PENDING, false, Reserve(1), Idle, rec)))
    ensures Reaches(f, s, With(Billed(s, p), Placed(s, p, Taken(s, p), PAID, true, PublishPaid, Done(Approved), rec)))
  {
    Approves(f, s, p, rec);
    var approved := Placed(s, p, Taken(s, p), PENDING, true, CommitPaid, Done(Approved), rec);
    Go(f, s, Billed(s, p), Placed(s, p, Taken(s, p), PENDING, true, ChargeWait, Done(Approved), rec), Act(ChargeReply),
       approved);
    Go(f, s, Billed(s, p), approved, Act(DoCommitPaid), Placed(s, p, Taken(s, p), PAID, true, PublishPaid,
                                                               Done(Approved), rec));
  }

  // -------------------------------------------------------- a unit given back twice

  /** The system with the rejected charge, and the unit back in stock as often as `extra` says beyond once. */
  function Refunded(s: State, p: ProductId, extra: int): State
    requires p in s.stock && p in s.prices
  {
    Unbilled(s, p).(stock := s.stock[p := s.stock[p] + extra])
  }

  /** The rejected saga asked the catalog to take the unit back. */
  lemma AsksRefund(f: Faults, s: State, p: ProductId)
    requires Stocks(s, p)
    ensures Reaches(f, s, With(Unbilled(s, p), Placed(s, p, Unit(s, p, 1, 0, 1), PENDING, true, RefundWait(0),
                                                      Done(Rejection(s, p)), RecIdle)))
  {
    Rejects(f, s, p);
    var no := Done(Rejection(s, p));
    var declined := Placed(s, p, Taken(s, p), PENDING, true, Refund(0), no, RecIdle);
    Go(f, s, Unbilled(s, p), Placed(s, p, Taken(s, p), PENDING, true, ChargeWait, no, RecIdle), Act(ChargeReply),
       declined);
    Go(f, s, Unbilled(s, p), declined, Act(SendRefund), Placed(s, p, Unit(s, p, 1, 0, 1), PENDING, true, RefundWait(0),
                                                               no, RecIdle));
  }

  /** It was given back; FAILED is not committed yet. */
  lemma Refunds(f: Faults, s: State, p: ProductId)
    requires Stocks(s, p)
    ensures Reaches(f, s, With(Refunded(s, p, 0), Placed(s, p, Unit(s, p, 0, 1, 0), PENDING, true, Refund(1),
                                                         Done(Rejection(s, p)), RecIdle)))
  {
    AsksRefund(f, s, p);
    var no := Done(Rejection(s, p));
    var back := Placed(s, p, Unit(s, p, 0, 1, 0), PENDING, true, RefundWait(0), no, RecIdle);
    GivesBack(f, s, p, Unbilled(s, p), Placed(s, p, Unit(s, p, 1, 0, 1), PENDING, true, RefundWait(0), no, RecIdle),
              back);
    assert s.stock[p := s.stock[p] - 1][p := s.stock[p]] == s.stock[p := s.stock[p] + 0];
    Go(f, s, Refunded(s, p, 0), back, Act(RefundReply), Placed(s, p, Unit(s, p, 0, 1, 0), PENDING, true, Refund(1), no,
                                                               RecIdle));
  }

  lemma WindowCrashIsSwept(f: Faults, s: State, p: ProductId)
    requires f.crash && f.windowCrash && Stocks(s, p)
    ensures Reaches(f, s, With(Refunded(s, p, 0), Placed(s, p, Unit(s, p, 0, 1, 0), PENDING, true, Crashed,
                                                         Done(Rejection(s, p)), RecRelease(0))))
  {
    Refunds(f, s, p);
    var no := Done(Rejection(s, p));
    var dead := Placed(s, p, Unit(s, p, 0, 1, 0), PENDING, true, Crashed, no, RecIdle);
    Go(f, s, Refunded(s, p, 0), Placed(s, p, Unit(s, p, 0, 1, 0), PENDING, true, Refund(1), no, RecIdle), Act(Crash),
       dead);
    Go(f, s, Refunded(s, p, 0), dead, Sweep(SweepSelect), dead.(rec := RecRelease(0)));
  }

  /**
   A saga that dies between its release and its FAILED commit is released again
   by reconciliation: the line's net is -1, and the shop has one unit too many.
   */
  lemma WindowCrashReleasesTwice(f: Faults, s: State, p: ProductId)
    requires f.crash && f.windowCrash && Stocks(s, p)
    ensures Reaches(f, s, With(Refunded(s, p, 1), Placed(s, p, Unit(s, p, 0, 2, -1), PENDING, true, Crashed,
                                                         Done(Rejection(s, p)), RecWait(0))))
  {
    WindowCrashIsSwept(f, s, p);
    var no := Done(Rejection(s, p));
    var again := Placed(s, p, Unit(s, p, 1, 1, 0), PENDING, true, Crashed, no, RecWait(0));
    Go(f, s, Refunded(s, p, 0), Placed(s, p, Unit(s, p, 0, 1, 0), PENDING, true, Crashed, no, RecRelease(0)),
       Sweep(SweepSend), again);
    GivesBack(f, s, p, Refunded(s, p, 0), again, Placed(s, p, Unit(s, p, 0, 2, -1), PENDING, true, Crashed, no,
                                                        RecWait(0)));
    assert s.stock[p := s.stock[p] + 0][p := s.stock[p] + 1] == s.stock[p := s.stock[p] + 1];
  }

  /** A pass took the order of a saga that waits for its charge, and the unit came back. */
  lemma LiveSweepRefunds(f: Faults, s: State, p: ProductId)
    requires f.liveSweep && Stocks(s, p)
    ensures Reaches(f, s, With(Refunded(s, p, 0), Placed(s, p, Unit(s, p, 0, 1, 0), PENDING, true, ChargeWait,
                                                         Done(Rejection(s, p)), RecWait(0))))
  {
    Rejects(f, s, p);
    var no := Done(Rejection(s, p));
    var taken := Placed(s, p, Taken(s, p), PENDING, true, ChargeWait, no, RecRelease(0));
    Go(f, s, Unbilled(s, p), Placed(s, p, Taken(s, p), PENDING, true, ChargeWait, no, RecIdle), Sweep(SweepSelect),
       taken);
    var sent := Placed(s, p, Unit(s, p, 1, 0, 1), PENDING, true, ChargeWait, no, RecWait(0));
    Go(f, s, Unbilled(s, p), taken, Sweep(SweepSend), sent);
    GivesBack(f, s, p, Unbilled(s, p), sent, Placed(s, p, Unit(s, p, 0, 1, 0), PENDING, true, ChargeWait, no,
                                                    RecWait(0)));
    assert s.stock[p := s.stock[p] - 1][p := s.stock[p]] == s.stock[p := s.stock[p] + 0];
  }

  /** Reconciliation and the running saga itself both give the unit back. */
  lemma LiveSweepReleasesTwice(f: Faults, s: State, p: ProductId)
    requires f.liveSweep && Stocks(s, p)
    ensures Reaches(f, s, With(Refunded(s, p, 1), Placed(s, p, Unit(s, p, 0, 2, -1), PENDING, true, RefundWait(0),
                                                         Done(Rejection(s, p)), RecWait(0))))
  {
    LiveSweepRefunds(f, s, p);
    var no := Done(Rejection(s, p));
    var declined := Placed(s, p, Unit(s, p, 0, 1, 0), PENDING, true, Refund(0), no, RecWait(0));
    Go(f, s, Refunded(s, p, 0), Placed(s, p, Unit(s, p, 0, 1, 0), PENDING, true, ChargeWait, no, RecWait(0)),
       Act(ChargeReply), declined);
    var again := Placed(s, p, Unit(s, p, 1, 1, 0), PENDING, true, RefundWait(0), no, RecWait(0));
    Go(f, s, Refunded(s, p, 0), declined, Act(SendRefund), again);
    GivesBack(f, s, p, Refunded(s, p, 0), again, Placed(s, p, Unit(s, p, 0, 2, -1), PENDING, true, RefundWait(0), no,
                                                        RecWait(0)));
    assert s.stock[p := s.stock[p] + 0][p := s.stock[p] + 1] == s.stock[p := s.stock[p] + 1];
  }

  /** Order 0 after its saga died before the charge, with these passes at work. */
  function Abandoned(s: State, p: ProductId, line: Line, rec: RecPc, recs: seq<RecPc>): Order
    requires p in s.prices
  {
    Order("K", "U", s.prices[p], [line], PENDING, true, false, Crashed, Idle, rec, ShipIdle, Sent(1, 0, 0, 0), recs, [])
  }

  /** The saga died before its charge, in no window, and a pass has taken the order. */
  lemma FirstPassSelects(f: Faults, s: State, p: ProductId)
    requires f.crash && Stocks(s, p)
    ensures Reaches(f, s, With(Less(s, p), Abandoned(s, p, Taken(s, p), RecRelease(0), [])))
  {
    Reserves(f, s, p);
    var marked := Placed(s, p, Taken(s, p), PENDING, true, Charge, Idle, RecIdle);
    Go(f, s, Less(s, p), Placed(s, p, Taken(s, p), PENDING, false, Reserve(1), Idle, RecIdle), Act(MarkReserved),
       marked);
    var dead := Abandoned(s, p, Taken(s, p), RecIdle, []);
    Go(f, s, Less(s, p), marked, Act(Crash), dead);
    Go(f, s, Less(s, p), dead, Sweep(SweepSelect), Abandoned(s, p, Taken(s, p), RecRelease(0), []));
  }

  /** So has another, which gives the unit back. */
  lemma SecondPassReleases(f: Faults, s: State, p: ProductId, first: seq<RecPc>)
    requires f.crash && f.overlap && Stocks(s, p) && first == [RecRelease(0)]
    ensures Reaches(f, s, With(Around(s, p, s.stock[p]), Abandoned(s, p, Unit(s, p, 0, 1, 0), RecWait(0), first)))
  {
    FirstPassSelects(f, s, p);
    assert [] + first == first;
    var parked := Abandoned(s, p, Taken(s, p), RecIdle, first);
    Go(f, s, Less(s, p), Abandoned(s, p, Taken(s, p), RecRelease(0), []), Sweep(ParkSweep), parked);
    var second := Abandoned(s, p, Taken(s, p), RecRelease(0), first);
    Go(f, s, Less(s, p), parked, Sweep(SweepSelect), second);
    var sent := Abandoned(s, p, Unit(s, p, 1, 0, 1), RecWait(0), first);
    Go(f, s, Less(s, p), second, Sweep(SweepSend), sent);
    GivesBack(f, s, p, Less(s, p), sent, Abandoned(s, p, Unit(s, p, 0, 1, 0), RecWait(0), first));
    assert s.stock[p := s.stock[p] - 1][p := s.stock[p]] == s.stock[p := s.stock[p]];
  }

  /** The first pass goes on. */
  lemma FirstPassResumes(f: Faults, s: State, p: ProductId)
    requires f.crash && f.overlap && Stocks(s, p)
    ensures Reaches(f, s, With(Around(s, p, s.stock[p]), Abandoned(s, p, Unit(s, p, 0, 1, 0), RecRelease(0),
                                                                   [RecWait(0)])))
  {
    SecondPassReleases(f, s, p, [RecRelease(0)]);
    var b := Around(s, p, s.stock[p]);
    var both := Abandoned(s, p, Unit(s, p, 0, 1, 0), RecIdle, [RecRelease(0), RecWait(0)]);
    Go(f, s, b, Abandoned(s, p, Unit(s, p, 0, 1, 0), RecWait(0), [RecRelease(0)]), Sweep(ParkSweep), both);
    assert [RecRelease(0), RecWait(0)][..0] + [RecRelease(0), RecWait(0)][1..] == [RecWait(0)];
    Go(f, s, b, both, Sweep(ResumeSweep(0)), Abandoned(s, p, Unit(s, p, 0, 1, 0), RecRelease(0), [RecWait(0)]));
  }

  /** Two replicas that reconcile one abandoned order both give its unit back. */
  lemma OverlapReleasesTwice(f: Faults, s: State, p: ProductId)
    requires f.crash && f.overlap && Stocks(s, p)
    ensures Reaches(f, s, With(Around(s, p, s.stock[p] + 1), Abandoned(s, p, Unit(s, p, 0, 2, -1), RecWait(0),
                                                                       [RecWait(0)])))
  {
    FirstPassResumes(f, s, p);
    var b := Around(s, p, s.stock[p]);
    var again := Abandoned(s, p, Unit(s, p, 1, 1, 0), RecWait(0), [RecWait(0)]);
    Go(f, s, b, Abandoned(s, p, Unit(s, p, 0, 1, 0), RecRelease(0), [RecWait(0)]), Sweep(SweepSend), again);
    GivesBack(f, s, p, b, again, Abandoned(s, p, Unit(s, p, 0, 2, -1), RecWait(0), [RecWait(0)]));
    assert s.stock[p := s.stock[p]][p := s.stock[p] + 1] == s.stock[p := s.stock[p] + 1];
  }

  // -------------------------------------------------- a FAILED order that holds its unit

  /** A crash after a reserve and before `stock_reserved` is committed leaks the unit for good. */
  lemma EarlyCrashLeaksStock(f: Faults, s: State, p: ProductId)
    requires f.crash && Stocks(s, p)
    ensures Reaches(f, s, With(Less(s, p), Placed(s, p, Taken(s, p), FAILED, false, Crashed, Idle, RecPublish)))
  {
    Reserves(f, s, p);
    var dead := Placed(s, p, Taken(s, p), PENDING, false, Crashed, Idle, RecIdle);
    Go(f, s, Less(s, p), Placed(s, p, Taken(s, p), PENDING, false, Reserve(1), Idle, RecIdle), Act(Crash), dead);
    Go(f, s, Less(s, p), dead, Sweep(SweepSelect), dead.(rec := RecRelease(1)));
    Go(f, s, Less(s, p), dead.(rec := RecRelease(1)), Sweep(SweepCommit), dead.(status := FAILED, rec := RecPublish));
  }

  /** So does the lost reply of a reserve that was served. */
  lemma LostReserveReplyLeaksStock(f: Faults, s: State, p: ProductId)
    requires f.transport && Stocks(s, p)
    ensures Reaches(f, s, With(Less(s, p), Placed(s, p, Taken(s, p), FAILED, false, PublishFailed, Idle, RecIdle)))
  {
    Grants(f, s, p);
    var undoing := Placed(s, p, Taken(s, p), PENDING, false, Undo(0, 0), Idle, RecIdle);
    Go(f, s, Less(s, p), Placed(s, p, Taken(s, p), PENDING, false, ReserveWait(0), Idle, RecIdle), Act(ReserveTimeout),
       undoing);
    Go(f, s, Less(s, p), undoing, Act(DoCommitFailed), Placed(s, p, Taken(s, p), FAILED, false, PublishFailed, Idle,
                                                              RecIdle));
  }

  /** So does reconciliation of a saga that has not committed `stock_reserved` yet. */
  lemma LiveSweepLeaksStock(f: Faults, s: State, p: ProductId)
    requires f.liveSweep && Stocks(s, p)
    ensures Reaches(f, s, With(Less(s, p), Placed(s, p, Taken(s, p), FAILED, false, Reserve(1), Idle, RecPublish)))
  {
    LiveSweepSelects(f, s, p);
    Go(f, s, Less(s, p), Placed(s, p, Taken(s, p), PENDING, false, Reserve(1), Idle, RecRelease(1)), Sweep(SweepCommit),
       Placed(s, p, Taken(s, p), FAILED, false, Reserve(1), Idle, RecPublish));
  }

  /** A pass took the order before `stock_reserved` was committed, so it will release nothing. */
  lemma LiveSweepSelects(f: Faults, s: State, p: ProductId)
    requires f.liveSweep && Stocks(s, p)
    ensures Reaches(f, s, With(Less(s, p), Placed(s, p, Taken(s, p), PENDING, false, Reserve(1), Idle, RecRelease(1))))
  {
    Reserves(f, s, p);
    Go(f, s, Less(s, p), Placed(s, p, Taken(s, p), PENDING, false, Reserve(1), Idle, RecIdle), Sweep(SweepSelect),
       Placed(s, p, Taken(s, p), PENDING, false, Reserve(1), Idle, RecRelease(1)));
  }

  // ---------------------------------------------------------- a verdict that changes

  /** The PAID order that a pass took when it was still PENDING. */
  function Bought(s: State, p: ProductId, rec: RecPc): Order
    requires p in s.stock && p in s.prices
  {
    Placed(s, p, Taken(s, p), PAID, true, PublishPaid, Done(Approved), rec)
  }

  /** Reconciliation of a saga that is still running turns its PAID order into a FAILED one. */
  lemma LiveSweepUndoesPaid(f: Faults, s: State, p: ProductId)
    requires f.liveSweep && Stocks(s, p) && 0 < s.prices[p]
    ensures Reaches(f, s, With(Billed(s, p), Bought(s, p, RecRelease(1))))
    ensures CanMove(f, Bought(s, p, RecRelease(1)), Sweep(SweepCommit)) &&
            Moved(f, Bought(s, p, RecRelease(1)), Sweep(SweepCommit)).status == FAILED
  {
    LiveSweepSelects(f, s, p);
    Sells(f, s, p, RecRelease(1));
  }

  /** The order's events: created, then these. */
  function Heard(b: State, p: ProductId, kinds: seq<Kind>): State {
    b.(log := b.log + seq(|kinds|, i requires 0 <= i < |kinds| => Event(kinds[i], 0, "U", [p])))
  }

  lemma HeardNext(b: State, p: ProductId, kinds: seq<Kind>, kind: Kind)
    ensures Heard(b, p, kinds).(log := Heard(b, p, kinds).log + [Event(kind, 0, "U", [p])])
         == Heard(b, p, kinds + [kind])
  {
    assert Heard(b, p, kinds).log + [Event(kind, 0, "U", [p])] == Heard(b, p, kinds + [kind]).log;
  }

  /** order.paid is followed by order.failed, and the call returned a FAILED order that was charged. */
  lemma LiveSweepSaysBoth(f: Faults, s: State, p: ProductId)
    requires f.liveSweep && Stocks(s, p) && 0 < s.prices[p]
    ensures Reaches(f, s, With(Heard(Billed(s, p), p, [Paid, Failed]),
                               Placed(s, p, Taken(s, p), FAILED, true, Returned, Done(Approved),
                                      RecIdle).(sent := Sent(1, 1, 1, 0))))
  {
    LiveSweepUndoesPaid(f, s, p);
    var b := Billed(s, p);
    assert Heard(b, p, []) == b;
    var told := Bought(s, p, RecRelease(1)).(pc := Returned, sent := Sent(1, 1, 0, 0));
    Say(f, s, p, b, Bought(s, p, RecRelease(1)), Act(DoPublishPaid), told, Paid);
    HeardNext(b, p, [], Paid);
    assert [] + [Paid] == [Paid];
    var undone := told.(status := FAILED, rec := RecPublish);
    Go(f, s, Heard(b, p, [Paid]), told, Sweep(SweepCommit), undone);
    Say(f, s, p, Heard(b, p, [Paid]), undone, Sweep(SweepPublish), undone.(rec := RecIdle, sent := Sent(1, 1, 1, 0)),
        Failed);
    HeardNext(b, p, [Paid], Failed);
  }

  /** And order.failed by a PAID order: the pass ends before the approved saga commits. */
  lemma LiveSweepPaysFailed(f: Faults, s: State, p: ProductId)
    requires f.liveSweep && Stocks(s, p) && 0 < s.prices[p]
    ensures Reaches(f, s, With(Heard(Billed(s, p), p, [Failed]),
                               Placed(s, p, Taken(s, p), PAID, true, PublishPaid, Done(Approved),
                                      RecIdle).(sent := Sent(1, 0, 1, 0))))
  {
    LiveSweepSelects(f, s, p);
    Approves(f, s, p, RecRelease(1));
    var b := Billed(s, p);
    var swept := Placed(s, p, Taken(s, p), FAILED, true, ChargeWait, Done(Approved), RecPublish);
    Go(f, s, b, swept.(status := PENDING, rec := RecRelease(1)), Sweep(SweepCommit), swept);
    assert Heard(b, p, []) == b && [] + [Failed] == [Failed];
    var told := swept.(rec := RecIdle, sent := Sent(1, 0, 1, 0));
    Say(f, s, p, b, swept, Sweep(SweepPublish), told, Failed);
    HeardNext(b, p, [], Failed);
    Go(f, s, Heard(b, p, [Failed]), told, Act(ChargeReply), told.(pc := CommitPaid));
    Go(f, s, Heard(b, p, [Failed]), told.(pc := CommitPaid), Act(DoCommitPaid),
       told.(status := PAID, pc := PublishPaid));
  }

  /** A delivery pass picked the PAID order; the sweep then failed it. */
  lemma LiveSweepFailsPicked(f: Faults, s: State, p: ProductId)
    requires f.liveSweep && Stocks(s, p) && 0 < s.prices[p]
    ensures Reaches(f, s, With(Billed(s, p), Bought(s, p, RecPublish).(status := FAILED, ship := Picked)))
  {
    LiveSweepUndoesPaid(f, s, p);
    var picked := Bought(s, p, RecRelease(1)).(ship := Picked);
    Go(f, s, Billed(s, p), Bought(s, p, RecRelease(1)), Ship(ShipSelect), picked);
    Go(f, s, Billed(s, p), picked, Sweep(SweepCommit), picked.(status := FAILED, rec := RecPublish));
  }

  /** And announces a FAILED order as delivered. */
  lemma LiveSweepDeliversFailed(f: Faults, s: State, p: ProductId)
    requires f.liveSweep && Stocks(s, p) && 0 < s.prices[p]
    ensures Reaches(f, s, With(Heard(Billed(s, p), p, [Delivered]),
                               Bought(s, p, RecPublish).(status := FAILED, delivered := true,
                                                         sent := Sent(1, 0, 0, 1))))
  {
    LiveSweepFailsPicked(f, s, p);
    var b := Billed(s, p);
    var picked := Bought(s, p, RecPublish).(status := FAILED, ship := Picked);
    var marked := picked.(delivered := true, ship := Marked);
    Go(f, s, b, picked, Ship(ShipCommit), marked);
    assert Heard(b, p, []) == b && [] + [Delivered] == [Delivered];
    Say(f, s, p, b, marked, Ship(ShipPublish), marked.(ship := ShipIdle, sent := Sent(1, 0, 0, 1)), Delivered);
    HeardNext(b, p, [], Delivered);
  }

  /** Reconciliation of a running saga also returns the unit of an order that then becomes PAID. */
  lemma LiveSweepOversells(f: Faults, s: State, p: ProductId)
    requires f.liveSweep && Stocks(s, p) && 0 < s.prices[p]
    ensures Reaches(f, s, With(Billed(s, p).(stock := s.stock[p := s.stock[p]]),
                               Placed(s, p, Unit(s, p, 0, 1, 0), PAID, true, PublishPaid, Done(Approved), RecWait(0))))
  {
    LiveSweepReturns(f, s, p);
    var b := Billed(s, p).(stock := s.stock[p := s.stock[p]]);
    var back := Placed(s, p, Unit(s, p, 0, 1, 0), PENDING, true, ChargeWait, Done(Approved), RecWait(0));
    Go(f, s, b, back, Act(ChargeReply), back.(pc := CommitPaid));
    Go(f, s, b, back.(pc := CommitPaid), Act(DoCommitPaid), back.(status := PAID, pc := PublishPaid));
  }

  lemma LiveSweepReturns(f: Faults, s: State, p: ProductId)
    requires f.liveSweep && Stocks(s, p) && 0 < s.prices[p]
    ensures Reaches(f, s, With(Billed(s, p).(stock := s.stock[p := s.stock[p]]),
                               Placed(s, p, Unit(s, p, 0, 1, 0), PENDING, true, ChargeWait, Done(Approved),
                                      RecWait(0))))
  {
    Reserves(f, s, p);
    Approves(f, s, p, RecIdle);
    var charged := Placed(s, p, Taken(s, p), PENDING, true, ChargeWait, Done(Approved), RecRelease(0));
    Go(f, s, Billed(s, p), charged.(rec := RecIdle), Sweep(SweepSelect), charged);
    var sent := Placed(s, p, Unit(s, p, 1, 0, 1), PENDING, true, ChargeWait, Done(Approved), RecWait(0));
    Go(f, s, Billed(s, p), charged, Sweep(SweepSend), sent);
    GivesBack(f, s, p, Billed(s, p), sent, Placed(s, p, Unit(s, p, 0, 1, 0), PENDING, true, ChargeWait, Done(Approved),
                                                  RecWait(0)));
    assert s.stock[p := s.stock[p] - 1][p := s.stock[p]] == s.stock[p := s.stock[p]];
  }

  // ------------------------------------------------------------ events said twice

  /** Order 0 after its saga died at its first step, with nothing to release. */
  function Stillborn(s: State, p: ProductId, status: Status, rec: RecPc, recs: seq<RecPc>, failed: nat): Order
    requires p in s.prices
  {
    Order("K", "U", s.prices[p], [Line(p, 1, Idle, 0, 0, 0)], status, false, false, Crashed, Idle, rec, ShipIdle,
          Sent(1, 0, failed, 0), recs, [])
  }

  /** Two passes have taken the order. */
  lemma BothPassesSelect(f: Faults, s: State, p: ProductId, first: seq<RecPc>)
    requires f.crash && f.overlap && Stocks(s, p) && first == [RecRelease(1)]
    ensures Reaches(f, s, With(Around(s, p, s.stock[p]), Stillborn(s, p, PENDING, RecRelease(1), first, 0)))
  {
    Inserts(f, s, p);
    var b := Around(s, p, s.stock[p]);
    var dead := Stillborn(s, p, PENDING, RecIdle, [], 0);
    Go(f, s, b, Placed(s, p, Line(p, 1, Idle, 0, 0, 0), PENDING, false, Reserve(0), Idle, RecIdle), Act(Crash), dead);
    Go(f, s, b, dead, Sweep(SweepSelect), dead.(rec := RecRelease(1)));
    assert [] + first == first;
    Go(f, s, b, dead.(rec := RecRelease(1)), Sweep(ParkSweep), dead.(recs := first));
    Go(f, s, b, dead.(recs := first), Sweep(SweepSelect), Stillborn(s, p, PENDING, RecRelease(1), first, 0));
  }

  /** A pass commits FAILED and says so. */
  lemma PassFails(f: Faults, s: State, p: ProductId, b: State, status: Status, recs: seq<RecPc>, n: nat,
                  kinds: seq<Kind>)
    requires p in s.prices && Reaches(f, s, With(Heard(b, p, kinds), Stillborn(s, p, status, RecRelease(1), recs, n)))
    ensures Reaches(f, s, With(Heard(b, p, kinds + [Failed]), Stillborn(s, p, FAILED, RecIdle, recs, n + 1)))
  {
    Go(f, s, Heard(b, p, kinds), Stillborn(s, p, status, RecRelease(1), recs, n), Sweep(SweepCommit),
       Stillborn(s, p, FAILED, RecPublish, recs, n));
    Say(f, s, p, Heard(b, p, kinds), Stillborn(s, p, FAILED, RecPublish, recs, n), Sweep(SweepPublish),
        Stillborn(s, p, FAILED, RecIdle, recs, n + 1), Failed);
    HeardNext(b, p, kinds, Failed);
  }

  /** Two replicas that reconcile one abandoned order both publish order.failed. */
  lemma OverlapFailsTwice(f: Faults, s: State, p: ProductId)
    requires f.crash && f.overlap && Stocks(s, p)
    ensures Reaches(f, s, With(Heard(Around(s, p, s.stock[p]), p, [Failed, Failed]),
                               Stillborn(s, p, FAILED, RecIdle, [], 2)))
  {
    var b, first := Around(s, p, s.stock[p]), [RecRelease(1)];
    BothPassesSelect(f, s, p, first);
    assert Heard(b, p, []) == b && [] + [Failed] == [Failed];
    PassFails(f, s, p, b, PENDING, first, 0, []);
    assert first[..0] + first[1..] == [];
    Go(f, s, Heard(b, p, [Failed]), Stillborn(s, p, FAILED, RecIdle, first, 1), Sweep(ResumeSweep(0)),
       Stillborn(s, p, FAILED, RecRelease(1), [], 1));
    PassFails(f, s, p, b, FAILED, [], 1, [Failed]);
  }

  /** A pass took the order of a saga that then failed it and said so. */
  lemma LiveSweepLetsFail(f: Faults, s: State, p: ProductId)
    requires f.liveSweep && Stocks(s, p)
    ensures Reaches(f, s, With(Heard(Refunded(s, p, 0), p, [Failed]),
                               Placed(s, p, Unit(s, p, 0, 1, 0), FAILED, true, Returned, Done(Rejection(s, p)),
                                      RecRelease(0)).(sent := Sent(1, 0, 1, 0))))
  {
    Refunds(f, s, p);
    var b := Refunded(s, p, 0);
    var taken := Placed(s, p, Unit(s, p, 0, 1, 0), PENDING, true, Refund(1), Done(Rejection(s, p)), RecRelease(0));
    Go(f, s, b, taken.(rec := RecIdle), Sweep(SweepSelect), taken);
    var failed := taken.(status := FAILED, pc := PublishFailed);
    Go(f, s, b, taken, Act(DoCommitFailed), failed);
    assert Heard(b, p, []) == b && [] + [Failed] == [Failed];
    Say(f, s, p, b, failed, Act(DoPublishFailed), failed.(pc := Returned, sent := Sent(1, 0, 1, 0)), Failed);
    HeardNext(b, p, [], Failed);
  }

  /** The pass says it again, and gives the unit back again. */
  lemma LiveSweepFailsTwice(f: Faults, s: State, p: ProductId)
    requires f.liveSweep && Stocks(s, p)
    ensures Reaches(f, s, With(Heard(Refunded(s, p, 1), p, [Failed, Failed]),
                               Placed(s, p, Unit(s, p, 0, 2, -1), FAILED, true, Returned, Done(Rejection(s, p)),
                                      RecIdle).(sent := Sent(1, 0, 2, 0))))
  {
    LiveSweepLetsFail(f, s, p);
    var b, c := Heard(Refunded(s, p, 0), p, [Failed]), Heard(Refunded(s, p, 1), p, [Failed]);
    var told := Placed(s, p, Unit(s, p, 0, 1, 0), FAILED, true, Returned, Done(Rejection(s, p)),
                       RecRelease(0)).(sent := Sent(1, 0, 1, 0));
    var sent := told.(lines := [Unit(s, p, 1, 1, 0)], rec := RecWait(0));
    Go(f, s, b, told, Sweep(SweepSend), sent);
    var back := told.(lines := [Unit(s, p, 0, 2, -1)], rec := RecWait(0));
    GivesBack(f, s, p, b, sent, back);
    assert b.(stock := b.stock[p := b.stock[p] + 1]) == c by {
      assert s.stock[p := s.stock[p] + 0][p := s.stock[p] + 1] == s.stock[p := s.stock[p] + 1];
    }
    LiveSweepEnds(f, s, p, c, back);
  }

  lemma LiveSweepEnds(f: Faults, s: State, p: ProductId, c: State, back: Order)
    requires p in s.stock && p in s.prices && c == Heard(Refunded(s, p, 1), p, [Failed])
    requires back == Placed(s, p, Unit(s, p, 0, 2, -1), FAILED, true, Returned, Done(Rejection(s, p)),
                            RecWait(0)).(sent := Sent(1, 0, 1, 0))
    requires Reaches(f, s, With(c, back))
    ensures Reaches(f, s, With(Heard(Refunded(s, p, 1), p, [Failed, Failed]),
                               back.(rec := RecIdle, sent := Sent(1, 0, 2, 0))))
  {
    Go(f, s, c, back, Sweep(SweepReply), back.(rec := RecRelease(1)));
    Go(f, s, c, back.(rec := RecRelease(1)), Sweep(SweepCommit), back.(rec := RecPublish));
    Say(f, s, p, c, back.(rec := RecPublish), Sweep(SweepPublish), back.(rec := RecIdle, sent := Sent(1, 0, 2, 0)),
        Failed);
    HeardNext(Refunded(s, p, 1), p, [Failed], Failed);
  }

  /** Order 0, PAID, with these delivery passes at work. */
  function Due(s: State, p: ProductId, delivered: bool, ship: ShipPc, ships: seq<ShipPc>, n: nat): Order
    requires p in s.stock && p in s.prices
  {
    Order("K", "U", s.prices[p], [Taken(s, p)], PAID, true, delivered, PublishPaid, Done(Approved), RecIdle, ship,
          Sent(1, 0, 0, n), [], ships)
  }

  /** Both passes selected the order before either marked it. */
  lemma BothSelect(f: Faults, s: State, p: ProductId)
    requires f.overlap && Stocks(s, p) && 0 < s.prices[p]
    ensures Reaches(f, s, With(Billed(s, p), Due(s, p, false, Picked, [Picked], 0)))
  {
    Reserves(f, s, p);
    Sells(f, s, p, RecIdle);
    Go(f, s, Billed(s, p), Due(s, p, false, ShipIdle, [], 0), Ship(ShipSelect), Due(s, p, false, Picked, [], 0));
    assert [] + [Picked] == [Picked];
    Go(f, s, Billed(s, p), Due(s, p, false, Picked, [], 0), Ship(ParkShip), Due(s, p, false, ShipIdle, [Picked], 0));
    Go(f, s, Billed(s, p), Due(s, p, false, ShipIdle, [Picked], 0), Ship(ShipSelect),
       Due(s, p, false, Picked, [Picked], 0));
  }

  /** A delivery pass marks the order and says so. */
  lemma PassDelivers(f: Faults, s: State, p: ProductId, b: State, delivered: bool, ships: seq<ShipPc>, n: nat,
                     kinds: seq<Kind>)
    requires p in s.stock && p in s.prices && Reaches(f, s, With(Heard(b, p, kinds),
                                                                 Due(s, p, delivered, Picked, ships, n)))
    ensures Reaches(f, s, With(Heard(b, p, kinds + [Delivered]), Due(s, p, true, ShipIdle, ships, n + 1)))
  {
    Go(f, s, Heard(b, p, kinds), Due(s, p, delivered, Picked, ships, n), Ship(ShipCommit),
       Due(s, p, true, Marked, ships, n));
    Say(f, s, p, Heard(b, p, kinds), Due(s, p, true, Marked, ships, n), Ship(ShipPublish),
        Due(s, p, true, ShipIdle, ships, n + 1), Delivered);
    HeardNext(b, p, kinds, Delivered);
  }

  /** Two replicas that deliver one order at the same time announce it twice. */
  lemma OverlapDeliversTwice(f: Faults, s: State, p: ProductId)
    requires f.overlap && Stocks(s, p) && 0 < s.prices[p]
    ensures Reaches(f, s, With(Heard(Billed(s, p), p, [Delivered, Delivered]), Due(s, p, true, ShipIdle, [], 2)))
  {
    BothSelect(f, s, p);
    var b := Billed(s, p);
    assert Heard(b, p, []) == b && [] + [Delivered] == [Delivered];
    PassDelivers(f, s, p, b, false, [Picked], 0, []);
    assert [Picked][..0] + [Picked][1..] == [];
    Go(f, s, Heard(b, p, [Delivered]), Due(s, p, true, ShipIdle, [Picked], 1), Ship(ResumeShip(0)),
       Due(s, p, true, Picked, [], 1));
    PassDelivers(f, s, p, b, true, [], 1, [Delivered]);
  }

  // ------------------------------------------------------ a FAILED order that was charged

  /** The charge was approved, its reply lost, and the refund's request lost too. */
  lemma LostReplyRefunds(f: Faults, s: State, p: ProductId)
    requires f.transport && Stocks(s, p) && 0 < s.prices[p]
    ensures Reaches(f, s, With(Billed(s, p), Placed(s, p, Unit(s, p, 1, 0, 1), PENDING, true, Refund(1),
                                                    Done(Approved), RecIdle)))
  {
    Reserves(f, s, p);
    Approves(f, s, p, RecIdle);
    var timedOut := Placed(s, p, Taken(s, p), PENDING, true, Refund(0), Done(Approved), RecIdle);
    Go(f, s, Billed(s, p), timedOut.(pc := ChargeWait), Act(ChargeTimeout), timedOut);
    var sent := Placed(s, p, Unit(s, p, 1, 0, 1), PENDING, true, RefundWait(0), Done(Approved), RecIdle);
    Go(f, s, Billed(s, p), timedOut, Act(SendRefund), sent);
    Go(f, s, Billed(s, p), sent, Act(RefundReply), sent.(pc := Refund(1)));
  }

  /** A lost charge reply fails an order that was charged: PAID implies charged, never the converse. */
  lemma LostReplyChargesFailedOrder(f: Faults, s: State, p: ProductId)
    requires f.transport && Stocks(s, p) && 0 < s.prices[p]
    ensures Reaches(f, s, With(Heard(Billed(s, p), p, [Failed]),
                               Placed(s, p, Unit(s, p, 1, 0, 1), FAILED, true, Returned, Done(Approved),
                                      RecIdle).(sent := Sent(1, 0, 1, 0))))
  {
    LostReplyRefunds(f, s, p);
    var b := Billed(s, p);
    var failed := Placed(s, p, Unit(s, p, 1, 0, 1), FAILED, true, PublishFailed, Done(Approved), RecIdle);
    Go(f, s, b, failed.(status := PENDING, pc := Refund(1)), Act(DoCommitFailed), failed);
    assert Heard(b, p, []) == b && [] + [Failed] == [Failed];
    Say(f, s, p, b, failed, Act(DoPublishFailed), failed.(pc := Returned, sent := Sent(1, 0, 1, 0)), Failed);
    HeardNext(b, p, [], Failed);
  }
}
