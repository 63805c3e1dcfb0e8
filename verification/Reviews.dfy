/**
 Reviews by verified purchasers. `create_review` is three database commands,
 interleaved with other calls and with the consumer's upserts, which come from
 the delivery events on the order topic in any number and any order.
 */
module Reviews {
  import opened Eligibility
  import Saga
  import SagaVerdicts
  import SagaConditions

  type Topic = seq<Saga.Event>

  /** The order a review names: the caller's, or failing that the eligible one. */
  datatype Named = Unnamed | Names(order: nat)
  datatype Review = Review(key: Key, order: nat)

  datatype Call =
    | Arrived(key: Key, named: Named)
    | Eligible(key: Key, order: nat) | Inserted(review: Review)
    | Accepted(review: Review) | NotEligible | Crashed

  /**
   `overlap` lets two calls for one pair run at the same time, `crash` lets a
   call die between its insert and its update.
   */
  datatype State = State(
    overlap: bool, crash: bool, topic: Topic, entries: Entries, reviews: seq<Review>, calls: seq<Call>)

  datatype Step =
    | Receive(e: nat, i: nat, at: int)
    | Arrive(key: Key, named: Named) | Find(c: nat) | Insert(c: nat) | Mark(c: nat) | Crash(c: nat)

  predicate Busy(call: Call, k: Key) {
    (call.Eligible? && call.key == k) || (call.Inserted? && call.review.key == k)
  }

  predicate CanStep(s: State, st: Step) {
    match st
    case Receive(e, i, _) => e < |s.topic| && s.topic[e].kind == Saga.Delivered && i < |s.topic[e].products|
    case Arrive(_, _) => true
    case Find(c) =>
      c < |s.calls| && s.calls[c].Arrived? &&
      (s.overlap || forall d | 0 <= d < |s.calls| :: !Busy(s.calls[d], s.calls[c].key))
    case Insert(c) => c < |s.calls| && s.calls[c].Eligible?
    case Mark(c) => c < |s.calls| && s.calls[c].Inserted?
    case Crash(c) => c < |s.calls| && (s.calls[c].Inserted? ==> s.crash)
  }

  function FoundBy(entries: Entries, key: Key, named: Named): Call {
    if key in entries && !entries[key].reviewed
    then Eligible(key, if named.Names? then named.order else entries[key].stamp.order)
    else NotEligible
  }

  function Marked(entries: Entries, k: Key): Entries {
    if k in entries then entries[k := entries[k].(reviewed := true)] else entries
  }

  function Apply(s: State, st: Step): State
    requires CanStep(s, st)
  {
    match st
    case Receive(e, i, at) =>
      var event := s.topic[e];
      s.(entries := Upserted(s.entries, Upsert(Key(event.user, event.products[i]), Stamp(event.order, at))))
    case Arrive(k, named) => s.(calls := s.calls + [Arrived(k, named)])
    case Find(c) => s.(calls := s.calls[c := FoundBy(s.entries, s.calls[c].key, s.calls[c].named)])
    case Insert(c) =>
      var review := Review(s.calls[c].key, s.calls[c].order);
      s.(reviews := s.reviews + [review], calls := s.calls[c := Inserted(review)])
    case Mark(c) =>
      var review := s.calls[c].review;
      s.(entries := Marked(s.entries, review.key), calls := s.calls[c := Accepted(review)])
    case Crash(c) => s.(calls := s.calls[c := Crashed])
  }

  predicate Initial(s: State) { s.entries == map[] && s.reviews == [] && s.calls == [] }

  predicate IsRun(s: State, steps: seq<Step>)
    decreases |steps|
  {
    steps == [] || (CanStep(s, steps[0]) && IsRun(Apply(s, steps[0]), steps[1..]))
  }

  function Final(s: State, steps: seq<Step>): State
    requires IsRun(s, steps)
    decreases |steps|
  {
    if steps == [] then s else Final(Apply(s, steps[0]), steps[1..])
  }

  // --------------------------------------------------------------- provenance

  predicate Tells(e: Saga.Event, k: Key) { e.kind == Saga.Delivered && e.user == k.user && k.product in e.products }

  /** A delivery event on the topic names the user and the product. */
  predicate Backed(topic: Topic, k: Key) { exists e :: 0 <= e < |topic| && Tells(topic[e], k) }

  predicate ProvenInv(s: State) {
    (forall k | k in s.entries :: Backed(s.topic, k)) &&
    (forall c | 0 <= c < |s.calls| :: s.calls[c].Eligible? ==> Backed(s.topic, s.calls[c].key)) &&
    (forall r | 0 <= r < |s.reviews| :: Backed(s.topic, s.reviews[r].key))
  }

  lemma StepKeepsProven(s: State, st: Step)
    requires ProvenInv(s) && CanStep(s, st)
    ensures ProvenInv(Apply(s, st)) && Apply(s, st).topic == s.topic
  {
  }

  lemma {:induction false} RunKeepsProven(s: State, steps: seq<Step>)
    requires ProvenInv(s) && IsRun(s, steps)
    ensures ProvenInv(Final(s, steps)) && Final(s, steps).topic == s.topic
    decreases |steps|
  {
    if steps != [] {
      StepKeepsProven(s, steps[0]);
      RunKeepsProven(Apply(s, steps[0]), steps[1..]);
    }
  }

  /** A paid and delivered order of the user, with a line for the product. */
  predicate Bought(o: Saga.Order, k: Key) {
    o.status == Saga.PAID && o.delivered && o.user == k.user &&
    exists j :: 0 <= j < |o.lines| && o.lines[j].product == k.product
  }

  predicate Purchased(orders: seq<Saga.Order>, k: Key) {
    exists o :: 0 <= o < |orders| && Bought(orders[o], k)
  }

  /**
   Only verified purchasers: in any run of the shop without a live sweep, and
   any run of the review service over its topic, a review's user has a paid and
   delivered order that contains the reviewed product.
   */
  lemma ReviewsAreVerified(f: Saga.Faults, shop: Saga.State, sales: seq<Saga.Step>, s: State, steps: seq<Step>, r: nat)
    requires !f.liveSweep && Saga.Initial(shop) && Saga.IsRun(f, shop, sales)
    requires Initial(s) && s.topic == Saga.Final(f, shop, sales).log && IsRun(s, steps) && r < |Final(s, steps).reviews|
    ensures Purchased(Saga.Final(f, shop, sales).orders, Final(s, steps).reviews[r].key)
  {
    RunKeepsProven(s, steps);
    var k := Final(s, steps).reviews[r].key;
    assert Backed(s.topic, k);
    var e :| 0 <= e < |s.topic| && Tells(s.topic[e], k);
    ToldIsBought(f, shop, sales, e, k);
  }

  /** The order a delivery event tells of was bought. */
  lemma ToldIsBought(f: Saga.Faults, shop: Saga.State, sales: seq<Saga.Step>, e: nat, k: Key)
    requires !f.liveSweep && Saga.Initial(shop) && Saga.IsRun(f, shop, sales)
    requires e < |Saga.Final(f, shop, sales).log| && Tells(Saga.Final(f, shop, sales).log[e], k)
    ensures var u := Saga.Final(f, shop, sales);
            u.log[e].order < |u.orders| && Bought(u.orders[u.log[e].order], k)
  {
    SagaVerdicts.DeliveryEventsAreTrue(f, shop, sales, e);
    var u := Saga.Final(f, shop, sales);
    var j :| 0 <= j < |u.log[e].products| && u.log[e].products[j] == k.product;
    assert u.orders[u.log[e].order].lines[j].product == k.product;
  }

  // ------------------------------------------------------ the order a review names

  /** A delivery event of this very order names the user and the product. */
  predicate BackedBy(topic: Topic, k: Key, o: nat) {
    exists e :: 0 <= e < |topic| && Tells(topic[e], k) && topic[e].order == o
  }

  /** As long as no caller names an order, everything is about orders that were delivered. */
  predicate OwnInv(s: State) {
    (forall k | k in s.entries :: BackedBy(s.topic, k, s.entries[k].stamp.order)) &&
    (forall c | 0 <= c < |s.calls| :: OwnCall(s.topic, s.calls[c])) &&
    (forall r | 0 <= r < |s.reviews| :: BackedBy(s.topic, s.reviews[r].key, s.reviews[r].order))
  }

  predicate OwnCall(topic: Topic, call: Call) {
    match call
    case Arrived(_, named) => named == Unnamed
    case Eligible(k, o) => BackedBy(topic, k, o)
    case _ => true
  }

  lemma StepKeepsOwn(s: State, st: Step)
    requires OwnInv(s) && CanStep(s, st) && (st.Arrive? ==> st.named == Unnamed)
    ensures OwnInv(Apply(s, st)) && Apply(s, st).topic == s.topic
  {
    if st.Receive? {
      var k := Key(s.topic[st.e].user, s.topic[st.e].products[st.i]);
      assert Tells(s.topic[st.e], k);
    }
  }

  lemma {:induction false} RunKeepsOwn(s: State, steps: seq<Step>)
    requires OwnInv(s) && IsRun(s, steps) && forall i | 0 <= i < |steps| && steps[i].Arrive? :: steps[i].named == Unnamed
    ensures OwnInv(Final(s, steps)) && Final(s, steps).topic == s.topic
    decreases |steps|
  {
    if steps != [] {
      StepKeepsOwn(s, steps[0]);
      RunKeepsOwn(Apply(s, steps[0]), steps[1..]);
    }
  }

  /** If callers leave the order to the service, every review names an order of its user that has the product. */
  lemma ReviewsNamePurchases(f: Saga.Faults, shop: Saga.State, sales: seq<Saga.Step>, s: State, steps: seq<Step>, r: nat)
    requires !f.liveSweep && Saga.Initial(shop) && Saga.IsRun(f, shop, sales)
    requires Initial(s) && s.topic == Saga.Final(f, shop, sales).log && IsRun(s, steps) && r < |Final(s, steps).reviews|
    requires forall i | 0 <= i < |steps| && steps[i].Arrive? :: steps[i].named == Unnamed
    ensures var u := Saga.Final(f, shop, sales);
            var review := Final(s, steps).reviews[r];
            review.order < |u.orders| && Bought(u.orders[review.order], review.key)
  {
    RunKeepsOwn(s, steps);
    var review := Final(s, steps).reviews[r];
    var e :| 0 <= e < |s.topic| && Tells(s.topic[e], review.key) && s.topic[e].order == review.order;
    ToldIsBought(f, shop, sales, e, review.key);
  }

  // --------------------------------------------------------------- single use

  /** Once reviewed, a pair stays reviewed, whatever is delivered again or later. */
  lemma {:induction false} ReviewedIsFinal(s: State, steps: seq<Step>, k: Key)
    requires IsRun(s, steps) && k in s.entries && s.entries[k].reviewed
    ensures k in Final(s, steps).entries && Final(s, steps).entries[k].reviewed
    decreases |steps|
  {
    if steps != [] {
      ReviewedIsFinal(Apply(s, steps[0]), steps[1..], k);
    }
  }

  predicate HasReview(s: State, k: Key) { exists r :: 0 <= r < |s.reviews| && s.reviews[r].key == k }

  predicate MarkPending(s: State, k: Key) { exists c :: 0 <= c < |s.calls| && s.calls[c].Inserted? && s.calls[c].review.key == k }

  predicate Closed(s: State, k: Key) { (k in s.entries && s.entries[k].reviewed) || MarkPending(s, k) }

  predicate CallInv(s: State, c: nat)
    requires c < |s.calls|
  {
    match s.calls[c]
    case Eligible(k, _) => k in s.entries && !HasReview(s, k)
    case Inserted(r) => r.key in s.entries
    case _ => true
  }

  predicate Alone(calls: seq<Call>) {
    forall c, d | 0 <= c < d < |calls| :: Apart(calls[c], calls[d])
  }

  predicate Apart(a: Call, b: Call) {
    (a.Eligible? ==> !Busy(b, a.key)) && (a.Inserted? ==> !Busy(b, a.review.key))
  }

  predicate NoneTwice(reviews: seq<Review>) {
    forall q, r | 0 <= q < r < |reviews| :: reviews[q].key != reviews[r].key
  }

  predicate SingleInv(s: State) {
    !s.overlap && !s.crash && NoneTwice(s.reviews) && Alone(s.calls) &&
    (forall r | 0 <= r < |s.reviews| :: Closed(s, s.reviews[r].key)) &&
    (forall c | 0 <= c < |s.calls| :: CallInv(s, c))
  }

  lemma StepKeepsAlone(s: State, st: Step)
    requires SingleInv(s) && CanStep(s, st)
    ensures Alone(Apply(s, st).calls)
  {
  }

  lemma StepKeepsClosed(s: State, st: Step, r: nat)
    requires SingleInv(s) && CanStep(s, st) && r < |Apply(s, st).reviews|
    ensures Closed(Apply(s, st), Apply(s, st).reviews[r].key)
  {
    var s' := Apply(s, st);
    var k := s'.reviews[r].key;
    if r == |s.reviews| {
      assert s'.calls[st.c].Inserted? && s'.calls[st.c].review.key == k;
    } else {
      assert Closed(s, k);
      if MarkPending(s, k) {
        var c :| 0 <= c < |s.calls| && s.calls[c].Inserted? && s.calls[c].review.key == k;
        assert CallInv(s, c);
        if !(st.Mark? && st.c == c) {
          assert s'.calls[c] == s.calls[c];
        }
      }
    }
  }

  lemma StepKeepsCall(s: State, st: Step, c: nat)
    requires SingleInv(s) && CanStep(s, st) && c < |Apply(s, st).calls|
    ensures CallInv(Apply(s, st), c)
  {
    var s' := Apply(s, st);
    if c < |s.calls| {
      assert CallInv(s, c);
      if st.Insert? && st.c != c {
        assert if c < st.c then Apart(s.calls[c], s.calls[st.c]) else Apart(s.calls[st.c], s.calls[c]);
      }
    }
  }

  lemma StepKeepsSingle(s: State, st: Step)
    requires SingleInv(s) && CanStep(s, st)
    ensures SingleInv(Apply(s, st))
  {
    var s' := Apply(s, st);
    StepKeepsAlone(s, st);
    forall r | 0 <= r < |s'.reviews| ensures Closed(s', s'.reviews[r].key) {
      StepKeepsClosed(s, st, r);
    }
    forall c | 0 <= c < |s'.calls| ensures CallInv(s', c) {
      StepKeepsCall(s, st, c);
    }
    if st.Insert? {
      assert CallInv(s, st.c);
    }
  }

  /** One review per user and product at most, if calls for one pair neither overlap nor die half-way. */
  lemma {:induction false} OneReviewPerPair(s: State, steps: seq<Step>)
    requires SingleInv(s) && IsRun(s, steps)
    ensures NoneTwice(Final(s, steps).reviews)
    decreases |steps|
  {
    if steps != [] {
      StepKeepsSingle(s, steps[0]);
      OneReviewPerPair(Apply(s, steps[0]), steps[1..]);
    }
  }

  lemma SingleUse(s: State, steps: seq<Step>, q: nat, r: nat)
    requires Initial(s) && !s.overlap && !s.crash && IsRun(s, steps) && q < r < |Final(s, steps).reviews|
    ensures Final(s, steps).reviews[q].key != Final(s, steps).reviews[r].key
  {
    OneReviewPerPair(s, steps);
  }

  // ------------------------------------------------- exactly when a pair is reviewed twice

  ghost predicate Reaches(s: State, t: State) {
    exists steps: seq<Step> :: IsRun(s, steps) && Final(s, steps) == t
  }

  lemma {:induction false} RunExtends(s: State, steps: seq<Step>, st: Step)
    requires IsRun(s, steps) && CanStep(Final(s, steps), st)
    ensures IsRun(s, steps + [st]) && Final(s, steps + [st]) == Apply(Final(s, steps), st)
    decreases |steps|
  {
    if steps == [] {
      assert [] + [st] == [st] && [st][1..] == [];
    } else {
      RunExtends(Apply(s, steps[0]), steps[1..], st);
      assert (steps + [st])[1..] == steps[1..] + [st];
    }
  }

  lemma Goes(s: State, t: State, st: Step, u: State)
    requires Reaches(s, t) && CanStep(t, st) && Apply(t, st) == u
    ensures Reaches(s, u)
  {
    var steps :| IsRun(s, steps) && Final(s, steps) == t;
    RunExtends(s, steps, st);
  }

  /** Two reviews of one pair. */
  predicate ReviewedTwice(t: State) { exists q, r :: 0 <= q < r < |t.reviews| && t.reviews[q].key == t.reviews[r].key }

  ghost predicate CanReviewTwice(s: State) { exists t: State :: Reaches(s, t) && ReviewedTwice(t) }

  /** Some product of a delivered order is on the topic. */
  predicate Deliverable(topic: Topic) {
    exists e :: 0 <= e < |topic| && topic[e].kind == Saga.Delivered && topic[e].products != []
  }

  /** The service once a delivery event arrived, with these calls and reviews. */
  function Open(s: State, k: Key, o: nat, calls: seq<Call>, reviews: seq<Review>): State {
    s.(entries := map[k := Entry(Stamp(o, 0), false)], calls := calls, reviews := reviews)
  }

  /** A pair becomes eligible, and two calls for it arrive. */
  lemma TwoCalls(s: State, e: nat, k: Key, o: nat)
    requires Initial(s) && e < |s.topic| && s.topic[e].kind == Saga.Delivered && s.topic[e].products != []
    requires k == Key(s.topic[e].user, s.topic[e].products[0]) && o == s.topic[e].order
    ensures Reaches(s, Open(s, k, o, [Arrived(k, Unnamed), Arrived(k, Unnamed)], []))
  {
    var a := Arrived(k, Unnamed);
    assert IsRun(s, []) && Final(s, []) == s;
    Goes(s, s, Receive(e, 0, 0), Open(s, k, o, [], []));
    assert [] + [a] == [a] && [a] + [a] == [a, a];
    Goes(s, Open(s, k, o, [], []), Arrive(k, Unnamed), Open(s, k, o, [a], []));
    Goes(s, Open(s, k, o, [a], []), Arrive(k, Unnamed), Open(s, k, o, [a, a], []));
  }

  /** Two calls that both find the pair unreviewed both leave a review. */
  lemma OverlapReviewsTwice(s: State, k: Key, o: nat)
    requires s.overlap && Reaches(s, Open(s, k, o, [Arrived(k, Unnamed), Arrived(k, Unnamed)], []))
    ensures Reaches(s, Open(s, k, o, [Inserted(Review(k, o)), Inserted(Review(k, o))], [Review(k, o), Review(k, o)]))
  {
    var a, e, r := Arrived(k, Unnamed), Eligible(k, o), Review(k, o);
    Goes(s, Open(s, k, o, [a, a], []), Find(0), Open(s, k, o, [e, a], []));
    Goes(s, Open(s, k, o, [e, a], []), Find(1), Open(s, k, o, [e, e], []));
    Goes(s, Open(s, k, o, [e, e], []), Insert(0), Open(s, k, o, [Inserted(r), e], [r]));
    Goes(s, Open(s, k, o, [Inserted(r), e], [r]), Insert(1), Open(s, k, o, [Inserted(r), Inserted(r)], [r, r]));
  }

  lemma FirstInserts(s: State, k: Key, o: nat)
    requires Reaches(s, Open(s, k, o, [Arrived(k, Unnamed), Arrived(k, Unnamed)], []))
    ensures Reaches(s, Open(s, k, o, [Inserted(Review(k, o)), Arrived(k, Unnamed)], [Review(k, o)]))
  {
    var a, e, r := Arrived(k, Unnamed), Eligible(k, o), Review(k, o);
    Goes(s, Open(s, k, o, [a, a], []), Find(0), Open(s, k, o, [e, a], []));
    Goes(s, Open(s, k, o, [e, a], []), Insert(0), Open(s, k, o, [Inserted(r), a], [r]));
  }

  lemma InsertCrashes(s: State, k: Key, o: nat)
    requires s.crash && Reaches(s, Open(s, k, o, [Arrived(k, Unnamed), Arrived(k, Unnamed)], []))
    ensures Reaches(s, Open(s, k, o, [Crashed, Arrived(k, Unnamed)], [Review(k, o)]))
  {
    FirstInserts(s, k, o);
    var a, r := Arrived(k, Unnamed), Review(k, o);
    Goes(s, Open(s, k, o, [Inserted(r), a], [r]), Crash(0), Open(s, k, o, [Crashed, a], [r]));
  }

  /** A call that dies between insert and update leaves the pair open. */
  lemma CrashReviewsTwice(s: State, k: Key, o: nat)
    requires s.crash && Reaches(s, Open(s, k, o, [Arrived(k, Unnamed), Arrived(k, Unnamed)], []))
    ensures Reaches(s, Open(s, k, o, [Crashed, Inserted(Review(k, o))], [Review(k, o), Review(k, o)]))
  {
    InsertCrashes(s, k, o);
    var a, e, r := Arrived(k, Unnamed), Eligible(k, o), Review(k, o);
    Goes(s, Open(s, k, o, [Crashed, a], [r]), Find(1), Open(s, k, o, [Crashed, e], [r]));
    Goes(s, Open(s, k, o, [Crashed, e], [r]), Insert(1), Open(s, k, o, [Crashed, Inserted(r)], [r, r]));
  }

  lemma UnguardedReviewsTwice(s: State)
    requires Initial(s) && (s.overlap || s.crash) && Deliverable(s.topic)
    ensures CanReviewTwice(s)
  {
    var e :| 0 <= e < |s.topic| && s.topic[e].kind == Saga.Delivered && s.topic[e].products != [];
    var k, o := Key(s.topic[e].user, s.topic[e].products[0]), s.topic[e].order;
    TwoCalls(s, e, k, o);
    var calls: seq<Call>;
    if s.overlap {
      OverlapReviewsTwice(s, k, o);
      calls := [Inserted(Review(k, o)), Inserted(Review(k, o))];
    } else {
      CrashReviewsTwice(s, k, o);
      calls := [Crashed, Inserted(Review(k, o))];
    }
    var t := Open(s, k, o, calls, [Review(k, o), Review(k, o)]);
    assert t.reviews[0].key == t.reviews[1].key;
  }

  /**
   For every topic and every start: a pair can be reviewed twice if and only if
   calls for it may overlap or die between insert and update, and some product
   was delivered at all.
   */
  lemma ReviewsTwiceIffUnguarded(s: State)
    requires Initial(s)
    ensures CanReviewTwice(s) <==> (s.overlap || s.crash) && Deliverable(s.topic)
  {
    if (s.overlap || s.crash) && Deliverable(s.topic) {
      UnguardedReviewsTwice(s);
    } else {
      forall t: State | Reaches(s, t) ensures !ReviewedTwice(t) {
        var steps :| IsRun(s, steps) && Final(s, steps) == t;
        RunKeepsProven(s, steps);
        if !Deliverable(s.topic) {
          NoReviews(t);
        } else {
          OneReviewPerPair(s, steps);
        }
      }
    }
  }

  lemma NoReviews(t: State)
    requires ProvenInv(t) && !Deliverable(t.topic)
    ensures t.reviews == []
  {
    assert t.reviews != [] ==> Backed(t.topic, t.reviews[0].key);
  }

  // ------------------------------------------ exactly when a review is not a purchaser's

  /** The review service, new, over what the shop published. */
  function Over(u: Saga.State, overlap: bool, crash: bool): State { State(overlap, crash, u.log, map[], [], []) }

  ghost predicate Unverified(u: Saga.State, t: State, r: nat) {
    r < |t.reviews| && !Purchased(u.orders, t.reviews[r].key)
  }

  ghost predicate CanBeUnverified(f: Saga.Faults, shop: Saga.State, overlap: bool, crash: bool) {
    exists u: Saga.State, t: State, r: nat ::
      Saga.Reaches(f, shop, u) && Reaches(Over(u, overlap, crash), t) && Unverified(u, t, r)
  }

  lemma FalseDeliveryIsReviewed(f: Saga.Faults, shop: Saga.State, overlap: bool, crash: bool)
    requires f.liveSweep && SagaConditions.Sellable(shop)
    ensures CanBeUnverified(f, shop, overlap, crash)
  {
    var p :| p in shop.stock && SagaConditions.Offers(shop, p);
    var u := SagaConditions.FalseDelivery(f, shop, p);
    var s, k := Over(u, overlap, crash), Key("U", p);
    TwoCalls(s, 1, k, 0);
    FirstInserts(s, k, 0);
    assert Unverified(u, Open(s, k, 0, [Inserted(Review(k, 0)), Arrived(k, Unnamed)], [Review(k, 0)]), 0);
  }

  /**
   Whatever else goes wrong in the shop or in the review service, someone who
   did not buy can review if and only if reconciliation may take a saga that
   still runs.
   */
  lemma UnverifiedIffLiveSweep(f: Saga.Faults, shop: Saga.State, overlap: bool, crash: bool)
    requires SagaConditions.Sellable(shop)
    ensures CanBeUnverified(f, shop, overlap, crash) <==> f.liveSweep
  {
    if f.liveSweep {
      FalseDeliveryIsReviewed(f, shop, overlap, crash);
    } else {
      forall u: Saga.State, t: State, r: nat | Saga.Reaches(f, shop, u) && Reaches(Over(u, overlap, crash), t)
        ensures !Unverified(u, t, r)
      {
        var sales :| Saga.IsRun(f, shop, sales) && Saga.Final(f, shop, sales) == u;
        var steps :| IsRun(Over(u, overlap, crash), steps) && Final(Over(u, overlap, crash), steps) == t;
        if r < |t.reviews| {
          ReviewsAreVerified(f, shop, sales, Over(u, overlap, crash), steps, r);
        }
      }
    }
  }

  // ------------------------------------------------------------ one whole call

  /** A call arrives and looks its pair up. */
  lemma CallFinds(s: State, key: Key, named: Named)
    requires s.overlap || forall d | 0 <= d < |s.calls| :: !Busy(s.calls[d], key)
    ensures Reaches(s, s.(calls := s.calls + [FoundBy(s.entries, key, named)]))
  {
    var arrived := s.(calls := s.calls + [Arrived(key, named)]);
    assert IsRun(s, []) && Final(s, []) == s;
    Goes(s, s, Arrive(key, named), arrived);
    var found := FoundBy(s.entries, key, named);
    assert arrived.calls[|s.calls| := found] == s.calls + [found];
    Goes(s, arrived, Find(|s.calls|), s.(calls := s.calls + [found]));
  }

  /** One call, with no other of the pair in between: refused for lack of an unreviewed entry, and without a trace. */
  lemma RefusedCall(s: State, key: Key, named: Named)
    requires s.overlap || forall d | 0 <= d < |s.calls| :: !Busy(s.calls[d], key)
    requires !(key in s.entries && !s.entries[key].reviewed)
    ensures Reaches(s, s.(calls := s.calls + [NotEligible]))
  {
    CallFinds(s, key, named);
  }

  /** Or accepted: one review, of the order the caller names or else the eligible one, and the pair is closed. */
  lemma AcceptedCall(s: State, key: Key, named: Named)
    requires s.overlap || forall d | 0 <= d < |s.calls| :: !Busy(s.calls[d], key)
    requires key in s.entries && !s.entries[key].reviewed
    ensures var c := |s.calls|;
            var review := Review(key, if named.Names? then named.order else s.entries[key].stamp.order);
            Reaches(s, s.(reviews := s.reviews + [review], calls := s.calls + [Accepted(review)],
                          entries := s.entries[key := Entry(s.entries[key].stamp, true)]))
  {
    var c := |s.calls|;
    var order := if named.Names? then named.order else s.entries[key].stamp.order;
    var review := Review(key, order);
    CallFinds(s, key, named);
    var found := s.(calls := s.calls + [Eligible(key, order)]);
    var inserted := found.(reviews := s.reviews + [review], calls := s.calls + [Inserted(review)]);
    assert found.calls[c := Inserted(review)] == inserted.calls;
    Goes(s, found, Insert(c), inserted);
    assert inserted.calls[c := Accepted(review)] == s.calls + [Accepted(review)];
    Goes(s, inserted, Mark(c), inserted.(calls := s.calls + [Accepted(review)],
                                         entries := s.entries[key := Entry(s.entries[key].stamp, true)]));
  }

  class ReviewService {
    var entries: Entries
    var reviews: seq<Review>

    /** `create_review`, undisturbed: the next call for the same pair will find it reviewed. */
    method CreateReview(key: Key, named: Named) returns (reply: Call)
      modifies this
      ensures reply.Accepted? <==> key in old(entries) && !old(entries)[key].reviewed
      ensures reply.Accepted? ==>
                reply.review == Review(key, if named.Names? then named.order else old(entries)[key].stamp.order) &&
                reviews == old(reviews) + [reply.review] &&
                entries == old(entries)[key := Entry(old(entries)[key].stamp, true)]
      ensures !reply.Accepted? ==> reply == NotEligible && reviews == old(reviews) && entries == old(entries)
    {
      if key !in entries || entries[key].reviewed {
        return NotEligible;
      }
      var order := if named.Names? then named.order else entries[key].stamp.order;
      var review := Review(key, order);
      reviews := reviews + [review];
      entries := entries[key := entries[key].(reviewed := true)];
      reply := Accepted(review);
    }
  }
}
