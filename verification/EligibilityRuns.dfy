/**
 At-least-once delivery seen through the eligibility collection: over any run
 of the consumer it is as if each write, and if every attempt that stopped
 half-way was made good later, each message, had arrived exactly once and in log
 order.
 */
module EligibilityRuns {
  import opened Sums
  import opened ConsumerLoop
  import opened Eligibility

  /** The events behind the messages; the topic gives the number of upserts of each. */
  ghost predicate Carries(topic: seq<seq<nat>>, log: Msg -> Event) {
    forall m: Msg :: |Upserts(log(m))| == Width(topic, m)
  }

  function OfMsg(log: Msg -> Event): Msg -> seq<Upsert> { (m: Msg) => Upserts(log(m)) }

  function OfEffect(log: Msg -> Event): Effect -> seq<Upsert> {
    (e: Effect) => var us := Upserts(log(e.msg)); if e.index < |us| then [us[e.index]] else []
  }

  predicate InLogOrder(ms: seq<Msg>) {
    forall i, j | 0 <= i < j < |ms| && ms[i].part == ms[j].part :: ms[i].offset < ms[j].offset
  }

  lemma LastOnlyMsgsInOrder(ms: seq<Msg>)
    requires MsgsInOrder(ms)
    ensures InLogOrder(LastOnly(ms))
  {
    var r := (a: Msg, b: Msg) => a.part == b.part ==> a.offset <= b.offset;
    LastOnlyPairwise(r, ms);
    var ys := LastOnly(ms);
    forall i, j | 0 <= i < j < |ys| && ys[i].part == ys[j].part ensures ys[i].offset < ys[j].offset {
      assert r(ys[i], ys[j]);
    }
  }

  lemma LastOnlyEffectsInOrder(es: seq<Effect>)
    requires EffectsInOrder(es)
    ensures EffectsInOrder(LastOnly(es))
  {
    var r := (a: Effect, b: Effect) => a.msg.part == b.msg.part ==> a.msg.offset <= b.msg.offset;
    LastOnlyPairwise(r, es);
    var ys := LastOnly(es);
    forall i, j | 0 <= i < j < |ys| && ys[i].msg.part == ys[j].msg.part ensures ys[i].msg.offset <= ys[j].msg.offset {
      assert r(ys[i], ys[j]);
    }
  }

  lemma {:induction false} FlatAppend<T>(w: T -> seq<Upsert>, xs: seq<T>, ys: seq<T>)
    ensures Flat(w, xs + ys) == Flat(w, xs) + Flat(w, ys)
    decreases |xs|
  {
    if xs == [] {
      assert xs + ys == ys;
    } else {
      assert (xs + ys)[1..] == xs[1..] + ys;
      FlatAppend(w, xs[1..], ys);
    }
  }

  lemma FlatOne<T>(w: T -> seq<Upsert>, x: T)
    ensures Flat(w, [x]) == w(x)
  {
  }

  lemma {:induction false} WritesAreUpserts(log: Msg -> Event, m: Msg, n: nat)
    requires n <= |Upserts(log(m))|
    ensures Flat(OfEffect(log), Writes(m, n)) == Upserts(log(m))[..n]
  {
    if n != 0 {
      WritesAreUpserts(log, m, n - 1);
      FlatAppend(OfEffect(log), Writes(m, n - 1), [Effect(m, n - 1)]);
      FlatOne(OfEffect(log), Effect(m, n - 1));
    }
  }

  /** The collection a run of the consumer leaves, if it found `c`. */
  function Collected(c: Entries, log: Msg -> Event, t: State): Entries { Folded(c, Flat(OfEffect(log), t.effects)) }

  /**
   Whatever crashed, failed half-way or was redelivered, the collection is what
   the writes leave when each of them is made once, in an order that follows
   the log of every partition.
   */
  lemma WritesAsIfOnce(s: State, t: State, log: Msg -> Event, c: Entries)
    requires Initial(s) && Reaches(s, t)
    ensures var once := LastOnly(t.effects);
            Collected(c, log, t) == Folded(c, Flat(OfEffect(log), once)) && EffectsInOrder(once) &&
            (forall e :: e in once <==> e in t.effects) && forall i, j | 0 <= i < j < |once| :: once[i] != once[j]
  {
    ReachableInv(s, t);
    RedeliveriesAbsorbed(c, OfEffect(log), t.effects);
    LastOnlyEffectsInOrder(t.effects);
  }

  // ---------------------------------------------------------------- attempts

  /** One call of the handler: how many of its writes it made, and whether it returned. */
  datatype Attempt = Attempt(m: Msg, writes: nat, done: bool)

  /** The attempts made so far, after one more step. */
  function AttemptsAfter(s: State, tries: seq<Attempt>, st: Step): seq<Attempt>
    requires CanStep(s, st)
  {
    var n := |tries|;
    if st.Poll? then tries + [Attempt(Msg(st.p, s.parts[st.p].position), 0, false)]
    else if n == 0 then tries
    else if st.Write? then tries[..n - 1] + [tries[n - 1].(writes := tries[n - 1].writes + 1)]
    else if st.Return? then tries[..n - 1] + [tries[n - 1].(done := true)]
    else tries
  }

  /** The attempts of a run that continues after `tries`. */
  function AttemptsOf(s: State, steps: seq<Step>, tries: seq<Attempt>): seq<Attempt>
    requires IsRun(s, steps)
    decreases |steps|
  {
    if steps == [] then tries else AttemptsOf(Apply(s, steps[0]), steps[1..], AttemptsAfter(s, tries, steps[0]))
  }

  function AttemptWrites(tries: seq<Attempt>): seq<Effect> {
    if tries == [] then [] else Writes(tries[0].m, tries[0].writes) + AttemptWrites(tries[1..])
  }

  function Returned(tries: seq<Attempt>): seq<Msg> {
    if tries == [] then [] else (if tries[0].done then [tries[0].m] else []) + Returned(tries[1..])
  }

  lemma {:induction false} WritesAppend(xs: seq<Attempt>, a: Attempt)
    ensures AttemptWrites(xs + [a]) == AttemptWrites(xs) + Writes(a.m, a.writes)
    decreases |xs|
  {
    if xs == [] {
      assert [] + [a] == [a] && [a][1..] == [];
    } else {
      assert (xs + [a])[1..] == xs[1..] + [a];
      WritesAppend(xs[1..], a);
      Associates(Writes(xs[0].m, xs[0].writes), AttemptWrites(xs[1..]), Writes(a.m, a.writes));
    }
  }

  lemma {:induction false} ReturnedAppend(xs: seq<Attempt>, a: Attempt)
    ensures Returned(xs + [a]) == Returned(xs) + if a.done then [a.m] else []
    decreases |xs|
  {
    if xs == [] {
      assert [] + [a] == [a] && [a][1..] == [];
    } else {
      assert (xs + [a])[1..] == xs[1..] + [a] && (xs + [a])[0] == xs[0];
      ReturnedAppend(xs[1..], a);
      Associates(if xs[0].done then [xs[0].m] else [], Returned(xs[1..]), if a.done then [a.m] else []);
    }
  }

  lemma AttemptsAppend(xs: seq<Attempt>, a: Attempt)
    ensures AttemptWrites(xs + [a]) == AttemptWrites(xs) + Writes(a.m, a.writes)
    ensures Returned(xs + [a]) == Returned(xs) + if a.done then [a.m] else []
  {
    WritesAppend(xs, a);
    ReturnedAppend(xs, a);
  }

  predicate Sound(topic: seq<seq<nat>>, a: Attempt) {
    a.writes <= Width(topic, a.m) && (a.done ==> a.writes == Width(topic, a.m))
  }

  /** A run's writes and returns are those of its attempts, the last of which is the one under way. */
  predicate Attempted(s: State, tries: seq<Attempt>) {
    s.effects == AttemptWrites(tries) && s.handled == Returned(tries) &&
    (forall i | 0 <= i < |tries| :: Sound(s.topic, tries[i])) &&
    (s.pc.Handling? ==> tries != [] && tries[|tries| - 1] == Attempt(s.pc.m, s.pc.written, false))
  }

  lemma PollAttempts(s: State, tries: seq<Attempt>, p: nat)
    requires Attempted(s, tries) && CanStep(s, Poll(p))
    ensures Attempted(Apply(s, Poll(p)), AttemptsAfter(s, tries, Poll(p)))
  {
    AttemptsAppend(tries, Attempt(Msg(p, s.parts[p].position), 0, false));
  }

  lemma WriteAttempts(s: State, tries: seq<Attempt>, st: Step)
    requires Attempted(s, tries) && CanStep(s, st) && (st.Write? || st.Return?)
    ensures Attempted(Apply(s, st), AttemptsAfter(s, tries, st))
  {
    var n := |tries| - 1;
    var last := tries[n];
    assert tries == tries[..n] + [last];
    AttemptsAppend(tries[..n], last);
    AttemptsAppend(tries[..n], AttemptsAfter(s, tries, st)[n]);
    Associates(AttemptWrites(tries[..n]), Writes(last.m, last.writes), [Effect(last.m, last.writes)]);
  }

  lemma {:induction false} RunAttempts(s: State, steps: seq<Step>, tries: seq<Attempt>)
    requires IsRun(s, steps) && Attempted(s, tries)
    ensures Attempted(Final(s, steps), AttemptsOf(s, steps, tries)) && Final(s, steps).topic == s.topic
    decreases |steps|
  {
    if steps != [] {
      var st := steps[0];
      if st.Poll? {
        PollAttempts(s, tries, st.p);
      } else if st.Write? || st.Return? {
        WriteAttempts(s, tries, st);
      }
      RunAttempts(Apply(s, st), steps[1..], AttemptsAfter(s, tries, st));
    }
  }

  // ------------------------------------------------------------ exactly once

  /** Every attempt that wrote something returned, or a later attempt at its message did. */
  predicate Redone(tries: seq<Attempt>) {
    forall i | 0 <= i < |tries| && 0 < tries[i].writes :: tries[i].done || LaterDone(tries, i)
  }

  predicate LaterDone(tries: seq<Attempt>, i: nat)
    requires i < |tries|
  {
    exists j :: i < j < |tries| && tries[j].done && tries[j].m == tries[i].m
  }

  lemma {:induction false} ReturnedHas(tries: seq<Attempt>, j: nat)
    requires j < |tries| && tries[j].done
    ensures tries[j].m in Returned(tries)
    decreases |tries|
  {
    if j != 0 {
      ReturnedHas(tries[1..], j - 1);
    }
  }

  lemma RedoneTail(tries: seq<Attempt>)
    requires tries != [] && Redone(tries)
    ensures Redone(tries[1..])
  {
    forall i | 0 <= i < |tries[1..]| && 0 < tries[1..][i].writes && !tries[1..][i].done ensures LaterDone(tries[1..], i) {
      assert LaterDone(tries, i + 1);
      var j :| i + 1 < j < |tries| && tries[j].done && tries[j].m == tries[i + 1].m;
      assert tries[1..][j - 1] == tries[j];
    }
  }

  /** What the first attempt wrote is what it returned, or is overwritten later. */
  lemma FirstMadeGood(log: Msg -> Event, tries: seq<Attempt>, k: Key)
    requires tries != [] && Redone(tries)
    requires tries[0].writes <= |Upserts(log(tries[0].m))| && (tries[0].done ==> tries[0].writes == |Upserts(log(tries[0].m))|)
    requires LastIn(Flat(OfMsg(log), Returned(tries[1..])), k).None?
    ensures var a := tries[0];
            LastIn(Upserts(log(a.m))[..a.writes], k) == LastIn(if a.done then Upserts(log(a.m)) else [], k)
  {
    var a := tries[0];
    var us := Upserts(log(a.m));
    assert us[..a.writes] + us[a.writes..] == us;
    LastInAppend(us[..a.writes], us[a.writes..], k);
    if a.done {
      assert us[..a.writes] == us;
    } else if 0 < a.writes && LastIn(us[..a.writes], k).Some? {
      assert LaterDone(tries, 0);
      var j :| 0 < j < |tries| && tries[j].done && tries[j].m == a.m;
      ReturnedHas(tries[1..], j - 1);
      FlatCovers(OfMsg(log), Returned(tries[1..]), a.m, k);
    }
  }

  lemma {:induction false} SameLast(topic: seq<seq<nat>>, log: Msg -> Event, tries: seq<Attempt>, k: Key)
    requires Carries(topic, log) && Redone(tries) && forall i | 0 <= i < |tries| :: Sound(topic, tries[i])
    ensures LastIn(Flat(OfEffect(log), AttemptWrites(tries)), k) == LastIn(Flat(OfMsg(log), Returned(tries)), k)
    decreases |tries|
  {
    if tries != [] {
      var a, rest := tries[0], tries[1..];
      RedoneTail(tries);
      SameLast(topic, log, rest, k);
      assert Sound(topic, a) && |Upserts(log(a.m))| == Width(topic, a.m);
      FlatAppend(OfEffect(log), Writes(a.m, a.writes), AttemptWrites(rest));
      WritesAreUpserts(log, a.m, a.writes);
      LastInAppend(Upserts(log(a.m))[..a.writes], Flat(OfEffect(log), AttemptWrites(rest)), k);
      var own := if a.done then [a.m] else [];
      FlatAppend(OfMsg(log), own, Returned(rest));
      FlatOne(OfMsg(log), a.m);
      LastInAppend(Flat(OfMsg(log), own), Flat(OfMsg(log), Returned(rest)), k);
      if LastIn(Flat(OfMsg(log), Returned(rest)), k).None? {
        FirstMadeGood(log, tries, k);
      }
    }
  }

  /** The collection is the fold of the handled messages `ms`, each taken once, in log order per partition. */
  ghost predicate ExplainedBy(c: Entries, t: State, log: Msg -> Event, ms: seq<Msg>) {
    (forall m :: m in ms <==> m in t.handled) && (forall i, j | 0 <= i < j < |ms| :: ms[i] != ms[j]) && InLogOrder(ms) &&
    Collected(c, log, t) == Folded(c, Flat(OfMsg(log), ms))
  }

  lemma SameFold(topic: seq<seq<nat>>, log: Msg -> Event, tries: seq<Attempt>, c: Entries)
    requires Carries(topic, log) && Redone(tries) && forall i | 0 <= i < |tries| :: Sound(topic, tries[i])
    ensures Folded(c, Flat(OfEffect(log), AttemptWrites(tries))) == Folded(c, Flat(OfMsg(log), Returned(tries)))
  {
    forall k: Key
      ensures LastIn(Flat(OfEffect(log), AttemptWrites(tries)), k) == LastIn(Flat(OfMsg(log), Returned(tries)), k)
    {
      SameLast(topic, log, tries, k);
    }
    SameLastSameFold(c, Flat(OfEffect(log), AttemptWrites(tries)), Flat(OfMsg(log), Returned(tries)));
  }

  lemma MadeGoodExplained(t: State, log: Msg -> Event, c: Entries, tries: seq<Attempt>)
    requires Attempted(t, tries) && Redone(tries) && Carries(t.topic, log) && MsgsInOrder(t.handled)
    ensures ExplainedBy(c, t, log, LastOnly(t.handled))
  {
    SameFold(t.topic, log, tries, c);
    RedeliveriesAbsorbed(c, OfMsg(log), t.handled);
    LastOnlyMsgsInOrder(t.handled);
  }

  lemma RunInOrder(s: State, steps: seq<Step>)
    requires Initial(s) && IsRun(s, steps)
    ensures MsgsInOrder(Final(s, steps).handled)
  {
    InitialInv(s);
    RunKeepsInv(s, steps);
  }

  /**
   At-least-once is exactly-once, whatever raised, crashed and was redelivered:
   if every attempt that wrote something returned or was made good by a later
   attempt at its message, the collection is the fold of the handled messages,
   each taken once where it came last, which is in log order per partition.
   */
  lemma HandledAsIfOnce(s: State, steps: seq<Step>, log: Msg -> Event, c: Entries)
    requires Initial(s) && IsRun(s, steps) && Carries(s.topic, log) && Redone(AttemptsOf(s, steps, []))
    ensures ExplainedBy(c, Final(s, steps), log, LastOnly(Final(s, steps).handled))
  {
    RunAttempts(s, steps, []);
    RunInOrder(s, steps);
    MadeGoodExplained(Final(s, steps), log, c, AttemptsOf(s, steps, []));
  }

  // ------------------------------------------------- exactly when, for all runs

  /** Only the attempt under way has written and not returned. */
  predicate Unbroken(s: State, tries: seq<Attempt>) {
    forall i | 0 <= i < |tries| && 0 < tries[i].writes && !tries[i].done :: i == |tries| - 1 && s.pc.Handling?
  }

  lemma StepUnbroken(s: State, tries: seq<Attempt>, st: Step)
    requires !s.torn && Attempted(s, tries) && Unbroken(s, tries) && CanStep(s, st)
    ensures Unbroken(Apply(s, st), AttemptsAfter(s, tries, st)) && !Apply(s, st).torn
  {
  }

  lemma {:induction false} RunUnbroken(s: State, steps: seq<Step>, tries: seq<Attempt>)
    requires !s.torn && Attempted(s, tries) && Unbroken(s, tries) && IsRun(s, steps)
    ensures Unbroken(Final(s, steps), AttemptsOf(s, steps, tries))
    decreases |steps|
  {
    if steps != [] {
      var next := Apply(s, steps[0]);
      StepUnbroken(s, tries, steps[0]);
      RunAttempts(s, [steps[0]], tries);
      assert IsRun(next, []) && Final(next, []) == next && AttemptsOf(next, [], AttemptsAfter(s, tries, steps[0])) == AttemptsAfter(s, tries, steps[0]);
      assert [steps[0]][1..] == [];
      RunUnbroken(next, steps[1..], AttemptsAfter(s, tries, steps[0]));
    }
  }

  ghost predicate Explained(t: State, log: Msg -> Event) { exists ms: seq<Msg> :: ExplainedBy(map[], t, log, ms) }

  ghost predicate AlwaysExplained(s: State, log: Msg -> Event) {
    forall t: State | Reaches(s, t) && t.pc == Idle :: Explained(t, log)
  }

  ghost predicate NothingWritten(topic: seq<seq<nat>>) { forall m: Msg :: Width(topic, m) == 0 }

  lemma WholeRunsExplained(s: State, log: Msg -> Event)
    requires Initial(s) && Carries(s.topic, log) && (!s.torn || NothingWritten(s.topic))
    ensures AlwaysExplained(s, log)
  {
    forall t: State | Reaches(s, t) && t.pc == Idle ensures Explained(t, log) {
      var steps :| IsRun(s, steps) && Final(s, steps) == t;
      RunAttempts(s, steps, []);
      if !s.torn {
        RunUnbroken(s, steps, []);
      }
      HandledAsIfOnce(s, steps, log, map[]);
    }
  }

  /** Every handled message so far makes no writes, and none was made. */
  predicate Silent(t: State) { t.effects == [] && forall m | m in t.handled :: Width(t.topic, m) == 0 }

  /** At the loop head, about to read message `i` of partition `p`. */
  predicate AtMessage(s: State, t: State, p: nat, i: nat) {
    SameSettings(s, t) && |t.parts| == |s.parts| && p < |t.parts| && t.pc == Idle && t.parts[p].position == i && Silent(t)
  }

  lemma PublishesNext(s: State, t: State, p: nat, i: nat) returns (u: State)
    requires Reaches(s, t) && AtMessage(s, t, p, i) && p < |s.topic| && i < |s.topic[p]| && t.parts[p].end <= |s.topic[p]|
    requires i <= t.parts[p].end
    ensures Reaches(s, u) && AtMessage(s, u, p, i) && i < u.parts[p].end
  {
    u := t;
    if t.parts[p].end == i {
      ReachesStep(s, t, Publish(p));
      u := Apply(t, Publish(p));
    }
  }

  lemma PassesSilent(s: State, t: State, p: nat, i: nat) returns (u: State)
    requires Reaches(s, t) && AtMessage(s, t, p, i) && p < |s.topic| && i < |s.topic[p]| && i < t.parts[p].end
    requires s.topic[p][i] == 0
    ensures Reaches(s, u) && AtMessage(s, u, p, i + 1)
  {
    ReachesStep(s, t, Poll(p));
    var t1 := Apply(t, Poll(p));
    ReachesStep(s, t1, Return);
    var t2 := Apply(t1, Return);
    ReachesStep(s, t2, Commit);
    u := Apply(t2, Commit);
  }

  lemma {:induction false} SkipsTo(s: State, p: nat, i: nat) returns (t: State)
    requires Initial(s) && p < |s.topic| && i < |s.topic[p]| && forall j | 0 <= j < i :: s.topic[p][j] == 0
    ensures Reaches(s, t) && AtMessage(s, t, p, i) && i < t.parts[p].end
  {
    var u;
    if i == 0 {
      ReachesSelf(s);
      u := s;
    } else {
      var before := SkipsTo(s, p, i - 1);
      u := PassesSilent(s, before, p, i - 1);
    }
    ReachableInv(s, u);
    assert PartInv(u, p);
    t := PublishesNext(s, u, p, i);
  }

  /** A handler that dies after its first write, with nothing written before. */
  lemma DiesAfterWrite(s: State, t: State, p: nat, i: nat) returns (u: State)
    requires Reaches(s, t) && AtMessage(s, t, p, i) && s.torn && p < |s.topic| && i < |s.topic[p]| && i < t.parts[p].end
    requires 0 < s.topic[p][i]
    ensures Reaches(s, u) && u.pc == Idle && u.topic == s.topic && u.effects == [Effect(Msg(p, i), 0)]
    ensures forall m | m in u.handled :: Width(u.topic, m) == 0
  {
    ReachesStep(s, t, Poll(p));
    var t1 := Apply(t, Poll(p));
    ReachesStep(s, t1, Write);
    var t2 := Apply(t1, Write);
    ReachesStep(s, t2, Crash);
    u := Apply(t2, Crash);
  }

  lemma {:induction false} SilentFlat(log: Msg -> Event, ms: seq<Msg>)
    requires forall m | m in ms :: Upserts(log(m)) == []
    ensures Flat(OfMsg(log), ms) == []
    decreases |ms|
  {
    if ms != [] {
      SilentFlat(log, ms[1..]);
    }
  }

  lemma LoneWriteUnexplained(u: State, log: Msg -> Event, m: Msg)
    requires Carries(u.topic, log) && u.effects == [Effect(m, 0)] && 0 < Width(u.topic, m)
    requires forall x | x in u.handled :: Width(u.topic, x) == 0
    ensures !Explained(u, log)
  {
    var us := Upserts(log(m));
    FlatOne(OfEffect(log), Effect(m, 0));
    assert Folded(map[], [us[0]]) == Upserted(map[], us[0]) by { assert [us[0]][1..] == []; }
    forall ms ensures !ExplainedBy(map[], u, log, ms) {
      if forall x :: x in ms <==> x in u.handled {
        SilentFlat(log, ms);
      }
    }
  }

  /** Some known message writes, and no earlier one of its partition does. */
  lemma {:induction false} FirstWriter(topic: seq<seq<nat>>, p: nat, o: nat) returns (i: nat)
    requires p < |topic| && o < |topic[p]| && 0 < topic[p][o]
    ensures i < |topic[p]| && 0 < topic[p][i] && forall j | 0 <= j < i :: topic[p][j] == 0
  {
    if j :| 0 <= j < o && 0 < topic[p][j] {
      i := FirstWriter(topic, p, j);
    } else {
      i := o;
    }
  }

  lemma TornRunsUnexplained(s: State, log: Msg -> Event)
    requires Initial(s) && Carries(s.topic, log) && s.torn && !NothingWritten(s.topic)
    ensures !AlwaysExplained(s, log)
  {
    var m: Msg :| Width(s.topic, m) != 0;
    var i := FirstWriter(s.topic, m.part, m.offset);
    var t := SkipsTo(s, m.part, i);
    var u := DiesAfterWrite(s, t, m.part, i);
    LoneWriteUnexplained(u, log, Msg(m.part, i));
  }

  /**
   For every log and every start: whatever happens, the collection is explained
   by some order of the handled messages, if and only if handlers cannot stop
   half-way or there is nothing to write.
   */
  lemma ExplainedIffWhole(s: State, log: Msg -> Event)
    requires Initial(s) && Carries(s.topic, log)
    ensures AlwaysExplained(s, log) <==> !s.torn || NothingWritten(s.topic)
  {
    if !s.torn || NothingWritten(s.topic) {
      WholeRunsExplained(s, log);
    } else {
      TornRunsUnexplained(s, log);
    }
  }

  // ----------------------------------------------------------- a torn handler

  const First := Msg(0, 0)
  const Second := Msg(1, 0)

  /** Two orders of one user, in two partitions, with the same two products. */
  function TwoOrders(): Msg -> Event {
    (m: Msg) => if m == First then Delivered("U", 1, 1, ["A", "B"])
                else if m == Second then Delivered("U", 2, 2, ["A", "B"]) else Other
  }

  function Shelf(): State {
    State(1, true, [[2], [2]], [Partition(1, 0, 0), Partition(1, 0, 0)], map[], Idle, [], [], [], 0, multiset{}, multiset{})
  }

  lemma Goes(s: State, t: State, st: Step, u: State)
    requires Reaches(s, t) && CanStep(t, st) && Apply(t, st) == u
    ensures Reaches(s, u)
  {
    ReachesStep(s, t, st);
  }

  const W0 := [Effect(First, 0)]
  const W1 := [Effect(First, 0), Effect(First, 1)]
  const W2 := [Effect(First, 0), Effect(First, 1), Effect(Second, 0)]
  const W3 := [Effect(First, 0), Effect(First, 1), Effect(Second, 0), Effect(Second, 1)]
  const W4 := [Effect(First, 0), Effect(First, 1), Effect(Second, 0), Effect(Second, 1), Effect(First, 0)]

  lemma FirstHandledUncommitted()
    ensures Reaches(Shelf(), Shelf().(effects := W1, handled := [First], crashes := 1, crashed := multiset{First}))
  {
    var s := Shelf();
    ReachesSelf(s);
    var polled := [Partition(1, 0, 1), Partition(1, 0, 0)];
    Goes(s, s, Poll(0), s.(parts := polled, pc := Handling(First, 0)));
    Goes(s, s.(parts := polled, pc := Handling(First, 0)), Write, s.(parts := polled, pc := Handling(First, 1), effects := W0));
    Goes(s, s.(parts := polled, pc := Handling(First, 1), effects := W0), Write,
      s.(parts := polled, pc := Handling(First, 2), effects := W1));
    var h := s.(parts := polled, pc := ConsumerLoop.Handled(First), effects := W1, handled := [First]);
    Goes(s, s.(parts := polled, pc := Handling(First, 2), effects := W1), Return, h);
    Goes(s, h, Crash, s.(effects := W1, handled := [First], crashes := 1, crashed := multiset{First}));
  }

  /** The second message is being handled; `s1` is the state it was polled into. */
  lemma SecondWritten(s1: State)
    requires s1 == Shelf().(parts := [Partition(1, 0, 0), Partition(1, 0, 1)], effects := W1, handled := [First],
                            crashes := 1, crashed := multiset{First})
    ensures Reaches(Shelf(), s1.(pc := Handling(Second, 2), effects := W3))
  {
    FirstHandledUncommitted();
    var s := Shelf();
    Goes(s, s1.(parts := [Partition(1, 0, 0), Partition(1, 0, 0)]), Poll(1), s1.(pc := Handling(Second, 0)));
    Goes(s, s1.(pc := Handling(Second, 0)), Write, s1.(pc := Handling(Second, 1), effects := W2));
    Goes(s, s1.(pc := Handling(Second, 1), effects := W2), Write, s1.(pc := Handling(Second, 2), effects := W3));
  }

  lemma SecondHandled()
    ensures Reaches(Shelf(), Shelf().(parts := [Partition(1, 0, 0), Partition(1, 1, 1)], effects := W3,
              handled := [First, Second], crashes := 1, crashed := multiset{First}))
  {
    var s := Shelf();
    var s1 := s.(parts := [Partition(1, 0, 0), Partition(1, 0, 1)], effects := W1, handled := [First],
                 crashes := 1, crashed := multiset{First});
    SecondWritten(s1);
    var s2 := s1.(effects := W3, handled := [First, Second]);
    Goes(s, s1.(pc := Handling(Second, 2), effects := W3), Return, s2.(pc := ConsumerLoop.Handled(Second)));
    Goes(s, s2.(pc := ConsumerLoop.Handled(Second)), Commit, s2.(parts := [Partition(1, 0, 0), Partition(1, 1, 1)]));
  }

  function TornEnd(): State {
    Shelf().(parts := [Partition(1, 1, 1), Partition(1, 1, 1)], effects := W4,
             handled := [First, Second], dlq := [First], crashes := 1, crashed := multiset{First})
  }

  /** The first message comes again and its handler fails after one write. */
  lemma FirstFails(s2: State)
    requires s2 == TornEnd().(parts := [Partition(1, 0, 1), Partition(1, 1, 1)], dlq := [])
    ensures Reaches(Shelf(), s2.(pc := Failed(First)))
  {
    SecondHandled();
    var s := Shelf();
    var s1 := s2.(effects := W3);
    Goes(s, s1.(parts := [Partition(1, 0, 0), Partition(1, 1, 1)]), Poll(0), s1.(pc := Handling(First, 0)));
    Goes(s, s1.(pc := Handling(First, 0)), Write, s2.(pc := Handling(First, 1)));
    Goes(s, s2.(pc := Handling(First, 1)), Raise, s2.(pc := Failed(First)));
  }

  lemma FirstTorn()
    ensures Reaches(Shelf(), TornEnd())
  {
    var s2 := TornEnd().(parts := [Partition(1, 0, 1), Partition(1, 1, 1)], dlq := []);
    FirstFails(s2);
    var s3 := s2.(dlq := [First], retries := map[First := 1], pc := DlqSent(First));
    Goes(Shelf(), s2.(pc := Failed(First)), SendDlq, s3);
    Goes(Shelf(), s3, DlqCommit, TornEnd());
  }

  lemma FlatSteps(log: Msg -> Event, e: Effect, es: seq<Effect>)
    ensures Flat(OfEffect(log), [e] + es) == OfEffect(log)(e) + Flat(OfEffect(log), es)
  {
  }

  lemma TornWrites(us: seq<Upsert>)
    requires us == Flat(OfEffect(TwoOrders()), W4)
    ensures LastIn(us, Key("U", "A")) == Some(Stamp(1, 1)) && LastIn(us, Key("U", "B")) == Some(Stamp(2, 2))
  {
    var log := TwoOrders();
    var a, b := Key("U", "A"), Key("U", "B");
    var u1, u2 := Upsert(a, Stamp(1, 1)), Upsert(b, Stamp(2, 2));
    FlatAppend(OfEffect(log), W2, [Effect(Second, 1), Effect(First, 0)]);
    FlatSteps(log, Effect(Second, 1), [Effect(First, 0)]);
    FlatOne(OfEffect(log), Effect(First, 0));
    assert W4 == W2 + [Effect(Second, 1), Effect(First, 0)];
    assert [Effect(Second, 1), Effect(First, 0)] == [Effect(Second, 1)] + [Effect(First, 0)];
    assert OfEffect(log)(Effect(Second, 1)) == [u2] && OfEffect(log)(Effect(First, 0)) == [u1];
    assert us == Flat(OfEffect(log), W2) + [u2, u1];
    LastInAppend(Flat(OfEffect(log), W2), [u2, u1], a);
    LastInAppend(Flat(OfEffect(log), W2), [u2, u1], b);
    assert "A"[0] != "B"[0];
    LastOfTwo(u2, u1);
  }

  lemma LastOfTwo(u: Upsert, v: Upsert)
    requires u.key != v.key
    ensures LastIn([u, v], v.key) == Some(v.stamp) && LastIn([u, v], u.key) == Some(u.stamp)
  {
    assert [u, v][1..] == [v] && [v][1..] == [];
    assert LastIn([v], u.key) == None && LastIn([v], v.key) == Some(v.stamp);
  }

  /** Two whole messages in a row: the second has both products. */
  lemma OrderedWrites(log: Msg -> Event, first: Msg, second: Msg, stamp: Stamp)
    requires log == TwoOrders() && {first, second} == {First, Second} && stamp == if second == First then Stamp(1, 1) else Stamp(2, 2)
    ensures var c := Folded(map[], Flat(OfMsg(log), [first, second]));
            Key("U", "A") in c && Key("U", "B") in c && c[Key("U", "A")].stamp == c[Key("U", "B")].stamp == stamp
  {
    var a, b := Key("U", "A"), Key("U", "B");
    FlatAppend(OfMsg(log), [first], [second]);
    FlatOne(OfMsg(log), first);
    FlatOne(OfMsg(log), second);
    assert [first] + [second] == [first, second];
    var us := Upserts(log(second));
    assert us == [Upsert(a, stamp), Upsert(b, stamp)];
    assert "A"[0] != "B"[0];
    LastOfTwo(Upsert(a, stamp), Upsert(b, stamp));
    LastInAppend(Upserts(log(first)), us, a);
    LastInAppend(Upserts(log(first)), us, b);
    LastWriterWins(map[], Flat(OfMsg(log), [first, second]), a);
    LastWriterWins(map[], Flat(OfMsg(log), [first, second]), b);
  }

  lemma ThirdRepeats(ms: seq<Msg>)
    requires forall i | 0 <= i < |ms| :: ms[i] == First || ms[i] == Second
    ensures 2 < |ms| ==> exists i, j :: 0 <= i < j < |ms| && ms[i] == ms[j]
  {
    if 2 < |ms| {
      assert ms[0] == ms[1] || ms[0] == ms[2] || ms[1] == ms[2];
    }
  }

  lemma TwoMessages(ms: seq<Msg>)
    requires forall m :: m in ms <==> m == First || m == Second
    requires forall i, j | 0 <= i < j < |ms| :: ms[i] != ms[j]
    ensures ms == [First, Second] || ms == [Second, First]
  {
    assert First in ms && Second in ms && forall i | 0 <= i < |ms| :: ms[i] in ms;
    ThirdRepeats(ms);
  }

  /**
   Even when every message was handled: one that was not yet committed, and
   stops half-way on its second delivery, leaves a collection that no order of
   the handled messages explains.
   */
  lemma TornRedeliveryHasNoOrder()
    ensures Initial(Shelf()) && Reaches(Shelf(), TornEnd()) && TornEnd().pc == Idle && TornEnd().handled == [First, Second]
    ensures !Explained(TornEnd(), TwoOrders())
  {
    FirstTorn();
    var log := TwoOrders();
    var a, b := Key("U", "A"), Key("U", "B");
    var us := Flat(OfEffect(log), W4);
    TornWrites(us);
    LastWriterWins(map[], us, a);
    LastWriterWins(map[], us, b);
    OrderedWrites(log, First, Second, Stamp(2, 2));
    OrderedWrites(log, Second, First, Stamp(1, 1));
    forall ms ensures !ExplainedBy(map[], TornEnd(), log, ms) {
      if (forall m :: m in ms <==> m in TornEnd().handled) && forall i, j | 0 <= i < j < |ms| :: ms[i] != ms[j] {
        TwoMessages(ms);
      }
    }
  }
}
