/**
 The Kafka consumer loop shared by the review and the notification service:
 poll, handle, commit; on an exception count the attempt and seek back, or after
 the last attempt move the message to the dead-letter queue. The process may
 crash between any two actions and restarts from the committed offsets.
 */
module ConsumerLoop {
  datatype Msg = Msg(part: nat, offset: nat)

  /** The `index`-th write of the handler of one message. */
  datatype Effect = Effect(msg: Msg, index: nat)

  /** Messages below `end` are published; `position` is what `poll` returns next. */
  datatype Partition = Partition(end: nat, committed: nat, position: nat)

  datatype Pc = Idle | Handling(m: Msg, written: nat) | Handled(m: Msg) | Failed(m: Msg) | DlqSent(m: Msg)

  /**
   `topic[p][o]` is the number of writes the handler makes for that message.
   `torn` lets a handler stop between its writes. The counters `crashed` and
   `raised` remember which message was in flight at a crash, and whose
   commit raised after its handler returned.
   */
  datatype State = State(
    max: int, torn: bool, topic: seq<seq<nat>>, parts: seq<Partition>, retries: map<Msg, nat>, pc: Pc,
    handled: seq<Msg>, effects: seq<Effect>, dlq: seq<Msg>,
    crashes: nat, crashed: multiset<Msg>, raised: multiset<Msg>)

  datatype Step =
    | Publish(p: nat) | Poll(p: nat)
    | Write | Return | Raise
    | Commit | CommitRaises(applied: bool)
    | Retry | SendDlq
    | DlqCommit | DlqCommitRaises(applied: bool)
    | Crash

  predicate InFlight(s: State) { s.pc != Idle }

  predicate Known(s: State, m: Msg) { m.part < |s.topic| && m.offset < |s.topic[m.part]| }

  /** `retry_counts.get(msg_id, 0) + 1` */
  function Attempt(s: State, m: Msg): nat { (if m in s.retries then s.retries[m] else 0) + 1 }

  predicate CanStep(s: State, st: Step) {
    match st
    case Publish(p) => p < |s.parts| && p < |s.topic| && s.parts[p].end < |s.topic[p]|
    case Poll(p) => s.pc == Idle && p < |s.parts| && s.parts[p].position < s.parts[p].end
    case Write => s.pc.Handling? && Known(s, s.pc.m) && s.pc.written < s.topic[s.pc.m.part][s.pc.m.offset]
    case Return => s.pc.Handling? && Known(s, s.pc.m) && s.pc.written == s.topic[s.pc.m.part][s.pc.m.offset]
    case Raise => s.pc.Handling? && (s.torn || s.pc.written == 0)
    case Commit => s.pc.Handled? && s.pc.m.part < |s.parts|
    case CommitRaises(_) => s.pc.Handled? && s.pc.m.part < |s.parts|
    case Retry => s.pc.Failed? && s.pc.m.part < |s.parts| && Attempt(s, s.pc.m) < s.max
    case SendDlq => s.pc.Failed? && s.max <= Attempt(s, s.pc.m)
    case DlqCommit => s.pc.DlqSent? && s.pc.m.part < |s.parts|
    case DlqCommitRaises(_) => s.pc.DlqSent? && s.pc.m.part < |s.parts|
    case Crash => s.pc.Handling? ==> s.torn || s.pc.written == 0
  }

  function Committed(s: State, m: Msg): seq<Partition>
    requires m.part < |s.parts|
  {
    s.parts[m.part := s.parts[m.part].(committed := m.offset + 1)]
  }

  function Sought(s: State, m: Msg): seq<Partition>
    requires m.part < |s.parts|
  {
    s.parts[m.part := s.parts[m.part].(position := m.offset)]
  }

  /** A new process: it knows no retries and reads on from the committed offsets. */
  function Restarted(s: State): State {
    s.(parts := seq(|s.parts|, p requires 0 <= p < |s.parts| => s.parts[p].(position := s.parts[p].committed)),
       retries := map[], pc := Idle, crashes := s.crashes + 1,
       crashed := if InFlight(s) then s.crashed + multiset{s.pc.m} else s.crashed)
  }

  function Apply(s: State, st: Step): State
    requires CanStep(s, st)
  {
    match st
    case Publish(p) => s.(parts := s.parts[p := s.parts[p].(end := s.parts[p].end + 1)])
    case Poll(p) =>
      var o := s.parts[p].position;
      s.(parts := s.parts[p := s.parts[p].(position := o + 1)], pc := Handling(Msg(p, o), 0))
    case Write => s.(pc := Handling(s.pc.m, s.pc.written + 1), effects := s.effects + [Effect(s.pc.m, s.pc.written)])
    case Return => s.(pc := Handled(s.pc.m), handled := s.handled + [s.pc.m])
    case Raise => s.(pc := Failed(s.pc.m))
    case Commit => s.(parts := Committed(s, s.pc.m), retries := s.retries - {s.pc.m}, pc := Idle)
    case CommitRaises(applied) =>
      s.(parts := if applied then Committed(s, s.pc.m) else s.parts, pc := Failed(s.pc.m), raised := s.raised + multiset{s.pc.m})
    case Retry => s.(parts := Sought(s, s.pc.m), retries := s.retries[s.pc.m := Attempt(s, s.pc.m)], pc := Idle)
    case SendDlq =>
      s.(retries := s.retries[s.pc.m := Attempt(s, s.pc.m)], dlq := s.dlq + [s.pc.m], pc := DlqSent(s.pc.m))
    case DlqCommit => s.(parts := Committed(s, s.pc.m), retries := s.retries - {s.pc.m}, pc := Idle)
    case DlqCommitRaises(applied) => Restarted(s.(parts := if applied then Committed(s, s.pc.m) else s.parts))
    case Crash => Restarted(s)
  }

  predicate Initial(s: State) {
    |s.parts| == |s.topic| && s.retries == map[] && s.pc == Idle &&
    (forall p | 0 <= p < |s.parts| :: s.parts[p].committed == 0 && s.parts[p].position == 0 && s.parts[p].end <= |s.topic[p]|) &&
    s.handled == [] && s.effects == [] && s.dlq == [] &&
    s.crashes == 0 && s.crashed == multiset{} && s.raised == multiset{}
  }

  predicate IsRun(s: State, steps: seq<Step>)
    decreases |steps|
  {
    steps == [] || (CanStep(s, steps[0]) && IsRun(Apply(s, steps[0]), steps[1..]))
  }

  function Final(s: State, steps: seq<Step>): State
    requires IsRun(s, steps)
    decreases |steps|
  {
    if steps == [] then s else Final(Apply(s, steps[0]), steps[1..])
  }

  ghost predicate Reaches(s: State, t: State) {
    exists steps: seq<Step> :: IsRun(s, steps) && Final(s, steps) == t
  }

  lemma {:induction false} RunExtends(s: State, steps: seq<Step>, st: Step)
    requires IsRun(s, steps) && CanStep(Final(s, steps), st)
    ensures IsRun(s, steps + [st]) && Final(s, steps + [st]) == Apply(Final(s, steps), st)
    decreases |steps|
  {
    if steps == [] {
      assert [] + [st] == [st];
      assert [st][1..] == [];
    } else {
      RunExtends(Apply(s, steps[0]), steps[1..], st);
      assert (steps + [st])[1..] == steps[1..] + [st];
    }
  }

  lemma ReachesStep(s: State, t: State, st: Step)
    requires Reaches(s, t) && CanStep(t, st)
    ensures Reaches(s, Apply(t, st))
  {
    var steps :| IsRun(s, steps) && Final(s, steps) == t;
    RunExtends(s, steps, st);
  }

  lemma {:induction false} ReachesAlong(s: State, t: State, steps: seq<Step>)
    requires Reaches(s, t) && IsRun(t, steps)
    ensures Reaches(s, Final(t, steps))
    decreases |steps|
  {
    if steps != [] {
      ReachesStep(s, t, steps[0]);
      ReachesAlong(s, Apply(t, steps[0]), steps[1..]);
    }
  }

  lemma ReachesTrans(s: State, t: State, u: State)
    requires Reaches(s, t) && Reaches(t, u)
    ensures Reaches(s, u)
  {
    var steps :| IsRun(t, steps) && Final(t, steps) == u;
    ReachesAlong(s, t, steps);
  }

  lemma ReachesSelf(s: State)
    ensures Reaches(s, s)
  {
    assert IsRun(s, []) && Final(s, []) == s;
  }

  // ---------------------------------------------------------------- invariant

  /** The offset being worked on, or read next. */
  function Front(s: State, p: nat): nat
    requires p < |s.parts|
  {
    if InFlight(s) && s.pc.m.part == p then s.pc.m.offset else s.parts[p].position
  }

  predicate PartInv(s: State, p: nat)
    requires p < |s.parts|
  {
    var part := s.parts[p];
    var front := Front(s, p);
    front <= part.committed <= front + 1 && part.committed <= part.end && front <= part.position <= part.end &&
    (InFlight(s) && s.pc.m.part == p ==> part.position == front + 1)
  }

  predicate ShapeInv(s: State) {
    |s.parts| == |s.topic| && (InFlight(s) ==> s.pc.m.part < |s.parts|) &&
    forall p | 0 <= p < |s.parts| :: PartInv(s, p) && s.parts[p].end <= |s.topic[p]|
  }

  /** Nothing skipped: below the committed offset every message was handled or is in the DLQ. */
  predicate NoSkipInv(s: State) {
    forall p, o | 0 <= p < |s.parts| && 0 <= o < s.parts[p].committed :: Accounted(s, Msg(p, o))
  }

  predicate Accounted(s: State, m: Msg) { m in s.handled || m in s.dlq }

  /** Nothing from beyond the message being worked on. */
  predicate Behind(s: State, m: Msg) { m.part < |s.parts| && m.offset <= Front(s, m.part) }

  predicate PastInv(s: State) {
    (forall m | m in s.handled :: Behind(s, m)) && (forall m | m in s.dlq :: Behind(s, m)) &&
    (forall e | e in s.effects :: Behind(s, e.msg)) && (s.pc.Handled? ==> s.pc.m in s.handled) &&
    (s.pc.DlqSent? ==> s.pc.m in s.dlq)
  }

  /** A count below the maximum, unless the message is in the DLQ already, of the message worked on or read next. */
  predicate Current(s: State, m: Msg)
    requires m in s.retries
  {
    m.part < |s.parts| && m.offset == Front(s, m.part) < s.parts[m.part].end &&
    1 <= s.retries[m] && (s.retries[m] < s.max || s.pc == DlqSent(m))
  }

  predicate RetryInv(s: State) { forall m | m in s.retries :: Current(s, m) }

  lemma StepKeepsPart(s: State, st: Step, p: nat)
    requires ShapeInv(s) && CanStep(s, st) && p < |s.parts|
    ensures |Apply(s, st).parts| == |s.parts| && PartInv(Apply(s, st), p) && Apply(s, st).parts[p].end <= |s.topic[p]|
  {
    assert PartInv(s, p);
  }

  lemma StepKeepsShape(s: State, st: Step)
    requires ShapeInv(s) && CanStep(s, st)
    ensures ShapeInv(Apply(s, st))
  {
    forall p | 0 <= p < |s.parts| {
      StepKeepsPart(s, st, p);
    }
  }

  lemma FrontAdvances(s: State, st: Step, p: nat)
    requires ShapeInv(s) && CanStep(s, st) && p < |s.parts|
    ensures Front(s, p) <= Front(Apply(s, st), p)
  {
  }

  lemma StepKeepsPast(s: State, st: Step)
    requires ShapeInv(s) && PastInv(s) && CanStep(s, st)
    ensures PastInv(Apply(s, st))
  {
    var s' := Apply(s, st);
    forall m | Behind(s, m) ensures Behind(s', m) {
      FrontAdvances(s, st, m.part);
    }
    forall e | e in s'.effects ensures Behind(s', e.msg) {
      if e in s.effects {
        assert Behind(s, e.msg);
      }
    }
  }

  lemma StepKeepsNoSkip(s: State, st: Step)
    requires ShapeInv(s) && PastInv(s) && NoSkipInv(s) && CanStep(s, st)
    ensures NoSkipInv(Apply(s, st))
  {
  }

  lemma StepKeepsCurrent(s: State, st: Step, m: Msg)
    requires ShapeInv(s) && CanStep(s, st) && m in Apply(s, st).retries && (m in s.retries ==> Current(s, m))
    ensures Current(Apply(s, st), m)
  {
    assert m.part < |s.parts| ==> PartInv(s, m.part);
  }

  lemma StepKeepsRetries(s: State, st: Step)
    requires ShapeInv(s) && RetryInv(s) && CanStep(s, st)
    ensures RetryInv(Apply(s, st))
  {
    forall m | m in Apply(s, st).retries ensures Current(Apply(s, st), m) {
      StepKeepsCurrent(s, st, m);
    }
  }

  // ------------------------------------------------------- order and repeats

  predicate MsgsInOrder(ms: seq<Msg>) {
    forall i, j | 0 <= i < j < |ms| && ms[i].part == ms[j].part :: ms[i].offset <= ms[j].offset
  }

  predicate EffectsInOrder(es: seq<Effect>) {
    forall i, j | 0 <= i < j < |es| && es[i].msg.part == es[j].msg.part :: es[i].msg.offset <= es[j].msg.offset
  }

  predicate OrderInv(s: State) { MsgsInOrder(s.handled) && EffectsInOrder(s.effects) }

  lemma StepKeepsOrder(s: State, st: Step)
    requires ShapeInv(s) && PastInv(s) && OrderInv(s) && CanStep(s, st)
    ensures OrderInv(Apply(s, st))
  {
    var s' := Apply(s, st);
    if st.Return? {
      forall i | 0 <= i < |s.handled| && s.handled[i].part == s.pc.m.part ensures s.handled[i].offset <= s.pc.m.offset {
        assert s.handled[i] in s.handled && Behind(s, s.handled[i]);
      }
    }
    if st.Write? {
      forall i | 0 <= i < |s.effects| && s.effects[i].msg.part == s.pc.m.part
        ensures s.effects[i].msg.offset <= s.pc.m.offset
      {
        assert s.effects[i] in s.effects && Behind(s, s.effects[i].msg);
      }
    }
  }

  predicate AtFront(s: State, m: Msg) { m.part < |s.parts| && m.offset == Front(s, m.part) }

  /** Every return beyond a message's first is paid for by a crash or a raised commit while it was in flight. */
  predicate ReturnsPaid(s: State, m: Msg) {
    multiset(s.handled)[m] <=
    s.crashed[m] + s.raised[m] + if AtFront(s, m) && s.pc != Handled(m) then 0 else 1
  }

  /** Every DLQ entry beyond a message's first is paid for by a crash while it was in flight. */
  predicate DlqPaid(s: State, m: Msg) {
    multiset(s.dlq)[m] <= s.crashed[m] + if AtFront(s, m) && s.pc != DlqSent(m) then 0 else 1
  }

  ghost predicate CountInv(s: State) {
    |s.crashed| <= s.crashes && (forall m :: ReturnsPaid(s, m)) && forall m :: DlqPaid(s, m)
  }

  lemma ReturnStaysPaid(s: State, st: Step, m: Msg)
    requires ShapeInv(s) && PastInv(s) && ReturnsPaid(s, m) && CanStep(s, st)
    ensures ReturnsPaid(Apply(s, st), m)
  {
    var s' := Apply(s, st);
    if m.part < |s.parts| {
      assert PartInv(s, m.part);
      FrontAdvances(s, st, m.part);
      if AtFront(s', m) && !AtFront(s, m) {
        assert !Behind(s, m);
        assert multiset(s.handled)[m] == 0;
      }
    }
  }

  lemma DlqStaysPaid(s: State, st: Step, m: Msg)
    requires ShapeInv(s) && PastInv(s) && DlqPaid(s, m) && CanStep(s, st)
    ensures DlqPaid(Apply(s, st), m)
  {
    var s' := Apply(s, st);
    if m.part < |s.parts| {
      assert PartInv(s, m.part);
      FrontAdvances(s, st, m.part);
      if AtFront(s', m) && !AtFront(s, m) {
        assert !Behind(s, m);
        assert multiset(s.dlq)[m] == 0;
      }
    }
  }

  lemma StepKeepsCounts(s: State, st: Step)
    requires ShapeInv(s) && PastInv(s) && CountInv(s) && CanStep(s, st)
    ensures CountInv(Apply(s, st))
  {
    forall m ensures ReturnsPaid(Apply(s, st), m) && DlqPaid(Apply(s, st), m) {
      ReturnStaysPaid(s, st, m);
      DlqStaysPaid(s, st, m);
    }
  }

  // ------------------------------------------------------------ handler writes

  function Width(topic: seq<seq<nat>>, m: Msg): nat {
    if m.part < |topic| && m.offset < |topic[m.part]| then topic[m.part][m.offset] else 0
  }

  /** The first `n` writes of a message's handler. */
  function Writes(m: Msg, n: nat): (es: seq<Effect>)
    ensures |es| == n && forall i | 0 <= i < n :: es[i] == Effect(m, i)
  {
    if n == 0 then [] else Writes(m, n - 1) + [Effect(m, n - 1)]
  }

  // ------------------------------------------------------------------- theorems

  ghost predicate Inv(s: State) {
    ShapeInv(s) && PastInv(s) && NoSkipInv(s) && RetryInv(s) && OrderInv(s) && CountInv(s)
  }

  predicate SameSettings(s: State, t: State) { t.max == s.max && t.torn == s.torn && t.topic == s.topic }

  lemma StepKeepsInv(s: State, st: Step)
    requires Inv(s) && CanStep(s, st)
    ensures Inv(Apply(s, st))
  {
    StepKeepsShape(s, st);
    StepKeepsPast(s, st);
    StepKeepsNoSkip(s, st);
    StepKeepsRetries(s, st);
    StepKeepsOrder(s, st);
    StepKeepsCounts(s, st);
  }

  lemma {:induction false} RunKeepsInv(s: State, steps: seq<Step>)
    requires Inv(s) && IsRun(s, steps)
    ensures Inv(Final(s, steps)) && SameSettings(s, Final(s, steps))
    decreases |steps|
  {
    if steps != [] {
      StepKeepsInv(s, steps[0]);
      RunKeepsInv(Apply(s, steps[0]), steps[1..]);
    }
  }

  lemma InitialInv(s: State)
    requires Initial(s)
    ensures Inv(s)
  {
  }

  lemma ReachableInv(s: State, t: State)
    requires Initial(s) && Reaches(s, t)
    ensures Inv(t) && SameSettings(s, t)
  {
    var steps :| IsRun(s, steps) && Final(s, steps) == t;
    InitialInv(s);
    RunKeepsInv(s, steps);
  }

  /** No message is skipped, whatever crashes: each one below the committed offset was handled or is in the DLQ. */
  lemma NothingSkipped(s: State, t: State, m: Msg)
    requires Initial(s) && Reaches(s, t) && m.part < |t.parts| && m.offset < t.parts[m.part].committed
    ensures m in t.handled || m in t.dlq
  {
    ReachableInv(s, t);
    assert Accounted(t, m);
  }

  /** At the loop head a retry count belongs to the next message of its partition and is below the maximum. */
  lemma RetryCountsAreCurrent(s: State, t: State, m: Msg)
    requires Initial(s) && Reaches(s, t) && t.pc == Idle && m in t.retries
    ensures m.part < |t.parts| && m.offset == t.parts[m.part].position && 1 <= t.retries[m] <= t.max - 1
  {
    ReachableInv(s, t);
  }

  /** Within a partition messages are handled, and their writes made, in log order, whatever is redelivered. */
  lemma PartitionOrderKept(s: State, t: State)
    requires Initial(s) && Reaches(s, t)
    ensures MsgsInOrder(t.handled) && EffectsInOrder(t.effects)
  {
    ReachableInv(s, t);
  }

  lemma CountOfSet(ms: set<Msg>)
    ensures |multiset(ms)| == |ms|
  {
  }

  lemma BoundedByUnion(a: multiset<Msg>, b: multiset<Msg>)
    requires forall m :: a[m] <= b[m]
    ensures |a| <= |b|
  {
    assert b == a + (b - a);
  }

  /** Handler returns exceed distinct messages by at most the crashes and the raised commits. */
  lemma DuplicateBound(s: State, t: State)
    requires Initial(s) && Reaches(s, t)
    ensures |t.handled| <= |set m | m in t.handled| + t.crashes + |t.raised|
  {
    ReachableInv(s, t);
    var distinct := set m | m in t.handled;
    var bound := multiset(distinct) + t.crashed + t.raised;
    forall m ensures multiset(t.handled)[m] <= bound[m] {
      assert ReturnsPaid(t, m);
      assert m in t.handled <==> m in distinct;
      assert m !in t.handled ==> multiset(t.handled)[m] == 0;
    }
    BoundedByUnion(multiset(t.handled), bound);
    CountOfSet(distinct);
  }

  /** One message reaches the DLQ at most once, and once more for each crash. */
  lemma DlqBound(s: State, t: State, m: Msg)
    requires Initial(s) && Reaches(s, t)
    ensures multiset(t.dlq)[m] <= 1 + t.crashes
  {
    ReachableInv(s, t);
    assert DlqPaid(t, m);
    BoundedByUnion(multiset{}[m := t.crashed[m]], t.crashed);
  }

  // ------------------------------------------------------------ failed attempts

  /** The step is an exception out of the message's handler or out of the commit after it. */
  predicate Fails(s: State, st: Step, m: Msg) { (st.Raise? || st.CommitRaises?) && InFlight(s) && s.pc.m == m }

  /** How often a message failed in the course of a run. */
  function Failures(s: State, steps: seq<Step>, m: Msg): nat
    requires IsRun(s, steps)
    decreases |steps|
  {
    if steps == [] then 0 else (if Fails(s, steps[0], m) then 1 else 0) + Failures(Apply(s, steps[0]), steps[1..], m)
  }

  /** With f failures so far: no more are counted, and the message is in the DLQ only after as many as it takes. */
  predicate FailInv(s: State, m: Msg, f: nat) {
    (if m in s.retries then s.retries[m] else 0) + (if s.pc == Failed(m) then 1 else 0) <= f &&
    (m in s.dlq ==> 1 <= f && s.max <= f)
  }

  lemma StepKeepsFail(s: State, st: Step, m: Msg, f: nat)
    requires FailInv(s, m, f) && CanStep(s, st)
    ensures FailInv(Apply(s, st), m, if Fails(s, st, m) then f + 1 else f) && Apply(s, st).max == s.max
  {
  }

  lemma {:induction false} RunKeepsFail(s: State, steps: seq<Step>, m: Msg, f: nat)
    requires FailInv(s, m, f) && IsRun(s, steps)
    ensures FailInv(Final(s, steps), m, f + Failures(s, steps, m)) && Final(s, steps).max == s.max
    decreases |steps|
  {
    if steps != [] {
      StepKeepsFail(s, steps[0], m, f);
      RunKeepsFail(Apply(s, steps[0]), steps[1..], m, if Fails(s, steps[0], m) then f + 1 else f);
    }
  }

  /** No message is given up early: one in the DLQ failed at least once, and at least as often as the maximum says. */
  lemma DlqOnlyAfterMax(s: State, steps: seq<Step>, m: Msg)
    requires Initial(s) && IsRun(s, steps) && m in Final(s, steps).dlq
    ensures 1 <= Failures(s, steps, m) && s.max <= Failures(s, steps, m)
  {
    RunKeepsFail(s, steps, m, 0);
  }
}
