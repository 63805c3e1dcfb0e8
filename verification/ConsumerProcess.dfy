/**
 The consumer process itself: the body of `run_consumer` as it stands, tied to
 the machine of module ConsumerLoop, and the run that drains a fixed log.
 */
module ConsumerProcess {
  import opened ConsumerLoop

  datatype CommitFate = Fine | Raises(applied: bool)

  /** Attempts a message may take: `max(1, max_processing_attempts)`. */
  function Limit(max: int): nat { if max < 1 then 1 else max }

  function RetriesOf(retries: map<Msg, nat>, m: Msg): nat { if m in retries then retries[m] else 0 }

  // ----------------------------------------------------------- drain measure

  /** Attempts partition `p` may still take. */
  function LeftIn(s: State, p: nat): int
    requires p < |s.parts|
  {
    (s.parts[p].end - s.parts[p].position) * Limit(s.max) - RetriesOf(s.retries, Msg(p, s.parts[p].position))
  }

  /** Remaining messages times the limit, less the retries already spent, over the first `n` partitions. */
  function Left(s: State, n: nat): int
    requires n <= |s.parts|
  {
    if n == 0 then 0 else Left(s, n - 1) + LeftIn(s, n - 1)
  }

  lemma TimesLimit(a: int, k: nat)
    requires 1 <= a
    ensures (a - 1) * k == a * k - k && 0 <= (a - 1) * k
  {
  }

  lemma {:induction false} LeftNonNegative(s: State, n: nat)
    requires ShapeInv(s) && RetryInv(s) && s.pc == Idle && n <= |s.parts|
    ensures 0 <= Left(s, n)
  {
    if n != 0 {
      LeftNonNegative(s, n - 1);
      assert PartInv(s, n - 1);
      var left := s.parts[n - 1].end - s.parts[n - 1].position;
      if 1 <= left {
        TimesLimit(left, Limit(s.max));
      } else {
        assert left == 0 && left * Limit(s.max) == 0;
      }
    }
  }

  /** Two states that differ at partition `p` only. */
  predicate SameBut(s: State, s': State, p: nat) {
    |s.parts| == |s'.parts| && s.max == s'.max &&
    forall q | 0 <= q < |s.parts| && q != p :: s'.parts[q] == s.parts[q] &&
      RetriesOf(s'.retries, Msg(q, s.parts[q].position)) == RetriesOf(s.retries, Msg(q, s.parts[q].position))
  }

  lemma {:induction false} LeftChanges(s: State, s': State, p: nat, n: nat)
    requires SameBut(s, s', p) && p < |s.parts| && n <= |s.parts|
    ensures Left(s', n) - Left(s, n) == if p < n then LeftIn(s', p) - LeftIn(s, p) else 0
  {
    if n != 0 {
      LeftChanges(s, s', p, n - 1);
    }
  }

  /** What one undisturbed pass of the loop over message `m` leaves behind. */
  predicate Passed(s: State, s': State, m: Msg, fails: bool)
    requires m.part < |s.parts|
  {
    var attempt := RetriesOf(s.retries, m) + 1;
    var done := s.parts[m.part].(position := m.offset + 1, committed := m.offset + 1);
    s'.pc == Idle && s'.max == s.max && s'.topic == s.topic &&
    if !fails then
      s'.parts == s.parts[m.part := done] && s'.retries == s.retries - {m} &&
      s'.handled == s.handled + [m] && s'.dlq == s.dlq
    else if attempt < s.max then
      s'.parts == s.parts && s'.retries == s.retries[m := attempt] && s'.handled == s.handled && s'.dlq == s.dlq
    else
      s'.parts == s.parts[m.part := done] && s'.retries == s.retries[m := attempt] - {m} &&
      s'.handled == s.handled && s'.dlq == s.dlq + [m]
  }

  lemma PassTouchesOne(s: State, s': State, p: nat, fails: bool)
    requires p < |s.parts| && Passed(s, s', Msg(p, s.parts[p].position), fails)
    ensures SameBut(s, s', p)
  {
  }

  lemma PassLowersPart(s: State, s': State, p: nat, fails: bool)
    requires ShapeInv(s) && RetryInv(s) && s.pc == Idle && p < |s.parts| && s.parts[p].position < s.parts[p].end
    requires Passed(s, s', Msg(p, s.parts[p].position), fails)
    ensures LeftIn(s', p) < LeftIn(s, p)
  {
    var o := s.parts[p].position;
    TimesLimit(s.parts[p].end - o, Limit(s.max));
    assert PartInv(s, p);
    if !fails || s.max <= RetriesOf(s.retries, Msg(p, o)) + 1 {
      assert s'.parts[p].position == o + 1 && s'.parts[p].end == s.parts[p].end;
      assert Msg(p, o + 1) !in s.retries;
    }
  }

  /** Every pass over a message brings the end of the log closer. */
  lemma PassDecreases(s: State, s': State, p: nat, fails: bool)
    requires ShapeInv(s) && RetryInv(s) && s.pc == Idle && p < |s.parts| && s.parts[p].position < s.parts[p].end
    requires Passed(s, s', Msg(p, s.parts[p].position), fails)
    ensures Left(s', |s'.parts|) < Left(s, |s.parts|)
  {
    PassTouchesOne(s, s', p, fails);
    LeftChanges(s, s', p, |s.parts|);
    PassLowersPart(s, s', p, fails);
  }

  // ------------------------------------------------------- fate of a message

  /** How many attempts a message takes when attempt `a` fails exactly if `fails(m, a)`. */
  function Needed(fails: (Msg, nat) -> bool, m: Msg, a: nat, limit: nat): (n: nat)
    requires 1 <= a <= limit
    ensures a <= n <= limit && (forall b | a <= b < n :: fails(m, b)) && (n < limit ==> !fails(m, n))
    decreases limit - a
  {
    if a == limit || !fails(m, a) then a else Needed(fails, m, a + 1, limit)
  }

  lemma {:induction false} NeededFrom(fails: (Msg, nat) -> bool, m: Msg, a: nat, b: nat, limit: nat)
    requires 1 <= a <= b <= limit && forall c | a <= c < b :: fails(m, c)
    ensures Needed(fails, m, a, limit) == Needed(fails, m, b, limit)
    decreases b - a
  {
  }

  /** A finished message: as many attempts as it needed, then handled once or in the DLQ once. */
  predicate Finished(fails: (Msg, nat) -> bool, s: State, tries: map<Msg, nat>, m: Msg) {
    var n := Needed(fails, m, 1, Limit(s.max));
    RetriesOf(tries, m) == n &&
    multiset(s.handled)[m] == (if fails(m, n) then 0 else 1) &&
    multiset(s.dlq)[m] == (if fails(m, n) then 1 else 0)
  }

  predicate AllFail(fails: (Msg, nat) -> bool, m: Msg, limit: nat) { forall a | 1 <= a <= limit :: fails(m, a) }

  /**
   What became of a message: in the DLQ once, after exactly the limit of
   attempts, if all of those fail; else handled once, by its first attempt that
   does not fail.
   */
  predicate Resolved(fails: (Msg, nat) -> bool, s: State, tries: map<Msg, nat>, m: Msg) {
    var limit: nat := if s.max < 1 then 1 else s.max;
    var n := RetriesOf(tries, m);
    if AllFail(fails, m, limit) then n == limit && multiset(s.dlq)[m] == 1 && m !in s.handled
    else 1 <= n <= limit && !fails(m, n) && AllFail(fails, m, n - 1) && multiset(s.handled)[m] == 1 && m !in s.dlq
  }

  lemma FinishedIsResolved(fails: (Msg, nat) -> bool, s: State, tries: map<Msg, nat>, m: Msg)
    requires Finished(fails, s, tries, m)
    ensures Resolved(fails, s, tries, m)
  {
    assert m in s.dlq <==> multiset(s.dlq)[m] != 0;
    assert m in s.handled <==> multiset(s.handled)[m] != 0;
  }

  /** A message not finished: its failed attempts are counted, and nothing else happened to it. */
  predicate Waiting(fails: (Msg, nat) -> bool, s: State, tries: map<Msg, nat>, m: Msg) {
    RetriesOf(tries, m) == RetriesOf(s.retries, m) && RetriesOf(tries, m) < Limit(s.max) &&
    (forall a | 1 <= a <= RetriesOf(tries, m) :: fails(m, a)) &&
    multiset(s.handled)[m] == 0 && multiset(s.dlq)[m] == 0
  }

  predicate Progress(fails: (Msg, nat) -> bool, s: State, tries: map<Msg, nat>, m: Msg)
    requires m.part < |s.parts|
  {
    if m.offset < s.parts[m.part].position then Finished(fails, s, tries, m) else Waiting(fails, s, tries, m)
  }

  ghost predicate AllProgress(fails: (Msg, nat) -> bool, s: State, tries: map<Msg, nat>) {
    forall m: Msg | m.part < |s.parts| :: Progress(fails, s, tries, m)
  }

  lemma PassProgresses(fails: (Msg, nat) -> bool, s: State, s': State, tries: map<Msg, nat>, m: Msg, x: Msg)
    requires ShapeInv(s) && RetryInv(s) && s.pc == Idle && m.part < |s.parts| && m.offset == s.parts[m.part].position
    requires x.part < |s.parts| && Progress(fails, s, tries, x) && Progress(fails, s, tries, m)
    requires Passed(s, s', m, fails(m, RetriesOf(s.retries, m) + 1))
    ensures Progress(fails, s', tries[m := RetriesOf(s.retries, m) + 1], x)
  {
    var attempt := RetriesOf(s.retries, m) + 1;
    var tries' := tries[m := attempt];
    if x == m {
      NeededFrom(fails, m, 1, attempt, Limit(s.max));
    } else {
      assert RetriesOf(tries', x) == RetriesOf(tries, x) && RetriesOf(s'.retries, x) == RetriesOf(s.retries, x);
      assert multiset(s'.handled)[x] == multiset(s.handled)[x] && multiset(s'.dlq)[x] == multiset(s.dlq)[x];
    }
  }

  // ---------------------------------------------------------------- process

  /** After the poll of `m` and `n` writes of its handler. */
  function Polled(s: State, m: Msg, n: nat): State
    requires m.part < |s.parts|
  {
    s.(parts := s.parts[m.part := s.parts[m.part].(position := m.offset + 1)], pc := Handling(m, n),
       effects := s.effects + Writes(m, n))
  }

  lemma PolledWrite(s: State, m: Msg, n: nat)
    requires m.part < |s.parts| && n < Width(s.topic, m)
    ensures CanStep(Polled(s, m, n), Write) && Apply(Polled(s, m, n), Write) == Polled(s, m, n + 1)
  {
  }

  /** The poll of `m` and the first writes of its handler are steps of the machine. */
  lemma {:induction false} HandlerWrites(s: State, m: Msg, n: nat)
    requires s.pc == Idle && m.part < |s.parts|
    requires m.offset == s.parts[m.part].position < s.parts[m.part].end && n <= Width(s.topic, m)
    ensures Reaches(s, Polled(s, m, n))
  {
    if n == 0 {
      ReachesSelf(s);
      ReachesStep(s, s, Poll(m.part));
      assert s.effects + Writes(m, 0) == s.effects;
    } else {
      HandlerWrites(s, m, n - 1);
      PolledWrite(s, m, n - 1);
      ReachesStep(s, Polled(s, m, n - 1), Write);
    }
  }

  /** The log ends stay, and a partition committed up to its position stays so. */
  predicate SteadyParts(before: seq<Partition>, after: seq<Partition>) {
    |after| == |before| &&
    forall q | 0 <= q < |before| :: after[q].end == before[q].end &&
      (before[q].committed == before[q].position ==> after[q].committed == after[q].position)
  }

  class Process {
    const max: int
    const topic: seq<seq<nat>>
    var parts: seq<Partition>
    var retries: map<Msg, nat>
    var dlq: seq<Msg>
    ghost var handled: seq<Msg>
    ghost var effects: seq<Effect>
    ghost var crashes: nat
    ghost var crashed: multiset<Msg>
    ghost var raised: multiset<Msg>

    /** The machine's state when the process is at `pc`. */
    ghost function At(pc: Pc): State
      reads this
    {
      State(max, true, topic, parts, retries, pc, handled, effects, dlq, crashes, crashed, raised)
    }

    ghost function View(): State
      reads this
    {
      At(Idle)
    }

    constructor (max: int, topic: seq<seq<nat>>, ends: seq<nat>)
      requires |ends| == |topic| && forall p | 0 <= p < |ends| :: ends[p] <= |topic[p]|
      ensures Initial(View()) && this.max == max && this.topic == topic && |parts| == |ends|
      ensures forall p | 0 <= p < |parts| :: parts[p].end == ends[p]
    {
      this.max, this.topic := max, topic;
      parts := seq(|ends|, p requires 0 <= p < |ends| => Partition(ends[p], 0, 0));
      retries, dlq, handled, effects := map[], [], [], [];
      crashes, crashed, raised := 0, multiset{}, multiset{};
    }

    /**
     One pass of the loop over the next message of partition `p`, whose handler
     makes `wrote` writes and then returns or raises; the commits may raise.
     An exception that escapes the loop ends the process, and a new one starts.
     */
    method Pass(p: nat, fails: bool, wrote: nat, commit: CommitFate, dlqCommit: CommitFate) returns (escaped: bool)
      requires p < |parts| && parts[p].position < parts[p].end
      requires var width := Width(topic, Msg(p, parts[p].position)); if fails then wrote <= width else wrote == width
      requires Known(View(), Msg(p, parts[p].position))
      modifies this
      ensures Reaches(old(View()), View())
      ensures commit == Fine && dlqCommit == Fine ==> !escaped && Passed(old(View()), View(), Msg(p, old(parts[p].position)), fails)
    {
      ghost var start := View();
      var m := Msg(p, parts[p].position);
      HandlerWrites(start, m, wrote);
      parts := parts[p := parts[p].(position := m.offset + 1)];
      effects := effects + Writes(m, wrote);
      var failed := TryMessage(start, m, fails, wrote, commit);
      if failed {
        escaped := OnException(start, m, dlqCommit);
      } else {
        escaped := false;
      }
      if commit == Fine && dlqCommit == Fine {
        assert start.parts[p := start.parts[p].(position := m.offset)] == start.parts;
      }
    }

    /** The `try` branch, once the handler made its writes: it returns or raises, and then the commit may raise. */
    method TryMessage(ghost start: State, m: Msg, fails: bool, ghost wrote: nat, commit: CommitFate) returns (failed: bool)
      requires Reaches(start, At(Handling(m, wrote))) && m.part < |parts| && Known(View(), m)
      requires !fails ==> wrote == Width(topic, m)
      modifies `parts, `retries, `handled, `raised
      ensures failed <==> fails || commit != Fine
      ensures Reaches(start, At(if failed then Failed(m) else Idle)) && |parts| == old(|parts|)
      ensures fails ==> parts == old(parts) && retries == old(retries) && handled == old(handled)
      ensures !failed ==> parts == old(parts)[m.part := old(parts[m.part]).(committed := m.offset + 1)] &&
                          retries == old(retries) - {m} && handled == old(handled) + [m]
    {
      if fails {
        ReachesStep(start, At(Handling(m, wrote)), Raise);
        failed := true;
      } else {
        ReachesStep(start, At(Handling(m, wrote)), Return);
        handled := handled + [m];
        failed := CommitHandled(start, m, commit);
      }
    }

    /** The commit after the handler returned; if it raises, the message counts as failed. */
    method CommitHandled(ghost start: State, m: Msg, commit: CommitFate) returns (raises: bool)
      requires Reaches(start, At(Handled(m))) && m.part < |parts|
      modifies `parts, `retries, `raised
      ensures raises <==> commit != Fine
      ensures Reaches(start, At(if raises then Failed(m) else Idle))
      ensures var done := old(parts)[m.part := old(parts[m.part]).(committed := m.offset + 1)];
              parts == (if commit == Fine || commit.applied then done else old(parts)) &&
              retries == (if raises then old(retries) else old(retries) - {m})
    {
      if commit == Fine {
        ReachesStep(start, At(Handled(m)), Commit);
        parts := parts[m.part := parts[m.part].(committed := m.offset + 1)];
        retries := retries - {m};
        raises := false;
      } else {
        ReachesStep(start, At(Handled(m)), CommitRaises(commit.applied));
        if commit.applied {
          parts := parts[m.part := parts[m.part].(committed := m.offset + 1)];
        }
        raised := raised + multiset{m};
        raises := true;
      }
    }

    /** The `except` branch: count the attempt, then seek back or give the message to the DLQ. */
    method OnException(ghost start: State, m: Msg, dlqCommit: CommitFate) returns (escaped: bool)
      requires Reaches(start, At(Failed(m))) && m.part < |parts|
      modifies `parts, `retries, `dlq, `crashes, `crashed
      ensures Reaches(start, View())
      ensures escaped ==> dlqCommit != Fine
      ensures var attempt := RetriesOf(old(retries), m) + 1;
              !escaped ==>
                if attempt < max
                then parts == old(parts)[m.part := old(parts[m.part]).(position := m.offset)] &&
                     retries == old(retries)[m := attempt] && dlq == old(dlq)
                else parts == old(parts)[m.part := old(parts[m.part]).(committed := m.offset + 1)] &&
                     retries == old(retries)[m := attempt] - {m} && dlq == old(dlq) + [m]
    {
      var attempts := (if m in retries then retries[m] else 0) + 1;
      if attempts >= max {
        DeadLetter(start, m, attempts);
        escaped := CommitDlq(start, m, dlqCommit);
      } else {
        SeekBack(start, m, attempts);
        escaped := false;
      }
    }

    method DeadLetter(ghost start: State, m: Msg, attempts: nat)
      requires Reaches(start, At(Failed(m))) && m.part < |parts| && attempts == RetriesOf(retries, m) + 1 && max <= attempts
      modifies `retries, `dlq
      ensures Reaches(start, At(DlqSent(m))) && retries == old(retries)[m := attempts] && dlq == old(dlq) + [m]
    {
      ReachesStep(start, At(Failed(m)), SendDlq);
      retries := retries[m := attempts];
      dlq := dlq + [m];
    }

    method SeekBack(ghost start: State, m: Msg, attempts: nat)
      requires Reaches(start, At(Failed(m))) && m.part < |parts| && attempts == RetriesOf(retries, m) + 1 && attempts < max
      modifies `retries, `parts
      ensures Reaches(start, View()) && retries == old(retries)[m := attempts]
      ensures parts == old(parts)[m.part := old(parts[m.part]).(position := m.offset)]
    {
      ReachesStep(start, At(Failed(m)), ConsumerLoop.Retry);
      retries := retries[m := attempts];
      parts := parts[m.part := parts[m.part].(position := m.offset)];
    }

    /** The process dies with `m` on its way to the DLQ; the next one reads on from the committed offsets. */
    method Restart(m: Msg)
      modifies `parts, `retries, `crashes, `crashed
      ensures View() == Restarted(old(At(DlqSent(m))))
      ensures retries == map[] && |parts| == |old(parts)|
      ensures forall p | 0 <= p < |parts| :: parts[p] == old(parts)[p].(position := old(parts)[p].committed)
    {
      var last := parts;
      parts := seq(|last|, p requires 0 <= p < |last| => last[p].(position := last[p].committed));
      retries := map[];
      crashes, crashed := crashes + 1, crashed + multiset{m};
    }

    /** The commit of a message in the DLQ; an exception here leaves the loop and ends the process. */
    method CommitDlq(ghost start: State, m: Msg, commit: CommitFate) returns (escaped: bool)
      requires Reaches(start, At(DlqSent(m))) && m.part < |parts|
      modifies `parts, `retries, `crashes, `crashed
      ensures Reaches(start, View())
      ensures escaped <==> commit != Fine
      ensures var done := old(parts)[m.part := old(parts[m.part]).(committed := m.offset + 1)];
              if !escaped then parts == done && retries == old(retries) - {m}
              else retries == map[] && |parts| == |done| && forall p | 0 <= p < |parts| ::
                     var was := if commit.applied then done[p] else old(parts)[p];
                     parts[p] == was.(position := was.committed)
    {
      if commit == Fine {
        ReachesStep(start, At(DlqSent(m)), DlqCommit);
        parts := parts[m.part := parts[m.part].(committed := m.offset + 1)];
        retries := retries - {m};
        escaped := false;
      } else {
        ReachesStep(start, At(DlqSent(m)), DlqCommitRaises(commit.applied));
        if commit.applied {
          parts := parts[m.part := parts[m.part].(committed := m.offset + 1)];
        }
        Restart(m);
        escaped := true;
      }
    }

    /**
     The loop over a fixed log, undisturbed: attempt `a` of a message raises
     exactly if `fails(m, a)`. Partitions are served in any order.
     */
    method Drain(fails: (Msg, nat) -> bool) returns (ghost tries: map<Msg, nat>)
      requires Initial(View())
      modifies this
      ensures Reaches(old(View()), View())
      ensures |parts| == old(|parts|)
      ensures forall p | 0 <= p < |parts| :: parts[p].committed == parts[p].position == parts[p].end == old(parts[p].end)
      ensures forall p, o | 0 <= p < |parts| && 0 <= o < parts[p].end :: Resolved(fails, View(), tries, Msg(p, o))
    {
      ghost var start := View();
      ReachesSelf(start);
      tries := map[];
      while exists p :: 0 <= p < |parts| && parts[p].position < parts[p].end
        invariant Reaches(start, View()) && |parts| == |start.parts|
        invariant forall p | 0 <= p < |parts| :: parts[p].end == start.parts[p].end && parts[p].committed == parts[p].position
        invariant AllProgress(fails, View(), tries)
        decreases Left(View(), |parts|)
      {
        var p :| 0 <= p < |parts| && parts[p].position < parts[p].end;
        tries := PassOnce(start, p, fails, tries);
      }
      ReachableInv(start, View());
      forall p, o | 0 <= p < |parts| && 0 <= o < parts[p].end ensures Resolved(fails, View(), tries, Msg(p, o)) {
        assert Progress(fails, View(), tries, Msg(p, o));
        assert PartInv(View(), p);
        FinishedIsResolved(fails, View(), tries, Msg(p, o));
      }
      forall p | 0 <= p < |parts| ensures parts[p].position == parts[p].end {
        assert PartInv(View(), p);
      }
    }

    method PassOnce(ghost start: State, p: nat, fails: (Msg, nat) -> bool, ghost tries: map<Msg, nat>) returns (ghost tries': map<Msg, nat>)
      requires Initial(start) && Reaches(start, View()) && p < |parts| && parts[p].position < parts[p].end
      requires AllProgress(fails, View(), tries)
      modifies this
      ensures Reaches(start, View()) && |parts| == old(|parts|)
      ensures AllProgress(fails, View(), tries')
      ensures SteadyParts(old(parts), parts)
      ensures 0 <= Left(View(), |parts|) < old(Left(View(), |parts|))
    {
      ghost var s := View();
      KnownNext(start, s, p);
      var m := Msg(p, parts[p].position);
      var attempt := (if m in retries then retries[m] else 0) + 1;
      var escaped := Pass(p, fails(m, attempt), topic[p][m.offset], Fine, Fine);
      ghost var s' := View();
      PassAdvances(start, s, s', fails, tries, m, attempt);
      tries' := tries[m := attempt];
    }
  }

  lemma KnownNext(start: State, s: State, p: nat)
    requires Initial(start) && Reaches(start, s) && p < |s.parts| && s.parts[p].position < s.parts[p].end
    ensures Known(s, Msg(p, s.parts[p].position))
  {
    ReachableInv(start, s);
    assert PartInv(s, p);
  }

  /** An undisturbed pass stays on a run, comes closer to the end and moves every message's fate along. */
  lemma PassAdvances(start: State, s: State, s': State, fails: (Msg, nat) -> bool, tries: map<Msg, nat>, m: Msg, attempt: nat)
    requires Initial(start) && Reaches(start, s) && Reaches(s, s') && s.pc == Idle && AllProgress(fails, s, tries)
    requires m.part < |s.parts| && m.offset == s.parts[m.part].position < s.parts[m.part].end
    requires attempt == RetriesOf(s.retries, m) + 1 && Passed(s, s', m, fails(m, attempt))
    ensures Reaches(start, s') && 0 <= Left(s', |s'.parts|) < Left(s, |s.parts|) && SteadyParts(s.parts, s'.parts)
    ensures AllProgress(fails, s', tries[m := attempt])
  {
    ReachesTrans(start, s, s');
    ReachableInv(start, s);
    ReachableInv(start, s');
    PassSteady(s, s', m, fails(m, attempt));
    PassDecreases(s, s', m.part, fails(m, attempt));
    LeftNonNegative(s', |s'.parts|);
    PassProgressesAll(fails, s, s', tries, m);
  }

  lemma PassSteady(s: State, s': State, m: Msg, fails: bool)
    requires m.part < |s.parts| && Passed(s, s', m, fails)
    ensures SteadyParts(s.parts, s'.parts)
  {
  }

  lemma PassProgressesAll(fails: (Msg, nat) -> bool, s: State, s': State, tries: map<Msg, nat>, m: Msg)
    requires ShapeInv(s) && RetryInv(s) && s.pc == Idle && m.part < |s.parts| && m.offset == s.parts[m.part].position
    requires AllProgress(fails, s, tries) && Passed(s, s', m, fails(m, RetriesOf(s.retries, m) + 1))
    ensures AllProgress(fails, s', tries[m := RetriesOf(s.retries, m) + 1])
  {
    forall x: Msg | x.part < |s'.parts| ensures Progress(fails, s', tries[m := RetriesOf(s.retries, m) + 1], x) {
      assert Progress(fails, s, tries, x) && Progress(fails, s, tries, m);
      PassProgresses(fails, s, s', tries, m, x);
    }
  }
}
