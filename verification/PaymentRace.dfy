/**
 The unsafe mode of the payment service, for one key within its TTL: GET, then
 process, then SET. It charges once when calls do not overlap and twice when
 they do.
 */
module PaymentRace {
  import opened ChargeBook

  datatype Cell = Empty | Stored(result: Result)

  datatype Caller = Arrived | Missed | Processed(result: Result) | Replied(result: Result)

  /** `runs` counts runs of `_process_charge`; `overlap` lets a call start inside another's. */
  datatype State = State(overlap: bool, cell: Cell, callers: seq<Caller>, runs: nat)

  datatype Step = Arrive | Get(c: nat) | Process(c: nat, outcome: Result) | Set(c: nat)

  predicate Inside(caller: Caller) { caller.Missed? || caller.Processed? }

  predicate CanStep(s: State, st: Step) {
    match st
    case Arrive => true
    case Get(c) =>
      c < |s.callers| && s.callers[c] == Arrived &&
      (s.overlap || forall d | 0 <= d < |s.callers| :: !Inside(s.callers[d]))
    case Process(c, _) => c < |s.callers| && s.callers[c] == Missed
    case Set(c) => c < |s.callers| && s.callers[c].Processed?
  }

  function Apply(s: State, st: Step): State
    requires CanStep(s, st)
  {
    match st
    case Arrive => s.(callers := s.callers + [Arrived])
    case Get(c) => s.(callers := s.callers[c := if s.cell == Empty then Missed else Replied(s.cell.result)])
    case Process(c, r) => s.(callers := s.callers[c := Processed(r)], runs := s.runs + 1)
    case Set(c) =>
      var r := s.callers[c].result;
      s.(callers := s.callers[c := Replied(r)], cell := Stored(r))
  }

  predicate IsRun(s: State, steps: seq<Step>)
    decreases |steps|
  {
    steps == [] || (CanStep(s, steps[0]) && IsRun(Apply(s, steps[0]), steps[1..]))
  }

  function Final(s: State, steps: seq<Step>): State
    requires IsRun(s, steps)
    decreases |steps|
  {
    if steps == [] then s else Final(Apply(s, steps[0]), steps[1..])
  }

  function Start(overlap: bool): State { State(overlap, Empty, [], 0) }

  /** Without overlap one caller at most is inside, and the cell holds what every reply held. */
  predicate SerialInv(s: State) {
    !s.overlap && (s.cell == Empty && s.runs == 1 ==> SomeProcessed(s)) && s.runs <= 1 && (s.cell.Stored? ==> s.runs == 1) &&
    (forall c | 0 <= c < |s.callers| :: CallerInv(s, s.callers[c])) &&
    (forall c, d | 0 <= c < d < |s.callers| && Inside(s.callers[c]) :: !Inside(s.callers[d]))
  }

  predicate SomeProcessed(s: State) { exists c :: 0 <= c < |s.callers| && s.callers[c].Processed? }

  predicate CallerInv(s: State, caller: Caller) {
    match caller
    case Arrived => true
    case Missed => s.cell == Empty && s.runs == 0
    case Processed(_) => s.cell == Empty && s.runs == 1
    case Replied(r) => s.cell == Stored(r)
  }

  lemma StepKeepsSerial(s: State, st: Step)
    requires SerialInv(s) && CanStep(s, st)
    ensures SerialInv(Apply(s, st))
  {
    var s' := Apply(s, st);
    forall c | 0 <= c < |s'.callers| ensures CallerInv(s', s'.callers[c]) {
      if c < |s.callers| {
        assert CallerInv(s, s.callers[c]);
      }
      if st.Process? || st.Set? {
        assert CallerInv(s, s.callers[st.c]);
      }
    }
    if s'.cell == Empty && s'.runs == 1 {
      if st.Process? {
        assert s'.callers[st.c].Processed?;
      } else {
        var c :| 0 <= c < |s.callers| && s.callers[c].Processed?;
        assert s'.callers[c].Processed?;
      }
    }
  }

  lemma {:induction false} RunKeepsSerial(s: State, steps: seq<Step>)
    requires SerialInv(s) && IsRun(s, steps)
    ensures SerialInv(Final(s, steps))
    decreases |steps|
  {
    if steps != [] {
      StepKeepsSerial(s, steps[0]);
      RunKeepsSerial(Apply(s, steps[0]), steps[1..]);
    }
  }

  /** Calls that do not overlap: one charge at most, and every reply is the same result. */
  lemma UnsafeModeSerial(steps: seq<Step>, c: nat, d: nat)
    requires IsRun(Start(false), steps)
    ensures Final(Start(false), steps).runs <= 1
    ensures var callers := Final(Start(false), steps).callers;
            c < |callers| && d < |callers| && callers[c].Replied? && callers[d].Replied? ==> callers[c] == callers[d]
  {
    RunKeepsSerial(Start(false), steps);
    var s := Final(Start(false), steps);
    if c < |s.callers| && d < |s.callers| {
      assert CallerInv(s, s.callers[c]) && CallerInv(s, s.callers[d]);
    }
  }

  ghost predicate Reaches(s: State, t: State) {
    exists steps: seq<Step> :: IsRun(s, steps) && Final(s, steps) == t
  }

  lemma {:induction false} RunExtends(s: State, steps: seq<Step>, st: Step)
    requires IsRun(s, steps) && CanStep(Final(s, steps), st)
    ensures IsRun(s, steps + [st]) && Final(s, steps + [st]) == Apply(Final(s, steps), st)
    decreases |steps|
  {
    if steps == [] {
      assert [] + [st] == [st] && [st][1..] == [];
    } else {
      RunExtends(Apply(s, steps[0]), steps[1..], st);
      assert (steps + [st])[1..] == steps[1..] + [st];
    }
  }

  lemma Goes(s: State, t: State, st: Step, u: State)
    requires Reaches(s, t) && CanStep(t, st) && Apply(t, st) == u
    ensures Reaches(s, u)
  {
    var steps :| IsRun(s, steps) && Final(s, steps) == t;
    RunExtends(s, steps, st);
  }

  lemma BothMiss()
    ensures Reaches(Start(true), State(true, Empty, [Missed, Missed], 0))
  {
    var s := Start(true);
    assert IsRun(s, []) && Final(s, []) == s;
    assert [] + [Arrived] == [Arrived] && [Arrived] + [Arrived] == [Arrived, Arrived];
    Goes(s, s, Arrive, s.(callers := [Arrived]));
    Goes(s, s.(callers := [Arrived]), Arrive, s.(callers := [Arrived, Arrived]));
    Goes(s, s.(callers := [Arrived, Arrived]), Get(0), s.(callers := [Missed, Arrived]));
    Goes(s, s.(callers := [Missed, Arrived]), Get(1), s.(callers := [Missed, Missed]));
  }

  /** Two callers that both read before either writes are both charged, and told different results. */
  lemma UnsafeModeChargesTwice(a: Result, b: Result)
    ensures Reaches(Start(true), State(true, Stored(b), [Replied(a), Replied(b)], 2))
  {
    BothMiss();
    var s := Start(true);
    var one, two := State(true, Empty, [Processed(a), Missed], 1), State(true, Empty, [Processed(a), Processed(b)], 2);
    Goes(s, State(true, Empty, [Missed, Missed], 0), Process(0, a), one);
    Goes(s, one, Process(1, b), two);
    Goes(s, two, Set(0), State(true, Stored(a), [Replied(a), Processed(b)], 2));
    Goes(s, State(true, Stored(a), [Replied(a), Processed(b)], 2), Set(1), State(true, Stored(b), [Replied(a), Replied(b)], 2));
  }

  ghost predicate CanChargeTwice(overlap: bool) {
    exists t: State :: Reaches(Start(overlap), t) && 2 <= t.runs
  }

  /** The unsafe mode can charge twice if and only if calls may overlap. */
  lemma ChargesTwiceIffOverlap(overlap: bool)
    ensures CanChargeTwice(overlap) <==> overlap
  {
    if overlap {
      UnsafeModeChargesTwice(Decline, Decline);
    } else {
      forall t: State | Reaches(Start(false), t) ensures t.runs < 2 {
        var steps :| IsRun(Start(false), steps) && Final(Start(false), steps) == t;
        UnsafeModeSerial(steps, 0, 0);
      }
    }
  }
}
