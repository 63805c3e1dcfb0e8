/**
 The safe idempotency protocol of the payment service, one Redis command at a
 time: SET NX claims a key, the winner processes and overwrites the claim with
 its result, losers poll. Keys expire, callers crash, the clock moves between
 any two commands.
 */
module PaymentCell {
  import opened ChargeBook

  datatype Stored = InProgress | Settled(result: Result)
  datatype Cell = Absent | Present(value: Stored, expires: int)

  datatype Reply = Charged(result: Result) | Busy | Unknown

  /** One call of `charge` for the key; `claim` numbers the claims the key has seen. */
  datatype Caller =
    | Arrived
    | Claimed(claim: nat) | Processing(claim: nat) | Processed(claim: nat, result: Result)
    | Polling(left: nat)
    | Replied(reply: Reply)
    | Crashed

  datatype Moment = Never | At(time: int)

  /**
   A successful SET NX, and what its winner did: runs of `_process_charge` and
   the start of the last one, its result, the settling SET.
   */
  datatype Claim = Claim(at: int, runs: nat, started: Moment, outcome: Result, settled: Moment)

  /** A reply sent at some time, with the number of claims the key had seen by then. */
  datatype Sent = Sent(at: int, claims: nat, reply: Reply)

  datatype KeyState = KeyState(cell: Cell, callers: seq<Caller>, claims: seq<Claim>, replies: seq<Sent>)

  /** `overruns` lets a caller go on processing after its claim has expired. */
  datatype State = State(now: int, ttl: int, overruns: bool, keys: map<Key, KeyState>)

  datatype Action =
    | Arrive | SetNx(c: nat) | Start(c: nat) | Finish(c: nat, result: Result) | Settle(c: nat)
    | Poll(c: nat) | GiveUp(c: nat) | Crash(c: nat) | GetResult

  datatype Step = Tick(d: nat) | On(k: Key, a: Action)

  const ATTEMPTS := 10

  predicate Live(now: int, cell: Cell) { cell.Present? && now < cell.expires }

  function Fresh(): KeyState { KeyState(Absent, [], [], []) }

  function KeyAt(s: State, k: Key): KeyState { if k in s.keys then s.keys[k] else Fresh() }

  predicate CanAct(ks: KeyState, a: Action) {
    match a
    case Arrive => true
    case SetNx(c) => c < |ks.callers| && ks.callers[c] == Arrived
    case Start(c) => c < |ks.callers| && ks.callers[c].Claimed? && ks.callers[c].claim < |ks.claims|
    case Finish(c, _) => c < |ks.callers| && ks.callers[c].Processing? && ks.callers[c].claim < |ks.claims|
    case Settle(c) =>
      c < |ks.callers| && ks.callers[c].Processed? && ks.callers[c].claim < |ks.claims|
    case Poll(c) => c < |ks.callers| && ks.callers[c].Polling? && 0 < ks.callers[c].left
    case GiveUp(c) => c < |ks.callers| && ks.callers[c] == Polling(0)
    case Crash(c) => c < |ks.callers| && !ks.callers[c].Replied?
    case GetResult => true
  }

  /** Processing starts and ends, and its result is stored, before the claim it is done under expires. */
  predicate Timely(now: int, ttl: int, ks: KeyState, a: Action)
    requires CanAct(ks, a)
  {
    a.Start? || a.Finish? || a.Settle? ==> now < ks.claims[ks.callers[a.c].claim].at + ttl
  }

  predicate CanStep(s: State, st: Step) {
    st.On? ==> CanAct(KeyAt(s, st.k), st.a) && (s.overruns || Timely(s.now, s.ttl, KeyAt(s, st.k), st.a))
  }

  function SetCaller(ks: KeyState, c: nat, caller: Caller): KeyState
    requires c < |ks.callers|
  {
    ks.(callers := ks.callers[c := caller])
  }

  function Answer(now: int, ks: KeyState, c: nat, reply: Reply): KeyState
    requires c < |ks.callers|
  {
    SetCaller(ks, c, Replied(reply)).(replies := ks.replies + [Sent(now, |ks.claims|, reply)])
  }

  function Acted(now: int, ttl: int, ks: KeyState, a: Action): KeyState
    requires CanAct(ks, a)
  {
    match a
    case Arrive => ks.(callers := ks.callers + [Arrived])
    case SetNx(c) =>
      if Live(now, ks.cell) then SetCaller(ks, c, Polling(ATTEMPTS))
      else SetCaller(ks, c, Claimed(|ks.claims|)).(
             cell := Present(InProgress, now + ttl), claims := ks.claims + [Claim(now, 0, Never, Decline, Never)])
    case Start(c) =>
      var i := ks.callers[c].claim;
      SetCaller(ks, c, Processing(i)).(claims := ks.claims[i := ks.claims[i].(runs := ks.claims[i].runs + 1, started := At(now))])
    case Finish(c, r) =>
      var i := ks.callers[c].claim;
      SetCaller(ks, c, Processed(i, r)).(claims := ks.claims[i := ks.claims[i].(outcome := r)])
    case Settle(c) =>
      var i := ks.callers[c].claim;
      var r := ks.callers[c].result;
      Answer(now, ks, c, Charged(r)).(
        cell := Present(Settled(r), now + ttl), claims := ks.claims[i := ks.claims[i].(settled := At(now))])
    case Poll(c) =>
      if Live(now, ks.cell) && ks.cell.value.Settled? then Answer(now, ks, c, Charged(ks.cell.value.result))
      else SetCaller(ks, c, Polling(ks.callers[c].left - 1))
    case GiveUp(c) => Answer(now, ks, c, Busy)
    case Crash(c) => SetCaller(ks, c, Crashed)
    case GetResult =>
      ks.(replies := ks.replies + [Sent(now, |ks.claims|,
            if !Live(now, ks.cell) then Unknown
            else if ks.cell.value.Settled? then Charged(ks.cell.value.result) else Busy)])
  }

  function Apply(s: State, st: Step): State
    requires CanStep(s, st)
  {
    match st
    case Tick(d) => s.(now := s.now + d)
    case On(k, a) => s.(keys := s.keys[k := Acted(s.now, s.ttl, KeyAt(s, k), a)])
  }

  predicate IsRun(s: State, steps: seq<Step>)
    decreases |steps|
  {
    steps == [] || (CanStep(s, steps[0]) && IsRun(Apply(s, steps[0]), steps[1..]))
  }

  function Final(s: State, steps: seq<Step>): State
    requires IsRun(s, steps)
    decreases |steps|
  {
    if steps == [] then s else Final(Apply(s, steps[0]), steps[1..])
  }

  predicate Initial(s: State) { s.keys == map[] && 0 < s.ttl }

  predicate Timed(s: State) { Initial(s) && !s.overruns }

  // ---------------------------------------------------------------- invariant

  /** When the key is free again after a claim: a TTL after its last write. */
  function End(ttl: int, c: Claim): int { (if c.settled.At? then c.settled.time else c.at) + ttl }

  predicate ClaimInv(now: int, ttl: int, c: Claim) {
    c.at <= now && c.runs == (if c.started.At? then 1 else 0) &&
    (c.started.At? ==> c.at <= c.started.time <= now && c.started.time < c.at + ttl) &&
    (c.settled.At? ==> c.started.At? && c.started.time <= c.settled.time <= now && c.settled.time < c.at + ttl)
  }

  predicate Spaced(ttl: int, claims: seq<Claim>) {
    forall i, j | 0 <= i < j < |claims| :: End(ttl, claims[i]) <= claims[j].at
  }

  /** The cell is the last claim's. */
  predicate CellInv(ttl: int, ks: KeyState) {
    match ks.cell
    case Absent => ks.claims == []
    case Present(value, expires) =>
      ks.claims != [] &&
      var last := ks.claims[|ks.claims| - 1];
      expires == End(ttl, last) && value == if last.settled.At? then Settled(last.outcome) else InProgress
  }

  function ClaimOf(caller: Caller): int {
    match caller
    case Claimed(i) => i
    case Processing(i) => i
    case Processed(i, _) => i
    case _ => -1
  }

  predicate CallerInv(ks: KeyState, c: nat)
    requires c < |ks.callers|
  {
    var i := ClaimOf(ks.callers[c]);
    i < |ks.claims| &&
    (0 <= i ==> ks.claims[i].settled == Never) &&
    (ks.callers[c].Claimed? ==> ks.claims[i].started == Never) &&
    (ks.callers[c].Processing? ==> ks.claims[i].started.At?) &&
    (ks.callers[c].Processed? ==> ks.claims[i].started.At? && ks.claims[i].outcome == ks.callers[c].result)
  }

  /** A claim is worked on by one caller at most. */
  predicate OwnersDistinct(callers: seq<Caller>) {
    forall c, d | 0 <= c < d < |callers| && 0 <= ClaimOf(callers[c]) :: ClaimOf(callers[c]) != ClaimOf(callers[d])
  }

  /** A result that was sent is the result settled for the last claim of its time. */
  predicate ReplyInv(ttl: int, claims: seq<Claim>, r: Sent) {
    r.claims <= |claims| &&
    (r.reply.Charged? ==>
      0 < r.claims && claims[r.claims - 1].settled.At? && r.reply.result == claims[r.claims - 1].outcome &&
      claims[r.claims - 1].settled.time <= r.at < claims[r.claims - 1].settled.time + ttl)
  }

  predicate KeyInv(now: int, ttl: int, ks: KeyState) {
    (forall i | 0 <= i < |ks.claims| :: ClaimInv(now, ttl, ks.claims[i])) && Spaced(ttl, ks.claims) && CellInv(ttl, ks) &&
    (forall c | 0 <= c < |ks.callers| :: CallerInv(ks, c)) && OwnersDistinct(ks.callers) &&
    (forall r | 0 <= r < |ks.replies| :: ReplyInv(ttl, ks.claims, ks.replies[r]))
  }

  predicate Inv(s: State) { 0 < s.ttl && !s.overruns && forall k | k in s.keys :: KeyInv(s.now, s.ttl, s.keys[k]) }

  /** A key is claimed again only after its last claim's time is up. */
  lemma ClaimKeepsSpaced(now: int, ttl: int, ks: KeyState, c: Claim)
    requires 0 < ttl && KeyInv(now, ttl, ks) && !Live(now, ks.cell) && c.at == now
    ensures Spaced(ttl, ks.claims + [c])
  {
    forall i | 0 <= i < |ks.claims| ensures End(ttl, ks.claims[i]) <= now {
      if i < |ks.claims| - 1 {
        assert End(ttl, ks.claims[i]) <= ks.claims[|ks.claims| - 1].at;
        assert ClaimInv(now, ttl, ks.claims[|ks.claims| - 1]);
      }
    }
  }

  lemma ClaimKeepsReplies(ttl: int, claims: seq<Claim>, c: Claim, r: Sent)
    requires ReplyInv(ttl, claims, r)
    ensures ReplyInv(ttl, claims + [c], r)
  {
  }

  lemma ClaimKeepsCallers(now: int, ttl: int, ks: KeyState, c: nat)
    requires 0 < ttl && KeyInv(now, ttl, ks) && CanAct(ks, SetNx(c))
    ensures var ks' := Acted(now, ttl, ks, SetNx(c));
            OwnersDistinct(ks'.callers) && forall d | 0 <= d < |ks'.callers| :: CallerInv(ks', d)
  {
    var ks' := Acted(now, ttl, ks, SetNx(c));
    forall d | 0 <= d < |ks'.callers| ensures CallerInv(ks', d) && (d != c ==> ClaimOf(ks'.callers[d]) < |ks.claims|) {
      assert CallerInv(ks, d);
    }
  }

  lemma SetNxKeepsInv(now: int, ttl: int, ks: KeyState, c: nat)
    requires 0 < ttl && KeyInv(now, ttl, ks) && CanAct(ks, SetNx(c))
    ensures KeyInv(now, ttl, Acted(now, ttl, ks, SetNx(c)))
  {
    ClaimKeepsCallers(now, ttl, ks, c);
    if !Live(now, ks.cell) {
      var claim := Claim(now, 0, Never, Decline, Never);
      ClaimKeepsSpaced(now, ttl, ks, claim);
      forall r | 0 <= r < |ks.replies| ensures ReplyInv(ttl, ks.claims + [claim], ks.replies[r]) {
        ClaimKeepsReplies(ttl, ks.claims, claim, ks.replies[r]);
      }
    }
  }

  /** A timely settle is by the owner of the last claim. */
  lemma SettlesLast(now: int, ttl: int, ks: KeyState, c: nat)
    requires 0 < ttl && KeyInv(now, ttl, ks) && CanAct(ks, Settle(c)) && Timely(now, ttl, ks, Settle(c))
    ensures ks.callers[c].claim == |ks.claims| - 1
  {
  }

  lemma SettleKeepsInv(now: int, ttl: int, ks: KeyState, c: nat)
    requires 0 < ttl && KeyInv(now, ttl, ks) && CanAct(ks, Settle(c)) && Timely(now, ttl, ks, Settle(c))
    ensures KeyInv(now, ttl, Acted(now, ttl, ks, Settle(c)))
  {
    var ks' := Acted(now, ttl, ks, Settle(c));
    SettlesLast(now, ttl, ks, c);
    assert CallerInv(ks, c);
    forall d | 0 <= d < |ks'.callers| ensures CallerInv(ks', d) {
      assert CallerInv(ks, d);
    }
  }

  lemma StartKeepsInv(now: int, ttl: int, ks: KeyState, c: nat)
    requires 0 < ttl && KeyInv(now, ttl, ks) && CanAct(ks, Start(c)) && Timely(now, ttl, ks, Start(c))
    ensures KeyInv(now, ttl, Acted(now, ttl, ks, Start(c)))
  {
    var ks' := Acted(now, ttl, ks, Start(c));
    assert CallerInv(ks, c);
    forall d | 0 <= d < |ks'.callers| ensures CallerInv(ks', d) {
      assert CallerInv(ks, d);
    }
    SameEndsSpaced(ttl, ks.claims, ks'.claims);
  }

  lemma FinishKeepsInv(now: int, ttl: int, ks: KeyState, c: nat, r: Result)
    requires 0 < ttl && KeyInv(now, ttl, ks) && CanAct(ks, Finish(c, r))
    ensures KeyInv(now, ttl, Acted(now, ttl, ks, Finish(c, r)))
  {
    var ks' := Acted(now, ttl, ks, Finish(c, r));
    assert CallerInv(ks, c);
    forall d | 0 <= d < |ks'.callers| ensures CallerInv(ks', d) {
      assert CallerInv(ks, d);
    }
    SameEndsSpaced(ttl, ks.claims, ks'.claims);
  }

  lemma SameEndsSpaced(ttl: int, before: seq<Claim>, after: seq<Claim>)
    requires Spaced(ttl, before) && |after| == |before|
    requires forall i | 0 <= i < |before| :: after[i].at == before[i].at && after[i].settled == before[i].settled
    ensures Spaced(ttl, after)
  {
  }

  predicate Looks(a: Action) { !a.SetNx? && !a.Settle? && !a.Start? && !a.Finish? }

  lemma LookingKeepsCallers(now: int, ttl: int, ks: KeyState, a: Action)
    requires 0 < ttl && KeyInv(now, ttl, ks) && CanAct(ks, a) && Looks(a)
    ensures var ks' := Acted(now, ttl, ks, a);
            OwnersDistinct(ks'.callers) && forall d | 0 <= d < |ks'.callers| :: CallerInv(ks', d)
  {
    var ks' := Acted(now, ttl, ks, a);
    forall d | 0 <= d < |ks'.callers| ensures CallerInv(ks', d) {
      if d < |ks.callers| {
        assert CallerInv(ks, d);
      }
    }
  }

  lemma LookingKeepsReplies(now: int, ttl: int, ks: KeyState, a: Action)
    requires 0 < ttl && KeyInv(now, ttl, ks) && CanAct(ks, a) && Looks(a)
    ensures var ks' := Acted(now, ttl, ks, a);
            forall r | 0 <= r < |ks'.replies| :: ReplyInv(ttl, ks'.claims, ks'.replies[r])
  {
  }

  /** The actions that leave the cell and the claims alone. */
  lemma LookingKeepsInv(now: int, ttl: int, ks: KeyState, a: Action)
    requires 0 < ttl && KeyInv(now, ttl, ks) && CanAct(ks, a) && Looks(a)
    ensures KeyInv(now, ttl, Acted(now, ttl, ks, a))
  {
    var ks' := Acted(now, ttl, ks, a);
    assert ks'.claims == ks.claims && ks'.cell == ks.cell;
    LookingKeepsCallers(now, ttl, ks, a);
    LookingKeepsReplies(now, ttl, ks, a);
  }

  lemma ActionKeepsInv(now: int, ttl: int, ks: KeyState, a: Action)
    requires 0 < ttl && KeyInv(now, ttl, ks) && CanAct(ks, a) && Timely(now, ttl, ks, a)
    ensures KeyInv(now, ttl, Acted(now, ttl, ks, a))
  {
    if a.SetNx? {
      SetNxKeepsInv(now, ttl, ks, a.c);
    } else if a.Settle? {
      SettleKeepsInv(now, ttl, ks, a.c);
    } else if a.Start? {
      StartKeepsInv(now, ttl, ks, a.c);
    } else if a.Finish? {
      FinishKeepsInv(now, ttl, ks, a.c, a.result);
    } else {
      LookingKeepsInv(now, ttl, ks, a);
    }
  }

  lemma StepKeepsInv(s: State, st: Step)
    requires Inv(s) && CanStep(s, st)
    ensures Inv(Apply(s, st))
  {
    if st.On? {
      assert KeyInv(s.now, s.ttl, KeyAt(s, st.k));
      ActionKeepsInv(s.now, s.ttl, KeyAt(s, st.k), st.a);
    } else {
      forall k | k in s.keys ensures KeyInv(s.now + st.d, s.ttl, s.keys[k]) {
        TickKeepsInv(s.now, st.d, s.ttl, s.keys[k]);
      }
    }
  }

  lemma TickKeepsInv(now: int, d: nat, ttl: int, ks: KeyState)
    requires KeyInv(now, ttl, ks)
    ensures KeyInv(now + d, ttl, ks)
  {
  }

  lemma {:induction false} RunKeepsInv(s: State, steps: seq<Step>)
    requires Inv(s) && IsRun(s, steps)
    ensures Inv(Final(s, steps)) && Final(s, steps).ttl == s.ttl
    decreases |steps|
  {
    if steps != [] {
      StepKeepsInv(s, steps[0]);
      RunKeepsInv(Apply(s, steps[0]), steps[1..]);
    }
  }

  // ----------------------------------------------------------------- theorems

  /** Two executions of one key, the second started less than a TTL after the first was settled, or claimed if it never was. */
  predicate Close(ttl: int, claims: seq<Claim>, i: nat, j: nat) {
    i < |claims| && j < |claims| && i != j && claims[i].started.At? && claims[j].started.At? &&
    claims[i].started.time <= claims[j].started.time < End(ttl, claims[i])
  }

  /**
   Executions of one key keep a full TTL apart, whoever claimed first: of two,
   the one that starts later does so no earlier than the TTL after the other's
   settling SET, or after its claim if it never settled.
   */
  lemma ExecutionsSpaced(s: State, steps: seq<Step>, k: Key, i: nat, j: nat)
    requires Timed(s) && IsRun(s, steps) && k in Final(s, steps).keys
    requires i < |Final(s, steps).keys[k].claims| && j < |Final(s, steps).keys[k].claims|
    ensures var claims := Final(s, steps).keys[k].claims;
            claims[i].runs <= 1 &&
            (i != j && claims[i].started.At? && claims[j].started.At? && claims[i].started.time <= claims[j].started.time ==>
              claims[j].started.time >= (if claims[i].settled.At? then claims[i].settled.time else claims[i].at) + s.ttl)
  {
    RunKeepsInv(s, steps);
    var t := Final(s, steps);
    var claims := t.keys[k].claims;
    assert KeyInv(t.now, s.ttl, t.keys[k]) && ClaimInv(t.now, s.ttl, claims[i]) && ClaimInv(t.now, s.ttl, claims[j]);
    if i < j {
      assert End(s.ttl, claims[i]) <= claims[j].at;
    } else if j < i {
      assert End(s.ttl, claims[j]) <= claims[i].at;
    }
  }

  /** Until the first claim's time is up, `_process_charge` ran at most once for the key. */
  lemma ProcessedAtMostOnce(s: State, steps: seq<Step>, k: Key)
    requires Timed(s) && IsRun(s, steps) && k in Final(s, steps).keys && Final(s, steps).keys[k].claims != []
    requires Final(s, steps).now < End(s.ttl, Final(s, steps).keys[k].claims[0])
    ensures |Final(s, steps).keys[k].claims| == 1 && Final(s, steps).keys[k].claims[0].runs <= 1
  {
    RunKeepsInv(s, steps);
    var s' := Final(s, steps);
    var claims := s'.keys[k].claims;
    assert KeyInv(s'.now, s.ttl, s'.keys[k]) && ClaimInv(s'.now, s.ttl, claims[0]);
    if 1 < |claims| {
      assert false;
    }
  }

  /** The earlier of two results was settled at least a TTL before the other was sent. */
  predicate TtlApart(ttl: int, claims: seq<Claim>, a: Sent, b: Sent) {
    0 < a.claims <= |claims| && claims[a.claims - 1].settled.At? && claims[a.claims - 1].settled.time + ttl <= b.at
  }

  /**
   Two results sent for one key agree, a success or a decline, to a caller of
   `charge` or of `get_result`, unless a full TTL passed between them.
   */
  lemma RepliesAgree(s: State, steps: seq<Step>, k: Key, a: nat, b: nat)
    requires Timed(s) && IsRun(s, steps) && k in Final(s, steps).keys
    requires a < |Final(s, steps).keys[k].replies| && b < |Final(s, steps).keys[k].replies|
    requires Final(s, steps).keys[k].replies[a].reply.Charged? && Final(s, steps).keys[k].replies[b].reply.Charged?
    requires Final(s, steps).keys[k].replies[a].at <= Final(s, steps).keys[k].replies[b].at
    ensures var ks := Final(s, steps).keys[k];
            ks.replies[a].reply == ks.replies[b].reply || TtlApart(s.ttl, ks.claims, ks.replies[a], ks.replies[b])
  {
    RunKeepsInv(s, steps);
    var ks := Final(s, steps).keys[k];
    var i, j := ks.replies[a].claims - 1, ks.replies[b].claims - 1;
    assert KeyInv(Final(s, steps).now, s.ttl, ks);
    assert ReplyInv(s.ttl, ks.claims, ks.replies[a]) && ReplyInv(s.ttl, ks.claims, ks.replies[b]);
    assert ClaimInv(Final(s, steps).now, s.ttl, ks.claims[i]) && ClaimInv(Final(s, steps).now, s.ttl, ks.claims[j]);
    if j < i {
      assert false;
    }
  }

  // --------------------------------------------------- refinement of the book

  /** The results the store holds at this moment: what a caller would be told. */
  function View(s: State): Book {
    map k | k in s.keys && Live(s.now, s.keys[k].cell) && s.keys[k].cell.value.Settled? ::
      s.keys[k].cell.value.result
  }

  /** The reply a step sends, if it sends one. */
  function ReplyOf(s: State, k: Key, a: Action): seq<Reply>
    requires CanAct(KeyAt(s, k), a)
  {
    var before := KeyAt(s, k).replies;
    var after := Acted(s.now, s.ttl, KeyAt(s, k), a).replies;
    if |after| == |before| + 1 then [after[|before|].reply] else []
  }

  /** The processing an action completes into a result. */
  function OutcomeOf(ks: KeyState, a: Action): Result {
    if a.Settle? && a.c < |ks.callers| && ks.callers[a.c].Processed? then ks.callers[a.c].result else Decline
  }

  /**
   Every step is a step of the first-result-wins book: a reply with a result is
   `ChargeOnce` on it, any other step leaves it, and time may only drop entries.
   */
  lemma RefinesBook(s: State, st: Step)
    requires Inv(s) && CanStep(s, st)
    ensures var s' := Apply(s, st);
            match st
            case Tick(_) => View(s').Keys <= View(s).Keys && forall k | k in View(s') :: View(s')[k] == View(s)[k]
            case On(k, a) =>
              var reply := ReplyOf(s, k, a);
              if reply != [] && reply[0].Charged?
              then (View(s'), reply[0].result) == ChargeOnce(View(s), k, OutcomeOf(KeyAt(s, k), a)) &&
                   (k in View(s) || a.Settle?)
              else View(s') == View(s) && (reply == [Unknown] ==> k !in View(s))
  {
    if st.On? {
      KeyRefines(s, st.k, st.a);
      OtherKeysKeep(s, st.k, st.a);
      BookUpdate(View(s), View(Apply(s, st)), st.k);
    }
  }

  lemma OtherKeysKeep(s: State, k: Key, a: Action)
    requires CanStep(s, On(k, a))
    ensures forall d | d != k :: (d in View(s) <==> d in View(Apply(s, On(k, a))))
    ensures forall d | d != k && d in View(s) :: View(s)[d] == View(Apply(s, On(k, a)))[d]
  {
  }

  /** Two books that agree off one key differ by that key's entry. */
  lemma BookUpdate(b: Book, b': Book, k: Key)
    requires forall d | d != k :: (d in b <==> d in b')
    requires forall d | d != k && d in b :: b[d] == b'[d]
    ensures k in b && k in b' && b[k] == b'[k] ==> b' == b
    ensures k !in b && k in b' ==> b' == b[k := b'[k]]
    ensures k !in b && k !in b' ==> b' == b
  {
  }

  /** What an action does to its own key's visible result. */
  lemma KeyRefines(s: State, k: Key, a: Action)
    requires Inv(s) && CanStep(s, On(k, a))
    ensures var s' := Apply(s, On(k, a));
            var reply := ReplyOf(s, k, a);
            if reply != [] && reply[0].Charged?
            then if a.Settle? then k !in View(s) && reply[0].result == OutcomeOf(KeyAt(s, k), a) && k in View(s') && View(s')[k] == reply[0].result
                 else k in View(s) && View(s)[k] == reply[0].result && k in View(s') && View(s')[k] == View(s)[k]
            else (k in View(s') <==> k in View(s)) && (k in View(s) ==> View(s')[k] == View(s)[k]) &&
                 (reply == [Unknown] ==> k !in View(s))
  {
    assert KeyInv(s.now, s.ttl, KeyAt(s, k));
    if a.Settle? {
      SettlesLast(s.now, s.ttl, KeyAt(s, k), a.c);
      assert CallerInv(KeyAt(s, k), a.c);
    }
  }

  /**
   What reads answer: `get_result` the settled result, CHARGE_IN_PROGRESS for a
   bare claim and NOT_FOUND for anything else; a poll the settled result, or it
   goes on with one attempt less. Neither changes the key.
   */
  lemma ReadsTellTheBook(s: State, k: Key, a: Action)
    requires CanStep(s, On(k, a)) && (a.GetResult? || a.Poll?)
    ensures var ks := KeyAt(s, k);
            var claimed := ks.cell.Present? && s.now < ks.cell.expires && ks.cell.value == InProgress;
            var before, after := ks.callers, Acted(s.now, s.ttl, ks, a).callers;
            View(Apply(s, On(k, a))) == View(s) &&
            if k in View(s) then ReplyOf(s, k, a) == [Charged(View(s)[k])]
            else if a.Poll? then ReplyOf(s, k, a) == [] && after == before[a.c := Polling(before[a.c].left - 1)]
            else ReplyOf(s, k, a) == [if claimed then Busy else Unknown]
  {
    OtherKeysKeep(s, k, a);
    BookUpdate(View(s), View(Apply(s, On(k, a))), k);
  }

  /** A settled cell keeps its value for as long as it lives. */
  lemma SettledStays(s: State, st: Step, k: Key)
    requires Inv(s) && CanStep(s, st) && k in View(s) && k in View(Apply(s, st))
    ensures View(Apply(s, st))[k] == View(s)[k]
  {
    RefinesBook(s, st);
  }

  // --------------------------------------------------------- one call, undisturbed

  ghost predicate Reaches(s: State, t: State) {
    exists steps: seq<Step> :: IsRun(s, steps) && Final(s, steps) == t
  }

  lemma {:induction false} RunExtends(s: State, steps: seq<Step>, st: Step)
    requires IsRun(s, steps) && CanStep(Final(s, steps), st)
    ensures IsRun(s, steps + [st]) && Final(s, steps + [st]) == Apply(Final(s, steps), st)
    decreases |steps|
  {
    if steps == [] {
      assert [] + [st] == [st];
      assert [st][1..] == [];
    } else {
      RunExtends(Apply(s, steps[0]), steps[1..], st);
      assert (steps + [st])[1..] == steps[1..] + [st];
    }
  }

  /** An action on a key that nobody else touches. */
  lemma Goes(s: State, k: Key, ks: KeyState, a: Action, ks': KeyState)
    requires Reaches(s, s.(keys := s.keys[k := ks])) && CanAct(ks, a) && Timely(s.now, s.ttl, ks, a)
    requires Acted(s.now, s.ttl, ks, a) == ks'
    ensures Reaches(s, s.(keys := s.keys[k := ks']))
  {
    var t := s.(keys := s.keys[k := ks]);
    var steps :| IsRun(s, steps) && Final(s, steps) == t;
    RunExtends(s, steps, On(k, a));
    assert t.keys[k := ks'] == s.keys[k := ks'];
  }

  lemma CallArrives(s: State, k: Key)
    ensures Reaches(s, s.(keys := s.keys[k := KeyAt(s, k).(callers := KeyAt(s, k).callers + [Arrived])]))
  {
    assert IsRun(s, []) && Final(s, []) == s;
    RunExtends(s, [], On(k, Arrive));
  }

  /** The key once a caller at a free key has processed the charge, and stored it if `done`. */
  function Fulfilled(s: State, ks: KeyState, r: Result, done: bool): KeyState {
    KeyState(Present(if done then Settled(r) else InProgress, s.now + s.ttl),
             ks.callers + [if done then Replied(Charged(r)) else Processed(|ks.claims|, r)],
             ks.claims + [Claim(s.now, 1, At(s.now), r, if done then At(s.now) else Never)],
             if done then ks.replies + [Sent(s.now, |ks.claims| + 1, Charged(r))] else ks.replies)
  }

  lemma FreeKeyIsProcessed(s: State, k: Key, r: Result)
    requires 0 < s.ttl && !Live(s.now, KeyAt(s, k).cell)
    ensures Reaches(s, s.(keys := s.keys[k := Fulfilled(s, KeyAt(s, k), r, false)]))
  {
    CallArrives(s, k);
    var ks, c, i := KeyAt(s, k), |KeyAt(s, k).callers|, |KeyAt(s, k).claims|;
    var k1 := ks.(callers := ks.callers + [Arrived]);
    var claim := Claim(s.now, 0, Never, Decline, Never);
    var k2 := ks.(callers := ks.callers + [Claimed(i)], claims := ks.claims + [claim],
                  cell := Present(InProgress, s.now + s.ttl));
    assert k1.callers[c := Claimed(i)] == k2.callers;
    Goes(s, k, k1, SetNx(c), k2);
    var started := claim.(runs := 1, started := At(s.now));
    var k3 := k2.(callers := ks.callers + [Processing(i)], claims := ks.claims + [started]);
    assert k2.callers[c := Processing(i)] == k3.callers && k2.claims[i := started] == k3.claims;
    Goes(s, k, k2, Start(c), k3);
    var k4 := Fulfilled(s, ks, r, false);
    assert k3.callers[c := Processed(i, r)] == k4.callers && k3.claims[i := started.(outcome := r)] == k4.claims;
    Goes(s, k, k3, Finish(c, r), k4);
  }

  /** A call for a free key charges once, stores the result for a TTL and is told it. */
  lemma FreeKeyIsCharged(s: State, k: Key, r: Result)
    requires 0 < s.ttl && !Live(s.now, KeyAt(s, k).cell)
    ensures Reaches(s, s.(keys := s.keys[k := Fulfilled(s, KeyAt(s, k), r, true)]))
  {
    FreeKeyIsProcessed(s, k, r);
    var ks, c, i := KeyAt(s, k), |KeyAt(s, k).callers|, |KeyAt(s, k).claims|;
    var processed, done := Fulfilled(s, ks, r, false), Fulfilled(s, ks, r, true);
    assert processed.callers[c := Replied(Charged(r))] == done.callers;
    assert processed.claims[i := processed.claims[i].(settled := At(s.now))] == done.claims;
    Goes(s, k, processed, Settle(c), done);
  }

  /** A call for a settled key is told the stored result; the key and its claims stay as they are. */
  lemma SettledKeyIsReplayed(s: State, k: Key)
    requires k in View(s)
    ensures var ks := KeyAt(s, k);
            var reply := Charged(View(s)[k]);
            Reaches(s, s.(keys := s.keys[k := ks.(callers := ks.callers + [Replied(reply)],
                                                  replies := ks.replies + [Sent(s.now, |ks.claims|, reply)])]))
  {
    CallArrives(s, k);
    var ks, c, reply := KeyAt(s, k), |KeyAt(s, k).callers|, Charged(View(s)[k]);
    var k1 := ks.(callers := ks.callers + [Arrived]);
    var k2 := ks.(callers := ks.callers + [Polling(ATTEMPTS)]);
    assert k1.callers[c := Polling(ATTEMPTS)] == k2.callers;
    Goes(s, k, k1, SetNx(c), k2);
    assert k2.callers[c := Replied(reply)] == ks.callers + [Replied(reply)];
    Goes(s, k, k2, Poll(c), ks.(callers := ks.callers + [Replied(reply)],
                                replies := ks.replies + [Sent(s.now, |ks.claims|, reply)]));
  }

  // ------------------------------------------------------------- ten attempts

  /** How often caller c polls the key in the course of a run. */
  function Polls(steps: seq<Step>, k: Key, c: nat): nat {
    if steps == [] then 0 else Polls(steps[..|steps| - 1], k, c) + if steps[|steps| - 1] == On(k, Poll(c)) then 1 else 0
  }

  /** A caller that found the key claimed: it is still waiting with the attempts it has left, or was answered, or died. */
  predicate WaitInv(ks: KeyState, c: nat, left: int) {
    c < |ks.callers| &&
    match ks.callers[c]
    case Polling(n) => n == left
    case Replied(reply) => reply.Charged? || left == 0
    case Crashed => true
    case _ => false
  }

  lemma StepKeepsWait(s: State, st: Step, k: Key, c: nat, left: int)
    requires k in s.keys && WaitInv(s.keys[k], c, left) && CanStep(s, st)
    ensures k in Apply(s, st).keys
    ensures WaitInv(Apply(s, st).keys[k], c, if st == On(k, Poll(c)) then left - 1 else left)
  {
  }

  lemma {:induction false} WaitsTenTimes(s: State, steps: seq<Step>, k: Key, c: nat)
    requires k in s.keys && c < |s.keys[k].callers| && s.keys[k].callers[c] == Polling(10) && IsRun(s, steps)
    ensures k in Final(s, steps).keys && WaitInv(Final(s, steps).keys[k], c, 10 - Polls(steps, k, c))
    decreases |steps|
  {
    if steps != [] {
      var n := |steps| - 1;
      assert steps[..n] + [steps[n]] == steps;
      RunSplits(s, steps[..n], steps[n]);
      WaitsTenTimes(s, steps[..n], k, c);
      StepKeepsWait(Final(s, steps[..n]), steps[n], k, c, 10 - Polls(steps[..n], k, c));
    }
  }

  /** A run is a run up to its last step, and that step. */
  lemma {:induction false} RunSplits(s: State, steps: seq<Step>, st: Step)
    requires IsRun(s, steps + [st])
    ensures IsRun(s, steps) && CanStep(Final(s, steps), st) && Final(s, steps + [st]) == Apply(Final(s, steps), st)
    decreases |steps|
  {
    if steps == [] {
      assert [] + [st] == [st] && [st][1..] == [];
    } else {
      assert (steps + [st])[1..] == steps[1..] + [st];
      RunSplits(Apply(s, steps[0]), steps[1..], st);
    }
  }

  /**
   A caller that finds the key claimed or settled polls for a result: it is told
   CHARGE_IN_PROGRESS only after exactly ten polls, all without one, and in every
   run up to then it waits, has a result, or died.
   */
  lemma BusyAfterTenPolls(s: State, c: nat, k: Key, steps: seq<Step>)
    requires CanStep(s, On(k, SetNx(c))) && Live(s.now, KeyAt(s, k).cell) && IsRun(Apply(s, On(k, SetNx(c))), steps)
    ensures var t := Final(Apply(s, On(k, SetNx(c))), steps);
            k in t.keys && c < |t.keys[k].callers| &&
            (t.keys[k].callers[c] == Replied(Busy) ==> Polls(steps, k, c) == 10) &&
            (t.keys[k].callers[c].Polling? ==> (Polls(steps, k, c) == 10 <==> CanAct(t.keys[k], GiveUp(c)))) &&
            (t.keys[k].callers[c].Polling? ==> (Polls(steps, k, c) < 10 <==> CanAct(t.keys[k], Poll(c)))) &&
            (t.keys[k].callers[c].Polling? || t.keys[k].callers[c].Replied? || t.keys[k].callers[c] == Crashed)
  {
    WaitsTenTimes(Apply(s, On(k, SetNx(c))), steps, k, c);
  }

  // ------------------------------------------------------------ a slow charge

  /** `s` with its one key "K" in state `ks`, `d` later. */
  function Later(s: State, d: int, ks: KeyState): State { s.(now := s.now + d, keys := map["K" := ks]) }

  lemma Acts(s: State, d: int, ks: KeyState, a: Action, ks': KeyState)
    requires s.overruns && Reaches(s, Later(s, d, ks))
    requires CanAct(ks, a) && Acted(s.now + d, s.ttl, ks, a) == ks'
    ensures Reaches(s, Later(s, d, ks'))
  {
    var steps :| IsRun(s, steps) && Final(s, steps) == Later(s, d, ks);
    RunExtends(s, steps, On("K", a));
    assert Apply(Later(s, d, ks), On("K", a)) == Later(s, d, ks');
  }

  lemma Waits(s: State, ks: KeyState, d: nat)
    requires Reaches(s, Later(s, 0, ks))
    ensures Reaches(s, Later(s, d, ks))
  {
    var steps :| IsRun(s, steps) && Final(s, steps) == Later(s, 0, ks);
    RunExtends(s, steps, Tick(d));
  }

  const Slow := Success(0, 5, 0)

  /** The key after both callers were charged and answered, with different results. */
  function Doubled(s: State): KeyState {
    var late := s.now + s.ttl;
    KeyState(Present(Settled(Slow), late + s.ttl), [Replied(Charged(Decline)), Replied(Charged(Slow))],
      [Claim(s.now, 1, At(s.now), Decline, At(late)), Claim(late, 1, At(late), Slow, At(late))],
      [Sent(late, 2, Charged(Decline)), Sent(late, 2, Charged(Slow))])
  }

  /** Both callers have processed the charge, with different results. */
  lemma BothProcess(s: State)
    requires Initial(s) && s.overruns
    ensures Reaches(s, Later(s, s.ttl, KeyState(Present(InProgress, s.now + 2 * s.ttl), [Processed(0, Decline), Processed(1, Slow)],
              [Claim(s.now, 1, At(s.now), Decline, Never), Claim(s.now + s.ttl, 1, At(s.now + s.ttl), Slow, Never)], [])))
  {
    SecondClaims(s);
    var c0, c1 := Claim(s.now, 1, At(s.now), Decline, Never), Claim(s.now + s.ttl, 1, At(s.now + s.ttl), Decline, Never);
    var k1 := KeyState(Present(InProgress, s.now + 2 * s.ttl), [Processing(0), Processing(1)], [c0, c1], []);
    var k0 := k1.(callers := [Processing(0), Claimed(1)], claims := [c0, c1.(runs := 0, started := Never)]);
    Acts(s, s.ttl, k0, Start(1), k1);
    var k2 := k1.(callers := [Processed(0, Decline), Processing(1)]);
    Acts(s, s.ttl, k1, Finish(0, Decline), k2);
    Acts(s, s.ttl, k2, Finish(1, Slow), k2.(callers := [Processed(0, Decline), Processed(1, Slow)], claims := [c0, c1.(outcome := Slow)]));
  }

  /** The first of them is settled and answered. */
  function Halfway(s: State): KeyState {
    var late := s.now + s.ttl;
    KeyState(Present(Settled(Decline), late + s.ttl), [Replied(Charged(Decline)), Processed(1, Slow)],
      [Claim(s.now, 1, At(s.now), Decline, At(late)), Claim(late, 1, At(late), Slow, Never)], [Sent(late, 2, Charged(Decline))])
  }

  lemma FirstSettles(s: State)
    requires Initial(s) && s.overruns
    ensures Reaches(s, Later(s, s.ttl, Halfway(s)))
  {
    BothProcess(s);
    var c0, c1 := Claim(s.now, 1, At(s.now), Decline, Never), Claim(s.now + s.ttl, 1, At(s.now + s.ttl), Slow, Never);
    var k := KeyState(Present(InProgress, s.now + 2 * s.ttl), [Processed(0, Decline), Processed(1, Slow)], [c0, c1], []);
    Acts(s, s.ttl, k, Settle(0), Halfway(s));
  }

  /**
   Why processing must be shorter than the TTL: once a claim expires under a
   charge still in progress, a second caller charges too, and the two results
   sent at the same moment differ.
   */
  lemma SlowChargeRunsTwice(s: State)
    requires Initial(s) && s.overruns
    ensures Reaches(s, Later(s, s.ttl, Doubled(s)))
  {
    FirstSettles(s);
    Acts(s, s.ttl, Halfway(s), Settle(1), Doubled(s));
  }

  /** The first caller's claim expires while it is processing. */
  lemma SecondClaims(s: State)
    requires Initial(s) && s.overruns
    ensures Reaches(s, Later(s, s.ttl, KeyState(Present(InProgress, s.now + 2 * s.ttl), [Processing(0), Claimed(1)],
              [Claim(s.now, 1, At(s.now), Decline, Never), Claim(s.now + s.ttl, 0, Never, Decline, Never)], [])))
  {
    var t := s.now;
    assert IsRun(s, []) && Final(s, []) == s;
    RunExtends(s, [], On("K", Arrive));
    var k1 := Fresh().(callers := [Arrived]);
    assert Acted(t, s.ttl, Fresh(), Arrive) == k1 by { assert [] + [Arrived] == [Arrived]; }
    assert Apply(s, On("K", Arrive)) == Later(s, 0, k1);
    var k2 := Fresh().(callers := [Arrived, Arrived]);
    Acts(s, 0, k1, Arrive, k2);
    var c0 := Claim(t, 1, At(t), Decline, Never);
    var k3 := KeyState(Present(InProgress, t + s.ttl), [Claimed(0), Arrived], [c0.(runs := 0, started := Never)], []);
    Acts(s, 0, k2, SetNx(0), k3);
    var k4 := k3.(callers := [Processing(0), Arrived], claims := [c0]);
    Acts(s, 0, k3, Start(0), k4);
    Waits(s, k4, s.ttl);
    Acts(s, s.ttl, k4, SetNx(1), KeyState(Present(InProgress, t + 2 * s.ttl), [Processing(0), Claimed(1)],
      [c0, Claim(t + s.ttl, 0, Never, Decline, Never)], []));
  }

  /** Two results sent for one key differ, with less than a TTL between them. */
  predicate Differ(t: State, k: Key, a: nat, b: nat) {
    k in t.keys && var ks := t.keys[k];
    a < |ks.replies| && b < |ks.replies| && ks.replies[a].reply.Charged? && ks.replies[b].reply.Charged? &&
    ks.replies[a].at <= ks.replies[b].at && ks.replies[a].reply != ks.replies[b].reply &&
    !TtlApart(t.ttl, ks.claims, ks.replies[a], ks.replies[b])
  }

  ghost predicate CanDiffer(s: State) { exists t: State, k: Key, a: nat, b: nat :: Reaches(s, t) && Differ(t, k, a, b) }

  /** Callers of one key can be told different results within a TTL if and only if processing may outlast its claim. */
  lemma DifferIffOverruns(s: State)
    requires Initial(s)
    ensures CanDiffer(s) <==> s.overruns
  {
    if s.overruns {
      SlowChargeRunsTwice(s);
      assert Differ(Later(s, s.ttl, Doubled(s)), "K", 0, 1);
    } else {
      forall t: State, k: Key, a: nat, b: nat | Reaches(s, t) ensures !Differ(t, k, a, b) {
        var steps :| IsRun(s, steps) && Final(s, steps) == t;
        if Differ(t, k, a, b) {
          RunKeepsInv(s, steps);
          RepliesAgree(s, steps, k, a, b);
        }
      }
    }
  }

  ghost predicate CanComeClose(s: State) {
    exists t: State, k: Key, i: nat, j: nat :: Reaches(s, t) && k in t.keys && Close(t.ttl, t.keys[k].claims, i, j)
  }

  /** Executions of one key can come closer than a TTL if and only if processing may outlast its claim. */
  lemma CloseIffOverruns(s: State)
    requires Initial(s)
    ensures CanComeClose(s) <==> s.overruns
  {
    if s.overruns {
      SlowChargeRunsTwice(s);
      var t := Later(s, s.ttl, Doubled(s));
      assert Close(t.ttl, t.keys["K"].claims, 0, 1);
    } else {
      forall t: State, k: Key, i: nat, j: nat | Reaches(s, t) && k in t.keys ensures !Close(t.ttl, t.keys[k].claims, i, j) {
        var steps :| IsRun(s, steps) && Final(s, steps) == t;
        if i < |t.keys[k].claims| && j < |t.keys[k].claims| {
          RunKeepsInv(s, steps);
          ExecutionsSpaced(s, steps, k, i, j);
        }
      }
    }
  }

  /** Before the first claim's time is up, the key was claimed again or processed twice. */
  predicate Again(t: State, k: Key) {
    k in t.keys && t.keys[k].claims != [] && t.now < End(t.ttl, t.keys[k].claims[0]) &&
    (1 < |t.keys[k].claims| || 1 < t.keys[k].claims[0].runs)
  }

  ghost predicate CanRunAgain(s: State) { exists t: State, k: Key :: Reaches(s, t) && Again(t, k) }

  /** A key can be processed again before the first claim's time is up if and only if processing may outlast its claim. */
  lemma AgainIffOverruns(s: State)
    requires Initial(s)
    ensures CanRunAgain(s) <==> s.overruns
  {
    if s.overruns {
      SlowChargeRunsTwice(s);
      assert Again(Later(s, s.ttl, Doubled(s)), "K");
    } else {
      forall t: State, k: Key | Reaches(s, t) ensures !Again(t, k) {
        var steps :| IsRun(s, steps) && Final(s, steps) == t;
        if Again(t, k) {
          RunKeepsInv(s, steps);
          ProcessedAtMostOnce(s, steps, k);
        }
      }
    }
  }

  // -------------------------------------------------------- the polling loop

  /** What one GET of the key returns. */
  datatype Read = Missing | Found(value: Stored)

  predicate Answers(r: Read) { r.Found? && r.value.Settled? }

  /**
   `_wait_for_result`: the first settled value among the reads, or
   CHARGE_IN_PROGRESS if none of the attempts sees one.
   */
  method WaitForResult(seen: seq<Read>, attempts: nat) returns (reply: Reply, polls: nat)
    requires attempts <= |seen|
    ensures polls <= attempts && forall i | 0 <= i < polls :: !Answers(seen[i])
    ensures if polls < attempts then Answers(seen[polls]) && reply == Charged(seen[polls].value.result) else reply == Busy
  {
    polls := 0;
    while polls < attempts
      invariant polls <= attempts && forall i | 0 <= i < polls :: !Answers(seen[i])
    {
      if seen[polls].Found? && seen[polls].value != InProgress {
        return Charged(seen[polls].value.result), polls;
      }
      polls := polls + 1;
    }
    reply := Busy;
  }

  // ------------------------------------------------------------ one whole call

  /** `_respond`: a stored value that is not a success answers PAYMENT_DECLINED, even a bare claim. */
  function Respond(value: Stored): Reply { if value.Settled? then Charged(value.result) else Charged(Decline) }

  /** The Redis keys of the service, and its two modes. */
  class Store {
    const ttl: int
    const unsafeMode: bool
    var now: int
    var cells: map<Key, Cell>

    constructor (ttl: int, unsafeMode: bool, now: int)
      ensures this.ttl == ttl && this.unsafeMode == unsafeMode && this.now == now && cells == map[]
    {
      this.ttl, this.unsafeMode, this.now, cells := ttl, unsafeMode, now, map[];
    }

    function Get(k: Key): Read
      reads this
    {
      if k in cells && Live(now, cells[k]) then Found(cells[k].value) else Missing
    }

    method SetNx(k: Key) returns (claimed: bool)
      modifies `cells
      ensures claimed <==> old(Get(k)) == Missing
      ensures cells == if claimed then old(cells)[k := Present(InProgress, now + ttl)] else old(cells)
    {
      claimed := Get(k) == Missing;
      if claimed {
        cells := cells[k := Present(InProgress, now + ttl)];
      }
    }

    /**
     `charge`, when processing takes `took` and yields `outcome`, and the
     polls of a caller who found the key claimed return `seen`. A settled key
     answers its result and is left alone; a free one is charged, once; a
     claimed one is polled ten times, and answers with the first result seen.
     */
    method Charge(k: Key, outcome: Result, took: nat, seen: seq<Read>) returns (reply: Reply, ghost charged: bool)
      requires 0 < ttl && 10 <= |seen|
      requires Answers(Get(k)) ==> seen[0] == Get(k)
      modifies this
      ensures charged <==> old(Get(k)) == Missing
      ensures charged ==> reply == Charged(outcome) && Get(k) == Found(Settled(outcome)) && now == old(now) + took
      ensures charged ==> cells == old(cells)[k := Present(Settled(outcome), now + ttl)]
      ensures !charged ==> cells == old(cells) && now == old(now)
      ensures Answers(old(Get(k))) ==> reply == Charged(old(Get(k)).value.result)
      ensures old(Get(k)) == Found(InProgress) && !unsafeMode && (forall i | 0 <= i < 10 :: !Answers(seen[i])) ==>
                reply == Busy
      ensures old(Get(k)) == Found(InProgress) && !unsafeMode ==>
                forall i | 0 <= i < 10 && Answers(seen[i]) && (forall j | 0 <= j < i :: !Answers(seen[j])) ::
                  reply == Charged(seen[i].value.result)
      ensures old(Get(k)) == Found(InProgress) && unsafeMode ==> reply == Charged(Decline)
    {
      if unsafeMode {
        var existing := Get(k);
        charged := existing == Missing;
        if existing.Found? {
          return Respond(existing.value), charged;
        }
      } else {
        var claimed := SetNx(k);
        charged := claimed;
        if !claimed {
          var polls;
          reply, polls := WaitForResult(seen, ATTEMPTS);
          return;
        }
      }
      now := now + took;
      cells := cells[k := Present(Settled(outcome), now + ttl)];
      reply := Charged(outcome);
    }
  }
}
