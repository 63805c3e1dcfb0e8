/**
 The catalog's transactions at the grain of their SQL statements: lock and read,
 check, update, read back, commit, interleaved across any number of requests and
 products, with rollbacks. Every run matches one in which each answered request
 is one atomic operation, taken at its commit or at the statement that refused it.
 */
module RowLocks {
  import opened Stock

  datatype Request = ToReserve(product: ProductId, quantity: int) | ToRelease(product: ProductId, quantity: int)

  /** `dirty` is the uncommitted value of the row, `remaining` what the reply will say. */
  datatype Phase =
    | Begun
    | Locked(read: int)                    // SELECT ... FOR UPDATE returned
    | Bumped(dirty: int)                   // release: UPDATE done, not read back
    | Ready(dirty: int, remaining: int)    // everything but COMMIT
    | Answered(outcome: Outcome)
    | RolledBack

  datatype Tx = Tx(request: Request, phase: Phase)

  /** One answered request. */
  datatype Op = Op(tx: nat, request: Request, outcome: Outcome)

  datatype State = State(committed: Table, locks: map<ProductId, nat>, txs: seq<Tx>, history: seq<Op>)

  datatype Step = Begin(request: Request) | First(t: nat) | Next(t: nat) | Commit(t: nat) | Rollback(t: nat)

  predicate CanStep(s: State, st: Step) {
    match st
    case Begin(_) => true
    case First(t) =>
      // a row somebody else has locked makes the statement wait
      t < |s.txs| && s.txs[t].phase == Begun &&
      (s.txs[t].request.quantity <= 0 || s.txs[t].request.product !in s.locks)
    case Next(t) => t < |s.txs| && (s.txs[t].phase.Locked? || s.txs[t].phase.Bumped?) && s.txs[t].request.product in s.committed
    case Commit(t) => t < |s.txs| && s.txs[t].phase.Ready?
    case Rollback(t) =>
      t < |s.txs| && (s.txs[t].phase == Begun || s.txs[t].phase.Locked? || s.txs[t].phase.Bumped? || s.txs[t].phase.Ready?)
  }

  function SetPhase(s: State, t: nat, phase: Phase): State
    requires t < |s.txs|
  {
    s.(txs := s.txs[t := s.txs[t].(phase := phase)])
  }

  /** The reply is sent; the transaction, if one was open, is over. */
  function Answer(s: State, t: nat, outcome: Outcome): State
    requires t < |s.txs|
  {
    SetPhase(s, t, Answered(outcome)).(
      locks := Unlock(s.locks, s.txs[t].request.product, t),
      history := s.history + [Op(t, s.txs[t].request, outcome)])
  }

  function Unlock(locks: map<ProductId, nat>, p: ProductId, t: nat): map<ProductId, nat> {
    if p in locks && locks[p] == t then locks - {p} else locks
  }

  function Apply(s: State, st: Step): State
    requires CanStep(s, st)
  {
    match st
    case Begin(r) => s.(txs := s.txs + [Tx(r, Begun)])
    case First(t) =>
      var r := s.txs[t].request;
      if r.quantity <= 0 then Answer(s, t, Unprocessable)
      else if r.product !in s.committed then Answer(s, t, NotFound)
      else if r.ToReserve? then
        SetPhase(s, t, Locked(s.committed[r.product])).(locks := s.locks[r.product := t])
      else
        SetPhase(s, t, Bumped(s.committed[r.product] + r.quantity)).(locks := s.locks[r.product := t])
    case Next(t) =>
      var r := s.txs[t].request;
      if s.txs[t].phase.Bumped? then SetPhase(s, t, Ready(s.txs[t].phase.dirty, s.txs[t].phase.dirty))
      else if s.txs[t].phase.read < r.quantity then Answer(s, t, Insufficient)
      else
        // the UPDATE works on the row as it is now, the reply on the value read earlier
        SetPhase(s, t, Ready(s.committed[r.product] - r.quantity, s.txs[t].phase.read - r.quantity))
    case Commit(t) =>
      Answer(s, t, Outcome.Ok(s.txs[t].phase.remaining)).(
        committed := s.committed[s.txs[t].request.product := s.txs[t].phase.dirty])
    case Rollback(t) =>
      SetPhase(s, t, RolledBack).(locks := Unlock(s.locks, s.txs[t].request.product, t))
  }

  predicate IsRun(s: State, steps: seq<Step>)
    decreases |steps|
  {
    steps == [] || (CanStep(s, steps[0]) && IsRun(Apply(s, steps[0]), steps[1..]))
  }

  function Final(s: State, steps: seq<Step>): State
    requires IsRun(s, steps)
    decreases |steps|
  {
    if steps == [] then s else Final(Apply(s, steps[0]), steps[1..])
  }

  // ------------------------------------------------------ the atomic catalog

  function Atomic(t: Table, r: Request): (Table, Outcome) {
    match r
    case ToReserve(p, q) => Stock.Reserve(t, p, q)
    case ToRelease(p, q) => Stock.Release(t, p, q)
  }

  /** The stock after the operations of a history, one after the other. */
  function Replay(t: Table, history: seq<Op>): Table {
    if history == [] then t
    else Atomic(Replay(t, history[..|history| - 1]), history[|history| - 1].request).0
  }

  /** Every reply in the history is the atomic operation's reply at its place. */
  predicate Explained(t: Table, history: seq<Op>) {
    history == [] ||
    (Explained(t, history[..|history| - 1]) &&
     history[|history| - 1].outcome == Atomic(Replay(t, history[..|history| - 1]), history[|history| - 1].request).1)
  }

  // ---------------------------------------------------------------- invariant

  predicate Holds(s: State, t: nat)
    requires t < |s.txs|
  {
    s.txs[t].request.product in s.locks && s.locks[s.txs[t].request.product] == t
  }

  /** What a transaction has seen is still so, because it holds the row. */
  predicate TxInv(s: State, t: nat)
    requires t < |s.txs|
  {
    var r := s.txs[t].request;
    match s.txs[t].phase
    case Locked(read) =>
      r.ToReserve? && Holds(s, t) && r.product in s.committed && read == s.committed[r.product] && 0 < r.quantity
    case Bumped(dirty) =>
      r.ToRelease? && Holds(s, t) && r.product in s.committed && dirty == s.committed[r.product] + r.quantity && 0 < r.quantity
    case Ready(dirty, remaining) =>
      Holds(s, t) && r.product in s.committed && 0 < r.quantity && remaining == dirty &&
      (if r.ToReserve? then r.quantity <= s.committed[r.product] && dirty == s.committed[r.product] - r.quantity
       else dirty == s.committed[r.product] + r.quantity)
    case _ => !Holds(s, t)
  }

  /** The replies sent are the history's entries: one for an answered request, none for any other. */
  predicate RepliesMatch(s: State) {
    (forall i | 0 <= i < |s.history| ::
      var op := s.history[i];
      op.tx < |s.txs| && s.txs[op.tx].request == op.request && s.txs[op.tx].phase == Answered(op.outcome)) &&
    (forall i, j | 0 <= i < j < |s.history| :: s.history[i].tx != s.history[j].tx) &&
    (forall t | 0 <= t < |s.txs| && s.txs[t].phase.Answered? :: exists i :: 0 <= i < |s.history| && s.history[i].tx == t)
  }

  predicate Inv(initial: Table, s: State) {
    (forall t | 0 <= t < |s.txs| :: TxInv(s, t)) &&
    (forall p | p in s.locks :: s.locks[p] < |s.txs|) &&
    (forall p | p in s.committed :: 0 <= s.committed[p]) &&
    Explained(initial, s.history) && Replay(initial, s.history) == s.committed
  }

  lemma HistoryExtends(t: Table, history: seq<Op>, op: Op)
    requires Explained(t, history) && op.outcome == Atomic(Replay(t, history), op.request).1
    ensures Explained(t, history + [op]) && Replay(t, history + [op]) == Atomic(Replay(t, history), op.request).0
  {
  }

  predicate SameElsewhere(a: Table, b: Table, p: ProductId) {
    a.Keys == b.Keys && forall q | q in a && q != p :: b[q] == a[q]
  }

  /** Another transaction's view survives an answer: it waits, or holds a row of its own. */
  lemma AnswerKeepsTx(s: State, t: nat, outcome: Outcome, committed: Table, d: nat)
    requires t < |s.txs| && d < |s.txs| && TxInv(s, t) && TxInv(s, d)
    requires committed == s.committed || (Holds(s, t) && SameElsewhere(s.committed, committed, s.txs[t].request.product))
    ensures TxInv(Answer(s, t, outcome).(committed := committed), d)
  {
  }

  lemma AnswerKeepsInv(initial: Table, s: State, t: nat, outcome: Outcome, committed: Table)
    requires Inv(initial, s) && t < |s.txs|
    requires (committed, outcome) == Atomic(s.committed, s.txs[t].request)
    requires committed == s.committed || Holds(s, t)
    ensures Inv(initial, Answer(s, t, outcome).(committed := committed))
  {
    HistoryExtends(initial, s.history, Op(t, s.txs[t].request, outcome));
    var s' := Answer(s, t, outcome).(committed := committed);
    AtomicTouchesOne(s.committed, s.txs[t].request);
    forall d | 0 <= d < |s'.txs| ensures TxInv(s', d) {
      AnswerKeepsTx(s, t, outcome, committed, d);
    }
  }

  lemma AtomicTouchesOne(t: Table, r: Request)
    ensures SameElsewhere(t, Atomic(t, r).0, r.product)
    ensures (forall p | p in t :: 0 <= t[p]) ==> forall p | p in Atomic(t, r).0 :: 0 <= Atomic(t, r).0[p]
  {
  }

  lemma QuietKeepsOwn(s: State, st: Step)
    requires !st.Begin? && CanStep(s, st) && Apply(s, st).history == s.history && TxInv(s, st.t)
    ensures TxInv(Apply(s, st), st.t)
  {
  }

  lemma QuietKeepsTx(s: State, st: Step, d: nat)
    requires CanStep(s, st) && Apply(s, st).history == s.history && d < |s.txs| && TxInv(s, d)
    requires !st.Begin? ==> TxInv(s, st.t)
    ensures TxInv(Apply(s, st), d)
  {
    if !st.Begin? && st.t == d {
      QuietKeepsOwn(s, st);
    }
  }

  lemma QuietKeepsInv(initial: Table, s: State, st: Step)
    requires Inv(initial, s) && CanStep(s, st) && Apply(s, st).history == s.history
    ensures Inv(initial, Apply(s, st))
  {
    var s' := Apply(s, st);
    assert s'.committed == s.committed;
    forall d | 0 <= d < |s'.txs| ensures TxInv(s', d) {
      if d < |s.txs| {
        QuietKeepsTx(s, st, d);
      }
    }
  }

  lemma StepKeepsInv(initial: Table, s: State, st: Step)
    requires Inv(initial, s) && CanStep(s, st)
    ensures Inv(initial, Apply(s, st))
  {
    if Apply(s, st).history == s.history {
      QuietKeepsInv(initial, s, st);
    } else {
      var t := st.t;
      var outcome := Apply(s, st).txs[t].phase.outcome;
      assert TxInv(s, t);
      AnswerKeepsInv(initial, s, t, outcome, Apply(s, st).committed);
    }
  }

  lemma AnswerKeepsReplies(s: State, s': State, t: nat, outcome: Outcome)
    requires RepliesMatch(s) && t < |s.txs| && !s.txs[t].phase.Answered?
    requires s'.txs == s.txs[t := s.txs[t].(phase := Answered(outcome))]
    requires s'.history == s.history + [Op(t, s.txs[t].request, outcome)]
    ensures RepliesMatch(s')
  {
    forall d | 0 <= d < |s'.txs| && s'.txs[d].phase.Answered?
      ensures exists i :: 0 <= i < |s'.history| && s'.history[i].tx == d
    {
      if d == t {
        assert s'.history[|s.history|].tx == t;
      } else {
        var i :| 0 <= i < |s.history| && s.history[i].tx == d;
        assert s'.history[i].tx == d;
      }
    }
  }

  lemma StepKeepsReplies(s: State, st: Step)
    requires RepliesMatch(s) && CanStep(s, st)
    ensures RepliesMatch(Apply(s, st))
  {
    var s' := Apply(s, st);
    if s'.history != s.history {
      AnswerKeepsReplies(s, s', st.t, s'.txs[st.t].phase.outcome);
    } else {
      QuietKeepsReplies(s, st);
    }
  }

  lemma QuietKeepsReplies(s: State, st: Step)
    requires RepliesMatch(s) && CanStep(s, st) && Apply(s, st).history == s.history
    ensures RepliesMatch(Apply(s, st))
  {
  }

  predicate Initial(s: State) {
    s.locks == map[] && s.txs == [] && s.history == [] && forall p | p in s.committed :: 0 <= s.committed[p]
  }

  lemma {:induction false} RunKeepsInv(initial: Table, s: State, steps: seq<Step>)
    requires Inv(initial, s) && RepliesMatch(s) && IsRun(s, steps)
    ensures Inv(initial, Final(s, steps)) && RepliesMatch(Final(s, steps))
    decreases |steps|
  {
    if steps != [] {
      StepKeepsInv(initial, s, steps[0]);
      StepKeepsReplies(s, steps[0]);
      RunKeepsInv(initial, Apply(s, steps[0]), steps[1..]);
    }
  }

  /**
   Linearizability: the replies of a run, in the order they were sent, are those
   of atomic reserve and release operations, which also give the committed stock.
   A request is answered at most once, and one that was rolled back had no effect.
   */
  lemma RunsLikeAtomic(s: State, steps: seq<Step>)
    requires Initial(s) && IsRun(s, steps)
    ensures var s' := Final(s, steps);
            Explained(s.committed, s'.history) && s'.committed == Replay(s.committed, s'.history) && RepliesMatch(s')
  {
    RunKeepsInv(s.committed, s, steps);
  }

  /** Two units can never be sold from one: committed stock is never negative. */
  lemma StockNeverNegative(s: State, steps: seq<Step>, p: ProductId)
    requires Initial(s) && IsRun(s, steps) && p in Final(s, steps).committed
    ensures 0 <= Final(s, steps).committed[p]
  {
    RunKeepsInv(s.committed, s, steps);
  }

  /** `remainingStock` is the stock this very commit left behind. */
  lemma RemainingIsCommitted(s: State, steps: seq<Step>, t: nat)
    requires Initial(s) && IsRun(s, steps) && CanStep(Final(s, steps), Commit(t))
    ensures var s' := Final(s, steps);
            var p := s'.txs[t].request.product;
            p in s'.committed && Apply(s', Commit(t)).committed[p] == s'.txs[t].phase.remaining &&
            Apply(s', Commit(t)).committed[p] ==
              s'.committed[p] + (if s'.txs[t].request.ToReserve? then -s'.txs[t].request.quantity else s'.txs[t].request.quantity)
  {
    RunKeepsInv(s.committed, s, steps);
    assert TxInv(Final(s, steps), t);
  }

  lemma {:induction false} ExplainedAt(t: Table, history: seq<Op>, i: nat)
    requires Explained(t, history) && i < |history|
    ensures history[i].outcome == Atomic(Replay(t, history[..i]), history[i].request).1
    ensures Replay(t, history[..i + 1]) == Atomic(Replay(t, history[..i]), history[i].request).0
  {
    var n := |history| - 1;
    assert history[..i + 1][..i] == history[..i];
    if i < n {
      assert history[..n][..i] == history[..i] && history[..n][..i + 1] == history[..i + 1];
      ExplainedAt(t, history[..n], i);
    }
  }

  /** What an operation on a stock without negative entries does, by product, stock and quantity. */
  predicate Means(before: Table, after: Table, r: Request, outcome: Outcome) {
    var p, q := r.product, r.quantity;
    var moved := if r.ToReserve? then -q else q;
    (outcome == Unprocessable <==> q < 1) &&
    (outcome == NotFound <==> 1 <= q && p !in before) &&
    (outcome == Insufficient <==> 1 <= q && p in before && before[p] + moved < 0) &&
    (outcome.Ok? ==> p in before && outcome.remaining == before[p] + moved && after == before[p := before[p] + moved]) &&
    (!outcome.Ok? ==> after == before)
  }

  lemma AtomicMeans(t: Table, r: Request)
    requires forall p | p in t :: 0 <= t[p]
    ensures Means(t, Atomic(t, r).0, r, Atomic(t, r).1)
  {
  }

  /**
   What a request is answered, from the stock the answers before it left: 422
   for a quantity below one, else 404 for an unknown product, else 409 for a
   reserve of more than there is; and otherwise it is granted, that product's
   stock moves by the quantity, and the reply says where to.
   */
  lemma RepliesMean(s: State, steps: seq<Step>, i: nat)
    requires Initial(s) && IsRun(s, steps) && i < |Final(s, steps).history|
    ensures var history := Final(s, steps).history;
            Means(Replay(s.committed, history[..i]), Replay(s.committed, history[..i + 1]),
                  history[i].request, history[i].outcome)
  {
    RunKeepsInv(s.committed, s, steps);
    var history := Final(s, steps).history;
    ExplainedAt(s.committed, history, i);
    ReplayNonNegative(s.committed, history[..i]);
    AtomicMeans(Replay(s.committed, history[..i]), history[i].request);
  }

  lemma {:induction false} ReplayNonNegative(t: Table, history: seq<Op>)
    requires forall p | p in t :: 0 <= t[p]
    ensures forall p | p in Replay(t, history) :: 0 <= Replay(t, history)[p]
  {
    if history != [] {
      ReplayNonNegative(t, history[..|history| - 1]);
    }
  }

  // ------------------------------------------------------ one request, undisturbed

  ghost predicate Reaches(s: State, t: State) {
    exists steps: seq<Step> :: IsRun(s, steps) && Final(s, steps) == t
  }

  lemma {:induction false} RunExtends(s: State, steps: seq<Step>, st: Step)
    requires IsRun(s, steps) && CanStep(Final(s, steps), st)
    ensures IsRun(s, steps + [st]) && Final(s, steps + [st]) == Apply(Final(s, steps), st)
    decreases |steps|
  {
    if steps == [] {
      assert [] + [st] == [st] && [st][1..] == [];
    } else {
      RunExtends(Apply(s, steps[0]), steps[1..], st);
      assert (steps + [st])[1..] == steps[1..] + [st];
    }
  }

  lemma Goes(s: State, t: State, st: Step, u: State)
    requires Reaches(s, t) && CanStep(t, st) && Apply(t, st) == u
    ensures Reaches(s, u)
  {
    var steps :| IsRun(s, steps) && Final(s, steps) == t;
    RunExtends(s, steps, st);
  }

  /** The system with one more request, at this phase. */
  function WithTx(s: State, r: Request, phase: Phase): State { s.(txs := s.txs + [Tx(r, phase)]) }

  lemma Begins(s: State, r: Request)
    ensures Reaches(s, WithTx(s, r, Begun))
  {
    assert IsRun(s, []) && Final(s, []) == s;
    Goes(s, s, Begin(r), WithTx(s, r, Begun));
  }

  /** The phase of the new request changes. */
  lemma Turns(s: State, r: Request, a: Phase, b: Phase)
    ensures SetPhase(WithTx(s, r, a), |s.txs|, b) == WithTx(s, r, b)
  {
    assert (s.txs + [Tx(r, a)])[|s.txs| := Tx(r, b)] == s.txs + [Tx(r, b)];
  }

  /** The first statement finds the row: it is locked, and read or raised. */
  lemma Locks(s: State, r: Request)
    requires r.product !in s.locks && r.product in s.committed && 0 < r.quantity
    ensures var stock := s.committed[r.product];
            var phase := if r.ToReserve? then Locked(stock) else Bumped(stock + r.quantity);
            Reaches(s, WithTx(s, r, phase).(locks := s.locks[r.product := |s.txs|]))
  {
    var stock := s.committed[r.product];
    var phase := if r.ToReserve? then Locked(stock) else Bumped(stock + r.quantity);
    Begins(s, r);
    Turns(s, r, Begun, phase);
    Goes(s, WithTx(s, r, Begun), First(|s.txs|), WithTx(s, r, phase).(locks := s.locks[r.product := |s.txs|]));
  }

  /** What a whole request leaves: the stock and the reply of the atomic operation, and no lock. */
  function Served(s: State, r: Request): State {
    var (stock, outcome) := Atomic(s.committed, r);
    WithTx(s, r, Answered(outcome)).(committed := stock, history := s.history + [Op(|s.txs|, r, outcome)])
  }

  /** Whoever else is at work on other rows, a request for a row that is not locked is served as the atomic operation. */
  lemma UndisturbedRequest(s: State, r: Request)
    requires r.product !in s.locks
    ensures Reaches(s, Served(s, r))
  {
    var t, outcome := |s.txs|, Atomic(s.committed, r).1;
    if 0 < r.quantity && r.product in s.committed {
      GrantOrConflict(s, r);
    } else {
      Begins(s, r);
      Turns(s, r, Begun, Answered(outcome));
      Goes(s, WithTx(s, r, Begun), First(t), Served(s, r));
    }
  }

  lemma GrantOrConflict(s: State, r: Request)
    requires r.product !in s.locks && r.product in s.committed && 0 < r.quantity
    ensures Reaches(s, Served(s, r))
  {
    var t, stock, outcome := |s.txs|, s.committed[r.product], Atomic(s.committed, r).1;
    var phase := if r.ToReserve? then Locked(stock) else Bumped(stock + r.quantity);
    var locks := s.locks[r.product := t];
    Locks(s, r);
    assert locks - {r.product} == s.locks;
    var held := WithTx(s, r, phase).(locks := locks);
    if outcome.Ok? {
      var ready := Ready(outcome.remaining, outcome.remaining);
      Turns(s.(locks := locks), r, phase, ready);
      Goes(s, held, Next(t), WithTx(s, r, ready).(locks := locks));
      Turns(s.(locks := locks), r, ready, Answered(outcome));
      Goes(s, WithTx(s, r, ready).(locks := locks), Commit(t), Served(s, r));
    } else {
      Turns(s.(locks := locks), r, phase, Answered(outcome));
      Goes(s, held, Next(t), Served(s, r));
    }
  }
}
