/**
 Refresh-token rotation: `refresh` revokes the presented token in the database
 and on a TTL blacklist, then issues a new one. Requests run one after the
 other; either commit of a request may be lost. Times are in microseconds.
 */
module RefreshTokens {
  const SECOND := 1_000_000

  type User = string
  type TokenId = nat

  datatype Row = Row(user: User, expiresAt: int, revoked: bool)

  /** How a request ends: whole, or with the commit after `blacklist_add` or the commit of the new token lost. */
  datatype Fate = Whole | LostCommit | LostIssue

  /** History, not stored by the service: the login a token descends from, and the token it replaced. */
  datatype Origin = LoggedIn | Rotated(from: TokenId)
  datatype Lineage = Lineage(login: TokenId, origin: Origin)

  datatype Accept = Accept(token: TokenId, at: int, fate: Fate)

  /** Tokens are numbered in order of issue; `blacklist` maps a token to its key's expiry. */
  datatype State = State(
    now: int, ttl: int, users: set<User>, rows: seq<Row>, blacklist: map<TokenId, int>,
    lines: seq<Lineage>, accepts: seq<Accept>)

  datatype Step =
    | Tick(d: nat) | Register(user: User) | Login(user: User, fate: Fate)
    | Refresh(token: TokenId, fate: Fate) | Logout(token: TokenId, user: User, fate: Fate)

  predicate Blacklisted(s: State, t: TokenId) { t in s.blacklist && s.now < s.blacklist[t] }

  /** What `refresh` accepts. */
  predicate Usable(s: State, t: TokenId) {
    !Blacklisted(s, t) && t < |s.rows| && !s.rows[t].revoked && s.now <= s.rows[t].expiresAt && s.rows[t].user in s.users
  }

  /** `int(... .total_seconds())`, which truncates toward zero. */
  function WholeSeconds(us: int): int { if 0 <= us then us / SECOND else -(-us / SECOND) }

  /** `blacklist_add`: no key for less than a second. */
  function BlacklistAdd(blacklist: map<TokenId, int>, now: int, t: TokenId, seconds: int): map<TokenId, int> {
    if 0 < seconds then blacklist[t := now + seconds * SECOND] else blacklist
  }

  function Issued(s: State, user: User, line: Lineage): State {
    s.(rows := s.rows + [Row(user, s.now + s.ttl, false)], lines := s.lines + [line])
  }

  /** The row revoked and the key set, as far as the request gets. */
  function Revoked(s: State, t: TokenId, fate: Fate): State
    requires t < |s.rows|
  {
    var listed := s.(blacklist := BlacklistAdd(s.blacklist, s.now, t, WholeSeconds(s.rows[t].expiresAt - s.now)));
    if fate == LostCommit then listed else listed.(rows := s.rows[t := s.rows[t].(revoked := true)])
  }

  function Apply(s: State, st: Step): State {
    match st
    case Tick(d) => s.(now := s.now + d)
    case Register(user) => s.(users := s.users + {user})
    case Login(user, fate) =>
      if user in s.users && fate == Whole then Issued(s, user, Lineage(|s.rows|, LoggedIn)) else s
    case Refresh(t, fate) =>
      if !Usable(s, t) || |s.lines| != |s.rows| then s
      else
        var done := Revoked(s, t, fate).(accepts := s.accepts + [Accept(t, s.now, fate)]);
        if fate == Whole then Issued(done, s.rows[t].user, Lineage(s.lines[t].login, Rotated(t))) else done
    case Logout(t, user, fate) =>
      if t < |s.rows| && s.rows[t].user == user && !s.rows[t].revoked then Revoked(s, t, fate) else s
  }

  function Final(s: State, steps: seq<Step>): State
    decreases |steps|
  {
    if steps == [] then s else Final(Apply(s, steps[0]), steps[1..])
  }

  predicate Initial(s: State) { s.rows == [] && s.lines == [] && s.accepts == [] && s.blacklist == map[] }

  // ---------------------------------------------------------------- invariant

  /** Two tokens of one login: the earlier one is revoked. */
  predicate ChainInv(s: State) {
    |s.lines| == |s.rows| &&
    (forall t | 0 <= t < |s.lines| :: s.lines[t].login <= t) &&
    (forall t, u | 0 <= t < u < |s.rows| && s.lines[t].login == s.lines[u].login :: s.rows[t].revoked) &&
    (forall t | 0 <= t < |s.lines| && s.lines[t].origin.Rotated? ::
      s.lines[t].origin.from < t && s.rows[s.lines[t].origin.from].revoked &&
      s.lines[s.lines[t].origin.from].login == s.lines[t].login)
  }

  predicate ChildrenInv(s: State) {
    |s.lines| == |s.rows| &&
    forall t, u | 0 <= t < u < |s.lines| && s.lines[t].origin.Rotated? :: s.lines[u].origin != s.lines[t].origin
  }

  /** An accepted token is revoked, or its acceptance lost the commit. */
  predicate AcceptInv(s: State, a: Accept) {
    a.token < |s.rows| && a.at <= s.now && a.at <= s.rows[a.token].expiresAt &&
    (a.fate != LostCommit ==> s.rows[a.token].revoked) &&
    (a.fate == LostCommit ==> s.rows[a.token].revoked || Shut(s, a))
  }

  /** Until the last second before it expires, the blacklist still knows the token. */
  predicate Shut(s: State, a: Accept)
    requires a.token < |s.rows|
  {
    s.rows[a.token].expiresAt - SECOND < a.at ||
    (a.token in s.blacklist && s.rows[a.token].expiresAt - SECOND < s.blacklist[a.token])
  }

  /** An accept after another of the same token comes after a lost commit, in the token's last second. */
  predicate AgainInv(s: State, i: nat, j: nat)
    requires i < |s.accepts| && j < |s.accepts|
  {
    i < j && s.accepts[i].token == s.accepts[j].token ==>
      s.accepts[i].fate == LostCommit && s.accepts[i].token < |s.rows| &&
      s.rows[s.accepts[i].token].expiresAt - SECOND < s.accepts[j].at <= s.rows[s.accepts[i].token].expiresAt
  }

  predicate Inv(s: State) {
    ChainInv(s) && ChildrenInv(s) && (forall i | 0 <= i < |s.accepts| :: AcceptInv(s, s.accepts[i])) &&
    forall i, j | 0 <= i < |s.accepts| && 0 <= j < |s.accepts| :: AgainInv(s, i, j)
  }

  lemma RevokeKeepsChain(s: State, t: TokenId, fate: Fate)
    requires ChainInv(s) && t < |s.rows|
    ensures ChainInv(Revoked(s, t, fate))
  {
  }

  lemma IssueKeepsChain(s: State, user: User, line: Lineage)
    requires ChainInv(s) && line.login <= |s.rows|
    requires forall t | 0 <= t < |s.rows| && s.lines[t].login == line.login :: s.rows[t].revoked
    requires line.origin.Rotated? ==>
               line.origin.from < |s.rows| && s.rows[line.origin.from].revoked && s.lines[line.origin.from].login == line.login
    ensures ChainInv(Issued(s, user, line))
  {
  }

  lemma StepKeepsChain(s: State, st: Step)
    requires ChainInv(s)
    ensures ChainInv(Apply(s, st))
  {
    match st
    case Login(user, fate) =>
      IssueKeepsChain(s, user, Lineage(|s.rows|, LoggedIn));
    case Refresh(t, fate) =>
      if Usable(s, t) {
        RevokeKeepsChain(s, t, fate);
        var done := Revoked(s, t, fate).(accepts := s.accepts + [Accept(t, s.now, fate)]);
        if fate == Whole {
          EarlierRevoked(s, t);
          IssueKeepsChain(done, s.rows[t].user, Lineage(s.lines[t].login, Rotated(t)));
        }
      }
    case Logout(t, user, fate) =>
      if t < |s.rows| {
        RevokeKeepsChain(s, t, fate);
      }
    case _ =>
  }

  /** All other tokens of an unrevoked token's login are revoked. */
  lemma EarlierRevoked(s: State, t: TokenId)
    requires ChainInv(s) && t < |s.rows| && !s.rows[t].revoked
    ensures forall u | 0 <= u < |s.rows| && u != t && s.lines[u].login == s.lines[t].login :: s.rows[u].revoked
  {
  }

  lemma StepKeepsChildren(s: State, st: Step)
    requires ChainInv(s) && ChildrenInv(s)
    ensures ChildrenInv(Apply(s, st))
  {
  }

  lemma StepKeepsAccept(s: State, st: Step, a: Accept)
    requires ChainInv(s) && AcceptInv(s, a)
    ensures AcceptInv(Apply(s, st), a)
  {
  }

  lemma StepKeepsAgain(s: State, st: Step, i: nat, j: nat)
    requires Inv(s) && i < |Apply(s, st).accepts| && j < |Apply(s, st).accepts|
    ensures AgainInv(Apply(s, st), i, j)
  {
    var s' := Apply(s, st);
    if i < j {
      if j < |s.accepts| {
        assert AgainInv(s, i, j);
      } else if s.accepts[i].token == st.token {
        assert AcceptInv(s, s.accepts[i]);
      }
    }
  }

  lemma StepKeepsInv(s: State, st: Step)
    requires Inv(s)
    ensures Inv(Apply(s, st))
  {
    var s' := Apply(s, st);
    StepKeepsChain(s, st);
    StepKeepsChildren(s, st);
    forall i | 0 <= i < |s'.accepts| ensures AcceptInv(s', s'.accepts[i]) {
      if i < |s.accepts| {
        StepKeepsAccept(s, st, s.accepts[i]);
      } else {
        NewAccept(s, st);
      }
    }
    forall i, j | 0 <= i < |s'.accepts| && 0 <= j < |s'.accepts| ensures AgainInv(s', i, j) {
      StepKeepsAgain(s, st, i, j);
    }
  }

  lemma NewAccept(s: State, st: Step)
    requires ChainInv(s) && |s.accepts| < |Apply(s, st).accepts|
    ensures AcceptInv(Apply(s, st), Apply(s, st).accepts[|s.accepts|])
  {
  }

  lemma {:induction false} RunKeepsInv(s: State, steps: seq<Step>)
    requires Inv(s)
    ensures Inv(Final(s, steps))
    decreases |steps|
  {
    if steps != [] {
      StepKeepsInv(s, steps[0]);
      RunKeepsInv(Apply(s, steps[0]), steps[1..]);
    }
  }

  // ----------------------------------------------------------------- theorems

  /**
   A refresh token is accepted once, unless the commit after `blacklist_add`
   was lost: then again, but only in the last second before it expires.
   */
  lemma AcceptedOnce(s: State, steps: seq<Step>, i: nat, j: nat)
    requires Initial(s) && i < j < |Final(s, steps).accepts|
    requires Final(s, steps).accepts[i].token == Final(s, steps).accepts[j].token
    ensures var s' := Final(s, steps);
            var t := s'.accepts[i].token;
            t < |s'.rows| && s'.accepts[i].fate == LostCommit &&
            s'.rows[t].expiresAt - SECOND < s'.accepts[j].at <= s'.rows[t].expiresAt
  {
    RunKeepsInv(s, steps);
    assert AgainInv(Final(s, steps), i, j);
  }

  /** At most one token of a login is not revoked, and no token is replaced twice, whatever is lost. */
  lemma OneLiveDescendant(s: State, steps: seq<Step>, t: TokenId, u: TokenId)
    requires Initial(s) && t < u < |Final(s, steps).rows|
    ensures var s' := Final(s, steps);
            |s'.lines| == |s'.rows| &&
            (s'.lines[t].login == s'.lines[u].login ==> s'.rows[t].revoked) &&
            (s'.lines[t].origin.Rotated? ==> s'.lines[t].origin != s'.lines[u].origin)
  {
    RunKeepsInv(s, steps);
  }

  /** A revoked token stays revoked and is never accepted again. */
  lemma {:induction false} RevokedIsFinal(s: State, steps: seq<Step>, t: TokenId)
    requires t < |s.rows| && s.rows[t].revoked
    ensures t < |Final(s, steps).rows| && Final(s, steps).rows[t].revoked && !Usable(Final(s, steps), t)
    decreases |steps|
  {
    if steps != [] {
      RevokedIsFinal(Apply(s, steps[0]), steps[1..], t);
    }
  }

  /** A step that presents some other token, or none. */
  predicate Elsewhere(st: Step, t: TokenId) { st.Refresh? || st.Logout? ==> st.token != t }

  /** Steps elsewhere leave a token's row and its blacklist key alone; time only goes on. */
  lemma {:induction false} ElsewhereKeeps(s: State, steps: seq<Step>, t: TokenId)
    requires t < |s.rows| && forall i | 0 <= i < |steps| :: Elsewhere(steps[i], t)
    ensures var s' := Final(s, steps);
            t < |s'.rows| && s'.rows[t] == s.rows[t] && s.users <= s'.users && s.now <= s'.now &&
            (t in s'.blacklist <==> t in s.blacklist) && (t in s.blacklist ==> s'.blacklist[t] == s.blacklist[t])
    decreases |steps|
  {
    if steps != [] {
      ElsewhereKeeps(Apply(s, steps[0]), steps[1..], t);
    }
  }

  lemma UsableWithin(s: State, later: State, t: TokenId)
    requires t < |s.rows| && t < |later.rows| && later.rows[t] == s.rows[t] && s.users <= later.users && s.now <= later.now
    requires t in later.blacklist <==> t in s.blacklist
    requires t in s.blacklist ==> later.blacklist[t] == s.blacklist[t]
    requires !s.rows[t].revoked && s.rows[t].user in s.users
    ensures Usable(later, t) <==> (t in s.blacklist ==> s.blacklist[t] <= later.now) && later.now <= s.rows[t].expiresAt
  {
  }

  /** The key a lost refresh leaves: it lives for the floored remaining time, or not at all. */
  lemma LostLeavesKey(s: State, t: TokenId)
    requires Usable(s, t) && |s.lines| == |s.rows|
    ensures var lost := Apply(s, Refresh(t, LostCommit));
            var floor := (s.rows[t].expiresAt - s.now) / SECOND * SECOND;
            lost.rows == s.rows && lost.users == s.users && lost.now == s.now &&
            (floor == 0 && t in lost.blacklist ==> lost.blacklist[t] <= s.now) &&
            (floor != 0 ==> t in lost.blacklist && lost.blacklist[t] == s.now + floor)
  {
  }

  /**
   When exactly a lost commit lets the token in again, whatever else happens
   meanwhile: from the floored remaining time on until it expires.
   */
  lemma AgainAfterLostCommit(s: State, t: TokenId, steps: seq<Step>)
    requires Usable(s, t) && |s.lines| == |s.rows| && forall i | 0 <= i < |steps| :: Elsewhere(steps[i], t)
    ensures var later := Final(Apply(s, Refresh(t, LostCommit)), steps);
            var floor := (s.rows[t].expiresAt - s.now) / SECOND * SECOND;
            Usable(later, t) <==> s.now + floor <= later.now <= s.rows[t].expiresAt
  {
    var lost := Apply(s, Refresh(t, LostCommit));
    LostLeavesKey(s, t);
    ElsewhereKeeps(lost, steps, t);
    UsableWithin(lost, Final(lost, steps), t);
  }

  /**
   The window is never empty: every usable token can be accepted a second time
   after a lost commit, as soon as the floored remaining time is over and no sooner.
   */
  lemma LostCommitLetsInAgain(s: State, t: TokenId)
    requires Usable(s, t) && |s.lines| == |s.rows|
    ensures var lost := Apply(s, Refresh(t, LostCommit));
            var floor := (s.rows[t].expiresAt - s.now) / SECOND * SECOND;
            0 <= floor && |Apply(Apply(lost, Tick(floor)), Refresh(t, Whole)).accepts| == |s.accepts| + 2 &&
            forall d: nat | d < floor :: !Usable(Apply(lost, Tick(d)), t)
  {
    var lost := Apply(s, Refresh(t, LostCommit));
    var floor := (s.rows[t].expiresAt - s.now) / SECOND * SECOND;
    LostLeavesKey(s, t);
    UsableWithin(lost, Apply(lost, Tick(floor)), t);
    forall d: nat | d < floor ensures !Usable(Apply(lost, Tick(d)), t) {
      UsableWithin(lost, Apply(lost, Tick(d)), t);
    }
  }

  // ------------------------------------------------------- whose token, and how long

  /** A token belongs to the user of the login it descends from; only issued tokens are blacklisted. */
  predicate OwnerInv(s: State) {
    |s.lines| == |s.rows| &&
    (forall t | 0 <= t < |s.lines| :: s.lines[t].login <= t && s.rows[t].user == s.rows[s.lines[t].login].user) &&
    forall t | t in s.blacklist :: t < |s.rows|
  }

  /** Tokens stay with their users. */
  predicate SameOwners(a: State, b: State) {
    |a.rows| <= |b.rows| && forall t | 0 <= t < |a.rows| :: b.rows[t].user == a.rows[t].user
  }

  lemma RevokeKeepsOwner(s: State, t: TokenId, fate: Fate)
    requires OwnerInv(s) && t < |s.rows|
    ensures OwnerInv(Revoked(s, t, fate)) && SameOwners(s, Revoked(s, t, fate)) && Revoked(s, t, fate).lines == s.lines
  {
  }

  lemma IssueKeepsOwner(s: State, user: User, line: Lineage)
    requires OwnerInv(s) && line.login <= |s.rows| && (line.login < |s.rows| ==> s.rows[line.login].user == user)
    ensures OwnerInv(Issued(s, user, line)) && SameOwners(s, Issued(s, user, line))
  {
  }

  lemma StepKeepsOwner(s: State, st: Step)
    requires OwnerInv(s)
    ensures OwnerInv(Apply(s, st)) && SameOwners(s, Apply(s, st))
  {
    match st
    case Login(user, fate) => IssueKeepsOwner(s, user, Lineage(|s.rows|, LoggedIn));
    case Refresh(t, fate) =>
      if Usable(s, t) {
        RevokeKeepsOwner(s, t, fate);
        var done := Revoked(s, t, fate).(accepts := s.accepts + [Accept(t, s.now, fate)]);
        IssueKeepsOwner(done, s.rows[t].user, Lineage(s.lines[t].login, Rotated(t)));
      }
    case Logout(t, user, fate) =>
      if t < |s.rows| {
        RevokeKeepsOwner(s, t, fate);
      }
    case _ =>
  }

  lemma {:induction false} RunKeepsOwner(s: State, steps: seq<Step>)
    requires OwnerInv(s)
    ensures OwnerInv(Final(s, steps)) && SameOwners(s, Final(s, steps))
    decreases |steps|
  {
    if steps != [] {
      StepKeepsOwner(s, steps[0]);
      RunKeepsOwner(Apply(s, steps[0]), steps[1..]);
    }
  }

  /** All tokens of one login are one user's. */
  lemma OneUserPerLogin(s: State, steps: seq<Step>, t: TokenId, u: TokenId)
    requires Initial(s) && t < |Final(s, steps).rows| && u < |Final(s, steps).rows|
    ensures var s' := Final(s, steps);
            |s'.lines| == |s'.rows| && (s'.lines[t].login == s'.lines[u].login ==> s'.rows[t].user == s'.rows[u].user)
  {
    RunKeepsOwner(s, steps);
  }

  predicate LoggedInWithin(steps: seq<Step>, user: User) { exists i :: 0 <= i < |steps| && steps[i] == Login(user, Whole) }

  predicate HasToken(s: State, user: User) { exists u :: 0 <= u < |s.rows| && s.rows[u].user == user }

  /** A new token is for the user who logs in, or for the user of the token that is presented. */
  lemma StepIssuesTo(s: State, st: Step)
    requires OwnerInv(s) && |s.rows| < |Apply(s, st).rows|
    ensures var user := Apply(s, st).rows[|s.rows|].user;
            |Apply(s, st).rows| == |s.rows| + 1 && user in s.users &&
            (st == Login(user, Whole) ||
             (st.Refresh? && st.fate == Whole && st.token < |s.rows| && s.rows[st.token].user == user))
  {
  }

  lemma {:induction false} TokensComeFromLogins(s: State, steps: seq<Step>, t: TokenId)
    requires OwnerInv(s) && |s.rows| <= t < |Final(s, steps).rows|
    ensures LoggedInWithin(steps, Final(s, steps).rows[t].user) || HasToken(s, Final(s, steps).rows[t].user)
    decreases |steps|
  {
    if steps != [] {
      var next, user := Apply(s, steps[0]), Final(s, steps).rows[t].user;
      StepKeepsOwner(s, steps[0]);
      if t < |next.rows| {
        StepIssuesTo(s, steps[0]);
        RunKeepsOwner(next, steps[1..]);
        assert next.rows[t].user == user;
      } else {
        TokensComeFromLogins(next, steps[1..], t);
        if LoggedInWithin(steps[1..], user) {
          var i :| 0 <= i < |steps[1..]| && steps[1..][i] == Login(user, Whole);
          assert steps[i + 1] == Login(user, Whole);
        } else {
          var u :| 0 <= u < |next.rows| && next.rows[u].user == user;
          if u == |s.rows| {
            StepIssuesTo(s, steps[0]);
          }
        }
      }
    }
  }

  /** Nobody has a token who did not log in. */
  lemma OnlyUsersWhoLoggedIn(s: State, steps: seq<Step>, t: TokenId)
    requires Initial(s) && t < |Final(s, steps).rows|
    ensures exists i | 0 <= i < |steps| :: steps[i] == Login(Final(s, steps).rows[t].user, Whole)
  {
    TokensComeFromLogins(s, steps, t);
  }

  /**
   A token, new by login or by rotation, is usable for exactly the TTL, if
   nobody presents it and whatever happens to other tokens meanwhile.
   */
  lemma FreshTokenLasts(s: State, before: seq<Step>, st: Step, after: seq<Step>)
    requires Initial(s) && |Final(s, before).rows| < |Apply(Final(s, before), st).rows|
    requires forall i | 0 <= i < |after| :: Elsewhere(after[i], |Final(s, before).rows|)
    ensures var at, later := Final(s, before), Final(Apply(Final(s, before), st), after);
            Usable(later, |at.rows|) <==> later.now <= at.now + s.ttl
  {
    RunKeepsOwner(s, before);
    TtlStays(s, before);
    var at := Final(s, before);
    StepIssuesTo(at, st);
    FreshRow(at, st);
    ElsewhereKeeps(Apply(at, st), after, |at.rows|);
    UsableWithin(Apply(at, st), Final(Apply(at, st), after), |at.rows|);
  }

  lemma FreshRow(s: State, st: Step)
    requires OwnerInv(s) && |s.rows| < |Apply(s, st).rows|
    ensures var s' := Apply(s, st);
            var t := |s.rows|;
            t !in s'.blacklist && !s'.rows[t].revoked && s'.rows[t].expiresAt == s.now + s.ttl && s'.now == s.now &&
            s'.rows[t].user in s'.users
  {
  }

  lemma {:induction false} TtlStays(s: State, steps: seq<Step>)
    ensures Final(s, steps).ttl == s.ttl
    decreases |steps|
  {
    if steps != [] {
      TtlStays(Apply(s, steps[0]), steps[1..]);
    }
  }

  // ------------------------------------------------------------------ service

  datatype Reply = Tokens(refresh: TokenId) | InvalidToken | InvalidCredentials | Done | ServerError

  class AuthService {
    const ttl: int
    var now: int
    var users: set<User>
    var rows: seq<Row>
    var blacklist: map<TokenId, int>
    ghost var lines: seq<Lineage>
    ghost var accepts: seq<Accept>

    ghost function View(): State
      reads this
    {
      State(now, ttl, users, rows, blacklist, lines, accepts)
    }

    constructor (ttl: int, now: int, users: set<User>)
      ensures Initial(View()) && this.ttl == ttl && this.now == now && this.users == users
    {
      this.ttl, this.now, this.users := ttl, now, users;
      rows, blacklist, lines, accepts := [], map[], [], [];
    }

    /** `login` with the right password. */
    method Login(user: User, fate: Fate) returns (reply: Reply)
      modifies this
      ensures View() == Apply(old(View()), Step.Login(user, fate))
      ensures reply == if user !in users then InvalidCredentials else if fate == Whole then Tokens(|old(rows)|) else ServerError
      ensures rows == if reply.Tokens? then old(rows) + [Row(user, now + ttl, false)] else old(rows)
      ensures now == old(now) && users == old(users) && blacklist == old(blacklist)
    {
      if user !in users {
        return InvalidCredentials;
      }
      if fate != Whole {
        return ServerError;
      }
      reply := Issue(user, Lineage(|rows|, LoggedIn));
    }

    /** `_issue_tokens`: one new unrevoked row. */
    method Issue(user: User, ghost line: Lineage) returns (reply: Reply)
      modifies `rows, `lines
      ensures View() == Issued(old(View()), user, line) && reply == Tokens(|old(rows)|)
    {
      reply := Tokens(|rows|);
      rows := rows + [Row(user, now + ttl, false)];
      lines := lines + [line];
    }

    /** The blacklist key first, then the commit of the revoked row, unless it is lost. */
    method Revoke(t: TokenId, fate: Fate)
      requires t < |rows|
      modifies `rows, `blacklist
      ensures View() == Revoked(old(View()), t, fate)
    {
      var remaining := WholeSeconds(rows[t].expiresAt - now);
      if remaining > 0 {
        blacklist := blacklist[t := now + remaining * SECOND];
      }
      if fate != LostCommit {
        rows := rows[t := rows[t].(revoked := true)];
      }
    }

    /** `refresh`: the blacklist before the row, then rotate. */
    method Refresh(t: TokenId, fate: Fate) returns (reply: Reply)
      requires |lines| == |rows|
      modifies this
      ensures View() == Apply(old(View()), Step.Refresh(t, fate))
      ensures reply == InvalidToken <==>
                (t in old(blacklist) && now < old(blacklist)[t]) || t >= |old(rows)| || old(rows)[t].revoked ||
                old(rows)[t].expiresAt < now || old(rows)[t].user !in users
      ensures reply != InvalidToken ==> reply == if fate == Whole then Tokens(|old(rows)|) else ServerError
      ensures reply == InvalidToken ==> rows == old(rows) && blacklist == old(blacklist)
      ensures reply.Tokens? ==>
                rows == old(rows)[t := old(rows)[t].(revoked := true)] + [Row(old(rows)[t].user, now + ttl, false)] &&
                rows[reply.refresh].user == old(rows)[t].user
      ensures reply == ServerError ==>
                rows == if fate == LostCommit then old(rows) else old(rows)[t := old(rows)[t].(revoked := true)]
      ensures reply != InvalidToken ==>
                var left := (old(rows)[t].expiresAt - now) / SECOND;
                blacklist == if 1 <= left then old(blacklist)[t := now + left * SECOND] else old(blacklist)
      ensures now == old(now) && users == old(users)
    {
      if t in blacklist && now < blacklist[t] {
        return InvalidToken;
      }
      if t >= |rows| || rows[t].revoked || rows[t].expiresAt < now || rows[t].user !in users {
        return InvalidToken;
      }
      var user := rows[t].user;
      ghost var line := Lineage(lines[t].login, Rotated(t));
      Revoke(t, fate);
      accepts := accepts + [Accept(t, now, fate)];
      if fate != Whole {
        return ServerError;
      }
      reply := Issue(user, line);
    }

    /** `logout` of one's own token; anyone else's is left alone, silently. */
    method Logout(t: TokenId, user: User, fate: Fate) returns (reply: Reply)
      modifies this
      ensures View() == Apply(old(View()), Step.Logout(t, user, fate))
      ensures var own := t < |old(rows)| && old(rows)[t].user == user && !old(rows)[t].revoked;
              reply == (if fate == LostCommit && own then ServerError else Done) &&
              rows == (if fate != LostCommit && own then old(rows)[t := old(rows)[t].(revoked := true)] else old(rows)) &&
              (!own ==> blacklist == old(blacklist)) &&
              (own ==>
                var left := (old(rows)[t].expiresAt - now) / SECOND;
                blacklist == if 1 <= left then old(blacklist)[t := now + left * SECOND] else old(blacklist))
      ensures now == old(now) && users == old(users)
    {
      reply := Done;
      if t < |rows| && rows[t].user == user && !rows[t].revoked {
        Revoke(t, fate);
        if fate == LostCommit {
          reply := ServerError;
        }
      }
    }
  }
}
