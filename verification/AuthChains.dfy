/** Token chains, the bound on unrevoked tokens, and the reuse rule, over every run of AuthTokens. */
module AuthChains {
  import opened Common
  import opened AuthTokens

  // ---- Chains ----

  /** The token among the first `n` that `j` replaces. */
  function Predecessor(tokens: seq<Token>, n: nat, j: nat): (r: Option<nat>)
    requires n <= |tokens|
    ensures r.Some? ==> r.value < n && Replaces(tokens, r.value, j)
    ensures r.None? ==> forall i :: 0 <= i < n ==> !Replaces(tokens, i, j)
  {
    if n == 0 then None
    else if Replaces(tokens, n - 1, j) then Some(n - 1)
    else Predecessor(tokens, n - 1, j)
  }

  /** The first token of the chain of `j`. */
  function Root(tokens: seq<Token>, j: nat): (r: nat)
    requires j < |tokens|
    ensures r <= j
  {
    var p := Predecessor(tokens, j, j);
    if p.None? then j else Root(tokens, p.value)
  }

  /** `j` comes from `i` by zero or more rotations. */
  predicate Reaches(tokens: seq<Token>, i: nat, j: nat)
    decreases |tokens| - i
  {
    i < |tokens| && j < |tokens|
    && (i == j
        || (tokens[i].replacedBy.Some? && i < tokens[i].replacedBy.value && Reaches(tokens, tokens[i].replacedBy.value, j)))
  }

  lemma PredecessorIsTheOne(s: Store, j: nat)
    requires StoreOk(s) && j < |s.tokens|
    ensures Predecessor(s.tokens, j, j).None? <==> j in s.logins
    ensures forall i :: 0 <= i < |s.tokens| && Replaces(s.tokens, i, j) ==> Predecessor(s.tokens, j, j) == Some(i)
  {
    forall i | 0 <= i < |s.tokens| && Replaces(s.tokens, i, j) ensures i < j {
      assert LinkOk(s.tokens, i);
    }
    if HasPredecessor(s.tokens, j) {
      var i :| 0 <= i < |s.tokens| && Replaces(s.tokens, i, j);
    } else {
      assert forall i :: 0 <= i < |s.tokens| ==> !Replaces(s.tokens, i, j);
    }
  }

  lemma {:induction false} ReachesStep(tokens: seq<Token>, i: nat, p: nat, j: nat)
    requires Reaches(tokens, i, p) && Replaces(tokens, p, j) && p < j < |tokens|
    ensures Reaches(tokens, i, j)
    decreases |tokens| - i
  {
    if i != p {
      ReachesStep(tokens, tokens[i].replacedBy.value, p, j);
    }
  }

  lemma {:induction false} ReachesForward(tokens: seq<Token>, i: nat, j: nat)
    requires Reaches(tokens, i, j)
    ensures i <= j
    decreases |tokens| - i
  {
    if i != j {
      ReachesForward(tokens, tokens[i].replacedBy.value, j);
    }
  }

  /** Every chain starts at a login, stays with one user and leads to the token. */
  lemma {:induction false} RootIsLogin(s: Store, j: nat)
    requires StoreOk(s) && j < |s.tokens|
    ensures var r := Root(s.tokens, j);
      r in s.logins && s.tokens[r].user == s.tokens[j].user && Reaches(s.tokens, r, j)
    decreases j
  {
    PredecessorIsTheOne(s, j);
    var p := Predecessor(s.tokens, j, j);
    if p.Some? {
      RootIsLogin(s, p.value);
      assert LinkOk(s.tokens, p.value);
      ReachesStep(s.tokens, Root(s.tokens, j), p.value, j);
    }
  }

  lemma {:induction false} ReachesSameRoot(s: Store, i: nat, j: nat)
    requires StoreOk(s) && Reaches(s.tokens, i, j)
    ensures Root(s.tokens, i) == Root(s.tokens, j)
    decreases |s.tokens| - i
  {
    if i != j {
      var k := s.tokens[i].replacedBy.value;
      ReachesSameRoot(s, k, j);
      assert Replaces(s.tokens, i, k);
      PredecessorIsTheOne(s, k);
    }
  }

  /** The chains partition the tokens: each token lies on the chain of exactly one login. */
  lemma OneChainPerToken(s: Store, j: nat)
    requires StoreOk(s) && j < |s.tokens|
    ensures Root(s.tokens, j) in s.logins
    ensures forall l :: l in s.logins ==> (Reaches(s.tokens, l, j) <==> l == Root(s.tokens, j))
  {
    RootIsLogin(s, j);
    forall l | l in s.logins && Reaches(s.tokens, l, j) ensures l == Root(s.tokens, j) {
      ReachesSameRoot(s, l, j);
      PredecessorIsTheOne(s, l);
    }
  }

  /** Two tokens of one chain: the later comes from the earlier. */
  lemma {:induction false} ChainIsLinear(s: Store, i: nat, j: nat)
    requires StoreOk(s) && i <= j < |s.tokens| && Root(s.tokens, i) == Root(s.tokens, j)
    ensures Reaches(s.tokens, i, j)
    decreases j
  {
    if i < j {
      PredecessorIsTheOne(s, j);
      var p := Predecessor(s.tokens, j, j).value;
      if i <= p {
        ChainIsLinear(s, i, p);
        ReachesStep(s.tokens, i, p, j);
      } else {
        ChainIsLinear(s, p, i);
        ReachesForward(s.tokens, j, i);
      }
    }
  }

  /** Only the last token of a chain can be unrevoked. */
  lemma {:induction false} OneUnrevokedPerChain(s: Store, i: nat, j: nat)
    requires StoreOk(s) && i < |s.tokens| && j < |s.tokens|
    requires Unrevoked(s.tokens[i]) && Root(s.tokens, i) == Root(s.tokens, j)
    ensures j <= i
    ensures Unrevoked(s.tokens[j]) ==> i == j
  {
    assert LinkOk(s.tokens, i) && LinkOk(s.tokens, j);
    if i < j {
      ChainIsLinear(s, i, j);
    } else if j < i {
      ChainIsLinear(s, j, i);
    }
  }

  // ---- Counting ----

  function UnrevokedOf(s: Store, user: nat): set<nat> {
    set i: nat | i < |s.tokens| && s.tokens[i].user == user && Unrevoked(s.tokens[i])
  }

  /** The tokens issued by the user's logins; `logins` has no duplicates, so there is one per login. */
  function LoginsOf(s: Store, user: nat): set<nat> {
    set i: nat | i in s.logins && i < |s.tokens| && s.tokens[i].user == user
  }

  /** A user's unrevoked tokens never outnumber that user's logins. */
  lemma UnrevokedAtMostLogins(s: Store, user: nat)
    requires StoreOk(s)
    ensures |UnrevokedOf(s, user)| <= |LoginsOf(s, user)|
  {
    var from := UnrevokedOf(s, user);
    var roots := map i | i in from :: Root(s.tokens, i);
    forall i | i in from ensures roots[i] in LoginsOf(s, user) {
      RootIsLogin(s, i);
    }
    forall i, j | i in from && j in from && roots[i] == roots[j] ensures i == j {
      OneUnrevokedPerChain(s, i, j);
    }
    InjectionBound(from, LoginsOf(s, user), roots);
  }

  /** Every reachable token table consists of login chains with at most one unrevoked token each. */
  lemma {:induction false} ChainsInEveryRun(start: Store, ops: seq<Op>, i: nat, j: nat)
    requires Empty(start) && i < |Run(start, ops).tokens| && j < |Run(start, ops).tokens|
    ensures var s := Run(start, ops);
      && StoreOk(s)
      && Root(s.tokens, i) in s.logins && s.tokens[Root(s.tokens, i)].user == s.tokens[i].user
      && (i <= j && Root(s.tokens, i) == Root(s.tokens, j) ==> Reaches(s.tokens, i, j))
      && (Root(s.tokens, i) == Root(s.tokens, j) && Unrevoked(s.tokens[i]) && Unrevoked(s.tokens[j]) ==> i == j)
      && |UnrevokedOf(s, s.tokens[i].user)| <= |LoginsOf(s, s.tokens[i].user)|
  {
    hide StoreOk, Run;
    EmptyOk(start);
    RunOk(start, ops);
    var s := Run(start, ops);
    RootIsLogin(s, i);
    UnrevokedAtMostLogins(s, s.tokens[i].user);
    if Root(s.tokens, i) == Root(s.tokens, j) {
      if i <= j {
        ChainIsLinear(s, i, j);
      }
      if Unrevoked(s.tokens[i]) {
        OneUnrevokedPerChain(s, i, j);
      }
    }
  }

  lemma EmptyOk(s: Store)
    requires Empty(s)
    ensures StoreOk(s)
  {
  }

  // ---- Reuse ----

  predicate AllRevoked(s: Store, user: nat) {
    forall i :: 0 <= i < |s.tokens| && s.tokens[i].user == user ==> s.tokens[i].revokedAt.Some?
  }

  /** Sparing replaced rows spares no unrevoked one, because in an orderly table a replaced row is revoked. */
  lemma RevokingCoversAll(s: Store, user: nat, now: int)
    ensures StoreOk(s) ==> AllRevoked(s.(tokens := RevokeAllActive(s.tokens, user, now)), user)
  {
    if StoreOk(s) {
      forall i | 0 <= i < |s.tokens| ensures s.tokens[i].revokedAt.None? ==> s.tokens[i].replacedBy.None? {
        assert LinkOk(s.tokens, i);
      }
    }
  }

  /** Presenting a consumed or revoked token revokes every token of its user. */
  lemma ReuseRevokesAll(s: Store, now: int, presented: nat, secret: nat)
    requires StoreOk(s)
    requires var found := Find(s.tokens, |s.tokens|, presented);
      found.Some? && (s.tokens[found.value].revokedAt.Some? || s.tokens[found.value].replacedBy.Some?)
    ensures var user := s.tokens[Find(s.tokens, |s.tokens|, presented).value].user;
      var r := Refresh(s, now, presented, secret);
      && r.result == ReuseDetected && AllRevoked(r.store, user)
      && forall i :: 0 <= i < |s.tokens| && s.tokens[i].user != user ==> r.store.tokens[i] == s.tokens[i]
  {
    RevokingCoversAll(s, s.tokens[Find(s.tokens, |s.tokens|, presented).value].user, now);
  }

  /** No operation of `ops` is a login of `user` with the right password. */
  predicate NoLoginOf(ops: seq<Op>, user: nat) {
    forall k :: 0 <= k < |ops| && ops[k].DoLogin? && ops[k].credentialsOk ==> ops[k].user != user
  }

  lemma StaysRevoked(s: Store, op: Op, user: nat)
    requires StoreOk(s) && AllRevoked(s, user) && NoLoginOf([op], user)
    ensures AllRevoked(Apply(s, op), user)
  {
    hide StoreOk, Fresh;
    ApplyOk(s, op);
    assert op.DoLogin? && op.credentialsOk ==> op.user != user by { assert [op][0] == op; }
  }

  lemma RevokedCannotRefresh(s: Store, user: nat, now: int, presented: nat, secret: nat)
    requires AllRevoked(s, user)
    ensures Refresh(s, now, presented, secret).result.Rotated? ==>
      s.tokens[Find(s.tokens, |s.tokens|, presented).value].user != user
  {
  }

  /** Once all of a user's tokens are revoked, no refresh for that user succeeds before the next login. */
  lemma {:induction false} LockedOutUntilLogin(s: Store, ops: seq<Op>, user: nat, now: int, presented: nat, secret: nat)
    requires StoreOk(s) && AllRevoked(s, user) && NoLoginOf(ops, user)
    ensures AllRevoked(Run(s, ops), user)
    ensures var s' := Run(s, ops);
      Refresh(s', now, presented, secret).result.Rotated? ==>
        s'.tokens[Find(s'.tokens, |s'.tokens|, presented).value].user != user
    decreases |ops|
  {
    hide StoreOk, Apply, Refresh, AllRevoked, Find;
    if |ops| == 0 {
      RevokedCannotRefresh(s, user, now, presented, secret);
    } else {
      assert [ops[0]][0] == ops[0];
      StaysRevoked(s, ops[0], user);
      ApplyOk(s, ops[0]);
      LockedOutUntilLogin(Apply(s, ops[0]), ops[1..], user, now, presented, secret);
    }
  }

  /** A refresh succeeds exactly for an unrevoked, unexpired token of an active user. */
  lemma RefreshSucceedsIff(s: Store, now: int, i: nat, secret: nat)
    requires StoreOk(s) && i < |s.tokens|
    ensures Refresh(s, now, s.tokens[i].secret, secret).result.Rotated? <==>
      Unrevoked(s.tokens[i]) && now < s.tokens[i].expiresAt && IsActive(s, s.tokens[i].user)
  {
    assert LinkOk(s.tokens, i);
    FindIs(s, s.tokens[i].secret, i);
  }

  /** Seven days. */
  const LIFETIME := 7 * 24 * 60 * 60

  /** A login succeeds exactly with good credentials of a user who is active, and changes nothing otherwise. */
  lemma {:induction false} LoginSucceedsIff(s: Store, now: int, user: nat, credentialsOk: bool, secret: nat)
    ensures var step := Login(s, now, user, credentialsOk, secret);
      && (step.result == LoggedIn(secret) <==> credentialsOk && user in s.active && s.active[user])
      && (step.result.LoginRefused? ==> step.store == s)
  {
  }

  /** A login adds one token for its user, good for a refresh within seven days and not after. */
  lemma {:induction false} LoginLastsSevenDays(s: Store, now: int, user: nat, secret: nat, later: int, next: nat)
    requires StoreOk(s) && Fresh(s.tokens, secret) && IsActive(s, user)
    ensures var s' := Login(s, now, user, true, secret).store;
      && s'.tokens == s.tokens + [Token(user, secret, now + LIFETIME, None, None)]
      && Refresh(s', later, secret, next).result == if later < now + LIFETIME then Rotated(next) else Expired
  {
    hide Fresh, Extends;
    var s' := Login(s, now, user, true, secret).store;
    LoginOk(s, now, user, true, secret);
    FindIs(s', secret, |s.tokens|);
  }

  /** A rotation consumes one token, links it, and adds one for the same user that starts its own seven days. */
  lemma {:induction false} RotationRenews(s: Store, now: int, i: nat, secret: nat, later: int, next: nat)
    requires StoreOk(s) && Fresh(s.tokens, secret) && i < |s.tokens|
    requires Refresh(s, now, s.tokens[i].secret, secret).result.Rotated?
    ensures var s', user := Refresh(s, now, s.tokens[i].secret, secret).store, s.tokens[i].user;
      && s'.tokens == s.tokens[i := s.tokens[i].(revokedAt := Some(now), replacedBy := Some(|s.tokens|))]
                      + [Token(user, secret, now + LIFETIME, None, None)]
      && Refresh(s', later, secret, next).result == if later < now + LIFETIME then Rotated(next) else Expired
  {
    hide Fresh, Extends;
    FindIs(s, s.tokens[i].secret, i);
    var s' := Refresh(s, now, s.tokens[i].secret, secret).store;
    RefreshOk(s, now, s.tokens[i].secret, secret);
    FindIs(s', secret, |s.tokens|);
  }

  /** A refresh that neither succeeds nor detects reuse changes nothing. */
  lemma RefusedRefreshIsHarmless(s: Store, now: int, presented: nat, secret: nat)
    ensures var r := Refresh(s, now, presented, secret);
      r.result.UnknownToken? || r.result.Expired? || r.result.UserInactive? ==> r.store == s
  {
  }

  /** A logout revokes the presented token, if it is known and unrevoked, and changes nothing else. */
  lemma {:induction false} LogoutRevokesOne(s: Store, now: int, i: nat)
    requires StoreOk(s) && i < |s.tokens|
    ensures Logout(s, now, s.tokens[i].secret) ==
      if Unrevoked(s.tokens[i]) then s.(tokens := s.tokens[i := s.tokens[i].(revokedAt := Some(now))]) else s
  {
    hide StoreOk;
    FindIs(s, s.tokens[i].secret, i);
  }

  /** A rotation consumes the presented token: presenting it again is reuse and ends every session of the user. */
  lemma ReplayAfterRotation(s: Store, now: int, presented: nat, secret: nat, later: int, next: nat)
    requires StoreOk(s) && Fresh(s.tokens, secret) && Refresh(s, now, presented, secret).result.Rotated?
    ensures var s' := Refresh(s, now, presented, secret).store;
      var user := s.tokens[Find(s.tokens, |s.tokens|, presented).value].user;
      var replay := Refresh(s', later, presented, next);
      replay.result == ReuseDetected && AllRevoked(replay.store, user)
  {
    hide Fresh, Extends;
    var i := Find(s.tokens, |s.tokens|, presented).value;
    var s' := Refresh(s, now, presented, secret).store;
    RefreshOk(s, now, presented, secret);
    assert s'.tokens[i].secret == presented && s'.tokens[i].revokedAt.Some? && s'.tokens[i].user == s.tokens[i].user;
    FindIs(s', presented, i);
    ReuseRevokesAll(s', later, presented, next);
  }

  /** A token presented after its logout counts as reuse and ends every other session of its user. */
  lemma RefreshAfterLogout(s: Store, now: int, i: nat, later: int, secret: nat)
    requires StoreOk(s) && i < |s.tokens|
    ensures var s' := Logout(s, now, s.tokens[i].secret);
      var r := Refresh(s', later, s.tokens[i].secret, secret);
      r.result == ReuseDetected && AllRevoked(r.store, s.tokens[i].user)
  {
    hide Extends;
    var s' := Logout(s, now, s.tokens[i].secret);
    assert LinkOk(s.tokens, i);
    FindIs(s, s.tokens[i].secret, i);
    ApplyOk(s, DoLogout(s.tokens[i].secret, now));
    FindIs(s', s.tokens[i].secret, i);
    ReuseRevokesAll(s', later, s.tokens[i].secret, secret);
  }

  // ---- The service ----

  /** `AuthService`, on rows assigned one field at a time. */
  class AuthService {
    var tokens: seq<Token>
    var active: map<nat, bool>
    ghost var logins: seq<nat>

    constructor (active: map<nat, bool>)
      ensures State() == Store([], active, [])
    {
      tokens, this.active, logins := [], active, [];
    }

    ghost function State(): Store
      reads this
    {
      Store(tokens, active, logins)
    }

    predicate UserIsActive(user: nat)
      reads this
    {
      user in active && active[user]
    }

    method IssueRefreshToken(user: nat, secret: nat, now: int) returns (id: nat)
      modifies this`tokens
      ensures id == |old(tokens)| && tokens == old(tokens) + [Issued(user, secret, now)]
    {
      id := |tokens|;
      tokens := tokens + [Token(user, secret, now + REFRESH_TTL, None, None)];
    }

    method HandleReuse(user: nat, now: int)
      modifies this`tokens
      ensures |tokens| == |old(tokens)|
      ensures forall i :: 0 <= i < |tokens| && old(tokens)[i].user != user ==> tokens[i] == old(tokens)[i]
      ensures forall i :: 0 <= i < |tokens| && old(tokens)[i].user == user ==>
        if old(tokens)[i].revokedAt.Some? || old(tokens)[i].replacedBy.Some? then tokens[i] == old(tokens)[i]
        else tokens[i] == old(tokens)[i].(revokedAt := Some(now))
      ensures StoreOk(old(State())) ==> AllRevoked(State(), user)
    {
      RevokingCoversAll(State(), user, now);
      tokens := RevokeAllActive(tokens, user, now);
    }

    method SignIn(user: nat, credentialsOk: bool, secret: nat, now: int) returns (r: LoginResult)
      modifies this`tokens, this`logins
      ensures LoginStep(State(), r) == Login(old(State()), now, user, credentialsOk, secret)
    {
      if !credentialsOk {
        return LoginRefused;
      }
      if !UserIsActive(user) {
        return LoginRefused;
      }
      var id := IssueRefreshToken(user, secret, now);
      logins := logins + [id];
      return LoggedIn(secret);
    }

    method Rotate(presented: nat, secret: nat, now: int) returns (r: RefreshResult)
      modifies this`tokens
      ensures RefreshStep(State(), r) == Refresh(old(State()), now, presented, secret)
    {
      hide RevokeAllActive;
      var found := Find(tokens, |tokens|, presented);
      if found.None? {
        return UnknownToken;
      }
      var id := found.value;
      var record := tokens[id];
      if record.revokedAt.Some? || record.replacedBy.Some? {
        HandleReuse(record.user, now);
        return ReuseDetected;
      }
      if record.expiresAt <= now {
        return Expired;
      }
      if !UserIsActive(record.user) {
        return UserInactive;
      }
      tokens := tokens[id := tokens[id].(revokedAt := Some(now))];
      var replacement := IssueRefreshToken(record.user, secret, now);
      tokens := tokens[id := tokens[id].(replacedBy := Some(replacement))];
      return Rotated(secret);
    }

    method SignOut(presented: nat, now: int)
      modifies this`tokens
      ensures State() == Logout(old(State()), now, presented)
    {
      var found := Find(tokens, |tokens|, presented);
      if found.None? {
        return;
      }
      if tokens[found.value].revokedAt.None? {
        tokens := tokens[found.value := tokens[found.value].(revokedAt := Some(now))];
      }
    }
  }
}
