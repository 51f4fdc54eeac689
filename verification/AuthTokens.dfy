/**
 * Refresh token rotation, app/auth/service.py: login, refresh and logout as atomic transactions over
 * the token table. Raw tokens are fresh and hashing is injective, so a token is found by its secret.
 */
module AuthTokens {
  import opened Common

  /** Seven days, in seconds. */
  const REFRESH_TTL := 604800

  /** A row of refresh_tokens; its id is its position, `replacedBy` the id of its replacement. */
  datatype Token = Token(user: nat, secret: nat, expiresAt: int, revokedAt: Option<int>, replacedBy: Option<nat>)

  /** `active` holds the users' `is_active` flags; `logins` lists the tokens issued by logins. */
  datatype Store = Store(tokens: seq<Token>, active: map<nat, bool>, logins: seq<nat>)

  datatype LoginResult = LoggedIn(secret: nat) | LoginRefused

  datatype RefreshResult =
    | Rotated(secret: nat)
    | UnknownToken
    | ReuseDetected
    | Expired
    | UserInactive

  predicate Unrevoked(t: Token) {
    t.revokedAt.None?
  }

  /** `get_by_token_hash` among the first `n` rows. */
  function Find(tokens: seq<Token>, n: nat, secret: nat): (r: Option<nat>)
    requires n <= |tokens|
    ensures r.Some? ==> r.value < n && tokens[r.value].secret == secret
    ensures r.None? ==> forall i :: 0 <= i < n ==> tokens[i].secret != secret
  {
    if n == 0 then None
    else if tokens[n - 1].secret == secret then Some(n - 1)
    else Find(tokens, n - 1, secret)
  }

  predicate Fresh(tokens: seq<Token>, secret: nat) {
    Find(tokens, |tokens|, secret).None?
  }

  predicate IsActive(s: Store, user: nat) {
    user in s.active && s.active[user]
  }

  /** `revoke_all_active_for_user`: rows of the user that are neither revoked nor replaced. */
  function RevokeIfActive(t: Token, user: nat, now: int): Token {
    if t.user == user && t.revokedAt.None? && t.replacedBy.None? then t.(revokedAt := Some(now)) else t
  }

  function RevokeAllActive(tokens: seq<Token>, user: nat, now: int): (r: seq<Token>)
    ensures |r| == |tokens|
    ensures forall i :: 0 <= i < |r| ==> r[i] == RevokeIfActive(tokens[i], user, now)
  {
    seq(|tokens|, i requires 0 <= i < |tokens| => RevokeIfActive(tokens[i], user, now))
  }

  function Issued(user: nat, secret: nat, now: int): Token {
    Token(user, secret, now + REFRESH_TTL, None, None)
  }

  datatype LoginStep = LoginStep(store: Store, result: LoginResult)
  datatype RefreshStep = RefreshStep(store: Store, result: RefreshResult)

  /** `login`. */
  function Login(s: Store, now: int, user: nat, credentialsOk: bool, secret: nat): LoginStep {
    if !credentialsOk || !IsActive(s, user) then LoginStep(s, LoginRefused)
    else LoginStep(
      s.(tokens := s.tokens + [Issued(user, secret, now)], logins := s.logins + [|s.tokens|]), LoggedIn(secret))
  }

  /** `refresh`. */
  function Refresh(s: Store, now: int, presented: nat, secret: nat): RefreshStep {
    var found := Find(s.tokens, |s.tokens|, presented);
    if found.None? then RefreshStep(s, UnknownToken)
    else
      var id := found.value;
      var record := s.tokens[id];
      if record.revokedAt.Some? || record.replacedBy.Some? then
        RefreshStep(s.(tokens := RevokeAllActive(s.tokens, record.user, now)), ReuseDetected)
      else if record.expiresAt <= now then RefreshStep(s, Expired)
      else if !IsActive(s, record.user) then RefreshStep(s, UserInactive)
      else
        var consumed := record.(revokedAt := Some(now), replacedBy := Some(|s.tokens|));
        RefreshStep(s.(tokens := s.tokens[id := consumed] + [Issued(record.user, secret, now)]), Rotated(secret))
  }

  /** `logout`. */
  function Logout(s: Store, now: int, presented: nat): Store {
    var found := Find(s.tokens, |s.tokens|, presented);
    if found.None? || s.tokens[found.value].revokedAt.Some? then s
    else s.(tokens := s.tokens[found.value := s.tokens[found.value].(revokedAt := Some(now))])
  }

  // ---- Runs ----

  datatype Op =
    | DoLogin(user: nat, credentialsOk: bool, secret: nat, loginTime: int)
    | DoRefresh(presented: nat, secret: nat, refreshTime: int)
    | DoLogout(presented: nat, logoutTime: int)
    | SetActive(user: nat, isActive: bool)

  /** An operation that would reuse a raw token does not happen: raw tokens are fresh. */
  function Apply(s: Store, op: Op): Store {
    match op
    case DoLogin(user, ok, secret, now) => if Fresh(s.tokens, secret) then Login(s, now, user, ok, secret).store else s
    case DoRefresh(presented, secret, now) =>
      if Fresh(s.tokens, secret) then Refresh(s, now, presented, secret).store else s
    case DoLogout(presented, now) => Logout(s, now, presented)
    case SetActive(user, isActive) => s.(active := s.active[user := isActive])
  }

  function Run(s: Store, ops: seq<Op>): Store
    decreases |ops|
  {
    if |ops| == 0 then s else Run(Apply(s, ops[0]), ops[1..])
  }

  predicate Empty(s: Store) {
    |s.tokens| == 0 && |s.logins| == 0
  }

  // ---- The table invariant ----

  /** A replaced token is revoked, and its replacement is a later token of the same user. */
  predicate LinkOk(tokens: seq<Token>, i: nat)
    requires i < |tokens|
  {
    tokens[i].replacedBy.Some? ==>
      && i < tokens[i].replacedBy.value < |tokens|
      && tokens[tokens[i].replacedBy.value].user == tokens[i].user
      && tokens[i].revokedAt.Some?
  }

  predicate Replaces(tokens: seq<Token>, i: nat, j: nat)
    requires i < |tokens|
  {
    tokens[i].replacedBy == Some(j)
  }

  ghost predicate HasPredecessor(tokens: seq<Token>, j: nat) {
    exists i :: 0 <= i < |tokens| && Replaces(tokens, i, j)
  }

  ghost predicate StoreOk(s: Store) {
    && (forall i :: 0 <= i < |s.tokens| ==> LinkOk(s.tokens, i))
    && (forall i, k, j: nat :: 0 <= i < |s.tokens| && 0 <= k < |s.tokens| && Replaces(s.tokens, i, j) && Replaces(s.tokens, k, j)
          ==> i == k)
    && (forall i, j :: 0 <= i < j < |s.tokens| ==> s.tokens[i].secret != s.tokens[j].secret)
    && (forall k :: 0 <= k < |s.logins| ==> s.logins[k] < |s.tokens|)
    && (forall k, l :: 0 <= k < l < |s.logins| ==> s.logins[k] != s.logins[l])
    && (forall j :: 0 <= j < |s.tokens| ==> (j in s.logins <==> !HasPredecessor(s.tokens, j)))
  }

  /** Same identity; a revocation and a replacement once written stay. */
  predicate TokenKept(a: Token, b: Token) {
    && b.user == a.user && b.secret == a.secret && b.expiresAt == a.expiresAt
    && (a.revokedAt.Some? ==> b.revokedAt == a.revokedAt)
    && (a.replacedBy.Some? ==> b.replacedBy == a.replacedBy)
  }

  ghost predicate Extends(a: Store, b: Store) {
    && |a.tokens| <= |b.tokens| && a.logins <= b.logins
    && forall i :: 0 <= i < |a.tokens| ==> TokenKept(a.tokens[i], b.tokens[i])
  }

  lemma ExtendsTransitive(a: Store, b: Store, c: Store)
    requires Extends(a, b) && Extends(b, c)
    ensures Extends(a, c)
  {
    assert c.logins[..|a.logins|] == b.logins[..|a.logins|];
    forall i | 0 <= i < |a.tokens| ensures TokenKept(a.tokens[i], c.tokens[i]) {
      assert TokenKept(a.tokens[i], b.tokens[i]) && TokenKept(b.tokens[i], c.tokens[i]);
    }
  }

  /** Changing `revokedAt` only, from unset, keeps the table in order. */
  lemma RevokingKeepsOk(s: Store, s': Store)
    requires StoreOk(s) && s'.logins == s.logins && |s'.tokens| == |s.tokens|
    requires forall i :: 0 <= i < |s.tokens| ==>
      s'.tokens[i] == s.tokens[i] || (s.tokens[i].revokedAt.None? && s'.tokens[i] == s.tokens[i].(revokedAt := s'.tokens[i].revokedAt))
    requires forall i :: 0 <= i < |s.tokens| && s.tokens[i].replacedBy.Some? ==> s'.tokens[i] == s.tokens[i]
    ensures StoreOk(s') && Extends(s, s')
  {
    forall i | 0 <= i < |s'.tokens| ensures LinkOk(s'.tokens, i) {
      assert LinkOk(s.tokens, i);
    }
    assert forall i, j: nat :: 0 <= i < |s.tokens| ==> (Replaces(s.tokens, i, j) <==> Replaces(s'.tokens, i, j));
    forall j | 0 <= j < |s'.tokens| ensures HasPredecessor(s.tokens, j) <==> HasPredecessor(s'.tokens, j) {
      if HasPredecessor(s.tokens, j) {
        var i :| 0 <= i < |s.tokens| && Replaces(s.tokens, i, j);
        assert Replaces(s'.tokens, i, j);
      }
      if HasPredecessor(s'.tokens, j) {
        var i :| 0 <= i < |s'.tokens| && Replaces(s'.tokens, i, j);
        assert Replaces(s.tokens, i, j);
      }
    }
  }

  lemma LoginOk(s: Store, now: int, user: nat, ok: bool, secret: nat)
    requires StoreOk(s) && Fresh(s.tokens, secret)
    ensures var s' := Login(s, now, user, ok, secret).store; StoreOk(s') && Extends(s, s')
  {
    var s' := Login(s, now, user, ok, secret).store;
    if s' != s {
      var n := |s.tokens|;
      assert forall i :: 0 <= i < n ==> s'.tokens[i] == s.tokens[i];
      forall i | 0 <= i < |s'.tokens| ensures LinkOk(s'.tokens, i) {
        assert i < n ==> LinkOk(s.tokens, i);
      }
      assert forall i, j: nat :: 0 <= i <= n && Replaces(s'.tokens, i, j) ==> i < n && Replaces(s.tokens, i, j);
      forall i, j: nat | 0 <= i < n && Replaces(s.tokens, i, j) ensures j < n {
        assert LinkOk(s.tokens, i);
      }
      forall j | 0 <= j < |s'.tokens| ensures j in s'.logins <==> !HasPredecessor(s'.tokens, j) {
        PredecessorAfterAppend(s.tokens, s'.tokens, j);
        assert s'.logins == s.logins + [n];
        assert j in s'.logins <==> j in s.logins || j == n;
      }
    }
  }

  lemma PredecessorAfterAppend(tokens: seq<Token>, tokens': seq<Token>, j: nat)
    requires |tokens'| == |tokens| + 1 && tokens'[|tokens|].replacedBy.None?
    requires forall i :: 0 <= i < |tokens| ==> tokens'[i].replacedBy == tokens[i].replacedBy
    ensures HasPredecessor(tokens', j) <==> HasPredecessor(tokens, j)
  {
    if HasPredecessor(tokens, j) {
      var i :| 0 <= i < |tokens| && Replaces(tokens, i, j);
      assert Replaces(tokens', i, j);
    }
    if HasPredecessor(tokens', j) {
      var i :| 0 <= i < |tokens'| && Replaces(tokens', i, j);
      assert Replaces(tokens, i, j);
    }
  }

  /** The rotation of an unrevoked token `id` appends its replacement and links to it. */
  lemma RotateOk(s: Store, now: int, id: nat, secret: nat)
    requires StoreOk(s) && Fresh(s.tokens, secret) && id < |s.tokens|
    requires s.tokens[id].revokedAt.None? && s.tokens[id].replacedBy.None?
    ensures var t := s.tokens[id];
      var s' := s.(tokens := s.tokens[id := t.(revokedAt := Some(now), replacedBy := Some(|s.tokens|))]
                             + [Issued(t.user, secret, now)]);
      StoreOk(s') && Extends(s, s')
  {
    var t, n := s.tokens[id], |s.tokens|;
    var s' := s.(tokens := s.tokens[id := t.(revokedAt := Some(now), replacedBy := Some(n))] + [Issued(t.user, secret, now)]);
    forall i | 0 <= i < |s'.tokens| ensures LinkOk(s'.tokens, i) {
      assert i < n ==> LinkOk(s.tokens, i);
    }
    assert forall i :: 0 <= i < n ==> LinkOk(s.tokens, i);
    forall i, j: nat | 0 <= i <= n && i != id && Replaces(s'.tokens, i, j) ensures i < n && Replaces(s.tokens, i, j) && j < n {
      assert i == n || LinkOk(s.tokens, i);
    }
    forall j | 0 <= j < |s'.tokens| ensures j in s'.logins <==> !HasPredecessor(s'.tokens, j) {
      if j == n {
        assert Replaces(s'.tokens, id, n);
      } else {
        if HasPredecessor(s.tokens, j) {
          var i :| 0 <= i < n && Replaces(s.tokens, i, j);
          assert Replaces(s'.tokens, i, j);
        }
        if HasPredecessor(s'.tokens, j) {
          var i :| 0 <= i < |s'.tokens| && Replaces(s'.tokens, i, j);
          assert Replaces(s.tokens, i, j);
        }
      }
    }
  }

  lemma RefreshOk(s: Store, now: int, presented: nat, secret: nat)
    requires StoreOk(s) && Fresh(s.tokens, secret)
    ensures var s' := Refresh(s, now, presented, secret).store; StoreOk(s') && Extends(s, s')
  {
    hide StoreOk, Extends, Fresh;
    var r := Refresh(s, now, presented, secret);
    match r.result {
      case ReuseDetected => RevokingKeepsOk(s, r.store);
      case Rotated(_) => RotateOk(s, now, Find(s.tokens, |s.tokens|, presented).value, secret);
      case _ => ExtendsSelf(s);
    }
  }

  lemma ExtendsSelf(s: Store)
    ensures Extends(s, s)
  {
  }

  /** Every operation keeps the table in order and only adds to what is written. */
  lemma ApplyOk(s: Store, op: Op)
    requires StoreOk(s)
    ensures StoreOk(Apply(s, op)) && Extends(s, Apply(s, op))
  {
    hide StoreOk, Extends, Fresh, Login, Refresh;
    ExtendsSelf(s);
    match op {
      case DoLogin(user, ok, secret, now) => if Fresh(s.tokens, secret) { LoginOk(s, now, user, ok, secret); }
      case DoRefresh(presented, secret, now) => if Fresh(s.tokens, secret) { RefreshOk(s, now, presented, secret); }
      case DoLogout(presented, now) =>
        if Logout(s, now, presented) != s {
          var id := Find(s.tokens, |s.tokens|, presented).value;
          assert LinkOk(s.tokens, id) by { LinkInStore(s, id); }
          RevokingKeepsOk(s, Logout(s, now, presented));
        }
      case SetActive(user, isActive) => RevokingKeepsOk(s, Apply(s, op));
    }
  }

  lemma LinkInStore(s: Store, id: nat)
    requires StoreOk(s) && id < |s.tokens|
    ensures LinkOk(s.tokens, id)
  {
  }

  lemma FindIs(s: Store, secret: nat, i: nat)
    requires StoreOk(s) && i < |s.tokens| && s.tokens[i].secret == secret
    ensures Find(s.tokens, |s.tokens|, secret) == Some(i)
  {
  }

  /** In every run the table stays in order, and revocations and replacements are written once. */
  lemma {:induction false} RunOk(s: Store, ops: seq<Op>)
    requires StoreOk(s)
    ensures StoreOk(Run(s, ops)) && Extends(s, Run(s, ops))
    decreases |ops|
  {
    hide StoreOk, Extends, Apply;
    ExtendsSelf(s);
    if |ops| > 0 {
      ApplyOk(s, ops[0]);
      RunOk(Apply(s, ops[0]), ops[1..]);
      ExtendsTransitive(s, Apply(s, ops[0]), Run(s, ops));
    }
  }
}
