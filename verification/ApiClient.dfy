/**
 * The browser's single-flight token refresh, frontend/src/services/api-client.ts, composed with the
 * rotation of AuthTokens. Requests, 401s, refreshes, reloads and server work interleave freely, except
 * that the browser lets no other task in while the callbacks of a settled refresh run.
 */
module ApiClient {
  import opened Common
  import opened AuthTokens
  import AuthChains

  /**
   * `inFlightRefresh`: none; the POST sent with a token; its answer on the way back (the new refresh
   * token, or None for an error); the answer stored but `.finally` still to run.
   */
  datatype InFlight = Idle | Requested(token: nat) | Answered(answer: Option<nat>) | Settling(ok: bool)

  /** Where one API request stands; `Woken` waiters have seen the refresh promise settle. */
  datatype Phase = OnWire | Waiting | Woken(ok: bool) | Finished

  /** `sends` counts HTTP sends; `retried` is the `_authRetried` mark. */
  datatype Request = Request(sends: nat, retried: bool, phase: Phase)

  /** `sent` lists the refresh tokens posted to /auth/refresh, in order. */
  datatype Client = Client(refreshToken: Option<nat>, inFlight: InFlight, requests: map<nat, Request>, sent: seq<nat>)

  // ---- The interceptor and its helpers ----

  function Finish(c: Client, r: nat): Client
    requires r in c.requests
  {
    c.(requests := c.requests[r := c.requests[r].(phase := Finished)])
  }

  /** `clearSessionAndRedirect`, then reject. */
  function GiveUp(c: Client, r: nat): Client
    requires r in c.requests
  {
    Finish(c, r).(refreshToken := None)
  }

  /** A 401 on request `r`: give up, join the refresh in flight, or start one. */
  function OnUnauthorized(c: Client, r: nat): Client
    requires r in c.requests
  {
    if c.requests[r].retried || c.refreshToken.None? then GiveUp(c, r)
    else
      var waiting := c.requests[r := c.requests[r].(phase := Waiting)];
      if c.inFlight.Idle? then
        c.(requests := waiting, inFlight := Requested(c.refreshToken.value), sent := c.sent + [c.refreshToken.value])
      else c.(requests := waiting)
  }

  /** `performRefresh` resumes: store the tokens of a success. */
  function OnAnswer(c: Client): Client
    requires c.inFlight.Answered?
  {
    match c.inFlight.answer
    case Some(token) => c.(refreshToken := Some(token), inFlight := Settling(true))
    case None => c.(inFlight := Settling(false))
  }

  function Wake(q: Request, ok: bool): Request {
    if q.phase == Waiting then q.(phase := Woken(ok)) else q
  }

  /** `.finally`: forget the promise; every waiter has its outcome. */
  function OnSettled(c: Client): Client
    requires c.inFlight.Settling?
  {
    c.(inFlight := Idle, requests := map r | r in c.requests :: Wake(c.requests[r], c.inFlight.ok))
  }

  /** A waiter continues: mark and resend the original request, or give up. */
  function OnWoken(c: Client, r: nat): Client
    requires r in c.requests && c.requests[r].phase.Woken?
  {
    var q := c.requests[r];
    if q.phase.ok then c.(requests := c.requests[r := Request(q.sends + 1, true, OnWire)]) else GiveUp(c, r)
  }

  /**
   * No refresh callback is pending. Storing the answer, `.finally` and the waiters' continuations are
   * microtasks of one task, so a response of another request and a reload run only before or after them.
   */
  predicate Quiet(c: Client) {
    !c.inFlight.Settling? && forall r :: r in c.requests ==> !c.requests[r].phase.Woken?
  }

  /** A reload loses the module's state; the stored token is in sessionStorage and stays. */
  function OnReload(c: Client): Client {
    c.(inFlight := Idle, requests := map[])
  }

  // ---- Client, server and everyone else ----

  /**
   * `late` holds the tokens of refresh requests the browser has given up on and that may still reach the
   * server, `reuses` counts refreshes of this client that looked like reuse, and `torn` the reloads that
   * cut off a refresh while its token was stored.
   */
  datatype World = World(client: Client, server: Store, late: multiset<nat>, reuses: nat, torn: nat)

  datatype Action =
    | SendRequest(r: nat)
    | ReplyOther(r: nat)
    | Reply401(r: nat)
    | ServerHandles(secret: nat, time: int)
    | ServerHandlesLate(token: nat, secret: nat, time: int)
    | LoseRequest
    | LoseAnswer
    | ReceiveAnswer
    | RunFinally
    | Resume(r: nat)
    | Reload
    | Elsewhere(op: Op)

  /** The owner of a presented token is someone other than `user`. */
  predicate OwnedByOther(s: Store, presented: nat, user: nat) {
    var found := Find(s.tokens, |s.tokens|, presented);
    found.None? || s.tokens[found.value].user != user
  }

  /** The tokens this client may still present: stored, in flight, on the way back, or late. */
  predicate Held(w: World, token: nat) {
    w.client.refreshToken == Some(token) || w.client.inFlight == Requested(token)
    || w.client.inFlight == Answered(Some(token)) || token in w.late
  }

  /**
   * What everyone else may do, the user's other sessions included: anything but log out with a token this
   * client holds, or refresh with one or with a consumed or revoked token of the user.
   */
  predicate Harmless(w: World, op: Op, user: nat) {
    match op
    case DoLogin(_, _, _, _) => true
    case DoRefresh(presented, _, _) =>
      OwnedByOther(w.server, presented, user) || (Usable(w.server, presented, user) && !Held(w, presented))
    case DoLogout(presented, _) => OwnedByOther(w.server, presented, user) || !Held(w, presented)
    case SetActive(_, _) => true
  }

  /** What one refresh request of this client adds to the reuses. */
  function Reuse(step: RefreshStep): nat {
    if step.result.ReuseDetected? then 1 else 0
  }

  /** An action that is not enabled changes nothing. */
  function Next(w: World, a: Action, user: nat): World {
    var c := w.client;
    match a
    case SendRequest(r) =>
      if r in c.requests then w else w.(client := c.(requests := c.requests[r := Request(1, false, OnWire)]))
    case ReplyOther(r) =>
      if Quiet(c) && r in c.requests && c.requests[r].phase == OnWire then w.(client := Finish(c, r)) else w
    case Reply401(r) =>
      if Quiet(c) && r in c.requests && c.requests[r].phase == OnWire then w.(client := OnUnauthorized(c, r)) else w
    case ServerHandles(secret, time) =>
      if !c.inFlight.Requested? || !Fresh(w.server.tokens, secret) then w
      else
        var step := Refresh(w.server, time, c.inFlight.token, secret);
        w.(client := c.(inFlight := Answered(if step.result.Rotated? then Some(secret) else None)),
           server := step.store, reuses := w.reuses + Reuse(step))
    case ServerHandlesLate(token, secret, time) =>
      if token !in w.late || !Fresh(w.server.tokens, secret) then w
      else
        var step := Refresh(w.server, time, token, secret);
        w.(late := w.late - multiset{token}, server := step.store, reuses := w.reuses + Reuse(step))
    case LoseRequest =>
      if c.inFlight.Requested? then
        w.(client := c.(inFlight := Answered(None)), late := w.late + multiset{c.inFlight.token})
      else w
    case LoseAnswer => if c.inFlight.Answered? then w.(client := c.(inFlight := Answered(None))) else w
    case ReceiveAnswer => if Quiet(c) && c.inFlight.Answered? then w.(client := OnAnswer(c)) else w
    case RunFinally => if c.inFlight.Settling? then w.(client := OnSettled(c)) else w
    case Resume(r) =>
      if c.inFlight.Idle? && r in c.requests && c.requests[r].phase.Woken? then w.(client := OnWoken(c, r)) else w
    case Reload =>
      if !Quiet(c) then w
      else
        w.(client := OnReload(c),
           late := w.late + (if c.inFlight.Requested? then multiset{c.inFlight.token} else multiset{}),
           torn := w.torn + if !c.inFlight.Idle? && c.refreshToken.Some? then 1 else 0)
    case Elsewhere(op) => if Harmless(w, op, user) then w.(server := Apply(w.server, op)) else w
  }

  function Run(w: World, actions: seq<Action>, user: nat): World
    decreases |actions|
  {
    if |actions| == 0 then w else Run(Next(w, actions[0], user), actions[1..], user)
  }

  /** Right after one login of `user`: its token is stored and nothing has been sent. */
  ghost predicate AfterLogin(w: World, user: nat) {
    && StoreOk(w.server)
    && w.client.refreshToken.Some? && Usable(w.server, w.client.refreshToken.value, user)
    && w.client.inFlight == Idle && w.client.requests == map[] && w.client.sent == []
    && w.late == multiset{} && w.reuses == 0 && w.torn == 0
  }

  // ---- The invariant ----

  /** `token` is an unrevoked token of `user`, hence the last of its chain. */
  predicate Usable(s: Store, token: nat, user: nat) {
    var found := Find(s.tokens, |s.tokens|, token);
    found.Some? && s.tokens[found.value].user == user && Unrevoked(s.tokens[found.value])
  }

  /** A waiter is about to find that its refresh failed, and to erase the stored token. */
  ghost predicate AboutToErase(c: Client) {
    exists r :: r in c.requests && c.requests[r].phase == Woken(false)
  }

  ghost predicate SomeoneWaits(c: Client) {
    exists r :: r in c.requests && c.requests[r].phase == Waiting
  }

  /** The tokens that must still be unrevoked: stored and never sent, or sent and not yet handled, or new. */
  predicate Needed(w: World, token: nat) {
    (w.client.refreshToken == Some(token) && token !in w.client.sent) || w.client.inFlight == Requested(token)
    || w.client.inFlight == Answered(Some(token)) || token in w.late
  }

  ghost predicate NeededUsable(w: World, user: nat) {
    forall token :: Needed(w, token) ==> Usable(w.server, token, user)
  }

  predicate Distinct(s: seq<nat>) {
    forall i, j :: 0 <= i < j < |s| ==> s[i] != s[j]
  }

  /** Every token was sent at most once, and the late ones are no longer in flight. */
  predicate SentOnce(w: World) {
    && Distinct(w.client.sent)
    && (forall token :: token in w.client.sent ==> !Fresh(w.server.tokens, token))
    && (forall token :: token in w.late ==> w.late[token] == 1 && token in w.client.sent)
    && match w.client.inFlight
       case Requested(token) => token in w.client.sent && token !in w.late
       case Answered(Some(token)) => token !in w.client.sent
       case _ => true
  }

  /** A stored token that was sent already is replaced or erased before anything can send it again. */
  ghost predicate SpentTokenGoes(c: Client) {
    && (c.refreshToken.Some? && c.refreshToken.value in c.sent ==>
          c.inFlight.Requested? || c.inFlight.Answered? || c.inFlight == Settling(false) || (c.inFlight.Idle? && AboutToErase(c)))
    && (c.inFlight.Requested? ==> c.refreshToken.None? || c.refreshToken == Some(c.inFlight.token))
    && (!c.inFlight.Idle? ==> SomeoneWaits(c))
  }

  predicate RequestOk(q: Request) {
    && q.sends == (if q.retried then 2 else 1)
    && (q.phase == Waiting || q.phase.Woken? ==> !q.retried)
  }

  ghost predicate TokensOk(w: World, user: nat) {
    NeededUsable(w, user) && SentOnce(w) && SpentTokenGoes(w.client) && w.reuses == 0
  }

  predicate RequestsOk(c: Client) {
    forall r :: r in c.requests ==> RequestOk(c.requests[r])
  }

  /** The part about tokens holds as long as no reload has cut off a refresh. */
  ghost predicate Inv(w: World, user: nat) {
    StoreOk(w.server) && RequestsOk(w.client) && (w.torn == 0 ==> TokensOk(w, user))
  }

  /** A token stays usable while its row keeps its revocation unset. */
  lemma UsableStays(s: Store, s': Store, token: nat, user: nat)
    requires StoreOk(s') && Extends(s, s') && Usable(s, token, user)
    requires var i := Find(s.tokens, |s.tokens|, token).value; i < |s'.tokens| && Unrevoked(s'.tokens[i])
    ensures Usable(s', token, user)
  {
    var i := Find(s.tokens, |s.tokens|, token).value;
    assert TokenKept(s.tokens[i], s'.tokens[i]);
    FindIs(s', token, i);
  }

  /** What others may do revokes no token this client holds. */
  lemma HarmlessKeepsTokens(w: World, op: Op, user: nat, i: nat)
    requires StoreOk(w.server) && Harmless(w, op, user) && i < |w.server.tokens|
    requires w.server.tokens[i].user == user && Unrevoked(w.server.tokens[i]) && Held(w, w.server.tokens[i].secret)
    ensures i < |Apply(w.server, op).tokens| && Unrevoked(Apply(w.server, op).tokens[i])
  {
    hide StoreOk, Fresh, Held;
    var s := w.server;
    if op.DoRefresh? && Usable(s, op.presented, user) {
      NoReuseOf(s, op.presented, user);
    }
  }

  lemma NoReuseOf(s: Store, token: nat, user: nat)
    requires StoreOk(s) && Usable(s, token, user)
    ensures s.tokens[Find(s.tokens, |s.tokens|, token).value].replacedBy.None?
  {
    assert LinkOk(s.tokens, Find(s.tokens, |s.tokens|, token).value);
  }

  /** Refreshing a usable token never looks like reuse, and every other usable token stays usable. */
  lemma UsableRefresh(s: Store, time: int, token: nat, secret: nat, user: nat)
    requires StoreOk(s) && Fresh(s.tokens, secret) && Usable(s, token, user)
    ensures var step := Refresh(s, time, token, secret);
      && StoreOk(step.store) && Extends(s, step.store)
      && !step.result.ReuseDetected?
      && (step.result.Rotated? ==> Usable(step.store, secret, user) && !Usable(step.store, token, user))
      && (!step.result.Rotated? ==> step.store == s)
      && (forall other: nat :: other != token && Usable(s, other, user) ==> Usable(step.store, other, user))
  {
    hide Fresh, Extends;
    RefreshOk(s, time, token, secret);
    var id := Find(s.tokens, |s.tokens|, token).value;
    NoReuseOf(s, token, user);
    var step := Refresh(s, time, token, secret);
    if step.result.Rotated? {
      FindIs(step.store, secret, |s.tokens|);
      FindIs(step.store, token, id);
    }
    forall other: nat | other != token && Usable(s, other, user) ensures Usable(step.store, other, user) {
      UsableStays(s, step.store, other, user);
    }
  }

  lemma KnownStays(s: Store, s': Store, token: nat)
    requires StoreOk(s') && Extends(s, s') && !Fresh(s.tokens, token)
    ensures !Fresh(s'.tokens, token)
  {
    var i := Find(s.tokens, |s.tokens|, token).value;
    assert TokenKept(s.tokens[i], s'.tokens[i]);
    FindIs(s', token, i);
  }

  lemma UsableIsKnown(s: Store, token: nat, user: nat)
    requires Usable(s, token, user)
    ensures !Fresh(s.tokens, token)
  {
  }

  /** The server handles the refresh request of a token that must still be unrevoked. */
  lemma HandledInv(w: World, w': World, token: nat, secret: nat, time: int, user: nat)
    requires StoreOk(w.server) && TokensOk(w, user) && Needed(w, token) && token in w.client.sent && Fresh(w.server.tokens, secret)
    requires w'.server == Refresh(w.server, time, token, secret).store && w'.client.sent == w.client.sent
    requires forall t :: t in w'.late ==> t in w.late && w'.late[t] == w.late[t]
    requires forall t :: Needed(w', t) ==>
      t != token && (Needed(w, t) || (t == secret && Refresh(w.server, time, token, secret).result.Rotated?))
    ensures NeededUsable(w', user) && Distinct(w'.client.sent) && secret !in w'.client.sent
    ensures forall t :: t in w'.client.sent ==> !Fresh(w'.server.tokens, t)
    ensures forall t :: t in w'.late ==> w'.late[t] == 1 && t in w'.client.sent
    ensures !Refresh(w.server, time, token, secret).result.ReuseDetected?
  {
    hide StoreOk, Extends, Fresh, Refresh, Usable;
    UsableRefresh(w.server, time, token, secret, user);
    forall t | t in w'.client.sent ensures !Fresh(w'.server.tokens, t) {
      KnownStays(w.server, w'.server, t);
    }
  }

  lemma ServerStepInv(w: World, secret: nat, time: int, user: nat)
    requires StoreOk(w.server) && TokensOk(w, user) && w.client.inFlight.Requested? && Fresh(w.server.tokens, secret)
    ensures TokensOk(Next(w, ServerHandles(secret, time), user), user)
  {
    hide StoreOk, Fresh, Refresh, Usable, SomeoneWaits, AboutToErase;
    var w' := Next(w, ServerHandles(secret, time), user);
    HandledInv(w, w', w.client.inFlight.token, secret, time, user);
    assert SomeoneWaits(w'.client) by { assert SomeoneWaits(w.client); WaitersKept(w.client, w'.client); }
  }

  lemma WaitersKept(c: Client, c': Client)
    requires c'.requests == c.requests
    ensures SomeoneWaits(c') == SomeoneWaits(c) && AboutToErase(c') == AboutToErase(c)
  {
  }

  lemma LateStepInv(w: World, token: nat, secret: nat, time: int, user: nat)
    requires StoreOk(w.server) && TokensOk(w, user) && token in w.late && Fresh(w.server.tokens, secret)
    ensures TokensOk(Next(w, ServerHandlesLate(token, secret, time), user), user)
  {
    hide StoreOk, Fresh, Refresh, Usable, SpentTokenGoes;
    var w' := Next(w, ServerHandlesLate(token, secret, time), user);
    HandledInv(w, w', token, secret, time, user);
  }

  lemma ElsewhereInv(w: World, op: Op, user: nat)
    requires StoreOk(w.server) && TokensOk(w, user) && Harmless(w, op, user)
    ensures TokensOk(w.(server := Apply(w.server, op)), user)
  {
    hide StoreOk, Extends, Apply, Harmless, Fresh, SpentTokenGoes;
    var s, s' := w.server, Apply(w.server, op);
    ApplyOk(s, op);
    forall t | t in w.client.sent ensures !Fresh(s'.tokens, t) {
      KnownStays(s, s', t);
    }
    forall token: nat | Needed(w, token) ensures Usable(s', token, user) {
      HarmlessKeepsTokens(w, op, user, Find(s.tokens, |s.tokens|, token).value);
      UsableStays(s, s', token, user);
    }
  }

  /** A 401 sends a refresh only when none is in flight, and then with a usable token that was never sent before. */
  lemma UnauthorizedInv(w: World, r: nat, user: nat)
    requires TokensOk(w, user) && Quiet(w.client) && r in w.client.requests && w.client.requests[r].phase == OnWire
    ensures var w' := w.(client := OnUnauthorized(w.client, r));
      && TokensOk(w', user)
      && (w'.client.sent != w.client.sent ==>
            && w.client.inFlight.Idle? && w.client.refreshToken.Some?
            && w'.client.inFlight == Requested(w.client.refreshToken.value)
            && w'.client.sent == w.client.sent + [w.client.refreshToken.value]
            && Usable(w.server, w.client.refreshToken.value, user)
            && w.client.refreshToken.value !in w.client.sent)
      && (w'.client.inFlight != w.client.inFlight ==> w'.client.sent != w.client.sent)
  {
    hide Usable, Fresh;
    var c, c' := w.client, OnUnauthorized(w.client, r);
    if c'.inFlight != c.inFlight {
      UsableIsKnown(w.server, c.refreshToken.value, user);
      assert c'.requests[r].phase == Waiting;
    } else if !c.inFlight.Idle? {
      var waiter :| waiter in c.requests && c.requests[waiter].phase == Waiting;
      assert c'.requests[waiter].phase == Waiting;
    }
  }

  lemma RequestStepInv(w: World, a: Action, user: nat)
    requires TokensOk(w, user) && (a.SendRequest? || a.ReplyOther?)
    ensures TokensOk(Next(w, a, user), user)
  {
    hide Usable, Fresh, Distinct, Quiet;
    var c, c' := w.client, Next(w, a, user).client;
    if SomeoneWaits(c) {
      var waiter :| waiter in c.requests && c.requests[waiter].phase == Waiting;
      assert c'.requests[waiter].phase == Waiting;
    }
    if AboutToErase(c) {
      var waiter :| waiter in c.requests && c.requests[waiter].phase == Woken(false);
      assert c'.requests[waiter].phase == Woken(false);
    }
  }

  /** A request or an answer is lost: the browser learns of a failure, and a late request may still arrive. */
  lemma LossStepInv(w: World, a: Action, user: nat)
    requires TokensOk(w, user) && (a.LoseRequest? || a.LoseAnswer?)
    ensures TokensOk(Next(w, a, user), user)
  {
    hide Usable, Fresh, SomeoneWaits, AboutToErase, Distinct;
    WaitersKept(w.client, Next(w, a, user).client);
  }

  /** A reload between refreshes loses only waiting requests. */
  lemma ReloadStepInv(w: World, user: nat)
    requires TokensOk(w, user) && Next(w, Reload, user).torn == w.torn
    ensures TokensOk(Next(w, Reload, user), user)
  {
    hide Usable, Fresh, Distinct;
  }

  /** The callbacks of a settled refresh: a success replaces the stored token, a failure ends in erasing it. */
  lemma CallbackStepInv(w: World, a: Action, user: nat)
    requires StoreOk(w.server) && TokensOk(w, user) && (a.ReceiveAnswer? || a.RunFinally? || a.Resume?)
    ensures TokensOk(Next(w, a, user), user)
  {
    hide StoreOk, Usable, Fresh, Distinct;
    var c, c' := w.client, Next(w, a, user).client;
    if SomeoneWaits(c) {
      var waiter :| waiter in c.requests && c.requests[waiter].phase == Waiting;
      assert a.ReceiveAnswer? ==> c'.requests[waiter].phase == Waiting;
      assert a.RunFinally? && c.inFlight.Settling? ==> c'.requests[waiter].phase == Woken(c.inFlight.ok);
    }
    if AboutToErase(c) {
      var waiter :| waiter in c.requests && c.requests[waiter].phase == Woken(false);
      assert c'.refreshToken.None? || c'.requests[waiter].phase == Woken(false);
    }
  }

  /** A step in which no reload cuts off a refresh keeps the tokens in order. */
  lemma TokensStep(w: World, a: Action, user: nat)
    requires StoreOk(w.server) && TokensOk(w, user) && Next(w, a, user).torn == w.torn
    ensures TokensOk(Next(w, a, user), user)
  {
    hide StoreOk, TokensOk, Usable, Held, Fresh, Harmless, Apply, Refresh, OnUnauthorized, OnSettled, OnWoken, Quiet;
    match a {
      case ServerHandles(secret, time) =>
        if w.client.inFlight.Requested? && Fresh(w.server.tokens, secret) { ServerStepInv(w, secret, time, user); }
      case ServerHandlesLate(token, secret, time) =>
        if token in w.late && Fresh(w.server.tokens, secret) { LateStepInv(w, token, secret, time, user); }
      case Elsewhere(op) =>
        if Harmless(w, op, user) { ElsewhereInv(w, op, user); }
      case Reply401(r) =>
        if Quiet(w.client) && r in w.client.requests && w.client.requests[r].phase == OnWire { UnauthorizedInv(w, r, user); }
      case ReceiveAnswer => CallbackStepInv(w, a, user);
      case RunFinally => CallbackStepInv(w, a, user);
      case Resume(_) => CallbackStepInv(w, a, user);
      case Reload => ReloadStepInv(w, user);
      case LoseRequest => LossStepInv(w, a, user);
      case LoseAnswer => LossStepInv(w, a, user);
      case _ => RequestStepInv(w, a, user);
    }
  }

  lemma StoreStep(w: World, a: Action, user: nat)
    requires StoreOk(w.server)
    ensures StoreOk(Next(w, a, user).server)
  {
    hide StoreOk, Apply, Refresh, Harmless, Fresh, Extends, Quiet;
    match a {
      case ServerHandles(secret, time) =>
        if w.client.inFlight.Requested? && Fresh(w.server.tokens, secret) {
          RefreshOk(w.server, time, w.client.inFlight.token, secret);
        }
      case ServerHandlesLate(token, secret, time) =>
        if Fresh(w.server.tokens, secret) { RefreshOk(w.server, time, token, secret); }
      case Elsewhere(op) => ApplyOk(w.server, op);
      case _ =>
    }
  }

  lemma RequestsStep(w: World, a: Action, user: nat)
    requires RequestsOk(w.client)
    ensures RequestsOk(Next(w, a, user).client)
    ensures Next(w, a, user).torn >= w.torn && (!a.Reload? ==> Next(w, a, user).torn == w.torn)
  {
    hide Refresh, Harmless, Apply, Fresh, Quiet;
  }

  lemma NextInv(w: World, a: Action, user: nat)
    requires Inv(w, user)
    ensures Inv(Next(w, a, user), user)
    ensures Next(w, a, user).torn >= w.torn && (!a.Reload? ==> Next(w, a, user).torn == w.torn)
  {
    hide StoreOk, RequestsOk, TokensOk, Next;
    StoreStep(w, a, user);
    RequestsStep(w, a, user);
    if Next(w, a, user).torn == 0 {
      TokensStep(w, a, user);
    }
  }

  lemma {:induction false} RunInv(w: World, actions: seq<Action>, user: nat)
    requires Inv(w, user)
    ensures Inv(Run(w, actions, user), user)
    ensures (forall i :: 0 <= i < |actions| ==> !actions[i].Reload?) ==> Run(w, actions, user).torn == w.torn
    decreases |actions|
  {
    hide Inv, Next;
    if |actions| > 0 {
      NextInv(w, actions[0], user);
      RunInv(Next(w, actions[0], user), actions[1..], user);
    }
  }

  lemma StartInv(w: World, user: nat)
    requires AfterLogin(w, user)
    ensures Inv(w, user)
  {
  }

  /**
   * After one login, whatever the interleaving, whatever the user's other sessions do with their own
   * tokens and whatever requests and answers are lost or late: no API request is sent more than twice, and
   * unless a reload has cut off a refresh, no refresh token is ever sent twice, the refresh in flight
   * carries an unrevoked token, and the server never takes a refresh for reuse.
   */
  lemma SingleFlightIsSafe(w: World, actions: seq<Action>, user: nat)
    requires AfterLogin(w, user)
    ensures var w' := Run(w, actions, user);
      && (forall r :: r in w'.client.requests ==> 1 <= w'.client.requests[r].sends <= 2)
      && ((forall i :: 0 <= i < |actions| ==> !actions[i].Reload?) ==> w'.torn == 0)
      && (w'.torn == 0 ==>
            && Distinct(w'.client.sent) && w'.reuses == 0
            && (w'.client.inFlight.Requested? ==> Usable(w'.server, w'.client.inFlight.token, user)))
  {
    hide Run, StoreOk, Usable;
    StartInv(w, user);
    RunInv(w, actions, user);
  }

  /** Between the tasks of such a run, an idle browser's stored token is unrevoked and was never sent. */
  lemma StoredTokenIsNew(w: World, actions: seq<Action>, user: nat)
    requires AfterLogin(w, user)
    requires var c := Run(w, actions, user).client; Quiet(c) && c.inFlight.Idle? && c.refreshToken.Some?
    requires Run(w, actions, user).torn == 0
    ensures var w' := Run(w, actions, user);
      w'.client.refreshToken.value !in w'.client.sent && Usable(w'.server, w'.client.refreshToken.value, user)
  {
    hide Run, StoreOk, Usable;
    StartInv(w, user);
    RunInv(w, actions, user);
  }

  // ---- What a refresh is good for ----

  /**
   * Two requests meet a 401 and the server rotates: one POST goes out, the new token is stored, and each of
   * the two is sent once more, marked, while no other request is touched.
   */
  lemma RefreshServesAll(w: World, user: nat, r: nat, q: nat, secret: nat, time: int)
    requires Quiet(w.client) && w.client.inFlight.Idle? && w.client.refreshToken.Some?
    requires Fresh(w.server.tokens, secret) && Refresh(w.server, time, w.client.refreshToken.value, secret).result.Rotated?
    requires forall k :: k in w.client.requests ==> w.client.requests[k].phase != Waiting
    requires r != q && r in w.client.requests && w.client.requests[r] == Request(1, false, OnWire)
    requires q in w.client.requests && w.client.requests[q] == Request(1, false, OnWire)
    ensures var actions := [Reply401(r)] + ([Reply401(q)] + ([ServerHandles(secret, time)] + ([ReceiveAnswer]
                           + ([RunFinally] + ([Resume(q)] + ([Resume(r)] + []))))));
      var c := Run(w, actions, user).client;
      && c.requests == w.client.requests[r := Request(2, true, OnWire)][q := Request(2, true, OnWire)]
      && c.refreshToken == Some(secret) && c.inFlight == Idle
      && c.sent == w.client.sent + [w.client.refreshToken.value]
  {
    hide Run, Refresh, Fresh;
    var a7 := [Resume(r)] + [];
    var a6 := [Resume(q)] + a7;
    var a5 := [RunFinally] + a6;
    var a4 := [ReceiveAnswer] + a5;
    var a3 := [ServerHandles(secret, time)] + a4;
    var a2 := [Reply401(q)] + a3;
    var token, before := w.client.refreshToken.value, w.client.requests;
    RunCons(w, Reply401(r), a2, user);
    var w1 := Next(w, Reply401(r), user);
    RunCons(w1, Reply401(q), a3, user);
    var w2 := Next(w1, Reply401(q), user);
    var waiting := before[r := Request(1, false, Waiting)][q := Request(1, false, Waiting)];
    assert w2.client.requests == waiting && w2.client.inFlight == Requested(token) && w2.server == w.server;
    RunCons(w2, ServerHandles(secret, time), a4, user);
    var w3 := Next(w2, ServerHandles(secret, time), user);
    assert w3.client.inFlight == Answered(Some(secret));
    RunCons(w3, ReceiveAnswer, a5, user);
    var w4 := Next(w3, ReceiveAnswer, user);
    RunCons(w4, RunFinally, a6, user);
    var w5 := Next(w4, RunFinally, user);
    assert w5.client.requests == before[r := Request(1, false, Woken(true))][q := Request(1, false, Woken(true))] by {
      forall k | k in before ensures k != r && k != q ==> Wake(before[k], true) == before[k] {
      }
    }
    RunCons(w5, Resume(q), a7, user);
    RunCons(Next(w5, Resume(q), user), Resume(r), [], user);
    RunNothing(Next(Next(w5, Resume(q), user), Resume(r), user), user);
  }

  /** The stored token is erased only by a second 401 of one request, or by a waiter whose refresh failed. */
  lemma ErasedOnlyBy(w: World, a: Action, user: nat)
    requires w.client.refreshToken.Some? && Next(w, a, user).client.refreshToken.None?
    ensures match a
      case Reply401(r) => r in w.client.requests && w.client.requests[r].retried
      case Resume(r) => r in w.client.requests && w.client.requests[r].phase == Woken(false)
      case _ => false
  {
    hide Quiet, Refresh, Fresh, Harmless, Apply;
  }

  /** No network loss, no refresh refused, and no request that meets a second 401. */
  predicate Untroubled(w: World, a: Action) {
    match a
    case LoseRequest => false
    case LoseAnswer => false
    case ServerHandles(secret, time) =>
      w.client.inFlight.Requested? && Fresh(w.server.tokens, secret) ==>
        Refresh(w.server, time, w.client.inFlight.token, secret).result.Rotated?
    case Reply401(r) => r in w.client.requests ==> !w.client.requests[r].retried
    case _ => true
  }

  predicate UntroubledRun(w: World, actions: seq<Action>, user: nat)
    decreases |actions|
  {
    |actions| == 0 || (Untroubled(w, actions[0]) && UntroubledRun(Next(w, actions[0], user), actions[1..], user))
  }

  /** Signed in, with no failed refresh on its way to a waiter. */
  ghost predicate SignedIn(c: Client) {
    && c.refreshToken.Some?
    && c.inFlight != Answered(None) && c.inFlight != Settling(false)
    && forall r :: r in c.requests ==> c.requests[r].phase != Woken(false)
  }

  lemma StepStaysSignedIn(w: World, a: Action, user: nat)
    requires SignedIn(w.client) && Untroubled(w, a)
    ensures SignedIn(Next(w, a, user).client)
  {
    hide Quiet, Refresh, Fresh, Harmless, Apply;
  }

  /** A browser is not signed out as long as no request or answer is lost, no refresh is refused and no request meets two 401s. */
  lemma {:induction false} StaysSignedIn(w: World, actions: seq<Action>, user: nat)
    requires SignedIn(w.client) && UntroubledRun(w, actions, user)
    ensures SignedIn(Run(w, actions, user).client)
    decreases |actions|
  {
    hide SignedIn, Next, Untroubled;
    if |actions| > 0 {
      StepStaysSignedIn(w, actions[0], user);
      StaysSignedIn(Next(w, actions[0], user), actions[1..], user);
    }
  }

  /** Whoever waits, waits for a refresh that is under way. */
  ghost predicate NobodyForgotten(c: Client) {
    c.inFlight.Idle? ==> forall r :: r in c.requests ==> c.requests[r].phase != Waiting
  }

  lemma StepForgetsNobody(w: World, a: Action, user: nat)
    requires NobodyForgotten(w.client)
    ensures NobodyForgotten(Next(w, a, user).client)
  {
    hide Quiet, Refresh, Fresh, Harmless, Apply;
  }

  /** In every run, losses and reloads included, a waiting request has a refresh that will wake it. */
  lemma {:induction false} WaitersAreServed(w: World, actions: seq<Action>, user: nat)
    requires NobodyForgotten(w.client)
    ensures NobodyForgotten(Run(w, actions, user).client)
    decreases |actions|
  {
    hide NobodyForgotten, Next;
    if |actions| > 0 {
      StepForgetsNobody(w, actions[0], user);
      WaitersAreServed(Next(w, actions[0], user), actions[1..], user);
    }
  }

  lemma RunCons(w: World, a: Action, rest: seq<Action>, user: nat)
    ensures Run(w, [a] + rest, user) == Run(Next(w, a, user), rest, user)
  {
    hide Next;
    assert ([a] + rest)[1..] == rest;
  }

  lemma RunNothing(w: World, user: nat)
    ensures Run(w, [], user) == w
  {
  }

  /**
   * A reload during a refresh is enough: the server has spent the token, sessionStorage still has it, the
   * next 401 sends it again, and the server takes that for reuse and revokes every token of the user.
   */
  lemma ReloadIsPunished(w: World, user: nat, secret: nat, time: int, next: nat, later: int)
    requires AfterLogin(w, user) && Fresh(w.server.tokens, secret)
    requires Refresh(w.server, time, w.client.refreshToken.value, secret).result.Rotated?
    requires Fresh(Refresh(w.server, time, w.client.refreshToken.value, secret).store.tokens, next)
    ensures var actions := [SendRequest(0)] + ([Reply401(0)] + ([ServerHandles(secret, time)] + ([Reload]
                           + ([SendRequest(0)] + ([Reply401(0)] + ([ServerHandles(next, later)] + []))))));
      var w' := Run(w, actions, user);
      w'.torn == 1 && w'.reuses == 1 && AuthChains.AllRevoked(w'.server, user)
  {
    hide Run, Refresh, Fresh, StoreOk, Harmless, AuthChains.AllRevoked;
    var token := w.client.refreshToken.value;
    var a6 := [ServerHandles(next, later)] + [];
    var a5 := [Reply401(0)] + a6;
    var a4 := [SendRequest(0)] + a5;
    var a3 := [Reload] + a4;
    var a2 := [ServerHandles(secret, time)] + a3;
    var a1 := [Reply401(0)] + a2;
    RunCons(w, SendRequest(0), a1, user);
    var w1 := Next(w, SendRequest(0), user);
    RunCons(w1, Reply401(0), a2, user);
    var w2 := Next(w1, Reply401(0), user);
    assert w2.client.inFlight == Requested(token);
    RunCons(w2, ServerHandles(secret, time), a3, user);
    var w3 := Next(w2, ServerHandles(secret, time), user);
    assert w3.client.inFlight == Answered(Some(secret)) && w3.reuses == 0;
    RunCons(w3, Reload, a4, user);
    var w4 := Next(w3, Reload, user);
    assert w4.client.inFlight == Idle && w4.client.requests == map[] && w4.torn == 1;
    RunCons(w4, SendRequest(0), a5, user);
    var w5 := Next(w4, SendRequest(0), user);
    RunCons(w5, Reply401(0), a6, user);
    var w6 := Next(w5, Reply401(0), user);
    assert w6.client.inFlight == Requested(token);
    RunCons(w6, ServerHandles(next, later), [], user);
    RunNothing(Next(w6, ServerHandles(next, later), user), user);
    AuthChains.ReplayAfterRotation(w.server, time, token, secret, later, next);
  }

  /** A refresh POST carries the one unrevoked token of its chain. */
  lemma {:induction false} RequestCarriesChainEnd(w: World, actions: seq<Action>, user: nat, j: nat)
    requires AfterLogin(w, user)
    requires Run(w, actions, user).torn == 0
    requires Run(w, actions, user).client.inFlight.Requested? && j < |Run(w, actions, user).server.tokens|
    ensures var s, token := Run(w, actions, user).server, Run(w, actions, user).client.inFlight.token;
      var found := Find(s.tokens, |s.tokens|, token);
      && found.Some?
      && (AuthChains.Root(s.tokens, j) == AuthChains.Root(s.tokens, found.value) ==>
            j <= found.value && (Unrevoked(s.tokens[j]) ==> j == found.value))
  {
    hide Run, StoreOk, AuthChains.Root;
    StartInv(w, user);
    RunInv(w, actions, user);
    var s, token := Run(w, actions, user).server, Run(w, actions, user).client.inFlight.token;
    assert Needed(Run(w, actions, user), token);
    var id := Find(s.tokens, |s.tokens|, token).value;
    if AuthChains.Root(s.tokens, j) == AuthChains.Root(s.tokens, id) {
      AuthChains.OneUnrevokedPerChain(s, id, j);
    }
  }

  // ---- The module's variables, changed in place ----

  /** The token store, `inFlightRefresh` and the requests' `_authRetried` marks. */
  class Session {
    var refreshToken: Option<nat>
    var inFlight: InFlight
    var requests: map<nat, Request>
    var sent: seq<nat>

    constructor (refreshToken: Option<nat>)
      ensures State() == Client(refreshToken, Idle, map[], [])
    {
      this.refreshToken, inFlight, requests, sent := refreshToken, Idle, map[], [];
    }

    function State(): Client
      reads this
    {
      Client(refreshToken, inFlight, requests, sent)
    }

    /** `clearSessionAndRedirect` and the rejection of request `r`. */
    method ClearAndReject(r: nat)
      requires r in requests
      modifies this
      ensures State() == GiveUp(old(State()), r)
    {
      refreshToken := None;
      requests := requests[r := requests[r].(phase := Finished)];
    }

    /** `refreshAccessToken`: one `performRefresh` at a time. */
    method RefreshAccessToken()
      requires refreshToken.Some?
      modifies this
      ensures refreshToken == old(refreshToken) && requests == old(requests)
      ensures old(inFlight).Idle? ==>
        inFlight == Requested(refreshToken.value) && sent == old(sent) + [refreshToken.value]
      ensures !old(inFlight).Idle? ==> inFlight == old(inFlight) && sent == old(sent)
    {
      if inFlight.Idle? {
        inFlight := Requested(refreshToken.value);
        sent := sent + [refreshToken.value];
      }
    }

    /** The response interceptor on a 401. */
    method HandleUnauthorized(r: nat)
      requires r in requests
      modifies this
      ensures State() == OnUnauthorized(old(State()), r)
    {
      if requests[r].retried {
        ClearAndReject(r);
        return;
      }
      if refreshToken.None? {
        ClearAndReject(r);
        return;
      }
      RefreshAccessToken();
      requests := requests[r := requests[r].(phase := Waiting)];
    }

    /** `performRefresh` after its POST is answered. */
    method StoreAnswer()
      requires inFlight.Answered?
      modifies this
      ensures State() == OnAnswer(old(State()))
    {
      match inFlight.answer {
        case Some(token) =>
          refreshToken := Some(token);
          inFlight := Settling(true);
        case None =>
          inFlight := Settling(false);
      }
    }

    /** `.finally`. */
    method Settle()
      requires inFlight.Settling?
      modifies this
      ensures State() == OnSettled(old(State()))
    {
      var ok := inFlight.ok;
      inFlight := Idle;
      requests := map r | r in requests :: Wake(requests[r], ok);
    }

    /** The code after `await refreshAccessToken()` in the interceptor of request `r`. */
    method Continue(r: nat)
      requires r in requests && requests[r].phase.Woken?
      modifies this
      ensures State() == OnWoken(old(State()), r)
    {
      if requests[r].phase.ok {
        var original := requests[r].(retried := true);
        requests := requests[r := original.(sends := original.sends + 1, phase := OnWire)];
      } else {
        ClearAndReject(r);
      }
    }
  }
}
