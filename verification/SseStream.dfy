/**
 * The per-client event buffer of app/api/v1/queue_stream.py, fed by app/events/broadcaster.py, under
 * every interleaving of publishes, reads, timeouts, overflow and disconnect.
 */
module SseStream {
  import opened Common

  const CLIENT_QUEUE_MAXSIZE := 64

  datatype Event = Event(id: nat, workspace: nat)

  /**
   * One connection. A None in the buffer is the wake-up sentinel; `waiting` says the loop is inside
   * `queue.get()` rather than at its head; `ended` says the finally block has run.
   */
  datatype Stream = Stream(
    workspace: nat, buffer: seq<Option<Event>>, closed: bool, waiting: bool, ended: bool, yielded: seq<Event>)

  function Opened(workspace: nat): Stream {
    Stream(workspace, [], false, false, false, [])
  }

  /** `on_event`: other workspaces are skipped; a full buffer closes the connection. */
  function OnEvent(s: Stream, e: Event): Stream {
    if e.workspace != s.workspace || s.closed then s
    else if |s.buffer| < CLIENT_QUEUE_MAXSIZE then s.(buffer := s.buffer + [Some(e)])
    else s.(closed := true)
  }

  /** `watch_disconnect` noticing that the client has gone. */
  function OnDisconnect(s: Stream): Stream {
    if s.closed then s
    else if |s.buffer| < CLIENT_QUEUE_MAXSIZE then s.(closed := true, buffer := s.buffer + [None])
    else s.(closed := true)
  }

  function End(s: Stream): Stream {
    s.(closed := true, ended := true, waiting := false)
  }

  /** The loop head, `while not closed.is_set()`. */
  function CheckHead(s: Stream): Stream {
    if s.ended || s.waiting then s
    else if s.closed then End(s)
    else s.(waiting := true)
  }

  /** `queue.get()` returning, and the yield that follows. */
  function Take(s: Stream): Stream {
    if s.ended || !s.waiting || |s.buffer| == 0 then s
    else
      var rest := s.(buffer := s.buffer[1..], waiting := false);
      match s.buffer[0]
      case None => End(rest)
      case Some(e) => rest.(yielded := s.yielded + [e])
  }

  /** The heartbeat timeout. */
  function Timeout(s: Stream, disconnected: bool): Stream {
    if s.ended || !s.waiting then s
    else if disconnected then End(s)
    else s.(waiting := false)
  }

  // ---- The process: published events and open streams ----

  /** A stream and how many events had been published when it subscribed. */
  datatype Subscription = Subscription(stream: Stream, since: nat)

  datatype Hub = Hub(published: seq<Event>, subscriptions: map<nat, Subscription>)

  datatype Action =
    | Subscribe(c: nat, workspace: nat)
    | Publish(event: Event)
    | Disconnect(c: nat)
    | LoopHead(c: nat)
    | Get(c: nat)
    | Heartbeat(c: nat, gone: bool)
    | Cancel(c: nat)

  function Deliver(s: Subscription, e: Event): Subscription {
    s.(stream := OnEvent(s.stream, e))
  }

  function Change(h: Hub, c: nat, s: Stream): Hub
    requires c in h.subscriptions
  {
    h.(subscriptions := h.subscriptions[c := h.subscriptions[c].(stream := s)])
  }

  /** A stream that has ended is unsubscribed; its closed flag makes delivery to it a no-op. */
  function Next(h: Hub, a: Action): Hub {
    match a
    case Subscribe(c, workspace) =>
      if c in h.subscriptions then h
      else h.(subscriptions := h.subscriptions[c := Subscription(Opened(workspace), |h.published|)])
    case Publish(e) =>
      Hub(h.published + [e], map c | c in h.subscriptions :: Deliver(h.subscriptions[c], e))
    case Disconnect(c) => if c in h.subscriptions then Change(h, c, OnDisconnect(h.subscriptions[c].stream)) else h
    case LoopHead(c) => if c in h.subscriptions then Change(h, c, CheckHead(h.subscriptions[c].stream)) else h
    case Get(c) => if c in h.subscriptions then Change(h, c, Take(h.subscriptions[c].stream)) else h
    case Heartbeat(c, gone) => if c in h.subscriptions then Change(h, c, Timeout(h.subscriptions[c].stream, gone)) else h
    case Cancel(c) => if c in h.subscriptions then Change(h, c, End(h.subscriptions[c].stream)) else h
  }

  function Run(h: Hub, actions: seq<Action>): Hub
    decreases |actions|
  {
    if |actions| == 0 then h else Run(Next(h, actions[0]), actions[1..])
  }

  // ---- Invariant ----

  /** The events of a workspace, in order. */
  function Of(events: seq<Event>, workspace: nat): seq<Event> {
    if |events| == 0 then []
    else
      var last := events[|events| - 1];
      Of(events[..|events| - 1], workspace) + if last.workspace == workspace then [last] else []
  }

  /** The events in a buffer up to the sentinel, if any. */
  function Buffered(buffer: seq<Option<Event>>): seq<Event> {
    if |buffer| == 0 || buffer[0].None? then [] else [buffer[0].value] + Buffered(buffer[1..])
  }

  /** Only the last entry can be the sentinel. */
  predicate SentinelLast(buffer: seq<Option<Event>>) {
    forall i :: 0 <= i < |buffer| - 1 ==> buffer[i].Some?
  }

  predicate StreamOk(s: Stream, mine: seq<Event>) {
    && |s.buffer| <= CLIENT_QUEUE_MAXSIZE
    && SentinelLast(s.buffer)
    && (!s.closed ==> !s.ended && (|s.buffer| == 0 || s.buffer[|s.buffer| - 1].Some?))
    && s.yielded + Buffered(s.buffer) <= mine
    && (!s.closed ==> s.yielded + Buffered(s.buffer) == mine)
  }

  ghost predicate HubOk(h: Hub) {
    forall c :: c in h.subscriptions ==>
      h.subscriptions[c].since <= |h.published| && StreamOk(h.subscriptions[c].stream, Mine(h, c))
  }

  /** The events of the client's workspace published since it subscribed. */
  function Mine(h: Hub, c: nat): seq<Event>
    requires c in h.subscriptions && h.subscriptions[c].since <= |h.published|
  {
    Of(h.published[h.subscriptions[c].since..], h.subscriptions[c].stream.workspace)
  }

  lemma {:induction false} BufferedAppend(buffer: seq<Option<Event>>, x: Option<Event>)
    requires forall i :: 0 <= i < |buffer| ==> buffer[i].Some?
    ensures Buffered(buffer + [x]) == Buffered(buffer) + (if x.Some? then [x.value] else [])
  {
    if |buffer| > 0 {
      assert (buffer + [x])[1..] == buffer[1..] + [x];
      BufferedAppend(buffer[1..], x);
    }
  }

  /** A publish appends to the open streams of its workspace and to nothing else. */
  lemma DeliverOk(s: Stream, mine: seq<Event>, e: Event)
    requires StreamOk(s, mine)
    ensures StreamOk(OnEvent(s, e), if e.workspace == s.workspace then mine + [e] else mine)
    ensures OnEvent(s, e).workspace == s.workspace
  {
    var s' := OnEvent(s, e);
    if e.workspace == s.workspace {
      if !s.closed && |s.buffer| < CLIENT_QUEUE_MAXSIZE {
        BufferedAppend(s.buffer, Some(e));
        assert s'.yielded + Buffered(s'.buffer) == (s.yielded + Buffered(s.buffer)) + [e];
      } else {
        assert mine <= mine + [e];
        assert (mine + [e])[..|s.yielded + Buffered(s.buffer)|] == mine[..|s.yielded + Buffered(s.buffer)|];
      }
    }
  }

  lemma DisconnectOk(s: Stream, mine: seq<Event>)
    requires StreamOk(s, mine)
    ensures StreamOk(OnDisconnect(s), mine) && OnDisconnect(s).workspace == s.workspace
  {
    if !s.closed && |s.buffer| < CLIENT_QUEUE_MAXSIZE {
      BufferedAppend(s.buffer, None);
      assert Buffered(s.buffer + [None]) == Buffered(s.buffer);
    }
  }

  lemma {:induction false} TakeOk(s: Stream, mine: seq<Event>)
    requires StreamOk(s, mine)
    ensures StreamOk(Take(s), mine) && Take(s).workspace == s.workspace
  {
    if !s.ended && s.waiting && |s.buffer| > 0 {
      var s' := Take(s);
      assert SentinelLast(s'.buffer) by {
        forall i | 0 <= i < |s'.buffer| - 1 ensures s'.buffer[i].Some? {
          assert s'.buffer[i] == s.buffer[i + 1];
        }
      }
      match s.buffer[0] {
        case None =>
          assert |s.buffer| == 1;
        case Some(e) =>
          assert s.yielded + ([e] + Buffered(s.buffer[1..])) == (s.yielded + [e]) + Buffered(s.buffer[1..]);
      }
    }
  }

  lemma LoopOk(s: Stream, mine: seq<Event>, gone: bool)
    requires StreamOk(s, mine)
    ensures StreamOk(CheckHead(s), mine) && CheckHead(s).workspace == s.workspace
    ensures StreamOk(Timeout(s, gone), mine) && Timeout(s, gone).workspace == s.workspace
    ensures StreamOk(End(s), mine) && End(s).workspace == s.workspace
  {
  }

  /** One stream through one action. */
  lemma StreamStep(h: Hub, a: Action, c: nat)
    requires HubOk(h) && c in Next(h, a).subscriptions
    ensures var h' := Next(h, a);
      h'.subscriptions[c].since <= |h'.published| && StreamOk(h'.subscriptions[c].stream, Mine(h', c))
  {
    hide Of, StreamOk, OnEvent, OnDisconnect, CheckHead, Take, Timeout, End;
    var h' := Next(h, a);
    if c !in h.subscriptions {
      assert h.published[|h.published|..] == [];
      OpenedOk(h'.subscriptions[c].stream.workspace);
    } else {
      var s, mine := h.subscriptions[c].stream, Mine(h, c);
      match a {
        case Publish(e) =>
          DeliverOk(s, mine, e);
          var since := h.subscriptions[c].since;
          OfAppend(h.published[since..], e, s.workspace);
          assert (h.published + [e])[since..] == h.published[since..] + [e];
        case Disconnect(_) => DisconnectOk(s, mine);
        case LoopHead(_) => LoopOk(s, mine, false);
        case Get(_) => TakeOk(s, mine);
        case Heartbeat(_, gone) => LoopOk(s, mine, gone);
        case Cancel(_) => LoopOk(s, mine, false);
        case Subscribe(_, _) =>
      }
    }
  }

  lemma {:induction false} NextOk(h: Hub, a: Action)
    requires HubOk(h)
    ensures HubOk(Next(h, a))
  {
    hide StreamOk, Next;
    var h' := Next(h, a);
    forall c | c in h'.subscriptions
      ensures h'.subscriptions[c].since <= |h'.published| && StreamOk(h'.subscriptions[c].stream, Mine(h', c))
    {
      StreamStep(h, a, c);
    }
  }

  lemma OpenedOk(workspace: nat)
    ensures StreamOk(Opened(workspace), Of([], workspace))
  {
  }

  lemma OfAppend(events: seq<Event>, e: Event, workspace: nat)
    ensures Of(events + [e], workspace) == if e.workspace == workspace then Of(events, workspace) + [e] else Of(events, workspace)
  {
    assert (events + [e])[..|events|] == events;
  }

  lemma {:induction false} RunOk(h: Hub, actions: seq<Action>)
    requires HubOk(h)
    ensures HubOk(Run(h, actions))
    decreases |actions|
  {
    hide HubOk, Next;
    if |actions| > 0 {
      NextOk(h, actions[0]);
      RunOk(Next(h, actions[0]), actions[1..]);
    }
  }

  /**
   * What a client has received is a gap-free in-order prefix of its workspace's events since it
   * subscribed, with at most 64 more buffered; while the stream is open, nothing is missing.
   */
  lemma ReceivesPrefix(published: seq<Event>, actions: seq<Action>, c: nat)
    requires c in Run(Hub(published, map[]), actions).subscriptions
    ensures var h := Run(Hub(published, map[]), actions);
      var s := h.subscriptions[c].stream;
      && h.subscriptions[c].since <= |h.published|
      && s.yielded <= Mine(h, c)
      && |s.buffer| <= CLIENT_QUEUE_MAXSIZE
      && (!s.closed ==> s.yielded + Buffered(s.buffer) == Mine(h, c))
  {
    hide Run, Mine;
    RunOk(Hub(published, map[]), actions);
    var h := Run(Hub(published, map[]), actions);
    var s := h.subscriptions[c].stream;
    assert StreamOk(s, Mine(h, c));
    assert s.yielded <= s.yielded + Buffered(s.buffer);
    assert Mine(h, c)[..|s.yielded|] == (s.yielded + Buffered(s.buffer))[..|s.yielded|];
  }

  /** Two clients of one workspace that subscribed together: one received a prefix of the other. */
  lemma TogetherReceiveAlike(published: seq<Event>, actions: seq<Action>, c: nat, d: nat)
    requires var subs := Run(Hub(published, map[]), actions).subscriptions;
      && c in subs && d in subs
      && subs[c].since == subs[d].since && subs[c].stream.workspace == subs[d].stream.workspace
      && |subs[c].stream.yielded| <= |subs[d].stream.yielded|
    ensures var subs := Run(Hub(published, map[]), actions).subscriptions;
      subs[c].stream.yielded <= subs[d].stream.yielded
  {
    hide Run, Of;
    ReceivesPrefix(published, actions, c);
    ReceivesPrefix(published, actions, d);
  }

  // ---- When a stream closes ----

  /** The event reaches the buffer of an open stream of its workspace unless 64 entries wait there. */
  lemma RoomMeansBuffered(s: Stream, e: Event)
    requires !s.closed && e.workspace == s.workspace
    ensures OnEvent(s, e) == if |s.buffer| < 64 then s.(buffer := s.buffer + [Some(e)]) else s.(closed := true)
  {
  }

  /** The client is gone, or the connection cancelled, or one more event comes while 64 wait. */
  predicate ClosesStream(s: Stream, a: Action, c: nat) {
    match a
    case Disconnect(d) => d == c
    case Cancel(d) => d == c
    case Heartbeat(d, gone) => d == c && gone && s.waiting
    case Publish(e) => e.workspace == s.workspace && |s.buffer| >= 64
    case _ => false
  }

  /** In every reachable state, a step closes an open stream exactly for one of those causes. */
  lemma {:induction false} ClosesIff(published: seq<Event>, actions: seq<Action>, a: Action, c: nat)
    requires var h := Run(Hub(published, map[]), actions); c in h.subscriptions && !h.subscriptions[c].stream.closed
    ensures var h := Run(Hub(published, map[]), actions);
      && c in Next(h, a).subscriptions
      && (Next(h, a).subscriptions[c].stream.closed <==> ClosesStream(h.subscriptions[c].stream, a, c))
  {
    hide Run, Mine, Buffered;
    RunOk(Hub(published, map[]), actions);
    var h := Run(Hub(published, map[]), actions);
    assert StreamOk(h.subscriptions[c].stream, Mine(h, c));
  }

  /** A client that goes away while its stream waits for an event ends it at once; else the loop head does. */
  lemma DisconnectEnds(s: Stream)
    requires !s.closed && !s.ended
    ensures s.waiting && |s.buffer| == 0 ==> Take(OnDisconnect(s)).ended && Take(OnDisconnect(s)).yielded == s.yielded
    ensures !s.waiting ==> CheckHead(OnDisconnect(s)).ended && CheckHead(OnDisconnect(s)).yielded == s.yielded
  {
  }

  predicate UndisturbedRun(h: Hub, actions: seq<Action>, c: nat)
    decreases |actions|
  {
    |actions| == 0 ||
    (&& (c in h.subscriptions ==> !ClosesStream(h.subscriptions[c].stream, actions[0], c))
     && UndisturbedRun(Next(h, actions[0]), actions[1..], c))
  }

  ghost predicate OpenIfThere(h: Hub, c: nat) {
    HubOk(h) && (c in h.subscriptions ==> !h.subscriptions[c].stream.closed)
  }

  lemma StaysOpen(h: Hub, a: Action, c: nat)
    requires OpenIfThere(h, c) && (c in h.subscriptions ==> !ClosesStream(h.subscriptions[c].stream, a, c))
    ensures OpenIfThere(Next(h, a), c)
  {
    hide Mine, Buffered;
    NextOk(h, a);
    if c in h.subscriptions {
      assert StreamOk(h.subscriptions[c].stream, Mine(h, c));
    }
  }

  lemma {:induction false} UndisturbedStaysOpen(h: Hub, actions: seq<Action>, c: nat)
    requires OpenIfThere(h, c) && UndisturbedRun(h, actions, c)
    ensures OpenIfThere(Run(h, actions), c)
    decreases |actions|
  {
    hide OpenIfThere, Next, ClosesStream;
    if |actions| > 0 {
      assert c in h.subscriptions ==> !ClosesStream(h.subscriptions[c].stream, actions[0], c);
      StaysOpen(h, actions[0], c);
      UndisturbedStaysOpen(Next(h, actions[0]), actions[1..], c);
    }
  }

  /**
   * A client that is not disconnected, cancelled or 64 events behind stays open and misses nothing: received
   * and buffered together are all events of its workspace since it subscribed.
   */
  lemma {:induction false} NothingMissed(published: seq<Event>, actions: seq<Action>, c: nat)
    requires c in Run(Hub(published, map[]), actions).subscriptions
    requires UndisturbedRun(Hub(published, map[]), actions, c)
    ensures var h := Run(Hub(published, map[]), actions);
      var s := h.subscriptions[c].stream;
      !s.closed && h.subscriptions[c].since <= |h.published| && s.yielded + Buffered(s.buffer) == Mine(h, c)
  {
    hide Run, Mine, UndisturbedRun;
    UndisturbedStaysOpen(Hub(published, map[]), actions, c);
    ReceivesPrefix(published, actions, c);
  }

  /** `n` passes of the loop, each with an entry at hand. */
  function Reads(c: nat, n: nat): seq<Action> {
    if n == 0 then [] else [LoopHead(c), Get(c)] + Reads(c, n - 1)
  }

  lemma ReadOne(h: Hub, c: nat)
    requires c in h.subscriptions
    requires var s := h.subscriptions[c].stream; !s.closed && !s.ended && !s.waiting && |s.buffer| > 0 && s.buffer[0].Some?
    ensures var s := h.subscriptions[c].stream;
      Next(Next(h, LoopHead(c)), Get(c))
      == Change(h, c, s.(buffer := s.buffer[1..], yielded := s.yielded + [s.buffer[0].value]))
  {
  }

  /** An open stream whose client reads on hands out its whole buffer, in order, and stays open. */
  lemma {:induction false} ReadingDrains(h: Hub, c: nat)
    requires c in h.subscriptions
    requires var s := h.subscriptions[c].stream; !s.closed && !s.ended && !s.waiting && forall i :: 0 <= i < |s.buffer| ==> s.buffer[i].Some?
    ensures var s := h.subscriptions[c].stream;
      Run(h, Reads(c, |s.buffer|)) == Change(h, c, s.(buffer := [], yielded := s.yielded + Buffered(s.buffer)))
    decreases |h.subscriptions[c].stream.buffer|
  {
    hide Next;
    var s := h.subscriptions[c].stream;
    if |s.buffer| == 0 {
      assert s.(buffer := [], yielded := s.yielded + Buffered(s.buffer)) == s;
    } else {
      var rest := Reads(c, |s.buffer| - 1);
      var actions := Reads(c, |s.buffer|);
      assert actions[0] == LoopHead(c) && actions[1..][0] == Get(c) && actions[1..][1..] == rest;
      ReadOne(h, c);
      var h' := Next(Next(h, LoopHead(c)), Get(c));
      ReadingDrains(h', c);
      assert s.yielded + [s.buffer[0].value] + Buffered(s.buffer[1..]) == s.yielded + Buffered(s.buffer);
    }
  }

  // ---- The objects ----

  /** The closure state of one `_event_stream`. */
  class Connection {
    const workspace: nat
    var buffer: seq<Option<Event>>
    var closed: bool
    var waiting: bool
    var ended: bool
    var yielded: seq<Event>

    constructor (workspace: nat)
      ensures this.workspace == workspace && State() == Opened(workspace)
    {
      this.workspace := workspace;
      buffer, closed, waiting, ended, yielded := [], false, false, false, [];
    }

    function State(): Stream
      reads this
    {
      Stream(workspace, buffer, closed, waiting, ended, yielded)
    }

    /** `queue.put_nowait`: false stands for `QueueFull`. */
    method PutNoWait(x: Option<Event>) returns (ok: bool)
      modifies this`buffer
      ensures ok <==> |old(buffer)| < CLIENT_QUEUE_MAXSIZE
      ensures buffer == if ok then old(buffer) + [x] else old(buffer)
    {
      ok := |buffer| < CLIENT_QUEUE_MAXSIZE;
      if ok {
        buffer := buffer + [x];
      }
    }

    method Receive(e: Event)
      modifies this`buffer, this`closed
      ensures State() == OnEvent(old(State()), e)
    {
      if e.workspace != workspace {
        return;
      }
      if closed {
        return;
      }
      var ok := PutNoWait(Some(e));
      if !ok {
        closed := true;
        var woken := PutNoWait(None);
      }
    }

    method NoticeDisconnect()
      modifies this`buffer, this`closed
      ensures State() == OnDisconnect(old(State()))
    {
      if closed {
        return;
      }
      closed := true;
      var woken := PutNoWait(None);
    }

    /** The finally block. */
    method Finish()
      modifies this`closed, this`waiting, this`ended
      ensures State() == End(old(State()))
    {
      closed, waiting, ended := true, false, true;
    }

    /** The loop head: leave if closed, else start to wait for an entry. */
    method EnterWait()
      requires !ended && !waiting
      modifies this
      ensures State() == CheckHead(old(State()))
    {
      if closed {
        Finish();
      } else {
        waiting := true;
      }
    }

    /** `queue.get()` returns, with an entry that was there or has arrived while the loop waited. */
    method TakeEntry()
      requires !ended && waiting && |buffer| > 0
      modifies this
      ensures State() == Take(old(State()))
    {
      var item := buffer[0];
      buffer, waiting := buffer[1..], false;
      match item {
        case None =>
          Finish();
        case Some(e) =>
          yielded := yielded + [e];
      }
    }

    /** `wait_for` times out: a heartbeat, unless the client is gone. */
    method TimeOut(disconnected: bool)
      requires !ended && waiting
      modifies this
      ensures State() == Timeout(old(State()), disconnected)
    {
      if disconnected {
        Finish();
      } else {
        waiting := false;
      }
    }
  }

  /** `EventBroadcaster`: callbacks in registration order; `calls` lists the callbacks awaited so far. */
  class EventBroadcaster {
    var subscribers: seq<Connection>
    var calls: seq<Connection>

    ghost predicate Valid()
      reads this
    {
      forall i, j :: 0 <= i < j < |subscribers| ==> subscribers[i] != subscribers[j]
    }

    constructor ()
      ensures Valid() && subscribers == [] && calls == []
    {
      subscribers, calls := [], [];
    }

    method Register(connection: Connection)
      requires Valid() && connection !in subscribers
      modifies this`subscribers
      ensures Valid() && subscribers == old(subscribers) + [connection]
    {
      subscribers := subscribers + [connection];
    }

    /** `unsubscribe`: an unknown subscriber is ignored. */
    method Unregister(connection: Connection)
      requires Valid()
      modifies this`subscribers
      ensures Valid() && connection !in subscribers
      ensures connection !in old(subscribers) ==> subscribers == old(subscribers)
      ensures forall i :: 0 <= i < |old(subscribers)| && old(subscribers)[i] == connection ==>
        subscribers == old(subscribers)[..i] + old(subscribers)[i + 1..]
    {
      if i :| 0 <= i < |subscribers| && subscribers[i] == connection {
        subscribers := subscribers[..i] + subscribers[i + 1..];
      }
    }

    /**
     * `publish`: every callback is awaited once, in registration order. A failing one, which is taken to
     * raise before it does anything, keeps no other from the event.
     */
    method Publish(e: Event, failing: set<Connection>)
      requires Valid()
      modifies this`calls, set c | c in subscribers
      ensures calls == old(calls) + subscribers
      ensures forall i :: 0 <= i < |subscribers| ==>
        subscribers[i].State() ==
        if subscribers[i] in failing then old(subscribers[i].State()) else OnEvent(old(subscribers[i].State()), e)
    {
      for i := 0 to |subscribers|
        invariant calls == old(calls) + subscribers[..i]
        invariant forall k :: 0 <= k < i ==>
          subscribers[k].State() ==
          if subscribers[k] in failing then old(subscribers[k].State()) else OnEvent(old(subscribers[k].State()), e)
        invariant forall k :: i <= k < |subscribers| ==> subscribers[k].State() == old(subscribers[k].State())
      {
        calls := calls + [subscribers[i]];
        if subscribers[i] !in failing {
          subscribers[i].Receive(e);
        }
      }
    }
  }
}
