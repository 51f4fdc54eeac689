/**
 * Which schedules keep status and timestamps in agreement: a condition on the actions alone, with no look
 * at the states they lead to.
 */
module CalmRuns {
  import opened Common
  import opened TelegramPublishing
  import opened ContentHash
  import opened QueueModel
  import opened PublishProtocol
  import opened ItemStatus

  /**
   * What the actions so far say: the open edits and their items, those of them whose item may have been
   * written since, the publishes begun and their items, and those begun at this very instant.
   */
  datatype Books = Books(edits: map<nat, nat>, stale: set<nat>, publishes: map<nat, nat>, recent: set<nat>)

  const BLANK := Books(map[], {}, map[], {})

  /** Item `q` is written, so every open edit of it is out of date. */
  function Wrote(c: Books, q: nat): Books {
    c.(stale := c.stale + set u | u in c.edits && c.edits[u] == q)
  }

  function Note(c: Books, a: Action): Books {
    match a
    case Tick(elapsed) => if elapsed > 0 then c.(recent := {}) else c
    case ReadForEdit(u, q, _) => c.(edits := c.edits[u := q])
    case WriteEdit(u) => if u in c.edits then Wrote(c.(edits := c.edits - {u}), c.edits[u]) else c
    case BeginPublish(w, q, _) => Wrote(c.(publishes := c.publishes[w := q], recent := c.recent + {w}), q)
    case Finish(w, _) => if w in c.publishes then Wrote(c, c.publishes[w]) else c
    case MarkFailed(w) => if w in c.publishes then Wrote(c, c.publishes[w]) else c
    case _ => c
  }

  /**
   * No publish of the item comes between an edit's read and its flush, nor does another flush, and the
   * clock moves between a claim and its finish. Edits and workers have names of their own.
   */
  predicate Allowed(c: Books, a: Action) {
    match a
    case ReadForEdit(u, _, _) => u !in c.edits && u !in c.stale
    case WriteEdit(u) => u !in c.stale
    case BeginPublish(w, _, _) => w !in c.publishes
    case Finish(w, _) => w !in c.recent
    case _ => true
  }

  predicate Calm(c: Books, actions: seq<Action>)
    decreases |actions|
  {
    |actions| == 0 || (Allowed(c, actions[0]) && Calm(Note(c, actions[0]), actions[1..]))
  }

  // ---- What the books know of the state ----

  predicate By(time: Option<int>, now: int) {
    time.Some? ==> time.value <= now
  }

  ghost predicate ItemsBy(s: State) {
    forall q :: q in s.db.items ==> By(s.db.items[q].publishedAt, s.now)
  }

  /** A publish begun before this instant read no publish time of this instant. */
  predicate PublishKnown(s: State, c: Books, w: nat)
    requires w in s.workers
  {
    var claim := s.workers[w].claim;
    && w in c.publishes && claim.queueId == c.publishes[w]
    && By(claim.item.publishedAt, if w in c.recent then s.now else s.now - 1)
  }

  ghost predicate PublishesKnown(s: State, c: Books) {
    forall w :: w in s.workers ==> PublishKnown(s, c, w)
  }

  /** The item of an open edit that is not stale is still as it was read. */
  predicate EditKnown(s: State, c: Books, u: nat)
    requires u in s.edits
  {
    var e := s.edits[u];
    && u in c.edits && e.queueId == c.edits[u]
    && (u !in c.stale ==> e.queueId in s.db.items && s.db.items[e.queueId] == e.read)
  }

  ghost predicate EditsKnown(s: State, c: Books) {
    forall u :: u in s.edits ==> EditKnown(s, c, u)
  }

  /** The step writes no item but those the books count as written. */
  ghost predicate ItemsWritten(s: State, s': State, written: set<nat>) {
    forall q :: q in s.db.items && q !in written ==> q in s'.db.items && s'.db.items[q] == s.db.items[q]
  }

  function Written(c: Books, a: Action): set<nat> {
    match a
    case WriteEdit(u) => if u in c.edits then {c.edits[u]} else {}
    case BeginPublish(_, q, _) => {q}
    case Finish(w, _) => if w in c.publishes then {c.publishes[w]} else {}
    case MarkFailed(w) => if w in c.publishes then {c.publishes[w]} else {}
    case _ => {}
  }

  lemma StepWrites(s: State, c: Books, a: Action)
    requires EditsKnown(s, c) && PublishesKnown(s, c)
    ensures ItemsWritten(s, Next(s, a), Written(c, a))
  {
    hide Flushed, UpdatedItem, CreatedItem, SnapshotHash, ActiveGuard, NextNumber, Snapshot, SendResult, Terminal, UpdateError, Healed, Emit;
    assert a.WriteEdit? && a.u in s.edits ==> EditKnown(s, c, a.u);
    assert a.Finish? && a.w in s.workers ==> PublishKnown(s, c, a.w);
    assert a.MarkFailed? && a.w in s.workers ==> PublishKnown(s, c, a.w);
  }

  lemma EditsStayKnown(s: State, c: Books, a: Action)
    requires EditsKnown(s, c) && PublishesKnown(s, c) && EditsOk(s) && Allowed(c, a)
    ensures EditsKnown(Next(s, a), Note(c, a))
  {
    hide Next, ItemsWritten, UpdatedItem, TimesOk;
    var s', c' := Next(s, a), Note(c, a);
    StepWrites(s, c, a);
    if a.WriteEdit? && a.u in s.edits {
      assert EditKnown(s, c, a.u) && EditOk(s.edits[a.u]);
    }
    forall u | u in s'.edits ensures EditKnown(s', c', u) {
      NextEdits(s, a, u);
      if u in s.edits {
        assert EditKnown(s, c, u);
        OpenEditKnown(s, c, a, u);
      }
    }
  }

  /** An edit is pending because it was before, or because the step has just read its row. */
  lemma NextEdits(s: State, a: Action, u: nat)
    requires u in Next(s, a).edits && (a.WriteEdit? && a.u in s.edits ==> CanWrite(s, a.u))
    ensures u in s.edits ==> Next(s, a).edits[u] == s.edits[u] && a != WriteEdit(u)
    ensures u !in s.edits ==>
      && a.ReadForEdit? && a.u == u && a.q in s.db.items && Next(s, a).db == s.db
      && Next(s, a).edits[u] == Edit(a.q, s.db.items[a.q], a.update)
  {
    hide ClaimPublish, CreateItem, SendResult, SettleSucceeded, SettleFailed, MarkItemFailed, FlushUpdate, UpdateError, Emit, FailureEvent;
  }

  lemma OpenEditKnown(s: State, c: Books, a: Action, u: nat)
    requires u in s.edits && u in Next(s, a).edits && EditKnown(s, c, u) && Allowed(c, a)
    requires Next(s, a).edits[u] == s.edits[u] && a != WriteEdit(u)
    requires ItemsWritten(s, Next(s, a), Written(c, a))
    ensures EditKnown(Next(s, a), Note(c, a), u)
  {
    hide Next;
  }

  // ---- Publish times ----

  /** A row whose column is flushed gets the time that stood there or the time that is wanted. */
  lemma ItemsStayBy(s: State, a: Action)
    requires Inv(s) && ItemsBy(s)
    ensures ItemsBy(Next(s, a))
  {
    hide Next;
    match a {
      case Create(q, p) => CreatedBy(s, q, p);
      case WriteEdit(u) => WrittenBy(s, u);
      case BeginPublish(w, q, final) => HealedBy(s, w, q, final);
      case Finish(w, outcome) => FinishedBy(s, w, outcome);
      case _ => OthersBy(s, a);
    }
  }

  lemma OthersBy(s: State, a: Action)
    requires ItemsBy(s) && !a.Create? && !a.WriteEdit? && !a.BeginPublish? && !a.Finish?
    ensures ItemsBy(Next(s, a))
  {
    hide UpdateError, Emit;
  }

  lemma CreatedBy(s: State, q: nat, p: CreatePayload)
    requires ItemsBy(s)
    ensures ItemsBy(Next(s, Create(q, p)))
  {
  }

  lemma WrittenBy(s: State, u: nat)
    requires ItemsBy(s)
    ensures ItemsBy(Next(s, WriteEdit(u)))
  {
  }

  lemma HealedBy(s: State, w: nat, q: nat, final: bool)
    requires ItemsBy(s) && RowsOk(s.db.attempts, s.now)
    ensures ItemsBy(Next(s, BeginPublish(w, q, final)))
  {
    hide SnapshotHash, Snapshot, NextNumber;
    if q in s.db.items {
      var guard := ActiveGuard(s.db.attempts, |s.db.attempts|, q, SnapshotHash(s.db.catalog, s.db.items[q]), s.now);
      if guard.Some? {
        assert RowOk(s.db.attempts, guard.value, s.now);
      }
    }
  }

  lemma FinishedBy(s: State, w: nat, outcome: Outcome)
    requires ItemsBy(s)
    ensures ItemsBy(Next(s, Finish(w, outcome)))
  {
    hide SendResult, Terminal;
  }

  /** A worker's claim is what it was, or was taken in this step from an item as it stands. */
  lemma NextWorkers(s: State, a: Action, w: nat)
    requires w in Next(s, a).workers
    ensures var claim := Next(s, a).workers[w].claim;
      if w in s.workers then claim == s.workers[w].claim
      else a.BeginPublish? && a.w == w && claim.queueId == a.q && a.q in s.db.items && claim.item == s.db.items[a.q]
  {
    hide SnapshotHash, Snapshot, ActiveGuard, NextNumber, UpdateError, CreateItem, SendResult, SettleSucceeded, SettleFailed,
      MarkItemFailed, FlushUpdate, Healed, Emit;
  }

  lemma PublishesStayKnown(s: State, c: Books, a: Action)
    requires ItemsBy(s) && PublishesKnown(s, c) && Allowed(c, a)
    ensures PublishesKnown(Next(s, a), Note(c, a))
  {
    hide Next;
    var s', c' := Next(s, a), Note(c, a);
    ClockSteps(s, a);
    forall w | w in s'.workers ensures PublishKnown(s', c', w) {
      NextWorkers(s, a, w);
      if w in s.workers {
        assert PublishKnown(s, c, w);
      }
    }
  }

  lemma ClockSteps(s: State, a: Action)
    ensures Next(s, a).now == if a.Tick? then s.now + a.elapsed else s.now
  {
    hide ClaimPublish, CreateItem, SendResult, Flushed, UpdateError;
  }

  // ---- The result ----

  ghost predicate Known(s: State, c: Books) {
    Inv(s) && AllTimesOk(s.db) && EditsOk(s) && ItemsBy(s) && PublishesKnown(s, c) && EditsKnown(s, c)
  }

  /** An allowed step is never torn. */
  lemma {:induction false} AllowedIsNotTorn(s: State, c: Books, a: Action)
    requires Known(s, c) && Allowed(c, a)
    ensures !TornStep(s, a)
  {
    hide Inv, Torn, TimesOk, UpdatedItem, SendResult, ItemsBy;
    match a {
      case WriteEdit(u) =>
        if CanWrite(s, u) {
          var e := s.edits[u];
          assert EditKnown(s, c, u) && EditOk(e);
          ItemTimes(s.db, e.queueId);
          UntouchedRowIsNotTorn(e.read, UpdatedItem(e.read, e.update, s.now), s.db.items[e.queueId]);
        }
      case Finish(w, outcome) =>
        if CanFinish(s, w) && SendResult(s.workers[w].claim, outcome).Delivered? {
          assert PublishKnown(s, c, w);
          FinishTornIff(s, w, outcome);
        }
      case _ =>
    }
  }

  lemma {:induction false} CalmIsUntorn(s: State, c: Books, actions: seq<Action>)
    requires Known(s, c) && Calm(c, actions)
    ensures UntornRun(s, actions)
    decreases |actions|
  {
    hide Inv, AllTimesOk, EditsOk, ItemsBy, PublishesKnown, EditsKnown, TornStep, Next, Note, Allowed;
    if |actions| > 0 {
      var a := actions[0];
      AllowedIsNotTorn(s, c, a);
      NextInv(s, a);
      NextKeepsTimesIff(s, a);
      ItemsStayBy(s, a);
      PublishesStayKnown(s, c, a);
      EditsStayKnown(s, c, a);
      CalmIsUntorn(Next(s, a), Note(c, a), actions[1..]);
    }
  }

  /**
   * From an empty database, status and timestamps agree in every state of a run if no edit's item is
   * written between its read and its flush and the clock moves between each claim and its finish.
   */
  lemma CalmKeepsTimes(start: State, actions: seq<Action>)
    requires Initial(start) && Calm(BLANK, actions)
    ensures TimesOkThroughout(start, actions)
  {
    hide Next, TornStep, UntornRun, TimesOkThroughout, Calm;
    InitialInv(start);
    CalmIsUntorn(start, BLANK, actions);
    StatusMatchesTimes(start, actions);
  }
}
