/**
 * The status of a queue item over all runs of PublishProtocol: when it agrees with the timestamps, when
 * PUBLISHED is lost, and when a dead letter leaves its item FAILED.
 */
module ItemStatus {
  import opened Common
  import opened ServiceErrors
  import opened TelegramPublishing
  import opened ContentHash
  import opened QueueModel
  import opened PublishProtocol
  import opened PublishTask

  predicate Zoned(w: Option<When>) {
    w.Some? && w.value.zoned
  }

  predicate Unpublished(status: QueueStatus) {
    status != Published && status != FailedItem
  }

  /** Status and timestamps agree. */
  predicate TimesOk(item: Item) {
    && (item.status == Scheduled ==> Zoned(item.scheduledAt))
    && (item.status == Published ==> item.publishedAt.Some?)
    && (item.telegramMessageId.Some? ==> item.publishedAt.Some?)
    && (item.publishedAt.Some? ==> !Unpublished(item.status))
  }

  /** Create stores consistent times and no message id. */
  lemma CreatedItemOk(c: Catalog, p: CreatePayload, now: int)
    ensures var r := CreatedItem(c, p, now);
      r.Ok? ==>
        && TimesOk(r.value) && r.value.telegramMessageId.None? && r.value.status != FailedItem
        && (Publishable(r.value.status) ==> r.value.channelId.Some?)
        && (r.value.buttonUrl.Some? <==> r.value.buttonText.Some?)
  {
  }

  /** What an accepted update flushes has consistent times and never an invented message id. */
  lemma UpdatedItemOk(c: Catalog, item: Item, p: UpdatePayload, now: int)
    requires TimesOk(item) && UpdateError(c, item, p).None?
    ensures var item' := UpdatedItem(item, p, now);
      && TimesOk(item')
      && (item'.telegramMessageId.None? || item'.telegramMessageId == item.telegramMessageId)
      && (item'.status == FailedItem ==> item.status == FailedItem)
  {
  }

  // ---- Torn writes ----

  /**
   * Of two columns that must agree, the write keeps one as it stands now and writes the other, and the
   * two do not match: someone has changed the kept column since the row was read.
   */
  predicate Torn(read: Item, wanted: Item, current: Item) {
    var status, schedule := wanted.status != read.status, wanted.scheduledAt != read.scheduledAt;
    var published, message := wanted.publishedAt != read.publishedAt, wanted.telegramMessageId != read.telegramMessageId;
    || (status && !schedule && wanted.status == Scheduled && !Zoned(current.scheduledAt))
    || (!status && schedule && current.status == Scheduled && !Zoned(wanted.scheduledAt))
    || (status && !published && wanted.status == Published && current.publishedAt.None?)
    || (!status && published && current.status == Published && wanted.publishedAt.None?)
    || (status && !published && Unpublished(wanted.status) && current.publishedAt.Some?)
    || (!status && published && Unpublished(current.status) && wanted.publishedAt.Some?)
    || (message && !published && wanted.telegramMessageId.Some? && current.publishedAt.None?)
    || (!message && published && current.telegramMessageId.Some? && wanted.publishedAt.None?)
  }

  /** A flush of consistent values over a consistent row leaves it consistent exactly when it is not torn. */
  lemma FlushKeepsTimesIff(read: Item, wanted: Item, current: Item)
    requires TimesOk(wanted) && TimesOk(current)
    ensures TimesOk(Flushed(read, wanted, current)) <==> !Torn(read, wanted, current)
  {
  }

  predicate SameTimes(a: Item, b: Item) {
    a.status == b.status && a.scheduledAt == b.scheduledAt && a.publishedAt == b.publishedAt
    && a.telegramMessageId == b.telegramMessageId
  }

  /** Nothing is torn if the row still has the status, times and message id that were read. */
  lemma {:induction false} UntouchedRowIsNotTorn(read: Item, wanted: Item, current: Item)
    requires TimesOk(wanted) && TimesOk(current) && SameTimes(read, current)
    ensures !Torn(read, wanted, current)
  {
    FlushKeepsTimesIff(read, wanted, current);
    assert SameTimes(Flushed(read, wanted, current), wanted);
  }

  /**
   * An edit that takes an item to draft or queued is torn exactly when a publish has since stored a time
   * where the edit read none, or a message id where it read a time but no message id.
   */
  lemma UnpublishTornIff(c: Catalog, read: Item, p: UpdatePayload, now: int, current: Item)
    requires TimesOk(read) && TimesOk(current) && UpdateError(c, read, p).None?
    requires (p.status == Given(Some(Draft)) || p.status == Given(Some(Queued))) && p.status.value != Some(read.status)
    ensures Torn(read, UpdatedItem(read, p, now), current) <==>
      if read.publishedAt.None? then current.publishedAt.Some?
      else read.telegramMessageId.None? && current.telegramMessageId.Some?
  {
  }

  /**
   * An edit that schedules an item is torn by a publish exactly as one to draft is, and besides when it
   * asks for the very schedule it read, so leaves it out, and the row has none with a time zone any more.
   */
  lemma ScheduleTornIff(c: Catalog, read: Item, p: UpdatePayload, now: int, current: Item)
    requires TimesOk(read) && TimesOk(current) && UpdateError(c, read, p).None?
    requires p.status == Given(Some(Scheduled)) && read.status != Scheduled
    ensures Torn(read, UpdatedItem(read, p, now), current) <==>
      || (if read.publishedAt.None? then current.publishedAt.Some?
          else read.telegramMessageId.None? && current.telegramMessageId.Some?)
      || (Value(p.scheduledAt) == read.scheduledAt && !Zoned(current.scheduledAt))
  {
  }

  /** An edit that publishes an item is torn exactly when the publish time it read is now, so it leaves it out, and the row has lost it. */
  lemma PublishTornIff(c: Catalog, read: Item, p: UpdatePayload, now: int, current: Item)
    requires TimesOk(read) && TimesOk(current) && UpdateError(c, read, p).None?
    requires p.status == Given(Some(Published)) && read.status != Published
    ensures Torn(read, UpdatedItem(read, p, now), current) <==>
      read.publishedAt == Some(now) && current.publishedAt.None?
  {
  }

  /**
   * An edit that leaves the status column alone is torn exactly when it takes the schedule from an item
   * that is SCHEDULED by now, or dates a PUBLISHED item anew that is unpublished by now.
   */
  lemma SameStatusTornIff(c: Catalog, read: Item, p: UpdatePayload, now: int, current: Item)
    requires TimesOk(read) && TimesOk(current) && UpdateError(c, read, p).None?
    requires p.status.Unset? || p.status == Given(Some(read.status))
    ensures var wanted := UpdatedItem(read, p, now);
      Torn(read, wanted, current) <==>
        || (wanted.scheduledAt != read.scheduledAt && current.status == Scheduled && !Zoned(wanted.scheduledAt))
        || (p.status == Given(Some(Published)) && read.publishedAt != Some(now) && Unpublished(current.status))
  {
  }

  // ---- Torn steps of a run ----

  /** Edits and successful finishes are the writes of rows read earlier. */
  predicate TornStep(s: State, a: Action) {
    match a
    case WriteEdit(u) =>
      CanWrite(s, u) &&
      var e := s.edits[u];
      Torn(e.read, UpdatedItem(e.read, e.update, s.now), s.db.items[e.queueId])
    case Finish(w, outcome) =>
      CanFinish(s, w) &&
      var claim := s.workers[w].claim;
      var result := SendResult(claim, outcome);
      result.Delivered? && Torn(claim.item, PublishedItem(claim.item, result.receipt, s.now), s.db.items[claim.queueId])
    case _ => false
  }

  ghost predicate AllTimesOk(db: Db) {
    forall q :: q in db.items ==> TimesOk(db.items[q])
  }

  /** A pending edit was checked, so it flushes consistent values whenever it does. */
  ghost predicate EditOk(e: Edit) {
    !NullsColumn(e.update) && forall now: int :: TimesOk(UpdatedItem(e.read, e.update, now))
  }

  ghost predicate EditsOk(s: State) {
    forall u :: u in s.edits ==> EditOk(s.edits[u])
  }

  /**
   * A successful finish is torn only if the claim read a publish time of this very instant, which the
   * flush then leaves out, and the row has lost it.
   */
  lemma FinishTornIff(s: State, w: nat, outcome: Outcome)
    requires CanFinish(s, w) && SendResult(s.workers[w].claim, outcome).Delivered?
    ensures var claim := s.workers[w].claim;
      TornStep(s, Finish(w, outcome)) <==>
        claim.item.publishedAt == Some(s.now) && s.db.items[claim.queueId].publishedAt.None?
  {
  }

  lemma ReadEditsOk(s: State, u: nat, q: nat, p: UpdatePayload)
    requires AllTimesOk(s.db) && EditsOk(s)
    ensures EditsOk(Next(s, ReadForEdit(u, q, p)))
  {
    hide UpdatedItem, UpdateError, AllTimesOk;
    var s' := Next(s, ReadForEdit(u, q, p));
    if s' != s {
      var e := s'.edits[u];
      ItemTimes(s.db, q);
      CheckedColumns(s.db.catalog, e.read, p);
      forall now: int ensures TimesOk(UpdatedItem(e.read, e.update, now)) {
        UpdatedItemOk(s.db.catalog, e.read, p, now);
      }
    }
  }

  lemma CheckedColumns(c: Catalog, read: Item, p: UpdatePayload)
    requires UpdateError(c, read, p).None?
    ensures !NullsColumn(p)
  {
  }

  lemma ItemTimes(db: Db, q: nat)
    requires AllTimesOk(db) && q in db.items
    ensures TimesOk(db.items[q])
  {
  }

  lemma OneItemTimes(db: Db, items': map<nat, Item>, q: nat)
    requires AllTimesOk(db) && items'.Keys == db.items.Keys + {q}
    requires forall k :: k in db.items && k != q ==> items'[k] == db.items[k]
    ensures AllTimesOk(db.(items := items')) <==> TimesOk(items'[q])
  {
    assert forall k :: k in items' ==> k in db.items || k == q;
  }

  lemma WriteKeepsTimesIff(s: State, u: nat)
    requires AllTimesOk(s.db) && EditsOk(s) && CanWrite(s, u)
    ensures AllTimesOk(Next(s, WriteEdit(u)).db) <==> !TornStep(s, WriteEdit(u))
  {
    hide Torn, TimesOk, UpdatedItem, Flushed;
    var e := s.edits[u];
    var s' := Next(s, WriteEdit(u));
    FlushKeepsTimesIff(e.read, UpdatedItem(e.read, e.update, s.now), s.db.items[e.queueId]);
    OneItemTimes(s.db, s'.db.items, e.queueId);
  }

  lemma FinishKeepsTimesIff(s: State, w: nat, outcome: Outcome)
    requires AllTimesOk(s.db) && CanFinish(s, w)
    ensures AllTimesOk(Next(s, Finish(w, outcome)).db) <==> !TornStep(s, Finish(w, outcome))
  {
    hide Torn, Flushed, SendResult, Terminal;
    var claim := s.workers[w].claim;
    var s' := Next(s, Finish(w, outcome));
    var result := SendResult(claim, outcome);
    if result.Delivered? {
      FlushKeepsTimesIff(claim.item, PublishedItem(claim.item, result.receipt, s.now), s.db.items[claim.queueId]);
      OneItemTimes(s.db, s'.db.items, claim.queueId);
    }
  }

  lemma OtherStepsKeepTimes(s: State, a: Action)
    requires AllTimesOk(s.db) && !a.WriteEdit? && !a.Finish?
    ensures AllTimesOk(Next(s, a).db)
  {
    hide UpdateError, CreatedItem, ActiveGuard, NextNumber, SnapshotHash, Snapshot;
    match a {
      case Create(q, p) => CreatedItemOk(s.db.catalog, p, s.now);
      case _ =>
    }
  }

  /** One step keeps the times of all items consistent exactly when it is not torn. */
  lemma NextKeepsTimesIff(s: State, a: Action)
    requires AllTimesOk(s.db) && EditsOk(s)
    ensures EditsOk(Next(s, a))
    ensures AllTimesOk(Next(s, a).db) <==> !TornStep(s, a)
  {
    hide TornStep, AllTimesOk, EditOk, CanWrite, CanFinish, AfterClaim, AfterFinish, Emit, UpdateError;
    match a {
      case WriteEdit(u) =>
        if CanWrite(s, u) { WriteKeepsTimesIff(s, u); } else { DisabledStep(s, a); }
      case Finish(w, outcome) =>
        EditsStay(s, a);
        if CanFinish(s, w) { FinishKeepsTimesIff(s, w, outcome); } else { DisabledStep(s, a); }
      case ReadForEdit(u, q, p) =>
        ReadEditsOk(s, u, q, p);
        NeverTorn(s, a);
      case _ =>
        EditsStay(s, a);
        NeverTorn(s, a);
        OtherStepsKeepTimes(s, a);
    }
  }

  lemma DisabledStep(s: State, a: Action)
    requires match a case WriteEdit(u) => !CanWrite(s, u) case Finish(w, _) => !CanFinish(s, w) case _ => false
    ensures !TornStep(s, a) && Next(s, a) == s
  {
  }

  lemma NeverTorn(s: State, a: Action)
    requires !a.WriteEdit? && !a.Finish?
    ensures !TornStep(s, a)
  {
  }

  lemma EditsStay(s: State, a: Action)
    requires !a.WriteEdit? && !a.ReadForEdit?
    ensures Next(s, a).edits == s.edits
  {
    hide ClaimPublish, SendResult, Terminal, Flushed, CreatedItem;
  }

  predicate UntornRun(s: State, actions: seq<Action>)
    decreases |actions|
  {
    |actions| == 0 || (!TornStep(s, actions[0]) && UntornRun(Next(s, actions[0]), actions[1..]))
  }

  /** Status and timestamps agree in every state of the run. */
  ghost predicate TimesOkThroughout(s: State, actions: seq<Action>)
    decreases |actions|
  {
    AllTimesOk(s.db) && (|actions| > 0 ==> TimesOkThroughout(Next(s, actions[0]), actions[1..]))
  }

  lemma {:induction false} ThroughoutIff(s: State, actions: seq<Action>)
    requires AllTimesOk(s.db) && EditsOk(s)
    ensures TimesOkThroughout(s, actions) <==> UntornRun(s, actions)
    ensures UntornRun(s, actions) ==> AllTimesOk(Run(s, actions).db)
    decreases |actions|
  {
    hide AllTimesOk, EditsOk, TornStep, Next;
    if |actions| > 0 {
      var s' := Next(s, actions[0]);
      NextKeepsTimesIff(s, actions[0]);
      if AllTimesOk(s'.db) {
        ThroughoutIff(s', actions[1..]);
      }
    }
  }

  /** From an empty database, status and timestamps agree in every state of a run exactly when no write of it is torn. */
  lemma StatusMatchesTimes(start: State, actions: seq<Action>)
    requires Initial(start)
    ensures TimesOkThroughout(start, actions) <==> UntornRun(start, actions)
    ensures UntornRun(start, actions) ==> AllTimesOk(Run(start, actions).db)
  {
    hide Run, TornStep, Next;
    ThroughoutIff(start, actions);
  }

  // ---- PUBLISHED can be lost ----

  predicate CanMark(s: State, w: nat) {
    w in s.workers && s.workers[w].phase == MarkingItem && s.workers[w].claim.queueId in s.db.items
  }

  /**
   * PUBLISHED is lost in exactly two ways: an edit writes another status, or a worker that did not claim
   * the item as FAILED marks its dead letter.
   */
  lemma {:induction false} PublishedLostIff(s: State, a: Action, q: nat)
    requires q in s.db.items && s.db.items[q].status == Published
    ensures q in Next(s, a).db.items
    ensures Next(s, a).db.items[q].status != Published <==>
      match a
      case WriteEdit(u) =>
        CanWrite(s, u) && s.edits[u].queueId == q &&
        var wanted := UpdatedItem(s.edits[u].read, s.edits[u].update, s.now);
        wanted.status != Published && wanted.status != s.edits[u].read.status
      case MarkFailed(w) => CanMark(s, w) && s.workers[w].claim.queueId == q && s.workers[w].claim.item.status != FailedItem
      case _ => false
  {
    hide UpdatedItem, CreatedItem, ActiveGuard, NextNumber, SnapshotHash, Snapshot, PreflightError, Terminal, UpdateError;
  }

  /**
   * Publishing a PUBLISHED item with no other writer moves it to FAILED exactly when no live attempt
   * guards its content: its window has expired, its content was edited, or it never had one.
   */
  lemma {:induction false} PublishedFallsIff(db: Db, claimTime: int, finishTime: int, q: nat, final: bool, outcome: Outcome)
    requires q in db.items && db.items[q].status == Published
    ensures var db' := Execute(db, claimTime, finishTime, q, final, outcome).db;
      && q in db'.items
      && (db'.items[q].status == FailedItem <==>
            ActiveGuard(db.attempts, |db.attempts|, q, SnapshotHash(db.catalog, db.items[q]), claimTime).None?)
      && (db'.items[q].status != FailedItem ==> db'.items[q] == db.items[q])
  {
    hide ActiveGuard, NextNumber, SnapshotHash, Snapshot, Flushed, ChannelError;
    ClaimOwnsRow(db, claimTime, q);
  }

  // ---- A dead letter need not leave its item FAILED ----

  /**
   * In every reachable state, a worker that is to mark its item has a dead letter, and marking leaves the
   * item FAILED exactly when the claim did not see FAILED or the row is FAILED by now.
   */
  lemma DeadLetterFailsItemIff(s: State, w: nat)
    requires Reachable(s) && CanMark(s, w)
    ensures var claim, s' := s.workers[w].claim, Next(s, MarkFailed(w));
      && claim.row < |s'.db.attempts| && s'.db.attempts[claim.row].errorCode == Some(DeadLetter)
      && (s'.db.items[claim.queueId].status == FailedItem <==>
            claim.item.status != FailedItem || s.db.items[claim.queueId].status == FailedItem)
  {
    hide RowsOk, ItemsOk, EventsOk, Canonical;
    ReachableInv(s);
    assert WorkerOk(s.workers[w], s.db);
  }

  // ---- Runs that show it ----

  const OPEN_CHANNEL := Channel("@channel", true, Granted, true)
  const SHOP := Catalog(map[0 := OPEN_CHANNEL], map[], None)
  const EMPTY := State(Db(map[], [], SHOP), map[], map[], [], 0)
  const TO_DRAFT := UpdatePayload(Unset, Given(Some(Draft)), Unset, Unset, Unset, Unset, Unset, Unset)

  function Post(status: QueueStatus): CreatePayload {
    CreatePayload("text", status, None, Some(0), None, None, None, None)
  }

  /** One item, just created. */
  function Created(status: QueueStatus): State {
    Next(EMPTY, Create(0, Post(status)))
  }

  lemma CreatedAs(status: QueueStatus)
    requires status == Queued || status == Published
    ensures Run(EMPTY, [Create(0, Post(status))]) == Created(status)
    ensures var s := Created(status);
      && 0 in s.db.items && s.db.items[0].status == status && s.db.items[0].channelId == Some(0)
      && (status == Queued ==> s.db.items[0].publishedAt.None?)
      && s.db.catalog == SHOP && s.db.attempts == [] && s.workers == map[] && s.edits == map[] && s.now == 0
  {
    RunOne(EMPTY, Create(0, Post(status)));
  }

  /** An item created as PUBLISHED has no attempt; its first publish ends in FAILED. */
  lemma {:induction false} PublishedFallsAtOnce(outcome: Outcome, delivered: bool)
    ensures var actions := [Create(0, Post(Published))] + LoneRun(0, 0, false, 1, outcome, delivered);
      && Created(Published).db.items[0].status == Published
      && 0 in Run(EMPTY, actions).db.items && Run(EMPTY, actions).db.items[0].status == FailedItem
  {
    hide Run, Execute, LoneRun, SnapshotHash;
    var s := Created(Published);
    CreatedAs(Published);
    RunAppend(EMPTY, [Create(0, Post(Published))], LoneRun(0, 0, false, 1, outcome, delivered));
    ExecuteIsRun(s, 0, 0, false, 1, outcome, delivered);
    ExecuteKeepsItems(s.db, s.now, s.now + 1, 0, false, outcome);
    PublishedFallsIff(s.db, s.now, s.now + 1, 0, false, outcome);
  }

  lemma ExecuteKeepsItems(db: Db, claimTime: int, finishTime: int, q: nat, final: bool, outcome: Outcome)
    ensures Execute(db, claimTime, finishTime, q, final, outcome).db.items.Keys == db.items.Keys
  {
    hide ActiveGuard, NextNumber, SnapshotHash, Snapshot, Flushed, PreflightError, Terminal;
    ClaimOwnsRow(db, claimTime, q);
  }

  /** An edit to draft whose read and flush nothing separates. */
  lemma DraftAtOnce(s: State, u: nat, q: nat)
    requires q in s.db.items && u !in s.edits
    ensures var s' := Run(s, [ReadForEdit(u, q, TO_DRAFT), WriteEdit(u)]);
      && q in s'.db.items && s'.db.items[q].status == Draft
      && s' == s.(db := s.db.(items := s.db.items[q := s'.db.items[q]]))
  {
    hide Flushed;
    var edit := [ReadForEdit(u, q, TO_DRAFT), WriteEdit(u)];
    var s1 := Next(s, edit[0]);
    assert edit[1..] == [WriteEdit(u)];
    RunOne(s1, WriteEdit(u));
    var item := s.db.items[q];
    assert s1.edits - {u} == s.edits && s1.edits[u].read == item;
    FlushUnderSameRow(item, UpdatedItem(item, TO_DRAFT, s.now));
  }

  lemma FlushUnderSameRow(read: Item, wanted: Item)
    ensures Flushed(read, wanted, read) == wanted
  {
  }

  /**
   * A worker claims a FAILED item, a user moves the item to draft, and the worker fails for good: the
   * attempt is a dead letter and the item stays a draft.
   */
  lemma {:induction false} DeadLetterLeavesDraft(s: State, w: nat, u: nat, q: nat, e: ServiceError)
    requires q in s.db.items && s.db.items[q].status == FailedItem && NoGuard(s.db, q, s.now)
    requires w !in s.workers && u !in s.edits
    ensures var actions := [BeginPublish(w, q, true)] + ([ReadForEdit(u, q, TO_DRAFT), WriteEdit(u)]
                           + LoneRun(w, q, true, 0, Failed(e), false));
      var s' := Run(s, actions);
      && q in s'.db.items && s'.db.items[q].status == Draft
      && |s'.db.attempts| == |s.db.attempts| + 1
      && s'.db.attempts[|s.db.attempts|].queueId == q && s'.db.attempts[|s.db.attempts|].errorCode == Some(DeadLetter)
  {
    hide Run, LoneRun, Next, AfterBegin, ClaimPublish, SnapshotHash, Snapshot, PreflightError;
    var edit, rest := [ReadForEdit(u, q, TO_DRAFT), WriteEdit(u)], LoneRun(w, q, true, 0, Failed(e), false);
    RunAppend(s, [BeginPublish(w, q, true)], edit + rest);
    RunOne(s, BeginPublish(w, q, true));
    NoGuardClaims(s.db, q, s.now);
    ClaimOwnsRow(s.db, s.now, q);
    BeginIsClaim(s, w, q, true);
    var s1 := Next(s, BeginPublish(w, q, true));
    var claim := s1.workers[w].claim;
    RunAppend(s1, edit, rest);
    DraftAtOnce(s1, u, q);
    var s2 := Run(s1, edit);
    RunLone(s2, w, q, true, 0, Failed(e), false);
    assert Next(s2, BeginPublish(w, q, true)) == s2 by { BusyWorker(s2, w, q, true); }
    ClaimedWorkerRuns(s2, w, claim, true, 0, Failed(e), false);
  }

  lemma BusyWorker(s: State, w: nat, q: nat, final: bool)
    requires w in s.workers
    ensures Next(s, BeginPublish(w, q, final)) == s
  {
  }

  /** Such a run from an empty database: the item falls to FAILED, is claimed again and then made a draft. */
  lemma DeadLetterLeavesDraftReached(e: ServiceError)
    ensures exists actions: seq<Action> ::
      var s' := Run(EMPTY, actions);
      && 0 in s'.db.items && s'.db.items[0].status == Draft
      && |s'.db.attempts| > 0 && s'.db.attempts[|s'.db.attempts| - 1].queueId == 0
      && s'.db.attempts[|s'.db.attempts| - 1].errorCode == Some(DeadLetter)
  {
    hide Run, LoneRun, Execute, SnapshotHash, Guards;
    var fall := [Create(0, Post(Published))] + LoneRun(0, 0, false, 1, Failed(e), true);
    var s := Run(EMPTY, fall);
    var db := Created(Published).db;
    CreatedAs(Published);
    PublishedFallsAtOnce(Failed(e), true);
    RunAppend(EMPTY, [Create(0, Post(Published))], LoneRun(0, 0, false, 1, Failed(e), true));
    ExecuteIsRun(Created(Published), 0, 0, false, 1, Failed(e), true);
    ExecuteStep(db, Try(0, 1, Failed(e)), 0, false);
    assert NoGuard(s.db, 0, s.now) by {
      forall i | 0 <= i < |s.db.attempts| ensures !Live(s.db.attempts[i]) { assert i == 0; }
      DeadRowsDoNotGuard(s.db, 0, s.now);
    }
    var again := [BeginPublish(1, 0, true)] + ([ReadForEdit(0, 0, TO_DRAFT), WriteEdit(0)]
                 + LoneRun(1, 0, true, 0, Failed(e), false));
    DeadLetterLeavesDraft(s, 1, 0, 0, e);
    RunAppend(EMPTY, fall, again);
    assert Run(EMPTY, fall + again) == Run(s, again);
  }

  lemma DeadRowsDoNotGuard(db: Db, q: nat, now: int)
    requires q in db.items && forall i :: 0 <= i < |db.attempts| ==> !Live(db.attempts[i])
    ensures NoGuard(db, q, now)
  {
    hide SnapshotHash;
  }

  /**
   * An edit to draft reads a queued item, a worker publishes the item, the edit flushes: the item is a
   * draft with a publish time and a message id.
   */
  lemma EditOverFinishTears(receipt: Receipt, delivered: bool)
    ensures var actions := [Create(0, Post(Queued))] + ([ReadForEdit(0, 0, TO_DRAFT)]
                           + (LoneRun(0, 0, false, 1, Delivered(receipt), delivered) + [WriteEdit(0)]));
      var s' := Run(EMPTY, actions);
      && 0 in s'.db.items && s'.db.items[0].status == Draft
      && s'.db.items[0].publishedAt == Some(1) && s'.db.items[0].telegramMessageId == Some(receipt.messageId)
  {
    hide Run, LoneRun, Execute, SnapshotHash, Snapshot;
    var publish := LoneRun(0, 0, false, 1, Delivered(receipt), delivered);
    CreatedAs(Queued);
    var s := Created(Queued);
    RunAppend(EMPTY, [Create(0, Post(Queued))], [ReadForEdit(0, 0, TO_DRAFT)] + (publish + [WriteEdit(0)]));
    RunAppend(s, [ReadForEdit(0, 0, TO_DRAFT)], publish + [WriteEdit(0)]);
    RunOne(s, ReadForEdit(0, 0, TO_DRAFT));
    var s1 := Next(s, ReadForEdit(0, 0, TO_DRAFT));
    RunAppend(s1, publish, [WriteEdit(0)]);
    ExecuteIsRun(s1, 0, 0, false, 1, Delivered(receipt), delivered);
    var s2 := Run(s1, publish);
    PublishedNow(s.db, 0, 1, 0, false, receipt);
    RunOne(s2, WriteEdit(0));
  }

  /** An unguarded item of an open channel is published. */
  lemma PublishedNow(db: Db, claimTime: int, finishTime: int, q: nat, final: bool, receipt: Receipt)
    requires q in db.items && NoGuard(db, q, claimTime) && PreflightError(db.items[q], ItemChannel(db.catalog, db.items[q])).None?
    ensures var db' := Execute(db, claimTime, finishTime, q, final, Delivered(receipt)).db;
      q in db'.items && db'.items[q] == PublishedItem(db.items[q], receipt, finishTime)
  {
    hide ClaimPublish, SnapshotHash, Snapshot, Flushed, PreflightError;
    NoGuardClaims(db, q, claimTime);
    ClaimOwnsRow(db, claimTime, q);
    FlushUnderSameRow(db.items[q], PublishedItem(db.items[q], receipt, finishTime));
  }
}
