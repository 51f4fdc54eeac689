/**
 * Many workers publishing, users editing and processes crashing, as a transition system over the
 * committed transactions of QueueModel. An edit reads its row in one step and writes it in a later one.
 * Nothing is assumed about how the steps interleave.
 */
module PublishProtocol {
  import opened Common
  import opened ServiceErrors
  import opened TelegramPublishing
  import opened ContentHash
  import opened QueueModel

  /** Queue events about attempts, with the fields their envelopes carry. */
  datatype Event =
    | AttemptStarted(queueId: nat, number: nat)
    | AttemptSucceeded(queueId: nat, number: nat, messageId: int)
    | AttemptFailed(queueId: nat, number: nat, errorCode: ErrorCode, isTerminal: bool)

  /**
   * Where a worker stands in `publish_queue_item`: claim committed, started event out, outcome
   * committed, outcome event out and the item still to be moved to failed.
   */
  datatype Phase = Announcing | Sending | Settled(event: Event, terminal: bool) | MarkingItem

  datatype Worker = Worker(claim: Claim, final: bool, phase: Phase)

  /** An edit whose row has been read, without a lock, and checked, and is still to be flushed. */
  datatype Edit = Edit(queueId: nat, read: Item, update: UpdatePayload)

  datatype State = State(db: Db, workers: map<nat, Worker>, edits: map<nat, Edit>, log: seq<Event>, now: int)

  datatype Action =
    | Tick(elapsed: nat)
    | Create(q: nat, create: CreatePayload)
    | ReadForEdit(u: nat, q: nat, update: UpdatePayload)
    | WriteEdit(u: nat)
    | EditCatalog(catalog: Catalog)
    | BeginPublish(w: nat, q: nat, final: bool)
    | AnnounceStart(w: nat, delivered: bool)
    | Finish(w: nat, outcome: Outcome)
    | AnnounceOutcome(w: nat, delivered: bool)
    | MarkFailed(w: nat)
    | Crash(w: nat)

  function Emit(log: seq<Event>, e: Event, delivered: bool): seq<Event> {
    if delivered then log + [e] else log
  }

  function FailureEvent(claim: Claim, e: ServiceError, terminal: bool): Event {
    AttemptFailed(claim.queueId, claim.number, if terminal then DeadLetter else ErrorCodeFor(e), terminal)
  }

  /** The state a claim leaves: a rejected publish has no worker to carry on. */
  function AfterClaim(s: State, w: nat, final: bool, step: ClaimStep): State {
    match step.result
    case Rejected(_) => s.(db := step.db)
    case Claimed(claim) => s.(db := step.db, workers := s.workers[w := Worker(claim, final, Announcing)])
  }

  /** The state after the outcome commit of worker `w`. */
  function AfterFinish(s: State, w: nat, outcome: Outcome): State
    requires w in s.workers
    requires s.workers[w].claim.row < |s.db.attempts| && s.workers[w].claim.queueId in s.db.items
  {
    var worker := s.workers[w];
    var claim := worker.claim;
    match SendResult(claim, outcome)
    case Delivered(receipt) =>
      var event := AttemptSucceeded(claim.queueId, claim.number, receipt.messageId);
      s.(db := SettleSucceeded(s.db, claim, receipt, s.now),
         workers := s.workers[w := worker.(phase := Settled(event, false))])
    case Failed(e) =>
      var terminal := Terminal(e, worker.final);
      s.(db := SettleFailed(s.db, claim, e, terminal),
         workers := s.workers[w := worker.(phase := Settled(FailureEvent(claim, e, terminal), terminal))])
  }

  predicate CanWrite(s: State, u: nat) {
    u in s.edits && s.edits[u].queueId in s.db.items && !NullsColumn(s.edits[u].update)
  }

  predicate CanFinish(s: State, w: nat) {
    w in s.workers && s.workers[w].phase == Sending
    && s.workers[w].claim.row < |s.db.attempts| && s.workers[w].claim.queueId in s.db.items
  }

  /** An action that is not enabled changes nothing. */
  function Next(s: State, a: Action): State {
    match a
    case Tick(elapsed) => s.(now := s.now + elapsed)
    case Create(q, p) =>
      if q in s.db.items then s else s.(db := CreateItem(s.db, s.now, q, p).db)
    case ReadForEdit(u, q, p) =>
      if u in s.edits || q !in s.db.items || UpdateError(s.db.catalog, s.db.items[q], p).Some? then s
      else s.(edits := s.edits[u := Edit(q, s.db.items[q], p)])
    case WriteEdit(u) =>
      if !CanWrite(s, u) then s
      else s.(db := FlushUpdate(s.db, s.now, s.edits[u].queueId, s.edits[u].read, s.edits[u].update), edits := s.edits - {u})
    case EditCatalog(catalog) => s.(db := s.db.(catalog := catalog))
    case BeginPublish(w, q, final) =>
      if w in s.workers then s else AfterClaim(s, w, final, ClaimPublish(s.db, s.now, q))
    case AnnounceStart(w, delivered) =>
      if w !in s.workers || s.workers[w].phase != Announcing then s
      else
        var claim := s.workers[w].claim;
        s.(log := Emit(s.log, AttemptStarted(claim.queueId, claim.number), delivered),
           workers := s.workers[w := s.workers[w].(phase := Sending)])
    case Finish(w, outcome) =>
      if CanFinish(s, w) then AfterFinish(s, w, outcome) else s
    case AnnounceOutcome(w, delivered) =>
      if w !in s.workers || !s.workers[w].phase.Settled? then s
      else
        var phase := s.workers[w].phase;
        s.(log := Emit(s.log, phase.event, delivered),
           workers := if phase.terminal then s.workers[w := s.workers[w].(phase := MarkingItem)] else s.workers - {w})
    case MarkFailed(w) =>
      if w !in s.workers || s.workers[w].phase != MarkingItem || s.workers[w].claim.queueId !in s.db.items then s
      else s.(db := MarkItemFailed(s.db, s.workers[w].claim), workers := s.workers - {w})
    case Crash(w) => s.(workers := s.workers - {w})
  }

  function Run(s: State, actions: seq<Action>): State
    decreases |actions|
  {
    if |actions| == 0 then s else Run(Next(s, actions[0]), actions[1..])
  }

  lemma {:induction false} RunAppend(s: State, a: seq<Action>, b: seq<Action>)
    ensures Run(s, a + b) == Run(Run(s, a), b)
    decreases |a|
  {
    hide Next;
    if |a| == 0 {
      assert a + b == b;
    } else {
      assert (a + b)[1..] == a[1..] + b;
      RunAppend(Next(s, a[0]), a[1..], b);
    }
  }

  lemma RunOne(s: State, a: Action)
    ensures Run(s, [a]) == Next(s, a)
  {
    hide Next;
    assert [a][1..] == [];
  }

  predicate Initial(s: State) {
    s.db.items == map[] && s.db.attempts == [] && s.workers == map[] && s.edits == map[] && s.log == []
  }

  // ---- Attempt rows ----

  /** How many of the first `n` rows belong to item `q`. */
  function CountBefore(rows: seq<Attempt>, n: nat, q: nat): (k: nat)
    requires n <= |rows|
    ensures k <= n
  {
    if n == 0 then 0 else CountBefore(rows, n - 1, q) + if rows[n - 1].queueId == q then 1 else 0
  }

  /** The outcome check constraint of the attempts table. */
  predicate OutcomeConsistent(row: Attempt) {
    match row.status
    case Started =>
      row.errorCode.None? && row.errorMessage.None? && row.providerChatId.None? && row.providerMessageId.None?
    case Succeeded =>
      row.errorCode.None? && row.errorMessage.None? && row.providerChatId.Some? && row.providerMessageId.Some?
    case FailedAttempt =>
      row.errorCode.Some? && row.errorMessage.Some? && row.providerChatId.None? && row.providerMessageId.None?
  }

  predicate RowOk(rows: seq<Attempt>, i: nat, now: int)
    requires i < |rows|
  {
    && rows[i].number == 1 + CountBefore(rows, i, rows[i].queueId)
    && rows[i].expiresAt == rows[i].occurredAt + IDEMPOTENCY_WINDOW
    && rows[i].occurredAt <= now
    && OutcomeConsistent(rows[i])
  }

  /** `later` was claimed no earlier than the expiry of `earlier`, if both guard the same content. */
  predicate Exclusive(earlier: Attempt, later: Attempt) {
    (earlier.queueId == later.queueId && earlier.contentHash == later.contentHash && Live(earlier) && Live(later))
    ==> earlier.expiresAt <= later.occurredAt
  }

  ghost predicate RowsOk(rows: seq<Attempt>, now: int) {
    && (forall i :: 0 <= i < |rows| ==> RowOk(rows, i, now))
    && (forall i, j :: 0 <= i < j < |rows| ==> Exclusive(rows[i], rows[j]))
  }

  predicate SameClaim(a: Attempt, b: Attempt) {
    a.queueId == b.queueId && a.number == b.number && a.contentHash == b.contentHash
    && a.expiresAt == b.expiresAt && a.occurredAt == b.occurredAt
  }

  /** Rows are only appended, and an outcome once written stays. */
  ghost predicate Grows(before: seq<Attempt>, after: seq<Attempt>) {
    && |before| <= |after|
    && forall i :: 0 <= i < |before| ==>
      SameClaim(before[i], after[i]) && (before[i].status != Started ==> after[i] == before[i])
  }

  lemma {:induction false} CountSame(rows: seq<Attempt>, rows': seq<Attempt>, n: nat, q: nat)
    requires n <= |rows| && n <= |rows'|
    requires forall i :: 0 <= i < n ==> rows[i].queueId == rows'[i].queueId
    ensures CountBefore(rows, n, q) == CountBefore(rows', n, q)
  {
    if n > 0 {
      CountSame(rows, rows', n - 1, q);
    }
  }

  lemma {:induction false} CountMonotone(rows: seq<Attempt>, m: nat, n: nat, q: nat)
    requires m <= n <= |rows|
    ensures CountBefore(rows, m, q) <= CountBefore(rows, n, q)
    ensures m < n && rows[m].queueId == q ==> CountBefore(rows, m, q) < CountBefore(rows, n, q)
  {
    if m < n {
      CountMonotone(rows, m, n - 1, q);
    }
  }

  /** The highest attempt number of an item is the number of its attempts. */
  lemma {:induction false} LatestIsCount(rows: seq<Attempt>, now: int, n: nat, q: nat)
    requires RowsOk(rows, now) && n <= |rows|
    ensures var latest := LatestAttempt(rows, n, q);
      && (latest.None? <==> CountBefore(rows, n, q) == 0)
      && (latest.Some? ==> rows[latest.value].number == CountBefore(rows, n, q))
  {
    if n > 0 {
      LatestIsCount(rows, now, n - 1, q);
      assert RowOk(rows, n - 1, now);
    }
  }

  /** An item and an attempt number determine the row. */
  lemma NumberIdentifiesRow(rows: seq<Attempt>, now: int, i: nat, j: nat)
    requires RowsOk(rows, now) && i < |rows| && j < |rows|
    requires rows[i].queueId == rows[j].queueId && rows[i].number == rows[j].number
    ensures i == j
  {
    assert RowOk(rows, i, now) && RowOk(rows, j, now);
    if i < j {
      CountMonotone(rows, i, j, rows[i].queueId);
    } else if j < i {
      CountMonotone(rows, j, i, rows[i].queueId);
    }
  }

  lemma RowsAppend(rows: seq<Attempt>, now: int, q: nat, hash: string)
    requires RowsOk(rows, now)
    requires ActiveGuard(rows, |rows|, q, hash, now).None?
    ensures RowsOk(rows + [StartedRow(q, NextNumber(rows, q), hash, now)], now)
    ensures NextNumber(rows, q) == 1 + CountBefore(rows, |rows|, q)
  {
    hide LatestAttempt, ActiveGuard;
    var n := |rows|;
    LatestIsCount(rows, now, n, q);
    var row := StartedRow(q, NextNumber(rows, q), hash, now);
    var rows' := rows + [row];
    forall i | 0 <= i < |rows'| ensures RowOk(rows', i, now) {
      CountSame(rows, rows', if i < n then i else n, rows'[i].queueId);
      assert i < n ==> RowOk(rows, i, now);
    }
    forall i, j | 0 <= i < j < |rows'| ensures Exclusive(rows'[i], rows'[j]) {
      if j < n {
        assert Exclusive(rows[i], rows[j]);
      } else {
        assert !Guards(rows[i], q, hash, now);
      }
    }
  }

  lemma RowsSettle(rows: seq<Attempt>, now: int, r: nat, row: Attempt)
    requires RowsOk(rows, now) && r < |rows|
    requires rows[r].status == Started && row.status != Started && SameClaim(rows[r], row) && OutcomeConsistent(row)
    ensures RowsOk(rows[r := row], now)
    ensures Grows(rows, rows[r := row])
  {
    var rows' := rows[r := row];
    forall i | 0 <= i < |rows'| ensures RowOk(rows', i, now) {
      CountSame(rows, rows', i, rows'[i].queueId);
      assert RowOk(rows, i, now);
    }
    forall i, j | 0 <= i < j < |rows'| ensures Exclusive(rows'[i], rows'[j]) {
      assert Exclusive(rows[i], rows[j]);
    }
  }

  lemma RowsLater(rows: seq<Attempt>, now: int, later: int)
    requires RowsOk(rows, now) && now <= later
    ensures RowsOk(rows, later)
  {
    forall i | 0 <= i < |rows| ensures RowOk(rows, i, later) {
      assert RowOk(rows, i, now);
    }
  }

  // ---- Items ----

  predicate Acknowledges(row: Attempt, q: nat, messageId: int) {
    row.queueId == q && row.status == Succeeded && row.providerMessageId == Some(messageId)
  }

  /** A stored message id was reported by one of the item's succeeded attempts. */
  ghost predicate MessageKnown(item: Item, q: nat, rows: seq<Attempt>) {
    item.telegramMessageId.Some? ==>
      exists i :: 0 <= i < |rows| && Acknowledges(rows[i], q, item.telegramMessageId.value)
  }

  ghost predicate ItemsOk(db: Db) {
    && (forall q :: q in db.items ==> MessageKnown(db.items[q], q, db.attempts))
    && (forall i :: 0 <= i < |db.attempts| ==> db.attempts[i].queueId in db.items)
  }

  lemma MessageStaysKnown(item: Item, q: nat, rows: seq<Attempt>, rows': seq<Attempt>)
    requires MessageKnown(item, q, rows) && Grows(rows, rows')
    ensures MessageKnown(item, q, rows')
  {
    if item.telegramMessageId.Some? {
      var i :| 0 <= i < |rows| && Acknowledges(rows[i], q, item.telegramMessageId.value);
      assert Acknowledges(rows'[i], q, item.telegramMessageId.value);
    }
  }

  /** Changing one item and growing the rows keeps every item as it should be. */
  lemma ItemsStep(db: Db, db': Db, q: nat)
    requires ItemsOk(db) && Grows(db.attempts, db'.attempts)
    requires db'.items.Keys == db.items.Keys + {q}
    requires forall k :: k in db.items && k != q ==> db'.items[k] == db.items[k]
    requires MessageKnown(db'.items[q], q, db'.attempts)
    requires forall i :: |db.attempts| <= i < |db'.attempts| ==> db'.attempts[i].queueId == q
    ensures ItemsOk(db')
  {
    forall k | k in db'.items ensures MessageKnown(db'.items[k], k, db'.attempts) {
      if k != q {
        MessageStaysKnown(db.items[k], k, db.attempts, db'.attempts);
      }
    }
    forall i | 0 <= i < |db'.attempts| ensures db'.attempts[i].queueId in db'.items {
      if i < |db.attempts| {
        assert SameClaim(db.attempts[i], db'.attempts[i]);
      }
    }
  }

  /**
   * A refused claim inserts no attempt and changes no other item. If the content was already delivered,
   * the item ends PUBLISHED, and its content is untouched.
   */
  lemma {:induction false} RefusedClaim(db: Db, now: int, q: nat)
    requires ClaimPublish(db, now, q).result.Rejected?
    ensures var step := ClaimPublish(db, now, q);
      && step.db.attempts == db.attempts && step.db.items.Keys == db.items.Keys
      && (forall k :: k in db.items && k != q ==> step.db.items[k] == db.items[k])
      && (q in db.items ==> SnapshotHash(db.catalog, step.db.items[q]) == SnapshotHash(db.catalog, db.items[q]))
      && (step.result.error == ALREADY_COMPLETED ==> q in db.items && step.db.items[q].status == Published)
      && (step.result.error != ALREADY_COMPLETED ==> step.db == db)
  {
    hide ActiveGuard, Canonical;
    assert IN_PROGRESS != ALREADY_COMPLETED;
    if q in db.items {
      var guard := ActiveGuard(db.attempts, |db.attempts|, q, SnapshotHash(db.catalog, db.items[q]), now);
      if guard.Some? {
        assert Snapshot(db.catalog, Healed(db.items[q], db.attempts[guard.value])) == Snapshot(db.catalog, db.items[q]);
      }
    }
  }

  // ---- Workers ----

  predicate Describes(row: Attempt, e: Event) {
    && row.queueId == e.queueId && row.number == e.number
    && match e
       case AttemptStarted(_, _) => true
       case AttemptSucceeded(_, _, messageId) => row.status == Succeeded && row.providerMessageId == Some(messageId)
       case AttemptFailed(_, _, code, terminal) =>
         row.status == FailedAttempt && row.errorCode == Some(code) && (terminal <==> code == DeadLetter)
  }

  /** A worker owns the row it claimed, which is unsettled until the worker settles it. */
  predicate WorkerOk(worker: Worker, db: Db) {
    var claim := worker.claim;
    && claim.row < |db.attempts| && claim.queueId in db.items
    && db.attempts[claim.row].queueId == claim.queueId && db.attempts[claim.row].number == claim.number
    && db.attempts[claim.row].contentHash == Canonical(claim.payload)
    && match worker.phase
       case Announcing => db.attempts[claim.row].status == Started
       case Sending => db.attempts[claim.row].status == Started
       case Settled(e, terminal) =>
         !e.AttemptStarted? && Describes(db.attempts[claim.row], e) && (terminal <==> e.AttemptFailed? && e.isTerminal)
       case MarkingItem => db.attempts[claim.row].errorCode == Some(DeadLetter) && db.attempts[claim.row].status == FailedAttempt
  }

  ghost predicate WorkersOk(s: State) {
    && (forall w :: w in s.workers ==> WorkerOk(s.workers[w], s.db))
    && (forall v, w :: v in s.workers && w in s.workers && v != w ==> s.workers[v].claim.row != s.workers[w].claim.row)
  }

  lemma WorkerKept(worker: Worker, db: Db, db': Db, settled: nat)
    requires WorkerOk(worker, db) && worker.claim.row != settled
    requires |db.attempts| <= |db'.attempts| && db.items.Keys <= db'.items.Keys
    requires db'.attempts[worker.claim.row] == db.attempts[worker.claim.row]
    ensures WorkerOk(worker, db')
  {
    hide Canonical;
  }

  // ---- Event log ----

  predicate SameAttempt(a: Event, b: Event) {
    a.queueId == b.queueId && a.number == b.number
  }

  predicate About(e: Event, claim: Claim) {
    e.queueId == claim.queueId && e.number == claim.number
  }

  ghost predicate Described(rows: seq<Attempt>, e: Event) {
    exists r :: 0 <= r < |rows| && Describes(rows[r], e)
  }

  /** What is logged for one attempt before its worker reaches `phase`. */
  predicate LoggedBefore(e: Event, worker: Worker) {
    About(e, worker.claim) ==> worker.phase != Announcing && (worker.phase.MarkingItem? || e.AttemptStarted?)
  }

  ghost predicate LogOk(log: seq<Event>) {
    forall i, j :: 0 <= i < j < |log| && SameAttempt(log[i], log[j]) ==> log[i].AttemptStarted? && !log[j].AttemptStarted?
  }

  ghost predicate EventsOk(s: State) {
    && LogOk(s.log)
    && (forall i :: 0 <= i < |s.log| ==> Described(s.db.attempts, s.log[i]))
    && (forall i, w :: 0 <= i < |s.log| && w in s.workers ==> LoggedBefore(s.log[i], s.workers[w]))
  }

  lemma DescribedStays(rows: seq<Attempt>, rows': seq<Attempt>, e: Event)
    requires Described(rows, e) && Grows(rows, rows')
    ensures Described(rows', e)
  {
    var r :| 0 <= r < |rows| && Describes(rows[r], e);
    assert SameClaim(rows[r], rows'[r]);
    assert Describes(rows'[r], e);
  }

  // ---- The invariant ----

  ghost predicate Inv(s: State) {
    RowsOk(s.db.attempts, s.now) && ItemsOk(s.db) && WorkersOk(s) && EventsOk(s)
  }

  lemma InitialInv(s: State)
    requires Initial(s)
    ensures Inv(s)
  {
  }

  /** A step that leaves workers and log alone and lets the rows be keeps the rest. */
  lemma QuietStep(s: State, s': State)
    requires Inv(s) && s'.workers == s.workers && s'.log == s.log && s'.now >= s.now
    requires s'.db.attempts == s.db.attempts && s.db.items.Keys <= s'.db.items.Keys && ItemsOk(s'.db)
    ensures Inv(s')
  {
    hide Canonical;
    RowsLater(s.db.attempts, s.now, s'.now);
    forall w | w in s'.workers ensures WorkerOk(s'.workers[w], s'.db) {
      WorkerKept(s.workers[w], s.db, s'.db, |s.db.attempts|);
    }
  }

  lemma CreateInv(s: State, q: nat, p: CreatePayload)
    requires Inv(s) && q !in s.db.items
    ensures Inv(s.(db := CreateItem(s.db, s.now, q, p).db))
  {
    hide RowsOk, WorkersOk, EventsOk;
    var s' := s.(db := CreateItem(s.db, s.now, q, p).db);
    if s'.db != s.db {
      ItemsStep(s.db, s'.db, q);
    }
    QuietStep(s, s');
  }

  /** An edit keeps or clears the message id, whatever happened since it read the row. */
  lemma WriteEditInv(s: State, u: nat)
    requires Inv(s) && CanWrite(s, u)
    ensures Inv(Next(s, WriteEdit(u)))
  {
    hide RowsOk, WorkersOk, EventsOk;
    var s' := Next(s, WriteEdit(u));
    var q := s.edits[u].queueId;
    var item, item' := s.db.items[q], s'.db.items[q];
    assert item'.telegramMessageId.None? || item'.telegramMessageId == item.telegramMessageId;
    assert MessageKnown(item', q, s.db.attempts);
    ItemsStep(s.db, s'.db, q);
    QuietStep(s, s');
  }

  lemma {:induction false} HealInv(s: State, q: nat, g: nat)
    requires Inv(s) && q in s.db.items && g < |s.db.attempts|
    requires s.db.attempts[g].queueId == q && s.db.attempts[g].status == Succeeded
    ensures Inv(s.(db := s.db.(items := s.db.items[q := Healed(s.db.items[q], s.db.attempts[g])])))
  {
    hide WorkersOk, EventsOk;
    var item, row := s.db.items[q], s.db.attempts[g];
    var item' := Healed(item, row);
    var s' := s.(db := s.db.(items := s.db.items[q := item']));
    assert RowOk(s.db.attempts, g, s.now);
    assert Acknowledges(row, q, row.providerMessageId.value);
    assert MessageKnown(item', q, s.db.attempts);
    ItemsStep(s.db, s'.db, q);
    QuietStep(s, s');
  }

  lemma ClaimKeepsWorkers(s: State, s': State, w: nat, row: Attempt)
    requires WorkersOk(s) && w !in s.workers && w in s'.workers && s'.workers == s.workers[w := s'.workers[w]]
    requires s'.db.items == s.db.items && s'.db.attempts == s.db.attempts + [row]
    requires s'.workers[w].claim.row == |s.db.attempts| && WorkerOk(s'.workers[w], s'.db)
    ensures WorkersOk(s')
  {
    hide Canonical;
    forall v | v in s'.workers ensures WorkerOk(s'.workers[v], s'.db) {
      if v != w {
        WorkerKept(s.workers[v], s.db, s'.db, |s.db.attempts|);
      }
    }
    forall v | v in s.workers ensures s.workers[v].claim.row < |s.db.attempts| {
      assert WorkerOk(s.workers[v], s.db);
    }
  }

  lemma ClaimKeepsEvents(s: State, s': State, w: nat, row: Attempt)
    requires EventsOk(s) && RowsOk(s.db.attempts, s.now)
    requires w in s'.workers && s'.workers == s.workers[w := s'.workers[w]] && s'.log == s.log
    requires s'.db.attempts == s.db.attempts + [row]
    requires var claim := s'.workers[w].claim; claim.number == 1 + CountBefore(s.db.attempts, |s.db.attempts|, claim.queueId)
    ensures EventsOk(s')
  {
    hide RowsOk;
    var claim := s'.workers[w].claim;
    forall i | 0 <= i < |s.log| ensures Described(s'.db.attempts, s.log[i]) && !About(s.log[i], claim) {
      DescribedStays(s.db.attempts, s'.db.attempts, s.log[i]);
      OldEventsDiffer(s.db.attempts, s.now, s.log[i], claim.queueId);
    }
    forall i, v | 0 <= i < |s'.log| && v in s'.workers ensures LoggedBefore(s'.log[i], s'.workers[v]) {
      assert v != w ==> LoggedBefore(s.log[i], s.workers[v]);
    }
  }

  /** A claim that inserts a row: no event mentions the new attempt and no worker holds it. */
  lemma ClaimInv(s: State, w: nat, q: nat, final: bool)
    requires Inv(s) && w !in s.workers && q in s.db.items
    requires ActiveGuard(s.db.attempts, |s.db.attempts|, q, SnapshotHash(s.db.catalog, s.db.items[q]), s.now).None?
    ensures Inv(AfterClaim(s, w, final, ClaimPublish(s.db, s.now, q)))
  {
    hide ActiveGuard, LatestAttempt, Snapshot, NextNumber, RowsOk, WorkersOk, EventsOk, Canonical, CountBefore;
    var hash := SnapshotHash(s.db.catalog, s.db.items[q]);
    var rows, row := s.db.attempts, StartedRow(q, NextNumber(s.db.attempts, q), hash, s.now);
    var s' := AfterClaim(s, w, final, ClaimPublish(s.db, s.now, q));
    RowsAppend(rows, s.now, q, hash);
    assert s'.db.attempts == rows + [row] && Grows(rows, rows + [row]);
    MessageStaysKnown(s.db.items[q], q, rows, rows + [row]);
    ItemsStep(s.db, s'.db, q);
    ClaimKeepsWorkers(s, s', w, row);
    ClaimKeepsEvents(s, s', w, row);
  }

  lemma OldEventsDiffer(rows: seq<Attempt>, now: int, e: Event, q: nat)
    requires RowsOk(rows, now) && Described(rows, e)
    ensures e.queueId == q ==> e.number <= CountBefore(rows, |rows|, q)
  {
    var r :| 0 <= r < |rows| && Describes(rows[r], e);
    assert RowOk(rows, r, now);
    CountMonotone(rows, r, |rows|, rows[r].queueId);
  }

  lemma BeginPublishInv(s: State, w: nat, q: nat, final: bool)
    requires Inv(s) && w !in s.workers
    ensures Inv(AfterClaim(s, w, final, ClaimPublish(s.db, s.now, q)))
  {
    hide Inv, Healed, SnapshotHash, Snapshot;
    if q in s.db.items {
      var guard := ActiveGuard(s.db.attempts, |s.db.attempts|, q, SnapshotHash(s.db.catalog, s.db.items[q]), s.now);
      if guard.None? {
        ClaimInv(s, w, q, final);
      } else if s.db.attempts[guard.value].status == Succeeded && s.db.items[q].status != Published {
        HealInv(s, q, guard.value);
      } else {
        assert AfterClaim(s, w, final, ClaimPublish(s.db, s.now, q)) == s;
      }
    } else {
      assert AfterClaim(s, w, final, ClaimPublish(s.db, s.now, q)) == s;
    }
  }

  /** Settling the row of worker `w` keeps every other worker and every event in order. */
  lemma SettleKeepsOthers(s: State, s': State, w: nat, row: Attempt)
    requires WorkersOk(s) && EventsOk(s) && w in s.workers && w in s'.workers
    requires s'.log == s.log && s'.workers == s.workers[w := s'.workers[w]]
    requires s'.workers[w].claim == s.workers[w].claim && s'.workers[w].phase.Settled? && s.workers[w].phase == Sending
    requires s'.db.items.Keys == s.db.items.Keys
    requires s.workers[w].claim.row < |s.db.attempts|
    requires s'.db.attempts == s.db.attempts[s.workers[w].claim.row := row]
    requires Grows(s.db.attempts, s'.db.attempts)
    requires WorkerOk(s'.workers[w], s'.db)
    ensures WorkersOk(s') && EventsOk(s')
  {
    hide Canonical;
    forall v | v in s'.workers ensures WorkerOk(s'.workers[v], s'.db) {
      if v != w {
        WorkerKept(s.workers[v], s.db, s'.db, s.workers[w].claim.row);
      }
    }
    forall i | 0 <= i < |s.log| ensures Described(s'.db.attempts, s.log[i]) {
      DescribedStays(s.db.attempts, s'.db.attempts, s.log[i]);
    }
    forall i, v | 0 <= i < |s'.log| && v in s'.workers ensures LoggedBefore(s'.log[i], s'.workers[v]) {
      assert LoggedBefore(s.log[i], s.workers[v]);
    }
  }

  lemma FinishDeliveredInv(s: State, w: nat, outcome: Outcome)
    requires Inv(s) && w in s.workers && s.workers[w].phase == Sending && WorkerOk(s.workers[w], s.db)
    requires SendResult(s.workers[w].claim, outcome).Delivered?
    ensures Inv(AfterFinish(s, w, outcome))
  {
    hide RowsOk, WorkersOk, EventsOk, PreflightError, Canonical;
    var claim, receipt := s.workers[w].claim, SendResult(s.workers[w].claim, outcome).receipt;
    var s' := AfterFinish(s, w, outcome);
    var rows, rows' := s.db.attempts, s'.db.attempts;
    RowsSettle(rows, s.now, claim.row, rows'[claim.row]);
    assert Acknowledges(rows'[claim.row], claim.queueId, receipt.messageId);
    ItemsStep(s.db, s'.db, claim.queueId);
    SettleKeepsOthers(s, s', w, rows'[claim.row]);
  }

  lemma FinishFailedInv(s: State, w: nat, outcome: Outcome)
    requires Inv(s) && w in s.workers && s.workers[w].phase == Sending && WorkerOk(s.workers[w], s.db)
    requires SendResult(s.workers[w].claim, outcome).Failed?
    ensures Inv(AfterFinish(s, w, outcome))
  {
    hide RowsOk, WorkersOk, EventsOk, PreflightError, Terminal, Canonical;
    var claim := s.workers[w].claim;
    var s' := AfterFinish(s, w, outcome);
    var rows, rows' := s.db.attempts, s'.db.attempts;
    RowsSettle(rows, s.now, claim.row, rows'[claim.row]);
    MessageStaysKnown(s.db.items[claim.queueId], claim.queueId, rows, rows');
    ItemsStep(s.db, s'.db, claim.queueId);
    SettleKeepsOthers(s, s', w, rows'[claim.row]);
  }

  lemma FinishInv(s: State, w: nat, outcome: Outcome)
    requires Inv(s) && w in s.workers && s.workers[w].phase == Sending
    ensures WorkerOk(s.workers[w], s.db)
    ensures Inv(AfterFinish(s, w, outcome))
  {
    hide RowsOk, EventsOk, ItemsOk, AfterFinish, SendResult, Canonical;
    assert WorkerOk(s.workers[w], s.db);
    if SendResult(s.workers[w].claim, outcome).Delivered? {
      FinishDeliveredInv(s, w, outcome);
    } else {
      FinishFailedInv(s, w, outcome);
    }
  }

  lemma EmitInv(s: State, s': State, w: nat, e: Event)
    requires Inv(s) && w in s.workers && About(e, s.workers[w].claim)
    requires s'.db == s.db && s'.now == s.now && s'.log == s.log + [e] && s'.workers == s.workers
    requires Describes(s.db.attempts[s.workers[w].claim.row], e)
    requires s.workers[w].phase == if e.AttemptStarted? then Announcing else s.workers[w].phase
    requires !e.AttemptStarted? ==> s.workers[w].phase.Settled?
    ensures LogOk(s'.log)
    ensures forall i :: 0 <= i < |s'.log| ==> Described(s'.db.attempts, s'.log[i])
    ensures forall i, v :: 0 <= i < |s'.log| && v in s'.workers && v != w ==> LoggedBefore(s'.log[i], s'.workers[v])
  {
    hide Canonical;
    var rows, claim := s.db.attempts, s.workers[w].claim;
    assert Described(rows, e);
    forall i | 0 <= i < |s.log| && SameAttempt(s.log[i], e) ensures s.log[i].AttemptStarted? && !e.AttemptStarted? {
      assert LoggedBefore(s.log[i], s.workers[w]);
    }
    forall v | v in s.workers && v != w ensures LoggedBefore(e, s.workers[v]) {
      assert WorkerOk(s.workers[v], s.db) && WorkerOk(s.workers[w], s.db);
      if About(e, s.workers[v].claim) {
        NumberIdentifiesRow(rows, s.now, claim.row, s.workers[v].claim.row);
      }
    }
  }

  lemma AnnounceStartInv(s: State, w: nat, delivered: bool)
    requires Inv(s) && w in s.workers && s.workers[w].phase == Announcing
    ensures Inv(Next(s, AnnounceStart(w, delivered)))
  {
    hide RowsOk, ItemsOk, Canonical;
    var s' := Next(s, AnnounceStart(w, delivered));
    var claim := s.workers[w].claim;
    var e := AttemptStarted(claim.queueId, claim.number);
    assert WorkerOk(s.workers[w], s.db);
    forall i | 0 <= i < |s.log| ensures !About(s.log[i], claim) {
      assert LoggedBefore(s.log[i], s.workers[w]);
    }
    if delivered {
      EmitInv(s, s.(log := s.log + [e]), w, e);
    }
    forall i, v | 0 <= i < |s'.log| && v in s'.workers ensures LoggedBefore(s'.log[i], s'.workers[v]) {
      if v != w && i < |s.log| {
        assert LoggedBefore(s.log[i], s.workers[v]);
      }
    }
  }

  lemma AnnounceOutcomeEvents(s: State, w: nat, delivered: bool)
    requires Inv(s) && w in s.workers && s.workers[w].phase.Settled?
    ensures EventsOk(Next(s, AnnounceOutcome(w, delivered)))
  {
    hide RowsOk, ItemsOk, Canonical;
    var s' := Next(s, AnnounceOutcome(w, delivered));
    var e := s.workers[w].phase.event;
    assert WorkerOk(s.workers[w], s.db);
    if delivered {
      EmitInv(s, s.(log := s.log + [e]), w, e);
    }
    forall i, v | 0 <= i < |s'.log| && v in s'.workers ensures LoggedBefore(s'.log[i], s'.workers[v]) {
      if v != w && i < |s.log| {
        assert LoggedBefore(s.log[i], s.workers[v]);
      }
    }
  }

  lemma AnnounceOutcomeInv(s: State, w: nat, delivered: bool)
    requires Inv(s) && w in s.workers && s.workers[w].phase.Settled?
    ensures Inv(Next(s, AnnounceOutcome(w, delivered)))
  {
    hide RowsOk, ItemsOk, EventsOk, Canonical;
    assert WorkerOk(s.workers[w], s.db);
    AnnounceOutcomeEvents(s, w, delivered);
  }

  /** A worker that stops, by finishing or by crashing, takes nothing with it. */
  lemma StopInv(s: State, w: nat)
    requires Inv(s)
    ensures Inv(s.(workers := s.workers - {w}))
  {
    hide RowsOk, ItemsOk, Canonical;
  }

  lemma MarkFailedInv(s: State, w: nat)
    requires Inv(s) && w in s.workers && s.workers[w].claim.queueId in s.db.items
    ensures Inv(s.(db := MarkItemFailed(s.db, s.workers[w].claim), workers := s.workers - {w}))
  {
    hide RowsOk, WorkersOk, EventsOk, Canonical;
    var claim := s.workers[w].claim;
    var s' := s.(db := MarkItemFailed(s.db, claim));
    if s'.db != s.db {
      var item, item' := s.db.items[claim.queueId], s'.db.items[claim.queueId];
      assert MessageKnown(item', claim.queueId, s.db.attempts);
      ItemsStep(s.db, s'.db, claim.queueId);
    }
    QuietStep(s, s');
    StopInv(s', w);
  }

  /** Every step, by anyone, keeps the invariant. */
  lemma {:induction false} NextInv(s: State, a: Action)
    requires Inv(s)
    ensures Inv(Next(s, a))
  {
    hide Inv, CreateItem, UpdateError, FlushUpdate, ClaimPublish, MarkItemFailed, AfterClaim, AfterFinish, Canonical, Emit;
    match a {
      case Tick(elapsed) =>
        assert ItemsOk(s.db) by { InvParts(s); }
        QuietStep(s, Next(s, a));
      case Create(q, p) =>
        if q !in s.db.items { CreateInv(s, q, p); }
      case ReadForEdit(u, q, p) =>
        assert ItemsOk(s.db) by { InvParts(s); }
        QuietStep(s, Next(s, a));
      case WriteEdit(u) =>
        if CanWrite(s, u) { WriteEditInv(s, u); }
      case EditCatalog(catalog) =>
        assert ItemsOk(s.db) by { InvParts(s); }
        assert ItemsOk(s.db.(catalog := catalog));
        QuietStep(s, Next(s, a));
      case BeginPublish(w, q, final) =>
        if w !in s.workers { BeginPublishInv(s, w, q, final); }
      case AnnounceStart(w, delivered) =>
        if w in s.workers && s.workers[w].phase == Announcing { AnnounceStartInv(s, w, delivered); }
      case Finish(w, outcome) =>
        if w in s.workers && s.workers[w].phase == Sending { FinishInv(s, w, outcome); }
      case AnnounceOutcome(w, delivered) =>
        if w in s.workers && s.workers[w].phase.Settled? { AnnounceOutcomeInv(s, w, delivered); }
      case MarkFailed(w) =>
        if w in s.workers && s.workers[w].claim.queueId in s.db.items { MarkFailedInv(s, w); }
      case Crash(w) =>
        StopInv(s, w);
    }
  }

  lemma InvParts(s: State)
    requires Inv(s)
    ensures RowsOk(s.db.attempts, s.now) && ItemsOk(s.db) && WorkersOk(s) && EventsOk(s)
  {
  }

  lemma {:induction false} RunInv(s: State, actions: seq<Action>)
    requires Inv(s)
    ensures Inv(Run(s, actions))
    decreases |actions|
  {
    hide Inv, Next;
    if |actions| > 0 {
      NextInv(s, actions[0]);
      RunInv(Next(s, actions[0]), actions[1..]);
    }
  }

  // ---- What holds in every reachable state ----

  ghost predicate Reachable(s: State) {
    exists start: State, actions: seq<Action> :: Initial(start) && s == Run(start, actions)
  }

  lemma ReachableInv(s: State)
    requires Reachable(s)
    ensures Inv(s)
  {
    var start: State, actions: seq<Action> :| Initial(start) && s == Run(start, actions);
    InitialInv(start);
    RunInv(start, actions);
  }

  /**
   * Two attempts of one item that share a content hash and are each started or succeeded were claimed
   * at least 24 hours apart, whatever the workers, crashes and edits did.
   */
  lemma LiveAttemptsFarApart(s: State, i: nat, j: nat)
    requires Reachable(s) && i < j < |s.db.attempts|
    requires Live(s.db.attempts[i]) && Live(s.db.attempts[j])
    requires s.db.attempts[i].queueId == s.db.attempts[j].queueId
    requires s.db.attempts[i].contentHash == s.db.attempts[j].contentHash
    ensures s.db.attempts[i].occurredAt + IDEMPOTENCY_WINDOW <= s.db.attempts[j].occurredAt
  {
    ReachableInv(s);
    assert RowOk(s.db.attempts, i, s.now) && Exclusive(s.db.attempts[i], s.db.attempts[j]);
  }

  lemma GuardsExclude(rows: seq<Attempt>, now: int, a: nat, b: nat, q: nat, hash: string, time: int)
    requires RowsOk(rows, now) && now <= time && a < b < |rows|
    ensures !(Guards(rows[a], q, hash, time) && Guards(rows[b], q, hash, time))
  {
    assert RowOk(rows, b, now) && Exclusive(rows[a], rows[b]);
  }

  /** At any time from now on, at most one row guards an item and a hash, and the lookup returns it. */
  lemma GuardIsUnique(s: State, q: nat, hash: string, time: int, i: nat)
    requires Reachable(s) && s.now <= time && i < |s.db.attempts|
    ensures Guards(s.db.attempts[i], q, hash, time) <==> ActiveGuard(s.db.attempts, |s.db.attempts|, q, hash, time) == Some(i)
  {
    hide RowsOk;
    ReachableInv(s);
    InvParts(s);
    var rows := s.db.attempts;
    var guard := ActiveGuard(rows, |rows|, q, hash, time);
    if guard.Some? {
      if i < guard.value {
        GuardsExclude(rows, s.now, i, guard.value, q, hash, time);
      } else if guard.value < i {
        GuardsExclude(rows, s.now, guard.value, i, q, hash, time);
      }
    }
  }

  /** Two workers sending the same payload for one item claimed it at least 24 hours apart. */
  lemma NoConcurrentDuplicateSend(s: State, v: nat, w: nat)
    requires Reachable(s) && v in s.workers && w in s.workers && v != w
    requires s.workers[v].phase == Sending && s.workers[w].phase == Sending
    requires s.workers[v].claim.queueId == s.workers[w].claim.queueId
    requires s.workers[v].claim.payload == s.workers[w].claim.payload
    ensures var a, b := s.workers[v].claim.row, s.workers[w].claim.row;
      && a < |s.db.attempts| && b < |s.db.attempts|
      && (s.db.attempts[a].occurredAt + IDEMPOTENCY_WINDOW <= s.db.attempts[b].occurredAt
          || s.db.attempts[b].occurredAt + IDEMPOTENCY_WINDOW <= s.db.attempts[a].occurredAt)
  {
    hide Canonical;
    ReachableInv(s);
    assert WorkerOk(s.workers[v], s.db) && WorkerOk(s.workers[w], s.db);
    var a, b := s.workers[v].claim.row, s.workers[w].claim.row;
    if a < b {
      LiveAttemptsFarApart(s, a, b);
    } else {
      LiveAttemptsFarApart(s, b, a);
    }
  }

  /** A stored message id was acknowledged by a succeeded attempt, and every row meets its constraint. */
  lemma MessageIdsAreReal(s: State)
    requires Reachable(s)
    ensures forall q :: q in s.db.items ==> MessageKnown(s.db.items[q], q, s.db.attempts)
    ensures forall i :: 0 <= i < |s.db.attempts| ==> OutcomeConsistent(s.db.attempts[i])
  {
    ReachableInv(s);
    forall i | 0 <= i < |s.db.attempts| ensures OutcomeConsistent(s.db.attempts[i]) {
      assert RowOk(s.db.attempts, i, s.now);
    }
  }

  // ---- Attempt numbers ----

  /** The attempts of an item among the first `n` rows, in claim order. */
  function AttemptsOf(rows: seq<Attempt>, n: nat, q: nat): (r: seq<Attempt>)
    requires n <= |rows|
    ensures |r| == CountBefore(rows, n, q)
  {
    if n == 0 then []
    else AttemptsOf(rows, n - 1, q) + if rows[n - 1].queueId == q then [rows[n - 1]] else []
  }

  lemma {:induction false} NumbersCountUp(rows: seq<Attempt>, now: int, n: nat, q: nat)
    requires RowsOk(rows, now) && n <= |rows|
    ensures forall k :: 0 <= k < |AttemptsOf(rows, n, q)| ==> AttemptsOf(rows, n, q)[k].number == k + 1
  {
    if n > 0 {
      NumbersCountUp(rows, now, n - 1, q);
      assert RowOk(rows, n - 1, now);
    }
  }

  /** The `retry_count` of `_to_queue_read`. */
  function RetryCount(rows: seq<Attempt>, q: nat): nat {
    var latest := LatestAttempt(rows, |rows|, q);
    if latest.None? then 0 else rows[latest.value].number
  }

  /** An item's attempts are numbered 1, 2, 3, ... in claim order and `retry_count` is how many there are. */
  lemma AttemptNumbering(s: State, q: nat)
    requires Reachable(s)
    ensures var mine := AttemptsOf(s.db.attempts, |s.db.attempts|, q);
      && (forall k :: 0 <= k < |mine| ==> mine[k].number == k + 1)
      && RetryCount(s.db.attempts, q) == |mine|
  {
    hide RowsOk;
    ReachableInv(s);
    InvParts(s);
    NumbersCountUp(s.db.attempts, s.now, |s.db.attempts|, q);
    LatestIsCount(s.db.attempts, s.now, |s.db.attempts|, q);
  }

  ghost predicate OnlyRowOf(rows: seq<Attempt>, r: nat, e: Event) {
    forall k :: 0 <= k < |rows| && rows[k].queueId == e.queueId && rows[k].number == e.number ==> k == r
  }

  /**
   * In the emitted log each attempt has at most one started event, then at most one outcome event. Each
   * event describes a committed row, the only one with its item and number, and `is_terminal` holds
   * exactly when that row is a dead letter.
   */
  lemma EventLogIsFaithful(s: State, j: nat)
    requires Reachable(s) && j < |s.log|
    ensures exists r :: 0 <= r < |s.db.attempts| && Describes(s.db.attempts[r], s.log[j]) && OnlyRowOf(s.db.attempts, r, s.log[j])
    ensures forall i :: 0 <= i < j && SameAttempt(s.log[i], s.log[j]) ==> s.log[i].AttemptStarted? && !s.log[j].AttemptStarted?
  {
    ReachableInv(s);
    var rows := s.db.attempts;
    assert Described(rows, s.log[j]);
    var r :| 0 <= r < |rows| && Describes(rows[r], s.log[j]);
    forall k | 0 <= k < |rows| && rows[k].queueId == s.log[j].queueId && rows[k].number == s.log[j].number ensures k == r {
      NumberIdentifiesRow(rows, s.now, k, r);
    }
  }

  // ---- Rows along a run ----

  lemma GrowsTransitive(a: seq<Attempt>, b: seq<Attempt>, c: seq<Attempt>)
    requires Grows(a, b) && Grows(b, c)
    ensures Grows(a, c)
  {
    forall i | 0 <= i < |a| ensures SameClaim(a[i], c[i]) && (a[i].status != Started ==> c[i] == a[i]) {
      assert SameClaim(b[i], c[i]);
    }
  }

  lemma NextGrows(s: State, a: Action)
    requires Inv(s)
    ensures Grows(s.db.attempts, Next(s, a).db.attempts)
  {
    hide RowsOk, ItemsOk, EventsOk, SnapshotHash, Snapshot, CreatedItem, UpdatedItem, UpdateError, Flushed, PreflightError, Terminal, Canonical;
    if a.Finish? && a.w in s.workers {
      assert WorkerOk(s.workers[a.w], s.db);
    }
  }

  /** Attempt rows are never removed or renumbered, and a settled outcome is final in every continuation. */
  lemma {:induction false} RunGrows(s: State, actions: seq<Action>)
    requires Inv(s)
    ensures Grows(s.db.attempts, Run(s, actions).db.attempts)
    decreases |actions|
  {
    hide Inv, Next, Grows;
    if |actions| == 0 {
      assert Grows(s.db.attempts, s.db.attempts) by { GrowsSelf(s.db.attempts); }
    } else {
      var s' := Next(s, actions[0]);
      NextInv(s, actions[0]);
      NextGrows(s, actions[0]);
      RunGrows(s', actions[1..]);
      GrowsTransitive(s.db.attempts, s'.db.attempts, Run(s, actions).db.attempts);
    }
  }

  lemma GrowsSelf(rows: seq<Attempt>)
    ensures Grows(rows, rows)
  {
  }
}
