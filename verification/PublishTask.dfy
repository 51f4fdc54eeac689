/**
 * `publish_queue_item` run alone, and the Celery task that re-runs it, app/worker/tasks/publishing.py.
 */
module PublishTask {
  import opened Common
  import opened ServiceErrors
  import opened TelegramPublishing
  import opened ContentHash
  import opened QueueModel
  import opened PublishProtocol

  /** `max_retries=3`: the initial execution and three more. */
  const MAX_EXECUTIONS := 4

  datatype PublishResult = Returned(receipt: Receipt) | Raised(error: ServiceError)

  datatype Execution = Execution(db: Db, result: PublishResult)

  /** The claim row and item exist right after the claim. */
  lemma {:induction false} ClaimOwnsRow(db: Db, now: int, q: nat)
    ensures var step := ClaimPublish(db, now, q);
      step.result.Claimed? ==>
        var claim := step.result.claim;
        && claim.queueId == q && q in step.db.items && step.db.items == db.items && step.db.catalog == db.catalog
        && claim.row == |db.attempts| && step.db.attempts[..claim.row] == db.attempts
        && |step.db.attempts| == |db.attempts| + 1
        && step.db.attempts[claim.row] == StartedRow(q, claim.number, SnapshotHash(db.catalog, db.items[q]), now)
        && claim.item == db.items[q] && claim.channel == ItemChannel(db.catalog, db.items[q])
        && claim.payload == Snapshot(db.catalog, db.items[q])
  {
    hide ActiveGuard, NextNumber, Canonical, Snapshot;
  }

  /** What follows the claim once the try block has ended with `result`. */
  function Conclude(db: Db, claim: Claim, result: Outcome, finishTime: int, final: bool): Execution
    requires claim.row < |db.attempts| && claim.queueId in db.items
  {
    match result
    case Delivered(receipt) => Execution(SettleSucceeded(db, claim, receipt, finishTime), Returned(receipt))
    case Failed(e) =>
      var terminal := Terminal(e, final);
      var settled := SettleFailed(db, claim, e, terminal);
      Execution(if terminal then MarkItemFailed(settled, claim) else settled, Raised(e))
  }

  /** One execution of `publish_queue_item` with no other writer in between. */
  function Execute(db: Db, claimTime: int, finishTime: int, q: nat, final: bool, outcome: Outcome): Execution {
    var step := ClaimPublish(db, claimTime, q);
    match step.result
    case Rejected(e) => Execution(step.db, Raised(e))
    case Claimed(claim) =>
      ClaimOwnsRow(db, claimTime, q);
      Conclude(step.db, claim, SendResult(claim, outcome), finishTime, final)
  }

  /** The steps a lone worker takes. Steps that do not apply are not enabled and change nothing. */
  function LoneRun(w: nat, q: nat, final: bool, elapsed: nat, outcome: Outcome, delivered: bool): seq<Action> {
    [BeginPublish(w, q, final), AnnounceStart(w, delivered), Tick(elapsed), Finish(w, outcome),
     AnnounceOutcome(w, delivered), MarkFailed(w)]
  }

  lemma RunSix(s: State, a: seq<Action>)
    requires |a| == 6
    ensures Run(s, a) == Next(Next(Next(Next(Next(Next(s, a[0]), a[1]), a[2]), a[3]), a[4]), a[5])
  {
    hide Next;
    var s1 := Next(s, a[0]);
    var s2 := Next(s1, a[1]);
    var s3 := Next(s2, a[2]);
    var s4 := Next(s3, a[3]);
    var s5 := Next(s4, a[4]);
    assert Run(s, a) == Run(s1, a[1..]);
    assert a[1..][1..] == a[2..] && Run(s1, a[1..]) == Run(s2, a[2..]);
    assert a[2..][1..] == a[3..] && Run(s2, a[2..]) == Run(s3, a[3..]);
    assert a[3..][1..] == a[4..] && Run(s3, a[3..]) == Run(s4, a[4..]);
    assert a[4..][1..] == a[5..] && Run(s4, a[4..]) == Run(s5, a[5..]);
    assert a[5..][1..] == a[6..] && Run(s5, a[5..]) == Run(Next(s5, a[5]), a[6..]);
  }

  /** Everything the lone worker does after the claim. */
  function AfterBegin(s: State, w: nat, elapsed: nat, outcome: Outcome, delivered: bool): State {
    var sent := Next(Next(s, AnnounceStart(w, delivered)), Tick(elapsed));
    Next(Next(Next(sent, Finish(w, outcome)), AnnounceOutcome(w, delivered)), MarkFailed(w))
  }

  lemma RunLone(s: State, w: nat, q: nat, final: bool, elapsed: nat, outcome: Outcome, delivered: bool)
    ensures Run(s, LoneRun(w, q, final, elapsed, outcome, delivered))
         == AfterBegin(Next(s, BeginPublish(w, q, final)), w, elapsed, outcome, delivered)
  {
    hide Next, Run;
    RunSix(s, LoneRun(w, q, final, elapsed, outcome, delivered));
  }

  /** After the outcome commit: announce, then move the item to failed if the failure was terminal. */
  lemma SettledWorkerRuns(s: State, w: nat, outcome: Outcome, delivered: bool)
    requires CanFinish(s, w)
    ensures var worker := s.workers[w];
      var s' := Next(Next(AfterFinish(s, w, outcome), AnnounceOutcome(w, delivered)), MarkFailed(w));
      && s'.workers == s.workers - {w} && s'.edits == s.edits && s'.now == s.now
      && s'.db == Conclude(s.db, worker.claim, SendResult(worker.claim, outcome), s.now, worker.final).db
  {
    hide SendResult, Terminal, Flushed, ErrorCodeFor;
    var s3 := AfterFinish(s, w, outcome);
    var s4 := Next(s3, AnnounceOutcome(w, delivered));
    assert s3.workers - {w} == s.workers - {w} && s4.workers - {w} == s.workers - {w};
  }

  /** From the claim commit on, the lone worker's steps end in the database `Execute` computes. */
  lemma ClaimedWorkerRuns(s: State, w: nat, claim: Claim, final: bool, elapsed: nat, outcome: Outcome, delivered: bool)
    requires w in s.workers && s.workers[w] == Worker(claim, final, Announcing)
    requires claim.row < |s.db.attempts| && claim.queueId in s.db.items
    ensures var s' := AfterBegin(s, w, elapsed, outcome, delivered);
      && s'.workers == s.workers - {w} && s'.edits == s.edits && s'.now == s.now + elapsed
      && s'.db == Conclude(s.db, claim, SendResult(claim, outcome), s.now + elapsed, final).db
  {
    hide SendResult, Conclude, AfterFinish;
    var s2 := Next(Next(s, AnnounceStart(w, delivered)), Tick(elapsed));
    assert s2.workers == s.workers[w := Worker(claim, final, Sending)] && s2.db == s.db;
    assert Next(s2, Finish(w, outcome)) == AfterFinish(s2, w, outcome);
    SettledWorkerRuns(s2, w, outcome, delivered);
    assert s2.workers - {w} == s.workers - {w};
  }

  /** A rejected claim leaves no worker, so the later steps do nothing. */
  lemma AbsentWorkerRuns(s: State, w: nat, elapsed: nat, outcome: Outcome, delivered: bool)
    requires w !in s.workers
    ensures AfterBegin(s, w, elapsed, outcome, delivered) == s.(now := s.now + elapsed)
  {
  }

  lemma ExecuteUnfolds(db: Db, claimTime: int, finishTime: int, q: nat, final: bool, outcome: Outcome)
    ensures var step, e := ClaimPublish(db, claimTime, q), Execute(db, claimTime, finishTime, q, final, outcome);
      match step.result
      case Claimed(claim) =>
        && claim.row < |step.db.attempts| && claim.queueId in step.db.items
        && e == Conclude(step.db, claim, SendResult(claim, outcome), finishTime, final)
      case Rejected(_) => e.db == step.db
  {
    hide ClaimPublish, SendResult, Conclude;
    ClaimOwnsRow(db, claimTime, q);
  }

  lemma LoneRunStores(s: State, w: nat, q: nat, final: bool, elapsed: nat, outcome: Outcome, delivered: bool)
    requires w !in s.workers
    ensures Run(s, LoneRun(w, q, final, elapsed, outcome, delivered)).db
         == Execute(s.db, s.now, s.now + elapsed, q, final, outcome).db
  {
    hide Execute, ClaimPublish, SendResult, Conclude, Next, AfterBegin, Run, LoneRun, ItemChannel, Snapshot, SnapshotHash, Canonical;
    RunLone(s, w, q, final, elapsed, outcome, delivered);
    ExecuteUnfolds(s.db, s.now, s.now + elapsed, q, final, outcome);
    var step := ClaimPublish(s.db, s.now, q);
    var s1 := Next(s, BeginPublish(w, q, final));
    BeginIsClaim(s, w, q, final);
    if step.result.Claimed? {
      ClaimedWorkerRuns(s1, w, step.result.claim, final, elapsed, outcome, delivered);
    } else {
      AbsentWorkerRuns(s1, w, elapsed, outcome, delivered);
    }
  }

  lemma LoneRunLeaves(s: State, w: nat, q: nat, final: bool, elapsed: nat, outcome: Outcome, delivered: bool)
    requires w !in s.workers
    ensures var s' := Run(s, LoneRun(w, q, final, elapsed, outcome, delivered));
      s'.workers == s.workers && s'.edits == s.edits && s'.now == s.now + elapsed
  {
    hide Execute, ClaimPublish, SendResult, Conclude, Next, AfterBegin, Run, LoneRun, ItemChannel, Snapshot, SnapshotHash, Canonical;
    RunLone(s, w, q, final, elapsed, outcome, delivered);
    ExecuteUnfolds(s.db, s.now, s.now + elapsed, q, final, outcome);
    var step := ClaimPublish(s.db, s.now, q);
    var s1 := Next(s, BeginPublish(w, q, final));
    BeginIsClaim(s, w, q, final);
    if step.result.Claimed? {
      ClaimedWorkerRuns(s1, w, step.result.claim, final, elapsed, outcome, delivered);
    } else {
      AbsentWorkerRuns(s1, w, elapsed, outcome, delivered);
    }
  }

  /** Running alone is a run of the transition system, so every reachable-state result applies to it. */
  lemma ExecuteIsRun(s: State, w: nat, q: nat, final: bool, elapsed: nat, outcome: Outcome, delivered: bool)
    requires w !in s.workers
    ensures var s' := Run(s, LoneRun(w, q, final, elapsed, outcome, delivered));
      && s'.db == Execute(s.db, s.now, s.now + elapsed, q, final, outcome).db
      && s'.workers == s.workers && s'.edits == s.edits && s'.now == s.now + elapsed
  {
    hide Execute, Run, LoneRun;
    LoneRunStores(s, w, q, final, elapsed, outcome, delivered);
    LoneRunLeaves(s, w, q, final, elapsed, outcome, delivered);
  }

  lemma BeginIsClaim(s: State, w: nat, q: nat, final: bool)
    requires w !in s.workers
    ensures var s1, step := Next(s, BeginPublish(w, q, final)), ClaimPublish(s.db, s.now, q);
      && s1.db == step.db && s1.now == s.now && s1.edits == s.edits && s1.workers - {w} == s.workers
      && match step.result
         case Claimed(claim) => w in s1.workers && s1.workers[w] == Worker(claim, final, Announcing)
         case Rejected(_) => s1.workers == s.workers
  {
    hide ClaimPublish;
  }

  // ---- The Celery task ----

  /** One execution of the task: when it claims, when it finishes, and what Telegram answers. */
  datatype Try = Try(claimTime: int, finishTime: int, outcome: Outcome)

  datatype TaskRun = TaskRun(db: Db, executions: nat, result: PublishResult)

  /** `_is_final_celery_attempt`. */
  predicate IsFinal(retries: nat) {
    retries >= MAX_EXECUTIONS - 1
  }

  /** Celery retries a `TelegramPublishError`, and nothing else, while retries are left. */
  predicate Retried(result: PublishResult, retries: nat) {
    result.Raised? && result.error.TelegramPublishError? && !IsFinal(retries)
  }

  /** The task from execution number `retries` on. */
  function TaskFrom(db: Db, q: nat, tries: seq<Try>, retries: nat): TaskRun
    requires |tries| == MAX_EXECUTIONS && retries < MAX_EXECUTIONS
    decreases MAX_EXECUTIONS - retries
  {
    var t := tries[retries];
    var e := Execute(db, t.claimTime, t.finishTime, q, IsFinal(retries), t.outcome);
    if Retried(e.result, retries) then TaskFrom(e.db, q, tries, retries + 1)
    else TaskRun(e.db, retries + 1, e.result)
  }

  /** Each execution claims before it finishes and after the previous one finished. */
  predicate InOrder(tries: seq<Try>) {
    && (forall i :: 0 <= i < |tries| ==> tries[i].claimTime <= tries[i].finishTime)
    && (forall i :: 0 <= i < |tries| - 1 ==> tries[i].finishTime <= tries[i + 1].claimTime)
  }

  predicate NoGuard(db: Db, q: nat, now: int)
    requires q in db.items
  {
    forall i :: 0 <= i < |db.attempts| ==> !Guards(db.attempts[i], q, SnapshotHash(db.catalog, db.items[q]), now)
  }

  predicate TelegramFailure(o: Outcome) {
    o.Failed? && o.error.TelegramPublishError?
  }

  /** Everything a publish may change about the item. */
  predicate SameContent(a: Item, b: Item) {
    a == b.(status := a.status, publishedAt := a.publishedAt, telegramMessageId := a.telegramMessageId)
  }

  lemma ContentFixesSnapshot(c: Catalog, a: Item, b: Item)
    requires SameContent(a, b)
    ensures Snapshot(c, a) == Snapshot(c, b) && SnapshotHash(c, a) == SnapshotHash(c, b)
    ensures ItemChannel(c, a) == ItemChannel(c, b)
  {
    hide Canonical;
  }

  /** The last row and the item agree on how the publish ended. */
  predicate Concluded(db: Db, q: nat, result: PublishResult) {
    q in db.items && |db.attempts| > 0 &&
    var item, last := db.items[q], db.attempts[|db.attempts| - 1];
    match result
    case Returned(receipt) =>
      && item.status == Published && item.telegramMessageId == Some(receipt.messageId)
      && last.status == Succeeded && last.providerMessageId == Some(receipt.messageId)
    case Raised(e) =>
      && item.status == FailedItem
      && last.status == FailedAttempt && last.errorCode == Some(DeadLetter)
  }

  /** What one execution does when no guard blocks it. */
  lemma {:induction false} ExecuteStep(db: Db, t: Try, q: nat, final: bool)
    requires q in db.items && NoGuard(db, q, t.claimTime)
    ensures var e := Execute(db, t.claimTime, t.finishTime, q, final, t.outcome);
      var n, item := |db.attempts|, db.items[q];
      var preflight := PreflightError(item, ItemChannel(db.catalog, item));
      && e.db.catalog == db.catalog && e.db.items.Keys == db.items.Keys
      && (forall k :: k in db.items && k != q ==> e.db.items[k] == db.items[k])
      && SameContent(e.db.items[q], item)
      && |e.db.attempts| == n + 1 && e.db.attempts[..n] == db.attempts
      && e.db.attempts[n].queueId == q && e.db.attempts[n].status != Started
      && e.result == (match (if preflight.Some? then Failed(preflight.value) else t.outcome)
                      case Delivered(r) => Returned(r) case Failed(x) => Raised(x))
      && (e.result.Raised? ==> e.db.attempts[n].status == FailedAttempt)
      && (e.result.Returned? ==> Concluded(e.db, q, e.result))
      && (e.result.Raised? && Terminal(e.result.error, final) ==> Concluded(e.db, q, e.result))
      && (e.result.Raised? && !Terminal(e.result.error, final) ==> e.db.items[q] == item)
  {
    hide PreflightError, Terminal, Canonical, Snapshot, ClaimPublish, Guards;
    var guard := ActiveGuard(db.attempts, |db.attempts|, q, SnapshotHash(db.catalog, db.items[q]), t.claimTime);
    ClaimOwnsRow(db, t.claimTime, q);
    NoGuardClaims(db, q, t.claimTime);
  }

  lemma NoGuardClaims(db: Db, q: nat, now: int)
    requires q in db.items && NoGuard(db, q, now)
    ensures ClaimPublish(db, now, q).result.Claimed?
  {
    hide Canonical, Snapshot, NextNumber;
  }

  /**
   * `k` settled attempts of `q` have been added, all but the last of them failed, and nothing else has
   * changed except how the publish left the item.
   */
  predicate Added(db: Db, db': Db, q: nat, k: nat)
    requires q in db.items
  {
    && db'.catalog == db.catalog && db'.items.Keys == db.items.Keys
    && (forall i :: i in db.items && i != q ==> db'.items[i] == db.items[i])
    && SameContent(db'.items[q], db.items[q])
    && |db'.attempts| == |db.attempts| + k && db'.attempts[..|db.attempts|] == db.attempts
    && (forall i :: |db.attempts| <= i < |db'.attempts| ==>
          db'.attempts[i].queueId == q && db'.attempts[i].status != Started)
    && (forall i :: |db.attempts| <= i < |db'.attempts| - 1 ==> db'.attempts[i].status == FailedAttempt)
  }

  lemma AddedMore(a: Db, b: Db, c: Db, q: nat, k: nat)
    requires q in a.items && Added(a, b, q, 1) && b.attempts[|a.attempts|].status == FailedAttempt && Added(b, c, q, k)
    ensures Added(a, c, q, k + 1) && c.attempts[|a.attempts|] == b.attempts[|a.attempts|]
  {
    assert forall i :: 0 <= i < |b.attempts| ==> c.attempts[i] == c.attempts[..|b.attempts|][i];
    assert c.attempts[..|a.attempts|] == b.attempts[..|a.attempts|];
  }

  /** A retried execution passed the checks and failed at Telegram; the next one is unguarded and passes them too. */
  lemma RetryGoesOn(db: Db, t: Try, q: nat, retries: nat, later: int)
    requires q in db.items && NoGuard(db, q, t.claimTime) && t.claimTime <= later
    requires Retried(Execute(db, t.claimTime, t.finishTime, q, IsFinal(retries), t.outcome).result, retries)
    ensures var db' := Execute(db, t.claimTime, t.finishTime, q, IsFinal(retries), t.outcome).db;
      && q in db'.items && Added(db, db', q, 1) && db'.attempts[|db.attempts|].status == FailedAttempt
      && NoGuard(db', q, later) && TelegramFailure(t.outcome)
      && PreflightError(db.items[q], ItemChannel(db.catalog, db.items[q])).None?
      && PreflightError(db'.items[q], ItemChannel(db'.catalog, db'.items[q])).None?
  {
    hide Execute, Snapshot, Canonical, SnapshotHash;
    ExecuteStep(db, t, q, IsFinal(retries));
    var db' := Execute(db, t.claimTime, t.finishTime, q, IsFinal(retries), t.outcome).db;
    ContentFixesSnapshot(db.catalog, db'.items[q], db.items[q]);
    forall i | 0 <= i < |db'.attempts| ensures !Guards(db'.attempts[i], q, SnapshotHash(db'.catalog, db'.items[q]), later) {
      if i < |db.attempts| {
        assert db'.attempts[i] == db'.attempts[..|db.attempts|][i];
      }
    }
  }

  /** Executions before the last one failed at Telegram; the last one did not, unless it was the fourth. */
  predicate StopsAt(item: Item, c: Catalog, tries: seq<Try>, from: nat, n: nat)
    requires |tries| == MAX_EXECUTIONS && from < n <= MAX_EXECUTIONS
  {
    if PreflightError(item, ItemChannel(c, item)).Some? then n == from + 1
    else
      && (forall i :: from <= i < n - 1 ==> TelegramFailure(tries[i].outcome))
      && (n < MAX_EXECUTIONS ==> !TelegramFailure(tries[n - 1].outcome))
  }

  lemma {:induction false} TaskFromConcludes(db: Db, q: nat, tries: seq<Try>, retries: nat)
    requires |tries| == MAX_EXECUTIONS && retries < MAX_EXECUTIONS && InOrder(tries)
    requires q in db.items && NoGuard(db, q, tries[retries].claimTime)
    ensures var r := TaskFrom(db, q, tries, retries);
      && retries < r.executions <= MAX_EXECUTIONS
      && Added(db, r.db, q, r.executions - retries)
      && Concluded(r.db, q, r.result)
      && StopsAt(db.items[q], db.catalog, tries, retries, r.executions)
    decreases MAX_EXECUTIONS - retries
  {
    hide Execute, PreflightError, NoGuard, ItemChannel, Added, Concluded;
    var t := tries[retries];
    var e := Execute(db, t.claimTime, t.finishTime, q, IsFinal(retries), t.outcome);
    if Retried(e.result, retries) {
      RetryGoesOn(db, t, q, retries, tries[retries + 1].claimTime);
      TaskFromConcludes(e.db, q, tries, retries + 1);
      AddedMore(db, e.db, TaskFrom(db, q, tries, retries).db, q, TaskFrom(db, q, tries, retries).executions - retries - 1);
    } else {
      LastExecution(db, t, q, retries);
    }
  }

  /** An execution that Celery does not retry concludes the item. */
  lemma LastExecution(db: Db, t: Try, q: nat, retries: nat)
    requires q in db.items && NoGuard(db, q, t.claimTime)
    requires !Retried(Execute(db, t.claimTime, t.finishTime, q, IsFinal(retries), t.outcome).result, retries)
    ensures var e := Execute(db, t.claimTime, t.finishTime, q, IsFinal(retries), t.outcome);
      && Added(db, e.db, q, 1) && Concluded(e.db, q, e.result)
      && (PreflightError(db.items[q], ItemChannel(db.catalog, db.items[q])).None? && !IsFinal(retries) ==> !TelegramFailure(t.outcome))
  {
    hide Execute, PreflightError, NoGuard, ItemChannel, Concluded, SameContent;
    ExecuteStep(db, t, q, IsFinal(retries));
  }

  /**
   * With no other writer and no active guard at the start, the task ends with the item PUBLISHED and
   * its last attempt succeeded, or with the item FAILED and its last attempt a dead letter. It adds one
   * attempt per execution, at most four, and leaves none started. It stops at the first execution that
   * does not end in a Telegram error, even one already recorded as a dead letter.
   */
  lemma {:induction false} TaskConcludes(db: Db, q: nat, tries: seq<Try>)
    requires |tries| == MAX_EXECUTIONS && InOrder(tries)
    requires q in db.items && NoGuard(db, q, tries[0].claimTime)
    ensures var r := TaskFrom(db, q, tries, 0);
      && 1 <= r.executions <= MAX_EXECUTIONS
      && Added(db, r.db, q, r.executions)
      && Concluded(r.db, q, r.result)
      && StopsAt(db.items[q], db.catalog, tries, 0, r.executions)
  {
    hide TaskFrom, NoGuard, StopsAt, Concluded, Added;
    TaskFromConcludes(db, q, tries, 0);
  }

  predicate AllDeadLetters(rows: seq<Attempt>, from: nat) {
    forall i :: from <= i < |rows| ==> rows[i].status == FailedAttempt && rows[i].errorCode == Some(DeadLetter)
  }

  /** A permanent client error is recorded as a dead letter, yet the task runs again until its retries are used up. */
  lemma {:induction false} PermanentErrorIsRetried(db: Db, q: nat, tries: seq<Try>, retries: nat)
    requires |tries| == MAX_EXECUTIONS && retries < MAX_EXECUTIONS && InOrder(tries)
    requires q in db.items && NoGuard(db, q, tries[retries].claimTime)
    requires PreflightError(db.items[q], ItemChannel(db.catalog, db.items[q])).None?
    requires forall i :: retries <= i < MAX_EXECUTIONS ==> tries[i].outcome.Failed? && NonRetryable(tries[i].outcome.error)
    ensures var r := TaskFrom(db, q, tries, retries);
      && r.executions == MAX_EXECUTIONS && Added(db, r.db, q, MAX_EXECUTIONS - retries)
      && AllDeadLetters(r.db.attempts, |db.attempts|)
    decreases MAX_EXECUTIONS - retries
  {
    hide Execute, PreflightError, NoGuard, ItemChannel, Added;
    var t := tries[retries];
    var e := Execute(db, t.claimTime, t.finishTime, q, IsFinal(retries), t.outcome);
    PermanentExecution(db, t, q, retries);
    if retries + 1 < MAX_EXECUTIONS {
      RetryGoesOn(db, t, q, retries, tries[retries + 1].claimTime);
      PermanentErrorIsRetried(e.db, q, tries, retries + 1);
      var r := TaskFrom(e.db, q, tries, retries + 1);
      AddedMore(db, e.db, r.db, q, MAX_EXECUTIONS - retries - 1);
      AddedSizes(db, e.db, q, 1);
      AddedSizes(db, r.db, q, MAX_EXECUTIONS - retries);
    } else {
      AddedSizes(db, e.db, q, 1);
    }
  }

  lemma AddedSizes(db: Db, db': Db, q: nat, k: nat)
    requires q in db.items && Added(db, db', q, k)
    ensures q in db'.items && |db'.attempts| == |db.attempts| + k
  {
  }

  lemma PermanentExecution(db: Db, t: Try, q: nat, retries: nat)
    requires q in db.items && NoGuard(db, q, t.claimTime)
    requires PreflightError(db.items[q], ItemChannel(db.catalog, db.items[q])).None?
    requires t.outcome.Failed? && NonRetryable(t.outcome.error)
    ensures var e := Execute(db, t.claimTime, t.finishTime, q, IsFinal(retries), t.outcome);
      && e.result == Raised(t.outcome.error) && Added(db, e.db, q, 1)
      && AllDeadLetters(e.db.attempts, |db.attempts|)
  {
    hide Execute, PreflightError, NoGuard, ItemChannel, SameContent;
    ExecuteStep(db, t, q, IsFinal(retries));
  }
}
