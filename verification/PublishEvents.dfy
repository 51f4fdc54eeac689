/** What a lone publish tells subscribers, and what a crash in the middle of one leaves behind. */
module PublishEvents {
  import opened Common
  import opened ServiceErrors
  import opened TelegramPublishing
  import opened ContentHash
  import opened QueueModel
  import opened PublishProtocol
  import opened PublishTask

  /** The event a settled row calls for. */
  function OutcomeEvent(row: Attempt): Event
    requires OutcomeConsistent(row) && row.status != Started
  {
    if row.status == Succeeded then AttemptSucceeded(row.queueId, row.number, row.providerMessageId.value)
    else AttemptFailed(row.queueId, row.number, row.errorCode.value, row.errorCode == Some(DeadLetter))
  }

  /** Row `r` is settled, and `event` tells of it. */
  predicate Settles(db: Db, r: nat, event: Event) {
    && r < |db.attempts|
    && OutcomeConsistent(db.attempts[r]) && db.attempts[r].status != Started && event == OutcomeEvent(db.attempts[r])
  }

  /**
   * A publish with no other writer, whose events are delivered, adds two events to the log: the start of its
   * new attempt, and the outcome that the attempt's row records.
   */
  lemma {:induction false} LoneRunLogs(s: State, w: nat, q: nat, final: bool, elapsed: nat, outcome: Outcome)
    requires w !in s.workers && q in s.db.items && NoGuard(s.db, q, s.now)
    ensures var s' := Run(s, LoneRun(w, q, final, elapsed, outcome, true));
      && |s'.db.attempts| == |s.db.attempts| + 1 && |s'.log| == |s.log| + 2
      && var row := s'.db.attempts[|s.db.attempts|];
         && s'.log[..|s.log| + 1] == s.log + [AttemptStarted(q, row.number)]
         && row.queueId == q && row.status != Started
         && Settles(s'.db, |s.db.attempts|, s'.log[|s.log| + 1])
  {
    hide Run, LoneRun, Next, AfterBegin, ClaimPublish, SendResult, SnapshotHash, Snapshot;
    RunLone(s, w, q, final, elapsed, outcome, true);
    BeginIsClaim(s, w, q, final);
    NoGuardClaims(s.db, q, s.now);
    ClaimOwnsRow(s.db, s.now, q);
    BeginLogsNothing(s, w, q, final);
    ClaimedWorkerLogs(Next(s, BeginPublish(w, q, final)), w, elapsed, outcome);
  }

  lemma BeginLogsNothing(s: State, w: nat, q: nat, final: bool)
    ensures Next(s, BeginPublish(w, q, final)).log == s.log
  {
    hide ClaimPublish;
  }

  lemma ClaimedWorkerLogs(s: State, w: nat, elapsed: nat, outcome: Outcome)
    requires w in s.workers && s.workers[w].phase == Announcing
    requires var claim := s.workers[w].claim;
      && claim.row < |s.db.attempts| && claim.queueId in s.db.items
      && s.db.attempts[claim.row].queueId == claim.queueId && s.db.attempts[claim.row].number == claim.number
    ensures var s', claim := AfterBegin(s, w, elapsed, outcome, true), s.workers[w].claim;
      && |s'.db.attempts| == |s.db.attempts|
      && |s'.log| == |s.log| + 2 && s'.log[..|s.log| + 1] == s.log + [AttemptStarted(claim.queueId, claim.number)]
      && claim.row < |s'.db.attempts| && s'.db.attempts[claim.row].queueId == claim.queueId
      && s'.db.attempts[claim.row].number == claim.number
      && Settles(s'.db, claim.row, s'.log[|s.log| + 1])
  {
    hide SendResult, Settles, AfterFinish;
    var claim, worker := s.workers[w].claim, s.workers[w];
    var s2 := Next(Next(s, AnnounceStart(w, true)), Tick(elapsed));
    assert s2.workers[w] == worker.(phase := Sending) && s2.db == s.db;
    assert s2.log == s.log + [AttemptStarted(claim.queueId, claim.number)];
    SettledWorkerLogs(s2, w, outcome);
  }

  predicate SameNumber(db': Db, db: Db, r: nat)
    requires r < |db.attempts|
  {
    r < |db'.attempts| && db'.attempts[r].queueId == db.attempts[r].queueId && db'.attempts[r].number == db.attempts[r].number
  }

  lemma FinishSettles(s: State, w: nat, outcome: Outcome)
    requires CanFinish(s, w)
    requires var claim := s.workers[w].claim;
      s.db.attempts[claim.row].queueId == claim.queueId && s.db.attempts[claim.row].number == claim.number
    ensures var s' := Next(s, Finish(w, outcome));
      && w in s'.workers && s'.workers[w].claim == s.workers[w].claim && s'.workers[w].phase.Settled?
      && s'.log == s.log && |s'.db.attempts| == |s.db.attempts|
      && SameNumber(s'.db, s.db, s.workers[w].claim.row) && Settles(s'.db, s.workers[w].claim.row, s'.workers[w].phase.event)
  {
    hide SendResult, Terminal, Flushed;
  }

  lemma AnnouncesSettled(s: State, w: nat)
    requires w in s.workers && s.workers[w].phase.Settled?
    ensures var s' := Next(Next(s, AnnounceOutcome(w, true)), MarkFailed(w));
      s'.db.attempts == s.db.attempts && s'.log == s.log + [s.workers[w].phase.event]
  {
  }

  lemma SettledWorkerLogs(s: State, w: nat, outcome: Outcome)
    requires CanFinish(s, w)
    requires var claim := s.workers[w].claim;
      s.db.attempts[claim.row].queueId == claim.queueId && s.db.attempts[claim.row].number == claim.number
    ensures var s' := Next(Next(Next(s, Finish(w, outcome)), AnnounceOutcome(w, true)), MarkFailed(w));
      && |s'.db.attempts| == |s.db.attempts| && |s'.log| == |s.log| + 1 && s'.log[..|s.log|] == s.log
      && SameNumber(s'.db, s.db, s.workers[w].claim.row) && Settles(s'.db, s.workers[w].claim.row, s'.log[|s.log|])
  {
    hide Next;
    FinishSettles(s, w, outcome);
    AnnouncesSettled(Next(s, Finish(w, outcome)), w);
  }

  /**
   * A worker that dies after its claim leaves the item as it was and a started attempt. That attempt refuses
   * every publish of the same content as in progress for 24 hours, and then no longer.
   */
  lemma {:induction false} CrashLeavesGuard(s: State, w: nat, q: nat, final: bool, later: int)
    requires w !in s.workers && q in s.db.items && NoGuard(s.db, q, s.now) && s.now <= later
    ensures var s' := Run(s, [BeginPublish(w, q, final)] + [Crash(w)]);
      && s'.db.items == s.db.items && s'.workers == s.workers && s'.log == s.log
      && |s'.db.attempts| == |s.db.attempts| + 1 && s'.db.attempts[|s.db.attempts|].status == Started
      && var again := ClaimPublish(s'.db, later, q).result;
         if later < s.now + 24 * 60 * 60 then again == Rejected(IN_PROGRESS) else again.Claimed?
  {
    hide Run, Next, ClaimPublish, SnapshotHash, Snapshot, ActiveGuard;
    var s1 := Next(s, BeginPublish(w, q, final));
    RunAppend(s, [BeginPublish(w, q, final)], [Crash(w)]);
    RunOne(s, BeginPublish(w, q, final));
    RunOne(s1, Crash(w));
    BeginIsClaim(s, w, q, final);
    BeginLogsNothing(s, w, q, final);
    NoGuardClaims(s.db, q, s.now);
    ClaimOwnsRow(s.db, s.now, q);
    CrashDrops(s1, w);
    StartedRowGuards(s.db, s1.db, q, s.now, later);
  }

  lemma CrashDrops(s: State, w: nat)
    ensures Next(s, Crash(w)) == s.(workers := s.workers - {w})
  {
  }

  lemma StartedRowGuards(db: Db, db': Db, q: nat, now: int, later: int)
    requires q in db.items && db'.items == db.items && db'.catalog == db.catalog
    requires NoGuard(db, q, now) && now <= later && |db'.attempts| == |db.attempts| + 1
    requires db'.attempts[..|db.attempts|] == db.attempts
    requires var row := db'.attempts[|db.attempts|];
      row.queueId == q && row.contentHash == SnapshotHash(db.catalog, db.items[q]) && row.status == Started
      && row.expiresAt == now + 24 * 60 * 60
    ensures var again := ClaimPublish(db', later, q).result;
      if later < now + 24 * 60 * 60 then again == Rejected(IN_PROGRESS) else again.Claimed?
  {
    hide SnapshotHash, Snapshot, NextNumber, Healed;
    var hash := SnapshotHash(db.catalog, db.items[q]);
    forall i | 0 <= i < |db.attempts| ensures !Guards(db'.attempts[i], q, hash, later) {
      assert db'.attempts[i] == db.attempts[i];
    }
    var guard := ActiveGuard(db'.attempts, |db'.attempts|, q, hash, later);
    assert guard.Some? ==> guard.value == |db.attempts|;
  }
}
