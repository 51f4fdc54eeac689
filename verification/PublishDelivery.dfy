/**
 * A whole Celery task on the wire: what Telegram is sent and acknowledges when `publish_queue_item_task`
 * re-runs the publish of app/telegram/publisher.py.
 */
module PublishDelivery {
  import opened Common
  import opened ServiceErrors
  import opened TelegramText
  import opened TelegramPublishing
  import opened ContentHash
  import opened QueueModel
  import opened PublishTask

  /** When one execution claims and when it finishes. */
  datatype Slot = Slot(claimTime: int, finishTime: int)

  /** A publisher: whether it has a bot token, and what Telegram answers to post number k of the wire. */
  datatype Bot = Bot(configured: bool, replies: nat -> Exchange)

  function PayloadPlan(p: Payload): seq<Message> {
    Plan(p.text, p.imageUrl, p.button, p.parseMode)
  }

  function PublishOnWire(bot: Bot, w: Wire, plan: seq<Message>): Delivery {
    if bot.configured then SendFrom(bot.replies, w, plan, 0, NO_RECEIPT) else Delivery(w, Failed(NOT_CONFIGURED))
  }

  /** What one execution sends: nothing unless it claims an attempt and every check passes. */
  function Contact(db: Db, w: Wire, bot: Bot, claimTime: int, q: nat): Delivery {
    match ClaimPublish(db, claimTime, q).result
    case Rejected(e) => Delivery(w, Failed(e))
    case Claimed(claim) =>
      var preflight := PreflightError(claim.item, claim.channel);
      if preflight.Some? then Delivery(w, Failed(preflight.value))
      else PublishOnWire(bot, w, PayloadPlan(claim.payload))
  }

  datatype WireTask = WireTask(db: Db, wire: Wire, executions: nat, result: PublishResult)

  /** The task from execution number `retries` on. */
  function TaskOnWire(db: Db, w: Wire, bot: Bot, q: nat, slots: seq<Slot>, retries: nat): WireTask
    requires |slots| == MAX_EXECUTIONS && retries < MAX_EXECUTIONS
    decreases MAX_EXECUTIONS - retries
  {
    var t := slots[retries];
    var d := Contact(db, w, bot, t.claimTime, q);
    var e := Execute(db, t.claimTime, t.finishTime, q, IsFinal(retries), d.outcome);
    if Retried(e.result, retries) then TaskOnWire(e.db, d.wire, bot, q, slots, retries + 1)
    else WireTask(e.db, d.wire, retries + 1, e.result)
  }

  predicate SlotsInOrder(slots: seq<Slot>) {
    && (forall i :: 0 <= i < |slots| ==> slots[i].claimTime <= slots[i].finishTime)
    && (forall i :: 0 <= i < |slots| - 1 ==> slots[i].finishTime <= slots[i + 1].claimTime)
  }

  // ---- The task on the wire is the task ----

  lemma {:induction false} TaskReadsLaterTries(db: Db, q: nat, tries: seq<Try>, tries': seq<Try>, retries: nat)
    requires |tries| == |tries'| == MAX_EXECUTIONS && retries < MAX_EXECUTIONS
    requires forall i :: retries <= i < MAX_EXECUTIONS ==> tries[i] == tries'[i]
    ensures TaskFrom(db, q, tries, retries) == TaskFrom(db, q, tries', retries)
    decreases MAX_EXECUTIONS - retries
  {
    hide Execute;
    var t := tries[retries];
    var e := Execute(db, t.claimTime, t.finishTime, q, IsFinal(retries), t.outcome);
    if Retried(e.result, retries) {
      TaskReadsLaterTries(e.db, q, tries, tries', retries + 1);
    }
  }

  /** Whatever Telegram answers, the database and the result are those of a task run on the outcomes it causes. */
  lemma {:induction false} TaskOnWireIsTask(db: Db, w: Wire, bot: Bot, q: nat, slots: seq<Slot>, retries: nat)
    returns (tries: seq<Try>)
    requires |slots| == MAX_EXECUTIONS && retries < MAX_EXECUTIONS
    ensures |tries| == MAX_EXECUTIONS
    ensures forall i :: 0 <= i < MAX_EXECUTIONS ==> tries[i].claimTime == slots[i].claimTime && tries[i].finishTime == slots[i].finishTime
    ensures var r := TaskOnWire(db, w, bot, q, slots, retries);
      TaskRun(r.db, r.executions, r.result) == TaskFrom(db, q, tries, retries)
    decreases MAX_EXECUTIONS - retries
  {
    hide Execute, Contact;
    var t := slots[retries];
    var d := Contact(db, w, bot, t.claimTime, q);
    var e := Execute(db, t.claimTime, t.finishTime, q, IsFinal(retries), d.outcome);
    if Retried(e.result, retries) {
      var later := TaskOnWireIsTask(e.db, d.wire, bot, q, slots, retries + 1);
      tries := later[retries := Try(t.claimTime, t.finishTime, d.outcome)];
      TaskReadsLaterTries(e.db, q, tries, later, retries + 1);
    } else {
      tries := seq(MAX_EXECUTIONS, i requires 0 <= i < MAX_EXECUTIONS => Try(slots[i].claimTime, slots[i].finishTime, d.outcome));
    }
  }

  /** So a task ends as `TaskConcludes` says, whatever happens on the wire. */
  lemma {:induction false} WireTaskConcludes(db: Db, w: Wire, bot: Bot, q: nat, slots: seq<Slot>)
    requires |slots| == MAX_EXECUTIONS && SlotsInOrder(slots)
    requires q in db.items && NoGuard(db, q, slots[0].claimTime)
    ensures var r := TaskOnWire(db, w, bot, q, slots, 0);
      1 <= r.executions <= MAX_EXECUTIONS && Added(db, r.db, q, r.executions) && Concluded(r.db, q, r.result)
  {
    hide TaskOnWire, TaskFrom, NoGuard, Added, Concluded;
    var tries := TaskOnWireIsTask(db, w, bot, q, slots, 0);
    TaskConcludes(db, q, tries);
  }

  // ---- What Telegram acknowledges ----

  /** Every check passes and the publisher has its token. */
  predicate Contacted(db: Db, bot: Bot, q: nat)
    requires q in db.items
  {
    bot.configured && PreflightError(db.items[q], ItemChannel(db.catalog, db.items[q])).None?
  }

  function ItemPlan(db: Db, q: nat): seq<Message>
    requires q in db.items
  {
    PayloadPlan(Snapshot(db.catalog, db.items[q]))
  }

  /** An execution that nothing blocks sends the item's plan. */
  lemma ContactSendsPlan(db: Db, w: Wire, bot: Bot, claimTime: int, q: nat)
    requires q in db.items && NoGuard(db, q, claimTime) && Contacted(db, bot, q)
    ensures Contact(db, w, bot, claimTime, q) == SendFrom(bot.replies, w, ItemPlan(db, q), 0, NO_RECEIPT)
  {
    hide ClaimPublish, SendFrom, Plan, Snapshot, PreflightError;
    NoGuardClaims(db, q, claimTime);
    ClaimOwnsRow(db, claimTime, q);
  }

  lemma ExecutionResult(db: Db, t: Try, q: nat, bot: Bot, final: bool)
    requires q in db.items && NoGuard(db, q, t.claimTime) && Contacted(db, bot, q)
    ensures Execute(db, t.claimTime, t.finishTime, q, final, t.outcome).result
         == match t.outcome case Delivered(r) => Returned(r) case Failed(e) => Raised(e)
  {
    hide Execute, NoGuard, PreflightError, SameContent, Concluded;
    ExecuteStep(db, t, q, final);
  }

  /** A retried execution leaves the plan as it was and nothing in the way of the next one. */
  lemma RetryKeepsPlan(db: Db, t: Try, q: nat, bot: Bot, retries: nat, later: int)
    requires q in db.items && NoGuard(db, q, t.claimTime) && Contacted(db, bot, q) && t.claimTime <= later
    requires Retried(Execute(db, t.claimTime, t.finishTime, q, IsFinal(retries), t.outcome).result, retries)
    ensures var db' := Execute(db, t.claimTime, t.finishTime, q, IsFinal(retries), t.outcome).db;
      q in db'.items && NoGuard(db', q, later) && Contacted(db', bot, q) && ItemPlan(db', q) == ItemPlan(db, q)
  {
    hide Execute, NoGuard, PreflightError, SameContent, Plan, Snapshot, SnapshotHash;
    RetryGoesOn(db, t, q, retries, later);
    var db' := Execute(db, t.claimTime, t.finishTime, q, IsFinal(retries), t.outcome).db;
    ContentFixesSnapshot(db.catalog, db'.items[q], db.items[q]);
  }

  /** `n` prefixes of the plan one after the other, all but the last of them proper. */
  ghost predicate Prefixes(sent: seq<Message>, plan: seq<Message>, n: nat)
    decreases n
  {
    if n == 0 then |sent| == 0
    else exists k: nat {:trigger sent[k..]} ::
      && k <= |plan| && k <= |sent| && sent[..k] == plan[..k] && (n > 1 ==> k < |plan|)
      && Prefixes(sent[k..], plan, n - 1)
  }

  /** One publish of the plan acknowledges a prefix, a proper one if it ends in a Telegram error. */
  lemma PublishAcknowledges(replies: nat -> Exchange, w: Wire, plan: seq<Message>) returns (k: nat)
    ensures k <= |plan|
    ensures var d := SendFrom(replies, w, plan, 0, NO_RECEIPT);
      d.wire.accepted == w.accepted + plan[..k] && (TelegramFailure(d.outcome) ==> k < |plan|)
      && (d.outcome.Delivered? ==> k == |plan|)
  {
    hide EachUpToFourTimes, SendFrom;
    var d := SendFrom(replies, w, plan, 0, NO_RECEIPT);
    SendFromAdds(replies, w, plan, 0, NO_RECEIPT);
    var done: nat, tried: nat :| Ran(w, d, plan, 0, done, tried);
    k := done;
    assert plan[0..done] == plan[..done];
  }

  lemma PrefixesCons(sent: seq<Message>, plan: seq<Message>, k: nat, n: nat)
    requires k <= |plan| && k <= |sent| && sent[..k] == plan[..k] && (n > 0 ==> k < |plan|)
    requires Prefixes(sent[k..], plan, n)
    ensures Prefixes(sent, plan, n + 1)
  {
  }

  lemma PrefixesNone(plan: seq<Message>)
    ensures Prefixes([], plan, 0)
  {
  }

  /**
   * Telegram acknowledges one prefix of the plan per execution, a proper prefix wherever Celery retries,
   * and all of it at last if the task succeeds.
   */
  lemma {:induction false} TaskAcknowledges(db: Db, w: Wire, bot: Bot, q: nat, slots: seq<Slot>, retries: nat)
    returns (sent: seq<Message>)
    requires |slots| == MAX_EXECUTIONS && retries < MAX_EXECUTIONS && SlotsInOrder(slots)
    requires q in db.items && NoGuard(db, q, slots[retries].claimTime) && Contacted(db, bot, q)
    ensures var r, plan := TaskOnWire(db, w, bot, q, slots, retries), ItemPlan(db, q);
      && retries < r.executions <= MAX_EXECUTIONS
      && r.wire.accepted == w.accepted + sent
      && Prefixes(sent, plan, r.executions - retries)
      && (r.result.Returned? ==> |plan| <= |sent| && sent[|sent| - |plan|..] == plan)
    decreases MAX_EXECUTIONS - retries
  {
    hide Execute, Contact, SendFrom, NoGuard, Contacted, ItemPlan, Prefixes;
    var slot, plan := slots[retries], ItemPlan(db, q);
    ContactSendsPlan(db, w, bot, slot.claimTime, q);
    var d := Contact(db, w, bot, slot.claimTime, q);
    var k := PublishAcknowledges(bot.replies, w, plan);
    var t := Try(slot.claimTime, slot.finishTime, d.outcome);
    var e := Execute(db, t.claimTime, t.finishTime, q, IsFinal(retries), t.outcome);
    ExecutionResult(db, t, q, bot, IsFinal(retries));
    if Retried(e.result, retries) {
      RetryKeepsPlan(db, t, q, bot, retries, slots[retries + 1].claimTime);
      var later := TaskAcknowledges(e.db, d.wire, bot, q, slots, retries + 1);
      sent := plan[..k] + later;
      var n := TaskOnWire(db, w, bot, q, slots, retries).executions - retries - 1;
      assert sent[..k] == plan[..k] && sent[k..] == later;
      PrefixesCons(sent, plan, k, n);
      assert |plan| <= |later| ==> sent[|sent| - |plan|..] == later[|later| - |plan|..];
    } else {
      sent := plan[..k];
      assert sent[k..] == [];
      PrefixesNone(plan);
      PrefixesCons(sent, plan, k, 0);
      assert e.result.Returned? ==> sent[|sent| - |plan|..] == plan;
    }
  }

  lemma {:induction false} PrefixesOfOne(sent: seq<Message>, plan: seq<Message>, n: nat)
    requires Prefixes(sent, plan, n) && |plan| == 1
    ensures |sent| <= 1
  {
    if n > 0 {
      var k: nat :| k <= |plan| && k <= |sent| && sent[..k] == plan[..k] && (n > 1 ==> k < |plan|)
        && Prefixes(sent[k..], plan, n - 1);
      if n > 1 {
        assert sent[k..] == sent;
        PrefixesOfOne(sent, plan, n - 1);
      }
    }
  }

  lemma OneMore(n: nat, x: nat)
    requires n > 0
    ensures n * x == (n - 1) * x + x
  {
  }

  lemma {:induction false} PrefixesBound(sent: seq<Message>, plan: seq<Message>, n: nat, m: Message)
    requires Prefixes(sent, plan, n)
    ensures Count(sent, m) <= n * Count(plan, m)
  {
    hide Count;
    if n == 0 {
      assert Count(sent, m) == 0 by { CountNothing(sent, m); }
    } else {
      var k: nat :| k <= |plan| && k <= |sent| && sent[..k] == plan[..k] && (n > 1 ==> k < |plan|)
        && Prefixes(sent[k..], plan, n - 1);
      PrefixesBound(sent[k..], plan, n - 1, m);
      CountSplit(sent, k, m);
      CountSplit(plan, k, m);
      OneMore(n, Count(plan, m));
    }
  }

  lemma CountNothing(s: seq<Message>, m: Message)
    requires |s| == 0
    ensures Count(s, m) == 0
  {
  }

  /** No message is acknowledged more than four times per occurrence in the plan. */
  lemma {:induction false} AcknowledgedAtMostFourTimes(db: Db, w: Wire, bot: Bot, q: nat, slots: seq<Slot>, m: Message)
    requires |slots| == MAX_EXECUTIONS && SlotsInOrder(slots)
    requires q in db.items && NoGuard(db, q, slots[0].claimTime) && Contacted(db, bot, q)
    ensures Count(TaskOnWire(db, w, bot, q, slots, 0).wire.accepted, m)
         <= Count(w.accepted, m) + MAX_EXECUTIONS * Count(ItemPlan(db, q), m)
  {
    hide TaskOnWire, NoGuard, Contacted, ItemPlan, Prefixes;
    var sent := TaskAcknowledges(db, w, bot, q, slots, 0);
    var n := TaskOnWire(db, w, bot, q, slots, 0).executions;
    PrefixesBound(sent, ItemPlan(db, q), n, m);
    ScaleUp(n, MAX_EXECUTIONS, Count(ItemPlan(db, q), m));
  }

  lemma ScaleUp(a: nat, b: nat, x: nat)
    requires a <= b
    ensures a * x <= b * x
  {
  }

  // ---- What is acknowledged again and what is published again ----

  const ACCEPTED := Exchange(Reply(200, Some(Body(Some(true), None, false, "", Some(Receipt("@channel", 1))))), true)
  const REFUSED := Exchange(Reply(400, Some(Body(Some(false), Some(400), false, "Bad Request", None))), false)
  const UNHEARD := Exchange(Unreachable, true)

  /** Telegram takes everything but every `n`th post, which it refuses for good. */
  function RefuseEvery(n: nat): nat -> Exchange
    requires n > 0
  {
    (k: nat) => if k % n == n - 1 then REFUSED else ACCEPTED
  }

  function Copies<T>(part: seq<T>, n: nat): (r: seq<T>)
    ensures |r| == n * |part|
  {
    if n == 0 then [] else part + Copies(part, n - 1)
  }

  lemma RemainderIs(k: nat, q: nat, r: nat, n: nat)
    requires k == q * n + r && r < n
    ensures k % n == r
  {
    var d := k / n - q;
    assert k == (k / n) * n + k % n;
    assert d * n == (k / n) * n - q * n;
  }

  lemma NextIndex(k: nat, n: nat)
    requires n > 0 && k % n < n - 1
    ensures (k + 1) % n == k % n + 1
  {
    RemainderIs(k + 1, k / n, k % n + 1, n);
  }

  lemma WrapIndex(k: nat, n: nat)
    requires n > 0 && k % n == 0
    ensures (k + n) % n == 0
  {
    assert (k / n + 1) * n == (k / n) * n + n;
    RemainderIs(k + n, k / n + 1, 0, n);
  }

  lemma AcceptedPost(replies: nat -> Exchange, w: Wire, m: Message)
    requires replies(|w.posts|) == ACCEPTED
    ensures PostFrom(replies, w, m, 0)
         == Delivery(Wire(w.posts + [m], w.accepted + [m], w.taken + [m]), Delivered(Receipt("@channel", 1)))
  {
  }

  lemma RefusedPost(replies: nat -> Exchange, w: Wire, m: Message)
    requires replies(|w.posts|) == REFUSED
    ensures var d := PostFrom(replies, w, m, 0);
      d.wire == Wire(w.posts + [m], w.accepted, w.taken) && d.outcome.Failed? && NonRetryable(d.outcome.error)
  {
  }

  /** From message `i` on, all but the last message of the plan are taken. */
  lemma {:induction false} LastRefused(w: Wire, plan: seq<Message>, i: nat, primary: Receipt)
    requires i < |plan| && |w.posts| % |plan| == i
    ensures var d := SendFrom(RefuseEvery(|plan|), w, plan, i, primary);
      && d.wire == Wire(w.posts + plan[i..], w.accepted + plan[i..|plan| - 1], w.taken + plan[i..|plan| - 1])
      && d.outcome.Failed? && NonRetryable(d.outcome.error)
    decreases |plan| - i
  {
    hide PostFrom, NonRetryable;
    var n := |plan|;
    if i < n - 1 {
      AcceptedPost(RefuseEvery(n), w, plan[i]);
      var w1 := Wire(w.posts + [plan[i]], w.accepted + [plan[i]], w.taken + [plan[i]]);
      NextIndex(|w.posts|, n);
      LastRefused(w1, plan, i + 1, if i == 0 then Receipt("@channel", 1) else primary);
      assert [plan[i]] + plan[i + 1..] == plan[i..] && [plan[i]] + plan[i + 1..n - 1] == plan[i..n - 1];
    } else {
      assert plan[i..] == [plan[i]] && plan[i..n - 1] == [];
      RefusedPost(RefuseEvery(n), w, plan[i]);
    }
  }

  /** If the last message of the plan keeps being refused, every execution has all the others acknowledged again. */
  lemma {:induction false} LongPlanDuplicates(db: Db, w: Wire, q: nat, slots: seq<Slot>, retries: nat, n: nat)
    requires |slots| == MAX_EXECUTIONS && retries < MAX_EXECUTIONS && SlotsInOrder(slots)
    requires q in db.items && |ItemPlan(db, q)| == n > 0 && |w.posts| % n == 0
    requires NoGuard(db, q, slots[retries].claimTime) && Contacted(db, Bot(true, RefuseEvery(n)), q)
    ensures var w' := TaskOnWire(db, w, Bot(true, RefuseEvery(n)), q, slots, retries).wire;
      var again := Copies(ItemPlan(db, q)[..n - 1], MAX_EXECUTIONS - retries);
      w'.accepted == w.accepted + again && w'.taken == w.taken + again
    decreases MAX_EXECUTIONS - retries
  {
    hide Execute, Contact, SendFrom, NoGuard, Contacted, ItemPlan, RefuseEvery;
    var bot, slot, plan := Bot(true, RefuseEvery(n)), slots[retries], ItemPlan(db, q);
    ContactSendsPlan(db, w, bot, slot.claimTime, q);
    LastRefused(w, plan, 0, NO_RECEIPT);
    assert plan[0..] == plan && plan[0..n - 1] == plan[..n - 1];
    var d := Contact(db, w, bot, slot.claimTime, q);
    var t := Try(slot.claimTime, slot.finishTime, d.outcome);
    var e := Execute(db, t.claimTime, t.finishTime, q, IsFinal(retries), t.outcome);
    ExecutionResult(db, t, q, bot, IsFinal(retries));
    if retries + 1 < MAX_EXECUTIONS {
      RetryKeepsPlan(db, t, q, bot, retries, slots[retries + 1].claimTime);
      WrapIndex(|w.posts|, n);
      LongPlanDuplicates(e.db, d.wire, q, slots, retries + 1, n);
    } else {
      assert Copies(plan[..n - 1], 0) == [];
    }
  }

  /**
   * A task acknowledges no message more often than its plan has it, whatever Telegram answers, exactly when
   * the plan is one message.
   */
  lemma {:induction false} AcknowledgesNoMoreIff(db: Db, q: nat, slots: seq<Slot>)
    requires |slots| == MAX_EXECUTIONS && SlotsInOrder(slots)
    requires q in db.items && NoGuard(db, q, slots[0].claimTime)
    requires PreflightError(db.items[q], ItemChannel(db.catalog, db.items[q])).None?
    ensures (forall replies: nat -> Exchange ::
               NoMore(TaskOnWire(db, NOTHING_SENT, Bot(true, replies), q, slots, 0).wire.accepted, ItemPlan(db, q)))
       <==> |ItemPlan(db, q)| == 1
  {
    hide TaskOnWire, NoGuard, PreflightError, Snapshot, Prefixes, RefuseEvery, NoMore, Plan;
    PlanIsNonempty(db, q);
    var n := |ItemPlan(db, q)|;
    if n == 1 {
      forall replies: nat -> Exchange
        ensures NoMore(TaskOnWire(db, NOTHING_SENT, Bot(true, replies), q, slots, 0).wire.accepted, ItemPlan(db, q))
      {
        OneMessageAcknowledged(db, replies, q, slots);
      }
    } else {
      LongPlanDuplicates(db, NOTHING_SENT, q, slots, 0, n);
      CopiesAreMore(ItemPlan(db, q));
      assert NOTHING_SENT.accepted + Copies(ItemPlan(db, q)[..n - 1], 4) == Copies(ItemPlan(db, q)[..n - 1], 4);
    }
  }

  const NOTHING_SENT := Wire([], [], [])

  /** No message occurs in `sent` more often than in the plan. */
  ghost predicate NoMore(sent: seq<Message>, plan: seq<Message>) {
    forall m: Message :: Count(sent, m) <= Count(plan, m)
  }

  lemma OneMessageAcknowledged(db: Db, replies: nat -> Exchange, q: nat, slots: seq<Slot>)
    requires |slots| == MAX_EXECUTIONS && SlotsInOrder(slots)
    requires q in db.items && NoGuard(db, q, slots[0].claimTime) && Contacted(db, Bot(true, replies), q)
    requires |ItemPlan(db, q)| == 1
    ensures var w := TaskOnWire(db, NOTHING_SENT, Bot(true, replies), q, slots, 0).wire;
      |w.accepted| <= 1 && NoMore(w.accepted, ItemPlan(db, q))
  {
    hide TaskOnWire, NoGuard, Contacted, ItemPlan, Prefixes;
    var sent := TaskAcknowledges(db, NOTHING_SENT, Bot(true, replies), q, slots, 0);
    PrefixesOfOne(sent, ItemPlan(db, q), TaskOnWire(db, NOTHING_SENT, Bot(true, replies), q, slots, 0).executions);
    forall m: Message ensures Count(sent, m) <= Count(ItemPlan(db, q), m) {
      AcknowledgedAtMostFourTimes(db, NOTHING_SENT, Bot(true, replies), q, slots, m);
    }
  }

  lemma {:induction false} CountCopies(part: seq<Message>, n: nat, m: Message)
    ensures Count(Copies(part, n), m) == n * Count(part, m)
  {
    if n > 0 {
      CountCopies(part, n - 1, m);
      OneMore(n, Count(part, m));
    }
  }

  lemma CopiesAreMore(plan: seq<Message>)
    requires |plan| >= 2
    ensures !NoMore(Copies(plan[..|plan| - 1], MAX_EXECUTIONS), plan)
  {
    var m, part := plan[0], plan[..|plan| - 1];
    CountCopies(part, MAX_EXECUTIONS, m);
    CountSplit(plan, |plan| - 1, m);
    assert part[0] == m && plan[|plan| - 1..] == [plan[|plan| - 1]];
  }

  /**
   * In a whole task, what Telegram published is what it acknowledged plus the lost answers; every message
   * is posted, hence published, at most sixteen times per occurrence in the plan.
   */
  lemma {:induction false} TaskAccounted(db: Db, w: Wire, bot: Bot, q: nat, slots: seq<Slot>, retries: nat, m: Message)
    requires |slots| == MAX_EXECUTIONS && retries < MAX_EXECUTIONS && SlotsInOrder(slots)
    requires q in db.items && NoGuard(db, q, slots[retries].claimTime) && Contacted(db, bot, q)
    ensures var w' := TaskOnWire(db, w, bot, q, slots, retries).wire;
      && Accounted(bot.replies, w, w')
      && Count(w'.posts, m) <= Count(w.posts, m) + (MAX_EXECUTIONS - retries) * ((MAX_RETRIES + 1) * Count(ItemPlan(db, q), m))
    decreases MAX_EXECUTIONS - retries
  {
    hide Execute, Contact, SendFrom, NoGuard, Contacted, ItemPlan, Accounted, Count;
    var slot, plan := slots[retries], ItemPlan(db, q);
    ContactSendsPlan(db, w, bot, slot.claimTime, q);
    var d := Contact(db, w, bot, slot.claimTime, q);
    PublishAccounted(bot.replies, w, plan, 0, NO_RECEIPT);
    PublishPostsBound(bot.replies, w, plan, m);
    var t := Try(slot.claimTime, slot.finishTime, d.outcome);
    var e := Execute(db, t.claimTime, t.finishTime, q, IsFinal(retries), t.outcome);
    OneMore(MAX_EXECUTIONS - retries, (MAX_RETRIES + 1) * Count(plan, m));
    if Retried(e.result, retries) {
      RetryKeepsPlan(db, t, q, bot, retries, slots[retries + 1].claimTime);
      TaskAccounted(e.db, d.wire, bot, q, slots, retries + 1, m);
      AccountedTogether(bot.replies, w, d.wire, TaskOnWire(e.db, d.wire, bot, q, slots, retries + 1).wire);
    }
  }

  /**
   * A task publishes each message at least as often as it is acknowledged and at most sixteen times per
   * occurrence in the plan; the surplus of the published over the acknowledged messages is the number of
   * lost answers.
   */
  lemma {:induction false} PublishedAtMostSixteenTimes(db: Db, w: Wire, bot: Bot, q: nat, slots: seq<Slot>, m: Message)
    requires |slots| == MAX_EXECUTIONS && SlotsInOrder(slots)
    requires q in db.items && NoGuard(db, q, slots[0].claimTime) && Contacted(db, bot, q)
    ensures var w' := TaskOnWire(db, w, bot, q, slots, 0).wire;
      && Count(w'.accepted, m) - Count(w.accepted, m) <= Count(w'.taken, m) - Count(w.taken, m) <= 16 * Count(ItemPlan(db, q), m)
      && |w'.taken| - |w.taken| == |w'.accepted| - |w.accepted| + LostIn(bot.replies, |w.posts|, |w'.posts|)
  {
    hide TaskOnWire, NoGuard, Contacted, ItemPlan, Count, LostIn;
    TaskAccounted(db, w, bot, q, slots, 0, m);
    assert CopiesOrdered(w, TaskOnWire(db, w, bot, q, slots, 0).wire, m);
  }

  lemma {:induction false} CopiesAdd<T>(part: seq<T>, a: nat, b: nat)
    ensures Copies(part, a) + Copies(part, b) == Copies(part, a + b)
  {
    if a == 0 {
      assert Copies(part, a) + Copies(part, b) == Copies(part, b);
    } else {
      CopiesAdd(part, a - 1, b);
      assert Copies(part, a) + Copies(part, b) == part + (Copies(part, a - 1) + Copies(part, b));
    }
  }

  function Unheard(n: nat): Exchange {
    UNHEARD
  }

  lemma UnheardVerdict()
    ensures Classify(UNHEARD.reply).Retry? && Classify(UNHEARD.reply).error.TelegramPublishError?
    ensures forall m: Message :: Copies([m], 1) == [m] && Copies([m], 0) == []
  {
  }

  lemma UnheardOnce(w: Wire, m: Message, attempt: nat)
    requires attempt <= MAX_RETRIES
    ensures var posted, d := Wire(w.posts + [m], w.accepted, w.taken + [m]), PostFrom(Unheard, w, m, attempt);
      if attempt < MAX_RETRIES then d == PostFrom(Unheard, posted, m, attempt + 1)
      else d.wire == posted && d.outcome.Failed? && d.outcome.error.TelegramPublishError?
  {
    hide Classify;
    UnheardVerdict();
  }

  lemma {:induction false} UnheardPost(w: Wire, m: Message, attempt: nat)
    requires attempt <= MAX_RETRIES
    ensures var d, again := PostFrom(Unheard, w, m, attempt), Copies([m], MAX_RETRIES + 1 - attempt);
      && d.wire == Wire(w.posts + again, w.accepted, w.taken + again)
      && d.outcome.Failed? && d.outcome.error.TelegramPublishError?
    decreases MAX_RETRIES - attempt
  {
    hide Copies, PostFrom;
    UnheardVerdict();
    UnheardOnce(w, m, attempt);
    var later := Copies([m], MAX_RETRIES - attempt);
    CopiesAdd([m], 1, MAX_RETRIES - attempt);
    assert w.posts + ([m] + later) == w.posts + [m] + later && w.taken + ([m] + later) == w.taken + [m] + later;
    if attempt < MAX_RETRIES {
      UnheardPost(Wire(w.posts + [m], w.accepted, w.taken + [m]), m, attempt + 1);
    }
  }

  /**
   * The bound of sixteen is met: if every answer is lost on its way back, the first message of any plan is
   * published four times in each execution, and the task ends in a Telegram error with nothing acknowledged.
   */
  lemma {:induction false} LostAnswersDuplicate(db: Db, w: Wire, q: nat, slots: seq<Slot>, retries: nat)
    requires |slots| == MAX_EXECUTIONS && retries < MAX_EXECUTIONS && SlotsInOrder(slots)
    requires q in db.items && NoGuard(db, q, slots[retries].claimTime) && Contacted(db, Bot(true, Unheard), q)
    ensures var r := TaskOnWire(db, w, Bot(true, Unheard), q, slots, retries);
      && |ItemPlan(db, q)| >= 1
      && r.executions == MAX_EXECUTIONS && r.result.Raised?
      && var again := Copies([ItemPlan(db, q)[0]], (MAX_EXECUTIONS - retries) * (MAX_RETRIES + 1));
         r.wire == Wire(w.posts + again, w.accepted, w.taken + again)
    decreases MAX_EXECUTIONS - retries
  {
    hide Execute, Contact, PostFrom, NoGuard, Contacted, ItemPlan, Copies;
    var bot, slot, plan := Bot(true, Unheard), slots[retries], ItemPlan(db, q);
    PlanIsNonempty(db, q);
    ContactSendsPlan(db, w, bot, slot.claimTime, q);
    UnheardPost(w, plan[0], 0);
    var d := Contact(db, w, bot, slot.claimTime, q);
    var t := Try(slot.claimTime, slot.finishTime, d.outcome);
    var e := Execute(db, t.claimTime, t.finishTime, q, IsFinal(retries), t.outcome);
    ExecutionResult(db, t, q, bot, IsFinal(retries));
    if retries + 1 < MAX_EXECUTIONS {
      RetryKeepsPlan(db, t, q, bot, retries, slots[retries + 1].claimTime);
      LostAnswersDuplicate(e.db, d.wire, q, slots, retries + 1);
      CopiesAdd([plan[0]], MAX_RETRIES + 1, (MAX_EXECUTIONS - retries - 1) * (MAX_RETRIES + 1));
    }
  }

  /** The client is told of everything Telegram publishes. */
  ghost predicate NoneLost(replies: nat -> Exchange) {
    forall k: nat :: !Lost(replies(k))
  }

  lemma {:induction false} NoneLostIn(replies: nat -> Exchange, from: nat, to: nat)
    requires NoneLost(replies)
    ensures LostIn(replies, from, to) == 0
    decreases if from < to then to - from else 0
  {
    if from < to {
      NoneLostIn(replies, from + 1, to);
    }
  }

  /**
   * A task publishes no message more often than its plan has it, whatever Telegram answers, exactly when no
   * answer can be lost and the plan is one message.
   */
  lemma {:induction false} PublishesNoMoreIff(db: Db, q: nat, slots: seq<Slot>, lossy: bool)
    requires |slots| == MAX_EXECUTIONS && SlotsInOrder(slots)
    requires q in db.items && NoGuard(db, q, slots[0].claimTime)
    requires PreflightError(db.items[q], ItemChannel(db.catalog, db.items[q])).None?
    ensures (forall replies: nat -> Exchange :: lossy || NoneLost(replies) ==>
               NoMore(TaskOnWire(db, NOTHING_SENT, Bot(true, replies), q, slots, 0).wire.taken, ItemPlan(db, q)))
       <==> !lossy && |ItemPlan(db, q)| == 1
  {
    hide TaskOnWire, NoGuard, PreflightError, Snapshot, RefuseEvery, NoMore, Plan, Copies;
    PlanIsNonempty(db, q);
    var plan := ItemPlan(db, q);
    if |plan| > 1 {
      LongPlanDuplicates(db, NOTHING_SENT, q, slots, 0, |plan|);
      CopiesAreMore(plan);
      RefusalsAreHeard(|plan|);
      assert NOTHING_SENT.taken + Copies(plan[..|plan| - 1], 4) == Copies(plan[..|plan| - 1], 4);
    } else if lossy {
      LostAnswersDuplicate(db, NOTHING_SENT, q, slots, 0);
      OneCopyIsLess(plan);
      assert NOTHING_SENT.taken + Copies([plan[0]], 16) == Copies([plan[0]], 16);
    } else {
      forall replies: nat -> Exchange | NoneLost(replies)
        ensures NoMore(TaskOnWire(db, NOTHING_SENT, Bot(true, replies), q, slots, 0).wire.taken, plan)
      {
        OneMessagePublished(db, replies, q, slots);
      }
    }
  }

  lemma RefusalsAreHeard(n: nat)
    requires n > 0
    ensures NoneLost(RefuseEvery(n))
  {
  }

  lemma OneCopyIsLess(plan: seq<Message>)
    requires |plan| == 1
    ensures !NoMore(Copies([plan[0]], 16), plan)
  {
    CountCopies([plan[0]], 16, plan[0]);
    assert plan == [plan[0]];
  }

  lemma OneMessagePublished(db: Db, replies: nat -> Exchange, q: nat, slots: seq<Slot>)
    requires |slots| == MAX_EXECUTIONS && SlotsInOrder(slots)
    requires q in db.items && NoGuard(db, q, slots[0].claimTime) && Contacted(db, Bot(true, replies), q)
    requires |ItemPlan(db, q)| == 1 && NoneLost(replies)
    ensures NoMore(TaskOnWire(db, NOTHING_SENT, Bot(true, replies), q, slots, 0).wire.taken, ItemPlan(db, q))
  {
    hide TaskOnWire, NoGuard, Contacted, ItemPlan;
    var bot, plan := Bot(true, replies), ItemPlan(db, q);
    var w := TaskOnWire(db, NOTHING_SENT, bot, q, slots, 0).wire;
    OneMessageAcknowledged(db, replies, q, slots);
    forall m: Message ensures Count(w.taken, m) <= Count(plan, m) {
      PublishedAtMostSixteenTimes(db, NOTHING_SENT, bot, q, slots, m);
      NoneLostIn(replies, 0, |w.posts|);
      assert |w.taken| <= 1;
    }
  }

  lemma PlanIsNonempty(db: Db, q: nat)
    requires q in db.items
    ensures |ItemPlan(db, q)| >= 1
  {
    hide Plan, Snapshot;
    var p := Snapshot(db.catalog, db.items[q]);
    PlanFits(p.text, p.imageUrl, p.button, p.parseMode);
  }

  /** A text within the limit of its message type is one message. */
  lemma {:induction false} ShortTextIsOneMessage(text: string, imageUrl: Option<string>, button: Option<Button>, parseMode: Option<string>)
    requires |text| <= if Truthy(imageUrl) then 1024 else 4096
    ensures |Plan(text, imageUrl, button, parseMode)| == 1
  {
    hide NextPiece, SplitRemaining;
    if !Truthy(imageUrl) {
      SplitFits(text, MAX_MESSAGE_LENGTH);
    }
  }

  // ---- A permanent refusal ----

  /** Every answer ends a send at once with a permanent client error. */
  ghost predicate AlwaysRefuses(replies: nat -> Exchange) {
    forall n: nat :: Classify(replies(n).reply).GiveUp? && NonRetryable(Classify(replies(n).reply).error)
  }

  lemma RefusedPublish(replies: nat -> Exchange, w: Wire, plan: seq<Message>)
    requires AlwaysRefuses(replies) && |plan| >= 1
    ensures var d := SendFrom(replies, w, plan, 0, NO_RECEIPT);
      && d.wire.posts == w.posts + [plan[0]] && d.wire.accepted == w.accepted
      && d.outcome.Failed? && NonRetryable(d.outcome.error)
  {
    hide Classify;
  }

  /**
   * A permanently refused publish is recorded as a dead letter, yet Celery runs the task again: the first
   * message is posted in all four executions, and all four attempts are dead letters.
   */
  lemma {:induction false} PermanentErrorIsResent(db: Db, w: Wire, bot: Bot, q: nat, slots: seq<Slot>, retries: nat)
    requires |slots| == MAX_EXECUTIONS && retries < MAX_EXECUTIONS && SlotsInOrder(slots)
    requires q in db.items && NoGuard(db, q, slots[retries].claimTime) && Contacted(db, bot, q)
    requires AlwaysRefuses(bot.replies)
    ensures var r := TaskOnWire(db, w, bot, q, slots, retries);
      && r.executions == MAX_EXECUTIONS
      && |ItemPlan(db, q)| >= 1
      && r.wire.posts == w.posts + Copies([ItemPlan(db, q)[0]], MAX_EXECUTIONS - retries) && r.wire.accepted == w.accepted
      && Added(db, r.db, q, MAX_EXECUTIONS - retries) && AllDeadLetters(r.db.attempts, |db.attempts|)
    decreases MAX_EXECUTIONS - retries
  {
    hide Execute, Contact, SendFrom, NoGuard, Contacted, ItemPlan, AlwaysRefuses, Added;
    var slot, plan := slots[retries], ItemPlan(db, q);
    PlanIsNonempty(db, q);
    ContactSendsPlan(db, w, bot, slot.claimTime, q);
    RefusedPublish(bot.replies, w, plan);
    var d := Contact(db, w, bot, slot.claimTime, q);
    var t := Try(slot.claimTime, slot.finishTime, d.outcome);
    var e := Execute(db, t.claimTime, t.finishTime, q, IsFinal(retries), t.outcome);
    PassedChecks(db, bot, q);
    PermanentExecution(db, t, q, retries);
    AddedSizes(db, e.db, q, 1);
    if retries + 1 < MAX_EXECUTIONS {
      RetryKeepsPlan(db, t, q, bot, retries, slots[retries + 1].claimTime);
      RetryGoesOn(db, t, q, retries, slots[retries + 1].claimTime);
      PermanentErrorIsResent(e.db, d.wire, bot, q, slots, retries + 1);
      var r := TaskOnWire(e.db, d.wire, bot, q, slots, retries + 1);
      AddedMore(db, e.db, r.db, q, MAX_EXECUTIONS - retries - 1);
      AddedSizes(db, r.db, q, MAX_EXECUTIONS - retries);
    } else {
      assert Copies([plan[0]], 0) == [];
    }
  }

  lemma PassedChecks(db: Db, bot: Bot, q: nat)
    requires q in db.items && Contacted(db, bot, q)
    ensures PreflightError(db.items[q], ItemChannel(db.catalog, db.items[q])).None?
  {
  }
}
