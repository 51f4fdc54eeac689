/**
 * The services of app/services/queue.py as they run: rows are read, fields are assigned one after the
 * other and the tables are replaced at each commit. Every method meets its transaction in QueueModel.
 */
module QueueStore {
  import opened Common
  import opened ServiceErrors
  import opened TelegramPublishing
  import opened ContentHash
  import opened QueueModel
  import opened PublishTask
  import opened PublishDelivery
  import PublishProtocol

  class QueueStore {
    var items: map<nat, Item>
    var attempts: seq<Attempt>
    var catalog: Catalog

    constructor (catalog: Catalog)
      ensures Tables() == Db(map[], [], catalog)
    {
      this.items, this.attempts, this.catalog := map[], [], catalog;
    }

    function Tables(): Db
      reads this
    {
      Db(items, attempts, catalog)
    }

    /** `QueueService.create`. */
    method Create(q: nat, payload: CreatePayload, now: int) returns (error: Option<ApiError>)
      requires q !in items
      modifies this`items
      ensures ApiStep(Tables(), error) == CreateItem(old(Tables()), now, q, payload)
    {
      var checked := CheckedCreate(payload);
      if checked.None? {
        return Some(SchemaRejected);
      }
      var p := checked.value;
      var scheduling := SchedulingError(p.status, p.scheduledAt);
      if scheduling.Some? {
        return Some(Service(scheduling.value));
      }
      var product: Option<Product> := None;
      if p.productId.Some? {
        if p.productId.value !in catalog.products {
          return Some(Service(NotFoundError("Product not found")));
        }
        product := Some(catalog.products[p.productId.value]);
      }
      var channelId := CreateChannel(catalog, p.channelId, p.status);
      if channelId.Err? {
        return Some(Service(channelId.error));
      }
      var imageUrl := if Truthy(p.imageUrl) then p.imageUrl else None;
      if imageUrl.None? && product.Some? {
        imageUrl := Some(product.value.imageUrl);
      }
      var buttonUrl := AffiliateCtaUrl(p.buttonUrl, if product.Some? then product.value.affiliateUrl else None);
      var buttonText := p.buttonText;
      if buttonUrl.Some? && !Truthy(buttonText) {
        buttonText := Some(DEFAULT_BUTTON_TEXT);
      }
      if buttonUrl.None? {
        buttonText := None;
      }
      var item := Item(p.content, p.status, p.scheduledAt, None, channelId.value, p.productId,
                       imageUrl, buttonText, buttonUrl, None);
      if p.status == Published {
        item := item.(publishedAt := Some(now));
      }
      items := items[q := item];
      return None;
    }

    /**
     * `QueueService.update`: the checks, the assignment of the given fields, the status effects, and
     * the flush of the changed columns. `read` is what `get` returned before; others may have written since.
     */
    method Update(q: nat, read: Option<Item>, p: UpdatePayload, now: int) returns (error: Option<ApiError>)
      requires read.Some? ==> q in items
      modifies this`items
      ensures ApiStep(Tables(), error) == UpdateItem(old(Tables()), now, q, read, p)
    {
      if !UpdateAccepted(p) {
        return Some(SchemaRejected);
      }
      if read.None? {
        return Some(Service(ITEM_NOT_FOUND));
      }
      var item := read.value;
      error := UpdateError(catalog, item, p);
      if error.Some? {
        return;
      }
      item := item.(content := Merge(p.content, Some(item.content)).value);
      item := item.(status := Merge(p.status, Some(item.status)).value);
      item := item.(scheduledAt := Merge(p.scheduledAt, item.scheduledAt));
      item := item.(channelId := Merge(p.channelId, item.channelId));
      item := item.(productId := Merge(p.productId, item.productId));
      item := item.(imageUrl := Merge(p.imageUrl, item.imageUrl));
      item := item.(buttonText := Merge(p.buttonText, item.buttonText));
      item := item.(buttonUrl := Merge(p.buttonUrl, item.buttonUrl));
      if p.status.Given? {
        if item.status != Scheduled && p.scheduledAt.Unset? {
          item := item.(scheduledAt := None);
        }
        if item.status == Published {
          item := item.(publishedAt := Some(now));
        } else {
          item := item.(publishedAt := None, telegramMessageId := None);
        }
      }
      items := items[q := Flushed(read.value, item, items[q])];
    }

    /** `_claim_publish`: lock, guard, heal or insert a started attempt. */
    method ClaimPublish(q: nat, now: int) returns (r: ClaimResult)
      modifies this`items, this`attempts
      ensures ClaimStep(Tables(), r) == QueueModel.ClaimPublish(old(Tables()), now, q)
    {
      hide Canonical, Snapshot;
      if q !in items {
        return Rejected(ITEM_NOT_FOUND);
      }
      var item := items[q];
      var payload := Snapshot(catalog, item);
      var hash := Canonical(payload);
      var blocking := ActiveGuard(attempts, |attempts|, q, hash, now);
      if blocking.Some? {
        var row := attempts[blocking.value];
        if row.status == Succeeded {
          if item.status != Published {
            item := item.(status := Published);
            if item.publishedAt.None? {
              item := item.(publishedAt := Some(row.occurredAt));
            }
            item := item.(telegramMessageId := MessageIdOr(item.telegramMessageId, row.providerMessageId));
            items := items[q := item];
          }
          return Rejected(ALREADY_COMPLETED);
        }
        return Rejected(IN_PROGRESS);
      }
      var latest := LatestAttempt(attempts, |attempts|, q);
      var number := if latest.None? then 1 else attempts[latest.value].number + 1;
      var row := StartedRow(q, number, hash, now);
      attempts := attempts + [row];
      return Claimed(Claim(q, |attempts| - 1, number, item, ItemChannel(catalog, item), payload));
    }

    /** `_persist_attempt_outcome`: a targeted update of the outcome columns of one row. */
    method PersistAttemptOutcome(
        row: nat, status: AttemptStatus, chatId: Option<string>, messageId: Option<int>,
        code: Option<ErrorCode>, message: Option<ErrorText>)
      requires row < |attempts|
      modifies this`attempts
      ensures |attempts| == |old(attempts)|
      ensures forall i :: 0 <= i < |attempts| && i != row ==> attempts[i] == old(attempts)[i]
      ensures PublishProtocol.SameClaim(old(attempts)[row], attempts[row])
      ensures attempts[row].status == status
        && attempts[row].providerChatId == chatId && attempts[row].providerMessageId == messageId
        && attempts[row].errorCode == code && attempts[row].errorMessage == message
    {
      attempts := attempts[row := attempts[row].(
        status := status, providerChatId := chatId, providerMessageId := messageId,
        errorCode := code, errorMessage := message)];
    }

    /** `_mark_attempt_failed`. */
    method MarkAttemptFailed(claim: Claim, e: ServiceError, terminal: bool)
      requires claim.row < |attempts|
      modifies this`attempts
      ensures Tables() == SettleFailed(old(Tables()), claim, e, terminal)
    {
      var code, prefix := ErrorCodeFor(e), None;
      if terminal {
        prefix := Some(code);
        code := DeadLetter;
      }
      PersistAttemptOutcome(claim.row, FailedAttempt, None, None, Some(code), Some(ErrorText(prefix, e.message)));
    }

    /** `_mark_item_failed`. */
    method MarkItemFailed(claim: Claim)
      requires claim.queueId in items
      modifies this`items
      ensures Tables() == QueueModel.MarkItemFailed(old(Tables()), claim)
    {
      if claim.item.status == FailedItem {
        return;
      }
      items := items[claim.queueId := items[claim.queueId].(status := FailedItem)];
    }

    /** The success path: attempt outcome, then the three item fields, then one commit. */
    method MarkPublished(claim: Claim, receipt: Receipt, now: int)
      requires claim.row < |attempts| && claim.queueId in items
      modifies this`items, this`attempts
      ensures Tables() == SettleSucceeded(old(Tables()), claim, receipt, now)
    {
      PersistAttemptOutcome(claim.row, Succeeded, Some(receipt.chatId), Some(receipt.messageId), None, None);
      var item := claim.item;
      item := item.(status := Published);
      item := item.(publishedAt := Some(now));
      item := item.(telegramMessageId := Some(receipt.messageId));
      items := items[claim.queueId := Flushed(claim.item, item, items[claim.queueId])];
    }

    /** The rest of `publish_queue_item` once its try block has ended with `result`. */
    method Conclude(claim: Claim, result: Outcome, finishTime: int, final: bool) returns (r: PublishResult)
      requires claim.row < |attempts| && claim.queueId in items
      modifies this`items, this`attempts
      ensures Execution(Tables(), r) == PublishTask.Conclude(old(Tables()), claim, result, finishTime, final)
    {
      hide Terminal;
      match result {
        case Delivered(receipt) =>
          MarkPublished(claim, receipt, finishTime);
          return Returned(receipt);
        case Failed(error) =>
          var terminal := Terminal(error, final);
          MarkAttemptFailed(claim, error, terminal);
          if terminal {
            MarkItemFailed(claim);
          }
          return Raised(error);
      }
    }

    /**
     * `publish_queue_item` from its claim on, in whatever tables it then finds: it checks and publishes the
     * values read at the claim, and writes the rows as they are by now.
     */
    method FinishPublish(claim: Claim, finishTime: int, final: bool, outcome: Outcome) returns (r: PublishResult)
      requires claim.row < |attempts| && claim.queueId in items
      modifies this`items, this`attempts
      ensures Execution(Tables(), r) == PublishTask.Conclude(old(Tables()), claim, SendResult(claim, outcome), finishTime, final)
    {
      hide PreflightError, PublishTask.Conclude;
      var preflight := PreflightError(claim.item, claim.channel);
      r := Conclude(claim, if preflight.Some? then Failed(preflight.value) else outcome, finishTime, final);
    }

    /** `publish_queue_item` with no other writer; `outcome` is what the publisher answers if asked. */
    method PublishQueueItem(q: nat, claimTime: int, finishTime: int, final: bool, outcome: Outcome)
      returns (r: PublishResult)
      modifies this`items, this`attempts
      ensures Execution(Tables(), r) == Execute(old(Tables()), claimTime, finishTime, q, final, outcome)
    {
      hide QueueModel.ClaimPublish, PreflightError, PublishTask.Conclude;
      ClaimOwnsRow(Tables(), claimTime, q);
      var claimed := ClaimPublish(q, claimTime);
      if claimed.Rejected? {
        return Raised(claimed.error);
      }
      r := FinishPublish(claimed.claim, finishTime, final, outcome);
    }

    /** `publish_queue_item_task`: Celery re-runs the execution on a `TelegramPublishError`. */
    method PublishQueueItemTask(q: nat, tries: seq<Try>) returns (executions: nat, r: PublishResult)
      requires |tries| == MAX_EXECUTIONS
      modifies this`items, this`attempts
      ensures TaskRun(Tables(), executions, r) == TaskFrom(old(Tables()), q, tries, 0)
    {
      hide Execute;
      var retries := 0;
      while true
        invariant 0 <= retries < MAX_EXECUTIONS && catalog == old(catalog)
        invariant TaskFrom(Tables(), q, tries, retries) == TaskFrom(old(Tables()), q, tries, 0)
        decreases MAX_EXECUTIONS - retries
      {
        var t := tries[retries];
        r := PublishQueueItem(q, t.claimTime, t.finishTime, IsFinal(retries), t.outcome);
        if !Retried(r, retries) {
          return retries + 1, r;
        }
        retries := retries + 1;
      }
    }

    /** A publish through a real `TelegramPublisher`: it is contacted only after every check has passed. */
    method PublishThrough(
        publisher: TelegramPublisher, q: nat, claimTime: int, finishTime: int, final: bool)
      returns (r: PublishResult)
      modifies this`items, this`attempts, publisher
      ensures var d := Contact(old(Tables()), old(publisher.WireState()), Bot(publisher.configured, publisher.replies), claimTime, q);
        && publisher.WireState() == d.wire
        && Execution(Tables(), r) == Execute(old(Tables()), claimTime, finishTime, q, final, d.outcome)
    {
      hide QueueModel.ClaimPublish, PreflightError, PublishTask.Conclude, SendFrom, Plan;
      ClaimOwnsRow(Tables(), claimTime, q);
      var claimed := ClaimPublish(q, claimTime);
      if claimed.Rejected? {
        return Raised(claimed.error);
      }
      var claim := claimed.claim;
      var preflight := PreflightError(claim.item, claim.channel);
      if preflight.Some? {
        r := Conclude(claim, Failed(preflight.value), finishTime, final);
        return;
      }
      var p := claim.payload;
      var sent := publisher.Publish(p.text, p.imageUrl, p.button, p.parseMode);
      r := Conclude(claim, sent, finishTime, final);
    }

    /** `publish_queue_item_task` through a `TelegramPublisher`. */
    method PublishTaskThrough(publisher: TelegramPublisher, q: nat, slots: seq<Slot>)
      returns (executions: nat, r: PublishResult)
      requires |slots| == MAX_EXECUTIONS
      modifies this`items, this`attempts, publisher
      ensures WireTask(Tables(), publisher.WireState(), executions, r)
           == TaskOnWire(old(Tables()), old(publisher.WireState()), Bot(publisher.configured, publisher.replies), q, slots, 0)
    {
      hide Execute, Contact;
      ghost var bot := Bot(publisher.configured, publisher.replies);
      var retries := 0;
      while true
        invariant 0 <= retries < MAX_EXECUTIONS && catalog == old(catalog)
        invariant TaskOnWire(Tables(), publisher.WireState(), bot, q, slots, retries)
               == TaskOnWire(old(Tables()), old(publisher.WireState()), bot, q, slots, 0)
        decreases MAX_EXECUTIONS - retries
      {
        var t := slots[retries];
        r := PublishThrough(publisher, q, t.claimTime, t.finishTime, IsFinal(retries));
        if !Retried(r, retries) {
          return retries + 1, r;
        }
        retries := retries + 1;
      }
    }
  }
}
