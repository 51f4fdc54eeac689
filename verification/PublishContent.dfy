/**
 * What a publish sends and records, told from the columns of the item, its product and its channel rather
 * than from the snapshot in between.
 */
module PublishContent {
  import opened Common
  import opened ServiceErrors
  import opened TelegramText
  import opened TelegramPublishing
  import opened ContentHash
  import opened QueueModel
  import opened PublishTask
  import opened PublishDelivery

  predicate NonEmpty(s: Option<string>) {
    s.Some? && |s.value| > 0
  }

  predicate HasProduct(c: Catalog, item: Item) {
    item.productId.Some? && item.productId.value in c.products
  }

  predicate HasChannel(c: Catalog, item: Item) {
    item.channelId.Some? && item.channelId.value in c.channels
  }

  // ---- The messages ----

  /** The first message shows the item's own image, else its product's, else none; no other shows one. */
  predicate ShowsImage(c: Catalog, item: Item, plan: seq<Message>)
    requires |plan| >= 1
  {
    && (forall i :: 1 <= i < |plan| ==> plan[i].TextMessage?)
    && if NonEmpty(item.imageUrl) then plan[0].PhotoMessage? && plan[0].photoUrl == item.imageUrl.value
       else if HasProduct(c, item) && |c.products[item.productId.value].imageUrl| > 0 then
         plan[0].PhotoMessage? && plan[0].photoUrl == c.products[item.productId.value].imageUrl
       else plan[0].TextMessage?
  }

  /** The last message links to the item's own URL, else its product's; no other has a button. */
  predicate ShowsButton(c: Catalog, item: Item, plan: seq<Message>)
    requires |plan| >= 1
  {
    var caption := if NonEmpty(item.buttonText) then item.buttonText.value else "اشتري الآن";
    && (forall i :: 0 <= i < |plan| - 1 ==> plan[i].button.None?)
    && plan[|plan| - 1].button ==
       if NonEmpty(item.buttonUrl) then Some(Button(caption, item.buttonUrl.value))
       else if HasProduct(c, item) && NonEmpty(c.products[item.productId.value].affiliateUrl) then
         Some(Button(caption, c.products[item.productId.value].affiliateUrl.value))
       else None
  }

  /** The messages carry all of the item's text but newlines, in order, its image and its button, as plain text. */
  ghost predicate Carries(c: Catalog, item: Item, plan: seq<Message>) {
    && |plan| >= 1
    && WovenFrom(item.content, Texts(plan))
    && ShowsImage(c, item, plan) && ShowsButton(c, item, plan)
    && forall i :: 0 <= i < |plan| ==> plan[i].parseMode.None?
  }

  lemma {:induction false} SnapshotCarries(c: Catalog, item: Item)
    ensures Carries(c, item, PayloadPlan(Snapshot(c, item)))
  {
    hide WovenFrom, Texts, Plan;
    var p := Snapshot(c, item);
    PlanFits(p.text, p.imageUrl, p.button, p.parseMode);
    PlanKeepsText(p.text, p.imageUrl, p.button, p.parseMode);
    PlanButtonOnLast(p.text, p.imageUrl, p.button, p.parseMode);
    PlanDetails(p.text, p.imageUrl, p.button, p.parseMode);
  }

  /** Every message keeps the parse mode, and the first one the image, without a caption if there is no text. */
  lemma PlanDetails(text: string, imageUrl: Option<string>, button: Option<Button>, parseMode: Option<string>)
    ensures var plan := Plan(text, imageUrl, button, parseMode);
      && (forall i :: 0 <= i < |plan| ==> plan[i].parseMode == parseMode)
      && (|plan| >= 1 && NonEmpty(imageUrl) ==> plan[0].PhotoMessage? && plan[0].photoUrl == imageUrl.value)
      && (NonEmpty(imageUrl) && |text| == 0 ==> |plan| == 1 && plan[0].caption.None?)
  {
    hide NextPiece, SplitRemaining;
  }

  /** What a claim hands to the publisher is the item as it stands: text, image, button and chat. */
  lemma {:induction false} ClaimCarriesItem(db: Db, now: int, q: nat)
    requires ClaimPublish(db, now, q).result.Claimed?
    ensures q in db.items
    ensures var item, p := db.items[q], ClaimPublish(db, now, q).result.claim.payload;
      && Carries(db.catalog, item, PayloadPlan(p))
      && p.chatId == (if HasChannel(db.catalog, item) then Some(db.catalog.channels[item.channelId.value].telegramChannelId) else None)
  {
    hide PayloadPlan, Carries, ActiveGuard, Canonical;
    ClaimOwnsRow(db, now, q);
    SnapshotCarries(db.catalog, db.items[q]);
  }

  /** One guard key never stands for two texts, two message plans or two chats. */
  lemma {:induction false} KeyFixesMessages(c: Catalog, a: Item, b: Item)
    requires SnapshotHash(c, a) == SnapshotHash(c, b)
    ensures a.content == b.content && Snapshot(c, a).chatId == Snapshot(c, b).chatId
    ensures PayloadPlan(Snapshot(c, a)) == PayloadPlan(Snapshot(c, b))
  {
    hide Canonical, PayloadPlan;
    CanonicalInjective(Snapshot(c, a), Snapshot(c, b));
  }

  /** A publish that succeeds has had all of the item acknowledged, and nothing else. */
  lemma {:induction false} DeliveredIsContent(db: Db, w: Wire, bot: Bot, claimTime: int, q: nat) returns (sent: seq<Message>)
    requires Contact(db, w, bot, claimTime, q).outcome.Delivered?
    ensures q in db.items && Contact(db, w, bot, claimTime, q).wire.accepted == w.accepted + sent
    ensures Carries(db.catalog, db.items[q], sent)
  {
    hide PayloadPlan, Carries, SendFrom, ClaimPublish, PreflightError;
    ClaimCarriesItem(db, claimTime, q);
    sent := PayloadPlan(ClaimPublish(db, claimTime, q).result.claim.payload);
    var k := PublishAcknowledges(bot.replies, w, sent);
    assert sent[..|sent|] == sent;
  }

  /** So has a task that returns: the last messages acknowledged are the whole item. */
  lemma {:induction false} TaskDeliversContent(db: Db, w: Wire, bot: Bot, q: nat, slots: seq<Slot>) returns (sent: seq<Message>)
    requires |slots| == 4 && SlotsInOrder(slots)
    requires q in db.items && NoGuard(db, q, slots[0].claimTime) && Contacted(db, bot, q)
    requires TaskOnWire(db, w, bot, q, slots, 0).result.Returned?
    ensures var accepted := TaskOnWire(db, w, bot, q, slots, 0).wire.accepted;
      |w.accepted| + |sent| <= |accepted| && accepted[|accepted| - |sent|..] == sent
    ensures Carries(db.catalog, db.items[q], sent)
  {
    hide TaskOnWire, NoGuard, Contacted, Prefixes, Carries, PayloadPlan, Snapshot;
    var all := TaskAcknowledges(db, w, bot, q, slots, 0);
    sent := ItemPlan(db, q);
    SnapshotCarries(db.catalog, db.items[q]);
  }

  // ---- The checks ----

  /** Telegram is contacted exactly for an item that is not PUBLISHED and whose channel is open to the bot. */
  lemma {:induction false} ChecksPassIff(c: Catalog, item: Item)
    ensures PreflightError(item, ItemChannel(c, item)).None? <==>
      item.status != Published && HasChannel(c, item) &&
      var channel := c.channels[item.channelId.value];
      channel.isActive && channel.canPost && (channel.permission == Granted || channel.permission == Partial)
  {
  }

  /** Why an execution stopped before Telegram. */
  function BlockedBy(c: Catalog, item: Item): ErrorCode {
    if item.status == Published then ConflictCode
    else if HasChannel(c, item) && c.channels[item.channelId.value].isActive then ForbiddenCode
    else ValidationCode
  }

  lemma BlockingError(c: Catalog, item: Item)
    ensures var error := PreflightError(item, ItemChannel(c, item));
      error.Some? ==> !error.value.TelegramPublishError? && ErrorCodeFor(error.value) == BlockedBy(c, item)
  {
  }

  /** An item that fails a check is not posted; it ends FAILED with a dead letter that names the check. */
  lemma {:induction false} BlockedExecution(db: Db, w: Wire, bot: Bot, t: Try, q: nat, final: bool)
    requires q in db.items && NoGuard(db, q, t.claimTime) && PreflightError(db.items[q], ItemChannel(db.catalog, db.items[q])).Some?
    ensures Contact(db, w, bot, t.claimTime, q).wire == w
    ensures var e, n := Execute(db, t.claimTime, t.finishTime, q, final, t.outcome), |db.attempts|;
      && e.db.items == db.items[q := db.items[q].(status := FailedItem)]
      && |e.db.attempts| == n + 1 && e.db.attempts[n].errorCode == Some(DeadLetter)
      && e.db.attempts[n].errorMessage.Some?
      && e.db.attempts[n].errorMessage.value.prefix == Some(BlockedBy(db.catalog, db.items[q]))
  {
    hide ClaimPublish, Snapshot, Canonical, Guards, PreflightError;
    ClaimOwnsRow(db, t.claimTime, q);
    NoGuardClaims(db, q, t.claimTime);
    BlockingError(db.catalog, db.items[q]);
  }

  // ---- What is recorded ----

  /** The code recorded for a failure at Telegram: the rate limit, else Telegram's own code, else the transport. */
  predicate CodeTells(e: ServiceError, code: ErrorCode) {
    match e
    case TelegramPublishError(_, http, telegram) =>
      if http == Some(429) || telegram == Some(429) then code == TelegramCode(429)
      else if telegram.Some? then code == TelegramCode(telegram.value)
      else code == TransportCode
    case _ => !code.TelegramCode? && !code.TransportCode?
  }

  /** An error Celery does not retry, or a client error other than a rate limit, at whatever execution. */
  predicate Hopeless(e: ServiceError) {
    !e.TelegramPublishError?
    || (e.httpStatus != Some(429) && e.errorCode != Some(429)
        && ((e.httpStatus.Some? && 400 <= e.httpStatus.value <= 499) || (e.errorCode.Some? && 400 <= e.errorCode.value <= 499)))
  }

  /**
   * A failure at Telegram leaves the item as it was and the attempt plainly failed, unless the execution is
   * the last or the error hopeless: exactly then the attempt is a dead letter and the item FAILED.
   */
  lemma {:induction false} FailureIsDeadLetterIff(db: Db, t: Try, q: nat, final: bool)
    requires q in db.items && NoGuard(db, q, t.claimTime) && PreflightError(db.items[q], ItemChannel(db.catalog, db.items[q])).None?
    requires t.outcome.Failed?
    ensures var e, n, x := Execute(db, t.claimTime, t.finishTime, q, final, t.outcome), |db.attempts|, t.outcome.error;
      && |e.db.attempts| == n + 1 && e.result == Raised(x)
      && var row := e.db.attempts[n];
         && row.status == FailedAttempt && row.errorCode.Some? && row.errorMessage.Some? && row.errorMessage.value.message == x.message
         && if final || Hopeless(x) then
              && row.errorCode.value == DeadLetter && e.db.items == db.items[q := db.items[q].(status := FailedItem)]
              && row.errorMessage.value.prefix.Some? && CodeTells(x, row.errorMessage.value.prefix.value)
            else
              && row.errorCode.value != DeadLetter && e.db.items == db.items
              && row.errorMessage.value.prefix.None? && CodeTells(x, row.errorCode.value)
  {
    hide ClaimPublish, Snapshot, Canonical, Guards, PreflightError;
    ClaimOwnsRow(db, t.claimTime, q);
    NoGuardClaims(db, q, t.claimTime);
  }

  /**
   * A success publishes the item at the time of the finish under Telegram's message id, and leaves one
   * succeeded row that guards the content claimed for 24 hours.
   */
  lemma {:induction false} SuccessIsRecorded(db: Db, t: Try, q: nat, final: bool)
    requires q in db.items && NoGuard(db, q, t.claimTime) && PreflightError(db.items[q], ItemChannel(db.catalog, db.items[q])).None?
    requires t.outcome.Delivered?
    ensures var e, n := Execute(db, t.claimTime, t.finishTime, q, final, t.outcome), |db.attempts|;
      var receipt, hash := t.outcome.receipt, SnapshotHash(db.catalog, db.items[q]);
      && e.result == Returned(receipt)
      && e.db.items == db.items[q := db.items[q].(status := Published, publishedAt := Some(t.finishTime), telegramMessageId := Some(receipt.messageId))]
      && |e.db.attempts| == n + 1
      && var row := e.db.attempts[n];
         && row == Attempt(q, row.number, Succeeded, hash, t.claimTime + 24 * 60 * 60, t.claimTime, None, None, Some(receipt.chatId), Some(receipt.messageId))
         && forall now: int :: t.claimTime <= now ==> (Guards(row, q, hash, now) <==> now < t.claimTime + 24 * 60 * 60)
  {
    hide ClaimPublish, Snapshot, Canonical, PreflightError;
    ClaimOwnsRow(db, t.claimTime, q);
    NoGuardClaims(db, q, t.claimTime);
  }

  /**
   * A claim that a live attempt blocks says whether that attempt is under way or done. If it is done and the
   * item was left behind, the item becomes PUBLISHED with the attempt's time and message id where it has none.
   */
  lemma {:induction false} BlockedClaim(db: Db, now: int, q: nat, g: nat)
    requires q in db.items && g < |db.attempts|
    requires ActiveGuard(db.attempts, |db.attempts|, q, SnapshotHash(db.catalog, db.items[q]), now) == Some(g)
    ensures var step, item, row := ClaimPublish(db, now, q), db.items[q], db.attempts[g];
      && step.result.Rejected? && step.result.error.ConflictError?
      && (row.status == Started ==> step.db == db && step.result.error == IN_PROGRESS)
      && (row.status == Succeeded ==> step.result.error == ALREADY_COMPLETED)
      && (row.status == Succeeded && item.status == Published ==> step.db == db)
      && (row.status == Succeeded && item.status != Published ==>
            step.db == db.(items := db.items[q := item.(
              status := Published,
              publishedAt := if item.publishedAt.Some? then item.publishedAt else Some(row.occurredAt),
              telegramMessageId := if item.telegramMessageId.Some? && item.telegramMessageId.value != 0 then item.telegramMessageId
                                   else row.providerMessageId)]))
  {
    hide ActiveGuard, SnapshotHash;
  }
}
