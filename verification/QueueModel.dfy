/**
 * The queue tables and what each committed transaction of app/services/queue.py does to them.
 * A claim reads and writes under the row lock. An edit and a finish write a row they read earlier,
 * without a lock, and the session writes only the columns whose values differ from what it read.
 */
module QueueModel {
  import opened Common
  import opened ServiceErrors
  import opened TelegramPublishing
  import opened ContentHash

  /** 24 hours, in seconds. */
  const IDEMPOTENCY_WINDOW := 86400
  const DEFAULT_BUTTON_TEXT := "اشتري الآن"

  datatype QueueStatus = Draft | Queued | Scheduled | Published | FailedItem

  /** A datetime; `zoned` says whether it carries a timezone. */
  datatype When = When(at: int, zoned: bool)

  datatype Item = Item(
    content: string, status: QueueStatus, scheduledAt: Option<When>, publishedAt: Option<int>,
    channelId: Option<nat>, productId: Option<nat>,
    imageUrl: Option<string>, buttonText: Option<string>, buttonUrl: Option<string>,
    telegramMessageId: Option<int>)

  datatype AttemptStatus = Started | Succeeded | FailedAttempt

  datatype ErrorCode =
    | DeadLetter | ValidationCode | ForbiddenCode | ConflictCode
    | TelegramCode(code: int) | TransportCode | ServiceCode | UnexpectedCode

  /** An error message; a dead letter is prefixed with the underlying code. */
  datatype ErrorText = ErrorText(prefix: Option<ErrorCode>, message: string)

  datatype Attempt = Attempt(
    queueId: nat, number: nat, status: AttemptStatus, contentHash: string,
    expiresAt: int, occurredAt: int,
    errorCode: Option<ErrorCode>, errorMessage: Option<ErrorText>,
    providerChatId: Option<string>, providerMessageId: Option<int>)

  datatype Permission = UnknownPermission | Pending | Granted | Partial | Denied

  datatype Channel = Channel(telegramChannelId: string, isActive: bool, permission: Permission, canPost: bool)

  datatype Product = Product(imageUrl: string, affiliateUrl: Option<string>)

  /** The catalog a publish reads through relations: channels, products and the workspace default. */
  datatype Catalog = Catalog(channels: map<nat, Channel>, products: map<nat, Product>, defaultChannel: Option<nat>)

  /** Attempt rows are kept in insertion order and never deleted. */
  datatype Db = Db(items: map<nat, Item>, attempts: seq<Attempt>, catalog: Catalog)

  // ---- Queries over the attempt rows ----

  /** `latest_attempt` among the first `n` rows: the highest attempt number. */
  function LatestAttempt(rows: seq<Attempt>, n: nat, q: nat): (r: Option<nat>)
    requires n <= |rows|
    ensures r.Some? ==> r.value < n && rows[r.value].queueId == q
  {
    if n == 0 then None
    else
      var earlier := LatestAttempt(rows, n - 1, q);
      if rows[n - 1].queueId == q && (earlier.None? || rows[n - 1].number >= rows[earlier.value].number)
      then Some(n - 1) else earlier
  }

  predicate Live(row: Attempt) {
    row.status == Started || row.status == Succeeded
  }

  predicate Guards(row: Attempt, q: nat, hash: string, now: int) {
    row.queueId == q && row.contentHash == hash && Live(row) && row.expiresAt > now
  }

  /** `active_guard_lookup` among the first `n` rows. */
  function ActiveGuard(rows: seq<Attempt>, n: nat, q: nat, hash: string, now: int): (r: Option<nat>)
    requires n <= |rows|
    ensures r.Some? ==> r.value < n && Guards(rows[r.value], q, hash, now)
    ensures r.None? ==> forall i :: 0 <= i < n ==> !Guards(rows[i], q, hash, now)
  {
    if n == 0 then None
    else
      var earlier := ActiveGuard(rows, n - 1, q, hash, now);
      if Guards(rows[n - 1], q, hash, now) && (earlier.None? || rows[n - 1].number >= rows[earlier.value].number)
      then Some(n - 1) else earlier
  }

  // ---- The publish snapshot ----

  function ItemChannel(c: Catalog, item: Item): Option<Channel> {
    if item.channelId.Some? && item.channelId.value in c.channels then Some(c.channels[item.channelId.value]) else None
  }

  function ItemProduct(c: Catalog, item: Item): Option<Product> {
    if item.productId.Some? && item.productId.value in c.products then Some(c.products[item.productId.value]) else None
  }

  /** `resolve_affiliate_cta_url`. */
  function AffiliateCtaUrl(buttonUrl: Option<string>, affiliateUrl: Option<string>): Option<string> {
    if Truthy(buttonUrl) then buttonUrl else if Truthy(affiliateUrl) then affiliateUrl else None
  }

  function ResolveImageUrl(item: Item, product: Option<Product>): Option<string> {
    if Truthy(item.imageUrl) then item.imageUrl
    else if product.Some? then Some(product.value.imageUrl)
    else None
  }

  function ResolveButton(item: Item, product: Option<Product>): Option<Button> {
    var url := AffiliateCtaUrl(item.buttonUrl, if product.Some? then product.value.affiliateUrl else None);
    if url.None? then None
    else Some(Button(if Truthy(item.buttonText) then item.buttonText.value else DEFAULT_BUTTON_TEXT, url.value))
  }

  /** `_build_publish_snapshot`, without the hash. */
  function Snapshot(c: Catalog, item: Item): Payload {
    var channel := ItemChannel(c, item);
    var imageUrl := ResolveImageUrl(item, ItemProduct(c, item));
    Payload(
      if channel.Some? then Some(channel.value.telegramChannelId) else None,
      item.content, imageUrl, ResolveButton(item, ItemProduct(c, item)),
      if Truthy(imageUrl) then "photo" else "text", None)
  }

  function SnapshotHash(c: Catalog, item: Item): string {
    Canonical(Snapshot(c, item))
  }

  // ---- Claim ----

  /** What a worker holds after the claim commit: the row it owns and the values read under the lock. */
  datatype Claim = Claim(queueId: nat, row: nat, number: nat, item: Item, channel: Option<Channel>, payload: Payload)

  datatype ClaimResult = Claimed(claim: Claim) | Rejected(error: ServiceError)

  datatype ClaimStep = ClaimStep(db: Db, result: ClaimResult)

  const ALREADY_COMPLETED := ConflictError("Publish already completed for this content")
  const IN_PROGRESS := ConflictError("Publish already in progress for this content")
  const ALREADY_PUBLISHED := ConflictError("Queue item is already published")
  const ITEM_NOT_FOUND := NotFoundError("Queue item not found")

  /** A message id of 0 is falsy, so `or` skips it. */
  function MessageIdOr(first: Option<int>, second: Option<int>): Option<int> {
    if first.Some? && first.value != 0 then first else second
  }

  /** The drift heal: an accepted message whose item never reached published. */
  function Healed(item: Item, guard: Attempt): Item {
    item.(
      status := Published,
      publishedAt := if item.publishedAt.Some? then item.publishedAt else Some(guard.occurredAt),
      telegramMessageId := MessageIdOr(item.telegramMessageId, guard.providerMessageId))
  }

  function NextNumber(rows: seq<Attempt>, q: nat): nat {
    var latest := LatestAttempt(rows, |rows|, q);
    if latest.None? then 1 else rows[latest.value].number + 1
  }

  function StartedRow(q: nat, number: nat, hash: string, now: int): Attempt {
    Attempt(q, number, Started, hash, now + IDEMPOTENCY_WINDOW, now, None, None, None, None)
  }

  /** `_claim_publish`. */
  function ClaimPublish(db: Db, now: int, q: nat): ClaimStep {
    if q !in db.items then ClaimStep(db, Rejected(ITEM_NOT_FOUND))
    else
      var item := db.items[q];
      var hash := SnapshotHash(db.catalog, item);
      var guard := ActiveGuard(db.attempts, |db.attempts|, q, hash, now);
      if guard.Some? then
        var row := db.attempts[guard.value];
        if row.status != Succeeded then ClaimStep(db, Rejected(IN_PROGRESS))
        else
          var items := if item.status == Published then db.items else db.items[q := Healed(item, row)];
          ClaimStep(db.(items := items), Rejected(ALREADY_COMPLETED))
      else
        var number := NextNumber(db.attempts, q);
        ClaimStep(
          db.(attempts := db.attempts + [StartedRow(q, number, hash, now)]),
          Claimed(Claim(q, |db.attempts|, number, item, ItemChannel(db.catalog, item), Snapshot(db.catalog, item))))
  }

  // ---- Checks between the claim and the send ----

  function ChannelError(channel: Channel): Option<ServiceError> {
    if !channel.isActive then Some(ValidationError("Telegram channel is inactive"))
    else if channel.permission != Granted && channel.permission != Partial then
      Some(ForbiddenError("Bot does not have permission to publish to this channel"))
    else if !channel.canPost then Some(ForbiddenError("Bot cannot post messages to this channel"))
    else None
  }

  /** The errors raised before Telegram is contacted, on the values read at the claim. */
  function PreflightError(item: Item, channel: Option<Channel>): Option<ServiceError> {
    if item.status == Published then Some(ALREADY_PUBLISHED)
    else if channel.None? then
      Some(ValidationError("Queue item must have a channel assigned before publishing"))
    else ChannelError(channel.value)
  }

  /** What the try block ends with, given what the publisher would answer. */
  function SendResult(claim: Claim, outcome: Outcome): Outcome {
    var error := PreflightError(claim.item, claim.channel);
    if error.Some? then Failed(error.value) else outcome
  }

  // ---- Outcome ----

  /** `_error_code_for`. */
  function ErrorCodeFor(e: ServiceError): (code: ErrorCode)
    ensures code != DeadLetter
  {
    match e
    case ValidationError(_) => ValidationCode
    case ForbiddenError(_) => ForbiddenCode
    case ConflictError(_) => ConflictCode
    case TelegramPublishError(_, http, code) =>
      if http == Some(429) || code == Some(429) then TelegramCode(429)
      else if code.Some? then TelegramCode(code.value)
      else TransportCode
    case NotFoundError(_) => ServiceCode
    case UnexpectedError(_) => UnexpectedCode
  }

  /** Whether a failure is recorded as a dead letter. */
  predicate Terminal(e: ServiceError, final: bool) {
    final || !e.TelegramPublishError? || NonRetryable(e)
  }

  function Column<T(==)>(read: T, wanted: T, current: T): T {
    if wanted == read then current else wanted
  }

  /** The session's UPDATE of a row it read as `read` and changed to `wanted`: unchanged columns stay out. */
  function Flushed(read: Item, wanted: Item, current: Item): Item {
    Item(
      Column(read.content, wanted.content, current.content),
      Column(read.status, wanted.status, current.status),
      Column(read.scheduledAt, wanted.scheduledAt, current.scheduledAt),
      Column(read.publishedAt, wanted.publishedAt, current.publishedAt),
      Column(read.channelId, wanted.channelId, current.channelId),
      Column(read.productId, wanted.productId, current.productId),
      Column(read.imageUrl, wanted.imageUrl, current.imageUrl),
      Column(read.buttonText, wanted.buttonText, current.buttonText),
      Column(read.buttonUrl, wanted.buttonUrl, current.buttonUrl),
      Column(read.telegramMessageId, wanted.telegramMessageId, current.telegramMessageId))
  }

  /** The fields a successful publish assigns on the item it read at the claim. */
  function PublishedItem(item: Item, receipt: Receipt, now: int): Item {
    item.(status := Published, publishedAt := Some(now), telegramMessageId := Some(receipt.messageId))
  }

  /** `_mark_attempt_succeeded` and the item update, one commit. */
  function SettleSucceeded(db: Db, claim: Claim, receipt: Receipt, now: int): Db
    requires claim.row < |db.attempts| && claim.queueId in db.items
  {
    var row := db.attempts[claim.row].(
      status := Succeeded, providerChatId := Some(receipt.chatId), providerMessageId := Some(receipt.messageId),
      errorCode := None, errorMessage := None);
    var item := Flushed(claim.item, PublishedItem(claim.item, receipt, now), db.items[claim.queueId]);
    db.(attempts := db.attempts[claim.row := row], items := db.items[claim.queueId := item])
  }

  /** `_mark_attempt_failed`, one commit. */
  function SettleFailed(db: Db, claim: Claim, e: ServiceError, terminal: bool): Db
    requires claim.row < |db.attempts|
  {
    var code := ErrorCodeFor(e);
    var row := db.attempts[claim.row].(
      status := FailedAttempt,
      errorCode := Some(if terminal then DeadLetter else code),
      errorMessage := Some(ErrorText(if terminal then Some(code) else None, e.message)),
      providerChatId := None, providerMessageId := None);
    db.(attempts := db.attempts[claim.row := row])
  }

  /** `_mark_item_failed`: it looks at the status read at the claim, then writes the current row. */
  function MarkItemFailed(db: Db, claim: Claim): Db
    requires claim.queueId in db.items
  {
    if claim.item.status == FailedItem then db
    else db.(items := db.items[claim.queueId := db.items[claim.queueId].(status := FailedItem)])
  }

  // ---- Create and update ----

  datatype ApiError = SchemaRejected | IntegrityViolation | Service(error: ServiceError)

  datatype CreatePayload = CreatePayload(
    content: string, status: QueueStatus, scheduledAt: Option<When>,
    channelId: Option<nat>, productId: Option<nat>,
    imageUrl: Option<string>, buttonText: Option<string>, buttonUrl: Option<string>)

  /** A field of a partial update: absent, or given, possibly as an explicit null. */
  datatype Field<T> = Unset | Given(value: Option<T>)

  datatype UpdatePayload = UpdatePayload(
    content: Field<string>, status: Field<QueueStatus>, scheduledAt: Field<When>,
    channelId: Field<nat>, productId: Field<nat>,
    imageUrl: Field<string>, buttonText: Field<string>, buttonUrl: Field<string>)

  function Merge<T>(f: Field<T>, current: Option<T>): Option<T> {
    if f.Given? then f.value else current
  }

  function Value<T>(f: Field<T>): Option<T> {
    if f.Given? then f.value else None
  }

  predicate Publishable(status: QueueStatus) {
    status == Queued || status == Scheduled || status == Published
  }

  /** `_validate_status_scheduling`. */
  function SchedulingError(status: QueueStatus, scheduledAt: Option<When>): Option<ServiceError> {
    if status == FailedItem then Some(ValidationError("failed status can only be set by the publisher"))
    else if status == Scheduled && scheduledAt.None? then
      Some(ValidationError("scheduled_at is required when status is scheduled"))
    else if status == Scheduled && !scheduledAt.value.zoned then
      Some(ValidationError("scheduled_at must include timezone information"))
    else None
  }

  /** `QueueCreate.validate_scheduling` and `validate_button`; None when the schema rejects. */
  function CheckedCreate(p: CreatePayload): Option<CreatePayload> {
    if |p.content| == 0 || p.status == FailedItem || (p.status == Scheduled && p.scheduledAt.None?)
      || Truthy(p.buttonText) != Truthy(p.buttonUrl) then None
    else Some(if p.status != Scheduled then p.(scheduledAt := None) else p)
  }

  /** `_resolve_create_channel_id`. */
  function CreateChannel(c: Catalog, requested: Option<nat>, status: QueueStatus): Result<Option<nat>, ServiceError> {
    if requested.Some? then
      if requested.value !in c.channels then Err(NotFoundError("Channel not found"))
      else if Publishable(status) && !c.channels[requested.value].isActive then
        Err(ValidationError("Telegram channel is inactive"))
      else Ok(requested)
    else if c.defaultChannel.None? then
      if Publishable(status) then Err(ValidationError("Queue item must have a Telegram channel assigned"))
      else Ok(None)
    else if c.defaultChannel.value !in c.channels then
      Err(ValidationError("Workspace default Telegram channel is invalid"))
    else if !c.channels[c.defaultChannel.value].isActive then
      Err(ValidationError("Workspace default Telegram channel is inactive"))
    else Ok(c.defaultChannel)
  }

  /** `QueueService.create` behind the schema. */
  function CreatedItem(c: Catalog, payload: CreatePayload, now: int): Result<Item, ApiError> {
    var checked := CheckedCreate(payload);
    if checked.None? then Err(SchemaRejected)
    else
      var p := checked.value;
      var scheduling := SchedulingError(p.status, p.scheduledAt);
      if scheduling.Some? then Err(Service(scheduling.value))
      else if p.productId.Some? && p.productId.value !in c.products then Err(Service(NotFoundError("Product not found")))
      else
        var channel := CreateChannel(c, p.channelId, p.status);
        if channel.Err? then Err(Service(channel.error))
        else
          var product := if p.productId.Some? then Some(c.products[p.productId.value]) else None;
          var imageUrl := if Truthy(p.imageUrl) then p.imageUrl
                          else if product.Some? then Some(product.value.imageUrl) else None;
          var buttonUrl := AffiliateCtaUrl(p.buttonUrl, if product.Some? then product.value.affiliateUrl else None);
          var buttonText := if buttonUrl.None? then None
                            else if Truthy(p.buttonText) then p.buttonText else Some(DEFAULT_BUTTON_TEXT);
          Ok(Item(p.content, p.status, p.scheduledAt, if p.status == Published then Some(now) else None,
                  channel.value, p.productId, imageUrl, buttonText, buttonUrl, None))
  }

  /** `QueueUpdate.validate_scheduling` and `validate_button`. */
  predicate UpdateAccepted(p: UpdatePayload) {
    && Value(p.content) != Some("")
    && Value(p.status) != Some(FailedItem)
    && (Value(p.status) == Some(Scheduled) ==> Value(p.scheduledAt).Some?)
    && (Value(p.buttonText).Some? || Value(p.buttonUrl).Some? ==>
          Truthy(Value(p.buttonText)) == Truthy(Value(p.buttonUrl)))
  }

  /** The error checks of `QueueService.update`, in order, then the NOT NULL columns. */
  function UpdateError(c: Catalog, item: Item, p: UpdatePayload): Option<ApiError> {
    var status := Merge(p.status, Some(item.status));
    var scheduledAt := Merge(p.scheduledAt, item.scheduledAt);
    if !UpdateAccepted(p) then Some(SchemaRejected)
    else if Value(p.channelId).Some? && Value(p.channelId).value !in c.channels then
      Some(Service(NotFoundError("Channel not found")))
    else if Value(p.productId).Some? && Value(p.productId).value !in c.products then
      Some(Service(NotFoundError("Product not found")))
    else if status == Some(Scheduled) && scheduledAt.None? then
      Some(Service(ValidationError("scheduled_at is required when status is scheduled")))
    else if status.Some? && status.value != FailedItem && SchedulingError(status.value, scheduledAt).Some? then
      Some(Service(SchedulingError(status.value, scheduledAt).value))
    else if NullsColumn(p) then Some(IntegrityViolation)
    else None
  }

  /** The payload sets a NOT NULL column to null. */
  predicate NullsColumn(p: UpdatePayload) {
    p.status == Given(None) || p.content == Given(None)
  }

  /** The object `QueueService.update` flushes when no check fails. */
  function UpdatedItem(item: Item, p: UpdatePayload, now: int): Item
    requires !NullsColumn(p)
  {
    var status := Merge(p.status, Some(item.status)).value;
    var statusGiven := p.status.Given?;
    Item(
      Merge(p.content, Some(item.content)).value,
      status,
      if statusGiven && status != Scheduled && p.scheduledAt.Unset? then None else Merge(p.scheduledAt, item.scheduledAt),
      if !statusGiven then item.publishedAt else if status == Published then Some(now) else None,
      Merge(p.channelId, item.channelId),
      Merge(p.productId, item.productId),
      Merge(p.imageUrl, item.imageUrl),
      Merge(p.buttonText, item.buttonText),
      Merge(p.buttonUrl, item.buttonUrl),
      if statusGiven && status != Published then None else item.telegramMessageId)
  }

  datatype ApiStep = ApiStep(db: Db, error: Option<ApiError>)

  /** `QueueService.create`, one transaction; `q` is the fresh id. */
  function CreateItem(db: Db, now: int, q: nat, p: CreatePayload): ApiStep {
    match CreatedItem(db.catalog, p, now)
    case Err(e) => ApiStep(db, Some(e))
    case Ok(item) => ApiStep(db.(items := db.items[q := item]), None)
  }

  /** The flush of an edit that read the row of `q` as `read`. */
  function FlushUpdate(db: Db, now: int, q: nat, read: Item, p: UpdatePayload): Db
    requires q in db.items && !NullsColumn(p)
  {
    db.(items := db.items[q := Flushed(read, UpdatedItem(read, p, now), db.items[q])])
  }

  /** `QueueService.update`: `read` is the row as the unlocked `get` saw it, None if there was none. */
  function UpdateItem(db: Db, now: int, q: nat, read: Option<Item>, p: UpdatePayload): ApiStep
    requires read.Some? ==> q in db.items
  {
    if !UpdateAccepted(p) then ApiStep(db, Some(SchemaRejected))
    else if read.None? then ApiStep(db, Some(Service(ITEM_NOT_FOUND)))
    else
      var error := UpdateError(db.catalog, read.value, p);
      if error.Some? then ApiStep(db, error) else ApiStep(FlushUpdate(db, now, q, read.value, p), None)
  }
}
