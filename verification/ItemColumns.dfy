/** Which columns a create and an edit write, and with what, and which requests they accept. */
module ItemColumns {
  import opened Common
  import opened ServiceErrors
  import opened TelegramPublishing
  import opened ContentHash
  import opened QueueModel
  import opened PublishProtocol

  predicate NonEmpty(s: Option<string>) {
    s.Some? && |s.value| > 0
  }

  predicate IsPublishable(status: QueueStatus) {
    status == Queued || status == Scheduled || status == Published
  }

  predicate ScheduleFits(status: QueueStatus, scheduledAt: Option<When>) {
    status == Scheduled ==> scheduledAt.Some? && scheduledAt.value.zoned
  }

  // ---- Create ----

  /** A requested channel must exist, and be active for a publishable item; else the default decides. */
  predicate ChannelUsable(c: Catalog, requested: Option<nat>, status: QueueStatus) {
    if requested.Some? then requested.value in c.channels && (IsPublishable(status) ==> c.channels[requested.value].isActive)
    else if c.defaultChannel.Some? then c.defaultChannel.value in c.channels && c.channels[c.defaultChannel.value].isActive
    else !IsPublishable(status)
  }

  /** Exactly these create requests are accepted. */
  lemma {:induction false} CreateAcceptedIff(c: Catalog, p: CreatePayload, now: int)
    ensures CreatedItem(c, p, now).Ok? <==>
      && |p.content| > 0 && p.status != FailedItem
      && ScheduleFits(p.status, p.scheduledAt)
      && (NonEmpty(p.buttonText) <==> NonEmpty(p.buttonUrl))
      && (p.productId.Some? ==> p.productId.value in c.products)
      && ChannelUsable(c, p.channelId, p.status)
  {
  }

  predicate SchemaRejects(p: CreatePayload) {
    |p.content| == 0 || p.status == FailedItem || (p.status == Scheduled && p.scheduledAt.None?)
    || NonEmpty(p.buttonText) != NonEmpty(p.buttonUrl)
  }

  /** A refused create says whether the schema, an unknown product or channel, or the item's own state is at fault. */
  lemma {:induction false} CreateErrorTells(c: Catalog, p: CreatePayload, now: int)
    requires CreatedItem(c, p, now).Err?
    ensures var e := CreatedItem(c, p, now).error;
      var unknown := (p.productId.Some? && p.productId.value !in c.products) || (p.channelId.Some? && p.channelId.value !in c.channels);
      if SchemaRejects(p) then e == SchemaRejected
      else
        && e.Service?
        && if ScheduleFits(p.status, p.scheduledAt) && unknown then e.error.NotFoundError? else e.error.ValidationError?
  {
  }

  /**
   * A created item is what was asked for. The requested channel, image and button win; what is missing comes
   * from the workspace default, the product's image and its affiliate link.
   */
  lemma {:induction false} CreateStoresRequest(c: Catalog, p: CreatePayload, now: int)
    requires CreatedItem(c, p, now).Ok?
    ensures var item := CreatedItem(c, p, now).value;
      && item.content == p.content && item.status == p.status && item.productId == p.productId
      && item.scheduledAt == (if p.status == Scheduled then p.scheduledAt else None)
      && item.publishedAt == (if p.status == Published then Some(now) else None)
      && item.channelId == (if p.channelId.Some? then p.channelId else c.defaultChannel)
      && (NonEmpty(p.imageUrl) ==> item.imageUrl == p.imageUrl)
      && (!NonEmpty(p.imageUrl) ==>
            item.imageUrl == if p.productId.Some? then Some(c.products[p.productId.value].imageUrl) else None)
      && (NonEmpty(p.buttonUrl) ==> item.buttonUrl == p.buttonUrl && item.buttonText == p.buttonText)
      && (!NonEmpty(p.buttonUrl) ==>
            if p.productId.Some? && NonEmpty(c.products[p.productId.value].affiliateUrl)
            then item.buttonUrl == c.products[p.productId.value].affiliateUrl && item.buttonText == Some("اشتري الآن")
            else item.buttonUrl.None? && item.buttonText.None?)
  {
  }

  // ---- Edit ----

  predicate ButtonFits(text: Field<string>, url: Field<string>) {
    (text.Given? && text.value.Some?) || (url.Given? && url.value.Some?) ==>
      (text.Given? && NonEmpty(text.value) <==> url.Given? && NonEmpty(url.value))
  }

  predicate ScheduleGiven(p: UpdatePayload) {
    p.status == Given(Some(Scheduled)) ==> p.scheduledAt.Given? && p.scheduledAt.value.Some?
  }

  lemma SchemaAcceptsIff(p: UpdatePayload)
    ensures UpdateAccepted(p) <==>
      p.content != Given(Some("")) && p.status != Given(Some(FailedItem)) && ScheduleGiven(p) && ButtonFits(p.buttonText, p.buttonUrl)
  {
  }

  predicate Names(f: Field<nat>, ids: set<nat>) {
    f.Given? && f.value.Some? ==> f.value.value in ids
  }

  predicate ScheduleFitsAfter(item: Item, p: UpdatePayload) {
    var scheduledAt := if p.scheduledAt.Given? then p.scheduledAt.value else item.scheduledAt;
    match p.status
    case Unset => ScheduleFits(item.status, scheduledAt)
    case Given(None) => false
    case Given(Some(status)) => ScheduleFits(status, scheduledAt)
  }

  lemma ScheduleAcceptedIff(item: Item, p: UpdatePayload)
    requires p.status != Given(None) && p.status != Given(Some(FailedItem))
    ensures var status, scheduledAt := Merge(p.status, Some(item.status)), Merge(p.scheduledAt, item.scheduledAt);
      ScheduleFitsAfter(item, p) <==>
        !(status == Some(Scheduled) && scheduledAt.None?)
        && !(status.Some? && status.value != FailedItem && SchedulingError(status.value, scheduledAt).Some?)
  {
  }

  /** Exactly these edits of a row are accepted. */
  lemma {:induction false} EditAcceptedIff(c: Catalog, item: Item, p: UpdatePayload)
    ensures UpdateError(c, item, p).None? <==>
      && p.content != Given(None) && p.content != Given(Some("")) && p.status != Given(None) && p.status != Given(Some(FailedItem))
      && ScheduleGiven(p) && ScheduleFitsAfter(item, p) && ButtonFits(p.buttonText, p.buttonUrl)
      && Names(p.channelId, c.channels.Keys) && Names(p.productId, c.products.Keys)
  {
    hide UpdateAccepted, SchedulingError, ScheduleGiven, ButtonFits, ScheduleFitsAfter, Merge;
    SchemaAcceptsIff(p);
    if p.status != Given(None) && p.status != Given(Some(FailedItem)) {
      ScheduleAcceptedIff(item, p);
    }
  }

  /** A refused edit says so too; a null for a column that needs a value is found last, by the database. */
  lemma {:induction false} EditErrorTells(c: Catalog, item: Item, p: UpdatePayload)
    requires UpdateError(c, item, p).Some?
    ensures var e := UpdateError(c, item, p).value;
      if !(p.content != Given(Some("")) && p.status != Given(Some(FailedItem)) && ScheduleGiven(p) && ButtonFits(p.buttonText, p.buttonUrl))
      then e == SchemaRejected
      else if !Names(p.channelId, c.channels.Keys) || !Names(p.productId, c.products.Keys) then e.Service? && e.error.NotFoundError?
      else if p.status != Given(None) && !ScheduleFitsAfter(item, p) then e.Service? && e.error.ValidationError?
      else e == IntegrityViolation
  {
    hide UpdateAccepted, SchedulingError, ScheduleGiven, ButtonFits, ScheduleFitsAfter;
    SchemaAcceptsIff(p);
    var status, scheduledAt := Merge(p.status, Some(item.status)), Merge(p.scheduledAt, item.scheduledAt);
    assert p.status == Given(None) ==> status.None?;
    hide Merge;
    if status.Some? {
      SchedulingErrorKind(status.value, scheduledAt);
    }
    if p.status != Given(None) && p.status != Given(Some(FailedItem)) {
      ScheduleAcceptedIff(item, p);
    }
  }

  lemma SchedulingErrorKind(status: QueueStatus, scheduledAt: Option<When>)
    ensures SchedulingError(status, scheduledAt).Some? ==> SchedulingError(status, scheduledAt).value.ValidationError?
  {
  }

  /** A column an edit names gets the value given, unless that is what the edit had read; any other stays. */
  predicate Column<T(==)>(f: Field<T>, read: Option<T>, before: Option<T>, after: Option<T>) {
    after == if f.Given? && f.value != read then f.value else before
  }

  /** A column the edit clears or sets on its own stays if the edit had read that very value. */
  predicate Sets<T(==)>(wanted: Option<T>, read: Option<T>, before: Option<T>, after: Option<T>) {
    after == if wanted != read then wanted else before
  }

  /**
   * Whatever others wrote meanwhile, the flush of an edit writes the columns it names and, if it names a
   * status, the times and the message id that go with it; every other column, item and row stays as it is.
   */
  lemma {:induction false} EditWritesColumns(s: State, u: nat)
    requires CanWrite(s, u)
    ensures var e, s' := s.edits[u], Next(s, WriteEdit(u));
      var p, read, before := e.update, e.read, s.db.items[e.queueId];
      && s'.db.items.Keys == s.db.items.Keys && s'.db.attempts == s.db.attempts
      && (forall k :: k in s.db.items && k != e.queueId ==> s'.db.items[k] == s.db.items[k])
      && var after := s'.db.items[e.queueId];
         && Column(p.content, Some(read.content), Some(before.content), Some(after.content))
         && Column(p.status, Some(read.status), Some(before.status), Some(after.status))
         && Column(p.channelId, read.channelId, before.channelId, after.channelId)
         && Column(p.productId, read.productId, before.productId, after.productId)
         && Column(p.imageUrl, read.imageUrl, before.imageUrl, after.imageUrl)
         && Column(p.buttonText, read.buttonText, before.buttonText, after.buttonText)
         && Column(p.buttonUrl, read.buttonUrl, before.buttonUrl, after.buttonUrl)
         && (p.scheduledAt.Unset? && p.status.Given? && p.status != Given(Some(Scheduled)) ==>
               Sets(None, read.scheduledAt, before.scheduledAt, after.scheduledAt))
         && (p.scheduledAt.Given? || p.status.Unset? || p.status == Given(Some(Scheduled)) ==>
               Column(p.scheduledAt, read.scheduledAt, before.scheduledAt, after.scheduledAt))
         && (p.status.Unset? ==> after.publishedAt == before.publishedAt && after.telegramMessageId == before.telegramMessageId)
         && (p.status == Given(Some(Published)) ==>
               Sets(Some(s.now), read.publishedAt, before.publishedAt, after.publishedAt)
               && after.telegramMessageId == before.telegramMessageId)
         && (p.status.Given? && p.status != Given(Some(Published)) ==>
               Sets(None, read.publishedAt, before.publishedAt, after.publishedAt)
               && Sets(None, read.telegramMessageId, before.telegramMessageId, after.telegramMessageId))
  {
  }
}
