/** The outbound message plan and its delivery, app/telegram/publisher.py. */
module TelegramPublishing {
  import opened Common
  import opened ServiceErrors
  import opened TelegramText

  const MAX_RETRIES := 3

  datatype Button = Button(text: string, url: string)

  datatype Message =
    | PhotoMessage(photoUrl: string, caption: Option<string>, button: Option<Button>, parseMode: Option<string>)
    | TextMessage(text: string, button: Option<Button>, parseMode: Option<string>)

  datatype Receipt = Receipt(chatId: string, messageId: int)

  /** A decoded Bot API answer; absent keys are None. */
  datatype Body = Body(
    ok: Option<bool>, errorCode: Option<int>, hasRetryAfter: bool, description: string, result: Option<Receipt>)

  /** One HTTP exchange: a transport error, or a status with a JSON object (None if it is not one). */
  datatype Reply = Unreachable | Reply(status: int, body: Option<Body>)

  /**
   * What the client sees of one post, and whether Telegram published the message. The two can differ: an
   * answer that is lost on its way back, or replaced by a gateway's error, leaves the client with an error.
   */
  datatype Exchange = Exchange(reply: Reply, published: bool)

  datatype Verdict = Accept(result: Option<Receipt>) | Retry(error: ServiceError) | GiveUp(error: ServiceError)

  predicate IsRateLimited(status: int, body: Body) {
    status == 429 || body.errorCode == Some(429) || (body.hasRetryAfter && body.ok == Some(false))
  }

  /** The branches of `_post` on one reply, in the source's order. */
  function Classify(reply: Reply): Verdict {
    match reply
    case Unreachable => Retry(TelegramPublishError("Telegram API request failed", None, None))
    case Reply(status, None) =>
      var error := TelegramPublishError("Telegram API returned invalid JSON", Some(status), None);
      if status >= 500 || status == 429 then Retry(error) else GiveUp(error)
    case Reply(status, Some(body)) =>
      if IsRateLimited(status, body) then
        var code := if body.errorCode.Some? then body.errorCode else Some(429);
        Retry(TelegramPublishError(body.description, Some(429), code))
      else if status >= 500 then
        Retry(TelegramPublishError(body.description, Some(status), body.errorCode))
      else if body.ok == Some(true) then
        Accept(body.result)
      else if body.errorCode.Some? && body.errorCode.value >= 500 then
        Retry(TelegramPublishError(body.description, Some(status), body.errorCode))
      else
        GiveUp(TelegramPublishError(body.description, if status >= 400 then Some(status) else None, body.errorCode))
  }

  /** Telegram published the message; one it acknowledges it has published. */
  predicate Took(x: Exchange) {
    x.published || Classify(x.reply).Accept?
  }

  /** Telegram published the message and the client does not know. */
  predicate Lost(x: Exchange) {
    x.published && !Classify(x.reply).Accept?
  }

  /** Telegram counts as having taken a message exactly when it says so without any sign of an error. */
  lemma AcceptedIff(reply: Reply)
    ensures Classify(reply).Accept? <==>
      reply.Reply? && reply.body.Some? && reply.status < 500 && reply.status != 429
      && reply.body.value.ok == Some(true) && reply.body.value.errorCode != Some(429)
  {
  }

  /** The error of a refused message carries Telegram's description and code, and the HTTP status if that is an error. */
  lemma ErrorTells(reply: Reply)
    requires reply.Reply? && !Classify(reply).Accept?
    ensures var e, limited := Classify(reply).error, reply.status == 429 || (reply.body.Some? && IsRateLimited(reply.status, reply.body.value));
      && e.TelegramPublishError?
      && (reply.body.Some? ==> e.message == reply.body.value.description)
      && (reply.status >= 400 ==> e.httpStatus == Some(if limited then 429 else reply.status))
      && (reply.body.Some? && reply.body.value.errorCode.Some? ==> e.errorCode == reply.body.value.errorCode)
      && (reply.body.Some? && reply.body.value.errorCode.None? ==> e.errorCode == if limited then Some(429) else None)
  {
  }

  /** A post is retried exactly for a transport error, a 5xx, a rate limit, or an error code from 500 up. */
  lemma RetriedIff(reply: Reply)
    ensures Classify(reply).Retry? <==>
      || reply.Unreachable? || reply.status >= 500 || reply.status == 429
      || (reply.body.Some? &&
          var body := reply.body.value;
          || body.errorCode == Some(429) || (body.ok == Some(false) && body.hasRetryAfter)
          || (body.ok != Some(true) && body.errorCode.Some? && body.errorCode.value >= 500))
  {
  }

  /** The HTTP status and the body's error code point to different sides. */
  predicate MixedSignals(reply: Reply) {
    && reply.Reply? && reply.body.Some?
    && var code := reply.body.value.errorCode;
       (reply.status >= 500 && IsClientError(code)) || (IsClientError(Some(reply.status)) && code.Some? && code.value >= 500)
  }

  /**
   * `_post` retries what it takes for transient, the queue calls 4xx other than 429 permanent. On a
   * retried reply the two disagree exactly when status and error code do and no rate limit is signalled.
   */
  lemma TransientYetPermanent(reply: Reply)
    requires Classify(reply).Retry?
    ensures NonRetryable(Classify(reply).error) <==>
      MixedSignals(reply) && !IsRateLimited(reply.status, reply.body.value)
  {
  }

  /** Both directions occur: a 5xx whose body says 4xx, and a 4xx whose body says 5xx. */
  lemma TransientYetPermanentOccurs(description: string)
    ensures var reply := Reply(500, Some(Body(Some(false), Some(400), false, description, None)));
      Classify(reply).Retry? && NonRetryable(Classify(reply).error)
    ensures var reply := Reply(400, Some(Body(Some(false), Some(502), false, description, None)));
      Classify(reply).Retry? && NonRetryable(Classify(reply).error)
  {
  }

  /** A reply that ends the send at once is permanent exactly when it carries a client error. */
  lemma GiveUpIsPermanent(reply: Reply)
    requires Classify(reply).GiveUp?
    ensures NonRetryable(Classify(reply).error) <==>
      IsClientError(Some(reply.status)) || (reply.body.Some? && IsClientError(reply.body.value.errorCode))
  {
  }

  // ---- The plan ----

  function TextMessages(chunks: seq<string>, button: Option<Button>, parseMode: Option<string>): (ms: seq<Message>)
    ensures |ms| == |chunks|
  {
    seq(|chunks|, i requires 0 <= i < |chunks| =>
      TextMessage(chunks[i], if i == |chunks| - 1 then button else None, parseMode))
  }

  function FollowUps(text: string): seq<string>
    requires |text| > MAX_CAPTION_LENGTH
  {
    var rest := NextPiece(text, MAX_CAPTION_LENGTH).rest;
    if |rest| == 0 then [] else Split(rest, MAX_MESSAGE_LENGTH)
  }

  function PhotoPlan(text: string, url: string, button: Option<Button>, parseMode: Option<string>): seq<Message> {
    if |text| <= MAX_CAPTION_LENGTH then
      [PhotoMessage(url, if |text| == 0 then None else Some(text), button, parseMode)]
    else
      var followUps := FollowUps(text);
      [PhotoMessage(url, Some(NextPiece(text, MAX_CAPTION_LENGTH).chunk), if |followUps| == 0 then button else None, parseMode)]
      + TextMessages(followUps, button, parseMode)
  }

  /** The messages one publish sends, in order. */
  function Plan(text: string, imageUrl: Option<string>, button: Option<Button>, parseMode: Option<string>): seq<Message> {
    if Truthy(imageUrl) then PhotoPlan(text, imageUrl.value, button, parseMode)
    else TextMessages(Split(text, MAX_MESSAGE_LENGTH), button, parseMode)
  }

  function MessageText(m: Message): string {
    match m
    case PhotoMessage(_, caption, _, _) => if caption.Some? then caption.value else ""
    case TextMessage(text, _, _) => text
  }

  function Texts(ms: seq<Message>): (ts: seq<string>)
    ensures |ts| == |ms|
  {
    seq(|ms|, i requires 0 <= i < |ms| => MessageText(ms[i]))
  }

  predicate Fits(m: Message) {
    |MessageText(m)| <= if m.PhotoMessage? then 1024 else 4096
  }

  lemma SplitFitsLimit(text: string, maxLength: nat)
    requires maxLength >= 1
    ensures |Split(text, maxLength)| >= 1
    ensures forall i :: 0 <= i < |Split(text, maxLength)| ==> |Split(text, maxLength)[i]| <= maxLength
  {
    hide NextPiece;
    ChunksFit(text, maxLength);
    if |text| != 0 {
      ChunkCount(text, maxLength);
    }
  }

  /** Captions stay within 1024 and texts within 4096; a photo is first or nowhere. */
  lemma PlanFits(text: string, imageUrl: Option<string>, button: Option<Button>, parseMode: Option<string>)
    ensures var plan := Plan(text, imageUrl, button, parseMode);
      && |plan| >= 1
      && (forall i :: 0 <= i < |plan| ==> Fits(plan[i]))
      && (forall i :: 0 <= i < |plan| ==> (plan[i].PhotoMessage? <==> i == 0 && Truthy(imageUrl)))
  {
    hide NextPiece;
    if !Truthy(imageUrl) {
      SplitFitsLimit(text, MAX_MESSAGE_LENGTH);
    } else if |text| > MAX_CAPTION_LENGTH {
      NextPieceShrinks(text, MAX_CAPTION_LENGTH);
      SplitFitsLimit(NextPiece(text, MAX_CAPTION_LENGTH).rest, MAX_MESSAGE_LENGTH);
    }
  }

  /** The button rides on the last message and on no other. */
  lemma {:induction false} PlanButtonOnLast(text: string, imageUrl: Option<string>, button: Option<Button>, parseMode: Option<string>)
    ensures var plan := Plan(text, imageUrl, button, parseMode);
      forall i :: 0 <= i < |plan| ==> plan[i].button == (if i == |plan| - 1 then button else None)
  {
    hide NextPiece, SplitRemaining;
  }

  /** All of the text except newlines reaches the plan, in order. */
  lemma PlanKeepsText(text: string, imageUrl: Option<string>, button: Option<Button>, parseMode: Option<string>)
    ensures WovenFrom(text, Texts(Plan(text, imageUrl, button, parseMode)))
  {
    hide NextPiece, SplitRemaining, WovenFrom;
    var plan := Plan(text, imageUrl, button, parseMode);
    if !Truthy(imageUrl) {
      SplitLosesOnlyNewlines(text, MAX_MESSAGE_LENGTH);
      assert Texts(plan) == Split(text, MAX_MESSAGE_LENGTH);
    } else if |text| <= MAX_CAPTION_LENGTH {
      WovenWhole(text);
      assert MessageText(plan[0]) == text;
      assert Texts(plan) == [text];
    } else {
      var p := NextPiece(text, MAX_CAPTION_LENGTH);
      var followUps := FollowUps(text);
      if |p.rest| == 0 {
        WovenNothing(p.rest);
      } else {
        SplitLosesOnlyNewlines(p.rest, MAX_MESSAGE_LENGTH);
      }
      NextPieceCuts(text, MAX_CAPTION_LENGTH);
      WovenCons(text, p.chunk, p.rest, followUps);
      assert Texts(plan) == [p.chunk] + followUps;
    }
  }

  lemma WovenWhole(text: string)
    ensures WovenFrom(text, [text])
  {
    assert text == Weave([text], [""]);
  }

  lemma WovenNothing(text: string)
    requires |text| == 0
    ensures WovenFrom(text, [])
  {
    assert text == Weave([], []);
  }

  // ---- Delivery ----

  /** Every HTTP post made so far, the messages Telegram acknowledged with `ok`, and those it published. */
  datatype Wire = Wire(posts: seq<Message>, accepted: seq<Message>, taken: seq<Message>)

  datatype Outcome = Delivered(receipt: Receipt) | Failed(error: ServiceError)

  datatype Delivery = Delivery(wire: Wire, outcome: Outcome)

  const NOT_CONFIGURED := ValidationError("Telegram bot token is not configured")

  /** One HTTP post, with its exchange. */
  function PostOnce(w: Wire, m: Message, x: Exchange): Wire {
    Wire(w.posts + [m],
      if Classify(x.reply).Accept? then w.accepted + [m] else w.accepted,
      if Took(x) then w.taken + [m] else w.taken)
  }

  /** `_post` from retry number `attempt` on; post number k of the wire gets `replies(k)`. */
  function PostFrom(replies: nat -> Exchange, w: Wire, m: Message, attempt: nat): Delivery
    requires attempt <= MAX_RETRIES
    decreases MAX_RETRIES - attempt
  {
    var x := replies(|w.posts|);
    var posted := PostOnce(w, m, x);
    match Classify(x.reply)
    case Accept(result) =>
      Delivery(posted, if result.Some? then Delivered(result.value) else Failed(UnexpectedError("result")))
    case GiveUp(error) => Delivery(posted, Failed(error))
    case Retry(error) =>
      if attempt < MAX_RETRIES then PostFrom(replies, posted, m, attempt + 1) else Delivery(posted, Failed(error))
  }

  /** What a verdict means for the caller of a send. */
  function OutcomeOf(v: Verdict): Outcome {
    match v
    case Accept(result) => if result.Some? then Delivered(result.value) else Failed(UnexpectedError("result"))
    case Retry(error) => Failed(error)
    case GiveUp(error) => Failed(error)
  }

  lemma PostUnfolds(replies: nat -> Exchange, w: Wire, m: Message, attempt: nat)
    requires attempt <= MAX_RETRIES
    ensures var verdict, posted := Classify(replies(|w.posts|).reply), PostOnce(w, m, replies(|w.posts|));
      PostFrom(replies, w, m, attempt)
      == if verdict.Retry? && attempt < MAX_RETRIES then PostFrom(replies, posted, m, attempt + 1) else Delivery(posted, OutcomeOf(verdict))
  {
    hide Classify, PostOnce;
  }

  /** Send `plan[i..]` one after the other, stopping at the first failure; `primary` is the first receipt. */
  function SendFrom(replies: nat -> Exchange, w: Wire, plan: seq<Message>, i: nat, primary: Receipt): Delivery
    requires i <= |plan|
    decreases |plan| - i
  {
    if i == |plan| then Delivery(w, Delivered(primary))
    else
      var d := PostFrom(replies, w, plan[i], 0);
      if d.outcome.Failed? then d
      else SendFrom(replies, d.wire, plan, i + 1, if i == 0 then d.outcome.receipt else primary)
  }

  const NO_RECEIPT := Receipt("", 0)

  /** `TelegramPublisher`: `replies` stands for the Bot API. */
  class TelegramPublisher {
    const configured: bool
    const replies: nat -> Exchange
    var posts: seq<Message>
    var accepted: seq<Message>
    var taken: seq<Message>

    constructor (configured: bool, replies: nat -> Exchange)
      ensures this.configured == configured && this.replies == replies
      ensures WireState() == Wire([], [], [])
    {
      this.configured := configured;
      this.replies := replies;
      posts, accepted, taken := [], [], [];
    }

    function WireState(): Wire
      reads this
    {
      Wire(posts, accepted, taken)
    }

    /** `_post`: one initial post and up to three retries. */
    method Post(m: Message) returns (o: Outcome)
      modifies this
      ensures Delivery(WireState(), o) == PostFrom(replies, old(WireState()), m, 0)
    {
      hide Classify;
      var attempt := 0;
      while true
        invariant attempt <= MAX_RETRIES
        invariant PostFrom(replies, WireState(), m, attempt) == PostFrom(replies, old(WireState()), m, 0)
        decreases MAX_RETRIES - attempt
      {
        hide PostFrom;
        PostUnfolds(replies, WireState(), m, attempt);
        var x := replies(|posts|);
        posts := posts + [m];
        if Took(x) {
          taken := taken + [m];
        }
        match Classify(x.reply) {
          case Accept(result) =>
            accepted := accepted + [m];
            return if result.Some? then Delivered(result.value) else Failed(UnexpectedError("result"));
          case GiveUp(error) =>
            return Failed(error);
          case Retry(error) =>
            if attempt < MAX_RETRIES {
              attempt := attempt + 1;
            } else {
              return Failed(error);
            }
        }
      }
    }

    /** `send_text` and `send_photo`: the configuration check, then one `_post`. */
    method Send(m: Message) returns (o: Outcome)
      modifies this
      ensures !configured ==> o == Failed(NOT_CONFIGURED) && WireState() == old(WireState())
      ensures configured ==> Delivery(WireState(), o) == PostFrom(replies, old(WireState()), m, 0)
    {
      if !configured {
        return Failed(NOT_CONFIGURED);
      }
      o := Post(m);
    }

    /** `_publish_text_chunks`. */
    method PublishTextChunks(text: string, button: Option<Button>, parseMode: Option<string>) returns (o: Outcome)
      modifies this
      ensures !configured ==> o == Failed(NOT_CONFIGURED) && WireState() == old(WireState())
      ensures configured ==>
        Delivery(WireState(), o)
        == SendFrom(replies, old(WireState()), TextMessages(Split(text, MAX_MESSAGE_LENGTH), button, parseMode), 0, NO_RECEIPT)
    {
      hide NextPiece, SplitRemaining, PostFrom;
      var split := SplitTelegramText(text, MAX_MESSAGE_LENGTH);
      var chunks := split.value;
      ghost var plan := TextMessages(chunks, button, parseMode);
      SplitFitsLimit(text, MAX_MESSAGE_LENGTH);
      var primary := NO_RECEIPT;
      for index := 0 to |chunks|
        invariant configured || index == 0
        invariant !configured ==> WireState() == old(WireState())
        invariant configured ==>
          SendFrom(replies, WireState(), plan, index, primary) == SendFrom(replies, old(WireState()), plan, 0, NO_RECEIPT)
      {
        var isLast := index == |chunks| - 1;
        var sent := Send(TextMessage(chunks[index], if isLast then button else None, parseMode));
        if sent.Failed? {
          return sent;
        }
        if index == 0 {
          primary := sent.receipt;
        }
      }
      return Delivered(primary);
    }

    /** `_publish_with_photo`. */
    method PublishWithPhoto(text: string, url: string, button: Option<Button>, parseMode: Option<string>) returns (o: Outcome)
      modifies this
      ensures !configured ==> o == Failed(NOT_CONFIGURED) && WireState() == old(WireState())
      ensures configured ==>
        Delivery(WireState(), o) == SendFrom(replies, old(WireState()), PhotoPlan(text, url, button, parseMode), 0, NO_RECEIPT)
    {
      hide NextPiece, SplitRemaining, PostFrom;
      ghost var plan := PhotoPlan(text, url, button, parseMode);
      if |text| <= MAX_CAPTION_LENGTH {
        o := Send(PhotoMessage(url, if |text| == 0 then None else Some(text), button, parseMode));
        return;
      }
      var caption, remainder := TakePiece(text, MAX_CAPTION_LENGTH);
      var followUps: seq<string> := [];
      if |remainder| != 0 {
        var split := SplitTelegramText(remainder, MAX_MESSAGE_LENGTH);
        followUps := split.value;
      }
      var primary := Send(PhotoMessage(url, Some(caption), if |followUps| == 0 then button else None, parseMode));
      if primary.Failed? {
        return primary;
      }
      for index := 0 to |followUps|
        invariant configured
        invariant SendFrom(replies, WireState(), plan, index + 1, primary.receipt)
               == SendFrom(replies, old(WireState()), plan, 0, NO_RECEIPT)
      {
        var isLast := index == |followUps| - 1;
        var sent := Send(TextMessage(followUps[index], if isLast then button else None, parseMode));
        if sent.Failed? {
          return sent;
        }
      }
      return primary;
    }

    /** `publish`: exactly the plan is sent, in order, until the first failure. */
    method Publish(text: string, imageUrl: Option<string>, button: Option<Button>, parseMode: Option<string>)
      returns (o: Outcome)
      modifies this
      ensures !configured ==> o == Failed(NOT_CONFIGURED) && WireState() == old(WireState())
      ensures configured ==>
        Delivery(WireState(), o) == SendFrom(replies, old(WireState()), Plan(text, imageUrl, button, parseMode), 0, NO_RECEIPT)
    {
      if Truthy(imageUrl) {
        o := PublishWithPhoto(text, imageUrl.value, button, parseMode);
      } else {
        o := PublishTextChunks(text, button, parseMode);
      }
    }
  }

  predicate StartsWithTries(posted: seq<Message>, m: Message, n: nat) {
    1 <= n <= MAX_RETRIES + 1 && n <= |posted| && forall i :: 0 <= i < n ==> posted[i] == m
  }

  /** `posted` repeats each message of `ms` in turn, between one and four times. */
  ghost predicate EachUpToFourTimes(posted: seq<Message>, ms: seq<Message>)
    decreases |ms|
  {
    if |ms| == 0 then |posted| == 0
    else exists n: nat {:trigger posted[n..]} ::
      StartsWithTries(posted, ms[0], n) && EachUpToFourTimes(posted[n..], ms[1..])
  }

  lemma EachUpToFourTimesCons(posted: seq<Message>, n: nat, ms: seq<Message>)
    requires |ms| >= 1 && StartsWithTries(posted, ms[0], n) && EachUpToFourTimes(posted[n..], ms[1..])
    ensures EachUpToFourTimes(posted, ms)
  {
  }

  /** One send posts its message one to four times and acknowledges it at most once. */
  lemma {:induction false} PostTries(replies: nat -> Exchange, w: Wire, m: Message, attempt: nat)
    requires attempt <= MAX_RETRIES
    ensures var d := PostFrom(replies, w, m, attempt);
      && |w.posts| + 1 <= |d.wire.posts| <= |w.posts| + MAX_RETRIES + 1 - attempt
      && d.wire.posts[..|w.posts|] == w.posts
      && (forall i :: |w.posts| <= i < |d.wire.posts| ==> d.wire.posts[i] == m)
      && (d.wire.accepted == w.accepted || d.wire.accepted == w.accepted + [m])
      && (d.outcome.Delivered? ==> d.wire.accepted == w.accepted + [m])
      && (d.outcome.Failed? && d.outcome.error.TelegramPublishError? ==> d.wire.accepted == w.accepted)
    decreases MAX_RETRIES - attempt
  {
    hide Classify, Took;
    var x := replies(|w.posts|);
    if Classify(x.reply).Retry? && attempt < MAX_RETRIES {
      var posted, d := PostOnce(w, m, x), PostFrom(replies, w, m, attempt);
      PostTries(replies, posted, m, attempt + 1);
      assert d.wire.posts[..|w.posts|] == posted.posts[..|w.posts|];
      assert d.wire.posts[|w.posts|] == posted.posts[|w.posts|];
    }
  }

  /** A send stops at the first reply that is not to be retried, else after four posts, and that reply decides. */
  lemma {:induction false} SendStopsAt(replies: nat -> Exchange, w: Wire, m: Message, attempt: nat) returns (n: nat)
    requires attempt <= 3
    ensures var d := PostFrom(replies, w, m, attempt);
      && |d.wire.posts| == |w.posts| + n && 1 <= n <= 4 - attempt
      && (forall k: nat :: |w.posts| <= k < |w.posts| + n - 1 ==> Classify(replies(k).reply).Retry?)
      && (n < 4 - attempt ==> !Classify(replies(|w.posts| + n - 1).reply).Retry?)
      && d.outcome == OutcomeOf(Classify(replies(|w.posts| + n - 1).reply))
    decreases MAX_RETRIES - attempt
  {
    hide Classify, Took;
    var x := replies(|w.posts|);
    if Classify(x.reply).Retry? && attempt < 3 {
      var posted := PostOnce(w, m, x);
      var later := SendStopsAt(replies, posted, m, attempt + 1);
      n := later + 1;
    } else {
      n := 1;
    }
  }

  /** From message `i` on, messages before `done` are acknowledged and those before `tried` posted. */
  ghost predicate Ran(w: Wire, d: Delivery, plan: seq<Message>, i: nat, done: nat, tried: nat) {
    && i <= done <= tried <= |plan| && tried <= done + 1
    && d.wire.accepted == w.accepted + plan[i..done]
    && |w.posts| <= |d.wire.posts| && d.wire.posts[..|w.posts|] == w.posts
    && EachUpToFourTimes(d.wire.posts[|w.posts|..], plan[i..tried])
    && (d.outcome.Delivered? ==> done == |plan|)
    && (d.outcome.Failed? && d.outcome.error.TelegramPublishError? ==> done < |plan|)
  }

  ghost predicate RunAdds(w: Wire, d: Delivery, plan: seq<Message>, i: nat) {
    exists done: nat, tried: nat :: Ran(w, d, plan, i, done, tried)
  }

  lemma {:induction false} SendFromAdds(replies: nat -> Exchange, w: Wire, plan: seq<Message>, i: nat, primary: Receipt)
    requires i <= |plan|
    ensures RunAdds(w, SendFrom(replies, w, plan, i, primary), plan, i)
    decreases |plan| - i
  {
    hide PostFrom;
    var d := SendFrom(replies, w, plan, i, primary);
    if i == |plan| {
      assert Ran(w, d, plan, i, i, i);
    } else {
      var first := PostFrom(replies, w, plan[i], 0);
      PostTries(replies, w, plan[i], 0);
      var n := |first.wire.posts| - |w.posts|;
      if first.outcome.Failed? {
        var posted := d.wire.posts[|w.posts|..];
        assert plan[i..i + 1][1..] == [] && posted[n..] == [];
        EachUpToFourTimesCons(posted, n, plan[i..i + 1]);
        assert Ran(w, d, plan, i, if d.wire.accepted == w.accepted then i else i + 1, i + 1);
      } else {
        var next := if i == 0 then first.outcome.receipt else primary;
        SendFromAdds(replies, first.wire, plan, i + 1, next);
        RunAddsCons(w, first.wire, d, plan, i, n);
      }
    }
  }

  lemma RunAddsCons(w: Wire, mid: Wire, d: Delivery, plan: seq<Message>, i: nat, n: nat)
    requires i < |plan| && 1 <= n <= MAX_RETRIES + 1
    requires |mid.posts| == |w.posts| + n && mid.posts[..|w.posts|] == w.posts
    requires forall k :: |w.posts| <= k < |mid.posts| ==> mid.posts[k] == plan[i]
    requires mid.accepted == w.accepted + [plan[i]]
    requires RunAdds(mid, d, plan, i + 1)
    ensures RunAdds(w, d, plan, i)
  {
    hide EachUpToFourTimes;
    var done: nat, tried: nat :| Ran(mid, d, plan, i + 1, done, tried);
    var posted, ms := d.wire.posts[|w.posts|..], plan[i..tried];
    assert ms[1..] == plan[i + 1..tried] && posted[n..] == d.wire.posts[|mid.posts|..];
    assert StartsWithTries(posted, ms[0], n) by {
      forall k | 0 <= k < n ensures posted[k] == ms[0] {
        assert posted[k] == d.wire.posts[..|mid.posts|][|w.posts| + k];
      }
    }
    EachUpToFourTimesCons(posted, n, ms);
    assert [plan[i]] + plan[i + 1..done] == plan[i..done];
    assert d.wire.accepted == w.accepted + plan[i..done] && d.wire.posts[..|w.posts|] == mid.posts[..|w.posts|];
    assert Ran(w, d, plan, i, done, tried);
  }

  /** The result of a publish that succeeds is the receipt of its first message. */
  lemma {:induction false} FirstReceiptWins(replies: nat -> Exchange, w: Wire, plan: seq<Message>, i: nat, primary: Receipt)
    requires i <= |plan| && |plan| >= 1
    ensures var d := SendFrom(replies, w, plan, i, primary);
      d.outcome.Delivered? ==>
        d.outcome == if i == 0 then PostFrom(replies, w, plan[0], 0).outcome else Delivered(primary)
    decreases |plan| - i
  {
    hide PostFrom;
    if i < |plan| {
      var first := PostFrom(replies, w, plan[i], 0);
      if first.outcome.Delivered? {
        FirstReceiptWins(replies, first.wire, plan, i + 1, if i == 0 then first.outcome.receipt else primary);
      }
    }
  }

  /**
   * A publish acknowledges a prefix of the plan, all of it when it succeeds and a proper prefix when
   * it ends in a Telegram error; it posts in plan order, at most four times per message, and returns
   * the receipt of the first message.
   */
  lemma PublishFollowsPlan(
      replies: nat -> Exchange, w: Wire, text: string, imageUrl: Option<string>, button: Option<Button>, parseMode: Option<string>)
    ensures var plan := Plan(text, imageUrl, button, parseMode);
      var d := SendFrom(replies, w, plan, 0, NO_RECEIPT);
      && RunAdds(w, d, plan, 0)
      && |plan| >= 1
      && (d.outcome.Delivered? ==> d.outcome == PostFrom(replies, w, plan[0], 0).outcome)
  {
    hide NextPiece, SplitRemaining, PostFrom, RunAdds;
    var plan := Plan(text, imageUrl, button, parseMode);
    PlanFits(text, imageUrl, button, parseMode);
    SendFromAdds(replies, w, plan, 0, NO_RECEIPT);
    FirstReceiptWins(replies, w, plan, 0, NO_RECEIPT);
  }

  // ---- What Telegram published ----

  /** How many of the posts numbered `from` up to `to` were published without the client knowing. */
  function LostIn(replies: nat -> Exchange, from: nat, to: nat): nat
    decreases if from < to then to - from else 0
  {
    if from >= to then 0 else (if Lost(replies(from)) then 1 else 0) + LostIn(replies, from + 1, to)
  }

  lemma {:induction false} LostInSplit(replies: nat -> Exchange, from: nat, mid: nat, to: nat)
    requires from <= mid <= to
    ensures LostIn(replies, from, to) == LostIn(replies, from, mid) + LostIn(replies, mid, to)
    decreases mid - from
  {
    if from < mid {
      LostInSplit(replies, from + 1, mid, to);
    }
  }

  function Count(s: seq<Message>, m: Message): nat {
    multiset(s)[m]
  }

  /** Of the copies of `m` put on the wire between `w` and `w'`, the published ones include the acknowledged ones. */
  predicate CopiesOrdered(w: Wire, w': Wire, m: Message) {
    Count(w'.accepted, m) - Count(w.accepted, m) <= Count(w'.taken, m) - Count(w.taken, m) <= Count(w'.posts, m) - Count(w.posts, m)
  }

  /** What was published from `w` to `w'` is what was acknowledged, and one more for each lost answer. */
  ghost predicate Accounted(replies: nat -> Exchange, w: Wire, w': Wire) {
    && |w.posts| <= |w'.posts|
    && |w'.taken| - |w.taken| == |w'.accepted| - |w.accepted| + LostIn(replies, |w.posts|, |w'.posts|)
    && forall m: Message :: CopiesOrdered(w, w', m)
  }

  lemma AccountedNothing(replies: nat -> Exchange, w: Wire)
    ensures Accounted(replies, w, w)
  {
  }

  lemma AccountedTogether(replies: nat -> Exchange, w: Wire, mid: Wire, w': Wire)
    requires Accounted(replies, w, mid) && Accounted(replies, mid, w')
    ensures Accounted(replies, w, w')
  {
    hide Count;
    LostInSplit(replies, |w.posts|, |mid.posts|, |w'.posts|);
    forall m: Message ensures CopiesOrdered(w, w', m) {
      assert CopiesOrdered(w, mid, m) && CopiesOrdered(mid, w', m);
    }
  }

  lemma PostOnceAccounted(replies: nat -> Exchange, w: Wire, m: Message)
    ensures Accounted(replies, w, PostOnce(w, m, replies(|w.posts|)))
  {
    hide Classify;
    var x := replies(|w.posts|);
    assert LostIn(replies, |w.posts|, |w.posts| + 1) == if Lost(x) then 1 else 0;
  }

  lemma {:induction false} PostAccounted(replies: nat -> Exchange, w: Wire, m: Message, attempt: nat)
    requires attempt <= MAX_RETRIES
    ensures Accounted(replies, w, PostFrom(replies, w, m, attempt).wire)
    decreases MAX_RETRIES - attempt
  {
    hide Accounted, PostOnce, Classify;
    var x := replies(|w.posts|);
    PostOnceAccounted(replies, w, m);
    if Classify(x.reply).Retry? && attempt < MAX_RETRIES {
      var posted := PostOnce(w, m, x);
      PostAccounted(replies, posted, m, attempt + 1);
      AccountedTogether(replies, w, posted, PostFrom(replies, posted, m, attempt + 1).wire);
    }
  }

  /** Over a whole publish, what Telegram published is what it acknowledged plus the lost answers. */
  lemma {:induction false} PublishAccounted(replies: nat -> Exchange, w: Wire, plan: seq<Message>, i: nat, primary: Receipt)
    requires i <= |plan|
    ensures Accounted(replies, w, SendFrom(replies, w, plan, i, primary).wire)
    decreases |plan| - i
  {
    hide Accounted, PostFrom;
    if i == |plan| {
      AccountedNothing(replies, w);
    } else {
      var first := PostFrom(replies, w, plan[i], 0);
      PostAccounted(replies, w, plan[i], 0);
      if first.outcome.Delivered? {
        var next := if i == 0 then first.outcome.receipt else primary;
        PublishAccounted(replies, first.wire, plan, i + 1, next);
        AccountedTogether(replies, w, first.wire, SendFrom(replies, first.wire, plan, i + 1, next).wire);
      }
    }
  }

  lemma CountSplit(s: seq<Message>, k: nat, m: Message)
    requires k <= |s|
    ensures Count(s, m) == Count(s[..k], m) + Count(s[k..], m)
  {
    assert s == s[..k] + s[k..];
  }

  lemma {:induction false} CountTries(s: seq<Message>, m: Message, other: Message)
    requires forall i :: 0 <= i < |s| ==> s[i] == m
    ensures Count(s, other) == if other == m then |s| else 0
  {
    if |s| > 0 {
      CountSplit(s, 1, other);
      CountTries(s[1..], m, other);
      assert s[..1] == [m];
    }
  }

  lemma {:induction false} UpToFourTimesCount(posted: seq<Message>, ms: seq<Message>, m: Message)
    requires EachUpToFourTimes(posted, ms)
    ensures Count(posted, m) <= (MAX_RETRIES + 1) * Count(ms, m)
    decreases |ms|
  {
    hide Count;
    if |ms| == 0 {
      CountTries(posted, m, m);
    } else {
      var n: nat :| StartsWithTries(posted, ms[0], n) && EachUpToFourTimes(posted[n..], ms[1..]);
      UpToFourTimesCount(posted[n..], ms[1..], m);
      CountSplit(posted, n, m);
      CountSplit(ms, 1, m);
      CountTries(posted[..n], ms[0], m);
      CountTries(ms[..1], ms[0], m);
    }
  }

  /** A publish posts a message at most four times per occurrence in the plan. */
  lemma {:induction false} PublishPostsBound(replies: nat -> Exchange, w: Wire, plan: seq<Message>, m: Message)
    ensures Count(SendFrom(replies, w, plan, 0, NO_RECEIPT).wire.posts, m) <= Count(w.posts, m) + (MAX_RETRIES + 1) * Count(plan, m)
  {
    hide Count, SendFrom, EachUpToFourTimes;
    var d := SendFrom(replies, w, plan, 0, NO_RECEIPT);
    SendFromAdds(replies, w, plan, 0, NO_RECEIPT);
    var done: nat, tried: nat :| Ran(w, d, plan, 0, done, tried);
    UpToFourTimesCount(d.wire.posts[|w.posts|..], plan[0..tried], m);
    CountSplit(d.wire.posts, |w.posts|, m);
    CountSplit(plan, tried, m);
    assert plan[0..tried] == plan[..tried];
  }
}
