/** The greedy text splitter of app/telegram/publisher.py. */
module TelegramText {
  import opened Common

  const MAX_MESSAGE_LENGTH := 4096
  const MAX_CAPTION_LENGTH := 1024

  predicate AllNewlines(s: string) {
    forall i :: 0 <= i < |s| ==> s[i] == '\n'
  }

  predicate OccursAt(s: string, sub: string, i: int) {
    0 <= i && i + |sub| <= |s| && s[i..i + |sub|] == sub
  }

  /** `str.rfind`: the last occurrence, or -1. */
  function RFind(s: string, sub: string): int {
    RFindUpTo(s, sub, |s|)
  }

  function RFindUpTo(s: string, sub: string, hi: nat): (r: int)
    ensures -1 <= r <= hi
  {
    if OccursAt(s, sub, hi) then hi
    else if hi == 0 then -1
    else RFindUpTo(s, sub, hi - 1)
  }

  lemma {:induction false} RFindUpToIsLast(s: string, sub: string, hi: nat)
    ensures var r := RFindUpTo(s, sub, hi);
      && (r != -1 ==> OccursAt(s, sub, r))
      && forall i :: r < i <= hi ==> !OccursAt(s, sub, i)
  {
    if !OccursAt(s, sub, hi) && hi != 0 {
      RFindUpToIsLast(s, sub, hi - 1);
    }
  }

  /** `RFind` gives the last occurrence, and -1 exactly when there is none. */
  lemma RFindIsLast(s: string, sub: string)
    ensures RFind(s, sub) != -1 ==> OccursAt(s, sub, RFind(s, sub))
    ensures forall i :: OccursAt(s, sub, i) ==> i <= RFind(s, sub)
  {
    RFindUpToIsLast(s, sub, |s|);
  }

  /** `str.rstrip("\n")`. */
  function RStripNewlines(s: string): (r: string)
    ensures r <= s
  {
    if |s| != 0 && s[|s| - 1] == '\n' then RStripNewlines(s[..|s| - 1]) else s
  }

  lemma {:induction false} RStripDropsNewlines(s: string)
    ensures AllNewlines(s[|RStripNewlines(s)|..])
  {
    if |s| != 0 && s[|s| - 1] == '\n' {
      var t := s[..|s| - 1];
      RStripDropsNewlines(t);
      assert s[|RStripNewlines(t)|..] == t[|RStripNewlines(t)|..] + "\n";
    }
  }

  function LeadingNewlines(s: string): (n: nat)
    ensures n <= |s|
  {
    if |s| != 0 && s[0] == '\n' then 1 + LeadingNewlines(s[1..]) else 0
  }

  /** `str.lstrip("\n")`. */
  function LStripNewlines(s: string): (r: string)
    ensures |r| <= |s| && r == s[|s| - |r|..]
  {
    s[LeadingNewlines(s)..]
  }

  lemma {:induction false} LStripDropsNewlines(s: string)
    ensures AllNewlines(s[..|s| - |LStripNewlines(s)|])
    ensures |LStripNewlines(s)| != 0 ==> LStripNewlines(s)[0] != '\n'
  {
    if |s| != 0 && s[0] == '\n' {
      var t := s[1..];
      LStripDropsNewlines(t);
      assert s[LeadingNewlines(s)..] == t[LeadingNewlines(t)..];
      assert s[..LeadingNewlines(s)] == "\n" + t[..LeadingNewlines(t)];
    }
  }

  /** `i` is the last place at or after the middle of `window` where `sep` starts. */
  ghost predicate LastSoft(window: string, sep: string, i: int) {
    && |window| / 2 <= i && OccursAt(window, sep, i)
    && forall k :: OccursAt(window, sep, k) ==> k <= i
  }

  ghost predicate NoSoft(window: string, sep: string) {
    forall k :: |window| / 2 <= k ==> !OccursAt(window, sep, k)
  }

  /** Paragraph break first, then line break, then space, then the hard limit. */
  ghost predicate PreferredCut(window: string, cut: int) {
    || LastSoft(window, "\n\n", cut)
    || (NoSoft(window, "\n\n") && LastSoft(window, "\n", cut))
    || (NoSoft(window, "\n\n") && NoSoft(window, "\n") && LastSoft(window, " ", cut))
    || (NoSoft(window, "\n\n") && NoSoft(window, "\n") && NoSoft(window, " ") && cut == |window|)
  }

  /** `_telegram_cut_index`. */
  function CutIndex(text: string, maxLength: nat): (cut: nat)
    ensures |text| <= maxLength ==> cut == |text|
    ensures |text| > maxLength ==> maxLength / 2 <= cut <= maxLength
  {
    if |text| <= maxLength then |text|
    else
      var window := text[..maxLength];
      var minSoft := maxLength / 2;
      var paragraph := RFind(window, "\n\n");
      if paragraph >= minSoft then paragraph
      else
        var line := RFind(window, "\n");
        if line >= minSoft then line
        else
          var space := RFind(window, " ");
          if space >= minSoft then space else maxLength
  }

  /** A cut respects the order of preference: paragraph, line, word, hard limit. */
  lemma CutIsPreferred(text: string, maxLength: nat)
    requires |text| > maxLength
    ensures PreferredCut(text[..maxLength], CutIndex(text, maxLength))
  {
    var window := text[..maxLength];
    assert |window| / 2 == maxLength / 2;
    RFindIsLast(window, "\n\n");
    RFindIsLast(window, "\n");
    RFindIsLast(window, " ");
  }

  datatype Piece = Piece(chunk: string, rest: string)

  /** `text` is `chunk`, then newlines only, then `rest`. */
  predicate CutsInto(text: string, chunk: string, rest: string) {
    && |chunk| + |rest| <= |text|
    && text[..|chunk|] == chunk
    && text[|text| - |rest|..] == rest
    && AllNewlines(text[|chunk|..|text| - |rest|])
  }

  /** One round of the loop, also the caption cut of `_publish_with_photo`. */
  function NextPiece(text: string, maxLength: nat): Piece
    requires 1 <= maxLength < |text|
  {
    var soft := CutIndex(text, maxLength);
    var stripped := RStripNewlines(text[..soft]);
    var chunk := if |stripped| == 0 then text[..maxLength] else stripped;
    var cut := if |stripped| == 0 then |chunk| else soft;
    Piece(chunk, LStripNewlines(text[cut..]))
  }

  lemma StripAroundCut(text: string, cut: nat, chunk: string)
    requires cut <= |text| && chunk <= text[..cut] && AllNewlines(text[..cut][|chunk|..])
    ensures CutsInto(text, chunk, LStripNewlines(text[cut..]))
  {
    var tail := text[cut..];
    var rest := LStripNewlines(tail);
    var head := text[..cut];
    LStripDropsNewlines(tail);
    forall i | |chunk| <= i < |text| - |rest| ensures text[i] == '\n' {
      if i < cut {
        assert text[i] == head[|chunk|..][i - |chunk|];
      } else {
        assert text[i] == tail[..|tail| - |rest|][i - cut];
      }
    }
  }

  /** A round makes progress, whatever the cut. */
  lemma NextPieceShrinks(text: string, maxLength: nat)
    requires 1 <= maxLength < |text|
    ensures 1 <= |NextPiece(text, maxLength).chunk| <= maxLength
    ensures |NextPiece(text, maxLength).rest| + Max(1, maxLength / 2) <= |text|
  {
  }

  /** A round loses nothing but newlines. */
  lemma NextPieceCuts(text: string, maxLength: nat)
    requires 1 <= maxLength < |text|
    ensures var p := NextPiece(text, maxLength); CutsInto(text, p.chunk, p.rest)
  {
    var soft := CutIndex(text, maxLength);
    var stripped := RStripNewlines(text[..soft]);
    RStripDropsNewlines(text[..soft]);
    if |stripped| == 0 {
      StripAroundCut(text, maxLength, text[..maxLength]);
    } else {
      StripAroundCut(text, soft, stripped);
    }
  }

  /** What the loop still appends when `remaining` is left. */
  function SplitRemaining(remaining: string, maxLength: nat): seq<string>
    requires maxLength >= 1
    decreases |remaining|
  {
    if |remaining| == 0 then []
    else if |remaining| <= maxLength then [remaining]
    else
      var p := NextPiece(remaining, maxLength);
      NextPieceShrinks(remaining, maxLength);
      [p.chunk] + SplitRemaining(p.rest, maxLength)
  }

  function Split(text: string, maxLength: nat): seq<string>
    requires maxLength >= 1
  {
    if |text| == 0 then [""] else SplitRemaining(text, maxLength)
  }

  /** The loop's own accumulator form of `SplitRemaining`. */
  function SplitOnto(chunks: seq<string>, remaining: string, maxLength: nat): seq<string>
    requires maxLength >= 1
    decreases |remaining|
  {
    if |remaining| == 0 then chunks
    else if |remaining| <= maxLength then chunks + [remaining]
    else
      var p := NextPiece(remaining, maxLength);
      NextPieceShrinks(remaining, maxLength);
      SplitOnto(chunks + [p.chunk], p.rest, maxLength)
  }

  lemma {:induction false} SplitOntoAppends(chunks: seq<string>, remaining: string, maxLength: nat)
    requires maxLength >= 1
    ensures SplitOnto(chunks, remaining, maxLength) == chunks + SplitRemaining(remaining, maxLength)
    decreases |remaining|
  {
    hide NextPiece;
    if |remaining| > maxLength {
      var p := NextPiece(remaining, maxLength);
      NextPieceShrinks(remaining, maxLength);
      SplitOntoAppends(chunks + [p.chunk], p.rest, maxLength);
      var later := SplitRemaining(p.rest, maxLength);
      assert chunks + ([p.chunk] + later) == (chunks + [p.chunk]) + later;
    }
  }

  /** The cut, the strip and the fallback of one round, in the source's order. */
  method TakePiece(remaining: string, maxLength: nat) returns (chunk: string, rest: string)
    requires 1 <= maxLength < |remaining|
    ensures Piece(chunk, rest) == NextPiece(remaining, maxLength)
  {
    var cut := CutIndex(remaining, maxLength);
    chunk := RStripNewlines(remaining[..cut]);
    if |chunk| == 0 {
      chunk := remaining[..maxLength];
      cut := |chunk|;
    }
    rest := LStripNewlines(remaining[cut..]);
  }

  /** `split_telegram_text`. */
  method SplitTelegramText(text: string, maxLength: int) returns (r: Result<seq<string>, string>)
    ensures maxLength < 1 ==> r.Err?
    ensures maxLength >= 1 ==> r == Ok(Split(text, maxLength))
  {
    if maxLength < 1 {
      return Err("max_length must be positive");
    }
    if |text| == 0 {
      return Ok([""]);
    }
    if |text| <= maxLength {
      return Ok([text]);
    }
    SplitOntoAppends([], text, maxLength);
    var chunks: seq<string> := [];
    var remaining := text;
    while |remaining| != 0
      invariant SplitOnto(chunks, remaining, maxLength) == Split(text, maxLength)
      decreases |remaining|
    {
      if |remaining| <= maxLength {
        chunks := chunks + [remaining];
        break;
      }
      NextPieceShrinks(remaining, maxLength);
      var chunk, rest := TakePiece(remaining, maxLength);
      chunks := chunks + [chunk];
      remaining := rest;
    }
    return Ok(chunks);
  }

  /** `chunks[0] + gaps[0] + chunks[1] + gaps[1] + ...` */
  function Weave(chunks: seq<string>, gaps: seq<string>): string
    requires |chunks| == |gaps|
  {
    if chunks == [] then "" else chunks[0] + gaps[0] + Weave(chunks[1..], gaps[1..])
  }

  /** `text` is the chunks in order with nothing but newlines between and after them. */
  ghost predicate WovenFrom(text: string, chunks: seq<string>) {
    exists gaps: seq<string> ::
      |gaps| == |chunks| && (forall i :: 0 <= i < |gaps| ==> AllNewlines(gaps[i])) && text == Weave(chunks, gaps)
  }

  lemma WovenCons(text: string, chunk: string, rest: string, chunks: seq<string>)
    requires CutsInto(text, chunk, rest) && WovenFrom(rest, chunks)
    ensures WovenFrom(text, [chunk] + chunks)
  {
    var gaps: seq<string> :|
      |gaps| == |chunks| && (forall i :: 0 <= i < |gaps| ==> AllNewlines(gaps[i])) && rest == Weave(chunks, gaps);
    var gap := text[|chunk|..|text| - |rest|];
    assert ([chunk] + chunks)[1..] == chunks && ([gap] + gaps)[1..] == gaps;
    assert text == chunk + gap + rest;
    assert text == Weave([chunk] + chunks, [gap] + gaps);
  }

  lemma {:induction false} RemainingLosesOnlyNewlines(text: string, maxLength: nat)
    requires maxLength >= 1
    ensures WovenFrom(text, SplitRemaining(text, maxLength))
    decreases |text|
  {
    if |text| == 0 {
      assert text == Weave([], []);
    } else if |text| <= maxLength {
      assert text == Weave([text], [""]);
    } else {
      var p := NextPiece(text, maxLength);
      NextPieceShrinks(text, maxLength);
      NextPieceCuts(text, maxLength);
      RemainingLosesOnlyNewlines(p.rest, maxLength);
      WovenCons(text, p.chunk, p.rest, SplitRemaining(p.rest, maxLength));
    }
  }

  /** The splitter drops nothing but newlines, for every text and limit. */
  lemma SplitLosesOnlyNewlines(text: string, maxLength: nat)
    requires maxLength >= 1
    ensures WovenFrom(text, Split(text, maxLength))
  {
    if |text| == 0 {
      assert text == Weave([""], [""]);
    } else {
      RemainingLosesOnlyNewlines(text, maxLength);
    }
  }

  function DropNewlines(s: string): string {
    if |s| == 0 then "" else (if s[0] == '\n' then "" else [s[0]]) + DropNewlines(s[1..])
  }

  function Concat(chunks: seq<string>): string {
    if chunks == [] then "" else chunks[0] + Concat(chunks[1..])
  }

  lemma {:induction false} DropNewlinesConcat(s: string, t: string)
    ensures DropNewlines(s + t) == DropNewlines(s) + DropNewlines(t)
  {
    if |s| == 0 {
      assert s + t == t;
    } else {
      assert (s + t)[1..] == s[1..] + t;
      DropNewlinesConcat(s[1..], t);
    }
  }

  lemma {:induction false} DropNewlinesAll(s: string)
    requires AllNewlines(s)
    ensures |DropNewlines(s)| == 0
  {
    if |s| != 0 {
      DropNewlinesAll(s[1..]);
    }
  }

  lemma {:induction false} DropNewlinesWeave(chunks: seq<string>, gaps: seq<string>)
    requires |chunks| == |gaps| && forall i :: 0 <= i < |gaps| ==> AllNewlines(gaps[i])
    ensures DropNewlines(Weave(chunks, gaps)) == DropNewlines(Concat(chunks))
  {
    if chunks != [] {
      var tail := Weave(chunks[1..], gaps[1..]);
      DropNewlinesWeave(chunks[1..], gaps[1..]);
      DropNewlinesConcat(chunks[0] + gaps[0], tail);
      DropNewlinesConcat(chunks[0], gaps[0]);
      DropNewlinesAll(gaps[0]);
      DropNewlinesConcat(chunks[0], Concat(chunks[1..]));
    }
  }

  lemma WovenKeepsText(text: string, chunks: seq<string>)
    requires WovenFrom(text, chunks)
    ensures DropNewlines(text) == DropNewlines(Concat(chunks))
  {
    var gaps: seq<string> :|
      |gaps| == |chunks| && (forall i :: 0 <= i < |gaps| ==> AllNewlines(gaps[i])) && text == Weave(chunks, gaps);
    DropNewlinesWeave(chunks, gaps);
  }

  /** Deleting newlines from the text and from the joined chunks gives the same string. */
  lemma SplitKeepsText(text: string, maxLength: nat)
    requires maxLength >= 1
    ensures DropNewlines(Concat(Split(text, maxLength))) == DropNewlines(text)
  {
    SplitLosesOnlyNewlines(text, maxLength);
    WovenKeepsText(text, Split(text, maxLength));
  }

  /** Every chunk of a nonempty text is nonempty and within the limit. */
  lemma {:induction false} ChunksFit(text: string, maxLength: nat)
    requires maxLength >= 1
    ensures forall c :: c in SplitRemaining(text, maxLength) ==> |c| != 0 && |c| <= maxLength
    decreases |text|
  {
    hide NextPiece;
    if |text| > maxLength {
      NextPieceShrinks(text, maxLength);
      ChunksFit(NextPiece(text, maxLength).rest, maxLength);
    }
  }

  /** `k` rounds of at least `m` characters each, and one character for the last chunk. */
  function Consumed(k: nat, m: nat): (n: nat) {
    if k == 0 then 0 else m + Consumed(k - 1, m)
  }

  lemma {:induction false} ConsumedIsProduct(k: nat, m: nat)
    ensures Consumed(k, m) == k * m
  {
    if k > 0 {
      ConsumedIsProduct(k - 1, m);
      assert k * m == (k - 1) * m + m;
    }
  }

  lemma {:induction false} RoundsConsume(text: string, maxLength: nat, m: nat)
    requires maxLength >= 1 && |text| != 0
    requires m == Max(1, maxLength / 2)
    ensures |SplitRemaining(text, maxLength)| >= 1
    ensures Consumed(|SplitRemaining(text, maxLength)| - 1, m) < |text|
    decreases |text|
  {
    hide NextPiece;
    if |text| > maxLength {
      NextPieceShrinks(text, maxLength);
      var rest := NextPiece(text, maxLength).rest;
      if |rest| != 0 {
        RoundsConsume(rest, maxLength, m);
      }
    }
  }

  /** k chunks need a text longer than k - 1 half windows, so the splitter stays short. */
  lemma ChunkCount(text: string, maxLength: nat)
    requires maxLength >= 1 && |text| != 0
    ensures var chunks, m := Split(text, maxLength), Max(1, maxLength / 2);
      |chunks| >= 1 && (|chunks| - 1) * m < |text|
  {
    var m, k := Max(1, maxLength / 2), |Split(text, maxLength)|;
    assert k >= 1 && (k - 1) * m < |text| by {
      RoundsConsume(text, maxLength, m);
      ConsumedIsProduct(k - 1, m);
    }
  }

  /** A text that fits is one chunk, unchanged; the empty text is one empty chunk. */
  lemma {:induction false} SplitFits(text: string, maxLength: nat)
    requires maxLength >= 1
    ensures |text| <= maxLength <==> Split(text, maxLength) == [text]
  {
    if |text| > maxLength {
      var p := NextPiece(text, maxLength);
      NextPieceShrinks(text, maxLength);
      assert Split(text, maxLength)[0] == p.chunk;
      assert p.chunk != text;
    }
  }
}
