/**
 * Documents as people write them: blocks without blank lines between them, any bullet or number style, and
 * calls to action with their URL on the line.
 */
module TightDocument {
  import opened Common
  import opened MarketingDocument
  import opened DocumentRoundTrip

  // ---- Blocks without blank lines between them ----

  /** Two neighbours the parser cannot tell apart without a blank line. */
  predicate Merges(a: Block, b: Block) {
    (a.Paragraph? && b.Paragraph?) || (a.UnorderedList? && b.UnorderedList?) || (a.OrderedList? && b.OrderedList?)
  }

  /** Neighbouring paragraphs become one with a space between, neighbouring lists of one kind one list. */
  function Merged(a: Block, b: Block): Block
    requires Merges(a, b)
  {
    match a
    case Paragraph(text) => Paragraph(text + " " + b.text)
    case UnorderedList(items) => UnorderedList(items + b.items)
    case OrderedList(items) => OrderedList(items + b.items)
  }

  function Append(bs: seq<Block>, b: Block): seq<Block> {
    if |bs| > 0 && Merges(bs[|bs| - 1], b) then bs[..|bs| - 1] + [Merged(bs[|bs| - 1], b)] else bs + [b]
  }

  function AppendAll(bs: seq<Block>, more: seq<Block>): seq<Block>
    decreases |more|
  {
    if |more| == 0 then bs else AppendAll(Append(bs, more[0]), more[1..])
  }

  function TightLines(bs: seq<Block>): seq<string> {
    if |bs| == 0 then [] else BlockLines(bs[0]) + TightLines(bs[1..])
  }

  /** The parser has read `bs` and nothing since, its last block still pending if it can grow. */
  predicate HasRead(p: Parser, bs: seq<Block>) {
    if |bs| == 0 then p == START
    else
      var front, last := bs[..|bs| - 1], bs[|bs| - 1];
      match last
      case Paragraph(text) =>
        p == Parser(front, p.paragraph, [], None) && |p.paragraph| > 0 && Join(p.paragraph, " ") == text && Trim(text) == text && |text| > 0
      case UnorderedList(items) => p == Parser(front, [], items, Some(Unordered)) && |items| > 0
      case OrderedList(items) => p == Parser(front, [], items, Some(Ordered)) && |items| > 0
      case _ => p == Ready(bs)
  }

  lemma FlushesRead(p: Parser, bs: seq<Block>)
    requires HasRead(p, bs)
    ensures Flush(p) == Ready(bs)
  {
    hide Trim, Join;
    if |bs| > 0 {
      assert bs == bs[..|bs| - 1] + [bs[|bs| - 1]];
    }
  }

  lemma {:induction false} JoinMore(parts: seq<string>, last: string)
    requires |parts| > 0
    ensures Join(parts + [last], " ") == Join(parts, " ") + " " + last
  {
    if |parts| == 1 {
      assert (parts + [last])[1..] == [last];
    } else {
      assert (parts + [last])[1..] == parts[1..] + [last];
      JoinMore(parts[1..], last);
    }
  }

  lemma TrimSolid(s: string)
    requires |s| > 0 && Trim(s) == s
    ensures !IsSpace(s[0]) && !IsSpace(s[|s| - 1])
  {
    TrimEndIsSolid(TrimStart(s));
    assert TrimStart(s) == s;
  }

  lemma {:induction false} TrimEndIsSolid(s: string)
    ensures |TrimEnd(s)| > 0 ==> !IsSpace(TrimEnd(s)[|TrimEnd(s)| - 1])
  {
    if |s| > 0 && IsSpace(s[|s| - 1]) {
      TrimEndIsSolid(s[..|s| - 1]);
    }
  }

  lemma PlainLineReads(p: Parser, bs: seq<Block>, text: string)
    requires HasRead(p, bs) && Clean(text) && IsPlain(text)
    ensures HasRead(Step(p, text), Append(bs, Paragraph(text)))
  {
    hide IsHeading, IsBullet, IsNumbered, IsCtaLike, Trim;
    TrimClean(text);
    if |bs| > 0 && bs[|bs| - 1].Paragraph? {
      var whole := bs[|bs| - 1].text + " " + text;
      JoinMore(p.paragraph, text);
      TrimSolid(bs[|bs| - 1].text);
      TrimClean(whole);
      assert Append(bs, Paragraph(text))[..|bs| - 1] == bs[..|bs| - 1];
    } else {
      FlushListRead(p, bs);
      assert (bs + [Paragraph(text)])[..|bs|] == bs;
      assert Join([text], " ") == text;
    }
  }

  /** Only a pending list is closed before a paragraph. */
  lemma FlushListRead(p: Parser, bs: seq<Block>)
    requires HasRead(p, bs) && (|bs| == 0 || !bs[|bs| - 1].Paragraph?)
    ensures (if p.listType.Some? then FlushList(p) else p) == Ready(bs)
  {
    if |bs| > 0 {
      assert bs == bs[..|bs| - 1] + [bs[|bs| - 1]];
    }
  }

  lemma PushedLineReads(p: Parser, bs: seq<Block>, line: string, b: Block)
    requires HasRead(p, bs) && Clean(line) && (b.Heading? || b.Cta?)
    requires Step(p, line) == Push(Flush(p), b)
    ensures HasRead(Step(p, line), Append(bs, b))
  {
    hide Step, Flush, HasRead;
    FlushesRead(p, bs);
    PushedRead(bs, b);
  }

  lemma PushedRead(bs: seq<Block>, b: Block)
    requires b.Heading? || b.Cta?
    ensures HasRead(Ready(bs + [b]), Append(bs, b)) && Push(Ready(bs), b) == Ready(bs + [b])
  {
  }

  /** A line of a list of type `t` with item `text`. */
  predicate IsItemLine(line: string, t: ListType, text: string) {
    && Clean(line) && |text| > 0 && !IsHeading(line, 2) && !IsHeading(line, 3)
    && match t
       case Unordered => IsBullet(line) && BulletText(line) == text
       case Ordered => !IsBullet(line) && IsNumbered(line) && NumberedText(line) == text
  }

  lemma ItemLineReads(p: Parser, bs: seq<Block>, line: string, t: ListType, text: string)
    requires HasRead(p, bs) && IsItemLine(line, t, text)
    ensures HasRead(Step(p, line), Append(bs, ListBlock(t, [text])))
  {
    hide Trim, IsHeading, IsBullet, IsNumbered, IsCtaLike, BulletText, NumberedText, Join;
    TrimClean(line);
    assert Step(p, line) == AddItem(p, t, text);
    ItemReads(p, bs, t, text);
  }

  /** A list of the same kind goes on. */
  lemma ItemJoins(p: Parser, bs: seq<Block>, t: ListType, text: string)
    requires HasRead(p, bs) && |bs| > 0 && Merges(bs[|bs| - 1], ListBlock(t, [text]))
    ensures HasRead(AddItem(p, t, text), Append(bs, ListBlock(t, [text])))
  {
    assert Append(bs, ListBlock(t, [text]))[..|bs| - 1] == bs[..|bs| - 1];
  }

  /** Anything else is closed first. */
  lemma ItemStarts(p: Parser, bs: seq<Block>, t: ListType, text: string)
    requires HasRead(p, bs) && (|bs| == 0 || !Merges(bs[|bs| - 1], ListBlock(t, [text])))
    ensures AddItem(p, t, text) == Parser(bs, [], [text], Some(t))
  {
    hide Trim, Join;
    if |bs| > 0 {
      assert bs == bs[..|bs| - 1] + [bs[|bs| - 1]];
    }
  }

  lemma ItemReads(p: Parser, bs: seq<Block>, t: ListType, text: string)
    requires HasRead(p, bs)
    ensures HasRead(AddItem(p, t, text), Append(bs, ListBlock(t, [text])))
  {
    hide AddItem;
    var b := ListBlock(t, [text]);
    if |bs| > 0 && Merges(bs[|bs| - 1], b) {
      ItemJoins(p, bs, t, text);
    } else {
      ItemStarts(p, bs, t, text);
      assert (bs + [b])[..|bs|] == bs;
    }
  }

  /** Any lines that read as items read as one list, joined to a list of their kind before them. */
  lemma {:induction false} ListLinesRead(p: Parser, bs: seq<Block>, lines: seq<string>, t: ListType, items: seq<string>)
    requires HasRead(p, bs) && 0 < |items| == |lines|
    requires forall i :: 0 <= i < |items| ==> IsItemLine(lines[i], t, items[i])
    ensures HasRead(Steps(p, lines), Append(bs, ListBlock(t, items)))
    decreases |items|
  {
    hide Step, HasRead, IsItemLine;
    var n := |items| - 1;
    if n == 0 {
      StepsOne(p, lines[0]);
      ItemLineReads(p, bs, lines[0], t, items[0]);
      assert items == [items[0]] && lines == [lines[0]];
    } else {
      ListLinesRead(p, bs, lines[..n], t, items[..n]);
      StepsAppend(p, lines[..n], [lines[n]]);
      var mid := Steps(p, lines[..n]);
      StepsOne(mid, lines[n]);
      ItemLineReads(mid, Append(bs, ListBlock(t, items[..n])), lines[n], t, items[n]);
      assert lines == lines[..n] + [lines[n]];
      AppendItem(bs, t, items[..n], items[n]);
      assert items == items[..n] + [items[n]];
    }
  }

  lemma AppendItem(bs: seq<Block>, t: ListType, items: seq<string>, text: string)
    ensures Append(Append(bs, ListBlock(t, items)), ListBlock(t, [text])) == Append(bs, ListBlock(t, items + [text]))
  {
    if |bs| > 0 && Merges(bs[|bs| - 1], ListBlock(t, items)) {
      assert bs[|bs| - 1].items + items + [text] == bs[|bs| - 1].items + (items + [text]);
    }
  }

  lemma BlockReadsTight(p: Parser, bs: seq<Block>, b: Block)
    requires HasRead(p, bs) && Printable(b)
    ensures HasRead(Steps(p, BlockLines(b)), Append(bs, b))
  {
    hide Step, HasRead, Flush, Hashes, IsPlain, IsCtaLine, FirstUrl, Clean, Append;
    match b {
      case Heading(level, text) =>
        var line := Hashes(level) + " " + text;
        StepsOne(p, line);
        HeadingLine(level, text);
        HeadingSteps(p, level, text);
        PushedLineReads(p, bs, line, b);
      case Paragraph(text) =>
        StepsOne(p, text);
        PlainLineReads(p, bs, text);
      case UnorderedList(items) =>
        forall i | 0 <= i < |items| ensures IsItemLine(BulletLines(items)[i], Unordered, items[i]) {
          BulletLine(items[i]);
          CleanNonempty(items[i]);
        }
        ListLinesRead(p, bs, BulletLines(items), Unordered, items);
      case OrderedList(items) =>
        forall i | 0 <= i < |items| ensures IsItemLine(NumberedLines(items)[i], Ordered, items[i]) {
          NumberedLine(i + 1, items[i]);
          CleanNonempty(items[i]);
        }
        ListLinesRead(p, bs, NumberedLines(items), Ordered, items);
      case Cta(text, _) =>
        StepsOne(p, text);
        CtaSteps(p, text);
        CtaParses([], text);
        PushedLineReads(p, bs, text, b);
    }
  }

  lemma HeadingSteps(p: Parser, level: nat, text: string)
    requires (level == 2 || level == 3) && Clean(text)
    ensures var line := Hashes(level) + " " + text; Step(p, line) == Push(Flush(p), Heading(level, text))
  {
    hide Trim, IsHeading, HeadingText, IsBullet, IsNumbered, IsCtaLike, Hashes, Flush;
    HeadingLine(level, text);
    TrimClean(Hashes(level) + " " + text);
  }

  lemma CtaSteps(p: Parser, text: string)
    requires Clean(text) && IsCtaLine(text)
    ensures Step(p, text) == Push(Flush(p), CtaOf(text))
  {
    hide Trim, IsHeading, IsBullet, IsNumbered, IsCtaLike, CtaOf, Flush;
    TrimClean(text);
  }

  lemma {:induction false} TightLinesRead(p: Parser, bs: seq<Block>, more: seq<Block>)
    requires HasRead(p, bs) && AllPrintable(more)
    ensures HasRead(Steps(p, TightLines(more)), AppendAll(bs, more))
    decreases |more|
  {
    hide Step, HasRead, Printable, BlockLines, Append;
    if |more| > 0 {
      BlockReadsTight(p, bs, more[0]);
      StepsAppend(p, BlockLines(more[0]), TightLines(more[1..]));
      TightLinesRead(Steps(p, BlockLines(more[0])), Append(bs, more[0]), more[1..]);
    }
  }

  lemma {:induction false} AppendAllNonempty(bs: seq<Block>, more: seq<Block>)
    requires |bs| + |more| > 0
    ensures |AppendAll(bs, more)| > 0
    decreases |more|
  {
    if |more| > 0 {
      AppendAllNonempty(Append(bs, more[0]), more[1..]);
    }
  }

  /** Printed one line after the other without blank lines, a document comes back with its mergeable neighbours merged. */
  lemma {:induction false} TightParses(bs: seq<Block>)
    requires |bs| > 0 && AllPrintable(bs)
    ensures Parse(Join(TightLines(bs), "\n")) == AppendAll([], bs)
  {
    hide Step, Steps, HasRead, Flush, AllPrintable, AppendAll, SplitLines, NormalizeNewlines, Join, TightLines, AllOneLine, NoReturn;
    var lines := TightLines(bs);
    TightLinesPrint(bs);
    JoinNoReturn(lines);
    NormalizeSame(Join(lines, "\n"));
    SplitJoin(lines);
    assert HasRead(START, []) by { NothingRead(); }
    TightLinesRead(START, [], bs);
    FlushesRead(Steps(START, lines), AppendAll([], bs));
    AppendAllNonempty([], bs);
  }

  lemma NothingRead()
    ensures HasRead(START, [])
  {
  }

  lemma {:induction false} TightLinesPrint(bs: seq<Block>)
    requires |bs| > 0 && AllPrintable(bs)
    ensures |TightLines(bs)| > 0 && AllOneLine(TightLines(bs))
  {
    hide Printable, BlockLines, OneLine;
    BlockLinesPrint(bs[0]);
    if |bs| > 1 {
      TightLinesPrint(bs[1..]);
    }
  }

  predicate NoneMerge(bs: seq<Block>) {
    forall i :: 0 <= i < |bs| - 1 ==> !Merges(bs[i], bs[i + 1])
  }

  lemma {:induction false} AppendAllLength(bs: seq<Block>, more: seq<Block>)
    ensures |AppendAll(bs, more)| <= |bs| + |more|
    decreases |more|
  {
    if |more| > 0 {
      AppendAllLength(Append(bs, more[0]), more[1..]);
    }
  }

  lemma {:induction false} AppendAllIff(bs: seq<Block>, more: seq<Block>)
    requires NoneMerge(bs)
    ensures AppendAll(bs, more) == bs + more <==> NoneMerge(bs + more)
    decreases |more|
  {
    if |more| == 0 {
      assert bs + more == bs;
    } else {
      var n := |bs|;
      assert bs + more == (bs + [more[0]]) + more[1..];
      assert n > 0 ==> (bs + more)[n - 1] == bs[n - 1] && (bs + more)[n] == more[0];
      if n > 0 && Merges(bs[n - 1], more[0]) {
        AppendAllLength(Append(bs, more[0]), more[1..]);
      } else {
        AppendAllIff(bs + [more[0]], more[1..]);
      }
    }
  }

  /** So blank lines matter exactly between two paragraphs and between two lists of one kind. */
  lemma {:induction false} TightRoundTripsIff(bs: seq<Block>)
    requires |bs| > 0 && AllPrintable(bs)
    ensures Parse(Join(TightLines(bs), "\n")) == bs <==> NoneMerge(bs)
  {
    hide Parse, Join, AllPrintable, TightLines;
    TightParses(bs);
    AppendAllIff([], bs);
    assert [] + bs == bs;
  }

  // ---- Any bullet, any number ----

  predicate IsGap(gap: string) {
    |gap| > 0 && NoTerminator(gap) && forall i :: 0 <= i < |gap| ==> IsSpace(gap[i])
  }

  lemma {:induction false} TrimStartGap(gap: string, text: string)
    requires (forall i :: 0 <= i < |gap| ==> IsSpace(gap[i])) && |text| > 0 && !IsSpace(text[0])
    ensures TrimStart(gap + text) == text
  {
    if |gap| == 0 {
      assert gap + text == text;
    } else {
      assert (gap + text)[1..] == gap[1..] + text;
      TrimStartGap(gap[1..], text);
    }
  }

  lemma {:induction false} TrimEndGap(text: string, gap: string)
    requires |text| > 0 && !IsSpace(text[|text| - 1]) && Blank(gap)
    ensures TrimEnd(text + gap) == text
  {
    if |gap| == 0 {
      assert text + gap == text;
      TrimEndSolid(text);
    } else {
      assert (text + gap)[..|text + gap| - 1] == text + gap[..|gap| - 1];
      TrimEndGap(text, gap[..|gap| - 1]);
    }
  }

  /** Spaces around a line do not matter. */
  lemma {:induction false} PaddingIgnored(p: Parser, before: string, line: string, after: string)
    requires Clean(line) && Blank(before) && Blank(after)
    ensures Step(p, before + line + after) == Step(p, line)
  {
    assert before + line + after == before + (line + after);
    TrimStartGap(before, line + after);
    TrimEndGap(line, after);
    TrimClean(line);
    var raw := before + line + after;
    assert Trim(raw) == Trim(line);
    hide Trim, IsHeading, IsBullet, IsNumbered, IsCtaLike, HeadingText, BulletText, NumberedText, CtaOf, Flush, AddItem, AddPlain;
  }

  /** `-`, `*` and `•` all mark a bullet, with any gap before the item. */
  lemma {:induction false} AnyBullet(mark: char, gap: string, text: string)
    requires (mark == '-' || mark == '*' || mark == '•') && IsGap(gap) && Clean(text)
    ensures IsItemLine([mark] + gap + text, Unordered, text)
  {
    var line := [mark] + gap + text;
    CleanAfterPrefix([mark] + gap, text);
    assert line[1..] == gap + text && line[1] == gap[0];
    TrimStartGap(gap, text);
    UntilTerminatorAll(text);
  }

  /** Any digits with a point or a parenthesis number an item. */
  lemma {:induction false} AnyNumber(digits: string, mark: char, gap: string, text: string)
    requires |digits| > 0 && (forall i :: 0 <= i < |digits| ==> IsDigit(digits[i]))
    requires (mark == '.' || mark == ')') && IsGap(gap) && Clean(text)
    ensures IsItemLine(digits + [mark] + gap + text, Ordered, text)
  {
    var line := digits + [mark] + gap + text;
    assert NoTerminator(digits);
    CleanAfterPrefix(digits + [mark] + gap, text);
    assert line == digits + ([mark] + gap + text);
    DigitRunOf(digits, [mark] + gap + text);
    assert line[0] == digits[0] && line[|digits| + 1] == gap[0];
    assert line[|digits| + 1..] == gap + text;
    TrimStartGap(gap, text);
    UntilTerminatorAll(text);
  }

  /** Two or three hashes and any gap head a section. */
  lemma {:induction false} AnyHeading(p: Parser, level: nat, gap: string, text: string)
    requires (level == 2 || level == 3) && IsGap(gap) && Clean(text)
    ensures Step(p, Hashes(level) + gap + text) == Push(Flush(p), Heading(level, text))
  {
    hide Trim, IsBullet, IsNumbered, IsCtaLike, Flush;
    var line := Hashes(level) + gap + text;
    CleanAfterPrefix(Hashes(level) + gap, text);
    TrimClean(line);
    assert line[level..] == gap + text && line[level] == gap[0];
    TrimStartGap(gap, text);
  }

  // ---- Calls to action ----

  /** Lines that begin with one of the words are calls to action, in whatever ASCII case. */
  lemma CtaWords(rest: string)
    ensures IsCtaLike("CTA" + rest) && IsCtaLike("cta" + rest) && IsCtaLike("Shop now" + rest) && IsCtaLike("shop NOW" + rest)
    ensures IsCtaLike("حث" + rest) && IsCtaLike("اضغط" + rest) && IsCtaLike("اشتري" + rest) && IsCtaLike("اشترِ" + rest)
    ensures IsCtaLike("اطلب الآن" + rest)
  {
    var words := CTA_WORDS;
    assert StartsWithIgnoreCase("CTA" + rest, words[0]) && StartsWithIgnoreCase("cta" + rest, words[0]);
    assert StartsWithIgnoreCase("Shop now" + rest, words[6]) && StartsWithIgnoreCase("shop NOW" + rest, words[6]);
    assert StartsWithIgnoreCase("حث" + rest, words[1]) && StartsWithIgnoreCase("اضغط" + rest, words[2]);
    assert StartsWithIgnoreCase("اشتري" + rest, words[3]) && StartsWithIgnoreCase("اشترِ" + rest, words[4]);
    assert StartsWithIgnoreCase("اطلب الآن" + rest, words[5]);
  }

  lemma {:induction false} NonSpaceRunBefore(t: string, rest: string)
    ensures NonSpaceRun(t + " " + rest) == NonSpaceRun(t)
  {
    var s := t + " " + rest;
    if |t| > 0 {
      assert s[1..] == t[1..] + " " + rest;
      NonSpaceRunBefore(t[1..], rest);
    }
  }

  lemma {:induction false} NonSpaceRunAll(t: string)
    requires forall i :: 0 <= i < |t| ==> !IsSpace(t[i])
    ensures NonSpaceRun(t) == |t|
  {
    if |t| > 0 {
      NonSpaceRunAll(t[1..]);
    }
  }

  lemma SchemeBefore(t: string, rest: string, scheme: string)
    requires forall i :: 0 <= i < |scheme| ==> scheme[i] != ' '
    ensures StartsWith(t + " " + rest, scheme) == StartsWith(t, scheme)
  {
    var s := t + " " + rest;
    if |scheme| <= |t| {
      assert s[..|scheme|] == t[..|scheme|];
    } else if |scheme| <= |s| {
      assert s[|t|] == ' ' && s[..|scheme|][|t|] == ' ';
    }
  }

  lemma UrlLengthBefore(t: string, rest: string)
    ensures UrlLength(t + " " + rest) == UrlLength(t)
  {
    SchemeBefore(t, rest, "https://");
    SchemeBefore(t, rest, "http://");
    var s := t + " " + rest;
    if StartsWith(t, "https://") {
      assert s[8..] == t[8..] + " " + rest;
      NonSpaceRunBefore(t[8..], rest);
    } else if StartsWith(t, "http://") {
      assert s[7..] == t[7..] + " " + rest;
      NonSpaceRunBefore(t[7..], rest);
    }
  }

  /** A whole string that is one URL. */
  predicate IsUrl(u: string) {
    && (forall i :: 0 <= i < |u| ==> !IsSpace(u[i]))
    && ((StartsWith(u, "https://") && |u| > 8) || (StartsWith(u, "http://") && |u| > 7))
  }

  lemma UrlReaches(u: string)
    requires IsUrl(u)
    ensures UrlLength(u) == |u| && |u| > 0
  {
    if StartsWith(u, "https://") {
      assert u[..8][4] == 's' && u[..7][4] == u[4];
      NonSpaceRunAll(u[8..]);
    } else {
      NonSpaceRunAll(u[7..]);
    }
  }

  lemma UrlIsWhole(u: string)
    requires IsUrl(u)
    ensures FirstUrl(u) == Some(u) && RemoveUrls(u) == ""
  {
    hide UrlLength, IsUrl;
    UrlReaches(u);
    assert u[..|u|] == u && u[|u|..] == "";
  }

  lemma {:induction false} UrlAfterText(text: string, url: string)
    requires FirstUrl(text).None? && IsUrl(url)
    ensures FirstUrl(text + " " + url) == Some(url) && RemoveUrls(text + " " + url) == text + " "
    decreases |text|
  {
    hide UrlLength, IsUrl;
    var s := text + " " + url;
    UrlLengthBefore(text, url);
    if |text| == 0 {
      assert s[1..] == url;
      UrlIsWhole(url);
      assert RemoveUrls(s) == [' '] + RemoveUrls(url);
    } else {
      assert s[1..] == text[1..] + " " + url;
      UrlAfterText(text[1..], url);
      assert [s[0]] + (text[1..] + " ") == text + " ";
    }
  }

  /** A call-to-action line with its URL behind the text is split into the two. */
  lemma {:induction false} CtaLineSplits(p: Parser, text: string, url: string)
    requires Clean(text) && FirstUrl(text).None? && IsUrl(url) && IsCtaLine(text + " " + url)
    ensures Step(p, text + " " + url) == Push(Flush(p), Cta(text, Some(url)))
  {
    hide IsCtaLine, FirstUrl, RemoveUrls, Flush, Step, UrlLength;
    var line := text + " " + url;
    UrlAfterText(text, url);
    forall i | 0 <= i < |line| ensures !IsTerminator(line[i]) {
      if i > |text| {
        assert line[i] == url[i - |text| - 1] && !IsSpace(line[i]);
      }
    }
    assert line[|line| - 1] == url[|url| - 1];
    CtaSteps(p, line);
    TrimTrailing(text);
  }

  // ---- No URL stays in the text of a call to action ----

  /** A string whose first character is a space, or nothing. */
  predicate Detached(rest: string) {
    |rest| == 0 || IsSpace(rest[0])
  }

  predicate HasUrlAt(s: string, scheme: string) {
    StartsWith(s, scheme) && |s| > |scheme| && !IsSpace(s[|scheme|])
  }

  lemma UrlStartsIff(s: string)
    ensures UrlLength(s) > 0 <==> HasUrlAt(s, "https://") || HasUrlAt(s, "http://")
  {
    if StartsWith(s, "https://") {
      assert s[..8][4] == 's' && s[..7][4] == s[4];
    }
  }

  lemma NoSpaceInUrl(s: string, scheme: string)
    requires HasUrlAt(s, scheme) && forall i :: 0 <= i < |scheme| ==> !IsSpace(scheme[i])
    ensures forall i :: 0 <= i <= |scheme| ==> !IsSpace(s[i])
  {
    assert forall i :: 0 <= i < |scheme| ==> s[i] == s[..|scheme|][i];
  }

  lemma SchemeDetached(t: string, rest: string, scheme: string)
    requires Detached(rest) && forall i :: 0 <= i < |scheme| ==> !IsSpace(scheme[i])
    requires HasUrlAt(t + rest, scheme)
    ensures HasUrlAt(t, scheme)
  {
    var s := t + rest;
    NoSpaceInUrl(s, scheme);
    assert |t| < |s| ==> IsSpace(s[|t|]);
    assert t[..|scheme|] == s[..|scheme|];
  }

  /** What is cut off behind a space begins or ends no URL. */
  lemma UrlDetached(t: string, rest: string)
    requires Detached(rest) && UrlLength(t + rest) > 0
    ensures UrlLength(t) > 0
  {
    UrlStartsIff(t + rest);
    UrlStartsIff(t);
    if HasUrlAt(t + rest, "https://") {
      SchemeDetached(t, rest, "https://");
    } else {
      SchemeDetached(t, rest, "http://");
    }
  }

  lemma UrlOfPrefix(t: string, rest: string)
    ensures UrlLength(t) > 0 ==> UrlLength(t + rest) > 0
  {
    UrlStartsIff(t);
    UrlStartsIff(t + rest);
    assert |t| >= 8 ==> (t + rest)[..8] == t[..8];
    assert |t| >= 7 ==> (t + rest)[..7] == t[..7];
  }

  lemma {:induction false} NonSpaceRunEnds(s: string)
    ensures Detached(s[NonSpaceRun(s)..])
  {
    if NonSpaceRun(s) > 0 {
      NonSpaceRunEnds(s[1..]);
      assert s[NonSpaceRun(s)..] == s[1..][NonSpaceRun(s) - 1..];
    }
  }

  lemma UrlEnds(s: string)
    requires UrlLength(s) > 0
    ensures Detached(s[UrlLength(s)..])
  {
    var scheme := if StartsWith(s, "https://") then 8 else 7;
    NonSpaceRunEnds(s[scheme..]);
    assert s[UrlLength(s)..] == s[scheme..][UrlLength(s) - scheme..];
  }

  /** Removing URLs keeps everything before the first one, and what follows is cut off by a space. */
  lemma {:induction false} RemovedShape(s: string) returns (k: nat, rest: string)
    ensures k <= |s| && RemoveUrls(s) == s[..k] + rest && Detached(rest)
    ensures UrlLength(s) == 0 && |s| > 0 ==> k > 0
    decreases |s|
  {
    hide UrlLength;
    if |s| == 0 {
      k, rest := 0, "";
    } else if UrlLength(s) > 0 {
      k, rest := 0, RemoveUrls(s);
      var tail := s[UrlLength(s)..];
      UrlEnds(s);
      if |tail| > 0 {
        SpaceStartsNoUrl(tail);
      }
    } else {
      var j, later := RemovedShape(s[1..]);
      k, rest := j + 1, later;
      assert [s[0]] + (s[1..][..j] + later) == s[..k] + rest;
    }
  }

  lemma SpaceStartsNoUrl(s: string)
    requires |s| > 0 && IsSpace(s[0])
    ensures UrlLength(s) == 0
  {
    UrlStartsIff(s);
    assert |s| >= 8 ==> s[..8][0] == s[0];
    assert |s| >= 7 ==> s[..7][0] == s[0];
  }

  /** Once the URLs are removed, none is left, however many there were. */
  lemma {:induction false} NoUrlLeft(s: string)
    ensures FirstUrl(RemoveUrls(s)).None?
    decreases |s|
  {
    hide UrlLength;
    if |s| == 0 {
      UrlStartsIff("");
    } else if UrlLength(s) > 0 {
      NoUrlLeft(s[UrlLength(s)..]);
    } else {
      NoUrlLeft(s[1..]);
      var k, rest := RemovedShape(s);
      if UrlLength(s[..k] + rest) > 0 {
        UrlDetached(s[..k], rest);
      }
      UrlOfPrefix(s[..k], s[k..]);
      assert s == s[..k] + s[k..];
      assert RemoveUrls(s)[1..] == RemoveUrls(s[1..]);
    }
  }

  lemma {:induction false} NoUrlInSuffix(s: string, i: nat)
    requires FirstUrl(s).None? && i <= |s|
    ensures FirstUrl(s[i..]).None?
  {
    hide UrlLength;
    if i > 0 {
      NoUrlInSuffix(s[1..], i - 1);
      assert s[1..][i - 1..] == s[i..];
    }
  }

  lemma {:induction false} NoUrlInPrefix(t: string, rest: string)
    requires FirstUrl(t + rest).None?
    ensures FirstUrl(t).None?
    decreases |t|
  {
    hide UrlLength;
    UrlOfPrefix(t, rest);
    if |t| > 0 {
      assert (t + rest)[1..] == t[1..] + rest;
      NoUrlInPrefix(t[1..], rest);
    }
  }

  lemma {:induction false} TrimStartIsSuffix(s: string) returns (i: nat)
    ensures i <= |s| && TrimStart(s) == s[i..]
  {
    if |s| > 0 && IsSpace(s[0]) {
      var j := TrimStartIsSuffix(s[1..]);
      i := j + 1;
    } else {
      i := 0;
    }
  }

  /** The text of a call to action holds no URL, unless the line is nothing but URLs and is kept whole. */
  lemma {:induction false} CtaTextHasNoUrl(line: string)
    ensures var b := CtaOf(line);
      && b.url == FirstUrl(line)
      && (b.text == line || FirstUrl(b.text).None?)
      && (Trim(RemoveUrls(line)) != "" ==> b.text == Trim(RemoveUrls(line)))
  {
    hide FirstUrl, RemoveUrls;
    NoUrlLeft(line);
    var bare := RemoveUrls(line);
    var i := TrimStartIsSuffix(bare);
    NoUrlInSuffix(bare, i);
    var text := Trim(bare);
    assert bare[i..] == text + bare[i..][|text|..];
    NoUrlInPrefix(text, bare[i..][|text|..]);
  }

  lemma TrimTrailing(text: string)
    requires Clean(text)
    ensures Trim(text + " ") == text
  {
    var s := text + " ";
    assert TrimStart(s) == s && s[..|s| - 1] == text;
    TrimEndSolid(text);
  }

  // ---- Lines with a URL, blank documents, empty blocks ----

  /** A line with "http" in it and none of the words before it is a call to action exactly when it is short. */
  lemma UrlLineIff(line: string)
    requires Contains(line, "http") && forall i :: 0 <= i < |CTA_WORDS| ==> !StartsWithIgnoreCase(line, CTA_WORDS[i])
    ensures IsCtaLike(line) <==> CodeUnits(line) < 180
  {
  }

  /** How many characters take two UTF-16 code units. */
  function Astral(s: string): nat {
    if |s| == 0 then 0 else (if s[0] as int > 0xFFFF then 1 else 0) + Astral(s[1..])
  }

  lemma {:induction false} CodeUnitsCount(s: string)
    ensures CodeUnits(s) == |s| + Astral(s)
  {
    if |s| > 0 {
      CodeUnitsCount(s[1..]);
    }
  }

  predicate Blank(s: string) {
    forall i :: 0 <= i < |s| ==> IsSpace(s[i])
  }

  lemma {:induction false} TrimBlank(s: string)
    requires Blank(s)
    ensures Trim(s) == ""
  {
    if |s| > 0 {
      TrimBlank(s[1..]);
    }
  }

  lemma {:induction false} SplitBlank(s: string)
    requires Blank(s)
    ensures forall i :: 0 <= i < |SplitLines(s)| ==> Blank(SplitLines(s)[i])
  {
    if |s| > 0 {
      SplitBlank(s[1..]);
    }
  }

  lemma {:induction false} NormalizeBlank(s: string)
    requires Blank(s)
    ensures Blank(NormalizeNewlines(s))
    decreases |s|
  {
    if |s| >= 2 && s[0] == '\r' && s[1] == '\n' {
      NormalizeBlank(s[2..]);
    } else if |s| > 0 {
      NormalizeBlank(s[1..]);
    }
  }

  lemma {:induction false} BlankLinesRead(lines: seq<string>)
    requires forall i :: 0 <= i < |lines| ==> Blank(lines[i])
    ensures Steps(START, lines) == START
    decreases |lines|
  {
    hide Blank, Trim;
    if |lines| > 0 {
      TrimBlank(lines[0]);
      BlankLinesRead(lines[1..]);
    }
  }

  /** A blank text parses as one empty paragraph, which prints as nothing. */
  lemma {:induction false} BlankDocument(content: string)
    requires Blank(content)
    ensures Parse(content) == [Paragraph("")] && |Serialize(Parse(content))| == 0
  {
    hide Step, Blank, Trim, SplitLines, NormalizeNewlines;
    NormalizeBlank(content);
    SplitBlank(NormalizeNewlines(content));
    BlankLinesRead(SplitLines(NormalizeNewlines(content)));
    TrimBlank(content);
    PrintsNothing(Paragraph(""));
  }

  lemma PrintsNothing(b: Block)
    requires |SerializeBlock(b)| == 0
    ensures |Serialize([b])| == 0
  {
    hide SerializeBlock;
    var rest := [b][1..];
    assert |rest| == 0 && Texts(rest) == [];
    assert |Texts([b])| == 0;
  }

  lemma {:induction false} TextsAppend(a: seq<Block>, b: seq<Block>)
    ensures Texts(a + b) == Texts(a) + Texts(b)
    decreases |a|
  {
    hide SerializeBlock;
    if |a| == 0 {
      assert a + b == b;
    } else {
      assert (a + b)[1..] == a[1..] + b;
      TextsAppend(a[1..], b);
    }
  }

  /** A block that prints nothing leaves no trace, not even a blank line. */
  lemma {:induction false} EmptyBlocksVanish(a: seq<Block>, b: Block, c: seq<Block>)
    requires |SerializeBlock(b)| == 0
    ensures Serialize(a + [b] + c) == Serialize(a + c)
  {
    hide SerializeBlock;
    TextsAppend(a + [b], c);
    TextsAppend(a, [b]);
    TextsAppend(a, c);
    assert [b][1..] == [] && Texts([b]) == [];
    assert Texts(a) + [] == Texts(a);
  }
}
