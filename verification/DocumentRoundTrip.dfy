/** Printing a document and parsing it again gives the document back. */
module DocumentRoundTrip {
  import opened Common
  import opened MarketingDocument

  predicate NoTerminator(s: string) {
    forall i :: 0 <= i < |s| ==> !IsTerminator(s[i])
  }

  /** Trimmed, nonempty and on a single line. */
  predicate Clean(s: string) {
    |s| > 0 && NoTerminator(s) && !IsSpace(s[0]) && !IsSpace(s[|s| - 1])
  }

  /** A block the printer and the parser agree on. */
  predicate Printable(b: Block) {
    match b
    case Heading(level, text) => (level == 2 || level == 3) && Clean(text)
    case Paragraph(text) => Clean(text) && IsPlain(text)
    case UnorderedList(items) => |items| > 0 && forall i :: 0 <= i < |items| ==> Clean(items[i])
    case OrderedList(items) => |items| > 0 && forall i :: 0 <= i < |items| ==> Clean(items[i])
    case Cta(text, url) => url.None? && Clean(text) && IsCtaLine(text) && FirstUrl(text).None?
  }

  /** A line the parser takes for a call to action. */
  predicate IsCtaLine(line: string) {
    IsCtaLike(line) && !IsHeading(line, 2) && !IsHeading(line, 3) && !IsBullet(line) && !IsNumbered(line)
  }

  function BlockLines(b: Block): seq<string> {
    match b
    case Heading(level, text) => [Hashes(level) + " " + text]
    case Paragraph(text) => [text]
    case UnorderedList(items) => BulletLines(items)
    case OrderedList(items) => NumberedLines(items)
    case Cta(text, _) => [text]
  }

  // ---- Trimming ----

  lemma {:induction false} TrimEndSolid(s: string)
    requires |s| > 0 && !IsSpace(s[|s| - 1])
    ensures TrimEnd(s) == s
  {
  }

  lemma TrimClean(s: string)
    requires |s| > 0 && !IsSpace(s[0]) && !IsSpace(s[|s| - 1])
    ensures Trim(s) == s
  {
    TrimEndSolid(s);
  }

  lemma {:induction false} UntilTerminatorAll(s: string)
    requires NoTerminator(s)
    ensures UntilTerminator(s) == s
  {
    if |s| > 0 {
      UntilTerminatorAll(s[1..]);
      assert [s[0]] + s[1..] == s;
    }
  }

  lemma TrimStartSpace(text: string)
    requires |text| > 0 && !IsSpace(text[0])
    ensures TrimStart(" " + text) == text
  {
    assert (" " + text)[1..] == text;
    assert TrimStart(text) == text;
  }

  // ---- Line classes of printed lines ----

  lemma CleanAfterPrefix(prefix: string, text: string)
    requires |prefix| > 0 && NoTerminator(prefix) && !IsSpace(prefix[0]) && Clean(text)
    ensures Clean(prefix + text)
  {
    var line := prefix + text;
    assert line[|line| - 1] == text[|text| - 1];
  }

  lemma HeadingLine(level: nat, text: string)
    requires (level == 2 || level == 3) && Clean(text)
    ensures var line := Hashes(level) + " " + text;
      && Clean(line) && IsHeading(line, level) && (level == 3 ==> !IsHeading(line, 2)) && HeadingText(line, level) == text
  {
    var line := Hashes(level) + " " + text;
    CleanAfterPrefix(Hashes(level) + " ", text);
    assert line[level..] == " " + text;
    TrimStartSpace(text);
  }

  lemma BulletLine(text: string)
    requires Clean(text)
    ensures var line := "- " + text;
      && Clean(line) && !IsHeading(line, 2) && !IsHeading(line, 3) && IsBullet(line) && BulletText(line) == text
  {
    var line := "- " + text;
    CleanAfterPrefix("- ", text);
    assert line[1..] == " " + text;
    TrimStartSpace(text);
    UntilTerminatorAll(text);
  }

  lemma {:induction false} DecimalIsDigits(n: nat)
    ensures forall i :: 0 <= i < |Decimal(n)| ==> IsDigit(Decimal(n)[i])
  {
    if n >= 10 {
      DecimalIsDigits(n / 10);
    }
  }

  lemma {:induction false} DigitRunOf(digits: string, rest: string)
    requires (forall i :: 0 <= i < |digits| ==> IsDigit(digits[i])) && |rest| > 0 && !IsDigit(rest[0])
    ensures DigitRun(digits + rest) == |digits|
  {
    if |digits| > 0 {
      assert (digits + rest)[1..] == digits[1..] + rest;
      DigitRunOf(digits[1..], rest);
    } else {
      assert digits + rest == rest;
    }
  }

  lemma NumberedLine(number: nat, text: string)
    requires Clean(text)
    ensures var line := Decimal(number) + ". " + text;
      && Clean(line) && !IsHeading(line, 2) && !IsHeading(line, 3) && !IsBullet(line)
      && IsNumbered(line) && NumberedText(line) == text
  {
    hide Decimal;
    var digits := Decimal(number);
    var line := digits + ". " + text;
    DecimalIsDigits(number);
    assert IsDigit(digits[0]);
    CleanAfterPrefix(digits + ". ", text);
    assert line == digits + (". " + text);
    DigitRunOf(digits, ". " + text);
    assert line[|digits| + 1..] == " " + text;
    TrimStartSpace(text);
    UntilTerminatorAll(text);
  }

  // ---- Parsing printed lines ----

  /** A parser with nothing pending. */
  function Ready(blocks: seq<Block>): Parser {
    Parser(blocks, [], [], None)
  }

  lemma {:induction false} StepsAppend(p: Parser, a: seq<string>, b: seq<string>)
    ensures Steps(p, a + b) == Steps(Steps(p, a), b)
    decreases |a|
  {
    hide Step;
    if |a| == 0 {
      assert a + b == b;
    } else {
      assert (a + b)[1..] == a[1..] + b;
      StepsAppend(Step(p, a[0]), a[1..], b);
    }
  }

  lemma StepsOne(p: Parser, line: string)
    ensures Steps(p, [line]) == Step(p, line)
  {
    hide Step;
    assert [line][1..] == [];
  }

  lemma HeadingParses(blocks: seq<Block>, level: nat, text: string)
    requires (level == 2 || level == 3) && Clean(text)
    ensures Flush(Step(Ready(blocks), Hashes(level) + " " + text)) == Ready(blocks + [Heading(level, text)])
  {
    hide Trim, IsHeading, HeadingText, IsBullet, IsNumbered, IsCtaLike, Hashes;
    var line := Hashes(level) + " " + text;
    HeadingLine(level, text);
    TrimClean(line);
  }

  lemma ParagraphParses(blocks: seq<Block>, text: string)
    requires Clean(text) && IsPlain(text)
    ensures Flush(Step(Ready(blocks), text)) == Ready(blocks + [Paragraph(text)])
  {
    hide Trim, IsHeading, IsBullet, IsNumbered, IsCtaLike;
    TrimClean(text);
    assert Join([text], " ") == text;
  }

  lemma {:induction false} NoUrlKept(s: string)
    requires FirstUrl(s).None?
    ensures RemoveUrls(s) == s
  {
    hide UrlLength;
    if |s| > 0 {
      NoUrlKept(s[1..]);
      assert [s[0]] + s[1..] == s;
    }
  }

  lemma CtaParses(blocks: seq<Block>, text: string)
    requires Clean(text) && IsCtaLine(text)
    ensures Flush(Step(Ready(blocks), text)) == Ready(blocks + [CtaOf(text)])
    ensures FirstUrl(text).None? ==> CtaOf(text) == Cta(text, None)
  {
    hide Trim, IsHeading, IsBullet, IsNumbered, IsCtaLike, FirstUrl, RemoveUrls;
    TrimClean(text);
    if FirstUrl(text).None? {
      NoUrlKept(text);
    }
  }

  lemma BulletStep(p: Parser, text: string)
    requires Clean(text) && |p.paragraph| == 0 && (p.listType.None? || p.listType == Some(Unordered))
    ensures Step(p, "- " + text) == p.(listType := Some(Unordered), items := p.items + [text])
  {
    hide Trim, IsHeading, IsBullet, IsNumbered, IsCtaLike, BulletText;
    BulletLine(text);
    TrimClean("- " + text);
  }

  lemma NumberedStep(p: Parser, number: nat, text: string)
    requires Clean(text) && |p.paragraph| == 0 && (p.listType.None? || p.listType == Some(Ordered))
    ensures Step(p, Decimal(number) + ". " + text) == p.(listType := Some(Ordered), items := p.items + [text])
  {
    hide Trim, IsHeading, IsBullet, IsNumbered, IsCtaLike, NumberedText, Decimal;
    NumberedLine(number, text);
    TrimClean(Decimal(number) + ". " + text);
  }

  /** A list under way: the first `k` items are pending. */
  function Pending(blocks: seq<Block>, t: ListType, items: seq<string>, k: nat): Parser
    requires k <= |items|
  {
    Parser(blocks, [], items[..k], if k == 0 then None else Some(t))
  }

  function ListLine(t: ListType, items: seq<string>, k: nat): string
    requires k < |items|
  {
    if t.Unordered? then "- " + items[k] else Decimal(k + 1) + ". " + items[k]
  }

  lemma ListLineStep(blocks: seq<Block>, t: ListType, items: seq<string>, k: nat)
    requires k < |items| && Clean(items[k])
    ensures Step(Pending(blocks, t, items, k), ListLine(t, items, k)) == Pending(blocks, t, items, k + 1)
  {
    hide Step, Decimal, Clean;
    var p := Pending(blocks, t, items, k);
    if t.Unordered? {
      BulletStep(p, items[k]);
    } else {
      NumberedStep(p, k + 1, items[k]);
    }
    assert items[..k] + [items[k]] == items[..k + 1];
  }

  /** The list lines from item `k` on, read with the first `k` items pending. */
  lemma {:induction false} ListParses(blocks: seq<Block>, t: ListType, items: seq<string>, lines: seq<string>, k: nat)
    requires |items| > 0 && k <= |items| == |lines| && forall i :: 0 <= i < |items| ==> Clean(items[i])
    requires forall i :: 0 <= i < |items| ==> lines[i] == ListLine(t, items, i)
    ensures Flush(Steps(Pending(blocks, t, items, k), lines[k..])) == Ready(blocks + [ListBlock(t, items)])
    decreases |items| - k
  {
    hide Step, ListLine, Clean;
    if k == |items| {
      assert items[..k] == items;
    } else {
      hide Pending, Flush;
      ListLineStep(blocks, t, items, k);
      assert lines[k..][1..] == lines[k + 1..] && lines[k..][0] == lines[k];
      ListParses(blocks, t, items, lines, k + 1);
    }
  }

  /** The lines of one printable block, then a flush, add exactly that block. */
  lemma BlockParses(blocks: seq<Block>, b: Block)
    requires Printable(b)
    ensures Flush(Steps(Ready(blocks), BlockLines(b))) == Ready(blocks + [b])
  {
    hide Step, Flush, Hashes, Clean, IsPlain, IsCtaLine, FirstUrl;
    match b {
      case Heading(level, text) =>
        StepsOne(Ready(blocks), Hashes(level) + " " + text);
        HeadingParses(blocks, level, text);
      case Paragraph(text) =>
        StepsOne(Ready(blocks), text);
        ParagraphParses(blocks, text);
      case UnorderedList(items) =>
        ListParses(blocks, Unordered, items, BulletLines(items), 0);
        assert items[..0] == [] && BulletLines(items)[0..] == BulletLines(items);
      case OrderedList(items) =>
        ListParses(blocks, Ordered, items, NumberedLines(items), 0);
        assert items[..0] == [] && NumberedLines(items)[0..] == NumberedLines(items);
      case Cta(text, _) =>
        StepsOne(Ready(blocks), text);
        CtaParses(blocks, text);
    }
  }

  predicate AllPrintable(bs: seq<Block>) {
    forall i :: 0 <= i < |bs| ==> Printable(bs[i])
  }

  lemma BlankLine(p: Parser)
    ensures Step(p, "") == Flush(p)
  {
  }

  // ---- Lines and text ----

  /** The lines the parser sees of a text. */
  function Lines(s: string): seq<string> {
    SplitLines(NormalizeNewlines(s))
  }

  /** A carriage return that ends a text merges with the newline printed after it. */
  function DropReturn(s: string): string {
    if |s| > 0 && s[|s| - 1] == '\r' then s[..|s| - 1] else s
  }

  lemma DropReturnAfter(head: string, s: string)
    requires |s| > 0
    ensures DropReturn(head + s) == head + DropReturn(s)
  {
    assert (head + s)[..|head + s| - 1] == head + s[..|s| - 1];
  }

  lemma DropReturnTail(s: string, k: nat)
    requires k < |s| || (k == |s| > 0 && s[k - 1] != '\r')
    ensures |DropReturn(s)| >= k && DropReturn(s)[..k] == s[..k] && DropReturn(s)[k..] == DropReturn(s[k..])
  {
  }

  lemma NormalizePair(s: string)
    requires |s| >= 2 && s[0] == '\r' && s[1] == '\n'
    ensures NormalizeNewlines(s) == "\n" + NormalizeNewlines(s[2..])
  {
  }

  lemma NormalizeChar(s: string)
    requires |s| >= 1 && !(|s| >= 2 && s[0] == '\r' && s[1] == '\n')
    ensures NormalizeNewlines(s) == [s[0]] + NormalizeNewlines(s[1..])
  {
  }

  predicate BreaksAfter(s: string, rest: string) {
    NormalizeNewlines(s + "\n" + rest) == NormalizeNewlines(DropReturn(s)) + "\n" + NormalizeNewlines(rest)
  }

  lemma PairAtBreak(s: string, rest: string)
    requires |s| >= 2 && s[0] == '\r' && s[1] == '\n' && BreaksAfter(s[2..], rest)
    ensures BreaksAfter(s, rest)
  {
    hide DropReturn, NormalizeNewlines;
    var t, d := s + "\n" + rest, DropReturn(s);
    DropReturnTail(s, 2);
    assert t[2..] == s[2..] + "\n" + rest && d[0] == d[..2][0] && d[1] == d[..2][1];
    NormalizePair(t);
    NormalizePair(d);
  }

  lemma CharAtBreak(s: string, rest: string)
    requires |s| >= 1 && !(s[0] == '\r' && (|s| == 1 || s[1] == '\n')) && BreaksAfter(s[1..], rest)
    ensures BreaksAfter(s, rest)
  {
    hide DropReturn, NormalizeNewlines;
    var t, d := s + "\n" + rest, DropReturn(s);
    DropReturnTail(s, 1);
    DropReturnIsPrefix(s);
    assert t[1..] == s[1..] + "\n" + rest && d[0] == d[..1][0];
    NormalizeChar(t);
    NormalizeChar(d);
  }

  lemma {:induction false} NormalizeAtBreak(s: string, rest: string)
    ensures BreaksAfter(s, rest)
    decreases |s|
  {
    var t := s + "\n" + rest;
    if |s| == 0 {
      assert t[1..] == rest;
    } else if |s| == 1 && s[0] == '\r' {
      assert t[2..] == rest;
      NormalizePair(t);
      LoneReturn(s);
    } else if s[0] == '\r' && s[1] == '\n' {
      NormalizeAtBreak(s[2..], rest);
      PairAtBreak(s, rest);
    } else {
      NormalizeAtBreak(s[1..], rest);
      CharAtBreak(s, rest);
    }
  }

  lemma LoneReturn(s: string)
    requires |s| == 1 && s[0] == '\r'
    ensures NormalizeNewlines(DropReturn(s)) == ""
  {
  }

  lemma DropReturnIsPrefix(s: string)
    ensures DropReturn(s) <= s
  {
  }

  lemma {:induction false} SplitAtBreak(s: string, rest: string)
    ensures SplitLines(s + "\n" + rest) == SplitLines(s) + SplitLines(rest)
    decreases |s|
  {
    var t := s + "\n" + rest;
    if |s| == 0 {
      assert t[1..] == rest;
    } else {
      assert t[1..] == s[1..] + "\n" + rest;
      SplitAtBreak(s[1..], rest);
    }
  }

  lemma LinesAtBreak(s: string, rest: string)
    ensures Lines(s + "\n" + rest) == Lines(DropReturn(s)) + Lines(rest)
  {
    NormalizeAtBreak(s, rest);
    SplitAtBreak(NormalizeNewlines(DropReturn(s)), NormalizeNewlines(rest));
  }

  predicate AllPrintNonempty(bs: seq<Block>) {
    forall i :: 0 <= i < |bs| ==> |SerializeBlock(bs[i])| > 0
  }

  /** The lines of the blocks one after the other, separated by one blank line. */
  function LinesOf(bs: seq<Block>): seq<string>
    requires |bs| > 0
  {
    var text := SerializeBlock(bs[0]);
    if |bs| == 1 then Lines(text) else Lines(DropReturn(text)) + ([""] + LinesOf(bs[1..]))
  }

  /** Those are the lines of the printed document, whatever the texts and URLs of its blocks contain. */
  lemma {:induction false} PrintedLines(bs: seq<Block>)
    requires |bs| > 0 && AllPrintNonempty(bs)
    ensures |Texts(bs)| == |bs| && Lines(Serialize(bs)) == LinesOf(bs)
    decreases |bs|
  {
    hide SerializeBlock, Lines, DropReturn;
    var text := SerializeBlock(bs[0]);
    if |bs| == 1 {
      assert bs[1..] == [] && Texts(bs) == [text];
    } else {
      PrintedLines(bs[1..]);
      var rest := Serialize(bs[1..]);
      assert Texts(bs) == [text] + Texts(bs[1..]) && Texts(bs)[1..] == Texts(bs[1..]);
      assert Serialize(bs) == text + "\n" + ("" + "\n" + rest);
      LinesAtBreak(text, "" + "\n" + rest);
      LinesAtBreak("", rest);
      NoLines();
    }
  }

  lemma NoLines()
    ensures Lines(DropReturn("")) == [""]
  {
  }

  predicate OneLine(s: string) {
    forall i :: 0 <= i < |s| ==> s[i] != '\n' && s[i] != '\r'
  }

  predicate AllOneLine(lines: seq<string>) {
    forall i :: 0 <= i < |lines| ==> OneLine(lines[i])
  }

  lemma {:induction false} SplitOneLine(s: string)
    requires OneLine(s)
    ensures SplitLines(s) == [s]
  {
    if |s| > 0 {
      SplitOneLine(s[1..]);
      assert [s[0]] + s[1..] == s;
    }
  }

  lemma {:induction false} SplitJoin(lines: seq<string>)
    requires |lines| > 0 && AllOneLine(lines)
    ensures SplitLines(Join(lines, "\n")) == lines
  {
    if |lines| == 1 {
      SplitOneLine(lines[0]);
      assert lines == [lines[0]];
    } else {
      SplitAtBreak(lines[0], Join(lines[1..], "\n"));
      SplitOneLine(lines[0]);
      SplitJoin(lines[1..]);
      assert lines == [lines[0]] + lines[1..];
    }
  }

  predicate NoReturn(s: string) {
    forall i :: 0 <= i < |s| ==> s[i] != '\r'
  }

  lemma {:induction false} NormalizeSame(s: string)
    requires NoReturn(s)
    ensures NormalizeNewlines(s) == s
  {
    if |s| > 0 {
      NormalizeSame(s[1..]);
      assert [s[0]] + s[1..] == s;
    }
  }

  lemma {:induction false} JoinNoReturn(lines: seq<string>)
    requires AllOneLine(lines)
    ensures NoReturn(Join(lines, "\n"))
  {
    if |lines| > 1 {
      JoinNoReturn(lines[1..]);
    }
  }

  lemma CleanIsOneLine(s: string)
    requires Clean(s)
    ensures OneLine(s)
  {
    forall i | 0 <= i < |s| ensures s[i] != '\n' && s[i] != '\r' {
      assert !IsTerminator(s[i]);
    }
  }

  /** Printed lines are nonempty single lines, and joined they are the block's text. */
  lemma BlockLinesPrint(b: Block)
    requires Printable(b)
    ensures var lines := BlockLines(b);
      |lines| > 0 && AllOneLine(lines) && SerializeBlock(b) == Join(lines, "\n") && |SerializeBlock(b)| > 0
  {
    hide IsPlain, IsCtaLine, FirstUrl, Decimal, Clean, OneLine;
    var lines := BlockLines(b);
    forall i | 0 <= i < |lines| ensures OneLine(lines[i]) && |lines[i]| > 0 {
      match b {
        case Heading(level, text) => HeadingLine(level, text); CleanIsOneLine(lines[i]);
        case Paragraph(text) => CleanIsOneLine(text); CleanNonempty(text);
        case UnorderedList(items) => BulletLine(items[i]); CleanIsOneLine(lines[i]);
        case OrderedList(items) => NumberedLine(i + 1, items[i]); CleanIsOneLine(lines[i]);
        case Cta(text, _) => CleanIsOneLine(text); CleanNonempty(text);
      }
    }
    assert |Join(lines, "\n")| >= |lines[0]|;
  }

  lemma CleanNonempty(s: string)
    requires Clean(s)
    ensures |s| > 0
  {
  }

  // ---- URLs and pending blocks ----

  lemma {:induction false} NonSpaceRunSolid(s: string)
    ensures forall i :: 0 <= i < NonSpaceRun(s) ==> !IsSpace(s[i])
  {
    if NonSpaceRun(s) > 0 {
      NonSpaceRunSolid(s[1..]);
      assert forall i :: 1 <= i < NonSpaceRun(s) ==> s[i] == s[1..][i - 1];
    }
  }

  lemma UrlIsSolid(s: string)
    ensures forall i :: 0 <= i < UrlLength(s) ==> !IsSpace(s[i])
  {
    if UrlLength(s) > 0 {
      var scheme := if StartsWith(s, "https://") then "https://" else "http://";
      NonSpaceRunSolid(s[|scheme|..]);
      forall i | 0 <= i < UrlLength(s) ensures !IsSpace(s[i]) {
        if i < |scheme| {
          assert s[i] == s[..|scheme|][i] == scheme[i];
        } else {
          assert s[i] == s[|scheme|..][i - |scheme|];
        }
      }
    }
  }

  lemma {:induction false} FirstUrlIsClean(s: string)
    requires FirstUrl(s).Some?
    ensures Clean(FirstUrl(s).value)
  {
    hide UrlLength;
    if UrlLength(s) > 0 {
      UrlIsSolid(s);
      forall i | 0 <= i < UrlLength(s) ensures !IsTerminator(s[i]) {
        assert !IsSpace(s[i]);
      }
    } else {
      FirstUrlIsClean(s[1..]);
    }
  }

  lemma {:induction false} TrimEndKeepsFirst(s: string)
    requires |s| > 0 && !IsSpace(s[0])
    ensures |TrimEnd(s)| > 0
  {
    if IsSpace(s[|s| - 1]) {
      TrimEndKeepsFirst(s[..|s| - 1]);
    }
  }

  lemma PendingParagraphIsBlock(p: Parser)
    requires |p.paragraph| > 0 && |p.paragraph[0]| > 0 && !IsSpace(p.paragraph[0][0])
    ensures |FlushParagraph(p).blocks| == |p.blocks| + 1
    ensures p.blocks <= FlushParagraph(p).blocks && FlushParagraph(p).blocks[|p.blocks|].Paragraph?
  {
    var text := Join(p.paragraph, " ");
    assert text[0] == p.paragraph[0][0];
    TrimEndKeepsFirst(text);
  }

  /** Block number `k` of the result, present or pending, is no call to action. */
  predicate NoCtaAt(p: Parser, k: nat) {
    if |p.blocks| > k then !p.blocks[k].Cta?
    else
      && |p.blocks| == k
      && if |p.paragraph| > 0 then |p.paragraph[0]| > 0 && !IsSpace(p.paragraph[0][0])
         else p.listType.Some? && |p.items| > 0
  }

  lemma FlushNoCta(p: Parser, k: nat)
    requires NoCtaAt(p, k)
    ensures |Flush(p).blocks| > k && !Flush(p).blocks[k].Cta?
    ensures |FlushParagraph(p).paragraph| == 0 && FlushParagraph(p).items == p.items && FlushParagraph(p).listType == p.listType
    ensures NoCtaAt(FlushParagraph(p), k)
    ensures p.listType.Some? && (|p.items| > 0 || |p.blocks| > k || |p.paragraph| > 0) ==> NoCtaAt(FlushList(p), k)
  {
    hide Trim, Join;
    if |p.blocks| == k && |p.paragraph| > 0 {
      PendingParagraphIsBlock(p);
    }
  }

  lemma StepNoCta(p: Parser, raw: string, k: nat)
    requires NoCtaAt(p, k)
    ensures NoCtaAt(Step(p, raw), k)
  {
    hide Trim, IsHeading, IsBullet, IsNumbered, IsCtaLike, HeadingText, BulletText, NumberedText, CtaOf, FlushParagraph;
    FlushNoCta(p, k);
    FlushNoCta(FlushParagraph(p), k);
  }

  lemma {:induction false} StepsNoCta(p: Parser, lines: seq<string>, k: nat)
    requires NoCtaAt(p, k)
    ensures NoCtaAt(Steps(p, lines), k)
    decreases |lines|
  {
    hide Step, NoCtaAt;
    if |lines| > 0 {
      StepNoCta(p, lines[0], k);
      StepsNoCta(Step(p, lines[0]), lines[1..], k);
    }
  }

  lemma FlushKeepsBlocks(p: Parser)
    ensures p.blocks <= FlushParagraph(p).blocks && p.blocks <= FlushList(p).blocks && p.blocks <= Flush(p).blocks
    ensures Flush(p) == Ready(Flush(p).blocks)
  {
    hide Trim, Join;
  }

  lemma StepKeepsBlocks(p: Parser, raw: string)
    ensures p.blocks <= Step(p, raw).blocks
  {
    hide Trim, IsHeading, IsBullet, IsNumbered, IsCtaLike, HeadingText, BulletText, NumberedText, CtaOf, FlushParagraph, FlushList;
    FlushKeepsBlocks(p);
    FlushKeepsBlocks(FlushParagraph(p));
  }

  lemma {:induction false} StepsKeepBlocks(p: Parser, lines: seq<string>)
    ensures p.blocks <= Flush(Steps(p, lines)).blocks
    decreases |lines|
  {
    hide Step, Flush;
    if |lines| == 0 {
      FlushKeepsBlocks(p);
    } else {
      StepKeepsBlocks(p, lines[0]);
      StepsKeepBlocks(Step(p, lines[0]), lines[1..]);
    }
  }

  // ---- One block of a document ----

  /** What the lines of one block leave of a parser with nothing pending. */
  function BlocksAfter(blocks: seq<Block>, lines: seq<string>): seq<Block> {
    Flush(Steps(Ready(blocks), lines)).blocks
  }

  lemma FirstLine(blocks: seq<Block>, line: string, lines: seq<string>)
    ensures Steps(Ready(blocks), [line] + lines) == Steps(Step(Ready(blocks), line), lines)
  {
    hide Step;
    assert ([line] + lines)[1..] == lines;
  }

  /** A lone line becomes one block, and that is a paragraph only if the line is plain. */
  lemma LoneLineParses(blocks: seq<Block>, text: string)
    requires Clean(text)
    ensures var after := BlocksAfter(blocks, [text]);
      |after| == |blocks| + 1 && blocks <= after && (after[|blocks|].Paragraph? ==> IsPlain(text))
  {
    hide Trim, IsHeading, IsBullet, IsNumbered, IsCtaLike, HeadingText, BulletText, NumberedText, CtaOf;
    StepsOne(Ready(blocks), text);
    TrimClean(text);
    if IsPlain(text) {
      ParagraphParses(blocks, text);
    }
  }

  /** A block whose first line is clean and no call to action does not start with one. */
  lemma OtherLineParses(blocks: seq<Block>, text: string, lines: seq<string>)
    requires Clean(text) && !IsCtaLine(text)
    ensures var after := BlocksAfter(blocks, [text] + lines); |after| > |blocks| && !after[|blocks|].Cta?
  {
    hide Trim, IsHeading, IsBullet, IsNumbered, IsCtaLike, HeadingText, BulletText, NumberedText, CtaOf;
    TrimClean(text);
    FirstLine(blocks, text, lines);
    var p := Step(Ready(blocks), text);
    assert NoCtaAt(p, |blocks|);
    StepsNoCta(p, lines, |blocks|);
    FlushNoCta(Steps(p, lines), |blocks|);
  }

  lemma CtaIsPushed(blocks: seq<Block>, text: string)
    requires Clean(text) && IsCtaLine(text)
    ensures Step(Ready(blocks), text) == Ready(blocks + [CtaOf(text)])
  {
    hide Trim, IsHeading, IsBullet, IsNumbered, IsCtaLike, CtaOf;
    TrimClean(text);
  }

  lemma CtaLineParses(blocks: seq<Block>, text: string, lines: seq<string>)
    requires Clean(text) && IsCtaLine(text)
    ensures var after := BlocksAfter(blocks, [text] + lines); |after| > |blocks| && after[|blocks|] == CtaOf(text)
    ensures |lines| == 1 && Clean(lines[0]) ==> |BlocksAfter(blocks, [text] + lines)| == |blocks| + 2
  {
    hide Step, Flush, IsCtaLine, Clean, CtaOf;
    var with := blocks + [CtaOf(text)];
    FirstLine(blocks, text, lines);
    CtaIsPushed(blocks, text);
    StepsKeepBlocks(Ready(with), lines);
    if |lines| == 1 && Clean(lines[0]) {
      LoneLineParses(with, lines[0]);
      assert lines == [lines[0]];
    }
  }

  lemma OneLineRead(s: string)
    requires Clean(s)
    ensures Lines(s) == [s] && DropReturn(s) == s && |s| > 0
  {
    CleanIsOneLine(s);
    NormalizeSame(s);
    SplitOneLine(s);
  }

  /** The lines of a printable block are read as they were printed. */
  lemma PrintableRead(b: Block)
    requires Printable(b)
    ensures Lines(SerializeBlock(b)) == BlockLines(b) && DropReturn(SerializeBlock(b)) == SerializeBlock(b)
    ensures |SerializeBlock(b)| > 0
  {
    hide Printable, BlockLines, SerializeBlock, AllOneLine;
    BlockLinesPrint(b);
    JoinNoReturn(BlockLines(b));
    NormalizeSame(SerializeBlock(b));
    SplitJoin(BlockLines(b));
  }

  /** A text as its document prints it: with or without a final carriage return. */
  predicate PrintedAs(b: Block, s: string) {
    s == SerializeBlock(b) || s == DropReturn(SerializeBlock(b))
  }

  lemma CtaRead(text: string, url: Option<string>, s: string) returns (more: seq<string>)
    requires Clean(text) && PrintedAs(Cta(text, url), s)
    ensures Lines(s) == [text] + more
    ensures Truthy(url) && Clean(url.value) ==> more == [url.value]
  {
    hide Clean, Lines, DropReturn;
    OneLineRead(text);
    more := [];
    if Truthy(url) {
      DropReturnAfter(text + "\n", url.value);
      var u := if s == SerializeBlock(Cta(text, url)) then url.value else DropReturn(url.value);
      assert s == text + "\n" + u;
      LinesAtBreak(text, u);
      more := Lines(u);
      if Clean(url.value) { OneLineRead(url.value); }
    }
  }

  lemma CtaOfHasUrl(text: string)
    ensures CtaOf(text).url == FirstUrl(text)
  {
    hide FirstUrl, RemoveUrls, Trim;
  }

  /** Texts and items are clean, headings have level 2 or 3 and lists are nonempty. */
  predicate CleanBlock(b: Block) {
    match b
    case Heading(level, text) => (level == 2 || level == 3) && Clean(text)
    case Paragraph(text) => Clean(text)
    case UnorderedList(items) => |items| > 0 && forall i :: 0 <= i < |items| ==> Clean(items[i])
    case OrderedList(items) => |items| > 0 && forall i :: 0 <= i < |items| ==> Clean(items[i])
    case Cta(text, _) => Clean(text)
  }

  predicate AllClean(bs: seq<Block>) {
    forall i :: 0 <= i < |bs| ==> CleanBlock(bs[i])
  }

  lemma CleanPrintsNonempty(b: Block)
    requires CleanBlock(b)
    ensures |SerializeBlock(b)| > 0
  {
    hide Clean, IsPlain, IsCtaLine, FirstUrl, SerializeBlock;
    match b {
      case Paragraph(text) => OneLineRead(text); ParagraphText(text);
      case Cta(text, url) => OneLineRead(text); CtaText(text, url);
      case _ => PrintableRead(b);
    }
  }

  lemma ParagraphText(text: string)
    ensures SerializeBlock(Paragraph(text)) == text
  {
  }

  lemma CtaText(text: string, url: Option<string>)
    ensures |SerializeBlock(Cta(text, url))| >= |text|
  {
  }

  /** A clean block that is not printable is read as another block or as more than one. */
  lemma UnprintableParses(blocks: seq<Block>, b: Block, s: string)
    requires CleanBlock(b) && !Printable(b) && PrintedAs(b, s)
    ensures var after := BlocksAfter(blocks, Lines(s));
      |after| > |blocks| && (after[|blocks|] != b || |after| >= |blocks| + 2)
  {
    hide BlocksAfter, IsPlain, IsCtaLine, Lines, FirstUrl, Clean, CtaOf, DropReturn;
    match b {
      case Paragraph(text) =>
        OneLineRead(text);
        LoneLineParses(blocks, text);
      case Cta(text, url) =>
        var more := CtaRead(text, url, s);
        if IsCtaLine(text) {
          CtaOfHasUrl(text);
          CtaLineParses(blocks, text, more);
          if CtaOf(text) == b {
            FirstUrlIsClean(text);
            OneLineRead(url.value);
          }
        } else {
          OtherLineParses(blocks, text, more);
        }
    }
  }

  /** What the lines of a clean block make of a document: itself if it is printable, and never nothing. */
  lemma BlockReads(blocks: seq<Block>, b: Block, s: string)
    requires CleanBlock(b) && PrintedAs(b, s)
    ensures var after := BlocksAfter(blocks, Lines(s));
      && |after| > |blocks| && blocks <= after
      && if Printable(b) then after == blocks + [b] else after[|blocks|] != b || |after| >= |blocks| + 2
  {
    hide Printable, CleanBlock, Steps, Flush, Lines, BlockLines, SerializeBlock, DropReturn;
    StepsKeepBlocks(Ready(blocks), Lines(s));
    if Printable(b) {
      PrintableRead(b);
      BlockParses(blocks, b);
    } else {
      UnprintableParses(blocks, b, s);
    }
  }

  // ---- Exactly which documents survive ----

  /** The blank line after a block closes it, and the rest is read with nothing pending. */
  lemma BlockThenRest(blocks: seq<Block>, lines: seq<string>, rest: seq<string>)
    ensures BlocksAfter(blocks, lines + ([""] + rest)) == BlocksAfter(BlocksAfter(blocks, lines), rest)
  {
    hide Steps, Flush;
    var p := Steps(Ready(blocks), lines);
    StepsAppend(Ready(blocks), lines, [""] + rest);
    StepsAppend(p, [""], rest);
    StepsOne(p, "");
    BlankLine(p);
    FlushKeepsBlocks(p);
  }

  /** Every clean block yields at least one block, whatever its neighbours. */
  lemma {:induction false} EachBlockCounts(blocks: seq<Block>, bs: seq<Block>)
    requires |bs| > 0 && AllClean(bs)
    ensures |BlocksAfter(blocks, LinesOf(bs))| >= |blocks| + |bs|
    decreases |bs|
  {
    hide BlocksAfter, CleanBlock, Printable, Lines, DropReturn, SerializeBlock;
    var text := SerializeBlock(bs[0]);
    if |bs| == 1 {
      BlockReads(blocks, bs[0], text);
    } else {
      var first := Lines(DropReturn(text));
      BlockReads(blocks, bs[0], DropReturn(text));
      BlockThenRest(blocks, first, LinesOf(bs[1..]));
      EachBlockCounts(BlocksAfter(blocks, first), bs[1..]);
    }
  }

  lemma {:induction false} DocumentParsesIff(blocks: seq<Block>, bs: seq<Block>)
    requires |bs| > 0 && AllClean(bs)
    ensures BlocksAfter(blocks, LinesOf(bs)) == blocks + bs <==> AllPrintable(bs)
    decreases |bs|
  {
    hide CleanBlock, Printable, Lines, DropReturn, SerializeBlock, Steps, Flush;
    var b, text := bs[0], SerializeBlock(bs[0]);
    if |bs| == 1 {
      BlockReads(blocks, b, text);
      assert bs == [b];
    } else {
      var first, rest := Lines(DropReturn(text)), LinesOf(bs[1..]);
      var after := BlocksAfter(blocks, first);
      BlockReads(blocks, b, DropReturn(text));
      BlockThenRest(blocks, first, rest);
      assert bs == [b] + bs[1..];
      if Printable(b) {
        DocumentParsesIff(after, bs[1..]);
        assert blocks + bs == after + bs[1..];
      } else {
        EachBlockCounts(after, bs[1..]);
        StepsKeepBlocks(Ready(after), rest);
        assert (blocks + bs)[|blocks|] == b;
      }
    }
  }

  /**
   * `parseMarketingDocument(serializeDocument(bs)) == bs`, for a nonempty document of clean blocks, exactly
   * when every block is printable.
   */
  lemma {:induction false} DocumentRoundTripsIff(bs: seq<Block>)
    requires |bs| > 0 && AllClean(bs)
    ensures Parse(Serialize(bs)) == bs <==> AllPrintable(bs)
  {
    hide CleanBlock, Printable, Serialize, SerializeBlock, SplitLines, NormalizeNewlines, Steps, Flush;
    forall i | 0 <= i < |bs| ensures |SerializeBlock(bs[i])| > 0 {
      CleanPrintsNonempty(bs[i]);
    }
    PrintedLines(bs);
    EachBlockCounts([], bs);
    DocumentParsesIff([], bs);
    assert [] + bs == bs;
  }

  lemma PrintableIsClean(bs: seq<Block>)
    requires AllPrintable(bs)
    ensures AllClean(bs)
  {
    hide Clean, IsPlain, IsCtaLine, FirstUrl;
    forall i | 0 <= i < |bs| ensures CleanBlock(bs[i]) {
      assert Printable(bs[i]);
    }
  }

  /** Every nonempty printable document is given back. */
  lemma {:induction false} RoundTrip(bs: seq<Block>)
    requires |bs| > 0 && AllPrintable(bs)
    ensures Parse(Serialize(bs)) == bs
  {
    hide AllPrintable, AllClean, Parse, Serialize;
    PrintableIsClean(bs);
    DocumentRoundTripsIff(bs);
  }

  /** So the printer is injective on printable documents. */
  lemma SerializeInjective(a: seq<Block>, b: seq<Block>)
    requires |a| > 0 && AllPrintable(a) && |b| > 0 && AllPrintable(b)
    ensures Serialize(a) == Serialize(b) <==> a == b
  {
    hide AllPrintable, Serialize, Parse;
    RoundTrip(a);
    RoundTrip(b);
  }

  /** A clean one-paragraph document survives exactly when its text is no heading, list or CTA line. */
  lemma ParagraphRoundTripsIff(text: string)
    requires Clean(text)
    ensures Parse(Serialize([Paragraph(text)])) == [Paragraph(text)] <==> IsPlain(text)
  {
    hide Parse, Serialize, IsPlain, Clean;
    DocumentRoundTripsIff([Paragraph(text)]);
    assert AllPrintable([Paragraph(text)]) <==> Printable([Paragraph(text)][0]);
  }

  /**
   * A clean call to action survives exactly when it has no URL, neither of its own nor within the text,
   * and reads as a call to action. With a URL the printed URL line becomes a block of its own.
   */
  lemma CtaRoundTripsIff(text: string, url: Option<string>)
    requires Clean(text)
    ensures Parse(Serialize([Cta(text, url)])) == [Cta(text, url)] <==> url.None? && FirstUrl(text).None? && IsCtaLine(text)
  {
    hide Parse, Serialize, IsCtaLine, FirstUrl, Clean;
    DocumentRoundTripsIff([Cta(text, url)]);
    assert AllPrintable([Cta(text, url)]) <==> Printable([Cta(text, url)][0]);
  }
}
