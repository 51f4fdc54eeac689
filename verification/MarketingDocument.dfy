/** The markdown-like document of frontend/src/features/ai/lib/document.ts: parser and printer. */
module MarketingDocument {
  import opened Common

  datatype Block =
    | Heading(level: nat, text: string)
    | Paragraph(text: string)
    | UnorderedList(items: seq<string>)
    | OrderedList(items: seq<string>)
    | Cta(text: string, url: Option<string>)

  // ---- Characters and strings ----

  /** The JavaScript `\s` class, which is also what `trim` strips. */
  predicate IsSpace(c: char) {
    var n := c as int;
    || 9 <= n <= 13 || n == 32 || n == 0xA0 || n == 0x1680 || 0x2000 <= n <= 0x200A
    || n == 0x2028 || n == 0x2029 || n == 0x202F || n == 0x205F || n == 0x3000 || n == 0xFEFF
  }

  /** What `.` does not match. */
  predicate IsTerminator(c: char) {
    var n := c as int;
    n == 10 || n == 13 || n == 0x2028 || n == 0x2029
  }

  predicate IsDigit(c: char) {
    '0' <= c <= '9'
  }

  function TrimStart(s: string): (r: string)
    ensures |r| <= |s|
    ensures |r| > 0 ==> !IsSpace(r[0])
  {
    if |s| > 0 && IsSpace(s[0]) then TrimStart(s[1..]) else s
  }

  function TrimEnd(s: string): (r: string)
    ensures r <= s
  {
    if |s| > 0 && IsSpace(s[|s| - 1]) then TrimEnd(s[..|s| - 1]) else s
  }

  function Trim(s: string): string {
    TrimEnd(TrimStart(s))
  }

  /** `length` in JavaScript: UTF-16 code units. */
  function CodeUnits(s: string): nat {
    if |s| == 0 then 0 else (if s[0] as int >= 0x10000 then 2 else 1) + CodeUnits(s[1..])
  }

  /** `replace(/\r\n/g, "\n")`. */
  function NormalizeNewlines(s: string): string {
    if |s| == 0 then ""
    else if |s| >= 2 && s[0] == '\r' && s[1] == '\n' then "\n" + NormalizeNewlines(s[2..])
    else [s[0]] + NormalizeNewlines(s[1..])
  }

  /** `split("\n")`. */
  function SplitLines(s: string): (lines: seq<string>)
    ensures |lines| >= 1
  {
    if |s| == 0 then [""]
    else
      var rest := SplitLines(s[1..]);
      if s[0] == '\n' then [""] + rest else [[s[0]] + rest[0]] + rest[1..]
  }

  function Join(parts: seq<string>, separator: string): string {
    if |parts| == 0 then ""
    else if |parts| == 1 then parts[0]
    else parts[0] + separator + Join(parts[1..], separator)
  }

  predicate StartsWith(s: string, prefix: string) {
    |prefix| <= |s| && s[..|prefix|] == prefix
  }

  function Lower(c: char): char {
    if 'A' <= c <= 'Z' then (c as int + 32) as char else c
  }

  predicate StartsWithIgnoreCase(s: string, prefix: string) {
    |prefix| <= |s| && forall i :: 0 <= i < |prefix| ==> Lower(s[i]) == Lower(prefix[i])
  }

  predicate Contains(s: string, sub: string) {
    StartsWith(s, sub) || (|s| > 0 && Contains(s[1..], sub))
  }

  /** The longest prefix without a line terminator: what `(.+)` captures. */
  function UntilTerminator(s: string): string {
    if |s| == 0 || IsTerminator(s[0]) then "" else [s[0]] + UntilTerminator(s[1..])
  }

  function DigitRun(s: string): (n: nat)
    ensures n <= |s|
  {
    if |s| > 0 && IsDigit(s[0]) then 1 + DigitRun(s[1..]) else 0
  }

  function NonSpaceRun(s: string): (n: nat)
    ensures n <= |s|
  {
    if |s| > 0 && !IsSpace(s[0]) then 1 + NonSpaceRun(s[1..]) else 0
  }

  /** The length of a match of `https?:\/\/\S+` at the start, or 0. */
  function UrlLength(s: string): (n: nat)
    ensures n <= |s|
  {
    var scheme := if StartsWith(s, "https://") then 8 else if StartsWith(s, "http://") then 7 else 0;
    if scheme == 0 || NonSpaceRun(s[scheme..]) == 0 then 0 else scheme + NonSpaceRun(s[scheme..])
  }

  function FirstUrl(s: string): Option<string> {
    if UrlLength(s) > 0 then Some(s[..UrlLength(s)])
    else if |s| == 0 then None
    else FirstUrl(s[1..])
  }

  function RemoveUrls(s: string): string {
    if |s| == 0 then ""
    else if UrlLength(s) > 0 then RemoveUrls(s[UrlLength(s)..])
    else [s[0]] + RemoveUrls(s[1..])
  }

  // ---- Line classes, in the order the parser tests them ----

  /** `/^#{level}\s+/`. */
  predicate IsHeading(line: string, level: nat) {
    |line| > level && (forall i :: 0 <= i < level ==> line[i] == '#') && IsSpace(line[level])
  }

  /** `/^[-*•]\s+(.+)/` on a trimmed line, which always has a non-space after the spaces. */
  predicate IsBullet(line: string) {
    |line| > 1 && (line[0] == '-' || line[0] == '*' || line[0] == '•') && IsSpace(line[1])
  }

  /** `/^\d+[.)]\s+(.+)/` on a trimmed line. */
  predicate IsNumbered(line: string) {
    var n := DigitRun(line);
    n > 0 && |line| > n + 1 && (line[n] == '.' || line[n] == ')') && IsSpace(line[n + 1])
  }

  const CTA_WORDS: seq<string> := ["CTA", "حث", "اضغط", "اشتري", "اشترِ", "اطلب الآن", "Shop now"]
  const CTA_URL_LIMIT := 180

  predicate IsCtaLike(line: string) {
    || (exists i :: 0 <= i < |CTA_WORDS| && StartsWithIgnoreCase(line, CTA_WORDS[i]))
    || (Contains(line, "http") && CodeUnits(line) < CTA_URL_LIMIT)
  }

  /** A paragraph line: none of the other classes. */
  predicate IsPlain(line: string) {
    !IsHeading(line, 2) && !IsHeading(line, 3) && !IsBullet(line) && !IsNumbered(line) && !IsCtaLike(line)
  }

  function HeadingText(line: string, level: nat): string
    requires |line| >= level
  {
    TrimStart(line[level..])
  }

  function BulletText(line: string): string
    requires |line| >= 1
  {
    UntilTerminator(TrimStart(line[1..]))
  }

  function NumberedText(line: string): string
    requires |line| > DigitRun(line)
  {
    UntilTerminator(TrimStart(line[DigitRun(line) + 1..]))
  }

  function CtaOf(line: string): (b: Block)
    ensures b.Cta?
  {
    var text := Trim(RemoveUrls(line));
    Cta(if |text| == 0 then line else text, FirstUrl(line))
  }

  // ---- The parser ----

  datatype ListType = Unordered | Ordered

  datatype Parser = Parser(blocks: seq<Block>, paragraph: seq<string>, items: seq<string>, listType: Option<ListType>)

  function FlushParagraph(p: Parser): Parser {
    if |p.paragraph| == 0 then p
    else
      var text := Trim(Join(p.paragraph, " "));
      p.(blocks := if |text| == 0 then p.blocks else p.blocks + [Paragraph(text)], paragraph := [])
  }

  function ListBlock(t: ListType, items: seq<string>): Block {
    match t case Unordered => UnorderedList(items) case Ordered => OrderedList(items)
  }

  function FlushList(p: Parser): Parser {
    if p.listType.None? || |p.items| == 0 then p.(items := [], listType := None)
    else p.(blocks := p.blocks + [ListBlock(p.listType.value, p.items)], items := [], listType := None)
  }

  function Flush(p: Parser): Parser {
    FlushList(FlushParagraph(p))
  }

  function Push(p: Parser, b: Block): Parser {
    p.(blocks := p.blocks + [b])
  }

  /** A list line of type `t`: close a paragraph or a list of the other type, then add the item. */
  function AddItem(p: Parser, t: ListType, text: string): Parser {
    var closed := FlushParagraph(p);
    var ready := if closed.listType.Some? && closed.listType.value != t then FlushList(closed) else closed;
    ready.(listType := Some(t), items := ready.items + [text])
  }

  function AddPlain(p: Parser, line: string): Parser {
    var ready := if p.listType.Some? then FlushList(p) else p;
    ready.(paragraph := ready.paragraph + [line])
  }

  /** One round of the line loop. */
  function Step(p: Parser, raw: string): Parser {
    var line := Trim(raw);
    if |line| == 0 then Flush(p)
    else if IsHeading(line, 2) then Push(Flush(p), Heading(2, HeadingText(line, 2)))
    else if IsHeading(line, 3) then Push(Flush(p), Heading(3, HeadingText(line, 3)))
    else if IsBullet(line) then AddItem(p, Unordered, BulletText(line))
    else if IsNumbered(line) then AddItem(p, Ordered, NumberedText(line))
    else if IsCtaLike(line) then Push(Flush(p), CtaOf(line))
    else AddPlain(p, line)
  }

  function Steps(p: Parser, lines: seq<string>): Parser
    decreases |lines|
  {
    if |lines| == 0 then p else Steps(Step(p, lines[0]), lines[1..])
  }

  const START := Parser([], [], [], None)

  function Parse(content: string): seq<Block> {
    var blocks := Flush(Steps(START, SplitLines(NormalizeNewlines(content)))).blocks;
    if |blocks| > 0 then blocks else [Paragraph(Trim(content))]
  }

  /** `parseMarketingDocument`: the local variables and the two flush closures, as a loop. */
  method ParseMarketingDocument(content: string) returns (result: seq<Block>)
    ensures result == Parse(content)
  {
    hide Trim, IsCtaLike, HeadingText, BulletText, NumberedText, CtaOf, SplitLines,
      NormalizeNewlines, Join;
    var lines := SplitLines(NormalizeNewlines(content));
    var blocks: seq<Block>, paragraph: seq<string>, listItems: seq<string> := [], [], [];
    var listType: Option<ListType> := None;
    for i := 0 to |lines|
      invariant Steps(Parser(blocks, paragraph, listItems, listType), lines[i..]) == Steps(START, lines)
    {
      assert lines[i..][1..] == lines[i + 1..];
      var line := Trim(lines[i]);
      if |line| == 0 {
        blocks, paragraph := DoFlushParagraph(blocks, paragraph);
        blocks, listItems, listType := DoFlushList(blocks, listItems, listType);
      } else if IsHeading(line, 2) {
        blocks, paragraph := DoFlushParagraph(blocks, paragraph);
        blocks, listItems, listType := DoFlushList(blocks, listItems, listType);
        blocks := blocks + [Heading(2, HeadingText(line, 2))];
      } else if IsHeading(line, 3) {
        blocks, paragraph := DoFlushParagraph(blocks, paragraph);
        blocks, listItems, listType := DoFlushList(blocks, listItems, listType);
        blocks := blocks + [Heading(3, HeadingText(line, 3))];
      } else if IsBullet(line) {
        blocks, paragraph := DoFlushParagraph(blocks, paragraph);
        if listType.Some? && listType.value != Unordered {
          blocks, listItems, listType := DoFlushList(blocks, listItems, listType);
        }
        listType, listItems := Some(Unordered), listItems + [BulletText(line)];
      } else if IsNumbered(line) {
        blocks, paragraph := DoFlushParagraph(blocks, paragraph);
        if listType.Some? && listType.value != Ordered {
          blocks, listItems, listType := DoFlushList(blocks, listItems, listType);
        }
        listType, listItems := Some(Ordered), listItems + [NumberedText(line)];
      } else if IsCtaLike(line) {
        blocks, paragraph := DoFlushParagraph(blocks, paragraph);
        blocks, listItems, listType := DoFlushList(blocks, listItems, listType);
        blocks := blocks + [CtaOf(line)];
      } else {
        if listType.Some? {
          blocks, listItems, listType := DoFlushList(blocks, listItems, listType);
        }
        paragraph := paragraph + [line];
      }
    }
    blocks, paragraph := DoFlushParagraph(blocks, paragraph);
    blocks, listItems, listType := DoFlushList(blocks, listItems, listType);
    return if |blocks| > 0 then blocks else [Paragraph(Trim(content))];
  }

  method DoFlushParagraph(blocks: seq<Block>, paragraph: seq<string>) returns (b: seq<Block>, p: seq<string>)
    ensures forall items, t :: FlushParagraph(Parser(blocks, paragraph, items, t)) == Parser(b, p, items, t)
  {
    b, p := blocks, paragraph;
    if |paragraph| == 0 {
      return;
    }
    var text := Trim(Join(paragraph, " "));
    if |text| != 0 {
      b := b + [Paragraph(text)];
    }
    p := [];
  }

  method DoFlushList(blocks: seq<Block>, items: seq<string>, t: Option<ListType>)
    returns (b: seq<Block>, i: seq<string>, u: Option<ListType>)
    ensures forall p :: FlushList(Parser(blocks, p, items, t)) == Parser(b, p, i, u)
  {
    b, i, u := blocks, [], None;
    if t.None? || |items| == 0 {
      return;
    }
    b := b + [ListBlock(t.value, items)];
  }

  // ---- The printer ----

  function Digit(n: nat): (c: char)
    requires n < 10
    ensures IsDigit(c)
  {
    ('0' as int + n) as char
  }

  function Decimal(n: nat): (s: string)
    ensures |s| > 0
  {
    if n < 10 then [Digit(n)] else Decimal(n / 10) + [Digit(n % 10)]
  }

  function BulletLines(items: seq<string>): (lines: seq<string>)
    ensures |lines| == |items|
  {
    seq(|items|, i requires 0 <= i < |items| => "- " + items[i])
  }

  function NumberedLines(items: seq<string>): (lines: seq<string>)
    ensures |lines| == |items|
  {
    seq(|items|, i requires 0 <= i < |items| => Decimal(i + 1) + ". " + items[i])
  }

  function Hashes(n: nat): (s: string)
    ensures |s| == n && forall i :: 0 <= i < n ==> s[i] == '#'
  {
    if n == 0 then "" else "#" + Hashes(n - 1)
  }

  function SerializeBlock(b: Block): string {
    match b
    case Heading(level, text) => Hashes(level) + " " + text
    case Paragraph(text) => text
    case UnorderedList(items) => Join(BulletLines(items), "\n")
    case OrderedList(items) => Join(NumberedLines(items), "\n")
    case Cta(text, url) => if Truthy(url) then text + "\n" + url.value else text
  }

  /** The nonempty block texts. */
  function Texts(bs: seq<Block>): seq<string> {
    if |bs| == 0 then []
    else (if |SerializeBlock(bs[0])| == 0 then [] else [SerializeBlock(bs[0])]) + Texts(bs[1..])
  }

  /** `serializeDocument`. */
  function Serialize(bs: seq<Block>): string {
    Join(Texts(bs), "\n\n")
  }
}
