/**
 * The canonical JSON that app/services/queue.py feeds to SHA-256 for the idempotency guard.
 * SHA-256 is taken to be injective, so a guard key is identified with its preimage.
 */
module ContentHash {
  import opened Common
  import opened TelegramPublishing

  datatype Payload = Payload(
    chatId: Option<string>, text: string, imageUrl: Option<string>, button: Option<Button>,
    messageType: string, parseMode: Option<string>)

  // ---- JSON strings (section 7 of RFC 8259), as json.dumps(ensure_ascii=False) writes them ----

  const HEX := "0123456789abcdef"

  /** One character: the seven short escapes, \u00XX for other control characters, itself otherwise. */
  function EscapeChar(c: char): (e: string)
    ensures |e| >= 1
  {
    if c == '"' then "\\\""
    else if c == '\\' then "\\\\"
    else if c == '\n' then "\\n"
    else if c == '\r' then "\\r"
    else if c == '\t' then "\\t"
    else if c == 8 as char then "\\b"
    else if c == 12 as char then "\\f"
    else if c as int < 32 then "\\u00" + [HEX[c as int / 16], HEX[c as int % 16]]
    else [c]
  }

  function Escape(s: string): string {
    if |s| == 0 then "" else EscapeChar(s[0]) + Escape(s[1..])
  }

  function Quote(s: string): string {
    "\"" + Escape(s) + "\""
  }

  function RenderValue(v: Option<string>): string {
    match v
    case None => "null"
    case Some(s) => Quote(s)
  }

  /** `"key":value` pairs separated by commas, and the closing brace. */
  function RenderFields(keys: seq<string>, values: seq<Option<string>>): string
    requires |keys| == |values|
  {
    if |keys| == 0 then "}"
    else
      Quote(keys[0]) + ":" + RenderValue(values[0])
      + (if |keys| == 1 then "" else ",") + RenderFields(keys[1..], values[1..])
  }

  const KEYS: seq<string> :=
    ["button_text", "button_url", "chat_id", "image_url", "message_type", "parse_mode", "provider", "text"]

  function Values(p: Payload): (vs: seq<Option<string>>)
    ensures |vs| == |KEYS|
  {
    [ if p.button.Some? then Some(p.button.value.text) else None,
      if p.button.Some? then Some(p.button.value.url) else None,
      p.chatId, p.imageUrl, Some(p.messageType), p.parseMode, Some("telegram"), Some(p.text) ]
  }

  /** `_compute_content_hash`, up to SHA-256. */
  function Canonical(p: Payload): string {
    "{" + RenderFields(KEYS, Values(p))
  }

  // ---- A reader, the partner of the renderer ----

  datatype Read<T> = Read(value: T, rest: string) | Malformed

  function HexValue(c: char): (n: nat)
    ensures n < 16
  {
    if '0' <= c <= '9' then c as int - '0' as int
    else if 'a' <= c <= 'f' then c as int - 'a' as int + 10
    else 0
  }

  function ShortEscape(c: char): char {
    if c == 'n' then '\n'
    else if c == 'r' then '\r'
    else if c == 't' then '\t'
    else if c == 'b' then 8 as char
    else if c == 'f' then 12 as char
    else c
  }

  /** One possibly escaped character. */
  function ReadChar(t: string): Read<char> {
    if |t| == 0 then Malformed
    else if t[0] != '\\' then Read(t[0], t[1..])
    else if |t| < 2 then Malformed
    else if t[1] != 'u' then Read(ShortEscape(t[1]), t[2..])
    else if |t| < 6 then Malformed
    else Read((16 * HexValue(t[4]) + HexValue(t[5])) as char, t[6..])
  }

  lemma ReadCharInverts(c: char, tail: string)
    ensures ReadChar(EscapeChar(c) + tail) == Read(c, tail)
    ensures (EscapeChar(c) + tail)[0] != '"'
  {
    var e := EscapeChar(c);
    assert (e + tail)[|e|..] == tail;
    if c as int < 32 && |e| == 6 {
      var hi, lo := c as int / 16, c as int % 16;
      assert hi == 0 || hi == 1;
      assert HexValue(HEX[hi]) == hi && HexValue(HEX[lo]) == lo;
    }
  }

  /** The characters up to the closing quote. */
  function ReadString(t: string): Read<string>
    decreases |t|
  {
    if |t| == 0 then Malformed
    else if t[0] == '"' then Read("", t[1..])
    else
      var c := ReadChar(t);
      if c.Malformed? || |c.rest| >= |t| then Malformed
      else
        var s := ReadString(c.rest);
        if s.Malformed? then Malformed else Read([c.value] + s.value, s.rest)
  }

  lemma {:induction false} ReadStringInverts(s: string, tail: string)
    ensures ReadString(Escape(s) + "\"" + tail) == Read(s, tail)
  {
    hide EscapeChar, ReadChar;
    var t := Escape(s) + "\"" + tail;
    if |s| == 0 {
      assert t[1..] == tail;
    } else {
      var rest := Escape(s[1..]) + "\"" + tail;
      assert t == EscapeChar(s[0]) + rest;
      ReadCharInverts(s[0], rest);
      ReadStringInverts(s[1..], tail);
      assert [s[0]] + s[1..] == s;
    }
  }

  function ReadValue(t: string): Read<Option<string>> {
    if |t| == 0 then Malformed
    else if t[0] == '"' then
      var s := ReadString(t[1..]);
      if s.Malformed? then Malformed else Read(Some(s.value), s.rest)
    else if |t| >= 4 && t[..4] == "null" then Read(None, t[4..])
    else Malformed
  }

  lemma ReadValueInverts(v: Option<string>, tail: string)
    ensures ReadValue(RenderValue(v) + tail) == Read(v, tail)
  {
    hide Escape, ReadString;
    var t := RenderValue(v) + tail;
    match v {
      case None =>
        assert t[..4] == "null" && t[4..] == tail;
      case Some(s) =>
        assert t[1..] == Escape(s) + "\"" + tail;
        ReadStringInverts(s, tail);
    }
  }

  /** The values of an object whose keys are known. */
  function ReadFields(keys: seq<string>, t: string): seq<Option<string>> {
    if |keys| == 0 then []
    else
      var skip := |Quote(keys[0])| + 1;
      if |t| < skip then []
      else
        var v := ReadValue(t[skip..]);
        if v.Malformed? || |v.rest| == 0 then []
        else [v.value] + ReadFields(keys[1..], if |keys| == 1 then v.rest else v.rest[1..])
  }

  lemma {:induction false} ReadFieldsInverts(keys: seq<string>, values: seq<Option<string>>)
    requires |keys| == |values|
    ensures |RenderFields(keys, values)| >= 1
    ensures ReadFields(keys, RenderFields(keys, values)) == values
  {
    hide Quote, RenderValue, ReadValue;
    if |keys| > 0 {
      ReadFieldsInverts(keys[1..], values[1..]);
      var later := RenderFields(keys[1..], values[1..]);
      var tail := (if |keys| == 1 then "" else ",") + later;
      var skip := |Quote(keys[0])| + 1;
      var t := RenderFields(keys, values);
      assert t == (Quote(keys[0]) + ":") + (RenderValue(values[0]) + tail);
      assert t[skip..] == RenderValue(values[0]) + tail;
      ReadValueInverts(values[0], tail);
      assert (if |keys| == 1 then tail else tail[1..]) == later;
      assert [values[0]] + values[1..] == values;
    }
  }

  /** Reading the canonical form gives back every field. */
  lemma {:induction false} CanonicalRoundTrip(p: Payload)
    ensures |Canonical(p)| >= 1 && ReadFields(KEYS, Canonical(p)[1..]) == Values(p)
  {
    hide RenderFields, ReadFields, KEYS, Values;
    ReadFieldsInverts(KEYS, Values(p));
    assert Canonical(p)[1..] == RenderFields(KEYS, Values(p));
  }

  lemma ValuesInjective(p: Payload, q: Payload)
    requires Values(p) == Values(q)
    ensures p == q
  {
    var a, b := Values(p), Values(q);
    assert a[0] == b[0] && a[1] == b[1] && a[2] == b[2] && a[3] == b[3]
        && a[4] == b[4] && a[5] == b[5] && a[7] == b[7];
  }

  /** One guard key means one outbound payload. */
  lemma CanonicalInjective(p: Payload, q: Payload)
    ensures Canonical(p) == Canonical(q) <==> p == q
  {
    hide Canonical, ReadFields, KEYS, Values;
    if Canonical(p) == Canonical(q) {
      CanonicalRoundTrip(p);
      CanonicalRoundTrip(q);
      ValuesInjective(p, q);
    }
  }

  /** Printable ASCII and anything from U+0020 up but quote and backslash is left as it is. */
  lemma {:induction false} PlainIsQuoted(s: string)
    requires PlainText(s)
    ensures Escape(s) == s && Quote(s) == "\"" + s + "\""
  {
    if |s| > 0 {
      PlainIsQuoted(s[1..]);
      assert [s[0]] + s[1..] == s;
    }
  }

  /** The seven short escapes, and the long form of other control characters. */
  lemma {:induction false} SpecialsAreEscaped()
    ensures Escape("\"") == "\\\"" && Escape("\\") == "\\\\" && Escape("\n") == "\\n" && Escape("\r") == "\\r" && Escape("\t") == "\\t"
    ensures Escape([8 as char]) == "\\b" && Escape([12 as char]) == "\\f" && Escape([31 as char]) == "\\u001f"
  {
    EscapeOne('"');
    EscapeOne('\\');
    EscapeOne('\n');
    EscapeOne('\r');
    EscapeOne('\t');
    EscapeOne(8 as char);
    EscapeOne(12 as char);
    EscapeOne(31 as char);
    hide Escape;
  }

  lemma EscapeOne(c: char)
    ensures Escape([c]) == EscapeChar(c)
  {
    hide EscapeChar;
    var rest := [c][1..];
    assert |rest| == 0 && Escape([c]) == EscapeChar(c) + Escape(rest);
  }

  predicate PlainText(s: string) {
    forall i :: 0 <= i < |s| ==> s[i] as int >= 32 && s[i] != '"' && s[i] != '\\'
  }

  /** The key and value of one field. */
  function Pair(key: string, value: Option<string>): string {
    "\"" + key + "\":" + RenderValue(value)
  }

  lemma RenderFirst(keys: seq<string>, values: seq<Option<string>>)
    requires 0 < |keys| == |values| && PlainText(keys[0])
    ensures RenderFields(keys, values)
         == Pair(keys[0], values[0]) + ((if |keys| == 1 then "" else ",") + RenderFields(keys[1..], values[1..]))
  {
    hide RenderValue;
    PlainIsQuoted(keys[0]);
    assert "\"" + keys[0] + "\"" + ":" == "\"" + keys[0] + "\":";
  }

  /** Field number `k` and those behind it. */
  function FieldsFrom(values: seq<Option<string>>, k: nat): string
    requires |values| == |KEYS| && k <= |KEYS|
  {
    RenderFields(KEYS[k..], values[k..])
  }

  lemma {:induction false} FieldAt(values: seq<Option<string>>, k: nat)
    requires |values| == |KEYS| == 8 && k <= 8
    ensures FieldsFrom(values, k)
         == if k == 8 then "}" else Pair(KEYS[k], values[k]) + ((if k == 7 then "" else ",") + FieldsFrom(values, k + 1))
  {
    hide RenderValue, Pair, PlainText;
    if k < 8 {
      var keys, rest := KEYS[k..], values[k..];
      assert keys[0] == KEYS[k] && keys[1..] == KEYS[k + 1..] && rest[1..] == values[k + 1..];
      PlainKey(k);
      RenderFirst(keys, rest);
    }
  }

  lemma PlainKey(k: nat)
    requires k < 8
    ensures |KEYS| == 8 && PlainText(KEYS[k])
  {
  }

  /** The JSON that is hashed, key by key in sorted order. */
  lemma {:induction false} CanonicalFields(p: Payload)
    ensures Canonical(p) == "{" +
      (Pair("button_text", if p.button.Some? then Some(p.button.value.text) else None) + ("," +
      (Pair("button_url", if p.button.Some? then Some(p.button.value.url) else None) + ("," +
      (Pair("chat_id", p.chatId) + ("," +
      (Pair("image_url", p.imageUrl) + ("," +
      (Pair("message_type", Some(p.messageType)) + ("," +
      (Pair("parse_mode", p.parseMode) + ("," +
      (Pair("provider", Some("telegram")) + ("," +
      (Pair("text", Some(p.text)) + ("" + "}"))))))))))))))))
  {
    hide RenderFields, Pair;
    var v := Values(p);
    assert KEYS[0..] == KEYS && v[0..] == v;
    assert Canonical(p) == "{" + FieldsFrom(v, 0);
    hide FieldsFrom;
    FieldAt(v, 0);
    FieldAt(v, 1);
    FieldAt(v, 2);
    FieldAt(v, 3);
    FieldAt(v, 4);
    FieldAt(v, 5);
    FieldAt(v, 6);
    FieldAt(v, 7);
    FieldAt(v, 8);
  }
}
