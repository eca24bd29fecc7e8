/**
  The performance log: the program prints an event as `key=value` parts, and the export script splits and
  parses the line again. Quoted values are escaped as in section 7 of RFC 8259.
 */
module PerfLog {
  import opened Results

  /** A field value: a string, or the text of null, a boolean or a number. */
  datatype Value = Text(text: string) | Bare(text: string)

  datatype Part = Part(key: string, value: Value)

  datatype PerfEvent = PerfEvent(
    name: string, status: Option<string>, duration: string, fields: seq<Part>, error: Option<string>)

  // ---------------------------------------------------------------- characters

  predicate Alphanumeric(c: char) {
    '0' <= c <= '9' || 'a' <= c <= 'z' || 'A' <= c <= 'Z'
  }

  predicate SafeKeyChar(c: char) {
    Alphanumeric(c) || c == '_' || c == '.'
  }

  predicate SafeValueChar(c: char) {
    Alphanumeric(c) || c in "_-./:@"
  }

  predicate SafeKey(key: string) {
    key != "" && forall c :: c in key ==> SafeKeyChar(c)
  }

  /** White space as the export script sees it. */
  predicate Space(c: char) {
    var n := c as int;
    || 9 <= n <= 13 || 28 <= n <= 32 || n == 0x85 || n == 0xA0 || n == 0x1680 || 0x2000 <= n <= 0x200A
    || n == 0x2028 || n == 0x2029 || n == 0x202F || n == 0x205F || n == 0x3000
  }

  /** Text that is one piece outside of quotes. */
  predicate Plain(text: string) {
    forall c :: c in text ==> !Space(c) && c != '"'
  }

  // ---------------------------------------------------------------- printing

  function Hex(n: nat): (c: char)
    requires n < 16
  {
    "0123456789abcdef"[n]
  }

  function EscapeChar(c: char): string {
    if c == '"' then ['\\', '"']
    else if c == '\\' then ['\\', '\\']
    else if c as int == 8 then ['\\', 'b']
    else if c as int == 12 then ['\\', 'f']
    else if c == '\n' then ['\\', 'n']
    else if c == '\r' then ['\\', 'r']
    else if c == '\t' then ['\\', 't']
    else if c as int < 32 then ['\\', 'u', '0', '0', Hex(c as int / 16), Hex(c as int % 16)]
    else [c]
  }

  function Escape(s: string): string {
    if s == "" then "" else EscapeChar(s[0]) + Escape(s[1..])
  }

  function Quote(s: string): string {
    ['"'] + Escape(s) + ['"']
  }

  function Printed(v: Value): string {
    if v.Bare? || (v.text != "" && forall c :: c in v.text ==> SafeValueChar(c)) then v.text else Quote(v.text)
  }

  function Rendered(p: Part): string {
    p.key + ['='] + Printed(p.value)
  }

  function SafeParts(fields: seq<Part>): seq<Part> {
    if fields == [] then []
    else SafeParts(fields[..|fields| - 1]) + if SafeKey(fields[|fields| - 1].key) then [fields[|fields| - 1]] else []
  }

  /** What is printed before the fields: status and duration are printed as they are. */
  function Head(e: PerfEvent): seq<Part> {
    [Part("name", Text(e.name)), Part("status", Bare(if e.status.Some? then e.status.value else "ok")),
     Part("duration_ms", Bare(e.duration))]
  }

  function Foot(e: PerfEvent): seq<Part> {
    if e.error.Some? then [Part("error", Text(e.error.value))] else []
  }

  /** The parts of an event in the order they are printed. */
  function Parts(e: PerfEvent): seq<Part> {
    Head(e) + SafeParts(e.fields) + Foot(e)
  }

  function Joined(parts: seq<Part>): string {
    if parts == [] then "" else if |parts| == 1 then Rendered(parts[0])
    else Joined(parts[..|parts| - 1]) + [' '] + Rendered(parts[|parts| - 1])
  }

  method FormatPerfEvent(e: PerfEvent) returns (line: string)
    ensures line == Joined(Parts(e))
  {
    var parts := [Part("name", Text(e.name)), Part("status", Bare(if e.status.Some? then e.status.value else "ok")),
                  Part("duration_ms", Bare(e.duration))];
    parts := PushFields(parts, e.fields);
    if e.error.Some? {
      parts := parts + [Part("error", Text(e.error.value))];
    }
    assert parts == Parts(e);
    line := Join(parts);
  }

  method PushFields(head: seq<Part>, fields: seq<Part>) returns (parts: seq<Part>)
    ensures parts == head + SafeParts(fields)
  {
    parts := head;
    for i := 0 to |fields|
      invariant parts == head + SafeParts(fields[..i])
    {
      assert fields[..i + 1][..i] == fields[..i];
      if SafeKey(fields[i].key) {
        parts := parts + [fields[i]];
      }
    }
    assert fields[..|fields|] == fields;
  }

  method Join(parts: seq<Part>) returns (line: string)
    ensures line == Joined(parts)
  {
    line := "";
    for i := 0 to |parts|
      invariant line == Joined(parts[..i])
    {
      assert parts[..i + 1][..i] == parts[..i];
      line := if i == 0 then Rendered(parts[i]) else line + [' '] + Rendered(parts[i]);
    }
    assert parts[..|parts|] == parts;
  }

  // ---------------------------------------------------------------- splitting

  /** What is still to come out of the tokenizer in the middle of a message. */
  function Scan(message: string, current: string, inString: bool, escaped: bool): seq<string>
    decreases |message|
  {
    if message == "" then (if current == "" then [] else [current])
    else
      var c, rest := message[0], message[1..];
      if escaped then Scan(rest, current + [c], inString, false)
      else if c == '\\' && inString then Scan(rest, current + [c], inString, true)
      else if c == '"' then Scan(rest, current + [c], !inString, false)
      else if Space(c) && !inString then (if current == "" then [] else [current]) + Scan(rest, "", false, false)
      else Scan(rest, current + [c], inString, false)
  }

  method SplitKeyValueTokens(message: string) returns (tokens: seq<string>)
    ensures tokens == Scan(message, "", false, false)
  {
    tokens := [];
    var current, inString, escaped := "", false, false;
    for i := 0 to |message|
      invariant tokens + Scan(message[i..], current, inString, escaped) == Scan(message, "", false, false)
    {
      var c := message[i];
      assert message[i..][0] == c && message[i..][1..] == message[i + 1..];
      if escaped {
        current, escaped := current + [c], false;
      } else if c == '\\' && inString {
        current, escaped := current + [c], true;
      } else if c == '"' {
        inString, current := !inString, current + [c];
      } else if Space(c) && !inString {
        if current != "" {
          tokens, current := tokens + [current], "";
        }
      } else {
        current := current + [c];
      }
    }
    if current != "" {
      tokens := tokens + [current];
    }
  }

  /** Where the tokenizer stands after one more character: inside quotes, behind a backslash. */
  function Turn(at: (bool, bool), c: char): (bool, bool) {
    if at.1 then (at.0, false)
    else if c == '\\' && at.0 then (true, true)
    else if c == '"' then (!at.0, false)
    else (at.0, false)
  }

  /** Where it stands after a text that it began outside of quotes. */
  function Ending(text: string): (bool, bool) {
    if text == "" then (false, false) else Turn(Ending(text[..|text| - 1]), text[|text| - 1])
  }

  /** No white space outside of quotes. */
  predicate Unsplit(text: string) {
    text != "" ==> Unsplit(text[..|text| - 1]) && (Ending(text[..|text| - 1]) == (false, false) ==> !Space(text[|text| - 1]))
  }

  /** Text that is one token and leaves the tokenizer outside of quotes. */
  predicate OneWord(text: string) {
    Unsplit(text) && Ending(text) == (false, false)
  }

  // ---------------------------------------------------------------- parsing

  /** The token on both sides of its first equals sign. */
  function Cut(token: string): Option<(string, string)> {
    if token == "" then None
    else if token[0] == '=' then Some(("", token[1..]))
    else
      var r := Cut(token[1..]);
      if r.None? then None else Some(([token[0]] + r.value.0, r.value.1))
  }

  function HexValue(c: char): Option<nat> {
    if '0' <= c <= '9' then Some(c as int - '0' as int)
    else if 'a' <= c <= 'f' then Some(c as int - 'a' as int + 10)
    else if 'A' <= c <= 'F' then Some(c as int - 'A' as int + 10)
    else None
  }

  function Unescaped(c: char): Option<char> {
    if c == '"' || c == '\\' || c == '/' then Some(c)
    else if c == 'b' then Some(8 as char)
    else if c == 'f' then Some(12 as char)
    else if c == 'n' then Some('\n')
    else if c == 'r' then Some('\r')
    else if c == 't' then Some('\t')
    else None
  }

  /** The character of a four-digit escape; those that stand for half a character are not modelled. */
  function CodePoint(digits: string): Option<char>
    requires |digits| == 4
  {
    var a, b, c, d := HexValue(digits[0]), HexValue(digits[1]), HexValue(digits[2]), HexValue(digits[3]);
    if a.None? || b.None? || c.None? || d.None? then None
    else
      var n := a.value * 4096 + b.value * 256 + c.value * 16 + d.value;
      if n < 0xD800 || 0xE000 <= n < 0x10000 then Some(n as char) else None
  }

  function Prefixed(c: char, rest: Option<string>): Option<string> {
    if rest.None? then None else Some([c] + rest.value)
  }

  /** A JSON string after its opening quote: it must be well formed and end with the text. */
  function Decoded(body: string): Option<string>
    decreases |body|
  {
    if body == "" then None
    else if body[0] == '"' then (if |body| == 1 then Some("") else None)
    else if body[0] == '\\' then
      if |body| >= 2 && Unescaped(body[1]).Some? then Prefixed(Unescaped(body[1]).value, Decoded(body[2..]))
      else if |body| >= 6 && body[1] == 'u' && CodePoint(body[2..6]).Some? then
        Prefixed(CodePoint(body[2..6]).value, Decoded(body[6..]))
      else None
    else if body[0] as int < 32 then None
    else Prefixed(body[0], Decoded(body[1..]))
  }

  function ParsedValue(value: string): string {
    if value != "" && value[0] == '"' && value[|value| - 1] == '"' then
      var r := Decoded(value[1..]);
      if r.Some? then r.value else if |value| == 1 then "" else value[1..|value| - 1]
    else value
  }

  function Fields(tokens: seq<string>): map<string, string> {
    if tokens == [] then map[]
    else
      var before, r := Fields(tokens[..|tokens| - 1]), Cut(tokens[|tokens| - 1]);
      if r.None? || r.value.0 == "" then before else before[r.value.0 := ParsedValue(r.value.1)]
  }

  method ParseKeyValueMessage(message: string) returns (fields: map<string, string>)
    ensures fields == Fields(Scan(message, "", false, false))
  {
    var tokens := SplitKeyValueTokens(message);
    fields := map[];
    for i := 0 to |tokens|
      invariant fields == Fields(tokens[..i])
    {
      assert tokens[..i + 1][..i] == tokens[..i];
      var r := Cut(tokens[i]);
      if r.Some? && r.value.0 != "" {
        fields := fields[r.value.0 := ParsedValue(r.value.1)];
      }
    }
    assert tokens[..|tokens|] == tokens;
  }

  /** Text that can be printed as it is: one token that parses to itself. */
  predicate GoodText(text: string) {
    OneWord(text) && ParsedValue(text) == text
  }

  predicate GoodValue(v: Value) {
    v.Bare? ==> GoodText(v.text)
  }

  /** Single words without quotes are good, and others are too. */
  lemma {:induction false} PlainIsGood(text: string)
    requires Plain(text)
    ensures GoodText(text)
  {
    if text != "" {
      assert text[|text| - 1] in text && text[0] in text && forall c :: c in text[..|text| - 1] ==> c in text;
      PlainIsGood(text[..|text| - 1]);
    }
  }

  // ---------------------------------------------------------------- a quoted value survives

  lemma HexOfHex(n: nat)
    requires n < 16
    ensures HexValue(Hex(n)) == Some(n) && Hex(n) != '"' && Hex(n) != '\\' && !Space(Hex(n))
  {
  }

  lemma DecodeUnicode(c: char, rest: string)
    requires c as int < 32
    ensures Decoded(['\\', 'u', '0', '0', Hex(c as int / 16), Hex(c as int % 16)] + rest) == Prefixed(c, Decoded(rest))
  {
    var digits := ['0', '0', Hex(c as int / 16), Hex(c as int % 16)];
    var text := ['\\', 'u'] + digits + rest;
    HexOfHex(c as int / 16);
    HexOfHex(c as int % 16);
    assert text[2..6] == digits && text[6..] == rest;
    assert CodePoint(digits) == Some(c);
    assert ['\\', 'u', '0', '0', Hex(c as int / 16), Hex(c as int % 16)] + rest == text;
  }

  lemma DecodePair(x: char, rest: string)
    requires Unescaped(x).Some?
    ensures Decoded(['\\', x] + rest) == Prefixed(Unescaped(x).value, Decoded(rest))
  {
    assert (['\\', x] + rest)[2..] == rest;
  }

  lemma DecodeChar(c: char, rest: string)
    ensures Decoded(EscapeChar(c) + rest) == Prefixed(c, Decoded(rest))
  {
    if |EscapeChar(c)| == 6 {
      DecodeUnicode(c, rest);
    } else if |EscapeChar(c)| == 2 {
      DecodePair(EscapeChar(c)[1], rest);
    } else {
      assert (EscapeChar(c) + rest)[1..] == rest;
    }
  }

  lemma Grouped(a: string, b: string, c: string)
    ensures (a + b) + c == a + (b + c)
  {
  }

  lemma {:induction false} DecodeEscape(s: string)
    ensures Decoded(Escape(s) + ['"']) == Some(s)
  {
    if s == "" {
      assert Escape(s) + ['"'] == ['"'];
    } else {
      var rest := Escape(s[1..]);
      Grouped(EscapeChar(s[0]), rest, ['"']);
      DecodeChar(s[0], rest + ['"']);
      DecodeEscape(s[1..]);
      assert [s[0]] + s[1..] == s;
    }
  }

  lemma QuoteParses(s: string)
    ensures ParsedValue(Quote(s)) == s
  {
    var body := Escape(s) + ['"'];
    var value := Quote(s);
    DecodeEscape(s);
    assert value == ['"'] + body;
    assert value[0] == '"' && value[|value| - 1] == '"' && value[1..] == body;
  }

  /** Whatever the string, its printed form parses back to it. */
  lemma ValueRoundTrip(v: Value)
    requires GoodValue(v)
    ensures ParsedValue(Printed(v)) == v.text
  {
    if v.Bare? {
      assert GoodText(v.text);
    } else if v.text != "" && forall c :: c in v.text ==> SafeValueChar(c) {
      assert v.text[0] in v.text;
    } else {
      QuoteParses(v.text);
    }
  }

  // ---------------------------------------------------------------- a part is one token

  lemma {:induction false} ScanPlain(text: string, rest: string, current: string)
    requires Plain(text)
    ensures Scan(text + rest, current, false, false) == Scan(rest, current + text, false, false)
    decreases |text|
  {
    if text == "" {
      assert text + rest == rest && current + text == current;
    } else {
      assert text[0] in text && forall c :: c in text[1..] ==> c in text;
      assert (text + rest)[1..] == text[1..] + rest;
      ScanPlain(text[1..], rest, current + [text[0]]);
      assert current + [text[0]] + text[1..] == current + text;
    }
  }

  /** A text without a split is taken up as it is. */
  lemma {:induction false} ScanOn(text: string, rest: string, current: string)
    requires Unsplit(text)
    ensures Scan(text + rest, current, false, false) == Scan(rest, current + text, Ending(text).0, Ending(text).1)
    decreases |text|
  {
    if text == "" {
      assert text + rest == rest && current + text == current;
    } else {
      var front, c := text[..|text| - 1], text[|text| - 1];
      assert text + rest == front + ([c] + rest) && ([c] + rest)[1..] == rest;
      EndingShape(front);
      ScanOn(front, [c] + rest, current);
      assert current + front + [c] == current + text;
    }
  }

  lemma {:induction false} EndingShape(text: string)
    ensures Ending(text).1 ==> Ending(text).0
  {
    if text != "" {
      EndingShape(text[..|text| - 1]);
    }
  }

  /** Inside a string everything but a quote or a backslash is taken as it is. */
  lemma {:induction false} ScanInside(text: string, rest: string, current: string)
    requires forall c :: c in text ==> c != '"' && c != '\\'
    ensures Scan(text + rest, current, true, false) == Scan(rest, current + text, true, false)
    decreases |text|
  {
    if text == "" {
      assert text + rest == rest && current + text == current;
    } else {
      assert text[0] in text && forall c :: c in text[1..] ==> c in text;
      assert (text + rest)[1..] == text[1..] + rest;
      ScanInside(text[1..], rest, current + [text[0]]);
      assert current + [text[0]] + text[1..] == current + text;
    }
  }

  lemma ScanPair(x: char, rest: string, current: string)
    ensures Scan(['\\', x] + rest, current, true, false) == Scan(rest, current + ['\\', x], true, false)
  {
    var text := ['\\', x] + rest;
    assert text[1..] == [x] + rest && ([x] + rest)[1..] == rest;
    assert current + ['\\'] + [x] == current + ['\\', x];
  }

  lemma ScanEscapeChar(c: char, rest: string, current: string)
    ensures Scan(EscapeChar(c) + rest, current, true, false) == Scan(rest, current + EscapeChar(c), true, false)
  {
    var e := EscapeChar(c);
    if |e| == 1 {
      ScanInside(e, rest, current);
    } else {
      assert e == ['\\', e[1]] + e[2..];
      assert e + rest == ['\\', e[1]] + (e[2..] + rest);
      ScanPair(e[1], e[2..] + rest, current);
      if |e| == 6 {
        HexOfHex(c as int / 16);
        HexOfHex(c as int % 16);
        assert e[2..] == ['0', '0', Hex(c as int / 16), Hex(c as int % 16)];
      }
      ScanInside(e[2..], rest, current + ['\\', e[1]]);
      assert current + ['\\', e[1]] + e[2..] == current + e;
    }
  }

  lemma {:induction false} ScanEscape(s: string, rest: string, current: string)
    ensures Scan(Escape(s) + rest, current, true, false) == Scan(rest, current + Escape(s), true, false)
    decreases |s|
  {
    if s == "" {
      assert Escape(s) + rest == rest && current + Escape(s) == current;
    } else {
      assert Escape(s) + rest == EscapeChar(s[0]) + (Escape(s[1..]) + rest);
      ScanEscapeChar(s[0], Escape(s[1..]) + rest, current);
      ScanEscape(s[1..], rest, current + EscapeChar(s[0]));
      assert current + EscapeChar(s[0]) + Escape(s[1..]) == current + Escape(s);
    }
  }

  lemma ScanQuote(s: string, rest: string, current: string)
    ensures Scan(Quote(s) + rest, current, false, false) == Scan(rest, current + Quote(s), false, false)
  {
    var tail := Escape(s) + (['"'] + rest);
    assert Quote(s) + rest == ['"'] + tail && (['"'] + tail)[1..] == tail;
    assert Scan(Quote(s) + rest, current, false, false) == Scan(tail, current + ['"'], true, false);
    ScanEscape(s, ['"'] + rest, current + ['"']);
    assert (['"'] + rest)[1..] == rest;
    assert current + ['"'] + Escape(s) + ['"'] == current + Quote(s);
  }

  lemma ScanValue(v: Value, rest: string, current: string)
    requires GoodValue(v)
    ensures Scan(Printed(v) + rest, current, false, false) == Scan(rest, current + Printed(v), false, false)
  {
    if Printed(v) == Quote(v.text) {
      ScanQuote(v.text, rest, current);
    } else if v.Bare? {
      ScanOn(v.text, rest, current);
    } else {
      ScanPlain(Printed(v), rest, current);
    }
  }

  lemma Regrouped(head: string, value: string, rest: string, current: string)
    ensures head + value + rest == head + (value + rest)
    ensures current + (head + value) == current + head + value
  {
  }

  lemma HeadPlain(key: string)
    requires SafeKey(key)
    ensures Plain(key + ['='])
  {
  }

  lemma ScanPart(p: Part, rest: string, current: string)
    requires SafeKey(p.key) && GoodValue(p.value)
    ensures Scan(Rendered(p) + rest, current, false, false) == Scan(rest, current + Rendered(p), false, false)
  {
    var head, value := p.key + ['='], Printed(p.value);
    HeadPlain(p.key);
    ScanPlain(head, value + rest, current);
    ScanValue(p.value, rest, current + head);
    Regrouped(head, value, rest, current);
  }

  function Renderings(parts: seq<Part>): seq<string> {
    if parts == [] then [] else Renderings(parts[..|parts| - 1]) + [Rendered(parts[|parts| - 1])]
  }

  ghost predicate Good(parts: seq<Part>) {
    forall p :: p in parts ==> SafeKey(p.key) && GoodValue(p.value)
  }

  lemma ScanEnd(current: string, rest: string)
    requires current != "" && (rest == "" || rest[0] == ' ')
    ensures Scan(rest, current, false, false) == [current] + if rest == "" then [] else Scan(rest[1..], "", false, false)
  {
  }

  lemma ScanOne(p: Part, rest: string)
    requires SafeKey(p.key) && GoodValue(p.value) && (rest == "" || rest[0] == ' ')
    ensures Scan(Rendered(p) + rest, "", false, false)
            == [Rendered(p)] + if rest == "" then [] else Scan(rest[1..], "", false, false)
  {
    ScanPart(p, rest, "");
    assert "" + Rendered(p) == Rendered(p);
    ScanEnd(Rendered(p), rest);
  }

  /** Parts joined by blanks split into themselves, also with more to come behind a blank. */
  lemma {:induction false} ScanJoined(parts: seq<Part>, rest: string)
    requires Good(parts) && parts != [] && (rest == "" || rest[0] == ' ')
    ensures Scan(Joined(parts) + rest, "", false, false)
            == Renderings(parts) + if rest == "" then [] else Scan(rest[1..], "", false, false)
    decreases |parts|
  {
    var front, last := parts[..|parts| - 1], parts[|parts| - 1];
    GoodParts(parts);
    ScanOne(last, rest);
    if front == [] {
      assert Joined(parts) == Rendered(last);
      assert Renderings(parts) == [Rendered(last)];
    } else {
      BlankBetween(Joined(front), Rendered(last), rest);
      ScanJoined(front, [' '] + (Rendered(last) + rest));
      RenderingsBehind(Renderings(front), Rendered(last), if rest == "" then [] else Scan(rest[1..], "", false, false));
    }
  }

  lemma GoodParts(parts: seq<Part>)
    requires Good(parts) && parts != []
    ensures Good(parts[..|parts| - 1]) && SafeKey(parts[|parts| - 1].key) && GoodValue(parts[|parts| - 1].value)
  {
    assert parts[|parts| - 1] in parts && forall p :: p in parts[..|parts| - 1] ==> p in parts;
  }

  lemma BlankBetween(a: string, b: string, rest: string)
    ensures a + [' '] + b + rest == a + ([' '] + (b + rest)) && ([' '] + (b + rest))[1..] == b + rest
  {
  }

  lemma RenderingsBehind(a: seq<string>, b: string, c: seq<string>)
    ensures a + ([b] + c) == a + [b] + c
  {
  }

  // ---------------------------------------------------------------- the line round trips

  /** The parts as a dictionary, later ones winning. */
  function Dictionary(parts: seq<Part>): map<string, string> {
    if parts == [] then map[]
    else Dictionary(parts[..|parts| - 1])[parts[|parts| - 1].key := parts[|parts| - 1].value.text]
  }

  lemma {:induction false} CutKey(key: string, value: string)
    requires '=' !in key
    ensures Cut(key + ['='] + value) == Some((key, value))
  {
    var token := key + ['='] + value;
    if key == "" {
      assert token == ['='] + value;
    } else {
      assert token[1..] == key[1..] + ['='] + value && key[0] in key;
      CutKey(key[1..], value);
      assert [key[0]] + key[1..] == key;
    }
  }

  lemma {:induction false} FieldsOfParts(parts: seq<Part>)
    requires Good(parts)
    ensures Fields(Renderings(parts)) == Dictionary(parts)
  {
    if parts != [] {
      var front, last := parts[..|parts| - 1], parts[|parts| - 1];
      assert last in parts && forall p :: p in front ==> p in parts;
      FieldsOfParts(front);
      assert Renderings(parts)[..|Renderings(front)|] == Renderings(front);
      CutKey(last.key, Printed(last.value));
      ValueRoundTrip(last.value);
    }
  }

  lemma {:induction false} SafePartsFrom(fields: seq<Part>)
    ensures forall p :: p in SafeParts(fields) <==> p in fields && SafeKey(p.key)
  {
    if fields != [] {
      SafePartsFrom(fields[..|fields| - 1]);
      assert fields == fields[..|fields| - 1] + [fields[|fields| - 1]];
    }
  }

  lemma PartsGood(e: PerfEvent)
    requires GoodText(e.duration) && (e.status.Some? ==> GoodText(e.status.value))
    requires forall p :: p in e.fields ==> GoodValue(p.value)
    ensures Good(Parts(e))
  {
    SafePartsFrom(e.fields);
    ReservedSafe();
    PlainIsGood("ok");
  }

  lemma ReservedSafe()
    ensures SafeKey("name") && SafeKey("status") && SafeKey("duration_ms") && SafeKey("error")
  {
  }

  /**
    The round trip. For every name, every error, every string field, and a status, duration and other fields
    that are good texts, parsing the printed line gives exactly the printed keys with their values; of
    parts with one key the last one wins.
   */
  lemma PerfLogRoundTrip(e: PerfEvent)
    requires GoodText(e.duration) && (e.status.Some? ==> GoodText(e.status.value))
    requires forall p :: p in e.fields ==> GoodValue(p.value)
    ensures Fields(Scan(Joined(Parts(e)), "", false, false)) == Dictionary(Parts(e))
  {
    PartsGood(e);
    PartsRoundTrip(Parts(e));
  }

  lemma PartsRoundTrip(parts: seq<Part>)
    requires Good(parts) && parts != []
    ensures Fields(Scan(Joined(parts), "", false, false)) == Dictionary(parts)
  {
    ScanJoined(parts, "");
    assert Joined(parts) + "" == Joined(parts);
    assert Renderings(parts) + [] == Renderings(parts);
    FieldsOfParts(parts);
  }

  ghost predicate DistinctKeys(parts: seq<Part>) {
    forall i, j :: 0 <= i < j < |parts| ==> parts[i].key != parts[j].key
  }

  ghost predicate HasExactly(fields: map<string, string>, parts: seq<Part>) {
    && (forall p :: p in parts ==> p.key in fields && fields[p.key] == p.value.text)
    && (forall k :: k in fields ==> exists p :: p in parts && p.key == k)
  }

  lemma ExactMore(fields: map<string, string>, front: seq<Part>, last: Part)
    requires HasExactly(fields, front) && forall p :: p in front ==> p.key != last.key
    ensures HasExactly(fields[last.key := last.value.text], front + [last])
  {
    var more := fields[last.key := last.value.text];
    assert last in front + [last];
    forall k | k in more
      ensures exists p :: p in front + [last] && p.key == k
    {
      if k != last.key {
        var p :| p in front && p.key == k;
        assert p in front + [last];
      }
    }
  }

  lemma {:induction false} DictionaryExact(parts: seq<Part>)
    requires DistinctKeys(parts)
    ensures HasExactly(Dictionary(parts), parts)
  {
    if parts != [] {
      var front, last := parts[..|parts| - 1], parts[|parts| - 1];
      LastIsNew(parts);
      DictionaryExact(front);
      ExactMore(Dictionary(front), front, last);
      assert parts == front + [last];
    }
  }

  lemma LastIsNew(parts: seq<Part>)
    requires DistinctKeys(parts) && parts != []
    ensures DistinctKeys(parts[..|parts| - 1])
    ensures forall p :: p in parts[..|parts| - 1] ==> p.key != parts[|parts| - 1].key
  {
  }

  /** With distinct keys, none of them reserved, the line gives back the name, the error and every field, and nothing else. */
  lemma EventRecovered(e: PerfEvent)
    requires GoodText(e.duration) && (e.status.Some? ==> GoodText(e.status.value))
    requires forall p :: p in e.fields ==> GoodValue(p.value) && p.key !in ["name", "status", "duration_ms", "error"]
    requires DistinctKeys(e.fields)
    ensures HasExactly(Fields(Scan(Joined(Parts(e)), "", false, false)), Parts(e))
  {
    PerfLogRoundTrip(e);
    SafePartsDistinct(e.fields);
    SafePartsFrom(e.fields);
    ReservedDistinct(e);
    FrameDistinct(Head(e), SafeParts(e.fields), Foot(e));
    DictionaryExact(Parts(e));
  }

  /** Keys that are printed: letters, digits, underscores and dots. */
  predicate Printable(key: string) {
    |key| > 0 && forall i :: 0 <= i < |key| ==>
      'a' <= key[i] <= 'z' || 'A' <= key[i] <= 'Z' || '0' <= key[i] <= '9' || key[i] == '_' || key[i] == '.'
  }

  lemma PrintableIs(key: string)
    ensures Printable(key) <==> SafeKey(key)
  {
    forall i | 0 <= i < |key| && SafeKey(key)
      ensures SafeKeyChar(key[i])
    {
      assert key[i] in key;
    }
  }

  /** Under the same conditions, name by name: what stands in the dictionary of the line is what is in the event. */
  lemma EventComesBack(e: PerfEvent)
    requires GoodText(e.duration) && (e.status.Some? ==> GoodText(e.status.value))
    requires forall p :: p in e.fields ==> GoodValue(p.value) && p.key !in ["name", "status", "duration_ms", "error"]
    requires DistinctKeys(e.fields)
    ensures
      var fields := Fields(Scan(Joined(Parts(e)), "", false, false));
      && "name" in fields && fields["name"] == e.name
      && "status" in fields && fields["status"] == (match e.status case Some(text) => text case None => "ok")
      && "duration_ms" in fields && fields["duration_ms"] == e.duration
      && (e.error.Some? <==> "error" in fields) && (e.error.Some? ==> fields["error"] == e.error.value)
      && (forall p :: p in e.fields && Printable(p.key) ==> p.key in fields && fields[p.key] == p.value.text)
      && forall k :: k in fields && k !in ["name", "status", "duration_ms", "error"] ==>
           exists p :: p in e.fields && p.key == k && Printable(k)
  {
    var fields := Fields(Scan(Joined(Parts(e)), "", false, false));
    EventRecovered(e);
    FrameComesBack(e, fields);
    FieldsComeBack(e, fields);
  }

  lemma FieldsComeBack(e: PerfEvent, fields: map<string, string>)
    requires HasExactly(fields, Parts(e))
    ensures forall p :: p in e.fields && Printable(p.key) ==> p.key in fields && fields[p.key] == p.value.text
    ensures forall k :: k in fields && k !in ["name", "status", "duration_ms", "error"] ==>
              exists p :: p in e.fields && p.key == k && Printable(k)
  {
    PrintedFields(e);
    forall k | k in fields && k !in ["name", "status", "duration_ms", "error"]
      ensures exists p :: p in e.fields && p.key == k && Printable(k)
    {
      var p :| p in Parts(e) && p.key == k;
      FrameKeys(e, p);
    }
  }

  /** The printed fields are those with printable keys. */
  lemma PrintedFields(e: PerfEvent)
    ensures forall p :: p in SafeParts(e.fields) <==> p in e.fields && Printable(p.key)
    ensures forall p :: p in SafeParts(e.fields) ==> p in Parts(e)
  {
    SafePartsFrom(e.fields);
    forall p: Part
      ensures Printable(p.key) <==> SafeKey(p.key)
    {
      PrintableIs(p.key);
    }
  }

  lemma FrameKeys(e: PerfEvent, p: Part)
    requires p in Parts(e)
    ensures p in SafeParts(e.fields) || p.key in ["name", "status", "duration_ms", "error"]
  {
  }

  lemma FrameComesBack(e: PerfEvent, fields: map<string, string>)
    requires HasExactly(fields, Parts(e)) && forall p :: p in e.fields ==> p.key != "error"
    ensures "name" in fields && fields["name"] == e.name
    ensures "status" in fields && fields["status"] == if e.status.Some? then e.status.value else "ok"
    ensures "duration_ms" in fields && fields["duration_ms"] == e.duration
    ensures (e.error.Some? <==> "error" in fields) && (e.error.Some? ==> fields["error"] == e.error.value)
  {
    var parts := Parts(e);
    assert parts[0] == Part("name", Text(e.name)) && parts[1] == Part("status", Bare(StatusOf(e)));
    assert parts[2] == Part("duration_ms", Bare(e.duration));
    assert parts[0] in parts && parts[1] in parts && parts[2] in parts;
    ErrorComesBack(e, fields);
  }

  lemma ErrorComesBack(e: PerfEvent, fields: map<string, string>)
    requires HasExactly(fields, Parts(e)) && forall p :: p in e.fields ==> p.key != "error"
    ensures (e.error.Some? <==> "error" in fields) && (e.error.Some? ==> fields["error"] == e.error.value)
  {
    SafePartsFrom(e.fields);
    NotError();
    if e.error.Some? {
      assert Part("error", Text(e.error.value)) in Foot(e);
    } else {
      assert forall p :: p in Head(e) || p in SafeParts(e.fields) ==> p.key != "error";
    }
  }

  lemma NotError()
    ensures "error" != "name" && "error" != "status" && "error" != "duration_ms"
  {
    assert "name"[0] == 'n' && "status"[0] == 's' && "duration_ms"[0] == 'd' && "error"[0] == 'e';
  }

  /** A string is printed without quotes exactly when it is not empty and has only safe characters. */
  lemma PrintedIs(text: string)
    ensures (forall c :: c in text ==> Alphanumeric(c) || c in "_-./:@") && text != "" ==> Printed(Text(text)) == text
    ensures !((forall c :: c in text ==> Alphanumeric(c) || c in "_-./:@") && text != "") ==>
              var line := Printed(Text(text));
              |line| >= 2 && line[0] == '"' && line[|line| - 1] == '"' && Decoded(line[1..]) == Some(text)
    ensures Printed(Bare(text)) == text
  {
    DecodeEscape(text);
    assert Quote(text)[1..] == Escape(text) + ['"'];
  }

  lemma ReservedDistinct(e: PerfEvent)
    ensures DistinctKeys(Head(e) + Foot(e))
    ensures forall p :: p in Head(e) + Foot(e) ==> p.key in ["name", "status", "duration_ms", "error"]
  {
    assert "name"[0] == 'n' && "status"[0] == 's' && "duration_ms"[0] == 'd' && "error"[0] == 'e';
  }

  lemma FrameDistinct(a: seq<Part>, b: seq<Part>, c: seq<Part>)
    requires DistinctKeys(a + c) && DistinctKeys(b)
    requires forall p, q :: p in a + c && q in b ==> p.key != q.key
    ensures DistinctKeys(a + b + c)
  {
    var all := a + b + c;
    forall i, j | 0 <= i < j < |all|
      ensures all[i].key != all[j].key
    {
      var x := if i < |a| then i else i - |b|;
      var y := if j < |a| then j else j - |b|;
      if |a| <= i < |a| + |b| {
        assert all[i] in b;
        if j < |a| + |b| {
          assert all[i] == b[i - |a|] && all[j] == b[j - |a|];
        } else {
          assert all[j] == (a + c)[y];
        }
      } else if |a| <= j < |a| + |b| {
        assert all[j] in b && all[i] == (a + c)[x];
      } else {
        assert all[i] == (a + c)[x] && all[j] == (a + c)[y];
      }
    }
  }

  lemma {:induction false} SafePartsDistinct(fields: seq<Part>)
    requires DistinctKeys(fields)
    ensures DistinctKeys(SafeParts(fields))
  {
    if fields != [] {
      var front, last := fields[..|fields| - 1], fields[|fields| - 1];
      SafePartsDistinct(front);
      SafePartsFrom(front);
      forall p | p in SafeParts(front)
        ensures p.key != last.key
      {
        var i :| 0 <= i < |front| && front[i] == p;
        assert fields[i] == p;
      }
    }
  }

  // ---------------------------------------------------------------- exactly which statuses come back

  lemma JoinedMore(parts: seq<Part>, p: Part)
    requires parts != []
    ensures Joined(parts + [p]) == Joined(parts) + [' '] + Rendered(p)
  {
    assert (parts + [p])[..|parts|] == parts;
  }

  lemma {:induction false} JoinedSplit(a: seq<Part>, b: seq<Part>)
    requires a != [] && b != []
    ensures Joined(a + b) == Joined(a) + ([' '] + Joined(b))
    decreases |b|
  {
    var front, last := b[..|b| - 1], b[|b| - 1];
    assert b == front + [last];
    if front == [] {
      JoinedMore(a, last);
    } else {
      JoinedSplit(a, front);
      JoinedSplitMore(a, front, last);
    }
  }

  lemma JoinedSplitMore(a: seq<Part>, front: seq<Part>, last: Part)
    requires a != [] && front != [] && Joined(a + front) == Joined(a) + ([' '] + Joined(front))
    ensures Joined(a + (front + [last])) == Joined(a) + ([' '] + Joined(front + [last]))
  {
    JoinedMore(a + front, last);
    JoinedMore(front, last);
    assert a + front + [last] == a + (front + [last]);
    Regroup(Joined(a), Joined(front), Rendered(last));
  }

  lemma Regroup(x: string, y: string, z: string)
    ensures x + ([' '] + y) + [' '] + z == x + ([' '] + (y + [' '] + z))
  {
  }

  lemma JoinedThree(p: Part, q: Part, rest: seq<Part>)
    requires rest != []
    ensures Joined([p] + ([q] + rest)) == Rendered(p) + ([' '] + (Rendered(q) + ([' '] + Joined(rest))))
  {
    JoinedSplit([p], [q] + rest);
    JoinedSplit([q], rest);
  }

  /** What is printed behind the status. */
  function Behind(e: PerfEvent): seq<Part> {
    [Part("duration_ms", Bare(e.duration))] + SafeParts(e.fields) + Foot(e)
  }

  function StatusOf(e: PerfEvent): string {
    if e.status.Some? then e.status.value else "ok"
  }

  const STATUS := "status="

  lemma StatusPart(t: string)
    ensures Rendered(Part("status", Bare(t))) == STATUS + t
  {
    assert "status" + ['='] == STATUS;
  }

  lemma LineWithStatus(e: PerfEvent)
    ensures Joined(Parts(e)) == Rendered(Part("name", Text(e.name))) + ([' '] + (STATUS + StatusOf(e) + ([' '] + Joined(Behind(e)))))
  {
    var p, q := Part("name", Text(e.name)), Part("status", Bare(StatusOf(e)));
    assert Parts(e) == [p] + ([q] + Behind(e));
    JoinedThree(p, q, Behind(e));
    StatusPart(StatusOf(e));
  }

  lemma {:induction false} CutIs(token: string)
    ensures Cut(token).Some? ==> token == Cut(token).value.0 + ['='] + Cut(token).value.1
  {
    if token != "" && token[0] != '=' {
      CutIs(token[1..]);
      assert token == [token[0]] + token[1..];
    }
  }

  lemma {:induction false} FieldComes(tokens: seq<string>, key: string) returns (token: string)
    requires key in Fields(tokens)
    ensures token in tokens && Cut(token).Some? && Cut(token).value.0 == key && Fields(tokens)[key] == ParsedValue(Cut(token).value.1)
  {
    var front, last := tokens[..|tokens| - 1], tokens[|tokens| - 1];
    assert tokens == front + [last] && last in tokens;
    if Cut(last).Some? && Cut(last).value.0 == key && key != "" {
      token := last;
    } else {
      assert key in Fields(front) && Fields(tokens)[key] == Fields(front)[key];
      token := FieldComes(front, key);
    }
  }

  lemma {:induction false} DecodedShorter(body: string)
    ensures Decoded(body).Some? ==> |Decoded(body).value| <= |body|
    decreases |body|
  {
    if body != "" && body[0] != '"' {
      if body[0] == '\\' {
        if |body| >= 2 && Unescaped(body[1]).Some? {
          DecodedShorter(body[2..]);
        } else if |body| >= 6 {
          DecodedShorter(body[6..]);
        }
      } else {
        DecodedShorter(body[1..]);
      }
    }
  }

  lemma ParsedShorter(value: string)
    ensures |ParsedValue(value)| <= |value|
  {
    if value != "" {
      DecodedShorter(value[1..]);
    }
  }

  /** A token cut out of the body alone; the whole body only if it is one word. */
  ghost predicate Piece(body: string, token: string) {
    exists k, l :: 0 <= k <= l <= |body| && token == body[k..l] && (k == 0 && l == |body| ==> OneWord(body))
  }

  /** A token that was begun in the body, inside quotes, and swallowed everything behind it. */
  ghost predicate Swallowing(body: string, tail: string, token: string) {
    Ending(body).0 && exists k :: 0 <= k <= |body| && token == body[k..] + tail && '"' in body[k..] && (k == 0 ==> Unsplit(body))
  }

  ghost predicate KindOf(body: string, tail: string, token: string)
    requires tail != ""
  {
    Piece(body, token) || Swallowing(body, tail, token) || (!Ending(body).0 && token in Scan(tail[1..], "", false, false))
  }

  /** In the middle of the body: the current token began at `j`. */
  ghost predicate ScanAt(body: string, i: nat, j: nat) {
    && j <= i <= |body|
    && (j == 0 ==> Unsplit(body[..i]))
    && (Ending(body[..i]).0 ==> '"' in body[j..i])
  }

  lemma {:induction false} SwallowTail(tail: string, current: string, escaped: bool)
    requires '"' !in tail && (current != "" || tail != "")
    ensures Scan(tail, current, true, escaped) == [current + tail]
    decreases |tail|
  {
    if tail == "" {
      assert current + tail == current;
    } else {
      assert tail[0] in tail && forall c :: c in tail[1..] ==> c in tail;
      var more := current + [tail[0]];
      SwallowTail(tail[1..], more, !escaped && tail[0] == '\\');
      assert more + tail[1..] == current + tail;
    }
  }

  lemma ScanAtEnd(body: string, tail: string, j: nat)
    requires tail != "" && tail[0] == ' ' && '"' !in tail && ScanAt(body, |body|, j)
    ensures forall t :: t in Scan(tail, body[j..], Ending(body).0, Ending(body).1) ==> KindOf(body, tail, t)
  {
    assert body[..|body|] == body && body[j..|body|] == body[j..];
    EndingShape(body);
    if Ending(body).0 {
      SwallowTail(tail, body[j..], Ending(body).1);
      assert Swallowing(body, tail, body[j..] + tail);
    } else {
      assert Piece(body, body[j..|body|]);
    }
  }

  lemma ScanAtNext(body: string, i: nat, j: nat)
    requires ScanAt(body, i, j) && i < |body|
    ensures body[..i + 1][..i] == body[..i] && body[j..i] + [body[i]] == body[j..i + 1]
    ensures if Ending(body[..i]) == (false, false) && Space(body[i]) then ScanAt(body, i + 1, i + 1) else ScanAt(body, i + 1, j)
  {
    assert body[..i + 1][..i] == body[..i] && body[..i + 1][i] == body[i];
    assert body[j..i + 1] == body[j..i] + [body[i]];
    EndingShape(body[..i]);
  }

  /** One step of the tokenizer in the body. */
  lemma ScanMoves(body: string, tail: string, i: nat, j: nat)
    requires ScanAt(body, i, j) && i < |body|
    ensures var e, f, rest := Ending(body[..i]), Ending(body[..i + 1]), body[i + 1..] + tail;
            Scan(body[i..] + tail, body[j..i], e.0, e.1)
            == if e == (false, false) && Space(body[i])
               then (if i == j then [] else [body[j..i]]) + Scan(rest, "", f.0, f.1)
               else Scan(rest, body[j..i + 1], f.0, f.1)
  {
    ScanAtNext(body, i, j);
    EndingShape(body[..i]);
    var all := body[i..] + tail;
    assert all[0] == body[i] && all[1..] == body[i + 1..] + tail;
    assert body[..i + 1][i] == body[i];
  }

  /** Every token of the body and a tail without quotes is of one of these kinds. */
  lemma {:induction false} TokenKinds(body: string, tail: string, i: nat, j: nat)
    requires tail != "" && tail[0] == ' ' && '"' !in tail && ScanAt(body, i, j)
    ensures forall t :: t in Scan(body[i..] + tail, body[j..i], Ending(body[..i]).0, Ending(body[..i]).1) ==> KindOf(body, tail, t)
    decreases |body| - i
  {
    if i == |body| {
      assert body[i..] + tail == tail && body[..i] == body && body[j..i] == body[j..];
      ScanAtEnd(body, tail, j);
    } else {
      ScanAtNext(body, i, j);
      ScanMoves(body, tail, i, j);
      if Ending(body[..i]) == (false, false) && Space(body[i]) {
        TokenKinds(body, tail, i + 1, i + 1);
        assert body[i + 1..i + 1] == "";
        assert Piece(body, body[j..i]);
      } else {
        TokenKinds(body, tail, i + 1, j);
      }
    }
  }

  // ---------------------------------------------------------------- a bad status does not come back

  lemma {:induction false} BehindKey(key: string, t: string)
    requires forall c :: c in key ==> !Space(c) && c != '"'
    ensures Ending(key + t) == Ending(t) && (Unsplit(key + t) <==> Unsplit(t))
    decreases |t|
  {
    if t == "" {
      assert key + t == key;
      PlainIsGood(key);
    } else {
      assert (key + t)[..|key + t| - 1] == key + t[..|t| - 1];
      BehindKey(key, t[..|t| - 1]);
    }
  }

  lemma LastQuote(t: string) returns (q: nat)
    requires '"' in t
    ensures q < |t| && t[q] == '"' && '"' !in t[q + 1..]
  {
    if t[|t| - 1] == '"' {
      q := |t| - 1;
    } else {
      assert t == t[..|t| - 1] + [t[|t| - 1]];
      q := LastQuote(t[..|t| - 1]);
      assert t[q + 1..] == t[..|t| - 1][q + 1..] + [t[|t| - 1]];
    }
  }

  /** A text whose end behind `k` holds a quote is not that end with a tail without quotes. */
  lemma NotShifted(t: string, k: nat, tail: string)
    requires k <= |t| && '"' in t[k..] && '"' !in tail && tail != ""
    ensures t[k..] + tail != t
  {
    var q := LastQuote(t[k..]);
    var v := t[k..] + tail;
    if k > 0 && |v| == |t| {
      assert t[k + q] == '"';
      assert v[k + q] == if k + q < |t| - k then t[k..][k + q] else tail[k + q - (|t| - k)];
      if k + q < |t| - k {
        assert t[k..][k + q] == t[k..][q + 1..][k - 1];
      } else {
        assert tail[k + q - (|t| - k)] in tail;
      }
    }
  }

  /** A piece of the body that begins like the body is the whole of it or shorter. */
  lemma PieceDiffers(head: string, t: string, token: string, v: string)
    requires Piece(head + t, token) && token == head + v && (OneWord(head + t) ==> OneWord(t)) && !GoodText(t)
    ensures ParsedValue(v) != t
  {
    ParsedShorter(v);
    SameBehind(head, t, v);
  }

  lemma SameBehind(head: string, t: string, v: string)
    ensures head + v == head + t ==> v == t
  {
    assert (head + v)[|head|..] == v && (head + t)[|head|..] == t;
  }

  lemma BadStatusPiece(t: string, token: string)
    requires !GoodText(t) && Piece(STATUS + t, token) && Cut(token).Some? && Cut(token).value.0 == "status"
    ensures ParsedValue(Cut(token).value.1) != t
  {
    CutIs(token);
    StatusHead();
    BehindKey(STATUS, t);
    PieceDiffers(STATUS, t, token, Cut(token).value.1);
  }

  /** The same text cut in two ways, the second cut before the first. */
  lemma TwoCuts(x: string, tail: string, head: string, v: string)
    requires x + tail == head + v && |head| <= |x|
    ensures x == head + x[|head|..] && v == x[|head|..] + tail
  {
    assert x == (x + tail)[..|x|] && head == (head + v)[..|head|];
    assert x[..|head|] == (x + tail)[..|head|];
    assert v == (head + v)[|head|..] && (x + tail)[|head|..] == x[|head|..] + tail;
  }

  /** What follows a head without blanks is cut no earlier than behind the head. */
  lemma CutBehindHead(x: string, tail: string, head: string, v: string)
    requires x + tail == head + v && ' ' !in head && tail != "" && tail[0] == ' '
    ensures |head| <= |x|
  {
    assert (x + tail)[|x|] == ' ';
    assert forall n :: 0 <= n < |head| ==> (head + v)[n] == head[n] && head[n] in head;
  }

  /** The same with any head that holds neither blank nor quote. */
  lemma SwallowedDiffers(head: string, t: string, tail: string, k: nat, v: string)
    requires ' ' !in head && '"' !in head && tail != "" && tail[0] == ' ' && '"' !in tail
    requires k <= |head + t| && '"' in (head + t)[k..] && (head + t)[k..] + tail == head + v
    ensures ParsedValue(v) != t
  {
    var x := (head + t)[k..];
    CutBehindHead(x, tail, head, v);
    TwoCuts(x, tail, head, v);
    assert x[|head|..] == t[k..];
    assert '"' in t[k..];
    assert v[|v| - 1] == tail[|tail| - 1] && tail[|tail| - 1] in tail;
    NotShifted(t, k, tail);
  }

  lemma SwallowedBehind(head: string, t: string, tail: string, token: string, v: string)
    requires ' ' !in head && '"' !in head && tail != "" && tail[0] == ' ' && '"' !in tail
    requires Swallowing(head + t, tail, token) && token == head + v
    ensures ParsedValue(v) != t
  {
    var k :| 0 <= k <= |head + t| && token == (head + t)[k..] + tail && '"' in (head + t)[k..];
    SwallowedDiffers(head, t, tail, k, v);
  }

  lemma StatusHead()
    ensures "status" + ['='] == STATUS && ' ' !in STATUS && '"' !in STATUS
  {
  }

  lemma BadStatusSwallowing(t: string, tail: string, token: string)
    requires Swallowing(STATUS + t, tail, token) && Cut(token).Some? && Cut(token).value.0 == "status"
    requires tail != "" && tail[0] == ' ' && '"' !in tail
    ensures ParsedValue(Cut(token).value.1) != t
  {
    CutIs(token);
    StatusHead();
    SwallowedBehind(STATUS, t, tail, token, Cut(token).value.1);
  }

  /** The printed rest of the line holds no quote: duration, fields and error are single safe words. */
  ghost predicate QuoteFree(e: PerfEvent) {
    '"' !in Joined(Behind(e))
  }

  /** Everything but the status is as it should be. */
  ghost predicate RestGood(e: PerfEvent) {
    && GoodText(e.duration) && DistinctKeys(e.fields)
    && forall p :: p in e.fields ==> GoodValue(p.value) && p.key !in ["name", "status", "duration_ms", "error"]
  }

  lemma BehindGood(e: PerfEvent)
    requires RestGood(e)
    ensures Good(Behind(e)) && forall p :: p in Behind(e) ==> p.key != "status"
  {
    SafePartsFrom(e.fields);
    assert SafeKey("duration_ms") && SafeKey("error");
    assert "duration_ms"[0] == 'd' && "error"[0] == 'e' && "status"[0] == 's';
  }

  lemma {:induction false} RenderingOf(parts: seq<Part>, token: string)
    requires token in Renderings(parts)
    ensures exists p :: p in parts && token == Rendered(p)
  {
    var last := parts[|parts| - 1];
    if token != Rendered(last) {
      RenderingOf(parts[..|parts| - 1], token);
      var p :| p in parts[..|parts| - 1] && token == Rendered(p);
      assert p in parts;
    }
  }

  lemma TokensOfLine(e: PerfEvent)
    ensures Scan(Joined(Parts(e)), "", false, false)
            == [Rendered(Part("name", Text(e.name)))] + Scan(STATUS + StatusOf(e) + ([' '] + Joined(Behind(e))), "", false, false)
  {
    LineWithStatus(e);
    assert SafeKey("name");
    var rest := [' '] + (STATUS + StatusOf(e) + ([' '] + Joined(Behind(e))));
    ScanOne(Part("name", Text(e.name)), rest);
    assert rest[1..] == STATUS + StatusOf(e) + ([' '] + Joined(Behind(e)));
  }

  /** The tokens behind the name, by kind. */
  lemma KindsOfLine(e: PerfEvent, token: string)
    requires QuoteFree(e) && token in Scan(STATUS + StatusOf(e) + ([' '] + Joined(Behind(e))), "", false, false)
    ensures KindOf(STATUS + StatusOf(e), [' '] + Joined(Behind(e)), token)
  {
    var body, tail := STATUS + StatusOf(e), [' '] + Joined(Behind(e));
    assert body[..0] == "" && body[0..] == body && body[0..0] == "";
    TokenKinds(body, tail, 0, 0);
  }

  /** A token behind the status is one of the printed parts, so its key is not that of the status. */
  lemma LaterToken(e: PerfEvent, token: string)
    requires RestGood(e) && token in Scan(Joined(Behind(e)), "", false, false)
    ensures Cut(token).Some? && Cut(token).value.0 != "status"
  {
    BehindGood(e);
    KeyOfPart(Behind(e), token);
  }

  lemma KeyOfPart(parts: seq<Part>, token: string)
    requires Good(parts) && parts != [] && token in Scan(Joined(parts), "", false, false)
    ensures Cut(token).Some? && exists p :: p in parts && p.key == Cut(token).value.0
  {
    TokensAreParts(parts, token);
    var p :| p in parts && token == Rendered(p);
    CutKey(p.key, Printed(p.value));
  }

  lemma TokensAreParts(parts: seq<Part>, token: string)
    requires Good(parts) && parts != [] && token in Scan(Joined(parts), "", false, false)
    ensures exists p :: p in parts && token == Rendered(p)
  {
    ScanJoined(parts, "");
    assert Joined(parts) + "" == Joined(parts) && Renderings(parts) + [] == Renderings(parts);
    RenderingOf(parts, token);
  }

  /** No token of such a line gives back a bad status. */
  lemma BadStatusToken(e: PerfEvent, token: string)
    requires RestGood(e) && QuoteFree(e) && !GoodText(StatusOf(e))
    requires token in Scan(Joined(Parts(e)), "", false, false) && Cut(token).Some? && Cut(token).value.0 == "status"
    ensures ParsedValue(Cut(token).value.1) != StatusOf(e)
  {
    var t, tail := StatusOf(e), [' '] + Joined(Behind(e));
    TokensOfLine(e);
    NotNameToken(e);
    KindsOfLine(e, token);
    if Piece(STATUS + t, token) {
      BadStatusPiece(t, token);
    } else if Swallowing(STATUS + t, tail, token) {
      BadStatusSwallowing(t, tail, token);
    } else {
      assert tail[1..] == Joined(Behind(e));
      LaterToken(e, token);
    }
  }

  lemma NotNameToken(e: PerfEvent)
    ensures Cut(Rendered(Part("name", Text(e.name)))) == Some(("name", Printed(Text(e.name))))
    ensures "name" != "status"
  {
    CutKey("name", Printed(Text(e.name)));
    assert "name"[0] != "status"[0];
  }

  lemma StatusInDictionary(e: PerfEvent)
    requires RestGood(e)
    ensures "status" in Dictionary(Parts(e)) && Dictionary(Parts(e))["status"] == StatusOf(e)
  {
    SafePartsDistinct(e.fields);
    SafePartsFrom(e.fields);
    ReservedDistinct(e);
    FrameDistinct(Head(e), SafeParts(e.fields), Foot(e));
    DictionaryExact(Parts(e));
    assert Parts(e)[1] == Part("status", Bare(StatusOf(e)));
    assert Parts(e)[1] in Parts(e);
  }

  /**
    Line by line: where the rest is printed without quotes, the line gives back the status and all other parts
    if and only if the status is one token, leaves the tokenizer outside of quotes and parses to itself.
   */
  lemma StatusComesBackIff(e: PerfEvent)
    requires RestGood(e) && QuoteFree(e)
    ensures Fields(Scan(Joined(Parts(e)), "", false, false)) == Dictionary(Parts(e)) <==> GoodText(StatusOf(e))
  {
    var tokens := Scan(Joined(Parts(e)), "", false, false);
    if GoodText(StatusOf(e)) {
      PlainIsGood("ok");
      PerfLogRoundTrip(e);
    } else {
      StatusInDictionary(e);
      if "status" in Fields(tokens) {
        var token := FieldComes(tokens, "status");
        BadStatusToken(e, token);
      }
    }
  }

  /** And for a status by itself: every line brings it back, whatever else is on it, if and only if it is such a text. */
  lemma StatusSurvivesIff(t: string)
    ensures (forall e: PerfEvent :: e.status == Some(t) && RestGood(e) ==> Fields(Scan(Joined(Parts(e)), "", false, false)) == Dictionary(Parts(e)))
            <==> GoodText(t)
  {
    if GoodText(t) {
      forall e: PerfEvent | e.status == Some(t) && RestGood(e)
        ensures Fields(Scan(Joined(Parts(e)), "", false, false)) == Dictionary(Parts(e))
      {
        PerfLogRoundTrip(e);
      }
    } else {
      var e := PerfEvent("n", Some(t), "0", [], None);
      PlainIsGood("0");
      assert Behind(e) == [Part("duration_ms", Bare("0"))];
      assert Joined(Behind(e)) == "duration_ms" + ['='] + "0";
      StatusComesBackIff(e);
    }
  }

  /** A status that ends inside quotes swallows everything behind it that is printed without quotes. */
  lemma OpenStatusSwallows(e: PerfEvent)
    requires QuoteFree(e) && Unsplit(StatusOf(e)) && Ending(StatusOf(e)).0
    ensures Fields(Scan(Joined(Parts(e)), "", false, false)).Keys == {"name", "status"}
  {
    TokensOfLine(e);
    OpenTokens(Rendered(Part("name", Text(e.name))), StatusOf(e), [' '] + Joined(Behind(e)));
    SwallowedKeys(e.name, StatusOf(e) + ([' '] + Joined(Behind(e))));
  }

  lemma OpenTokens(first: string, t: string, tail: string)
    requires Unsplit(t) && Ending(t).0 && '"' !in tail
    ensures [first] + Scan(STATUS + t + tail, "", false, false) == [first] + [STATUS + (t + tail)]
  {
    BehindKey(STATUS, t);
    OpenBodySwallows(STATUS + t, tail);
    assert STATUS + t + tail == STATUS + (t + tail);
  }

  lemma SwallowedKeys(name: string, rest: string)
    ensures Fields([Rendered(Part("name", Text(name)))] + [STATUS + rest]).Keys == {"name", "status"}
  {
    CutKey("name", Printed(Text(name)));
    CutKey("status", rest);
    assert STATUS + rest == "status" + ['='] + rest;
    KeysOfTwo(Rendered(Part("name", Text(name))), STATUS + rest);
  }

  lemma OpenBodySwallows(body: string, tail: string)
    requires body != "" && Unsplit(body) && Ending(body).0 && '"' !in tail
    ensures Scan(body + tail, "", false, false) == [body + tail]
  {
    ScanOn(body, tail, "");
    assert "" + body == body;
    SwallowTail(tail, body, Ending(body).1);
  }

  lemma KeysOfTwo(a: string, b: string)
    requires Cut(a).Some? && Cut(b).Some? && Cut(a).value.0 != "" && Cut(b).value.0 != ""
    ensures Fields([a] + [b]).Keys == {Cut(a).value.0, Cut(b).value.0}
  {
    assert ([a] + [b])[..1] == [a] && [a][..0] == [];
    assert Fields([a]) == map[Cut(a).value.0 := ParsedValue(Cut(a).value.1)];
  }
}
