// A parser for canonical JSON text, and the proof that it recovers every printed value.
// Nothing in the program parses its own canonical text; the parser is here because it
// shows that the text determines the value, which approvals and the hash chain rely on.
module JsonParser {
  import opened Wrappers
  import opened Json

  // A value read off the front of a text, and what is left of the text.
  datatype Parsed<+T> = Parsed(value: T, rest: string)

  predicate IsDigit(c: char) {
    '0' <= c <= '9'
  }

  function DigitsEnd(s: string): (n: nat)
    ensures n <= |s|
  {
    if |s| > 0 && IsDigit(s[0]) then 1 + DigitsEnd(s[1..]) else 0
  }

  function NatOf(digits: string): nat {
    if |digits| == 0 then 0
    else
      var last := digits[|digits| - 1];
      10 * NatOf(digits[..|digits| - 1]) + (if IsDigit(last) then last as int - '0' as int else 0)
  }

  function ParseNat(s: string): (r: Option<Parsed<nat>>)
    ensures r.Some? ==> |r.value.rest| < |s|
  {
    var n := DigitsEnd(s);
    if n == 0 then None else Some(Parsed(NatOf(s[..n]), s[n..]))
  }

  function ParseInt(s: string): (r: Option<Parsed<int>>)
    ensures r.Some? ==> |r.value.rest| < |s|
  {
    if |s| > 0 && s[0] == '-' then
      match ParseNat(s[1..])
      case None => None
      case Some(p) => var n: int := p.value; Some(Parsed(-n, p.rest))
    else
      match ParseNat(s)
      case None => None
      case Some(p) => Some(Parsed(p.value, p.rest))
  }

  function HexValue(c: char): Option<nat> {
    if '0' <= c <= '9' then Some(c as int - '0' as int)
    else if 'a' <= c <= 'f' then Some(c as int - 'a' as int + 10)
    else None
  }

  // One escape sequence, after its backslash.
  function ParseEscape(s: string): (r: Option<Parsed<char>>)
    ensures r.Some? ==> |r.value.rest| < |s|
  {
    if |s| == 0 then None
    else match s[0]
      case '"' => Some(Parsed('"', s[1..]))
      case '\\' => Some(Parsed('\\', s[1..]))
      case 'b' => Some(Parsed(8 as char, s[1..]))
      case 'f' => Some(Parsed(12 as char, s[1..]))
      case 'n' => Some(Parsed('\n', s[1..]))
      case 'r' => Some(Parsed('\r', s[1..]))
      case 't' => Some(Parsed('\t', s[1..]))
      case 'u' =>
        if |s| < 5 || s[1] != '0' || s[2] != '0' then None
        else (match (HexValue(s[3]), HexValue(s[4]))
              case (Some(high), Some(low)) =>
                if 16 * high + low < 32 then Some(Parsed((16 * high + low) as char, s[5..])) else None
              case _ => None)
      case _ => None
  }

  // The characters of a string literal, after its opening quote.
  function ParseChars(s: string): (r: Option<Parsed<string>>)
    ensures r.Some? ==> |r.value.rest| < |s|
    decreases |s|
  {
    if |s| == 0 then None
    else if s[0] == '"' then Some(Parsed("", s[1..]))
    else
      var first := if s[0] == '\\' then ParseEscape(s[1..]) else Some(Parsed(s[0], s[1..]));
      match first
      case None => None
      case Some(c) =>
        match ParseChars(c.rest)
        case None => None
        case Some(p) => Some(Parsed([c.value] + p.value, p.rest))
  }

  predicate Starts(s: string, c: char) {
    |s| > 0 && s[0] == c
  }

  function ParseWord(s: string, word: string, v: Value): (r: Option<Parsed<Value>>)
    requires word != ""
    ensures r.Some? ==> |r.value.rest| < |s|
  {
    if word <= s then Some(Parsed(v, s[|word|..])) else None
  }

  function ParseString(s: string): (r: Option<Parsed<Value>>)
    ensures r.Some? ==> |r.value.rest| < |s|
  {
    match ParseChars(s)
    case None => None
    case Some(p) => Some(Parsed(Str(p.value), p.rest))
  }

  function ParseNumber(s: string): (r: Option<Parsed<Value>>)
    ensures r.Some? ==> |r.value.rest| < |s|
  {
    match ParseInt(s)
    case None => None
    case Some(p) => Some(Parsed(Int(p.value), p.rest))
  }

  function ParseValue(s: string): (r: Option<Parsed<Value>>)
    ensures r.Some? ==> |r.value.rest| < |s|
    decreases |s|, 0
  {
    if |s| == 0 then None
    else match s[0]
      case 'n' => ParseWord(s, "null", Null)
      case 't' => ParseWord(s, "true", Bool(true))
      case 'f' => ParseWord(s, "false", Bool(false))
      case '"' => ParseString(s[1..])
      case '[' => ParseArray(s[1..])
      case '{' => ParseObject(s[1..])
      case _ => ParseNumber(s)
  }

  // An array, after its opening bracket.
  function ParseArray(s: string): (r: Option<Parsed<Value>>)
    ensures r.Some? ==> |r.value.rest| < |s|
    decreases |s|, 4
  {
    if Starts(s, ']') then Some(Parsed(Arr([]), s[1..]))
    else match ParseItems(s)
      case None => None
      case Some(p) => Some(Parsed(Arr(p.value), p.rest))
  }

  function ParseItems(s: string): (r: Option<Parsed<seq<Value>>>)
    ensures r.Some? ==> |r.value.rest| < |s|
    decreases |s|, 3
  {
    match ParseValue(s)
    case None => None
    case Some(p) =>
      if Starts(p.rest, ']') then Some(Parsed([p.value], p.rest[1..]))
      else if !Starts(p.rest, ',') then None
      else match ParseItems(p.rest[1..])
        case None => None
        case Some(q) => Some(Parsed([p.value] + q.value, q.rest))
  }

  // An object, after its opening brace.
  function ParseObject(s: string): (r: Option<Parsed<Value>>)
    ensures r.Some? ==> |r.value.rest| < |s|
    decreases |s|, 4
  {
    if Starts(s, '}') then Some(Parsed(Obj([]), s[1..]))
    else match ParseFields(s)
      case None => None
      case Some(p) => Some(Parsed(Obj(p.value), p.rest))
  }

  function ParseKey(s: string): (r: Option<Parsed<string>>)
    ensures r.Some? ==> |r.value.rest| < |s|
  {
    if !Starts(s, '"') then None
    else match ParseChars(s[1..])
      case None => None
      case Some(k) => if Starts(k.rest, ':') then Some(Parsed(k.value, k.rest[1..])) else None
  }

  function ParseField(s: string): (r: Option<Parsed<Field>>)
    ensures r.Some? ==> |r.value.rest| < |s|
    decreases |s|, 2
  {
    match ParseKey(s)
    case None => None
    case Some(k) =>
      match ParseValue(k.rest)
      case None => None
      case Some(p) => Some(Parsed(Field(k.value, p.value), p.rest))
  }

  function ParseFields(s: string): (r: Option<Parsed<Fields>>)
    ensures r.Some? ==> |r.value.rest| < |s|
    decreases |s|, 3
  {
    match ParseField(s)
    case None => None
    case Some(p) =>
      if Starts(p.rest, '}') then Some(Parsed([p.value], p.rest[1..]))
      else if !Starts(p.rest, ',') then None
      else match ParseFields(p.rest[1..])
        case None => None
        case Some(q) => Some(Parsed([p.value] + q.value, q.rest))
  }

  // ---------------------------------------------------------------------------------
  // Round trip
  // ---------------------------------------------------------------------------------

  // A number must not run into what follows it; every delimiter qualifies.
  predicate Delimited(t: string) {
    |t| == 0 || !IsDigit(t[0])
  }

  lemma {:induction false} ParseNatText(n: nat, t: string)
    requires Delimited(t)
    ensures ParseNat(NatText(n) + t) == Some(Parsed(n, t))
  {
    NatTextDigits(n, t);
    var s := NatText(n) + t;
    assert s[..|NatText(n)|] == NatText(n) && s[|NatText(n)|..] == t;
  }

  lemma {:induction false} NatTextDigits(n: nat, t: string)
    requires Delimited(t)
    ensures DigitsEnd(NatText(n) + t) == |NatText(n)| > 0
    ensures NatOf(NatText(n)) == n
    ensures IsDigit(NatText(n)[0])
  {
    NatTextValue(n);
    DigitsRun(NatText(n), t);
  }

  lemma {:induction false} NatTextValue(n: nat)
    ensures |NatText(n)| > 0
    ensures NatOf(NatText(n)) == n
    ensures forall i :: 0 <= i < |NatText(n)| ==> IsDigit(NatText(n)[i])
  {
    if n < 10 {
      assert NatText(n)[..0] == "";
    } else {
      NatTextValue(n / 10);
      var front := NatText(n / 10);
      assert NatText(n)[..|front|] == front;
    }
  }

  lemma {:induction false} DigitsRun(digits: string, t: string)
    requires Delimited(t)
    requires forall i :: 0 <= i < |digits| ==> IsDigit(digits[i])
    ensures DigitsEnd(digits + t) == |digits|
  {
    if |digits| == 0 {
      assert digits + t == t;
    } else {
      DigitsRun(digits[1..], t);
      assert (digits + t)[1..] == digits[1..] + t;
    }
  }

  lemma Regroup(a: string, b: string, c: string)
    ensures a + b + c == a + (b + c)
  {
    assert a + b + c == a + (b + c);
  }

  lemma RegroupFour(a: string, b: string, c: string, d: string)
    ensures a + b + c + d == a + (b + (c + d))
  {
    assert a + b + c + d == a + (b + (c + d));
  }

  // A text that starts with one given character.
  lemma AfterFirst(first: string, t: string)
    requires |first| == 1
    ensures first + t != "" && (first + t)[0] == first[0] && (first + t)[1..] == t
  {
    assert (first + t)[1..] == t;
  }

  lemma ParseNegative(n: int, t: string)
    requires Delimited(t) && n > 0
    ensures ParseInt("-" + NatText(n) + t) == Some(Parsed(-n, t))
  {
    Regroup("-", NatText(n), t);
    AfterFirst("-", NatText(n) + t);
    ParseNatText(n, t);
  }

  lemma ParseNonNegative(n: nat, t: string)
    requires Delimited(t)
    ensures ParseInt(NatText(n) + t) == Some(Parsed(n, t))
    ensures NatText(n) != "" && IsDigit(NatText(n)[0])
  {
    ParseNatText(n, t);
    NatTextDigits(n, t);
    assert (NatText(n) + t)[0] == NatText(n)[0];
  }

  lemma ParseIntText(n: int, t: string)
    requires Delimited(t)
    ensures ParseValue(IntText(n) + t) == Some(Parsed(Int(n), t))
    ensures IntText(n) != "" && (IntText(n)[0] == '-' || IsDigit(IntText(n)[0]))
  {
    if n < 0 {
      ParseNegative(-n, t);
    } else {
      ParseNonNegative(n, t);
    }
    assert (IntText(n) + t)[0] == IntText(n)[0];
  }

  lemma ParseWordText(word: string, v: Value, t: string)
    requires word != ""
    ensures ParseWord(word + t, word, v) == Some(Parsed(v, t))
  {
    assert (word + t)[|word|..] == t;
  }

  lemma ParseEscapedChar(c: char, t: string)
    ensures EscapeChar(c)[0] != '"'
    ensures EscapeChar(c)[0] == '\\' ==>
              ParseEscape((EscapeChar(c) + t)[1..]) == Some(Parsed(c, t))
    ensures EscapeChar(c)[0] != '\\' ==> EscapeChar(c) == [c]
  {
    var s := (EscapeChar(c) + t)[1..];
    if c == '"' || c == '\\' || c == '\n' || c == '\r' || c == '\t' || c as int == 8 || c as int == 12 {
      assert s[1..] == t;
    } else if c as int < 32 {
      var high, low := HexDigit(c as int / 16), HexDigit(c as int % 16);
      assert s == ['u', '0', '0', high, low] + t;
      assert s[5..] == t;
      assert HexValue(high) == Some(c as int / 16) && HexValue(low) == Some(c as int % 16);
    }
  }

  lemma ParseCharsStep(c: char, s: string, tail: string, t: string)
    requires ParseChars(tail) == Some(Parsed(s, t))
    ensures ParseChars(EscapeChar(c) + tail) == Some(Parsed([c] + s, t))
  {
    var text := EscapeChar(c) + tail;
    ParseEscapedChar(c, tail);
    assert text[0] == EscapeChar(c)[0];
    if text[0] != '\\' {
      assert text[1..] == tail;
    }
  }

  lemma EscapeSplits(s: string, u: string)
    requires s != ""
    ensures Escape(s) + u == EscapeChar(s[0]) + (Escape(s[1..]) + u)
    ensures s == [s[0]] + s[1..]
  {
    Regroup(EscapeChar(s[0]), Escape(s[1..]), u);
  }

  lemma ParseClosingQuote(t: string)
    ensures ParseChars("\"" + t) == Some(Parsed("", t))
  {
    AfterFirst("\"", t);
  }

  lemma {:induction false} ParseEscaped(s: string, t: string)
    ensures ParseChars(Escape(s) + ("\"" + t)) == Some(Parsed(s, t))
  {
    if s == "" {
      ParseClosingQuote(t);
      assert Escape(s) + ("\"" + t) == "\"" + t;
    } else {
      EscapeSplits(s, "\"" + t);
      ParseEscaped(s[1..], t);
      ParseCharsStep(s[0], s[1..], Escape(s[1..]) + ("\"" + t), t);
    }
  }

  lemma QuoteSplits(s: string, t: string)
    ensures Quote(s) + t == "\"" + (Escape(s) + ("\"" + t))
    ensures (Quote(s) + t)[1..] == Escape(s) + ("\"" + t)
  {
    RegroupFour("\"", Escape(s), "\"", t);
    AfterFirst("\"", Escape(s) + ("\"" + t));
  }

  lemma ParseQuoted(s: string, t: string)
    ensures Quote(s) + t == "\"" + (Escape(s) + ("\"" + t))
    ensures ParseChars((Quote(s) + t)[1..]) == Some(Parsed(s, t))
  {
    QuoteSplits(s, t);
    ParseEscaped(s, t);
  }

  lemma ParseStringText(s: string, t: string)
    ensures ParseValue(Quote(s) + t) == Some(Parsed(Str(s), t))
  {
    QuoteSplits(s, t);
    ParseQuoted(s, t);
  }

  lemma ParseWords(t: string)
    ensures ParseValue("null" + t) == Some(Parsed(Null, t))
    ensures ParseValue("true" + t) == Some(Parsed(Bool(true), t))
    ensures ParseValue("false" + t) == Some(Parsed(Bool(false), t))
  {
    ParseWordText("null", Null, t);
    ParseWordText("true", Bool(true), t);
    ParseWordText("false", Bool(false), t);
  }

  lemma ParseArrayText(body: string, items: seq<Value>, t: string)
    requires ParseArray(body + ("]" + t)) == Some(Parsed(Arr(items), t))
    ensures ParseValue("[" + body + "]" + t) == Some(Parsed(Arr(items), t))
  {
    OpenClose("[", body, "]", t);
  }

  lemma ParseObjectText(body: string, fields: Fields, t: string)
    requires ParseObject(body + ("}" + t)) == Some(Parsed(Obj(fields), t))
    ensures ParseValue("{" + body + "}" + t) == Some(Parsed(Obj(fields), t))
  {
    OpenClose("{", body, "}", t);
  }

  lemma OpenClose(open: string, body: string, close: string, t: string)
    requires |open| == 1
    ensures (open + body + close + t)[0] == open[0]
    ensures (open + body + close + t)[1..] == body + (close + t)
  {
    RegroupFour(open, body, close, t);
    AfterFirst(open, body + (close + t));
  }

  // The parser recovers the value from its text, whatever non-digit text follows.
  lemma {:induction false} ParseRender(v: Value, t: string)
    requires Delimited(t)
    ensures ParseValue(Render(v) + t) == Some(Parsed(v, t))
    decreases v, 3
  {
    match v
    case Null => ParseWords(t);
    case Bool(b) => ParseWords(t);
    case Int(n) => ParseIntText(n, t);
    case Str(str) => ParseStringText(str, t);
    case Arr(items) =>
      ParseRenderArray(items, t);
      ParseArrayText(RenderItems(items), items, t);
    case Obj(fields) =>
      ParseRenderObject(fields, t);
      ParseObjectText(RenderFields(fields), fields, t);
  }

  lemma FirstChar(v: Value)
    ensures Render(v) != "" && Render(v)[0] != ']'
  {
    if v.Int? {
      ParseIntText(v.n, "");
    }
  }

  lemma {:induction false} ParseRenderArray(items: seq<Value>, t: string)
    ensures ParseArray(RenderItems(items) + ("]" + t)) == Some(Parsed(Arr(items), t))
    decreases items, 2
  {
    var s := RenderItems(items) + ("]" + t);
    if |items| == 0 {
      assert s == "]" + t && s[1..] == t;
    } else {
      ParseRenderItems(items, t);
      FirstChar(items[0]);
      assert s[0] == Render(items[0])[0];
    }
  }

  lemma {:induction false} ParseRenderItems(items: seq<Value>, t: string)
    requires |items| > 0
    ensures ParseItems(RenderItems(items) + ("]" + t)) == Some(Parsed(items, t))
    decreases items, 1
  {
    if |items| == 1 {
      ParseRender(items[0], "]" + t);
      AfterFirst("]", t);
      assert items == [items[0]];
    } else {
      var tail := RenderItems(items[1..]) + ("]" + t);
      RegroupFour(Render(items[0]), ",", RenderItems(items[1..]), "]" + t);
      ParseRender(items[0], "," + tail);
      ParseRenderItems(items[1..], t);
      AfterFirst(",", tail);
      assert items == [items[0]] + items[1..];
    }
  }

  lemma {:induction false} ParseRenderObject(fields: Fields, t: string)
    ensures ParseObject(RenderFields(fields) + ("}" + t)) == Some(Parsed(Obj(fields), t))
    decreases fields, 2
  {
    var s := RenderFields(fields) + ("}" + t);
    if |fields| == 0 {
      assert s == "}" + t && s[1..] == t;
    } else {
      ParseRenderFields(fields, t);
      assert s[0] == '"';
    }
  }

  lemma ParseQuotedKey(key: string, t: string)
    ensures ParseKey(Quote(key) + (":" + t)) == Some(Parsed(key, t))
  {
    ParseQuoted(key, ":" + t);
    AfterFirst(":", t);
  }

  lemma {:induction false} ParseRenderField(field: Field, t: string)
    requires Delimited(t)
    ensures ParseField(Quote(field.key) + ":" + Render(field.value) + t) == Some(Parsed(field, t))
    decreases field, 0
  {
    var tail := Render(field.value) + t;
    RegroupFour(Quote(field.key), ":", Render(field.value), t);
    ParseQuotedKey(field.key, tail);
    ParseRender(field.value, t);
  }

  lemma ParseLastField(s: string, field: Field, t: string)
    requires ParseField(s) == Some(Parsed(field, "}" + t))
    ensures ParseFields(s) == Some(Parsed([field], t))
  {
    AfterFirst("}", t);
  }

  lemma ParseNextField(s: string, field: Field, tail: string, rest: Fields, t: string)
    requires ParseField(s) == Some(Parsed(field, "," + tail))
    requires ParseFields(tail) == Some(Parsed(rest, t))
    ensures ParseFields(s) == Some(Parsed([field] + rest, t))
  {
    AfterFirst(",", tail);
  }

  lemma {:induction false} ParseRenderFields(fields: Fields, t: string)
    requires |fields| > 0
    ensures ParseFields(RenderFields(fields) + ("}" + t)) == Some(Parsed(fields, t))
    decreases fields, 1
  {
    var text := Quote(fields[0].key) + ":" + Render(fields[0].value);
    if |fields| == 1 {
      ParseRenderField(fields[0], "}" + t);
      ParseLastField(text + ("}" + t), fields[0], t);
      assert fields == [fields[0]];
    } else {
      var tail := RenderFields(fields[1..]) + ("}" + t);
      RegroupFour(text, ",", RenderFields(fields[1..]), "}" + t);
      ParseRenderField(fields[0], "," + tail);
      ParseRenderFields(fields[1..], t);
      ParseNextField(text + ("," + tail), fields[0], tail, fields[1..], t);
      assert fields == [fields[0]] + fields[1..];
    }
  }
}
