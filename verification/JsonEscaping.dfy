/**
 JSON string bodies: what escape_json and script_json_literal write, and what a reader of
 section 7 of RFC 8259 makes of it.
 */
module JsonEscaping {
  import opened Options
  import opened Replacing

  // ---------------------------------------------------------------- hexadecimal

  function HexDigit(n: nat): char
    requires n < 16
  {
    if n < 10 then '0' + n as char else 'a' + (n - 10) as char
  }

  /** A number as four lower-case hexadecimal digits. */
  function Hex4(n: nat): (s: string)
    requires n < 0x10000
    ensures |s| == 4
  {
    [HexDigit(n / 4096), HexDigit(n / 256 % 16), HexDigit(n / 16 % 16), HexDigit(n % 16)]
  }

  function HexValue(c: char): (v: Option<nat>)
    ensures v.Some? ==> v.value < 16
  {
    if '0' <= c <= '9' then Some(c as int - '0' as int)
    else if 'a' <= c <= 'f' then Some(c as int - 'a' as int + 10)
    else if 'A' <= c <= 'F' then Some(c as int - 'A' as int + 10)
    else None
  }

  /** The value of the first four characters, if they are hexadecimal digits. */
  function ReadHex4(t: string): (v: Option<nat>)
    ensures v.Some? ==> |t| >= 4 && v.value < 0x10000
  {
    if |t| < 4 then None
    else
      var (a, b, c, d) := (HexValue(t[0]), HexValue(t[1]), HexValue(t[2]), HexValue(t[3]));
      if a.Some? && b.Some? && c.Some? && d.Some? then
        Some(4096 * a.value + 256 * b.value + 16 * c.value + d.value)
      else None
  }

  lemma HexDigitIsReadBack(n: nat)
    requires n < 16
    ensures HexValue(HexDigit(n)) == Some(n)
  {
  }

  lemma FourDigits(n: nat)
    requires n < 0x10000
    ensures 4096 * (n / 4096) + 256 * (n / 256 % 16) + 16 * (n / 16 % 16) + n % 16 == n
  {
    var high, mid := n / 256, n / 16;
    assert mid / 16 == high && high / 16 == n / 4096;
  }

  /** Four digits in front of anything read as their value. */
  lemma DigitsAreReadBack(a: nat, b: nat, c: nat, d: nat, rest: string)
    requires a < 16 && b < 16 && c < 16 && d < 16
    ensures ReadHex4([HexDigit(a), HexDigit(b), HexDigit(c), HexDigit(d)] + rest)
         == Some(4096 * a + 256 * b + 16 * c + d)
  {
    var t := [HexDigit(a), HexDigit(b), HexDigit(c), HexDigit(d)] + rest;
    assert t[0] == HexDigit(a) && t[1] == HexDigit(b) && t[2] == HexDigit(c) && t[3] == HexDigit(d);
    HexDigitIsReadBack(a);
    HexDigitIsReadBack(b);
    HexDigitIsReadBack(c);
    HexDigitIsReadBack(d);
  }

  lemma Hex4IsReadBack(n: nat, rest: string)
    requires n < 0x10000
    ensures ReadHex4(Hex4(n) + rest) == Some(n)
  {
    DigitsAreReadBack(n / 4096, n / 256 % 16, n / 16 % 16, n % 16, rest);
    FourDigits(n);
  }

  // ---------------------------------------------------------------- the reader

  /** One character of a string body and the text it took. */
  datatype Unit = Unit(c: char, length: nat)

  function ReadEscapedUnicode(t: string): (r: Option<Unit>)
    requires |t| >= 2
    ensures r.Some? ==> 0 < r.value.length <= |t|
  {
    var high := ReadHex4(t[2..]);
    if high.None? then None
    else if high.value < 0xD800 || 0xE000 <= high.value then Some(Unit(high.value as char, 6))
    else if high.value < 0xDC00 && |t| >= 8 && t[6] == '\\' && t[7] == 'u' then
      var low := ReadHex4(t[8..]);
      if low.Some? && 0xDC00 <= low.value < 0xE000 then
        Some(Unit((0x10000 + (high.value - 0xD800) * 0x400 + (low.value - 0xDC00)) as char, 12))
      else None
    else None
  }

  /** The next character of a string body, by the grammar of section 7. */
  function ReadUnit(t: string): (r: Option<Unit>)
    ensures r.Some? ==> 0 < r.value.length <= |t|
  {
    if t == [] || t[0] == '"' || t[0] as int < 0x20 then None
    else if t[0] != '\\' then Some(Unit(t[0], 1))
    else if |t| < 2 then None
    else
      match t[1]
      case '"' => Some(Unit('"', 2))
      case '\\' => Some(Unit('\\', 2))
      case '/' => Some(Unit('/', 2))
      case 'b' => Some(Unit('\U{8}', 2))
      case 'f' => Some(Unit('\U{C}', 2))
      case 'n' => Some(Unit('\n', 2))
      case 'r' => Some(Unit('\r', 2))
      case 't' => Some(Unit('\t', 2))
      case 'u' => ReadEscapedUnicode(t)
      case _ => None
  }

  /** The string a body stands for. */
  function DecodeBody(t: string): Option<string> {
    if t == [] then Some([])
    else
      var unit := ReadUnit(t);
      if unit.None? then None
      else
        var rest := DecodeBody(t[unit.value.length..]);
        if rest.None? then None else Some([unit.value.c] + rest.value)
  }

  /** The string a quoted literal stands for. */
  function DecodeLiteral(t: string): Option<string> {
    if |t| >= 2 && t[0] == '"' && t[|t| - 1] == '"' then DecodeBody(t[1..|t| - 1]) else None
  }

  /** Where a reader finds the quote that ends the string: escapes are taken two characters at a time. */
  function ClosingQuote(t: string): (i: Option<nat>)
    ensures i.Some? ==> i.value < |t| && t[i.value] == '"'
  {
    if t == [] then None
    else if t[0] == '"' then Some(0)
    else
      var step := if t[0] == '\\' then 2 else 1;
      if |t| < step then None
      else
        var rest := ClosingQuote(t[step..]);
        if rest.None? then None else Some(rest.value + step)
  }

  // ---------------------------------------------------------------- escape_json

  /** How escape_json writes one character. */
  function JsonSpelling(c: char): string {
    match c
    case '"' => "\\\""
    case '\\' => "\\\\"
    case '\n' => "\\n"
    case '\r' => "\\r"
    case '\t' => "\\t"
    case '<' => "\\u003c"
    case '>' => "\\u003e"
    case '&' => "\\u0026"
    case '\U{2028}' => "\\u2028"
    case '\U{2029}' => "\\u2029"
    case _ => if c as int < 0x20 then "\\u" + Hex4(c as int) else [c]
  }

  method EscapeJson(s: string) returns (out: string)
    ensures out == Spell(s, JsonSpelling)
    ensures DecodeBody(out) == Some(s)
  {
    out := [];
    for i := 0 to |s|
      invariant out == Spell(s[..i], JsonSpelling)
    {
      var c := s[i];
      assert s[..i + 1] == s[..i] + [c];
      SpellAppend(s[..i], [c], JsonSpelling);
      assert Spell([c], JsonSpelling) == JsonSpelling(c);
      match c
      case '"' => out := out + "\\\"";
      case '\\' => out := out + "\\\\";
      case '\n' => out := out + "\\n";
      case '\r' => out := out + "\\r";
      case '\t' => out := out + "\\t";
      case '<' => out := out + "\\u003c";
      case '>' => out := out + "\\u003e";
      case '&' => out := out + "\\u0026";
      case '\U{2028}' => out := out + "\\u2028";
      case '\U{2029}' => out := out + "\\u2029";
      case _ =>
        if c as int < 0x20 {
          out := out + "\\u" + Hex4(c as int);
        } else {
          out := out + [c];
        }
    }
    assert s[..|s|] == s;
    EscapedTextDecodes(s);
  }

  /** A way of writing characters that a reader undoes one character at a time. */
  ghost predicate Readable(f: char -> string) {
    forall c: char, rest: string :: ReadUnit(f(c) + rest) == Some(Unit(c, |f(c)|))
  }

  lemma {:induction false} ReadableDecodes(s: string, f: char -> string)
    requires Readable(f)
    ensures DecodeBody(Spell(s, f)) == Some(s)
  {
    if s != [] {
      var rest := Spell(s[1..], f);
      ReadableDecodes(s[1..], f);
      assert ReadUnit(f(s[0]) + rest) == Some(Unit(s[0], |f(s[0])|));
      var t := f(s[0]) + rest;
      assert t[|f(s[0])|..] == rest;
      assert [s[0]] + s[1..] == s;
    }
  }

  /** A two-character escape. */
  lemma ShortEscape(e: char, c: char, rest: string)
    requires (e, c) in {('"', '"'), ('\\', '\\'), ('b', '\U{8}'), ('f', '\U{C}'), ('n', '\n'), ('r', '\r'), ('t', '\t')}
    ensures ReadUnit(['\\', e] + rest) == Some(Unit(c, 2))
  {
    var t := ['\\', e] + rest;
    assert t[0] == '\\' && t[1] == e;
  }

  /** A six-character escape. */
  lemma LongEscape(digits: string, c: char, rest: string)
    requires |digits| == 4 && c as int < 0xD800 && ReadHex4(digits + rest) == Some(c as int)
    ensures ReadUnit("\\u" + digits + rest) == Some(Unit(c, 6))
  {
    var t := "\\u" + digits + rest;
    assert t[0] == '\\' && t[1] == 'u';
    assert t[2..] == digits + rest;
  }

  lemma JsonSpellingIsReadable()
    ensures Readable(JsonSpelling)
  {
    forall c: char, rest: string ensures ReadUnit(JsonSpelling(c) + rest) == Some(Unit(c, |JsonSpelling(c)|)) {
      JsonSpellingIsReadBack(c, rest);
    }
  }

  predicate HasLongEscape(c: char) {
    || c == '<' || c == '>' || c == '&' || c == '\U{2028}' || c == '\U{2029}'
    || (c as int < 0x20 && c != '\n' && c != '\r' && c != '\t')
  }

  lemma LongSpelling(c: char)
    requires HasLongEscape(c)
    ensures JsonSpelling(c) == "\\u" + Hex4(c as int)
  {
  }

  lemma JsonSpellingIsReadBack(c: char, rest: string)
    ensures ReadUnit(JsonSpelling(c) + rest) == Some(Unit(c, |JsonSpelling(c)|))
  {
    match c
    case '"' => ShortEscape('"', c, rest);
    case '\\' => ShortEscape('\\', c, rest);
    case '\n' => ShortEscape('n', c, rest);
    case '\r' => ShortEscape('r', c, rest);
    case '\t' => ShortEscape('t', c, rest);
    case _ =>
      if HasLongEscape(c) {
        LongSpelling(c);
        Hex4IsReadBack(c as int, rest);
        LongEscape(Hex4(c as int), c, rest);
      }
  }

  /** A JSON reader recovers exactly the text escape_json was given. */
  lemma EscapedTextDecodes(s: string)
    ensures DecodeBody(Spell(s, JsonSpelling)) == Some(s)
  {
    JsonSpellingIsReadable();
    ReadableDecodes(s, JsonSpelling);
  }

  // ---------------------------------------------------------------- script_json_literal

  /** How serde_json writes one character. */
  function SerdeSpelling(c: char): string {
    match c
    case '"' => "\\\""
    case '\\' => "\\\\"
    case '\U{8}' => "\\b"
    case '\U{C}' => "\\f"
    case '\n' => "\\n"
    case '\r' => "\\r"
    case '\t' => "\\t"
    case _ => if c as int < 0x20 then "\\u" + Hex4(c as int) else [c]
  }

  function Quoted(body: string): string {
    "\"" + body + "\""
  }

  function ScriptJsonLiteral(s: string): string {
    var text := Quoted(Spell(s, SerdeSpelling));
    var lt := Replace(text, '<', "\\u003c");
    var gt := Replace(lt, '>', "\\u003e");
    var amp := Replace(gt, '&', "\\u0026");
    var ls := Replace(amp, '\U{2028}', "\\u2028");
    Replace(ls, '\U{2029}', "\\u2029")
  }

  /** Which of the five replacements a character meets; 5 for none. */
  function Turn(c: char): (i: nat)
    ensures i <= 5
  {
    match c
    case '<' => 0
    case '>' => 1
    case '&' => 2
    case '\U{2028}' => 3
    case '\U{2029}' => 4
    case _ => 5
  }

  /** The spelling after `n` of the replacements. */
  function Stage(n: nat): char -> string {
    (c: char) => if Turn(c) < 5 && Turn(c) < n then JsonSpelling(c) else SerdeSpelling(c)
  }

  /** The characters escapes are made of. */
  predicate Plain(c: char) {
    c == '"' || c == '\\' || '0' <= c <= '9' || 'a' <= c <= 'u'
  }

  lemma HexIsPlain(n: nat, c: char)
    requires n < 0x10000 && c in Hex4(n)
    ensures Plain(c)
  {
  }

  /** An escape writes nothing but plain characters, besides the character itself. */
  lemma SpelledPlainly(n: nat, c: char, x: char)
    requires x in Stage(n)(c)
    ensures Plain(x) || (x == c && !(c as int < 0x20) && !(Turn(c) < n && Turn(c) < 5))
  {
    if c as int < 0x20 && x in Hex4(c as int) { HexIsPlain(c as int, x); }
  }

  lemma StageStep(n: nat, c: char, target: char)
    requires n < 5 && Turn(target) == n
    ensures Stage(n + 1)(c) == Replace(Stage(n)(c), target, JsonSpelling(target))
  {
    if c == target {
      assert Stage(n)(c) == [c];
    } else if target in Stage(n)(c) {
      SpelledPlainly(n, c, target);
      assert false;
    }
    ReplaceWhole(Stage(n)(c), target, JsonSpelling(target));
  }

  lemma StageReplaced(n: nat, s: string, target: char)
    requires n < 5 && Turn(target) == n
    ensures Replace(Quoted(Spell(s, Stage(n))), target, JsonSpelling(target)) == Quoted(Spell(s, Stage(n + 1)))
  {
    var body, text := Spell(s, Stage(n)), JsonSpelling(target);
    forall c: char { StageStep(n, c, target); }
    ReplaceSpelled(s, Stage(n), target, text, Stage(n + 1));
    ReplaceAppend("\"" + body, "\"", target, text);
    ReplaceAppend("\"", body, target, text);
    ReplaceWhole("\"", target, text);
  }

  lemma {:induction false} SpellAgrees(s: string, f: char -> string, g: char -> string)
    requires forall c | c in s :: f(c) == g(c)
    ensures Spell(s, f) == Spell(s, g)
  {
    if s != [] {
      SpellAgrees(s[1..], f, g);
    }
  }

  lemma SerdeIsStageZero(s: string)
    ensures Spell(s, SerdeSpelling) == Spell(s, Stage(0))
  {
    SpellAgrees(s, SerdeSpelling, Stage(0));
  }

  lemma MarkupIsOnePass(s: string, text: string)
    requires text == Quoted(Spell(s, Stage(0)))
    ensures Replace(Replace(Replace(text, '<', "\\u003c"), '>', "\\u003e"), '&', "\\u0026")
         == Quoted(Spell(s, Stage(3)))
  {
    StageReplaced(0, s, '<');
    StageReplaced(1, s, '>');
    StageReplaced(2, s, '&');
  }

  lemma LineEndsAreOnePass(s: string, text: string)
    requires text == Quoted(Spell(s, Stage(3)))
    ensures Replace(Replace(text, '\U{2028}', "\\u2028"), '\U{2029}', "\\u2029") == Quoted(Spell(s, Stage(5)))
  {
    StageReplaced(3, s, '\U{2028}');
    StageReplaced(4, s, '\U{2029}');
  }

  /** Serialising and then replacing five characters is one pass. */
  lemma LiteralIsOnePass(s: string)
    ensures ScriptJsonLiteral(s) == Quoted(Spell(s, Stage(5)))
  {
    SerdeIsStageZero(s);
    var text := Quoted(Spell(s, SerdeSpelling));
    MarkupIsOnePass(s, text);
    LineEndsAreOnePass(s, Quoted(Spell(s, Stage(3))));
  }

  lemma StageIsReadBack(c: char, rest: string)
    ensures ReadUnit(Stage(5)(c) + rest) == Some(Unit(c, |Stage(5)(c)|))
  {
    if c == '\U{8}' {
      ShortEscape('b', c, rest);
    } else if c == '\U{C}' {
      ShortEscape('f', c, rest);
    } else {
      assert Stage(5)(c) == JsonSpelling(c);
      JsonSpellingIsReadBack(c, rest);
    }
  }

  /** The literal inlined in the page stands for exactly the text it was made from. */
  lemma LiteralDecodes(s: string)
    ensures DecodeLiteral(ScriptJsonLiteral(s)) == Some(s)
  {
    LiteralIsOnePass(s);
    forall c: char, rest: string ensures ReadUnit(Stage(5)(c) + rest) == Some(Unit(c, |Stage(5)(c)|)) {
      StageIsReadBack(c, rest);
    }
    ReadableDecodes(s, Stage(5));
    var body := Spell(s, Stage(5));
    assert Quoted(body)[1..|Quoted(body)| - 1] == body;
  }

  // ---------------------------------------------------------------- the two encoders compared

  lemma {:induction false} EscapeJsonIsLonger(s: string)
    ensures |Spell(s, JsonSpelling)| >= |Spell(s, Stage(5))|
    ensures '\U{8}' in s || '\U{C}' in s ==> |Spell(s, JsonSpelling)| > |Spell(s, Stage(5))|
    ensures '\U{8}' !in s && '\U{C}' !in s ==> Spell(s, JsonSpelling) == Spell(s, Stage(5))
  {
    if s != [] {
      assert s == [s[0]] + s[1..];
      EscapeJsonIsLonger(s[1..]);
    }
  }

  /** They write the same text exactly when there is no backspace or form feed to spell. */
  lemma EncodersAgreeIff(s: string)
    ensures Quoted(Spell(s, JsonSpelling)) == ScriptJsonLiteral(s) <==> '\U{8}' !in s && '\U{C}' !in s
  {
    LiteralIsOnePass(s);
    EscapeJsonIsLonger(s);
    assert |Quoted(Spell(s, JsonSpelling))| == |Spell(s, JsonSpelling)| + 2;
    assert |Quoted(Spell(s, Stage(5)))| == |Spell(s, Stage(5))| + 2;
  }

  /** Either way a reader ends up with the same text. */
  lemma EncodersMeanTheSame(s: string)
    ensures DecodeLiteral(Quoted(Spell(s, JsonSpelling))) == DecodeLiteral(ScriptJsonLiteral(s)) == Some(s)
  {
    LiteralDecodes(s);
    EscapedTextDecodes(s);
    var body := Spell(s, JsonSpelling);
    assert Quoted(body)[1..|Quoted(body)| - 1] == body;
  }

  // ---------------------------------------------------------------- the output cannot break out

  lemma JsonSpellingIsInert(c: char, x: char)
    requires x in JsonSpelling(c)
    ensures Plain(x) || (x == c && !(c as int < 0x20) && Turn(c) == 5)
  {
    if c != '\U{8}' && c != '\U{C}' {
      assert JsonSpelling(c) == Stage(5)(c);
      SpelledPlainly(5, c, x);
    } else {
      LongSpelling(c);
      if x in Hex4(c as int) { HexIsPlain(c as int, x); }
    }
  }

  /** Nothing either encoder writes is special to HTML, a line terminator or a control character. */
  lemma OutputIsInert(s: string, x: char)
    requires x in Spell(s, JsonSpelling) || x in ScriptJsonLiteral(s)
    ensures x != '<' && x != '>' && x != '&' && x != '\U{2028}' && x != '\U{2029}' && x as int >= 0x20
  {
    if x in Spell(s, JsonSpelling) {
      SpelledFrom(s, JsonSpelling, x);
      var c :| c in s && x in JsonSpelling(c);
      JsonSpellingIsInert(c, x);
    } else {
      LiteralIsOnePass(s);
      if x in Spell(s, Stage(5)) {
        SpelledFrom(s, Stage(5), x);
        var c :| c in s && x in Stage(5)(c);
        SpelledPlainly(5, c, x);
      }
    }
  }

  lemma {:induction false} PlainRunIsSkipped(p: string, rest: string)
    requires '"' !in p && '\\' !in p
    ensures ClosingQuote(p + rest) == Shifted(ClosingQuote(rest), |p|)
  {
    if p == [] {
      assert p + rest == rest;
    } else {
      assert (p + rest)[1..] == p[1..] + rest;
      PlainRunIsSkipped(p[1..], rest);
    }
  }

  function Shifted(i: Option<nat>, offset: nat): Option<nat> {
    match i
    case None => None
    case Some(n) => Some(n + offset)
  }

  lemma EscapeIsSkipped(e: char, rest: string)
    ensures ClosingQuote(['\\', e] + rest) == Shifted(ClosingQuote(rest), 2)
  {
    assert (['\\', e] + rest)[2..] == rest;
  }

  lemma HexHasNoQuote(digits: string)
    requires ReadHex4(digits).Some?
    ensures '"' !in digits[..4] && '\\' !in digits[..4]
  {
  }

  lemma LongEscapeIsSkipped(t: string, rest: string)
    requires |t| >= 6 && t[0] == '\\' && t[1] == 'u' && ReadHex4(t[2..]).Some?
    ensures ClosingQuote(t[..6] + rest) == Shifted(ClosingQuote(rest), 6)
  {
    var digits := t[2..][..4];
    assert t[..6] + rest == ['\\', t[1]] + (digits + rest);
    EscapeIsSkipped(t[1], digits + rest);
    HexHasNoQuote(t[2..]);
    PlainRunIsSkipped(digits, rest);
  }

  lemma PairIsSkipped(t: string, rest: string)
    requires |t| >= 12 && t[0] == '\\' && t[1] == 'u' && ReadHex4(t[2..]).Some?
    requires t[6] == '\\' && t[7] == 'u' && ReadHex4(t[8..]).Some?
    ensures ClosingQuote(t[..12] + rest) == Shifted(ClosingQuote(rest), 12)
  {
    var low := t[6..];
    assert low[2..] == t[8..];
    assert t[..12] + rest == t[..6] + (low[..6] + rest);
    LongEscapeIsSkipped(t, low[..6] + rest);
    LongEscapeIsSkipped(low, rest);
  }

  /** The reader of closing quotes moves over whatever the reader of characters takes. */
  lemma UnitIsSkipped(t: string, rest: string)
    requires ReadUnit(t).Some?
    ensures var n := ReadUnit(t).value.length; ClosingQuote(t[..n] + rest) == Shifted(ClosingQuote(rest), n)
  {
    if t[0] != '\\' {
      PlainRunIsSkipped(t[..1], rest);
    } else if t[1] != 'u' {
      assert t[..2] == ['\\', t[1]];
      EscapeIsSkipped(t[1], rest);
    } else if ReadUnit(t).value.length == 6 {
      LongEscapeIsSkipped(t, rest);
    } else {
      PairIsSkipped(t, rest);
    }
  }

  /** A body that decodes is closed by its own quote and by nothing before it. */
  lemma {:induction false} BodyClosesItself(t: string, rest: string)
    requires DecodeBody(t).Some?
    ensures ClosingQuote(t + "\"" + rest) == Some(|t|)
  {
    if t != [] {
      var n := ReadUnit(t).value.length;
      BodyClosesItself(t[n..], rest);
      UnitIsSkipped(t, t[n..] + "\"" + rest);
      Regroup(t, n, rest);
    }
  }

  lemma Regroup(t: string, n: nat, rest: string)
    requires n <= |t|
    ensures t[..n] + (t[n..] + "\"" + rest) == t + "\"" + rest
  {
  }

  lemma OpenedAt(body: string, rest: string)
    ensures Quoted(body)[1..] + rest == body + "\"" + rest
  {
  }

  /** Whatever follows in the page, the string ends where the encoder meant it to. */
  lemma NoTextEndsTheStringEarly(s: string, rest: string)
    ensures ClosingQuote(Quoted(Spell(s, JsonSpelling))[1..] + rest) == Some(|Spell(s, JsonSpelling)|)
    ensures ScriptJsonLiteral(s) != []
    ensures ClosingQuote(ScriptJsonLiteral(s)[1..] + rest) == Some(|ScriptJsonLiteral(s)| - 2)
  {
    EscapedTextDecodes(s);
    OpenedAt(Spell(s, JsonSpelling), rest);
    BodyClosesItself(Spell(s, JsonSpelling), rest);
    LiteralIsOnePass(s);
    LiteralDecodes(s);
    var body := Spell(s, Stage(5));
    assert Quoted(body)[1..|Quoted(body)| - 1] == body;
    OpenedAt(body, rest);
    BodyClosesItself(body, rest);
  }
}
