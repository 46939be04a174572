/**
 Reading the macaroon and the invoice back out of a challenge header with `split`.

 The header is cut at the text `macaroon="` and at the text `invoice="`, wherever they occur, so
 what comes back depends on what the two values end in. The result is worked out for every pair
 of quote-free values and any trailing fields.
 */
module ChallengeHeader {
  import opened Options

  const MACAROON := "macaroon="
  const INVOICE := "invoice="
  const QUOTE := "\""

  predicate EndsWith(s: string, suffix: string) {
    |s| >= |suffix| && s[|s| - |suffix|..] == suffix
  }

  /** `pat` stands in `s` at position i. */
  predicate Occurs(s: string, i: nat, pat: string) {
    i <= |s| && pat <= s[i..]
  }

  /** The leftmost occurrence of `pat`. */
  function Find(s: string, pat: string): (i: Option<nat>)
    ensures i.Some? ==> i.value + |pat| <= |s|
  {
    if |s| < |pat| then None
    else if pat <= s then Some(0)
    else
      match Find(s[1..], pat)
      case None => None
      case Some(j) => Some(j + 1)
  }

  lemma {:induction false} FindIsLeftmost(s: string, pat: string)
    ensures forall j: nat | Occurs(s, j, pat) :: Find(s, pat).Some? && Find(s, pat).value <= j
    ensures Find(s, pat).Some? ==> Occurs(s, Find(s, pat).value, pat)
  {
    if |s| >= |pat| && !(pat <= s) {
      FindIsLeftmost(s[1..], pat);
      forall j: nat | Occurs(s, j, pat) ensures j > 0 && Occurs(s[1..], j - 1, pat) {
        assert s[0..] == s;
        assert j > 0;
        assert s[1..][j - 1..] == s[j..];
      }
      if i :| Find(s[1..], pat) == Some(i) {
        assert s[1..][i..] == s[i + 1..];
      }
    } else if |s| >= |pat| {
      assert s[0..] == s;
    }
  }

  /** split(pat).next(): everything before the first match. */
  function Before(s: string, pat: string): string {
    match Find(s, pat)
    case None => s
    case Some(i) => s[..i]
  }

  /** split(pat).nth(1): what lies between the first match and the next one. */
  function Second(s: string, pat: string): Option<string> {
    match Find(s, pat)
    case None => None
    case Some(i) => Some(Before(s[i + |pat|..], pat))
  }

  /** parse_l402_header_value. */
  function ParseHeader(header: string): Option<(string, string)> {
    match Second(header, MACAROON + QUOTE)
    case None => None
    case Some(macPart) =>
      match Second(header, INVOICE + QUOTE)
      case None => None
      case Some(invPart) => Some((Before(macPart, QUOTE), Before(invPart, QUOTE)))
  }

  /** The header the gateway sends, with whatever fields come after. */
  function Header(mac: string, inv: string, tail: string): string {
    "L402 macaroon=" + QUOTE + mac + QUOTE + ", invoice=" + QUOTE + inv + QUOTE + tail
  }

  // ---------------------------------------------------------------- no match straddles a quote

  function After(i: Option<nat>, offset: nat): Option<nat> {
    match i
    case None => None
    case Some(n) => Some(n + offset)
  }

  lemma PrefixAcrossQuote(a: string, b: string, key: string)
    requires '"' !in a && '"' !in key
    ensures key + QUOTE <= a + QUOTE + b <==> a == key
  {
    var s, pat := a + QUOTE + b, key + QUOTE;
    assert s[|a|] == '"' && pat[|key|] == '"';
    assert forall i | 0 <= i < |a| :: s[i] == a[i] && a[i] in a;
    assert forall i | 0 <= i < |key| :: pat[i] == key[i] && key[i] in key;
    if pat <= s {
      assert |a| == |key|;
      assert forall i | 0 <= i < |key| :: a[i] == s[i] == pat[i] == key[i];
    }
  }

  lemma EndsWithTail(a: string, key: string)
    requires a != [] && key != []
    ensures EndsWith(a, key) <==> a == key || EndsWith(a[1..], key)
  {
    if |a| > |key| {
      assert a[1..][|a| - 1 - |key|..] == a[|a| - |key|..];
    } else if |a| == |key| {
      assert a[0..] == a;
    }
  }

  /** A key ending in a quote is found right before the first quote, or else only behind it. */
  lemma {:induction false} FindAcrossQuote(a: string, b: string, key: string)
    requires '"' !in a && '"' !in key && key != []
    ensures Find(a + QUOTE + b, key + QUOTE)
         == if EndsWith(a, key) then Some(|a| - |key|) else After(Find(b, key + QUOTE), |a| + 1)
  {
    var s, pat := a + QUOTE + b, key + QUOTE;
    PrefixAcrossQuote(a, b, key);
    if a == key {
      assert a[0..] == a;
    } else if a == [] {
      assert s[1..] == b;
      FindInShort(s, pat);
    } else {
      EndsWithTail(a, key);
      assert s[1..] == a[1..] + QUOTE + b;
      FindAcrossQuote(a[1..], b, key);
      FindInShort(s, pat);
    }
  }

  /** Away from a match the search moves on, also when what is left is too short. */
  lemma FindInShort(s: string, pat: string)
    requires s != [] && !(pat <= s)
    ensures Find(s, pat) == After(Find(s[1..], pat), 1)
  {
  }

  /** Up to its first quote the text is intact. */
  lemma {:induction false} BeforeQuote(a: string, b: string)
    requires '"' !in a
    ensures Find(a + QUOTE + b, QUOTE) == Some(|a|)
    ensures Before(a + QUOTE + b, QUOTE) == a
  {
    var s := a + QUOTE + b;
    if a != [] {
      assert s[0] == a[0] && a[0] in a;
      assert s[1..] == a[1..] + QUOTE + b;
      BeforeQuote(a[1..], b);
    }
    assert s[..|a|] == a;
  }

  lemma {:induction false} NoQuoteToCut(a: string)
    requires '"' !in a
    ensures Find(a, QUOTE) == None && Before(a, QUOTE) == a
  {
    if a != [] {
      assert a[0] in a;
      NoQuoteToCut(a[1..]);
    }
  }

  /** What is left of a value once the text is cut at the next key and then at the first quote. */
  function Cut(value: string, key: string): string {
    if EndsWith(value, key) then value[..|value| - |key|] else value
  }

  lemma ValueIsCut(value: string, b: string, key: string)
    requires '"' !in value && '"' !in key && key != []
    ensures Before(Before(value + QUOTE + b, key + QUOTE), QUOTE) == Cut(value, key)
  {
    var s := value + QUOTE + b;
    FindAcrossQuote(value, b, key);
    if EndsWith(value, key) {
      assert s[..|value| - |key|] == Cut(value, key);
      NoQuoteToCut(Cut(value, key));
    } else {
      match Find(s, key + QUOTE)
      case None => BeforeQuote(value, b);
      case Some(j) =>
        assert s[..j] == value + QUOTE + b[..j - |value| - 1];
        BeforeQuote(value, b[..j - |value| - 1]);
    }
  }

  // ---------------------------------------------------------------- the two fields

  lemma SecondAt(s: string, pat: string, i: nat, rest: string)
    requires Find(s, pat) == Some(i) && s[i + |pat|..] == rest
    ensures Second(s, pat) == Some(Before(rest, pat))
  {
  }

  lemma MacaroonPart(mac: string, rest: string)
    requires '"' !in mac
    ensures var part := Second("L402 macaroon=" + QUOTE + mac + QUOTE + rest, MACAROON + QUOTE);
            part.Some? && Before(part.value, QUOTE) == Cut(mac, MACAROON)
  {
    var b := mac + QUOTE + rest;
    var s := "L402 macaroon=" + QUOTE + mac + QUOTE + rest;
    assert s == "L402 macaroon=" + QUOTE + b;
    FindAcrossQuote("L402 macaroon=", b, MACAROON);
    SecondAt(s, MACAROON + QUOTE, 5, b);
    ValueIsCut(mac, rest, MACAROON);
  }

  lemma InvoicePart(mac: string, inv: string, tail: string, second: string, third: string)
    requires '"' !in mac && '"' !in inv
    requires third == inv + QUOTE + tail && second == ", invoice=" + QUOTE + third
    ensures var part := Second(mac + QUOTE + second, INVOICE + QUOTE);
            part.Some? && Before(part.value, QUOTE) == if EndsWith(mac, INVOICE) then ", " else Cut(inv, INVOICE)
  {
    var s := mac + QUOTE + second;
    FindAcrossQuote(mac, second, INVOICE);
    FindAcrossQuote(", invoice=", third, INVOICE);
    if EndsWith(mac, INVOICE) {
      SecondAt(s, INVOICE + QUOTE, |mac| - |INVOICE|, second);
      assert second[..2] == ", ";
      NoQuoteToCut(", ");
    } else {
      assert s[|mac| + 1 + 2 + |INVOICE + QUOTE|..] == third;
      SecondAt(s, INVOICE + QUOTE, |mac| + 1 + 2, third);
      ValueIsCut(inv, tail, INVOICE);
    }
  }

  /** The first key holds no invoice key, so the search for the second starts at the macaroon. */
  lemma InvoiceComesAfter(first: string)
    ensures Second("L402 macaroon=" + QUOTE + first, INVOICE + QUOTE) == Second(first, INVOICE + QUOTE)
  {
    var head := "L402 macaroon=";
    FindAcrossQuote(head, first, INVOICE);
    match Find(first, INVOICE + QUOTE)
    case None =>
    case Some(i) =>
      assert (head + QUOTE + first)[i + |head| + 1 + |INVOICE + QUOTE|..] == first[i + |INVOICE + QUOTE|..];
  }

  /** What parsing gives back, for every pair of quote-free values and any further fields. */
  lemma ParsedExactly(mac: string, inv: string, tail: string)
    requires '"' !in mac && '"' !in inv
    ensures ParseHeader(Header(mac, inv, tail))
         == Some((Cut(mac, MACAROON), if EndsWith(mac, INVOICE) then ", " else Cut(inv, INVOICE)))
  {
    var third := inv + QUOTE + tail;
    var second := ", invoice=" + QUOTE + third;
    assert Header(mac, inv, tail) == "L402 macaroon=" + QUOTE + mac + QUOTE + second;
    assert Header(mac, inv, tail) == "L402 macaroon=" + QUOTE + (mac + QUOTE + second);
    MacaroonPart(mac, second);
    InvoiceComesAfter(mac + QUOTE + second);
    InvoicePart(mac, inv, tail, second, third);
  }

  /** The round trip holds exactly when neither value ends in a text the reader cuts at. */
  lemma RoundTripIff(mac: string, inv: string, tail: string)
    requires '"' !in mac && '"' !in inv
    ensures ParseHeader(Header(mac, inv, tail)) == Some((mac, inv))
       <==> && !EndsWith(mac, MACAROON) && !EndsWith(inv, INVOICE)
            && (EndsWith(mac, INVOICE) ==> inv == ", ")
  {
    ParsedExactly(mac, inv, tail);
    assert EndsWith(mac, MACAROON) ==> |Cut(mac, MACAROON)| < |mac|;
    assert EndsWith(inv, INVOICE) ==> |Cut(inv, INVOICE)| < |inv|;
  }

  /** A macaroon without padding, or with two signs of it, and an invoice without an equals sign always come back. */
  lemma UnpaddedValuesComeBack(mac: string, inv: string, tail: string)
    requires '"' !in mac && '"' !in inv && '=' !in inv && !EndsWith(mac, "n=") && !EndsWith(mac, "e=")
    ensures ParseHeader(Header(mac, inv, tail)) == Some((mac, inv))
  {
    RoundTripIff(mac, inv, tail);
    EndingOfEnding(mac, MACAROON, "n=");
    EndingOfEnding(mac, INVOICE, "e=");
    EndsInItsLast(inv, INVOICE, '=');
  }

  lemma EndingOfEnding(s: string, long: string, short: string)
    requires EndsWith(long, short)
    ensures EndsWith(s, long) ==> EndsWith(s, short)
  {
    if EndsWith(s, long) {
      assert s[|s| - |long|..][|long| - |short|..] == s[|s| - |short|..];
    }
  }

  lemma EndsInItsLast(s: string, long: string, c: char)
    requires long != [] && long[|long| - 1] == c
    ensures EndsWith(s, long) ==> c in s
  {
    if EndsWith(s, long) {
      assert s[|s| - |long|..][|long| - 1] == s[|s| - 1];
    }
  }

  // ---------------------------------------------------------------- macaroons as they are encoded

  type Byte = b: int | 0 <= b < 256

  /** The base64 alphabet of RFC 4648; the two alphabets differ in the last two symbols only. */
  function Symbol(i: nat, sixtyTwo: char, sixtyThree: char): char
    requires i < 64
  {
    if i < 26 then 'A' + i as char
    else if i < 52 then 'a' + (i - 26) as char
    else if i < 62 then '0' + (i - 52) as char
    else if i == 62 then sixtyTwo
    else sixtyThree
  }

  /** Base64 with padding, section 4 or 5 of RFC 4648. */
  function Base64(bytes: seq<Byte>, c: char, d: char): string {
    if bytes == [] then ""
    else if |bytes| == 1 then
      [Symbol(bytes[0] / 4, c, d), Symbol(bytes[0] % 4 * 16, c, d), '=', '=']
    else if |bytes| == 2 then
      [Symbol(bytes[0] / 4, c, d), Symbol(bytes[0] % 4 * 16 + bytes[1] / 16, c, d),
       Symbol(bytes[1] % 16 * 4, c, d), '=']
    else
      Quad(bytes[0] / 4, bytes[0] % 4 * 16 + bytes[1] / 16, bytes[1] % 16 * 4 + bytes[2] / 64, bytes[2] % 64, c, d)
        + Base64(bytes[3..], c, d)
  }

  function Quad(i0: nat, i1: nat, i2: nat, i3: nat, c: char, d: char): string
    requires i0 < 64 && i1 < 64 && i2 < 64 && i3 < 64
  {
    [Symbol(i0, c, d), Symbol(i1, c, d), Symbol(i2, c, d), Symbol(i3, c, d)]
  }

  /** The six bits a symbol stands for. */
  function Bits(s: char, c: char, d: char): nat {
    if s == c then 62
    else if s == d then 63
    else if 'A' <= s <= 'Z' then s as nat - 'A' as nat
    else if 'a' <= s <= 'z' then s as nat - 'a' as nat + 26
    else if '0' <= s <= '9' then s as nat - '0' as nat + 52
    else 0
  }

  /** Reading base64: four symbols are three bytes, the last four perhaps fewer. */
  function Unbase64(s: string, c: char, d: char): seq<int> {
    if |s| < 4 then []
    else
      var b0, b1, b2, b3 := Bits(s[0], c, d), Bits(s[1], c, d), Bits(s[2], c, d), Bits(s[3], c, d);
      if s[2] == '=' then [b0 * 4 + b1 / 16]
      else if s[3] == '=' then [b0 * 4 + b1 / 16, b1 % 16 * 16 + b2 / 4]
      else [b0 * 4 + b1 / 16, b1 % 16 * 16 + b2 / 4, b2 % 4 * 64 + b3] + Unbase64(s[4..], c, d)
  }

  lemma SymbolIsRead(i: nat, c: char, d: char)
    requires i < 64 && Alphabet(c, d)
    ensures Bits(Symbol(i, c, d), c, d) == i
  {
  }

  /** Each byte is put together from its two symbols again. */
  lemma BytesMeet(b0: Byte, b1: Byte, b2: Byte)
    ensures b0 / 4 * 4 + (b0 % 4 * 16 + b1 / 16) / 16 == b0
    ensures (b0 % 4 * 16 + b1 / 16) % 16 * 16 + (b1 % 16 * 4 + b2 / 64) / 4 == b1
    ensures (b1 % 16 * 4 + b2 / 64) % 4 * 64 + b2 % 64 == b2
  {
    assert b1 / 16 < 16 && b2 / 64 < 4;
  }

  /** What is encoded is read back: nothing of the macaroon is lost on the way into the header. */
  lemma {:induction false} Base64IsReadBack(bytes: seq<Byte>, c: char, d: char)
    requires c in "+-" && d in "/_"
    ensures Unbase64(Base64(bytes, c, d), c, d) == bytes
  {
    if bytes == [] {
    } else if |bytes| == 1 {
      OneByteIsReadBack(bytes[0], c, d);
    } else if |bytes| == 2 {
      TwoBytesAreReadBack(bytes[0], bytes[1], c, d);
    } else {
      ThreeBytesAreReadBack(bytes, c, d);
      Base64IsReadBack(bytes[3..], c, d);
      assert bytes == [bytes[0], bytes[1], bytes[2]] + bytes[3..];
    }
  }

  lemma OneByteIsReadBack(b: Byte, c: char, d: char)
    requires Alphabet(c, d)
    ensures Unbase64(Base64([b], c, d), c, d) == [b]
  {
    SymbolIsRead(b / 4, c, d);
    SymbolIsRead(b % 4 * 16, c, d);
    BytesMeet(b, 0, 0);
  }

  lemma TwoBytesAreReadBack(b0: Byte, b1: Byte, c: char, d: char)
    requires Alphabet(c, d)
    ensures Unbase64(Base64([b0, b1], c, d), c, d) == [b0, b1]
  {
    SymbolIsRead(b0 / 4, c, d);
    SymbolIsRead(b0 % 4 * 16 + b1 / 16, c, d);
    SymbolIsRead(b1 % 16 * 4, c, d);
    SymbolIsPlain(b1 % 16 * 4, c, d);
    BytesMeet(b0, b1, 0);
  }

  lemma FourSymbolsAreRead(x0: char, x1: char, x2: char, x3: char, rest: string, c: char, d: char)
    requires x2 != '=' && x3 != '='
    ensures var b0, b1, b2, b3 := Bits(x0, c, d), Bits(x1, c, d), Bits(x2, c, d), Bits(x3, c, d);
            Unbase64([x0, x1, x2, x3] + rest, c, d)
              == [b0 * 4 + b1 / 16, b1 % 16 * 16 + b2 / 4, b2 % 4 * 64 + b3] + Unbase64(rest, c, d)
  {
    assert ([x0, x1, x2, x3] + rest)[4..] == rest;
  }

  lemma FourSextetsAreRead(i0: nat, i1: nat, i2: nat, i3: nat, rest: string, c: char, d: char)
    requires i0 < 64 && i1 < 64 && i2 < 64 && i3 < 64 && Alphabet(c, d)
    ensures Unbase64(Quad(i0, i1, i2, i3, c, d) + rest, c, d)
         == [i0 * 4 + i1 / 16, i1 % 16 * 16 + i2 / 4, i2 % 4 * 64 + i3] + Unbase64(rest, c, d)
  {
    SymbolIsPlain(i2, c, d);
    SymbolIsPlain(i3, c, d);
    FourSymbolsAreRead(Symbol(i0, c, d), Symbol(i1, c, d), Symbol(i2, c, d), Symbol(i3, c, d), rest, c, d);
    SymbolIsRead(i0, c, d);
    SymbolIsRead(i1, c, d);
    SymbolIsRead(i2, c, d);
    SymbolIsRead(i3, c, d);
  }

  lemma ThreeBytesAreReadBack(bytes: seq<Byte>, c: char, d: char)
    requires Alphabet(c, d) && |bytes| >= 3
    ensures Unbase64(Base64(bytes, c, d), c, d)
         == [bytes[0], bytes[1], bytes[2]] + Unbase64(Base64(bytes[3..], c, d), c, d)
  {
    var b0, b1, b2 := bytes[0], bytes[1], bytes[2];
    var i0, i1, i2, i3 := b0 / 4, b0 % 4 * 16 + b1 / 16, b1 % 16 * 4 + b2 / 64, b2 % 64;
    BytesMeet(b0, b1, b2);
    QuadIsRead(i0, i1, i2, i3, b0, b1, b2, Base64(bytes[3..], c, d), c, d);
  }

  lemma QuadIsRead(i0: nat, i1: nat, i2: nat, i3: nat, b0: int, b1: int, b2: int, rest: string, c: char, d: char)
    requires i0 < 64 && i1 < 64 && i2 < 64 && i3 < 64 && Alphabet(c, d)
    requires i0 * 4 + i1 / 16 == b0 && i1 % 16 * 16 + i2 / 4 == b1 && i2 % 4 * 64 + i3 == b2
    ensures Unbase64(Quad(i0, i1, i2, i3, c, d) + rest, c, d) == [b0, b1, b2] + Unbase64(rest, c, d)
  {
    FourSextetsAreRead(i0, i1, i2, i3, rest, c, d);
  }

  /** Neither a quote nor an equals sign stands for six bits. */
  predicate Alphabet(c: char, d: char) {
    c in "+-" && d in "/_"
  }

  lemma SymbolIsPlain(i: nat, c: char, d: char)
    requires i < 64 && Alphabet(c, d)
    ensures Symbol(i, c, d) != '"' && Symbol(i, c, d) != '='
  {
  }

  /** Before a single padding sign stands a symbol with two zero bits, which neither key ends in. */
  lemma LastSymbol(b: Byte, c: char, d: char)
    requires Alphabet(c, d)
    ensures Symbol(b % 16 * 4, c, d) != 'n' && Symbol(b % 16 * 4, c, d) != 'e'
  {
    assert b % 16 * 4 != 39 && b % 16 * 4 != 30;
  }

  lemma {:induction false} EncodingIsUncut(bytes: seq<Byte>, c: char, d: char)
    requires Alphabet(c, d)
    ensures '"' !in Base64(bytes, c, d)
    ensures !EndsWith(Base64(bytes, c, d), "n=") && !EndsWith(Base64(bytes, c, d), "e=")
  {
    var s := Base64(bytes, c, d);
    if bytes == [] {
    } else if |bytes| <= 2 {
      ShortEncodingIsUncut(bytes, c, d);
    } else {
      SymbolIsPlain(bytes[0] / 4, c, d);
      SymbolIsPlain(bytes[0] % 4 * 16 + bytes[1] / 16, c, d);
      SymbolIsPlain(bytes[1] % 16 * 4 + bytes[2] / 64, c, d);
      SymbolIsPlain(bytes[2] % 64, c, d);
      EncodingIsUncut(bytes[3..], c, d);
      LongEnding(s[..4], Base64(bytes[3..], c, d));
    }
  }

  lemma ShortEncodingIsUncut(bytes: seq<Byte>, c: char, d: char)
    requires Alphabet(c, d) && 1 <= |bytes| <= 2
    ensures '"' !in Base64(bytes, c, d)
    ensures !EndsWith(Base64(bytes, c, d), "n=") && !EndsWith(Base64(bytes, c, d), "e=")
  {
    var s := Base64(bytes, c, d);
    SymbolIsPlain(bytes[0] / 4, c, d);
    SymbolIsPlain(bytes[0] % 4 * 16, c, d);
    if |bytes| == 2 {
      SymbolIsPlain(bytes[0] % 4 * 16 + bytes[1] / 16, c, d);
      SymbolIsPlain(bytes[1] % 16 * 4, c, d);
      LastSymbol(bytes[1], c, d);
    }
    assert s[2..][0] == s[2];
  }

  /** Four symbols that are no padding in front of a text do not change whether it ends in padding. */
  lemma LongEnding(a: string, b: string)
    requires |a| == 4 && '=' !in a && |b| != 1
    ensures EndsWith(a + b, "n=") ==> EndsWith(b, "n=")
    ensures EndsWith(a + b, "e=") ==> EndsWith(b, "e=")
  {
    var s := a + b;
    if b == [] {
      assert s == a && a[3] in a && s[2..][1] == a[3];
    } else {
      assert s[|s| - 2..] == b[|b| - 2..];
    }
  }

  /** Every macaroon the gateway can encode comes back, with every invoice that has no equals sign or quote. */
  lemma EncodedMacaroonsComeBack(bytes: seq<Byte>, c: char, d: char, inv: string, tail: string)
    requires c in "+-" && d in "/_" && '"' !in inv && '=' !in inv
    ensures ParseHeader(Header(Base64(bytes, c, d), inv, tail)) == Some((Base64(bytes, c, d), inv))
  {
    EncodingIsUncut(bytes, c, d);
    UnpaddedValuesComeBack(Base64(bytes, c, d), inv, tail);
  }
}
