/**
 The line a dying worker writes: digit printers over a fixed buffer, with no allocation.

 Printing stops silently at the end of the buffer, so what a printer leaves there is the full
 text cut to size; for every signal the handler is installed for, nothing is cut.
 */
module CrashLine {

  const CAPACITY: nat := 160
  const WORD: nat := 0x1_0000_0000_0000_0000
  const DIGITS := "0123456789abcdef"

  lemma DigitTable(d: nat)
    requires d < 16
    ensures DIGITS[d] == Digit(d)
  {
  }

  /** What fits. */
  function Fit(s: string): (r: string)
    ensures |r| <= CAPACITY && r <= s
    ensures |s| <= CAPACITY ==> r == s
  {
    if |s| <= CAPACITY then s else s[..CAPACITY]
  }

  lemma FitIsAbsorbed(a: string, b: string)
    ensures Fit(Fit(a) + b) == Fit(a + b)
  {
  }

  lemma NextFits(before: string, text: string, c: char)
    ensures Fit(Fit(before + text) + [c]) == Fit(before + (text + [c]))
  {
    FitIsAbsorbed(before + text, [c]);
    assert before + text + [c] == before + (text + [c]);
  }

  lemma OneMoreFits(before: string, text: string, k: nat)
    requires k < |text|
    ensures Fit(Fit(before + text[..k]) + [text[k]]) == Fit(before + text[..k + 1])
  {
    NextFits(before, text[..k], text[k]);
    assert text[..k] + [text[k]] == text[..k + 1];
  }

  // ---------------------------------------------------------------- numerals

  function Digit(d: nat): char
    requires d < 16
  {
    if d < 10 then '0' + d as char else 'a' + (d - 10) as char
  }

  /** The decimal numeral of a number. */
  function Dec(v: nat): (s: string)
    ensures s != []
  {
    if v < 10 then [Digit(v)] else Dec(v / 10) + [Digit(v % 10)]
  }

  /** The hexadecimal numeral of a number, lower case. */
  function Hex(v: nat): (s: string)
    ensures s != []
  {
    if v < 16 then [Digit(v)] else Hex(v / 16) + [Digit(v % 16)]
  }

  function Value(c: char): nat {
    if '0' <= c <= '9' then c as nat - '0' as nat
    else if 'a' <= c <= 'f' then c as nat - 'a' as nat + 10
    else 0
  }

  /** Reading a numeral in base 10 or 16. */
  function Parse(s: string, base: nat): nat {
    if s == [] then 0 else Parse(s[..|s| - 1], base) * base + Value(s[|s| - 1])
  }

  lemma DigitValue(d: nat)
    requires d < 16
    ensures Value(Digit(d)) == d
  {
  }

  /** A decimal numeral is read back. */
  lemma {:induction false} DecIsReadBack(v: nat)
    ensures Parse(Dec(v), 10) == v
  {
    if v < 10 {
      DigitValue(v);
      assert Dec(v)[..0] == [];
    } else {
      DecIsReadBack(v / 10);
      DigitValue(v % 10);
      assert Dec(v)[..|Dec(v)| - 1] == Dec(v / 10);
    }
  }

  /** A hexadecimal numeral is read back. */
  lemma {:induction false} HexIsReadBack(v: nat)
    ensures Parse(Hex(v), 16) == v
  {
    if v < 16 {
      DigitValue(v);
      assert Hex(v)[..0] == [];
    } else {
      HexIsReadBack(v / 16);
      DigitValue(v % 16);
      assert Hex(v)[..|Hex(v)| - 1] == Hex(v / 16);
    }
  }

  /** No numeral starts with a zero, except zero's own. */
  lemma {:induction false} NoLeadingZero(v: nat)
    requires v > 0
    ensures Dec(v)[0] != '0' && Hex(v)[0] != '0'
  {
    DigitValue(if v < 10 then v else 1);
    DigitValue(if v < 16 then v else 1);
    if v >= 10 { NoLeadingZero(v / 10); }
    if v >= 16 { NoLeadingZero(v / 16); }
  }

  function Pow(base: nat, k: nat): (p: nat)
    ensures base > 0 ==> p > 0
  {
    if k == 0 then 1 else base * Pow(base, k - 1)
  }

  /** A numeral has at most k digits exactly when the number is below the k-th power of the base. */
  lemma {:induction false} DecLength(v: nat, k: nat)
    requires k > 0
    ensures |Dec(v)| <= k <==> v < Pow(10, k)
    decreases k
  {
    assert Pow(10, k) == 10 * Pow(10, k - 1) && Pow(10, 0) == 1;
    if v >= 10 && k > 1 {
      DecLength(v / 10, k - 1);
    }
  }

  lemma {:induction false} HexLength(v: nat, k: nat)
    requires k > 0
    ensures |Hex(v)| <= k <==> v < Pow(16, k)
    decreases k
  {
    assert Pow(16, k) == 16 * Pow(16, k - 1) && Pow(16, 0) == 1;
    if v >= 16 && k > 1 {
      HexLength(v / 16, k - 1);
    }
  }

  lemma PowersOfTen()
    ensures Pow(10, 11) == 100_000_000_000 && Pow(10, 20) == 100_000_000_000_000_000_000
  {
    assert Pow(10, 4) == 10_000;
    assert Pow(10, 8) == 100_000_000;
    assert Pow(10, 12) == 1_000_000_000_000;
    assert Pow(10, 16) == 10_000_000_000_000_000;
  }

  lemma PowersOfSixteen()
    ensures Pow(16, 15) == 0x1000_0000_0000_0000 && Pow(16, 16) == WORD
  {
    assert Pow(16, 4) == 0x1_0000;
    assert Pow(16, 8) == 0x1_0000_0000;
    assert Pow(16, 12) == 0x1_0000_0000_0000;
  }

  /** A 64-bit word never needs more than twenty decimal or sixteen hexadecimal digits. */
  lemma WordLength(v: nat)
    requires v < WORD
    ensures |Dec(v)| <= 20 && |Hex(v)| <= 16
  {
    PowersOfTen();
    PowersOfSixteen();
    DecLength(v, 20);
    HexLength(v, 16);
  }

  /** The last digit not printed yet, and the numeral in front of it. */
  lemma NextDigit(text: string, rest: nat, n: nat)
    requires n < |text| && Dec(rest) == text[..|text| - n]
    ensures text[|text| - 1 - n] == Digit(rest % 10)
    ensures if rest < 10 then n + 1 == |text| else n + 1 < |text| && Dec(rest / 10) == text[..|text| - (n + 1)]
  {
    assert Dec(rest)[|text| - n - 1] == text[|text| - 1 - n];
    assert Dec(rest)[..|text| - n - 1] == text[..|text| - n - 1];
    if rest >= 10 {
      assert Dec(rest / 10) == Dec(rest)[..|text| - n - 1];
    }
  }

  /** value >> 4k. */
  function Shifted(v: nat, k: nat): nat {
    if k == 0 then v else Shifted(v, k - 1) / 16
  }

  lemma {:induction false} ShiftedOut(v: nat, k: nat, n: nat)
    requires v < Pow(16, n) && k <= n
    ensures Shifted(v, k) < Pow(16, n - k)
  {
    if k > 0 {
      ShiftedOut(v, k - 1, n);
      assert Pow(16, n - k + 1) == 16 * Pow(16, n - k);
    }
  }

  /** The digits printed once every place from k upwards is done. */
  function Printed(v: nat, k: nat): string {
    if k > 0 && Shifted(v, k) == 0 then [] else Hex(Shifted(v, k))
  }

  lemma PrintedStep(v: nat, k: nat)
    ensures var nibble := Shifted(v, k) % 16;
            Printed(v, k) == if nibble != 0 || Shifted(v, k + 1) != 0 || k == 0
                             then Printed(v, k + 1) + [Digit(nibble)] else []
    ensures Shifted(v, k + 1) == 0 ==> Printed(v, k + 1) == []
    ensures Shifted(v, k) != 0 <==> Shifted(v, k) % 16 != 0 || Shifted(v, k + 1) != 0
  {
  }

  // ---------------------------------------------------------------- the printers

  class Line {
    const buf: array<char>
    var pos: nat

    ghost predicate Valid()
      reads this
    {
      buf.Length == CAPACITY && pos <= CAPACITY
    }

    ghost function Written(): string
      requires Valid()
      reads this, buf
    {
      buf[..pos]
    }

    constructor ()
      ensures Valid() && fresh(buf) && Written() == []
    {
      buf := new char[CAPACITY];
      pos := 0;
    }

    method PutChar(c: char)
      requires Valid()
      modifies this`pos, buf
      ensures Valid() && Written() == Fit(old(Written()) + [c])
    {
      if pos < buf.Length {
        buf[pos] := c;
        pos := pos + 1;
      }
    }

    method PutStr(s: string)
      requires Valid()
      modifies this`pos, buf
      ensures Valid() && Written() == Fit(old(Written()) + s)
    {
      assert old(Written()) + s[..0] == old(Written());
      for i := 0 to |s|
        invariant Valid() && Written() == Fit(old(Written()) + s[..i])
      {
        FitIsAbsorbed(old(Written()) + s[..i], [s[i]]);
        assert old(Written()) + s[..i] + [s[i]] == old(Written()) + s[..i + 1];
        PutChar(s[i]);
      }
      assert s[..|s|] == s;
    }

    /** The digits come out last first into a small buffer and are copied back to front. */
    method PutDec(value: nat)
      requires Valid() && value < WORD
      modifies this`pos, buf
      ensures Valid() && Written() == Fit(old(Written()) + Dec(value))
    {
      var digits, n := LastDigitFirst(value);
      PutBackwards(digits, n, Dec(value));
    }

    /** The second half of put_dec. */
    method PutBackwards(digits: array<char>, count: nat, ghost text: string)
      requires Valid() && digits != buf && count == |text| <= digits.Length
      requires forall i | 0 <= i < count :: digits[i] == text[count - 1 - i]
      modifies this`pos, buf
      ensures Valid() && Written() == Fit(old(Written()) + text)
    {
      var n := count;
      ghost var before := old(Written());
      assert before + text[..0] == before;
      while n > 0
        invariant Valid() && 0 <= n <= count && Written() == Fit(before + text[..count - n])
      {
        n := n - 1;
        OneMoreFits(before, text, count - n - 1);
        PutChar(digits[n]);
      }
      assert text[..|text|] == text;
    }

    /** The first half of put_dec: twenty places hold every digit of a word. */
    static method LastDigitFirst(value: nat) returns (digits: array<char>, n: nat)
      requires value < WORD
      ensures fresh(digits) && digits.Length == 20 && n == |Dec(value)| <= 20
      ensures forall i | 0 <= i < n :: digits[i] == Dec(value)[n - 1 - i]
    {
      digits := new char[20];
      n := 0;
      var rest: nat, more := value, true;
      ghost var text := Dec(value);
      WordLength(value);
      assert text[..|text|] == text;
      while more
        invariant n <= |text| <= 20 && (if more then n < |text| && Dec(rest) == text[..|text| - n] else n == |text|)
        invariant forall i | 0 <= i < n :: digits[i] == text[|text| - 1 - i]
        decreases more, rest
      {
        NextDigit(text, rest, n);
        digits[n] := '0' + (rest % 10) as char;
        n := n + 1;
        rest := rest / 10;
        more := rest != 0;
      }
    }

    /** Sixteen places from the top, leading zeros left out. */
    method PutHex(value: nat)
      requires Valid() && value < WORD
      modifies this`pos, buf
      ensures Valid() && Written() == Fit(old(Written()) + Hex(value))
    {
      var started, shift := false, 16;
      PowersOfSixteen();
      ShiftedOut(value, 16, 16);
      while shift > 0
        invariant Valid() && shift <= 16 && Written() == Fit(old(Written()) + Printed(value, shift))
        invariant shift > 0 ==> (started <==> Shifted(value, shift) != 0)
      {
        shift := shift - 1;
        var nibble := Shifted(value, shift) % 16;
        PrintedStep(value, shift);
        DigitTable(nibble);
        if nibble != 0 || started || shift == 0 {
          started := true;
          NextFits(old(Written()), Printed(value, shift + 1), DIGITS[nibble]);
          PutChar(DIGITS[nibble]);
        }
      }
    }
  }

  // ---------------------------------------------------------------- the line

  const HEAD := "ngx_l402: worker died on signal "
  const AT := " at fault addr 0x"
  const OFFSET := ", module offset 0x"
  // In two pieces: the solver does not find the first character of the whole literal.
  const TAIL := " (" + "addr2line -f -C -e libngx_l402_lib.so <offset>)\n"

  function FaultPart(sig: nat, fault: nat): string {
    HEAD + Dec(sig) + AT + Hex(fault)
  }

  function Message(sig: nat, fault: nat, offset: nat): string {
    FaultPart(sig, fault) + OFFSET + Hex(offset) + TAIL
  }

  // on_fatal_signal, up to the write.

  method PutFault(out: Line, sig: nat, fault: nat, ghost before: string)
    requires out.Valid() && out.Written() == Fit(before) && sig < WORD && fault < WORD
    modifies out`pos, out.buf
    ensures out.Valid() && out.Written() == Fit(before + HEAD + Dec(sig) + AT + Hex(fault))
  {
    out.PutStr(HEAD);
    FitIsAbsorbed(before, HEAD);
    out.PutDec(sig);
    FitIsAbsorbed(before + HEAD, Dec(sig));
    out.PutStr(AT);
    FitIsAbsorbed(before + HEAD + Dec(sig), AT);
    out.PutHex(fault);
    FitIsAbsorbed(before + HEAD + Dec(sig) + AT, Hex(fault));
  }

  method PutOffset(out: Line, offset: nat, ghost before: string)
    requires out.Valid() && out.Written() == Fit(before) && offset < WORD
    modifies out`pos, out.buf
    ensures out.Valid() && out.Written() == Fit(before + OFFSET + Hex(offset) + TAIL)
  {
    out.PutStr(OFFSET);
    FitIsAbsorbed(before, OFFSET);
    out.PutHex(offset);
    FitIsAbsorbed(before + OFFSET, Hex(offset));
    out.PutStr(TAIL);
    FitIsAbsorbed(before + OFFSET + Hex(offset), TAIL);
  }

  method FatalSignalLine(sig: nat, fault: nat, pc: nat, base: nat) returns (line: string)
    requires sig < WORD && fault < WORD && pc < WORD && base < WORD
    ensures line == Fit(Message(sig, fault, if pc < base then 0 else pc - base))
    ensures sig < 100_000_000_000 ==> line == Message(sig, fault, if pc < base then 0 else pc - base)
  {
    var offset := if pc < base then 0 else pc - base;
    var out := new Line();
    PutFault(out, sig, fault, []);
    assert [] + HEAD == HEAD;
    PutOffset(out, offset, FaultPart(sig, fault));
    line := out.buf[..out.pos];
    if sig < 100_000_000_000 { NeverTruncatedIff(sig); }
  }

  /** Which signal numbers leave room for any two addresses; SIGSEGV, SIGBUS, SIGILL and SIGABRT are below 100. */
  lemma NeverTruncatedIff(sig: nat)
    ensures (forall fault: nat, offset: nat | fault < WORD && offset < WORD ::
              |Message(sig, fault, offset)| <= CAPACITY)
       <==> sig < 100_000_000_000
  {
    PowersOfTen();
    DecLength(sig, 11);
    forall fault: nat, offset: nat | fault < WORD && offset < WORD
      ensures |Message(sig, fault, offset)| <= |Dec(sig)| + 149
    {
      WordLength(fault);
      WordLength(offset);
    }
    PowersOfSixteen();
    HexLength(WORD - 1, 15);
    WordLength(WORD - 1);
    assert |Message(sig, WORD - 1, WORD - 1)| == |Dec(sig)| + 149;
  }

  lemma {:induction false} NumeralsAreDigits(v: nat, c: char)
    requires c in Dec(v) || c in Hex(v)
    ensures '0' <= c <= '9' || 'a' <= c <= 'f'
  {
    if c in Dec(v) && v >= 10 && c in Dec(v / 10) {
      NumeralsAreDigits(v / 10, c);
    } else if c in Hex(v) && v >= 16 && c in Hex(v / 16) {
      NumeralsAreDigits(v / 16, c);
    }
  }

  /** Text up to a stop character can be told apart from what follows. */
  lemma SameUpToStop(a: string, b: string, a': string, b': string, stop: char)
    requires stop !in a && stop !in a' && a + [stop] + b == a' + [stop] + b'
    ensures a == a' && b == b'
  {
    var s := a + [stop] + b;
    assert s[|a|] == stop && s[|a'|] == stop;
    assert forall i | 0 <= i < |a| :: s[i] == a[i] && a[i] in a;
    assert forall i | 0 <= i < |a'| :: s[i] == a'[i] && a'[i] in a';
    assert |a| == |a'|;
    assert a == s[..|a|] == a' && b == s[|a| + 1..] == b';
  }

  /** Equal texts agree before and after a label in them, if the label starts with a character of its own. */
  lemma SameAroundLabel(a: string, b: string, a': string, b': string, mark: string)
    requires mark != [] && mark[0] !in a && mark[0] !in a' && a + mark + b == a' + mark + b'
    ensures a == a' && b == b'
  {
    var stop, tail := mark[0], mark[1..];
    assert a + mark + b == a + [stop] + (tail + b);
    assert a' + mark + b' == a' + [stop] + (tail + b');
    SameUpToStop(a, tail + b, a', tail + b', stop);
    assert b == (tail + b)[|tail|..] && b' == (tail + b')[|tail|..];
  }

  lemma Associate(a: string, b: string, c: string)
    ensures a + b + c == a + (b + c)
  {
  }

  lemma DropPrefix(a: string, b: string)
    ensures (a + b)[|a|..] == b
  {
  }

  lemma MessageFields(sig: nat, fault: nat, offset: nat)
    ensures Message(sig, fault, offset)[|HEAD|..] == Dec(sig) + AT + (Hex(fault) + OFFSET + (Hex(offset) + TAIL))
  {
    var last := Hex(offset) + TAIL;
    Associate(HEAD, Dec(sig), AT);
    Associate(HEAD, Dec(sig) + AT, Hex(fault));
    Associate(FaultPart(sig, fault), OFFSET, Hex(offset));
    Associate(FaultPart(sig, fault), OFFSET + Hex(offset), TAIL);
    Associate(OFFSET, Hex(offset), TAIL);
    Associate(HEAD, Dec(sig) + AT + Hex(fault), OFFSET + last);
    Associate(Dec(sig) + AT, Hex(fault), OFFSET + last);
    Associate(Hex(fault), OFFSET, last);
    DropPrefix(HEAD, Dec(sig) + AT + (Hex(fault) + OFFSET + last));
  }

  lemma NoLabelInNumeral(v: nat)
    ensures AT[0] !in Dec(v) && OFFSET[0] !in Hex(v) && TAIL[0] !in Hex(v)
  {
    assert AT[0] == ' ' && OFFSET[0] == ',' && TAIL[0] == ' ';
    if ' ' in Dec(v) || ' ' in Hex(v) { NumeralsAreDigits(v, ' '); }
    if ',' in Dec(v) || ',' in Hex(v) { NumeralsAreDigits(v, ','); }
  }

  lemma NumeralsAreInjective(v: nat, v': nat)
    ensures (Dec(v) == Dec(v') || Hex(v) == Hex(v')) ==> v == v'
  {
    DecIsReadBack(v);
    DecIsReadBack(v');
    HexIsReadBack(v);
    HexIsReadBack(v');
  }

  /** The line says which signal, which address and which offset: no two faults print alike. */
  lemma LineIdentifiesFault(sig: nat, fault: nat, offset: nat, sig': nat, fault': nat, offset': nat)
    requires Message(sig, fault, offset) == Message(sig', fault', offset')
    ensures sig == sig' && fault == fault' && offset == offset'
  {
    var last, last' := Hex(offset) + TAIL, Hex(offset') + TAIL;
    var rest, rest' := Hex(fault) + OFFSET + last, Hex(fault') + OFFSET + last';
    MessageFields(sig, fault, offset);
    MessageFields(sig', fault', offset');
    NoLabelInNumeral(sig);
    NoLabelInNumeral(sig');
    SameAroundLabel(Dec(sig), rest, Dec(sig'), rest', AT);
    NoLabelInNumeral(fault);
    NoLabelInNumeral(fault');
    SameAroundLabel(Hex(fault), last, Hex(fault'), last', OFFSET);
    SameOffset(offset, offset');
    NumeralsAreInjective(sig, sig');
    NumeralsAreInjective(fault, fault');
  }

  lemma SameOffset(offset: nat, offset': nat)
    requires Hex(offset) + TAIL == Hex(offset') + TAIL
    ensures offset == offset'
  {
    NoLabelInNumeral(offset);
    NoLabelInNumeral(offset');
    assert Hex(offset) + TAIL + [] == Hex(offset') + TAIL + [];
    SameAroundLabel(Hex(offset), [], Hex(offset'), [], TAIL);
    NumeralsAreInjective(offset, offset');
  }
}
