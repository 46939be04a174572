/**
 Rewriting a string character by character: `str::replace` with a one-character pattern, and a
 single pass that spells every character on its own. A chain of replacements is one such pass.
 */
module Replacing {

  /** One pass: each character is spelled by `f`. */
  function Spell(s: string, f: char -> string): string {
    if s == [] then [] else f(s[0]) + Spell(s[1..], f)
  }

  /** str::replace(c, text). */
  function Replace(s: string, c: char, text: string): string {
    if s == [] then [] else (if s[0] == c then text else [s[0]]) + Replace(s[1..], c, text)
  }

  lemma {:induction false} ReplaceAppend(a: string, b: string, c: char, text: string)
    ensures Replace(a + b, c, text) == Replace(a, c, text) + Replace(b, c, text)
    decreases |a|
  {
    if a == [] {
      assert a + b == b;
    } else {
      assert (a + b)[1..] == a[1..] + b;
      ReplaceAppend(a[1..], b, c, text);
    }
  }

  lemma {:induction false} ReplaceAbsent(s: string, c: char, text: string)
    requires c !in s
    ensures Replace(s, c, text) == s
  {
    if s != [] {
      ReplaceAbsent(s[1..], c, text);
    }
  }

  /** Where the character is all there is, or is not there at all. */
  lemma ReplaceWhole(s: string, c: char, text: string)
    requires s == [c] || c !in s
    ensures Replace(s, c, text) == if s == [c] then text else s
  {
    if s == [c] {
      assert s[1..] == [];
    } else {
      ReplaceAbsent(s, c, text);
    }
  }

  /** Replacing inside a one-pass spelling is another one-pass spelling. */
  lemma {:induction false} ReplaceSpelled(s: string, f: char -> string, c: char, text: string, g: char -> string)
    requires forall x | x in s :: g(x) == Replace(f(x), c, text)
    ensures Replace(Spell(s, f), c, text) == Spell(s, g)
  {
    if s != [] {
      ReplaceAppend(f(s[0]), Spell(s[1..], f), c, text);
      ReplaceSpelled(s[1..], f, c, text, g);
    }
  }

  /** The same with the spelling cut down to what a single character becomes. */
  lemma {:induction false} ReplacePlain(s: string, c: char, text: string, g: char -> string)
    requires forall x | x in s :: g(x) == if x == c then text else [x]
    ensures Replace(s, c, text) == Spell(s, g)
  {
    if s != [] {
      ReplacePlain(s[1..], c, text, g);
    }
  }

  /** Every character of a spelling comes from the spelling of one character. */
  lemma {:induction false} SpelledFrom(s: string, f: char -> string, x: char)
    requires x in Spell(s, f)
    ensures exists c :: c in s && x in f(c)
  {
    if x in f(s[0]) {
      assert s[0] in s;
    } else {
      SpelledFrom(s[1..], f, x);
      var c :| c in s[1..] && x in f(c);
      assert c in s;
    }
  }

  lemma {:induction false} SpellAppend(a: string, b: string, f: char -> string)
    ensures Spell(a + b, f) == Spell(a, f) + Spell(b, f)
    decreases |a|
  {
    if a == [] {
      assert a + b == b;
    } else {
      assert (a + b)[1..] == a[1..] + b;
      SpellAppend(a[1..], b, f);
    }
  }
}
