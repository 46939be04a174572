/**
 html_escape: five whole-string replacements that amount to one pass, undone by reading the
 five entities from left to right.
 */
module HtmlEscaping {
  import opened Replacing

  function HtmlEscape(s: string): string {
    var amp := Replace(s, '&', "&amp;");
    var lt := Replace(amp, '<', "&lt;");
    var gt := Replace(lt, '>', "&gt;");
    var quot := Replace(gt, '"', "&quot;");
    Replace(quot, '\'', "&#x27;")
  }

  /** How a single character appears in the page. */
  function Entity(c: char): string {
    match c
    case '&' => "&amp;"
    case '<' => "&lt;"
    case '>' => "&gt;"
    case '"' => "&quot;"
    case '\'' => "&#x27;"
    case _ => [c]
  }

  /** The spelling after the first `n` replacements. */
  function Upto(n: nat): char -> string {
    (c: char) =>
      if (c == '&' && n >= 1) || (c == '<' && n >= 2) || (c == '>' && n >= 3) || (c == '"' && n >= 4) then Entity(c)
      else [c]
  }

  // No replacement touches what an earlier one wrote: the entities hold no later target.

  lemma LessThanStep(x: char)
    ensures Upto(2)(x) == Replace(Upto(1)(x), '<', "&lt;")
  {
    ReplaceWhole(Upto(1)(x), '<', "&lt;");
  }

  lemma GreaterThanStep(x: char)
    ensures Upto(3)(x) == Replace(Upto(2)(x), '>', "&gt;")
  {
    ReplaceWhole(Upto(2)(x), '>', "&gt;");
  }

  lemma QuoteStep(x: char)
    ensures Upto(4)(x) == Replace(Upto(3)(x), '"', "&quot;")
  {
    ReplaceWhole(Upto(3)(x), '"', "&quot;");
  }

  lemma ApostropheStep(x: char)
    ensures Entity(x) == Replace(Upto(4)(x), '\'', "&#x27;")
  {
    ReplaceWhole(Upto(4)(x), '\'', "&#x27;");
  }

  /** The five passes are one pass. */
  lemma EscapeIsOnePass(s: string)
    ensures HtmlEscape(s) == Spell(s, Entity)
  {
    ReplacePlain(s, '&', "&amp;", Upto(1));
    forall x: char { LessThanStep(x); }
    ReplaceSpelled(s, Upto(1), '<', "&lt;", Upto(2));
    forall x: char { GreaterThanStep(x); }
    ReplaceSpelled(s, Upto(2), '>', "&gt;", Upto(3));
    forall x: char { QuoteStep(x); }
    ReplaceSpelled(s, Upto(3), '"', "&quot;", Upto(4));
    forall x: char { ApostropheStep(x); }
    ReplaceSpelled(s, Upto(4), '\'', "&#x27;", Entity);
  }

  /** The same replacements with the ampersand taken last. */
  function AmpersandLast(s: string): string {
    var lt := Replace(s, '<', "&lt;");
    var gt := Replace(lt, '>', "&gt;");
    var quot := Replace(gt, '"', "&quot;");
    var apos := Replace(quot, '\'', "&#x27;");
    Replace(apos, '&', "&amp;")
  }

  /** What the other four replacements write for a character, cut off after `n` of them. */
  function Other(n: nat): char -> string {
    (c: char) =>
      if (c == '<' && n >= 1) || (c == '>' && n >= 2) || (c == '"' && n >= 3) || (c == '\'' && n >= 4) then Entity(c)
      else [c]
  }

  /** An ampersand replaced last also takes the one in every entity. */
  function Twice(c: char): string {
    Replace(Other(4)(c), '&', "&amp;")
  }

  lemma OtherStep(n: nat, c: char, target: char)
    requires n < 4 && target == ['<', '>', '"', '\''][n]
    ensures Other(n + 1)(c) == Replace(Other(n)(c), target, Entity(target))
  {
    ReplaceWhole(Other(n)(c), target, Entity(target));
  }

  lemma OtherReplaced(n: nat, s: string, target: char)
    requires n < 4 && target == ['<', '>', '"', '\''][n]
    ensures Replace(Spell(s, Other(n)), target, Entity(target)) == Spell(s, Other(n + 1))
  {
    forall c: char { OtherStep(n, c, target); }
    ReplaceSpelled(s, Other(n), target, Entity(target), Other(n + 1));
  }

  lemma {:induction false} OtherStartsPlain(s: string)
    ensures Spell(s, Other(0)) == s
  {
    if s != [] {
      OtherStartsPlain(s[1..]);
    }
  }

  lemma AnglesReplaced(s: string, t: string)
    requires t == Spell(s, Other(0))
    ensures Replace(Replace(t, '<', "&lt;"), '>', "&gt;") == Spell(s, Other(2))
  {
    OtherReplaced(0, s, '<');
    OtherReplaced(1, s, '>');
  }

  lemma QuotesReplaced(s: string, t: string)
    requires t == Spell(s, Other(2))
    ensures Replace(Replace(t, '"', "&quot;"), '\'', "&#x27;") == Spell(s, Other(4))
  {
    OtherReplaced(2, s, '"');
    OtherReplaced(3, s, '\'');
  }

  lemma AmpersandLastIsOnePass(s: string)
    ensures AmpersandLast(s) == Spell(s, Twice)
  {
    OtherStartsPlain(s);
    AnglesReplaced(s, s);
    QuotesReplaced(s, Spell(s, Other(2)));
    ReplaceSpelled(s, Other(4), '&', "&amp;", Twice);
  }

  predicate IsMarkup(c: char) {
    c == '<' || c == '>' || c == '"' || c == '\''
  }

  /** Every entity but the ampersand's own grows by four characters. */
  lemma TwiceGrows(c: char)
    ensures Twice(c) == if IsMarkup(c) then "&amp;" + Entity(c)[1..] else Entity(c)
  {
    var e := Other(4)(c);
    if IsMarkup(c) {
      assert e == "&" + e[1..];
      ReplaceAppend("&", e[1..], '&', "&amp;");
      ReplaceWhole("&", '&', "&amp;");
      ReplaceWhole(e[1..], '&', "&amp;");
    } else {
      ReplaceWhole(e, '&', "&amp;");
    }
  }

  lemma {:induction false} TwiceIsLonger(s: string)
    ensures |Spell(s, Twice)| >= |Spell(s, Entity)|
    ensures (exists c :: c in s && IsMarkup(c)) ==> |Spell(s, Twice)| > |Spell(s, Entity)|
    ensures (forall c | c in s :: !IsMarkup(c)) ==> Spell(s, Twice) == Spell(s, Entity)
  {
    if s != [] {
      assert s == [s[0]] + s[1..];
      TwiceGrows(s[0]);
      TwiceIsLonger(s[1..]);
    }
  }

  /** The order matters: with the ampersand last a text comes out the same exactly when it has no other markup. */
  lemma AmpersandMustComeFirst(s: string)
    ensures AmpersandLast(s) == HtmlEscape(s) <==> forall c | c in s :: !IsMarkup(c)
  {
    AmpersandLastIsOnePass(s);
    EscapeIsOnePass(s);
    TwiceIsLonger(s);
  }

  lemma EntityIsInert(c: char, x: char)
    requires x in Entity(c)
    ensures !IsMarkup(x)
  {
  }

  /** Nothing in the output can open a tag or close an attribute. */
  lemma NoMarkupSurvives(s: string, x: char)
    requires x in HtmlEscape(s)
    ensures !IsMarkup(x)
  {
    EscapeIsOnePass(s);
    SpelledFrom(s, Entity, x);
    var c :| c in s && x in Entity(c);
    EntityIsInert(c, x);
  }

  /** Reads the five entities back, left to right. */
  function HtmlUnescape(t: string): string {
    if t == [] then []
    else if "&amp;" <= t then ['&'] + HtmlUnescape(t[5..])
    else if "&lt;" <= t then ['<'] + HtmlUnescape(t[4..])
    else if "&gt;" <= t then ['>'] + HtmlUnescape(t[4..])
    else if "&quot;" <= t then ['"'] + HtmlUnescape(t[6..])
    else if "&#x27;" <= t then ['\''] + HtmlUnescape(t[6..])
    else [t[0]] + HtmlUnescape(t[1..])
  }

  lemma EntityIsReadBack(c: char, rest: string)
    ensures HtmlUnescape(Entity(c) + rest) == [c] + HtmlUnescape(rest)
  {
    var e := Entity(c);
    var t := e + rest;
    assert t[|e|..] == rest;
    if e == [c] {
      assert t[0] == c;
    } else {
      assert t[0] == '&' && t[1] == e[1] && t[2] == e[2] && t[3] == e[3];
      assert e <= t;
    }
  }

  lemma {:induction false} SpellingIsReadBack(s: string)
    ensures HtmlUnescape(Spell(s, Entity)) == s
  {
    if s != [] {
      EntityIsReadBack(s[0], Spell(s[1..], Entity));
      SpellingIsReadBack(s[1..]);
    }
  }

  /** Unescaping recovers the text. */
  lemma UnescapeInvertsEscape(s: string)
    ensures HtmlUnescape(HtmlEscape(s)) == s
  {
    EscapeIsOnePass(s);
    SpellingIsReadBack(s);
  }

  /** Two different texts never look alike on the page. */
  lemma EscapeIsInjective(s: string, s': string)
    requires HtmlEscape(s) == HtmlEscape(s')
    ensures s == s'
  {
    UnescapeInvertsEscape(s);
    UnescapeInvertsEscape(s');
  }
}
