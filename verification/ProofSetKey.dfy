/**
 The replay key of a proof set: the Y values sorted, joined with commas and hashed.

 Reordering the proofs or encoding them into another token cannot change the key, and two
 different sets, counted with multiplicity, cannot share one.
 */
module ProofSetKey {
  import opened Options
  import opened Sorting

  // ---------------------------------------------------------------- joining

  function Join(s: seq<string>): string {
    if s == [] then ""
    else if |s| == 1 then s[0]
    else s[0] + "," + Join(s[1..])
  }

  /** What the hexadecimal Y values are: not empty, and without a comma. */
  predicate Plain(s: seq<string>) {
    forall y | y in s :: y != "" && ',' !in y
  }

  lemma SplitAtComma(a: string, b: string, a': string, b': string)
    requires ',' !in a && ',' !in a' && a + "," + b == a' + "," + b'
    ensures a == a' && b == b'
  {
    var s := a + "," + b;
    assert s[|a|] == ',' && s[|a'|] == ',';
    assert forall i | 0 <= i < |a| :: s[i] == a[i] && a[i] in a;
    assert forall i | 0 <= i < |a'| :: s[i] == a'[i] && a'[i] in a';
    assert |a| == |a'|;
    assert a == s[..|a|] == a' && b == s[|a| + 1..] == b';
  }

  lemma CommaInLonger(s: seq<string>, y: string)
    requires |s| > 1 && ',' !in y
    ensures Join(s) != y
  {
    assert Join(s)[|s[0]|] == ',';
  }

  /** The joined text says what was joined. */
  lemma {:induction false} JoinIsInjective(a: seq<string>, b: seq<string>)
    requires Plain(a) && Plain(b) && Join(a) == Join(b)
    ensures a == b
  {
    if |a| > 1 && |b| > 1 {
      assert a[0] in a && b[0] in b;
      SplitAtComma(a[0], Join(a[1..]), b[0], Join(b[1..]));
      assert forall y | y in a[1..] :: y in a;
      assert forall y | y in b[1..] :: y in b;
      JoinIsInjective(a[1..], b[1..]);
      assert a == [a[0]] + a[1..] && b == [b[0]] + b[1..];
    } else if |a| > 1 {
      if b != [] { assert b[0] in b; }
      CommaInLonger(a, Join(b));
    } else if |b| > 1 {
      if a != [] { assert a[0] in a; }
      CommaInLonger(b, Join(a));
    } else {
      if a != [] { assert a[0] in a; }
      if b != [] { assert b[0] in b; }
    }
  }

  // ---------------------------------------------------------------- the key

  /** collect::<Result<..>>: all the values, or nothing as soon as one proof has none. */
  function Collect(ys: seq<Option<string>>): Option<seq<string>> {
    if ys == [] then Some([])
    else
      match ys[0]
      case None => None
      case Some(y) =>
        match Collect(ys[1..])
        case None => None
        case Some(rest) => Some([y] + rest)
  }

  /** A proof without a Y value fails the whole set: it is never dropped from the key. */
  lemma {:induction false} CollectFailsClosed(ys: seq<Option<string>>)
    ensures Collect(ys).None? <==> None in ys
    ensures Collect(ys).Some? ==>
              |Collect(ys).value| == |ys| && forall i | 0 <= i < |ys| :: ys[i] == Some(Collect(ys).value[i])
  {
    if ys != [] {
      assert ys == [ys[0]] + ys[1..];
      CollectFailsClosed(ys[1..]);
    }
  }

  function ReplayKey(ys: seq<Option<string>>, hash: string -> string): Option<string> {
    match Collect(ys)
    case None => None
    case Some(values) => Some(hash(Join(Sort(values))))
  }

  ghost predicate Injective(hash: string -> string) {
    forall s, s' :: hash(s) == hash(s') ==> s == s'
  }

  lemma SortKeepsPlain(s: seq<string>)
    requires Plain(s)
    ensures Plain(Sort(s))
  {
    SortSorts(s);
    forall y | y in Sort(s) ensures y in s {
      assert y in multiset(Sort(s));
    }
  }

  /** Same key exactly when same proofs, in any order and with their multiplicities. */
  lemma SameKeyIff(a: seq<string>, b: seq<string>, hash: string -> string)
    requires Plain(a) && Plain(b) && Injective(hash)
    ensures hash(Join(Sort(a))) == hash(Join(Sort(b))) <==> multiset(a) == multiset(b)
  {
    SortSorts(a);
    SortSorts(b);
    if multiset(a) == multiset(b) {
      SortedListsAgree(Sort(a), Sort(b));
    }
    if hash(Join(Sort(a))) == hash(Join(Sort(b))) {
      SortKeepsPlain(a);
      SortKeepsPlain(b);
      JoinIsInjective(Sort(a), Sort(b));
    }
  }

  /** The same for the proofs themselves: a missing Y value gives no key at all. */
  lemma ReplayKeyIff(ys: seq<Option<string>>, ys': seq<Option<string>>, hash: string -> string)
    requires Injective(hash)
    requires forall y | y in ys + ys' && y.Some? :: y.value != "" && ',' !in y.value
    ensures ReplayKey(ys, hash).None? <==> None in ys
    ensures None !in ys && None !in ys' ==>
              (ReplayKey(ys, hash) == ReplayKey(ys', hash) <==> multiset(ys) == multiset(ys'))
  {
    CollectFailsClosed(ys);
    CollectFailsClosed(ys');
    if None !in ys && None !in ys' {
      var a, b := Collect(ys).value, Collect(ys').value;
      PlainValues(ys, a);
      PlainValues(ys', b);
      SameKeyIff(a, b, hash);
      SomeKeepsMultiset(a, ys);
      SomeKeepsMultiset(b, ys');
      SameUnderSome(a, ys, b, ys');
    }
  }

  lemma PlainValues(ys: seq<Option<string>>, a: seq<string>)
    requires |a| == |ys| && forall i | 0 <= i < |ys| :: ys[i] == Some(a[i])
    requires forall y | y in ys && y.Some? :: y.value != "" && ',' !in y.value
    ensures Plain(a)
  {
    forall y | y in a ensures y != "" && ',' !in y {
      var i :| 0 <= i < |a| && a[i] == y;
      assert ys[i] in ys;
    }
  }

  lemma {:induction false} SomeKeepsMultiset(a: seq<string>, ys: seq<Option<string>>)
    requires |a| == |ys| && forall i | 0 <= i < |ys| :: ys[i] == Some(a[i])
    ensures forall y :: multiset(a)[y] == multiset(ys)[Some(y)]
  {
    if a != [] {
      assert a == [a[0]] + a[1..] && ys == [ys[0]] + ys[1..];
      SomeKeepsMultiset(a[1..], ys[1..]);
    }
  }

  lemma SameUnderSome(a: seq<string>, ys: seq<Option<string>>, b: seq<string>, ys': seq<Option<string>>)
    requires None !in ys && None !in ys'
    requires forall y :: multiset(a)[y] == multiset(ys)[Some(y)]
    requires forall y :: multiset(b)[y] == multiset(ys')[Some(y)]
    ensures multiset(a) == multiset(b) <==> multiset(ys) == multiset(ys')
  {
    if multiset(a) == multiset(b) {
      forall o: Option<string> ensures multiset(ys)[o] == multiset(ys')[o] {
        match o
        case Some(y) => assert multiset(a)[y] == multiset(b)[y];
        case None =>
      }
    }
    if multiset(ys) == multiset(ys') {
      forall y: string ensures multiset(a)[y] == multiset(b)[y] {
        assert multiset(ys)[Some(y)] == multiset(ys')[Some(y)];
      }
    }
  }
}
