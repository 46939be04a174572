/** Named tenants: parsing an `l402_tenant` line, and the registry the lines fill. */
module Tenants {
  import opened Options
  import opened Sequences
  import opened Sorting

  datatype Tenant = Tenant(id: string, lnurlAddr: string)

  datatype TenantError =
    | InvalidId(id: string)
    | NotKeyValue(arg: string)
    | UnknownKey(key: string)
    | RepeatedKey(key: string)
    | EmptyValue(key: string)
    | MissingLnurl
    | Duplicate(id: string)
    | Unknown(id: string, defined: seq<string>)

  datatype Parsed = Ok(tenant: Tenant) | Err(error: TenantError)

  // ---------------------------------------------------------------- strings

  /** The characters `trim` takes off. */
  predicate IsSpace(c: char) {
    || '\U{9}' <= c <= '\U{D}' || c == ' ' || c == '\U{85}' || c == '\U{A0}' || c == '\U{1680}'
    || '\U{2000}' <= c <= '\U{200A}' || c == '\U{2028}' || c == '\U{2029}' || c == '\U{202F}'
    || c == '\U{205F}' || c == '\U{3000}'
  }

  function TrimStart(s: string): string {
    if s != [] && IsSpace(s[0]) then TrimStart(s[1..]) else s
  }

  function TrimEnd(s: string): string {
    if s != [] && IsSpace(s[|s| - 1]) then TrimEnd(s[..|s| - 1]) else s
  }

  function Trim(s: string): string {
    TrimEnd(TrimStart(s))
  }

  /** What trimming leaves does not start or end in a space, and only spaces are gone. */
  lemma {:induction false} TrimEndKeeps(s: string)
    ensures TrimEnd(s) <= s && (TrimEnd(s) != [] ==> !IsSpace(TrimEnd(s)[|TrimEnd(s)| - 1]))
    ensures forall c | c in s[|TrimEnd(s)|..] :: IsSpace(c)
  {
    if s != [] && IsSpace(s[|s| - 1]) {
      TrimEndKeeps(s[..|s| - 1]);
      var n := |TrimEnd(s)|;
      assert s[n..] == s[..|s| - 1][n..] + [s[|s| - 1]];
    }
  }

  lemma {:induction false} TrimStartKeeps(s: string)
    ensures |TrimStart(s)| <= |s| && TrimStart(s) == s[|s| - |TrimStart(s)|..]
    ensures TrimStart(s) != [] ==> !IsSpace(TrimStart(s)[0])
    ensures forall c | c in s[..|s| - |TrimStart(s)|] :: IsSpace(c)
  {
    if s != [] && IsSpace(s[0]) {
      TrimStartKeeps(s[1..]);
      var n := |s| - |TrimStart(s)|;
      assert s[..n] == [s[0]] + s[1..][..n - 1];
      assert s[n..] == s[1..][n - 1..];
    }
  }

  /** Trimming takes white space off both ends, all of it and nothing else. */
  lemma TrimIsCore(s: string) returns (i: nat, j: nat)
    ensures i <= j <= |s| && Trim(s) == s[i..j]
    ensures Trim(s) != [] ==> !IsSpace(Trim(s)[0]) && !IsSpace(Trim(s)[|Trim(s)| - 1])
    ensures (forall c | c in s[..i] :: IsSpace(c)) && forall c | c in s[j..] :: IsSpace(c)
  {
    var t := TrimStart(s);
    TrimStartKeeps(s);
    TrimEndKeeps(t);
    i := |s| - |t|;
    j := i + |Trim(s)|;
    SliceOfSlice(s, i, |Trim(s)|);
  }

  lemma SliceOfSlice(s: string, i: nat, n: nat)
    requires i + n <= |s|
    ensures s[i..][..n] == s[i..i + n] && s[i..][n..] == s[i + n..]
  {
  }

  /** The 25 characters with the Unicode property White_Space. */
  const SPACES := "\U{9}\U{A}\U{B}\U{C}\U{D} \U{85}\U{A0}\U{1680}\U{2000}\U{2001}\U{2002}\U{2003}\U{2004}\U{2005}"
    + "\U{2006}\U{2007}\U{2008}\U{2009}\U{200A}\U{2028}\U{2029}\U{202F}\U{205F}\U{3000}"

  lemma SpacesAre(c: char)
    ensures IsSpace(c) <==> c in SPACES
  {
  }

  predicate IsIdChar(c: char) {
    'a' <= c <= 'z' || 'A' <= c <= 'Z' || '0' <= c <= '9' || c == '-' || c == '_'
  }

  predicate ValidId(id: string) {
    id != "" && forall i | 0 <= i < |id| :: IsIdChar(id[i])
  }

  /** The ASCII codes of the dash, the digits, the letters and the underscore. */
  predicate AsciiName(code: int) {
    code == 45 || 48 <= code <= 57 || 65 <= code <= 90 || code == 95 || 97 <= code <= 122
  }

  /** A name is spelled with ASCII letters, digits, dashes and underscores, one at least. */
  lemma ValidIdIff(id: string)
    ensures ValidId(id) <==> id != "" && forall c | c in id :: AsciiName(c as int)
  {
    if forall c | c in id :: AsciiName(c as int) {
      assert forall i | 0 <= i < |id| :: id[i] in id;
    }
  }

  /** split_once('='). */
  function SplitOnce(arg: string): (r: Option<(string, string)>)
    ensures r.None? <==> '=' !in arg
    ensures r.Some? ==> '=' !in r.value.0 && arg == r.value.0 + "=" + r.value.1
  {
    if arg == [] then None
    else if arg[0] == '=' then Some(([], arg[1..]))
    else
      match SplitOnce(arg[1..])
      case None => None
      case Some((key, value)) => Some(([arg[0]] + key, value))
  }

  // ---------------------------------------------------------------- l402_tenant

  lemma SplitAtKey(arg: string)
    ensures SplitOnce(arg).Some? && SplitOnce(arg).value.0 == "lnurl" <==> "lnurl=" <= arg
    ensures "lnurl=" <= arg ==> SplitOnce(arg).value.1 == arg[6..]
  {
    if "lnurl=" <= arg {
      assert arg[5] == '=' && forall i | 0 <= i < 5 :: arg[i] != '=';
      var key := SplitOnce(arg).value.0;
      assert arg[|key|] == '=' && forall i | 0 <= i < |key| :: arg[i] == key[i] && key[i] in key;
      assert |key| == 5;
    } else {
      match SplitOnce(arg)
      case None =>
      case Some((key, value)) => assert arg[..|key| + 1] == key + "=";
    }
  }

  /** parse_l402_tenant: a plain name and one `lnurl=` with something in it, or the first thing that is wrong. */
  method ParseTenant(args: seq<string>) returns (r: Parsed)
    ensures r.Ok? <==>
              && |args| == 2 && ValidId(args[0])
              && "lnurl=" <= args[1] && Trim(args[1][6..]) != ""
    ensures r.Ok? ==> r.tenant.id == args[0] && r.tenant.lnurlAddr == Trim(args[1][6..])
    ensures r.Err? && r.error.InvalidId? <==> args != [] && !ValidId(args[0])
    ensures r.Err? && r.error.InvalidId? ==> r.error.id == args[0]
    ensures r == Err(MissingLnurl) <==> args == [] || (|args| == 1 && ValidId(args[0]))
    // One argument that cannot stand: the first to set an address must do so, ...
    ensures |args| >= 2 && ValidId(args[0]) && '=' !in args[1] ==> r == Err(NotKeyValue(args[1]))
    ensures |args| >= 2 && ValidId(args[0]) && '=' in args[1] && !("lnurl=" <= args[1]) ==>
              r.Err? && r.error.UnknownKey? && r.error.key + "=" <= args[1] && '=' !in r.error.key
    ensures |args| >= 2 && ValidId(args[0]) && "lnurl=" <= args[1] && Trim(args[1][6..]) == "" ==>
              r == Err(EmptyValue("lnurl"))
    // ... and nothing may come after it.
    ensures |args| >= 3 && ValidId(args[0]) && "lnurl=" <= args[1] && Trim(args[1][6..]) != "" ==>
      && ('=' !in args[2] ==> r == Err(NotKeyValue(args[2])))
      && ('=' in args[2] && !("lnurl=" <= args[2]) ==>
            r.Err? && r.error.UnknownKey? && r.error.key + "=" <= args[2] && '=' !in r.error.key)
      && ("lnurl=" <= args[2] ==> r == Err(RepeatedKey("lnurl")))
  {
    if args == [] {
      return Err(MissingLnurl);
    }
    var id, pairs := args[0], args[1..];
    if !ValidId(id) {
      return Err(InvalidId(id));
    }
    var lnurlAddr: Option<string> := None;
    for i := 0 to |pairs|
      invariant lnurlAddr.None? ==> i == 0
      invariant lnurlAddr.Some? ==> i == 1 && '=' in pairs[0] && "lnurl=" <= pairs[0]
      invariant lnurlAddr.Some? ==> lnurlAddr.value != "" && lnurlAddr.value == Trim(pairs[0][6..])
    {
      var arg := pairs[i];
      SplitAtKey(arg);
      match SplitOnce(arg)
      case None => return Err(NotKeyValue(arg));
      case Some((key, value)) =>
        if key != "lnurl" {
          return Err(UnknownKey(key));
        }
        if lnurlAddr.Some? {
          return Err(RepeatedKey(key));
        }
        if Trim(value) == "" {
          return Err(EmptyValue(key));
        }
        lnurlAddr := Some(Trim(value));
    }
    if lnurlAddr.None? {
      return Err(MissingLnurl);
    }
    r := Ok(Tenant(id, lnurlAddr.value));
  }

  // ---------------------------------------------------------------- the registry

  /** The names in order, each once. */
  ghost predicate Lists(s: seq<string>, names: set<string>) {
    Sorted(s) && Distinct(s) && forall x :: x in s <==> x in names
  }

  lemma InsertLists(name: string, s: seq<string>, names: set<string>)
    requires Lists(s, names) && name !in names
    ensures Lists(Insert(name, s), names + {name})
  {
    InsertSorts(name, s);
    InsertKeepsDistinct(name, s);
  }

  class TenantRegistry {
    var tenants: map<string, Tenant>

    /** Every tenant is filed under its own name. */
    ghost predicate Valid()
      reads this
    {
      forall id | id in tenants :: tenants[id].id == id
    }

    constructor ()
      ensures Valid() && tenants == map[]
    {
      tenants := map[];
    }

    method Define(t: Tenant) returns (error: Option<TenantError>)
      requires Valid()
      modifies this
      ensures Valid()
      ensures error == if t.id in old(tenants) then Some(Duplicate(t.id)) else None
      ensures error.Some? ==> tenants == old(tenants)
      ensures error.None? ==> DefineAll(old(tenants), [t]) == Some(tenants)
    {
      if t.id in tenants {
        return Some(Duplicate(t.id));
      }
      tenants := tenants[t.id := t];
      assert [t][1..] == [];
      return None;
    }

    method Resolve(id: string) returns (r: Parsed)
      requires Valid()
      ensures r.Ok? <==> id in tenants
      ensures r.Ok? ==> r.tenant == tenants[id] && r.tenant.id == id
      ensures r.Err? ==> r.error.Unknown? && r.error.id == id && Lists(r.error.defined, tenants.Keys)
    {
      if id in tenants {
        return Ok(tenants[id]);
      }
      var defined, left := [], tenants.Keys;
      while left != {}
        invariant left <= tenants.Keys && Lists(defined, tenants.Keys - left)
      {
        var name :| name in left;
        InsertLists(name, defined, tenants.Keys - left);
        defined, left := Insert(name, defined), left - {name};
        assert tenants.Keys - left == tenants.Keys - (left + {name}) + {name};
      }
      return Err(Unknown(id, defined));
    }

    method Clear()
      modifies this
      ensures Valid() && tenants == map[]
    {
      tenants := map[];
    }
  }

  /** The registry after a run of `l402_tenant` lines, or nothing once a line is refused. */
  function DefineAll(tenants: map<string, Tenant>, lines: seq<Tenant>): Option<map<string, Tenant>>
    decreases |lines|
  {
    if lines == [] then Some(tenants)
    else if lines[0].id in tenants then None
    else DefineAll(tenants[lines[0].id := lines[0]], lines[1..])
  }

  predicate DistinctIds(lines: seq<Tenant>) {
    forall i, j | 0 <= i < j < |lines| :: lines[i].id != lines[j].id
  }

  lemma {:induction false} DefineAllIff(tenants: map<string, Tenant>, lines: seq<Tenant>)
    ensures var r := DefineAll(tenants, lines);
            && (r.Some? <==> DistinctIds(lines) && forall t | t in lines :: t.id !in tenants)
            && (r.Some? ==>
                  && (forall t | t in lines :: t.id in r.value && r.value[t.id] == t)
                  && (forall id | id in tenants :: id in r.value && r.value[id] == tenants[id])
                  && (forall id | id in r.value && id !in tenants :: r.value[id] in lines && r.value[id].id == id))
    decreases |lines|
  {
    if lines != [] && lines[0].id !in tenants {
      var rest := lines[1..];
      assert lines == [lines[0]] + rest;
      DefineAllIff(tenants[lines[0].id := lines[0]], rest);
      assert DistinctIds(lines) <==> DistinctIds(rest) && forall t | t in rest :: t.id != lines[0].id by {
        if DistinctIds(lines) {
          forall t | t in rest ensures t.id != lines[0].id {
            var j :| 0 <= j < |rest| && rest[j] == t;
            assert lines[j + 1] == t;
          }
        }
      }
    } else if lines != [] {
      assert lines[0] in lines;
    }
  }

  /** Which address a name pays does not depend on the order of the lines: a config loads in every order or in none. */
  lemma LineOrderIsIrrelevant(lines: seq<Tenant>, lines': seq<Tenant>)
    requires multiset(lines) == multiset(lines')
    ensures DefineAll(map[], lines) == DefineAll(map[], lines')
  {
    DefineAllIff(map[], lines);
    DefineAllIff(map[], lines');
    if DistinctIds(lines) { SameIdsDistinct(lines, lines'); }
    if DistinctIds(lines') { SameIdsDistinct(lines', lines); }
    forall t ensures t in lines <==> t in lines' {
      assert t in multiset(lines) <==> t in multiset(lines');
    }
    if DistinctIds(lines) {
      var a, b := DefineAll(map[], lines).value, DefineAll(map[], lines').value;
      assert a == b;
    }
  }

  lemma {:induction false} DistinctCounts(lines: seq<Tenant>, t: Tenant)
    requires DistinctIds(lines)
    ensures multiset(lines)[t] <= 1
  {
    if lines != [] {
      assert lines == [lines[0]] + lines[1..];
      DistinctCounts(lines[1..], t);
    }
  }

  lemma SameIdsDistinct(lines: seq<Tenant>, lines': seq<Tenant>)
    requires multiset(lines) == multiset(lines') && DistinctIds(lines)
    ensures DistinctIds(lines')
  {
    forall i, j | 0 <= i < j < |lines'| ensures lines'[i].id != lines'[j].id {
      var t, u := lines'[i], lines'[j];
      assert t in multiset(lines) && u in multiset(lines);
      DistinctCounts(lines, t);
      if t == u {
        RepeatCounts(lines', i, j);
      } else {
        DistinctApart(lines, t, u);
      }
    }
  }

  lemma RepeatCounts(lines: seq<Tenant>, i: nat, j: nat)
    requires i < j < |lines| && lines[i] == lines[j]
    ensures multiset(lines)[lines[i]] >= 2
  {
    assert lines == lines[..j] + lines[j..];
    assert lines[i] in lines[..j] && lines[j] in lines[j..];
  }

  lemma DistinctApart(lines: seq<Tenant>, t: Tenant, u: Tenant)
    requires DistinctIds(lines) && t in lines && u in lines && t != u
    ensures t.id != u.id
  {
    var i :| 0 <= i < |lines| && lines[i] == t;
    var j :| 0 <= j < |lines| && lines[j] == u;
  }
}
