/**
 One redemption cycle over a mint's unspent proofs: which address each proof is grouped under, and
 what is held back, asked for and melted for each group.

 Amounts are u64 with saturating arithmetic, written out; the theorems say where saturation can
 and cannot change what moves.
 */
module Redemption {
  import opened Options
  import opened Sequences

  // ---------------------------------------------------------------- grouping by address

  datatype Proof = Proof(secret: string, amount: nat)

  /** What reading a proof's mapping gave. */
  datatype Answer = Mapped(address: string) | Unmapped | Unreadable

  datatype Reading = Reading(proof: Proof, answer: Answer)

  datatype Grouping = Grouped(groups: map<string, seq<Proof>>) | Refused

  /** The address a readable proof is paid to; the empty address pays nobody. */
  function Target(r: Reading, fallback: string): string {
    match r.answer
    case Mapped(address) => address
    case Unmapped => fallback
    case Unreadable => ""
  }

  /** The proofs that belong to an address, in the order they were read. */
  function Members(readings: seq<Reading>, fallback: string, address: string): seq<Proof> {
    if readings == [] then []
    else
      var last := readings[|readings| - 1];
      Members(readings[..|readings| - 1], fallback, address)
        + if Target(last, fallback) == address then [last.proof] else []
  }

  /** The groups are exactly the non-empty addresses read, each with all its proofs in order. */
  ghost predicate GroupsOf(groups: map<string, seq<Proof>>, readings: seq<Reading>, fallback: string) {
    && "" !in groups
    && (forall a | a in groups :: groups[a] != [] && groups[a] == Members(readings, fallback, a))
    && (forall a | a != "" && a !in groups :: Members(readings, fallback, a) == [])
  }

  /** Pushing the next proof under its address keeps the groups right. */
  lemma GroupGrows(groups: map<string, seq<Proof>>, readings: seq<Reading>, fallback: string)
    requires readings != [] && GroupsOf(groups, readings[..|readings| - 1], fallback)
    ensures var last := readings[|readings| - 1];
            var a := Target(last, fallback);
            var had := if a in groups then groups[a] else [];
            GroupsOf(if a == "" then groups else groups[a := had + [last.proof]], readings, fallback)
  {
    var front, last := readings[..|readings| - 1], readings[|readings| - 1];
    forall a
      ensures Members(readings, fallback, a)
           == Members(front, fallback, a) + if Target(last, fallback) == a then [last.proof] else []
    {
    }
  }

  /** The readings leave the groups no choice. */
  lemma GroupsAreDetermined(groups: map<string, seq<Proof>>, groups': map<string, seq<Proof>>,
                            readings: seq<Reading>, fallback: string)
    requires GroupsOf(groups, readings, fallback) && GroupsOf(groups', readings, fallback)
    ensures groups == groups'
  {
    forall a ensures a in groups <==> a in groups' {
      if a != "" { assert a in groups <==> Members(readings, fallback, a) != []; }
    }
  }

  /** group_proofs_by_lnurl: one proof whose mapping cannot be read stops the whole cycle. */
  method GroupProofs(readings: seq<Reading>, fallback: Option<string>) returns (r: Grouping)
    ensures r.Refused? <==> fallback.None? || exists i :: 0 <= i < |readings| && readings[i].answer.Unreadable?
    ensures r.Grouped? ==> GroupsOf(r.groups, readings, fallback.value)
  {
    if fallback.None? {
      return Refused;
    }
    var grouped: map<string, seq<Proof>> := map[];
    for i := 0 to |readings|
      invariant forall j | 0 <= j < i :: !readings[j].answer.Unreadable?
      invariant GroupsOf(grouped, readings[..i], fallback.value)
    {
      var reading := readings[i];
      if reading.answer.Unreadable? {
        return Refused;
      }
      assert readings[..i + 1][..i] == readings[..i];
      GroupGrows(grouped, readings[..i + 1], fallback.value);
      var lnurl := if reading.answer.Mapped? then reading.answer.address else fallback.value;
      if lnurl != "" {
        var members := if lnurl in grouped then grouped[lnurl] else [];
        grouped := grouped[lnurl := members + [reading.proof]];
      }
    }
    assert readings[..|readings|] == readings;
    return Grouped(grouped);
  }

  /** The groups one after another, in whatever order the map is walked. */
  function Walk(groups: map<string, seq<Proof>>, keys: seq<string>): seq<Proof>
    requires forall k | k in keys :: k in groups
  {
    if keys == [] then [] else groups[keys[0]] + Walk(groups, keys[1..])
  }

  function Proofs(readings: seq<Reading>): seq<Proof> {
    if readings == [] then []
    else
      var n := |readings| - 1;
      Proofs(readings[..n]) + [readings[n].proof]
  }

  /** The proofs under the given addresses, one address after another. */
  function Pool(readings: seq<Reading>, fallback: string, keys: seq<string>): seq<Proof> {
    if keys == [] then [] else Members(readings, fallback, keys[0]) + Pool(readings, fallback, keys[1..])
  }

  lemma MembersGrow(readings: seq<Reading>, fallback: string, address: string)
    requires readings != []
    ensures var last := readings[|readings| - 1];
            multiset(Members(readings, fallback, address))
              == multiset(Members(readings[..|readings| - 1], fallback, address))
                   + if Target(last, fallback) == address then multiset{last.proof} else multiset{}
  {
  }

  lemma {:induction false} PoolGrows(readings: seq<Reading>, fallback: string, keys: seq<string>)
    requires readings != [] && Distinct(keys)
    ensures var last := readings[|readings| - 1];
            multiset(Pool(readings, fallback, keys)) == multiset(Pool(readings[..|readings| - 1], fallback, keys))
              + if Target(last, fallback) in keys then multiset{last.proof} else multiset{}
  {
    if keys != [] {
      MembersGrow(readings, fallback, keys[0]);
      PoolGrows(readings, fallback, keys[1..]);
      assert keys == [keys[0]] + keys[1..];
      PoolSplit(readings, fallback, keys);
      PoolSplit(readings[..|readings| - 1], fallback, keys);
    }
  }

  lemma PoolSplit(readings: seq<Reading>, fallback: string, keys: seq<string>)
    requires keys != []
    ensures multiset(Pool(readings, fallback, keys))
         == multiset(Members(readings, fallback, keys[0])) + multiset(Pool(readings, fallback, keys[1..]))
  {
  }

  lemma {:induction false} PoolHoldsAll(readings: seq<Reading>, fallback: string, keys: seq<string>)
    requires Distinct(keys) && forall i | 0 <= i < |readings| :: Target(readings[i], fallback) in keys
    ensures multiset(Pool(readings, fallback, keys)) == multiset(Proofs(readings))
  {
    if readings == [] {
      EmptyPool(fallback, keys);
    } else {
      var n := |readings| - 1;
      PoolHoldsAll(readings[..n], fallback, keys);
      PoolGrows(readings, fallback, keys);
    }
  }

  lemma {:induction false} EmptyPool(fallback: string, keys: seq<string>)
    ensures Pool([], fallback, keys) == []
  {
    if keys != [] {
      EmptyPool(fallback, keys[1..]);
    }
  }

  lemma {:induction false} WalkIsPool(groups: map<string, seq<Proof>>, readings: seq<Reading>,
                                      fallback: string, keys: seq<string>)
    requires forall k | k in keys :: k in groups && groups[k] == Members(readings, fallback, k)
    ensures Walk(groups, keys) == Pool(readings, fallback, keys)
  {
    if keys != [] {
      WalkIsPool(groups, readings, fallback, keys[1..]);
    }
  }

  lemma {:induction false} ReadProofIsMember(readings: seq<Reading>, fallback: string, r: Reading)
    requires r in readings
    ensures r.proof in Members(readings, fallback, Target(r, fallback))
  {
    var n := |readings| - 1;
    if readings[n] != r {
      assert readings == readings[..n] + [readings[n]];
      ReadProofIsMember(readings[..n], fallback, r);
    }
  }

  /** Nothing is lost or doubled: the groups, in any order, and the proofs of the empty address are the input. */
  lemma GroupsPartitionTheProofs(groups: map<string, seq<Proof>>, readings: seq<Reading>,
                                 fallback: string, keys: seq<string>)
    requires GroupsOf(groups, readings, fallback)
    requires Distinct(keys) && forall k :: k in keys <==> k in groups
    ensures multiset(Walk(groups, keys)) + multiset(Members(readings, fallback, "")) == multiset(Proofs(readings))
  {
    WalkIsPool(groups, readings, fallback, keys);
    var all := [""] + keys;
    forall i | 0 <= i < |readings| ensures Target(readings[i], fallback) in all {
      ReadProofIsMember(readings, fallback, readings[i]);
      if Target(readings[i], fallback) != "" { assert Target(readings[i], fallback) in groups; }
    }
    PoolHoldsAll(readings, fallback, all);
    assert all[1..] == keys;
  }

  /** A proof sits in a group only if its mapping names that address, or it has none and the address is the default. */
  lemma {:induction false} MembersAreMapped(readings: seq<Reading>, fallback: string, address: string, p: Proof)
    requires address != "" && p in Members(readings, fallback, address)
    ensures exists r :: r in readings && r.proof == p
                        && (r.answer == Mapped(address) || (r.answer.Unmapped? && address == fallback))
  {
    var n := |readings| - 1;
    assert readings == readings[..n] + [readings[n]];
    if p in Members(readings[..n], fallback, address) {
      MembersAreMapped(readings[..n], fallback, address, p);
      var r :| r in readings[..n] && r.proof == p
               && (r.answer == Mapped(address) || (r.answer.Unmapped? && address == fallback));
      assert r in readings;
    } else {
      assert readings[n] in readings;
    }
  }

  /** And every readable proof sits in the group of the address its mapping names, or of the default one. */
  lemma ReadProofIsGrouped(groups: map<string, seq<Proof>>, readings: seq<Reading>, fallback: string,
                           r: Reading, address: string)
    requires GroupsOf(groups, readings, fallback) && r in readings && address != ""
    requires r.answer == Mapped(address) || (r.answer.Unmapped? && address == fallback)
    ensures address in groups && r.proof in groups[address]
  {
    ReadProofIsMember(readings, fallback, r);
    assert address !in groups ==> Members(readings, fallback, address) == [];
  }

  // ---------------------------------------------------------------- u64 amounts

  const MAX: nat := 0xFFFF_FFFF_FFFF_FFFF
  const MSAT_PER_SAT: nat := 1_000

  function Saturate(n: nat): nat {
    if n > MAX then MAX else n
  }

  function SatToMsat(sats: nat): nat {
    Saturate(sats * MSAT_PER_SAT)
  }

  /** fee_reserve_msat: `percentFee` is what the floating-point percentage came to. */
  function FeeReserve(percentFee: nat, minReserve: nat): nat {
    if percentFee < minReserve then minReserve else percentFee
  }

  function MeltReserve(percentFee: nat, minReserve: nat, inputFee: nat): nat {
    Saturate(FeeReserve(percentFee, minReserve) + inputFee)
  }

  datatype Currency = Sat | Msat | Other

  function ToMsat(unit: Currency, amount: nat): nat {
    if unit.Sat? then SatToMsat(amount) else amount
  }

  /** What an amount is worth, without saturation. */
  function Worth(unit: Currency, amount: nat): nat {
    if unit.Sat? then amount * MSAT_PER_SAT else amount
  }

  /** The sum over a group: not saturating in the source, so callers must keep it below 2^64. */
  function Total(unit: Currency, proofs: seq<Proof>): nat {
    if proofs == [] then 0 else ToMsat(unit, proofs[0].amount) + Total(unit, proofs[1..])
  }

  lemma {:induction false} TotalOfPrefix(unit: Currency, proofs: seq<Proof>, n: nat)
    requires n <= |proofs|
    ensures Total(unit, proofs[..n]) <= Total(unit, proofs)
  {
    if n > 0 {
      assert proofs[..n][1..] == proofs[1..][..n - 1];
      TotalOfPrefix(unit, proofs[1..], n - 1);
    }
  }

  // ---------------------------------------------------------------- one group

  datatype Settings = Settings(unit: Currency, minimum: nat, minReserve: nat, maxProofs: nat, feeOnInputs: bool)

  datatype Quote = Quote(amount: nat, feeReserve: nat)

  /** What the mint and the payee's server answer for one group. */
  datatype Replies = Replies(
    percentFee: nat,             // fee percentage of the selected total
    inputFee: Option<nat>,       // the mint's fee on the inputs, in the wallet's unit
    invoiced: bool,
    quote: Option<Quote>,
    paid: bool)                  // the melt went through

  datatype Step =
    | BelowMinimum
    | NoInputFee
    | NothingLeft
    | NoInvoice
    | NoQuote
    | TooDear
    | Attempt(proofs: seq<Proof>, selected: nat, reserve: nat, inputFee: nat, redeemable: nat, quote: Quote)

  function Selected(s: Settings, group: seq<Proof>): seq<Proof> {
    if s.maxProofs > 0 && |group| > s.maxProofs then group[..s.maxProofs] else group
  }

  /** What may be melted at once; a limit of zero is no limit. */
  predicate WithinLimit(s: Settings, n: nat) {
    s.maxProofs == 0 || n <= s.maxProofs
  }

  /** The selection is the longest beginning of the group that the limit allows. */
  lemma SelectedIsLongest(s: Settings, group: seq<Proof>)
    ensures Selected(s, group) <= group && WithinLimit(s, |Selected(s, group)|)
    ensures forall n: nat | n <= |group| && WithinLimit(s, n) :: n <= |Selected(s, group)|
  {
  }

  /** The input fee held back: nothing when the wallet picks the inputs itself. */
  function InputFee(s: Settings, r: Replies): Option<nat> {
    if !s.feeOnInputs then Some(0)
    else if r.inputFee.None? || s.unit.Other? then None
    else Some(ToMsat(s.unit, r.inputFee.value))
  }

  /** The body of the group loop up to the melt. */
  function Decide(s: Settings, group: seq<Proof>, r: Replies): Step {
    if Total(s.unit, group) < s.minimum then BelowMinimum
    else
      var proofs := Selected(s, group);
      var selected := Total(s.unit, proofs);
      var inputFee := InputFee(s, r);
      if inputFee.None? then NoInputFee
      else
        var reserve := MeltReserve(r.percentFee, s.minReserve, inputFee.value);
        if selected <= reserve then NothingLeft
        else if !r.invoiced then NoInvoice
        else if r.quote.None? then NoQuote
        else
          var q := r.quote.value;
          var required := Saturate(Saturate(ToMsat(s.unit, q.amount) + ToMsat(s.unit, q.feeReserve)) + inputFee.value);
          if selected < required then TooDear
          else Attempt(proofs, selected, FeeReserve(r.percentFee, s.minReserve), inputFee.value, selected - reserve, q)
  }

  /** The mint's fee on the inputs, without saturation. */
  function TrueInputFee(s: Settings, r: Replies): nat {
    if s.feeOnInputs && r.inputFee.Some? then Worth(s.unit, r.inputFee.value) else 0
  }

  /** What melting would really take from the inputs. */
  function TrueCost(s: Settings, r: Replies, q: Quote): nat {
    Worth(s.unit, q.amount) + Worth(s.unit, q.feeReserve) + TrueInputFee(s, r)
  }

  /** Whenever a melt is attempted, what is asked for and what is held back are the selected total to the msat. */
  lemma AttemptIsExact(s: Settings, group: seq<Proof>, r: Replies)
    requires Total(s.unit, group) <= MAX && Decide(s, group, r).Attempt?
    ensures var a := Decide(s, group, r);
            && a.redeemable > 0
            && a.redeemable + a.reserve + a.inputFee == a.selected == Total(s.unit, a.proofs)
            && a.reserve >= s.minReserve && a.reserve >= r.percentFee
            && (a.reserve == s.minReserve || a.reserve == r.percentFee)
            && a.inputFee == TrueInputFee(s, r)
            && a.proofs <= group && WithinLimit(s, |a.proofs|)
            && (forall n: nat | n <= |group| && WithinLimit(s, n) :: n <= |a.proofs|)
            && s.minimum <= Total(s.unit, group) && a.selected <= Total(s.unit, group)
  {
    TotalOfPrefix(s.unit, group, |Selected(s, group)|);
    assert group[..|group|] == group;
  }

  /** Nothing stands in the way of an invoice: the threshold is met and something is left over both fees, exactly. */
  predicate Redeemable(s: Settings, group: seq<Proof>, r: Replies) {
    && s.minimum <= Total(s.unit, group)
    && (s.feeOnInputs ==> r.inputFee.Some? && !s.unit.Other?)
    && r.percentFee + TrueInputFee(s, r) < Total(s.unit, Selected(s, group))
    && s.minReserve + TrueInputFee(s, r) < Total(s.unit, Selected(s, group))
  }

  /**
   A melt is attempted exactly when the group is redeemable, an invoice and a quote are there, and
   the quote is affordable or the selected total is saturated. Apart from that last case no saturation
   decides anything.
   */
  lemma AttemptIff(s: Settings, group: seq<Proof>, r: Replies)
    requires Total(s.unit, group) <= MAX
    ensures Decide(s, group, r).Attempt? <==>
              && Redeemable(s, group, r) && r.invoiced && r.quote.Some?
              && var selected := Total(s.unit, Selected(s, group));
                 TrueCost(s, r, r.quote.value) <= selected || selected == MAX
  {
    TotalOfPrefix(s.unit, group, |Selected(s, group)|);
    assert group[..|group|] == group;
  }

  /** A melt is never attempted for more than the selected proofs hold, as long as their total is below the ceiling. */
  lemma AttemptIsAffordable(s: Settings, group: seq<Proof>, r: Replies)
    requires Total(s.unit, group) <= MAX && Decide(s, group, r).Attempt?
    requires Total(s.unit, Selected(s, group)) < MAX
    ensures TrueCost(s, r, Decide(s, group, r).quote) <= Decide(s, group, r).selected
  {
    AttemptIff(s, group, r);
  }

  /** A sum of whole sats is a multiple of 1000 msat, which 2^64 - 1 is not. */
  lemma {:induction false} UnsaturatedTotal(proofs: seq<Proof>)
    requires forall i | 0 <= i < |proofs| :: proofs[i].amount * MSAT_PER_SAT <= MAX
    ensures Total(Sat, proofs) % MSAT_PER_SAT == 0 && Total(Sat, proofs) != MAX
  {
    if proofs != [] {
      UnsaturatedTotal(proofs[1..]);
    }
  }

  /**
   In a sat wallet, the only kind redemption opens, whose proofs are each worth at most u64 msat (both
   admission paths refuse tokens for which this fails), a
   melt is attempted exactly when the group is redeemable, an invoice and a quote are there and the
   quote is affordable: saturation never decides anything.
   */
  lemma SatAttemptIff(s: Settings, group: seq<Proof>, r: Replies)
    requires s.unit.Sat? && Total(s.unit, group) <= MAX
    requires forall i | 0 <= i < |group| :: group[i].amount * MSAT_PER_SAT <= MAX
    ensures Decide(s, group, r).Attempt? <==>
              && Redeemable(s, group, r) && r.invoiced && r.quote.Some?
              && TrueCost(s, r, r.quote.value) <= Total(s.unit, Selected(s, group))
  {
    AttemptIff(s, group, r);
    UnsaturatedTotal(Selected(s, group));
  }

  /**
   Without that bound the check can let any quote through. No admitted token holds such a proof, but
   nothing checks one that the mint made as change or that a wallet restore brought back.
   */
  lemma SaturatedTotalAdmitsAnyQuote()
    ensures var s := Settings(Sat, 0, 0, 0, false);
            var group := [Proof("s", MAX)];
            var r := Replies(0, None, true, Some(Quote(MAX, MAX)), true);
            && Total(s.unit, group) == MAX && Decide(s, group, r).Attempt?
            && TrueCost(s, r, r.quote.value) > 1000 * MAX
  {
    var group := [Proof("s", MAX)];
    assert group[1..] == [];
    assert group[0].amount * MSAT_PER_SAT > MAX;
    assert Total(Sat, group) == SatToMsat(MAX) + Total(Sat, []);
  }

  /** The amount asked for, as the i64 the invoice request carries. */
  function AsI64(v: nat): int {
    if v < 0x8000_0000_0000_0000 then v else v - 0x1_0000_0000_0000_0000
  }

  /** The cast keeps the value modulo 2^64 and lands among the signed 64-bit numbers. */
  lemma CastWraps(v: nat)
    requires v <= MAX
    ensures (AsI64(v) - v) % 0x1_0000_0000_0000_0000 == 0
    ensures -0x8000_0000_0000_0000 <= AsI64(v) < 0x8000_0000_0000_0000
  {
  }

  /** The invoice asks for the redeemable amount exactly when it is below 2^63. */
  lemma InvoiceAmountIff(s: Settings, group: seq<Proof>, r: Replies)
    requires Total(s.unit, group) <= MAX && Decide(s, group, r).Attempt?
    ensures var a := Decide(s, group, r);
            && (AsI64(a.redeemable) == a.redeemable <==> a.redeemable < 0x8000_0000_0000_0000)
            && (a.selected < 0x8000_0000_0000_0000 ==> 0 < AsI64(a.redeemable) == a.redeemable)
  {
    AttemptIsExact(s, group, r);
  }

  // ---------------------------------------------------------------- the whole cycle

  datatype Group = Group(address: string, proofs: seq<Proof>)

  /** A melt that went through: the figures of its attempt. */
  datatype Melt = Melt(address: string, proofs: seq<Proof>, selected: nat, reserve: nat, inputFee: nat,
                       redeemable: nat, quote: Quote)

  function MeltOf(address: string, a: Step): Melt
    requires a.Attempt?
  {
    Melt(address, a.proofs, a.selected, a.reserve, a.inputFee, a.redeemable, a.quote)
  }

  /** The melts of a cycle, in order. */
  function Melts(s: Settings, groups: seq<Group>, replies: seq<Replies>): seq<Melt>
    requires |replies| == |groups|
  {
    if groups == [] then []
    else
      var n := |groups| - 1;
      var step := Decide(s, groups[n].proofs, replies[n]);
      Melts(s, groups[..n], replies[..n])
        + if step.Attempt? && replies[n].paid then [MeltOf(groups[n].address, step)] else []
  }

  /** Each melt is an attempt of some group that was paid, at the group's address. */
  lemma {:induction false} EveryMeltIsAnAttempt(s: Settings, groups: seq<Group>, replies: seq<Replies>, m: Melt)
    requires |replies| == |groups| && m in Melts(s, groups, replies)
    ensures exists i :: 0 <= i < |groups| && m.address == groups[i].address && replies[i].paid
              && Decide(s, groups[i].proofs, replies[i])
                   == Attempt(m.proofs, m.selected, m.reserve, m.inputFee, m.redeemable, m.quote)
  {
    var n := |groups| - 1;
    if m in Melts(s, groups[..n], replies[..n]) {
      EveryMeltIsAnAttempt(s, groups[..n], replies[..n], m);
      var i :| 0 <= i < n && m.address == groups[..n][i].address && replies[..n][i].paid
               && Decide(s, groups[..n][i].proofs, replies[..n][i])
                    == Attempt(m.proofs, m.selected, m.reserve, m.inputFee, m.redeemable, m.quote);
      assert m.address == groups[i].address && replies[i].paid;
    }
  }

  /** And each attempt that was paid is a melt. */
  lemma {:induction false} PaidAttemptsAreMelts(s: Settings, groups: seq<Group>, replies: seq<Replies>, i: nat)
    returns (m: Melt)
    requires |replies| == |groups| && i < |groups|
    requires Decide(s, groups[i].proofs, replies[i]).Attempt? && replies[i].paid
    ensures m in Melts(s, groups, replies) && m.address == groups[i].address
    ensures Decide(s, groups[i].proofs, replies[i])
         == Attempt(m.proofs, m.selected, m.reserve, m.inputFee, m.redeemable, m.quote)
    decreases |groups|
  {
    var n := |groups| - 1;
    if i < n {
      m := PaidAttemptsAreMelts(s, groups[..n], replies[..n], i);
    } else {
      m := MeltOf(groups[n].address, Decide(s, groups[n].proofs, replies[n]));
    }
  }

  lemma MeltComesFromItsGroup(s: Settings, groups: seq<Group>, replies: seq<Replies>, m: Melt, p: Proof)
    requires |replies| == |groups| && m in Melts(s, groups, replies) && p in m.proofs
    ensures exists g :: g in groups && g.address == m.address && p in g.proofs
  {
    EveryMeltIsAnAttempt(s, groups, replies, m);
    var i :| 0 <= i < |groups| && m.address == groups[i].address && replies[i].paid
             && Decide(s, groups[i].proofs, replies[i])
                  == Attempt(m.proofs, m.selected, m.reserve, m.inputFee, m.redeemable, m.quote);
    AttemptTakesFromTheGroup(s, groups[i].proofs, replies[i], p);
    assert groups[i] in groups;
  }

  lemma AttemptTakesFromTheGroup(s: Settings, group: seq<Proof>, r: Replies, p: Proof)
    requires Decide(s, group, r).Attempt? && p in Decide(s, group, r).proofs
    ensures p in group
  {
  }

  // What a list of melts adds up to, in msat except for the first.

  function ProofCount(melts: seq<Melt>): nat {
    if melts == [] then 0 else ProofCount(melts[..|melts| - 1]) + |melts[|melts| - 1].proofs|
  }

  function Redeemed(melts: seq<Melt>): nat {
    if melts == [] then 0 else Redeemed(melts[..|melts| - 1]) + melts[|melts| - 1].redeemable
  }

  /** The fee the log reports: what the quotes reserve. */
  function QuotedFees(unit: Currency, melts: seq<Melt>): nat {
    if melts == [] then 0
    else QuotedFees(unit, melts[..|melts| - 1]) + ToMsat(unit, melts[|melts| - 1].quote.feeReserve)
  }

  function HeldBack(melts: seq<Melt>): nat {
    if melts == [] then 0
    else HeldBack(melts[..|melts| - 1]) + melts[|melts| - 1].reserve + melts[|melts| - 1].inputFee
  }

  function Spent(unit: Currency, melts: seq<Melt>): nat {
    if melts == [] then 0 else Spent(unit, melts[..|melts| - 1]) + Total(unit, melts[|melts| - 1].proofs)
  }

  lemma Pushed(unit: Currency, melts: seq<Melt>, m: Melt)
    ensures ProofCount(melts + [m]) == ProofCount(melts) + |m.proofs|
    ensures Redeemed(melts + [m]) == Redeemed(melts) + m.redeemable
    ensures QuotedFees(unit, melts + [m]) == QuotedFees(unit, melts) + ToMsat(unit, m.quote.feeReserve)
    ensures HeldBack(melts + [m]) == HeldBack(melts) + m.reserve + m.inputFee
    ensures Spent(unit, melts + [m]) == Spent(unit, melts) + Total(unit, m.proofs)
  {
    assert (melts + [m])[..|melts|] == melts;
  }

  /** The totals the loop keeps. */
  datatype Totals = Totals(redeemed: nat, amount: nat, fees: nat)

  /** One turn of the loop: a group whose attempt is paid is one more melt. */
  lemma TurnAdds(s: Settings, groups: seq<Group>, replies: seq<Replies>, i: nat)
    requires |replies| == |groups| && i < |groups|
    ensures var before, after := Melts(s, groups[..i], replies[..i]), Melts(s, groups[..i + 1], replies[..i + 1]);
            var step := Decide(s, groups[i].proofs, replies[i]);
            after == if step.Attempt? && replies[i].paid then before + [MeltOf(groups[i].address, step)] else before
  {
    assert groups[..i + 1][..i] == groups[..i] && replies[..i + 1][..i] == replies[..i];
  }

  /** The group loop: a group that cannot be redeemed is passed over, the others are melted and added up. */
  method RedeemGroups(s: Settings, groups: seq<Group>, replies: seq<Replies>) returns (melts: seq<Melt>, totals: Totals)
    requires |replies| == |groups|
    ensures melts == Melts(s, groups, replies)
    ensures totals == Totals(ProofCount(melts), Redeemed(melts), QuotedFees(s.unit, melts))
  {
    melts, totals := [], Totals(0, 0, 0);
    for i := 0 to |groups|
      invariant melts == Melts(s, groups[..i], replies[..i])
      invariant totals == Totals(ProofCount(melts), Redeemed(melts), QuotedFees(s.unit, melts))
    {
      TurnAdds(s, groups, replies, i);
      var step := Decide(s, groups[i].proofs, replies[i]);
      if !step.Attempt? || !replies[i].paid {
        continue;
      }
      var m := MeltOf(groups[i].address, step);
      Pushed(s.unit, melts, m);
      melts := melts + [m];
      totals := Totals(totals.redeemed + |step.proofs|, totals.amount + step.redeemable,
                       totals.fees + ToMsat(s.unit, step.quote.feeReserve));
    }
    assert groups[..|groups|] == groups && replies[..|replies|] == replies;
  }

  /** A cycle neither makes nor loses money: asked for plus held back for fees is what the melted proofs hold. */
  lemma {:induction false} CycleConserves(s: Settings, groups: seq<Group>, replies: seq<Replies>)
    requires |replies| == |groups|
    requires forall i | 0 <= i < |groups| :: Total(s.unit, groups[i].proofs) <= MAX
    ensures var melts := Melts(s, groups, replies); Redeemed(melts) + HeldBack(melts) == Spent(s.unit, melts)
  {
    if groups != [] {
      var n := |groups| - 1;
      CycleConserves(s, groups[..n], replies[..n]);
      var before, step := Melts(s, groups[..n], replies[..n]), Decide(s, groups[n].proofs, replies[n]);
      assert before + [] == before;
      if step.Attempt? && replies[n].paid {
        AttemptIsExact(s, groups[n].proofs, replies[n]);
        Pushed(s.unit, before, MeltOf(groups[n].address, step));
      }
    }
  }

  /**
   Grouping and melting together: each proof of a melt has a mapping that names the payee, or none
   and the payee is the default.
   */
  lemma MeltsPayTheirAddress(s: Settings, readings: seq<Reading>, fallback: string, byAddress: map<string, seq<Proof>>,
                             groups: seq<Group>, replies: seq<Replies>, m: Melt, p: Proof)
    requires GroupsOf(byAddress, readings, fallback)
    requires forall g | g in groups :: g.address in byAddress && g.proofs == byAddress[g.address]
    requires |replies| == |groups| && m in Melts(s, groups, replies) && p in m.proofs
    ensures exists r :: r in readings && r.proof == p
                        && (r.answer == Mapped(m.address) || (r.answer.Unmapped? && m.address == fallback))
  {
    MeltComesFromItsGroup(s, groups, replies, m, p);
    MembersAreMapped(readings, fallback, m.address, p);
  }
}
