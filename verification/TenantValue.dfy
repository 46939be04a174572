/**
 Conservation of value in the tenants' ledger.

 Every proof has a value. What was presented for a tenant is, in every run, still unspent or has
 left the mint in that tenant's name: as a payout with its fees, or as the fee of a swap. The two
 sides differ by what the default address is paid for proofs whose mapping was lost, and by nothing
 else.
 */
module TenantValue {
  import opened Options
  import opened TenantLedger

  type Value = Proof -> nat

  // ---------------------------------------------------------------- sums over sets of proofs

  ghost function Sum(v: Value, ps: set<Proof>): nat {
    if ps == {} then 0
    else
      var p :| p in ps;
      v(p) + Sum(v, ps - {p})
  }

  lemma {:induction false} SumTakes(v: Value, ps: set<Proof>, p: Proof)
    requires p in ps
    ensures Sum(v, ps) == v(p) + Sum(v, ps - {p})
    decreases |ps|
  {
    var q :| q in ps && Sum(v, ps) == v(q) + Sum(v, ps - {q});
    if q != p {
      SumTakes(v, ps - {q}, p);
      SumTakes(v, ps - {p}, q);
      assert ps - {q} - {p} == ps - {p} - {q};
    }
  }

  lemma {:induction false} SumUnion(v: Value, a: set<Proof>, b: set<Proof>)
    requires a !! b
    ensures Sum(v, a + b) == Sum(v, a) + Sum(v, b)
    decreases |a|
  {
    if a == {} {
      assert a + b == b;
    } else {
      var p :| p in a;
      SumTakes(v, a, p);
      SumTakes(v, a + b, p);
      assert a + b - {p} == (a - {p}) + b;
      SumUnion(v, a - {p}, b);
    }
  }

  lemma SumSplits(v: Value, whole: set<Proof>, part: set<Proof>)
    requires part <= whole
    ensures Sum(v, whole) == Sum(v, part) + Sum(v, whole - part)
  {
    assert part + (whole - part) == whole;
    SumUnion(v, part, whole - part);
  }

  // ---------------------------------------------------------------- the accounts of one address

  /** The tenant's proofs the mint still holds unspent. */
  function Unspents(s: State, a: Address): set<Proof> {
    set p | p in s.owner && s.owner[p] == a && p !in s.spent
  }

  /** The tenant's proofs that were paid to another address. */
  function Strays(s: State, a: Address): set<Proof> {
    set p | p in s.paid && p in s.owner && s.owner[p] == a && s.paid[p] != a
  }

  /** Other tenants' proofs that were paid to this address. */
  function Windfalls(s: State, a: Address): set<Proof> {
    set p | p in s.paid && p in s.owner && s.owner[p] != a && s.paid[p] == a
  }

  /** What one event moves in the name of `addr`: proofs first presented, spent at the mint, made by the mint. */
  datatype Flow = Flow(addr: Address, brought: set<Proof>, burnt: set<Proof>, made: set<Proof>, melt: bool)

  const STILL := Flow("", {}, {}, {}, false)

  function BeginFlow(s: State, id: nat, addr: Address, ins: seq<Proof>): Flow {
    if id in s.tasks || !OnePresenter(s, addr, ins) then STILL
    else Flow(addr, Elems(ins) - s.owner.Keys, {}, {}, false)
  }

  function SwapFlow(s: State, id: nat, outs: seq<Proof>): Flow {
    if id in s.tasks && s.tasks[id].Swap? && NoneSpent(s, s.tasks[id].ins) && FreshProofs(s, outs)
    then Flow(s.tasks[id].addr, {}, Elems(s.tasks[id].ins), Elems(outs), false)
    else STILL
  }

  function MeltFlow(s: State, addr: Address, count: nat, change: seq<Proof>): Flow {
    if CanMelt(s, addr, count) && NoneSpent(s, s.redeemer.groups[addr][..count]) && FreshProofs(s, change)
    then Flow(addr, {}, Elems(s.redeemer.groups[addr][..count]), Elems(change), true)
    else STILL
  }

  function FlowOf(s: State, e: Event): Flow {
    match e
    case BeginReceive(id, route, ins) => BeginFlow(s, id, Destination(s, route), ins)
    case BeginLocked(id, route, ins) => BeginFlow(s, id, Destination(s, route), ins)
    case SwapOk(id, outs) => SwapFlow(s, id, outs)
    case SwapLost(id, outs) => SwapFlow(s, id, outs)
    case MeltOk(addr, count, change) => MeltFlow(s, addr, count, change)
    case MeltLost(addr, count, change) => MeltFlow(s, addr, count, change)
    case _ => STILL
  }

  // ---------------------------------------------------------------- an event moves its flow and nothing else

  predicate SpentOwned(s: State) {
    s.spent <= s.owner.Keys
  }

  /** The history after a flow. */
  ghost predicate Flowed(s: State, f: Flow, s': State) {
    && s'.owner.Keys == s.owner.Keys + f.brought + f.made
    && (forall p | p in s.owner :: s'.owner[p] == s.owner[p])
    && (forall p | p in f.brought + f.made :: s'.owner[p] == f.addr)
    && s'.spent == s.spent + f.burnt
    && s'.paid.Keys == (if f.melt then s.paid.Keys + f.burnt else s.paid.Keys)
    && (forall p | p in s'.paid :: s'.paid[p] == if f.melt && p in f.burnt then f.addr else s.paid[p])
  }

  /** Only new proofs come in, only unspent ones of the ledger go, and a swap takes only its own tenant's. */
  ghost predicate FlowOk(s: State, f: Flow) {
    && f.brought !! s.owner.Keys && f.made !! s.owner.Keys && f.brought !! f.made
    && f.burnt <= s.owner.Keys && f.burnt !! s.spent
    && (!f.melt ==> forall p | p in f.burnt :: s.owner[p] == f.addr)
  }

  predicate SameHistory(s: State, s': State) {
    s'.owner == s.owner && s'.spent == s.spent && s'.paid == s.paid
  }

  lemma ProceedIsStill(s: State, id: nat, t: Task)
    ensures SameHistory(s, ProceedTask(s, id, t))
  {
  }

  lemma FailIsStill(s: State, id: nat, t: Task, applied: bool)
    ensures SameHistory(s, FailTask(s, id, t, applied))
  {
  }

  lemma RequestIsStill(s: State, e: Event)
    requires e.Proceed? || e.Fail? || e.Crash?
    ensures SameHistory(s, NextRequest(s, e))
  {
    if e.Proceed? && e.id in s.tasks { ProceedIsStill(s, e.id, s.tasks[e.id]); }
    if e.Fail? && e.id in s.tasks { FailIsStill(s, e.id, s.tasks[e.id], e.applied); }
  }

  lemma PayingIsStill(s: State, e: Event)
    requires !e.MeltOk? && !e.MeltLost?
    ensures SameHistory(s, NextPaying(s, e))
  {
  }

  lemma RecoveryIsStill(s: State, e: Event)
    ensures SameHistory(s, NextRecovery(s, e))
  {
  }

  lemma ChangeTurnIsStill(s: State, groups: Groups, addr: Address, change: seq<Proof>, n: nat, ok: bool, applied: bool)
    ensures SameHistory(s, MapNextChange(s, groups, addr, change, n, ok, applied))
  {
  }

  lemma RecordIsStill(s: State, groups: Groups, addr: Address, melted: seq<Proof>, change: seq<Proof>, ok: bool)
    ensures SameHistory(s, RecordNext(s, groups, addr, melted, change, ok))
  {
  }

  lemma SettleIsStill(s: State, ok: bool, applied: bool)
    ensures SameHistory(s, Settle(s, ok, applied))
  {
    match s.redeemer
    case RecordMelt(groups, addr, melted, change) => RecordIsStill(s, groups, addr, melted, change, ok);
    case MapChange(groups, addr, change, n) => ChangeTurnIsStill(s, groups, addr, change, n, ok, applied);
    case _ =>
  }

  lemma SweepIsStill(s: State, ok: bool, applied: bool, count: nat)
    ensures SameHistory(s, SweepOnce(s, ok, applied, count))
  {
  }

  lemma ListingIsStill(s: State, e: Event)
    requires e.Snapshot? || e.ReadMapping? || e.BeginSweep?
    ensures SameHistory(s, NextCycle(s, e))
  {
  }

  lemma CycleIsStill(s: State, e: Event)
    ensures SameHistory(s, NextCycle(s, e))
  {
    if e.SettleStep? {
      SettleIsStill(s, e.ok, e.applied);
    } else if e.SweepStep? {
      SweepIsStill(s, e.ok, e.applied, e.count);
    } else if e.Snapshot? || e.ReadMapping? || e.BeginSweep? {
      ListingIsStill(s, e);
    }
  }

  lemma OwningFlows(s: State, addr: Address, ins: seq<Proof>)
    requires OnePresenter(s, addr, ins)
    ensures Flowed(s, Flow(addr, Elems(ins) - s.owner.Keys, {}, {}, false), Own(s, ins, addr))
  {
  }

  lemma BeginFlows(s: State, id: nat, addr: Address, ins: seq<Proof>, t: Task)
    ensures Flowed(s, BeginFlow(s, id, addr, ins), Begin(s, id, addr, ins, t))
    ensures FlowOk(s, BeginFlow(s, id, addr, ins))
  {
    if id !in s.tasks && OnePresenter(s, addr, ins) {
      OwningFlows(s, addr, ins);
      assert SameHistory(Own(s, ins, addr), Begin(s, id, addr, ins, t));
    }
  }

  lemma SwapFlows(s: State, id: nat, outs: seq<Proof>, answered: bool)
    requires Inv(s) && id in s.tasks && s.tasks[id].Swap?
    ensures Flowed(s, SwapFlow(s, id, outs), SwapAtMint(s, id, s.tasks[id].addr, s.tasks[id].ins, outs, answered))
    ensures FlowOk(s, SwapFlow(s, id, outs))
  {
    assert TaskOk(s, s.tasks[id]);
  }

  lemma MeltingFlows(s: State, addr: Address, batch: seq<Proof>, change: seq<Proof>)
    requires FreshProofs(s, change)
    ensures Flowed(s, Flow(addr, {}, Elems(batch), Elems(change), true), Own(SpendByMelt(s, batch, addr), change, addr))
  {
  }

  lemma MeltFlows(s: State, addr: Address, count: nat, change: seq<Proof>, answered: bool)
    requires Inv(s) && CanMelt(s, addr, count)
    ensures Flowed(s, MeltFlow(s, addr, count, change),
                   MeltAtMint(s, s.redeemer.groups, addr, s.redeemer.groups[addr][..count], change, answered))
    ensures FlowOk(s, MeltFlow(s, addr, count, change))
  {
    var batch := s.redeemer.groups[addr][..count];
    if NoneSpent(s, batch) && FreshProofs(s, change) {
      BatchPayable(s, addr, count);
      MeltingFlows(s, addr, batch, change);
      assert SameHistory(Own(SpendByMelt(s, batch, addr), change, addr),
                         MeltAtMint(s, s.redeemer.groups, addr, batch, change, answered));
    }
  }

  lemma SwapEventFlows(s: State, e: Event)
    requires Inv(s) && (e.SwapOk? || e.SwapLost?)
    ensures Flowed(s, FlowOf(s, e), NextRequest(s, e)) && FlowOk(s, FlowOf(s, e))
  {
    if e.id in s.tasks && s.tasks[e.id].Swap? { SwapFlows(s, e.id, e.outs, e.SwapOk?); }
  }

  lemma MeltEventFlows(s: State, e: Event)
    requires Inv(s) && (e.MeltOk? || e.MeltLost?)
    ensures Flowed(s, FlowOf(s, e), NextPaying(s, e)) && FlowOk(s, FlowOf(s, e))
  {
    if CanMelt(s, e.addr, e.count) { MeltFlows(s, e.addr, e.count, e.change, e.MeltOk?); }
  }

  lemma BeginEventFlows(s: State, e: Event)
    requires e.BeginReceive? || e.BeginLocked?
    ensures Flowed(s, FlowOf(s, e), NextRequest(s, e)) && FlowOk(s, FlowOf(s, e))
  {
    var addr := Destination(s, e.route);
    BeginFlows(s, e.id, addr, e.ins, if e.BeginReceive? then MapInputs(addr, e.ins, 0) else MapLocked(addr, e.ins, 0));
  }

  /** Each event moves exactly its flow. */
  lemma NextFlows(s: State, e: Event)
    requires Inv(s)
    ensures Flowed(s, FlowOf(s, e), Next(s, e)) && FlowOk(s, FlowOf(s, e))
  {
    if e.BeginReceive? || e.BeginLocked? {
      BeginEventFlows(s, e);
    } else if e.SwapOk? || e.SwapLost? {
      SwapEventFlows(s, e);
    } else if e.MeltOk? || e.MeltLost? {
      MeltEventFlows(s, e);
    } else if IsRequest(e) {
      RequestIsStill(s, e);
    } else if IsPaying(e) {
      PayingIsStill(s, e);
    } else if IsRecovery(e) {
      RecoveryIsStill(s, e);
    } else {
      CycleIsStill(s, e);
    }
  }

  // ---------------------------------------------------------------- what a flow does to the accounts

  function OwnedBy(s: State, ps: set<Proof>, a: Address): set<Proof> {
    set p | p in ps && p in s.owner && s.owner[p] == a
  }

  lemma UnspentsAfter(v: Value, s: State, f: Flow, s': State, a: Address)
    requires SpentOwned(s) && Flowed(s, f, s') && FlowOk(s, f)
    ensures Sum(v, Unspents(s', a)) + Sum(v, OwnedBy(s, f.burnt, a))
         == Sum(v, Unspents(s, a)) + if f.addr == a then Sum(v, f.brought) + Sum(v, f.made) else 0
  {
    var gone := OwnedBy(s, f.burnt, a);
    var kept := Unspents(s, a) - gone;
    SumSplits(v, Unspents(s, a), gone);
    if f.addr == a {
      assert Unspents(s', a) == kept + (f.brought + f.made);
      SumUnion(v, f.brought, f.made);
      SumUnion(v, kept, f.brought + f.made);
    } else {
      assert Unspents(s', a) == kept;
    }
  }

  lemma StraysAfter(v: Value, s: State, f: Flow, s': State, a: Address)
    requires PaidOk(s) && Flowed(s, f, s') && FlowOk(s, f)
    ensures Sum(v, Strays(s', a))
         == Sum(v, Strays(s, a)) + if f.melt && f.addr != a then Sum(v, OwnedBy(s, f.burnt, a)) else 0
  {
    if f.melt && f.addr != a {
      assert Strays(s', a) == Strays(s, a) + OwnedBy(s, f.burnt, a);
      SumUnion(v, Strays(s, a), OwnedBy(s, f.burnt, a));
    } else {
      assert Strays(s', a) == Strays(s, a);
    }
  }

  lemma WindfallsAfter(v: Value, s: State, f: Flow, s': State, a: Address)
    requires PaidOk(s) && Flowed(s, f, s') && FlowOk(s, f)
    ensures Sum(v, Windfalls(s', a))
         == Sum(v, Windfalls(s, a)) + if f.melt && f.addr == a then Sum(v, f.burnt - OwnedBy(s, f.burnt, a)) else 0
  {
    if f.melt && f.addr == a {
      var others := f.burnt - OwnedBy(s, f.burnt, a);
      assert Windfalls(s', a) == Windfalls(s, a) + others;
      SumUnion(v, Windfalls(s, a), others);
    } else {
      assert Windfalls(s', a) == Windfalls(s, a);
    }
  }

  /** What a flow brings an address, and what leaves the mint in its name. */
  ghost function Came(v: Value, f: Flow, a: Address): nat {
    if f.addr == a then Sum(v, f.brought) else 0
  }

  ghost function Went(v: Value, f: Flow, a: Address): int {
    if f.addr == a then Sum(v, f.burnt) - Sum(v, f.made) else 0
  }

  lemma FlowBalances(v: Value, s: State, f: Flow, s': State, a: Address)
    requires SpentOwned(s) && PaidOk(s) && Flowed(s, f, s') && FlowOk(s, f)
    ensures Came(v, f, a) + Sum(v, Windfalls(s', a)) - Sum(v, Windfalls(s, a))
         == Sum(v, Unspents(s', a)) - Sum(v, Unspents(s, a)) + Went(v, f, a)
            + Sum(v, Strays(s', a)) - Sum(v, Strays(s, a))
  {
    UnspentsAfter(v, s, f, s', a);
    StraysAfter(v, s, f, s', a);
    WindfallsAfter(v, s, f, s', a);
    if f.addr == a {
      SumSplits(v, f.burnt, OwnedBy(s, f.burnt, a));
      if !f.melt { assert OwnedBy(s, f.burnt, a) == f.burnt; }
    } else if !f.melt {
      assert OwnedBy(s, f.burnt, a) == {};
    }
  }

  // ---------------------------------------------------------------- over whole runs

  /** The value presented for an address over a run. */
  ghost function Presented(v: Value, s: State, es: seq<Event>, a: Address): nat
    decreases |es|
  {
    if es == [] then 0 else Came(v, FlowOf(s, es[0]), a) + Presented(v, Next(s, es[0]), es[1..], a)
  }

  /** The value that left the mint in an address's name: by melts, paid out with the fees, or as swap fees. */
  ghost function Left(v: Value, s: State, es: seq<Event>, a: Address, melts: bool): int
    decreases |es|
  {
    if es == [] then 0
    else
      var f := FlowOf(s, es[0]);
      (if f.melt == melts then Went(v, f, a) else 0) + Left(v, Next(s, es[0]), es[1..], a, melts)
  }

  /** Presented and windfalls on one side; unspent, gone and strays on the other. */
  ghost function Excess(v: Value, s: State, a: Address): int {
    Sum(v, Unspents(s, a)) + Sum(v, Strays(s, a)) - Sum(v, Windfalls(s, a))
  }

  lemma {:induction false} RunBalances(v: Value, s: State, es: seq<Event>, a: Address)
    requires Inv(s) && SpentOwned(s)
    ensures Excess(v, Run(s, es), a)
         == Excess(v, s, a) + Presented(v, s, es, a) - Left(v, s, es, a, true) - Left(v, s, es, a, false)
    decreases |es|
  {
    if es != [] {
      NextKeeps(s, es[0]);
      NextFlows(s, es[0]);
      FlowBalances(v, s, FlowOf(s, es[0]), Next(s, es[0]), a);
      RunBalances(v, Next(s, es[0]), es[1..], a);
    }
  }

  /**
   In every run and for every address: what was presented for it is unspent, or has left in its name,
   or was paid to the default address after its mapping was lost; only the default address ever
   gains, and only such proofs.
   */
  lemma ValueIsConserved(v: Value, fallback: Option<Address>, es: seq<Event>, a: Address)
    ensures var s0 := Init(fallback);
            var s := Run(s0, es);
            && Presented(v, s0, es, a) + Sum(v, Windfalls(s, a))
                 == Sum(v, Unspents(s, a)) + Left(v, s0, es, a, true) + Left(v, s0, es, a, false)
                    + Sum(v, Strays(s, a))
            && Strays(s, a) <= s.lost && Windfalls(s, a) <= s.lost
            && (Windfalls(s, a) != {} ==> fallback == Some(a))
            && (Strays(s, a) != {} ==> fallback.Some? && fallback != Some(a))
  {
    var s0 := Init(fallback);
    var s := Run(s0, es);
    RunKeeps(s0, es);
    RunBalances(v, s0, es, a);
    assert Unspents(s0, a) == {} && Strays(s0, a) == {} && Windfalls(s0, a) == {};
    forall p | p in Strays(s, a) + Windfalls(s, a) ensures p in s.lost && s.fallback == Some(s.paid[p]) {
      assert PaymentOk(s, p, s.paid[p]);
    }
  }

  /** The mint gives out no more than it takes in, at a swap or a melt. */
  ghost predicate FairRun(v: Value, s: State, es: seq<Event>)
    decreases |es|
  {
    es == []
    || (Sum(v, FlowOf(s, es[0]).made) <= Sum(v, FlowOf(s, es[0]).burnt) && FairRun(v, Next(s, es[0]), es[1..]))
  }

  lemma {:induction false} FairRunIff(v: Value, s: State, es: seq<Event>)
    ensures FairRun(v, s, es) <==>
            forall n | 0 <= n < |es| ::
              Sum(v, FlowOf(Run(s, es[..n]), es[n]).made) <= Sum(v, FlowOf(Run(s, es[..n]), es[n]).burnt)
    decreases |es|
  {
    if es != [] {
      FairRunIff(v, Next(s, es[0]), es[1..]);
      assert es[..0] == [];
      forall n | 0 < n < |es|
        ensures Run(s, es[..n]) == Run(Next(s, es[0]), es[1..][..n - 1]) && es[n] == es[1..][n - 1]
      {
        assert es[..n][1..] == es[1..][..n - 1];
      }
      if !FairRun(v, Next(s, es[0]), es[1..]) {
        var n :| 0 <= n < |es[1..]| && Sum(v, FlowOf(Run(Next(s, es[0]), es[1..][..n]), es[1..][n]).made)
                                       > Sum(v, FlowOf(Run(Next(s, es[0]), es[1..][..n]), es[1..][n]).burnt);
        assert Run(s, es[..n + 1]) == Run(Next(s, es[0]), es[1..][..n]) && es[n + 1] == es[1..][n];
      }
    }
  }

  lemma {:induction false} FairLeaves(v: Value, s: State, es: seq<Event>, a: Address, melts: bool)
    requires FairRun(v, s, es)
    ensures Left(v, s, es, a, melts) >= 0
    decreases |es|
  {
    if es != [] {
      FairLeaves(v, Next(s, es[0]), es[1..], a, melts);
    }
  }

  /** When no mapping is lost every account closes by itself, and no address is paid more than was presented for it. */
  lemma EveryTenantIsSquare(v: Value, fallback: Option<Address>, es: seq<Event>, a: Address)
    requires LosesNothing(Init(fallback), es)
    ensures var s0 := Init(fallback);
            && Presented(v, s0, es, a)
                 == Sum(v, Unspents(Run(s0, es), a)) + Left(v, s0, es, a, true) + Left(v, s0, es, a, false)
            && (FairRun(v, s0, es) ==> 0 <= Left(v, s0, es, a, true) <= Presented(v, s0, es, a))
  {
    var s0 := Init(fallback);
    RunLosesNothing(s0, es);
    ValueIsConserved(v, fallback, es, a);
    assert Strays(Run(s0, es), a) == {} && Windfalls(Run(s0, es), a) == {};
    if FairRun(v, s0, es) {
      FairLeaves(v, s0, es, a, true);
      FairLeaves(v, s0, es, a, false);
    }
  }
}
