/**
 The ledger's runs that nothing disturbs: what one receive, one grouping and one melt come to, and
 the whole way of a tenant's token from receipt to payout. The grouping is the one the redemption
 loop is proved to compute.
 */
module TenantRuns {
  import opened Options
  import opened TenantLedger
  import Redemption

  function Repeat(e: Event, n: nat): seq<Event> {
    seq(n, _ => e)
  }

  function MapAll(s: State, ps: seq<Proof>, addr: Address): State {
    s.(mapping := Put(s.mapping, ps, addr))
  }

  lemma RunSingle(s: State, e: Event)
    ensures Run(s, [e]) == Next(s, e)
  {
    assert [e][1..] == [];
  }

  lemma RunFirst(s: State, e: Event, n: nat)
    ensures Run(s, Repeat(e, n + 1)) == Run(Next(s, e), Repeat(e, n))
  {
    assert Repeat(e, n + 1)[1..] == Repeat(e, n);
  }

  /** One event and then a run that is known. */
  lemma RunThen(s: State, e: Event, more: seq<Event>, s1: State)
    requires Next(s, e) == s1
    ensures Run(s, [e] + more) == Run(s1, more)
  {
    RunAppend(s, [e], more);
    RunSingle(s, e);
  }

  lemma PutRest(m: map<Proof, Address>, ps: seq<Proof>, n: nat, addr: Address)
    requires n < |ps|
    ensures Put(m[ps[n] := addr], ps[n + 1..], addr) == Put(m, ps[n..], addr)
  {
  }

  lemma PutAgain<V>(m: map<Proof, V>, ps: seq<Proof>, v: V, v': V)
    ensures Put(Put(m, ps, v), ps, v') == Put(m, ps, v')
  {
  }

  lemma LastTaskCounts(tasks: map<nat, Task>, id: nat, t: Task, t': Task)
    ensures tasks[id := t][id := t'] == tasks[id := t']
  {
  }

  /** Mapping one proof and then the rest is mapping them all. */
  lemma OneMoreMapped(s: State, id: nat, addr: Address, ps: seq<Proof>, n: nat, t: Task, t': Task)
    requires n < |ps|
    ensures SetTask(MapAll(SetTask(WriteMapping(s, ps[n], addr), id, t), ps[n + 1..], addr), id, t')
         == SetTask(MapAll(s, ps[n..], addr), id, t')
  {
    PutRest(s.mapping, ps, n, addr);
    LastTaskCounts(s.tasks, id, t, t');
  }

  lemma AllMapped(s: State, addr: Address, ps: seq<Proof>)
    ensures MapAll(s, ps[|ps|..], addr) == s
  {
    assert Put(s.mapping, ps[|ps|..], addr) == s.mapping;
  }

  // ---------------------------------------------------------------- one receive

  lemma InputTurn(s: State, id: nat, addr: Address, ins: seq<Proof>, n: nat)
    requires id in s.tasks && s.tasks[id] == MapInputs(addr, ins, n) && addr != "" && n <= |ins|
    ensures Next(s, Proceed(id))
         == if n == |ins| then SetTask(s, id, StoreInputs(addr, ins))
            else SetTask(WriteMapping(s, ins[n], addr), id, MapInputs(addr, ins, n + 1))
  {
  }

  lemma OutputTurn(s: State, id: nat, addr: Address, ins: seq<Proof>, outs: seq<Proof>, n: nat)
    requires id in s.tasks && s.tasks[id] == MapOutputs(addr, ins, outs, n) && addr != "" && n <= |outs|
    ensures Next(s, Proceed(id))
         == if n == |outs| then SetTask(s, id, DropInputs(ins, outs))
            else SetTask(WriteMapping(s, outs[n], addr), id, MapOutputs(addr, ins, outs, n + 1))
  {
  }

  /** The mapping loop over the inputs, from its n-th turn to the end. */
  lemma {:induction false} InputsMapped(s: State, id: nat, addr: Address, ins: seq<Proof>, n: nat)
    requires id in s.tasks && s.tasks[id] == MapInputs(addr, ins, n) && addr != "" && n <= |ins|
    ensures Run(s, Repeat(Proceed(id), |ins| - n + 1)) == SetTask(MapAll(s, ins[n..], addr), id, StoreInputs(addr, ins))
    decreases |ins| - n
  {
    RunFirst(s, Proceed(id), |ins| - n);
    InputTurn(s, id, addr, ins, n);
    if n == |ins| {
      AllMapped(s, addr, ins);
    } else {
      InputsMapped(SetTask(WriteMapping(s, ins[n], addr), id, MapInputs(addr, ins, n + 1)), id, addr, ins, n + 1);
      OneMoreMapped(s, id, addr, ins, n, MapInputs(addr, ins, n + 1), StoreInputs(addr, ins));
    }
  }

  /** The same over the swap's outputs. */
  lemma {:induction false} OutputsMapped(s: State, id: nat, addr: Address, ins: seq<Proof>, outs: seq<Proof>, n: nat)
    requires id in s.tasks && s.tasks[id] == MapOutputs(addr, ins, outs, n) && addr != "" && n <= |outs|
    ensures Run(s, Repeat(Proceed(id), |outs| - n + 1))
         == SetTask(MapAll(s, outs[n..], addr), id, DropInputs(ins, outs))
    decreases |outs| - n
  {
    RunFirst(s, Proceed(id), |outs| - n);
    OutputTurn(s, id, addr, ins, outs, n);
    if n == |outs| {
      AllMapped(s, addr, outs);
    } else {
      OutputsMapped(SetTask(WriteMapping(s, outs[n], addr), id, MapOutputs(addr, ins, outs, n + 1)),
                    id, addr, ins, outs, n + 1);
      OneMoreMapped(s, id, addr, outs, n, MapOutputs(addr, ins, outs, n + 1), DropInputs(ins, outs));
    }
  }

  // The states a receive goes through.

  function Begun(s: State, id: nat, addr: Address, ins: seq<Proof>): State {
    SetTask(Own(s, ins, addr), id, MapInputs(addr, ins, 0))
  }

  function InputsReady(s: State, id: nat, addr: Address, ins: seq<Proof>): State {
    SetTask(MapAll(s, ins, addr), id, StoreInputs(addr, ins))
  }

  function Stored(s: State, id: nat, addr: Address, ins: seq<Proof>): State {
    SetTask(SetRows(s, ins, Unspent), id, Reserve(addr, ins))
  }

  function InputsHeld(s: State, id: nat, addr: Address, ins: seq<Proof>): State {
    SetTask(SetRows(s, ins, Reserved), id, Swap(addr, ins))
  }

  function SwapDone(s: State, id: nat, addr: Address, ins: seq<Proof>, outs: seq<Proof>): State {
    SetTask(Own(SpendBySwap(s, ins), outs, addr), id, RecordSwap(addr, ins, outs))
  }

  function SwapRecorded(s: State, id: nat, addr: Address, ins: seq<Proof>, outs: seq<Proof>): State {
    SetTask(SetRows(SetRows(s, ins, Spent), outs, Reserved), id, MapOutputs(addr, ins, outs, 0))
  }

  function OutputsReady(s: State, id: nat, addr: Address, ins: seq<Proof>, outs: seq<Proof>): State {
    SetTask(MapAll(s, outs, addr), id, DropInputs(ins, outs))
  }

  function InputsDropped(s: State, id: nat, ins: seq<Proof>, outs: seq<Proof>): State {
    SetTask(DropMappings(s, ins), id, FreeOutputs(outs))
  }

  function OutputsFreed(s: State, id: nat, outs: seq<Proof>): State {
    EndTask(SetRows(s, outs, Unspent), id)
  }

  // Each of them is one event, or one loop, after the one before.

  /** The location names the address, or names none and the address is the default. */
  predicate PaysTo(s: State, route: Option<Address>, addr: Address) {
    route == Some(addr) || (route.None? && s.fallback == Some(addr))
  }

  lemma BeginStep(s: State, id: nat, route: Option<Address>, addr: Address, ins: seq<Proof>)
    requires PaysTo(s, route, addr) && id !in s.tasks && OnePresenter(s, addr, ins)
    ensures Next(s, BeginReceive(id, route, ins)) == Begun(s, id, addr, ins)
  {
  }

  lemma StoreStep(s: State, id: nat, addr: Address, ins: seq<Proof>)
    requires id in s.tasks && s.tasks[id] == StoreInputs(addr, ins)
    ensures Next(s, Proceed(id)) == Stored(s, id, addr, ins)
  {
  }

  lemma HoldStep(s: State, id: nat, addr: Address, ins: seq<Proof>)
    requires id in s.tasks && s.tasks[id] == Reserve(addr, ins) && AllListed(s, ins, Unspent)
    ensures Next(s, Proceed(id)) == InputsHeld(s, id, addr, ins)
  {
  }

  lemma SwapStep(s: State, id: nat, addr: Address, ins: seq<Proof>, outs: seq<Proof>)
    requires id in s.tasks && s.tasks[id] == Swap(addr, ins) && NoneSpent(s, ins) && FreshProofs(s, outs)
    ensures Next(s, SwapOk(id, outs)) == SwapDone(s, id, addr, ins, outs)
  {
  }

  lemma RecordStep(s: State, id: nat, addr: Address, ins: seq<Proof>, outs: seq<Proof>)
    requires id in s.tasks && s.tasks[id] == RecordSwap(addr, ins, outs)
    ensures Next(s, Proceed(id)) == SwapRecorded(s, id, addr, ins, outs)
  {
  }

  lemma DropStep(s: State, id: nat, ins: seq<Proof>, outs: seq<Proof>)
    requires id in s.tasks && s.tasks[id] == DropInputs(ins, outs)
    ensures Next(s, Proceed(id)) == InputsDropped(s, id, ins, outs)
  {
  }

  lemma FreeStep(s: State, id: nat, outs: seq<Proof>)
    requires id in s.tasks && s.tasks[id] == FreeOutputs(outs)
    ensures Next(s, Proceed(id)) == OutputsFreed(s, id, outs)
  {
  }

  /** The calls after the outputs are mapped. */
  function Ending(id: nat): seq<Event> {
    [Proceed(id)] + [Proceed(id)]
  }

  function Recording(id: nat, outs: seq<Proof>): seq<Event> {
    [Proceed(id)] + (Repeat(Proceed(id), |outs| + 1) + Ending(id))
  }

  function Swapping(id: nat, outs: seq<Proof>): seq<Event> {
    [Proceed(id)] + ([Proceed(id)] + ([SwapOk(id, outs)] + Recording(id, outs)))
  }

  /** A request from its token to its answer, with every call succeeding. */
  function WholeReceive(id: nat, route: Option<Address>, ins: seq<Proof>, outs: seq<Proof>): seq<Event> {
    [BeginReceive(id, route, ins)] + (Repeat(Proceed(id), |ins| + 1) + Swapping(id, outs))
  }

  lemma EndingRuns(s: State, id: nat, ins: seq<Proof>, outs: seq<Proof>)
    requires id in s.tasks && s.tasks[id] == DropInputs(ins, outs)
    ensures Run(s, Ending(id)) == OutputsFreed(InputsDropped(s, id, ins, outs), id, outs)
  {
    DropStep(s, id, ins, outs);
    RunThen(s, Proceed(id), [Proceed(id)], InputsDropped(s, id, ins, outs));
    RunSingle(InputsDropped(s, id, ins, outs), Proceed(id));
    FreeStep(InputsDropped(s, id, ins, outs), id, outs);
  }

  lemma RecordingRuns(s: State, id: nat, addr: Address, ins: seq<Proof>, outs: seq<Proof>)
    requires id in s.tasks && s.tasks[id] == RecordSwap(addr, ins, outs) && addr != ""
    ensures var ready := OutputsReady(SwapRecorded(s, id, addr, ins, outs), id, addr, ins, outs);
            Run(s, Recording(id, outs)) == OutputsFreed(InputsDropped(ready, id, ins, outs), id, outs)
  {
    var s1 := SwapRecorded(s, id, addr, ins, outs);
    var ready := OutputsReady(s1, id, addr, ins, outs);
    RecordStep(s, id, addr, ins, outs);
    RunThen(s, Proceed(id), Repeat(Proceed(id), |outs| + 1) + Ending(id), s1);
    RunAppend(s1, Repeat(Proceed(id), |outs| + 1), Ending(id));
    OutputsMapped(s1, id, addr, ins, outs, 0);
    assert outs[0..] == outs;
    EndingRuns(ready, id, ins, outs);
  }

  lemma SwappingRuns(s: State, id: nat, addr: Address, ins: seq<Proof>, outs: seq<Proof>)
    requires id in s.tasks && s.tasks[id] == StoreInputs(addr, ins)
    requires NoneSpent(s, ins) && FreshProofs(s, outs)
    ensures Run(s, Swapping(id, outs))
         == Run(SwapDone(InputsHeld(Stored(s, id, addr, ins), id, addr, ins), id, addr, ins, outs), Recording(id, outs))
  {
    var s1 := Stored(s, id, addr, ins);
    var s2 := InputsHeld(s1, id, addr, ins);
    StoreStep(s, id, addr, ins);
    RunThen(s, Proceed(id), [Proceed(id)] + ([SwapOk(id, outs)] + Recording(id, outs)), s1);
    HoldStep(s1, id, addr, ins);
    RunThen(s1, Proceed(id), [SwapOk(id, outs)] + Recording(id, outs), s2);
    SwapStep(s2, id, addr, ins, outs);
    RunThen(s2, SwapOk(id, outs), Recording(id, outs), SwapDone(s2, id, addr, ins, outs));
  }

  lemma BeginningRuns(s: State, id: nat, route: Option<Address>, addr: Address, ins: seq<Proof>, more: seq<Event>)
    requires PaysTo(s, route, addr) && id !in s.tasks && addr != "" && OnePresenter(s, addr, ins)
    ensures Run(s, [BeginReceive(id, route, ins)] + (Repeat(Proceed(id), |ins| + 1) + more))
         == Run(InputsReady(Begun(s, id, addr, ins), id, addr, ins), more)
  {
    var s1 := Begun(s, id, addr, ins);
    BeginStep(s, id, route, addr, ins);
    RunThen(s, BeginReceive(id, route, ins), Repeat(Proceed(id), |ins| + 1) + more, s1);
    RunAppend(s1, Repeat(Proceed(id), |ins| + 1), more);
    InputsMapped(s1, id, addr, ins, 0);
    assert ins[0..] == ins;
  }

  /** Where a receive nothing disturbs leaves the stores. */
  function Received(s: State, addr: Address, ins: seq<Proof>, outs: seq<Proof>): State {
    s.(rows := Put(Put(s.rows, ins, Spent), outs, Unspent),
       mapping := Put(s.mapping, outs, addr) - Elems(ins),
       spent := s.spent + Elems(ins),
       swapped := s.swapped + Elems(ins),
       owner := Put(Put(s.owner, ins, addr), outs, addr))
  }

  predicate Apart(ins: seq<Proof>, outs: seq<Proof>) {
    forall p | p in outs :: p !in ins
  }

  function WayToSwap(s: State, id: nat, addr: Address, ins: seq<Proof>, outs: seq<Proof>): State {
    var stored := Stored(InputsReady(Begun(s, id, addr, ins), id, addr, ins), id, addr, ins);
    SwapDone(InputsHeld(stored, id, addr, ins), id, addr, ins, outs)
  }

  function WholeWay(s: State, id: nat, addr: Address, ins: seq<Proof>, outs: seq<Proof>): State {
    var recorded := SwapRecorded(WayToSwap(s, id, addr, ins, outs), id, addr, ins, outs);
    OutputsFreed(InputsDropped(OutputsReady(recorded, id, addr, ins, outs), id, ins, outs), id, outs)
  }

  lemma WholeWayRows(s: State, id: nat, addr: Address, ins: seq<Proof>, outs: seq<Proof>)
    ensures WholeWay(s, id, addr, ins, outs).rows == Received(s, addr, ins, outs).rows
  {
    PutAgain(s.rows, ins, Unspent, Reserved);
    PutAgain(s.rows, ins, Reserved, Spent);
    PutAgain(Put(s.rows, ins, Spent), outs, Reserved, Unspent);
  }

  lemma PutThenDropped(m: map<Proof, Address>, ins: seq<Proof>, outs: seq<Proof>, addr: Address)
    ensures Put(Put(m, ins, addr), outs, addr) - Elems(ins) == Put(m, outs, addr) - Elems(ins)
  {
    var left, right := Put(Put(m, ins, addr), outs, addr) - Elems(ins), Put(m, outs, addr) - Elems(ins);
    forall p ensures p in left <==> p in right {
    }
    assert forall p | p in left :: left[p] == right[p];
  }

  lemma WholeWayMapping(s: State, id: nat, addr: Address, ins: seq<Proof>, outs: seq<Proof>)
    ensures WholeWay(s, id, addr, ins, outs).mapping == Received(s, addr, ins, outs).mapping
  {
    PutThenDropped(s.mapping, ins, outs, addr);
  }

  lemma WholeWayTasks(s: State, id: nat, addr: Address, ins: seq<Proof>, outs: seq<Proof>)
    requires id !in s.tasks
    ensures WholeWay(s, id, addr, ins, outs).tasks == s.tasks
  {
    LastTaskCounts(s.tasks, id, MapInputs(addr, ins, 0), StoreInputs(addr, ins));
    LastTaskCounts(s.tasks, id, StoreInputs(addr, ins), Reserve(addr, ins));
    LastTaskCounts(s.tasks, id, Reserve(addr, ins), Swap(addr, ins));
    LastTaskCounts(s.tasks, id, Swap(addr, ins), RecordSwap(addr, ins, outs));
    LastTaskCounts(s.tasks, id, RecordSwap(addr, ins, outs), MapOutputs(addr, ins, outs, 0));
    LastTaskCounts(s.tasks, id, MapOutputs(addr, ins, outs, 0), DropInputs(ins, outs));
    LastTaskCounts(s.tasks, id, DropInputs(ins, outs), FreeOutputs(outs));
    assert s.tasks[id := FreeOutputs(outs)] - {id} == s.tasks;
  }

  lemma WholeWayIsReceived(s: State, id: nat, addr: Address, ins: seq<Proof>, outs: seq<Proof>)
    requires id !in s.tasks
    ensures WholeWay(s, id, addr, ins, outs) == Received(s, addr, ins, outs)
  {
    WholeWayRows(s, id, addr, ins, outs);
    WholeWayMapping(s, id, addr, ins, outs);
    WholeWayTasks(s, id, addr, ins, outs);
  }

  /** A token presented for one address, whose proofs the mint will swap for fresh ones. */
  predicate Acceptable(s: State, id: nat, addr: Address, ins: seq<Proof>, outs: seq<Proof>) {
    && id !in s.tasks && addr != "" && OnePresenter(s, addr, ins)
    && NoneSpent(s, ins) && FreshProofs(s, outs) && Apart(ins, outs)
  }

  /**
   What a token comes to when nothing interferes, `addr` being the tenant's address, or the default
   one where no tenant is named: its proofs are spent at the mint and unmapped, the new ones are the
   tenant's, mapped to that address and spendable, and no other row, mapping or request has moved.
   */
  lemma UndisturbedReceive(s: State, id: nat, route: Option<Address>, addr: Address, ins: seq<Proof>, outs: seq<Proof>)
    requires route == Some(addr) || (route.None? && s.fallback == Some(addr))
    requires id !in s.tasks && addr != ""
    requires forall p | p in ins :: p !in s.spent && (p in s.owner ==> s.owner[p] == addr)
    requires forall p | p in outs :: p !in s.owner && p !in ins
    ensures Run(s, WholeReceive(id, route, ins, outs)) == Received(s, addr, ins, outs)
  {
    BeginningRuns(s, id, route, addr, ins, Swapping(id, outs));
    SwappingRuns(InputsReady(Begun(s, id, addr, ins), id, addr, ins), id, addr, ins, outs);
    RecordingRuns(WayToSwap(s, id, addr, ins, outs), id, addr, ins, outs);
    WholeWayIsReceived(s, id, addr, ins, outs);
  }

  // ---------------------------------------------------------------- one P2PK token

  /** The mapping loop over locked proofs, from its n-th turn to the end. */
  lemma {:induction false} LockedMapped(s: State, id: nat, addr: Address, ins: seq<Proof>, n: nat)
    requires id in s.tasks && s.tasks[id] == MapLocked(addr, ins, n) && addr != "" && n <= |ins|
    ensures Run(s, Repeat(Proceed(id), |ins| - n + 1)) == SetTask(MapAll(s, ins[n..], addr), id, StoreLocked(ins))
    decreases |ins| - n
  {
    RunFirst(s, Proceed(id), |ins| - n);
    if n == |ins| {
      AllMapped(s, addr, ins);
    } else {
      var s1 := SetTask(WriteMapping(s, ins[n], addr), id, MapLocked(addr, ins, n + 1));
      assert Next(s, Proceed(id)) == s1;
      LockedMapped(s1, id, addr, ins, n + 1);
      OneMoreMapped(s, id, addr, ins, n, MapLocked(addr, ins, n + 1), StoreLocked(ins));
    }
  }

  /** Where a P2PK token nothing disturbs leaves the stores. */
  function LockedStored(s: State, addr: Address, ins: seq<Proof>): State {
    s.(rows := Put(s.rows, ins, Unspent), mapping := Put(s.mapping, ins, addr), owner := Put(s.owner, ins, addr))
  }

  lemma LockedBegins(s: State, id: nat, route: Option<Address>, addr: Address, ins: seq<Proof>)
    requires PaysTo(s, route, addr) && id !in s.tasks && OnePresenter(s, addr, ins)
    ensures Next(s, BeginLocked(id, route, ins)) == SetTask(Own(s, ins, addr), id, MapLocked(addr, ins, 0))
  {
  }

  lemma LockedEnds(s: State, id: nat, addr: Address, ins: seq<Proof>)
    requires id !in s.tasks
    ensures var begun := SetTask(Own(s, ins, addr), id, MapLocked(addr, ins, 0));
            var mapped := SetTask(MapAll(begun, ins, addr), id, StoreLocked(ins));
            Next(mapped, Proceed(id)) == LockedStored(s, addr, ins)
  {
    assert s.tasks[id := MapLocked(addr, ins, 0)][id := StoreLocked(ins)] - {id} == s.tasks;
  }

  /** A P2PK token with nothing interfering: its proofs are mapped to that address and spendable as they are. */
  lemma UndisturbedLocked(s: State, id: nat, route: Option<Address>, addr: Address, ins: seq<Proof>)
    requires route == Some(addr) || (route.None? && s.fallback == Some(addr))
    requires id !in s.tasks && addr != "" && forall p | p in ins && p in s.owner :: s.owner[p] == addr
    ensures Run(s, [BeginLocked(id, route, ins)] + (Repeat(Proceed(id), |ins| + 1) + [Proceed(id)]))
         == LockedStored(s, addr, ins)
  {
    var begun := SetTask(Own(s, ins, addr), id, MapLocked(addr, ins, 0));
    var mapped := SetTask(MapAll(begun, ins, addr), id, StoreLocked(ins));
    LockedBegins(s, id, route, addr, ins);
    RunThen(s, BeginLocked(id, route, ins), Repeat(Proceed(id), |ins| + 1) + [Proceed(id)], begun);
    RunAppend(begun, Repeat(Proceed(id), |ins| + 1), [Proceed(id)]);
    assert ins[0..] == ins;
    LockedMapped(begun, id, addr, ins, 0);
    RunSingle(mapped, Proceed(id));
    LockedEnds(s, id, addr, ins);
  }

  // ---------------------------------------------------------------- one grouping

  function TargetOf(s: State, p: Proof): Address {
    if p in s.mapping then s.mapping[p] else s.fallback.GetOr("")
  }

  /** The groups the loop ends with, given those it has. */
  function Collected(s: State, todo: seq<Proof>, groups: Groups): Groups {
    if todo == [] then groups
    else
      var addr := TargetOf(s, todo[0]);
      Collected(s, todo[1..], if addr == "" then groups else Append(groups, addr, todo[0]))
  }

  lemma ReadStep(s: State, todo: seq<Proof>, groups: Groups)
    requires s.redeemer == Grouping(todo, groups) && s.fallback.Some?
    ensures Next(s, ReadMapping(true))
         == if todo == [] then SetRedeemer(s, Paying(groups))
            else
              var addr := TargetOf(s, todo[0]);
              SetRedeemer(s, Grouping(todo[1..], if addr == "" then groups else Append(groups, addr, todo[0])))
  {
  }

  /** With every mapping read, the loop ends with these groups. */
  lemma {:induction false} GroupingRuns(s: State, todo: seq<Proof>, groups: Groups)
    requires s.redeemer == Grouping(todo, groups) && s.fallback.Some?
    ensures Run(s, Repeat(ReadMapping(true), |todo| + 1)) == SetRedeemer(s, Paying(Collected(s, todo, groups)))
    decreases |todo|
  {
    RunFirst(s, ReadMapping(true), |todo|);
    ReadStep(s, todo, groups);
    if todo != [] {
      var addr := TargetOf(s, todo[0]);
      var more := if addr == "" then groups else Append(groups, addr, todo[0]);
      var s1 := SetRedeemer(s, Grouping(todo[1..], more));
      GroupingRuns(s1, todo[1..], more);
      SameTargets(s, s1, todo[1..], more);
    }
  }

  lemma {:induction false} SameTargets(s: State, s1: State, todo: seq<Proof>, groups: Groups)
    requires s1.mapping == s.mapping && s1.fallback == s.fallback
    ensures Collected(s1, todo, groups) == Collected(s, todo, groups)
    decreases |todo|
  {
    if todo != [] {
      var addr := TargetOf(s, todo[0]);
      SameTargets(s, s1, todo[1..], if addr == "" then groups else Append(groups, addr, todo[0]));
    }
  }

  /** A ledger proof as the redemption loop sees it: with a secret and an amount. */
  type Coin = Proof -> Redemption.Proof

  function Coins(ps: seq<Proof>, coin: Coin): seq<Redemption.Proof> {
    if ps == [] then [] else Coins(ps[..|ps| - 1], coin) + [coin(ps[|ps| - 1])]
  }

  function CoinGroups(groups: Groups, coin: Coin): map<string, seq<Redemption.Proof>> {
    map addr | addr in groups :: Coins(groups[addr], coin)
  }

  function Reading(s: State, p: Proof, coin: Coin): Redemption.Reading {
    Redemption.Reading(coin(p), if p in s.mapping then Redemption.Mapped(s.mapping[p]) else Redemption.Unmapped)
  }

  function Readings(s: State, ps: seq<Proof>, coin: Coin): seq<Redemption.Reading> {
    if ps == [] then [] else Readings(s, ps[..|ps| - 1], coin) + [Reading(s, ps[|ps| - 1], coin)]
  }

  lemma ReadingsPush(s: State, ps: seq<Proof>, p: Proof, coin: Coin)
    ensures Readings(s, ps + [p], coin) == Readings(s, ps, coin) + [Reading(s, p, coin)]
  {
    assert (ps + [p])[..|ps|] == ps;
  }

  lemma AppendedCoins(groups: Groups, addr: Address, p: Proof, coin: Coin)
    ensures var g := CoinGroups(groups, coin);
            CoinGroups(Append(groups, addr, p), coin) == g[addr := (if addr in g then g[addr] else []) + [coin(p)]]
  {
    var g, more := CoinGroups(groups, coin), Append(groups, addr, p);
    var had := if addr in groups then groups[addr] else [];
    assert (had + [p])[..|had|] == had;
    assert Coins(more[addr], coin) == Coins(had, coin) + [coin(p)];
    assert forall a | a != addr :: a in more <==> a in groups;
  }

  lemma FirstMoves(done: seq<Proof>, todo: seq<Proof>)
    requires todo != []
    ensures done + [todo[0]] + todo[1..] == done + todo
  {
  }

  /** Each turn of the ledger's loop keeps to what the redemption loop is specified to group. */
  lemma {:induction false} CollectedAsSpecified(s: State, done: seq<Proof>, todo: seq<Proof>,
                                                groups: Groups, coin: Coin)
    requires s.fallback.Some?
    requires Redemption.GroupsOf(CoinGroups(groups, coin), Readings(s, done, coin), s.fallback.value)
    ensures var groups' := CoinGroups(Collected(s, todo, groups), coin);
            Redemption.GroupsOf(groups', Readings(s, done + todo, coin), s.fallback.value)
    decreases |todo|
  {
    if todo == [] {
      assert done + todo == done;
    } else {
      var addr := TargetOf(s, todo[0]);
      OneMoreCollected(s, done, todo[0], groups, coin);
      CollectedAsSpecified(s, done + [todo[0]], todo[1..],
                           if addr == "" then groups else Append(groups, addr, todo[0]), coin);
      FirstMoves(done, todo);
    }
  }

  lemma OneMoreCollected(s: State, done: seq<Proof>, p: Proof, groups: Groups, coin: Coin)
    requires s.fallback.Some?
    requires Redemption.GroupsOf(CoinGroups(groups, coin), Readings(s, done, coin), s.fallback.value)
    ensures var addr := TargetOf(s, p);
            var more := if addr == "" then groups else Append(groups, addr, p);
            Redemption.GroupsOf(CoinGroups(more, coin), Readings(s, done + [p], coin), s.fallback.value)
  {
    var readings := Readings(s, done + [p], coin);
    ReadingsPush(s, done, p, coin);
    assert readings[..|readings| - 1] == Readings(s, done, coin);
    Redemption.GroupGrows(CoinGroups(groups, coin), readings, s.fallback.value);
    AppendedCoins(groups, TargetOf(s, p), p, coin);
  }

  /** The ledger groups a listing exactly as the redemption loop, given the same readings, does. */
  lemma LedgerGroupsAsTheLoopDoes(s: State, listing: seq<Proof>, coin: Coin, byLoop: map<string, seq<Redemption.Proof>>)
    requires s.fallback.Some? && Redemption.GroupsOf(byLoop, Readings(s, listing, coin), s.fallback.value)
    ensures byLoop == CoinGroups(Collected(s, listing, map[]), coin)
  {
    assert CoinGroups(map[], coin) == map[];
    CollectedAsSpecified(s, [], listing, map[], coin);
    assert [] + listing == listing;
    Redemption.GroupsAreDetermined(byLoop, CoinGroups(Collected(s, listing, map[]), coin),
                                   Readings(s, listing, coin), s.fallback.value);
  }

  lemma {:induction false} OneAddressCollected(s: State, todo: seq<Proof>, groups: Groups, addr: Address)
    requires addr != "" && todo != [] && forall p | p in todo :: TargetOf(s, p) == addr
    ensures Collected(s, todo, groups) == groups[addr := (if addr in groups then groups[addr] else []) + todo]
    decreases |todo|
  {
    assert todo[0] in todo;
    var more := Append(groups, addr, todo[0]);
    if |todo| == 1 {
      assert todo == [todo[0]] && todo[1..] == [];
    } else {
      OneAddressCollected(s, todo[1..], more, addr);
      var had := if addr in groups then groups[addr] else [];
      assert had + [todo[0]] + todo[1..] == had + todo;
    }
  }

  // ---------------------------------------------------------------- one melt

  const SETTLED := SettleStep(true, false)

  /** A melt and its settling, with every call succeeding. */
  function WholeMelt(addr: Address, count: nat, change: seq<Proof>): seq<Event> {
    [MeltOk(addr, count, change)] + ([SETTLED] + ([SETTLED] + Repeat(SETTLED, |change| + 1)))
  }

  /** Where a melt nothing disturbs leaves the stores. */
  function Melted(s: State, groups: Groups, addr: Address, batch: seq<Proof>, change: seq<Proof>): State {
    s.(rows := Put(Put(s.rows, batch, Spent), change, Unspent),
       mapping := Put(s.mapping - Elems(batch), change, addr),
       spent := s.spent + Elems(batch),
       paid := Put(s.paid, batch, addr),
       owner := Put(s.owner, change, addr),
       redeemer := Paying(groups - {addr}))
  }

  lemma ChangeTurn(s: State, groups: Groups, addr: Address, change: seq<Proof>, n: nat)
    requires s.redeemer == MapChange(groups, addr, change, n) && addr != "" && n <= |change|
    ensures Next(s, SETTLED)
         == if n == |change| then SetRedeemer(s, Paying(groups))
            else SetRedeemer(WriteMapping(s, change[n], addr), MapChange(groups, addr, change, n + 1))
  {
  }

  /** The mapping loop over the change, from its n-th turn to the end. */
  lemma {:induction false} ChangeMapped(s: State, groups: Groups, addr: Address, change: seq<Proof>, n: nat)
    requires s.redeemer == MapChange(groups, addr, change, n) && addr != "" && n <= |change|
    ensures Run(s, Repeat(SETTLED, |change| - n + 1)) == SetRedeemer(MapAll(s, change[n..], addr), Paying(groups))
    decreases |change| - n
  {
    RunFirst(s, SETTLED, |change| - n);
    ChangeTurn(s, groups, addr, change, n);
    if n == |change| {
      AllMapped(s, addr, change);
    } else {
      ChangeMapped(SetRedeemer(WriteMapping(s, change[n], addr), MapChange(groups, addr, change, n + 1)),
                   groups, addr, change, n + 1);
      PutRest(s.mapping, change, n, addr);
    }
  }

  function MeltDone(s: State, groups: Groups, addr: Address, batch: seq<Proof>, change: seq<Proof>): State {
    SetRedeemer(Own(SpendByMelt(s, batch, addr), change, addr), RecordMelt(groups, addr, batch, change))
  }

  function MeltRecorded(s: State, groups: Groups, addr: Address, batch: seq<Proof>, change: seq<Proof>): State {
    SetRows(SetRows(SetRedeemer(s, Settling(groups, addr, batch, change)), batch, Spent), change, Unspent)
  }

  lemma MeltStep(s: State, addr: Address, count: nat, change: seq<Proof>)
    requires CanMelt(s, addr, count) && NoneSpent(s, s.redeemer.groups[addr][..count]) && FreshProofs(s, change)
    ensures Next(s, MeltOk(addr, count, change))
         == MeltDone(s, s.redeemer.groups - {addr}, addr, s.redeemer.groups[addr][..count], change)
  {
  }

  lemma RecordMeltStep(s: State, groups: Groups, addr: Address, batch: seq<Proof>, change: seq<Proof>)
    requires s.redeemer == RecordMelt(groups, addr, batch, change)
    ensures Next(s, SETTLED) == MeltRecorded(s, groups, addr, batch, change)
  {
  }

  lemma SettleBegins(s: State, groups: Groups, addr: Address, batch: seq<Proof>, change: seq<Proof>)
    requires s.redeemer == Settling(groups, addr, batch, change)
    ensures Next(s, SETTLED) == SetRedeemer(DropMappings(s, batch), MapChange(groups, addr, change, 0))
  {
  }

  /**
   What a melt comes to when nothing interferes: the batch is paid, spent and unmapped, its change
   is the tenant's, mapped and spendable again, the group is done, and nothing else has moved.
   */
  lemma UndisturbedMelt(s: State, addr: Address, count: nat, change: seq<Proof>)
    requires CanMelt(s, addr, count) && addr != ""
    requires NoneSpent(s, s.redeemer.groups[addr][..count]) && FreshProofs(s, change)
    ensures Run(s, WholeMelt(addr, count, change))
         == Melted(s, s.redeemer.groups, addr, s.redeemer.groups[addr][..count], change)
  {
    var groups, batch := s.redeemer.groups - {addr}, s.redeemer.groups[addr][..count];
    var s1 := MeltDone(s, groups, addr, batch, change);
    var s2 := MeltRecorded(s1, groups, addr, batch, change);
    var s3 := SetRedeemer(DropMappings(s2, batch), MapChange(groups, addr, change, 0));
    MeltStep(s, addr, count, change);
    RunThen(s, MeltOk(addr, count, change), [SETTLED] + ([SETTLED] + Repeat(SETTLED, |change| + 1)), s1);
    RecordMeltStep(s1, groups, addr, batch, change);
    RunThen(s1, SETTLED, [SETTLED] + Repeat(SETTLED, |change| + 1), s2);
    SettleBegins(s2, groups, addr, batch, change);
    RunThen(s2, SETTLED, Repeat(SETTLED, |change| + 1), s3);
    ChangeMapped(s3, groups, addr, change, 0);
    assert change[0..] == change;
  }

  // ---------------------------------------------------------------- from receipt to payout

  /** A redemption cycle over one tenant's proofs, with every call succeeding. */
  function WholeCycle(addr: Address, ps: seq<Proof>, change: seq<Proof>): seq<Event> {
    [Snapshot(ps)] + (Repeat(ReadMapping(true), |ps| + 1) + (WholeMelt(addr, |ps|, change) + [EndCycle]))
  }

  lemma CycleGroups(s: State, addr: Address, ps: seq<Proof>, more: seq<Event>)
    requires s.redeemer.Idle? && s.fallback.Some? && addr != "" && ps != [] && AllListed(s, ps, Unspent)
    requires forall p | p in ps :: p in s.mapping && s.mapping[p] == addr
    ensures Run(s, [Snapshot(ps)] + (Repeat(ReadMapping(true), |ps| + 1) + more))
         == Run(SetRedeemer(s, Paying(map[addr := ps])), more)
  {
    var s1 := SetRedeemer(s, Grouping(ps, map[]));
    assert Next(s, Snapshot(ps)) == s1;
    RunThen(s, Snapshot(ps), Repeat(ReadMapping(true), |ps| + 1) + more, s1);
    RunAppend(s1, Repeat(ReadMapping(true), |ps| + 1), more);
    GroupingRuns(s1, ps, map[]);
    OneAddressCollected(s1, ps, map[], addr);
    assert [] + ps == ps;
  }

  lemma EndStep(s: State)
    requires s.redeemer == Paying(map[])
    ensures Next(s, EndCycle) == SetRedeemer(s, Idle)
  {
  }

  lemma LastGroupDone(s: State, addr: Address, ps: seq<Proof>, change: seq<Proof>)
    ensures Melted(s, map[addr := ps], addr, ps, change).redeemer == Paying(map[])
  {
    assert map[addr := ps] - {addr} == map[];
  }

  lemma CycleMelts(s: State, addr: Address, ps: seq<Proof>, change: seq<Proof>)
    requires s.redeemer == Paying(map[addr := ps]) && addr != "" && NoneSpent(s, ps) && FreshProofs(s, change)
    ensures Run(s, WholeMelt(addr, |ps|, change)) == Melted(s, map[addr := ps], addr, ps, change)
  {
    assert ps[..|ps|] == ps;
    UndisturbedMelt(s, addr, |ps|, change);
  }

  lemma CycleEnds(s: State, addr: Address, ps: seq<Proof>, change: seq<Proof>)
    requires s.redeemer == Paying(map[addr := ps]) && addr != "" && NoneSpent(s, ps) && FreshProofs(s, change)
    ensures Run(s, WholeMelt(addr, |ps|, change) + [EndCycle])
         == SetRedeemer(Melted(s, map[addr := ps], addr, ps, change), Idle)
  {
    var s1 := Melted(s, map[addr := ps], addr, ps, change);
    RunAppend(s, WholeMelt(addr, |ps|, change), [EndCycle]);
    CycleMelts(s, addr, ps, change);
    LastGroupDone(s, addr, ps, change);
    EndStep(s1);
    RunSingle(s1, EndCycle);
  }

  lemma CycleRuns(s: State, addr: Address, ps: seq<Proof>, change: seq<Proof>)
    requires s.redeemer.Idle? && s.fallback.Some? && addr != "" && ps != [] && AllListed(s, ps, Unspent)
    requires forall p | p in ps :: p in s.mapping && s.mapping[p] == addr
    requires NoneSpent(s, ps) && FreshProofs(s, change)
    ensures Run(s, WholeCycle(addr, ps, change))
         == SetRedeemer(Melted(SetRedeemer(s, Paying(map[addr := ps])), map[addr := ps], addr, ps, change), Idle)
  {
    CycleGroups(s, addr, ps, WholeMelt(addr, |ps|, change) + [EndCycle]);
    CycleEnds(SetRedeemer(s, Paying(map[addr := ps])), addr, ps, change);
  }

  /** What a receive leaves is what a cycle can pay. */
  lemma ReceivedIsPayable(s: State, addr: Address, ins: seq<Proof>, outs: seq<Proof>, change: seq<Proof>)
    requires NoneSpent(s, outs) && FreshProofs(s, change)
    requires Apart(ins, outs) && Apart(ins, change) && Apart(outs, change)
    ensures var s1 := Received(s, addr, ins, outs);
            && AllListed(s1, outs, Unspent) && NoneSpent(s1, outs) && FreshProofs(s1, change)
            && forall p | p in outs :: p in s1.mapping && s1.mapping[p] == addr
  {
  }

  /** Where the whole way ends. */
  function PaidOut(s: State, addr: Address, ins: seq<Proof>, outs: seq<Proof>, change: seq<Proof>): State {
    var received := SetRedeemer(Received(s, addr, ins, outs), Paying(map[addr := outs]));
    SetRedeemer(Melted(received, map[addr := outs], addr, outs, change), Idle)
  }

  lemma WholeWayRuns(s: State, id: nat, route: Option<Address>, addr: Address,
                     ins: seq<Proof>, outs: seq<Proof>, change: seq<Proof>)
    requires PaysTo(s, route, addr)
    requires Acceptable(s, id, addr, ins, outs) && s.redeemer.Idle? && s.fallback.Some? && outs != []
    requires NoneSpent(s, outs) && FreshProofs(s, change) && Apart(ins, change) && Apart(outs, change)
    ensures Run(s, WholeReceive(id, route, ins, outs) + WholeCycle(addr, outs, change))
         == PaidOut(s, addr, ins, outs, change)
  {
    RunAppend(s, WholeReceive(id, route, ins, outs), WholeCycle(addr, outs, change));
    UndisturbedReceive(s, id, route, addr, ins, outs);
    ReceivedIsPayable(s, addr, ins, outs, change);
    CycleRuns(Received(s, addr, ins, outs), addr, outs, change);
  }

  /**
   The whole way of a token when nothing interferes, `addr` being the tenant's address, or the default
   one where no tenant is named: received, grouped under that address and melted there, with the
   change the tenant's again.
   */
  lemma TokenIsPaidOut(s: State, id: nat, route: Option<Address>, addr: Address,
                       ins: seq<Proof>, outs: seq<Proof>, change: seq<Proof>)
    requires route == Some(addr) || (route.None? && s.fallback == Some(addr))
    requires id !in s.tasks && addr != "" && s.redeemer == Idle && s.fallback.Some? && outs != []
    requires forall p | p in ins :: p !in s.spent && (p in s.owner ==> s.owner[p] == addr)
    requires forall p | p in outs :: p !in s.owner && p !in s.spent && p !in ins
    requires forall p | p in change :: p !in s.owner && p !in ins && p !in outs
    ensures var s' := Run(s, WholeReceive(id, route, ins, outs) + WholeCycle(addr, outs, change));
            && s'.redeemer == Idle && s'.tasks == s.tasks && s'.lost == s.lost
            && (forall p | p in outs :: p in s'.paid && s'.paid[p] == addr && p !in s'.mapping)
            && (forall p | p in change ::
                  p in s'.rows && s'.rows[p] == Unspent && p in s'.mapping && s'.mapping[p] == addr)
            && s'.spent == s.spent + Elems(ins) + Elems(outs)
            && (forall p | p !in outs :: p in s'.paid <==> p in s.paid)
  {
    WholeWayRuns(s, id, route, addr, ins, outs, change);
  }
}
