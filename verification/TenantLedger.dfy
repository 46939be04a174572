/**
 Who gets paid for a Cashu proof.

 Requests, the redemption loop and the start-up recovery share three stores: the wallet
 database (`rows`), the Redis proof-to-address keys (`mapping`) and the mint (`spent`). Each
 event below is one line of the source that touches one of them, so the theorems hold for every
 interleaving of any number of requests with redemption, sweeps, crashes, Redis failures and
 recovered proofs.

 `owner`, `lost`, `swapped` and `paid` are history: no branch of `Next` that stands for gateway
 code reads them. A guard that does read `owner` states an assumption about the environment.
 */
module TenantLedger {
  import opened Options

  type Proof = nat
  type Address = string

  datatype RowState = Unspent | Reserved | Pending | PendingSpent | Spent

  /** Where one request has got to. The names say which call comes next. */
  datatype Task =
    | MapInputs(addr: Address, ins: seq<Proof>, done: nat)
    | StoreInputs(addr: Address, ins: seq<Proof>)
    | Reserve(addr: Address, ins: seq<Proof>)
    | Swap(addr: Address, ins: seq<Proof>)
    | RecordSwap(addr: Address, ins: seq<Proof>, outs: seq<Proof>)
    | Park(ins: seq<Proof>)
    | MapOutputs(addr: Address, ins: seq<Proof>, outs: seq<Proof>, done: nat)
    | DropInputs(ins: seq<Proof>, outs: seq<Proof>)
    | FreeOutputs(outs: seq<Proof>)
    | MapLocked(addr: Address, ins: seq<Proof>, done: nat)
    | StoreLocked(ins: seq<Proof>)

  /** Groups of proofs, each under the address it will be melted to. */
  type Groups = map<Address, seq<Proof>>

  /** Where the one redemption thread has got to. */
  datatype Redeemer =
    | Idle
    | Grouping(todo: seq<Proof>, groups: Groups)
    | Paying(groups: Groups)
    | RecordMelt(groups: Groups, addr: Address, melted: seq<Proof>, change: seq<Proof>)
    | Settling(groups: Groups, addr: Address, melted: seq<Proof>, change: seq<Proof>)
    | MapChange(groups: Groups, addr: Address, change: seq<Proof>, done: nat)
    | Sweeping(todo: seq<Proof>)
    | SweepRows(batch: seq<Proof>, rest: seq<Proof>)

  datatype State = State(
    fallback: Option<Address>,          // LNURL_ADDRESS
    rows: map<Proof, RowState>,
    mapping: map<Proof, Address>,
    spent: set<Proof>,
    tasks: map<nat, Task>,
    redeemer: Redeemer,
    owner: map<Proof, Address>,         // history: whose money the proof is
    lost: set<Proof>,                   // history: unmapped when a mapping write failed, or when recovered
    swapped: set<Proof>,                // history: spent by a swap
    paid: map<Proof, Address>)          // history: spent by a melt to this address

  datatype Event =
    | BeginReceive(id: nat, route: Option<Address>, ins: seq<Proof>)
    | BeginLocked(id: nat, route: Option<Address>, ins: seq<Proof>)
    | Proceed(id: nat)                                    // the next call succeeds
    | Fail(id: nat, applied: bool)                        // it reports an error, perhaps after taking effect
    | SwapOk(id: nat, outs: seq<Proof>)
    | SwapLost(id: nat, outs: seq<Proof>)                 // the mint swapped, the answer never came
    | Crash(id: nat)
    | Snapshot(listing: seq<Proof>)
    | ReadMapping(ok: bool)
    | SkipGroup(addr: Address)                            // below the minimum, no invoice, melt refused, ...
    | MarkBatch(addr: Address, count: nat, mark: RowState)     // the wallet holds a batch, or lets it go
    | MeltOk(addr: Address, count: nat, change: seq<Proof>)
    | MeltLost(addr: Address, count: nat, change: seq<Proof>)  // the mint paid, the answer never came
    | SettleStep(ok: bool, applied: bool)
    | EndCycle
    | BeginSweep(listing: seq<Proof>)
    | SweepStep(ok: bool, applied: bool, count: nat)
    | RedeemerCrash
    | Restore(p: Proof)                                   // wallet restore brings a proof back
    | Reconcile(p: Proof)                                 // start-up finds an in-flight proof still good
    | ReconcileSpent(p: Proof, kept: bool)                // ... or finds it spent

  function Init(fallback: Option<Address>): State {
    State(fallback, map[], map[], {}, map[], Idle, map[], {}, {}, map[])
  }

  // ---------------------------------------------------------------- single writes

  function Put<V>(m: map<Proof, V>, ps: seq<Proof>, v: V): map<Proof, V> {
    m + map p | p in ps :: v
  }

  function Elems(ps: seq<Proof>): set<Proof> {
    set p | p in ps
  }

  function SetRows(s: State, ps: seq<Proof>, to: RowState): State {
    s.(rows := Put(s.rows, ps, to))
  }

  function DropRows(s: State, ps: seq<Proof>): State {
    s.(rows := s.rows - Elems(ps))
  }

  /** SET of one mapping key. */
  function WriteMapping(s: State, p: Proof, addr: Address): State {
    s.(mapping := s.mapping[p := addr])
  }

  /** DEL of mapping keys, all or none. */
  function DropMappings(s: State, ps: seq<Proof>): State {
    s.(mapping := s.mapping - Elems(ps))
  }

  function SetTask(s: State, id: nat, t: Task): State {
    s.(tasks := s.tasks[id := t])
  }

  function EndTask(s: State, id: nat): State {
    s.(tasks := s.tasks - {id})
  }

  function SetRedeemer(s: State, r: Redeemer): State {
    s.(redeemer := r)
  }

  function Own(s: State, ps: seq<Proof>, addr: Address): State {
    s.(owner := Put(s.owner, ps, addr))
  }

  /** Of these proofs, those without a mapping are lost. */
  function Lose(s: State, ps: set<Proof>): State {
    s.(lost := s.lost + (ps - s.mapping.Keys))
  }

  function SpendBySwap(s: State, ps: seq<Proof>): State {
    s.(spent := s.spent + Elems(ps), swapped := s.swapped + Elems(ps))
  }

  function SpendByMelt(s: State, ps: seq<Proof>, addr: Address): State {
    s.(spent := s.spent + Elems(ps), paid := Put(s.paid, ps, addr))
  }

  // ---------------------------------------------------------------- requests

  /** Proofs nobody has seen: what the mint's blind signatures produce. */
  predicate FreshProofs(s: State, ps: seq<Proof>) {
    forall p | p in ps :: p !in s.owner
  }

  /** The mint's test: every input of a swap or melt must be unspent. */
  predicate NoneSpent(s: State, ps: seq<Proof>) {
    forall p | p in ps :: p !in s.spent
  }

  /** The address a request's proofs are mapped to. */
  function Destination(s: State, route: Option<Address>): Address {
    route.GetOr(s.fallback.GetOr(""))
  }

  /** No token is presented for two tenants. */
  predicate OnePresenter(s: State, addr: Address, ps: seq<Proof>) {
    forall p | p in ps :: p in s.owner ==> s.owner[p] == addr
  }

  function Begin(s: State, id: nat, addr: Address, ins: seq<Proof>, t: Task): State {
    if id in s.tasks || !OnePresenter(s, addr, ins) then s
    else SetTask(Own(s, ins, addr), id, t)
  }

  /** One turn of the mapping loop: write `ps[n]`, or go on to `done` after the last. */
  function WriteNext(s: State, id: nat, addr: Address, ps: seq<Proof>, n: nat, again: Task, done: Task): State {
    if addr == "" || n > |ps| then s
    else if n == |ps| then SetTask(s, id, done)
    else SetTask(WriteMapping(s, ps[n], addr), id, again)
  }

  /** The next call of request `id` succeeds. */
  function ProceedTask(s: State, id: nat, t: Task): State {
    match t
    case MapInputs(addr, ins, n) => WriteNext(s, id, addr, ins, n, MapInputs(addr, ins, n + 1), StoreInputs(addr, ins))
    case StoreInputs(addr, ins) => SetTask(SetRows(s, ins, Unspent), id, Reserve(addr, ins))
    case Reserve(addr, ins) =>
      // Only Unspent proofs can be reserved.
      if AllListed(s, ins, Unspent) then SetTask(SetRows(s, ins, Reserved), id, Swap(addr, ins)) else s
    case Swap(_, _) => s
    case RecordSwap(addr, ins, outs) =>
      SetTask(SetRows(SetRows(s, ins, Spent), outs, Reserved), id, MapOutputs(addr, ins, outs, 0))
    case Park(ins) => EndTask(SetRows(s, ins, Pending), id)
    case MapOutputs(addr, ins, outs, n) =>
      WriteNext(s, id, addr, outs, n, MapOutputs(addr, ins, outs, n + 1), DropInputs(ins, outs))
    case DropInputs(ins, outs) => SetTask(DropMappings(s, ins), id, FreeOutputs(outs))
    case FreeOutputs(outs) => EndTask(SetRows(s, outs, Unspent), id)
    case MapLocked(addr, ins, n) => WriteNext(s, id, addr, ins, n, MapLocked(addr, ins, n + 1), StoreLocked(ins))
    case StoreLocked(ins) => EndTask(SetRows(s, ins, Unspent), id)
  }

  /** The proofs a failing run of mapping writes leaves unwritten, `n` of `ps` being written. */
  function Unwritten(ps: seq<Proof>, n: nat): set<Proof> {
    if n <= |ps| then Elems(ps[n..]) else {}
  }

  /** A failing write may nevertheless have been applied. */
  function MaybeWrite(s: State, applied: bool, addr: Address, ps: seq<Proof>, n: nat): State {
    if applied && addr != "" && n < |ps| then WriteMapping(s, ps[n], addr) else s
  }

  function MaybeDrop(s: State, applied: bool, ps: seq<Proof>): State {
    if applied then DropMappings(s, ps) else s
  }

  /** The next call of request `id` reports an error. */
  function FailTask(s: State, id: nat, t: Task, applied: bool): State {
    match t
    case MapInputs(addr, ins, n) => EndTask(MaybeWrite(s, applied, addr, ins, n), id)
    case StoreInputs(_, _) => EndTask(s, id)
    case Reserve(_, ins) => SetTask(s, id, Park(ins))
    case Swap(_, ins) => SetTask(s, id, Park(ins))
    case RecordSwap(_, ins, _) => SetTask(s, id, Park(ins))
    case Park(_) => EndTask(s, id)
    case MapOutputs(addr, ins, outs, n) =>
      SetTask(Lose(MaybeWrite(s, applied, addr, outs, n), Unwritten(outs, n)), id, DropInputs(ins, outs))
    case DropInputs(ins, outs) => SetTask(MaybeDrop(s, applied, ins), id, FreeOutputs(outs))
    case FreeOutputs(_) => EndTask(s, id)
    case MapLocked(addr, ins, n) =>
      SetTask(Lose(MaybeWrite(s, applied, addr, ins, n), Unwritten(ins, n)), id, StoreLocked(ins))
    case StoreLocked(_) => EndTask(s, id)
  }

  /** The mint swaps `ins`; the request hears about it or not. */
  function SwapAtMint(s: State, id: nat, addr: Address, ins: seq<Proof>, outs: seq<Proof>, answered: bool): State {
    if !NoneSpent(s, ins) || !FreshProofs(s, outs) then s
    else
      var s1 := Own(SpendBySwap(s, ins), outs, addr);
      SetTask(s1, id, if answered then RecordSwap(addr, ins, outs) else Park(ins))
  }

  // ---------------------------------------------------------------- redemption and sweep

  /** One turn of the grouping loop. A mapping that cannot be read aborts the cycle. */
  function GroupNext(s: State, todo: seq<Proof>, groups: Groups, ok: bool): Redeemer {
    if s.fallback.None? then Idle
    else if todo == [] then Paying(groups)
    else if !ok then Idle
    else
      var p := todo[0];
      var addr := if p in s.mapping then s.mapping[p] else s.fallback.value;
      Grouping(todo[1..], if addr == "" then groups else Append(groups, addr, p))
  }

  function Append(groups: Groups, addr: Address, p: Proof): Groups {
    groups[addr := (if addr in groups then groups[addr] else []) + [p]]
  }

  /** The batch the loop has selected from a group it is paying. */
  predicate CanMelt(s: State, addr: Address, count: nat) {
    s.redeemer.Paying? && addr in s.redeemer.groups && count <= |s.redeemer.groups[addr]|
  }

  /** The mint melts exactly `batch` to `addr`, giving change; the loop hears about it or not. */
  function MeltAtMint(s: State, groups: Groups, addr: Address, batch: seq<Proof>, change: seq<Proof>,
                      answered: bool): State
  {
    if !NoneSpent(s, batch) || !FreshProofs(s, change) then s
    else
      var s1 := Own(SpendByMelt(s, batch, addr), change, addr);
      SetRedeemer(s1, if answered then RecordMelt(groups - {addr}, addr, batch, change) else Paying(groups - {addr}))
  }

  /** The wallet's side of an answered melt. A failing write looks to the loop like a failed melt. */
  function RecordNext(s: State, groups: Groups, addr: Address, melted: seq<Proof>, change: seq<Proof>,
                      ok: bool): State
  {
    if ok then SetRows(SetRows(SetRedeemer(s, Settling(groups, addr, melted, change)), melted, Spent), change, Unspent)
    else SetRedeemer(s, Paying(groups))
  }

  function MapNextChange(s: State, groups: Groups, addr: Address, change: seq<Proof>, n: nat,
                         ok: bool, applied: bool): State
  {
    if n > |change| then s
    else if n == |change| then SetRedeemer(s, Paying(groups))
    else if ok && addr != "" then SetRedeemer(WriteMapping(s, change[n], addr), MapChange(groups, addr, change, n + 1))
    else SetRedeemer(Lose(MaybeWrite(s, applied, addr, change, n), Unwritten(change, n)), Paying(groups))
  }

  /** The melted proofs' mappings go, or stay behind for the sweep. */
  function DropMelted(s: State, groups: Groups, addr: Address, melted: seq<Proof>, change: seq<Proof>,
                      drop: bool): State
  {
    SetRedeemer(MaybeDrop(s, drop, melted), MapChange(groups, addr, change, 0))
  }

  function Settle(s: State, ok: bool, applied: bool): State {
    match s.redeemer
    case RecordMelt(groups, addr, melted, change) => RecordNext(s, groups, addr, melted, change, ok)
    case Settling(groups, addr, melted, change) => DropMelted(s, groups, addr, melted, change, ok || applied)
    case MapChange(groups, addr, change, n) => MapNextChange(s, groups, addr, change, n, ok, applied)
    case _ => s
  }

  function SweepKeys(s: State, todo: seq<Proof>, n: nat, ok: bool, applied: bool): State
    requires n <= |todo|
  {
    SetRedeemer(MaybeDrop(s, ok || applied, todo[..n]), if ok then SweepRows(todo[..n], todo[n..]) else Idle)
  }

  /** The sweep deletes the keys of one batch, and only then its rows. */
  function SweepOnce(s: State, ok: bool, applied: bool, count: nat): State {
    match s.redeemer
    case Sweeping(todo) =>
      if todo == [] then SetRedeemer(s, Idle)
      else SweepKeys(s, todo, if count <= |todo| then count else |todo|, ok, applied)
    case SweepRows(batch, rest) =>
      if ok then SetRedeemer(DropRows(s, batch), Sweeping(rest)) else SetRedeemer(s, Idle)
    case _ => s
  }

  /** Change the wallet already lists as Unspent but that has no mapping yet. */
  function PendingChange(r: Redeemer): set<Proof> {
    match r
    case Settling(_, _, _, change) => Elems(change)
    case MapChange(_, _, change, n) => Unwritten(change, n)
    case _ => {}
  }

  /** A proof becomes spendable again without its mapping being looked at. */
  function Recover(s: State, p: Proof): State {
    SetRows(Lose(s, {p}), [p], Unspent)
  }

  predicate InFlight(s: State, p: Proof) {
    p in s.rows && s.rows[p] in {Pending, Reserved, PendingSpent}
  }

  predicate AllListed(s: State, ps: seq<Proof>, as_: RowState) {
    forall p | p in ps :: p in s.rows && s.rows[p] == as_
  }

  // ---------------------------------------------------------------- one event

  /** What a request or the mint does. An event whose guard does not hold changes nothing. */
  function NextRequest(s: State, e: Event): State {
    match e
    case BeginReceive(id, route, ins) =>
      Begin(s, id, Destination(s, route), ins, MapInputs(Destination(s, route), ins, 0))
    case BeginLocked(id, route, ins) =>
      Begin(s, id, Destination(s, route), ins, MapLocked(Destination(s, route), ins, 0))
    case Proceed(id) => if id in s.tasks then ProceedTask(s, id, s.tasks[id]) else s
    case Fail(id, applied) => if id in s.tasks then FailTask(s, id, s.tasks[id], applied) else s
    case SwapOk(id, outs) =>
      if id in s.tasks && s.tasks[id].Swap?
      then SwapAtMint(s, id, s.tasks[id].addr, s.tasks[id].ins, outs, true) else s
    case SwapLost(id, outs) =>
      if id in s.tasks && s.tasks[id].Swap?
      then SwapAtMint(s, id, s.tasks[id].addr, s.tasks[id].ins, outs, false) else s
    case Crash(id) => EndTask(s, id)
    case _ => s
  }

  /** What the redemption loop does to its groups. */
  function NextPaying(s: State, e: Event): State {
    match e
    case SkipGroup(addr) => if s.redeemer.Paying? then SetRedeemer(s, Paying(s.redeemer.groups - {addr})) else s
    case MarkBatch(addr, count, mark) =>
      if CanMelt(s, addr, count) && mark != Spent then SetRows(s, s.redeemer.groups[addr][..count], mark) else s
    case MeltOk(addr, count, change) =>
      if CanMelt(s, addr, count)
      then MeltAtMint(s, s.redeemer.groups, addr, s.redeemer.groups[addr][..count], change, true) else s
    case MeltLost(addr, count, change) =>
      if CanMelt(s, addr, count)
      then MeltAtMint(s, s.redeemer.groups, addr, s.redeemer.groups[addr][..count], change, false) else s
    case EndCycle => if s.redeemer.Paying? && s.redeemer.groups == map[] then SetRedeemer(s, Idle) else s
    case _ => s
  }

  /** What start-up recovery does. */
  function NextRecovery(s: State, e: Event): State {
    match e
    case Restore(p) => if p in s.owner && p !in s.rows then Recover(s, p) else s
    case Reconcile(p) => if InFlight(s, p) then Recover(s, p) else s
    case ReconcileSpent(p, kept) =>
      if InFlight(s, p) && p in s.spent then (if kept then SetRows(s, [p], Spent) else DropRows(s, [p])) else s
    case _ => s
  }

  /** The rest of the redemption cycle, and the sweep. */
  function NextCycle(s: State, e: Event): State {
    match e
    case Snapshot(listing) =>
      if s.redeemer.Idle? && AllListed(s, listing, Unspent) then SetRedeemer(s, Grouping(listing, map[])) else s
    case ReadMapping(ok) =>
      if s.redeemer.Grouping? then SetRedeemer(s, GroupNext(s, s.redeemer.todo, s.redeemer.groups, ok)) else s
    case SettleStep(ok, applied) => Settle(s, ok, applied)
    case BeginSweep(listing) =>
      if s.redeemer.Idle? && AllListed(s, listing, Spent) then SetRedeemer(s, Sweeping(listing)) else s
    case SweepStep(ok, applied, count) => SweepOnce(s, ok, applied, count)
    case RedeemerCrash => SetRedeemer(Lose(s, PendingChange(s.redeemer)), Idle)
    case _ => s
  }

  predicate IsRequest(e: Event) {
    e.BeginReceive? || e.BeginLocked? || e.Proceed? || e.Fail? || e.SwapOk? || e.SwapLost? || e.Crash?
  }

  predicate IsPaying(e: Event) {
    e.SkipGroup? || e.MarkBatch? || e.MeltOk? || e.MeltLost? || e.EndCycle?
  }

  predicate IsRecovery(e: Event) {
    e.Restore? || e.Reconcile? || e.ReconcileSpent?
  }

  function Next(s: State, e: Event): State {
    if IsRequest(e) then NextRequest(s, e)
    else if IsPaying(e) then NextPaying(s, e)
    else if IsRecovery(e) then NextRecovery(s, e)
    else NextCycle(s, e)
  }

  function Run(s: State, es: seq<Event>): State
    decreases |es|
  {
    if es == [] then s else Run(Next(s, es[0]), es[1..])
  }

  // ---------------------------------------------------------------- what every step keeps

  /** Redemption will find the right address for `p`, or is allowed not to. */
  ghost predicate Known(s: State, p: Proof) {
    p in s.owner && (p in s.mapping || p in s.lost || p in s.spent)
  }

  ghost predicate AllKnown(s: State, ps: seq<Proof>) {
    forall p | p in ps :: Known(s, p)
  }

  ghost predicate Owned(s: State, addr: Address, ps: seq<Proof>) {
    forall p | p in ps :: p in s.owner && s.owner[p] == addr
  }

  ghost predicate AllSpent(s: State, ps: seq<Proof>) {
    forall p | p in ps :: p in s.owner && p in s.spent
  }

  /** Paying `p` to `addr` is right, excused, or bound to be refused by the mint. */
  ghost predicate Payable(s: State, p: Proof, addr: Address) {
    && Known(s, p)
    && (p in s.spent || s.owner[p] == addr || (p in s.lost && s.fallback == Some(addr)))
  }

  ghost predicate GroupsOk(s: State, groups: Groups) {
    forall addr, p | addr in groups && p in groups[addr] :: Payable(s, p, addr)
  }

  ghost predicate TaskOk(s: State, t: Task) {
    match t
    case MapInputs(addr, ins, n) => n <= |ins| && Owned(s, addr, ins) && AllKnown(s, ins[..n])
    case StoreInputs(addr, ins) => Owned(s, addr, ins) && AllKnown(s, ins)
    case Reserve(addr, ins) => Owned(s, addr, ins)
    case Swap(addr, ins) => Owned(s, addr, ins)
    case RecordSwap(addr, ins, outs) => AllSpent(s, ins) && Owned(s, addr, outs)
    case Park(ins) => forall p | p in ins :: p in s.owner
    case MapOutputs(addr, ins, outs, n) =>
      n <= |outs| && AllSpent(s, ins) && Owned(s, addr, outs) && AllKnown(s, outs[..n])
    case DropInputs(ins, outs) => AllSpent(s, ins) && AllKnown(s, outs)
    case FreeOutputs(outs) => AllKnown(s, outs)
    case MapLocked(addr, ins, n) => n <= |ins| && Owned(s, addr, ins) && AllKnown(s, ins[..n])
    case StoreLocked(ins) => AllKnown(s, ins)
  }

  ghost predicate RedeemerOk(s: State, r: Redeemer) {
    match r
    case Idle => true
    case Grouping(todo, groups) => AllKnown(s, todo) && GroupsOk(s, groups)
    case Paying(groups) => GroupsOk(s, groups)
    case RecordMelt(groups, addr, melted, change) =>
      GroupsOk(s, groups) && AllSpent(s, melted) && Owned(s, addr, change)
    case Settling(groups, addr, melted, change) =>
      GroupsOk(s, groups) && AllSpent(s, melted) && Owned(s, addr, change)
    case MapChange(groups, addr, change, n) =>
      n <= |change| && GroupsOk(s, groups) && Owned(s, addr, change) && AllKnown(s, change[..n])
    case Sweeping(todo) => AllSpent(s, todo)
    case SweepRows(batch, rest) => AllSpent(s, batch) && AllSpent(s, rest)
  }

  ghost predicate RowOk(s: State, p: Proof, st: RowState) {
    && p in s.owner
    && (st == Unspent ==> Known(s, p) || p in PendingChange(s.redeemer))
    && (st == Spent ==> p in s.spent)
  }

  ghost predicate RowsOk(s: State) {
    forall p | p in s.rows :: RowOk(s, p, s.rows[p])
  }

  ghost predicate MappingOk(s: State) {
    forall p | p in s.mapping :: p in s.owner && s.mapping[p] == s.owner[p]
  }

  ghost predicate PaymentOk(s: State, p: Proof, addr: Address) {
    p in s.owner && (addr == s.owner[p] || (p in s.lost && s.fallback == Some(addr)))
  }

  ghost predicate PaidOk(s: State) {
    && s.spent == s.swapped + s.paid.Keys
    && s.swapped !! s.paid.Keys
    && forall p | p in s.paid :: PaymentOk(s, p, s.paid[p])
  }

  ghost predicate TasksOk(s: State) {
    forall id | id in s.tasks :: TaskOk(s, s.tasks[id])
  }

  ghost predicate Inv(s: State) {
    RowsOk(s) && MappingOk(s) && PaidOk(s) && TasksOk(s) && RedeemerOk(s, s.redeemer)
  }

  /** What every event guarantees to everyone else. */
  ghost predicate Grows(s: State, s': State) {
    && s'.fallback == s.fallback
    && (forall p | p in s.owner :: p in s'.owner && s'.owner[p] == s.owner[p])
    && s.spent <= s'.spent
    && s.lost <= s'.lost
    && (forall p | p in s.mapping :: p in s'.mapping || p in s'.spent)
    && (forall p | p in s.paid :: p in s'.paid && s'.paid[p] == s.paid[p])
    && (forall p | p in s.rows :: p in s'.rows || p in s'.spent)
  }

  ghost predicate Leads(s: State, s': State) {
    Inv(s') && Grows(s, s')
  }

  lemma Then(s: State, s1: State, s2: State)
    requires Leads(s, s1) && Leads(s1, s2)
    ensures Leads(s, s2)
  {
  }

  lemma TaskStable(s: State, s': State, t: Task)
    requires Grows(s, s') && TaskOk(s, t)
    ensures TaskOk(s', t)
  {
  }

  lemma RedeemerStable(s: State, s': State, r: Redeemer)
    requires Grows(s, s') && RedeemerOk(s, r)
    ensures RedeemerOk(s', r)
  {
    if r.Grouping? || r.Paying? || r.RecordMelt? || r.Settling? || r.MapChange? {
      forall addr, p | addr in r.groups && p in r.groups[addr] ensures Payable(s', p, addr) {
        assert Payable(s, p, addr);
      }
    }
  }

  /** A write that touches neither rows nor places in a program. */
  lemma WriteKeeps(s: State, s': State)
    requires Inv(s) && Grows(s, s') && MappingOk(s') && PaidOk(s')
    requires s'.rows == s.rows && s'.tasks == s.tasks && s'.redeemer == s.redeemer
    ensures Leads(s, s')
  {
    forall id | id in s.tasks ensures TaskOk(s', s.tasks[id]) { TaskStable(s, s', s.tasks[id]); }
    RedeemerStable(s, s', s.redeemer);
    forall p | p in s.rows ensures RowOk(s', p, s.rows[p]) { assert RowOk(s, p, s.rows[p]); }
  }

  // ---------------------------------------------------------------- what each write needs

  lemma WritingMapping(s: State, p: Proof, addr: Address)
    requires Inv(s) && p in s.owner && s.owner[p] == addr
    ensures Leads(s, WriteMapping(s, p, addr))
  {
    WriteKeeps(s, WriteMapping(s, p, addr));
  }

  lemma DroppingMappings(s: State, ps: seq<Proof>)
    requires Inv(s) && AllSpent(s, ps)
    ensures Leads(s, DropMappings(s, ps))
  {
    WriteKeeps(s, DropMappings(s, ps));
  }

  lemma Owning(s: State, ps: seq<Proof>, addr: Address)
    requires Inv(s) && OnePresenter(s, addr, ps)
    ensures Leads(s, Own(s, ps, addr))
  {
    WriteKeeps(s, Own(s, ps, addr));
  }

  lemma Losing(s: State, ps: set<Proof>)
    requires Inv(s)
    ensures Leads(s, Lose(s, ps))
  {
    WriteKeeps(s, Lose(s, ps));
  }

  lemma SpendingBySwap(s: State, ps: seq<Proof>)
    requires Inv(s) && NoneSpent(s, ps)
    ensures Leads(s, SpendBySwap(s, ps))
  {
    WriteKeeps(s, SpendBySwap(s, ps));
  }

  lemma SpendingByMelt(s: State, ps: seq<Proof>, addr: Address)
    requires Inv(s) && NoneSpent(s, ps)
    requires forall p | p in ps :: PaymentOk(s, p, addr)
    ensures Leads(s, SpendByMelt(s, ps, addr))
  {
    assert Put(s.paid, ps, addr).Keys == s.paid.Keys + Elems(ps);
    WriteKeeps(s, SpendByMelt(s, ps, addr));
  }

  lemma SettingRows(s: State, ps: seq<Proof>, to: RowState)
    requires Inv(s) && forall p | p in ps :: RowOk(s, p, to)
    ensures Leads(s, SetRows(s, ps, to))
  {
    var s' := SetRows(s, ps, to);
    forall p | p in s'.rows ensures RowOk(s', p, s'.rows[p]) {
      if p !in ps { assert RowOk(s, p, s.rows[p]); } else { assert RowOk(s, p, to); }
    }
    forall id | id in s.tasks ensures TaskOk(s', s.tasks[id]) { TaskStable(s, s', s.tasks[id]); }
    RedeemerStable(s, s', s.redeemer);
  }

  lemma DroppingRows(s: State, ps: seq<Proof>)
    requires Inv(s) && AllSpent(s, ps)
    ensures Leads(s, DropRows(s, ps))
  {
    var s' := DropRows(s, ps);
    forall p | p in s'.rows ensures RowOk(s', p, s'.rows[p]) { assert RowOk(s, p, s.rows[p]); }
    forall id | id in s.tasks ensures TaskOk(s', s.tasks[id]) { TaskStable(s, s', s.tasks[id]); }
    RedeemerStable(s, s', s.redeemer);
  }

  lemma SettingTask(s: State, id: nat, t: Task)
    requires Inv(s) && TaskOk(s, t)
    ensures Leads(s, SetTask(s, id, t))
  {
    var s' := SetTask(s, id, t);
    forall p | p in s'.rows ensures RowOk(s', p, s'.rows[p]) { assert RowOk(s, p, s.rows[p]); }
    forall other | other in s'.tasks ensures TaskOk(s', s'.tasks[other]) { TaskStable(s, s', s'.tasks[other]); }
    RedeemerStable(s, s', s.redeemer);
  }

  lemma EndingTask(s: State, id: nat)
    requires Inv(s)
    ensures Leads(s, EndTask(s, id))
  {
    var s' := EndTask(s, id);
    forall p | p in s'.rows ensures RowOk(s', p, s'.rows[p]) { assert RowOk(s, p, s.rows[p]); }
    forall other | other in s'.tasks ensures TaskOk(s', s'.tasks[other]) { TaskStable(s, s', s'.tasks[other]); }
    RedeemerStable(s, s', s.redeemer);
  }

  /** The redeemer may move on if it leaves no change behind unmapped and uncounted. */
  lemma SettingRedeemer(s: State, r: Redeemer)
    requires Inv(s) && RedeemerOk(s, r)
    requires forall p | p in PendingChange(s.redeemer) :: p in PendingChange(r) || Known(s, p)
    ensures Leads(s, SetRedeemer(s, r))
  {
    var s' := SetRedeemer(s, r);
    forall p | p in s'.rows ensures RowOk(s', p, s'.rows[p]) { assert RowOk(s, p, s.rows[p]); }
    forall id | id in s.tasks ensures TaskOk(s', s.tasks[id]) { TaskStable(s, s', s.tasks[id]); }
    RedeemerStable(s, s', r);
  }

  // ---------------------------------------------------------------- each event keeps the invariant

  lemma SplitAt(ps: seq<Proof>, n: nat)
    requires n <= |ps|
    ensures forall p | p in ps :: p in ps[..n] || p in ps[n..]
    ensures n < |ps| ==> ps[..n + 1] == ps[..n] + [ps[n]] && ps[n..] == [ps[n]] + ps[n + 1..]
    ensures ps[..|ps|] == ps
  {
    assert ps == ps[..n] + ps[n..];
  }

  lemma BeginKeeps(s: State, id: nat, addr: Address, ins: seq<Proof>, t: Task)
    requires Inv(s) && (t == MapInputs(addr, ins, 0) || t == MapLocked(addr, ins, 0))
    ensures Leads(s, Begin(s, id, addr, ins, t))
  {
    if Begin(s, id, addr, ins, t) != s {
      var s1 := Own(s, ins, addr);
      Owning(s, ins, addr);
      SettingTask(s1, id, t);
      Then(s, s1, SetTask(s1, id, t));
    }
  }

  lemma WriteNextKeeps(s: State, id: nat, addr: Address, ps: seq<Proof>, n: nat, again: Task, done: Task)
    requires Inv(s) && n <= |ps| && Owned(s, addr, ps)
    requires n == |ps| ==> TaskOk(s, done)
    requires n < |ps| ==> TaskOk(WriteMapping(s, ps[n], addr), again)
    ensures Leads(s, WriteNext(s, id, addr, ps, n, again, done))
  {
    if addr == "" {
    } else if n == |ps| {
      SettingTask(s, id, done);
    } else {
      var s1 := WriteMapping(s, ps[n], addr);
      WritingMapping(s, ps[n], addr);
      SettingTask(s1, id, again);
      Then(s, s1, SetTask(s1, id, again));
    }
  }

  lemma StoreKeeps(s: State, ps: seq<Proof>, to: RowState, s': State, id: nat, t: Task)
    requires Inv(s) && forall p | p in ps :: RowOk(s, p, to)
    requires s' == EndTask(SetRows(s, ps, to), id) || (s' == SetTask(SetRows(s, ps, to), id, t) && TaskOk(s, t))
    ensures Leads(s, s')
  {
    var s1 := SetRows(s, ps, to);
    SettingRows(s, ps, to);
    if s' == EndTask(s1, id) { EndingTask(s1, id); } else { TaskStable(s, s1, t); SettingTask(s1, id, t); }
    Then(s, s1, s');
  }

  lemma DropKeeps(s: State, drop: bool, ins: seq<Proof>, id: nat, t: Task)
    requires Inv(s) && AllSpent(s, ins) && TaskOk(s, t)
    ensures Leads(s, SetTask(MaybeDrop(s, drop, ins), id, t))
  {
    var s1 := MaybeDrop(s, drop, ins);
    if drop { DroppingMappings(s, ins); }
    TaskStable(s, s1, t);
    SettingTask(s1, id, t);
    Then(s, s1, SetTask(s1, id, t));
  }

  lemma MapInputsKeeps(s: State, id: nat, t: Task)
    requires Inv(s) && TaskOk(s, t) && (t.MapInputs? || t.MapLocked?)
    ensures Leads(s, ProceedTask(s, id, t))
  {
    SplitAt(t.ins, t.done);
    var again := if t.MapInputs? then MapInputs(t.addr, t.ins, t.done + 1) else MapLocked(t.addr, t.ins, t.done + 1);
    WriteNextKeeps(s, id, t.addr, t.ins, t.done, again,
                   if t.MapInputs? then StoreInputs(t.addr, t.ins) else StoreLocked(t.ins));
  }

  lemma MapOutputsKeeps(s: State, id: nat, t: Task)
    requires Inv(s) && TaskOk(s, t) && t.MapOutputs?
    ensures Leads(s, ProceedTask(s, id, t))
  {
    SplitAt(t.outs, t.done);
    WriteNextKeeps(s, id, t.addr, t.outs, t.done,
                   MapOutputs(t.addr, t.ins, t.outs, t.done + 1), DropInputs(t.ins, t.outs));
  }

  lemma SwapStores(s: State, id: nat, addr: Address, ins: seq<Proof>, outs: seq<Proof>)
    requires Inv(s) && AllSpent(s, ins) && Owned(s, addr, outs)
    ensures Leads(s, SetTask(SetRows(SetRows(s, ins, Spent), outs, Reserved), id, MapOutputs(addr, ins, outs, 0)))
  {
    var s1 := SetRows(s, ins, Spent);
    var s' := SetTask(SetRows(s1, outs, Reserved), id, MapOutputs(addr, ins, outs, 0));
    SettingRows(s, ins, Spent);
    StoreKeeps(s1, outs, Reserved, s', id, MapOutputs(addr, ins, outs, 0));
    Then(s, s1, s');
  }

  lemma ProceedKeeps(s: State, id: nat, t: Task)
    requires Inv(s) && TaskOk(s, t)
    ensures Leads(s, ProceedTask(s, id, t))
  {
    match t
    case StoreInputs(addr, ins) => StoreKeeps(s, ins, Unspent, ProceedTask(s, id, t), id, Reserve(addr, ins));
    case Reserve(addr, ins) =>
      if AllListed(s, ins, Unspent) { StoreKeeps(s, ins, Reserved, ProceedTask(s, id, t), id, Swap(addr, ins)); }
    case RecordSwap(addr, ins, outs) => SwapStores(s, id, addr, ins, outs);
    case Park(ins) => StoreKeeps(s, ins, Pending, ProceedTask(s, id, t), id, t);
    case DropInputs(ins, outs) => DropKeeps(s, true, ins, id, FreeOutputs(outs));
    case FreeOutputs(outs) => StoreKeeps(s, outs, Unspent, ProceedTask(s, id, t), id, t);
    case StoreLocked(ins) => StoreKeeps(s, ins, Unspent, ProceedTask(s, id, t), id, t);
    case Swap(_, _) =>
    case MapOutputs(_, _, _, _) => MapOutputsKeeps(s, id, t);
    case _ => MapInputsKeeps(s, id, t);
  }

  lemma MaybeWriteKeeps(s: State, applied: bool, addr: Address, ps: seq<Proof>, n: nat)
    requires Inv(s) && Owned(s, addr, ps)
    ensures Leads(s, MaybeWrite(s, applied, addr, ps, n))
  {
    if applied && addr != "" && n < |ps| { WritingMapping(s, ps[n], addr); }
  }

  /** A failed run of writes: what is missing is counted lost, and with that every proof is known. */
  lemma LoseRestKeeps(s: State, applied: bool, addr: Address, ps: seq<Proof>, n: nat)
    requires Inv(s) && n <= |ps| && Owned(s, addr, ps) && AllKnown(s, ps[..n])
    ensures var s' := Lose(MaybeWrite(s, applied, addr, ps, n), Unwritten(ps, n));
            Leads(s, s') && AllKnown(s', ps)
  {
    var s1 := MaybeWrite(s, applied, addr, ps, n);
    MaybeWriteKeeps(s, applied, addr, ps, n);
    Losing(s1, Unwritten(ps, n));
    Then(s, s1, Lose(s1, Unwritten(ps, n)));
    SplitAt(ps, n);
  }

  lemma FailWriteKeeps(s: State, id: nat, t: Task, applied: bool)
    requires Inv(s) && TaskOk(s, t) && (t.MapInputs? || t.MapLocked? || t.MapOutputs?)
    ensures Leads(s, FailTask(s, id, t, applied))
  {
    var s' := FailTask(s, id, t, applied);
    match t
    case MapInputs(addr, ins, n) =>
      var s1 := MaybeWrite(s, applied, addr, ins, n);
      MaybeWriteKeeps(s, applied, addr, ins, n);
      EndingTask(s1, id);
      Then(s, s1, s');
    case MapOutputs(addr, ins, outs, n) =>
      var s1 := Lose(MaybeWrite(s, applied, addr, outs, n), Unwritten(outs, n));
      LoseRestKeeps(s, applied, addr, outs, n);
      SettingTask(s1, id, DropInputs(ins, outs));
      Then(s, s1, s');
    case MapLocked(addr, ins, n) =>
      var s1 := Lose(MaybeWrite(s, applied, addr, ins, n), Unwritten(ins, n));
      LoseRestKeeps(s, applied, addr, ins, n);
      SettingTask(s1, id, StoreLocked(ins));
      Then(s, s1, s');
  }

  lemma FailKeeps(s: State, id: nat, t: Task, applied: bool)
    requires Inv(s) && TaskOk(s, t)
    ensures Leads(s, FailTask(s, id, t, applied))
  {
    match t
    case Reserve(_, ins) => SettingTask(s, id, Park(ins));
    case Swap(_, ins) => SettingTask(s, id, Park(ins));
    case RecordSwap(_, ins, _) => SettingTask(s, id, Park(ins));
    case DropInputs(ins, outs) => DropKeeps(s, applied, ins, id, FreeOutputs(outs));
    case StoreInputs(_, _) => EndingTask(s, id);
    case Park(_) => EndingTask(s, id);
    case FreeOutputs(_) => EndingTask(s, id);
    case StoreLocked(_) => EndingTask(s, id);
    case _ => FailWriteKeeps(s, id, t, applied);
  }

  lemma SwapSpends(s: State, addr: Address, ins: seq<Proof>, outs: seq<Proof>)
    requires Inv(s) && NoneSpent(s, ins) && FreshProofs(s, outs)
    ensures Leads(s, Own(SpendBySwap(s, ins), outs, addr))
  {
    SpendingBySwap(s, ins);
    Owning(SpendBySwap(s, ins), outs, addr);
    Then(s, SpendBySwap(s, ins), Own(SpendBySwap(s, ins), outs, addr));
  }

  lemma SwapKeeps(s: State, id: nat, addr: Address, ins: seq<Proof>, outs: seq<Proof>, answered: bool)
    requires Inv(s) && Owned(s, addr, ins)
    ensures Leads(s, SwapAtMint(s, id, addr, ins, outs, answered))
  {
    if NoneSpent(s, ins) && FreshProofs(s, outs) {
      var s1 := Own(SpendBySwap(s, ins), outs, addr);
      SwapSpends(s, addr, ins, outs);
      SettingTask(s1, id, if answered then RecordSwap(addr, ins, outs) else Park(ins));
      Then(s, s1, SwapAtMint(s, id, addr, ins, outs, answered));
    }
  }

  lemma SwapTaskKeeps(s: State, id: nat, outs: seq<Proof>, answered: bool)
    requires Inv(s) && id in s.tasks && s.tasks[id].Swap?
    ensures Leads(s, SwapAtMint(s, id, s.tasks[id].addr, s.tasks[id].ins, outs, answered))
  {
    assert TaskOk(s, s.tasks[id]);
    SwapKeeps(s, id, s.tasks[id].addr, s.tasks[id].ins, outs, answered);
  }

  lemma SwapEventKeeps(s: State, e: Event)
    requires Inv(s) && (e.SwapOk? || e.SwapLost?)
    ensures Leads(s, NextRequest(s, e))
  {
    if e.id in s.tasks && s.tasks[e.id].Swap? { SwapTaskKeeps(s, e.id, e.outs, e.SwapOk?); }
  }

  lemma RequestKeeps(s: State, e: Event)
    requires Inv(s)
    ensures Leads(s, NextRequest(s, e))
  {
    match e
    case BeginReceive(id, route, ins) =>
      BeginKeeps(s, id, Destination(s, route), ins, MapInputs(Destination(s, route), ins, 0));
    case BeginLocked(id, route, ins) =>
      BeginKeeps(s, id, Destination(s, route), ins, MapLocked(Destination(s, route), ins, 0));
    case Proceed(id) => if id in s.tasks { ProceedKeeps(s, id, s.tasks[id]); }
    case Fail(id, applied) => if id in s.tasks { FailKeeps(s, id, s.tasks[id], applied); }
    case SwapOk(_, _) => SwapEventKeeps(s, e);
    case SwapLost(_, _) => SwapEventKeeps(s, e);
    case Crash(id) => EndingTask(s, id);
    case _ =>
  }

  /** A batch the mint accepts holds only proofs this address may be paid. */
  lemma BatchPayable(s: State, addr: Address, count: nat)
    requires Inv(s) && CanMelt(s, addr, count) && NoneSpent(s, s.redeemer.groups[addr][..count])
    ensures forall p | p in s.redeemer.groups[addr][..count] :: PaymentOk(s, p, addr)
  {
    forall p | p in s.redeemer.groups[addr][..count] ensures PaymentOk(s, p, addr) {
      assert p in s.redeemer.groups[addr] && Payable(s, p, addr);
    }
  }

  lemma GroupsLess(s: State, s': State, groups: Groups, addr: Address)
    requires Grows(s, s') && GroupsOk(s, groups)
    ensures GroupsOk(s', groups - {addr})
  {
    RedeemerStable(s, s', Paying(groups));
  }

  lemma MeltSpends(s: State, addr: Address, count: nat, change: seq<Proof>)
    requires Inv(s) && CanMelt(s, addr, count)
    requires NoneSpent(s, s.redeemer.groups[addr][..count]) && FreshProofs(s, change)
    ensures var batch := s.redeemer.groups[addr][..count];
            var s' := Own(SpendByMelt(s, batch, addr), change, addr);
            Leads(s, s') && AllSpent(s', batch)
  {
    var batch := s.redeemer.groups[addr][..count];
    BatchPayable(s, addr, count);
    SpendingByMelt(s, batch, addr);
    Owning(SpendByMelt(s, batch, addr), change, addr);
    Then(s, SpendByMelt(s, batch, addr), Own(SpendByMelt(s, batch, addr), change, addr));
  }

  lemma MeltKeeps(s: State, addr: Address, count: nat, change: seq<Proof>, answered: bool)
    requires Inv(s) && CanMelt(s, addr, count)
    ensures Leads(s, MeltAtMint(s, s.redeemer.groups, addr, s.redeemer.groups[addr][..count], change, answered))
  {
    var groups, batch := s.redeemer.groups, s.redeemer.groups[addr][..count];
    if NoneSpent(s, batch) && FreshProofs(s, change) {
      var s1 := Own(SpendByMelt(s, batch, addr), change, addr);
      MeltSpends(s, addr, count, change);
      GroupsLess(s, s1, groups, addr);
      SettingRedeemer(s1, if answered then RecordMelt(groups - {addr}, addr, batch, change)
                          else Paying(groups - {addr}));
      Then(s, s1, MeltAtMint(s, groups, addr, batch, change, answered));
    }
  }

  /** The wallet's side of an answered melt. */
  lemma RecordKeeps(s: State, groups: Groups, addr: Address, melted: seq<Proof>, change: seq<Proof>, ok: bool)
    requires Inv(s) && s.redeemer == RecordMelt(groups, addr, melted, change)
    ensures Leads(s, RecordNext(s, groups, addr, melted, change, ok))
  {
    if ok {
      var s1 := SetRedeemer(s, Settling(groups, addr, melted, change));
      SettingRedeemer(s, Settling(groups, addr, melted, change));
      var s2 := SetRows(s1, melted, Spent);
      SettingRows(s1, melted, Spent);
      Then(s, s1, s2);
      SettingRows(s2, change, Unspent);
      Then(s, s2, SetRows(s2, change, Unspent));
    } else {
      SettingRedeemer(s, Paying(groups));
    }
  }

  lemma MarkKeeps(s: State, addr: Address, count: nat, mark: RowState)
    requires Inv(s) && CanMelt(s, addr, count) && mark != Spent
    ensures Leads(s, SetRows(s, s.redeemer.groups[addr][..count], mark))
  {
    var groups, batch := s.redeemer.groups, s.redeemer.groups[addr][..count];
    forall p | p in batch ensures RowOk(s, p, mark) {
      assert p in groups[addr] && Payable(s, p, addr);
    }
    SettingRows(s, batch, mark);
  }

  lemma ChangeWritten(s: State, groups: Groups, addr: Address, change: seq<Proof>, n: nat)
    requires Inv(s) && s.redeemer == MapChange(groups, addr, change, n) && n < |change|
    ensures Leads(s, SetRedeemer(WriteMapping(s, change[n], addr), MapChange(groups, addr, change, n + 1)))
  {
    var s1 := WriteMapping(s, change[n], addr);
    SplitAt(change, n);
    WritingMapping(s, change[n], addr);
    RedeemerStable(s, s1, s.redeemer);
    SettingRedeemer(s1, MapChange(groups, addr, change, n + 1));
    Then(s, s1, SetRedeemer(s1, MapChange(groups, addr, change, n + 1)));
  }

  lemma ChangeLost(s: State, groups: Groups, addr: Address, change: seq<Proof>, n: nat, applied: bool)
    requires Inv(s) && s.redeemer == MapChange(groups, addr, change, n)
    ensures Leads(s, SetRedeemer(Lose(MaybeWrite(s, applied, addr, change, n), Unwritten(change, n)), Paying(groups)))
  {
    var s1 := Lose(MaybeWrite(s, applied, addr, change, n), Unwritten(change, n));
    LoseRestKeeps(s, applied, addr, change, n);
    RedeemerStable(s, s1, Paying(groups));
    SettingRedeemer(s1, Paying(groups));
    Then(s, s1, SetRedeemer(s1, Paying(groups)));
  }

  lemma MapChangeKeeps(s: State, groups: Groups, addr: Address, change: seq<Proof>, n: nat, ok: bool, applied: bool)
    requires Inv(s) && s.redeemer == MapChange(groups, addr, change, n)
    ensures Leads(s, MapNextChange(s, groups, addr, change, n, ok, applied))
  {
    if n == |change| {
      SettingRedeemer(s, Paying(groups));
    } else if ok && addr != "" {
      ChangeWritten(s, groups, addr, change, n);
    } else {
      ChangeLost(s, groups, addr, change, n, applied);
    }
  }

  lemma DropMeltedKeeps(s: State, groups: Groups, addr: Address, melted: seq<Proof>, change: seq<Proof>, drop: bool)
    requires Inv(s) && s.redeemer == Settling(groups, addr, melted, change)
    ensures Leads(s, DropMelted(s, groups, addr, melted, change, drop))
  {
    var s1 := MaybeDrop(s, drop, melted);
    if drop { DroppingMappings(s, melted); }
    SplitAt(change, 0);
    RedeemerStable(s, s1, s.redeemer);
    SettingRedeemer(s1, MapChange(groups, addr, change, 0));
    Then(s, s1, SetRedeemer(s1, MapChange(groups, addr, change, 0)));
  }

  lemma SweepKeysKeeps(s: State, todo: seq<Proof>, n: nat, ok: bool, applied: bool)
    requires Inv(s) && s.redeemer == Sweeping(todo) && n <= |todo|
    ensures Leads(s, SweepKeys(s, todo, n, ok, applied))
  {
    var s1 := MaybeDrop(s, ok || applied, todo[..n]);
    if ok || applied { DroppingMappings(s, todo[..n]); }
    SettingRedeemer(s1, if ok then SweepRows(todo[..n], todo[n..]) else Idle);
    Then(s, s1, SetRedeemer(s1, if ok then SweepRows(todo[..n], todo[n..]) else Idle));
  }

  lemma SweepRowsKeeps(s: State, batch: seq<Proof>, rest: seq<Proof>)
    requires Inv(s) && s.redeemer == SweepRows(batch, rest)
    ensures Leads(s, SetRedeemer(DropRows(s, batch), Sweeping(rest)))
  {
    DroppingRows(s, batch);
    SettingRedeemer(DropRows(s, batch), Sweeping(rest));
    Then(s, DropRows(s, batch), SetRedeemer(DropRows(s, batch), Sweeping(rest)));
  }

  lemma GroupingKeeps(s: State, ok: bool)
    requires Inv(s) && s.redeemer.Grouping?
    ensures Leads(s, SetRedeemer(s, GroupNext(s, s.redeemer.todo, s.redeemer.groups, ok)))
  {
    var Grouping(todo, groups) := s.redeemer;
    if todo != [] { assert Known(s, todo[0]); }
    SettingRedeemer(s, GroupNext(s, todo, groups, ok));
  }

  lemma ListingKeeps(s: State, listing: seq<Proof>)
    requires Inv(s) && s.redeemer.Idle?
    ensures AllListed(s, listing, Unspent) ==> Leads(s, SetRedeemer(s, Grouping(listing, map[])))
    ensures AllListed(s, listing, Spent) ==> Leads(s, SetRedeemer(s, Sweeping(listing)))
  {
    forall p | p in listing && p in s.rows ensures RowOk(s, p, s.rows[p]) { }
    if AllListed(s, listing, Unspent) { SettingRedeemer(s, Grouping(listing, map[])); }
    if AllListed(s, listing, Spent) { SettingRedeemer(s, Sweeping(listing)); }
  }

  lemma AbandonKeeps(s: State)
    requires Inv(s)
    ensures Leads(s, SetRedeemer(Lose(s, PendingChange(s.redeemer)), Idle))
  {
    var s1 := Lose(s, PendingChange(s.redeemer));
    Losing(s, PendingChange(s.redeemer));
    SettingRedeemer(s1, Idle);
    Then(s, s1, SetRedeemer(s1, Idle));
  }

  /** Start-up recovery: a proof it frees without a mapping is counted lost. */
  lemma RecoverKeeps(s: State, p: Proof)
    requires Inv(s) && p in s.owner
    ensures Leads(s, Recover(s, p))
  {
    var s1 := Lose(s, {p});
    Losing(s, {p});
    SettingRows(s1, [p], Unspent);
    Then(s, s1, Recover(s, p));
  }

  lemma RowsHaveOwners(s: State, p: Proof)
    requires Inv(s) && p in s.rows
    ensures p in s.owner
  {
    assert RowOk(s, p, s.rows[p]);
  }

  lemma FoundSpentKeeps(s: State, p: Proof, kept: bool)
    requires Inv(s) && p in s.rows && p in s.spent
    ensures Leads(s, if kept then SetRows(s, [p], Spent) else DropRows(s, [p]))
  {
    RowsHaveOwners(s, p);
    if kept { SettingRows(s, [p], Spent); } else { DroppingRows(s, [p]); }
  }

  lemma RecoveryKeeps(s: State, e: Event)
    requires Inv(s) && IsRecovery(e)
    ensures Leads(s, NextRecovery(s, e))
  {
    match e
    case Restore(p) => if p in s.owner { RecoverKeeps(s, p); }
    case Reconcile(p) =>
      if p in s.rows {
        RowsHaveOwners(s, p);
        RecoverKeeps(s, p);
      }
    case ReconcileSpent(p, kept) => if p in s.rows && p in s.spent { FoundSpentKeeps(s, p, kept); }
  }

  lemma SkipKeeps(s: State, addr: Address)
    requires Inv(s) && s.redeemer.Paying?
    ensures Leads(s, SetRedeemer(s, Paying(s.redeemer.groups - {addr})))
  {
    GroupsLess(s, s, s.redeemer.groups, addr);
    SettingRedeemer(s, Paying(s.redeemer.groups - {addr}));
  }

  lemma MeltEventKeeps(s: State, e: Event)
    requires Inv(s) && (e.MeltOk? || e.MeltLost?)
    ensures Leads(s, NextPaying(s, e))
  {
    if CanMelt(s, e.addr, e.count) { MeltKeeps(s, e.addr, e.count, e.change, e.MeltOk?); }
  }

  lemma PayingKeeps(s: State, e: Event)
    requires Inv(s) && IsPaying(e)
    ensures Leads(s, NextPaying(s, e))
  {
    match e
    case SkipGroup(addr) => if s.redeemer.Paying? { SkipKeeps(s, addr); }
    case MeltOk(_, _, _) => MeltEventKeeps(s, e);
    case MeltLost(_, _, _) => MeltEventKeeps(s, e);
    case MarkBatch(addr, count, mark) =>
      if CanMelt(s, addr, count) && mark != Spent { MarkKeeps(s, addr, count, mark); }
    case EndCycle => if s.redeemer.Paying? { SettingRedeemer(s, Idle); }
  }

  lemma SettleKeeps(s: State, ok: bool, applied: bool)
    requires Inv(s)
    ensures Leads(s, Settle(s, ok, applied))
  {
    match s.redeemer
    case RecordMelt(groups, addr, melted, change) => RecordKeeps(s, groups, addr, melted, change, ok);
    case Settling(groups, addr, melted, change) => DropMeltedKeeps(s, groups, addr, melted, change, ok || applied);
    case MapChange(groups, addr, change, n) => MapChangeKeeps(s, groups, addr, change, n, ok, applied);
    case _ =>
  }

  lemma SweepKeeps(s: State, ok: bool, applied: bool, count: nat)
    requires Inv(s)
    ensures Leads(s, SweepOnce(s, ok, applied, count))
  {
    match s.redeemer
    case Sweeping(todo) =>
      if todo == [] {
        SettingRedeemer(s, Idle);
      } else {
        SweepKeysKeeps(s, todo, if count <= |todo| then count else |todo|, ok, applied);
      }
    case SweepRows(batch, rest) => if ok { SweepRowsKeeps(s, batch, rest); } else { SettingRedeemer(s, Idle); }
    case _ =>
  }

  lemma ListKeeps(s: State, e: Event)
    requires Inv(s) && (e.Snapshot? || e.BeginSweep? || e.ReadMapping?)
    ensures Leads(s, NextCycle(s, e))
  {
    match e
    case Snapshot(listing) => if s.redeemer.Idle? { ListingKeeps(s, listing); }
    case BeginSweep(listing) => if s.redeemer.Idle? { ListingKeeps(s, listing); }
    case ReadMapping(ok) => if s.redeemer.Grouping? { GroupingKeeps(s, ok); }
  }

  lemma CycleKeeps(s: State, e: Event)
    requires Inv(s)
    ensures Leads(s, NextCycle(s, e))
  {
    if e.Snapshot? || e.BeginSweep? || e.ReadMapping? {
      ListKeeps(s, e);
    } else if e.SettleStep? {
      SettleKeeps(s, e.ok, e.applied);
    } else if e.SweepStep? {
      SweepKeeps(s, e.ok, e.applied, e.count);
    } else if e.RedeemerCrash? {
      AbandonKeeps(s);
    }
  }

  lemma NextKeeps(s: State, e: Event)
    requires Inv(s)
    ensures Leads(s, Next(s, e))
  {
    if IsRequest(e) {
      RequestKeeps(s, e);
    } else if IsPaying(e) {
      PayingKeeps(s, e);
    } else if IsRecovery(e) {
      RecoveryKeeps(s, e);
    } else {
      CycleKeeps(s, e);
    }
  }

  // ---------------------------------------------------------------- theorems over whole runs

  lemma {:induction false} RunKeeps(s: State, es: seq<Event>)
    requires Inv(s)
    ensures Inv(Run(s, es)) && Grows(s, Run(s, es))
    decreases |es|
  {
    if es != [] {
      NextKeeps(s, es[0]);
      RunKeeps(Next(s, es[0]), es[1..]);
    }
  }

  lemma {:induction false} RunAppend(s: State, es: seq<Event>, more: seq<Event>)
    ensures Run(s, es + more) == Run(Run(s, es), more)
    decreases |es|
  {
    if es == [] {
      assert es + more == more;
    } else {
      assert (es + more)[1..] == es[1..] + more;
      RunAppend(Next(s, es[0]), es[1..], more);
    }
  }

  /**
   In every interleaving, a melt pays each proof to its owner's address, or to the default address
   when the proof's mapping was lost; so no tenant is ever paid another tenant's proof, unless that
   tenant's address is the default one.
   */
  lemma EveryProofPaidToItsOwner(fallback: Option<Address>, es: seq<Event>, p: Proof)
    requires p in Run(Init(fallback), es).paid
    ensures var s := Run(Init(fallback), es);
            && p in s.owner
            && (s.paid[p] == s.owner[p] || (p in s.lost && fallback == Some(s.paid[p])))
  {
    RunKeeps(Init(fallback), es);
  }

  /** A payment is final, and what the mint has spent it has spent once: by a swap or by one melt. */
  lemma SpentOnce(fallback: Option<Address>, es: seq<Event>, more: seq<Event>)
    ensures var s, s' := Run(Init(fallback), es), Run(Init(fallback), es + more);
            && s.spent == s.swapped + s.paid.Keys && s.swapped !! s.paid.Keys
            && forall p | p in s.paid :: p in s'.paid && s'.paid[p] == s.paid[p]
  {
    RunAppend(Init(fallback), es, more);
    RunKeeps(Init(fallback), es);
    RunKeeps(Run(Init(fallback), es), more);
  }

  /** No row of a proof the mint still holds unspent ever leaves the wallet. */
  lemma UnspentRowsStay(fallback: Option<Address>, es: seq<Event>, more: seq<Event>, p: Proof)
    requires p in Run(Init(fallback), es).rows
    ensures var s' := Run(Init(fallback), es + more); p in s'.rows || p in s'.spent
  {
    RunAppend(Init(fallback), es, more);
    RunKeeps(Init(fallback), es);
    RunKeeps(Run(Init(fallback), es), more);
  }

  /**
   The race: redemption listed a proof, a request then swapped it and deleted its mapping, and the
   loop read "no mapping" and put the proof under the default address. Whatever melt that leads to,
   the mint refuses it.
   */
  lemma MisgroupedBatchIsNeverPaid(fallback: Option<Address>, es: seq<Event>, addr: Address, count: nat,
                                   change: seq<Proof>, p: Proof)
    requires CanMelt(Run(Init(fallback), es), addr, count)
    requires p in Run(Init(fallback), es).redeemer.groups[addr][..count]
    requires var s := Run(Init(fallback), es); p in s.owner && s.owner[p] != addr && p !in s.lost
    ensures var s := Run(Init(fallback), es);
            Next(s, MeltOk(addr, count, change)) == s && Next(s, MeltLost(addr, count, change)) == s
  {
    var s := Run(Init(fallback), es);
    RunKeeps(Init(fallback), es);
    if NoneSpent(s, s.redeemer.groups[addr][..count]) {
      BatchPayable(s, addr, count);
    }
  }

  /** Change belongs to whoever owned the proofs that were melted. */
  lemma ChangeFollowsItsInputs(fallback: Option<Address>, es: seq<Event>, addr: Address, count: nat, change: seq<Proof>)
    requires CanMelt(Run(Init(fallback), es), addr, count)
    ensures var s := Run(Init(fallback), es);
            var s' := Next(s, MeltOk(addr, count, change));
            s' != s ==>
              forall p, c | p in s.redeemer.groups[addr][..count] && p !in s.lost && c in change ::
                p in s.owner && s'.owner[c] == s.owner[p]
  {
    var s := Run(Init(fallback), es);
    RunKeeps(Init(fallback), es);
    if Next(s, MeltOk(addr, count, change)) != s { BatchPayable(s, addr, count); }
  }

  lemma BeginOwns(s: State, e: Event, addr: Address, p: Proof)
    requires e.BeginReceive? || e.BeginLocked?
    requires e.route == Some(addr) || (e.route.None? && s.fallback == Some(addr))
    requires Next(s, e) != s && p in e.ins
    ensures p in Next(s, e).owner && Next(s, e).owner[p] == addr
  {
  }

  /**
   A token presented at a location that names a tenant is that tenant's from then on, and whatever
   melt its proofs ever go into pays the tenant's address, or the default one when the mapping was lost.
   */
  lemma PaidToWhomItWasPresentedFor(fallback: Option<Address>, es: seq<Event>, e: Event, more: seq<Event>,
                                    addr: Address, p: Proof)
    requires e.BeginReceive? || e.BeginLocked?
    requires e.route == Some(addr) || (e.route.None? && fallback == Some(addr))
    requires p in e.ins
    requires Next(Run(Init(fallback), es), e) != Run(Init(fallback), es)
    ensures var s := Run(Init(fallback), es + ([e] + more));
            && p in s.owner && s.owner[p] == addr
            && (p in s.paid ==> s.paid[p] == addr || (p in s.lost && fallback == Some(s.paid[p])))
  {
    var s := Run(Init(fallback), es);
    RunKeeps(Init(fallback), es);
    BeginOwns(s, e, addr, p);
    NextKeeps(s, e);
    RunAppend(Init(fallback), es, [e] + more);
    assert ([e] + more)[1..] == more;
    RunKeeps(Next(s, e), more);
    RunKeeps(Init(fallback), es + ([e] + more));
  }

  /** What a swap makes belongs to whoever owned what it spent, whether or not the answer arrives. */
  lemma OutputsFollowTheirInputs(fallback: Option<Address>, es: seq<Event>, e: Event)
    requires e.SwapOk? || e.SwapLost?
    requires Next(Run(Init(fallback), es), e) != Run(Init(fallback), es)
    ensures var s := Run(Init(fallback), es);
            var s' := Next(s, e);
            && e.id in s.tasks && s.tasks[e.id].Swap?
            && forall p, c | p in s.tasks[e.id].ins && c in e.outs ::
                 p in s.owner && p in s'.spent && c in s'.owner && s'.owner[c] == s.owner[p]
  {
    var s := Run(Init(fallback), es);
    RunKeeps(Init(fallback), es);
    assert TaskOk(s, s.tasks[e.id]);
  }

  /** The failures after which a mapping may be missing: nothing else adds to `lost`. */
  predicate LosesAt(s: State, e: Event) {
    match e
    case Fail(id, _) => id in s.tasks && (s.tasks[id].MapOutputs? || s.tasks[id].MapLocked?)
    case SettleStep(ok, _) => s.redeemer.MapChange? && !ok
    case RedeemerCrash => PendingChange(s.redeemer) != {}
    case Restore(p) => p !in s.mapping
    case Reconcile(p) => p !in s.mapping
    case _ => false
  }

  /** Each of them, by where its request or the redeemer is. */
  lemma WhatLoses(s: State, e: Event)
    ensures LosesAt(s, e) <==>
              || (e.Fail? && e.id in s.tasks && (s.tasks[e.id].MapOutputs? || s.tasks[e.id].MapLocked?))
              || (e.SettleStep? && !e.ok && s.redeemer.MapChange?)
              || (e.RedeemerCrash? && s.redeemer.Settling? && s.redeemer.change != [])
              || (e.RedeemerCrash? && s.redeemer.MapChange? && s.redeemer.done < |s.redeemer.change|)
              || ((e.Restore? || e.Reconcile?) && e.p !in s.mapping)
  {
    var r := s.redeemer;
    if r.Settling? && r.change != [] { assert r.change[0] in Elems(r.change); }
    if r.MapChange? && r.done < |r.change| { assert r.change[r.done..][0] in Elems(r.change[r.done..]); }
  }

  predicate LosesNothing(s: State, es: seq<Event>)
    decreases |es|
  {
    es == [] || (!LosesAt(s, es[0]) && LosesNothing(Next(s, es[0]), es[1..]))
  }

  /** No event of the run, in the state it comes in, is one of them. */
  lemma {:induction false} LosesNothingIff(s: State, es: seq<Event>)
    ensures LosesNothing(s, es) <==> forall n | 0 <= n < |es| :: !LosesAt(Run(s, es[..n]), es[n])
    decreases |es|
  {
    if es != [] {
      LosesNothingIff(Next(s, es[0]), es[1..]);
      assert es[..0] == [];
      forall n | 0 < n < |es| ensures Run(s, es[..n]) == Run(Next(s, es[0]), es[1..][..n - 1]) {
        assert es[..n][1..] == es[1..][..n - 1];
      }
      assert forall n | 0 <= n < |es[1..]| :: es[1..][n] == es[n + 1];
      if !LosesNothing(Next(s, es[0]), es[1..]) {
        var n :| 0 <= n < |es[1..]| && LosesAt(Run(Next(s, es[0]), es[1..][..n]), es[1..][n]);
        assert LosesAt(Run(s, es[..n + 1]), es[n + 1]);
      }
    }
  }

  /** The grouping loop skips empty addresses, so no group is under one. */
  predicate NamedGroups(r: Redeemer) {
    match r
    case Grouping(_, groups) => "" !in groups
    case Paying(groups) => "" !in groups
    case RecordMelt(groups, addr, _, _) => "" !in groups && addr != ""
    case Settling(groups, addr, _, _) => "" !in groups && addr != ""
    case MapChange(groups, addr, _, _) => "" !in groups && addr != ""
    case _ => true
  }

  lemma ProceedLeavesRedeemer(s: State, id: nat, t: Task)
    ensures ProceedTask(s, id, t).redeemer == s.redeemer
  {
  }

  lemma FailLeavesRedeemer(s: State, id: nat, t: Task, applied: bool)
    ensures FailTask(s, id, t, applied).redeemer == s.redeemer
  {
  }

  lemma RequestsLeaveRedeemer(s: State, e: Event)
    requires IsRequest(e)
    ensures NextRequest(s, e).redeemer == s.redeemer
  {
    if e.Proceed? && e.id in s.tasks { ProceedLeavesRedeemer(s, e.id, s.tasks[e.id]); }
    if e.Fail? && e.id in s.tasks { FailLeavesRedeemer(s, e.id, s.tasks[e.id], e.applied); }
  }

  lemma PayingStaysNamed(s: State, e: Event)
    requires NamedGroups(s.redeemer)
    ensures NamedGroups(NextPaying(s, e).redeemer)
  {
  }

  lemma CycleStaysNamed(s: State, e: Event)
    requires NamedGroups(s.redeemer)
    ensures NamedGroups(NextCycle(s, e).redeemer)
  {
    if e.ReadMapping? && s.redeemer.Grouping? {
      assert NamedGroups(GroupNext(s, s.redeemer.todo, s.redeemer.groups, e.ok));
    }
  }

  lemma GroupsStayNamed(s: State, e: Event)
    requires NamedGroups(s.redeemer)
    ensures NamedGroups(Next(s, e).redeemer)
  {
    if IsRequest(e) {
      RequestsLeaveRedeemer(s, e);
    } else if IsPaying(e) {
      PayingStaysNamed(s, e);
    } else if !IsRecovery(e) {
      CycleStaysNamed(s, e);
    }
  }

  lemma ProceedLosesNothing(s: State, id: nat, t: Task)
    ensures ProceedTask(s, id, t).lost == s.lost
  {
  }

  lemma FailLosesNothing(s: State, id: nat, t: Task, applied: bool)
    requires !t.MapOutputs? && !t.MapLocked?
    ensures FailTask(s, id, t, applied).lost == s.lost
  {
  }

  lemma RequestLosesNothing(s: State, e: Event)
    requires !LosesAt(s, e) && IsRequest(e)
    ensures NextRequest(s, e).lost == s.lost
  {
    if e.Proceed? && e.id in s.tasks { ProceedLosesNothing(s, e.id, s.tasks[e.id]); }
    if e.Fail? && e.id in s.tasks { FailLosesNothing(s, e.id, s.tasks[e.id], e.applied); }
  }

  lemma PayingLosesNothing(s: State, e: Event)
    ensures NextPaying(s, e).lost == s.lost
  {
  }

  lemma ChangeTurnLosesNothing(s: State, groups: Groups, addr: Address, change: seq<Proof>, n: nat,
                               ok: bool, applied: bool)
    requires ok && addr != ""
    ensures MapNextChange(s, groups, addr, change, n, ok, applied).lost == s.lost
  {
  }

  lemma SettleLosesNothing(s: State, ok: bool, applied: bool)
    requires NamedGroups(s.redeemer) && !(s.redeemer.MapChange? && !ok)
    ensures Settle(s, ok, applied).lost == s.lost
  {
    match s.redeemer
    case MapChange(groups, addr, change, n) => ChangeTurnLosesNothing(s, groups, addr, change, n, ok, applied);
    case _ =>
  }

  lemma CycleLosesNothing(s: State, e: Event)
    requires NamedGroups(s.redeemer) && !LosesAt(s, e)
    ensures NextCycle(s, e).lost == s.lost
  {
    if e.SettleStep? { SettleLosesNothing(s, e.ok, e.applied); }
  }

  lemma NextLosesNothing(s: State, e: Event)
    requires s.lost == {} && NamedGroups(s.redeemer) && !LosesAt(s, e)
    ensures Next(s, e).lost == {}
  {
    if IsRequest(e) {
      RequestLosesNothing(s, e);
    } else if IsPaying(e) {
      PayingLosesNothing(s, e);
    } else if !IsRecovery(e) {
      CycleLosesNothing(s, e);
    }
  }

  lemma {:induction false} RunLosesNothing(s: State, es: seq<Event>)
    requires s.lost == {} && NamedGroups(s.redeemer) && LosesNothing(s, es)
    ensures Run(s, es).lost == {}
    decreases |es|
  {
    if es != [] {
      NextLosesNothing(s, es[0]);
      GroupsStayNamed(s, es[0]);
      RunLosesNothing(Next(s, es[0]), es[1..]);
    }
  }

  /** Crashed requests, failed stores, lost swaps and lost melts included: every tenant gets its own. */
  lemma RunsThatLoseNothingPayOwners(fallback: Option<Address>, es: seq<Event>, p: Proof)
    requires LosesNothing(Init(fallback), es)
    requires p in Run(Init(fallback), es).paid
    ensures var s := Run(Init(fallback), es); p in s.owner && s.paid[p] == s.owner[p]
  {
    RunLosesNothing(Init(fallback), es);
    EveryProofPaidToItsOwner(fallback, es, p);
  }

  lemma ChangeExposedIn(s: State, fallback: Address, c: Proof)
    requires Inv(s) && s.fallback == Some(fallback) && fallback != "" && s.redeemer.RecordMelt?
    requires c in s.redeemer.change && c !in s.mapping
    ensures var s' := Next(s, SettleStep(true, false));
            && c in s'.rows && s'.rows[c] == Unspent && c in s'.owner && s'.owner[c] == s.redeemer.addr
            && GroupNext(s', [c], map[], true) == Grouping([], map[fallback := [c]])
  {
    assert [c][1..] == [] && [] + [c] == [c];
  }

  /**
   Why redemption holds a lease: right after a melt its change is Unspent, another tenant's, and
   still unmapped, so a second redeemer grouping it then would put it under the default address.
   */
  lemma ChangeIsExposedUntilMapped(fallback: Address, es: seq<Event>, addr: Address, count: nat,
                                   change: seq<Proof>, c: Proof)
    requires CanMelt(Run(Init(Some(fallback)), es), addr, count) && fallback != ""
    requires c in change
    requires Next(Run(Init(Some(fallback)), es), MeltOk(addr, count, change)) != Run(Init(Some(fallback)), es)
    ensures var s' := Next(Next(Run(Init(Some(fallback)), es), MeltOk(addr, count, change)), SettleStep(true, false));
            && c in s'.rows && s'.rows[c] == Unspent && c in s'.owner && s'.owner[c] == addr
            && GroupNext(s', [c], map[], true) == Grouping([], map[fallback := [c]])
  {
    var s := Run(Init(Some(fallback)), es);
    RunKeeps(Init(Some(fallback)), es);
    var s1 := Next(s, MeltOk(addr, count, change));
    MeltKeeps(s, addr, count, change, true);
    assert c !in s.mapping && s1.mapping == s.mapping;
    ChangeExposedIn(s1, fallback, c);
  }
}
