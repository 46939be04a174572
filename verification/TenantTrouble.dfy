/**
 What each failure leaves behind in the ledger: a request that fails at any of its calls, a
 redemption cycle or a sweep cut short, a start-up that finds proofs in flight. In each case the
 whole state is given, so nothing else moves.
 */
module TenantTrouble {
  import opened Options
  import opened TenantLedger

  // ---------------------------------------------------------------- requests

  /** Who is turned away: a request under a number in use, or with a proof presented for somebody else. */
  lemma TurnedAway(s: State, e: Event, addr: Address, p: Proof)
    requires e.BeginReceive? || e.BeginLocked?
    requires e.route == Some(addr) || (e.route.None? && s.fallback == Some(addr))
    requires e.id in s.tasks || (p in e.ins && p in s.owner && s.owner[p] != addr)
    ensures Next(s, e) == s
  {
  }

  /** Before the swap a failure ends the request: proofs stored as Unspent stay, and a mapping may have been written. */
  lemma EarlyTroubleEndsTheRequest(s: State, id: nat, applied: bool)
    requires id in s.tasks && (s.tasks[id].MapInputs? || s.tasks[id].StoreInputs?)
    ensures var t := s.tasks[id];
            var written := t.MapInputs? && applied && t.addr != "" && t.done < |t.ins|;
            Next(s, Fail(id, applied))
              == s.(tasks := s.tasks - {id},
                    mapping := if written then s.mapping[t.ins[t.done] := t.addr] else s.mapping)
  {
  }

  /** With no address to map to, mapping cannot go on: the request can only fail. */
  lemma NoAddressNoMapping(s: State, id: nat)
    requires id in s.tasks && (s.tasks[id].MapInputs? || s.tasks[id].MapOutputs? || s.tasks[id].MapLocked?)
    requires s.tasks[id].addr == ""
    ensures Next(s, Proceed(id)) == s
  {
  }

  /** Only Unspent proofs can be reserved. */
  lemma OthersCannotBeReserved(s: State, id: nat, p: Proof)
    requires id in s.tasks && s.tasks[id].Reserve? && p in s.tasks[id].ins
    requires p !in s.rows || s.rows[p] != Unspent
    ensures Next(s, Proceed(id)) == s
  {
  }

  /** The mint swaps nothing when one of the inputs is spent, and no task but one that asks is swapped for. */
  lemma NoSwapOfSpentProofs(s: State, id: nat, outs: seq<Proof>, p: Proof)
    requires id !in s.tasks || !s.tasks[id].Swap? || (p in s.tasks[id].ins && p in s.spent)
    ensures Next(s, SwapOk(id, outs)) == s && Next(s, SwapLost(id, outs)) == s
  {
  }

  /** A swap that fails on our side leaves its inputs Pending, out of redemption's reach, and ends the request. */
  lemma FailedSwapParksItsInputs(s: State, id: nat, applied: bool)
    requires id in s.tasks && (s.tasks[id].Reserve? || s.tasks[id].Swap? || s.tasks[id].RecordSwap?)
    ensures Next(Next(s, Fail(id, applied)), Proceed(id))
         == s.(rows := Put(s.rows, s.tasks[id].ins, Pending), tasks := s.tasks - {id})
  {
    assert s.tasks[id := Park(s.tasks[id].ins)] - {id} == s.tasks - {id};
  }

  /** So does one whose answer is lost; the mint has spent the inputs, and the outputs are the tenant's. */
  lemma LostSwapParksItsInputs(s: State, id: nat, outs: seq<Proof>)
    requires id in s.tasks && s.tasks[id].Swap?
    requires (forall p | p in s.tasks[id].ins :: p !in s.spent) && forall p | p in outs :: p !in s.owner
    ensures var t := s.tasks[id];
            Next(Next(s, SwapLost(id, outs)), Proceed(id))
              == s.(rows := Put(s.rows, t.ins, Pending), tasks := s.tasks - {id},
                    spent := s.spent + Elems(t.ins), swapped := s.swapped + Elems(t.ins),
                    owner := Put(s.owner, outs, t.addr))
  {
    assert s.tasks[id := Park(s.tasks[id].ins)] - {id} == s.tasks - {id};
  }

  /** Parking can fail as well, and so can the last write of a request: the rows stay as they were. */
  lemma LastWriteFails(s: State, id: nat, applied: bool)
    requires id in s.tasks && (s.tasks[id].Park? || s.tasks[id].FreeOutputs? || s.tasks[id].StoreLocked?)
    ensures Next(s, Fail(id, applied)) == s.(tasks := s.tasks - {id})
  {
  }

  /** The mappings after a failed run of writes, and the proofs that are lost by it. */
  function Mapped(s: State, applied: bool, addr: Address, ps: seq<Proof>, n: nat): map<Proof, Address>
    requires n <= |ps|
  {
    if applied && addr != "" && n < |ps| then s.mapping[ps[n] := addr] else s.mapping
  }

  lemma MappedIs(s: State, applied: bool, addr: Address, ps: seq<Proof>, n: nat)
    requires n <= |ps|
    ensures var m := Mapped(s, applied, addr, ps, n);
            && s.mapping.Keys <= m.Keys
            && (forall p | p in m :: (p in s.mapping && m[p] == s.mapping[p])
                                     || (applied && n < |ps| && p == ps[n] && m[p] == addr))
            && (applied && addr != "" && n < |ps| ==> ps[n] in m && m[ps[n]] == addr)
  {
  }

  /** A swap's outputs that could not be mapped are lost, but are freed all the same, and the inputs unmapped. */
  lemma UnmappedOutputsAreFreed(s: State, id: nat, applied: bool)
    requires id in s.tasks && s.tasks[id].MapOutputs? && s.tasks[id].done <= |s.tasks[id].outs|
    ensures var t := s.tasks[id];
            var m := Mapped(s, applied, t.addr, t.outs, t.done);
            Next(Next(Next(s, Fail(id, applied)), Proceed(id)), Proceed(id))
              == s.(mapping := m - Elems(t.ins), lost := s.lost + (Elems(t.outs[t.done..]) - m.Keys),
                    rows := Put(s.rows, t.outs, Unspent), tasks := s.tasks - {id})
  {
    var t := s.tasks[id];
    assert s.tasks[id := DropInputs(t.ins, t.outs)][id := FreeOutputs(t.outs)] - {id} == s.tasks - {id};
  }

  /** P2PK proofs that could not be mapped are lost, but are stored all the same. */
  lemma UnmappedLockedProofsAreStored(s: State, id: nat, applied: bool)
    requires id in s.tasks && s.tasks[id].MapLocked? && s.tasks[id].done <= |s.tasks[id].ins|
    ensures var t := s.tasks[id];
            var m := Mapped(s, applied, t.addr, t.ins, t.done);
            Next(Next(s, Fail(id, applied)), Proceed(id))
              == s.(mapping := m, lost := s.lost + (Elems(t.ins[t.done..]) - m.Keys),
                    rows := Put(s.rows, t.ins, Unspent), tasks := s.tasks - {id})
  {
    assert s.tasks[id := StoreLocked(s.tasks[id].ins)] - {id} == s.tasks - {id};
  }

  /** Mappings of spent inputs that could not be deleted stay behind, and the outputs are freed. */
  lemma LeftoverMappingsDoNoHarm(s: State, id: nat, applied: bool)
    requires id in s.tasks && s.tasks[id].DropInputs?
    ensures var t := s.tasks[id];
            Next(Next(s, Fail(id, applied)), Proceed(id))
              == s.(mapping := if applied then s.mapping - Elems(t.ins) else s.mapping,
                    rows := Put(s.rows, t.outs, Unspent), tasks := s.tasks - {id})
  {
    assert s.tasks[id := FreeOutputs(s.tasks[id].outs)] - {id} == s.tasks - {id};
  }

  /** A request that dies leaves everything where it was, and an unknown request does nothing. */
  lemma DeadRequest(s: State, id: nat, applied: bool)
    ensures Next(s, Crash(id)) == s.(tasks := s.tasks - {id})
    ensures id !in s.tasks ==> Next(s, Proceed(id)) == s && Next(s, Fail(id, applied)) == s
  {
  }

  // ---------------------------------------------------------------- redemption

  /** A cycle starts when none runs, from a listing of Unspent proofs. */
  lemma CycleStarts(s: State, listing: seq<Proof>)
    ensures Next(s, Snapshot(listing))
         == if s.redeemer == Idle && forall p | p in listing :: p in s.rows && s.rows[p] == Unspent
            then s.(redeemer := Grouping(listing, map[])) else s
  {
  }

  /** A mapping that cannot be read, or no default address, ends the cycle before anything is paid. */
  lemma UnreadableMappingEndsTheCycle(s: State, ok: bool)
    requires s.redeemer.Grouping? && (s.fallback.None? || (!ok && s.redeemer.todo != []))
    ensures Next(s, ReadMapping(ok)) == s.(redeemer := Idle)
  {
  }

  /** A group that is passed over stays in the wallet as it is, and the others keep their turn. */
  lemma SkippedGroupWaits(s: State, addr: Address)
    requires s.redeemer.Paying?
    ensures Next(s, SkipGroup(addr)) == s.(redeemer := Paying(s.redeemer.groups - {addr}))
  {
  }

  /** Holding or letting go of a batch changes its rows only, and never to Spent. */
  lemma BatchIsMarked(s: State, addr: Address, count: nat, mark: RowState)
    requires s.redeemer.Paying? && addr in s.redeemer.groups && count <= |s.redeemer.groups[addr]|
    ensures Next(s, MarkBatch(addr, count, mark))
         == if mark == Spent then s else s.(rows := Put(s.rows, s.redeemer.groups[addr][..count], mark))
  {
  }

  /** A melt the mint refuses changes nothing, nor does one of a group that is not there or not that large. */
  lemma NoMeltOfSpentProofs(s: State, addr: Address, count: nat, change: seq<Proof>, p: Proof)
    requires
      || !s.redeemer.Paying? || addr !in s.redeemer.groups || count > |s.redeemer.groups[addr]|
      || (p in s.redeemer.groups[addr][..count] && p in s.spent)
    ensures Next(s, MeltOk(addr, count, change)) == s && Next(s, MeltLost(addr, count, change)) == s
  {
  }

  /** A melt whose answer is lost: the mint has paid, the wallet does not know, and the group is passed over. */
  lemma LostMelt(s: State, addr: Address, count: nat, change: seq<Proof>)
    requires s.redeemer.Paying? && addr in s.redeemer.groups && count <= |s.redeemer.groups[addr]|
    requires forall p | p in s.redeemer.groups[addr][..count] :: p !in s.spent
    requires forall p | p in change :: p !in s.owner
    ensures var batch := s.redeemer.groups[addr][..count];
            Next(s, MeltLost(addr, count, change))
              == s.(spent := s.spent + Elems(batch), paid := Put(s.paid, batch, addr),
                    owner := Put(s.owner, change, addr), redeemer := Paying(s.redeemer.groups - {addr}))
  {
  }

  /** A melt the wallet cannot write down looks like a failed one; the loop goes on with the next group. */
  lemma UnrecordedMelt(s: State, applied: bool)
    requires s.redeemer.RecordMelt?
    ensures Next(s, SettleStep(false, applied)) == s.(redeemer := Paying(s.redeemer.groups))
  {
  }

  /** Mappings of melted proofs that could not be deleted stay for the sweep; the change is mapped next. */
  lemma MeltedMappingsCanStay(s: State, applied: bool)
    requires s.redeemer.Settling?
    ensures var r := s.redeemer;
            Next(s, SettleStep(false, applied))
              == s.(mapping := if applied then s.mapping - Elems(r.melted) else s.mapping,
                    redeemer := MapChange(r.groups, r.addr, r.change, 0))
  {
  }

  /** Change that could not be mapped is lost, and the loop goes on. */
  lemma UnmappedChangeIsLost(s: State, applied: bool)
    requires s.redeemer.MapChange? && s.redeemer.done < |s.redeemer.change|
    ensures var r := s.redeemer;
            var m := Mapped(s, applied, r.addr, r.change, r.done);
            Next(s, SettleStep(false, applied))
              == s.(mapping := m, lost := s.lost + (Elems(r.change[r.done..]) - m.Keys), redeemer := Paying(r.groups))
  {
  }

  /** A cycle is over when every group has had its turn, and not before. */
  lemma CycleIsOver(s: State)
    ensures Next(s, EndCycle) == if s.redeemer == Paying(map[]) then s.(redeemer := Idle) else s
  {
  }

  /** A redeemer that dies loses the change it had not mapped yet, and nothing else. */
  lemma DeadRedeemer(s: State)
    ensures var r := s.redeemer;
            var unmapped := if r.Settling? then Elems(r.change)
                            else if r.MapChange? && r.done <= |r.change| then Elems(r.change[r.done..]) else {};
            Next(s, RedeemerCrash) == s.(redeemer := Idle, lost := s.lost + (unmapped - s.mapping.Keys))
  {
  }

  // ---------------------------------------------------------------- the sweep

  /** A sweep starts when no cycle runs, from a listing of Spent proofs. */
  lemma SweepStarts(s: State, listing: seq<Proof>)
    ensures Next(s, BeginSweep(listing))
         == if s.redeemer == Idle && forall p | p in listing :: p in s.rows && s.rows[p] == Spent
            then s.(redeemer := Sweeping(listing)) else s
  {
  }

  /** One batch of a sweep takes its mappings and then its rows, and leaves the rest to do. */
  lemma BatchIsSwept(s: State, count: nat, applied: bool, applied': bool, count': nat)
    requires s.redeemer.Sweeping? && s.redeemer.todo != []
    ensures var todo := s.redeemer.todo;
            var n := if count <= |todo| then count else |todo|;
            Next(Next(s, SweepStep(true, applied, count)), SweepStep(true, applied', count'))
              == s.(mapping := s.mapping - Elems(todo[..n]), rows := s.rows - Elems(todo[..n]),
                    redeemer := Sweeping(todo[n..]))
  {
  }

  /** A sweep that fails at the mappings keeps all rows, one that fails at the rows has lost only mappings. */
  lemma SweepStops(s: State, applied: bool, count: nat)
    ensures s.redeemer.Sweeping? && s.redeemer.todo != [] ==>
              var todo := s.redeemer.todo;
              var n := if count <= |todo| then count else |todo|;
              Next(s, SweepStep(false, applied, count))
                == s.(mapping := if applied then s.mapping - Elems(todo[..n]) else s.mapping, redeemer := Idle)
    ensures s.redeemer.SweepRows? ==> Next(s, SweepStep(false, applied, count)) == s.(redeemer := Idle)
    ensures s.redeemer == Sweeping([]) ==> forall ok :: Next(s, SweepStep(ok, applied, count)) == s.(redeemer := Idle)
  {
  }

  // ---------------------------------------------------------------- start-up

  /** A restored proof is spendable again, if it is one of ours and not in the wallet; without a mapping it is lost. */
  lemma ProofIsRestored(s: State, p: Proof)
    ensures Next(s, Restore(p))
         == if p in s.owner && p !in s.rows
            then s.(rows := s.rows[p := Unspent], lost := if p in s.mapping then s.lost else s.lost + {p}) else s
  {
    assert Put(s.rows, [p], Unspent) == s.rows[p := Unspent];
    assert {p} - s.mapping.Keys == if p in s.mapping then {} else {p};
  }

  /** A proof in flight that is still good becomes spendable again. */
  lemma ProofIsReconciled(s: State, p: Proof)
    ensures Next(s, Reconcile(p))
         == if p in s.rows && s.rows[p] != Unspent && s.rows[p] != Spent
            then s.(rows := s.rows[p := Unspent], lost := if p in s.mapping then s.lost else s.lost + {p}) else s
  {
    assert Put(s.rows, [p], Unspent) == s.rows[p := Unspent];
    assert {p} - s.mapping.Keys == if p in s.mapping then {} else {p};
  }

  /** A proof in flight that the mint has spent is deleted, or kept as Spent for the sweep. */
  lemma SpentProofIsReconciled(s: State, p: Proof, kept: bool)
    ensures Next(s, ReconcileSpent(p, kept))
         == if p in s.rows && s.rows[p] != Unspent && s.rows[p] != Spent && p in s.spent
            then s.(rows := if kept then s.rows[p := Spent] else s.rows - {p}) else s
  {
    assert Put(s.rows, [p], Spent) == s.rows[p := Spent];
    assert Elems([p]) == {p};
  }
}
