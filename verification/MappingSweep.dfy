/**
 The proof-to-address mappings in Redis and the wallet rows they belong to: writing mappings,
 keeping the rows of reconciled proofs, and the sweep that deletes mappings and then rows.

 A proof is known by its secret: the Redis key is an injective hash of it.
 */
module MappingSweep {
  import opened Commands
  import opened Options
  import opened Sequences

  type Secret = string
  type Saga = nat
  type Keys = map<Secret, string>      // mapping key of a proof -> tenant address

  datatype ProofState = Unspent | Reserved | Pending | PendingSpent | Spent

  datatype Row = Row(state: ProofState, usedBy: Option<Saga>)

  type Rows = map<Secret, Row>

  function Elements(s: seq<Secret>): set<Secret> {
    set x | x in s
  }

  lemma NextChunk(s: seq<Secret>, from: nat, to: nat)
    requires from <= to <= |s|
    ensures Elements(s[..to]) == Elements(s[..from]) + Elements(s[from..to])
  {
    assert s[..to] == s[..from] + s[from..to];
  }

  /** A saga still running may yet read the row. */
  predicate InUse(row: Row, running: set<Saga>) {
    row.usedBy.Some? && row.usedBy.value in running
  }

  /** What the database answers when asked for an operation's saga. */
  datatype SagaAnswer = NoSaga | SagaFound | SagaUnknown

  /** The row names an operation that has not been shown to be over. */
  predicate MayBeRead(row: Row, sagas: Saga -> SagaAnswer) {
    row.usedBy.Some? && sagas(row.usedBy.value) != NoSaga
  }

  /** A spent row that no running saga may still read. */
  predicate Sweepable(rows: Rows, running: set<Saga>, s: Secret) {
    s in rows && rows[s].state.Spent? && !InUse(rows[s], running)
  }

  function AllSweepable(rows: Rows, running: set<Saga>): set<Secret> {
    set s | s in rows && Sweepable(rows, running, s)
  }

  /** One SET after another. */
  function SetAll(keys: Keys, proofs: seq<Secret>, address: string): Keys {
    if proofs == [] then keys
    else
      var n := |proofs| - 1;
      SetAll(keys, proofs[..n], address)[proofs[n] := address]
  }

  /** Every proof written is mapped to the address, and no other mapping moves. */
  lemma {:induction false} SetAllMaps(keys: Keys, proofs: seq<Secret>, address: string, s: Secret)
    ensures var keys' := SetAll(keys, proofs, address);
            if s in proofs then s in keys' && keys'[s] == address
            else (s in keys' <==> s in keys) && (s in keys ==> keys'[s] == keys[s])
  {
    if proofs != [] {
      var n := |proofs| - 1;
      assert proofs == proofs[..n] + [proofs[n]];
      SetAllMaps(keys, proofs[..n], address, s);
    }
  }

  /** What one pass of the sweep can do: an order of the sweepable proofs, and how far each deletion got. */
  datatype Pass = Pass(todo: seq<Secret>, cleared: nat, removed: nat)

  datatype Stores = Stores(keys: Keys, rows: Rows)

  ghost predicate PassOf(p: Pass, s: Stores, running: set<Saga>) {
    Distinct(p.todo) && Elements(p.todo) == AllSweepable(s.rows, running) && p.removed <= p.cleared <= |p.todo|
  }

  function AfterPass(s: Stores, p: Pass): Stores
    requires p.removed <= |p.todo| && p.cleared <= |p.todo|
  {
    Stores(s.keys - Elements(p.todo[..p.cleared]), s.rows - Elements(p.todo[..p.removed]))
  }

  /** A pass in which nothing fails. */
  function CleanPass(s: Stores, running: set<Saga>): Stores {
    Stores(s.keys - AllSweepable(s.rows, running), s.rows - AllSweepable(s.rows, running))
  }

  lemma NothingDone(s: Stores)
    ensures AfterPass(s, Pass([], 0, 0)) == s
    ensures s.keys - {} == s.keys && s.rows - {} == s.rows
  {
  }

  /** A pass that went all the way is a clean pass. */
  lemma FullPassIsClean(s: Stores, p: Pass, running: set<Saga>)
    requires PassOf(p, s, running) && p.removed == |p.todo|
    ensures AfterPass(s, p) == CleanPass(s, running)
  {
    assert p.todo[..|p.todo|] == p.todo;
  }

  /** Whatever a pass does, it leaves unspent rows and those of running sagas, with their mappings. */
  lemma PassKeepsOthers(s: Stores, p: Pass, running: set<Saga>)
    requires PassOf(p, s, running)
    ensures var s' := AfterPass(s, p);
            forall x | x in s.rows && (!s.rows[x].state.Spent? || InUse(s.rows[x], running)) ::
              && x in s'.rows && s'.rows[x] == s.rows[x]
              && (x in s.keys ==> x in s'.keys && s'.keys[x] == s.keys[x])
  {
    assert p.todo[..p.removed] <= p.todo && p.todo[..p.cleared] <= p.todo;
    assert Elements(p.todo[..p.removed]) <= Elements(p.todo) && Elements(p.todo[..p.cleared]) <= Elements(p.todo);
  }

  /** A running saga finds its proofs' rows and mappings after any pass. */
  lemma RunningSagaKeepsItsProofs(s: Stores, p: Pass, running: set<Saga>, x: Secret, g: Saga)
    requires PassOf(p, s, running) && x in s.rows && s.rows[x].usedBy == Some(g) && g in running
    ensures var s' := AfterPass(s, p); x in s'.rows && (x in s.keys ==> x in s'.keys)
  {
    PassKeepsOthers(s, p, running);
  }

  const SWEEP_BATCH: nat := 500

  class Store {
    var keys: Keys
    var rows: Rows
    const configured: bool             // REDIS_URL is set
    const batch: nat

    constructor (configured: bool)
      ensures keys == map[] && rows == map[] && this.configured == configured && batch == SWEEP_BATCH
    {
      keys, rows, batch := map[], map[], SWEEP_BATCH;
      this.configured := configured;
    }

    /**
     set_proof_to_lnurl: one SET for each proof, stopping at the first that fails.
     `written` of them took effect.
     */
    method SetProofToLnurl(proofs: seq<Secret>, route: Option<string>, fallback: Option<string>,
                           reachable: bool, replies: seq<Fate>)
      returns (ok: bool, ghost written: nat)
      requires |replies| == |proofs|
      modifies this`keys
      ensures var address := route.GetOr(fallback.GetOr(""));
              && written <= |proofs|
              && keys == SetAll(old(keys), proofs[..written], address)
              && (ok <==> configured && reachable && address != ""
                          && forall i | 0 <= i < |replies| :: replies[i].Answered?)
              && (ok ==> written == |proofs|)
              && (!configured || !reachable || address == "" ==> written == 0)
    {
      ok, written := false, 0;
      if !configured {
        return;
      }
      var address := if route.Some? then route.value else fallback.GetOr("");
      if address == "" || !reachable {
        return;
      }
      for i := 0 to |proofs|
        invariant written == i && keys == SetAll(old(keys), proofs[..i], address)
        invariant forall j | 0 <= j < i :: replies[j].Answered?
      {
        assert proofs[..i + 1][..i] == proofs[..i];
        if !replies[i].NotSent? {
          keys := keys[proofs[i] := address];
          written := i + 1;
        }
        if !replies[i].Answered? {
          return;
        }
      }
      ok := true;
    }

    /** keep_reconciled_proofs_for_sweep: in-flight proofs that reconciliation deleted come back as Spent. */
    method KeepReconciled(inFlight: map<Secret, Row>, listed: bool, reply: Fate)
      modifies this`rows
      ensures rows == if listed && !reply.NotSent? then PutBack(old(rows), inFlight) else old(rows)
      ensures forall s | s in old(rows) :: s in rows && rows[s] == old(rows)[s]
      ensures listed && !reply.NotSent? ==>
                forall s | s in inFlight && s !in old(rows) :: s in rows && rows[s] == Row(Spent, inFlight[s].usedBy)
    {
      if inFlight == map[] || !listed {
        assert PutBack(rows, map[]) == rows;
        return;
      }
      var removed := map s | s in inFlight && s !in rows :: Row(Spent, inFlight[s].usedBy);
      if removed != map[] && !reply.NotSent? {
        rows := rows + removed;
      }
      assert PutBack(old(rows), inFlight) == old(rows) + removed;
    }

    /** delete_mapping_keys. */
    method DeleteMappingKeys(secrets: seq<Secret>, reply: Fate) returns (ok: bool)
      modifies this`keys
      ensures ok <==> secrets == [] || (configured && reply.Answered?)
      ensures keys == if configured && !reply.NotSent? then old(keys) - Elements(secrets) else old(keys)
    {
      if secrets == [] {
        assert keys - Elements([]) == keys;
        return true;
      }
      if !configured {
        return false;
      }
      if !reply.NotSent? {
        keys := keys - Elements(secrets);
      }
      return reply.Answered?;
    }

    /**
     sweep_spent_proof_mappings. `spent` is the listing of spent rows, `sagas` what the database says
     of each operation, and the replies are those of each batch's DEL and row deletion. The mappings
     of the first `cleared` sweepable proofs and the rows of the first `removed` are gone.
     */
    method Sweep(spent: Option<seq<Secret>>, sagas: Saga -> SagaAnswer, dels: nat -> Fate, deletes: nat -> Fate)
      returns (swept: nat, ghost running: set<Saga>, ghost todo: seq<Secret>, ghost cleared: nat, ghost removed: nat)
      requires batch > 0
      requires spent.Some? ==> Distinct(spent.value)
      requires spent.Some? ==> forall s :: s in spent.value <==> s in rows && rows[s].state.Spent?
      modifies this`keys, this`rows
      ensures swept <= removed && removed <= cleared <= |todo| && cleared <= removed + batch
      ensures StoresNow() == AfterPass(old(StoresNow()), Pass(todo, cleared, removed))
      ensures if configured && spent.Some? then PassOf(Pass(todo, cleared, removed), old(StoresNow()), running)
              else todo == []
      ensures (forall i :: !deletes(i).ReplyLost?) ==> swept == removed
      ensures configured && spent.Some? && (forall i :: dels(i).Answered? && deletes(i).Answered?) ==>
                swept == |todo| && StoresNow() == CleanPass(old(StoresNow()), running)
      ensures forall x | x in old(rows)
                         && (old(rows)[x].state != Spent
                             || (old(rows)[x].usedBy.Some? && sagas(old(rows)[x].usedBy.value) != NoSaga)) ::
                && x in rows && rows[x] == old(rows)[x]
                && (x in old(keys) ==> x in keys && keys[x] == old(keys)[x])
      ensures configured && spent.Some? && (forall i :: dels(i).Answered? && deletes(i).Answered?) ==>
                forall x | x in old(rows) && old(rows)[x].state == Spent
                           && (old(rows)[x].usedBy.None? || sagas(old(rows)[x].usedBy.value) == NoSaga) ::
                  x !in rows && x !in keys
    {
      swept, running, todo, cleared, removed := 0, {}, [], 0, 0;
      if !configured || spent.None? {
        NothingDone(StoresNow());
        return;
      }
      var tagged := Running(spent.value, sagas);
      running := tagged;
      var work := Unused(spent.value, tagged);
      todo := work;
      AllUnused(work, running);
      forall x | x in rows && rows[x].state.Spent? ensures InUse(rows[x], running) <==> MayBeRead(rows[x], sagas) {
        assert x in spent.value;
      }
      ghost var before := StoresNow();
      swept, cleared, removed := SweepBatches(work, dels, deletes);
      if removed == |todo| {
        FullPassIsClean(old(StoresNow()), Pass(todo, cleared, removed), running);
      }
      PassKeepsOthers(before, Pass(todo, cleared, removed), running);
    }

    /** The operations named by spent rows whose saga is there, or might be. */
    method Running(spent: seq<Secret>, sagas: Saga -> SagaAnswer) returns (running: set<Saga>)
      requires forall s | s in spent :: s in rows
      ensures forall g :: g in running <==>
                sagas(g) != NoSaga && exists s :: s in spent && rows[s].usedBy == Some(g)
    {
      running := {};
      for i := 0 to |spent|
        invariant forall g :: g in running <==>
                    sagas(g) != NoSaga && exists s :: s in spent[..i] && rows[s].usedBy == Some(g)
      {
        assert spent[..i + 1] == spent[..i] + [spent[i]];
        var tag := rows[spent[i]].usedBy;
        if tag.Some? && sagas(tag.value) != NoSaga {
          running := running + {tag.value};
        }
      }
      assert spent[..|spent|] == spent;
    }

    /** The loop over batches: keys first, then rows, stopping at the first failure. */
    method SweepBatches(work: seq<Secret>, dels: nat -> Fate, deletes: nat -> Fate)
      returns (swept: nat, ghost cleared: nat, ghost removed: nat)
      requires configured && batch > 0
      modifies this`keys, this`rows
      ensures swept <= removed && removed <= cleared <= |work| && cleared <= removed + batch
      ensures StoresNow() == AfterPass(old(StoresNow()), Pass(work, cleared, removed))
      ensures (forall i :: !deletes(i).ReplyLost?) ==> swept == removed
      ensures (forall i :: dels(i).Answered? && deletes(i).Answered?) ==> swept == |work|
    {
      swept, cleared, removed := 0, 0, 0;
      NothingDone(StoresNow());
      assert Elements(work[..0]) == {};
      var i := 0;
      while swept < |work|
        invariant swept == removed == cleared <= |work|
        invariant keys == old(keys) - Elements(work[..cleared]) && rows == old(rows) - Elements(work[..removed])
        decreases |work| - swept
      {
        var end := if |work| - swept < batch then |work| else swept + batch;
        var chunk := work[swept..end];
        NextChunk(work, swept, end);
        var ok := DeleteMappingKeys(chunk, dels(i));
        cleared := if dels(i).NotSent? then swept else end;
        if !ok {
          break;
        }
        if !deletes(i).NotSent? {
          rows := rows - Elements(chunk);
          removed := end;
        }
        if !deletes(i).Answered? {
          break;
        }
        swept := end;
        i := i + 1;
      }
    }

    ghost function StoresNow(): Stores
      reads this
    {
      Stores(keys, rows)
    }

    /** The spent rows that are not tagged with a running saga, in the order listed. */
    method Unused(spent: seq<Secret>, running: set<Saga>) returns (work: seq<Secret>)
      requires Distinct(spent) && forall s | s in spent :: s in rows
      ensures Distinct(work)
      ensures forall s :: s in work <==> s in spent && !(rows[s].usedBy.Some? && rows[s].usedBy.value in running)
    {
      work := [];
      for i := 0 to |spent|
        invariant Distinct(work)
        invariant forall s :: s in work <==> s in spent[..i] && !InUse(rows[s], running)
      {
        assert spent[..i + 1] == spent[..i] + [spent[i]];
        if !InUse(rows[spent[i]], running) {
          work := work + [spent[i]];
        }
      }
      assert spent[..|spent|] == spent;
    }

    lemma AllUnused(work: seq<Secret>, running: set<Saga>)
      requires forall s :: s in work <==> s in rows && rows[s].state.Spent? && !InUse(rows[s], running)
      ensures Elements(work) == AllSweepable(rows, running)
    {
    }
  }

  function PutBack(rows: Rows, inFlight: map<Secret, Row>): Rows {
    rows + (map s | s in inFlight && s !in rows :: Row(Spent, inFlight[s].usedBy))
  }

  // ---------------------------------------------------------------- what passes add up to

  /**
   A clean pass takes exactly the spent rows that carry no tag or the tag of a finished saga, and the
   mappings of the same proofs.
   */
  lemma CleanPassLeavesTheRest(s: Stores, running: set<Saga>)
    ensures var s' := CleanPass(s, running);
            && (forall x :: x in s.rows && x !in s'.rows <==>
                  && x in s.rows && s.rows[x].state == Spent
                  && (s.rows[x].usedBy.None? || s.rows[x].usedBy.value !in running))
            && (forall x | x in s'.rows :: x in s.rows && s'.rows[x] == s.rows[x])
            && (forall x :: x in s'.keys <==> x in s.keys && (x in s.rows ==> x in s'.rows))
            && (forall x | x in s'.keys :: s'.keys[x] == s.keys[x])
  {
  }

  /**
   However far a pass got, what it leaves is exactly what the next clean pass needs to finish the
   work; sagas that ran during the pass may have ended since.
   */
  lemma PartialPassIsFinishable(s: Stores, p: Pass, during: set<Saga>, running: set<Saga>)
    requires PassOf(p, s, during) && running <= during
    ensures CleanPass(AfterPass(s, p), running) == CleanPass(s, running)
  {
    var taken, freed := Elements(p.todo[..p.removed]), Elements(p.todo[..p.cleared]);
    var all := AllSweepable(s.rows, running);
    var s1 := AfterPass(s, p);
    assert taken <= freed <= all by {
      assert p.todo[..p.removed] <= p.todo[..p.cleared] <= p.todo;
      assert Elements(p.todo) == AllSweepable(s.rows, during) <= all;
    }
    assert AllSweepable(s1.rows, running) == all - taken;
    assert s.keys - freed - (all - taken) == s.keys - all;
    assert s.rows - taken - (all - taken) == s.rows - all;
  }

  /** A pass and the sagas that were running in its cycle. */
  datatype Attempt = Attempt(pass: Pass, running: set<Saga>)

  ghost predicate AttemptsOf(tries: seq<Attempt>, s: Stores)
    decreases |tries|
  {
    tries == [] || (PassOf(tries[0].pass, s, tries[0].running) && AttemptsOf(tries[1..], AfterPass(s, tries[0].pass)))
  }

  function AfterAttempts(s: Stores, tries: seq<Attempt>): Stores
    requires forall t | t in tries :: t.pass.removed <= |t.pass.todo| && t.pass.cleared <= |t.pass.todo|
    decreases |tries|
  {
    if tries == [] then s else AfterAttempts(AfterPass(s, tries[0].pass), tries[1..])
  }

  /** The stores after one more pass are the pass applied to the stores before it. */
  lemma {:induction false} AttemptsInOrder(s: Stores, tries: seq<Attempt>, last: Attempt)
    requires forall t | t in tries + [last] :: t.pass.removed <= |t.pass.todo| && t.pass.cleared <= |t.pass.todo|
    ensures forall t | t in tries :: t in tries + [last]
    ensures last in tries + [last]
    ensures AfterAttempts(s, []) == s
    ensures AfterAttempts(s, tries + [last]) == AfterPass(AfterAttempts(s, tries), last.pass)
    decreases |tries|
  {
    if tries == [] {
      assert [last][1..] == [] && tries + [last] == [last];
    } else {
      assert (tries + [last])[1..] == tries[1..] + [last];
      AttemptsInOrder(AfterPass(s, tries[0].pass), tries[1..], last);
    }
  }

  /**
   Any number of interrupted passes, sagas ending between them, and then a clean one come to the
   same as that clean pass alone.
   */
  lemma {:induction false} InterruptedPassesLoseNothing(s: Stores, tries: seq<Attempt>, running: set<Saga>)
    requires AttemptsOf(tries, s)
    requires forall t | t in tries :: running <= t.running
    requires forall t | t in tries :: t.pass.removed <= |t.pass.todo| && t.pass.cleared <= |t.pass.todo|
    ensures CleanPass(AfterAttempts(s, tries), running) == CleanPass(s, running)
    decreases |tries|
  {
    if tries != [] {
      PartialPassIsFinishable(s, tries[0].pass, tries[0].running, running);
      InterruptedPassesLoseNothing(AfterPass(s, tries[0].pass), tries[1..], running);
    }
  }

  /** No pass leaves a mapping behind whose row is gone. */
  lemma NoPassOrphansAMapping(s: Stores, p: Pass, running: set<Saga>)
    requires PassOf(p, s, running)
    ensures var s' := AfterPass(s, p); s'.keys.Keys - s'.rows.Keys <= s.keys.Keys - s.rows.Keys
  {
    assert p.todo[..p.removed] <= p.todo[..p.cleared];
  }

  /**
   Deleting rows ahead of their keys would: in any pass that did, every mapping left behind by its
   row stays for good, whatever passes follow.
   */
  lemma RowFirstOrphansTheMapping(s: Stores, p: Pass, running: set<Saga>, x: Secret)
    requires p.cleared <= p.removed <= |p.todo| && Distinct(p.todo)
    requires x in p.todo[p.cleared..p.removed] && x in s.keys
    ensures var s' := AfterPass(s, p);
            x in s'.keys && x !in s'.rows && x in CleanPass(s', running).keys
  {
    var i :| 0 <= i < |p.todo[p.cleared..p.removed]| && p.todo[p.cleared..p.removed][i] == x;
    assert p.todo[p.cleared + i] == x && p.todo[..p.removed][p.cleared + i] == x;
    assert forall j | 0 <= j < p.cleared :: p.todo[..p.cleared][j] == p.todo[j] != x;
  }

  /** A proof reconciliation deleted has its mapping swept all the same, because its row was put back. */
  lemma ReconciledProofsAreSwept(keys: Keys, rows: Rows, inFlight: map<Secret, Row>, running: set<Saga>, x: Secret)
    requires x in inFlight && x !in rows && (inFlight[x].usedBy.None? || inFlight[x].usedBy.value !in running)
    ensures var s := CleanPass(Stores(keys, PutBack(rows, inFlight)), running);
            x !in s.keys && x !in s.rows
    ensures x in keys ==> x in CleanPass(Stores(keys, rows), running).keys
  {
    assert Sweepable(PutBack(rows, inFlight), running, x);
  }
}
