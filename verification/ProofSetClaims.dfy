/**
 P2PK mode: one proof set, one admission.

 A verified P2PK token claims its proof-set key, stores the proofs, and on a failed store gives
 the key back. Nothing is swapped at the mint, so the claim is the only replay gate. `patience`
 bounds the time from claim to the last command a request sends; `ttl` is the marker lifetime.
 */
module ProofSetClaims {
  import opened Commands
  import opened Markers
  import opened Options

  datatype Config = Config(ttl: nat, patience: nat)

  datatype Request =
    | Storing(key: Key, since: nat)      // claim won, database write next
    | Releasing(key: Key, since: nat)    // write failed, DEL next

  /** One served token: which proof set, and when its claim was won. */
  datatype Admission = Admission(key: Key, since: nat)

  datatype State = State(
    now: nat,
    up: bool,
    markers: Space,
    requests: map<nat, Request>,
    admitted: seq<Admission>,             // history, and what the database holds
    stranded: set<Admission>)             // history: claims no one is left to honour or release

  datatype Event =
    | Tick
    | Outage
    | Recovery
    | Arrive(id: nat, key: Key, fate: Fate)   // every check passed; SET NX is sent
    | Store(id: nat, ok: bool)
    | GiveBack(id: nat, fate: Fate)
    | Crash(id: nat)

  const INIT := State(0, true, map[], map[], [], {})

  predicate OnTime(c: Config, s: State, r: Request) {
    s.now <= r.since + c.patience
  }

  function Next(c: Config, s: State, e: Event): State {
    match e
    case Tick => s.(now := s.now + 1)
    case Outage => s.(up := false)
    case Recovery => s.(up := true)
    case Arrive(id, key, fate) =>
      // Unreachable Redis, an expiry of zero or an existing marker: the token is refused.
      if id in s.requests || !s.up || fate.NotSent? || c.ttl == 0 || Live(s.markers, key, s.now) then s
      else
        var s1 := s.(markers := Claim(s.markers, key, s.now, Some(c.ttl)));
        if fate.Answered? then s1.(requests := s.requests[id := Storing(key, s.now)])
        else s1.(stranded := s.stranded + {Admission(key, s.now)})
    case Store(id, ok) =>
      if id !in s.requests || !s.requests[id].Storing? || !OnTime(c, s, s.requests[id]) then s
      else
        var r := s.requests[id];
        if ok then s.(requests := s.requests - {id}, admitted := s.admitted + [Admission(r.key, r.since)])
        else s.(requests := s.requests[id := Releasing(r.key, r.since)])
    case GiveBack(id, fate) =>
      if id !in s.requests || !s.requests[id].Releasing? || !OnTime(c, s, s.requests[id]) then s
      else
        var r := s.requests[id];
        var s1 := s.(requests := s.requests - {id});
        if s.up && !fate.NotSent? then s1.(markers := Release(s.markers, r.key))
        else s1.(stranded := s.stranded + {Admission(r.key, r.since)})
    case Crash(id) =>
      if id !in s.requests then s
      else
        var r := s.requests[id];
        s.(requests := s.requests - {id}, stranded := s.stranded + {Admission(r.key, r.since)})
  }

  function Run(c: Config, s: State, es: seq<Event>): State
    decreases |es|
  {
    if es == [] then s else Run(c, Next(c, s, es[0]), es[1..])
  }

  /** The world around: time, Redis, and requests that die holding a claim. */
  lemma Surroundings(c: Config, s: State, id: nat)
    ensures Next(c, s, Tick) == s.(now := s.now + 1)
    ensures Next(c, s, Outage) == s.(up := false) && Next(c, s, Recovery) == s.(up := true)
    ensures Next(c, s, Crash(id))
         == if id !in s.requests then s
            else s.(requests := s.requests - {id},
                    stranded := s.stranded + {Admission(s.requests[id].key, s.requests[id].since)})
  {
  }

  /**
   A claim wins exactly when Redis is up, is reached, accepts the expiry and has no live marker; if the
   answer is lost nobody holds it.
   */
  lemma ClaimDecides(c: Config, s: State, id: nat, key: Key, fate: Fate)
    ensures var s' := Next(c, s, Arrive(id, key, fate));
            if id in s.requests || !s.up || fate == NotSent || c.ttl == 0 || Live(s.markers, key, s.now) then s' == s
            else
              && s'.markers == s.markers[key := At(s.now + c.ttl)]
              && s'.requests == (if fate == Answered then s.requests[id := Storing(key, s.now)] else s.requests)
              && s'.stranded == (if fate == Answered then s.stranded else s.stranded + {Admission(key, s.now)})
              && s'.admitted == s.admitted && s'.now == s.now && s'.up == s.up
  {
  }

  /** The write in time either serves the token, keeping its marker, or leaves it to be given back. */
  lemma WriteDecides(c: Config, s: State, id: nat, ok: bool)
    requires id in s.requests && s.requests[id].Storing? && s.now <= s.requests[id].since + c.patience
    ensures var r := s.requests[id];
            Next(c, s, Store(id, ok))
              == if ok then s.(requests := s.requests - {id}, admitted := s.admitted + [Admission(r.key, r.since)])
                 else s.(requests := s.requests[id := Releasing(r.key, r.since)])
  {
  }

  /** Giving back in time removes the marker if Redis is reached; otherwise the claim stays with nobody. */
  lemma GivingBack(c: Config, s: State, id: nat, fate: Fate)
    requires id in s.requests && s.requests[id].Releasing? && s.now <= s.requests[id].since + c.patience
    ensures var r := s.requests[id];
            Next(c, s, GiveBack(id, fate))
              == if s.up && fate != NotSent then s.(requests := s.requests - {id}, markers := s.markers - {r.key})
                 else s.(requests := s.requests - {id}, stranded := s.stranded + {Admission(r.key, r.since)})
  {
  }

  /** Each command has its turn and its time. */
  lemma OutOfTurn(c: Config, s: State, id: nat, ok: bool, fate: Fate)
    ensures id !in s.requests || !s.requests[id].Storing? || s.now > s.requests[id].since + c.patience ==>
              Next(c, s, Store(id, ok)) == s
    ensures id !in s.requests || !s.requests[id].Releasing? || s.now > s.requests[id].since + c.patience ==>
              Next(c, s, GiveBack(id, fate)) == s
  {
  }

  /** Two admissions of one proof set are at least a marker lifetime apart. */
  predicate Apart(c: Config, s: State) {
    forall i, j | 0 <= i < j < |s.admitted| && s.admitted[i].key == s.admitted[j].key ::
      s.admitted[j].since >= s.admitted[i].since + c.ttl
  }

  // ---------------------------------------------------------------- requests that finish in time

  /** A request that can still act holds its key alone, and no admission of that key is still fresh. */
  ghost predicate HolderOk(c: Config, s: State, id: nat)
    requires id in s.requests
  {
    var r := s.requests[id];
    && r.since <= s.now
    && r.key in s.markers && s.markers[r.key] == At(r.since + c.ttl)
    && (forall other | other in s.requests && other != id && OnTime(c, s, s.requests[other]) ::
          s.requests[other].key != r.key)
    && (forall a | a in s.admitted && a.key == r.key :: a.since + c.ttl <= r.since)
  }

  /** An admitted proof set stays blocked for a lifetime. */
  ghost predicate AdmittedOk(c: Config, s: State) {
    forall a | a in s.admitted && s.now < a.since + c.ttl ::
      a.key in s.markers && s.markers[a.key] == At(a.since + c.ttl)
  }

  ghost predicate Inv(c: Config, s: State) {
    && (forall id | id in s.requests && OnTime(c, s, s.requests[id]) :: HolderOk(c, s, id))
    && AdmittedOk(c, s)
    && Apart(c, s)
  }

  lemma ArriveKeeps(c: Config, s: State, id: nat, key: Key, fate: Fate)
    requires c.patience < c.ttl && Inv(c, s)
    ensures Inv(c, Next(c, s, Arrive(id, key, fate)))
  {
    var s' := Next(c, s, Arrive(id, key, fate));
    if s' != s {
      forall other | other in s.requests && OnTime(c, s, s.requests[other]) ensures s.requests[other].key != key {
        assert HolderOk(c, s, other);
      }
      forall other | other in s'.requests && OnTime(c, s', s'.requests[other]) ensures HolderOk(c, s', other) {
        if other != id { assert HolderOk(c, s, other); }
      }
    }
  }

  lemma StoreKeeps(c: Config, s: State, id: nat, ok: bool)
    requires c.patience < c.ttl && Inv(c, s)
    ensures Inv(c, Next(c, s, Store(id, ok)))
  {
    var s' := Next(c, s, Store(id, ok));
    if s' != s {
      assert HolderOk(c, s, id);
      forall other | other in s'.requests && OnTime(c, s', s'.requests[other]) ensures HolderOk(c, s', other) {
        assert HolderOk(c, s, other);
      }
    }
  }

  lemma GiveBackKeeps(c: Config, s: State, id: nat, fate: Fate)
    requires c.patience < c.ttl && Inv(c, s)
    ensures Inv(c, Next(c, s, GiveBack(id, fate)))
  {
    var s' := Next(c, s, GiveBack(id, fate));
    if s' != s {
      assert HolderOk(c, s, id);
      forall other | other in s'.requests && OnTime(c, s', s'.requests[other]) ensures HolderOk(c, s', other) {
        assert HolderOk(c, s, other);
      }
    }
  }

  lemma NextKeeps(c: Config, s: State, e: Event)
    requires c.patience < c.ttl && Inv(c, s)
    ensures Inv(c, Next(c, s, e))
  {
    match e
    case Arrive(id, key, fate) => ArriveKeeps(c, s, id, key, fate);
    case Store(id, ok) => StoreKeeps(c, s, id, ok);
    case GiveBack(id, fate) => GiveBackKeeps(c, s, id, fate);
    case _ =>
      var s' := Next(c, s, e);
      forall other | other in s'.requests && OnTime(c, s', s'.requests[other]) ensures HolderOk(c, s', other) {
        assert HolderOk(c, s, other);
      }
  }

  lemma {:induction false} RunKeeps(c: Config, s: State, es: seq<Event>)
    requires c.patience < c.ttl && Inv(c, s)
    ensures Inv(c, Run(c, s, es))
    decreases |es|
  {
    if es != [] {
      NextKeeps(c, s, es[0]);
      RunKeeps(c, Next(c, s, es[0]), es[1..]);
    }
  }

  // ---------------------------------------------------------------- requests that do not

  function Ticks(n: nat): seq<Event> {
    seq(n, _ => Tick)
  }

  lemma {:induction false} RunAppend(c: Config, s: State, es: seq<Event>, more: seq<Event>)
    ensures Run(c, s, es + more) == Run(c, Run(c, s, es), more)
    decreases |es|
  {
    if es == [] {
      assert es + more == more;
    } else {
      assert (es + more)[1..] == es[1..] + more;
      RunAppend(c, Next(c, s, es[0]), es[1..], more);
    }
  }

  lemma {:induction false} TicksPass(c: Config, s: State, n: nat)
    ensures Run(c, s, Ticks(n)) == s.(now := s.now + n)
    decreases n
  {
    if n > 0 {
      assert Ticks(n)[1..] == Ticks(n - 1);
      TicksPass(c, Next(c, s, Tick), n - 1);
    }
  }

  /**
   The stolen release: a request holds its claim past the marker's lifetime, a second claims and
   stores, the first's write fails and its DEL removes the second's marker, a third gets in.
   */
  function StolenRelease(c: Config, key: Key): seq<Event> {
    [Arrive(1, key, Answered)] + (Ticks(c.ttl) + Theft(key))
  }

  function Theft(key: Key): seq<Event> {
    Overtake(key) + Steal(key)
  }

  function Overtake(key: Key): seq<Event> {
    [Arrive(2, key, Answered), Store(2, true), Store(1, false)]
  }

  function Steal(key: Key): seq<Event> {
    [GiveBack(1, Answered), Arrive(3, key, Answered), Store(3, true)]
  }

  lemma RunThree(c: Config, s: State, a: Event, b: Event, d: Event)
    ensures Run(c, s, [a, b, d]) == Next(c, Next(c, Next(c, s, a), b), d)
  {
    var s1 := Next(c, s, a);
    var s2 := Next(c, s1, b);
    assert [a, b, d][1..] == [b, d] && [b, d][1..] == [d] && [d][1..] == [];
    assert Run(c, s2, [d]) == Next(c, s2, d);
    assert Run(c, s1, [b, d]) == Next(c, s2, d);
  }

  lemma OvertakeAdmits(c: Config, s: State, key: Key)
    requires 0 < c.ttl <= c.patience && s.now == c.ttl && s.up
    requires s.requests == map[1 := Storing(key, 0)] && s.admitted == [] && s.markers == map[key := At(c.ttl)]
    ensures Run(c, s, Overtake(key))
         == s.(requests := map[1 := Releasing(key, 0)], admitted := [Admission(key, c.ttl)],
               markers := map[key := At(c.ttl + c.ttl)])
  {
    RunThree(c, s, Arrive(2, key, Answered), Store(2, true), Store(1, false));
  }

  lemma StealAdmits(c: Config, s: State, key: Key)
    requires 0 < c.ttl <= c.patience && s.now == c.ttl && s.up
    requires s.requests == map[1 := Releasing(key, 0)]
    ensures Run(c, s, Steal(key)).admitted == s.admitted + [Admission(key, c.ttl)]
  {
    RunThree(c, s, GiveBack(1, Answered), Arrive(3, key, Answered), Store(3, true));
  }

  lemma TheftAdmitsTwice(c: Config, s: State, key: Key)
    requires 0 < c.ttl <= c.patience && s.now == c.ttl && s.up
    requires s.requests == map[1 := Storing(key, 0)] && s.admitted == [] && s.markers == map[key := At(c.ttl)]
    ensures Run(c, s, Theft(key)).admitted == [Admission(key, c.ttl), Admission(key, c.ttl)]
  {
    RunAppend(c, s, Overtake(key), Steal(key));
    OvertakeAdmits(c, s, key);
    StealAdmits(c, Run(c, s, Overtake(key)), key);
  }

  lemma StolenReleaseAdmitsTwice(c: Config, key: Key)
    requires 0 < c.ttl <= c.patience
    ensures !Apart(c, Run(c, INIT, StolenRelease(c, key)))
  {
    var s1 := Next(c, INIT, Arrive(1, key, Answered));
    RunAppend(c, INIT, [Arrive(1, key, Answered)], Ticks(c.ttl) + Theft(key));
    assert [Arrive(1, key, Answered)][1..] == [];
    assert Run(c, INIT, [Arrive(1, key, Answered)]) == s1;
    RunAppend(c, s1, Ticks(c.ttl), Theft(key));
    TicksPass(c, s1, c.ttl);
    TheftAdmitsTwice(c, s1.(now := c.ttl), key);
    var twice := Run(c, INIT, StolenRelease(c, key)).admitted;
    assert twice[0].key == twice[1].key && twice[1].since < twice[0].since + c.ttl;
  }

  /** With an expiry of zero Redis refuses every claim, so nothing is ever admitted. */
  lemma {:induction false} ZeroTtlAdmitsNothing(c: Config, s: State, es: seq<Event>)
    requires c.ttl == 0 && s.requests == map[] && s.admitted == []
    ensures Run(c, s, es).admitted == []
    decreases |es|
  {
    if es != [] {
      ZeroTtlAdmitsNothing(c, Next(c, s, es[0]), es[1..]);
    }
  }

  /**
   Exactly when the claim is sound: over every run of any number of workers, outages, lost replies,
   failed writes, failed releases and crashes, one proof set is admitted at most once per marker
   lifetime if and only if a request's time from claim to last command is below that lifetime
   (or the lifetime is zero and P2PK admits nothing).
   */
  lemma OncePerLifetimeIff(c: Config)
    ensures c.patience < c.ttl || c.ttl == 0 <==> (forall es: seq<Event> :: Apart(c, Run(c, INIT, es)))
  {
    if c.ttl == 0 {
      forall es: seq<Event> ensures Apart(c, Run(c, INIT, es)) { ZeroTtlAdmitsNothing(c, INIT, es); }
    } else if c.patience < c.ttl {
      forall es: seq<Event> ensures Apart(c, Run(c, INIT, es)) { RunKeeps(c, INIT, es); }
    } else {
      StolenReleaseAdmitsTwice(c, "");
    }
  }

  /** The lifetime bound is tight: when the marker lapses the same proofs, unspent still, are admitted again. */
  lemma LapsedMarkerAdmitsAgain(c: Config, s: State, id: nat, a: Admission)
    requires c.ttl > 0 && s.up && id !in s.requests && a in s.admitted
    requires !Live(s.markers, a.key, s.now)
    ensures Next(c, Next(c, s, Arrive(id, a.key, Answered)), Store(id, true)).admitted
         == s.admitted + [Admission(a.key, s.now)]
  {
  }

  // ---------------------------------------------------------------- what every claim comes to

  /** Why a live marker stands: someone holds it, its proofs are stored, or it was left behind. */
  ghost predicate Accounted(c: Config, s: State, key: Key)
    requires key in s.markers
  {
    || (exists id :: id in s.requests && s.requests[id].key == key
                     && s.markers[key] == At(s.requests[id].since + c.ttl))
    || (exists a :: a in s.admitted && a.key == key && s.markers[key] == At(a.since + c.ttl))
    || (exists a :: a in s.stranded && a.key == key && s.markers[key] == At(a.since + c.ttl))
  }

  ghost predicate AllAccounted(c: Config, s: State) {
    forall key | key in s.markers :: Accounted(c, s, key)
  }

  /** A holder's claim stays accounted for: it is still held, or has been served, or left behind. */
  lemma HeldClaimAccounted(c: Config, s: State, e: Event, id: nat)
    requires id in s.requests
    ensures var s', r := Next(c, s, e), s.requests[id];
            || (id in s'.requests && s'.requests[id].key == r.key && s'.requests[id].since == r.since)
            || Admission(r.key, r.since) in s'.admitted
            || Admission(r.key, r.since) in s'.stranded
            || r.key !in s'.markers
  {
  }

  lemma OldClaimAccounted(c: Config, s: State, e: Event, key: Key)
    requires key in s.markers && Accounted(c, s, key)
    requires key in Next(c, s, e).markers && Next(c, s, e).markers[key] == s.markers[key]
    ensures Accounted(c, Next(c, s, e), key)
  {
    if id :| id in s.requests && s.requests[id].key == key && s.markers[key] == At(s.requests[id].since + c.ttl) {
      HeldClaimAccounted(c, s, e, id);
    }
  }

  lemma NextAccounts(c: Config, s: State, e: Event)
    requires AllAccounted(c, s)
    ensures AllAccounted(c, Next(c, s, e))
  {
    var s' := Next(c, s, e);
    forall key | key in s'.markers ensures Accounted(c, s', key) {
      if e.Arrive? && e.key == key && s' != s {
        if e.fate.Answered? {
          assert s'.requests[e.id] == Storing(key, s.now);
        } else {
          assert Admission(key, s.now) in s'.stranded;
        }
      } else {
        OldClaimAccounted(c, s, e, key);
      }
    }
  }

  /**
   Every claim still standing has a holder, stored proofs, or was left behind by a crash, a failed
   release or a reply that never came: a failed write alone never leaves a token stuck.
   */
  lemma {:induction false} EveryClaimAccounted(c: Config, s: State, es: seq<Event>)
    requires AllAccounted(c, s)
    ensures AllAccounted(c, Run(c, s, es))
    decreases |es|
  {
    if es != [] {
      NextAccounts(c, s, es[0]);
      EveryClaimAccounted(c, Next(c, s, es[0]), es[1..]);
    }
  }

  /** A failed write whose release works leaves the key free for the next request. */
  lemma ReleasedKeyIsClaimable(c: Config, s: State, id: nat, retry: nat)
    requires c.ttl > 0 && s.up && id in s.requests && s.requests[id].Storing? && OnTime(c, s, s.requests[id])
    requires retry !in s.requests
    ensures var key := s.requests[id].key;
            var s' := Next(c, Next(c, s, Store(id, false)), GiveBack(id, Answered));
            && s'.admitted == s.admitted && key !in s'.markers
            && Next(c, s', Arrive(retry, key, Answered)).requests == s'.requests[retry := Storing(key, s.now)]
  {
    var s1 := Next(c, s, Store(id, false));
    assert s1.requests[id] == Releasing(s.requests[id].key, s.requests[id].since);
  }

  /** Nobody wins a claim during an outage, so nothing claimed in it is ever stored. */
  lemma {:induction false} OutageClaimsNothing(c: Config, s: State, es: seq<Event>)
    requires !s.up && forall i | 0 <= i < |es| :: !es[i].Recovery?
    ensures var s' := Run(c, s, es);
            && s'.requests.Keys <= s.requests.Keys
            && s'.markers == s.markers
            && forall a | a in s'.admitted :: a in s.admitted
                 || exists id :: id in s.requests && s.requests[id].key == a.key && s.requests[id].since == a.since
    decreases |es|
  {
    if es != [] {
      var s1 := Next(c, s, es[0]);
      OutageClaimsNothing(c, s1, es[1..]);
      assert forall id | id in s1.requests ::
          && id in s.requests && s1.requests[id].key == s.requests[id].key
          && s1.requests[id].since == s.requests[id].since;
      forall a | a in Run(c, s, es).admitted && a !in s.admitted
        ensures exists id :: id in s.requests && s.requests[id].key == a.key && s.requests[id].since == a.since
      {
        if a !in s1.admitted {
          var id :| id in s1.requests && s1.requests[id].key == a.key && s1.requests[id].since == a.since;
          assert id in s.requests;
        }
      }
    }
  }
}
