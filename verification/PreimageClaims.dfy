/**
 Single use of a Lightning preimage across workers.

 A request reads its location's macaroon timeout, looks the preimage up, verifies the macaroon and
 claims the preimage with `SET NX`. These happen at different moments, and other workers, the
 clock, Redis outages and configuration reloads move between them. The macaroon expires by the
 timeout it was minted with; the marker's lifetime comes from the timeout of the request that sets
 it. `patience` is an assumed bound on the time from a request's arrival to its claim: the source
 sets none. Redis is configured and indefinite access is off.
 */
module PreimageClaims {
  import opened Commands
  import opened Markers

  /** `ttl` is L402_PREIMAGE_TTL_SECONDS. */
  datatype Config = Config(ttl: nat, patience: nat)

  /** The macaroon minted for a preimage: one invoice, one payment hash, one macaroon. */
  datatype Token = Token(mintedAt: nat, timeout: nat)

  /** A request and the timeout its location had when it came in. */
  datatype Request =
    | Looked(key: Key, arrived: nat, timeout: nat)      // is_preimage_used said no
    | Verified(key: Key, arrived: nat, timeout: nat)    // the macaroon was good

  datatype State = State(
    now: nat,
    up: bool,
    minted: map<Key, Token>,
    markers: Space,
    requests: map<nat, Request>,
    admitted: seq<Key>)                   // history

  datatype Event =
    | Tick
    | Outage
    | Recovery
    | Mint(key: Key, timeout: nat)
    | Arrive(id: nat, key: Key, timeout: nat, answered: bool)
    | Verify(id: nat)
    | Commit(id: nat, fate: Fate)
    | Drop(id: nat)

  const INIT := State(0, true, map[], map[], map[], [])

  /** A macaroon is accepted only before its ExpiresAt. */
  predicate Unexpired(t: Token, now: nat) {
    t.timeout == 0 || now < t.mintedAt + t.timeout
  }

  /** The atomic SET NX at the end of a request, as a Redis that is up or down answers it. */
  function AnswerClaim(s: State, key: Key, fate: Fate): ClaimResult {
    if !s.up || !fate.Answered? then Failed(Unavailable) else Claimed(!Live(s.markers, key, s.now))
  }

  function MarkersAfter(c: Config, s: State, key: Key, timeout: nat, fate: Fate): Space {
    if !s.up || fate.NotSent? then s.markers else Claim(s.markers, key, s.now, PreimageTtl(c.ttl, timeout))
  }

  /** A claim is sent for every verified request, within the assumed bound. */
  function CommitNext(c: Config, s: State, id: nat, fate: Fate): State {
    if id !in s.requests || !s.requests[id].Verified? then s
    else if s.now > s.requests[id].arrived + c.patience then s.(requests := s.requests - {id})
    else
      var key := s.requests[id].key;
      s.(markers := MarkersAfter(c, s, key, s.requests[id].timeout, fate),
         requests := s.requests - {id},
         admitted := if HandlePreimageClaim(AnswerClaim(s, key, fate)) == NGX_DECLINED
                     then s.admitted + [key] else s.admitted)
  }

  function Next(c: Config, s: State, e: Event): State {
    match e
    case Tick => s.(now := s.now + 1)
    case Outage => s.(up := false)
    case Recovery => s.(up := true)
    case Mint(key, timeout) =>
      if key in s.minted then s else s.(minted := s.minted[key := Token(s.now, timeout)])
    case Arrive(id, key, timeout, answered) =>
      // The look-up fails open: only a definite "exists" rejects.
      if id in s.requests || (s.up && answered && Live(s.markers, key, s.now)) then s
      else s.(requests := s.requests[id := Looked(key, s.now, timeout)])
    case Verify(id) =>
      if id !in s.requests || !s.requests[id].Looked? then s
      else
        var r := s.requests[id];
        if r.key in s.minted && Unexpired(s.minted[r.key], s.now)
        then s.(requests := s.requests[id := Verified(r.key, r.arrived, r.timeout)])
        else s.(requests := s.requests - {id})
    case Commit(id, fate) => CommitNext(c, s, id, fate)
    case Drop(id) => s.(requests := s.requests - {id})
  }

  function Run(c: Config, s: State, es: seq<Event>): State
    decreases |es|
  {
    if es == [] then s else Run(c, Next(c, s, es[0]), es[1..])
  }

  /** How often `key` has been let in. */
  function Admissions(s: State, key: Key): nat {
    multiset(s.admitted)[key]
  }

  /**
   What an operator can check beforehand, for a macaroon minted with one timeout and claimed under
   another: the marker is permanent, or both expire and it outlives the last claim the macaroon allows.
   */
  predicate MarkerOutlives(c: Config, minted: nat, claimed: nat) {
    claimed == 0 || (minted > 0 && PreimageTtl(c.ttl, claimed).value >= minted + c.patience)
  }

  /** The runs in which `key` is minted with one timeout and presented under the given ones. */
  predicate RunsWith(es: seq<Event>, key: Key, minted: nat, claimed: set<nat>) {
    forall i | 0 <= i < |es| ::
      && (es[i].Mint? && es[i].key == key ==> es[i].timeout == minted)
      && (es[i].Arrive? && es[i].key == key ==> es[i].timeout in claimed)
  }

  // ---------------------------------------------------------------- at most once

  /** The marker one admission leaves: permanent, or good for its claim's lifetime, from minting at the earliest. */
  ghost predicate MarkerOk(c: Config, s: State, key: Key, claimed: set<nat>) {
    && key in s.minted && key in s.markers
    && match s.markers[key]
       case Never => true
       case At(t) =>
         exists timeout | timeout in claimed ::
           timeout > 0 && t >= s.minted[key].mintedAt + PreimageTtl(c.ttl, timeout).value
  }

  ghost predicate RequestOk(s: State, r: Request, key: Key, claimed: set<nat>) {
    && r.arrived <= s.now
    && (r.key == key ==> r.timeout in claimed)
    && (r.key == key && r.Verified? ==> key in s.minted && Unexpired(s.minted[key], r.arrived))
  }

  ghost predicate Inv(c: Config, s: State, key: Key, claimed: set<nat>) {
    && (key in s.minted ==> s.minted[key].mintedAt <= s.now)
    && (forall id | id in s.requests :: RequestOk(s, s.requests[id], key, claimed))
    && Admissions(s, key) <= 1
    && (Admissions(s, key) == 1 ==> MarkerOk(c, s, key, claimed))
  }

  /** Whatever token the key has, or will have, its marker outlives it. */
  ghost predicate Safe(c: Config, s: State, key: Key, minted: nat, claimed: set<nat>) {
    && (forall timeout | timeout in claimed :: MarkerOutlives(c, minted, timeout))
    && (key in s.minted ==> s.minted[key].timeout == minted)
  }

  /** A token verified in time finds the marker of the admission before it. */
  lemma MarkerIsLive(c: Config, s: State, r: Request, minted: nat, claimed: set<nat>)
    requires Inv(c, s, r.key, claimed) && Safe(c, s, r.key, minted, claimed) && Admissions(s, r.key) == 1
    requires r.Verified? && RequestOk(s, r, r.key, claimed) && s.now <= r.arrived + c.patience
    ensures Live(s.markers, r.key, s.now)
  {
    if s.markers[r.key].At? {
      var timeout :| timeout in claimed && timeout > 0
                     && s.markers[r.key].time >= s.minted[r.key].mintedAt + PreimageTtl(c.ttl, timeout).value;
      assert MarkerOutlives(c, minted, timeout);
    }
  }

  lemma OwnCommitKeeps(c: Config, s: State, id: nat, fate: Fate, minted: nat, claimed: set<nat>)
    requires id in s.requests && s.requests[id].Verified? && s.now <= s.requests[id].arrived + c.patience
    requires Inv(c, s, s.requests[id].key, claimed) && Safe(c, s, s.requests[id].key, minted, claimed)
    ensures Inv(c, CommitNext(c, s, id, fate), s.requests[id].key, claimed)
  {
    var r := s.requests[id];
    assert RequestOk(s, r, r.key, claimed);
    if Admissions(s, r.key) == 1 {
      MarkerIsLive(c, s, r, minted, claimed);
    }
    var s' := CommitNext(c, s, id, fate);
    forall other | other in s'.requests ensures RequestOk(s', s'.requests[other], r.key, claimed) {
      assert RequestOk(s, s.requests[other], r.key, claimed);
    }
  }

  lemma OtherCommitKeeps(c: Config, s: State, id: nat, fate: Fate, key: Key, claimed: set<nat>)
    requires Inv(c, s, key, claimed)
    requires !(id in s.requests && s.requests[id].Verified? && s.requests[id].key == key
               && s.now <= s.requests[id].arrived + c.patience)
    ensures Inv(c, CommitNext(c, s, id, fate), key, claimed)
  {
    var s' := CommitNext(c, s, id, fate);
    forall other | other in s'.requests ensures RequestOk(s', s'.requests[other], key, claimed) {
      assert RequestOk(s, s.requests[other], key, claimed);
    }
  }

  lemma CommitKeeps(c: Config, s: State, id: nat, fate: Fate, key: Key, minted: nat, claimed: set<nat>)
    requires Inv(c, s, key, claimed) && Safe(c, s, key, minted, claimed)
    ensures Inv(c, CommitNext(c, s, id, fate), key, claimed)
  {
    if && id in s.requests && s.requests[id].Verified? && s.requests[id].key == key
       && s.now <= s.requests[id].arrived + c.patience {
      OwnCommitKeeps(c, s, id, fate, minted, claimed);
    } else {
      OtherCommitKeeps(c, s, id, fate, key, claimed);
    }
  }

  /** A step that leaves markers and admissions alone and only lets time pass or a macaroon be minted. */
  lemma QuietStepKeeps(c: Config, s: State, s': State, key: Key, claimed: set<nat>)
    requires Inv(c, s, key, claimed) && s'.markers == s.markers && s'.admitted == s.admitted && s.now <= s'.now
    requires forall k | k in s.minted :: k in s'.minted && s'.minted[k] == s.minted[k]
    requires key in s'.minted && key !in s.minted ==> s'.minted[key].mintedAt <= s'.now
    requires forall id | id in s'.requests :: RequestOk(s', s'.requests[id], key, claimed)
    ensures Inv(c, s', key, claimed)
  {
  }

  lemma VerifyKeeps(c: Config, s: State, id: nat, key: Key, claimed: set<nat>)
    requires Inv(c, s, key, claimed)
    ensures Inv(c, Next(c, s, Verify(id)), key, claimed)
  {
    var s' := Next(c, s, Verify(id));
    forall other | other in s'.requests ensures RequestOk(s', s'.requests[other], key, claimed) {
      assert RequestOk(s, s.requests[other], key, claimed);
    }
    QuietStepKeeps(c, s, s', key, claimed);
  }

  lemma ArriveKeeps(c: Config, s: State, id: nat, k: Key, timeout: nat, answered: bool, key: Key, claimed: set<nat>)
    requires Inv(c, s, key, claimed) && (k == key ==> timeout in claimed)
    ensures Inv(c, Next(c, s, Arrive(id, k, timeout, answered)), key, claimed)
  {
    var s' := Next(c, s, Arrive(id, k, timeout, answered));
    forall other | other in s'.requests ensures RequestOk(s', s'.requests[other], key, claimed) {
      if other in s.requests { assert RequestOk(s, s.requests[other], key, claimed); }
    }
    QuietStepKeeps(c, s, s', key, claimed);
  }

  lemma OtherStepKeeps(c: Config, s: State, e: Event, key: Key, claimed: set<nat>)
    requires Inv(c, s, key, claimed) && !e.Commit? && !e.Verify? && !e.Arrive?
    ensures Inv(c, Next(c, s, e), key, claimed)
  {
    var s' := Next(c, s, e);
    forall id | id in s'.requests ensures RequestOk(s', s'.requests[id], key, claimed) {
      assert RequestOk(s, s.requests[id], key, claimed);
    }
    QuietStepKeeps(c, s, s', key, claimed);
  }

  lemma NextKeeps(c: Config, s: State, e: Event, key: Key, minted: nat, claimed: set<nat>)
    requires Inv(c, s, key, claimed) && Safe(c, s, key, minted, claimed) && RunsWith([e], key, minted, claimed)
    ensures Inv(c, Next(c, s, e), key, claimed) && Safe(c, Next(c, s, e), key, minted, claimed)
  {
    assert [e][0] == e;
    if e.Commit? {
      CommitKeeps(c, s, e.id, e.fate, key, minted, claimed);
    } else if e.Verify? {
      VerifyKeeps(c, s, e.id, key, claimed);
    } else if e.Arrive? {
      ArriveKeeps(c, s, e.id, e.key, e.timeout, e.answered, key, claimed);
    } else {
      OtherStepKeeps(c, s, e, key, claimed);
    }
  }

  lemma {:induction false} RunKeeps(c: Config, s: State, es: seq<Event>, key: Key, minted: nat, claimed: set<nat>)
    requires Inv(c, s, key, claimed) && Safe(c, s, key, minted, claimed) && RunsWith(es, key, minted, claimed)
    ensures Inv(c, Run(c, s, es), key, claimed)
    decreases |es|
  {
    if es != [] {
      NextKeeps(c, s, es[0], key, minted, claimed);
      RunKeeps(c, Next(c, s, es[0]), es[1..], key, minted, claimed);
    }
  }

  // ---------------------------------------------------------------- when it is not

  lemma {:induction false} RunAppend(c: Config, s: State, es: seq<Event>, more: seq<Event>)
    ensures Run(c, s, es + more) == Run(c, Run(c, s, es), more)
    decreases |es|
  {
    if es == [] {
      assert es + more == more;
    } else {
      assert (es + more)[1..] == es[1..] + more;
      RunAppend(c, Next(c, s, es[0]), es[1..], more);
    }
  }

  function Ticks(n: nat): seq<Event> {
    seq(n, _ => Tick)
  }

  lemma {:induction false} TicksPass(c: Config, s: State, n: nat)
    ensures Run(c, s, Ticks(n)) == s.(now := s.now + n)
    decreases n
  {
    if n > 0 {
      assert Ticks(n)[1..] == Ticks(n - 1);
      TicksPass(c, Next(c, s, Tick), n - 1);
    }
  }

  lemma RunThree(c: Config, s: State, a: Event, b: Event, d: Event)
    ensures Run(c, s, [a, b, d]) == Next(c, Next(c, Next(c, s, a), b), d)
  {
    var s1 := Next(c, s, a);
    var s2 := Next(c, s1, b);
    assert [a, b, d][1..] == [b, d] && [b, d][1..] == [d] && [d][1..] == [];
    assert Run(c, s2, [d]) == Next(c, s2, d);
    assert Run(c, s1, [b, d]) == Next(c, s2, d);
  }

  /** A request nothing delays. */
  function WholeRequest(id: nat, key: Key, timeout: nat, answered: bool): seq<Event> {
    [Arrive(id, key, timeout, answered), Verify(id), Commit(id, Answered)]
  }

  /** A good macaroon with an unused preimage is let in, and its marker is set. */
  lemma FirstUseIsAdmitted(c: Config, s: State, id: nat, key: Key, timeout: nat)
    requires s.up && id !in s.requests && !Live(s.markers, key, s.now)
    requires key in s.minted && Unexpired(s.minted[key], s.now)
    ensures Run(c, s, WholeRequest(id, key, timeout, true))
         == s.(admitted := s.admitted + [key],
               markers := s.markers[key := ExpiryOf(s.now, PreimageTtl(c.ttl, timeout))])
  {
    RunThree(c, s, Arrive(id, key, timeout, true), Verify(id), Commit(id, Answered));
    assert s.requests[id := Looked(key, s.now, timeout)][id := Verified(key, s.now, timeout)] - {id} == s.requests;
  }

  /** The world around: time, Redis, requests that die, and an invoice that is minted once. */
  lemma Surroundings(c: Config, s: State, id: nat, key: Key, timeout: nat)
    ensures Next(c, s, Tick) == s.(now := s.now + 1)
    ensures Next(c, s, Outage) == s.(up := false) && Next(c, s, Recovery) == s.(up := true)
    ensures Next(c, s, Drop(id)) == s.(requests := s.requests - {id})
    ensures Next(c, s, Mint(key, timeout))
         == if key in s.minted then s else s.(minted := s.minted[key := Token(s.now, timeout)])
  {
  }

  /** The look-up turns a known preimage away and lets everything else on, also when Redis does not answer. */
  lemma LookUpFailsOpen(c: Config, s: State, id: nat, key: Key, timeout: nat, answered: bool)
    ensures Next(c, s, Arrive(id, key, timeout, answered))
         == if id in s.requests || (s.up && answered && Live(s.markers, key, s.now)) then s
            else s.(requests := s.requests[id := Looked(key, s.now, timeout)])
  {
  }

  /** A macaroon that was never minted, or has expired, ends its request. */
  lemma BadMacaroonIsRefused(c: Config, s: State, id: nat)
    requires id in s.requests && s.requests[id].Looked?
    requires var key := s.requests[id].key;
             key !in s.minted || (s.minted[key].timeout > 0 && s.now >= s.minted[key].mintedAt + s.minted[key].timeout)
    ensures Next(c, s, Verify(id)) == s.(requests := s.requests - {id})
  {
  }

  /** Each call has its turn: verifying what was not looked up, or claiming what was not verified, does nothing. */
  lemma OutOfTurn(c: Config, s: State, id: nat, fate: Fate)
    ensures id !in s.requests || !s.requests[id].Looked? ==> Next(c, s, Verify(id)) == s
    ensures id !in s.requests || !s.requests[id].Verified? ==> Next(c, s, Commit(id, fate)) == s
  {
  }

  /**
   A claim in time, whatever becomes of it: the marker is set if Redis is reached and has none, also
   when its reply is lost; the preimage is let in only on the answer that it was the first.
   */
  lemma ClaimDecides(c: Config, s: State, id: nat, fate: Fate)
    requires id in s.requests && s.requests[id].Verified? && s.now <= s.requests[id].arrived + c.patience
    ensures var r := s.requests[id];
            var s' := Next(c, s, Commit(id, fate));
            var first := s.up && !Live(s.markers, r.key, s.now);
            && s'.requests == s.requests - {id} && s'.now == s.now && s'.up == s.up && s'.minted == s.minted
            && s'.admitted == (if first && fate == Answered then s.admitted + [r.key] else s.admitted)
            && s'.markers == if !first || fate == NotSent then s.markers
                             else if r.timeout == 0 then s.markers[r.key := Never]
                             else s.markers[r.key := At(s.now + if c.ttl < r.timeout then r.timeout else c.ttl)]
  {
  }

  /** Outside the assumed bound the request is taken to be gone. */
  lemma TooLate(c: Config, s: State, id: nat, fate: Fate)
    requires id in s.requests && s.requests[id].Verified? && s.now > s.requests[id].arrived + c.patience
    ensures Next(c, s, Commit(id, fate)) == s.(requests := s.requests - {id})
  {
  }

  /** What a claim is answered: 401 for a replay, 503 when Redis gives no answer, and otherwise passed on. */
  lemma StatusOfClaim(s: State, key: Key, fate: Fate)
    ensures var status := HandlePreimageClaim(AnswerClaim(s, key, fate));
            && (status == 503 <==> !s.up || fate != Answered)
            && (status == 401 <==> s.up && fate == Answered && Live(s.markers, key, s.now))
            && (status == NGX_DECLINED <==> s.up && fate == Answered && !Live(s.markers, key, s.now))
  {
  }

  /** While the marker lives a replay is refused, even when the look-up got no answer. */
  lemma ReplayIsRefused(c: Config, s: State, id: nat, key: Key, timeout: nat, answered: bool)
    requires s.up && id !in s.requests && Live(s.markers, key, s.now)
    ensures Run(c, s, WholeRequest(id, key, timeout, answered)) == s
  {
    RunThree(c, s, Arrive(id, key, timeout, answered), Verify(id), Commit(id, Answered));
    if !answered {
      assert s.requests[id := Looked(key, s.now, timeout)] - {id} == s.requests;
      assert s.requests[id := Looked(key, s.now, timeout)][id := Verified(key, s.now, timeout)] - {id} == s.requests;
    }
  }

  function FirstUse(key: Key, minted: nat, timeout: nat): seq<Event> {
    [Mint(key, minted)] + WholeRequest(1, key, timeout, true)
  }

  /** The first request claims the moment the macaroon is minted. */
  function AfterFirstUse(c: Config, key: Key, minted: nat, timeout: nat): State {
    State(0, true, map[key := Token(0, minted)], map[key := ExpiryOf(0, PreimageTtl(c.ttl, timeout))], map[], [key])
  }

  lemma FirstUseRuns(c: Config, key: Key, minted: nat, timeout: nat)
    ensures Run(c, INIT, FirstUse(key, minted, timeout)) == AfterFirstUse(c, key, minted, timeout)
  {
    var s1 := Next(c, INIT, Mint(key, minted));
    RunAppend(c, INIT, [Mint(key, minted)], WholeRequest(1, key, timeout, true));
    assert [Mint(key, minted)][1..] == [];
    assert Run(c, INIT, [Mint(key, minted)]) == s1;
    FirstUseIsAdmitted(c, s1, 1, key, timeout);
  }

  /**
   The reload: the macaroon never expires, but by the time it is presented the location has a
   timeout, so its marker does. When the marker is gone the pair is good again.
   */
  function ReuseAfterReload(c: Config, key: Key, timeout: nat): seq<Event>
    requires timeout > 0
  {
    FirstUse(key, 0, timeout) + (Ticks(PreimageTtl(c.ttl, timeout).value) + WholeRequest(2, key, timeout, true))
  }

  lemma ReloadAdmitsTwice(c: Config, key: Key, timeout: nat)
    requires timeout > 0
    ensures RunsWith(ReuseAfterReload(c, key, timeout), key, 0, {timeout})
    ensures Run(c, INIT, ReuseAfterReload(c, key, timeout)).admitted == [key, key]
  {
    var life := PreimageTtl(c.ttl, timeout).value;
    var s1 := AfterFirstUse(c, key, 0, timeout);
    RunAppend(c, INIT, FirstUse(key, 0, timeout), Ticks(life) + WholeRequest(2, key, timeout, true));
    FirstUseRuns(c, key, 0, timeout);
    RunAppend(c, s1, Ticks(life), WholeRequest(2, key, timeout, true));
    TicksPass(c, s1, life);
    FirstUseIsAdmitted(c, s1.(now := life), 2, key, timeout);
  }

  /**
   The slow replay: a second request arrives in the macaroon's last second while Redis is down, so
   the look-up cannot see the marker; it verifies, and claims `patience` seconds later, when the
   marker is gone.
   */
  function SlowReplay(c: Config, key: Key, minted: nat, timeout: nat): seq<Event>
    requires minted > 0
  {
    FirstUse(key, minted, timeout) + LateReplay(c, key, minted, timeout)
  }

  function Stall(key: Key, timeout: nat): seq<Event> {
    [Outage] + ([Arrive(2, key, timeout, true), Verify(2), Recovery])
  }

  function LateReplay(c: Config, key: Key, minted: nat, timeout: nat): seq<Event>
    requires minted > 0
  {
    Ticks(minted - 1) + (Stall(key, timeout) + (Ticks(c.patience) + [Commit(2, Answered)]))
  }

  lemma SecondArrival(c: Config, s: State, key: Key, timeout: nat)
    requires s.requests == map[] && key in s.minted && Unexpired(s.minted[key], s.now)
    ensures Run(c, s, Stall(key, timeout)) == s.(up := true, requests := map[2 := Verified(key, s.now, timeout)])
  {
    var s1 := Next(c, s, Outage);
    RunAppend(c, s, [Outage], [Arrive(2, key, timeout, true), Verify(2), Recovery]);
    assert [Outage][1..] == [];
    assert Run(c, s, [Outage]) == s1;
    RunThree(c, s1, Arrive(2, key, timeout, true), Verify(2), Recovery);
  }

  lemma LateClaim(c: Config, s: State, key: Key, timeout: nat)
    requires s.up && 2 in s.requests && s.requests[2] == Verified(key, s.now, timeout)
    requires key in s.markers && s.markers[key].At? && s.markers[key].time <= s.now + c.patience
    ensures Run(c, s, Ticks(c.patience) + [Commit(2, Answered)]).admitted == s.admitted + [key]
  {
    RunAppend(c, s, Ticks(c.patience), [Commit(2, Answered)]);
    TicksPass(c, s, c.patience);
    var s' := s.(now := s.now + c.patience);
    assert [Commit(2, Answered)][1..] == [];
    assert Run(c, s', [Commit(2, Answered)]) == Next(c, s', Commit(2, Answered));
    assert !Live(s'.markers, key, s'.now);
  }

  lemma LateReplayIsAdmitted(c: Config, key: Key, minted: nat, timeout: nat)
    requires minted > 0 && !MarkerOutlives(c, minted, timeout)
    ensures Run(c, AfterFirstUse(c, key, minted, timeout), LateReplay(c, key, minted, timeout)).admitted == [key, key]
  {
    var s := AfterFirstUse(c, key, minted, timeout);
    var last := Ticks(c.patience) + [Commit(2, Answered)];
    RunAppend(c, s, Ticks(minted - 1), Stall(key, timeout) + last);
    TicksPass(c, s, minted - 1);
    var s2 := s.(now := minted - 1);
    RunAppend(c, s2, Stall(key, timeout), last);
    SecondArrival(c, s2, key, timeout);
    LateClaim(c, Run(c, s2, Stall(key, timeout)), key, timeout);
  }

  lemma SlowReplayAdmitsTwice(c: Config, key: Key, minted: nat, timeout: nat)
    requires minted > 0 && !MarkerOutlives(c, minted, timeout)
    ensures RunsWith(SlowReplay(c, key, minted, timeout), key, minted, {timeout})
    ensures Run(c, INIT, SlowReplay(c, key, minted, timeout)).admitted == [key, key]
  {
    RunAppend(c, INIT, FirstUse(key, minted, timeout), LateReplay(c, key, minted, timeout));
    FirstUseRuns(c, key, minted, timeout);
    LateReplayIsAdmitted(c, key, minted, timeout);
  }

  /** Where one of the timeouts a key can be claimed under falls short, a run admits it twice. */
  lemma ShortMarkerAdmitsTwice(c: Config, key: Key, minted: nat, timeout: nat) returns (es: seq<Event>)
    requires !MarkerOutlives(c, minted, timeout)
    ensures RunsWith(es, key, minted, {timeout}) && Admissions(Run(c, INIT, es), key) == 2
  {
    if minted == 0 {
      ReloadAdmitsTwice(c, key, timeout);
      es := ReuseAfterReload(c, key, timeout);
    } else {
      SlowReplayAdmitsTwice(c, key, minted, timeout);
      es := SlowReplay(c, key, minted, timeout);
    }
  }

  /**
   Exactly when a preimage is single-use: over every run of any number of workers, reloads, outages,
   lost replies and clock ticks, a preimage minted with one timeout and presented while its location
   has others is admitted at most once if and only if its marker outlives the macaroon under each.
   */
  lemma SingleUseIff(c: Config, key: Key, minted: nat, claimed: set<nat>)
    ensures (forall timeout | timeout in claimed :: MarkerOutlives(c, minted, timeout)) <==>
            (forall es: seq<Event>
               | forall i | 0 <= i < |es| :: && (es[i].Mint? && es[i].key == key ==> es[i].timeout == minted)
                                             && (es[i].Arrive? && es[i].key == key ==> es[i].timeout in claimed)
               :: Admissions(Run(c, INIT, es), key) <= 1)
  {
    if forall timeout | timeout in claimed :: MarkerOutlives(c, minted, timeout) {
      forall es: seq<Event> | RunsWith(es, key, minted, claimed) ensures Admissions(Run(c, INIT, es), key) <= 1 {
        RunKeeps(c, INIT, es, key, minted, claimed);
      }
    } else {
      var timeout :| timeout in claimed && !MarkerOutlives(c, minted, timeout);
      var es := ShortMarkerAdmitsTwice(c, key, minted, timeout);
      assert RunsWith(es, key, minted, claimed);
    }
  }

  /** While the location keeps its timeout: no expiry, instantaneous requests, or a TTL that covers a request too. */
  lemma SingleUseWithoutReloadIff(c: Config, key: Key, timeout: nat)
    ensures timeout == 0 || c.patience == 0 || c.ttl >= timeout + c.patience <==>
            (forall es: seq<Event>
               | forall i | 0 <= i < |es| ::
                   (es[i].Mint? || es[i].Arrive?) && es[i].key == key ==> es[i].timeout == timeout
               :: Admissions(Run(c, INIT, es), key) <= 1)
  {
    SingleUseIff(c, key, timeout, {timeout});
  }

  /** While Redis is down nobody is let in, whatever the look-up and the macaroon said. */
  lemma {:induction false} NoAdmissionDuringOutage(c: Config, s: State, es: seq<Event>)
    requires !s.up && forall i | 0 <= i < |es| :: !es[i].Recovery?
    ensures Run(c, s, es).admitted == s.admitted && Run(c, s, es).markers == s.markers
    decreases |es|
  {
    if es != [] {
      NoAdmissionDuringOutage(c, Next(c, s, es[0]), es[1..]);
    }
  }
}
