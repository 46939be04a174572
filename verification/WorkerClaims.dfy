/**
 Replay protection without Redis: one worker process and its bounded caches.

 A worker handles one request at a time, so a request is one step. A preimage takes one slot of its
 cache, a P2PK token takes two of the token cache: its proof set's key and its own text. The runs are
 those of one worker's life; another worker knows nothing of them.
 */
module WorkerClaims {
  import opened Commands
  import opened Markers
  import opened ReplayCache

  // ---------------------------------------------------------------- preimages

  /** A preimage with its macaroon; `good` when the macaroon verifies. */
  datatype Pair = Pair(preimage: Key, good: bool)

  /** The preimage cache of a worker, and the history of what it let in. */
  datatype Worker = Worker(order: seq<Key>, served: seq<Key>)

  const START := Worker([], [])

  predicate LetsIn(order: seq<Key>, p: Pair) {
    p.good && p.preimage !in order
  }

  function AfterPair(order: seq<Key>, cap: nat, p: Pair): seq<Key> {
    if LetsIn(order, p) then ClaimQueue(order, cap, p.preimage) else order
  }

  /** l402_access_handler without Redis: look up, verify, claim. */
  method HandlePair(store: MarkerStore, cache: Cache, p: Pair, timeout: nat) returns (status: int)
    requires !store.configured && cache.Valid()
    modifies store`keys, cache`seen, cache`order
    ensures cache.Valid()
    ensures status == if p.good && p.preimage !in old(cache.order) then NGX_DECLINED else 401
    ensures cache.order == AfterPair(old(cache.order), cache.cap, p)
  {
    var known := cache.Contains(p.preimage);
    if known || !p.good {
      return 401;
    }
    var claim := store.StorePreimageAsUsed(cache, p.preimage, timeout, NotSent);
    return HandlePreimageClaim(claim);
  }

  function Serve(w: Worker, cap: nat, p: Pair): Worker {
    Worker(AfterPair(w.order, cap, p), if LetsIn(w.order, p) then w.served + [p.preimage] else w.served)
  }

  function ServeAll(w: Worker, cap: nat, ps: seq<Pair>): Worker
    decreases |ps|
  {
    if ps == [] then w else ServeAll(Serve(w, cap, ps[0]), cap, ps[1..])
  }

  /** The last n of a sequence, or all of a shorter one. */
  function Last(s: seq<Key>, n: nat): seq<Key> {
    if |s| <= n then s else s[|s| - n..]
  }

  /** Any `n + 1` in a row are different. */
  ghost predicate NearOnesDiffer(s: seq<Key>, n: nat) {
    forall i, j | 0 <= i < j < |s| && j - i <= n :: s[i] != s[j]
  }

  /** The cache holds the last `cap` preimages let in. */
  ghost predicate IsWindow(w: Worker, cap: nat) {
    w.order == Last(w.served, cap) && NearOnesDiffer(w.served, cap)
  }

  lemma LastAfterPush(s: seq<Key>, n: nat, x: Key)
    requires n >= 1
    ensures Last(s + [x], n) == if |s| >= n then Last(s, n)[1..] + [x] else s + [x]
    ensures |Last(s, n)| == if |s| <= n then |s| else n
  {
  }

  lemma PushNew(s: seq<Key>, n: nat, x: Key)
    requires NearOnesDiffer(s, n) && x !in Last(s, n)
    ensures NearOnesDiffer(s + [x], n)
  {
    forall i | 0 <= i < |s| && |s| - i <= n ensures s[i] != x {
      var last := Last(s, n);
      assert s[i] == last[i - (|s| - |last|)];
    }
  }

  lemma ServeKeepsWindow(w: Worker, cap: nat, p: Pair)
    requires cap >= 1 && IsWindow(w, cap)
    ensures IsWindow(Serve(w, cap, p), cap)
  {
    if LetsIn(w.order, p) {
      LastAfterPush(w.served, cap, p.preimage);
      PushNew(w.served, cap, p.preimage);
    }
  }

  lemma {:induction false} ServeAllKeepsWindow(w: Worker, cap: nat, ps: seq<Pair>)
    requires cap >= 1 && IsWindow(w, cap)
    ensures IsWindow(ServeAll(w, cap, ps), cap)
    decreases |ps|
  {
    if ps != [] {
      ServeKeepsWindow(w, cap, ps[0]);
      ServeAllKeepsWindow(Serve(w, cap, ps[0]), cap, ps[1..]);
    }
  }

  lemma {:induction false} ServesOn(w: Worker, cap: nat, ps: seq<Pair>, p: Pair)
    ensures ServeAll(w, cap, ps + [p]) == Serve(ServeAll(w, cap, ps), cap, p)
    decreases |ps|
  {
    if ps == [] {
      assert ps + [p] == [p] && [p][1..] == [];
    } else {
      assert (ps + [p])[1..] == ps[1..] + [p];
      ServesOn(Serve(w, cap, ps[0]), cap, ps[1..], p);
    }
  }

  /**
   In every run of a worker: a good pair is let in exactly when its preimage is not among the last
   `cap` let in.
   */
  lemma PreimageLetInIff(cap: nat, ps: seq<Pair>, p: Pair)
    requires cap >= 1
    ensures var served := ServeAll(START, cap, ps).served;
            var recent := if |served| <= cap then served else served[|served| - cap..];
            ServeAll(START, cap, ps + [p]).served
              == if p.good && p.preimage !in recent then served + [p.preimage] else served
  {
    ServeAllKeepsWindow(START, cap, ps);
    ServesOn(START, cap, ps, p);
  }

  /** So a preimage is let in again only after `cap` others, all different. */
  lemma ReplayNeedsCapOthers(cap: nat, ps: seq<Pair>, i: nat, j: nat)
    requires cap >= 1 && i < j < |ServeAll(START, cap, ps).served|
    requires ServeAll(START, cap, ps).served[i] == ServeAll(START, cap, ps).served[j]
    ensures var served := ServeAll(START, cap, ps).served;
            && j - i - 1 >= cap
            && forall k, l | i <= k < l <= i + cap :: served[k] != served[l]
  {
    ServeAllKeepsWindow(START, cap, ps);
  }

  // ---------------------------------------------------------------- P2PK tokens

  /** How the work guarded by the claim ends. A panic is caught further out, after the claim. */
  datatype Outcome = Stored | StoreFailed | Panicked

  /** A token in one of its encodings, and its proof set; `sound` when every check up to the claim passes. */
  datatype Token = Token(text: Key, proofSet: Key, sound: bool, outcome: Outcome)

  /** The proof set's key is claimed. */
  predicate Claims(order: seq<Key>, t: Token) {
    t.text !in order && t.sound && t.proofSet !in order
  }

  predicate Admits(order: seq<Key>, t: Token) {
    Claims(order, t) && t.outcome.Stored?
  }

  function AfterToken(order: seq<Key>, cap: nat, t: Token): seq<Key> {
    if !Claims(order, t) then order
    else
      var claimed := ClaimQueue(order, cap, t.proofSet);
      match t.outcome
      case Stored => ClaimQueue(claimed, cap, t.text)
      case StoreFailed => Without(claimed, t.proofSet)
      case Panicked => claimed
  }

  /** verify_cashu_token_p2pk without Redis. */
  method HandleToken(cache: Cache, t: Token) returns (admitted: bool)
    requires cache.Valid()
    modifies cache`seen, cache`order
    ensures cache.Valid()
    ensures admitted <==> t.sound && t.outcome == Stored && t.text !in old(cache.order)
                          && t.proofSet !in old(cache.order)
    ensures t.text in old(cache.order) || !t.sound || t.proofSet in old(cache.order) ==> cache.order == old(cache.order)
    ensures admitted ==> t.text in cache.order && (cache.cap >= 2 ==> t.proofSet in cache.order)
    ensures t.outcome == StoreFailed && t.proofSet !in old(cache.order) ==> t.proofSet !in cache.order
    ensures cache.order == AfterToken(old(cache.order), cache.cap, t)
  {
    var seen := cache.Contains(t.text);
    if seen || !t.sound {
      return false;
    }
    var first := cache.Claim(t.proofSet);
    if !first || t.outcome.Panicked? {
      return false;
    }
    if t.outcome.StoreFailed? {
      cache.Release(t.proofSet);
      return false;
    }
    var _ := cache.Claim(t.proofSet);
    var _ := cache.Claim(t.text);
    return true;
  }

  function AfterTokens(order: seq<Key>, cap: nat, ts: seq<Token>): seq<Key>
    decreases |ts|
  {
    if ts == [] then order else AfterTokens(AfterToken(order, cap, ts[0]), cap, ts[1..])
  }

  /** Slots a token takes for good: two when admitted, one when the work panicked, none otherwise. */
  function Slots(order: seq<Key>, t: Token): nat {
    if !Claims(order, t) then 0
    else
      match t.outcome
      case Stored => 2
      case StoreFailed => 0
      case Panicked => 1
  }

  function SlotsOf(order: seq<Key>, cap: nat, ts: seq<Token>): nat
    decreases |ts|
  {
    if ts == [] then 0 else Slots(order, ts[0]) + SlotsOf(AfterToken(order, cap, ts[0]), cap, ts[1..])
  }

  lemma {:induction false} TokensInOrder(order: seq<Key>, cap: nat, ts: seq<Token>, t: Token)
    ensures AfterTokens(order, cap, []) == order
    ensures AfterTokens(order, cap, ts + [t]) == AfterToken(AfterTokens(order, cap, ts), cap, t)
    decreases |ts|
  {
    if ts == [] {
      assert ts + [t] == [t] && [t][1..] == [];
    } else {
      assert (ts + [t])[1..] == ts[1..] + [t];
      TokensInOrder(AfterToken(order, cap, ts[0]), cap, ts[1..], t);
    }
  }

  /** A token that is refused, or whose store fails, takes no slot. */
  lemma {:induction false} FailuresTakeNoSlot(order: seq<Key>, cap: nat, ts: seq<Token>)
    requires forall i | 0 <= i < |ts| :: ts[i].outcome == StoreFailed || !ts[i].sound
    ensures SlotsOf(order, cap, ts) == 0
    decreases |ts|
  {
    if ts != [] {
      assert ts[0].outcome == StoreFailed || !ts[0].sound;
      FailuresTakeNoSlot(AfterToken(order, cap, ts[0]), cap, ts[1..]);
    }
  }

  function Admissions(order: seq<Key>, cap: nat, ts: seq<Token>): nat
    decreases |ts|
  {
    if ts == [] then 0
    else (if Admits(order, ts[0]) then 1 else 0) + Admissions(AfterToken(order, cap, ts[0]), cap, ts[1..])
  }

  lemma TokenKeepsQueue(order: seq<Key>, cap: nat, t: Token)
    requires QueueOk(order, cap)
    ensures QueueOk(AfterToken(order, cap, t), cap)
  {
    if Claims(order, t) {
      var claimed := ClaimQueue(order, cap, t.proofSet);
      StepKeeps(order, cap, ClaimOp(t.proofSet));
      StepKeeps(claimed, cap, ClaimOp(t.text));
      StepKeeps(claimed, cap, ReleaseOp(t.proofSet));
    }
  }

  /** Every queue a worker's tokens can lead to. */
  lemma {:induction false} TokensKeepQueue(order: seq<Key>, cap: nat, ts: seq<Token>)
    requires QueueOk(order, cap)
    ensures QueueOk(AfterTokens(order, cap, ts), cap)
    decreases |ts|
  {
    if ts != [] {
      TokenKeepsQueue(order, cap, ts[0]);
      TokensKeepQueue(AfterToken(order, cap, ts[0]), cap, ts[1..]);
    }
  }

  lemma ClaimCosts(order: seq<Key>, cap: nat, key: Key, other: Key)
    requires QueueOk(order, cap) && key in order && Life(order, cap, key) >= 2
    ensures var next := ClaimQueue(order, cap, other);
            && QueueOk(next, cap) && key in next
            && Life(next, cap, key) == Life(order, cap, key) - if other in order then 0 else 1
  {
    StepKeeps(order, cap, ClaimOp(other));
    if other !in order {
      ClaimCostsOne(order, cap, key, other);
    }
  }

  /** Giving back the key claimed last undoes what its claim cost. */
  lemma GiveBackIsFree(order: seq<Key>, cap: nat, key: Key, other: Key)
    requires QueueOk(order, cap) && key in order && Life(order, cap, key) >= 2 && other !in order
    ensures var next := Without(ClaimQueue(order, cap, other), other);
            key in next && Life(next, cap, key) >= Life(order, cap, key)
  {
    var claimed := ClaimQueue(order, cap, other);
    ClaimCosts(order, cap, key, other);
    IndexUnique(claimed, key, IndexOf(claimed, key));
    CutIsWithout(claimed, other, |claimed| - 1);
    WithoutKeepsDistinct(claimed, other);
    IndexUnique(Without(claimed, other), key, IndexOf(claimed, key));
  }

  lemma TokenCosts(order: seq<Key>, cap: nat, key: Key, t: Token)
    requires QueueOk(order, cap) && key in order && Life(order, cap, key) >= Slots(order, t) + 2
    ensures key in AfterToken(order, cap, t)
    ensures Life(AfterToken(order, cap, t), cap, key) >= Life(order, cap, key) - Slots(order, t)
  {
    if Claims(order, t) {
      var claimed := ClaimQueue(order, cap, t.proofSet);
      ClaimCosts(order, cap, key, t.proofSet);
      match t.outcome
      case Stored => ClaimCosts(claimed, cap, key, t.text);
      case StoreFailed => GiveBackIsFree(order, cap, key, t.proofSet);
      case Panicked =>
    }
  }

  /** One of the two slots is for a failed store: its claim evicts a key that is next to go. */
  lemma FailedStoreEvicts(order: seq<Key>, cap: nat, key: Key, t: Token)
    requires QueueOk(order, cap) && key in order && Life(order, cap, key) == 1
    requires Claims(order, t) && t.outcome.StoreFailed?
    ensures key !in AfterToken(order, cap, t)
  {
    assert order[0] == key && key !in order[1..];
  }

  /** A key with two slots more to live than a run takes outlives it. */
  lemma {:induction false} OutlivesTokens(order: seq<Key>, cap: nat, key: Key, ts: seq<Token>)
    requires QueueOk(order, cap) && key in order && Life(order, cap, key) >= SlotsOf(order, cap, ts) + 2
    ensures key in AfterTokens(order, cap, ts)
    decreases |ts|
  {
    if ts != [] {
      TokenCosts(order, cap, key, ts[0]);
      TokenKeepsQueue(order, cap, ts[0]);
      OutlivesTokens(AfterToken(order, cap, ts[0]), cap, key, ts[1..]);
    }
  }

  lemma ClaimIsNewest(order: seq<Key>, cap: nat, key: Key)
    requires QueueOk(order, cap) && key !in order
    ensures var next := ClaimQueue(order, cap, key);
            QueueOk(next, cap) && key in next && Life(next, cap, key) == cap
  {
    var next := ClaimQueue(order, cap, key);
    StepKeeps(order, cap, ClaimOp(key));
    assert next[|next| - 1] == key;
    IndexUnique(next, key, |next| - 1);
  }

  /** Right after its admission a proof set has all but one of the slots to live. */
  lemma AdmittedLife(order: seq<Key>, cap: nat, t: Token)
    requires QueueOk(order, cap) && Admits(order, t) && cap >= 2
    ensures var next := AfterToken(order, cap, t);
            && QueueOk(next, cap) && t.proofSet in next
            && Life(next, cap, t.proofSet) == if t.text == t.proofSet then cap else cap - 1
  {
    var claimed := ClaimQueue(order, cap, t.proofSet);
    ClaimIsNewest(order, cap, t.proofSet);
    assert t.text in claimed ==> t.text == t.proofSet;
    ClaimCosts(claimed, cap, t.proofSet, t.text);
  }

  /**
   In every run of a worker, under whatever texts: a proof set once admitted is not admitted again
   before other tokens have taken all but two of the slots, two for each admission.
   */
  lemma ProofSetIsRemembered(order: seq<Key>, cap: nat, t: Token, ts: seq<Token>, again: Token)
    requires QueueOk(order, cap) && Admits(order, t) && again.proofSet == t.proofSet
    requires SlotsOf(AfterToken(order, cap, t), cap, ts) + 2 < cap
    ensures !Admits(AfterTokens(AfterToken(order, cap, t), cap, ts), again)
  {
    AdmittedLife(order, cap, t);
    OutlivesTokens(AfterToken(order, cap, t), cap, t.proofSet, ts);
  }

  // ---------------------------------------------------------------- the bound is met

  /** A token of another proof set, whose store does not fail. */
  predicate Foreign(t: Token, key: Key) {
    t.outcome != StoreFailed && t.proofSet != key && t.text != key && t.text != t.proofSet
  }

  lemma ClaimEvictsIff(order: seq<Key>, cap: nat, key: Key, other: Key)
    requires QueueOk(order, cap) && key in order && other !in order
    ensures key in ClaimQueue(order, cap, other) <==> Life(order, cap, key) >= 2
  {
    if Life(order, cap, key) >= 2 {
      ClaimCosts(order, cap, key, other);
    } else {
      assert order[0] == key && key !in order[1..];
    }
  }

  lemma ForeignCosts(order: seq<Key>, cap: nat, key: Key, t: Token)
    requires QueueOk(order, cap) && key in order && Foreign(t, key) && Claims(order, t)
    ensures var next := AfterToken(order, cap, t);
            && (key in next <==> Life(order, cap, key) > Slots(order, t))
            && (key in next ==> Life(next, cap, key) == Life(order, cap, key) - Slots(order, t))
  {
    var claimed := ClaimQueue(order, cap, t.proofSet);
    StepKeeps(order, cap, ClaimOp(t.proofSet));
    ClaimEvictsIff(order, cap, key, t.proofSet);
    if key in claimed {
      ClaimCosts(order, cap, key, t.proofSet);
      if t.outcome.Stored? {
        ClaimEvictsIff(claimed, cap, key, t.text);
        if Life(claimed, cap, key) >= 2 { ClaimCosts(claimed, cap, key, t.text); }
      }
    }
  }

  lemma {:induction false} StaysForgotten(order: seq<Key>, cap: nat, key: Key, ts: seq<Token>)
    requires key !in order && forall i | 0 <= i < |ts| :: Foreign(ts[i], key)
    ensures key !in AfterTokens(order, cap, ts)
    decreases |ts|
  {
    if ts != [] {
      assert Foreign(ts[0], key);
      StaysForgotten(AfterToken(order, cap, ts[0]), cap, key, ts[1..]);
    }
  }

  lemma {:induction false} ForgottenAfter(order: seq<Key>, cap: nat, key: Key, ts: seq<Token>)
    requires QueueOk(order, cap) && key in order && forall i | 0 <= i < |ts| :: Foreign(ts[i], key)
    ensures key in AfterTokens(order, cap, ts) <==> SlotsOf(order, cap, ts) < Life(order, cap, key)
    decreases |ts|
  {
    if ts != [] {
      var next := AfterToken(order, cap, ts[0]);
      assert Foreign(ts[0], key);
      TokenKeepsQueue(order, cap, ts[0]);
      if Claims(order, ts[0]) { ForeignCosts(order, cap, key, ts[0]); }
      if key in next {
        ForgottenAfter(next, cap, key, ts[1..]);
      } else {
        StaysForgotten(next, cap, key, ts[1..]);
      }
    }
  }

  /** Without panics and failed stores every admission takes two. */
  lemma {:induction false} TwoEach(order: seq<Key>, cap: nat, ts: seq<Token>)
    requires forall i | 0 <= i < |ts| :: ts[i].outcome == Stored
    ensures SlotsOf(order, cap, ts) == 2 * Admissions(order, cap, ts)
    decreases |ts|
  {
    if ts != [] {
      assert ts[0].outcome == Stored;
      TwoEach(AfterToken(order, cap, ts[0]), cap, ts[1..]);
    }
  }

  /**
   When no store fails: after its admission a proof set is still known exactly while other tokens have
   taken fewer than `cap - 1` entries, an admission two and a panic one.
   */
  lemma KnownIff(order: seq<Key>, cap: nat, t: Token, ts: seq<Token>)
    requires QueueOk(order, cap) && Admits(order, t) && t.text != t.proofSet
    requires forall i | 0 <= i < |ts| :: Foreign(ts[i], t.proofSet)
    ensures var next := AfterToken(order, cap, t);
            t.proofSet in AfterTokens(next, cap, ts) <==> SlotsOf(next, cap, ts) < cap - 1
  {
    var next := AfterToken(order, cap, t);
    if cap >= 2 {
      AdmittedLife(order, cap, t);
      ForgottenAfter(next, cap, t.proofSet, ts);
    } else {
      ClaimIsNewest(order, cap, t.proofSet);
      assert t.proofSet !in next;
      StaysForgotten(next, cap, t.proofSet, ts);
    }
  }

  /**
   When nothing fails: it is known exactly while other admissions number less than half of `cap - 1`.
   The comment on the cache promises `cap`.
   */
  lemma ProofSetKnownIff(order: seq<Key>, cap: nat, t: Token, ts: seq<Token>)
    requires QueueOk(order, cap) && t.text !in order && t.proofSet !in order && t.sound && t.outcome == Stored
    requires t.text != t.proofSet
    requires forall i | 0 <= i < |ts| :: ts[i].outcome == Stored && ts[i].text != ts[i].proofSet
    requires forall i | 0 <= i < |ts| :: ts[i].proofSet != t.proofSet && ts[i].text != t.proofSet
    ensures var next := AfterToken(order, cap, t);
            t.proofSet in AfterTokens(next, cap, ts) <==> 2 * Admissions(next, cap, ts) < cap - 1
  {
    KnownIff(order, cap, t, ts);
    TwoEach(AfterToken(order, cap, t), cap, ts);
  }

  /** With room for three keys, one other payment is enough: the proof set is served again under a new text. */
  lemma OneOtherIsEnough(a: Key, b: Key, text: Key, other: Key, again: Key)
    requires a != b && text != other && again != text && again != other
    requires {a, b} !! {text, other, again}
    ensures var first, second := Token(text, a, true, Stored), Token(other, b, true, Stored);
            Admits(AfterTokens([], 3, [first, second]), Token(again, a, true, Stored))
  {
    var first, second := Token(text, a, true, Stored), Token(other, b, true, Stored);
    assert AfterToken([], 3, first) == [a, text];
    assert ClaimQueue([a, text], 3, b) == [a, text, b];
    assert AfterToken([a, text], 3, second) == [text, b, other];
    assert [first, second][1..] == [second] && [second][1..] == [];
    assert AfterTokens([a, text], 3, [second]) == [text, b, other];
  }
}
