/**
 The bounded per-worker replay cache used when Redis is absent: a hash set that answers and a queue
 that says whom to evict. The class keeps both; the theorems are about the queue of keys it stands for.
 */
module ReplayCache {
  import opened Sequences

  type Key = string

  // ---------------------------------------------------------------- what the cache stands for

  function Keys(order: seq<Key>): set<Key> {
    set k | k in order
  }

  /** The queue after a claim: a known key changes nothing, a new one may push out the oldest. */
  function ClaimQueue(order: seq<Key>, cap: nat, key: Key): seq<Key> {
    if key in order then order
    else if |order| >= cap && order != [] then order[1..] + [key]
    else order + [key]
  }

  /** The queue without `key`. */
  function Without(order: seq<Key>, key: Key): (r: seq<Key>)
    ensures key !in r
    ensures forall k | k != key :: k in r <==> k in order
    ensures |r| <= |order|
    ensures key !in order ==> r == order
  {
    if order == [] then []
    else if order[0] == key then Without(order[1..], key)
    else [order[0]] + Without(order[1..], key)
  }

  class Cache {
    var seen: set<Key>
    var order: seq<Key>
    const cap: nat

    /** The set and the queue hold the same keys, once each, within the capacity. */
    ghost predicate Valid()
      reads this
    {
      && cap >= 1
      && |order| <= cap
      && Distinct(order)
      && seen == Keys(order)
    }

    constructor (capacity: nat)
      ensures Valid() && order == [] && cap == if capacity == 0 then 1 else capacity
    {
      seen, order := {}, [];
      cap := if capacity < 1 then 1 else capacity;
    }

    method Claim(key: Key) returns (first: bool)
      requires Valid()
      modifies this`seen, this`order
      ensures Valid()
      ensures first <==> key !in old(order)
      ensures order == ClaimQueue(old(order), cap, key)
    {
      if key in seen {
        return false;
      }
      if |order| >= cap {
        var oldest := order[0];
        order := order[1..];
        seen := seen - {oldest};
      }
      order := order + [key];
      seen := seen + {key};
      return true;
    }

    method Contains(key: Key) returns (known: bool)
      requires Valid()
      ensures known <==> key in order
    {
      known := key in seen;
    }

    method Release(key: Key)
      requires Valid()
      modifies this`seen, this`order
      ensures Valid()
      ensures order == Without(old(order), key)
    {
      if key !in seen {
        return;
      }
      seen := seen - {key};
      var pos := 0;
      while order[pos] != key
        invariant 0 <= pos < |order|
        invariant key in order[pos..]
        invariant order == old(order)
        decreases |order| - pos
      {
        pos := pos + 1;
      }
      CutIsWithout(order, key, pos);
      DistinctCut(order, pos);
      order := order[..pos] + order[pos + 1..];
    }

    method Len() returns (n: nat)
      requires Valid()
      ensures n == |order| && n == |seen|
    {
      n := |order|;
      SizeOfSeen(order);
    }
  }

  lemma {:induction false} CutIsWithout(order: seq<Key>, key: Key, pos: nat)
    requires Distinct(order) && pos < |order| && order[pos] == key
    ensures Without(order, key) == order[..pos] + order[pos + 1..]
  {
    if pos > 0 {
      CutIsWithout(order[1..], key, pos - 1);
      assert order[1..][..pos - 1] == order[1..pos];
    } else {
      assert key !in order[1..];
    }
  }

  lemma DistinctCut(order: seq<Key>, pos: nat)
    requires Distinct(order) && pos < |order|
    ensures Distinct(order[..pos] + order[pos + 1..])
    ensures Keys(order[..pos] + order[pos + 1..]) == Keys(order) - {order[pos]}
  {
    var cut := order[..pos] + order[pos + 1..];
    forall k | k in order && k != order[pos] ensures k in cut {
      var i :| 0 <= i < |order| && order[i] == k;
      assert cut[if i < pos then i else i - 1] == k;
    }
  }

  lemma {:induction false} SizeOfSeen(order: seq<Key>)
    requires Distinct(order)
    ensures |Keys(order)| == |order|
  {
    if order != [] {
      SizeOfSeen(order[1..]);
      assert Keys(order) == {order[0]} + Keys(order[1..]);
    }
  }

  // ---------------------------------------------------------------- runs of operations

  datatype Op = ClaimOp(key: Key) | ReleaseOp(key: Key) | ContainsOp(key: Key)

  function Step(order: seq<Key>, cap: nat, op: Op): seq<Key> {
    match op
    case ClaimOp(key) => ClaimQueue(order, cap, key)
    case ReleaseOp(key) => Without(order, key)
    case ContainsOp(_) => order
  }

  function Run(order: seq<Key>, cap: nat, ops: seq<Op>): seq<Key>
    decreases |ops|
  {
    if ops == [] then order else Run(Step(order, cap, ops[0]), cap, ops[1..])
  }

  /** Claims of keys not held at the time: the ones that are admitted. */
  function FreshClaims(order: seq<Key>, cap: nat, ops: seq<Op>): nat
    decreases |ops|
  {
    if ops == [] then 0
    else (if ops[0].ClaimOp? && ops[0].key !in order then 1 else 0)
         + FreshClaims(Step(order, cap, ops[0]), cap, ops[1..])
  }

  ghost predicate QueueOk(order: seq<Key>, cap: nat) {
    cap >= 1 && |order| <= cap && Distinct(order)
  }

  lemma {:induction false} WithoutKeepsDistinct(order: seq<Key>, key: Key)
    requires Distinct(order)
    ensures Distinct(Without(order, key))
  {
    if order != [] {
      WithoutKeepsDistinct(order[1..], key);
      assert order[0] !in order[1..];
      assert order[0] !in Without(order[1..], key);
    }
  }

  lemma StepKeeps(order: seq<Key>, cap: nat, op: Op)
    requires QueueOk(order, cap)
    ensures QueueOk(Step(order, cap, op), cap)
  {
    if op.ReleaseOp? { WithoutKeepsDistinct(order, op.key); }
  }

  function IndexOf(order: seq<Key>, key: Key): (i: nat)
    requires key in order
    ensures i < |order| && order[i] == key
  {
    if order[0] == key then 0 else 1 + IndexOf(order[1..], key)
  }

  /** How many fresh claims of other keys it takes to evict `key`: free slots, plus its place in the queue. */
  function Life(order: seq<Key>, cap: nat, key: Key): int
    requires key in order
  {
    cap - |order| + IndexOf(order, key) + 1
  }

  lemma {:induction false} IndexUnique(order: seq<Key>, key: Key, i: nat)
    requires Distinct(order) && i < |order| && order[i] == key
    ensures IndexOf(order, key) == i
  {
  }

  /** Releasing another key frees at least as much room as it costs in position. */
  lemma {:induction false} ReleaseKeepsLife(order: seq<Key>, key: Key, other: Key)
    requires Distinct(order) && key in order && other != key
    ensures IndexOf(Without(order, other), key) - |Without(order, other)| >= IndexOf(order, key) - |order|
  {
    if other in order {
      var pos := IndexOf(order, other);
      var i := IndexOf(order, key);
      CutIsWithout(order, other, pos);
      WithoutKeepsDistinct(order, other);
      IndexUnique(Without(order, other), key, if i < pos then i else i - 1);
    }
  }

  lemma ClaimCostsOne(order: seq<Key>, cap: nat, key: Key, other: Key)
    requires QueueOk(order, cap) && key in order && other !in order && Life(order, cap, key) >= 2
    ensures key in ClaimQueue(order, cap, other)
    ensures Life(ClaimQueue(order, cap, other), cap, key) == Life(order, cap, key) - 1
  {
    var i := IndexOf(order, key);
    var next := ClaimQueue(order, cap, other);
    StepKeeps(order, cap, ClaimOp(other));
    IndexUnique(next, key, if |order| >= cap then i - 1 else i);
  }

  /** A key outlives any run in which fewer fresh claims are made than its life. */
  lemma {:induction false} SurvivesFor(order: seq<Key>, cap: nat, key: Key, ops: seq<Op>)
    requires QueueOk(order, cap) && key in order
    requires forall i | 0 <= i < |ops| :: ops[i] != ReleaseOp(key)
    requires FreshClaims(order, cap, ops) < Life(order, cap, key)
    ensures key in Run(order, cap, ops)
    decreases |ops|
  {
    if ops != [] {
      var op := ops[0];
      StepKeeps(order, cap, op);
      if op.ClaimOp? && op.key !in order {
        ClaimCostsOne(order, cap, key, op.key);
      } else if op.ReleaseOp? {
        assert ops[0] != ReleaseOp(key);
        ReleaseKeepsLife(order, key, op.key);
      }
      SurvivesFor(Step(order, cap, op), cap, key, ops[1..]);
    }
  }

  /**
   After a successful claim a key stays claimed through the next cap - 1 fresh claims, whatever
   releases of other keys, look-ups and failed claims come between.
   */
  lemma ClaimSurvives(order: seq<Key>, cap: nat, key: Key, ops: seq<Op>)
    requires QueueOk(order, cap) && key !in order
    requires forall i | 0 <= i < |ops| :: ops[i] != ReleaseOp(key)
    requires FreshClaims(ClaimQueue(order, cap, key), cap, ops) <= cap - 1
    ensures key in Run(ClaimQueue(order, cap, key), cap, ops)
  {
    var next := ClaimQueue(order, cap, key);
    StepKeeps(order, cap, ClaimOp(key));
    IndexUnique(next, key, |next| - 1);
    SurvivesFor(next, cap, key, ops);
  }

  /** Without releases the bound is exact: one fresh claim more and the key is gone. */
  lemma {:induction false} EvictedExactlyThen(order: seq<Key>, cap: nat, key: Key, ops: seq<Op>)
    requires QueueOk(order, cap) && key in order
    requires forall i | 0 <= i < |ops| :: !ops[i].ReleaseOp? && ops[i] != ClaimOp(key)
    ensures key in Run(order, cap, ops) <==> FreshClaims(order, cap, ops) < Life(order, cap, key)
    decreases |ops|
  {
    if ops != [] {
      var op := ops[0];
      assert op != ClaimOp(key) && !op.ReleaseOp?;
      StepKeeps(order, cap, op);
      if op.ClaimOp? && op.key !in order && Life(order, cap, key) == 1 {
        assert order[0] == key;
        assert key !in order[1..];
        StaysGone(Step(order, cap, op), cap, key, ops[1..]);
      } else {
        if op.ClaimOp? && op.key !in order { ClaimCostsOne(order, cap, key, op.key); }
        EvictedExactlyThen(Step(order, cap, op), cap, key, ops[1..]);
      }
    }
  }

  lemma {:induction false} StaysGone(order: seq<Key>, cap: nat, key: Key, ops: seq<Op>)
    requires key !in order
    requires forall i | 0 <= i < |ops| :: !ops[i].ReleaseOp? && ops[i] != ClaimOp(key)
    ensures key !in Run(order, cap, ops)
    decreases |ops|
  {
    if ops != [] {
      assert ops[0] != ClaimOp(key) && !ops[0].ReleaseOp?;
      StaysGone(Step(order, cap, ops[0]), cap, key, ops[1..]);
    }
  }

  // ---------------------------------------------------------------- against an unbounded set

  function SetStep(seen: set<Key>, op: Op): set<Key> {
    match op
    case ClaimOp(key) => seen + {key}
    case ReleaseOp(key) => seen - {key}
    case ContainsOp(_) => seen
  }

  /** What an unbounded set would answer to each operation. */
  function SetAnswers(seen: set<Key>, ops: seq<Op>): seq<bool>
    decreases |ops|
  {
    if ops == [] then []
    else [if ops[0].ClaimOp? then ops[0].key !in seen else ops[0].key in seen]
         + SetAnswers(SetStep(seen, ops[0]), ops[1..])
  }

  function CacheAnswers(order: seq<Key>, cap: nat, ops: seq<Op>): seq<bool>
    decreases |ops|
  {
    if ops == [] then []
    else [if ops[0].ClaimOp? then ops[0].key !in order else ops[0].key in order]
         + CacheAnswers(Step(order, cap, ops[0]), cap, ops[1..])
  }

  /** The most keys the set ever holds during the run. */
  function Peak(seen: set<Key>, ops: seq<Op>): nat
    decreases |ops|
  {
    if ops == [] then |seen|
    else
      var rest := Peak(SetStep(seen, ops[0]), ops[1..]);
      if rest < |seen| then |seen| else rest
  }

  lemma StepTracksSet(order: seq<Key>, cap: nat, op: Op)
    requires QueueOk(order, cap) && |SetStep(Keys(order), op)| <= cap
    ensures Keys(Step(order, cap, op)) == SetStep(Keys(order), op)
  {
    if op.ClaimOp? && op.key !in order {
      SizeOfSeen(order);
      assert |Keys(order) + {op.key}| == |order| + 1;
    }
  }

  lemma PeakCovers(seen: set<Key>, ops: seq<Op>)
    ensures |seen| <= Peak(seen, ops)
  {
  }

  /** Until it would have to evict, the cache answers exactly as an unbounded set. */
  lemma {:induction false} AnswersLikeASet(order: seq<Key>, cap: nat, ops: seq<Op>)
    requires QueueOk(order, cap) && Peak(Keys(order), ops) <= cap
    ensures CacheAnswers(order, cap, ops) == SetAnswers(Keys(order), ops)
    decreases |ops|
  {
    if ops != [] {
      PeakCovers(SetStep(Keys(order), ops[0]), ops[1..]);
      StepTracksSet(order, cap, ops[0]);
      StepKeeps(order, cap, ops[0]);
      AnswersLikeASet(Step(order, cap, ops[0]), cap, ops[1..]);
    }
  }

  function SetRun(seen: set<Key>, ops: seq<Op>): set<Key>
    decreases |ops|
  {
    if ops == [] then seen else SetRun(SetStep(seen, ops[0]), ops[1..])
  }

  lemma {:induction false} RunKeeps(order: seq<Key>, cap: nat, ops: seq<Op>)
    requires QueueOk(order, cap)
    ensures QueueOk(Run(order, cap, ops), cap)
    decreases |ops|
  {
    if ops != [] {
      StepKeeps(order, cap, ops[0]);
      RunKeeps(Step(order, cap, ops[0]), cap, ops[1..]);
    }
  }

  /** A prefix is its first operation and a prefix of the rest. */
  lemma PrefixRuns(order: seq<Key>, seen: set<Key>, cap: nat, ops: seq<Op>, n: nat)
    requires 0 < n <= |ops|
    ensures Run(order, cap, ops[..n]) == Run(Step(order, cap, ops[0]), cap, ops[1..][..n - 1])
    ensures SetRun(seen, ops[..n]) == SetRun(SetStep(seen, ops[0]), ops[1..][..n - 1])
  {
    assert ops[..n][1..] == ops[1..][..n - 1];
  }

  lemma PeakOfRest(seen: set<Key>, ops: seq<Op>)
    requires ops != []
    ensures |SetStep(seen, ops[0])| <= Peak(SetStep(seen, ops[0]), ops[1..]) <= Peak(seen, ops)
  {
    PeakCovers(SetStep(seen, ops[0]), ops[1..]);
  }

  /** Within the peak, the cache and the set hold the same keys after every prefix of the run. */
  lemma {:induction false} PrefixTracksSet(order: seq<Key>, cap: nat, ops: seq<Op>, n: nat)
    requires QueueOk(order, cap) && n <= |ops| && Peak(Keys(order), ops) <= cap
    ensures Keys(Run(order, cap, ops[..n])) == SetRun(Keys(order), ops[..n])
    decreases n
  {
    if n > 0 {
      PeakOfRest(Keys(order), ops);
      StepTracksSet(order, cap, ops[0]);
      StepKeeps(order, cap, ops[0]);
      PrefixRuns(order, Keys(order), cap, ops, n);
      PrefixTracksSet(Step(order, cap, ops[0]), cap, ops[1..], n - 1);
    }
  }

  /** If every prefix of the set run fits the capacity, so does its peak. */
  lemma {:induction false} PeakFromPrefixes(seen: set<Key>, ops: seq<Op>, cap: nat)
    requires forall n | 0 <= n <= |ops| :: |SetRun(seen, ops[..n])| <= cap
    ensures Peak(seen, ops) <= cap
    decreases |ops|
  {
    assert |SetRun(seen, ops[..0])| <= cap;
    if ops != [] {
      forall n | 0 <= n <= |ops[1..]| ensures |SetRun(SetStep(seen, ops[0]), ops[1..][..n])| <= cap {
        assert ops[..n + 1][1..] == ops[1..][..n];
        assert |SetRun(seen, ops[..n + 1])| <= cap;
      }
      PeakFromPrefixes(SetStep(seen, ops[0]), ops[1..], cap);
    }
  }

  /**
   The cache stands for an unbounded set, after every operation of a run, if and only if the run
   never asks it to remember more than `cap` keys at once.
   */
  lemma RefinesSetIff(order: seq<Key>, cap: nat, ops: seq<Op>)
    requires QueueOk(order, cap)
    ensures Peak(Keys(order), ops) <= cap <==>
            (forall n | 0 <= n <= |ops| :: Keys(Run(order, cap, ops[..n])) == SetRun(Keys(order), ops[..n]))
  {
    if Peak(Keys(order), ops) <= cap {
      forall n | 0 <= n <= |ops| ensures Keys(Run(order, cap, ops[..n])) == SetRun(Keys(order), ops[..n]) {
        PrefixTracksSet(order, cap, ops, n);
      }
    } else if forall n | 0 <= n <= |ops| :: Keys(Run(order, cap, ops[..n])) == SetRun(Keys(order), ops[..n]) {
      forall n | 0 <= n <= |ops| ensures |SetRun(Keys(order), ops[..n])| <= cap {
        RunKeeps(order, cap, ops[..n]);
        SizeOfSeen(Run(order, cap, ops[..n]));
        assert Keys(Run(order, cap, ops[..n])) == SetRun(Keys(order), ops[..n]);
      }
      PeakFromPrefixes(Keys(order), ops, cap);
    }
  }
}
