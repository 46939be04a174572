/**
 The invoice rate limiter: a fixed window per (client, path), counted by INCR in Redis and started
 by EXPIRE on the first hit, in one script. Redis failures let the request through uncounted.
 */
module RateLimiter {
  import opened Commands
  import opened Options

  type Byte = x: int | 0 <= x < 256
  type Bucket = seq<Byte>     // the bytes that are hashed into the key

  /** The limit of a location: `max` requests per `window` seconds. */
  datatype Limit = Limit(max: nat, window: nat)

  /** A live counter and the second its window began. */
  datatype Counter = Counter(count: nat, start: nat)

  type Counters = map<Bucket, Counter>

  // ---------------------------------------------------------------- bucket names

  /** The bytes hashed for a pair: client, a zero byte, path. */
  method BucketBytes(client: Bucket, path: Bucket) returns (buf: Bucket)
    ensures buf == client + [0] + path
  {
    buf := [];
    buf := buf + client;
    buf := buf + [0];
    buf := buf + path;
  }

  /** The first zero byte marks where the client ends. */
  lemma FirstZero(client: Bucket, path: Bucket)
    requires 0 !in client
    ensures var bytes := client + [0] + path; bytes[|client|] == 0 && forall i | 0 <= i < |client| :: bytes[i] != 0
  {
    forall i | 0 <= i < |client| ensures (client + [0] + path)[i] != 0 { assert client[i] in client; }
  }

  /** No pair of zero-free clients shares a bucket. */
  lemma BucketsAreDistinct(client: Bucket, path: Bucket, client': Bucket, path': Bucket)
    requires 0 !in client && 0 !in client'
    requires client + [0] + path == client' + [0] + path'
    ensures client == client' && path == path'
  {
    var a, b := client + [0] + path, client' + [0] + path';
    FirstZero(client, path);
    FirstZero(client', path');
    assert a[|client|] == 0 && b[|client'|] == 0;
    assert client == a[..|client|] && client' == b[..|client|];
    assert path == a[|client| + 1..] && path' == b[|client| + 1..];
  }

  /** With a zero byte in a client it can happen: the same bytes read as two different pairs. */
  lemma ZeroByteSharesBucket(client: Bucket, rest: Bucket, path: Bucket)
    ensures client + [0] + (rest + [0] + path) == (client + [0] + rest) + [0] + path
    ensures client != client + [0] + rest
  {
    assert |client| < |client + [0] + rest|;
  }

  /** invoice_rate_limit_key: the prefix and the hash of the bytes. */
  method InvoiceRateLimitKey(client: Bucket, path: Bucket, hash: Bucket -> string) returns (key: string)
    ensures key == KeyOf(client, path, hash)
  {
    var buf := BucketBytes(client, path);
    key := "l402:invoice_rate:" + hash(buf);
  }

  function KeyOf(client: Bucket, path: Bucket, hash: Bucket -> string): string {
    "l402:invoice_rate:" + hash(client + [0] + path)
  }

  /** With an injective hash two zero-free clients share a key exactly when client and path are the same. */
  lemma KeysAgreeIff(client: Bucket, path: Bucket, client': Bucket, path': Bucket, hash: Bucket -> string)
    requires 0 !in client && 0 !in client'
    requires forall a, b :: hash(a) == hash(b) ==> a == b
    ensures KeyOf(client, path, hash) == KeyOf(client', path', hash) <==> client == client' && path == path'
  {
    var prefix := "l402:invoice_rate:";
    var h, h' := hash(client + [0] + path), hash(client' + [0] + path');
    assert (prefix + h)[|prefix|..] == h && (prefix + h')[|prefix|..] == h';
    if KeyOf(client, path, hash) == KeyOf(client', path', hash) {
      BucketsAreDistinct(client, path, client', path');
    }
  }

  // ---------------------------------------------------------------- one hit

  /** The counter under `b`, unless its window has passed. */
  function Current(l: Limit, counters: Counters, b: Bucket, now: nat): Option<Counter> {
    if b in counters && now < counters[b].start + l.window then Some(counters[b]) else None
  }

  /** INCR, and EXPIRE when the counter is new. */
  function Bump(l: Limit, counters: Counters, b: Bucket, now: nat): Counter {
    match Current(l, counters, b, now)
    case Some(c) => Counter(c.count + 1, c.start)
    case None => Counter(1, now)
  }

  class Limiter {
    var counters: Counters
    var now: nat
    const limit: Limit

    constructor (limit: Limit)
      ensures counters == map[] && now == 0 && this.limit == limit
    {
      this.counters, this.now, this.limit := map[], 0, limit;
    }

    /** check_invoice_rate_limit: allowed while within the limit, or while Redis cannot say. */
    method Check(client: Bucket, path: Bucket, fate: Fate) returns (allowed: bool)
      modifies this`counters
      ensures var b := client + [0] + path;
              && counters == (if fate.NotSent? then old(counters)
                              else old(counters)[b := Bump(limit, old(counters), b, now)])
              && (allowed <==> !fate.Answered? || Bump(limit, old(counters), b, now).count <= limit.max)
      ensures fate != NotSent ==>
                var b := client + [0] + path;
                && b in counters
                && counters[b] == (if b in old(counters) && now < old(counters)[b].start + limit.window
                                   then Counter(old(counters)[b].count + 1, old(counters)[b].start)
                                   else Counter(1, now))
                && (fate == Answered ==> (allowed <==> counters[b].count <= limit.max))
    {
      if fate.NotSent? {
        return true;
      }
      var b := BucketBytes(client, path);
      var count, start := 0, now;
      if b in counters && now < counters[b].start + limit.window {
        count, start := counters[b].count, counters[b].start;
      }
      count := count + 1;
      counters := counters[b := Counter(count, start)];
      allowed := fate.ReplyLost? || count <= limit.max;
    }
  }

  // ---------------------------------------------------------------- runs

  /** A request let through by Redis: when, and in which window. */
  datatype Pass = Pass(bucket: Bucket, at: nat, start: nat)

  datatype State = State(now: nat, counters: Counters, passes: seq<Pass>)

  datatype Event = Tick | Hit(bucket: Bucket, fate: Fate)

  const INIT := State(0, map[], [])

  function Next(l: Limit, s: State, e: Event): State {
    match e
    case Tick => s.(now := s.now + 1)
    case Hit(b, fate) =>
      if fate.NotSent? then s
      else
        var c := Bump(l, s.counters, b, s.now);
        s.(counters := s.counters[b := c],
           passes := if fate.Answered? && c.count <= l.max then s.passes + [Pass(b, s.now, c.start)] else s.passes)
  }

  function Run(l: Limit, s: State, es: seq<Event>): State
    decreases |es|
  {
    if es == [] then s else Run(l, Next(l, s, es[0]), es[1..])
  }

  /** A hit that never reaches Redis is not counted; one whose answer is lost is counted and let through unseen. */
  lemma UnansweredHits(l: Limit, s: State, b: Bucket)
    ensures Next(l, s, Tick) == s.(now := s.now + 1)
    ensures Next(l, s, Hit(b, NotSent)) == s
    ensures var s' := Next(l, s, Hit(b, ReplyLost));
            s'.passes == s.passes && s'.now == s.now && s'.counters == Next(l, s, Hit(b, Answered)).counters
  {
  }

  /**
   An answered hit: the first of a window starts it, a later one leaves its start, no other bucket
   moves, and the request passes while the count is within the limit.
   */
  lemma AnsweredHit(l: Limit, s: State, b: Bucket)
    ensures var s' := Next(l, s, Hit(b, Answered));
            && b in s'.counters && s'.now == s.now
            && (b !in s.counters || s.now >= s.counters[b].start + l.window ==> s'.counters[b] == Counter(1, s.now))
            && (b in s.counters && s.now < s.counters[b].start + l.window ==>
                  s'.counters[b] == Counter(s.counters[b].count + 1, s.counters[b].start))
            && s'.counters == s.counters[b := s'.counters[b]]
            && s'.passes == if s'.counters[b].count <= l.max then s.passes + [Pass(b, s.now, s'.counters[b].start)]
                            else s.passes
  {
  }

  function Count(passes: seq<Pass>, f: Pass -> bool): nat {
    if passes == [] then 0
    else Count(passes[..|passes| - 1], f) + (if f(passes[|passes| - 1]) then 1 else 0)
  }

  /** Passes of a bucket in the window that began at `start`. */
  function InWindow(b: Bucket, start: nat): Pass -> bool {
    (p: Pass) => p.bucket == b && p.start == start
  }

  /** ... without those in its first second, where the window was opened. */
  function Later(b: Bucket, start: nat): Pass -> bool {
    (p: Pass) => p.bucket == b && p.start == start && p.at > start
  }

  /** Passes of a bucket at times in [from, from + window). */
  function InInterval(b: Bucket, from: nat, window: nat): Pass -> bool {
    (p: Pass) => p.bucket == b && from <= p.at < from + window
  }

  // ---------------------------------------------------------------- what every hit keeps

  ghost predicate PassOk(l: Limit, s: State, p: Pass) {
    && p.start <= p.at < p.start + l.window && p.at <= s.now
    && p.bucket in s.counters
    && (s.counters[p.bucket].start == p.start || p.start + l.window <= s.counters[p.bucket].start)
  }

  /** Windows of one bucket do not overlap. */
  ghost predicate WindowsApart(l: Limit, passes: seq<Pass>) {
    forall p, q | p in passes && q in passes && p.bucket == q.bucket ::
      p.start == q.start || p.start + l.window <= q.start || q.start + l.window <= p.start
  }

  ghost predicate CountsOk(l: Limit, passes: seq<Pass>) {
    forall b, start ::
      && Count(passes, InWindow(b, start)) <= l.max
      && (Count(passes, Later(b, start)) == 0 || Count(passes, Later(b, start)) < l.max)
  }

  /** The hit that opened the window is in the counter too. */
  ghost predicate CountersOk(s: State) {
    forall b | b in s.counters ::
      && s.counters[b].start <= s.now
      && Count(s.passes, InWindow(b, s.counters[b].start)) <= s.counters[b].count
      && Count(s.passes, Later(b, s.counters[b].start)) < s.counters[b].count
  }

  ghost predicate Inv(l: Limit, s: State) {
    && (forall p | p in s.passes :: PassOk(l, s, p))
    && WindowsApart(l, s.passes) && CountsOk(l, s.passes) && CountersOk(s)
  }

  lemma {:induction false} NoneCounted(passes: seq<Pass>, f: Pass -> bool)
    requires forall p | p in passes :: !f(p)
    ensures Count(passes, f) == 0
  {
    if passes != [] {
      assert passes[|passes| - 1] in passes;
      NoneCounted(passes[..|passes| - 1], f);
    }
  }

  /** A new window starts with nothing counted in it. */
  lemma NewWindowIsEmpty(l: Limit, s: State, b: Bucket)
    requires l.window > 0 && Inv(l, s) && Current(l, s.counters, b, s.now).None?
    ensures Count(s.passes, InWindow(b, s.now)) == 0 && Count(s.passes, Later(b, s.now)) == 0
  {
    forall p | p in s.passes ensures !InWindow(b, s.now)(p) && !Later(b, s.now)(p) { assert PassOk(l, s, p); }
    NoneCounted(s.passes, InWindow(b, s.now));
    NoneCounted(s.passes, Later(b, s.now));
  }

  /** What one more pass adds to a count. */
  lemma CountPush(passes: seq<Pass>, p: Pass, f: Pass -> bool)
    ensures Count(passes + [p], f) == Count(passes, f) + if f(p) then 1 else 0
  {
    assert (passes + [p])[..|passes|] == passes;
  }

  lemma HitCounts(l: Limit, s: State, b: Bucket, fate: Fate)
    requires l.window > 0 && Inv(l, s)
    ensures CountsOk(l, Next(l, s, Hit(b, fate)).passes)
  {
    var s' := Next(l, s, Hit(b, fate));
    if Current(l, s.counters, b, s.now).None? { NewWindowIsEmpty(l, s, b); }
    if s'.passes != s.passes {
      var p := Pass(b, s.now, s'.counters[b].start);
      forall b', start
        ensures && Count(s'.passes, InWindow(b', start)) <= l.max
                && (Count(s'.passes, Later(b', start)) == 0 || Count(s'.passes, Later(b', start)) < l.max)
      {
        CountPush(s.passes, p, InWindow(b', start));
        CountPush(s.passes, p, Later(b', start));
        assert Count(s.passes, InWindow(b', start)) <= l.max;
      }
    }
  }

  lemma HitCounters(l: Limit, s: State, b: Bucket, fate: Fate)
    requires l.window > 0 && Inv(l, s)
    ensures CountersOk(Next(l, s, Hit(b, fate)))
  {
    var s' := Next(l, s, Hit(b, fate));
    if Current(l, s.counters, b, s.now).None? { NewWindowIsEmpty(l, s, b); }
    if s'.passes != s.passes {
      var p := Pass(b, s.now, s'.counters[b].start);
      forall b' | b' in s'.counters
        ensures && s'.counters[b'].start <= s'.now
                && Count(s'.passes, InWindow(b', s'.counters[b'].start)) <= s'.counters[b'].count
                && Count(s'.passes, Later(b', s'.counters[b'].start)) < s'.counters[b'].count
      {
        CountPush(s.passes, p, InWindow(b', s'.counters[b'].start));
        CountPush(s.passes, p, Later(b', s'.counters[b'].start));
      }
    }
  }

  lemma HitKeepsWindows(l: Limit, s: State, b: Bucket, fate: Fate)
    requires l.window > 0 && Inv(l, s)
    ensures var s' := Next(l, s, Hit(b, fate)); forall p | p in s'.passes :: PassOk(l, s', p)
  {
    var s' := Next(l, s, Hit(b, fate));
    forall p | p in s'.passes ensures PassOk(l, s', p) {
      if p in s.passes { assert PassOk(l, s, p); }
    }
  }

  lemma HitKeeps(l: Limit, s: State, b: Bucket, fate: Fate)
    requires l.window > 0 && Inv(l, s)
    ensures Inv(l, Next(l, s, Hit(b, fate)))
  {
    var s' := Next(l, s, Hit(b, fate));
    HitCounts(l, s, b, fate);
    HitCounters(l, s, b, fate);
    HitKeepsWindows(l, s, b, fate);
    forall p, q | p in s'.passes && q in s'.passes && p.bucket == q.bucket
      ensures p.start == q.start || p.start + l.window <= q.start || q.start + l.window <= p.start
    {
      assert PassOk(l, s', p) && PassOk(l, s', q);
    }
  }

  lemma {:induction false} RunKeeps(l: Limit, s: State, es: seq<Event>)
    requires l.window > 0 && Inv(l, s)
    ensures Inv(l, Run(l, s, es))
    decreases |es|
  {
    if es != [] {
      match es[0] {
        case Tick =>
          forall p | p in s.passes ensures PassOk(l, Next(l, s, Tick), p) { assert PassOk(l, s, p); }
        case Hit(b, fate) =>
          HitKeeps(l, s, b, fate);
      }
      RunKeeps(l, Next(l, s, es[0]), es[1..]);
    }
  }

  // ---------------------------------------------------------------- bounds

  lemma {:induction false} CountUnion(passes: seq<Pass>, f: Pass -> bool, g: Pass -> bool, h: Pass -> bool)
    requires forall p | p in passes && f(p) :: g(p) || h(p)
    ensures Count(passes, f) <= Count(passes, g) + Count(passes, h)
  {
    if passes != [] {
      assert passes[|passes| - 1] in passes;
      CountUnion(passes[..|passes| - 1], f, g, h);
    }
  }

  /** Once two windows share a stretch, every pass in it is in the later one, or in the earlier after its opening. */
  lemma NoThirdWindow(l: Limit, s: State, b: Bucket, from: nat, p: Pass, q: Pass, r: Pass)
    requires Inv(l, s) && p in s.passes && q in s.passes && r in s.passes && p.start < q.start
    requires InInterval(b, from, l.window)(p) && InInterval(b, from, l.window)(q) && InInterval(b, from, l.window)(r)
    ensures InWindow(b, q.start)(r) || Later(b, p.start)(r)
  {
    assert PassOk(l, s, p) && PassOk(l, s, q) && PassOk(l, s, r);
    assert p.start + l.window <= q.start;
  }

  /** At most two windows of a bucket reach into a stretch of one window length, and the earlier opened before it. */
  lemma WindowsAround(l: Limit, s: State, b: Bucket, from: nat) returns (early: nat, late: nat)
    requires l.window > 0 && Inv(l, s)
    ensures forall p | p in s.passes && InInterval(b, from, l.window)(p) :: InWindow(b, late)(p) || Later(b, early)(p)
  {
    early, late := 0, 0;
    if p, q :| p in s.passes && q in s.passes && p.start < q.start
               && InInterval(b, from, l.window)(p) && InInterval(b, from, l.window)(q) {
      early, late := p.start, q.start;
      forall r | r in s.passes && InInterval(b, from, l.window)(r) ensures InWindow(b, late)(r) || Later(b, early)(r) {
        NoThirdWindow(l, s, b, from, p, q, r);
      }
    } else if p :| p in s.passes && InInterval(b, from, l.window)(p) {
      early, late := p.start, p.start;
    }
  }

  /**
   While Redis decides, no client gets more than `max` requests through per window and route, and in
   no stretch of `window` seconds, wherever it starts, more than 2 * max - 1: when two windows share
   a stretch, the hit that opened the first lies before it.
   */
  lemma BoundedInEveryInterval(l: Limit, es: seq<Event>, b: Bucket, start: nat, from: nat)
    requires l.window > 0
    ensures var passes := Run(l, INIT, es).passes;
            && Count(passes, InWindow(b, start)) <= l.max
            && Count(passes, InInterval(b, from, l.window)) <= if l.max == 0 then 0 else 2 * l.max - 1
  {
    RunKeeps(l, INIT, es);
    var s := Run(l, INIT, es);
    var early, late := WindowsAround(l, s, b, from);
    CountUnion(s.passes, InInterval(b, from, l.window), InWindow(b, late), Later(b, early));
    assert Count(s.passes, InWindow(b, start)) <= l.max;
    assert Count(s.passes, InWindow(b, late)) <= l.max;
    assert Count(s.passes, Later(b, early)) == 0 || Count(s.passes, Later(b, early)) < l.max;
  }

  // ---------------------------------------------------------------- the bound is met

  lemma {:induction false} RunAppend(l: Limit, s: State, es: seq<Event>, more: seq<Event>)
    ensures Run(l, s, es + more) == Run(l, Run(l, s, es), more)
    decreases |es|
  {
    if es == [] {
      assert es + more == more;
    } else {
      assert (es + more)[1..] == es[1..] + more;
      RunAppend(l, Next(l, s, es[0]), es[1..], more);
    }
  }

  function Repeat(e: Event, n: nat): seq<Event> {
    seq(n, _ => e)
  }

  lemma {:induction false} TicksPass(l: Limit, s: State, n: nat)
    ensures Run(l, s, Repeat(Tick, n)) == s.(now := s.now + n)
    decreases n
  {
    if n > 0 {
      assert Repeat(Tick, n)[1..] == Repeat(Tick, n - 1);
      TicksPass(l, Next(l, s, Tick), n - 1);
    }
  }

  lemma FirstOfBurst(l: Limit, s: State, b: Bucket, n: nat)
    requires n > 0 && Bump(l, s.counters, b, s.now).count <= l.max
    ensures var c := Bump(l, s.counters, b, s.now);
            var s' := State(s.now, s.counters[b := c], s.passes + [Pass(b, s.now, c.start)]);
            Run(l, s, Repeat(Hit(b, Answered), n)) == Run(l, s', Repeat(Hit(b, Answered), n - 1))
  {
    assert Repeat(Hit(b, Answered), n)[1..] == Repeat(Hit(b, Answered), n - 1);
  }

  /** Where the first hit of a burst leaves things: one in the count, and the window where it was. */
  lemma BurstGoesOn(l: Limit, s: State, b: Bucket, from: nat)
    requires l.window > 0 && from <= s.now < from + l.window && Bump(l, s.counters, b, s.now).count <= l.max
    ensures var c := Bump(l, s.counters, b, s.now);
            var s1 := State(s.now, s.counters[b := c], s.passes + [Pass(b, s.now, c.start)]);
            && Current(l, s1.counters, b, s.now) == Some(c)
            && Bump(l, s1.counters, b, s.now).start == c.start
            && Count(s1.passes, InInterval(b, from, l.window)) == Count(s.passes, InInterval(b, from, l.window)) + 1
  {
    var c := Bump(l, s.counters, b, s.now);
    CountPush(s.passes, Pass(b, s.now, c.start), InInterval(b, from, l.window));
  }

  /** A burst its window still has room for passes whole. */
  lemma {:induction false} BurstPasses(l: Limit, s: State, b: Bucket, n: nat, from: nat)
    requires var c := Current(l, s.counters, b, s.now); n > 0 ==> (if c.Some? then c.value.count else 0) + n <= l.max
    requires l.window > 0 && from <= s.now < from + l.window
    ensures var s' := Run(l, s, Repeat(Hit(b, Answered), n));
            && s'.now == s.now
            && (n == 0 ==> s' == s)
            && (n > 0 ==> b in s'.counters && s'.counters[b].start == Bump(l, s.counters, b, s.now).start)
            && Count(s'.passes, InInterval(b, from, l.window)) == Count(s.passes, InInterval(b, from, l.window)) + n
    decreases n
  {
    if n > 0 {
      var c := Bump(l, s.counters, b, s.now);
      var s1 := State(s.now, s.counters[b := c], s.passes + [Pass(b, s.now, c.start)]);
      FirstOfBurst(l, s, b, n);
      BurstGoesOn(l, s, b, from);
      BurstPasses(l, s1, b, n - 1, from);
    }
  }

  /** One request opens a window, max - 1 follow in its last second, and max more a second later. */
  function DoubleBurst(l: Limit, b: Bucket): seq<Event>
    requires l.max > 0 && l.window > 1
  {
    Repeat(Hit(b, Answered), 1) + (Repeat(Tick, l.window - 1) + Bursts(l, b))
  }

  function Bursts(l: Limit, b: Bucket): seq<Event>
    requires l.max > 0
  {
    Repeat(Hit(b, Answered), l.max - 1) + (Repeat(Tick, 1) + Repeat(Hit(b, Answered), l.max))
  }

  lemma BurstsPass(l: Limit, s: State, b: Bucket)
    requires l.max > 0 && l.window > 1 && s.now == l.window - 1
    requires b in s.counters && s.counters[b] == Counter(1, 0)
    ensures Count(Run(l, s, Bursts(l, b)).passes, InInterval(b, s.now, l.window))
         == Count(s.passes, InInterval(b, s.now, l.window)) + 2 * l.max - 1
  {
    var hit := Hit(b, Answered);
    RunAppend(l, s, Repeat(hit, l.max - 1), Repeat(Tick, 1) + Repeat(hit, l.max));
    BurstPasses(l, s, b, l.max - 1, s.now);
    var s1 := Run(l, s, Repeat(hit, l.max - 1));
    RunAppend(l, s1, Repeat(Tick, 1), Repeat(hit, l.max));
    TicksPass(l, s1, 1);
    BurstPasses(l, s1.(now := s1.now + 1), b, l.max, s.now);
  }

  lemma DoubleBurstMeetsTheBound(l: Limit, b: Bucket)
    requires l.max > 0 && l.window > 1
    ensures Count(Run(l, INIT, DoubleBurst(l, b)).passes, InInterval(b, l.window - 1, l.window)) == 2 * l.max - 1
  {
    var hit := Hit(b, Answered);
    var s1 := Next(l, INIT, hit);
    assert Repeat(hit, 1) == [hit] && [hit][1..] == [];
    assert Run(l, INIT, Repeat(hit, 1)) == s1;
    assert s1.passes == [Pass(b, 0, 0)] && s1.passes[..0] == [];
    assert Count(s1.passes, InInterval(b, l.window - 1, l.window)) == 0;
    RunAppend(l, INIT, Repeat(hit, 1), Repeat(Tick, l.window - 1) + Bursts(l, b));
    RunAppend(l, s1, Repeat(Tick, l.window - 1), Bursts(l, b));
    TicksPass(l, s1, l.window - 1);
    BurstsPass(l, s1.(now := l.window - 1), b);
  }
}
