/**
 The request counters: sixteen u64 slots every worker adds to, and the order in which one request
 adds to them. The laws hold between any two increments of any number of workers.
 */
module Counters {
  import opened Options
  import opened Markers

  const U64 := 0x1_0000_0000_0000_0000

  datatype Metric =
    | RequestsTotal | ChallengesIssuedTotal | PaymentsValidTotal | PaymentsLightningTotal
    | PaymentsCashuTotal | PaymentsInvalidTotal | PaymentsMissingTotal | InvoicesGeneratedTotal
    | InvoicesGenerationErrorsTotal | RateLimitedTotal | DryRunRequestsTotal | DryRunWouldBlockTotal
    | DryRunWouldAllowTotal | DryRunChallengeErrorsTotal | DryRunRateLimitedTotal | DryRunPriceMsatSum

  const COUNT: nat := 16

  /** The slot of a metric: its discriminant. */
  function Slot(m: Metric): (i: nat)
    ensures i < COUNT
  {
    match m
    case RequestsTotal => 0
    case ChallengesIssuedTotal => 1
    case PaymentsValidTotal => 2
    case PaymentsLightningTotal => 3
    case PaymentsCashuTotal => 4
    case PaymentsInvalidTotal => 5
    case PaymentsMissingTotal => 6
    case InvoicesGeneratedTotal => 7
    case InvoicesGenerationErrorsTotal => 8
    case RateLimitedTotal => 9
    case DryRunRequestsTotal => 10
    case DryRunWouldBlockTotal => 11
    case DryRunWouldAllowTotal => 12
    case DryRunChallengeErrorsTotal => 13
    case DryRunRateLimitedTotal => 14
    case DryRunPriceMsatSum => 15
  }

  /** No two metrics share a slot. */
  lemma SlotsAreDistinct(m: Metric, m': Metric)
    requires Slot(m) == Slot(m')
    ensures m == m'
  {
  }

  /** What the slots read as, metric by metric. */
  type Reading = Metric -> nat

  /** fetch_add: u64 addition wraps. */
  function Added(slots: Reading, m: Metric, n: nat): Reading {
    (m': Metric) => if m' == m then (slots(m) + n) % U64 else slots(m')
  }

  class MetricsBlock {
    const counters: array<nat>

    constructor ()
      ensures fresh(counters) && counters.Length == COUNT && forall m: Metric :: counters[Slot(m)] == 0
    {
      counters := new nat[COUNT](_ => 0);
    }

    function Read(): Reading
      requires counters.Length == COUNT
      reads this, counters
    {
      var now := counters[..];
      (m: Metric) => now[Slot(m)]
    }

    method Inc(m: Metric)
      requires counters.Length == COUNT
      modifies counters
      ensures forall m': Metric :: Read()(m') == Added(old(Read()), m, 1)(m')
    {
      Add(m, 1);
    }

    method Add(m: Metric, n: nat)
      requires counters.Length == COUNT
      modifies counters
      ensures forall m': Metric :: Read()(m') == Added(old(Read()), m, n)(m')
    {
      counters[Slot(m)] := (counters[Slot(m)] + n) % U64;
      forall m': Metric ensures Read()(m') == Added(old(Read()), m, n)(m') {
        if Slot(m') == Slot(m) { SlotsAreDistinct(m, m'); }
      }
    }
  }

  // ---------------------------------------------------------------- the verdict on a request

  datatype PaymentMethod = Lightning | Cashu

  /** What the access handler finds out about a request. */
  datatype Attempt =
    | NoCredential                                        // no header, or another scheme
    | NotInitialised
    | CashuAccepted
    | CashuRefused(error: CashuStatus)
    | CashuPanicked
    | L402Refused(reason: L402Status)                     // before verification succeeded
    | L402Verified(indefinite: bool, claim: ClaimResult)

  /** BadCredential, Unacceptable, Internal. */
  datatype CashuStatus = Cashu401 | Cashu400 | Cashu500
  /** A bad macaroon, preimage or replay; not settled yet; the node could not be asked. */
  datatype L402Status = L402Bad401 | L402Unsettled402 | L402Node500

  /** l402_access_handler: the status, and the thread-local note of how the request paid. */
  function AccessHandler(a: Attempt): (int, Option<PaymentMethod>) {
    match a
    case NoCredential => (402, None)
    case NotInitialised => (500, None)
    case CashuAccepted => (NGX_DECLINED, Some(Cashu))
    case CashuRefused(Cashu401) => (401, None)
    case CashuRefused(Cashu400) => (400, None)
    case CashuRefused(Cashu500) => (500, None)
    case CashuPanicked => (500, None)
    case L402Refused(L402Bad401) => (401, None)
    case L402Refused(L402Unsettled402) => (402, None)
    case L402Refused(L402Node500) => (500, None)
    case L402Verified(indefinite, claim) =>
      (if indefinite then NGX_DECLINED else HandlePreimageClaim(claim), Some(Lightning))
  }

  // ---------------------------------------------------------------- one request's increments

  /** Everything about a request that its increments depend on. */
  datatype Plan = Plan(status: int, paidBy: Option<PaymentMethod>,
                       dryRun: bool, overLimit: bool, minted: bool, price: nat,
                       attempt: Attempt)       // history: what came in

  /** The increment a worker makes next. */
  datatype Pc =
    | Free
    | Entered(p: Plan)
    | Judged(p: Plan)
    | Method(p: Plan)
    | Gate(p: Plan)
    | Challenge(p: Plan)
    | DryPrice(p: Plan)
    | DryVerdict(p: Plan)
    | DryLimit(p: Plan)
    | DryChallenge(p: Plan)

  datatype State = State(
    slots: Reading,            // what the block holds
    counts: Reading,           // history: what was added, without wrapping
    finished: seq<Plan>,       // history: the requests that are through
    workers: seq<Pc>)

  datatype Event =
    | Arrive(w: nat, attempt: Attempt, dryRun: bool, overLimit: bool, minted: bool, price: nat)
    | Step(w: nat)

  function Init(workers: nat): State {
    State(m => 0, m => 0, [], seq(workers, _ => Free))
  }

  /** What one step adds (an `amount` of zero adds nothing), and where the worker goes. */
  datatype Effect = Effect(metric: Metric, amount: nat, next: Pc)

  function Inc(m: Metric, next: Pc): Effect {
    Effect(m, 1, next)
  }

  function Move(next: Pc): Effect {
    Effect(RequestsTotal, 0, next)
  }

  /** The next increment at each place, in the order of the wrapper and of the dry-run path. */
  function EffectOf(pc: Pc): Effect {
    match pc
    case Free => Move(Free)
    case Entered(p) => Inc(RequestsTotal, Judged(p))
    case Judged(p) =>
      if p.dryRun then Inc(DryRunRequestsTotal, DryPrice(p))
      else if p.status == NGX_DECLINED then Inc(PaymentsValidTotal, Method(p))
      else if p.status == 400 || p.status == 401 then Inc(PaymentsInvalidTotal, Free)
      else if p.status == 402 then Inc(PaymentsMissingTotal, Gate(p))
      else Move(Free)
    case Method(p) =>
      (match p.paidBy
       case Some(Lightning) => Inc(PaymentsLightningTotal, Free)
       case Some(Cashu) => Inc(PaymentsCashuTotal, Free)
       case None => Move(Free))
    case Gate(p) => if p.overLimit then Inc(RateLimitedTotal, Free) else Inc(ChallengesIssuedTotal, Challenge(p))
    case Challenge(p) => Inc(if p.minted then InvoicesGeneratedTotal else InvoicesGenerationErrorsTotal, Free)
    case DryPrice(p) => Effect(DryRunPriceMsatSum, p.price, DryVerdict(p))
    case DryVerdict(p) =>
      if p.status == NGX_DECLINED then Inc(DryRunWouldAllowTotal, DryLimit(p))
      else if 400 <= p.status <= 402 then Inc(DryRunWouldBlockTotal, DryLimit(p))
      else Move(DryLimit(p))
    case DryLimit(p) =>
      if p.status != 402 then Move(Free)
      else if p.overLimit then Inc(DryRunRateLimitedTotal, Free)
      else Move(DryChallenge(p))
    case DryChallenge(p) => if p.minted then Move(Free) else Inc(DryRunChallengeErrorsTotal, Free)
  }

  function Gain(e: Effect, m: Metric): nat {
    if e.metric == m then e.amount else 0
  }

  function StepWorker(s: State, w: nat): State
    requires w < |s.workers|
  {
    var pc, counts := s.workers[w], s.counts;
    var e := EffectOf(pc);
    State(Added(s.slots, e.metric, e.amount),
          (m: Metric) => counts(m) + Gain(e, m),
          if !pc.Free? && e.next.Free? then s.finished + [pc.p] else s.finished,
          s.workers[w := e.next])
  }

  function Next(s: State, e: Event): State {
    match e
    case Arrive(w, attempt, dryRun, overLimit, minted, price) =>
      if w < |s.workers| && s.workers[w].Free? then
        var (status, paidBy) := AccessHandler(attempt);
        s.(workers := s.workers[w := Entered(Plan(status, paidBy, dryRun, overLimit, minted, price, attempt))])
      else s
    case Step(w) => if w < |s.workers| then StepWorker(s, w) else s
  }

  function Run(s: State, es: seq<Event>): State
    decreases |es|
  {
    if es == [] then s else Run(Next(s, es[0]), es[1..])
  }

  // ---------------------------------------------------------------- what a request should count

  function Bit(b: bool): nat {
    if b then 1 else 0
  }

  /** What a finished request adds to each counter, by the meaning of the counters. */
  function Due(p: Plan, m: Metric): nat {
    match m
    case RequestsTotal => 1
    case PaymentsValidTotal => Bit(!p.dryRun && p.status == NGX_DECLINED)
    case PaymentsLightningTotal => Bit(!p.dryRun && p.status == NGX_DECLINED && p.paidBy == Some(Lightning))
    case PaymentsCashuTotal => Bit(!p.dryRun && p.status == NGX_DECLINED && p.paidBy == Some(Cashu))
    case PaymentsInvalidTotal => Bit(!p.dryRun && (p.status == 400 || p.status == 401))
    case PaymentsMissingTotal => Bit(!p.dryRun && p.status == 402)
    case RateLimitedTotal => Bit(!p.dryRun && p.status == 402 && p.overLimit)
    case ChallengesIssuedTotal => Bit(!p.dryRun && p.status == 402 && !p.overLimit)
    case InvoicesGeneratedTotal => Bit(!p.dryRun && p.status == 402 && !p.overLimit && p.minted)
    case InvoicesGenerationErrorsTotal => Bit(!p.dryRun && p.status == 402 && !p.overLimit && !p.minted)
    case DryRunRequestsTotal => Bit(p.dryRun)
    case DryRunWouldAllowTotal => Bit(p.dryRun && p.status == NGX_DECLINED)
    case DryRunWouldBlockTotal => Bit(p.dryRun && 400 <= p.status <= 402)
    case DryRunRateLimitedTotal => Bit(p.dryRun && p.status == 402 && p.overLimit)
    case DryRunChallengeErrorsTotal => Bit(p.dryRun && p.status == 402 && !p.overLimit && !p.minted)
    case DryRunPriceMsatSum => if p.dryRun then p.price else 0
  }

  /** What a request has added by the time it gets to a place. */
  function Done(pc: Pc, m: Metric): nat {
    match pc
    case Free => 0
    case Entered(_) => 0
    case Judged(_) => Bit(m == RequestsTotal)
    case Method(_) => Bit(m == RequestsTotal || m == PaymentsValidTotal)
    case Gate(_) => Bit(m == RequestsTotal || m == PaymentsMissingTotal)
    case Challenge(_) => Bit(m == RequestsTotal || m == PaymentsMissingTotal || m == ChallengesIssuedTotal)
    case DryPrice(_) => Bit(m == RequestsTotal || m == DryRunRequestsTotal)
    case DryVerdict(p) => DryPriced(p, m)
    case DryLimit(p) => DryPriced(p, m) + DryOutcome(p, m)
    case DryChallenge(p) => DryPriced(p, m) + DryOutcome(p, m)
  }

  function DryPriced(p: Plan, m: Metric): nat {
    if m == DryRunPriceMsatSum then p.price else Bit(m == RequestsTotal || m == DryRunRequestsTotal)
  }

  function DryOutcome(p: Plan, m: Metric): nat {
    if p.status == NGX_DECLINED then Bit(m == DryRunWouldAllowTotal)
    else Bit(400 <= p.status <= 402 && m == DryRunWouldBlockTotal)
  }

  /** Where a request can be, given its plan. */
  predicate PcOk(pc: Pc) {
    && (!pc.Free? && pc.p.status == NGX_DECLINED ==> pc.p.paidBy.Some?)
    && match pc
       case Free => true
       case Entered(_) => true
       case Judged(_) => true
       case Method(p) => !p.dryRun && p.status == NGX_DECLINED
       case Gate(p) => !p.dryRun && p.status == 402
       case Challenge(p) => !p.dryRun && p.status == 402 && !p.overLimit
       case DryPrice(p) => p.dryRun
       case DryVerdict(p) => p.dryRun
       case DryLimit(p) => p.dryRun
       case DryChallenge(p) => p.dryRun && p.status == 402 && !p.overLimit
  }

  /** A granted request always has a payment method noted. */
  lemma GrantedHasMethod(a: Attempt)
    requires AccessHandler(a).0 == NGX_DECLINED
    ensures AccessHandler(a).1.Some?
  {
  }

  /** What a request has added after its next step. */
  function Reached(pc: Pc, m: Metric): nat
    requires !pc.Free?
  {
    var next := EffectOf(pc).next;
    if next.Free? then Due(pc.p, m) else Done(next, m)
  }

  lemma FirstStepAdds(pc: Pc, m: Metric)
    requires PcOk(pc) && (pc.Entered? || (pc.Judged? && pc.p.dryRun))
    ensures Done(pc, m) + Gain(EffectOf(pc), m) == Reached(pc, m)
  {
  }

  lemma VerdictAdds(pc: Pc, m: Metric)
    requires PcOk(pc) && pc.Judged? && !pc.p.dryRun
    ensures Done(pc, m) + Gain(EffectOf(pc), m) == Reached(pc, m)
  {
  }

  lemma DryVerdictAdds(pc: Pc, m: Metric)
    requires PcOk(pc) && (pc.DryPrice? || pc.DryVerdict?)
    ensures Done(pc, m) + Gain(EffectOf(pc), m) == Reached(pc, m)
  {
  }

  lemma EnforcedStepAdds(pc: Pc, m: Metric)
    requires PcOk(pc) && (pc.Method? || pc.Gate? || pc.Challenge?)
    ensures Done(pc, m) + Gain(EffectOf(pc), m) == Reached(pc, m)
  {
  }

  lemma DryStepAdds(pc: Pc, m: Metric)
    requires PcOk(pc) && (pc.DryLimit? || pc.DryChallenge?)
    ensures Done(pc, m) + Gain(EffectOf(pc), m) == Reached(pc, m)
  {
  }

  // ---------------------------------------------------------------- every run

  function DueOf(ps: seq<Plan>, m: Metric): nat {
    if ps == [] then 0 else DueOf(ps[..|ps| - 1], m) + Due(ps[|ps| - 1], m)
  }

  function DoneBy(workers: seq<Pc>, m: Metric): nat {
    if workers == [] then 0 else Done(workers[0], m) + DoneBy(workers[1..], m)
  }

  ghost predicate Exact(s: State) {
    forall m: Metric :: s.counts(m) == DueOf(s.finished, m) + DoneBy(s.workers, m)
  }

  ghost predicate SlotsWrap(s: State) {
    forall m: Metric :: s.slots(m) == s.counts(m) % U64
  }

  ghost predicate PcsOk(s: State) {
    && (forall w | 0 <= w < |s.workers| :: PcOk(s.workers[w]))
    && forall i | 0 <= i < |s.finished| && s.finished[i].status == NGX_DECLINED :: s.finished[i].paidBy.Some?
  }

  ghost predicate Inv(s: State) {
    Exact(s) && PcsOk(s) && SlotsWrap(s)
  }

  lemma {:induction false} DoneByUpdate(workers: seq<Pc>, w: nat, pc: Pc, m: Metric)
    requires w < |workers|
    ensures DoneBy(workers[w := pc], m) == DoneBy(workers, m) - Done(workers[w], m) + Done(pc, m)
    decreases |workers|
  {
    if w > 0 {
      assert workers[w := pc][1..] == workers[1..][w - 1 := pc];
      DoneByUpdate(workers[1..], w - 1, pc, m);
    } else {
      assert workers[0 := pc][1..] == workers[1..];
    }
  }

  lemma {:induction false} NoneDone(workers: seq<Pc>, m: Metric)
    requires forall i | 0 <= i < |workers| :: workers[i].Free?
    ensures DoneBy(workers, m) == 0
  {
    if workers != [] {
      NoneDone(workers[1..], m);
    }
  }

  lemma StepAdds(pc: Pc, m: Metric)
    requires PcOk(pc) && !pc.Free?
    ensures Done(pc, m) + Gain(EffectOf(pc), m) == Reached(pc, m)
  {
    if pc.Method? || pc.Gate? || pc.Challenge? {
      EnforcedStepAdds(pc, m);
    } else if pc.DryLimit? || pc.DryChallenge? {
      DryStepAdds(pc, m);
    } else if pc.DryPrice? || pc.DryVerdict? {
      DryVerdictAdds(pc, m);
    } else if pc.Judged? && !pc.p.dryRun {
      VerdictAdds(pc, m);
    } else {
      FirstStepAdds(pc, m);
    }
  }

  lemma DuePush(ps: seq<Plan>, p: Plan, m: Metric)
    ensures DueOf(ps + [p], m) == DueOf(ps, m) + Due(p, m)
  {
    assert (ps + [p])[..|ps|] == ps;
  }

  /** The balance of one counter over one step of a worker on its way. */
  lemma StepBalances(s: State, w: nat, m: Metric)
    requires w < |s.workers| && PcOk(s.workers[w]) && !s.workers[w].Free?
    requires s.counts(m) == DueOf(s.finished, m) + DoneBy(s.workers, m)
    ensures var s' := StepWorker(s, w); s'.counts(m) == DueOf(s'.finished, m) + DoneBy(s'.workers, m)
  {
    var pc := s.workers[w];
    DoneByUpdate(s.workers, w, EffectOf(pc).next, m);
    StepAdds(pc, m);
    DuePush(s.finished, pc.p, m);
  }

  lemma StepIsExact(s: State, w: nat)
    requires Exact(s) && w < |s.workers| && PcOk(s.workers[w])
    ensures Exact(StepWorker(s, w))
  {
    var s' := StepWorker(s, w);
    forall m: Metric ensures s'.counts(m) == DueOf(s'.finished, m) + DoneBy(s'.workers, m) {
      if s.workers[w].Free? {
        assert s.workers[w := Free] == s.workers;
      } else {
        StepBalances(s, w, m);
      }
    }
  }

  lemma StepWraps(s: State, w: nat)
    requires SlotsWrap(s) && w < |s.workers|
    ensures SlotsWrap(StepWorker(s, w))
  {
    var s' := StepWorker(s, w);
    forall m: Metric ensures s'.slots(m) == s'.counts(m) % U64 {
      assert s.slots(m) == s.counts(m) % U64;
      if EffectOf(s.workers[w]).metric == m { AddWraps(s.counts(m), EffectOf(s.workers[w]).amount); }
    }
  }

  lemma AddWraps(count: nat, n: nat)
    ensures (count % U64 + n) % U64 == (count + n) % U64
  {
  }

  lemma EffectKeepsPc(pc: Pc)
    requires PcOk(pc)
    ensures PcOk(EffectOf(pc).next)
  {
  }

  lemma StepKeepsPcs(s: State, w: nat)
    requires PcsOk(s) && w < |s.workers|
    ensures PcsOk(StepWorker(s, w))
  {
    EffectKeepsPc(s.workers[w]);
  }

  lemma ArriveKeeps(s: State, e: Event)
    requires Inv(s) && e.Arrive?
    ensures Inv(Next(s, e))
  {
    if e.w < |s.workers| && s.workers[e.w].Free? {
      var s' := Next(s, e);
      var pc := s'.workers[e.w];
      if AccessHandler(e.attempt).0 == NGX_DECLINED { GrantedHasMethod(e.attempt); }
      forall m: Metric ensures s'.counts(m) == DueOf(s'.finished, m) + DoneBy(s'.workers, m) {
        assert s.counts(m) == DueOf(s.finished, m) + DoneBy(s.workers, m);
        DoneByUpdate(s.workers, e.w, pc, m);
      }
    }
  }

  lemma NextKeeps(s: State, e: Event)
    requires Inv(s)
    ensures Inv(Next(s, e))
  {
    if e.Arrive? {
      ArriveKeeps(s, e);
    } else if e.w < |s.workers| {
      StepIsExact(s, e.w);
      StepKeepsPcs(s, e.w);
      StepWraps(s, e.w);
    }
  }

  lemma {:induction false} RunKeeps(s: State, es: seq<Event>)
    requires Inv(s)
    ensures Inv(Run(s, es))
    decreases |es|
  {
    if es != [] {
      NextKeeps(s, es[0]);
      RunKeeps(Next(s, es[0]), es[1..]);
    }
  }

  lemma InitOk(workers: nat)
    ensures Inv(Init(workers))
  {
    forall m: Metric ensures DoneBy(Init(workers).workers, m) == 0 { NoneDone(Init(workers).workers, m); }
  }

  /** Each counter covers its parts. */
  predicate Ordered(v: Metric -> int) {
    && v(PaymentsLightningTotal) + v(PaymentsCashuTotal) <= v(PaymentsValidTotal)
    && v(RateLimitedTotal) + v(ChallengesIssuedTotal) <= v(PaymentsMissingTotal)
    && v(InvoicesGeneratedTotal) + v(InvoicesGenerationErrorsTotal) <= v(ChallengesIssuedTotal)
    && v(DryRunRateLimitedTotal) + v(DryRunChallengeErrorsTotal) <= v(DryRunWouldBlockTotal)
    && v(DryRunWouldAllowTotal) + v(DryRunWouldBlockTotal) <= v(DryRunRequestsTotal)
    && v(DryRunRequestsTotal) + v(PaymentsValidTotal) + v(PaymentsInvalidTotal) + v(PaymentsMissingTotal)
         <= v(RequestsTotal)
  }

  lemma OrderedSum(u: Metric -> int, v: Metric -> int, w: Metric -> int)
    requires Ordered(u) && Ordered(v) && forall m: Metric :: w(m) == u(m) + v(m)
    ensures Ordered(w)
  {
  }

  /** A finished request splits without remainder. */
  lemma DuesSplit(p: Plan)
    requires p.status == NGX_DECLINED ==> p.paidBy.Some?
    ensures Due(p, PaymentsLightningTotal) + Due(p, PaymentsCashuTotal) == Due(p, PaymentsValidTotal)
    ensures Due(p, RateLimitedTotal) + Due(p, ChallengesIssuedTotal) == Due(p, PaymentsMissingTotal)
    ensures Due(p, InvoicesGeneratedTotal) + Due(p, InvoicesGenerationErrorsTotal) == Due(p, ChallengesIssuedTotal)
  {
    match p.paidBy
    case None =>
    case Some(Lightning) =>
    case Some(Cashu) =>
  }

  lemma DuesOrdered(p: Plan)
    requires p.status == NGX_DECLINED ==> p.paidBy.Some?
    ensures Ordered((m: Metric) => Due(p, m))
  {
    DuesSplit(p);
  }

  /** So is a request on its way: a counter is raised before its parts. */
  lemma DoneOrdered(pc: Pc)
    requires PcOk(pc)
    ensures Ordered((m: Metric) => Done(pc, m))
  {
    EnforcedPartsFollow(pc);
    DryPartsFollow(pc);
    OutcomesFollow(pc);
  }

  lemma EnforcedPartsFollow(pc: Pc)
    ensures Done(pc, PaymentsLightningTotal) + Done(pc, PaymentsCashuTotal) <= Done(pc, PaymentsValidTotal)
    ensures Done(pc, RateLimitedTotal) + Done(pc, ChallengesIssuedTotal) <= Done(pc, PaymentsMissingTotal)
    ensures Done(pc, InvoicesGeneratedTotal) + Done(pc, InvoicesGenerationErrorsTotal)
              <= Done(pc, ChallengesIssuedTotal)
  {
  }

  lemma DryPartsFollow(pc: Pc)
    ensures Done(pc, DryRunRateLimitedTotal) + Done(pc, DryRunChallengeErrorsTotal) <= Done(pc, DryRunWouldBlockTotal)
    ensures Done(pc, DryRunWouldAllowTotal) + Done(pc, DryRunWouldBlockTotal) <= Done(pc, DryRunRequestsTotal)
  {
  }

  lemma OutcomesFollow(pc: Pc)
    ensures Done(pc, DryRunRequestsTotal) + Done(pc, PaymentsValidTotal) + Done(pc, PaymentsInvalidTotal)
              + Done(pc, PaymentsMissingTotal) <= Done(pc, RequestsTotal)
  {
  }

  /** How many requests `f` holds of. */
  function CountOf(ps: seq<Plan>, f: Plan -> bool): nat {
    if ps == [] then 0 else CountOf(ps[..|ps| - 1], f) + Bit(f(ps[|ps| - 1]))
  }

  /** An enforced request that failed on our side: a 500 or 503 is under no outcome counter. */
  predicate EndsOtherwise(p: Plan) {
    !p.dryRun && p.status != NGX_DECLINED && p.status != 400 && p.status != 401 && p.status != 402
  }

  /** The same in dry-run mode. */
  predicate WouldEndOtherwise(p: Plan) {
    p.dryRun && p.status != NGX_DECLINED && !(400 <= p.status <= 402)
  }

  lemma OutcomesSplit(p: Plan)
    ensures Due(p, DryRunRequestsTotal) + Due(p, PaymentsValidTotal) + Due(p, PaymentsInvalidTotal)
              + Due(p, PaymentsMissingTotal) + Bit(EndsOtherwise(p)) == Due(p, RequestsTotal)
    ensures Due(p, DryRunWouldAllowTotal) + Due(p, DryRunWouldBlockTotal) + Bit(WouldEndOtherwise(p))
              == Due(p, DryRunRequestsTotal)
  {
  }

  lemma {:induction false} OutcomesAddUp(ps: seq<Plan>)
    ensures DueOf(ps, DryRunRequestsTotal) + DueOf(ps, PaymentsValidTotal) + DueOf(ps, PaymentsInvalidTotal)
              + DueOf(ps, PaymentsMissingTotal) + CountOf(ps, EndsOtherwise) == DueOf(ps, RequestsTotal)
    ensures DueOf(ps, DryRunWouldAllowTotal) + DueOf(ps, DryRunWouldBlockTotal) + CountOf(ps, WouldEndOtherwise)
              == DueOf(ps, DryRunRequestsTotal)
  {
    if ps != [] {
      OutcomesAddUp(ps[..|ps| - 1]);
      OutcomesSplit(ps[|ps| - 1]);
    }
  }

  lemma {:induction false} DueOfOrdered(ps: seq<Plan>)
    requires forall i | 0 <= i < |ps| && ps[i].status == NGX_DECLINED :: ps[i].paidBy.Some?
    ensures Ordered((m: Metric) => DueOf(ps, m))
    ensures DueOf(ps, PaymentsLightningTotal) + DueOf(ps, PaymentsCashuTotal) == DueOf(ps, PaymentsValidTotal)
    ensures DueOf(ps, RateLimitedTotal) + DueOf(ps, ChallengesIssuedTotal) == DueOf(ps, PaymentsMissingTotal)
    ensures DueOf(ps, InvoicesGeneratedTotal) + DueOf(ps, InvoicesGenerationErrorsTotal)
              == DueOf(ps, ChallengesIssuedTotal)
    ensures DueOf(ps, RequestsTotal) == |ps|
  {
    if ps != [] {
      var n := |ps| - 1;
      DueOfOrdered(ps[..n]);
      DuesOrdered(ps[n]);
      DuesSplit(ps[n]);
      OrderedSum((m: Metric) => DueOf(ps[..n], m), (m: Metric) => Due(ps[n], m), (m: Metric) => DueOf(ps, m));
    }
  }

  lemma {:induction false} DoneByOrdered(workers: seq<Pc>)
    requires forall w | 0 <= w < |workers| :: PcOk(workers[w])
    ensures Ordered((m: Metric) => DoneBy(workers, m))
  {
    if workers != [] {
      DoneByOrdered(workers[1..]);
      DoneOrdered(workers[0]);
      OrderedSum((m: Metric) => Done(workers[0], m), (m: Metric) => DoneBy(workers[1..], m),
                 (m: Metric) => DoneBy(workers, m));
    }
  }

  lemma OrderedState(s: State)
    requires Exact(s) && PcsOk(s)
    ensures Ordered((m: Metric) => s.counts(m))
  {
    DueOfOrdered(s.finished);
    DoneByOrdered(s.workers);
    OrderedSum((m: Metric) => DueOf(s.finished, m), (m: Metric) => DoneBy(s.workers, m), (m: Metric) => s.counts(m));
  }

  // ---------------------------------------------------------------- the laws

  /** At every moment of every run: each counter covers its parts. */
  lemma PartsNeverExceedWholes(workers: nat, es: seq<Event>)
    ensures var s := Run(Init(workers), es);
            && s.counts(PaymentsLightningTotal) + s.counts(PaymentsCashuTotal) <= s.counts(PaymentsValidTotal)
            && s.counts(RateLimitedTotal) + s.counts(ChallengesIssuedTotal) <= s.counts(PaymentsMissingTotal)
            && s.counts(InvoicesGeneratedTotal) + s.counts(InvoicesGenerationErrorsTotal)
                 <= s.counts(ChallengesIssuedTotal)
            && s.counts(DryRunRateLimitedTotal) + s.counts(DryRunChallengeErrorsTotal)
                 <= s.counts(DryRunWouldBlockTotal)
            && s.counts(DryRunWouldAllowTotal) + s.counts(DryRunWouldBlockTotal) <= s.counts(DryRunRequestsTotal)
            && s.counts(DryRunRequestsTotal) + s.counts(PaymentsValidTotal) + s.counts(PaymentsInvalidTotal)
                 + s.counts(PaymentsMissingTotal) <= s.counts(RequestsTotal)
  {
    InitOk(workers);
    RunKeeps(Init(workers), es);
    OrderedState(Run(Init(workers), es));
  }

  /**
   Nothing is lost, doubled or put under another counter: at every moment each counter is what the
   finished requests should have counted plus what those in flight have counted so far.
   */
  lemma EveryRequestCountsItsDues(workers: nat, es: seq<Event>, m: Metric)
    ensures var s := Run(Init(workers), es); s.counts(m) == DueOf(s.finished, m) + DoneBy(s.workers, m)
  {
    InitOk(workers);
    RunKeeps(Init(workers), es);
    assert Exact(Run(Init(workers), es));
  }

  /** With no request in flight every counter is exact, and the parts add up. */
  lemma CountersAreExactAtRest(workers: nat, es: seq<Event>)
    requires forall i | 0 <= i < |Run(Init(workers), es).workers| :: Run(Init(workers), es).workers[i].Free?
    ensures var s := Run(Init(workers), es);
            && (forall m: Metric :: s.counts(m) == DueOf(s.finished, m))
            && s.counts(RequestsTotal) == |s.finished|
            && s.counts(DryRunRequestsTotal) + s.counts(PaymentsValidTotal) + s.counts(PaymentsInvalidTotal)
                 + s.counts(PaymentsMissingTotal) + CountOf(s.finished, EndsOtherwise) == s.counts(RequestsTotal)
            && s.counts(DryRunWouldAllowTotal) + s.counts(DryRunWouldBlockTotal)
                 + CountOf(s.finished, WouldEndOtherwise) == s.counts(DryRunRequestsTotal)
            && s.counts(PaymentsLightningTotal) + s.counts(PaymentsCashuTotal) == s.counts(PaymentsValidTotal)
            && s.counts(RateLimitedTotal) + s.counts(ChallengesIssuedTotal) == s.counts(PaymentsMissingTotal)
            && s.counts(InvoicesGeneratedTotal) + s.counts(InvoicesGenerationErrorsTotal)
                 == s.counts(ChallengesIssuedTotal)
  {
    var s := Run(Init(workers), es);
    assert Inv(s) by {
      InitOk(workers);
      RunKeeps(Init(workers), es);
    }
    forall m: Metric ensures s.counts(m) == DueOf(s.finished, m) { NoneDone(s.workers, m); }
    DueOfOrdered(s.finished);
    OutcomesAddUp(s.finished);
  }

  lemma SlotIsExact(s: State, m: Metric)
    requires SlotsWrap(s) && s.counts(m) < U64
    ensures s.slots(m) == s.counts(m)
  {
    assert s.slots(m) == s.counts(m) % U64;
  }

  lemma NoCounterPassesRequests(v: Metric -> int, m: Metric)
    requires Ordered(v) && (forall k: Metric :: v(k) >= 0) && !m.DryRunPriceMsatSum?
    ensures v(m) <= v(RequestsTotal)
  {
  }

  /** Until 2^64 requests have come in, every slot but the price sum holds the true count. */
  lemma SlotsAreExact(workers: nat, es: seq<Event>, m: Metric)
    requires Run(Init(workers), es).counts(RequestsTotal) < U64 && !m.DryRunPriceMsatSum?
    ensures var s := Run(Init(workers), es); s.slots(m) == s.counts(m)
  {
    var s := Run(Init(workers), es);
    assert Inv(s) by {
      InitOk(workers);
      RunKeeps(Init(workers), es);
    }
    OrderedState(s);
    NoCounterPassesRequests((k: Metric) => s.counts(k), m);
    SlotIsExact(s, m);
  }

  /** How many increments and moves a request has before it at most. */
  function Remaining(pc: Pc): nat {
    match pc
    case Free => 0
    case Entered(_) => 6
    case Judged(_) => 5
    case DryPrice(_) => 4
    case DryVerdict(_) => 3
    case Gate(_) => 2
    case DryLimit(_) => 2
    case Method(_) => 1
    case Challenge(_) => 1
    case DryChallenge(_) => 1
  }

  /** No request goes round in circles: each step brings it nearer to its end. */
  lemma EveryStepAdvances(pc: Pc)
    requires !pc.Free?
    ensures Remaining(EffectOf(pc).next) < Remaining(pc)
  {
  }

  /** So six steps of its worker see any request through. */
  lemma {:induction false} RequestsEnd(s: State, w: nat, n: nat)
    requires w < |s.workers| && Remaining(s.workers[w]) <= n
    ensures w < |Run(s, seq(n, _ => Step(w))).workers| && Run(s, seq(n, _ => Step(w))).workers[w] == Free
    decreases n
  {
    if n > 0 {
      assert seq(n, _ => Step(w))[1..] == seq(n - 1, _ => Step(w));
      if !s.workers[w].Free? { EveryStepAdvances(s.workers[w]); }
      RequestsEnd(StepWorker(s, w), w, n - 1);
    }
  }

  // ---------------------------------------------------------------- the counters in terms of what arrived

  /** The preimage is let in: reuse is allowed, or the claim was won, or nobody keeps claims. */
  predicate LetIn(indefinite: bool, claim: ClaimResult) {
    indefinite || claim == Claimed(true) || claim == Failed(NotConfigured)
  }

  predicate PaidWithCashu(a: Attempt) {
    a.CashuAccepted?
  }

  predicate PaidWithLightning(a: Attempt) {
    a.L402Verified? && LetIn(a.indefinite, a.claim)
  }

  /** A bad credential: refused as malformed, wrong, spent or replayed. */
  predicate Invalid(a: Attempt) {
    || a == CashuRefused(Cashu401) || a == CashuRefused(Cashu400) || a == L402Refused(L402Bad401)
    || (a.L402Verified? && !a.indefinite && a.claim == Claimed(false))
  }

  /** Nothing paid yet. */
  predicate Missing(a: Attempt) {
    a == NoCredential || a == L402Refused(L402Unsettled402)
  }

  /** What one arrival should add to a counter, by what came in. */
  function Weight(e: Event, m: Metric): nat
    requires e.Arrive?
  {
    var a := e.attempt;
    match m
    case RequestsTotal => 1
    case PaymentsValidTotal => Bit(!e.dryRun && (PaidWithCashu(a) || PaidWithLightning(a)))
    case PaymentsLightningTotal => Bit(!e.dryRun && PaidWithLightning(a))
    case PaymentsCashuTotal => Bit(!e.dryRun && PaidWithCashu(a))
    case PaymentsInvalidTotal => Bit(!e.dryRun && Invalid(a))
    case PaymentsMissingTotal => Bit(!e.dryRun && Missing(a))
    case RateLimitedTotal => Bit(!e.dryRun && Missing(a) && e.overLimit)
    case ChallengesIssuedTotal => Bit(!e.dryRun && Missing(a) && !e.overLimit)
    case InvoicesGeneratedTotal => Bit(!e.dryRun && Missing(a) && !e.overLimit && e.minted)
    case InvoicesGenerationErrorsTotal => Bit(!e.dryRun && Missing(a) && !e.overLimit && !e.minted)
    case DryRunRequestsTotal => Bit(e.dryRun)
    case DryRunWouldAllowTotal => Bit(e.dryRun && (PaidWithCashu(a) || PaidWithLightning(a)))
    case DryRunWouldBlockTotal => Bit(e.dryRun && (Invalid(a) || Missing(a)))
    case DryRunRateLimitedTotal => Bit(e.dryRun && Missing(a) && e.overLimit)
    case DryRunChallengeErrorsTotal => Bit(e.dryRun && Missing(a) && !e.overLimit && !e.minted)
    case DryRunPriceMsatSum => if e.dryRun then e.price else 0
  }

  /** What the arrivals of a run should add up to; an arrival at a busy worker is none. */
  function Arrived(s: State, es: seq<Event>, m: Metric): nat
    decreases |es|
  {
    if es == [] then 0
    else (if es[0].Arrive? && es[0].w < |s.workers| && s.workers[es[0].w].Free? then Weight(es[0], m) else 0)
         + Arrived(Next(s, es[0]), es[1..], m)
  }

  /** What the requests on their way should count in the end. */
  function Pending(workers: seq<Pc>, m: Metric): nat {
    if workers == [] then 0 else DueIn(workers[0], m) + Pending(workers[1..], m)
  }

  function DueIn(pc: Pc, m: Metric): nat {
    if pc.Free? then 0 else Due(pc.p, m)
  }

  lemma {:induction false} PendingUpdate(workers: seq<Pc>, w: nat, pc: Pc, m: Metric)
    requires w < |workers|
    ensures Pending(workers[w := pc], m) + DueIn(workers[w], m) == Pending(workers, m) + DueIn(pc, m)
    decreases |workers|
  {
    if w > 0 {
      assert workers[w := pc][1..] == workers[1..][w - 1 := pc];
      PendingUpdate(workers[1..], w - 1, pc, m);
    } else {
      assert workers[0 := pc][1..] == workers[1..];
    }
  }

  lemma {:induction false} NonePending(workers: seq<Pc>, m: Metric)
    requires forall i | 0 <= i < |workers| :: workers[i].Free?
    ensures Pending(workers, m) == 0
  {
    if workers != [] {
      NonePending(workers[1..], m);
    }
  }

  /** The verdict on a request puts it under the counters its attempt belongs to. */
  lemma DueIsWeight(e: Event, m: Metric)
    requires e.Arrive?
    ensures var (status, paidBy) := AccessHandler(e.attempt);
            Due(Plan(status, paidBy, e.dryRun, e.overLimit, e.minted, e.price, e.attempt), m) == Weight(e, m)
  {
  }

  lemma ArrivalPends(s: State, e: Event, m: Metric)
    requires e.Arrive? && e.w < |s.workers| && s.workers[e.w].Free?
    ensures Next(s, e).finished == s.finished
    ensures Pending(Next(s, e).workers, m) == Pending(s.workers, m) + Weight(e, m)
  {
    var pc := Next(s, e).workers[e.w];
    DueIsWeight(e, m);
    PendingUpdate(s.workers, e.w, pc, m);
  }

  lemma StepLeavesPlan(pc: Pc)
    requires !pc.Free? && !EffectOf(pc).next.Free?
    ensures EffectOf(pc).next.p == pc.p
  {
  }

  lemma StepPends(s: State, w: nat, m: Metric)
    requires w < |s.workers|
    ensures var s' := StepWorker(s, w);
            DueOf(s'.finished, m) + Pending(s'.workers, m) == DueOf(s.finished, m) + Pending(s.workers, m)
  {
    var pc := s.workers[w];
    PendingUpdate(s.workers, w, EffectOf(pc).next, m);
    if !pc.Free? {
      DuePush(s.finished, pc.p, m);
      if !EffectOf(pc).next.Free? { StepLeavesPlan(pc); }
    }
  }

  lemma {:induction false} RunPends(s: State, es: seq<Event>, m: Metric)
    ensures var s' := Run(s, es);
            DueOf(s'.finished, m) + Pending(s'.workers, m)
              == DueOf(s.finished, m) + Pending(s.workers, m) + Arrived(s, es, m)
    decreases |es|
  {
    if es != [] {
      var e := es[0];
      if e.Arrive? && e.w < |s.workers| && s.workers[e.w].Free? {
        ArrivalPends(s, e, m);
      } else if e.Step? && e.w < |s.workers| {
        StepPends(s, e.w, m);
      }
      RunPends(Next(s, e), es[1..], m);
    }
  }

  /**
   With no request in flight every counter is the number of arrivals it stands for, told by what came
   in: each accepted Cashu token under Cashu, each preimage let in under Lightning, and so on; and the
   price sum is the sum of the dry-run prices.
   */
  lemma CountersCountTheArrivals(workers: nat, es: seq<Event>, m: Metric)
    requires forall i | 0 <= i < |Run(Init(workers), es).workers| :: Run(Init(workers), es).workers[i].Free?
    ensures Run(Init(workers), es).counts(m) == Arrived(Init(workers), es, m)
  {
    var s := Run(Init(workers), es);
    assert Exact(s) by {
      InitOk(workers);
      RunKeeps(Init(workers), es);
    }
    NoneDone(s.workers, m);
    RunPends(Init(workers), es, m);
    NonePending(s.workers, m);
    NonePending(Init(workers).workers, m);
  }

  // ---------------------------------------------------------------- a scrape

  /** What the workers do right before each load of a scrape. */
  type Gaps = nat -> seq<Event>

  /** The events from the start of the scrape up to the load of slot i. */
  function Before(gaps: Gaps, i: nat): seq<Event> {
    if i == 0 then gaps(0) else Before(gaps, i - 1) + gaps(i)
  }

  /** The page: each slot as it is when its turn comes. */
  function Shown(s: State, gaps: Gaps, m: Metric): nat {
    Run(s, Before(gaps, Slot(m))).slots(m)
  }

  lemma {:induction false} RunAppend(s: State, es: seq<Event>, more: seq<Event>)
    ensures Run(s, es + more) == Run(Run(s, es), more)
    decreases |es|
  {
    if es == [] {
      assert es + more == more;
    } else {
      assert (es + more)[1..] == es[1..] + more;
      RunAppend(Next(s, es[0]), es[1..], more);
    }
  }

  lemma {:induction false} CountsGrow(s: State, es: seq<Event>, m: Metric)
    ensures s.counts(m) <= Run(s, es).counts(m)
    decreases |es|
  {
    if es != [] {
      CountsGrow(Next(s, es[0]), es[1..], m);
    }
  }

  function Between(gaps: Gaps, i: nat, j: nat): seq<Event>
    requires i <= j
    decreases j
  {
    if i == j then [] else Between(gaps, i, j - 1) + gaps(j)
  }

  lemma {:induction false} BeforeSplits(gaps: Gaps, i: nat, j: nat)
    requires i <= j
    ensures Before(gaps, j) == Before(gaps, i) + Between(gaps, i, j)
    decreases j
  {
    if i < j {
      BeforeSplits(gaps, i, j - 1);
    }
  }

  lemma CountsGrowBetween(s: State, gaps: Gaps, i: nat, j: nat, m: Metric)
    requires i <= j
    ensures Run(s, Before(gaps, i)).counts(m) <= Run(s, Before(gaps, j)).counts(m)
  {
    BeforeSplits(gaps, i, j);
    RunAppend(s, Before(gaps, i), Between(gaps, i, j));
    CountsGrow(Run(s, Before(gaps, i)), Between(gaps, i, j), m);
  }

  /**
   Each line of a page is the true count of some moment of the scrape: at least what it was at the
   start and at most what it is at the end.
   */
  lemma PageIsBracketed(workers: nat, es: seq<Event>, gaps: Gaps, m: Metric)
    requires Run(Run(Init(workers), es), Before(gaps, COUNT - 1)).counts(RequestsTotal) < U64 && !m.DryRunPriceMsatSum?
    ensures var s := Run(Init(workers), es);
            && Shown(s, gaps, m) == Run(s, Before(gaps, Slot(m))).counts(m)
            && s.counts(m) <= Shown(s, gaps, m) <= Run(s, Before(gaps, COUNT - 1)).counts(m)
  {
    var s := Run(Init(workers), es);
    CountsGrowBetween(s, gaps, Slot(m), COUNT - 1, RequestsTotal);
    CountsGrowBetween(s, gaps, Slot(m), COUNT - 1, m);
    CountsGrow(s, Before(gaps, Slot(m)), m);
    RunAppend(Init(workers), es, Before(gaps, Slot(m)));
    SlotsAreExact(workers, es + Before(gaps, Slot(m)), m);
  }

  /** A line loaded by the time slot i is loaded shows at most what its counter is then. */
  lemma ShownBy(workers: nat, es: seq<Event>, gaps: Gaps, m: Metric, i: nat)
    requires Run(Run(Init(workers), es), Before(gaps, COUNT - 1)).counts(RequestsTotal) < U64
    requires !m.DryRunPriceMsatSum? && Slot(m) <= i
    ensures var s := Run(Init(workers), es);
            && Shown(s, gaps, m) == Run(s, Before(gaps, Slot(m))).counts(m)
            && Shown(s, gaps, m) <= Run(s, Before(gaps, i)).counts(m)
  {
    PageIsBracketed(workers, es, gaps, m);
    CountsGrowBetween(Run(Init(workers), es), gaps, Slot(m), i, m);
  }

  /** What the parts add up to when the last of them is loaded is still within their whole. */
  lemma PartsAtLoad(workers: nat, es: seq<Event>, gaps: Gaps, i: nat)
    ensures var s := Run(Run(Init(workers), es), Before(gaps, i)); Ordered((m: Metric) => s.counts(m))
  {
    RunAppend(Init(workers), es, Before(gaps, i));
    PartsNeverExceedWholes(workers, es + Before(gaps, i));
  }

  /** Two counters and the one they are parts of. */
  predicate Parts(a: Metric, b: Metric, whole: Metric) {
    || (a == PaymentsLightningTotal && b == PaymentsCashuTotal && whole == PaymentsValidTotal)
    || (a == RateLimitedTotal && b == ChallengesIssuedTotal && whole == PaymentsMissingTotal)
    || (a == InvoicesGeneratedTotal && b == InvoicesGenerationErrorsTotal && whole == ChallengesIssuedTotal)
    || (a == DryRunRateLimitedTotal && b == DryRunChallengeErrorsTotal && whole == DryRunWouldBlockTotal)
    || (a == DryRunWouldAllowTotal && b == DryRunWouldBlockTotal && whole == DryRunRequestsTotal)
  }

  lemma PartsOrdered(v: Metric -> int, a: Metric, b: Metric, whole: Metric)
    requires Ordered(v) && Parts(a, b, whole)
    ensures v(a) + v(b) <= v(whole)
  {
  }

  /** The slot of the last of three lines to be loaded. */
  function LastOf(a: Metric, b: Metric, c: Metric): (i: nat)
    ensures Slot(a) <= i && Slot(b) <= i && Slot(c) <= i < COUNT
  {
    var i := if Slot(a) < Slot(b) then Slot(b) else Slot(a);
    if i < Slot(c) then Slot(c) else i
  }

  /**
   The parts on a page exceed their whole by at most what the whole grew between its own load and the
   load of the last part; a page made while it stood still is in order.
   */
  lemma PageSkewIsBounded(workers: nat, es: seq<Event>, gaps: Gaps, a: Metric, b: Metric, whole: Metric)
    requires Run(Run(Init(workers), es), Before(gaps, COUNT - 1)).counts(RequestsTotal) < U64
    requires
      || (a == PaymentsLightningTotal && b == PaymentsCashuTotal && whole == PaymentsValidTotal)
      || (a == RateLimitedTotal && b == ChallengesIssuedTotal && whole == PaymentsMissingTotal)
      || (a == InvoicesGeneratedTotal && b == InvoicesGenerationErrorsTotal && whole == ChallengesIssuedTotal)
      || (a == DryRunRateLimitedTotal && b == DryRunChallengeErrorsTotal && whole == DryRunWouldBlockTotal)
      || (a == DryRunWouldAllowTotal && b == DryRunWouldBlockTotal && whole == DryRunRequestsTotal)
    ensures var s := Run(Init(workers), es);
            Shown(s, gaps, a) + Shown(s, gaps, b)
              <= Shown(s, gaps, whole)
                   + (Run(s, Before(gaps, LastOf(a, b, whole))).counts(whole)
                        - Run(s, Before(gaps, Slot(whole))).counts(whole))
  {
    var i := LastOf(a, b, whole);
    var at := Run(Run(Init(workers), es), Before(gaps, i));
    assert at.counts(a) + at.counts(b) <= at.counts(whole) by {
      PartsAtLoad(workers, es, gaps, i);
      PartsOrdered((m: Metric) => at.counts(m), a, b, whole);
    }
    ShownBy(workers, es, gaps, a, i);
    ShownBy(workers, es, gaps, b, i);
    ShownBy(workers, es, gaps, whole, i);
  }

  lemma OutcomesAtLoad(workers: nat, es: seq<Event>, gaps: Gaps, i: nat)
    ensures var at := Run(Run(Init(workers), es), Before(gaps, i));
            at.counts(DryRunRequestsTotal) + at.counts(PaymentsValidTotal) + at.counts(PaymentsInvalidTotal)
              + at.counts(PaymentsMissingTotal) <= at.counts(RequestsTotal)
            && at.counts(ChallengesIssuedTotal) <= at.counts(PaymentsMissingTotal)
  {
    PartsAtLoad(workers, es, gaps, i);
  }

  lemma OutcomeSlots(dry: Metric, valid: Metric, invalid: Metric, missing: Metric, whole: Metric)
    requires dry == DryRunRequestsTotal && valid == PaymentsValidTotal && invalid == PaymentsInvalidTotal
    requires missing == PaymentsMissingTotal && whole == RequestsTotal
    ensures Slot(valid) <= Slot(dry) && Slot(invalid) <= Slot(dry) && Slot(missing) <= Slot(dry)
    ensures Slot(whole) <= Slot(dry)
  {
  }

  /** The same for the outcomes of a request. */
  lemma RequestsSkewIsBounded(workers: nat, es: seq<Event>, gaps: Gaps,
                              dry: Metric, valid: Metric, invalid: Metric, missing: Metric, whole: Metric)
    requires Run(Run(Init(workers), es), Before(gaps, COUNT - 1)).counts(RequestsTotal) < U64
    requires dry == DryRunRequestsTotal && valid == PaymentsValidTotal && invalid == PaymentsInvalidTotal
    requires missing == PaymentsMissingTotal && whole == RequestsTotal
    ensures var s := Run(Init(workers), es);
            Shown(s, gaps, dry) + Shown(s, gaps, valid) + Shown(s, gaps, invalid) + Shown(s, gaps, missing)
              <= Shown(s, gaps, whole)
                   + (Run(s, Before(gaps, Slot(dry))).counts(whole) - Run(s, Before(gaps, Slot(whole))).counts(whole))
  {
    OutcomesAtLoad(workers, es, gaps, Slot(dry));
    OutcomeSlots(dry, valid, invalid, missing, whole);
    ShownBy(workers, es, gaps, dry, Slot(dry));
    ShownBy(workers, es, gaps, valid, Slot(dry));
    ShownBy(workers, es, gaps, invalid, Slot(dry));
    ShownBy(workers, es, gaps, missing, Slot(dry));
    ShownBy(workers, es, gaps, whole, Slot(dry));
  }

  /** The one part loaded ahead of its whole never exceeds it: every page shows issued within missing. */
  lemma IssuedWithinMissing(workers: nat, es: seq<Event>, gaps: Gaps)
    requires Run(Run(Init(workers), es), Before(gaps, COUNT - 1)).counts(RequestsTotal) < U64
    ensures var s := Run(Init(workers), es);
            Shown(s, gaps, ChallengesIssuedTotal) <= Shown(s, gaps, PaymentsMissingTotal)
  {
    var i := Slot(PaymentsMissingTotal);
    OutcomesAtLoad(workers, es, gaps, i);
    ShownBy(workers, es, gaps, ChallengesIssuedTotal, i);
    ShownBy(workers, es, gaps, PaymentsMissingTotal, i);
  }

  /** A Lightning payment that comes in between the load of the valid slot and that of the Lightning slot. */
  function PaidInBetween(): Gaps {
    (i: nat) => if i == Slot(PaymentsLightningTotal) then LightningPayment() else []
  }

  function LightningPayment(): seq<Event> {
    [Arrive(0, L402Verified(true, Failed(Unavailable)), false, false, false, 0), Step(0), Step(0), Step(0)]
  }

  lemma RunFour(s: State, e1: Event, e2: Event, e3: Event, e4: Event)
    ensures Run(s, [e1, e2, e3, e4]) == Next(Next(Next(Next(s, e1), e2), e3), e4)
  {
    assert [e1, e2, e3, e4][1..] == [e2, e3, e4] && [e2, e3, e4][1..] == [e3, e4] && [e3, e4][1..] == [e4];
    assert [e4][1..] == [];
    var s3 := Next(Next(Next(s, e1), e2), e3);
    assert Run(s3, [e4]) == Next(s3, e4);
    assert Run(Next(Next(s, e1), e2), [e3, e4]) == Next(s3, e4);
    assert Run(Next(s, e1), [e2, e3, e4]) == Next(s3, e4);
  }

  /** The three increments of an enforced Lightning payment. */
  lemma LightningSteps(s: State, p: Plan)
    requires s.workers == [Entered(p)] && p.status == NGX_DECLINED && p.paidBy == Some(Lightning) && !p.dryRun
    requires s.slots(PaymentsLightningTotal) == 0
    ensures Next(Next(Next(s, Step(0)), Step(0)), Step(0)).slots(PaymentsLightningTotal) == 1
  {
    var s1 := StepWorker(s, 0);
    var s2 := StepWorker(s1, 0);
    assert s1.workers == [Judged(p)] && s1.slots(PaymentsLightningTotal) == 0;
    assert s2.workers == [Method(p)] && s2.slots(PaymentsLightningTotal) == 0;
  }

  lemma LightningPaymentCounts()
    ensures Run(Init(1), LightningPayment()).slots(PaymentsLightningTotal) == 1
  {
    var arrive := Arrive(0, L402Verified(true, Failed(Unavailable)), false, false, false, 0);
    RunFour(Init(1), arrive, Step(0), Step(0), Step(0));
    LightningSteps(Next(Init(1), arrive), Plan(NGX_DECLINED, Some(Lightning), false, false, false, 0, arrive.attempt));
  }

  /** A page can show a Lightning payment and no valid one. */
  lemma PageCanRunAhead()
    ensures Shown(Init(1), PaidInBetween(), PaymentsValidTotal) == 0
    ensures Shown(Init(1), PaidInBetween(), PaymentsLightningTotal) == 1
  {
    var gaps := PaidInBetween();
    assert Slot(PaymentsLightningTotal) == 3;
    assert gaps(0) == [] && gaps(1) == [] && gaps(2) == [] && gaps(3) == LightningPayment();
    assert Before(gaps, 0) == [] && Before(gaps, 1) == [] && Before(gaps, 2) == [];
    assert Before(gaps, 3) == Before(gaps, 2) + gaps(3) == LightningPayment();
    LightningPaymentCounts();
  }
}
