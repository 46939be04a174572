/**
 Directive inheritance: `merge` run down a path of nested scopes.

 `Merge` updates a scope's configuration from its parent's, field by field. Down any path it
 comes to a lookup: each setting is the nearest one set, the payout destination is taken as a
 whole from the nearest scope that names one, and the path loads exactly when every scope on it
 is acceptable on its own looked-up values.
 */
module ConfigMerge {
  import opened Options
  import opened Sequences
  import opened Tenants

  /** Zero stands for an unset price or timeout. */
  datatype Price = Price(enable: Option<bool>, amount: int, timeout: int)

  /** The payout destination, by address or by tenant name, and the directive that gave it. */
  datatype Payout = Payout(lnurlAddr: Option<string>, tenantRef: Option<string>, lnurlAt: Option<string>)

  /** No exempt methods means unset. */
  datatype Terms = Terms(realm: Option<string>, rateLimit: Option<(nat, nat)>, exemptMethods: seq<string>, hidden: bool)

  datatype Switches = Switches(autoDetect: Option<bool>, dryRun: Option<bool>, paymentHtml: Option<bool>,
                               logJson: Option<bool>, indefinite: Option<bool>)

  /** One scope's settings. */
  datatype Conf = Conf(price: Price, payout: Payout, terms: Terms, switches: Switches)

  const UNSET_PAYOUT := Payout(None, None, None)
  const UNSET := Conf(Price(None, 0, 0), UNSET_PAYOUT, Terms(None, None, [], false),
                      Switches(None, None, None, None, None))

  /** What merging reads besides the two scopes. */
  datatype Env = Env(tenants: map<string, Tenant>, cashuOn: bool, backend: string)

  datatype Outcome = Merged(conf: Conf, ok: bool)

  // ---------------------------------------------------------------- one merge

  /** Switch and price come first; they are merged even when the destination is refused. */
  function MergedPrice(c: Price, prev: Price): Price {
    Price(c.enable.Or(prev.enable),
          if prev.amount > 0 && c.amount == 0 then prev.amount else c.amount,
          if prev.timeout > 0 && c.timeout == 0 then prev.timeout else c.timeout)
  }

  /** The destination of a scope, or none when the scope names it twice or names a tenant nobody defined. */
  function MergedPayout(c: Payout, prev: Payout, env: Env): Option<Payout> {
    if c.tenantRef.Some? then
      if c.lnurlAddr.Some? || c.tenantRef.value !in env.tenants then None
      else Some(c.(lnurlAddr := Some(env.tenants[c.tenantRef.value].lnurlAddr)))
    else if c.lnurlAddr.None? then Some(prev)
    else Some(c)
  }

  function MergedTerms(c: Terms, prev: Terms): Terms {
    Terms(c.realm.Or(prev.realm), c.rateLimit.Or(prev.rateLimit),
          if c.exemptMethods == [] then prev.exemptMethods else c.exemptMethods,
          c.hidden || prev.hidden)
  }

  function MergedSwitches(c: Switches, prev: Switches): Switches {
    Switches(c.autoDetect.Or(prev.autoDetect), c.dryRun.Or(prev.dryRun), c.paymentHtml.Or(prev.paymentHtml),
             c.logJson.Or(prev.logJson), c.indefinite.Or(prev.indefinite))
  }

  predicate Enabled(c: Conf) {
    c.price.enable.GetOr(false)
  }

  /** A realm is only charged for with indefinite access on. */
  predicate RealmOk(c: Conf) {
    Enabled(c) && c.terms.realm.Some? ==> c.switches.indefinite.GetOr(false)
  }

  /** An enabled route whose Cashu would go to the operator instead of its tenant. */
  predicate CashuToOperator(c: Conf, env: Env) {
    Enabled(c) && c.payout.lnurlAddr.Some? && env.cashuOn && env.backend != "LNURL"
  }

  /** What is checked once a scope is merged. */
  predicate Acceptable(c: Conf, env: Env) {
    RealmOk(c) && (CashuToOperator(c, env) ==> c.payout.tenantRef.None?)
  }

  /** `merge`, as a function of both scopes; a refused destination leaves the later settings unmerged. */
  function MergeConf(c: Conf, prev: Conf, env: Env): Outcome {
    match MergedPayout(c.payout, prev.payout, env)
    case None => Merged(c.(price := MergedPrice(c.price, prev.price)), false)
    case Some(payout) =>
      var merged := Conf(MergedPrice(c.price, prev.price), payout,
                         MergedTerms(c.terms, prev.terms), MergedSwitches(c.switches, prev.switches));
      Merged(merged, Acceptable(merged, env))
  }

  /** What every scope has read at startup, and the list of directives the operator is warned about. */
  class Startup {
    const registry: TenantRegistry
    const cashuOn: bool          // CASHU_ECASH_SUPPORT
    const backend: string        // LN_CLIENT_TYPE, LNURL when unset
    var sites: seq<string>

    constructor (registry: TenantRegistry, cashuOn: bool, backend: string)
      ensures this.registry == registry && this.cashuOn == cashuOn && this.backend == backend && sites == []
    {
      this.registry, this.cashuOn, this.backend, this.sites := registry, cashuOn, backend, [];
    }

    function Now(): Env
      reads registry
    {
      Env(registry.tenants, cashuOn, backend)
    }
  }

  /** A directive is listed once, however many locations it reaches. */
  function AddOnce(sites: seq<string>, at: string): seq<string> {
    if at in sites then sites else sites + [at]
  }

  class ModuleConfig {
    var enable: Option<bool>
    var exemptMethods: seq<string>
    var amount: int
    var timeout: int
    var realm: Option<string>
    var lnurlAddr: Option<string>
    var tenantRef: Option<string>
    var lnurlAt: Option<string>
    var rateLimit: Option<(nat, nat)>
    var autoDetect: Option<bool>
    var dryRun: Option<bool>
    var paymentHtml: Option<bool>
    var logJson: Option<bool>
    var indefinite: Option<bool>
    var hidden: bool

    constructor ()
      ensures Value() == UNSET
    {
      enable, exemptMethods, amount, timeout, realm := None, [], 0, 0, None;
      lnurlAddr, tenantRef, lnurlAt, rateLimit, autoDetect := None, None, None, None, None;
      dryRun, paymentHtml, logJson, indefinite, hidden := None, None, None, None, false;
    }

    function PriceNow(): Price
      reads this
    {
      Price(enable, amount, timeout)
    }

    function PayoutNow(): Payout
      reads this
    {
      Payout(lnurlAddr, tenantRef, lnurlAt)
    }

    function TermsNow(): Terms
      reads this
    {
      Terms(realm, rateLimit, exemptMethods, hidden)
    }

    function SwitchesNow(): Switches
      reads this
    {
      Switches(autoDetect, dryRun, paymentHtml, logJson, indefinite)
    }

    function Value(): Conf
      reads this
    {
      Conf(PriceNow(), PayoutNow(), TermsNow(), SwitchesNow())
    }

    /** Every setting of the value is the field of its name. */
    lemma ValueIsTheFields()
      ensures var c := Value();
              && c.price.enable == enable && c.price.amount == amount && c.price.timeout == timeout
              && c.payout.lnurlAddr == lnurlAddr && c.payout.tenantRef == tenantRef && c.payout.lnurlAt == lnurlAt
              && c.terms.realm == realm && c.terms.rateLimit == rateLimit
              && c.terms.exemptMethods == exemptMethods && c.terms.hidden == hidden
              && c.switches.autoDetect == autoDetect && c.switches.dryRun == dryRun
              && c.switches.paymentHtml == paymentHtml && c.switches.logJson == logJson
              && c.switches.indefinite == indefinite
    {
    }

    /** merge: `prev` is the enclosing scope, already merged. */
    method Merge(prev: ModuleConfig, startup: Startup) returns (ok: bool)
      requires prev != this
      requires Distinct(startup.sites)
      modifies this, startup`sites
      ensures Merged(Value(), ok) == MergeConf(old(Value()), prev.Value(), startup.Now())
      ensures startup.sites
           == if ok && CashuToOperator(Value(), startup.Now()) then AddOnce(old(startup.sites), lnurlAt.GetOr(""))
              else old(startup.sites)
      ensures Distinct(startup.sites)
    {
      ok := Inherit(prev, startup.registry);
      if ok {
        ok := Check(startup);
      }
    }

    /** The field-by-field part; a refused destination ends it early. */
    method Inherit(prev: ModuleConfig, registry: TenantRegistry) returns (ok: bool)
      requires prev != this
      modifies this
      ensures PriceNow() == MergedPrice(old(PriceNow()), prev.PriceNow())
      ensures MergedPayout(old(PayoutNow()), prev.PayoutNow(), Env(registry.tenants, false, ""))
           == if ok then Some(PayoutNow()) else None
      ensures ok ==> TermsNow() == MergedTerms(old(TermsNow()), prev.TermsNow())
      ensures ok ==> SwitchesNow() == MergedSwitches(old(SwitchesNow()), prev.SwitchesNow())
      ensures !ok ==> PayoutNow() == old(PayoutNow())
      ensures !ok ==> TermsNow() == old(TermsNow()) && SwitchesNow() == old(SwitchesNow())
    {
      MergePrice(prev);
      ok := MergeDestination(prev, registry);
      if ok {
        MergeRest(prev);
      }
    }

    /** The two refusals and the warning that follow the merge itself. */
    method Check(startup: Startup) returns (ok: bool)
      requires Distinct(startup.sites)
      modifies startup`sites
      ensures ok == Acceptable(Value(), startup.Now())
      ensures startup.sites
           == if ok && CashuToOperator(Value(), startup.Now()) then AddOnce(old(startup.sites), lnurlAt.GetOr(""))
              else old(startup.sites)
      ensures Distinct(startup.sites)
      ensures !ok <==>
                && enable == Some(true)
                && ((realm.Some? && indefinite != Some(true))
                    || (tenantRef.Some? && lnurlAddr.Some? && startup.cashuOn && startup.backend != "LNURL"))
      ensures ok && enable == Some(true) && lnurlAddr.Some? && startup.cashuOn && startup.backend != "LNURL" ==>
                lnurlAt.GetOr("") in startup.sites
      ensures old(startup.sites) <= startup.sites && |startup.sites| <= |old(startup.sites)| + 1
      ensures enable != Some(true) || lnurlAddr.None? || !startup.cashuOn || startup.backend == "LNURL" ==>
                startup.sites == old(startup.sites)
    {
      if enable.GetOr(false) && realm.Some? && !indefinite.GetOr(false) {
        return false;
      }
      if enable.GetOr(false) && lnurlAddr.Some? && startup.cashuOn && startup.backend != "LNURL" {
        if tenantRef.Some? {
          return false;
        }
        var at := lnurlAt.GetOr("");
        if at !in startup.sites {
          startup.sites := startup.sites + [at];
        }
      }
      return true;
    }

    method MergePrice(prev: ModuleConfig)
      requires prev != this
      modifies this`enable, this`amount, this`timeout
      ensures PriceNow() == MergedPrice(old(PriceNow()), prev.PriceNow())
    {
      if enable.None? {
        enable := prev.enable;
      }
      if prev.amount > 0 && amount == 0 {
        amount := prev.amount;
      }
      if prev.timeout > 0 && timeout == 0 {
        timeout := prev.timeout;
      }
    }

    method MergeDestination(prev: ModuleConfig, registry: TenantRegistry) returns (ok: bool)
      requires prev != this
      modifies this`lnurlAddr, this`tenantRef, this`lnurlAt
      ensures MergedPayout(old(PayoutNow()), prev.PayoutNow(), Env(registry.tenants, false, ""))
           == if ok then Some(PayoutNow()) else None
      ensures !ok ==> PayoutNow() == old(PayoutNow())
    {
      if tenantRef.Some? {
        if lnurlAddr.Some? || tenantRef.value !in registry.tenants {
          return false;
        }
        lnurlAddr := Some(registry.tenants[tenantRef.value].lnurlAddr);
      } else if lnurlAddr.None? {
        lnurlAddr := prev.lnurlAddr;
        tenantRef := prev.tenantRef;
        lnurlAt := prev.lnurlAt;
      }
      return true;
    }

    method MergeRest(prev: ModuleConfig)
      requires prev != this
      modifies this`realm, this`rateLimit, this`exemptMethods, this`hidden
      modifies this`autoDetect, this`dryRun, this`paymentHtml, this`logJson, this`indefinite
      ensures TermsNow() == MergedTerms(old(TermsNow()), prev.TermsNow())
      ensures SwitchesNow() == MergedSwitches(old(SwitchesNow()), prev.SwitchesNow())
    {
      MergeTerms(prev);
      MergeSwitches(prev);
    }

    method MergeTerms(prev: ModuleConfig)
      requires prev != this
      modifies this`realm, this`rateLimit, this`exemptMethods, this`hidden
      ensures TermsNow() == MergedTerms(old(TermsNow()), prev.TermsNow())
    {
      if realm.None? && prev.realm.Some? {
        realm := prev.realm;
      }
      if rateLimit.None? {
        rateLimit := prev.rateLimit;
      }
      if exemptMethods == [] && prev.exemptMethods != [] {
        exemptMethods := prev.exemptMethods;
      }
      if prev.hidden {
        hidden := true;
      }
    }

    method MergeSwitches(prev: ModuleConfig)
      requires prev != this
      modifies this`autoDetect, this`dryRun, this`paymentHtml, this`logJson, this`indefinite
      ensures SwitchesNow() == MergedSwitches(old(SwitchesNow()), prev.SwitchesNow())
    {
      if autoDetect.None? {
        autoDetect := prev.autoDetect;
      }
      if dryRun.None? {
        dryRun := prev.dryRun;
      }
      if paymentHtml.None? {
        paymentHtml := prev.paymentHtml;
      }
      if logJson.None? {
        logJson := prev.logJson;
      }
      if indefinite.None? {
        indefinite := prev.indefinite;
      }
    }
  }

  // ---------------------------------------------------------------- merging down a path

  /** A scope's effective settings: merge along the path from the outermost scope, which is not merged itself. */
  function Effective(path: seq<Conf>, env: Env): Option<Conf>
    requires path != []
  {
    var n := |path| - 1;
    if n == 0 then Some(path[0])
    else
      match Effective(path[..n], env)
      case None => None
      case Some(prev) =>
        var m := MergeConf(path[n], prev, env);
        if m.ok then Some(m.conf) else None
  }

  // ---------------------------------------------------------------- looking a setting up

  /** Position of the innermost scope that `sets`, or the path's length when none does. */
  function Innermost(path: seq<Conf>, sets: Conf -> bool): (i: nat)
    ensures i <= |path|
    ensures i < |path| ==> sets(path[i]) && forall j | i < j < |path| :: !sets(path[j])
    ensures i == |path| ==> forall j | 0 <= j < |path| :: !sets(path[j])
  {
    if path == [] then 0
    else
      var n := |path| - 1;
      if sets(path[n]) then n
      else
        var i := Innermost(path[..n], sets);
        if i == n then n + 1 else i
  }

  /** What the innermost scope that sets something says, or `unset`. */
  function Nearest<T>(path: seq<Conf>, sets: Conf -> bool, read: Conf -> T, unset: T): T {
    var i := Innermost(path, sets);
    if i < |path| then read(path[i]) else unset
  }

  lemma NearestStep<T>(path: seq<Conf>, sets: Conf -> bool, read: Conf -> T, unset: T)
    requires path != []
    ensures var n := |path| - 1;
            Nearest(path, sets, read, unset)
              == if sets(path[n]) then read(path[n]) else Nearest(path[..n], sets, read, unset)
  {
  }

  predicate SetsEnable(c: Conf) { c.price.enable.Some? }
  predicate SetsAmount(c: Conf) { c.price.amount != 0 }
  predicate SetsTimeout(c: Conf) { c.price.timeout != 0 }
  predicate SetsRealm(c: Conf) { c.terms.realm.Some? }
  predicate SetsRateLimit(c: Conf) { c.terms.rateLimit.Some? }
  predicate SetsMethods(c: Conf) { c.terms.exemptMethods != [] }
  predicate SetsAutoDetect(c: Conf) { c.switches.autoDetect.Some? }
  predicate SetsDryRun(c: Conf) { c.switches.dryRun.Some? }
  predicate SetsHtml(c: Conf) { c.switches.paymentHtml.Some? }
  predicate SetsLogJson(c: Conf) { c.switches.logJson.Some? }
  predicate SetsIndefinite(c: Conf) { c.switches.indefinite.Some? }
  predicate Hides(c: Conf) { c.terms.hidden }

  /** A scope names a destination by either spelling. */
  predicate Names(c: Conf) { c.payout.lnurlAddr.Some? || c.payout.tenantRef.Some? }

  const EnableOf := (c: Conf) => c.price.enable
  const AmountOf := (c: Conf) => c.price.amount
  const TimeoutOf := (c: Conf) => c.price.timeout
  const RealmOf := (c: Conf) => c.terms.realm
  const RateLimitOf := (c: Conf) => c.terms.rateLimit
  const MethodsOf := (c: Conf) => c.terms.exemptMethods
  const AutoDetectOf := (c: Conf) => c.switches.autoDetect
  const DryRunOf := (c: Conf) => c.switches.dryRun
  const HtmlOf := (c: Conf) => c.switches.paymentHtml
  const LogJsonOf := (c: Conf) => c.switches.logJson
  const IndefiniteOf := (c: Conf) => c.switches.indefinite
  const PayoutOf := (c: Conf) => c.payout

  function LookupPrice(path: seq<Conf>): Price {
    Price(Nearest(path, SetsEnable, EnableOf, None),
          Nearest(path, SetsAmount, AmountOf, 0), Nearest(path, SetsTimeout, TimeoutOf, 0))
  }

  /** A destination with its tenant's registered address filled in. */
  function Resolved(p: Payout, env: Env): Payout {
    if p.tenantRef.Some? && p.tenantRef.value in env.tenants then
      p.(lnurlAddr := Some(env.tenants[p.tenantRef.value].lnurlAddr))
    else p
  }

  function LookupPayout(path: seq<Conf>, env: Env): Payout {
    Resolved(Nearest(path, Names, PayoutOf, UNSET_PAYOUT), env)
  }

  function LookupTerms(path: seq<Conf>): Terms {
    Terms(Nearest(path, SetsRealm, RealmOf, None), Nearest(path, SetsRateLimit, RateLimitOf, None),
          Nearest(path, SetsMethods, MethodsOf, []), Innermost(path, Hides) < |path|)
  }

  function LookupSwitches(path: seq<Conf>): Switches {
    Switches(Nearest(path, SetsAutoDetect, AutoDetectOf, None), Nearest(path, SetsDryRun, DryRunOf, None),
             Nearest(path, SetsHtml, HtmlOf, None), Nearest(path, SetsLogJson, LogJsonOf, None),
             Nearest(path, SetsIndefinite, IndefiniteOf, None))
  }

  function Lookup(path: seq<Conf>, env: Env): Conf {
    Conf(LookupPrice(path), LookupPayout(path, env), LookupTerms(path), LookupSwitches(path))
  }

  // ---------------------------------------------------------------- merge is lookup

  /** What the directive setters allow, and the outermost scope, where no payout directive can stand. */
  ghost predicate Configurable(path: seq<Conf>) {
    && path != [] && path[0].payout == UNSET_PAYOUT
    && forall i | 0 <= i < |path| :: path[i].price.amount >= 0 && path[i].price.timeout >= 0
  }

  /** One destination by one spelling, and a name somebody defined. */
  predicate NamesOk(c: Conf, env: Env) {
    c.payout.tenantRef.Some? ==> c.payout.lnurlAddr.None? && c.payout.tenantRef.value in env.tenants
  }

  /** The k-th scope loads, judged by what is looked up for it. */
  predicate ScopeOk(path: seq<Conf>, k: nat, env: Env)
    requires k < |path|
  {
    NamesOk(path[k], env) && Acceptable(Lookup(path[..k + 1], env), env)
  }

  predicate Loads(path: seq<Conf>, env: Env) {
    forall k | 1 <= k < |path| :: ScopeOk(path, k, env)
  }

  lemma PriceStep(path: seq<Conf>)
    requires Configurable(path) && |path| > 1
    ensures var n := |path| - 1; MergedPrice(path[n].price, LookupPrice(path[..n])) == LookupPrice(path)
  {
    NearestStep(path, SetsEnable, EnableOf, None);
    NearestStep(path, SetsAmount, AmountOf, 0);
    NearestStep(path, SetsTimeout, TimeoutOf, 0);
  }

  lemma PayoutStep(path: seq<Conf>, env: Env)
    requires path != []
    ensures var n := |path| - 1;
            MergedPayout(path[n].payout, LookupPayout(path[..n], env), env)
              == if NamesOk(path[n], env) then Some(LookupPayout(path, env)) else None
  {
    NearestStep(path, Names, PayoutOf, UNSET_PAYOUT);
  }

  lemma TermsStep(path: seq<Conf>)
    requires path != []
    ensures var n := |path| - 1; MergedTerms(path[n].terms, LookupTerms(path[..n])) == LookupTerms(path)
  {
    NearestStep(path, SetsRealm, RealmOf, None);
    NearestStep(path, SetsRateLimit, RateLimitOf, None);
    NearestStep(path, SetsMethods, MethodsOf, []);
  }

  lemma SwitchesStep(path: seq<Conf>)
    requires path != []
    ensures var n := |path| - 1; MergedSwitches(path[n].switches, LookupSwitches(path[..n])) == LookupSwitches(path)
  {
    NearestStep(path, SetsAutoDetect, AutoDetectOf, None);
    NearestStep(path, SetsDryRun, DryRunOf, None);
    NearestStep(path, SetsHtml, HtmlOf, None);
    NearestStep(path, SetsLogJson, LogJsonOf, None);
    NearestStep(path, SetsIndefinite, IndefiniteOf, None);
  }

  lemma LookupStep(path: seq<Conf>, env: Env)
    requires Configurable(path) && |path| > 1
    ensures var n := |path| - 1;
            var m := MergeConf(path[n], Lookup(path[..n], env), env);
            && (m.ok <==> ScopeOk(path, n, env))
            && (NamesOk(path[n], env) ==> m.conf == Lookup(path, env))
  {
    var n := |path| - 1;
    assert path[..n + 1] == path;
    PriceStep(path);
    PayoutStep(path, env);
    TermsStep(path);
    SwitchesStep(path);
  }

  lemma RootLooksUpItself(root: Conf, env: Env)
    requires root.payout == UNSET_PAYOUT
    ensures Lookup([root], env) == root
  {
    assert [root][..0] == [];
    assert LookupPrice([root]) == root.price;
    assert LookupTerms([root]) == root.terms;
    assert LookupSwitches([root]) == root.switches;
  }

  /**
   Merging down a path is looking every setting up, and fails exactly when some scope on the way is
   not acceptable.
   */
  lemma {:induction false} MergeIsLookup(path: seq<Conf>, env: Env)
    requires Configurable(path)
    ensures Effective(path, env) == if Loads(path, env) then Some(Lookup(path, env)) else None
  {
    var n := |path| - 1;
    if n == 0 {
      assert path == [path[0]];
      RootLooksUpItself(path[0], env);
    } else {
      MergeIsLookup(path[..n], env);
      LookupStep(path, env);
      LoadsStep(path, env);
    }
  }

  lemma ScopeOkInPrefix(path: seq<Conf>, n: nat, k: nat, env: Env)
    requires k < n <= |path|
    ensures ScopeOk(path, k, env) <==> ScopeOk(path[..n], k, env)
  {
    assert path[..n][..k + 1] == path[..k + 1];
  }

  lemma LoadsStep(path: seq<Conf>, env: Env)
    requires |path| > 1
    ensures Loads(path, env) <==> Loads(path[..|path| - 1], env) && ScopeOk(path, |path| - 1, env)
  {
    var n := |path| - 1;
    forall k | 1 <= k < n ensures ScopeOk(path, k, env) <==> ScopeOk(path[..n], k, env) {
      ScopeOkInPrefix(path, n, k, env);
    }
    if Loads(path, env) {
      assert ScopeOk(path, n, env);
    }
  }

  // ---------------------------------------------------------------- what operators rely on

  lemma LoadedNames(path: seq<Conf>, i: nat, env: Env)
    requires Loads(path, env) && 1 <= i < |path|
    ensures NamesOk(path[i], env)
  {
    assert ScopeOk(path, i, env);
  }

  lemma LookedUpTenant(path: seq<Conf>, env: Env)
    requires Configurable(path) && Loads(path, env)
    ensures var p := LookupPayout(path, env);
            p.tenantRef.Some? ==>
              && p.tenantRef.value in env.tenants && p.lnurlAddr == Some(env.tenants[p.tenantRef.value].lnurlAddr)
              && exists i :: 0 < i < |path| && path[i].payout.tenantRef == p.tenantRef
                   && forall j | i < j < |path| :: path[j].payout.lnurlAddr.None? && path[j].payout.tenantRef.None?
  {
    var i := Innermost(path, Names);
    if 0 < i < |path| {
      LoadedNames(path, i, env);
      assert forall j | i < j < |path| :: !Names(path[j]);
    }
  }

  /** A location with a tenant is paid at the address registered for it, and only by a name set nearest to it. */
  lemma TenantGetsItsRegisteredAddress(path: seq<Conf>, env: Env)
    requires Configurable(path) && Effective(path, env).Some?
    ensures var c := Effective(path, env).value;
            c.payout.tenantRef.Some? ==>
              && c.payout.tenantRef.value in env.tenants
              && c.payout.lnurlAddr == Some(env.tenants[c.payout.tenantRef.value].lnurlAddr)
              && exists i :: 0 < i < |path| && path[i].payout.tenantRef == c.payout.tenantRef
                   && forall j | i < j < |path| :: path[j].payout.lnurlAddr.None? && path[j].payout.tenantRef.None?
  {
    MergeIsLookup(path, env);
    LookedUpTenant(path, env);
  }

  /**
   When a merge is refused, in terms of the directives: the destination is named twice or names nobody
   defined; or the route is enabled and charges for a realm without indefinite access, or pays Cashu to
   the operator instead of the tenant it names. An address given as such is never refused.
   */
  lemma RefusedIff(c: Conf, prev: Conf, env: Env)
    ensures var m := MergeConf(c, prev, env);
            !m.ok <==>
              || (c.payout.tenantRef.Some? && (c.payout.lnurlAddr.Some? || c.payout.tenantRef.value !in env.tenants))
              || (m.conf.price.enable == Some(true) && m.conf.terms.realm.Some?
                  && m.conf.switches.indefinite != Some(true))
              || (m.conf.price.enable == Some(true) && m.conf.payout.tenantRef.Some? && m.conf.payout.lnurlAddr.Some?
                  && env.cashuOn && env.backend != "LNURL")
  {
  }

  /** A refused destination stops the merge: switch, price and timeout have been inherited by then, the rest has not. */
  lemma RefusedDestinationStopsTheMerge(c: Conf, prev: Conf, env: Env)
    requires c.payout.tenantRef.Some? && (c.payout.lnurlAddr.Some? || c.payout.tenantRef.value !in env.tenants)
    ensures var m := MergeConf(c, prev, env).conf;
            && m.payout == c.payout && m.terms == c.terms && m.switches == c.switches
            && (c.price.enable.Some? ==> m.price.enable == c.price.enable)
            && (c.price.enable.None? ==> m.price.enable == prev.price.enable)
            && (c.price.amount != 0 ==> m.price.amount == c.price.amount)
            && (c.price.amount == 0 && prev.price.amount > 0 ==> m.price.amount == prev.price.amount)
            && (c.price.timeout != 0 ==> m.price.timeout == c.price.timeout)
            && (c.price.timeout == 0 && prev.price.timeout > 0 ==> m.price.timeout == prev.price.timeout)
  {
  }

  /** No enabled location with a tenant takes Cashu that only the operator could redeem. */
  lemma TenantCashuIsTheTenants(path: seq<Conf>, env: Env)
    requires Configurable(path) && |path| > 1 && Effective(path, env).Some?
    ensures var c := Effective(path, env).value;
            c.price.enable == Some(true) && c.payout.tenantRef.Some? && env.cashuOn ==> env.backend == "LNURL"
  {
    TenantGetsItsRegisteredAddress(path, env);
    MergeIsLookup(path, env);
    assert ScopeOk(path, |path| - 1, env);
    assert path[..|path|] == path;
  }

  /** No enabled location charges for a realm and then refuses the second request in it. */
  lemma EnabledRealmIsIndefinite(path: seq<Conf>, env: Env)
    requires Configurable(path) && |path| > 1 && Effective(path, env).Some?
    ensures var c := Effective(path, env).value;
            c.price.enable == Some(true) && c.terms.realm.Some? ==> c.switches.indefinite == Some(true)
  {
    MergeIsLookup(path, env);
    assert ScopeOk(path, |path| - 1, env);
    assert path[..|path|] == path;
  }

  // ---------------------------------------------------------------- merging the same scope again

  /** No destination in this outcome came by a tenant's name. */
  predicate NoTenant(c: Payout, prev: Payout) {
    c.tenantRef.None? && (c.lnurlAddr.Some? || prev.tenantRef.None?)
  }

  /** Merging a merged scope again changes nothing exactly when neither scope's tenant decided its destination. */
  lemma SecondMergeIff(c: Conf, prev: Conf, env: Env)
    requires MergeConf(c, prev, env).ok
    ensures var m := MergeConf(c, prev, env);
            MergeConf(m.conf, prev, env) == m <==> NoTenant(c.payout, prev.payout)
  {
    var m := MergeConf(c, prev, env).conf;
    assert MergedPrice(m.price, prev.price) == m.price;
    assert MergedTerms(m.terms, prev.terms) == m.terms;
    assert MergedSwitches(m.switches, prev.switches) == m.switches;
  }

  /**
   On every path that loads: a scope merged a second time is refused when it has a tenant, its own or
   an inherited one, and is left as it is when it has none.
   */
  lemma MergingTwiceIsRefused(path: seq<Conf>, env: Env)
    requires Configurable(path) && |path| > 1 && Effective(path, env).Some?
    ensures Effective(path[..|path| - 1], env).Some?
    ensures var c, prev := Effective(path, env).value, Effective(path[..|path| - 1], env).value;
            if c.payout.tenantRef.Some? then !MergeConf(c, prev, env).ok
            else MergeConf(c, prev, env) == Merged(c, true)
  {
    var n := |path| - 1;
    var c, prev := Effective(path, env).value, Effective(path[..n], env).value;
    TenantGetsItsRegisteredAddress(path, env);
    SecondMergeIff(path[n], prev, env);
  }
}
