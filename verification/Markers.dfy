/**
 Replay markers in Redis: keys that are set once and may expire.

 `Claim` and `Release` are the two commands the gateway sends (`SET NX [EX]` and `DEL`) on the
 key space as a value; the state machines of the claim protocols step with them. `MarkerStore`
 is the gateway's side of one Redis, with a clock and an up/down switch, and its methods are the
 three source functions that send those commands.
 */
module Markers {
  import opened Commands
  import opened Options
  import ReplayCache

  type Key = string

  datatype Expiry = Never | At(time: nat)

  type Space = map<Key, Expiry>

  /** A key set with `EX n` at time t is there exactly while the clock is before t + n. */
  predicate Live(keys: Space, key: Key, now: nat) {
    key in keys && (keys[key] == Never || now < keys[key].time)
  }

  function ExpiryOf(now: nat, ttl: Option<nat>): Expiry {
    if ttl.Some? then At(now + ttl.value) else Never
  }

  /** SET key NX [EX ttl] on a reachable Redis. */
  function Claim(keys: Space, key: Key, now: nat, ttl: Option<nat>): Space {
    if Live(keys, key, now) then keys else keys[key := ExpiryOf(now, ttl)]
  }

  /** DEL key. */
  function Release(keys: Space, key: Key): Space {
    keys - {key}
  }

  /** How long a spent preimage is remembered: never less than its macaroon lives. */
  function PreimageTtl(configured: nat, timeout: nat): Option<nat> {
    if timeout > 0 then Some(if configured < timeout then timeout else configured) else None
  }

  /** Why a claim gave no answer. */
  datatype ClaimError = NotConfigured | Unavailable
  datatype ClaimResult = Claimed(first: bool) | Failed(error: ClaimError)

  /** Status codes of the claim: pass on, replay, Redis unreachable. */
  const NGX_DECLINED := -5

  function HandlePreimageClaim(r: ClaimResult): int {
    match r
    case Claimed(true) => NGX_DECLINED
    case Claimed(false) => 401
    case Failed(NotConfigured) => NGX_DECLINED
    case Failed(Unavailable) => 503
  }

  class MarkerStore {
    var keys: Space
    var now: nat
    const configured: bool        // REDIS_URL is set
    const preimageTtl: nat        // L402_PREIMAGE_TTL_SECONDS
    const tokenTtl: nat           // L402_CASHU_TOKEN_TTL_SECONDS

    constructor (configured: bool, preimageTtl: nat, tokenTtl: nat)
      ensures this.keys == map[] && this.now == 0
      ensures this.configured == configured && this.preimageTtl == preimageTtl && this.tokenTtl == tokenTtl
    {
      this.keys, this.now := map[], 0;
      this.configured, this.preimageTtl, this.tokenTtl := configured, preimageTtl, tokenTtl;
    }

    /** One SET NX [EX] round trip. Redis refuses an expiry of zero. */
    method SetNx(key: Key, ttl: Option<nat>, fate: Fate) returns (r: ClaimResult)
      modifies this`keys
      ensures keys == if fate.NotSent? || ttl == Some(0) then old(keys) else Claim(old(keys), key, now, ttl)
      ensures r == if !fate.Answered? || ttl == Some(0) then Failed(Unavailable)
                   else Claimed(!Live(old(keys), key, now))
    {
      if fate.NotSent? || ttl == Some(0) {
        return Failed(Unavailable);
      }
      var absent := key !in keys || (keys[key].At? && keys[key].time <= now);
      if absent {
        keys := keys[key := if ttl.Some? then At(now + ttl.value) else Never];
      }
      if fate.ReplyLost? {
        return Failed(Unavailable);
      }
      return Claimed(absent);
    }

    /** store_preimage_as_used. Without Redis the worker's own cache decides. */
    method StorePreimageAsUsed(cache: ReplayCache.Cache, key: Key, timeout: nat, fate: Fate) returns (r: ClaimResult)
      requires cache.Valid()
      modifies this`keys, cache`seen, cache`order
      ensures cache.Valid()
      ensures !configured ==>
                && keys == old(keys)
                && r == Claimed(key !in old(cache.order))
                && cache.order == ReplayCache.ClaimQueue(old(cache.order), cache.cap, key)
      ensures configured ==> cache.order == old(cache.order)
      ensures configured && r == Claimed(true) ==>
                && fate.Answered? && !Live(old(keys), key, now)
                && key in keys && keys == old(keys)[key := keys[key]]
                && (timeout == 0 ==> keys[key] == Never)
                && (timeout > 0 ==>
                      keys[key].At? && keys[key].time >= now + timeout && keys[key].time >= now + preimageTtl)
      ensures configured && r == Claimed(false) ==> Live(old(keys), key, now) && keys == old(keys)
      ensures configured && r.Failed? ==>
                keys == if fate.ReplyLost? then Claim(old(keys), key, now, PreimageTtl(preimageTtl, timeout))
                        else old(keys)
      ensures configured ==> (r.Failed? <==> !fate.Answered?)
      ensures r.Failed? ==> r.error == Unavailable
    {
      if !configured {
        var first := cache.Claim(key);
        return Claimed(first);
      }
      r := SetNx(key, PreimageTtl(preimageTtl, timeout), fate);
    }

    /** store_cashu_token_as_used. */
    method StoreCashuTokenAsUsed(key: Key, fate: Fate) returns (r: ClaimResult)
      modifies this`keys
      ensures !configured ==> r == Failed(NotConfigured) && keys == old(keys)
      ensures configured ==> (r == Claimed(true) <==> fate.Answered? && tokenTtl > 0 && !Live(old(keys), key, now))
      ensures configured ==> (r == Claimed(false) <==> fate.Answered? && tokenTtl > 0 && Live(old(keys), key, now))
      ensures configured ==> r != Failed(NotConfigured)
      ensures configured ==>
                keys == if fate.NotSent? || tokenTtl == 0 then old(keys)
                        else Claim(old(keys), key, now, Some(tokenTtl))
    {
      if !configured {
        return Failed(NotConfigured);
      }
      r := SetNx(key, Some(tokenTtl), fate);
    }

    /** release_cashu_token: best effort, so the caller is told nothing. */
    method ReleaseCashuToken(key: Key, fate: Fate)
      modifies this`keys
      ensures keys == if configured && !fate.NotSent? then old(keys) - {key} else old(keys)
      ensures configured && !fate.NotSent? ==> !Live(keys, key, now)
    {
      if configured && !fate.NotSent? {
        keys := keys - {key};
      }
    }
  }
}
