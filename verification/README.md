# ngx_l402: a verified model

ngx_l402 is an nginx module that charges for HTTP requests: with a Lightning payment proved by a macaroon and a preimage (L402), or with a Cashu token. It runs in several worker processes that share a Redis, a wallet database and the mints. This project models the parts where a mistake loses or misdirects money, and proves what they promise over every input, run or interleaving.

| file | what it models |
|---|---|
| `TenantLedger.dfy`, `TenantRuns.dfy`, `TenantTrouble.dfy` | who is paid for a Cashu proof: requests, the redemption loop, the sweep and the start-up recovery as one state machine over the wallet rows, the proof-to-address keys and the mint; the runs nothing disturbs, from receipt to payout; and what each failure leaves behind |
| `TenantValue.dfy` | conservation of value for each tenant over the ledger's runs |
| `Markers.dfy`, `PreimageClaims.dfy`, `ProofSetClaims.dfy`, `SwapClaims.dfy` | the replay markers and the three admission protocols that use them |
| `Sorting.dfy`, `ProofSetKey.dfy` | the order of strings; the replay key of a proof set |
| `ReplayCache.dfy`, `WorkerClaims.dfy` | the bounded cache used without Redis, and what one worker admits with it |
| `RateLimiter.dfy` | the invoice rate limiter and its bucket names |
| `Counters.dfy` | the shared counters and the order in which a request adds to them |
| `Redemption.dfy`, `MappingSweep.dfy` | one redemption cycle in u64 arithmetic; the mapping writes, the put-back of reconciled proofs and the sweep |
| `Tenants.dfy`, `ConfigMerge.dfy` | named tenants and directive inheritance |
| `Replacing.dfy`, `HtmlEscaping.dfy`, `JsonEscaping.dfy`, `ChallengeHeader.dfy`, `CrashLine.dfy` | encoders, the challenge header and the crash line, each with its reader |
| `Options.dfy`, `Sequences.dfy`, `Commands.dfy` | the optional value, distinctness, and the three fates of a command, shared by the others |

`dafny verify dfyconfig.toml` checks everything.

## How it is modelled

Code that several processes interleave (`TenantLedger`, the three claim protocols, the limiter's and the counters' runs) is a deterministic function `Next` from a state and an event to a state; an event whose guard does not hold changes nothing. Theorems quantify over all sequences of events, so over all interleavings. Failures are events too: a command may be refused, or take effect and lose its reply; Redis may be down for any stretch; a request may crash at any point. Objects the source updates in place are classes (`MarkerStore`, `Cache`, `Limiter`, `MetricsBlock`, `Store`, `TenantRegistry`, `ModuleConfig`, `Line`) whose methods are proved against functions of their old state, and loops that update variables are methods with loops.

Assumptions:

- Hashes are injective, so a Redis key stands for what was hashed.
- One Redis command is atomic, keys are not evicted, and a key set with `EX n` at time t exists exactly while the clock is before t + n. There is one clock.
- The mint performs a swap or a melt only if every input is unspent, and then spends exactly those inputs. Swap outputs and melt change are fresh proofs.
- The macaroon library accepts a macaroon only before its `ExpiresAt`.
- The wallet database performs one call entirely or not at all, and reports it, except where an event or a reply says otherwise.
- One redemption thread runs at a time (the source holds a lease). `TenantLedger.ChangeIsExposedUntilMapped` shows why that is needed.
- No token is presented for two tenants.
- A request's time from arrival to its preimage claim, and from its P2PK claim to its last command, is bounded by `patience`. The source sets no such bound: the handler sends its claim whether or not the client is still there. The theorems say what follows for each bound.
- One worker's increments of two counters become visible in the order they are made. The source makes them with relaxed ordering, which does not promise this to a reader of two different slots.

## Properties that hold under a condition

- **Single use of a preimage.** The macaroon expires by the timeout its location had when it was minted; the marker's lifetime is max(TTL, timeout) by the timeout of the request that claims, or permanent when that is 0. A reload can change the timeout in between (`src/lib.rs:2065`), and a request that stalls claims later than it verified. `PreimageClaims.SingleUseIff` gives the exact condition for every minted timeout and every set of timeouts a preimage is presented under: under each, the marker is permanent, or the macaroon expires and the marker lasts for the macaroon's timeout plus the longest time a request takes. A macaroon that never expires, presented after a reload to a positive timeout, is admitted again when its marker lapses (`PreimageClaims.ReloadAdmitsTwice`). Without a reload the condition is `PreimageClaims.SingleUseWithoutReloadIff`. The comment at `src/lib.rs:554-559` asks only for the macaroon's own lifetime.
- **Single use of a proof set.** `ProofSetClaims.OncePerLifetimeIff`: once per marker lifetime exactly when a request's time from claim to last command is below that lifetime. Otherwise a late `DEL` removes another request's marker.
- **Replay without Redis.** The comment on the cache says that a credential can only be replayed after `cap` distinct others (`ngx_l402_core/src/replay_cache.rs:43-45`). For preimages that is exact (`WorkerClaims.PreimageLetInIff`, `WorkerClaims.ReplayNeedsCapOthers`). An admitted P2PK token takes two entries, its proof set's key and its own text (`src/cashu.rs:2007-2008`), so its proof set is known exactly while twice the admissions since number less than `cap - 1` (`WorkerClaims.ProofSetKnownIff`): with 10 000 entries, up to 4999 others. Failed stores cost one entry more at most (`WorkerClaims.ProofSetIsRemembered`). After that the same unredeemed proofs are admitted again in another encoding (`WorkerClaims.OneOtherIsEnough`).
- **The challenge header.** `ChallengeHeader.ParsedExactly` computes what `parse_l402_header_value` returns for every pair of quote-free values. It returns the pair exactly when the macaroon does not end in `macaroon=`, the invoice does not end in `invoice=`, and a macaroon ending in `invoice=` comes with the invoice `, `. No such macaroon is canonical base64, so every macaroon that is really encoded comes back, with any invoice without an equals sign (`ChallengeHeader.EncodedMacaroonsComeBack`).
- **The melt's balance check.** `Redemption.AttemptIff`: it rejects every quote that costs more than the selected proofs hold, unless their total is saturated at 2^64 - 1. `Redemption.SatAttemptIff`: that exception never arises in a sat wallet whose proofs are each worth at most u64 msat. Both admission paths refuse larger tokens (`src/cashu.rs:1399-1406`, `src/cashu.rs:1715-1722`); proofs that a mint makes as change or that a wallet restore brings back pass no such check.
- **The limiter.** No stretch of one window length lets more than 2 * max - 1 requests through, and this is met (`RateLimiter.BoundedInEveryInterval`, `RateLimiter.DoubleBurstMeetsTheBound`).
- **A scrape** loads the sixteen slots one after another, so a page can show more parts than their whole. The excess is at most what the whole grew between its own load and the load of the last part (`Counters.PageSkewIsBounded`, `Counters.RequestsSkewIsBounded`, met by `Counters.PageCanRunAhead`). Every whole is loaded before its parts but one: the challenges issued are loaded ahead of the missing payments and never exceed them (`Counters.IssuedWithinMissing`).
- **Merging** a merged scope again changes nothing exactly when the scope set an address, or named no destination and its parent has no tenant (`ConfigMerge.SecondMergeIff`). On every path that loads, a scope that has a tenant, its own or an inherited one, is refused the second time, because the resolved tenant then counts as naming the destination by both spellings (`ConfigMerge.MergingTwiceIsRefused`). nginx merges each scope once.

Where the code and its documentation differ, the code is followed. `docs/cashu.md:80` says that P2PK proofs are stored with `wallet.receive_proofs()`; the code writes the rows itself (`src/cashu.rs:1985-1987`). `src/metrics.rs:45-48` describes the invalid counter as 401 answers and the missing counter as requests without a header; the code also counts 400 as invalid and every 402 as missing (`src/lib.rs:2225-2243`).

## Model

| member | source | states |
|---|---|---|
| `TenantLedger.EveryProofPaidToItsOwner` | src/cashu.rs:1554-1647 | In every interleaving of tenant receives, P2PK stores, redemption cycles, sweeps, crashes, outages and recoveries, a melt pays each proof, swap outputs and melt change included, to its owner's address, or to the default address if the proof was without a mapping when a mapping write failed, when redemption crashed before mapping it as change, or when it was recovered |
| `TenantLedger.PaidToWhomItWasPresentedFor` | src/cashu.rs:1012-1039 | A token presented where the location names an address, or names none and that address is the default, belongs to it in every later run, and its proofs are only ever paid there, or to the default address when their mapping was lost |
| `TenantLedger.OutputsFollowTheirInputs` | src/cashu.rs:1593-1646 | What a swap makes belongs to the owner of every proof it spent, whether or not the answer arrives |
| `TenantLedger.RunsThatLoseNothingPayOwners` | src/cashu.rs:1634-1636 | A run without a failed mapping write, without a recovered unmapped proof and without a crash between melt and change mapping pays every proof to its owner; crashed requests, failed stores, lost swaps and lost melts are allowed |
| `TenantLedger.MisgroupedBatchIsNeverPaid` | src/cashu.rs:1223-1239 | The race: a listed proof is swapped and its mapping deleted before redemption reads it, so it is grouped under another address; the mint refuses every melt of that batch, answered or not |
| `TenantRuns.UndisturbedReceive` | src/cashu.rs:1582-1646 | A receive nothing interferes with, for the address the location names or else the default one, ends with the token's proofs spent and unmapped, the new ones owned by and mapped to that address and Unspent, and nothing else moved |
| `TenantRuns.UndisturbedLocked` | src/cashu.rs:1979-2001 | A P2PK token nothing interferes with ends with its proofs owned by and mapped to that address and Unspent, and nothing else moved |
| `TenantRuns.UndisturbedMelt` | src/cashu.rs:2646-2707 | A melt nothing interferes with ends with the batch paid and unmapped, the change mapped to the same address and Unspent, the group done, and nothing else moved |
| `TenantRuns.GroupingRuns` | src/cashu.rs:1216-1243 | With every mapping read, the grouping loop ends with each listed proof under its mapping's address or the default, in order |
| `TenantRuns.LedgerGroupsAsTheLoopDoes` | src/cashu.rs:1206-1243 | Any groups that meet the contract of `Redemption.GroupProofs` for the same readings are the ledger's groups |
| `TenantRuns.TokenIsPaidOut` | src/cashu.rs:1582-1646 | From receipt to payout: a token received for the named or default address and then redeemed with nothing interfering is paid at that address, unmapped, with the change mapped to it and spendable, and nobody else paid |
| `TenantTrouble.FailedSwapParksItsInputs` | src/cashu.rs:1606-1632 | A swap that fails on our side leaves its inputs Pending and ends the request, and nothing else moves |
| `TenantTrouble.LostSwapParksItsInputs` | src/cashu.rs:1606-1632 | So does one whose answer is lost; its inputs are spent and its outputs the tenant's |
| `TenantTrouble.UnmappedOutputsAreFreed` | src/cashu.rs:1634-1646 | Outputs that could not be mapped are counted lost and freed all the same, and the inputs unmapped |
| `TenantTrouble.UnmappedLockedProofsAreStored` | src/cashu.rs:1979-1987 | P2PK proofs that could not be mapped are counted lost and stored all the same |
| `TenantTrouble.EarlyTroubleEndsTheRequest` | src/cashu.rs:1582-1603 | Before the swap a failure ends the request; at most one mapping more is written |
| `TenantTrouble.UnreadableMappingEndsTheCycle` | src/cashu.rs:1216-1232 | An unreadable mapping or no default address ends the cycle before anything is paid |
| `TenantTrouble.LostMelt` | src/cashu.rs:2708-2712 | A melt whose answer is lost is paid at the mint, unknown to the wallet, and its group passed over |
| `TenantTrouble.UnmappedChangeIsLost` | src/cashu.rs:2693-2706 | Change that could not be mapped is counted lost and the loop goes on |
| `TenantTrouble.DeadRedeemer` | src/cashu.rs:2684-2707 | A redeemer that dies loses exactly the change it had not mapped |
| `TenantTrouble.BatchIsSwept` | src/cashu.rs:1169-1187 | One batch of a sweep takes its mappings, then its rows, and leaves the rest |
| `TenantTrouble.SweepStops` | src/cashu.rs:1169-1187 | A sweep that fails at the mappings keeps every row, one that fails at the rows has lost only mappings |
| `TenantTrouble.SpentProofIsReconciled` | src/cashu.rs:1083-1118 | A proof in flight that the mint has spent is deleted, or kept as Spent for the sweep |
| `TenantLedger.SpentOnce` | src/cashu.rs:1041-1065 | What the mint has spent was spent by a swap or by one melt, never both, and a payment is never changed later |
| `TenantLedger.UnspentRowsStay` | src/cashu.rs:1179-1182 | In every run no row of a proof the mint holds unspent leaves the wallet |
| `TenantLedger.ChangeFollowsItsInputs` | src/cashu.rs:2693-2707 | Melt change belongs to the owner of every input whose mapping was not lost |
| `TenantLedger.ChangeIsExposedUntilMapped` | src/cashu.rs:2684-2707 | Between the melt and the mapping of its change, a second redeemer would group the change under the default address: the reason for a single redeemer |
| `TenantLedger.NextKeeps` | src/cashu.rs:1582-1646 | Every event keeps the ledger invariant (rows known, owned or spent; groups payable; tasks and redeemer consistent), only adds to history, and keeps the row of every unspent proof |
| `TenantLedger.RequestKeeps` | src/cashu.rs:1582-1646 | The same for every step of a request: map before store, reserve, swap, record, map outputs before Unspent, P2PK map before store |
| `TenantLedger.PayingKeeps` | src/cashu.rs:2317-2714 | The same for skipping a group, holding or freeing its proofs in the wallet, a melt that is answered and one whose answer is lost |
| `TenantLedger.CycleKeeps` | src/cashu.rs:1206-1242 | The same for the snapshot, the grouping reads, the recording and settling of a melt and the sweep |
| `TenantLedger.RecoveryKeeps` | src/cashu.rs:907-936 | The same for proofs that start-up brings back, finds good or finds spent |
| `TenantLedger.RunKeeps` | src/cashu.rs:1206-1242 | The invariant holds after every run, and history only grows |
| `TenantLedger.RunLosesNothing` | src/cashu.rs:1979-1983 | Only the named failures ever lose a mapping |
| `TenantValue.ValueIsConserved` | src/cashu.rs:1582-1646 | In every run and for every address: the value presented for it, plus others' lost proofs paid to it, is the value of its unspent proofs plus what left the mint in its name plus its lost proofs paid elsewhere; only the default address gains, and only lost proofs stray |
| `TenantValue.EveryTenantIsSquare` | src/cashu.rs:2646-2707 | In runs that lose no mapping every address's account closes by itself, and with a mint that gives out no more than it takes in, no address is paid more than was presented for it |
| `TenantValue.NextFlows` | src/cashu.rs:1582-1646 | Every event brings in, spends and makes exactly the proofs of its flow, and moves nothing else |
| `TenantValue.FlowBalances` | src/cashu.rs:2646-2707 | What one flow does to an address's account cancels out |
| `Markers.MarkerStore.SetNx` | src/lib.rs:592-612 | SET NX EX: sets an absent or lapsed key, leaves a live one, says which, and says nothing when the reply is lost or the expiry is zero |
| `Markers.MarkerStore.StorePreimageAsUsed` | src/lib.rs:560-613 | With Redis a first claim leaves a marker that never expires when the timeout is 0, and otherwise lives at least the TTL and at least the timeout, a second claim changes nothing, and failures are unavailable; without Redis the worker's cache claims the key and decides |
| `Markers.MarkerStore.StoreCashuTokenAsUsed` | src/lib.rs:660-687 | First, replay, unconfigured and unavailable are told apart exactly, and the marker is set exactly when the command reached Redis |
| `Markers.MarkerStore.ReleaseCashuToken` | src/lib.rs:695-716 | A release that reaches Redis leaves the key claimable, one that does not changes nothing |
| `PreimageClaims.SingleUseIff` | src/lib.rs:2702-2746 | Over all runs of any number of workers, reloads, ticks, expiries, outages and lost replies, a preimage minted with one timeout and presented under given others is admitted at most once if and only if its marker outlives the macaroon under each of them |
| `PreimageClaims.SingleUseWithoutReloadIff` | src/lib.rs:2702-2746 | While the location keeps its timeout, that is: the timeout is 0, requests take no time, or the TTL covers the timeout and a request's time |
| `PreimageClaims.ReloadAdmitsTwice` | src/lib.rs:2065-2069 | Minted without expiry and presented after a reload to any positive timeout, a preimage is admitted again when its marker lapses |
| `PreimageClaims.RunKeeps` | src/lib.rs:560-613 | The run invariant: at most one admission, and after it a marker with the lifetime of its claim, from minting at the earliest |
| `PreimageClaims.SlowReplayAdmitsTwice` | src/lib.rs:586-590 | When a marker falls short of an expiring macaroon and a stalled request, a concrete run admits the preimage twice |
| `PreimageClaims.MarkerIsLive` | src/lib.rs:554-559 | A token verified in time meets the live marker of the admission before it |
| `PreimageClaims.FirstUseIsAdmitted` | src/lib.rs:2702-2735 | A good macaroon with an unused preimage is admitted and leaves its marker |
| `PreimageClaims.ReplayIsRefused` | src/lib.rs:2728-2734 | While the marker lives a replay changes nothing, even when the look-up gets no answer |
| `PreimageClaims.ClaimDecides` | src/lib.rs:580-612 | A claim in time sets the marker if Redis is reached and has none, for max(TTL, timeout) or without end when the timeout is 0, and lets the preimage in only on the answer that it was the first |
| `PreimageClaims.StatusOfClaim` | src/lib.rs:523-549 | The answer is 503 exactly when Redis gives none, 401 exactly for a live marker, and passed on otherwise |
| `PreimageClaims.LookUpFailsOpen` | src/lib.rs:438-447 | The look-up turns a known preimage away and lets everything else on, also when Redis does not answer |
| `PreimageClaims.NoAdmissionDuringOutage` | src/lib.rs:540-546 | While a configured Redis is down nobody is admitted and no marker moves |
| `ProofSetClaims.OncePerLifetimeIff` | src/cashu.rs:1927-2013 | Over all runs one proof set is admitted at most once per marker lifetime if and only if requests finish inside it (or the lifetime is zero) |
| `ProofSetClaims.RunKeeps` | src/cashu.rs:1927-2013 | The run invariant: a request that can still act holds its key alone, and an admitted set stays blocked for a lifetime |
| `ProofSetClaims.StolenReleaseAdmitsTwice` | src/cashu.rs:1987-1996 | When the condition fails: a late release removes the marker of a request that has stored, and a third request is admitted |
| `ProofSetClaims.ZeroTtlAdmitsNothing` | src/lib.rs:670-685 | With an expiry of zero Redis refuses every claim and P2PK mode admits nothing |
| `ProofSetClaims.LapsedMarkerAdmitsAgain` | src/cashu.rs:1959-1964 | The lifetime is the whole protection: when the marker lapses the same set is admitted again |
| `ProofSetClaims.EveryClaimAccounted` | src/cashu.rs:1985-2001 | In every run each marker has a live holder, stored proofs, or a request that could not release it |
| `ProofSetClaims.ReleasedKeyIsClaimable` | src/cashu.rs:1987-1996 | After a failed write whose release works, the next request claims the key |
| `ProofSetClaims.ClaimDecides` | src/cashu.rs:1933-1973 | A claim wins exactly when Redis is up, reached, accepts the expiry and has no live marker |
| `ProofSetClaims.GivingBack` | src/lib.rs:695-716 | Giving back removes the marker if Redis is reached, and otherwise leaves the claim with nobody |
| `ProofSetClaims.OutageClaimsNothing` | src/cashu.rs:1958-1973 | In an outage no claim is won, and only claims won before it are stored |
| `SwapClaims.EachProofAdmitsOnce` | src/cashu.rs:1498-1532 | In every run, outages and expired markers included, each proof leads to at most one admission, under one text or several |
| `SwapClaims.EverySwapIsAdmitted` | src/cashu.rs:1517-1523 | Every successful receive is admitted: the "already used" branch after a swap is unreachable |
| `SwapClaims.UnspentTokenIsAdmitted` | src/cashu.rs:1498-1532 | A token none of whose proofs is spent is admitted, whatever becomes of its claim |
| `SwapClaims.ReencodedTokenIsStoppedByTheMint` | src/cashu.rs:1505-1511 | The marker, kept per text, cannot stop a re-encoded token; the mint's spent set does |
| `SwapClaims.ClaimDecides` | src/cashu.rs:1509-1532 | In any state a token is told "already used" exactly on the answer that its marker is live, and is admitted otherwise |
| `SwapClaims.ReceiveSpends` | src/cashu.rs:1490-1496 | The mint swaps all proofs of an unspent token, also when the request never hears of it |
| `SwapClaims.RunKeeps` | src/cashu.rs:1498-1532 | The run invariant that makes both follow: admitted texts own the proofs they spent |
| `ProofSetKey.ReplayKeyIff` | src/cashu.rs:1760-1783 | Two proof lists get the same key exactly when they hold the same Y values with multiplicity; a list with a missing Y value gets none |
| `ProofSetKey.SameKeyIff` | src/cashu.rs:1779-1782 | Sorting, joining and hashing is a complete invariant of the multiset of Y values |
| `Sorting.SortedListsAgree` | src/cashu.rs:1779-1779 | Any sort, stable or not, gives the same list |
| `Sorting.LeqIff` | src/cashu.rs:1779-1779 | The order sorted by: a beginning comes first, otherwise the first difference decides |
| `ProofSetKey.JoinIsInjective` | src/cashu.rs:1781-1781 | Joining comma-free, non-empty values with commas loses nothing |
| `ProofSetKey.CollectFailsClosed` | src/cashu.rs:1764-1778 | One proof without a Y value fails the set; it is never dropped |
| `ReplayCache.Cache.constructor` | ngx_l402_core/src/replay_cache.rs:31-38 | An empty valid cache of the asked capacity, raised to one |
| `ReplayCache.Cache.Claim` | ngx_l402_core/src/replay_cache.rs:46-58 | First exactly when the key was not held; the queue becomes the specified one, and set and queue agree |
| `ReplayCache.Cache.Contains` | ngx_l402_core/src/replay_cache.rs:61-63 | Answers by the queue |
| `ReplayCache.Cache.Release` | ngx_l402_core/src/replay_cache.rs:68-74 | Removes the key from set and queue, leaving the others in order |
| `ReplayCache.Cache.Len` | ngx_l402_core/src/replay_cache.rs:77-79 | Queue and set have the same size |
| `ReplayCache.ClaimSurvives` | ngx_l402_core/src/replay_cache.rs:43-58 | After a successful claim a key stays claimed through the next cap - 1 fresh claims, however releases of others, look-ups and failed claims interleave |
| `ReplayCache.SurvivesFor` | ngx_l402_core/src/replay_cache.rs:46-74 | A held key outlives every run with fewer fresh claims than its life, cap - len + position + 1 |
| `ReplayCache.EvictedExactlyThen` | ngx_l402_core/src/replay_cache.rs:50-54 | Without releases the bound is exact: held if and only if fewer fresh claims came than its life |
| `ReplayCache.AnswersLikeASet` | ngx_l402_core/src/replay_cache.rs:46-74 | Until it must evict, the cache answers every operation as an unbounded set would |
| `ReplayCache.RefinesSetIff` | ngx_l402_core/src/replay_cache.rs:46-74 | It holds the same keys as an unbounded set after every operation if and only if that set never exceeds the capacity |
| `ReplayCache.RunKeeps` | ngx_l402_core/src/replay_cache.rs:46-74 | Every run keeps the queue duplicate-free and within a capacity of at least one |
| `WorkerClaims.HandlePair` | src/lib.rs:2702-2735 | Without Redis a look-up, a verification and a claim admit exactly a good pair whose preimage the worker's cache does not hold, and the cache claims it then |
| `WorkerClaims.PreimageLetInIff` | src/lib.rs:570-576 | In every run of a worker a good pair is let in exactly when its preimage is not among the last cap let in |
| `WorkerClaims.ReplayNeedsCapOthers` | ngx_l402_core/src/replay_cache.rs:40-59 | A preimage is let in again only after cap others, all different |
| `WorkerClaims.HandleToken` | src/cashu.rs:1943-2008 | Without Redis a sound token is admitted exactly when neither its text nor its proof set is in the cache and it is stored; a failed store gives the claim back, a panic leaves it |
| `WorkerClaims.ProofSetIsRemembered` | src/cashu.rs:1943-1956 | In every run, failures and other encodings included, an admitted proof set is not admitted again while other tokens have taken fewer than cap - 2 entries |
| `WorkerClaims.ProofSetKnownIff` | src/cashu.rs:2003-2008 | When nothing fails it is known exactly while twice the number of later admissions is below cap - 1 |
| `WorkerClaims.KnownIff` | src/cashu.rs:1987-2008 | When no store fails it is known exactly while other tokens have taken fewer than cap - 1 entries, an admission two and a panic one |
| `WorkerClaims.FailedStoreEvicts` | src/cashu.rs:1987-1996 | A failed store can push out the key that is next to go, though it gives its own back |
| `WorkerClaims.OneOtherIsEnough` | src/cashu.rs:2003-2008 | With three entries, one other payment lets a proof set in again under a new text |
| `WorkerClaims.TokensKeepQueue` | src/cashu.rs:1943-2008 | The queue stays duplicate-free and within capacity in every run of tokens |
| `RateLimiter.BucketBytes` | ngx_l402_core/src/rate_limit.rs:17-20 | The bytes that are hashed are client, zero byte, path |
| `RateLimiter.InvoiceRateLimitKey` | ngx_l402_core/src/rate_limit.rs:14-23 | The key is the prefix and the hash of those bytes |
| `RateLimiter.KeysAgreeIff` | ngx_l402_core/src/rate_limit.rs:11-23 | With an injective hash two zero-free clients have the same key exactly when client and path are the same |
| `RateLimiter.BucketsAreDistinct` | ngx_l402_core/src/rate_limit.rs:11-13 | Pairs with zero-free clients never share a bucket |
| `RateLimiter.ZeroByteSharesBucket` | ngx_l402_core/src/rate_limit.rs:11-13 | With a zero byte in a client two different pairs have the same bytes |
| `RateLimiter.Limiter.Check` | src/lib.rs:4427-4468 | One check counts one in the running window or starts a new one, and allows exactly while within the limit or when Redis gives no answer |
| `RateLimiter.BoundedInEveryInterval` | src/lib.rs:4426-4468 | In every run at most max answered passes per window and bucket, and at most 2 * max - 1 in any stretch of one window length |
| `RateLimiter.DoubleBurstMeetsTheBound` | src/lib.rs:4440-4447 | A run that reaches 2 * max - 1 |
| `RateLimiter.AnsweredHit` | src/lib.rs:4427-4468 | An answered hit starts the window if none is running and otherwise leaves its start, counts one, moves no other bucket, and passes while the count is within the limit |
| `RateLimiter.RunKeeps` | src/lib.rs:4440-4447 | The run invariant: windows of a bucket never overlap and no counter falls behind the passes it let through |
| `Counters.SlotsAreDistinct` | src/metrics.rs:31-84 | No two metrics share a slot |
| `Counters.MetricsBlock.constructor` | src/metrics.rs:172-190 | Sixteen slots at zero |
| `Counters.MetricsBlock.Add` | src/metrics.rs:246-248 | One slot grows, modulo 2^64, and no other metric changes |
| `Counters.MetricsBlock.Inc` | src/metrics.rs:241-243 | The same by one |
| `Counters.GrantedHasMethod` | src/lib.rs:2575-2577 | A request that is let in always has a payment method noted |
| `Counters.PartsNeverExceedWholes` | src/lib.rs:2190-2245 | At every moment of every run of any number of workers: lightning + cashu within valid, rate-limited + issued within missing, generated + errors within issued, dry-run parts within theirs, and all outcomes within requests |
| `Counters.EveryRequestCountsItsDues` | src/lib.rs:2149-2299 | At every moment of every run each counter is exactly what the finished requests should have counted plus what those in flight have counted so far |
| `Counters.CountersAreExactAtRest` | src/lib.rs:2190-2194 | With no request in flight every counter is exact, requests = dry-run + valid + invalid + missing + those that ended in none of them, dry-run = would-allow + would-block + those that would end in neither, and lightning + cashu is valid, rate-limited + issued is missing, generated + errors is issued |
| `Counters.CountersCountTheArrivals` | src/lib.rs:2195-2299 | With no request in flight each counter is the number of arrivals it stands for, told by what came in: accepted Cashu tokens, preimages let in, refused and missing credentials, each enforced or dry-run; the price sum is the sum of the dry-run prices |
| `Counters.RequestsEnd` | src/lib.rs:2195-2299 | Six steps of its worker see any request through: none goes round in circles |
| `Counters.DueIsWeight` | src/lib.rs:2575-2595 | For every credential and every answer to it, the verdict and the noted payment method put the request under exactly the counters meant for it |
| `Counters.SlotsAreExact` | src/metrics.rs:241-248 | Until 2^64 requests every slot but the price sum holds the true count |
| `Counters.PageIsBracketed` | src/metrics.rs:250-261 | With any steps of the workers before each of the sixteen loads, each line of a page is the true count at its load, between the counts at the start and at the end |
| `Counters.PageSkewIsBounded` | src/metrics.rs:250-261 | For each of the five pairs of parts: what a page shows of them exceeds their whole by at most what the whole grew between its own load and the load of the last part |
| `Counters.RequestsSkewIsBounded` | src/metrics.rs:250-261 | The same for the four outcomes and the requests |
| `Counters.IssuedWithinMissing` | src/metrics.rs:250-261 | No page shows more challenges issued than payments missing |
| `Counters.PageCanRunAhead` | src/metrics.rs:250-261 | A page can show a Lightning payment and no valid one |
| `Counters.StepAdds` | src/lib.rs:2195-2299 | Each increment brings a request from what it has counted to what it should have counted at its next place, and at the end to its dues |
| `Counters.DuesSplit` | src/lib.rs:2196-2205 | What a finished enforced request should count splits into parts without remainder |
| `Counters.RunKeeps` | src/lib.rs:3295-3405 | The exactness of every counter, dry-run ones included, and the slots' wrapping hold after every run |
| `Redemption.GroupProofs` | src/cashu.rs:1207-1243 | Refused exactly when there is no default address or some mapping cannot be read; otherwise the groups are the non-empty addresses, each with all its proofs in order |
| `Redemption.GroupsAreDetermined` | src/cashu.rs:1216-1243 | The readings leave the groups no choice |
| `Redemption.GroupsPartitionTheProofs` | src/cashu.rs:1216-1243 | Groups, in any order, plus the proofs of the empty address are the input as a multiset |
| `Redemption.MembersAreMapped` | src/cashu.rs:1223-1239 | A proof is in a group only if its mapping names the address, or it has none and the address is the default |
| `Redemption.ReadProofIsGrouped` | src/cashu.rs:1223-1239 | Every readable proof is in the group of the address its mapping names, or of the default one |
| `Redemption.MeltsPayTheirAddress` | src/cashu.rs:2646-2652 | Grouping and melting together: every proof of a successful melt was mapped to the payee, or unmapped with the payee as default |
| `Redemption.AttemptIsExact` | src/cashu.rs:2326-2435 | Whenever a melt is attempted, the minimum is met, redeemable is positive and redeemable + reserve + true input fee is the selected total with no saturation; the reserve is the larger of minimum and percentage; the proofs are the longest beginning of the group that the limit allows |
| `Redemption.AttemptIff` | src/cashu.rs:2339-2596 | A melt is attempted exactly when the minimum is met, the selected total is above the input fee plus the minimum reserve and plus the percentage, an invoice and a quote are there, and the quote's true amount + fee + input fee is within the selected total or that total is 2^64 - 1 |
| `Redemption.SelectedIsLongest` | src/cashu.rs:2350-2376 | The selection is the longest beginning of the group within the limit, zero being no limit |
| `Redemption.SatAttemptIff` | src/cashu.rs:2072-2078 | In a sat wallet whose proofs are each worth at most u64 msat the ceiling case is gone: a melt is attempted exactly when it is redeemable, invoiced, quoted and affordable |
| `Redemption.AttemptIsAffordable` | src/cashu.rs:2585-2596 | Whatever the unit, below a selected total of 2^64 - 1 no melt is attempted for more than the proofs hold |
| `Redemption.SaturatedTotalAdmitsAnyQuote` | src/cashu.rs:2585-2596 | Without that bound on the proofs a quote a thousand times too dear can pass |
| `Redemption.InvoiceAmountIff` | src/cashu.rs:2463-2463 | The i64 in the invoice request is the redeemable amount exactly below 2^63, and is positive whenever the selected total is |
| `Redemption.CastWraps` | src/cashu.rs:2463-2463 | The cast to i64 keeps the value modulo 2^64 and stays in range |
| `Redemption.RedeemGroups` | src/cashu.rs:2316-2715 | The loop melts exactly the groups that pass every check and are paid, in order, and its totals are their proofs, amounts and quoted fees |
| `Redemption.CycleConserves` | src/cashu.rs:2657-2683 | Over a whole cycle, what is paid out plus what is held back for fees is what the melts spend |
| `Redemption.EveryMeltIsAnAttempt` | src/cashu.rs:2657-2683 | Every recorded melt is a paid attempt of some group, at the group's address and with its figures |
| `Redemption.PaidAttemptsAreMelts` | src/cashu.rs:2657-2683 | Every paid attempt is recorded as a melt |
| `MappingSweep.Store.SetProofToLnurl` | src/cashu.rs:1012-1039 | Succeeds exactly when Redis is there, some address is non-empty and every SET is answered; a failure leaves a prefix written and nothing else touched |
| `MappingSweep.SetAllMaps` | src/cashu.rs:1032-1036 | Written proofs map to the address and no other mapping moves |
| `MappingSweep.Store.KeepReconciled` | src/cashu.rs:1083-1118 | In-flight proofs reconciliation deleted come back as Spent with their saga; rows still there are untouched |
| `MappingSweep.Store.DeleteMappingKeys` | src/cashu.rs:1193-1203 | Deletes all named keys or none, nothing to do for an empty list, and succeeds only when answered |
| `MappingSweep.Store.Sweep` | src/cashu.rs:1127-1191 | For every listing, saga answer, failure point and reply the sweep is one pass: keys of the first cleared and rows of the first removed sweepable proofs are gone, removed within cleared within one batch; rows not Spent or tagged with a saga not shown to be over keep row and mapping; a clean pass, taking all the others, when every command is answered; nothing without Redis |
| `MappingSweep.Store.SweepBatches` | src/cashu.rs:1169-1187 | The batch loop, keys before rows, stopping at the first failure |
| `MappingSweep.FullPassIsClean` | src/cashu.rs:1169-1187 | A pass that removed every row it had to is a clean pass |
| `MappingSweep.Store.Running` | src/cashu.rs:1153-1163 | The operations named by listed rows whose saga is there or cannot be asked for |
| `MappingSweep.RunningSagaKeepsItsProofs` | src/cashu.rs:1153-1167 | After any pass a running saga still finds the rows and mappings of its proofs |
| `MappingSweep.Store.Unused` | src/cashu.rs:1153-1167 | The listed proofs not tagged with a running saga, in order |
| `MappingSweep.InterruptedPassesLoseNothing` | src/cashu.rs:1120-1126 | Any number of passes cut short anywhere, sagas ending between them, and then a clean one leave the same keys and rows as that clean pass alone |
| `MappingSweep.PartialPassIsFinishable` | src/cashu.rs:1169-1187 | One pass cut short leaves exactly what a clean pass needs, also when sagas that ran during it have ended |
| `MappingSweep.CleanPassLeavesTheRest` | src/cashu.rs:1153-1187 | A clean pass removes exactly the Spent rows with no tag or a finished saga's, and the mappings of the same proofs |
| `MappingSweep.NoPassOrphansAMapping` | src/cashu.rs:1124-1126 | No pass leaves a mapping whose row is gone |
| `MappingSweep.RowFirstOrphansTheMapping` | src/cashu.rs:1175-1182 | In any pass that removed rows ahead of their keys, every mapping so left behind stays whatever clean pass follows |
| `MappingSweep.ReconciledProofsAreSwept` | src/cashu.rs:1080-1082 | A proof put back by the reconciliation has its mapping swept; without the put-back the mapping stays |
| `Tenants.ParseTenant` | ngx_l402_core/src/tenant.rs:58-90 | Accepts exactly a valid name followed by one lnurl= with a non-blank value, trimmed; otherwise the error is the one of the name, of the missing address, or of the first argument that cannot stand |
| `Tenants.TrimEndKeeps` | ngx_l402_core/src/tenant.rs:80-83 | Trimming the end removes only white space and leaves none there |
| `Tenants.TrimIsCore` | ngx_l402_core/src/tenant.rs:80-83 | Trimming takes white space off both ends, all of it and nothing else |
| `Tenants.ValidIdIff` | ngx_l402_core/src/tenant.rs:58-66 | A name is valid exactly when it is not empty and of ASCII letters, digits, dashes and underscores |
| `Tenants.TenantRegistry.Define` | ngx_l402_core/src/tenant.rs:101-107 | Adds the tenant, or refuses a second definition and changes nothing |
| `Tenants.TenantRegistry.Resolve` | ngx_l402_core/src/tenant.rs:109-118 | The tenant filed under the name, or unknown with the defined names, sorted, each once |
| `Tenants.TenantRegistry.Clear` | ngx_l402_core/src/tenant.rs:120-122 | Empties the registry |
| `Tenants.DefineAllIff` | ngx_l402_core/src/tenant.rs:99-107 | A list of lines loads exactly when its names are distinct and new, and then every name resolves to its line |
| `Tenants.LineOrderIsIrrelevant` | ngx_l402_core/src/tenant.rs:99-100 | Lines in any order load to the same registry, or in no order |
| `ConfigMerge.ModuleConfig.Merge` | src/lib.rs:1666-1807 | The object after a merge, refused or not, is the specified function of both scopes and the registry; a warned directive is listed once |
| `ConfigMerge.ModuleConfig.Inherit` | src/lib.rs:1668-1742 | The field-by-field part, ended early by a refused destination |
| `ConfigMerge.ModuleConfig.Check` | src/lib.rs:1743-1792 | Refuses exactly an enabled location with a realm and no indefinite access, or with a tenant, Cashu on and a backend other than LNURL; an address given as such is only listed, once |
| `ConfigMerge.MergeIsLookup` | src/lib.rs:1666-1757 | Merging down any path is looking each setting up at the nearest scope that sets it, and fails exactly when some scope on the way is unacceptable on its looked-up values |
| `ConfigMerge.LookupStep` | src/lib.rs:1666-1757 | One merge extends the lookup by one scope |
| `ConfigMerge.TenantGetsItsRegisteredAddress` | src/lib.rs:1679-1710 | A location with a tenant has that tenant's registered address, named by the nearest scope that names any destination |
| `ConfigMerge.EnabledRealmIsIndefinite` | src/lib.rs:1743-1757 | Every enabled location with a realm has indefinite access on |
| `ConfigMerge.RefusedIff` | src/lib.rs:1679-1792 | When a merge is refused, in terms of the directives |
| `ConfigMerge.TenantCashuIsTheTenants` | src/lib.rs:1761-1784 | On every path that loads, an enabled location with a tenant and Cashu on has the LNURL backend |
| `ConfigMerge.RefusedDestinationStopsTheMerge` | src/lib.rs:1666-1710 | After a refused destination, switch, price and timeout are inherited and the rest is not |
| `ConfigMerge.SecondMergeIff` | src/lib.rs:1679-1710 | Merging a merged scope again changes nothing exactly when no tenant decided its destination |
| `ConfigMerge.MergingTwiceIsRefused` | src/lib.rs:1686-1710 | On every path that loads, a second merge is refused when the scope has a tenant, its own or inherited, and changes nothing when it has none |
| `HtmlEscaping.EscapeIsOnePass` | ngx_l402_core/src/escaping.rs:4-10 | The five whole-string replacements are one character map |
| `HtmlEscaping.AmpersandMustComeFirst` | ngx_l402_core/src/escaping.rs:5-5 | With the ampersand taken last the result is the same exactly for texts with no other markup |
| `HtmlEscaping.NoMarkupSurvives` | ngx_l402_core/src/escaping.rs:4-10 | No angle bracket or quote in the output |
| `HtmlEscaping.UnescapeInvertsEscape` | ngx_l402_core/src/escaping.rs:4-10 | Reading the five entities left to right gives the text back |
| `HtmlEscaping.EscapeIsInjective` | ngx_l402_core/src/escaping.rs:4-10 | Different texts are escaped differently |
| `JsonEscaping.EscapeJson` | ngx_l402_core/src/escaping.rs:15-42 | The loop writes the character map, and a reader of RFC 8259 section 7 gets the text back |
| `JsonEscaping.EscapedTextDecodes` | ngx_l402_core/src/escaping.rs:15-42 | The round trip for every Unicode string |
| `JsonEscaping.LiteralIsOnePass` | ngx_l402_core/src/payment_page.rs:18-26 | Serialising and five replacements are one character map in quotes |
| `JsonEscaping.LiteralDecodes` | ngx_l402_core/src/payment_page.rs:18-26 | The inlined literal stands for the text it was made from |
| `JsonEscaping.EncodersMeanTheSame` | ngx_l402_core/src/payment_page.rs:18-26 | Both encoders' output decodes to the same text |
| `JsonEscaping.EncodersAgreeIff` | ngx_l402_core/src/escaping.rs:15-42 | They write the same text exactly when it has no backspace and no form feed |
| `JsonEscaping.OutputIsInert` | ngx_l402_core/src/escaping.rs:22-29 | Neither writes an angle bracket, ampersand, line or paragraph separator or control character |
| `JsonEscaping.NoTextEndsTheStringEarly` | ngx_l402_core/src/payment_page.rs:11-17 | Whatever follows, a reader finds the closing quote where the encoder put it |
| `ChallengeHeader.ParsedExactly` | ngx_l402_core/src/l402_header.rs:15-32 | What parsing gives for every pair of quote-free values and any further fields |
| `ChallengeHeader.RoundTripIff` | ngx_l402_core/src/l402_header.rs:15-32 | The pair comes back exactly when neither value ends in a text the reader cuts at |
| `ChallengeHeader.UnpaddedValuesComeBack` | ngx_l402_core/src/l402_header.rs:15-17 | A macaroon without one-sign padding after n or e, and an invoice without an equals sign, always come back |
| `ChallengeHeader.EncodedMacaroonsComeBack` | ngx_l402_core/src/l402_header.rs:15-32 | The base64 form of any bytes, in either alphabet, comes back with any invoice without a quote or an equals sign |
| `ChallengeHeader.Base64IsReadBack` | ngx_l402_core/src/l402_header.rs:15-17 | The base64 form of any bytes is read back to them |
| `ChallengeHeader.FindAcrossQuote` | ngx_l402_core/src/l402_header.rs:19-29 | No match of a key straddles a quote |
| `ChallengeHeader.FindIsLeftmost` | ngx_l402_core/src/l402_header.rs:19-29 | The search finds the first occurrence, or none when there is none |
| `CrashLine.Line.PutStr` | src/lib.rs:236-243 | Appends the text, cut to the buffer |
| `CrashLine.Line.PutDec` | src/lib.rs:217-234 | Appends the decimal numeral, cut to the buffer |
| `CrashLine.Line.PutBackwards` | src/lib.rs:228-235 | Copies the digits back to front, cut to the buffer |
| `CrashLine.Line.PutHex` | src/lib.rs:201-214 | Appends the hexadecimal numeral, cut to the buffer |
| `CrashLine.Line.LastDigitFirst` | src/lib.rs:218-227 | Twenty places hold every digit of a 64-bit word, last first |
| `CrashLine.WordLength` | src/lib.rs:218-218 | A 64-bit word has at most twenty decimal and sixteen hexadecimal digits |
| `CrashLine.DecIsReadBack` | src/lib.rs:217-234 | Decimal numerals parse back |
| `CrashLine.HexIsReadBack` | src/lib.rs:201-214 | Hexadecimal numerals parse back |
| `CrashLine.NoLeadingZero` | src/lib.rs:205-208 | No numeral but zero starts with a zero |
| `CrashLine.FatalSignalLine` | src/lib.rs:273-287 | The line written is the message cut to 160 bytes, and the whole message for any signal below 10^11 |
| `CrashLine.NeverTruncatedIff` | src/lib.rs:273-308 | Every pair of 64-bit addresses fits exactly for signals below 10^11, so for the four handled ones |
| `CrashLine.LineIdentifiesFault` | src/lib.rs:275-286 | The message determines the signal, the address and the offset |

## Left out

- nginx FFI, request and response plumbing, shared-memory allocation, signal installation: pointer work around the logic modelled here.
- cdk, Redis, macaroon, DLEQ, P2PK signature, BIP39 and hash internals: abstract actions or injective functions. `dleq.rs`, `p2pk.rs`, `wallet_seed.rs` and `proof_mapping.rs` are thin over them.
- `TenantLedger`, `PreimageClaims`, `ProofSetClaims`, `SwapClaims`: their stores are values stepped by `Next`, because their steps interleave; the in-place loops of the same code are methods in `MappingSweep`, `Redemption` and `Markers`.
- TenantLedger.EveryProofPaidToItsOwner: multi-tenant mode only, as in single-tenant mode every proof goes to the one configured backend. A proof whose mapping was lost may be paid to the default address, as in the source, where those writes only warn.
- TenantValue.ValueIsConserved: a token counts as presented and unspent from the moment its request begins, also when the mint later refuses it; what a melt pays and what it costs are one amount, input less change.
- PreimageClaims.SingleUseIff: Redis configured and indefinite access off. Without Redis see `WorkerClaims`; with indefinite access reuse is intended.
- ProofSetClaims.OncePerLifetimeIff: stated per proof set, as the key names a whole set; Redis configured. Without Redis see `WorkerClaims`.
- WorkerClaims.PreimageLetInIff: one worker from its start; each worker process has its own cache, and a reload empties it.
- RateLimiter.BoundedInEveryInterval: counts requests Redis answered for. An unanswered check lets the request through by design.
- Redemption.AttemptIsExact: the floating-point fee percentage is an arbitrary u64, and a group's total is below 2^64, because the source's sum does not saturate.
- Redemption.RedeemGroups: the running totals are unbounded; the source adds them as u64 for its log.
- MappingSweep.Store.Sweep: the listing and the saga answers are those of one moment; what other processes do between two of its commands is covered by the sweep events of `TenantLedger`, whose batches are of any size.
- Counters.EveryRequestCountsItsDues: counts are history without wrapping; `Counters.SlotsAreExact` says when the slots hold them.
- Mint information that overrides the minimum and the fee settings: parsing of the mint's answer; the settings it yields are arbitrary here.
- `parse_rate_limit` and `is_l402_scheme`: one conditional each, and easy.
- The mnemonic and fingerprint check at start-up: a comparison with a stored value.
- Directive setters other than `l402_tenant`: one assignment each. The messages they and `merge` print.
- Lightning backends, the LNURL client cache, timeouts, runtimes and the lease: I/O.
- Mint URL normalisation, `manifest.rs`, `info.rs`, page text and scripts, `redact.rs`, `cashu_error.rs`, logging, `examples`, `grpc-server`, `stress-test`: rendering, or one-branch code.
- serde_json is not part of the repository: its string writer is modelled from its documented escapes.
