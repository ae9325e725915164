# Verified models of the limiter, addresses, money and configuration

The project models the parts of the gateway whose guarantees span many calls or many inputs,
and proves those guarantees:

- **Rolling-window limits** (`CounterStore`, `RateLimits`, `RateLimitStreams`, `Coalescing`): the
  bucketed counters, admission, settlement and release, rule streams and their collapse. The
  operations are methods over a `UsageRepo` object; each is proved equal to a function of the old
  counters, and the theorems are about those functions.
  - `Amounts` and `CallLaws`: the same operations by the fields of call, rule and usage alone: which
    calls are admitted and what they hold, and what a settle charges to every counter.
  - `HardCap`: over every run of reserves, settles and releases, with clocks in any order, the
    tokens and requests windows stay within their caps exactly when rules that meet on a counter
    carry one cap. A rule for any model and a rule for one model pass the config-time check and
    still break the law (`UniqueRulesCanBeUnsafe`).
  - `GatewayRuns`: the same for the steps the gateway takes, where what is settled was held, under
    the model of the call. There only tokens rules must agree.
  - `LimitLedger`: every counter is at all times the sum of outstanding holds and settled
    contributions, so the floor at 0 never fires, exactly when no two active rules can put their
    writes under one key. Which rules can depends on the model names that calls carry: `Proper` ones
    are not empty, as the alias schema demands (packages/contracts/src/effect/primitives.ts:135-139).
  - `SlidingLog`: under the same condition, and only then, the buckets refine a true sliding log of
    claims. `SpanUsage` and `SpanExact`: how long a span of that log may be for a hard cap to hold in
    it wherever it lies, given how late settles may come that claim more than was held.
  - `Admission`: when two rule lists admit alike, what that says about collapsing and about the
    read-only check, and the soundness of the retry hint.
  - `ConcurrentReserve`: snapshot reads, first committer wins, aborts, at most eight attempts; any
    history inside one bucket is a serial one, from any store. `BucketEdge`: on two clocks the cap
    survives exactly when the later window sees one bucket of the two. `MixedHistory` and `MixedEdge`:
    the same protocol with settles and releases among the reserves, and when it keeps the cap.
- **Addresses** (`IpText`, `IpNormal`, `IpSpelling`, `IpTrust`, `PrefixMatch`, `Cidr`, `MappedBlocks`,
  over `Bits`, `Radix`, `Hex`): the parser and normaliser against section 2.2 of RFC 4291, the bit and
  byte loops against numeric prefix equality, what a block with a mapped base contains, and the
  interchangeability of a quad and its mapped form. `TrustedLists`: whom a list of patterns trusts, by
  the addresses that are spelled.
- **Money** (`MoneyMicros`, `MoneyDisplay`, over `Decimal`, `DecimalPlaces`): the codec with double
  rounding kept abstract, and the display bounds.
- **Configuration** (`ConfigFields`, `ConfigResolve`, `ConfigReading`, `ConfigSound`, `ConfigLaws`,
  `ConfigMigration`, `EnvFile`): the resolver, with the source of every value and the exact condition
  for success, the migration of a legacy environment, and the env-file printer and parser.

`Options`, `MapSum`, `JsMap` and `JsText` hold shared vocabulary: optional values, sums over maps,
insertion-ordered maps, and the string operations of ECMAScript over code points. `UnitCalls` holds
the calls of one unit that the failing runs are built from.

`dafny verify dfyconfig.toml` checks everything.

## Findings

- The documentation promises at most one active rule per counter stream; the stream key separates
  an untargeted model rule from one targeted at a model, while the write key joins them. The hard
  cap needs more than the check enforces: `HardCapExactlyWhen` gives the exact condition. Two steps
  suffice to break it: under 100 tokens an hour for any model and 50 for one, a call of that model
  reserves 50 and settles to 51 (`UnsafeExample`). Requests rules do no harm when every settle has a
  hold (`GatewayStepsExactlyWhen`), and settlements without one go to `recordUsage`, which does not
  clamp (apps/api/src/domains/settlement/settle.ts:345-368).
- The dry run ignores `active`, the real reserve does not. They agree exactly when every inactive
  rule is covered by an active one (`CheckAgreesWithReserveExactlyWhen`).
- Collapsing compares trimmed, lower-cased targets but a request matches the target as written, so
  it can drop a rule that still limited requests (`SpellingMatters`).
- Concurrent reserves serialise through the documents they write, and the window is wider than one
  document. On two buckets of one window both of two reserves commit and pass the cap;
  `EdgeSafeExactlyWhen` says exactly when two clocks are safe. Settles take part too, for they run in
  a session and write to the bucket that was held: a settle to more than its hold and a reserve in
  the current bucket both commit, unless one bucket is in the window, the rule counts requests, or
  the cap is one (`MixSafeExactlyWhen`).
- Rules that the write key joins are never summed: one of two equal claims is dropped, and the
  counter then holds less than was reserved. `ConservationExactlyWhen` gives the exact condition. With
  proper model names only rules that overlap and have one dimension as written are joined; a limit
  per customer beside one per model is safe (`CustomerAndModelApart`). The empty name, which the
  schema forbids, would join those two as well, since it and no name have one key.
- A key named `__proto__` does not survive the env file (`EnvFileRoundTripExactlyWhen`). The renderer
  prints only the keys of the field table, so such a key is an input of the parser alone.
- The connection text cannot be overridden: the field's description offers it
  (packages/config/src/fields.ts:80-88), but the field is derived, so `database.uri` is never read and
  the branch for it is dead (`UriOverrideIgnored`, `ConnectionBuilt`).
- A printed list reads back only when no item is empty, padded or holds a comma (`EnvReadsBack`).
- A block whose base is an IPv4-mapped address is read on 32 bits for some addresses and on 128 for
  others. "::ffff:10.0.0.0/8" contains 10.0.0.0/8 and also every native address whose first byte is
  0, so it trusts "::1" (`MappedBlockTrustsLoopback`); "::ffff:0:0/96" contains no IPv4 address, since
  96 is too long for 32 bits. `WideExactlyWhen`, `NativeExactlyWhen` and `Ipv4ExactlyWhen` say when.
- Settling writes an overage to the bucket that was reserved in, but measures room over the window
  of the settle clock. So usage within a span that has passed can still grow past the cap: nine
  tokens, one held half an hour later, and a settle to ten once the nine have left an hour's window
  put 19 tokens into half an hour under a cap of ten (`OverrunExample`), while the held bucket is
  still in the window. What a caller can check is how late such settles come: with a lag of at most
  `lag`, spans of length `d` are safe exactly when `d + lag` is at most the window less one bucket,
  plus a millisecond (`SpansExactlyWhen`, which also gives the two cases where the lag matters less:
  requests never overrun, and under a cap of one a hold leaves no room until it has left the window).
- An accepted IPv6 text need not be well formed: ":::1" is accepted, with the empty group read as 0.
  `AcceptedExactlyWhen` lists what else is.

## Model

| member | source | states |
|---|---|---|
| CounterStore.UsageRepo.FindWindowCounters | apps/api/src/infrastructure/mongo/repositories/usage.ts:280-298 | lists each counter of the stream from the window start on exactly once, both spend labels together, with no upper bound |
| CounterStore.UsageRepo.BulkUpsertCounters | apps/api/src/infrastructure/mongo/repositories/usage.ts:300-379 | the whole new store: claims create or raise, releases floor at 0 and create nothing, in batch order |
| CounterStore.WindowExactly | apps/api/src/infrastructure/mongo/repositories/usage.ts:280-298 | a window holds exactly the counters of its length and target from its start on, money under either label |
| CounterStore.WriteExact | apps/api/src/infrastructure/mongo/repositories/usage.ts:300-379 | a write moves the count of its own document only, never below 0, and only a claim creates one |
| CounterStore.ListedTotal | apps/api/src/lib/rate-limits.ts:441-447 | whatever order the counters come in, their total is the window sum |
| CounterStore.BatchRaisesAtMost | apps/api/src/lib/rate-limits.ts:648-653 | a batch raises a window sum by no more than it claims on that stream |
| CounterStore.NoFloor | apps/api/src/lib/rate-limits.ts:701-704 | while a counter covers what is released from it, the floor at 0 changes nothing |
| RateLimits.HardCapRoom | apps/api/src/lib/rate-limits.ts:210-212 | the window and its room together reach exactly the cap, or the window alone when it is past it |
| RateLimits.ClampSettleDelta | apps/api/src/lib/rate-limits.ts:220-231 | releases and money pass unchanged; a hard claim passes whole, or takes the window exactly to the cap, never below 0 |
| RateLimits.BucketDurationSeconds | apps/api/src/lib/rate-limits.ts:262-266 | a second up to a minute, five minutes past an hour, a minute between; never longer than the window |
| RateLimits.BucketStartFor | apps/api/src/lib/rate-limits.ts:269-272 | the bucket contains the clock and starts inside the window summed at that clock |
| RateLimits.BucketsTile | apps/api/src/lib/rate-limits.ts:269-272 | the start of a clock is the one multiple of the bucket length whose bucket contains it |
| RateLimits.CoalesceCounterWrites | apps/api/src/lib/rate-limits.ts:294-318 | the loop over the map computes the merge that the Coalescing laws are about |
| RateLimits.PlanHolds | apps/api/src/lib/rate-limits.ts:475-503 | the plan of the active rules in rule order; PlansWhatIsAsked and HeldIsAsked say what it is by the fields of the call |
| RateLimits.ReadWindow | apps/api/src/lib/rate-limits.ts:599-605 | the window sum and the oldest contributing bucket, for any order of the counters |
| RateLimits.CheckLimits | apps/api/src/lib/rate-limits.ts:399-465 | exactly the violations of the rules, active or not; ViolatedAreRefused says what they are by the fields of the call |
| RateLimits.ReserveOnce | apps/api/src/lib/rate-limits.ts:587-662 | all planned claims are written, coalesced, or nothing is and every violation is reported |
| RateLimits.Transact | apps/api/src/lib/rate-limits.ts:573-687 | an attempt that conflicts or fails leaves the committed state as it was |
| RateLimits.ReserveLimits | apps/api/src/lib/rate-limits.ts:512-699 | nothing to claim and dry runs write nothing; otherwise the first of eight attempts that does not conflict decides as ReserveAdmitsExactlyWhen says, and eight conflicts write nothing |
| RateLimits.ReleaseLimits | apps/api/src/lib/rate-limits.ts:705-728 | the new store is the coalesced full release of the positive holds |
| RateLimits.HoldFor | apps/api/src/lib/rate-limits.ts:752-752 | finds a hold with the id, or there is none |
| RateLimits.HoldForIsLast | apps/api/src/lib/rate-limits.ts:752-752 | among holds of one id it finds the last |
| RateLimits.SettleRule | apps/api/src/lib/rate-limits.ts:790-850 | what one rule writes, given the counters before the settle; FreshIsGranted and DeltaSettles say how much |
| RateLimits.ReleaseOrphans | apps/api/src/lib/rate-limits.ts:852-863 | a full release of each hold that no live rule took up |
| RateLimits.SettleLimits | apps/api/src/lib/rate-limits.ts:745-873 | the new store is the coalesced batch of rule writes and orphan releases computed on the old one; SettleChanges and DirectCharges say what that does to each counter |
| Amounts.ResolvesByFields | apps/api/src/lib/rate-limits.ts:239-256 | a call counts on no target for customer and plan rules, on its model for model rules, and not at all where a targeted rule names another model or the call names none |
| Amounts.PlansWhatIsAsked | apps/api/src/lib/rate-limits.ts:179-196 | a rule plans exactly the call's own tokens, its own spend, or one request, when that is positive, in the bucket of the clock and over the window before it |
| Amounts.FreshIsGranted | apps/api/src/lib/rate-limits.ts:829-850 | without a hold a settle claims, in the bucket of its clock, the whole spend, or the tokens or one request as far as the cap leaves room |
| CallLaws.RoomExactlyWhen | apps/api/src/lib/rate-limits.ts:430-462 | no rule is violated if and only if every rule that is asked anything has room for it in its window, both for the dry run and for the reserve |
| CallLaws.ViolatedAreRefused | apps/api/src/lib/rate-limits.ts:430-462 | the violations are one refusal for each rule without room, in rule order, with its window sum, its cap and the hint |
| CallLaws.HeldIsAsked | apps/api/src/lib/rate-limits.ts:475-503 | the holds are, in rule order, what each active rule is asked, on its target and in the bucket of the clock |
| CallLaws.PlansNothingExactlyWhen | apps/api/src/lib/rate-limits.ts:475-503 | nothing is planned if and only if no active rule is asked anything |
| CallLaws.ReserveAdmitsExactlyWhen | apps/api/src/lib/rate-limits.ts:587-662 | a reserve is admitted with just those holds if and only if each active rule has room for what the call asks, and otherwise rejected with just those refusals |
| CallLaws.ReserveAddsAsked | apps/api/src/lib/rate-limits.ts:627-653 | with writes apart an admitted reserve adds to each counter exactly what the call asks of it |
| CallLaws.ReserveRaisesAsked | apps/api/src/lib/rate-limits.ts:627-653 | and raises each window by exactly what the call asks in it |
| CallLaws.SettleChanges | apps/api/src/lib/rate-limits.ts:790-873 | with writes apart and the holds counted, a settle changes each counter by exactly the usage less the hold, the hold and what is granted beyond it, the whole hold given back, or the fresh charge, rule by rule |
| CallLaws.DirectCharges | apps/api/src/lib/rate-limits.ts:829-850 | a settle without a reservation adds to each counter exactly what is granted of the usage |
| Coalescing.CounterWriteKeyInjective | apps/api/src/lib/rate-limits.ts:282-284 | two writes share a key exactly when they share dimension, window, bucket and target text |
| Coalescing.CoalescedOnePerKey | apps/api/src/lib/rate-limits.ts:286-293 | one write per key, every key of the batch written, each write one of the entries but for its increment |
| Coalescing.CoalescedIsLeast | apps/api/src/lib/rate-limits.ts:303-311 | among entries of one sign the kept increment is one of the key's and the closest to zero: never a sum |
| Coalescing.CoalesceOrderIndependent | apps/api/src/lib/rate-limits.ts:294-318 | entries of one sign merge to the same increments in any order |
| Coalescing.MixedSignsDependOnOrder | apps/api/src/lib/rate-limits.ts:311-315 | for mixed signs the order matters: the first entry is kept |
| Coalescing.CoalescedClaimFits | apps/api/src/lib/rate-limits.ts:286-293 | claims that share a bucket and each fit a room fit it together after coalescing |
| Coalescing.ReleaseNegates | apps/api/src/lib/rate-limits.ts:711-719 | releasing a reservation is the negation of what it wrote |
| Coalescing.ReleaseUndoesReserve | apps/api/src/lib/rate-limits.ts:705-728 | reserve then release, with any other claims between, leaves what the others alone produce, even when rules share a counter |
| LimitRuns.ReachExactlyWhen | apps/api/src/lib/rate-limits.ts:239-256 | a rule reaches a counter target exactly when some call's model takes it there |
| LimitRuns.Coresolve | apps/api/src/lib/rate-limits.ts:239-256 | a call that takes one rule to a counter takes there every rule that can reach it |
| LimitRuns.HoldForRule | apps/api/src/lib/rate-limits.ts:796-796 | with distinct ids a rule finds exactly the hold planned for it |
| HardCap.ReserveKeepsCap | apps/api/src/lib/rate-limits.ts:587-653 | a reserve keeps a stream's window within the cap of each of its rules, at any clock, whether or not they agree |
| HardCap.SettleKeepsCap | apps/api/src/lib/rate-limits.ts:790-850 | so does a settle, although it writes to an older bucket |
| HardCap.StepKeepsCaps | apps/api/src/lib/rate-limits.ts:587-873 | every step keeps every hard cap from any state that meets them |
| HardCap.HardCapExactlyWhen | apps/api/src/lib/rate-limits.ts:512-873 | with distinct ids, every run from an empty store keeps every hard window within its cap if and only if hard rules that meet on a counter have one cap |
| HardCap.UniqueRulesCanBeUnsafe | apps/api/src/lib/rate-limits.ts:247-253 | an any-model rule and a stricter one-model rule pass the config-time check, and some run passes the smaller cap |
| GatewayRuns.GatewayRunsKeepCaps | apps/api/src/domains/settlement/settle.ts:345-368 | in every run whose settles have holds and the call's own model, hard windows stay within their caps if tokens rules that meet on a counter have one cap |
| GatewayRuns.GatewayStepsExactlyWhen | apps/api/src/domains/settlement/settle.ts:345-368 | with distinct ids, every such step keeps every hard cap from every state that meets them if and only if those tokens rules agree |
| GatewayRuns.TwoStepsBreak | apps/api/src/lib/rate-limits.ts:797-817 | where they do not, from an empty store, a reserve of the stricter cap and a settle of one token more pass it, if the reserve is admitted |
| GatewayRuns.UnsafeExample | apps/api/src/lib/rate-limits.ts:247-253 | 50 tokens reserved and settled to 51 pass the stricter of two caps that the config-time check lets through |
| LimitLedger.ReleaseExact | apps/api/src/lib/rate-limits.ts:705-728 | where the names that calls carry keep writes apart, a release takes exactly the holds out of each counter |
| LimitLedger.SettleExact | apps/api/src/lib/rate-limits.ts:745-873 | likewise a settle replaces the holds by the settled amounts, in each counter, and adds what is granted, by the fields of rule and usage, for rules without a hold |
| LimitLedger.ReleaseGivesBack | apps/api/src/lib/rate-limits.ts:705-728 | in a run a release closes the call and takes what it held out of every counter |
| LimitLedger.DeltaSettles | apps/api/src/lib/rate-limits.ts:797-817 | the clamped difference makes a hold end at the actual usage, or at the hold plus the room left if that is less |
| LimitLedger.StepConserves | apps/api/src/lib/rate-limits.ts:705-873 | every step keeps each counter equal to outstanding holds plus settled contributions |
| LimitLedger.RunConserves | apps/api/src/lib/rate-limits.ts:512-873 | so it is in every state a run reaches |
| LimitLedger.ConservationExactlyWhen | apps/api/src/lib/rate-limits.ts:282-318 | with distinct ids, for proper model names and for any, every run of such calls from an empty store keeps every counter equal to its ledger if and only if no two active rules can put their writes under one key |
| LimitLedger.CustomerAndModelApart | apps/api/src/lib/rate-limits.ts:239-256 | a limit per customer and one per model meet the condition for proper names, not for the empty one |
| SlidingLog.CountersRefineLog | apps/api/src/lib/rate-limits.ts:257-272 | usage logged since one bucket after the window start, less an instant <= window sum <= usage logged since the window start |
| SlidingLog.RefinementExactlyWhen | apps/api/src/lib/rate-limits.ts:257-318 | in every run of such calls, if and only if no two active rules can put their writes under one key |
| SlidingLog.TrueUsageWithinCap | apps/api/src/lib/rate-limits.ts:257-272 | true usage of a hard stream over the last window less one bucket is within the cap, whatever the lag of settles |
| SpanUsage.SpansWithinCap | apps/api/src/lib/rate-limits.ts:790-850 | under any rules that the calls' names keep apart, if overruns settle within a lag of their reserve then every span that fits the lag, wherever it lies, holds no more than the cap |
| SpanExact.SpansExactlyWhen | apps/api/src/lib/rate-limits.ts:790-850 | for one hard rule the spans that every such run keeps within the cap are exactly those that fit the lag |
| SpanExact.LateOverrun | apps/api/src/lib/rate-limits.ts:805-817 | a claim, a unit reserve, and a settle to the cap once the claim has left the window: the span of the first two holds both |
| SpanExact.OverrunExample | apps/api/src/lib/rate-limits.ts:805-817 | 19 tokens in half an hour under a cap of ten an hour |
| RateLimitStreams.StreamKeyInjective | packages/contracts/src/rate-limits.ts:48-55 | stream keys are equal exactly when normalised dimension, window, scope and target are |
| RateLimitStreams.CollapseRulesByStream | apps/api/src/lib/rate-limits.ts:325-338 | the loop computes the collapse that the next laws are about |
| RateLimitStreams.CollapsedKeepsStrictest | apps/api/src/lib/rate-limits.ts:320-338 | per stream the strictest active rule survives, the earliest among equals |
| RateLimitStreams.FindDuplicateRateLimitStream | packages/contracts/src/rate-limits.ts:69-92 | null exactly when no two active rules share a stream; otherwise the clash with the smallest second index |
| RateLimitStreams.CollapsedIsUnique | packages/contracts/src/rate-limits.ts:65-92 | a collapsed list always passes the check |
| RateLimitStreams.CheckAgreesWithCollapse | apps/api/src/lib/rate-limits.ts:325-338 | the check passes exactly when collapsing is the identity on the active rules |
| RateLimitStreams.GetEffectiveRules | apps/api/src/lib/rate-limits.ts:367-389 | the merge by id, collapsed; the next rows say what that is |
| RateLimitStreams.MergedExactly | apps/api/src/lib/rate-limits.ts:382-387 | the merge lists exactly the rules in force: the last active customer rule of each id, and the last active plan rule of each id that no active customer rule has |
| RateLimitStreams.MergedInOrder | apps/api/src/lib/rate-limits.ts:385-389 | each at the place where an active rule of its id first occurs, plan before customer |
| RateLimitStreams.EffectiveRulesSound | apps/api/src/lib/rate-limits.ts:352-389 | effective rules are in force, have distinct ids and streams, and none in force on its stream is stricter |
| RateLimitStreams.EffectiveRulesComplete | apps/api/src/lib/rate-limits.ts:352-389 | for each rule in force some effective rule of its stream is as strict, and it is itself effective where it alone is the strictest |
| Admission.AdmitAlikeExactlyWhen | apps/api/src/lib/rate-limits.ts:587-620 | dropping rules changes no admission, for any counters and request, exactly when each dropped rule is covered by one that stays |
| Admission.CollapsePreservesAdmissionExactlyWhen | apps/api/src/lib/rate-limits.ts:320-338 | collapsing changes no admission exactly when every active rule is covered by a kept one |
| Admission.CollapsePreservesAdmission | packages/contracts/src/rate-limits.ts:48-55 | with targets already trimmed and lower-cased it changes none |
| Admission.SpellingMatters | packages/contracts/src/rate-limits.ts:50-54 | with two spellings of a target some request is judged differently after the collapse |
| Admission.SpellingExample | packages/contracts/src/rate-limits.ts:50-54 | two such rules, in full |
| Admission.CheckAgreesWithReserveExactlyWhen | apps/api/src/lib/rate-limits.ts:419-462 | the dry run agrees with the reserve on everything exactly when each inactive rule is covered by an active one |
| Admission.RetryHintSound | apps/api/src/lib/rate-limits.ts:449-460 | the hint is between 1 and the window, after it the window start has reached the oldest contributing bucket, and one second less is too early |
| ConcurrentReserve.AfterConflict | apps/api/src/lib/rate-limits.ts:572-698 | a call gives up exactly on its eighth conflict |
| ConcurrentReserve.HistoriesAreSerial | apps/api/src/lib/rate-limits.ts:572-698 | any interleaving of reserves that share buckets has the effect of its commit order; admitted calls had room at their place, rejected ones had none, calls that gave up wrote nothing |
| ConcurrentReserve.ConcurrentReservesAreARun | apps/api/src/lib/rate-limits.ts:505-511 | from any state the counters are those of the admitted requests run one after the other |
| ConcurrentReserve.ConcurrentReservesKeepTheCap | apps/api/src/lib/rate-limits.ts:505-511 | so concurrent reserves keep every hard cap, agreeing or not, from any store that meets them |
| BucketEdge.EdgeReservesOvershoot | apps/api/src/lib/rate-limits.ts:574-653 | on either side of a bucket edge two unit reserves under any hard rule both commit, from a store one unit below the cap |
| BucketEdge.EdgeSafeExactlyWhen | apps/api/src/lib/rate-limits.ts:505-511 | for one hard rule and two clocks, every concurrent history from every store that meets the cap keeps it if and only if the later window sees one bucket of the two |
| MixedEdge.OverrunOvershoots | apps/api/src/domains/settlement/settle.ts:345-358 | a settle to two for a held token and a unit reserve in a later bucket both commit, one past any cap above one |
| MixedEdge.MixSafeExactlyWhen | apps/api/src/lib/rate-limits.ts:745-873 | calls reserved at either of two clocks, settled or released among reserves at the later: every history from every store that meets the cap and counts the holds keeps the cap if and only if the window sees one bucket, or the rule counts requests, or the cap is one |
| IpText.CheckIpv4 | apps/api/src/lib/client-ip.ts:112-123 | the loop accepts exactly four dot-separated parts of at most three digits, at most 255, without leading zero |
| IpText.QuadRoundTrip | apps/api/src/lib/client-ip.ts:112-123 | four numbers below 256, printed, are accepted and read back |
| IpText.QuadIsItsText | apps/api/src/lib/client-ip.ts:112-123 | an accepted quad is the one spelling of its numbers |
| IpNormal.ExpandIsKey | apps/api/src/lib/client-ip.ts:147-172 | expanding an accepted text prints its eight numbers as lower-case four-digit groups |
| IpNormal.KeyAccepted | apps/api/src/lib/client-ip.ts:125-144 | that text is accepted and stands for the same numbers |
| IpNormal.NormalizedIsCanonical | apps/api/src/lib/client-ip.ts:93-106 | every accepted text comes out as a dotted quad or as eight lower-case four-digit groups |
| IpNormal.NormalizeIdempotent | apps/api/src/lib/client-ip.ts:93-106 | normalising twice is normalising once |
| IpSpelling.NormalizeKeepsAddress | apps/api/src/lib/client-ip.ts:93-172 | a well-formed spelling (full, shortened, mapped, quad) is accepted and keeps its 32- or 128-bit number |
| IpSpelling.OneKeyPerAddress | apps/api/src/lib/client-ip.ts:92-106 | two well-formed spellings get one key exactly when they spell one address |
| IpSpelling.DecorationDropped | apps/api/src/lib/client-ip.ts:96-101 | brackets and a zone do not change the key |
| IpSpelling.AcceptedIsSpelled | apps/api/src/lib/client-ip.ts:125-144 | every accepted core is a well-formed spelling, or a shortened one with a stray empty group at an outer end or right of the `::` |
| IpSpelling.AcceptedExactlyWhen | apps/api/src/lib/client-ip.ts:112-144 | a core is accepted if and only if it is the text of such a spelling |
| IpSpelling.AcceptedIsDecorated | apps/api/src/lib/client-ip.ts:93-106 | every accepted text is, trimmed and of at most 45 characters, such a core, with both brackets or none and with a zone or none |
| IpSpelling.LongRejected | apps/api/src/lib/client-ip.ts:95-95 | a blank text and one of more than 45 characters are no address |
| IpSpelling.StrayExample | apps/api/src/lib/client-ip.ts:140-142 | ":::1" is one that is not well formed |
| IpTrust.MappedRoundTrip | apps/api/src/lib/client-ip.ts:207-218 | mapping a quad into IPv6 text and taking it out gives it back |
| IpTrust.MappedView | apps/api/src/lib/client-ip.ts:207-218 | a quad is found exactly for addresses in ::ffff:0:0/96 or IPv4, and it is their low 32 bits |
| IpTrust.Ipv4ToIntIsNumber | apps/api/src/lib/client-ip.ts:174-182 | shifting and or-ing the bytes gives the base-256 number, without wrap |
| PrefixMatch.MatchWords | apps/api/src/lib/client-ip.ts:234-237 | the 32-bit mask compares exactly the top bits, for every length from 0 to 32 |
| PrefixMatch.MatchBytes | apps/api/src/lib/client-ip.ts:243-258 | the byte loop with its partial-byte mask compares exactly the top bits of 128, for every length |
| Cidr.Ipv6ToBytes | apps/api/src/lib/client-ip.ts:263-273 | sixteen bytes with the key's number |
| Cidr.MatchBase | apps/api/src/lib/client-ip.ts:231-260 | numeric prefix equality, on 32 bits when both sides are IPv4 or mapped; otherwise on 128 when both are IPv6 texts, a mapped base against a native address included; else false |
| Cidr.MatchCidr | apps/api/src/lib/client-ip.ts:220-261 | the same for a block as text, false for every malformed block or oversized length |
| MappedBlocks.WideExactlyWhen | apps/api/src/lib/client-ip.ts:231-260 | a block contains the IPv6 addresses, mapped ones included, that share its prefix on 128 bits, if and only if its base is not mapped or its length is 0 or too large |
| MappedBlocks.NativeExactlyWhen | apps/api/src/lib/client-ip.ts:243-258 | a block with a mapped base contains some native address exactly for lengths below 96 |
| MappedBlocks.Ipv4ExactlyWhen | apps/api/src/lib/client-ip.ts:233-237 | and some IPv4 or mapped address exactly for lengths up to 32 |
| MappedBlocks.MappedBlockTrustsLoopback | apps/api/src/lib/client-ip.ts:185-260 | whatever the quad, its mapped form with length 8 as the only trusted pattern trusts "::1" |
| Cidr.ExactMatch | apps/api/src/lib/client-ip.ts:196-201 | the three textual comparisons decide whether two keys name one host |
| Cidr.IpMatchesTrusted | apps/api/src/lib/client-ip.ts:185-205 | true exactly when some pattern trusts the address; the TrustedLists rows say whom a pattern trusts |
| TrustedLists.ListIsAny | apps/api/src/lib/client-ip.ts:185-205 | a list trusts exactly whom one of its patterns trusts alone |
| TrustedLists.SpelledPattern | apps/api/src/lib/client-ip.ts:195-201 | a spelled pattern, padded or not, trusts a spelled client if and only if they have one address or one IPv4 number |
| TrustedLists.UnreadPattern | apps/api/src/lib/client-ip.ts:191-201 | a pattern without slash that is no address, or is empty, trusts nobody |
| TrustedLists.SpelledBlock | apps/api/src/lib/client-ip.ts:220-260 | a spelled block, padded or not, trusts a spelled client if and only if the two agree in that many leading bits: of 32 where both have an IPv4 number, else of 128 where both are IPv6 |
| TrustedLists.UnreadBlock | apps/api/src/lib/client-ip.ts:220-230 | a slash without an address before it or digits after it trusts nobody |
| Cidr.MappedInterchangeable | apps/api/src/lib/client-ip.ts:185-237 | a quad and its mapped form get one answer, except where a block with a native IPv6 base contains the mapped address |
| Cidr.DisplayOneHost | apps/api/src/lib/client-ip.ts:285-292 | two accepted addresses get one throttle key exactly when they name the same host |
| MoneyMicros.RoundedValue | packages/contracts/src/money-micros.ts:119-128 | for any monotone rounding that keeps integers up to 2^53, the sum is exact when safe and unsafe when not |
| MoneyMicros.ParseExact | packages/contracts/src/money-micros.ts:74-129 | a grammatical text gives its true value in micros exactly when it has at most six places and the value is safe; otherwise the error says why |
| MoneyMicros.ParseGrammar | packages/contracts/src/money-micros.ts:96-116 | only trimmed texts of that grammar (also "5.", ".5" and ".") give a value |
| MoneyMicros.MoneyRoundTrip | packages/contracts/src/money-micros.ts:131-152 | every safe amount, printed and parsed with negatives allowed, comes back |
| MoneyMicros.FormatInjective | packages/contracts/src/money-micros.ts:139-152 | different amounts print differently |
| MoneyMicros.FormatIsSpelled | packages/contracts/src/money-micros.ts:131-152 | the printer writes no superfluous zero, sign or point |
| MoneyMicros.SpelledIsKept | packages/contracts/src/money-micros.ts:131-152 | a canonical spelling is what the printer writes for the parsed amount |
| MoneyMicros.MinorConversion | packages/contracts/src/money-micros.ts:47-60 | minor units convert for exponents 0 to 6 only, and to the same amount |
| MoneyDisplay.CurrencyExponent | apps/admin/src/utils/format.ts:46-52 | 0, 3 and 4 exactly for the codes of the three tables, in any case, and otherwise 2 |
| MoneyDisplay.CurrencySymbol | apps/admin/src/utils/format.ts:55-77 | each symbol for exactly its codes, and none for every other code |
| MoneyDisplay.UngroupThousands | apps/admin/src/utils/format.ts:79-82 | dropping the commas gives back the digits |
| MoneyDisplay.CommaPlaces | apps/admin/src/utils/format.ts:79-82 | commas stand at every fourth place from the right, never in front, nowhere else |
| MoneyDisplay.ShowsOne | apps/admin/src/utils/format.ts:84-128 | a text shows one amount |
| MoneyDisplay.AdaptiveBounds | apps/admin/src/utils/format.ts:84-109 | what is shown is zero only for zero, never more than the amount, short by less than one minor unit, and exact below one |
| MoneyDisplay.AdaptivePlaces | apps/admin/src/utils/format.ts:103-108 | from one minor unit on, grouped digits with exactly the currency's own places |
| MoneyDisplay.MinorUnitsShowExactly | packages/contracts/src/money-micros.ts:47-60 | a whole number of minor units, of either sign, converted to micros, displays exactly |
| MoneyDisplay.FixedBounds | apps/admin/src/utils/format.ts:111-128 | what is shown is the multiple of the step nearest to the amount, halves up in magnitude |
| MoneyDisplay.FixedPlaces | apps/admin/src/utils/format.ts:116-127 | grouped digits with exactly the asked places, between none and six |
| MoneyDisplay.FixedMonotone | apps/admin/src/utils/format.ts:116-124 | a larger amount never shows smaller at one precision |
| MoneyDisplay.FixedZeroExactlyWhen | apps/admin/src/utils/format.ts:122-123 | zero is shown exactly below half a step |
| MoneyDisplay.ColumnDecimals | apps/admin/src/utils/format.ts:131-140 | the least precision from the currency's own up to four at which no non-zero amount is below one step |
| MoneyDisplay.ColumnShowsAll | apps/admin/src/utils/format.ts:130-140 | at that precision every amount of at least 100 micros shows as non-zero |
| ConfigResolve.ResolveConfig | packages/config/src/resolve.ts:172-251 | the loops compute the resolution, or the issues in order; the ConfigLaws rows say what it is |
| ConfigResolve.Render | packages/config/src/resolve.ts:231-250 | the three environments are the serialized values by scope, with the compose proxy flag from the mode |
| ConfigSound.ResolvedIsSound | packages/config/src/resolve.ts:172-251 | a resolved configuration has every required field non-empty, every value within its field's bounds, and a long enough JWT secret unless weak ones are allowed |
| ConfigSound.ScopesSplit | packages/config/src/resolve.ts:235-248 | the API environment and the compose variables are the full environment cut to their scopes |
| ConfigReading.CoercedIsSaid | packages/config/src/resolve.ts:40-120 | coercing a raw value gives exactly what it says for a field of that kind: a flag word, a number in digits, the parts of a list, a text |
| ConfigLaws.ValuesFromSources | packages/config/src/resolve.ts:144-198 | each value is what the document says for its field, or else the environment, or else the default; trust of a proxy follows the mode |
| ConfigLaws.ResolvesExactlyWhen | packages/config/src/resolve.ts:172-233 | resolving succeeds if and only if every field that is said anything is said something readable within its bounds, the five needed ones are said, and the secret has 32 characters or weak ones are allowed |
| ConfigLaws.ModePrecedence | packages/config/src/resolve.ts:158-170 | a readable mode decides, or else the document's flag, or else the environment's; with none it is Caddy |
| ConfigLaws.ConnectionBuilt | packages/config/src/resolve.ts:206-231 | the connection text is built from the resolved user, password and name and the document's host, and the proxy flag is the mode |
| ConfigLaws.UriOverrideIgnored | packages/config/src/resolve.ts:214-216 | whatever the document says under `database.uri`, the resolution is the same |
| ConfigLaws.EnvReadsBack | packages/config/src/resolve.ts:238-269 | the environment prints every resolved value and nothing else, numbers in digits, flags as true or false, the proxy flag as y or n; read as the environment text of its field the text says the value again, for a list if and only if its items are plain |
| ConfigLaws.WhoSeesWhat | packages/config/src/resolve.ts:242-250 | which keys the API sees and which the compose file, with the texts of the full environment |
| ConfigMigration.PutThenGet | packages/config/src/resolve.ts:275-289 | a value written at a path is read there |
| ConfigMigration.PutElsewhere | packages/config/src/resolve.ts:275-289 | and at every path apart from it nothing changes |
| ConfigMigration.MigrateLegacyEnv | packages/config/src/resolve.ts:271-327 | the document says at every leaf path what the key that owns it carried over, and nothing anywhere else |
| ConfigMigration.CarriedReadsAlike | packages/config/src/resolve.ts:81-120 | a carried value coerces to the same value as the text it came from, or both raise an issue |
| ConfigLaws.MigratedSays | packages/config/src/resolve.ts:291-326 | the migrated document says for each of 18 fields exactly what the environment says, within the bounds of the field |
| ConfigLaws.MigratedModeSays | packages/config/src/resolve.ts:299-302 | and its proxy mode is the environment's flag |
| ConfigMigration.MigrationPreservesResolution | packages/config/src/render.ts:95-116 | with any such document the resolution succeeds exactly when it does from the environment alone, and is then the same |
| ConfigMigration.RenderDeployment | packages/config/src/render.ts:91-116 | the first rendering from a legacy environment, and any later one from the document it wrote, give the deployment of the environment alone; with neither there is an error |
| EnvFile.ParseEnvFile | packages/config/src/render.ts:37-56 | the loop over lines, later keys overriding earlier ones |
| EnvFile.LineRoundTrip | packages/config/src/render.ts:42-53 | a printed line reads back exactly for an identifier key and a value without outer space or matching outer quotes |
| EnvFile.QuotedLine | packages/config/src/render.ts:46-52 | a value in quotes of either kind is read without them, whatever it holds |
| EnvFile.IdentifierExactly | packages/config/src/render.ts:44-44 | a key is of letters, digits and underscores, is not empty and does not start with a digit |
| EnvFile.EnvFileRoundTripExactlyWhen | packages/config/src/render.ts:135-143 | a printed record parses back to itself exactly when every entry has such a key, other than `__proto__`, and such a value without newline |

## Left out

- CountersRefineLog: the upper end of the span is open, because the window read has none; a clock behind others sees their later claims too.
- SpansExactlyWhen: exact for one rule; among several, another rule can turn away the calls that would break a span. SpansWithinCap covers them all.
- EdgeSafeExactlyWhen: one rule and two clocks, no clock later than the window that is summed.
- HistoriesAreSerial: covers reserves in one bucket of every window; settles and releases are atomic steps in `LimitRuns` and concurrent ones in `MixedHistory`.
- MixSafeExactlyWhen: one rule and two clocks; reserves at the earlier clock are over, else `EdgeSafeExactlyWhen` applies. A release, which has no session, is a transaction that commits at once.
- ConcurrentReservesAreARun: a call with an empty model name is covered when no two rules share a write key under any name; otherwise it reads two documents and writes one.
- GatewayRunsKeepCaps: one way for whole runs; that agreement is needed too is proved step by step (`GatewayStepsExactlyWhen`) and for two-step runs (`TwoStepsBreak`), since other rules can turn away the calls that would fill a cap.
- SettleChanges: where rules share a write key, what coalescing leaves of two writes is in `Coalescing`, and a release of more than the counter holds stops at 0 (`WriteExact`).
- HardCapExactlyWhen: the rule list is fixed during a run and caps are integers, while the schema admits a fractional cap.
- ReserveLimits: which errors count as retryable conflicts and how a session ends are the environment's, given as the fate of each attempt.
- FixedBounds: computed over exact numbers; near 2^53 the doubles of the original can differ in the last digit.
- ParseExact: negative zero is 0.
- MinorUnitsShowExactly: the product is exact, as it is in doubles up to 2^53.
- NormalizeKeepsAddress: of the mixed forms only the mapped one with a compressed prefix is accepted, as in the original.
- ResolveConfig: numbers of the operator document are integers, segments and keys are the ones the field table names, and percent-encoding is a parameter.
- Text is a sequence of code points; lower- and upper-casing is ASCII.
- One customer of one organization per counter store; the database, sessions, Effect layers and HTTP.
- `recordUsage`, which never clamps, is not a step of a run; a settle without holds is, as `settleLimits` would take it, in all runs but those of `GatewayRuns`. Rules do not change between reserve and settle.
- Serialized reservations, `windowSecondsToHuman`, `enforce`, messages for duplicate rules.
- Header plumbing of `resolveClientIp`, `isValidIp`, the built-in address lists.
- YAML, templates, file writing, the manifest and hashing in the renderer; dates and locale formats in the admin formatter.
- Charging, the settlement outbox, throttles, cryptography, policy tables and the admin application.
