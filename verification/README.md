# Anti-DDoS gateway: a verified model

This project models an anti-DDoS gateway and proves what it promises. The gateway has a data plane (an
XDP packet filter in C with pinned BPF maps, and the helper that fills them) and a control plane (Python
services and a worker over a database). The model follows the path of a policy: stored records are
serialized, parsed, written into an inactive slot, flipped live, and met by packets.

`dafny verify dfyconfig.toml` checks the whole project.

## What is modelled, and the main theorems

| component | modules | main theorem |
|---|---|---|
| token buckets and plan rates | `Arith`, `TokenBucket`, `FairBudget` | bounds over every run with 64-bit wrap-around written out |
| snapshot format | `Wire`, `Snapshot`, `SnapshotIo`, `WireContract` | parser and printer undo each other both ways and keep the published layout |
| deny list fast path | `Ipv4`, `Bpf`, `DenyList` | filter-then-trie is the CIDR list |
| double-buffered apply | `ApplyPlan`, `WhitelistLoop`, `ApplyEffect`, `ApplyHelper`, `ReadBack`, `ApplyRuns`, `BlockedPorts`, `PortRuns` | crash-atomic over every interleaving of helpers that may stop after any write |
| packet pipeline and policy | `Pipeline`, `Policy`, `Meaning`, `Delivery` | compilation preserves meaning, end to end |
| packets on a CPU | `Cpu`, `Charges`, `Isolation`, `Accounting`, `Capacity`, `Uptime` | packets pay the stored rates, isolation of services, conservation of packets, ladder capacity, no map errors |
| service jobs | `Ledger`, `LiveConfig` | the ledger invariant; what is stored is what was last written; active means live |
| global deny list | `DenyStore`, `DryFlag`, `DenyConverge` | the set is what was asked for; when a dry run reports right; agreement means live |
| feed jobs | `FeedJobs`, `FeedRuns` | one run in flight, matching statuses, bounded recovery; when a deleted source stays empty |
| the whole gateway | `Gateway` | an active service's packets are treated as its stored record says |
| alerts | `Alerts` | alert state is a function of the observation trace; hysteresis over raw metrics |

Modelling conventions:

- Inner BPF maps are entries of a table keyed by map id, so the two slots can share one inner map, and a
  map write is one step. `ApplyHelper` is the helper as written, each call proved to be the plan's next
  write; `ApplyRuns` interleaves plans, crashes and `dpstat` writes.
- A bloom filter is a superset test: its answer for keys never inserted is a free input. A trie is
  longest-prefix lookup over a finite map. A 64-bit bitmap word is the set of its one bits.
- A database transaction is one step; one that raises changes nothing. Row and job ids are never reused.
- The digest of the deny list is an injective function of the listed texts. Where both listings are in the
  same order it is modelled by the set; `DryFlag` keeps the listings and takes the text order to be the
  character order of the C collation.
- Header parsing, clocks, next-hop resolution, the CPU count and helper failures are inputs.
- `live` in `LiveConfig` and `DenyConverge` is the last committed snapshot of each kind. `Gateway` ties it
  to the live slot: a helper works on the file written for the snapshot its worker loaded, and only its
  flip makes that snapshot live.
- An endless whitelist loop goes round until a write fails or the helper is killed, so a plan carries the
  number of rounds that can happen (`patience`).

What the proofs say about the code beyond its own comments:

- Service and VIP rates are not clamped. Above 18446744073 the refill product of a second wraps and grants
  less than it should, or nothing at all (`TokenBucket.RefillExactIff`, `TokenBucket.WrappedSecondGivesNothing`);
  the upper bounds hold at every rate.
- An idle second refills a bucket exactly for rates between the CPU count and that limit
  (`TokenBucket.FullAfterOneSecondIff`). Where a second gives nothing, the bucket's clock stands still and a
  bucket a second behind never regains a token (`TokenBucket.StalledBucketStarves`,
  `TokenBucket.NeverAgainIff`).
- The helper's whitelist loop has a 16-bit index. It is never left for a list of more than 65535 entries
  unless a write fails or one of the first 65536 prefix lengths is illegal (`WhitelistLoop.LeavesIff`,
  `WhitelistLoop.EndlessSnapshot`).
- The dry run of a feed reconcile reports an unchanged list as changed exactly when two of its networks
  are ordered differently as texts (`DryFlag.DryFlagRightIff`, `DryFlag.DryFlagWrong`).
- A source deleted while a worker is fetching its feed gets its assertions back: the deletion tags the
  running run, and the tag lets its reconcile through (`FeedRuns.DeletedStaysEmptyIff`,
  `FeedRuns.RevivedSource`).
- Recovering an orphaned job raises, and changes nothing, whenever its service was edited since, unless
  the newer version has itself failed (`Ledger.RaisesExactly`, `Ledger.EditedOrphanRaises`).
- The header comment in data-plane/src/whitelist.h says that a whitelist without VIP rates leaves the
  active flag unset. The serializer sets it for every non-empty whitelist; the packet path then falls
  through to the filters, so the outcome is the same. The model follows the code.

## Model

| member | source | states |
|---|---|---|
| `TokenBucket.RlBucket.RefillTokens` | data-plane/src/rules.h:164-189 | rl_refill_dim on 64-bit words: new tokens and time spent are those of RefillDim |
| `TokenBucket.RefillDim` | data-plane/src/rules.h:164-189 | tokens never shrink and never pass the burst; the time spent never exceeds the elapsed time and is at least one nanosecond exactly when tokens were granted |
| `TokenBucket.RlBucket.RefillAll` | data-plane/src/fairness.h:137-168 | one refill feeds both dimensions from the same elapsed second and moves the clock by the larger advance; RefillIsIdeal says what that comes to |
| `TokenBucket.RlBucket.Take` | data-plane/src/rules.h:191-206 | all set dimensions must have tokens; then each is charged, otherwise none is |
| `TokenBucket.RlBucket.Offer` | data-plane/src/fairness.h:178-209 | an outdated bucket is reset, a current one refilled, then charged: the new row and the verdict are those of Admit |
| `TokenBucket.GrantCost` | data-plane/src/rules.h:173-188 | when tokens are granted, the time charged is the exact cost rounded down, never below one: no product of the grant wraps |
| `TokenBucket.GrantIsPaidFor` | data-plane/src/rules.h:173-188 | every granted token is paid for by the charged time up to one nanosecond, at any rate |
| `TokenBucket.RefillExactIff` | data-plane/src/rules.h:176 | 64-bit refill equals unbounded-integer refill for every state and elapsed time if and only if the rate is at most 18446744073; plan rates are clamped below it |
| `TokenBucket.WrapLosesTokens` | data-plane/src/rules.h:176 | above that rate a second of refill grants strictly less than it should |
| `TokenBucket.FullAfterOneSecondIff` | data-plane/src/rules.h:164-189 | for every positive rate: a second refills the dimension completely from every level if and only if the rate is between the CPU count and 18446744073 |
| `TokenBucket.RegainsIff` | data-plane/src/rules.h:173-188 | for every rate: a second gives a dimension below its burst any token at all if and only if the 64-bit product of rate and second reaches one token |
| `TokenBucket.WrappedSecondGivesNothing` | data-plane/src/rules.h:176 | at 18446744074 tokens per second on one CPU a second gives an empty dimension nothing and moves no clock |
| `TokenBucket.PaymentExactIff` | data-plane/src/rules.h:185-188 | for every rate a signed 64-bit column holds (below 2^63): no refill grants more than its time is worth if and only if the rate is below the CPU count, so that none grants anything, or divides the nanosecond scale |
| `TokenBucket.RunIsBounded` | data-plane/src/fairness.h:125-176 | over every run: tokens fit the burst, and (spent + tokens) x denom <= burst x denom + (clock advance + granting refills) x rate in each dimension |
| `TokenBucket.ClockNeverLeads` | data-plane/src/fairness.h:148-168 | the bucket clock starts at the reset and never passes the packet clock |
| `TokenBucket.AdmittedWithinTwiceShare` | data-plane/src/fairness.h:125-176 | over every run with a monotone clock: at most the burst plus twice the share earned since the reset |
| `TokenBucket.SlowRateStarves` | data-plane/src/rules.h:150-189 | a packet rate below the CPU count admits at most one packet per CPU, ever |
| `TokenBucket.StalledBucketStarves` | data-plane/src/fairness.h:137-209 | over every later sequence of packets, a bucket a second behind whose set dimensions gain nothing from a second keeps its clock, and all packets and bytes it ever admits come out of the tokens it holds |
| `TokenBucket.NeverAgainIff` | data-plane/src/fairness.h:137-209 | an empty packet bucket a second behind never admits anything again, whatever arrives, if and only if a second gains its rate nothing |
| `TokenBucket.IdleSecondReadmits` | data-plane/src/rules.h:150-189 | for every rate: an idle second restores the packet burst of every bucket if and only if the rate is zero or between the CPU count and 18446744073 |
| `TokenBucket.IdleSecondRestoresBytes` | data-plane/src/fairness.h:155-168 | the same for bytes: an idle second restores the byte burst of every bucket exactly for a zero rate or one between the CPU count and 18446744073 |
| `TokenBucket.BurstIsASecond` | data-plane/src/rules.h:150-162 | the burst is one second of one CPU's share rounded down, at least one for a positive rate |
| `TokenBucket.RefillIsIdeal` | data-plane/src/fairness.h:137-168 | at exact rates and every elapsed time, both dimensions of a refilled bucket are those of a bucket on unbounded integers, and the clock moves by the dearer gain |
| `TokenBucket.AdmitIsIdeal` | data-plane/src/fairness.h:178-209 | a packet is admitted exactly when every set dimension of that ideal bucket holds enough, and then takes one packet and its bytes from the set dimensions, otherwise nothing; a missing or outdated row starts from the bursts |
| `FairBudget.ProductSaturates` | data-plane/src/fair_budget.h:20-28 | the rate product is the true product cut at the maximum rate; it never wraps |
| `FairBudget.BudgetSplitsCeiling` | data-plane/src/fair_budget.h:30-42 | committed and burst rates add up to the clamped ceiling; every derived rate is small enough for exact bucket arithmetic |
| `FairBudget.HeadroomCompletesCapacity` | data-plane/src/fair_budget.h:44-47 | promised rates plus headroom are the capacity, or the promises alone when they exceed it |
| `Ipv4.ContainsIffInRange` | data-plane/tools/xdpgw-apply.c:342-352 | a canonical block is the half-open address range the prefix names |
| `Ipv4.CommonAddressOverlaps` | control-plane/app/services/services.py:417-429 | two blocks that hold a common address overlap in the sense the overlap check refuses |
| `Bpf.LpmMissIff` | data-plane/src/blacklist.h:260-275 | a trie lookup misses exactly when no stored block of at most the key's length contains the address |
| `Bpf.LpmUnique` | data-plane/src/xdp_gateway.bpf.c:164-168 | when one stored block contains the address, the lookup returns that block's value |
| `SnapshotIo.SerializeNode` | control-plane/app/worker/applier.py:255-309 | the node serializer fails exactly when a value does not fit its field; otherwise its bytes are the encoding of the services |
| `SnapshotIo.SerializeService` | control-plane/app/worker/applier.py:266-308 | one service record: fixed head, rules, whitelist |
| `SnapshotIo.SerializeGlobal` | control-plane/app/worker/applier.py:312-330 | the deny serializer refuses over-long lists; otherwise it encodes the sorted entries |
| `SnapshotIo.Cursor.ReadField` | data-plane/tools/xdpgw-apply.c:193-246 | fixed-width little-endian and network-order reads: short input refuses, otherwise the value and the advanced cursor |
| `SnapshotIo.Cursor.ParseService` | data-plane/tools/xdpgw-apply.c:295-340 | one service record, refused for a non-zero reserved byte, too many rules, an over-long whitelist or short input |
| `SnapshotIo.Cursor.ParseServices` | data-plane/tools/xdpgw-apply.c:472-493 | the service array: all records or a refusal |
| `SnapshotIo.Cursor.ParseEntries` | data-plane/tools/xdpgw-apply.c:378-386 | deny entries, refused at the first non-canonical or unsorted one |
| `SnapshotIo.Cursor.ParseGlobalDeny` | data-plane/tools/xdpgw-apply.c:362-392 | revision, count and entries of a deny snapshot |
| `SnapshotIo.ParseSnapshot` | data-plane/tools/xdpgw-apply.c:401-519 | the parser returns exactly what Decode says, including every refusal |
| `SnapshotIo.SortedAscends` | control-plane/app/worker/applier.py:317 | sorting distinct CIDRs gives the strictly ascending order the parser demands |
| `SnapshotIo.GlobalSetSurvives` | control-plane/app/worker/applier.py:312-330 | any set of distinct canonical CIDRs within the limit is parsed back complete |
| `Snapshot.DecodeEncode` | data-plane/src/apply_snapshot.h:16-73 | parsing any serialized in-bounds snapshot returns it |
| `Snapshot.EncodeDecode` | data-plane/src/apply_snapshot.h:16-73 | any accepted byte string is the encoding of what was parsed from it |
| `Snapshot.ExtensionRejected` | data-plane/tools/xdpgw-apply.c:507-510 | no proper extension of an accepted byte string is accepted |
| `Snapshot.TruncationRejected` | data-plane/tools/xdpgw-apply.c:193-200 | no proper prefix of an accepted byte string is accepted |
| `WireContract.EncodesTheContract` | data-plane/src/apply_snapshot.h:12-70 | the encoding of every snapshot is the published layout, every field at its place, width and byte order |
| `WireContract.FixedSizes` | data-plane/src/apply_snapshot.h:71-73 | 67 bytes of fixed service part, 10 per rule, 8 per list entry |
| `DenyList.GlobalBloomPlan` | data-plane/tools/xdpgw-apply.c:948-984 | accepts exactly sorted canonical lists within the limit and returns the planned flags and fill, which fits the filter |
| `DenyList.EscapeIff` | data-plane/tools/xdpgw-apply.c:948-984 | the filter is given up exactly when an entry is shorter than 16 bits or the keys of all others exceed 2^21; otherwise the planned fill is their number |
| `DenyList.ExpandedRange` | data-plane/tools/xdpgw-apply.c:997-1000 | a prefix of 16 to 23 bits covers exactly its run of /24 blocks |
| `DenyList.CoveredAddressHasKey` | data-plane/tools/xdpgw-apply.c:986-1006 | every covered address has its /24 key among those inserted for the entry |
| `DenyList.TrieHoldsEntries` | data-plane/tools/xdpgw-apply.c:1031-1043 | the trie built from a list holds exactly its entries |
| `DenyList.FilterNeverOverfilled` | data-plane/tools/xdpgw-apply.c:948-1006 | without the escape flag, exactly the planned keys are inserted, at most 2^21 |
| `DenyList.FastPathIsTheList` | data-plane/src/blacklist.h:310-336 | for every accepted list, source address and false-positive behaviour, filter-then-trie drops exactly the addresses some entry contains |
| `WhitelistLoop.LeavesIff` | data-plane/tools/xdpgw-apply.c:717-743 | the whitelist loop as steps of its 16-bit index: with every write succeeding it is left if and only if the list has at most 65535 entries or an illegal prefix length among its first 65536, and it ends with success exactly for lists of at most 65535 legal entries |
| `WhitelistLoop.EndlessSnapshot` | data-plane/tools/xdpgw-apply.c:268-292 | a concrete snapshot with a list of 65536 entries: the parser accepts it, the service passes the head checks, and the loop over it is never left |
| `ApplyEffect.ServiceBodyEffect` | data-plane/tools/xdpgw-apply.c:789-919 | writing a whole service apply short of the flip leaves the inactive slot showing the snapshot's service half and the other half as it was, and the active slot untouched |
| `ApplyEffect.GlobalBodyEffect` | data-plane/tools/xdpgw-apply.c:921-1061 | the same for a deny apply, with service maps and port bitmap shared by identity and fresh deny maps |
| `ApplyHelper.PinnedMaps.Issue` | data-plane/tools/xdpgw-apply.c:651-665 | a map write is the plan's next write, or fails and changes nothing; it never touches the live slot |
| `ApplyHelper.PinnedMaps.Flip` | data-plane/tools/xdpgw-apply.c:1241-1257 | the flip writes slot and version together |
| `ApplyHelper.PinnedMaps.WriteSource` | data-plane/tools/xdpgw-apply.c:730-742 | one round of the loop: a filter key for long prefixes, then the trie key, each the next planned write |
| `ApplyHelper.PinnedMaps.WriteWhitelist` | data-plane/tools/xdpgw-apply.c:717-743 | for every list: writes the planned keys in order and succeeds only for at most 65535 legal entries; a list whose loop never ends is written round and round until a write fails |
| `ApplyHelper.PinnedMaps.WriteService` | data-plane/tools/xdpgw-apply.c:667-785 | writes the planned entries; fails only for an invalid service or a failed write; the committed total saturates at 2^64-1 |
| `ApplyHelper.PinnedMaps.WriteServices` | data-plane/tools/xdpgw-apply.c:828-839 | all services in order, with the total of clamped committed rates |
| `ApplyHelper.PinnedMaps.BuildInactiveSlot` | data-plane/tools/xdpgw-apply.c:789-865 | creates, fills and installs fresh inner maps and the node settings in the inactive slot only |
| `ApplyHelper.PinnedMaps.CarryForwardFeed` | data-plane/tools/xdpgw-apply.c:899-916 | reinstalls the active deny maps, bitmap and flags in the inactive slot |
| `ApplyHelper.PinnedMaps.VerifySlot` | data-plane/tools/xdpgw-apply.c:1065-1138 | accepts exactly a slot whose service lookups, rule counts, node settings and deny flags match |
| `ApplyHelper.PinnedMaps.ApplyNodeCfg` | data-plane/tools/xdpgw-apply.c:1262-1277 | at every exit the maps hold a prefix of the planned writes; success means all were written and the other slot is live with the snapshot; failure leaves slot and version and has a bad snapshot or a failed write as its only causes |
| `ApplyHelper.PinnedMaps.InsertFilterKeys` | data-plane/tools/xdpgw-apply.c:986-1006 | one filter key per covered /24, none below 16 bits |
| `ApplyHelper.PinnedMaps.WriteEntries` | data-plane/tools/xdpgw-apply.c:1031-1043 | trie key and filter keys of every entry in order |
| `ApplyHelper.PinnedMaps.CarryForwardService` | data-plane/tools/xdpgw-apply.c:921-943 | reinstalls the active service maps, bitmap and node settings |
| `ApplyHelper.PinnedMaps.BuildGlobalSlot` | data-plane/tools/xdpgw-apply.c:1008-1061 | fresh filter and trie for an accepted list, flags, installs; refuses any other list |
| `ApplyHelper.PinnedMaps.VerifyTrie` | data-plane/tools/xdpgw-apply.c:1140-1169 | accepts exactly a trie with as many keys as entries in which every entry is found |
| `ApplyHelper.PinnedMaps.VerifyGlobalSlot` | data-plane/tools/xdpgw-apply.c:1171-1237 | accepts exactly shared service and bitmap identities, new deny identities, equal node settings, expected flags and a matching trie |
| `ApplyHelper.TriePasses` | data-plane/tools/xdpgw-apply.c:1140-1169 | the trie this helper builds always passes its own read-back |
| `ApplyHelper.PinnedMaps.ApplyGlobalDenyCfg` | data-plane/tools/xdpgw-apply.c:1279-1296 | as ApplyNodeCfg; the read-back never refuses what the helper wrote |
| `ApplyRuns.StepKeepsInv` | data-plane/tools/xdpgw-apply.c:789-1296 | every helper write, crash and dpstat step keeps the slots well-formed and the pending writes off everything live |
| `ApplyRuns.StepIsAtomic` | data-plane/tools/xdpgw-apply.c:1241-1257 | what the active slot shows changes only at the flip, and then to the requested target |
| `ApplyRuns.LiveIsReplay` | data-plane/tools/xdpgw-apply.c:1262-1296 | over every run with crashes after any write, the live slot equals the replay of the committed requests alone: each replaces its own half and keeps the other, and failed applies leave nothing behind |
| `ApplyRuns.FlipsAreCounted` | data-plane/tools/xdpgw-apply.c:1241-1257 | the slot alternates and the 32-bit version counts once per flip and at no other time |
| `ApplyRuns.SlotShowsOneSnapshot` | data-plane/src/xdp_gateway.bpf.c:154-178 | a slot shows the same configuration at every moment until an apply makes its first write into it, even across a flip |
| `ApplyRuns.ActiveSlotIsNotTouched` | data-plane/tools/xdpgw-apply.c:808-854 | no write before the flip touches the active slot |
| `ApplyRuns.HelperCommits` | data-plane/tools/xdpgw-apply.c:1262-1296 | progress: a helper with its flip to come commits its request, once, after as many of its own writes as it has left, whatever dpstat does meanwhile |
| `ReadBack.RecordsReadBack` | data-plane/tools/xdpgw-apply.c:1065-1138 | the read-back never refuses a snapshot compiled from records the database admits |
| `ReadBack.ReadBackCatches` | data-plane/tools/xdpgw-apply.c:1065-1138 | what it passes has no two enabled services that overwrite each other's block, list flags or number of rules |
| `ReadBack.RequestCommits` | data-plane/tools/xdpgw-apply.c:1262-1296 | started on a quiet node with a request it can apply, and not killed, the helper commits exactly that request |
| `PortRuns.LoadedIsInv` | data-plane/src/xdp_gateway.bpf.c:32-45 | the state the map definitions create (empty inner maps, every bitmap word present and zero, deny flags unset) satisfies every invariant the run theorems need |
| `BlockedPorts.PortBitmap` | data-plane/tools/dpstat.c:1285-1296 | the words have exactly the bits of the listed ports; a port above 65535 is refused before any write |
| `BlockedPorts.CompleteBitmapAnswers` | data-plane/src/blacklist.h:290-308 | a complete bitmap answers every port test from its words |
| `PortRuns.RunKeepsPorts` | data-plane/tools/dpstat.c:1302-1324 | over every interleaving with applies, the progress of set-blocked-ports is tracked in the bitmaps both slots refer to |
| `PortRuns.BlockedPortsSurviveFlips` | data-plane/tools/xdpgw-apply.c:867-878 | once set-blocked-ports has finished, the live lookup blocks exactly its ports, over every later run of applies |
| `PortRuns.PortsFromLoader` | data-plane/src/blacklist.h:290-308 | from the loader on, over every interleaving: no port test fails for a missing word, nothing is blocked before the first set-blocked-ports, and exactly the ports of the last one when it has finished |
| `PortRuns.PortsFinish` | data-plane/tools/dpstat.c:1302-1324 | however applies and crashes interleave, set-blocked-ports is done after a fixed number of its own steps, and stays done |
| `PortRuns.PortsTakeEffect` | data-plane/tools/dpstat.c:1285-1324 | from the loader: started and left alone for its 2052 steps, it blocks exactly the ports of its words in the live slot, whatever applies go on meanwhile |
| `Pipeline.FirstMatch` | data-plane/src/rules.h:243-258 | the rule loop stops at the first enabled rule that matches protocol and ports |
| `Policy.Best` | control-plane/app/worker/applier.py:347 | the allowing rule of least priority number, or none when no rule allows |
| `Meaning.RuleKeepsMeaning` | control-plane/app/worker/applier.py:291-302 | a compiled rule matches exactly the packets the stored rule allows |
| `Meaning.FirstIsBest` | control-plane/app/worker/applier.py:347 | the first match of the compiled block is the allowing rule of least priority number |
| `Meaning.OwnEntryStored` | data-plane/tools/xdpgw-apply.c:709-776 | no service's entries are overwritten by another's |
| `Meaning.WlStored` | data-plane/tools/xdpgw-apply.c:717-743 | a whitelist key of a service's namespace is present exactly when that service's own list put it there |
| `Meaning.WhitelistIsOwnList` | data-plane/src/whitelist.h:350-384 | for every source and false-positive behaviour, the whitelist check accepts exactly the sources on the service's own list |
| `Meaning.BogonIsList` | data-plane/src/blacklist.h:195-228 | the mask-and-compare chain is exactly the list of reserved blocks |
| `Meaning.AmplifiersTested` | data-plane/src/blacklist.h:174-193 | the chain of port tests is the list of amplifier ports |
| `Meaning.OwnerFound` | data-plane/src/xdp_gateway.bpf.c:161-168 | the service lookup returns the one enabled record whose block contains the destination, or misses when none does |
| `Meaning.CompilationPreservesMeaning` | data-plane/src/xdp_gateway.bpf.c:143-179 | for every admissible set of records, deny list, blocked ports, packet, bucket answers, false positives and next hops: the pipeline over the built maps charges the same buckets in the same order, attributes the same service and rule and reaches the same outcome as a direct reading of the records |
| `Meaning.AcceptedIsComplete` | data-plane/tools/xdpgw-apply.c:709-776 | for any accepted snapshot, even with clashing ids or blocks: a service found by the lookup has its fairness entry, and its VIP entry if its whitelist is active |
| `Meaning.NoMapErrorUnlessFull` | data-plane/src/fairness.h:221-226 | for any accepted snapshot and any bitmap with all its words: a packet meets a map error only when a bucket's state map is full |
| `Meaning.NoDisabledDrop` | data-plane/src/xdp_gateway.bpf.c:170-172 | no packet is dropped for a disabled service when the maps hold compiled records |
| `Delivery.LiveShowsLast` | data-plane/tools/xdpgw-apply.c:1262-1296 | after any run from the loader the live slot shows the last committed request of each kind, and nothing where none was committed |
| `Delivery.GatewayServesRecords` | control-plane/app/worker/applier.py:109-148 | end to end, in every state reached from the loader: every packet is ruled by the records and CIDRs last serialized, parsed and committed (none where none was), and by the ports the live bitmap blocks at that moment |
| `Delivery.NoMapErrorFromLoader` | data-plane/src/blacklist.h:301-304 | in every state reached from the loader, however far dpstat has come and whatever was accepted, a map error means a full bucket map |
| `Charges.ChargesWhatIsSold` | control-plane/app/worker/applier.py:366-384 | for every admissible set of records: at each stage of its own a service is charged its record's rates, in exactly the dimensions the record names: limit and VIP as stored, committed, burst and ingress cap from the plan |
| `Charges.NodeSharesTheRest` | data-plane/tools/xdpgw-apply.c:841-846 | the node bucket shares what the capacity leaves after the promises to all enabled records |
| `Charges.PacketsPayWhatIsSold` | data-plane/src/xdp_gateway.bpf.c:143-179 | with the buckets of a CPU in any state, a packet is treated as the records say when each bucket is asked for what was sold, and every bucket it uses is charged that |
| `Charges.GatewayChargesRecords` | control-plane/app/worker/applier.py:109-148 | end to end with real buckets: in every state reached from the loader with services committed, every packet on a CPU is ruled and charged by the records, CIDRs and ports in force |
| `Uptime.NoMapErrorEver` | data-plane/src/fairness.h:76-102 | over every interleaving of applies, crashes, dpstat and packets on a CPU of a freshly loaded node: while the ids of all services ever committed fit a state map, no packet meets a map error |
| `Cpu.PacketPath.Offer` | data-plane/src/fairness.h:337-371 | find or make the bucket, bring it up to date, take the tokens; a full map refuses to store a new row and reports an error |
| `Cpu.PacketPath.FairAdmit` | data-plane/src/fairness.h:373-415 | committed, then burst, then node headroom, each bucket charged only when asked |
| `Cpu.PacketPath.AllowRules` | data-plane/src/rules.h:219-261 | first matching rule, then the service limit and the ladder; none is not allowed |
| `Cpu.PacketPath.LimitAndAdmit` | data-plane/src/svc_ratelimit.h:118-158 | no configuration or no set flag means no limit |
| `Cpu.PacketPath.DenyFilter` | data-plane/src/blacklist.h:277-342 | amplification ports, reserved sources, port bitmap, deny list, in this order |
| `Cpu.PacketPath.Whitelist` | data-plane/src/whitelist.h:350-403 | a listed source of a service with VIP rates takes the VIP bucket instead of the filters |
| `Cpu.PacketPath.Handle` | data-plane/src/xdp_gateway.bpf.c:143-179 | the stages run one after the other decide and charge as Decide does with the answers the buckets had before the packet |
| `Isolation.DecisionIsolated` | data-plane/src/xdp_gateway.bpf.c:143-179 | one packet under two environments that agree on its service is decided alike up to the node bucket |
| `Isolation.NeverNoRoom` | data-plane/src/fairness.h:76-102 | while all services seen fit the state map, a bucket row can always be stored |
| `Isolation.StepFits` | data-plane/src/fairness.h:76-102 | the per-stage state maps never hold more than 1024 rows, whatever services are met |
| `Isolation.StepIsolated` | data-plane/src/fairness.h:178-233 | one packet of a service leaves that service's buckets alike in two runs |
| `Isolation.StepElsewhere` | data-plane/src/fairness.h:276-371 | a packet of another service leaves a service's buckets alone |
| `Isolation.Isolated` | data-plane/src/fairness.h:373-415 | two runs that agree on one service's packets and configuration decide each of them identically before the node bucket, whatever other services send |
| `Accounting.Counters.RecordDrop` | data-plane/src/drop_reason.h:70-88 | one more in the node counter and in the service's row; an unknown code counts as a map error |
| `Accounting.Counters.CountClean` | data-plane/src/svc_stat.h:47-61 | one more clean packet in the service's row; id 0 has none |
| `Accounting.Counters.CountBypass` | data-plane/src/node_control.h:45-56 | one more in the bypass counter and nothing else |
| `Accounting.XdpGateway` | data-plane/src/xdp_gateway.bpf.c:182-231 | dispatch on the frame; the fate and both state changes are those of the specification |
| `Accounting.RecordCountsOne` | data-plane/src/svc_stat.h:28-79 | each fate adds exactly one to the counters, an ARP redirect none |
| `Accounting.PacketsConserved` | data-plane/src/xdp_gateway.bpf.c:131-231 | over every run, frames received = drop counters + service clean counts + bypass count + ARP frames |
| `Accounting.ServicePacketsConserved` | data-plane/src/svc_stat.h:47-79 | counting from zero over every run of arrivals, a service's clean and dropped packets are exactly the accepted packets whose service lookup hit it, and its drops are the sum over reasons |
| `Accounting.CodesAreAbi` | data-plane/src/drop_reason.h:6-27 | a reason's code is its place in the frozen interface; no two reasons share a counter |
| `Accounting.CountersExact` | data-plane/src/xdp_gateway.bpf.c:182-231 | counter by counter, from zero over every run: node drops per reason, service drops per reason, clean packets and bypass each equal the frames with that fate; the four parser reasons and the bypass are decided by the frames alone |
| `Accounting.RecordFits` | data-plane/src/svc_stat.h:28-45 | the statistics map never holds more than 1024 rows |
| `Capacity.DecideShaped` | data-plane/src/fairness.h:373-415 | stages are asked in order, each at most once; a ladder redirect was admitted by the committed or by the node bucket |
| `Capacity.CommittedTotal` | data-plane/tools/xdpgw-apply.c:779-783 | the helper's committed total never saturates for a snapshot it accepts: it is the sum over services |
| `Capacity.LadderBounded` | data-plane/src/fairness.h:373-415 | over every run on one CPU and from every state of its buckets, the bytes all services get through the ladder are within the tokens the committed buckets and the node bucket hold plus twice their share of the time since each one's own clock |
| `Capacity.LadderWithinCapacity` | data-plane/tools/xdpgw-apply.c:841-843 | for a committed snapshot and buckets that hold at most their burst: at most one second plus twice the elapsed time of max(capacity, total committed), plus one rounding byte per bucket; the time counts from the earliest bucket clock |
| `Capacity.StepKeepsSettled` | data-plane/src/fairness.h:137-209 | buckets that hold at most their burst, with clocks not before a time, stay so |
| `Ledger.Store.EnqueueUpdate` | control-plane/app/services/apply.py:55-71 | queues the current version, keeping an existing job for it |
| `Ledger.Store.FindJob` | control-plane/app/services/apply.py:293-310 | finds the job of one service version |
| `Ledger.Store.CreateService` | control-plane/app/services/services.py:90-133 | refused exactly for an improper record, a used data-plane id or a destination that overlaps another service; otherwise a new disabled service at version 1 with a queued job |
| `Ledger.Store.EditService` | control-plane/app/services/services.py:180-205 | new contents, next version and a fresh queued job in one transaction, with the same refusals; never an illegal status; WritesExactly says what is stored |
| `Ledger.Store.DeleteService` | control-plane/app/services/services.py:284-317 | refused while enabled; removes the row and its jobs |
| `Ledger.Store.Claim` | control-plane/app/services/apply.py:149-165 | mark_applying, with its settled, superseded and illegal outcomes |
| `Ledger.Store.Succeed` | control-plane/app/services/apply.py:168-185 | mark_active; never refused for a version that does not advance |
| `Ledger.Store.Fail` | control-plane/app/services/apply.py:188-204 | mark_failed |
| `Ledger.Store.RetryFailed` | control-plane/app/services/apply.py:207-245 | only a failed service; re-queues the current job |
| `Ledger.Store.RecoverOrphan` | control-plane/app/worker/feed_jobs.py:68-74 | mark_failed and retry as one transaction: if the retry raises, both are undone |
| `Ledger.MarksKeepInv` | control-plane/app/core/applystate.py:26-29 | marks keep the ledger consistent and assert_active_version_advances never raises |
| `Ledger.ReachableInv` | control-plane/app/services/apply.py:149-245 | in every reachable state the current version's job is unique and matches the service's status, and active holds exactly when active_version is the current version, otherwise it is older |
| `Ledger.StepMoves` | control-plane/app/services/apply.py:413-419 | versions never go back, active_version only moves up to the current one, contents change only with the version, old jobs only become superseded, finished jobs change only by retry |
| `Ledger.WritesExactly` | control-plane/app/services/services.py:96-134 | a create stores the record, disabled, at version 1; an edit stores it at the next version; each leaves every other row alone; a delete removes its own row only |
| `Ledger.StoredIsLastWritten` | control-plane/app/services/services.py:163-246 | over every run of transactions, the stored record of a service is that of its last successful create or edit, and none after a successful delete |
| `Ledger.EditGetsActive` | control-plane/app/services/apply.py:149-245 | from every consistent ledger, every admissible edit that is claimed and applied ends active at the next version with exactly the edited record, at once, after a failure and retry, or after a crash and recovery |
| `Ledger.OlderJobsAreSuperseded` | control-plane/app/services/apply.py:413-419 | whatever a worker does with an unfinished job of an older version, it ends superseded and nothing else changes |
| `Ledger.RaisesExactly` | control-plane/app/core/applystate.py:21-23 | under the ledger invariant a transaction raises exactly in these cases: unknown or still enabled service, a record the constraints refuse, unknown job, claiming a job that already runs, completing one that was never claimed, retrying a service that has not failed, recovering an orphan whose service was edited since, unless the newer version has itself failed |
| `Ledger.EditedOrphanRaises` | control-plane/app/worker/feed_jobs.py:68-74 | the run from an empty ledger: create, claim, edit; recovering the claimed job then raises and changes nothing |
| `Ledger.ReachableCoherent` | control-plane/app/db/models.py:472-490 | over every run of transactions, all stored records are proper, with distinct data-plane ids and destinations that do not overlap |
| `LiveConfig.OnlySuccessActivates` | control-plane/app/services/apply.py:168-185 | no transaction but the success mark makes a service active |
| `LiveConfig.StepKeepsGood` | control-plane/app/worker/processor.py:39-67 | claim, load, apply, mark, crash, recovery and operator edits keep: active services are live as stored |
| `LiveConfig.StepKeepsRecords` | control-plane/app/worker/applier.py:234-252 | every snapshot a worker loads, and the one last committed, holds records that meet the database's constraints |
| `LiveConfig.ActiveMeansLive` | control-plane/app/worker/handlers.py:38-46 | over every interleaving with one worker, the snapshot last committed holds an active service exactly as stored at its current version, and not at all if it is disabled; `Gateway.ActiveIsServed` carries this to the slot and the packets |
| `LiveConfig.EditGoesLive` | control-plane/app/worker/handlers.py:38-46 | with an idle worker and nothing in the way, an admissible edit ends active and live: the record as edited, or nothing if it disables the service |
| `DenyStore.Tables.UpsertFeedEntries` | control-plane/app/services/feed_reconcile.py:294-318 | batched upsert: new CIDRs become feed rows, existing rows keep their origin |
| `DenyStore.Tables.ReplaceAssertions` | control-plane/app/services/feed_reconcile.py:321-362 | one source's assertions become exactly the candidates |
| `DenyStore.Tables.MaterializeLocked` | control-plane/app/services/feed_reconcile.py:437-455 | a changed set gets the next revision and its digest; an unchanged one gets nothing |
| `DenyStore.Tables.ReconcileRun` | control-plane/app/services/feed_reconcile.py:68-151 | no-op for a deleted source, roll-back over capacity, otherwise the rewritten tables |
| `DenyStore.Tables.AddBlacklist` | control-plane/app/services/lists.py:114-141 | insert, promote a feed row, or conflict |
| `DenyStore.Tables.RemoveBlacklist` | control-plane/app/services/lists.py:161-182 | missing, conflict for feed rows, demote while asserted, else delete |
| `DenyStore.EffectiveSet` | control-plane/app/services/feed_reconcile.py:426-434 | the stored set is the manual rows plus every asserted CIDR |
| `DenyStore.AddIsExact` | control-plane/app/services/lists.py:114-141 | an add that goes through puts the CIDR into the set and the manual rows and changes nothing else; only a second manual row and a full list are refused |
| `DenyStore.RemoveIsExact` | control-plane/app/services/lists.py:161-182 | a remove that goes through takes the manual row away, keeps the CIDR in the set exactly when a feed asserts it, and changes nothing else; only unknown CIDRs and feed rows are refused |
| `DenyStore.ReconcileOutcome` | control-plane/app/services/feed_reconcile.py:74-126 | a reconcile goes through exactly for a live source, or a deleted one tagged so, whose union with the rest fits; the set is then that union, otherwise nothing changes |
| `DenyStore.ReconcileKeeps` | control-plane/app/services/feed_reconcile.py:119-125 | after a reconcile every feed row has an assertion, every assertion a row, and the set fits 1,048,576 |
| `DenyStore.ReconcileIsExact` | control-plane/app/services/feed_reconcile.py:321-378 | a reconcile makes one source's assertions exactly its parsed set and leaves other sources and manual rows alone |
| `DenyStore.DryRunPredicts` | control-plane/app/services/feed_reconcile.py:382-423 | a dry run predicts the set and the refusal of the real run |
| `DryFlag.TextInjective` | control-plane/app/services/feed_reconcile.py:434 | no two CIDRs have the same dotted-decimal text |
| `DryFlag.NetworkIsLex` | control-plane/app/services/feed_reconcile.py:431 | the database's order of networks (common prefix, then length) is address order, then prefix length, on networks without host bits |
| `DryFlag.RealFlagIsRight` | control-plane/app/services/feed_reconcile.py:124-127 | a real run flags a change if and only if the set changed |
| `DryFlag.DryFlagRightIff` | control-plane/app/services/feed_reconcile.py:93-114 | for all sets of networks: the dry run's flag is right if and only if the set changes or no pair of its members is ordered one way as networks and the other way as texts |
| `DryFlag.DryRunReportsIff` | control-plane/app/services/feed_reconcile.py:68-151 | for the same stored list and parsed feed, dry run and real run report the same flag under exactly that condition |
| `DryFlag.DryFlagWrong` | control-plane/app/services/feed_reconcile.py:418-431 | an unchanged list of 2.0.0.0/8 and 10.0.0.0/8 is flagged as changed |
| `DenyConverge.TransactionAdvances` | control-plane/app/services/feed_reconcile.py:437-455 | every stored-list transaction leaves the revision alone or raises it by one, the latter whenever the set changed, and the former whenever it did not and was materialized before |
| `DenyConverge.StepKeepsGood` | control-plane/app/worker/feed_runner.py:226-280 | every step keeps: revisions never decrease, active never passes desired, and agreement implies the live set is the stored set |
| `DenyConverge.ConvergedMeansLive` | control-plane/app/worker/feed_runner.py:358-362 | over every interleaving, when revisions and digests agree the deny set last committed is the stored set; `Gateway.ActiveIsServed` carries this to the packets |
| `DenyConverge.SetIsWhatWasAsked` | control-plane/app/services/feed_reconcile.py:426-434 | over every run from an empty list, a CIDR is in the stored set exactly when an operator added it and has not removed it since, or the last completed sync of a source not deleted since has it |
| `DenyConverge.UndisturbedConverges` | control-plane/app/worker/feed_runner.py:226-263 | load, apply and mark without interference reach agreement |
| `FeedJobs.FeedLedger.FindInFlight` | control-plane/app/services/feeds.py:303-320 | tells exactly whether a run of the source is queued or applying |
| `FeedJobs.FeedLedger.EnqueueLocked` | control-plane/app/services/feeds.py:267-300 | no second run while one is in flight; otherwise a queued run with its job |
| `FeedJobs.FeedLedger.ClaimJob` | control-plane/app/worker/feed_jobs.py:78-107 | claim, with the no-op finish for a gone source |
| `FeedJobs.FeedLedger.CompleteJob` | control-plane/app/worker/feed_jobs.py:109-181 | succeed and fail on an applying job only |
| `FeedJobs.FeedLedger.RecoverJob` | control-plane/app/worker/feed_jobs.py:183-210 | fail, then queue again while attempts remain |
| `FeedJobs.FeedLedger.FinishAsNoop` | control-plane/app/worker/feed_jobs.py:315-329 | keeps the ledger invariant: job and run end together as succeeded |
| `FeedJobs.ReachableInv` | control-plane/app/worker/feed_jobs.py:77-210 | in every reachable state job and run statuses correspond, a source has at most one run in flight, and attempts stay within 3 |
| `FeedJobs.JobsRunDown` | control-plane/app/worker/feed_jobs.py:183-196 | a finished job is never touched again, and every change of a job uses up a finite measure |
| `FeedJobs.RecoverDecides` | control-plane/app/worker/feed_jobs.py:183-210 | an orphaned job of a live source is queued again exactly while it has attempts left and has failed otherwise; one of a gone source ends as a success |
| `FeedJobs.GoneEnds` | control-plane/app/worker/feed_jobs.py:85-92 | a job whose source is gone ends, with its run, as a success at the next claim, completion or recovery |
| `FeedJobs.SyncCompletes` | control-plane/app/worker/feed_jobs.py:78-181 | from every consistent ledger, a sync of a live, idle source is queued, claimed and ends in the status it is given, and the source is free again |
| `FeedRuns.StepKeepsGood` | control-plane/app/worker/feed_runner.py:66-224 | ledger, worker and stored list as one machine: every operator and worker step keeps the job invariant, the provenance of the list and the same sources in both |
| `FeedRuns.SyncDelivers` | control-plane/app/worker/feed_runner.py:139-224 | an undisturbed sync of a live source leaves it asserting exactly what it fetched, a dry one leaves the stored list as it was |
| `FeedRuns.Retagged` | control-plane/app/services/feeds.py:176-188 | deleting a source tags its running run as the deletion and makes it a real run |
| `FeedRuns.DeletedStaysEmptyIff` | control-plane/app/services/feeds.py:163-199 | over every run of operators and workers after the deletion, a deleted source never asserts anything again if and only if no worker was past its source check with a fetch of it at the deletion |
| `FeedRuns.LaterRunsAreNoops` | control-plane/app/worker/feed_runner.py:191-204 | over every run after such a deletion, each job of the source stays as it was or ends as a success, none gets past its source check, and none adds an assertion |
| `FeedRuns.RevivedSource` | control-plane/app/services/feed_reconcile.py:76-79 | the failing run from an empty database: add the source, enqueue, claim, load, delete, reconcile with one CIDR; the deleted source asserts it |
| `Gateway.StepKeepsGood` | control-plane/app/worker/applier.py:109-148 | ledger, deny list, workers and map writers as one machine: every step keeps the live slot a listing of the two snapshots the workers last got through |
| `Gateway.ActiveIsServed` | control-plane/app/worker/handlers.py:38-46 | from a freshly loaded node and an empty database, over every interleaving: if a service is active and enabled, every packet to it is treated as its stored record says, with the deny set last applied; if the deny revisions agree, that set is the stored one |
| `Gateway.DisabledIsNotServed` | control-plane/app/worker/handlers.py:38-46 | the other half: if a service is active and disabled, every packet misses with nothing charged, or is treated as another live record that contains its destination says |
| `Gateway.ActiveIsCharged` | control-plane/app/worker/handlers.py:38-46 | over every interleaving, the packets of an active, enabled service are charged the rates of its stored record at every stage of its own |
| `Alerts.StreaksAreTrails` | control-plane/app/worker/alert_evaluator.py:249-290 | the fire streak is the trailing run of firing ticks, the clear streak that of clear ticks, each below its threshold |
| `Alerts.FiresExactly` | control-plane/app/worker/alert_evaluator.py:252-262 | an alert starts firing exactly when the trailing run reaches fire_ticks |
| `Alerts.ResolvesExactly` | control-plane/app/worker/alert_evaluator.py:277-290 | a firing alert resolves exactly after clear_ticks clear ticks in a row or when it is not observed |
| `Alerts.FiringIsDeclared` | control-plane/app/worker/alert_evaluator.py:90-141 | firing after a trace if and only if some tick completed a firing run and nothing resolved it since |
| `Alerts.PendingIsDeclared` | control-plane/app/worker/alert_evaluator.py:90-141 | pending after a trace if and only if it fired, was observed ever since and was at no point due to fire |
| `Alerts.BandHolds` | control-plane/app/worker/alert_evaluator.py:372-382 | over every run of raw observations, a firing alert stays firing while every tick fires or sees a metric not below the rule's own clear threshold |
| `Alerts.ClearsBelow` | control-plane/app/worker/alert_evaluator.py:280-291 | a firing alert is resolved once observed below the clear threshold for clear_ticks ticks in a row |
| `Alerts.FiresAfter` | control-plane/app/worker/alert_evaluator.py:248-260 | an alert is firing once the rule has fired for fire_ticks ticks in a row, whatever was before |
| `Alerts.LostIsQuiet` | control-plane/app/worker/alert_evaluator.py:133-141 | nothing is left of an alert after a tick that does not observe it |
| `Alerts.Evaluator.OpenPending` | control-plane/app/worker/alert_evaluator.py:200-231 | a new row, firing at once when one tick suffices; other alerts unchanged |
| `Alerts.Evaluator.Observe` | control-plane/app/worker/alert_evaluator.py:233-291 | one unresolved row takes one step for its observation; BandHolds, ClearsBelow and FiresAfter say what the steps come to |
| `Alerts.Evaluator.ResolveUnobserved` | control-plane/app/worker/alert_evaluator.py:132-141 | unobserved alerts are resolved, observed ones untouched |
| `Alerts.Evaluator.Reconcile` | control-plane/app/worker/alert_evaluator.py:90-141 | every rule and scope takes exactly one lifecycle step; at most one unresolved row each |
| `Alerts.Evaluator.RunLoop` | control-plane/app/worker/alert_evaluator.py:143-154 | tick after tick, each rule and scope is in the state its own trace says |

## Left out

- Header parsing (data-plane/src/parse.h): a frame arrives already classified, with its fields.
- Byte counters: only packet counts are conserved; frame lengths are truncated to 16 bits there and would add nothing hard.
- Sampling of drops, bloom false-positive counters, test hooks: they do not change a decision.
- The loader, map pinning, attach and detach: only the state they leave is used (`PortRuns.Loaded`).
- Map capacities of the configuration maps: a full map makes a write fail, which the helper's write budget covers.
- Read failures of bpf(2) calls: they end the helper like a failed write does.
- Two appliers racing for the file lock: the lock is taken as exclusive.
- Tenant allocations and the rule that a destination is a single host: a record may name any block, which only makes the overlap theorem wider.
- Python's CIDR text parsing and the decimal plan rates: records hold CIDRs and integer rates.
- Redis dispatch, retries of the terminal mark, maintenance mode: redelivery is covered because every transaction may run at any time.
- A helper that outlives a crashed worker, and a loader reload: excluded from `LiveConfig`, `DenyConverge` and `Gateway`.
- Two `dpstat set-blocked-ports` at once: `ApplyRuns` admits one at a time, although the command takes no lock.
- The global-deny job rows and the scheduler: convergence is proved for any sequence of attempts, so job bookkeeping adds only easy members.
- Billing, telemetry, notifications, audit events, authentication, routers: no hard property.
- ApplyHelper.PinnedMaps.ApplyNodeCfg: it does not interleave other writers, which ApplyRuns does.
- TokenBucket.PaymentExactIff: stated for rates below 2^63; a doubled larger rate wraps, and no database column holds one.
- Uptime.NoMapErrorEver: packets read the slot that is live when they arrive; ApplyRuns.SlotShowsOneSnapshot covers a flip during a packet.
- Capacity.LadderBounded: stated for one configuration at a time; it holds from any bucket state, so it applies again after each change.
- Capacity.LadderWithinCapacity: a bucket that holds more than its burst (after its plan was cut) or whose clock is behind the window can pay for more; LadderBounded says how much.
- Isolation.Isolated: requires that the services met fit the 1024-entry state maps; beyond that a new bucket cannot be stored and the packet is dropped as a map error.
- Accounting.PacketsConserved: requires that the services met fit the 1024-entry statistics map, because the source drops counts it cannot store.
- Meaning.CompilationPreservesMeaning: the position of the matched rule is compared through priority order; priorities within one service are distinct, as the database requires.
- Alerts.Evaluator.Reconcile: requires one observation per rule and scope and tick; notification, acknowledgement and severity fields are not modelled.
