# Satellite time server: block clock and broadcast queue

This project is a Dafny model of the two stateful parts of the time server, with proofs about them.

- The block clock (`lib/clock.js`) keeps two maps:
  - `ordered` maps a height to `{timestamp, height, hash}`;
  - `nominal` maps a hash to its height.
- The clock's operations:
  - `insert` validates a block and checks it against the block at `height - 1`;
  - `init` loads a saved list;
  - `block` and `advance` fetch missing heights from a provider, insert them and emit them;
  - `readHeight`, `readHash`, `compareHash`, `list`, and the `initialized`/`min`/`max` getters answer queries.
- The broadcaster (`lib/nostr-interface.js`):
  - turns each new block into one signed kind-2121 event;
  - queues that event once per relay under the key `id:url`;
  - publishes the queue relay by relay after a debounce;
  - can pre-load the ids of events already on the relays.

Modules:

- `Wrappers`: `Option` and `Result`.
- `Heights`: least, greatest, and the ascending order of a finite set of heights.
- `BlockLedger`: the two maps as a value `Ledger`. It holds:
  - `insert` as `Inserted` and `init` as `Load`;
  - the getters and reads, and `list`;
  - the proofs that `init(list())` rebuilds the height map, and that `list()` after loading, or after inserting a correctly chained ascending sequence, returns that sequence.
- `ClockSync`:
  - `block` as `Fetch`;
  - the range resolution and the fetch loop of `advance` as `Resolve` and `Walk`;
  - class `Clock`, whose methods update the maps in place and append emitted blocks to `emitted`. Each method is proved equal to the functions above.
- `Decimal`: the decimal text `String(height)` used in the height tag, and its parse back.
- `Broadcast`:
  - the payload, the queue key and `Enqueue`;
  - `Flush`, the specification of the relay loop of `broadcastEvents`;
  - `Restored`, the specification of `restorePrevious`;
  - class `NostrInterface`, whose methods keep the queue, the sent-id set and the debounce flag.

How the outside world is modelled:

- **The block provider** is a parameter of `block` and `advance`. It is a value `Provider` holding the tip height (`None` when `getHeight` rejects) and a function from height to block (`None` when `getBlock` rejects or yields nothing).
- **Signing** (`finalizeEvent`) is a function value from payload and key to event id. One block and one key therefore always give one id.
- **Relay outcomes** are functions of the relay's position:
  - connecting depends on the position alone;
  - publishing depends on the position and the queue key;
  - a subscription answer depends on the position alone.
- **`emit('block', …)`** becomes appending to the `emitted` sequence of the clock.
- **The debounce timer** is represented by `broadcastPending` alone. `HandleBlock` reports whether it scheduled a broadcast, which it does exactly when none was pending, and `OnTimer` is the scheduled callback.

The class methods follow the code as written, quirks included:

- The dedup check in `handleBlock` compares a bare event id with the composite queue keys. It can never match a key when ids contain no `:`, so only the sent set stops a block from being queued again. `HandleBlock` states this in its contract.
- Dedup is global per event id. Once any relay accepts an event, re-handling that block queues nothing, including for relays that failed.
- `readHash` answers with the queried hash and the timestamp of whatever block now sits at the height indexed for that hash. After an overwrite at the same height, that is a different block (`ReadHashAfterOverwrite`).
- `broadcastEvents` publishes every queued entry to the relay it is visiting, whatever url the entry's key names. `restorePrevious` filters on the secret key. Both are listed under Findings, each with a corrected specification and its proved property. The class methods keep the behaviour as written, because that is what the system does.

## Model

| member | source | states |
|---|---|---|
| Heights.Least | lib/clock.js:238-247 | the value of the `Math.min` reduce: an element of the non-empty key set no larger than any other |
| Heights.Greatest | lib/clock.js:249-258 | the value of the `Math.max` reduce: an element of the non-empty key set no smaller than any other |
| Heights.Ascending | lib/clock.js:221-227 | the numeric sort of the keys: strictly ascending, holding exactly the set's heights, one per height |
| Heights.AscendingUnique | lib/clock.js:225-227 | the numeric sort is determined by the elements: two strictly ascending sequences with the same elements are equal |
| BlockLedger.EmptyWellFormed | lib/clock.js:16-23 | the two fresh empty maps satisfy the ledger invariant (each record under its own height, every indexed height stored, nothing stored while the index is empty) |
| BlockLedger.Inserted | lib/clock.js:181-208 | `insert` fails with a missing-field error exactly when a field is undefined, naming height, then timestamp, then hash; fails with an inconsistency exactly when a stored `height-1` block's hash differs from a given `parentHash`; succeeds exactly when the block is complete and not discontinuous, and then sets `ordered[height]` to the record and `nominal[hash]` to the height; preserves the invariant |
| BlockLedger.InsertWithoutParentSucceeds | lib/clock.js:191-198 | a complete block with no `parentHash`, or with nothing stored at `height-1`, is always accepted |
| BlockLedger.InsertFrame | lib/clock.js:200-207 | a successful insert changes no other height and no other hash |
| BlockLedger.Load | lib/clock.js:15-32 | every prefix of `init`, each element inserted with the previous element's hash as parent and stopping at the first error, leaves a well-formed ledger |
| BlockLedger.IndexedIffStored | lib/clock.js:233-236 | under the ledger invariant, the hash index is non-empty exactly when some height is stored |
| BlockLedger.Initialized | lib/clock.js:233-236 | the `initialized` getter: the hash index is non-empty, which for a well-formed ledger holds exactly when some height is stored (its contract, from `IndexedIffStored`) |
| BlockLedger.MaxHeight | lib/clock.js:249-258 | the height of `max` is stored and no stored height exceeds it |
| BlockLedger.MinHeight | lib/clock.js:238-247 | the height of `min` is stored and no stored height is below it |
| BlockLedger.Max | lib/clock.js:249-258 | `max` is null exactly when nothing is stored; otherwise it is the record stored under the greatest height |
| BlockLedger.Min | lib/clock.js:238-247 | `min` is null exactly when nothing is stored; otherwise it is the record stored under the least height |
| BlockLedger.ReadHeight | lib/clock.js:165-171 | a reply only for a stored height, equal to the stored record with the queried height; an absent `confirm` always answers; a positive one requires a stored block more than `confirm` above |
| BlockLedger.ReadHash | lib/clock.js:156-163 | a reply only for an indexed hash, carrying that hash, its indexed height and the timestamp stored there; an absent `confirm` always answers |
| BlockLedger.ReadHeightConfirmation | lib/clock.js:166-171 | both directions: `readHeight` answers exactly when the height is stored and `confirm` is absent or some stored height lies more than `confirm` above it |
| BlockLedger.ReadHashMatchesReadHeight | lib/clock.js:157-171 | `readHash(x)` answers exactly when `readHeight(nominal[x])` does, with the same height and timestamp, and identically when the index is current |
| BlockLedger.CompareHash | lib/clock.js:173-178 | `height(b) - height(a)` when both hashes are indexed, 0 otherwise |
| BlockLedger.CompareHashProperties | lib/clock.js:174-178 | `compareHash(a, a) = 0`, antisymmetry, and additivity over three indexed hashes |
| BlockLedger.Window | lib/clock.js:221-230 | the stored heights within the bounds, strictly ascending, each present exactly once |
| BlockLedger.Records | lib/clock.js:221-224 | one element per key, the stored record with `height` taken from its key |
| BlockLedger.RecordsInRange | lib/clock.js:221-230 | the mapped, sorted and filtered keys are ascending, stored, within the bounds, and cover every stored height within the bounds |
| BlockLedger.List | lib/clock.js:212-231 | `[]` before any insert; otherwise stored records in strictly ascending height order, all within `[min, max]` (each bound defaulting to the stored least/greatest height), with every stored height in range present |
| BlockLedger.StoredAt | lib/clock.js:200-207 | inserting an ascending list in order stores each element under its height, and no other height |
| BlockLedger.ParentConsistent | lib/clock.js:27-29 | in an ascending list, the parent hash `init` gives an element never disagrees with the block stored at `height-1` |
| BlockLedger.LoadAscending | lib/clock.js:25-31 | loading a strictly ascending list never fails: each element's parent hash is the hash stored at `height-1` whenever that height is stored |
| BlockLedger.StoredListed | lib/clock.js:210-211 | a complete ascending listing of the stored records, inserted in order, rebuilds the height map |
| BlockLedger.ListCoversStore | lib/clock.js:212-230 | the unbounded `list()` contains every stored height |
| BlockLedger.ReloadRoundTrip | lib/clock.js:210-211 | `init(list())` throws nothing and rebuilds exactly the same height map |
| BlockLedger.ListingUnique | lib/clock.js:221-227 | two strictly ascending listings that each hold exactly the stored records are equal |
| BlockLedger.ListOfLoaded | lib/clock.js:15-32 | `init` of a strictly ascending list throws nothing, and `list()` afterwards returns that same list |
| BlockLedger.InsertAllAsLoad | lib/clock.js:25-31 | for any list, calling `insert` on each element in turn, with the parent hash `init` gives it, ends exactly as `init` does: the same maps when no insert throws, otherwise the same first error |
| BlockLedger.ChainedInsertsListBack | lib/clock.js:181-231 | a strictly ascending, correctly chained sequence inserted one by one raises no error, keeps the invariant, and `list()` then returns exactly that sequence |
| BlockLedger.ReadHashAfterOverwrite | lib/clock.js:157-162 | after blocks "x" and then "y" are stored at height 5, `readHash("x")` reports hash "x" with the timestamp of "y" |
| ClockSync.Fetch | lib/clock.js:48-81 | a stored height is served from the map with no change and no emission; otherwise no provider gives the missing-provider error, no block from `getBlock` gives `FetchFailed(n)`, and a returned block succeeds exactly when `insert` accepts it, leaving the maps of `Inserted` and returning and emitting its record, else failing with the insert error; every failure leaves the ledger unchanged and emits nothing; the invariant holds and stored heights are kept |
| ClockSync.FetchHonest | lib/clock.js:48-81 | with a provider that answers each height with that height, a successful `block(n)` leaves height `n` stored and returns its record; no height other than `n` appears or disappears, and every other stored record is unchanged |
| ClockSync.Target | lib/clock.js:88-103 | the height `advance` synchronises to: `toBlock` when given; otherwise the provider's tip, absent when there is no provider or `getHeight` rejects |
| ClockSync.Resolve | lib/clock.js:84-135 | the walk ends at `toBlock`, else at the provider's tip; no `toBlock` and no provider throws, and a rejected `getHeight` is `TipUnavailable`, each exactly then; `advance` skips exactly when the clock is initialized and that target is not above `max`; otherwise an empty subset returns `{}` exactly then; a sync starts at `max+1` when initialized (above every stored height), else at `startBlock`, falling back to the target; with a subset, at the subset's least element |
| ClockSync.Walk | lib/clock.js:137-151 | the `for` loop with `break`: skips out-of-subset heights, fetches each other height with `block(n)`, records it in `newBlocks`, and stops at the first failure; its contract places the stop at an in-subset height of the range, and `WalkStops`, `WalkStopPoint`, `WalkKeeps`, `WalkCached` and `WalkHonest` state the rest |
| ClockSync.WalkStops | lib/clock.js:137-153 | fail-fast: the returned map holds exactly the in-subset heights from the start up to the first failing one, or up to the target |
| ClockSync.WalkStopPoint | lib/clock.js:144-150 | the loop stops early only at an in-subset height of the range whose fetch fails |
| ClockSync.WalkKeeps | lib/clock.js:137-153 | earlier entries of the returned map, stored heights and the ledger invariant are kept; emitted blocks are only appended |
| ClockSync.WalkCached | lib/clock.js:49-52 | when every visited height is already stored, the loop makes no change, emits nothing, never stops early and returns the stored records |
| ClockSync.WalkHonest | lib/clock.js:144-150 | with an honest provider every block in the returned map is the record stored under its height |
| ClockSync.LoadKeepsError | lib/clock.js:27-30 | after the first error of `init`, later elements change nothing |
| ClockSync.Clock.constructor | lib/clock.js:4-7 | a new clock holds the empty maps and has emitted nothing |
| ClockSync.Clock.Insert | lib/clock.js:181-208 | the maps become those of `Inserted`, or stay as they were with its error; nothing is emitted |
| ClockSync.Clock.Init | lib/clock.js:15-32 | the loop resets the maps and leaves them, and the error it reports, equal to `Load` of the whole list |
| ClockSync.Clock.Block | lib/clock.js:48-81 | result, maps and emitted blocks are those of `Fetch` |
| ClockSync.Clock.Advance | lib/clock.js:84-154 | an early result of `Resolve` changes nothing; otherwise the `for` loop with `break` leaves maps, emitted blocks and `newBlocks` equal to `Walk` over the resolved range |
| Decimal.NatString | lib/nostr-interface.js:83 | the decimal text of a natural number is a non-empty digit string without leading zero |
| Decimal.IntString | lib/nostr-interface.js:83 | `String(n)`: digits, preceded by a minus sign exactly when `n` is negative |
| Decimal.ParseNatString | lib/nostr-interface.js:83 | the digits of `n` read back as `n` |
| Decimal.ParseIntString | lib/nostr-interface.js:83 | `String(n)` parses back to `n` |
| Decimal.IntStringInjective | lib/nostr-interface.js:83 | distinct heights give distinct height tags |
| Broadcast.PayloadRoundTrip | lib/nostr-interface.js:76-87 | the timestamp, hash and height of a block can be read back from its payload |
| Broadcast.BlockPayloadInjective | lib/nostr-interface.js:76-87 | distinct blocks get distinct payloads |
| Broadcast.ComposeEvent | lib/nostr-interface.js:70-90 | an event exactly when a non-empty signing key is set; its payload is kind 2121, created at the block timestamp, with empty content and the tags `["hash", hash]` and `["height", String(height)]`, from which the whole block reads back; its id is the signer's id for that payload and key, so one block and one key always give one id |
| Broadcast.QueueKey | lib/nostr-interface.js:56 | every queue key contains `:` |
| Broadcast.QueueKeyInjective | lib/nostr-interface.js:56 | one event gets a distinct key for each relay url |
| Broadcast.Enqueue | lib/nostr-interface.js:55-57 | the queue after one `set(id:url, event)` per relay: old keys stay and each relay's key holds the event; `EnqueueContents` states the exact contents |
| Broadcast.EnqueueContents | lib/nostr-interface.js:55-57 | the loop adds exactly one entry per relay url, holding the event, and leaves other entries unchanged |
| Broadcast.EnqueueIdempotent | lib/nostr-interface.js:55-57 | handling the same event again before publication leaves the queue as it was |
| Broadcast.Offer | lib/nostr-interface.js:112-121 | one connected relay's pass: entries are only dropped, the rest unchanged, and the sent set only grows; every entry the relay accepts is deleted and its id recorded |
| Broadcast.Flush | lib/nostr-interface.js:109-124 | the relay loop: each relay connected in turn and offered the queue, a failed connect aborting the rest; the queue only drains and the sent set only grows, and a reported failure names a relay in range that failed to connect; `FlushEffect` states the full effect |
| Broadcast.FlushEffect | lib/nostr-interface.js:109-124 | an entry stays queued, unchanged, exactly when no relay visited before the stop accepted it; the sent set gains exactly the ids of deleted entries; the loop stops only at a relay whose connect failed, after every earlier relay connected |
| Broadcast.FlushBookkeeping | lib/nostr-interface.js:112-121 | an entry is deleted only after some relay accepted it, and its id is then recorded; an entry every relay refused stays queued; the queue only shrinks and the sent set only grows |
| Broadcast.BroadcastOutcome | lib/nostr-interface.js:93-125 | no relays, or an empty queue, changes nothing; otherwise the queue only shrinks, the sent set only grows, and a reported connect failure names a relay that failed to connect |
| Broadcast.EntryForSecondRelayDeletedByFirst | lib/nostr-interface.js:109-121 | with relays "a" and "b", both connected, and only the first accepting, the entry keyed for "b" is deleted |
| Broadcast.FlushOwnDelivers | lib/nostr-interface.js:104-108 | in the corrected loop an entry leaves the queue only after the relay its key names accepted it, and its id is then recorded |
| Broadcast.EntryForSecondRelayKeptByOwnLoop | lib/nostr-interface.js:104-108 | in the corrected loop, the same input keeps the entry keyed for "b" queued |
| Broadcast.Restored | lib/nostr-interface.js:19-42 | the relay loop of `restorePrevious`: each answering relay's reported ids are added, failing relays skipped; old ids stay and every answering relay's ids end up in the set; `RestoreOnlyAdds` adds that nothing else does |
| Broadcast.RestoreOnlyAdds | lib/nostr-interface.js:16-42 | restoring keeps every old id, adds only ids some answering relay reported, and adds all of them; failing relays are skipped |
| Broadcast.RestoreBySecretKeyFindsNothing | lib/nostr-interface.js:17-29 | filtering by the secret key restores nothing from relays holding only events signed under a different public key |
| Broadcast.RestoreByPublicKeyFindsOwn | lib/nostr-interface.js:12-15 | filtering by the public key restores every own block event held by an answering relay |
| Broadcast.NostrInterface.constructor | lib/nostr-interface.js:5-10 | empty sent set, empty queue, flag clear |
| Broadcast.NostrInterface.HandleBlock | lib/nostr-interface.js:45-68 | without a key nothing changes; a found id changes nothing, and for ids without `:` an id is found exactly when it is in the sent set; otherwise the queue becomes `Enqueue` over all relays, the flag is set, and a broadcast is scheduled exactly when none was pending; the sent set is untouched |
| Broadcast.NostrInterface.BroadcastEvents | lib/nostr-interface.js:93-125 | the new queue, sent set and result are those of `BroadcastOutcome`; the flag is untouched |
| Broadcast.NostrInterface.PublishAll | lib/nostr-interface.js:112-121 | one connected relay's pass leaves queue and sent set equal to `Offer` |
| Broadcast.NostrInterface.OnTimer | lib/nostr-interface.js:62-66 | runs the broadcast as `BroadcastOutcome` states, then clears the flag |
| Broadcast.NostrInterface.RestorePrevious | lib/nostr-interface.js:16-43 | without a key, reading it as hex throws and nothing changes; otherwise the sent set becomes `Restored` over all relays under the author filter as written, and the queue is untouched |

## Left out

- `index.js`, `lib/block-provider.js` and `lib/mempool-space-source.js` are not part of this model. The provider is the `Provider` parameter.
- `setProvider`'s duck-typing checks are not modelled: a provider is passed to each call as a typed value. The "missing `getHeight`" and "missing `getBlock`" errors remain as the `provider.None?` cases.
- `block(hash)`: fetching by a non-numeric id is not modelled. `ClockSync.Fetch` takes a height.
- `ClockSync.Clock.constructor`: `new Clock(list)` is this constructor followed by `Init(list)`.
- `ClockSync.Clock.Block`: the emitted block is the stored record. Extra fields of the provider's object (such as `parentHash`) are dropped.
- `Date`/ISO formatting and `console` output are not modelled.
- `parseInt` coercions are not modelled: heights and timestamps are unbounded integers, so `parseInt` is the identity. JavaScript numbers are doubles: they are exact only up to 2^53, and `String(n)` switches to exponent notation from 1e21 on, so `Decimal.IntString` is `String(n)` only below those limits. Block heights and timestamps lie far below both. The `confirm` argument is an integer, and 0 stands for every falsy value.
- Sorting a caller's subset in place is not modelled: the subset is a value, and only its least element is used.
- Signatures and public keys are not modelled: an event is its id and payload.
- `Broadcast.FilterAuthor`: the hex read-and-write of the key is the identity. That holds for keys of even-length lowercase hex, which is what signing keys are.
- Network I/O (connect, publish, subscribe, close) is reduced to success/failure outcomes. The outcome of a publish depends only on the relay's position and the queue key, so the order in which one relay's entries are visited does not change the result.
- `Broadcast.NostrInterface.RestorePrevious`: events that arrive after the method returns are counted as arriving during the call. A relay that fails contributes nothing; events it delivered before failing are not counted.
- Timing and concurrency are not modelled: the 10-second delay, and interleavings at `await` points, where each method runs as one step. In the source the flag is cleared as soon as the broadcast starts, so a second broadcast can overlap a running one; the model does not capture that overlap.
- Consensus across several providers exists in the source only as a TODO and is not modelled.

## Findings

| source | as written | input that shows it | evidently intended | confidence | as-written member | corrected member |
|---|---|---|---|---|---|---|
| lib/nostr-interface.js:109-121 | each relay is offered every entry still queued, whatever url its key names, and an entry is deleted after its first successful publish | relays "a" and "b", both connected, only relay "a" accepting: entry `e:b` is published to "a" and deleted, so "b" never receives the event | each relay publishes the entries keyed to it (the comment at lines 104-108), and an entry is deleted only after its own relay accepted it | not executed | Broadcast.EntryForSecondRelayDeletedByFirst | Broadcast.FlushOwnDelivers |
| lib/nostr-interface.js:17 | the subscription's author filter is the secret signing key, read and written back as hex | relays holding only events signed with the key, whose public key differs from the secret key: nothing is restored | filter by the public key derived from the secret key, so that previously broadcast events are found (the comment at lines 12-15) | not executed | Broadcast.RestoreBySecretKeyFindsNothing | Broadcast.RestoreByPublicKeyFindsOwn |
