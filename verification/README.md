# A verified model of sofabolt

sofabolt is a Go implementation of the BOLT and TBRemoting protocols: a codec for five frame
layouts, clients that match responses to requests over one connection, and a keep-aliver that pools
those clients by address in a concurrent map. This project models its four hardest parts in Dafny
and proves what they are for. `dafny verify dfyconfig.toml` checks all of it.

**The concurrent map.** `PoolMapMachine` is PoolMap with one step per atomic load, swap, lock,
guarded map write and unlock, for any number of threads; map objects and entries have identities, so
a snapshot taken long ago still names the map it named. `PoolMapProof` shows that each step keeps an
invariant indexed by the mutex holder's program counter and the promises made to every other call;
`PoolMapTheorems` draws the consequences for runs, and `PoolMapRange` those for a whole Range with
the answers of its callback; `PoolMapProgress` proves that a call left alone returns.
`PoolMapObject` is the same map as a heap object, each method against a plain map. The source's
comment says that a nil entry means a nil dirty map; `PoolMapWitness` has a run after which that is
false, and the exact condition under which it is true.

**Pending requests.** `PendingMachine` is the protocol of Client and of ClientConnBOLT: callers, the
goroutines that deliver responses, timeouts and the cleanup after a read error race for one table
and for recycled contexts with channels of capacity one. In strict mode, that of ClientConnBOLT,
request numbers past 32 bits are refused; otherwise ids wrap, and the environment keeps fewer than
2^32 ids in flight and answers within that span. A response that finds an entry in the table answers
a two-way request whose write succeeded; it may come any number of times, and what finds no entry
may be anything. `PendingProof` and `PendingTheorems` prove the guarantees, `PendingCalls` that each
result of a call has exactly one kind of reason, and that nothing but what it waits for holds a call
up; `PendingWitness` shows two runs on which they fail: the peer answers a one-way request, or one
whose write is about to be reported as failed.

**The codec.** `HeaderMap` and `Frames` say on values what the header map and the five layouts are,
and hold the round trips, normal forms and byte counts. `HeaderBlocks` and `Wire` say the same over
bytes, as a grammar and as literal places, with which bytes are accepted and why others are not.
`SimpleMap` and `Command` are the code over recycled storage: cursors, slots extended over old
backing arrays, buffers filled by index, readers that assign fields; each method is proved against
those values. `Echo` decides when reading and writing give back the very bytes, which the fuzz
target of the repository expects always. Three places differ from the obvious contract, and the
model follows the code: V1 readers take the second version from the top byte of the request id;
returned byte counts add two lengths in 16 bits and leave out the checksum; deleting a header other
than the last leaves two slots with one storage. After such a delete every method may still be
called, which is `Usable`; what reads is still right, and what writes headers is right when the
slots are separate, which is part of `Valid`. `SimpleMap` has the set, and the decode into recycled
storage, that go wrong otherwise. CRC-32 is a parameter, since no reader checks it.

**Pools and connections.** `Pools` and `KeepAlive` are the rotating pool, the retire loop and the
bounded graceful close. `PutMachine` runs any number of puts at once on top of the steps of
`PoolMapMachine`, `PutTheorems` proves where their clients end up and `PutAnswers` why each put
answers as it does. `Status` is the status of ClientConn through dialing, reading, timing out and
redialing.

Time, sockets, the scheduler and the peer appear as choices: which step comes next, whether a write
or a dial succeeds, when a timer fires, how many references a client has at a sweep.

## Model

| member | source | states |
|---|---|---|
| `PoolMapTheorems.UpdatesArePlainMapUpdates` | sofabolt/pool_generated.go:152-310 | In every run, over any number of threads and any interleaving, a step either leaves every key's answer as it was or is the one designated step of a Store, LoadOrStore or Delete and changes the map exactly as that operation changes a plain map; promotion, copying, expunging and unexpunging change nothing |
| `PoolMapTheorems.OnlyDesignated` | sofabolt/pool_generated.go:185-310 | Only the swap of an entry, the locked store, the deletion from dirty and the insertion of a new entry add to the history |
| `PoolMapTheorems.LoadAnswers` | sofabolt/pool_generated.go:118-149 | A finished Load returned what the map held for its key at some moment of the call, also when its entry was unlinked after it was found |
| `PoolMapTheorems.UpdateAnswers` | sofabolt/pool_generated.go:152-179 | A finished Store took effect exactly once and during the call; a finished Delete did so or found its key absent at some moment |
| `PoolMapTheorems.LoadOrStoreAnswers` | sofabolt/pool_generated.go:215-280 | Also while others store and delete its key: a finished LoadOrStore that loaded returned what the map held at some moment of the call; otherwise it inserted its own pool exactly once, during the call, when the map had nothing for the key |
| `PoolMapTheorems.RangeAnswers` | sofabolt/pool_generated.go:322-353 | Every pair Range reports held at some moment of the call, and a Range that f never stops leaves out only keys that were absent at some moment |
| `PoolMapTheorems.RangeVisitsOnce` | sofabolt/pool_generated.go:344-352 | Every call of f is for a key that f was not called with before, the call that stops the iteration included |
| `PoolMapRange.RangeGoesOn` | sofabolt/pool_generated.go:344-352 | While keys are left Range visits one of them, calls f with it exactly when its entry holds a pool, and goes on with the others unless f was called and said no |
| `PoolMapRange.RangeStopsWhenTold` | sofabolt/pool_generated.go:322-353 | Over a whole call and with the answers f gave: a Range visited all of its snapshot exactly when f never said no |
| `PoolMapTheorems.SingleWinner` | sofabolt/pool_generated.go:215-280 | While nobody stores or deletes a key, all LoadOrStore calls on it return one pool and exactly the call that inserted it returns loaded = false |
| `PoolMapTheorems.CacheAtRest` | sofabolt/pool_generated.go:57-107 | With the mutex free: no dirty map means unamended, no misses and nothing expunged in read; with a dirty map, a read entry is shared with dirty exactly when it is not expunged, and no dirty entry is expunged |
| `PoolMapWitness.CommentExactly` | sofabolt/pool_generated.go:89-100 | With the mutex free, the comment that a nil entry means a nil dirty map is true exactly when there is no dirty map or no key of it has been deleted and not stored since |
| `PoolMapWitness.CommentFails` | sofabolt/pool_generated.go:89-100 | A run after which nothing is going on and the comment is false: store a, range, store b, delete a |
| `PoolMapWitness.NilEntryIsShared` | sofabolt/pool_generated.go:89-100 | What is true of a nil read entry instead: there is no dirty map or the entry is in it too |
| `PoolMapTheorems.ExposedIsCurrent` | sofabolt/pool_generated.go:97-107 | An entry ever published in read is expunged or still the read entry of its key, which is what makes a swap through an old snapshot sound |
| `PoolMapTheorems.PublishedStays` | sofabolt/pool_generated.go:46-55 | A map object once published in read is never written again |
| `PoolMapTheorems.LockedPathsAreSafe` | sofabolt/pool_generated.go:160-168 | Under the mutex storeLocked and tryLoadOrStore never meet an expunged entry, and no write goes to a nil dirty map |
| `PoolMapTheorems.MissesPromote` | sofabolt/pool_generated.go:355-363 | In every run a miss counts one, dirty is published exactly when as many are counted as it has keys, and then the count begins anew |
| `PoolMapTheorems.Unblocked` | sofabolt/pool_generated.go:118-388 | An unfinished call can take its next step unless another call holds the mutex it waits for |
| `PoolMapTheorems.NoDeadlock` | sofabolt/pool_generated.go:118-388 | While any call is unfinished, some call can take a step |
| `PoolMapProgress.StepNearer` | sofabolt/pool_generated.go:118-388 | Every step of its own brings a call nearer to its end, by a measure over the two maps and what is left to copy or visit |
| `PoolMapProgress.FinishesAlone` | sofabolt/pool_generated.go:118-388 | From any state of any run, a call that is left alone returns, in a bounded number of its own steps, if no other holds the mutex |
| `PoolMapProof.OfCas` | sofabolt/pool_generated.go:185-195 | A compare-and-swap outside the mutex, through however old a snapshot, keeps the invariant and disturbs no other call |
| `PoolMapProof.OfLink` | sofabolt/pool_generated.go:160-168 | Between unexpunging an entry and putting it into dirty, the invariant is that of the mutex holder's program counter |
| `PoolMapProof.OfDirtyPut` | sofabolt/pool_generated.go:365-377 | While dirty is half built, exactly the keys still to be copied are exempt from being mirrored |
| `PoolMapProof.OfPromote` | sofabolt/pool_generated.go:355-363 | Publishing dirty as the read map changes no answer |
| `PoolMapProof.OfStep` | sofabolt/pool_generated.go:118-388 | Every atomic step of every operation keeps the invariant and the promises made to all other calls |
| `PoolMapObject.PoolMap.Load` | sofabolt/pool_generated.go:118-149 | As an object: the plain map's answer, with no answer changed by a promotion |
| `PoolMapObject.PoolMap.Store` | sofabolt/pool_generated.go:152-179 | Exactly the stored key changes, through each of the three paths |
| `PoolMapObject.PoolMap.LoadOrStore` | sofabolt/pool_generated.go:215-248 | The present value, or the given one stored; no other key changes |
| `PoolMapObject.PoolMap.Delete` | sofabolt/pool_generated.go:283-298 | Exactly the deleted key becomes absent |
| `PoolMapObject.PoolMap.Range` | sofabolt/pool_generated.go:322-353 | Only live pairs are visited; unless f stopped it, all of them |
| `PoolMapObject.PoolMap.DirtyLocked` | sofabolt/pool_generated.go:365-388 | Live entries are shared, deleted ones become expunged and are not copied |
| `PoolMapObject.PoolMap.MissLocked` | sofabolt/pool_generated.go:355-363 | Counting a miss changes no answer; when as many are counted as dirty has keys, dirty becomes the read map and the count begins anew, and not before |
| `PendingTheorems.CompletedAtMostOnce` | sofabolt/client.go:297-314 | In every run a registered request is completed once when it was answered or failed by a cleanup, and never otherwise |
| `PendingTheorems.SendNeverBlocks` | sofabolt/invoke_context.go:74-84 | The blocking send of the read loop always finds room in the channel |
| `PendingTheorems.CleanupAlwaysSends` | sofabolt/client.go:298-309 | The cleanup's non-blocking send never takes its default branch: every visited request is failed with the read error |
| `PendingTheorems.StartsEmpty` | sofabolt/syncpool.go:59-75 | A context starts each of its lives with an empty channel, outside the pool, and with no delivery or table entry that could still write to it |
| `PendingTheorems.AnswerIsOwn` | sofabolt/client.go:470-483 | A call that returns nil with a response returns the response to its own request, which was answered; no other call of that moment has its number |
| `PendingTheorems.OneCallPerSerial` | sofabolt/client.go:430-434 | Over any two moments of a run, calls with the same number are the same call |
| `PendingTheorems.AnswersDiffer` | sofabolt/client.go:470-483 | Two calls that returned responses, at whatever moments, returned the responses to two requests |
| `PendingTheorems.OutcomeAgrees` | sofabolt/client.go:417-493 | What each result says about the fate of the request: a refused one was never registered; a read error is the cleanup's; a write error means registered and then withdrawn or failed; a timeout means expired, taken, answered or failed; a sent one-way request was withdrawn or failed |
| `PendingTheorems.RunMovesFate` | sofabolt/client.go:495-515 | The only changes of a registration: pending to taken, failed, expired or withdrawn, and taken to answered |
| `PendingTheorems.FateIsFinal` | sofabolt/client.go:470-489 | What one of the racing parties has decided about a request no other ever changes |
| `PendingTheorems.TableIsPending` | sofabolt/client.go:495-515 | Outside a cleanup the table holds exactly the pending requests, one entry each, under their own ids |
| `PendingTheorems.CleanupFailsAllPending` | sofabolt/client.go:297-314 | When a cleanup ends the table is empty and every request pending when it began was completed once, with its error |
| `PendingTheorems.IdsNeverReused` | sofabolt/protocol/bolt/clientx_bolt.go:194-200 | In ClientConnBOLT no request id is used twice in a whole run |
| `PendingTheorems.SerialsIncrease` | sofabolt/client.go:430-434 | The number a call is given is above every number given before |
| `PendingTheorems.RefusedWhenOut` | sofabolt/protocol/bolt/clientx_bolt.go:194-197 | A call is refused an id exactly when 2^32 - 1 have been given |
| `PendingCalls.ResultIsDecided` | sofabolt/client.go:417-493 | A call answers r exactly when a step of its own gave it the reason to: closed or a read error or no request when it looked, out of ids, not encodable, a failed write, a write that needs no answer, the message in its channel, or its timer |
| `PendingCalls.RefusedUnregistered` | sofabolt/client.go:418-424 | A call that finds the client closed, or a read error, answers so and never has a number, so it is never registered |
| `PendingCalls.ClosedForGood` | sofabolt/client.go:343-346 | A closed client stays closed, and a read error that was left is not lost |
| `PendingCalls.CallIsAsAsked` | sofabolt/client.go:417-421 | Whether a call has a callback, wants no answer, or has a timeout is to its end what was asked for when it began |
| `PendingCalls.DeliveryTakes` | sofabolt/client.go:358-366 | A response that finds an entry takes exactly that one out of the table into the hands of its deliverer, whatever the kind of the request; one that finds none changes nothing |
| `PendingCalls.ResponseIsTaken` | sofabolt/client.go:358-366 | While no cleanup has the lock, any response the peer may send can be looked up |
| `PendingCalls.TakerGoesOn` | sofabolt/invoke_context.go:74-84 | A deliverer can always go on: it invokes the callback, or assigns its response, or signals when it has; the first and the last answer the request, once |
| `PendingCalls.TakerAnswers` | sofabolt/invoke_context.go:74-84 | Whenever a callback is invoked or a signal is sent, the request it is for becomes answered, once, and the deliverer is done |
| `PendingCalls.CleanupGoesOn` | sofabolt/client.go:297-314 | A cleanup can begin when the lock is free, visit an entry while some are left, and end when none is |
| `PendingCalls.ContextReturns` | sofabolt/client.go:417-493 | A call that ends gives its context back to the pool, unless it timed out or has a callback |
| `PendingCalls.CallGoesOn` | sofabolt/client.go:417-493 | An unfinished call is held up only by a cleanup's lock, by the span of ids, or by waiting without a timer for a message that is not there |
| `PendingCalls.CallAdvances` | sofabolt/client.go:417-493 | A step of its own always takes a call forward, so it makes at most nine; one of another leaves it where it is |
| `PendingWitness.UnsolicitedAnswerMisleads` | sofabolt/client.go:358-366 | Without the assumption on the peer the guarantees fail: one answer to a request that is about to return, because it is one-way or because its write failed, ends up as the answer of a later call |
| `PendingProof.OwnEntry` | sofabolt/client.go:495-503 | The table entry a response finds is that of its own request |
| `PendingProof.OnIssue` | sofabolt/client.go:430-434 | Giving out an id keeps the invariant |
| `PendingProof.OnAdd` | sofabolt/client.go:505-509 | Registering keeps the invariant: it never overwrites the entry of a request in flight |
| `PendingProof.OnDelete` | sofabolt/client.go:511-515 | Withdrawing and timing out delete their own entry or none, never another request's |
| `PendingProof.OnDeliver` | sofabolt/client.go:358-366 | Taking a context out of the table keeps the invariant |
| `PendingProof.OnSignal` | sofabolt/invoke_context.go:74-84 | Handing over the response keeps the invariant |
| `PendingProof.OnSweep` | sofabolt/client.go:298-309 | Failing one pending request keeps the invariant |
| `PendingProof.OnRecycle` | sofabolt/syncpool.go:59-79 | Recycling a released context keeps the invariant |
| `HeaderMap.GetSet` | sofabolt/simplemap/fastsimplemap/fast_simplemap.go:250-284 | After set exactly the written key reads differently, dedicated or not, and keys stay distinct |
| `HeaderMap.GetDel` | sofabolt/simplemap/fastsimplemap/fast_simplemap.go:321-342 | After del exactly the deleted key reads as absent |
| `HeaderMap.SetKeepsOrder` | sofabolt/simplemap/fastsimplemap/fast_simplemap.go:250-284 | A set replaces its pair in place or puts it last; the others stay where they are |
| `HeaderMap.DelKeepsOrder` | sofabolt/simplemap/fastsimplemap/fast_simplemap.go:321-342 | A del takes its pair out; the others close up in their order |
| `HeaderMap.EncodeSizeIsLength` | sofabolt/simplemap/fastsimplemap/fast_simplemap.go:99-123 | GetEncodeSize is the number of bytes Encode writes |
| `HeaderMap.DecodeIsFold` | sofabolt/simplemap/fastsimplemap/fast_simplemap.go:202-248 | Decode of any bytes is the left fold of set over the pairs parsed, with the first failure as its error; which bytes parse to which pairs is stated by AcceptedExactly and RefusedExactly |
| `HeaderMap.DecodeReads` | sofabolt/simplemap/fastsimplemap/fast_simplemap.go:202-248 | After decoding any bytes the last pair parsed for a key wins and any other key reads as absent |
| `HeaderMap.ParsePair` | sofabolt/simplemap/fastsimplemap/fast_simplemap.go:210-244 | A round of Decode consumes at least eight bytes |
| `HeaderMap.ParsedSize` | sofabolt/simplemap/buffer/buffer.go:78-106 | A round consumes its two lengths, its key and its value, and nothing else |
| `HeaderMap.DecodeEncode` | sofabolt/simplemap/fastsimplemap/fast_simplemap.go:146-170 | Decode undoes Encode, for every well-formed map whose lengths fit |
| `HeaderMap.DecodeEncodeDecode` | sofabolt/simplemap/fastsimplemap/fuzz.go:29-49 | Whatever bytes Decode accepts, encoding and decoding again gives an equal map |
| `HeaderMap.DecodeSize` | sofabolt/simplemap/fastsimplemap/fast_simplemap.go:99-123 | A decoded map is never larger than the bytes it came from |
| `HeaderMap.Find` | sofabolt/simplemap/fastsimplemap/fast_simplemap.go:344-363 | The first slot with a key, or the number of slots |
| `HeaderBlocks.AcceptedExactly` | sofabolt/simplemap/fastsimplemap/fast_simplemap.go:202-248 | Decode accepts exactly the concatenations of a length-prefixed key and a value, which is length-prefixed or the four bytes 255 for an empty one, and parses them to these pairs |
| `HeaderBlocks.RefusedExactly` | sofabolt/simplemap/fastsimplemap/fast_simplemap.go:210-244 | It fails exactly on pairs that something else follows: KeyFailed when no key starts there, ValueFailed when a key does and no value follows it |
| `HeaderBlocks.NullIsEmpty` | sofabolt/simplemap/fastsimplemap/fast_simplemap.go:224-232 | A key with the null length sets the empty value |
| `HeaderBlocks.EncodeIsBlock` | sofabolt/simplemap/fastsimplemap/fast_simplemap.go:146-170 | What Encode writes is such a concatenation, of the pairs that Range visits |
| `HeaderBlocks.PairsInOrder` | sofabolt/simplemap/fastsimplemap/fast_simplemap.go:146-170 | Dedicated keys with a value come first, in the order service, host, content-type, authorization, once each; the others follow in their order |
| `SimpleMap.FastSimpleMap.Get` | sofabolt/simplemap/fastsimplemap/fast_simplemap.go:344-363 | The plain map's value, with absent as empty, shared slots or not |
| `SimpleMap.FastSimpleMap.Set` | sofabolt/simplemap/fastsimplemap/fast_simplemap.go:250-284 | The plain map's set, when slots are separate, and they stay so; in any case an appended pair takes the storage of the next slot where that is large enough |
| `SimpleMap.FastSimpleMap.Del` | sofabolt/simplemap/fastsimplemap/fast_simplemap.go:321-342 | The plain map's del, shared slots or not; separate slots stay separate exactly when the key was dedicated, absent or in the last slot |
| `SimpleMap.FastSimpleMap.Reset` | sofabolt/simplemap/fastsimplemap/fast_simplemap.go:91-97 | The map is empty and keeps its slots, shared ones included |
| `SimpleMap.FastSimpleMap.CopyTo` | sofabolt/simplemap/fastsimplemap/fast_simplemap.go:125-144 | The copy has equal contents when the target's slots are separate, which they stay; those of the source may be shared, and the source is unchanged |
| `SimpleMap.FastSimpleMap.GetEncodeSize` | sofabolt/simplemap/fastsimplemap/fast_simplemap.go:99-123 | The plain map's encoded size, shared slots or not |
| `SimpleMap.FastSimpleMap.Range` | sofabolt/simplemap/fastsimplemap/fast_simplemap.go:299-319 | The pairs in the order in which they are encoded, shared slots or not |
| `SimpleMap.FastSimpleMap.Encode` | sofabolt/simplemap/fastsimplemap/fast_simplemap.go:146-170 | Writes exactly the plain map's encoding, in bounds, and returns its size, shared slots or not |
| `SimpleMap.FastSimpleMap.Decode` | sofabolt/simplemap/fastsimplemap/fast_simplemap.go:202-248 | Fails exactly as the plain decode of the bytes does; when slots were separate, gives the plain map, over recycled storage |
| `SimpleMap.FastSimpleMap.DecodeRound` | sofabolt/simplemap/fastsimplemap/fast_simplemap.go:210-244 | One round: the remaining length falls by at least eight and is the bytes remaining; when slots are separate, what is left to decode gives the same map as before |
| `SimpleMap.PlainKeepsLast` | sofabolt/simplemap/fastsimplemap/fast_simplemap.go:321-342 | On a plain map, deleting one key and setting a fresh one leaves the last pair |
| `SimpleMap.DelShares` | sofabolt/simplemap/fastsimplemap/fast_simplemap.go:330-341 | After a pair other than the last is deleted, the freed slot and the last live slot are one, and the map is the plain one |
| `SimpleMap.SetAfterDelDiffers` | sofabolt/simplemap/fastsimplemap/fast_simplemap.go:263-284 | Setting a fresh key of the last one's length then overwrites that one: the map is not what the plain map is, and has the fresh key twice |
| `SimpleMap.RecycledDiffers` | sofabolt/simplemap/fastsimplemap/fast_simplemap.go:202-248 | A decode into a map recycled with two shared slots gives the second pair twice, which is not the plain decode |
| `SimpleMap.SieveIsDel` | sofabolt/simplemap/fastsimplemap/fast_simplemap.go:330-341 | The loop of del, which goes on after a removal, is the plain removal when keys are distinct |
| `SimpleMap.ShiftedSlots` | sofabolt/simplemap/fastsimplemap/fast_simplemap.go:330-341 | What in-place removal does to the slots up to capacity |
| `SimpleMap.Buffer.Uint32String` | sofabolt/simplemap/buffer/buffer.go:89-106 | Takes a length-prefixed string or fails without reading past the end |
| `SimpleMap.Buffer.MustPutUint32String` | sofabolt/simplemap/buffer/buffer.go:188-191 | Puts a length and a string at the cursor and touches nothing else |
| `Frames.RoundTrip` | sofabolt/command.go:418-694 | Whatever command of protocol 0, 1, 2 or 13 and, for BOLT, of type 0, 1 or 2, with lengths in range, is written is read back on the fields its format carries, consuming exactly its own frame |
| `Frames.StreamRoundTrip` | sofabolt/client.go:273-295 | Any sequence of commands, all five formats mixed, comes back from the concatenation of their frames |
| `Frames.Normalises` | sofabolt/command.go:432-1094 | For every byte string a reader accepts, write then read gives an equal command and a second write the same bytes |
| `Frames.CountIsExact` | sofabolt/command.go:840-850 | Bytes consumed are the returned count, plus 65536 when the 16-bit sum of class and header lengths wraps, plus 4 for a checksum |
| `Frames.StreamCountsExact` | sofabolt/client.go:276-280 | Counts summed over a stream equal its length exactly when no frame wraps and none has a checksum |
| `Frames.CountsFallShort` | sofabolt/command.go:840-850 | A V2 frame with its switch on is 4 bytes longer than its count; one with a class of 65535 bytes and one header is 65536 longer |
| `Frames.WrittenCount` | sofabolt/command.go:471-694 | How much longer than its returned count the frame of any command in range is |
| `Frames.ReadAccepted` | sofabolt/command.go:667-1094 | Whatever a reader accepts has lengths that can be written again |
| `Frames.RoundTripTBRemoting` | sofabolt/command.go:432-469 | TBRemoting commands come back, count and rest included |
| `Frames.RoundTripBolt` | sofabolt/command.go:471-664 | BOLT commands come back; V1 ver2 comes back as the top byte of the request id |
| `Wire.WritesExactly` | sofabolt/command.go:418-694 | For every command: it is written exactly when its protocol is 13, or 0 to 2 with a type of 0 to 2, and refused as malformed type or protocol otherwise; every field is at its literal place, big-endian, lengths cut to their prefixes, and a checksum of all before it follows exactly for V2 with a switch |
| `Wire.AcceptsExactly` | sofabolt/command.go:667-1094 | For all bytes: which are accepted, and which are refused for their protocol, their type or their header block, by literal places; anything else ends too early |
| `Wire.ReadsBolt` | sofabolt/command.go:763-1094 | The fields of an accepted BOLT frame from their literal places, its headers from its block, the returned count and the bytes left |
| `Wire.ReadsRemoting` | sofabolt/command.go:696-761 | The same for TBRemoting, and when one ends too early |
| `Echo.EchoesExactly` | sofabolt/fuzz.go:32-45 | Writing what was read gives back the bytes exactly when nothing follows the frame, V1 frames agree in the two places of ver2, the reserved byte is zero, the header block is in normal order, and the checksum is right |
| `Echo.EchoFails` | sofabolt/fuzz.go:43-45 | A V1 frame that the fuzz target accepts and that is not written back |
| `Echo.HeaderEchoes` | sofabolt/simplemap/fastsimplemap/fast_simplemap.go:146-248 | A header block is written back as it was exactly when its dedicated keys come first, in order and with values, no key repeats and no value has the null length |
| `Echo.ReencodedPairs` | sofabolt/simplemap/fastsimplemap/fast_simplemap.go:202-248 | The parsed pairs encode to the parsed bytes exactly when no value has the null length |
| `Command.Command.Reset` | sofabolt/command.go:204-224 | Every field is zero or empty, whatever the recycled command held; the header slots are kept as they were |
| `Command.Command.CopyTo` | sofabolt/command.go:283-302 | Everything is copied but the connection and the reserved byte; for the headers, when the slots of the target are separate |
| `Command.Command.Write` | sofabolt/command.go:418-430 | The bytes of the layout for the command, or the error for its protocol or type; stale bytes of the output buffer never show |
| `Command.Command.WriteTBRemoting` | sofabolt/command.go:432-469 | The TBRemoting layout |
| `Command.Command.WriteBolt` | sofabolt/command.go:471-664 | The four BOLT layouts, with a checksum exactly when a V2 switch is on |
| `Command.Command.Read` | sofabolt/command.go:667-694 | The same command up to its headers, count, remaining input and error as the layout's reader; the same headers too when their slots are separate with distinct keys |
| `Command.Command.ReadCommandTBRemoting` | sofabolt/command.go:696-761 | The TBRemoting reader |
| `Command.Command.ReadCommandV1` | sofabolt/command.go:763-787 | The V1 reader by type |
| `Command.Command.ReadCommandV2` | sofabolt/command.go:919-942 | The V2 reader by type |
| `Command.Command.ReadBody` | sofabolt/command.go:822-850 | Class, header block, content and checksum; the headers as in Read |
| `Command.ReadNext` | sofabolt/client.go:275-278 | One round of the read loop: count, error, remaining input and all of the command but its headers are independent of what the recycled command held; the headers are so when its slots were separate |
| `Command.ReadLoop` | sofabolt/client.go:273-295 | The sum of counts, the final error and the commands of a whole stream; their headers when the slots were separate at the start |
| `Pools.Client.Close` | sofabolt/client.go:154-159 | Only the first call reaches the connection |
| `Pools.Pool.Get` | sofabolt/pool.go:97-114 | Empty pools answer none; otherwise the next slot, in range whatever was deleted before |
| `Pools.Pool.DeleteLocked` | sofabolt/pool.go:60-68 | The first occurrence goes, the rest keeps its order |
| `Pools.Pool.DeleteClients` | sofabolt/pool.go:82-89 | Each listed client goes once |
| `Pools.Pool.Push` | sofabolt/pool.go:91-95 | The client is last |
| `Pools.FullTurn` | sofabolt/pool.go:97-114 | n Gets on an unchanged pool of n return every slot exactly once |
| `Pools.RowIsStretch` | sofabolt/pool.go:103-110 | Any row of at most n Gets is a stretch of the list, wrapped round |
| `Pools.WithoutAt` | sofabolt/pool.go:60-68 | Removal at the first occurrence, by splicing |
| `Pools.WithoutCounts` | sofabolt/pool.go:60-68 | Exactly one occurrence goes |
| `Pools.WithoutAllCounts` | sofabolt/pool.go:82-89 | Exactly the listed occurrences go |
| `KeepAlive.KeepAliver.Put` | sofabolt/keepaliver.go:199-225 | As an object, one call at a time: true exactly when the client is under the use limit, or there is none or no other client, and the pool has room or the put is forced; what the pool holds then |
| `PutTheorems.PushedExactlyOnce` | sofabolt/keepaliver.go:199-225 | With any number of puts at once over the stepwise PoolMap, beside lookups, gets and deletions: a put that answered true has pushed its client exactly once into the pool that PoolMap has for the address; its only other push is into its own pool, which no address then has |
| `PutTheorems.PoolIsPermanent` | sofabolt/keepaliver.go:207-211 | The pool a finished put found is the one PoolMap has for its address at every later moment |
| `PutTheorems.OnePool` | sofabolt/keepaliver.go:207-211 | All puts for an address find one pool, and at most one of them finds its own |
| `PutTheorems.ClientsConserved` | sofabolt/keepaliver.go:199-225 | At every moment of every run, a pool holds exactly what was pushed into it and not deleted from it |
| `PutTheorems.LoadOrStoreFinds` | sofabolt/pool_generated.go:215-248 | A finished LoadOrStore of a put returned what PoolMap has now, its own pool exactly when loaded is false |
| `PutAnswers.PutAnswersFor` | sofabolt/keepaliver.go:212-225 | Every finished put says no because the pool it found had another client when it looked and then its own had reached the use limit; or else it says whether the pool had room when it looked for that, or was forced |
| `PutTheorems.PutGoesOn` | sofabolt/keepaliver.go:199-225 | A put is held up only by its LoadOrStore |
| `KeepAlive.KeepAliver.Get` | sofabolt/keepaliver.go:234-259 | Without a use limit the next slot and nothing else; with one, clients that have reached it leave the pool, into dying or closed by their references, all others are left alone, and the one returned has not reached it unless all have |
| `KeepAlive.ChooseIsSound` | sofabolt/keepaliver.go:242-256 | The last client is never retired, only clients over the limit are, and the retired and the remaining make up the pool |
| `KeepAlive.ChooseIsUnder` | sofabolt/keepaliver.go:248-250 | The client returned is under the use limit unless none is; then it is the only one left |
| `KeepAlive.LoopIsChoose` | sofabolt/keepaliver.go:242-256 | What the loop leaves in the pool, in dying and closed, in terms of the clients retired |
| `KeepAlive.LoopRetiresOver` | sofabolt/keepaliver.go:242-256 | What left the pool was over the limit and is in dying at its first check or closed; whatever did not is as it was |
| `KeepAlive.StoredIs` | sofabolt/keepaliver.go:286-295 | Every retired client with references is in dying at its first check; nothing else in dying changes |
| `KeepAlive.KeepAliver.Del` | sofabolt/keepaliver.go:268-277 | The client leaves its pool once |
| `KeepAlive.KeepAliver.GracefullyClose` | sofabolt/keepaliver.go:279-296 | In dying when it has references, closed otherwise |
| `KeepAlive.KeepAliver.Sweep` | sofabolt/keepaliver.go:99-127 | Every dying client makes its one step; the others are left alone |
| `KeepAlive.ClosedExactlyWhen` | sofabolt/keepaliver.go:99-127 | A dying client is closed exactly when a sweep saw no references, a sweep came at its limit, or someone called Close; and Close took effect once |
| `KeepAlive.ClosedInTime` | sofabolt/keepaliver.go:110-124 | Since it was last retired a client survives fewer than max(1, CleanupMaxChecks) sweeps |
| `KeepAlive.KeepAliver.CheckPool` | sofabolt/keepaliver.go:144-170 | Clients whose heartbeat failed leave the pool and are closed; no other is |
| `KeepAlive.HeartbeatLeavesSound` | sofabolt/keepaliver.go:148-163 | What a heartbeat leaves are the clients that answered, in order |
| `KeepAlive.BrokenAre` | sofabolt/keepaliver.go:148-163 | The clients gathered by a heartbeat are exactly those whose own failed |
| `KeepAlive.KeepAliver.constructor` | sofabolt/keepaliver.go:63-85 | Zero checks mean fifteen |
| `Status.NoticesAreExactly` | sofabolt/clinetconn.go:99-333 | The notifications any run can give are exactly the paths from Idle over ten edges on which the first dial is not followed by Shutdown |
| `Status.ShutdownIsLast` | sofabolt/clinetconn.go:197-268 | Nothing follows Shutdown |
| `Status.RunAgrees` | sofabolt/clinetconn.go:197-268 | Where the connection is and its status agree in every run, and its log is allowed |
| `Status.AllowedIsPath` | sofabolt/clinetconn.go:143-152 | Each notification starts where the last one ended and none is a self-loop |
| `Status.AllowedHappens` | sofabolt/clinetconn.go:197-333 | Every allowed list of notifications is that of some run |
| `Status.StartsReading` | sofabolt/clinetconn.go:99-141 | Without a usable connection or a dialer there is no reader; a given connection is read; a first dial is read too, as a stand-in exactly when it failed |
| `Status.ReadsUntilFatal` | sofabolt/clinetconn.go:209-246 | Reading goes on through whatever is not fatal, and the last deadline set or passed decides its status; a deadline is fatal exactly on a stand-in |
| `Status.FatalEnds` | sofabolt/clinetconn.go:222-246 | The first fatal error leads to the transient failure and to the question whether to redial |
| `Status.RedialsExactly` | sofabolt/clinetconn.go:317-333 | A lost connection is redialled exactly when there is a dialer and it was not closed; otherwise it is shut down |
| `Status.DialsUntilDecided` | sofabolt/clinetconn.go:288-315 | Failed attempts are repeated and change nothing |
| `Status.DecisionCounts` | sofabolt/clinetconn.go:246-268 | A new connection is read, as no stand-in; one that cannot be wrapped, or a close, shuts down |
| `Status.ClientConn.OnStatusChange` | sofabolt/clinetconn.go:143-152 | A notification exactly when the status changes |
| `Status.ClientConn.DoRead` | sofabolt/clinetconn.go:197-268 | The loops and jumps of doread do what the machine does, for all events |
| `Status.ClientConn.ReadLoop` | sofabolt/clinetconn.go:222-246 | Deadline errors are survived, except on a stand-in connection |
| `Status.ClientConn.MayRedial` | sofabolt/clinetconn.go:317-333 | No redial without a dialer or when closed |
| `Status.ClientConn.Redial` | sofabolt/clinetconn.go:288-315 | Dials until it succeeds or the connection is closed |

## Left out

- PoolMapTheorems.NoDeadlock: some step is always possible, and a call left alone finishes (FinishesAlone); that every call finishes among others needs a fair scheduler, which is not modelled.
- PoolMapObject.PoolMap.Load: this class and its methods have one caller at a time; interleavings are those of PoolMapMachine, whose state is a value with identities for map objects and entries instead of a heap.
- PendingTheorems.SendNeverBlocks: Client, ClientConnBOLT and the contexts are values in a step machine rather than objects, because every step may interleave with every other; the reader delivers through any number of goroutines, which includes the one of the source.
- PendingTheorems.OutcomeAgrees: that every request completes is not claimed and is false of the code: one registered after the cleanup and before Close, without a timeout, may wait for ever.
- PendingTheorems.AnswerIsOwn: holds with automatic request ids; the option that disables them is not part of this model.
- PendingTheorems.CompletedAtMostOnce: user callbacks that call back into the client while its lock is held are not modelled.
- PendingTheorems.IdsNeverReused: the 64-bit counter itself is taken not to wrap.
- SimpleMap.FastSimpleMap.Set: what it does to the other pairs when slots share storage is stated for the runs of SetAfterDelDiffers and RecycledDiffers, not in general.
- SimpleMap.FastSimpleMap.Decode: into shared slots, only its error and the input it leaves alone are stated; the same goes for the headers in Command.Read.
- SimpleMap.FastSimpleMap.CopyTo: when slots of the target share storage, the target is only known to be usable.
- SimpleMap.FastSimpleMap.Get: the strings it returns are values, not views of live storage; so are the four dedicated fields, each of which has storage of its own.
- Command.Command.Read: AllocToAtLeast of the readhelper package is not part of this model; it is taken to give a buffer of the asked size with arbitrary contents, and a read to fill it or fail.
- Command.Command.CopyTo: ShallowCopyTo, which shares slices and keeps the target's headers, is not modelled; nor are a source and a target with storage in common.
- Command.ReadLoop: reading after a deadline inside a frame, which resumes in the middle of it, is not modelled.
- Frames.RoundTrip: lengths that their prefixes cannot hold are truncated by the writers, so the round trip is for lengths in range.
- KeepAlive.KeepAliver.Get: no other goroutine touches the pool during the call, and PoolMap is the plain map it was proved to be.
- KeepAlive.KeepAliver.Put: this method has one caller at a time; the interleavings are those of PutMachine, where nothing but put changes PoolMap, as in the source, and a client's use only grows.
- KeepAlive.KeepAliver.CheckPool: which heartbeats fail is a parameter, and their effect on the counters is not modelled; that doHeartbeat walks the raw pools twice and the TLS pools never is not part of this model.
- Status.NoticesAreExactly: outside callers of OnStatusChange, and the asynchronous dispatch of commands, are not modelled.
- The size reported by Command.Size, which disagrees with the V1 and TBRemoting writers, and the printers, JSON and HTTP pages.
- The hessian encoding of connection objects in request.go and response.go: the connection is opaque bytes.
- The server, its response writer and its handlers.
- Sockets, deadlines, backoff, buffered and asynchronous connections, and byte pools.
