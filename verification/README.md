# The toxic pipeline, verified

A proxy link carries data from a source to a sink through a chain of *stubs*, each run by a goroutine
that executes the `Pipe` of a *toxic*. While data flows, toxics are added, updated and removed: a stub
is interrupted, what it holds is flushed, `Output` fields are rewired and goroutines are started again.
This project models that pipeline and proves what it is for: that reconfiguring a link loses, repeats
and reorders nothing, whatever the interleaving.

Run `dafny verify dfyconfig.toml` to check everything.

## How it is laid out

| file | contents |
|---|---|
| `Streams.dfy` | bytes, chunks, and the order-preserving merge that losses are accounted with |
| `LinkState.dfy` | the link as a transition system: 22 kinds of step, among them `Panics`, the steps at which Go would panic |
| `LinkInvariant.dfy` | who may run, read and write which stub and channel; kept by every step |
| `LinkFlow.dfy`, `LinkEffect.dfy`, `LinkSteps.dfy` | the line of data through a link, and the four things a step can do to it |
| `LinkLossless.dfy`, `LinkClose.dfy`, `LinkAlign.dfy`, `LinkLimits.dfy` | invariants: loss accounting, end of stream, stubs against chain, chunk sizes and kinds of toxic |
| `LinkRemoval.dfy` | the handoff of `RemoveToxic`: enabledness and a ranking |
| `LinkTheorems.dfy` | the results over all runs |
| `LinkProgress.dfy` | data and the end of the stream are never stuck |
| `LinkWork.dfy` | a measure that every productive step takes down: links come to rest |
| `LinkDeadlock.dfy`, `LinkStrand.dfy` | operations that are stuck: the states, that they last for ever, and runs that reach them |
| `LinkReturn.dfy`, `LinkSchedule.dfy` | when operations return, and what they make of a schedule of steps |
| `LinkPieces.dfy` | what each toxic puts on the wire: slices, 100 ms pieces |
| `LinkDrops.dfy` | which toxics can drop a chunk |
| `LinkPanic.dfy` | runs that reach the one possible panic |
| `Link.dfy` | `ToxicStub` and `ToxicLink` as classes whose fields are changed in place, each step tied to a transition |
| `Collection.dfy` | `ToxicWrapper` and `ToxicCollection` as classes: the chains, their fan-out to links, and what each link owes to its chain |
| `IoChan.dfy` | `ChanWriter` and `ChanReader` as classes, and what sequences of reads and writes do |
| `EndToEnd.dfy` | a link and its `ChanReader` together: from the source's writes to the blocks that the destination gets |
| `Timing.dfy`, `Rand.dfy`, `Bandwidth.dfy`, `Latency.dfy` | the pacing accumulator and the delay, in integer nanoseconds |
| `Slicer.dfy` | the random partition and its emission loop |

A *run* (`LinkState.IsRun`) starts with `NewToxicLink` and `Start` on any chain and takes any steps of any
goroutine in any order: the source's writes and close, each stub's `Run` and `Pipe`, the sink, and the
steps of `AddToxic`, `UpdateToxic` and `RemoveToxic` with its helper goroutine. Timers, `rand` and the
choice among ready `select` cases are the choice of the next step. Channels have a capacity, a queue and
a closed flag; with capacity 0 a send is a rendezvous. Node 0 is the goroutine that copies the source
into the link and node i + 1 is `link.stubs[i]`.

A step is *productive* (`LinkProgress.Productive`) unless it is the source's, begins an operation, or is
a turn of the endless loop in which a bandwidth of rate 0 sends empty pieces. An operation is *stranded*
(`LinkDeadlock.Stranded`) when its stub, and every later one up to a stub that never receives again, waits
in a send that nobody takes.

The methods of `Link.ToxicLink` and `Collection.ToxicCollection` are given a *schedule*: the steps of all
goroutines that are on offer, one after the other, while the method runs. Each is taken if it is possible
when its turn comes (`LinkSchedule.Follow`), and the method returns when its operation has ended or the
schedule is used up.

## Where the code and its comments differ

* `AddToxic` (link.go:171) indexes the chain by the number of stubs. `RemoveToxic` leaves a closed stub in
  the link (link.go:201, 228-233), so that with two such stubs and an open last one the index is out of
  range. `PanicsOnlyOnShortChain` says exactly when, `ShortChainIsReachable` gives a run.
* `InterruptToxic` (toxics/toxic.go:110-118) is taken to return, but a stub that waits in its send can
  neither be interrupted nor finish when a stub behind it never receives again: a reset_peer that has
  received something (toxics/reset_peer.go:21-34), or a bandwidth of rate 0 that has received data
  (toxics/bandwidth.go:41-49). Operations can always return if and only if a link has neither
  (`AlwaysReturnsIff`); `StuckIsReachable` gives runs, `StuckForEver` says that they never end.
* `ChanReader.Read` (stream/io_chan.go:67) compares the size of `out` with what is left *after* the copy,
  and then overwrites that rest. `ReadKeepsBytesIff` says exactly when a read loses bytes. The
  pipeline avoids it by reading and writing with one buffer size (`OneChunkPerRead`).
* "+/- bytes to vary" (toxics/slicer.go:15) bounds the pieces of every sliced packet exactly when
  A - V <= 1 (`AdvertisedIff`), where A is the average size and V the variation. What holds for all
  settings is floor((A - V + 1) / 2), and no greater bound does (`LeastIsTight`).
* With `Rate` 0 the splitting loop of bandwidth never ends (`SplittingEndsIff`), and with a negative one it
  slices out of range (`Bandwidth.Pipe`).
* The timestamp that latency writes is the time of departure only for a chunk that did not queue
  (`StampIsDepartureIff`).
* `AddToxic` of the collection names a toxic and sets its toxicity even when it then refuses it
  (toxic_collection.go:87-96).

## Model

| member | source | states |
|---|---|---|
| `LinkTheorems.Lossless` | link.go:156-263 | In every state of every run without loss, the bytes delivered followed by those in flight, read from the output end to the input end, are exactly the bytes written. |
| `LinkTheorems.LosslessWithoutReset` | link.go:187-263 | The same with the conditions on the run instead of the state: no reset_peer toxic and no timeout; and at the end of the stream everything has been delivered. |
| `LinkTheorems.AllAccountedFor` | toxics/toxic.go:94-106 | With timeouts and reset_peer, what was written falls into pieces, each of them whole a chunk delivered or in flight, in order, or one chunk of the two loss logs; every chunk of the logs is one of them, and nothing else is missing. |
| `LinkTheorems.DeliveredIsPrefix` | toxics/reset_peer.go:21-34 | Without timeouts the delivered bytes are always a prefix of the written ones, even when reset_peer discards. |
| `LinkTheorems.ClosedOnlyBehindClosed` | toxics/toxic.go:129-134 | A closed stub has only closed stubs before it and only closed, drained channels, back to the source, unless reset_peer has discarded. |
| `LinkTheorems.EndOfStream` | link.go:227-250 | When the sink sees the end of the stream nothing is in flight, and what was written is an order-preserving merge of what was delivered with the chunks in the log of timeouts, each once. |
| `LinkTheorems.ChunksKept` | toxics/noop.go:6-19 | While neither bandwidth nor slicer has handled data, the chunks delivered and in flight are the chunks written, one by one. |
| `LinkTheorems.DatagramsSurvive` | link.go:113-137 | No delivered chunk is longer than a source read; with only noop and latency the delivered chunks are the written ones. |
| `LinkTheorems.OneSenderOneReceiver` | toxics/toxic.go:81-90 | Two live stubs never share an output or an input channel. |
| `LinkTheorems.SinkReadsAlone` | link.go:137 | No live stub receives from the channel that the sink reads, or from the one that it sends on. |
| `LinkTheorems.DrainedByOne` | link.go:221-256 | While RemoveToxic drains a stub's input no other goroutine receives from that channel. |
| `LinkTheorems.LiveEditIsRebuild` | link.go:50-65 | After any sequence of operations with data flowing, a link with no closed stub has the toxics, wiring and channel capacities of a link built from the current chain. |
| `LinkTheorems.ResetLink` | link.go:258-261 | Once only the noop is left, an open link is one noop stub between its original channels. |
| `LinkTheorems.IndexInRange` | link.go:180-201 | Every toxic of the chain has a stub at its index, and one before it, on closing links too. |
| `LinkTheorems.PanicsOnlyOnShortChain` | link.go:163-176 | In every run with bandwidth rates of 0 or more, no send or close hits a closed channel, no second Pipe starts on a stub and no index is out of range, except that AddToxic panics exactly when two or more stubs have outlived their toxics. |
| `LinkTheorems.GoodAlongRun` | link.go:156-263 | The whole invariant (ownership, wiring, accounts, closing order, alignment) holds in every state of every run. |
| `LinkPanic.ShortChainIsReachable` | link.go:171 | A concrete run of the link reaches that panic. |
| `LinkInvariant.InvKept` | toxics/toxic.go:81-134 | Every step of every goroutine keeps: one goroutine at most per stub, a channel closed exactly when its sender has finished Close, the handshake's protocol states. |
| `LinkInvariant.InvAtStart` | link.go:52-67 | A new link satisfies that invariant. |
| `LinkInvariant.PanicsExactlyWhen` | toxics/toxic.go:110-134 | In any state of the invariant, which enabled steps panic. |
| `LinkSteps.StepEffect` | toxics/toxic.go:92-118 | Every step leaves the line of data as it is, appends the written chunk, recuts a stretch of it into the same bytes, or takes out one chunk and logs it. |
| `LinkSteps.TimeoutEffect` | toxics/toxic.go:100-105 | A send that times out takes the chunk it offered out of the line of data, puts it into the log, and leaves everything else where it was. |
| `LinkSteps.ReceivedHeld` | toxics/noop.go:8-16 | What each Pipe holds after it has received a chunk: the same bytes, recut only by slicer, or nothing in reset_peer. |
| `LinkEffect.HeldKept` | toxics/toxic.go:110-118 | Neither an interrupt nor a timer changes the bytes that a Pipe holds, or their order. |
| `LinkSteps.NilLine` | toxics/toxic.go:129-134 | Receiving the end of the stream, and closing behind it, takes nothing from the line. |
| `LinkSteps.ConnectLine` | link.go:163-171 | Rewiring the last stub to a new one moves no data, whatever is queued in its output. |
| `LinkSteps.FinishLine` | link.go:258-261 | Unlinking the drained stub and handing its output to the previous one moves no data. |
| `LinkAlign.AlignedKept` | link.go:156-263 | Every step keeps each stub at the place of its toxic in the chain, with an input of the right capacity, through the middle of every operation. |
| `LinkLimits.WithinKept` | stream/io_chan.go:26-31 | Every step keeps what a stub holds, and every chunk, within the size of a source read. |
| `LinkRemoval.NeverStuck` | link.go:213-250 | Past the interruption of the removed stub, some step of the helper, the previous stub or the drain loops is enabled and does not panic, until the handoff ends. |
| `LinkRemoval.HandoffRanked` | link.go:215-250 | After the previous stub has given in, each step of the handoff takes a ranking down and no other step of the link takes it up. |
| `LinkRemoval.HandoffBounded` | link.go:213-261 | Over a whole path, the handoff takes at most that rank more steps of its own. |
| `LinkRemoval.NothingLeftBehind` | link.go:236-261 | In every run, when RemoveToxic succeeds the channel it detaches is empty and open, nobody uses it any more, and its helper's result has been received. |
| `LinkRemoval.HelpersAllHeard` | link.go:214-233 | In every run, whenever no operation is under way, every helper ever started has had its result received, exactly once each. |
| `LinkProgress.DataNeverStuck` | toxics/toxic.go:92-118 | In every run, while data is in flight or some stub has closed, and the sink has not seen the end of the stream, some productive step can be taken, in the middle of every operation too, unless a bandwidth of rate 0 holds data. There is one that does not panic, exactly unless AddToxic is about to index a chain that is too short and nothing else can be done. |
| `LinkPanic.OnlyCrashIsReachable` | link.go:171 | A concrete run in which that panic is the only step left. |
| `LinkWork.ProductiveDrops` | toxics/toxic.go:81-134 | Every productive step of anybody brings the operation forward, or leaves it where it is and the link with less to do, in a measure over all channels and stubs. |
| `LinkWork.ComesToRest` | toxics/bandwidth.go:41-49 | So no link can take productive steps for ever, whatever the schedule: in every infinite run the others come up again and again. |
| `LinkDeadlock.StuckOnlyIfStranded` | toxics/toxic.go:110-118 | In every run, an operation under way is stranded or an AddToxic about to panic whenever no productive step can be taken without a panic. |
| `LinkDeadlock.StuckForEver` | toxics/toxic.go:92-118 | A stranded operation is stranded at the same place in every later state of every run. |
| `LinkDeadlock.OperationNeverStuck` | link.go:156-263 | As long as no reset_peer has discarded data and no bandwidth of rate 0 holds any, no operation is stranded, and while one is under way some productive step can be taken without a panic, exactly unless it is an AddToxic about to panic and nothing else can be done. |
| `LinkStrand.StuckIsReachable` | toxics/reset_peer.go:21-34 | For reset_peer, and for bandwidth of rate 0 and any data, a run in which UpdateToxic of the toxic before it is stranded and nothing productive can be done. |
| `LinkStrand.StuckRun` | toxics/bandwidth.go:41-49 | It is stranded although the sink has not seen the end of the stream and, with bandwidth, nothing has been discarded. |
| `LinkReturn.AlwaysReturnsIff` | link.go:156-263 | For any set of toxics and read size: in every state of every run the operation under way has a continuation in which it returns, or is an AddToxic about to panic, if and only if the set has no reset_peer, and no bandwidth of rate 0 unless reads have size 0. |
| `LinkReturn.AtRestIsOver` | link.go:187-263 | With such a set, when no productive step can be taken without a panic every operation has returned, or is an AddToxic about to panic, whatever the schedule was. |
| `LinkReturn.ReturnsOrStrands` | toxics/toxic.go:110-118 | With any toxics, in every state of every run the operation can still return, or panic, or can still come to be stranded: there is no other way to be busy for ever. |
| `LinkReturn.StuckNeverReturns` | toxics/toxic.go:110-118 | No continuation of a run lets a stranded operation return or panic. |
| `LinkSchedule.FollowToReturn` | link.go:180-184 | If the schedule is a path of the link on which the operation returns at the very end, the operation takes all of it and returns there. |
| `LinkSchedule.FollowOneMore` | link.go:187-263 | One more step on offer changes the outcome exactly if the operation still waits and the step is possible. |
| `LinkSchedule.TrafficPath` | link.go:113-137 | A schedule of traffic that is a path of the link is taken as a whole. |
| `LinkSchedule.CompletesIff` | link.go:156-263 | For any set of toxics and read size: in every run every operation under way has a schedule with which it returns or crashes, if and only if no toxic of the set stops receiving for good. |
| `LinkSchedule.BegunCompletes` | toxic_collection.go:237-264 | With such a set, every operation that begins has a schedule with which it returns, or crashes as AddToxic does. |
| `LinkSchedule.StuckNeverCompletes` | toxics/toxic.go:110-118 | No schedule makes a stranded operation return or crash. |
| `LinkPieces.OffersPieces` | toxics/slicer.go:62-67 | In every run, a stub that is not on its way out puts at most A + V bytes into one chunk as a slicer, and at least floor((A - V + 1) / 2) into each slice that another one follows; as a bandwidth at most rate * 100 bytes, and exactly that many while there is more to follow. |
| `LinkPieces.ReceiverHandles` | toxics/latency.go:30-53 | In every run, what a stub does with a chunk that it receives: noop offers it on, latency and bandwidth hold it where they can be interrupted, reset_peer lets it go, and slicer cuts it into slices of allowed size, at least two exactly if it is longer than A + V. |
| `LinkPieces.PausesBehindPieces` | toxics/slicer.go:69-77 | In every run, a slicer can be interrupted behind every slice it has sent, and a bandwidth behind every piece but the last. |
| `LinkPieces.InterruptedLeaves` | toxics/slicer.go:69-75 | In every run, an interrupted stub that holds data offers all of it as one chunk and leaves. |
| `LinkPieces.EndCloses` | toxics/reset_peer.go:21-34 | In every run, at the end of its input a reset_peer still waits for its timer, and every other stub closes. |
| `LinkPieces.StartRuns` | toxics/toxic.go:81-90 | In every run, a stub that starts runs its own toxic or a noop, as drawn, and waits for its input. |
| `LinkDrops.NeverDropsIff` | toxics/bandwidth.go:50-58 | As long as nothing is removed, no run ever drops a chunk, if and only if there is no bandwidth. |
| `EndToEnd.BlocksAreWrites` | link.go:113-137 | However the reader at the end of the link reads, with one buffer size at both ends: its blocks are the chunks that the sink was sent, uncut and unjoined; with only noop and latency they are the source's writes, and all of them at the end of the stream. |
| `EndToEnd.BlocksAreBytes` | stream/io_chan.go:60-101 | Whatever toxics run, while nothing is lost the blocks, the reader's leftover and queue, and what is in flight are together the bytes that the source wrote. |
| `Link.ToxicLink.constructor` | link.go:34-110 | The construction loop yields the initial state of a run. |
| `Link.ToxicLink.MakeStubs` | link.go:54-64 | Stub i reads channel i and writes channel i + 1, whose capacity is the buffer size of the next toxic, or 0 at the end. |
| `Link.ToxicLink.Step` | toxics/toxic.go:81-134 | Taking a step on the fields in place is the transition of the model, and extends the run. |
| `Link.ToxicLink.Append` | link.go:157-160 | The new stub shares the last stub's output until it is connected. |
| `Link.ToxicLink.Disconnect` | link.go:258-261 | The removed stub leaves the list and the previous one takes over its output and is restarted. |
| `Link.ToxicLink.Flow` | link.go:113-137 | Traffic between operations takes exactly the steps of its schedule that are possible, and keeps the link in a run, idle, with its chain. |
| `Link.ToxicLink.Perform` | link.go:187-263 | An operation takes exactly the steps of its schedule that are possible, records them, and returns at the first of them that ends it; it crashes only in AddToxic on a link that is too long, and waits only when the schedule is used up. |
| `Link.ToxicLink.AddToxic` | link.go:156-177 | It follows its schedule. When it returns, the link has one stub more, is idle and, if open, equals the one built from the longer chain. It crashes only on a link that has kept two stubs more than its chain, and on such a link it returns only by way of a closed last stub. |
| `Link.ToxicLink.UpdateToxic` | link.go:180-184 | It follows its schedule. When it returns, an open link equals the one built from the updated chain; it never crashes. |
| `Link.ToxicLink.RemoveToxic` | link.go:187-263 | It follows its schedule. When it returns, an open link equals the one built from the shorter chain; it never crashes. |
| `Collection.ToxicCollection.constructor` | toxic_collection.go:30-45 | Both directions start with the shared noop alone. |
| `Collection.ToxicCollection.FindToxicByName` | toxic_collection.go:220-230 | Finds the toxic with the name, at its place, exactly when there is one. |
| `Collection.ToxicCollection.GetToxicArray` | toxic_collection.go:66-81 | All toxics of both directions in order, without the noop. |
| `Collection.ToxicCollection.AddToxic` | toxic_collection.go:83-100 | The toxic gets the name it has, or type, underscore, stream. It is refused exactly when that name is taken in either direction, leaving the chains alone; otherwise it is last in its direction, and the call is done exactly if every link of the direction, told of the toxic's own name, attributes and buffer size, returns, and crashes exactly if one of them does. |
| `Collection.ToxicCollection.PutInChain` | toxic_collection.go:233-235 | Appending keeps slot 0, directions, indices and unique names. |
| `Collection.ToxicCollection.UpdateToxic` | toxic_collection.go:139-165 | Changes the attributes of the named toxic alone, and is done exactly if every link of its direction, told of the new attributes, returns. |
| `Collection.ToxicCollection.RemoveToxic` | toxic_collection.go:167-189 | Takes exactly the named toxic out, in place, and gives it index -1; refused exactly when there is none; done exactly if every link of the direction, told of the index, returns. |
| `Collection.ToxicCollection.ChainRemoveToxic` | toxic_collection.go:268-304 | Removal keeps the order of the others and the whole chain invariant, and is done exactly if every link of the direction returns. |
| `Collection.TakeFrom` | toxic_collection.go:277-280 | The re-indexing loop restores index equal to position, renaming and reordering nothing. |
| `Collection.ToxicCollection.ResetToxics` | toxic_collection.go:47-57 | Terminates with the noop alone in both directions, and every link told. |
| `Collection.ToxicCollection.StartLink` | toxic_collection.go:191-211 | A new link is built from the chain of its direction: stub i has the name, attributes and buffer size of toxic i. |
| `Collection.ToxicCollection.RemoveLink` | toxic_collection.go:213-218 | Forgets that link alone. |
| `Collection.FanOut` | toxic_collection.go:237-248 | Every link of the direction sees the edit, every other link is as before, and the collection is done exactly when no link is still busy, which is when the operation returns on every link with its schedule; it crashes exactly when it crashes on one. |
| `Collection.ToxicCollection.OpenLinkIsRebuild` | link.go:50-65 | Whenever the collection is at rest, each link with no closed stub is the one NewToxicLink would build from the chain. |
| `Collection.ToxicCollection.OpenLinkCarries` | toxic_collection.go:237-264 | Whenever the collection is at rest, each link with no closed stub has, for each toxic of its direction, a stub with that toxic's own name, attributes and buffer size, behind a channel of that size. |
| `Collection.ToxicCollection.EveryIndexHasStub` | toxic_collection.go:277-294 | Whenever the collection is at rest, each toxic's Index has a stub in every link of its direction. |
| `Collection.ToxicCollection.ResetLeavesNoop` | link.go:258-261 | After ResetToxics an open link is one noop stub between the channels it was built with. |
| `IoChan.ChanWriter.Write` | stream/io_chan.go:26-31 | The whole buffer becomes one chunk, a copy, with the time of the write, behind those on the channel. |
| `IoChan.ChanWriter.Close` | stream/io_chan.go:34-37 | Closes the channel. |
| `IoChan.ChanReader.Read` | stream/io_chan.go:60-101 | What a read returns, leaves in the buffer and takes from the channel, on every branch; that the rest of `out` is untouched, and the chunks that stay keep their stamps. |
| `IoChan.ReadKeepsBytesIff` | stream/io_chan.go:66-82 | A read keeps every byte if and only if it is not one that overwrites a leftover. |
| `IoChan.ReadLoses` | stream/io_chan.go:67-82 | What such a read loses. |
| `IoChan.ReadReturns` | stream/io_chan.go:60-101 | Every read returns as much of its leftover and of the first chunk behind it as fits; it is interrupted, blocks or sees the end exactly if it has nothing in hand, and takes a chunk from the channel exactly if its leftover left it room for a second receive, or it had none. |
| `IoChan.EofMeansExhausted` | stream/io_chan.go:61-63 | End of stream is reported only when buffer and channel are exhausted. |
| `IoChan.RoundTrip` | stream/io_chan.go:60-101 | Over any sequence of writes and reads that fit, bytes returned, leftover and queued are the bytes written; interrupted reads lose nothing. |
| `IoChan.OneChunkPerRead` | link.go:113-137 | With one buffer size at both ends there is never a leftover and each successful read returns exactly one chunk. |
| `IoChan.ChanReader.CopyAll` | link.go:137 | However the writes fall between its reads, io.Copy writes the nonempty chunks one by one, and ends with the stream. |
| `Bandwidth.Pipe` | toxics/bandwidth.go:17-77 | For any packets, clock and interrupt: what is sent, flushed or dropped is what came in; B bytes for n packets after T ns satisfy B·10^6 <= R·(T + n) in the middle of a packet too; every piece goes out at its exact time; clock and carry add up to start, gaps, charges and what sends and 100 ms timers have cost, so that a late final timer is made up for and nothing else is; Pipe is never further behind than its timers and its output have cost. |
| `Bandwidth.SendPacket` | toxics/bandwidth.go:41-74 | One packet: full pieces every 100 ms, the rest when the remaining charge and the carry have been slept, the exact new carry, and a cut exactly when the interrupt comes before its last timer. |
| `Bandwidth.PieceKeeps` | toxics/bandwidth.go:41-49 | A turn of the splitting loop keeps what is still owed equal to what the rest would be charged. |
| `Bandwidth.RestServes` | toxics/bandwidth.go:60-65 | After the final timer the packet has been paid for, and the carry is its lateness and what was overpaid, and nothing else. |
| `Bandwidth.DueAfterPiece` | toxics/bandwidth.go:38-49 | Truncating division loses nothing across pieces: the sleep never goes negative. |
| `Bandwidth.SplittingEndsIff` | toxics/bandwidth.go:41-49 | The splitting loop ends if and only if the rate is positive or the packet empty. |
| `Slicer.OffsetsSlice` | toxics/slicer.go:31-49 | For every random choice chunk returns contiguous pairs from start to end, none longer than A + V, none shorter than floor((A - V + 1) / 2) if the whole exceeds A + V. |
| `Slicer.ProgressIffVariationBelowAverage` | toxics/slicer.go:36-46 | Both halves of every split are smaller than the whole, for every draw, exactly when V < A. |
| `Slicer.Pieces` | toxics/slicer.go:62-67 | The pieces of a packet are the packet, within the size bounds. |
| `Slicer.PieceCount` | toxics/slicer.go:31-49 | Bounds on the number of pieces on both sides. |
| `Slicer.AdvertisedIff` | toxics/slicer.go:15-17 | Every piece of every sliced packet is within A - V and A + V, for all draws, if and only if A - V <= 1. |
| `Slicer.LeastIsTight` | toxics/slicer.go:31-49 | A lower bound holds for every piece of every sliced packet and every draw if and only if it is at most floor((A - V + 1) / 2). |
| `Slicer.SmallestPiece` | toxics/slicer.go:40-44 | For all settings a packet and draws whose first piece is exactly that small. |
| `Slicer.OffsetReaches` | toxics/slicer.go:40-44 | Every offset in [-V, V) is reached by some draw. |
| `Slicer.Emit` | toxics/slicer.go:62-78 | Without an interrupt the pieces are sent one by one; with one, those up to it, and then exactly one more chunk with all the rest. |
| `Slicer.TailCompletes` | toxics/slicer.go:69-75 | The first pieces and the tail behind them are the packet, at every cut. |
| `Latency.Delay` | toxics/latency.go:19-28 | The delay is in [L - J, L + J) ms, and L ms without jitter. |
| `Latency.DelayReaches` | toxics/latency.go:23-27 | Every delay of whole ms in [L - J, L + J) is reached by some draw. |
| `Latency.Pipe` | toxics/latency.go:30-53 | Each chunk leaves at its delay behind its stamp or when it has been received, whichever is later; an interrupted one leaves at the time of the interrupt, if its timer has not fired before. |
| `Latency.LeavesWithinBounds` | toxics/latency.go:41-45 | Although chunks are delayed one at a time, chunk i leaves in [T + L - J, T + L + J), and at T + L when J is 0. |
| `Latency.InOrder` | toxics/latency.go:41-49 | Chunks leave in the order of their arrival, the interrupted one after all others, although each has a delay of its own. |
| `Latency.NeverEarly` | toxics/latency.go:41-45 | No chunk leaves before its stamp plus the least delay, whatever the clock and the output do. |
| `Latency.StampIsDepartureIff` | toxics/latency.go:44 | For a chunk received no earlier than its stamp, the rewritten stamp is the time of departure if and only if the chunk was received at the time of its stamp, the delay is not negative and the timer is on time. |

## Left out

- Sockets, metrics, the HTTP interface, the command line, JSON decoding, the toxic registry and proxy.go: not part of this model. The source and the sink of a link are the abstract steps of writing, closing and receiving.
- Goroutines as such: noop.go, reset_peer.go and the interplay of goroutines are steps of one transition system, and `Link.ToxicLink` takes them one at a time on its fields; there is no parallel execution.
- The toxicity lottery: `Run` may pick the toxic or the noop freely, and waiting times do not matter to a link. The timing results are about one `Pipe` with its own clock.
- Slicer settings outside the documented rule: `chunk` need not end then; `ProgressIffVariationBelowAverage` says when each split makes progress.
- A toxic's attributes do not change while its `Pipe` runs; an update takes effect when the stub is restarted.
- Stateful and cleanup toxics: the repository has none.
- Fairness: nothing says that a schedule goes on. An operation that has not returned when its schedule ends is `Waiting`; what is proved is when a schedule can go on until it returns, and that no schedule is busy with it for ever.
- The ranking starts when the previous stub accepts the interrupt or is closed: before that the code gives no bound.
- Alignment of stubs with the chain on links that have a closed stub, which the code does not keep.
- Additivity of chained latencies, which the code does not give.
- Overflow of 64-bit durations and sizes: integers are unbounded.
- The two halves of Close are one step when the controller closes a stub that has no goroutine, and when the source closes the link's input: nobody can look in between.
- Collection.ToxicCollection.AddToxic: the fan-out visits the links one after another; they share nothing, so any interleaving of their operations has the same result. When a link crashes or never returns the process or the lock is lost, and only the chains and the links' own invariants are promised.
- Collection.ToxicCollection.UpdateToxic: begins after the attributes have been decoded.
- LinkTheorems.PanicsOnlyOnShortChain: a link's bandwidth toxics have a rate of 0 or more. With a negative one the first timer of a packet panics; `Bandwidth.Pipe` says exactly when.
- IoChan.ChanReader.Read: a read that would block gives the result `Blocked` and leaves the reader as it is, and `wake` says whether the interrupt wins.
- Link.ToxicLink.UpdateToxic: the toxic keeps its name and buffer size, as the collection's updates do.
