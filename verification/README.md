# Callwire protocol verification

Callwire is an RPC system: messages are MessagePack maps, sent as length-prefixed frames over one
TCP connection, with unary calls, server streams, client streams and bidirectional streams. This
project models its protocol core in Dafny and proves what the pieces promise each other.

What is modelled, bottom up:

- **Bytes and frames.** The C framing code as loops over short sends and receives (`Framing`), the
  TypeScript reader driven by socket callbacks and promises (`BufferedReader`).
- **Codec.** The bundled MessagePack reader and writer and the message codec, twice: as functions
  (`Mpack`, `Message`) and as the imperative code that runs, a fixed buffer with an overflow flag
  (`Writer`) and a cursor with a sticky error flag (`Reader`), each method proved against the
  functions. The proofs about the functions are in `ValueRoundTrip`, `SkipValue`,
  `MessageRoundTrip` and, for single-precision numbers, `FloatWidening`. `Exchange` passes one
  message through all of it, from encoder to decoder.
- **C server.** The linked chunk queue (`StreamInput`), the table of queues (`InputTable`), both
  together in the heap (`InputQueues`, `InputRefinement`), the write lock (`WriteLock`), and the
  connection as a state machine over the steps of the read loop and the handler threads
  (`Server`). Its invariant is in `ServerInv`, kept by every step in `ServerSteps`; results over
  every run are in `ServerTheorems`, `Requests` (what becomes of each request), `PushSafety`,
  `PushRace`, `Ownership` and `Conservation`.
- **C client against C server.** The id-blind client, both directions of the wire and the server
  as one system (`System`, `SystemSteps`), with the end-to-end results in `SystemTheorems`,
  `ProgramResults`, `Begun` and `Uplink`, runs that complete in `Completion`, a reply that never comes in `LostReply`, client and
  handler waiting for each other in `MutualWait`, a message sent too late in `LateSend`, and the
  reason for the one side condition in `Mismatch`.
- **Rust client actor.** The pending-call table as a class run over arbitrary event sequences
  (`ActorLoop`), compared with what each call would see on its own (`ActorTheorems`).
- **Routing.** The service registry and the route cache (`RouteCache`) and the routed batch call
  (`RoutedBatch`).
- **Manifest.** Printer and line parser of `callwire.toml` (`Manifest`), what the parser reads in
  any text (`ManifestSections`) and the round trip (`ManifestRoundTrip`).

The connection state machine is connected to the imperative parts by their contracts: the byte
strings in it are `Encode` and `Frame`, which `Writer.EncodeWithGrowth` and `Framing.Socket` compute;
its received messages are `Decode`, which `Reader.DecodeMessage` computes; and `InputRefinement` runs
each operation of `InputQueues.Inputs` beside the machine's step: if the heap represents the
machine's queues before, it does after.

## Assumptions of the state machines

- A request id is used once per connection. This is a guard of the server machine; with the C
  client it is proved (`SystemTheorems.IdsAreNeverReused`).
- The read loop looks a queue up and pushes to it in two steps, and the machine stops where it
  would push to a queue that is gone. Statements about runs are about what happens up to there.
- The C client makes one call at a time and reads each call to its end, or to a read that fails,
  before the next; the system machine's first step of a call needs the previous one to be over. It
  may go on calling on a connection whose read has failed.
- The client's sending functions take any stream id. In the system machine they may be used for
  every id that an earlier call of the client was given, at any time, also when that call is over.
- Memory allocation and thread creation succeed. Ids stay below 2^64.
- A send of the server may fail at any byte. Statements that need every such send to have worked
  say so: the state's `broken` flag is false. A message of the client goes up whole or not at all.
- Once the read loop has ended no thread of its connection sends anything. In the code the detached
  threads still write to the closed descriptor's number (c/src/server.c:640), and if that number has
  been given to another connection meanwhile, they write there.

## Where code and promise differ

- The read loop can push to a queue that its call has removed and freed. `PushRace.RaceIffStreamInput`:
  such a run exists for a registry if and only if some frame can open a client-stream or bidi call
  on it. A handler that returns without draining its input is enough (`PushRace.EarlyReturnRaces`),
  and so is a peer that sends after its end mark (`PushRace.LateFrameRaces`); with neither it cannot
  happen (`PushSafety.FoundQueueIsThere`). To send nothing for a call after its end mark is a duty of
  the program that uses the C client, which does not enforce it: a program that keeps it is a peer
  that stops (`Uplink.ClientStops`, `Uplink.PushesAreSafe`), and one late message is enough for the
  race (`LateSend.LateSendRaces`).
- A handler's response that does not fit a 16 MiB frame is never sent, and no error is sent in its
  place. `ServerTheorems.FrameGrammar` has the exact condition: the terminal is on the wire if and
  only if the outcome fits, and only a response can fail to. `LostReply.OversizedReplyIsDropped` has
  the run, and `LostReply.WaitsUntilClosed` the consequence: the client waits until the server closes
  the connection, and then its read fails (`LostReply.FailsOnceClosed`).
- A call form that only reads is accepted on a client-stream function (`MutualWait.AcceptedPairs` has
  all accepted pairs of form and kind). No end mark is ever sent, and a handler that drains its input
  and the client wait for each other (`MutualWait.ReadingFormWaits`, `MutualWait.WaitForEachOther`).
- Removing an input by id removes one registration. A later lookup misses if and only if the id was
  registered at most once (`InputTable.RemovedIffSingle`).
- A single-read call form on a server-streaming function breaks the client's synchronisation:
  `Mismatch.SingleReadOnStreamDesyncs` constructs, for every registry, form, function and chunk
  value, a run in which the next call is answered with a frame of the previous one. Without such
  calls the client is always in step (`SystemTheorems.EveryFrameIsOurs`).
- The Rust actor's reader reports that a connection closed without saying which. After a failed write
  and a reconnection, the report of the old connection ends calls made on the new one
  (`ActorTheorems.StaleCloseEndsHealthyCall`); `ActorTheorems.ToldOfAnotherLoss` says exactly when a
  call is told of the loss of a connection it was not made on.
- The TypeScript reader has no frame limit. It returns the same frames as the C reader if and only if
  every frame is within the C limit (`BufferedReader.AgreesWithC`, `BufferedReader.OversizedFrame`).
- The manifest round trip holds if and only if no name or command contains a newline, every line is
  within the scanner's limit, and no line inside the project's name looks like a service header
  (`ManifestRoundTrip.RoundTrip`).

## Model

| member | source | states |
|---|---|---|
| Bytes.U32RoundTrip | c/src/framing.c:45-48 | a big-endian 32-bit length is read back as it was written |
| Bytes.BigEndian | c/src/framing.c:81-85 | the most significant byte of a length comes first |
| Bytes.ToUnsigned | c/src/codec.c:403-406 | the cast of a signed id back to 64 unsigned bits undoes the cast the encoder made |
| Framing.ParseFrame | c/src/framing.c:39-73 | the bytes of one frame followed by anything parse to that payload and leave exactly what followed |
| Framing.ParseAllFrames | c/src/framing.c:39-94 | any list of payloads up to 16 MiB is recovered exactly, whatever incomplete bytes follow, and those bytes are left over |
| Framing.FrameLimit | c/src/framing.c:45-53 | a complete frame is refused if and only if its payload is longer than 16 MiB |
| Framing.PartialFrame | c/src/framing.c:39-73 | a proper prefix of a frame is never taken for a frame |
| Framing.CompletedIsMaximal | c/src/framing.c:13-73 | the number of frames completed by k bytes is the largest whose frames fit in k bytes |
| Framing.CutAnywhere | c/src/framing.c:13-73 | a stream cut after any number of bytes yields exactly the frames completed by then |
| Framing.Socket.Recv | c/src/framing.c:15-20 | one receive moves any positive number of available bytes into place, and zero exactly at the end of the stream |
| Framing.Socket.Send | c/src/framing.c:28-33 | one send accepts a prefix, or fails and breaks the connection |
| Framing.Socket.RecvAll | c/src/framing.c:13-23 | under every schedule of short receives it succeeds exactly when enough bytes will come, and then the buffer holds precisely them |
| Framing.Socket.SendAll | c/src/framing.c:26-36 | under every schedule of short sends, success means all bytes went out in order and failure that a proper prefix did |
| Framing.Socket.ReadFrame | c/src/framing.c:39-73 | returns a payload exactly when the remaining input parses to it, and consumes exactly that frame |
| Framing.Socket.WriteFrame | c/src/framing.c:76-94 | an oversized payload changes nothing, success appends exactly the frame, failure appends a proper prefix of it |
| Framing.Socket.ReadAllFrames | c/src/server.c:589-594 | reading until the first failure returns exactly the frames of the remaining input |
| Framing.WriteAll | c/src/framing.c:76-94 | a list of payloads written one by one is the concatenation of their frames, or a proper prefix of it when a write fails |
| Framing.Transfer | c/src/framing.c:13-94 | a list is written to a socket, what the connection carries of the bytes sent is read from another, both under any schedule: the reader gets exactly the frames completed in what was carried, and the whole list if every write worked and nothing was cut |
| BufferedReader.CutEncoded | ts/src/framing.ts:64-69 | frames that were written are cut again in order, before whatever follows |
| BufferedReader.AgreesWithC | ts/src/framing.ts:64-69 | the TypeScript and C readers return the same frames if and only if every frame of the input is within the C limit |
| BufferedReader.OversizedFrame | ts/src/framing.ts:64-69 | one complete frame over the limit is returned by the TypeScript reader and refused by the C reader |
| BufferedReader.Reader.DrainWaiters | ts/src/framing.ts:37-45 | every parked promise is resolved and none is left |
| BufferedReader.Reader.OnData | ts/src/framing.ts:14-17 | the bytes are appended to the input, nothing is lost or reordered, and no reader that now has enough bytes stays parked |
| BufferedReader.Reader.OnClose | ts/src/framing.ts:19-34 | the close wakes every parked reader and touches neither bytes nor frames |
| BufferedReader.Reader.TakeHeader | ts/src/framing.ts:65-67 | taking a complete header keeps the input equal to the returned frames followed by what is pending; a zero length is an empty frame |
| BufferedReader.Reader.TakeBody | ts/src/framing.ts:56-58 | taking a complete payload keeps the input equal to the returned frames followed by what is pending |
| BufferedReader.Reader.Proceed | ts/src/framing.ts:47-59 | one resumption consumes bytes, or parks or throws having returned every complete frame; it throws only if the socket is closed |
| BufferedReader.Reader.Settle | ts/src/framing.ts:47-69 | left to itself the loop terminates with every complete frame returned, thrown if and only if the socket is closed |
| BufferedReader.Reader.Parked | ts/src/framing.ts:47-55 | no missed wake-up: a reader suspended on an unresolved promise has returned every complete frame and the socket is open |
| BufferedReader.Reader.Run | ts/src/framing.ts:8-69 | for every interleaving of data, close and resumption, the frames returned are the first frames of the concatenated input; a suspended reader has returned all of them, a thrown error means all that had arrived when it was thrown |
| ValueRoundTrip.IntBack | c/third_party/mpack_stub.h:243-258 | every 64-bit integer is read back from its encoding, leaving exactly what follows |
| ValueRoundTrip.UnsignedForms | c/third_party/mpack_stub.h:243-258 | every unsigned integer form is read as its number, also where the encoder would have chosen a shorter one; eight bytes wrap to signed |
| ValueRoundTrip.SignedForms | c/third_party/mpack_stub.h:243-258 | every signed integer form is read as its number from two's complement |
| ValueRoundTrip.StrBack | c/third_party/mpack_stub.h:281-304 | every string below 4 GiB is read back from its encoding, leaving exactly what follows |
| ValueRoundTrip.BinBack | c/third_party/mpack_stub.h:306-326 | every byte string below 4 GiB is read back from its encoding, leaving exactly what follows |
| ValueRoundTrip.FloatBack | c/third_party/mpack_stub.h:260-277 | every bit pattern of a double is read back from its encoding |
| FloatWidening.WidenKeepsTheNumber | c/third_party/mpack_stub.h:269-275 | by the meaning of both formats as real numbers: every finite single-precision pattern, normal or subnormal, is widened to a double of the same value and sign, infinities to infinities and NaNs to quiet NaNs |
| FloatWidening.SingleIsRead | c/src/codec.c:57-160 | a single-precision number on the wire is decoded as that double, leaving exactly what follows |
| ValueRoundTrip.ShortIsSized | c/src/codec.c:12-53 | a value whose encoding is below 4 GiB has no string, array or map whose length a 32-bit header would truncate |
| ValueRoundTrip.RoundTrip | c/src/codec.c:12-160 | for every value tree of any depth and any trailing bytes, decoding the encoding returns the tree and leaves the reader at the trailing bytes |
| ValueRoundTrip.ItemsRoundTrip | c/src/codec.c:111-128 | the same for the elements of an array |
| ValueRoundTrip.PairsRoundTrip | c/src/codec.c:130-155 | the same for the pairs of a map, keys and values |
| SkipValue.SkipAgrees | c/third_party/mpack_stub.h:369-413 | on every input, skipping a value succeeds exactly when decoding does and stops at the same byte |
| SkipValue.SkipExtends | c/third_party/mpack_stub.h:369-413 | a value that can be skipped is skipped the same way whatever bytes follow it |
| SkipValue.TruncatedString | c/third_party/mpack_stub.h:281-304 | a string cut short sets the sticky error |
| SkipValue.OneValueIsDecodable | c/src/codec.c:57-160 | bytes are one value for the skipper if and only if the decoder reads them to the last byte |
| SkipValue.SkipsOneValue | c/third_party/mpack_stub.h:369-413 | one value in front of anything is skipped exactly |
| SkipValue.EncodingIsOneValue | c/src/codec.c:12-53 | every encoding of a value below the size limits is one value |
| Message.FieldsSpelled | c/src/codec.c:393-462 | the field names are the protocol's |
| Message.TypesSpelled | c/src/codec.c:237-333 | so are the types of request, response and error, and the default error type |
| Message.StreamTypesSpelled | c/src/server.c:603-605 | so are the three stream types |
| MessageRoundTrip.FieldBack | c/src/codec.c:403-462 | the value of a string-keyed entry lands in its own field and nowhere else; an unknown one changes nothing |
| MessageRoundTrip.EntryStep | c/src/codec.c:393-465 | one round of the decoder's loop consumes exactly one entry, also when its key is unknown or not a string |
| MessageRoundTrip.LoopFolds | c/src/codec.c:393-467 | the decoder's loop over any valid entries is the fold of their effects |
| MessageRoundTrip.DecodesInAnyOrder | c/src/codec.c:380-468 | a map with the message's entries in any order, repeated, among any unknown or non-string keys with well-formed values, and with any bytes after it, is read as the message |
| MessageRoundTrip.MessageBack | c/src/codec.c:237-366 | what each of the seven encoders writes, for every 64-bit id, decodes to the same message when the encoding is below 4 GiB, as everything that fits a frame is |
| Writer.MpackWriter.constructor | c/third_party/mpack_stub.h:27-32 | a fresh writer has been asked for nothing and has not overflowed |
| Writer.MpackWriter.WriteRaw | c/third_party/mpack_stub.h:34-41 | without overflow the buffer holds exactly what was asked for so far; with it, what was asked for does not fit |
| Writer.MpackWriter.WriteU16 | c/third_party/mpack_stub.h:47-50 | asks for the two big-endian bytes |
| Writer.MpackWriter.WriteU32 | c/third_party/mpack_stub.h:52-55 | asks for the four big-endian bytes |
| Writer.MpackWriter.WriteU64 | c/third_party/mpack_stub.h:57-60 | two 32-bit writes ask for the eight big-endian bytes |
| Writer.MpackWriter.WriteInt64 | c/third_party/mpack_stub.h:70-104 | the branches over the ranges ask for the encoding of the integer |
| Writer.MpackWriter.WriteDouble | c/third_party/mpack_stub.h:106-111 | asks for the tagged bit pattern |
| Writer.MpackWriter.WriteStr | c/third_party/mpack_stub.h:113-127 | asks for header and bytes of the string |
| Writer.MpackWriter.WriteBin | c/third_party/mpack_stub.h:129-141 | asks for header and bytes of the byte string |
| Writer.MpackWriter.WriteArrayHeader | c/third_party/mpack_stub.h:143-153 | asks for the array header |
| Writer.MpackWriter.WriteMapHeader | c/third_party/mpack_stub.h:155-165 | asks for the map header |
| Writer.MpackWriter.EncodeValue | c/src/codec.c:12-53 | the recursive writer asks for exactly the encoding of the value |
| Writer.MpackWriter.EncodeItems | c/src/codec.c:36-41 | the array loop asks for the encodings of the elements in order |
| Writer.MpackWriter.EncodePairs | c/src/codec.c:42-48 | the map loop asks for the encodings of the pairs in order |
| Writer.MpackWriter.EncodeRequest | c/src/codec.c:237-260 | asks for the encoding of the request, with the stream flag only for bidi |
| Writer.MpackWriter.EncodeResult | c/src/codec.c:281-333 | asks for the encoding of a response or a stream chunk |
| Writer.MpackWriter.EncodeError | c/src/codec.c:304-316 | asks for the encoding of an error, with the defaults for missing texts |
| Writer.MpackWriter.EncodeIdOnly | c/src/codec.c:347-354 | asks for the encoding of a stream end or stream close |
| Writer.MpackWriter.EncodeMessage | c/src/codec.c:237-366 | each encoder asks for exactly the encoding of its message |
| Writer.CapacityLimit | c/src/codec.c:205-219 | doubling from 4096 stays within 64 MiB for exactly fifteen capacities |
| Writer.Attempt | c/src/codec.c:207-216 | one attempt succeeds exactly when the encoding fits the capacity, and returns precisely it |
| Writer.EncodeWithGrowth | c/src/codec.c:204-221 | succeeds exactly when the unbounded encoding fits 64 MiB, returns precisely it, ends within fifteen attempts, at the first capacity that is large enough |
| Reader.MpackReader.Peek | c/third_party/mpack_stub.h:223-226 | peeking at the end sets the error and yields zero |
| Reader.MpackReader.GetU16 | c/third_party/mpack_stub.h:194-199 | reads the big-endian value, or sets the error and yields zero |
| Reader.MpackReader.GetU32 | c/third_party/mpack_stub.h:201-207 | reads the big-endian value, or sets the error and yields zero |
| Reader.MpackReader.GetU64 | c/third_party/mpack_stub.h:209-213 | reads two 32-bit halves |
| Reader.MpackReader.GetRaw | c/third_party/mpack_stub.h:215-220 | yields the bytes, or sets the error and consumes nothing |
| Reader.MpackReader.TryReadNil | c/third_party/mpack_stub.h:229-232 | refines the pure reader of nil |
| Reader.MpackReader.TryReadBool | c/third_party/mpack_stub.h:235-240 | refines the pure reader of booleans |
| Reader.MpackReader.TryReadInt64 | c/third_party/mpack_stub.h:243-258 | refines the pure reader of integers |
| Reader.MpackReader.TryReadDouble | c/third_party/mpack_stub.h:260-277 | refines the pure reader of floats, widening single precision |
| Reader.MpackReader.TryReadStr | c/third_party/mpack_stub.h:281-304 | refines the pure reader of strings, with its consumed tag on a short string |
| Reader.MpackReader.TryReadBin | c/third_party/mpack_stub.h:306-326 | refines the pure reader of byte strings |
| Reader.MpackReader.TryReadArrayHeader | c/third_party/mpack_stub.h:328-346 | refines the pure reader of array headers |
| Reader.MpackReader.TryReadMapHeader | c/third_party/mpack_stub.h:348-366 | refines the pure reader of map headers |
| Reader.MpackReader.DecodeValue | c/src/codec.c:57-160 | the recursive decoder returns exactly what the pure decoder does, failures included |
| Reader.MpackReader.DecodeItems | c/src/codec.c:111-128 | the array loop agrees with the pure decoder, stopping at the first failed element |
| Reader.MpackReader.DecodePairs | c/src/codec.c:130-155 | the map loop agrees with the pure decoder, stopping at the first failed key or value |
| Reader.MpackReader.SkipOne | c/third_party/mpack_stub.h:369-413 | the recursive skipper agrees with the pure one |
| Reader.MpackReader.DecodeArgs | c/src/codec.c:424-437 | the argument loop agrees with the pure one, ignoring the status of each element |
| Reader.MpackReader.DecodeField | c/src/codec.c:403-462 | the chain of key comparisons agrees with the pure one |
| Reader.DecodeMessage | c/src/codec.c:380-468 | the decoder as it runs returns exactly what the pure decoder does on every payload |
| Exchange.WriteMessage | c/src/server.c:174-190 | encoding with growth and writing a frame: a message that does not fit changes nothing, success appends exactly its frame, failure a proper prefix of it |
| Exchange.ReadMessage | c/src/client.c:73-89 | reading a frame and decoding it: exactly the decoding of the next frame, or an error |
| Exchange.Pass | c/src/client.c:73-98 | under every schedule of short sends and receives, a message is read as it was meant exactly if it was written whole, and only a message that fits is |
| StreamInput.StreamInput.Push | c/src/server.c:79-93 | appends one item to the linked queue and relinks nothing else |
| StreamInput.StreamInput.Recv | c/src/server.c:97-114 | takes the first item, leaving the rest of the queue; it waits, with nothing changed, exactly when the queue is empty |
| StreamInput.StreamInput.Free | c/src/server.c:116-129 | frees exactly the values of the chunks still queued, in order |
| InputTable.LookupNone | c/src/server.c:144-155 | a lookup misses exactly when no entry has the id |
| InputTable.RegisterIsInsert | c/src/server.c:131-142 | registering a new id is map insertion: that id is bound, all others keep their binding |
| InputTable.RemoveIsDelete | c/src/server.c:157-170 | swap-removal is map deletion: that id is gone, all others keep their binding |
| InputTable.RemovedIffSingle | c/src/server.c:157-170 | after a removal the id is gone if and only if it was registered at most once |
| InputTable.InputTable.Grow | c/src/server.c:134-138 | the capacity is eight or doubles, and the entries stay |
| InputTable.InputTable.Register | c/src/server.c:131-142 | appends an empty queue under the id, growing when full |
| InputTable.InputTable.Find | c/src/server.c:144-155 | returns the first entry with the id, or null exactly when there is none |
| InputTable.InputTable.Remove | c/src/server.c:157-170 | moves the last entry into the removed slot and returns what was removed |
| InputQueues.Inputs.Register | c/src/server.c:131-142 | in the heap: an empty queue under a new id, every other queue with its nodes and contents untouched |
| InputQueues.Inputs.Push | c/src/server.c:606-616 | in the heap: lookup and push add one item to that queue and touch no other; a miss changes nothing |
| InputQueues.Inputs.Recv | c/src/server.c:97-114 | in the heap: the first item of that queue, or a wait; no other queue is touched |
| InputQueues.Inputs.Remove | c/src/server.c:157-170 | in the heap: the entry goes, the values of its queued chunks are freed in order, no other queue is touched |
| InputQueues.Inputs.CloseAll | c/src/server.c:632-638 | in the heap: every registered queue gets exactly one end mark |
| InputRefinement.PushStep | c/src/server.c:606-616 | the heap's push, run on a heap that represents the machine's queues, leaves one that represents them after the machine's push |
| InputRefinement.StartStep | c/src/server.c:536-552 | the same for registering a queue when a call with stream input starts |
| InputRefinement.RecvStep | c/src/server.c:97-114 | the same for a handler's receive, and the item returned is the one the machine hands to the handler |
| InputRefinement.RemoveStep | c/src/server.c:157-170 | the same for a thread's cleanup, and the i-th value freed in the heap is the result of the message whose tree is the i-th the machine frees |
| InputRefinement.CloseStep | c/src/server.c:630-638 | one run of the heap's loop leaves what the machine's closing steps leave, in whatever order those are taken |
| WriteLock.TransmitKeeps | c/src/framing.c:26-36 | any partial send by the lock holder keeps the wire whole frames plus a proper prefix of its frame |
| WriteLock.WholeFrames | c/src/server.c:174-179 | a reader of the wire recovers exactly the completed messages in the order the lock was granted, and is left with the holder's prefix |
| WriteLock.NextFrame | c/src/client.c:75-89 | a reader that has taken n frames reads message n next, if it is complete |
| WriteLock.NothingUnread | c/src/client.c:75-89 | once every completed frame is read, no frame can be parsed |
| ServerSteps.RouteKeeps | c/src/server.c:596-627 | reading one message keeps the whole invariant: push, drop, start, refuse |
| ServerSteps.PushKeeps | c/src/server.c:79-93 | pushing to the found queue keeps the whole invariant |
| ServerSteps.RecvKeeps | c/src/server.c:97-114 | a handler's receive keeps the whole invariant |
| ServerSteps.SendKeeps | c/src/framing.c:26-36 | any partial send keeps the whole invariant |
| ServerSteps.ReturnKeeps | c/src/server.c:398-498 | a handler's return, with any result that fits or not, keeps the whole invariant |
| ServerSteps.RemoveKeeps | c/src/server.c:157-170 | a thread's cleanup keeps the whole invariant |
| ServerSteps.CloseOneKeeps | c/src/server.c:630-638 | the closing loop's push of an end mark keeps the whole invariant |
| ServerSteps.StepKeeps | c/src/server.c:398-642 | every step of the read loop and of every handler thread keeps the invariant |
| ServerSteps.RunKeeps | c/src/server.c:398-642 | so does every run, under every interleaving |
| ServerTheorems.FrameGrammar | c/src/server.c:398-498 | on every run the frames of one id are a prefix of chunks and one terminal, only with messages its kind allows; once the handler has ended the terminal is there if and only if it fits a frame, and only a response can fail to fit |
| ServerTheorems.NoStrayFrames | c/src/server.c:500-563 | every frame on the wire carries the id of a request that was received |
| ServerTheorems.WireIsWholeFrames | c/src/server.c:174-179 | for any number of writers and any schedule of partial sends, a reader recovers the log, and what is left over is a prefix of the lock holder's frame |
| ServerTheorems.InputConserved | c/src/server.c:603-621 | items received, then queued, then about to be pushed are exactly what arrived for the id since registration, in wire order, for every call at once |
| ServerTheorems.QueueIsThere | c/src/server.c:449-478 | a streaming-input call's queue is registered if and only if its thread has not cleaned up, so the thread's own lookup never misses |
| ServerTheorems.NobodyStranded | c/src/server.c:630-638 | after the read loop ends every registered call has an end mark received or queued, and a handler that has not received one can receive |
| ServerTheorems.PeerMayGo | c/src/server.c:589-642 | from every reachable state in which the loop reads, a disconnection comes to its end, with exactly one end mark after every queue and nothing else changed |
| Requests.FindsFirst | c/src/server.c:363-375 | the lookup finds a kind if and only if it is that of the first entry of the name, compared as C strings, and fails if and only if there is none |
| Requests.Lookup | c/src/server.c:363-375 | the loop returns exactly that |
| Requests.RequestsAreDispatched | c/src/server.c:500-563 | on every run every request received has its call: it runs as the first function registered under its name, or is refused with exactly the error that is due for a missing name, an unknown name, or the wrong stream flag |
| Requests.WireSaysWhatHandlersDid | c/src/server.c:398-498 | on every run a call decides on its last message when its handler returns: the error, the returned value, or the stream's end, by status and kind; once it is over its frames are exactly the values its handler sent, in order, and then that message if it fits |
| Requests.IgnoredMessages | c/src/server.c:603-627 | a message of another type, or for an unregistered id, changes nothing and is freed |
| Requests.InputMessages | c/src/server.c:603-621 | a stream message for a registered id is taken to that id's queue, as a chunk or an end mark by its type |
| Requests.StepSettles | c/src/server.c:398-642 | every step of the read loop and of every thread keeps this |
| PushSafety.PushIsSafeIff | c/src/server.c:606-616 | between lookup and push the queue is still registered exactly as long as the call's thread has not cleaned up |
| PushSafety.FoundQueueIsThere | c/src/server.c:606-616 | if that call's handler received an end mark before returning and the peer sent nothing for that id after ending it, the found queue is still there |
| PushRace.EarlyReturnRaces | c/src/server.c:606-616 | for every frame that opens a streaming-input call there is a run to a push to a freed queue with an orderly peer: the handler returned without draining |
| PushRace.LateFrameRaces | c/src/server.c:606-616 | and one with a handler that drained its input: the peer sent after its end mark |
| PushRace.RaceIffStreamInput | c/src/server.c:606-616 | a push to a freed queue can be reached on a registry if and only if some frame opens a call with stream input on it |
| PushRace.NamedFunctionOpens | c/src/server.c:500-563 | every client-stream or bidi function whose request fits a frame gives such a frame |
| PushRace.OpenersAreNamed | c/src/server.c:500-563 | and a registry without client-stream and bidi entries gives none |
| Ownership.StepOwn | c/src/server.c:392-642 | every step keeps: no tree freed twice, and no tree freed while the loop, a context, a queue node or a handler holds it |
| Ownership.FreedAtMostOnce | c/src/codec.c:470-484 | on every run no decoded tree is freed twice or while it is still held |
| Ownership.OneOwner | c/src/server.c:525-534 | in every reachable state a decoded tree has at most one owner among the read loop, all contexts, all queue nodes and all handlers, and an owned tree is not freed |
| Conservation.FreedOrOwned | c/src/codec.c:470-484 | on every run each tree of each received message has been freed if and only if nobody owns it any more, and it never has two owners: nothing gets lost |
| Begun.SentAsAsked | c/src/client.c:100-158 | on every run call n carries the name, the arguments and the stream flag of the n-th use of a calling function, and was sent if and only if that fits a frame |
| SystemSteps.BeginKeeps | c/src/client.c:100-158 | starting a call of any form keeps client and server in step, also when the request is too large to send |
| SystemSteps.SendUpKeeps | c/src/client.c:213-321 | sending a chunk or closing the client's half keeps them in step |
| SystemSteps.StrayKeeps | c/src/client.c:213-321 | so does a stream message for any call ever begun, in any phase of the client, also after that call's end mark or end |
| SystemSteps.ReadKeeps | c/src/client.c:160-192 | reading a frame, whatever it is, keeps them in step |
| SystemSteps.ReadFailsKeeps | c/src/client.c:73-89 | a read that fails because the server has closed the connection keeps the invariant: what was heard before stays as it was, and no later call hears anything |
| SystemSteps.ServeKeeps | c/src/server.c:398-642 | every step of the server keeps them in step |
| SystemSteps.RunSys | c/src/client.c:69-321 | so does every run of client, server and network |
| SystemTheorems.NothingLeftBetweenCalls | c/src/client.c:100-192 | between calls no frame is unread, none can be parsed, and no call can still send one unless it ended in a failed read |
| SystemTheorems.EveryFrameIsOurs | c/src/client.c:160-192 | every frame read during call n carries id n, although the client never looks |
| SystemTheorems.CallsReturnTheOutcome | c/src/client.c:100-192 | a call that is over and did not end in a failed read ran as the first function exported under the name the program gave, with the program's arguments, and the client heard exactly the values its handler sent, in order, then the message its return calls for; or it heard exactly the refusal that is due |
| ProgramResults.ProgramGetsItsDue | c/src/client.c:124-188 | the same as the program sees it: the value the handler returned, the values it sent and the end of the stream, or the error with its two texts, by form, registry and return |
| SystemTheorems.FailedCalls | c/src/client.c:73-89 | a call that ended in a failed read did so after the server closed the connection, having heard every complete frame sent for it, all of them chunks |
| SystemTheorems.IdsAreNeverReused | c/src/client.c:69-71 | what the client sends can always be read by the server: a request's id is new |
| Mismatch.SingleReadOnStreamDesyncs | c/src/client.c:100-138 | for every registry, single-read form, streaming function and chunk value there is a run in which the second call is answered with a frame of the first |
| Uplink.HandlerReceivesWhatWasSent | c/src/client.c:213-321 | for every call, items received, queued and about to be pushed are exactly what the client sent for that call and the server has read, in order, then the closing mark |
| Uplink.ClientStops | c/src/client.c:213-321 | a program that sends nothing for a call after its end mark is, for every call of every form, a peer that stops in the sense of the server's push safety |
| Uplink.PushesAreSafe | c/src/server.c:606-616 | with such a program and a handler that drains its input, every push is to a registered queue |
| LateSend.LateSendRaces | c/src/client.c:213-321 | from every state at rest, on every client-stream function: one message sent after the end mark leads to a push to a freed queue, although the handler drained its input |
| Uplink.ServerOfSystem | c/src/server.c:565-642 | the server in any run of the system is in a reachable state of the server alone |
| Completion.CallCompletes | c/src/client.c:100-321 | from every reachable state at rest, a call of any of the four forms on a function of its kind, with any arguments, chunks both ways, status and result that fit, can be carried through: the client sends the request, its chunks and its closing mark, the handler gets arguments, chunks and mark, the client hears the handler's chunks and what its return calls for, and the connection is at rest again |
| Completion.RestAtStart | c/src/client.c:21-59 | a fresh connection is at rest |
| LostReply.OversizedReplyIsDropped | c/src/server.c:398-424 | from every state at rest, for every unary function and result that does not fit, a run ends with the call done, not a byte sent and the client waiting |
| LostReply.WaitsUntilClosed | c/src/client.c:100-138 | a client whose call will send nothing more and who has read everything hears nothing more on every continuation, waits as long as the server's loop has not ended, and can only end in a failed read after that |
| LostReply.FailsOnceClosed | c/src/client.c:73-89 | once the loop has ended, its next read does fail |
| LostReply.StrandedIffOversized | c/src/client.c:100-138 | when the call the client waits for is over, it is in that state if and only if the outcome does not fit |
| MutualWait.AcceptedPairs | c/src/server.c:511-523 | a request for a function with stream input is accepted if and only if the form matches the kind, or a form that only reads meets a client-stream function |
| MutualWait.ReadingFormWaits | c/src/server.c:511-552 | from every state at rest, either reading form on every client-stream function leads to client and handler waiting for each other |
| MutualWait.WaitForEachOther | c/src/server.c:97-114 | there they stay, on every run in which handlers drain their input, no end mark is sent for the call and the connection stays open |
| ActorLoop.Actor.SendOnce | rust/src/client.rs:73-79 | only the first send through a one-shot sender arrives |
| ActorLoop.Actor.DrainPending | rust/src/client.rs:535-548 | whatever the order, every call still waiting is told of the loss once, nobody else is told anything, and the table is empty |
| ActorLoop.Actor.Lose | rust/src/client.rs:762-778 | a lost connection tells everybody, then reconnects or stops |
| ActorLoop.Actor.InsertThenWrite | rust/src/client.rs:629-677 | a call enters the table, and if its write fails everybody in it is told of the loss |
| ActorLoop.Actor.WriteThenInsert | rust/src/client.rs:678-703 | a client-stream call enters only after its write; if that fails it is told of the loss along with all others |
| ActorLoop.Actor.HandleCommand | rust/src/client.rs:629-730 | a command enters its call, or tells it of the loss along with all others; a client-stream call writes before it enters |
| ActorLoop.Actor.Deliver | rust/src/client.rs:742-760 | a frame is seen by the call with its id only; a chunk keeps the entry, anything else removes it, a dropped receiver removes it |
| ActorLoop.Actor.HandleFrame | rust/src/client.rs:738-761 | every call sees the frame as if it were the only call; a frame nobody waits for changes nothing |
| ActorLoop.Actor.Handle | rust/src/client.rs:622-781 | one round of the loop acts on every call as if it were alone |
| ActorLoop.PromiseStep | rust/src/client.rs:622-781 | one event changes what a call has been told and what it will be told, never their sum |
| ActorLoop.Actor.Run | rust/src/client.rs:550-784 | over every event sequence, what each accepted call has been told is exactly what its own scan of the events expects, and on exit nobody is pending |
| ActorTheorems.ToldExactly | rust/src/client.rs:550-784 | an accepted call is told of the loss if its own write loses the connection, and otherwise exactly what the first event that ends its wait decides |
| ActorTheorems.ToldWasAccepted | rust/src/client.rs:622-730 | only calls that the actor accepted are told anything |
| ActorTheorems.ExactlyOnce | rust/src/client.rs:550-784 | an accepted unary or client-stream call is told at most one thing: the first frame with its id if no loss or exit comes before it, the loss if one does, nothing if neither has come; exactly one once the actor has exited |
| ActorTheorems.StreamsHearTheirOwn | rust/src/client.rs:738-784 | a stream hears every frame with its id, in arrival order, up to the first that is not a chunk, a dropped receiver, a loss or the exit, then the loss exactly if that ended it; once the actor has exited one of these has come |
| ActorTheorems.OnlyOwnFrames | rust/src/client.rs:738-761 | every message a caller is given carries its id and arrived after the call was made |
| ActorTheorems.ToldOfAnotherLoss | rust/src/client.rs:762-778 | until something ends its wait a call's connection is the actor's own, and it is told of another's loss if and only if its wait ends with a close reported by the reader of another connection |
| ActorTheorems.StaleCloseEndsHealthyCall | rust/src/client.rs:498-521 | the run: a write fails, the actor reconnects, a call is made, and the old connection's reader ends it |
| RouteCache.AddressesGrow | python/callwire/registry.py:11-15 | registration only appends: earlier addresses keep their places |
| RouteCache.RouteIsStable | python/callwire/registry.py:11-22 | a known route never changes, whatever is registered later |
| RouteCache.AddressesDistinct | python/callwire/registry.py:11-15 | the addresses of a name are exactly the registered ones, each once |
| RouteCache.Registry.Register | python/callwire/registry.py:11-15 | the dictionary holds, for every name, the addresses in order of first registration |
| RouteCache.Registry.Discover | python/callwire/registry.py:17-22 | returns all addresses, or an error for a name that has none |
| RouteCache.RoutingClient.Ask | python/callwire/client.py:213-222 | a cache hit is the registry's route of now; a miss asks the registry; internal and unknown functions are not routed |
| RouteCache.RoutingClient.Store | python/callwire/client.py:222-223 | the answer stored is still the registry's route, even if registrations came in between |
| RouteCache.RoutingClient.Run | python/callwire/client.py:208-231 | over every interleaving of registrations and two-step resolutions, every cached route and every address given out equals the registry's first address |
| RoutedBatch.IndicesMatch | python/callwire/client.py:274-280 | the k-th call of a worker's group is the k-th call routed to it, with exactly k before it |
| RoutedBatch.GroupOf | python/callwire/client.py:274-280 | a group holds the worker's calls in order under ascending indices that are all and only its own |
| RoutedBatch.Fleet.WorkerBatch | python/callwire/client.py:292-319 | a direct batch sends all calls in order and fails if and only if one of them ends with an error reply, a timeout or a lost connection |
| RoutedBatch.Fleet.CallEach | python/callwire/client.py:233-264 | calls made one by one return what each worker answers after the calls it received before |
| RoutedBatch.Fleet.Group | python/callwire/client.py:274-280 | grouping succeeds if and only if every function resolves, and is the grouping by worker |
| RoutedBatch.Fleet.Scatter | python/callwire/client.py:285-286 | each answer lands at its original index and nothing else changes |
| RoutedBatch.Fleet.Batch | python/callwire/client.py:272-287 | sends nothing if a function does not resolve; succeeds if and only if every single call would; then each index holds the result of its own call made in turn, and each worker received its calls in original order |
| ManifestRoundTrip.LinesBefore | go/callwire/orchestration.go:42-44 | lines without newlines are scanned back as they were, before whatever follows |
| Manifest.ParseManifest | go/callwire/orchestration.go:39-96 | the parser's loop is the fold of the line rule, and stops with an error at a line over the limit |
| Manifest.ReadLine | go/callwire/orchestration.go:45-90 | the loop body with its early exits is the line rule |
| Manifest.Generate | go/callwire/cmd/callwire/main.go:351-367 | the text built is the lines of the header and four lines per service |
| ManifestSections.ParseIsSections | go/callwire/orchestration.go:39-97 | for every text: one service per service header, in order, each with the last setting of its keys before the next section, up to the first line of 64 KiB or more, and an error if and only if there is one |
| ManifestSections.OtherSection | go/callwire/orchestration.go:60-67 | a section that opens no service closes the one being read and loses nothing |
| ManifestSections.TrimmedEnds | go/callwire/orchestration.go:44 | trimming takes white space off both ends, all of it, and nothing else |
| ManifestRoundTrip.KeyLine | go/callwire/orchestration.go:69-90 | a printed key line assigns exactly its value, whatever quotes, equals signs or hashes the value holds |
| ManifestRoundTrip.WorkerBlock | go/callwire/orchestration.go:49-90 | the four lines of a service yield that service, whatever came before |
| ManifestRoundTrip.HeaderBlock | go/callwire/orchestration.go:60-71 | the project section contributes no service if and only if no line inside the project's name looks like a service header |
| ManifestRoundTrip.ParsedIsPlain | go/callwire/orchestration.go:43-94 | no parsed name or command holds a newline, whatever the text |
| ManifestRoundTrip.RoundTrip | go/callwire/cmd/callwire/main.go:351-367 | for every project name and services: a generated manifest parses to the same services in order, with the same commands, if and only if no name or command holds a newline, every line is within the limit, and no line inside the project's name looks like a service header |
| ManifestRoundTrip.OneLineProject | go/callwire/cmd/callwire/main.go:349-357 | a project name without newlines is harmless exactly when its line fits |

## Left out

- Socket setup, accept loops, host resolution, TLS and the server's own start and stop: I/O plumbing.
- Failed allocations and failed thread creation in the C code, and arithmetic overflow of buffer positions.
- Freeing of messages that fail to decode, and memory the C server leaks on purpose; ownership is about trees of decoded messages.
- The condition variable of the chunk queue: a receive is a step that is possible when the queue is not empty.
- What a push to a freed queue does to memory.
- Server.Enabled: reuse of a request id on the connection after its call has ended, which the code would allow and the C client never does.
- A client send that fails half way, and writes that fail in the Python client.
- The length of timeouts, and backoff.
- `run_tls_actor` in rust/src/client.rs repeats the actor over another stream type.
- The actor's pump of queued chunks (rust/src/client.rs:566-620): only its failed write is modelled, as an event that loses the writer. The pump can lose chunks, so no claim is made about them.
- Reply channels that are dropped with the command queue after the actor has exited.
- The servers and streaming clients in Java, Python, TypeScript, Rust and Go, and the C++, Swift and COBOL wrappers: the same protocol in less complete forms.
- Codecs that only call a MessagePack library.
- Command-line scanning, name detection, process spawning and PID files around the manifest.
- Text that is not valid UTF-8 in the manifest.
- Connecting to a worker after its address is resolved, and the split of the address into host and port.
- ActorLoop.Actor.Run: command ids are assumed distinct, as the client's counter makes them.
- RoutedBatch.Fleet.Batch: the grouping dictionary is served in any order, not only in insertion order.
- PushSafety.FoundQueueIsThere: gives a sufficient discipline; that each half of it is needed is in PushRace.EarlyReturnRaces and PushRace.LateFrameRaces.
