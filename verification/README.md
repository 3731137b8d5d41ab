# Dafny model of the video runtime's hand-written ordering and loss rules

The runtime turns camera frames into detections, tracks, events and wire
records. This project models the parts whose correctness depends on
interleavings, on loops over unbounded input, or on two programs agreeing, and
proves what they promise.

- **Stream ownership** (`LatestFrame.dfy`, `StreamPool.dfy`,
  `StreamPoolInvariant.dfy`, `StreamPoolSafety.dfy`, `StreamPoolReplies.dfy`,
  `StreamPoolUsable.dfy`):
  context workers claim frames from per-stream mailboxes under a `busy` flag
  while the control thread removes streams through `removing` and a try-lock
  handshake. Any number of workers and streams interleave one critical section
  at a time; timeouts and failed try-locks are free choices. Besides safety, the
  workers are shown never to deadlock, and what the control thread reports and
  answers is told from the record log alone.
- **Writer** (`Writer.dfy`): one queue of frames (dropped oldest first) and
  events (never dropped), as a class, and its runs against a plain log.
- **Wire path** (`Bytes.dfy`, `Wire.dfy`, `WireTensors.dfy`, `Reader.dfy`,
  `FrameRecord.dfy`, `WirePath.dfy`): the C++ encoders append to a byte buffer,
  the Python read loop cuts the stream of any chunks into records, the Python
  decoders walk a body with an offset. `FrameRecord.dfy` builds the record from
  the tracks and the analyzers' private blocks.
- **Tracker and line counter** (`Greedy.dfy`, `Tracker.dfy`, `TrackerRuns.dfy`,
  `TrackerGains.dfy`, `LineCross.dfy`, `LineCrossRuns.dfy`,
  `LineCrossSides.dfy`): two-pass greedy matching, the paired erase, ids over
  whole runs, and what the overlap, the prediction and the velocity mean; the
  hysteresis counter that hands its state from a lost track to a reborn one,
  over runs of its state and told from its calls alone.
- **Supporting cores**: `FrameBatcher.dfy`, `Sha256.dfy`, `Sha256Constants.dfy`,
  `Sha256Example.dfy`, `Publish.dfy`, `Mqtt.dfy`, `Commands.dfy`, `Nms.dfy`,
  `Retail.dfy`, `PersonMatch.dfy`, `Surface.dfy`.

`Wrappers.dfy` holds what they share. `dafny verify dfyconfig.toml` checks
everything.

Classes stand for the source's objects: each method is proved equal to a
function of the old state (`AfterPushFrame`, `After`, `Serve`, ...), and the
lemmas are about runs of those functions: what each of them does is also stated
without naming it (`Writers.FramePushExact`, `FrameBatchers.Pushed`,
`TrackerGains.Updated`, `LineCrossSides.Crosses`, `Retail.Meets`, ...). Ghost histories (`World`, `processed`,
`accepted`) only record what happened. Coordinates, times and sums are reals;
`hypot` is an arbitrary function. Integers of a fixed width wrap where the
source's do: track ids, hits, misses and ages are 32-bit.

## Where the code is weaker than its documentation

- A remove that timed out replies "failed", and the comment says the stream must
  still be usable. Its flag is indeed restored, but the source thread may have
  seen the flag and left in the meantime, and nothing restarts it:
  `StreamPoolSafety.StarvedReachable` reaches that state. Exactly when a stream
  is usable, in any reachable state: `StreamPoolUsable.UsableIff`.
- The length field of JSON and snapshot records is a plain cast to 32 bits:
  `Wire.HeaderFrames` and `Wire.SnapshotRoundTrip` say exactly when it is exact.
- "The same direction is only counted once per track per line" excludes in fact
  only the last counted direction: a track that walks over the line, back and
  over again is counted forward twice (`LineCrossRuns.ForwardTwice`). The rule
  holds along a chain exactly as long as at most two crossings were counted on
  it: `LineCrossRuns.OncePerDirectionIff`.
- "A new required field (schema root or any nested object)" does not fail the
  check at a node whose snapshot records no `required` list, where the whole
  list counts as an addition. New required fields of a node are reported exactly
  when it records such a list: `Surface.RequiredAdditionReportedIff`; one that
  passes: `Surface.FirstRequiredPasses`. Nor does a recorded list protect its
  set once the current list holds a dict: `Surface.RequiredIsFrozen` says
  exactly so (the collector writes names only).
- One track without key points among tracks that have them makes the whole frame
  unencodable: `FrameRecords.OneBareTrackDropsFrame`; the exact condition is
  `FrameRecords.EncodeFrame`'s.
- "Every detection gets a non-zero id" ends when 2^32 - 1 ids were issued:
  `TrackerRuns.ZeroIffWrapped`, and `TrackerRuns.FirstFrameWraps` for one frame.
- `misses <= max_misses` holds in every run exactly when the limit is not the
  largest 32-bit value: `TrackerRuns.MissesOkIff`.
- `_pop_if_head` compares by value, so an equal message that replaced the one
  being sent is popped unsent. Exactly which submissions this can happen to:
  `Publishing.PoppedUnsentIff`; never with pairwise distinct messages:
  `Publishing.DistinctAllAccounted`.
- A publish that gives up pops by packet id, and the pointer from which ids are
  taken is also written by `_alloc_pid`, for subscribe calls, without the lock:
  it can be set back. Popping is safe exactly while fewer than 65535 writes
  followed the one that took the id and none of them was stale, or at most one
  did: `MqttIds.GiveUpSafeIff`. `MqttIds.SubscribeSetsBack` shows one subscribe call
  that makes a publish remove another's entry after two writes. "A late PUBACK
  for this id is dropped" holds under the same bound and not beyond it, where
  the ack is credited to the publish that has the id: `MqttIds.LateAckDroppedIff`.
- The second exit of `_alloc_pid` returns an id in use when other subscribe
  calls write the pointer between its own write and its test:
  `MqttIds.AllocReturnsIdInUse`, `MqttIds.FreeUnlessDisturbed`.
- The sliding window holds the records of the last window after each update
  exactly when no old record hides behind a newer one and no window reaches back
  to a record that an earlier one had left: `Retail.WindowExactIff`. A clock that
  never steps back is enough (`Retail.WindowExact`); `BackwardClockLosesRecord`
  and `OldRecordStays` are the two failures.
- "No errors" does not compose when a list named `enum`, `required` or `type`
  held scalars in two releases and a dict or list in the third; then it composes
  exactly when such lists kept their order: `Surface.ComposesIff`.
- A publish worker with `queue_size` 0 raises on every submit:
  `Publishing.PublishWorker.Submit`.

## Model

| member | source | states |
|---|---|---|
| `LatestFrames.LatestFrame.Put` | core-cpp/vb/src/latest_frame.cpp:7-11 | a put replaces the slot and counts exactly one drop when it was full |
| `LatestFrames.LatestFrame.Take` | core-cpp/vb/src/latest_frame.cpp:13-19 | a take empties the slot, returns its frame, and counts nothing |
| `LatestFrames.MailboxConserves` | core-cpp/vb/src/latest_frame.cpp:7-24 | over any run of puts and takes: puts = taken + dropped + (1 if full), and a full slot holds the newest frame |
| `LatestFrames.TakenInOrder` | core-cpp/vb/src/latest_frame.cpp:7-19 | what is taken is a subsequence of what was put, in put order |
| `StreamPoolInvariant.ClaimKeeps` | core-cpp/vb/src/pool.cpp:86-92 | claiming under the lock keeps every pairing of worker position and busy flag |
| `StreamPoolInvariant.EnterProcessKeeps` | core-cpp/vb/src/pool.cpp:139-158 | entering process() for a claimed stream, with or without an inference error, keeps the invariant |
| `StreamPoolInvariant.LetGoKeeps` | core-cpp/vb/src/pool.cpp:111-116 | releasing the busy set keeps the invariant: no flag is cleared under another holder |
| `StreamPoolInvariant.PollKeeps` | core-cpp/vb/src/runtime.cpp:788-798 | the try-lock poll of op_remove keeps the invariant, whether or not it succeeds |
| `StreamPoolInvariant.GiveUpKeeps` | core-cpp/vb/src/runtime.cpp:799-805 | the timed-out remove keeps the invariant |
| `StreamPoolInvariant.AddKeeps` | core-cpp/vb/src/runtime.cpp:701-708 | adding a stream, also under an index used before, keeps the invariant |
| `StreamPoolInvariant.StepKeeps` | core-cpp/vb/src/pool.cpp:56-118 | every step of every thread keeps the invariant |
| `StreamPoolInvariant.RunKeeps` | core-cpp/vb/src/pool.cpp:56-118 | so does every interleaved run |
| `StreamPoolSafety.OneHolder` | core-cpp/vb/src/pool.cpp:86-116 | in every reachable state a stream is in at most one batch position, and then its busy flag is up |
| `StreamPoolSafety.ExclusiveChain` | core-cpp/vb/src/pool.cpp:139-144 | at most one worker is inside process() for a stream |
| `StreamPoolSafety.BusyHasHolder` | core-cpp/vb/src/pool.cpp:86-116 | a busy flag that is up always has a worker that will clear it |
| `StreamPoolSafety.BatchBounded` | core-cpp/vb/src/pool.cpp:80-93 | a batch never exceeds the backend's limit, and has one frame per stream |
| `StreamPoolSafety.FramesConserved` | core-cpp/vb/src/pool.cpp:86-110 | puts = overwritten + processed + skipped by removal + in a worker's hands + (1 if the slot is full) |
| `StreamPoolSafety.TrackerOrder` | core-cpp/vb/src/pool.cpp:139-170 | the frames a stream's tracker sees are a subsequence of those put, in put order |
| `StreamPoolSafety.NothingAfterStopped` | core-cpp/vb/src/runtime.cpp:772-823 | no frame, event or tensor record of a stream is queued after its "stopped" record |
| `StreamPoolReplies.StoppedOnceIff` | core-cpp/vb/src/runtime.cpp:807-826 | in every reachable state a stream that was removed (out of the table, no remove of it on) has exactly one "stopped" record and exactly one reply that says removed; every other stream has neither |
| `StreamPoolReplies.StoppedBeforeReply` | core-cpp/vb/src/runtime.cpp:823-826 | the reply that says removed comes after its stream's "stopped" record |
| `StreamPoolReplies.ReplyTellsTable` | core-cpp/vb/src/runtime.cpp:799-826 | whatever step answers a remove, the answer says removed exactly when the stream is out of the table then, and exactly when the step queues its "stopped" record; a timed-out remove is answered false |
| `StreamPoolReplies.EachAnsweredOnce` | core-cpp/vb/src/runtime.cpp:760-826 | over any run the requests taken up are those answered, in order, then the remove still worked on: none twice, none passed over |
| `StreamPoolReplies.PollSeesWorkers` | core-cpp/vb/src/runtime.cpp:786-798 | a poll lets the remove go on exactly when no worker holds the stream's lock or has it in its batch |
| `StreamPoolReplies.OutputIsTracked` | core-cpp/vb/src/pool.cpp:139-170 | a frame, event or tensor record is queued only from inside process() for its stream, which was not removed, and with the frame its tracker saw last |
| `StreamPoolSafety.RemoveIsFinal` | core-cpp/vb/src/runtime.cpp:786-798 | once op_remove saw the lock free and busy false, no continuation of the run processes the stream again |
| `StreamPoolSafety.RefusesOnlyWhileRemoving` | core-cpp/vb/src/runtime.cpp:774-801 | a stream in the table refuses claims exactly while a remove of it is being decided |
| `StreamPoolSafety.TimeoutRestores` | core-cpp/vb/src/runtime.cpp:799-805 | a timed-out remove leaves the stream in the table and claimable |
| `StreamPoolSafety.UnfedForever` | core-cpp/vb/src/runtime.cpp:710-752 | a stream whose source thread has left never receives a frame again, in any run |
| `StreamPoolSafety.UsableIffFed` | core-cpp/vb/src/runtime.cpp:710-752 | a further frame of a stream can be put if and only if its source thread has not left |
| `StreamPoolSafety.TimedOutRemoveCanStarve` | core-cpp/vb/src/runtime.cpp:715-715 | from a claimed stream, a remove that times out can leave it in the table with its source gone |
| `StreamPoolSafety.StarvedReachable` | core-cpp/vb/src/runtime.cpp:710-805 | such a state is reachable from the empty runtime |
| `StreamPoolUsable.SomeoneCanGo` | core-cpp/vb/src/pool.cpp:60-117 | no deadlock: while a worker is in a round, the next step of some worker is enabled |
| `StreamPoolUsable.Quiesce` | core-cpp/vb/src/pool.cpp:60-117 | from any state the workers can all finish their rounds, while control and source threads rest |
| `StreamPoolUsable.RoundsUntilLock` | core-cpp/vb/src/pool.cpp:65-96 | rounds over the map's order reach every stream with a waiting frame when no other frames come in: each round locks it or empties a box |
| `StreamPoolUsable.UsableIff` | core-cpp/vb/src/runtime.cpp:772-826 | from a reachable state some continuation processes a new frame of a stream if and only if its source thread runs and its removal was not decided (given a worker and room in a batch), also during a removal that is still waiting |
| `Writers.Writer.PushFrame` | core-cpp/vb/src/writer.cpp:72-92 | from the invariant's states: the newest frames up to max(1, frame_queue) stay queued, one drop is counted exactly when the queue was at the limit, no event moves |
| `Writers.Writer.PushEvent` | core-cpp/vb/src/writer.cpp:94-101 | appends, or counts one backpressure and parks the producer |
| `Writers.Writer.ResumeEvent` | core-cpp/vb/src/writer.cpp:100-105 | a parked producer that wakes appends its event, or gives up when stopping |
| `Writers.Writer.Pop` | core-cpp/vb/src/writer.cpp:112-122 | the writer takes the head into its hand and adjusts the counter of its kind |
| `Writers.Writer.CallSink` | core-cpp/vb/src/writer.cpp:123-123 | the record in hand is delivered |
| `Writers.Writer.Drain` | core-cpp/vb/src/writer.cpp:58-70 | stop() delivers the whole queue in order |
| `Writers.RefinesLog` | core-cpp/vb/src/writer.cpp:72-125 | delivered + in hand + queued = the accepted records, in order, with exactly `frames_dropped` frames erased |
| `Writers.EventsNeverDropped` | core-cpp/vb/src/writer.cpp:94-106 | the events delivered, in hand and queued are exactly the accepted events, in order |
| `Writers.PushedEventsAccounted` | core-cpp/vb/src/writer.cpp:94-106 | every event pushed is delivered, in hand or queued, or its producer waits, or gave up because of a stop |
| `Writers.QueueHoldsNewestFrames` | core-cpp/vb/src/writer.cpp:75-90 | the queued frames are the newest accepted ones |
| `Writers.CountersExact` | core-cpp/vb/src/writer.cpp:72-122 | both counters equal the true counts and stay within their limits (a frame limit of 0 still admits one) |
| `Writers.FramePushExact` | core-cpp/vb/src/writer.cpp:72-92 | in any run a frame push leaves the last max(1, frame_queue) of the queued frames and the new one, drops one exactly when the queue was at the limit, and leaves the queued events as they were |
| `Writers.EventPushExact` | core-cpp/vb/src/writer.cpp:94-106 | in any run an event is queued unless the queue holds as many events as the limit; then its producer waits and is counted; a woken producer queues it, or gives up on a stop |
| `Writers.DrainDelivers` | core-cpp/vb/src/writer.cpp:58-70 | after the final drain every accepted record was delivered or is one of the counted drops |
| `Bytes.Buffer.Put` | core-cpp/vb/src/wire.cpp:8-19 | appends the low bytes of a value, low byte first |
| `Bytes.UnLeLe` | core-cpp/vb/src/wire.cpp:13-19 | reading n little-endian bytes back gives the value modulo 256^n |
| `Bytes.UnpackPack` | core-py/vision_base/wire.py:24-36 | a packed struct reads back field by field wherever it stands in a body |
| `Bytes.UnpackItem` | core-py/vision_base/wire.py:70-72 | row i of a table of equal-width records is read at its own offset |
| `Bytes.UnpackFloats` | core-py/vision_base/wire.py:79-86 | any run of floats inside a float block reads back |
| `Wire.HeaderFrames` | core-cpp/vb/src/wire.cpp:39-42 | the header names the right magic always, and the right length exactly when the body is shorter than 2^32 |
| `Wire.Vbr1BodySize` | core-cpp/vb/src/wire.cpp:75-89 | the declared VBR1 length is the true one, and the cast to 32 bits never narrows it |
| `Wire.EncodeVbr1` | core-cpp/vb/src/wire.cpp:75-120 | refuses exactly the records whose vectors disagree with the counts and appends nothing; otherwise appends the record |
| `Wire.DecodeResult` | core-py/vision_base/wire.py:58-96 | the three offset-advancing loops read every field at its fixed offset |
| `Wire.RoundTrip` | core-py/vision_base/wire.py:58-96 | whatever the C++ encoder accepts, the Python decoder returns: every field, each detection's own key points and attribute row |
| `Wire.ShortBodyRefused` | core-py/vision_base/wire.py:60-68 | every proper prefix of an encoded body is refused as truncated |
| `Wire.EncodeVbs1` | core-cpp/vb/src/wire.cpp:128-134 | appends the snapshot record |
| `Wire.EncodeJson` | core-cpp/vb/src/wire.cpp:122-126 | appends a JSON record |
| `Wire.SnapshotRoundTrip` | core-py/vision_base/wire.py:110-121 | a snapshot comes back exactly when its meta text fits the 32-bit length |
| `WireTensors.EncodeVbt1` | core-cpp/vb/src/dev_tensor.cpp:53-117 | refuses with the first failing check and appends nothing; otherwise appends the record |
| `WireTensors.ChecksPass` | core-cpp/vb/src/dev_tensor.cpp:64-77 | the check loop passes exactly when every tensor fits its length fields |
| `WireTensors.AcceptedIff` | core-cpp/vb/src/dev_tensor.cpp:53-117 | a tensor frame is accepted exactly when each count and length fits its field and the record stays within 16 MiB |
| `WireTensors.DecodeTensors` | core-py/vision_base/wire.py:124-166 | the decoding loop equals the recursive reading of the body, errors included |
| `WireTensors.TensorRoundTrip` | core-py/vision_base/wire.py:124-166 | every tensor of an accepted frame comes back with all its fields |
| `WireTensors.AlignmentSurvives` | core-py/vision_base/wire.py:131-134 | the alignment code survives exactly when it is 0 or 1, which are the runtime's only codes (types.h) |
| `Readers.Reader.Chunk` | core-py/vision_base/runtime_client.py:308-324 | one chunk: the complete records are dispatched, the rest is kept |
| `Readers.Reader.ReadLoop` | core-py/vision_base/runtime_client.py:301-324 | the loop over chunks ends at an empty chunk or a closed socket |
| `Readers.DrainCut` | core-py/vision_base/runtime_client.py:309-320 | draining any cut of a stream of records takes exactly its complete records off and loses no byte |
| `Readers.ReaderDispatches` | core-py/vision_base/runtime_client.py:296-324 | for every chunking the dispatched records are the sent ones, whole and in order; a shorter list needs a VBT1 record outside dev mode |
| `Readers.LoopGoesOn` | core-py/vision_base/runtime_client.py:301-307 | more chunks are read exactly while the socket is open and none was the end of file |
| `Readers.BadMagicClears` | core-py/vision_base/runtime_client.py:309-316 | bytes that start no record cost the rest of the buffer; the records before them are dispatched |
| `WirePath.Encode` | core-cpp/vb/src/wire.cpp:75-134 | one encoder call appends one record, or nothing when it refuses |
| `WirePath.EncodeAll` | core-cpp/vb/src/wire.cpp:75-134 | encoder calls one after the other append exactly the stream of the records they did not refuse |
| `WirePath.EndToEnd` | core-py/vision_base/runtime_client.py:296-367 | the stream of any encoded items, cut into any chunks, reaches the client in order and decodes to all that was encoded, whole tensor frames included |
| `WirePath.SendAndRead` | core-py/vision_base/runtime_client.py:296-367 | the encoder calls, any cutting of their bytes and the read loop composed: the accepted items arrive, decoded, in order |
| `FrameRecords.InterleaveAttrs` | core-cpp/vb/src/pool.cpp:31-37 | every row gets the scratch row of its own track at the offset and keeps its other cells |
| `FrameRecords.BuildAttrs` | core-cpp/vb/src/pool.cpp:196-221 | row t of the attribute block is the analyzers' rows for track t in chain order |
| `FrameRecords.CellOwner` | core-cpp/vb/src/pool.cpp:206-217 | every cell of a row holds a value some analyzer wrote for that track |
| `FrameRecords.OneOwner` | core-cpp/vb/src/pool.cpp:206-217 | and that analyzer is unique |
| `FrameRecords.KptCount` | core-cpp/vb/src/pool.cpp:306-312 | the loop with its (size_t)-1 marker finds the one count the tracks agree on, or 0 |
| `FrameRecords.EncodeFrame` | core-cpp/vb/src/pool.cpp:299-352 | a frame is encoded if and only if the counts fit their bytes and no track lacks the agreed key points; otherwise nothing is appended |
| `FrameRecords.OneBareTrackDropsFrame` | core-cpp/vb/src/pool.cpp:306-350 | a track without key points beside tracks that agree on a count drops the whole frame |
| `FrameRecords.FrameDelivered` | core-cpp/vb/src/pool.cpp:196-352 | after encode and decode, detection t has track t's id, key points, and the analyzers' blocks for t in chain order |
| `FrameRecords.FrameToClient` | core-cpp/vb/src/pool.cpp:196-225 | laying out the blocks, encoding the frame and decoding it composed: every track arrives with its id, key points and blocks, for exactly the frames that can be encoded |
| `GreedyMatching.PickBest` | core-cpp/vb/src/tracker.cpp:110-120 | the inner loop returns the first of the best free detections above the threshold |
| `GreedyMatching.RunPass` | core-cpp/vb/src/tracker.cpp:103-127 | one pass equals the recursive greedy matching |
| `GreedyMatching.GreedyStable` | core-cpp/vb/src/tracker.cpp:103-127 | every track has the best detection that no earlier rank took, and none it may not have |
| `GreedyMatching.StableUnique` | core-cpp/vb/src/tracker.cpp:103-127 | that property determines the matching |
| `GreedyMatching.GreedyOneToOne` | core-cpp/vb/src/tracker.cpp:84-127 | no detection goes to two tracks, and `det_used` marks exactly the matched ones |
| `Trackers.ByHitsOrdered` | core-cpp/vb/src/tracker.cpp:77-82 | the service order is a permutation, by falling hits, ties by position |
| `Trackers.MatchingOneToOne` | core-cpp/vb/src/tracker.cpp:84-164 | the two passes together are one to one |
| `Trackers.FirstPassStable` | core-cpp/vb/src/tracker.cpp:101-127 | a strictly better overlap above threshold was lost to a track earlier in the stable hits order (what an overlap is: `TrackerGains.IouIsShare`, `IouZeroIff`, `IouRange`) |
| `Trackers.SecondPassStable` | core-cpp/vb/src/tracker.cpp:139-164 | the same by anchor distance, over the detections left, for tracks with misses <= 5 |
| `Trackers.MatchesAllowed` | core-cpp/vb/src/tracker.cpp:101-164 | every match respects classes and its pass's threshold, and pass 2 changes no match of pass 1 |
| `Trackers.Tracker.AgeAndErase` | core-cpp/vb/src/tracker.cpp:185-202 | the loop that erases from both vectors at one index keeps them aligned: each track meets its own match |
| `Trackers.Tracker.AddBirths` | core-cpp/vb/src/tracker.cpp:204-219 | every unused detection becomes a track with the next 32-bit id |
| `Trackers.Tracker.FilterAlive` | core-cpp/vb/src/tracker.cpp:221-226 | the alive list keeps the track order |
| `Trackers.Tracker.Update` | core-cpp/vb/src/tracker.cpp:68-227 | the whole update equals matching, then `After`, with the removed ids and the labelled detections; what that does to each track: `TrackerGains.UpdateExact` |
| `Trackers.Tracker.Reset` | core-cpp/vb/src/tracker.cpp:42-48 | starts over, with ids from 1 |
| `TrackerGains.IouIsShare` | core-cpp/vb/src/tracker.cpp:25-37 | the overlap of two boxes times the area of the points in either is the area of the points in both |
| `TrackerGains.IouZeroIff` | core-cpp/vb/src/tracker.cpp:25-37 | it is 0 exactly when the boxes have no inner point in common |
| `TrackerGains.IouRange` | core-cpp/vb/src/tracker.cpp:25-37 | it lies between 0 and 1, is the same both ways, and is 1 exactly for one and the same box |
| `TrackerGains.IouInside` | core-cpp/vb/src/tracker.cpp:25-37 | a box inside another overlaps it by its share of the area |
| `TrackerGains.LookedForAt` | core-cpp/vb/src/tracker.cpp:87-95 | a track just seen or at rest is looked for at its box, a coasting one at its box moved on evenly with its velocity |
| `TrackerGains.ClassesKept` | core-cpp/vb/src/tracker.cpp:97-164 | a class-aware tracker matches within classes, in both passes |
| `TrackerGains.FoundWhereLookedFor` | core-cpp/vb/src/tracker.cpp:101-127 | at every threshold below 1, a detection on the very box where a track is looked for is lost only to a track served before or to a detection on the same box |
| `TrackerGains.StandingTrackKeepsId` | core-cpp/vb/src/tracker.cpp:101-183 | a track alone, seen in the last frame, passes its id to a detection on its box at every threshold below 1 |
| `TrackerGains.MovingTrackKeepsId` | core-cpp/vb/src/tracker.cpp:87-183 | a coasting track alone passes its id to a detection of its size that is where its velocity takes it |
| `TrackerGains.AnchorsMeetIff` | core-cpp/vb/src/tracker.cpp:133-155 | the distance of pass 2 is 0 exactly when the centres, or the middles of the lower edges, fall together |
| `TrackerGains.SteadyVelocity` | core-cpp/vb/src/tracker.cpp:50-66 | a track that goes on as before keeps its velocity |
| `TrackerGains.VelocityMovesOn` | core-cpp/vb/src/tracker.cpp:50-66 | the difference to the measured velocity shrinks by 60% on a sudden stop or start and by 8% otherwise; below 3 pixels a second it is none; within a millisecond it stays |
| `TrackerGains.UpdateExact` | core-cpp/vb/src/tracker.cpp:166-219 | track by track and detection by detection: a matched track takes its detection over, an unmatched one is missed once more and removed exactly when that passes a limit, a detection left over begins a track, and there are no others |
| `TrackerGains.AliveIff` | core-cpp/vb/src/tracker.cpp:221-226 | after each update of any run the alive list holds exactly the tracks with at least min_hits hits, in order |
| `TrackerRuns.SurviveExact` | core-cpp/vb/src/tracker.cpp:185-202 | matched tracks stay, unmatched ones are aged, and leave exactly when expired by misses or by time |
| `TrackerRuns.SurviveIds` | core-cpp/vb/src/tracker.cpp:185-202 | the paired erase loses and duplicates no id and keeps the order |
| `TrackerRuns.EveryIdOnce` | core-cpp/vb/src/tracker.cpp:166-219 | over any run, until the counter wraps, each issued id is live or was reported removed, exactly once |
| `TrackerRuns.TracksAscend` | core-cpp/vb/src/tracker.cpp:166-219 | the track list is strictly ascending in id, with non-zero ids below `next_id_` |
| `TrackerRuns.RemovedForGood` | core-cpp/vb/src/tracker.cpp:196-198 | a removed id never comes back and is never reported again |
| `TrackerRuns.LabelIs` | core-cpp/vb/src/tracker.cpp:166-219 | a matched detection carries its track's id, any other one the next new id |
| `TrackerRuns.LabelsDistinct` | core-cpp/vb/src/tracker.cpp:166-219 | after an update all detections carry distinct non-zero ids, until the counter wraps |
| `TrackerRuns.ZeroIffWrapped` | core-cpp/vb/src/tracker.cpp:208-208 | id 0 is handed out by exactly the update that passes 2^32 - 1 issued ids |
| `TrackerRuns.FirstFrameWraps` | core-cpp/vb/src/tracker.cpp:205-219 | the first frame of a run hands out id 0 exactly when it has 2^32 detections or more |
| `TrackerRuns.MissesBounded` | core-cpp/vb/src/tracker.cpp:185-202 | no track of any run exceeds max_misses, for limits below 2^31 - 1 |
| `TrackerRuns.MissesOkIff` | core-cpp/vb/src/tracker.cpp:185-202 | in every run all tracks stay within max_misses, if and only if max_misses is below 2^31 - 1 |
| `TrackerRuns.LargestLimitFails` | core-cpp/vb/src/tracker.cpp:192-193 | at the largest limit any detection that is then missing for 2^31 frames at one time passes it, for every time limit |
| `LineCrossing.Analyzer.Configure` | core-cpp/vb/src/analyzers/line_cross.cpp:104-170 | a degenerate line refuses the configuration; otherwise every line starts empty |
| `LineCrossing.Analyzer.Step` | core-cpp/vb/src/analyzers/line_cross.cpp:198-269 | one track on one line: state and event equal `AfterFrame`, the other lines are untouched |
| `LineCrossing.Analyzer.OnFrame` | core-cpp/vb/src/analyzers/line_cross.cpp:177-196 | the nested loops give every line the run of its own calls, and its events in that run's order |
| `LineCrossing.Analyzer.OnTrackRemoved` | core-cpp/vb/src/analyzers/line_cross.cpp:271-287 | every line forgets the track and remembers it as lost if it was counted |
| `LineCrossRuns.CrossRules` | core-cpp/vb/src/analyzers/line_cross.cpp:224-268 | a crossing is counted exactly under the rules, with the side it came from as its direction and never the last counted one again; outside the band the side becomes the anchor's |
| `LineCrossRuns.OncePerDirectionIff` | core-cpp/vb/src/analyzers/line_cross.cpp:17-19 | over any run no direction repeats along a chain if and only if at most two crossings were counted on it |
| `LineCrossRuns.RepeatsIff` | core-cpp/vb/src/analyzers/line_cross.cpp:246-250 | a counted crossing repeats a direction of its chain exactly when two were counted on it before |
| `LineCrossRuns.ForwardTwice` | core-cpp/vb/src/analyzers/line_cross.cpp:246-250 | a run of one track, with settings that the defaults meet, that is counted forward, backward and forward |
| `LineCrossRuns.PruneChangesNoHeir` | core-cpp/vb/src/analyzers/line_cross.cpp:283-285 | pruning lost records never changes a later inheritance |
| `LineCrossRuns.InheritedOnce` | core-cpp/vb/src/analyzers/line_cross.cpp:204-214 | over any run no two tracks continue the same chain: a lost record is inherited at most once |
| `LineCrossRuns.ChainAlternates` | core-cpp/vb/src/analyzers/line_cross.cpp:198-287 | along every chain of reborn tracks the counted directions alternate, so forward minus backward is -1, 0 or 1 |
| `LineCrossRuns.TagsFollow` | core-cpp/vb/src/analyzers/line_cross.cpp:198-287 | the tagged run has the analyzer's states and its events' directions |
| `LineCrossSides.SideIsBeyond` | core-cpp/vb/src/analyzers/line_cross.cpp:219-227 | the side of a point is the sign of its cross product with the line, 0 within the band times the line's length |
| `LineCrossSides.ProjectionIsAlong` | core-cpp/vb/src/analyzers/line_cross.cpp:222-239 | the projection passes exactly when the point lies between the ends of the line, each moved out by the margin |
| `LineCrossSides.CountsExactly` | core-cpp/vb/src/analyzers/line_cross.cpp:198-269 | over every run: a frame counts a crossing exactly when its point is beyond the band on one side, its chain was last beyond it on the other, it is alongside the line, its track is old enough and has moved on, and the chain last counted the other direction; +1 exactly when the point is now on the negative side, -1 exactly when on the positive one; all told from the calls |
| `LineCrossSides.InheritsExactly` | core-cpp/vb/src/analyzers/line_cross.cpp:204-214 | over every run: a track's first frame continues the first waiting chain lost near enough and recently enough, any other frame stays in its chain; places and times are those of the calls |
| `LineCrossSides.WaitsExactly` | core-cpp/vb/src/analyzers/line_cross.cpp:271-287 | over every run: after a removal the chains past the window at the front are gone, and the removed track's chain waits exactly when a crossing was counted on it |
| `LineCrossSides.AnchorIsFoot` | core-cpp/vb/src/analyzers/line_cross.cpp:182-189 | the point judged is the middle of the lower edge, moved on while coasting: the foot of the box where the tracker looks |
| `LineCrossSides.FrameOpsAre` | core-cpp/vb/src/analyzers/line_cross.cpp:177-195 | a frame calls a line once for each track of a counted class, in order, with the source point of its foot |
| `FrameBatchers.FrameBatcher.Enqueue` | core-cpp/vb/backends/hailo/frame_batcher.cpp:14-17 | accepted exactly when not stopped and the stream exists; the stream then holds the newest frames up to the depth, one drop is counted exactly when it was full, and nothing else changes |
| `FrameBatchers.PushExact` | core-cpp/vb/backends/hailo/frame_batcher.cpp:14-17 | the same of the function: refused exactly after a stop or without the stream |
| `FrameBatchers.BatchIsRotation` | core-cpp/vb/backends/hailo/frame_batcher.cpp:27-30 | the batch is the oldest frames in the order of the rotation, then the second oldest in the same order, cut at the batch size |
| `FrameBatchers.AcceptedExact` | core-cpp/vb/backends/hailo/frame_batcher.cpp:14-33 | over any run what a stream accepted is exactly the frames pushed for it before the first stop |
| `FrameBatchers.FrameBatcher.ServeBatch` | core-cpp/vb/backends/hailo/frame_batcher.cpp:27-31 | the two rotating rounds equal `Serve` |
| `FrameBatchers.BatchOrder` | core-cpp/vb/backends/hailo/frame_batcher.cpp:29-30 | a stream's part of the batch followed by its queue is what its queue held |
| `FrameBatchers.ShortBatchEmpties` | core-cpp/vb/backends/hailo/frame_batcher.cpp:28-30 | a batch with room left took two frames of each stream; with depth <= 2 every queue is empty |
| `FrameBatchers.FrontOfRotation` | core-cpp/vb/backends/hailo/frame_batcher.cpp:27-29 | the stream whose turn it is comes first |
| `FrameBatchers.EmptyBatchOnlyWhenIdle` | core-cpp/vb/backends/hailo/frame_batcher.cpp:29-30 | a batch is empty only when every queue was |
| `FrameBatchers.StreamsConserve` | core-cpp/vb/backends/hailo/frame_batcher.cpp:14-33 | over any run: accepted = delivered, dropped or discarded, in order, + queue; exact drop counts; the histogram totals batches and frames; queues within depth |
| `FrameBatchers.ServedWithinN` | core-cpp/vb/backends/hailo/frame_batcher.cpp:27-31 | a stream with frames waiting heads one of any n batches |
| `Sha256.PaddingLeast` | core-cpp/vb/backends/cpu/sha256.cpp:56-66 | the zero bits are the least that solve the congruence of section 5.1.1 of FIPS 180-4, and the result is whole blocks (5.2.1) |
| `Sha256.BuildTail` | core-cpp/vb/backends/cpu/sha256.cpp:56-66 | the 64- or 128-byte tail is the rest of the padded message, for messages shorter than 2^61 bytes |
| `Sha256.ProcessBlock` | core-cpp/vb/backends/cpu/sha256.cpp:22-53 | the in-place loops compute the compression of section 6.2.2 |
| `Sha256.FillSchedule` | core-cpp/vb/backends/cpu/sha256.cpp:24-35 | the array holds the message schedule |
| `Sha256.ProgramAgrees` | core-cpp/vb/backends/cpu/sha256.cpp:20-35 | shift-and-or rotations and the code's order of additions equal the operations of section 4.1.2 |
| `Sha256.Sha256Words` | core-cpp/vb/backends/cpu/sha256.cpp:49-68 | the digest words are those of the standard |
| `Sha256Constants.Cubes0` | core-cpp/vb/backends/cpu/sha256.cpp:9-10 | the first eight round constants are the first 32 bits of the fractional parts of the cube roots of the first primes; `Cubes1` to `Cubes7` say so of the other rows |
| `Sha256Constants.SquareRoots` | core-cpp/vb/backends/cpu/sha256.cpp:54-55 | the initial hash value is the same of the square roots of the first eight primes |
| `Sha256Constants.Chooses` | core-cpp/vb/backends/cpu/sha256.cpp:39-39 | ch is f where the bits of e are 1 and g where they are 0 |
| `Sha256Constants.Majority` | core-cpp/vb/backends/cpu/sha256.cpp:42-42 | where two of the three agree maj is what they are, whichever two |
| `Sha256Example.DigestOfAbc` | core-cpp/vb/backends/cpu/sha256.cpp:53-68 | the digest of "abc" is the published one, computed through the whole schedule and all rounds |
| `Publishing.PublishWorker.Submit` | core-py/vision_base/publish.py:40-47 | a full queue drops its oldest message, counted; with a size of 0 the call raises and changes nothing |
| `Publishing.PublishWorker.PopIfHead` | core-py/vision_base/publish.py:61-64 | pops the head only if it equals the finished item |
| `Publishing.SentInOrder` | core-py/vision_base/publish.py:89-121 | under any interleaving the sent messages are submissions in strictly increasing order, none twice |
| `Publishing.SubmitExact` | core-py/vision_base/publish.py:40-47 | in any run a submit leaves the newest messages up to the size queued and counts one drop exactly when the queue was full; a size of 0 takes nothing in |
| `Publishing.SubmittedAre` | core-py/vision_base/publish.py:40-47 | the submissions the other results speak of are those of the run, in order |
| `Publishing.NothingUnaccounted` | core-py/vision_base/publish.py:40-121 | submitted <= queued + sent + unencodable + dropped, with equality exactly when no finished item was evicted; the queue stays within its size |
| `Publishing.PopTakesAnother` | core-py/vision_base/publish.py:61-64 | a pop removes another submission than the finished one exactly when that one was evicted and the head equals it |
| `Publishing.EachHasAFate` | core-py/vision_base/publish.py:40-121 | each submission, by position, is queued, sent, unencodable or dropped, or was popped in place of an equal earlier one and then is none of these |
| `Publishing.DistinctAllAccounted` | core-py/vision_base/publish.py:40-121 | with pairwise distinct messages nothing leaves the queue but by its own send, encoding failure or eviction |
| `Publishing.PoppedUnsentIff` | core-py/vision_base/publish.py:61-64 | a submission can be popped unsent in some run of the same submits if and only if an equal one precedes it and queue_size - 1 others follow it |
| `MqttIds.Publisher.Register` | core-py/vision_base/mqtt.py:208-222 | an undisturbed search ends, given a free id, at the first free id from the pointer on, in 1..65535 and unused |
| `MqttIds.Publisher.AllocPid` | core-py/vision_base/mqtt.py:512-518 | an undisturbed subscribe call finds its id the same way |
| `MqttIds.FreeUnlessDisturbed` | core-py/vision_base/mqtt.py:512-518 | in every reachable state a subscribe call returns a free id unless the pointer was written between its own write and its test |
| `MqttIds.AllocReturnsIdInUse` | core-py/vision_base/mqtt.py:516-516 | one such write is enough: a reachable state in which the second exit returns the id of a publish in flight |
| `MqttIds.SearchAlone` | core-py/vision_base/mqtt.py:208-222 | the single steps of a search, undisturbed, do what Register does |
| `MqttIds.Publisher.OnPuback` | core-py/vision_base/mqtt.py:623-637 | resolves the registered waiter once; an unknown id is ignored |
| `MqttIds.Publisher.Pop` | core-py/vision_base/mqtt.py:228-242 | removes by id, and reports whether an entry was there |
| `MqttIds.FullMapHasNoFreeId` | core-py/vision_base/mqtt.py:214-219 | with all 65535 ids in use the search would find none |
| `MqttIds.EachLeavesOnce` | core-py/vision_base/mqtt.py:207-243 | over any run, subscribe calls interfering at every step, at most max_inflight ids are in flight, and every publish holds its id or left the map exactly once |
| `MqttIds.Departures` | core-py/vision_base/mqtt.py:623-646 | in any run a registration leaves by an ack of its id, by a publish giving up under that id, or with all others at a disconnect, and in no other step |
| `MqttIds.GiveUpTakesOwn` | core-py/vision_base/mqtt.py:238-242 | a publish that gives up removes its own entry or none, while fewer than 65535 pointer writes followed the one that took its id and none was stale, or at most one followed |
| `MqttIds.GiveUpSafeIff` | core-py/vision_base/mqtt.py:207-243 | for each number of writes since and each answer to whether one was stale: popping is safe in every reachable state if and only if that bound holds |
| `MqttIds.LateAckDroppedIff` | core-py/vision_base/mqtt.py:243-245 | for the same numbers: the late PUBACK of a publish that timed out is never credited to another one in any reachable state, if and only if that bound holds |
| `MqttIds.GiveUpCanTakeAnother` | core-py/vision_base/mqtt.py:238-242 | 65535 writes, all by publishes, are enough: a reachable state in which it removes another's entry |
| `MqttIds.SubscribeSetsBack` | core-py/vision_base/mqtt.py:469-518 | one subscribe call that read the pointer early sets it back: two writes after a publish took its id another one holds it, in a reachable state, whether the first was acknowledged or timed out |
| `MqttIds.PointerAt` | core-py/vision_base/mqtt.py:216-216 | as long as each write follows the pointer, it visits the ids cyclically |
| `Commands.ControlPlane.Handle` | core-py/vision_base/control.py:108-156 | a remembered id is answered with its stored ack under the new time and not executed; others are executed and remembered |
| `Commands.SeenIsRecent` | core-py/vision_base/control.py:131-155 | the map always holds the most recently handled distinct ids in recency order, at most seen_size |
| `Commands.ReexecutedIff` | core-py/vision_base/control.py:131-155 | a request is executed again exactly when at least seen_size other distinct ids were handled since |
| `Commands.StoredAckIsLastExecution` | core-py/vision_base/control.py:131-155 | a stored ack is the one built when its id was last executed |
| `Suppression.Nms` | backends/rknn/detector.py:44-61 | the loop ends and equals the recursive suppression |
| `Suppression.KeptApart` | backends/rknn/detector.py:48-60 | kept boxes do not overlap by more than the threshold |
| `Suppression.KeptIff` | backends/rknn/detector.py:44-61 | a box is kept if and only if no kept box before it overlaps it too much; a suppressor scores at least as much |
| `Suppression.KeptFalls` | backends/rknn/detector.py:44-61 | the kept list has no repeats and falling scores |
| `Suppression.OverlapIsShare` | backends/rknn/detector.py:47-60 | boxes of a billionth in area or more overlap as in the tracker: by the share of their common points |
| `Retail.ZoneMetrics.OnTrackRemoved` | core-cpp/zone_metrics.cpp:61-67 | the running sums stay the totals of the deque |
| `Retail.ZoneMetrics.PruneWindow` | core-cpp/zone_metrics.cpp:13-30 | records are popped from the front while older than the cutoff, with exact sums |
| `Retail.WindowExactIff` | core-cpp/zone_metrics.cpp:13-67 | each update leaves exactly the records of the last window, if and only if no record inside a window stands before one outside it and no window reaches back to a record an earlier one had left |
| `Retail.WindowExact` | core-cpp/zone_metrics.cpp:13-67 | with a clock that never steps back, each update leaves exactly the records of the last window |
| `Retail.BackwardClockLosesRecord` | core-cpp/zone_metrics.cpp:21-29 | an update that jumps ahead loses a record a later window covers |
| `Retail.OldRecordStays` | core-cpp/zone_metrics.cpp:21-29 | a record older than one handed over before it outlives its window |
| `Retail.PersonTracker.RemoveTrack` | core-cpp/person_tracker.cpp:308-346 | a removed person is reported once, and counted out when lost at an edge after enough frames |
| `Retail.PersonTracker.Update` | core-cpp/person_tracker.cpp:348-456 | one update equals refreshing the matched tracks, ageing the others, removing the overdue ones in id order, and a new track for exactly each person without a match |
| `Retail.FrameBalanced` | core-cpp/person_tracker.cpp:348-456 | it keeps the balance, issues as many ids as persons were unmatched, and reports no matched track |
| `Retail.CountersBalance` | core-cpp/person_tracker.cpp:308-456 | over any run of frames with one-to-one matchings: entry count = next id = live + reported = unmatched persons seen; exit count = reported tracks that left at an edge |
| `Retail.EachPersonOnce` | core-cpp/person_tracker.cpp:308-456 | each issued id is live or was reported |
| `Retail.TotalsAre` | core-cpp/zone_metrics.cpp:61-67 | the sums kept are those of each part over the records in the deque, and their number |
| `Retail.PersonsOnly` | core-cpp/person_tracker.cpp:355-361 | the boxes tracked are those of the detections of persons, in order |
| `Retail.TrackExact` | core-cpp/person_tracker.cpp:371-432 | per track and frame: a matched one is one frame older, found and on its box; an unmatched one is lost once more, and reported and dropped exactly when over the edge limit at an edge, or over the other limit elsewhere |
| `Retail.NewcomerExact` | core-cpp/person_tracker.cpp:434-457 | every unmatched person begins a track under the next ids, in order |
| `Retail.LostWithinLimit` | core-cpp/person_tracker.cpp:411-432 | in every run a live track is found or within the limit of its kind |
| `PersonMatching.MatchDetections` | core-cpp/person_tracker.cpp:118-205 | the two greedy passes, as a function of the live tracks in sorted order and the boxes |
| `PersonMatching.MatchesOneToOne` | core-cpp/person_tracker.cpp:118-205 | whatever order the sort left, they give a matching one to one between live tracks and persons |
| `PersonMatching.MatchesAllowed` | core-cpp/person_tracker.cpp:139-202 | pass 1 matches only above the overlap threshold; pass 2 keeps them and adds tracks lost for at most five frames, within the distance threshold |
| `PersonMatching.EveryMatchReturned` | core-cpp/person_tracker.cpp:163-205 | the pairs returned are the matched tracks with their boxes: each of them, and no others |
| `PersonMatching.FirstPassStable` | core-cpp/person_tracker.cpp:139-170 | a box that overlaps a track more than its own went to a track served before |
| `PersonMatching.LatePassStable` | core-cpp/person_tracker.cpp:172-207 | the same by distance, over the boxes pass 1 left, for tracks lost for at most five frames |
| `Surface.Reflexive` | tools/vb_stable_surface.py:330-345 | a snapshot has no errors against itself |
| `Surface.ComposesIff` | tools/vb_stable_surface.py:300-345 | two passed checks compose if and only if every list that held scalars in two releases and a dict or list in the third starts with the first release's items in order |
| `Surface.Transitive` | tools/vb_stable_surface.py:300-345 | without such a list passed checks compose |
| `Surface.PlainHasNoTurn` | tools/vb_stable_surface.py:304-318 | there is none when the last snapshot's lists under unordered keys hold scalars |
| `Surface.NotTransitiveWithDicts` | tools/vb_stable_surface.py:304-324 | a triple whose checks do not compose |
| `Surface.NothingRemoved` | tools/vb_stable_surface.py:304-345 | whatever is recorded at a path of names and list indices is still there, compatibly; what is recorded in a list compared as a set is still in that list |
| `Surface.RequiredIsFrozen` | tools/vb_stable_surface.py:307-318 | where a node records a `required` list, a passing check keeps its set, if and only if the current list holds names only |
| `Surface.ReplacedAt` | tools/vb_stable_surface.py:330-345 | a change at one path of a snapshot is reported exactly when the values there are incompatible |
| `Surface.RequiredAdditionReportedIff` | tools/vb_stable_surface.py:330-345 | new required fields at any node, root or nested or in a oneOf branch, are reported if and only if the node records a `required` list |
| `Surface.FirstRequiredPasses` | tools/vb_stable_surface.py:335-341 | a node with properties and no `required` list can be given a required field unnoticed |
| `Surface.MembersOnlyAppended` | tools/vb_stable_surface.py:320-327 | a reordered member list is an error: lists under other names, and lists in lists, may only grow at their end |

## Left out

- Stream pool: modelled on values as a step system, not as objects updated in place; one critical section is one step; one control thread (as in the runtime); `Runtime::stop`, `op_configure_analyzer` and `op_snapshot` are not modelled, nor are pool fairness and real time. An `op_add` that fails (index in use, source does not open) is not modelled, and one that succeeds is a single step.
- Writers.DrainDelivers: speaks of the records only; the counters are not decremented by the final drain and starting again after a stop is not modelled.
- Readers.ReaderDispatches: streams of well-formed records; after a bad magic the client clears its buffer, so what follows depends on the chunking and is not described. The map of pending replies is not modelled.
- WirePath.EndToEnd: JSON texts and float values are opaque bits, names are bytes (the client replaces invalid UTF-8), and of the alignment code the name arrives (WireTensors.AlignmentSurvives); JSON and snapshot bodies of 2^32 bytes or more are excluded, as their length field does not hold them.
- FrameRecords.EncodeFrame: the frame's own fields come from a parameter; the snapshot ring, untracked streams and the events are not modelled.
- Trackers.Tracker.Update: floats are reals, key-point offsets do not wrap, and std::stable_sort is the function it is specified to be.
- TrackerRuns.EveryIdOnce: runs start at a new tracker and contain no reset; after the counter wraps nothing is claimed.
- LineCrossing.Analyzer.Configure: of the configuration checks only the degenerate line is modelled; JSON parsing and ranges are not.
- LineCrossRuns.ChainAlternates: a chain ends when a track's age wraps at 2^32 frames and it inherits another record.
- FrameBatchers.StreamsConserve: counters are unbounded; a take may be served after stop, which covers takes that were already waiting; a take that starts after stop refuses even when frames are still queued.
- Sha256.Sha256Words: the hexadecimal text of the digest is not modelled.
- MqttIds.Publisher.Register: the wait for room, sockets and the table of pending subscribes are not modelled; with all 65535 ids in use the search does not end (MqttIds.FullMapHasNoFreeId), so a free id is required; nothing is said about how long subscribe calls can disturb a search.
- Publishing.SentInOrder: JSON encoding is an outcome; the back-off time and `close` are not modelled.
- Commands.ControlPlane.Handle: the ack that an execution would build is a parameter; command validation is not modelled.
- Suppression.Nms: argsort is a parameter of which only the falling order is used.
- Retail.WindowExact: the window length does not change; occupancy samples and their median are not modelled.
- Retail.PersonTracker.Update: without an entry line and with a callback; velocity and dwell data are one opaque value, counters are unbounded, and the list of visible tracks it returns is not modelled.
- Surface.Transitive: error and addition texts are not modelled, only whether an error is reported.
- HTTP, GStreamer, inference backends, other analyzers, the supervisor, and the command-line tools are not part of this model.
