/** The stream ownership protocol of the native runtime as a step system.

    Context workers (`ContextPool::worker`), one source thread per stream
    (`Runtime::source_thread`) and one control thread (`op_add`, `op_remove`)
    interleave. A step is one critical section, one read of the atomic
    `removing` flag, or one record pushed to the writer; a timeout may fire at
    any poll that failed. Stream states are never forgotten: a worker keeps
    the ones in its snapshot alive after they left the table. */
module StreamPool {
  import opened Wrappers
  import opened LatestFrames

  type StreamId = nat  // identity of a StreamState object, never reused
  type WorkerId = nat
  type Frame = nat     // position of a frame in its source's put order

  datatype Claimant = Claimant(w: WorkerId, p: nat)

  datatype Stream = Stream(
    index: nat,
    busy: bool,
    removing: bool,
    holder: Option<WorkerId>,   // who is inside a holder_mu section
    box: Mailbox<Frame>,
    fed: bool,                  // the source thread is still running
    // history
    stopped: bool,              // a "stopped" record was queued
    owner: Option<Claimant>,       // the worker and batch position that hold the busy flag
    puts: nat,
    claimed: Option<Frame>,     // taken from the box, neither processed nor skipped yet
    skipped: nat,
    processed: seq<Frame>,      // process() was entered with this frame
    tracked: seq<Frame>)        // inference succeeded, the tracker saw this frame

  datatype Pc =
    | Idle
    | Fetched                        // snapshot taken, cursor not read yet
    | Scan(k: nat)
    | Locked(k: nat, s: StreamId)    // try_lock succeeded on the k-th candidate
    | Passed(k: nat, s: StreamId)    // read busy and removing as false
    | Took(k: nat, s: StreamId, frame: Frame)  // moved the frame out of the box
    | Turn(i: nat)                   // about to read removing of batch[i]
    | Enter(i: nat)                  // read it as false, waiting for holder_mu
    | Inside(i: nat, ok: bool)       // in process(); ok: inference succeeded
    | Release(i: nat)

  datatype Worker = Worker(pc: Pc, start: nat, snap: seq<StreamId>, batch: seq<StreamId>, frames: seq<Frame>)

  datatype Control =
    | Ready
    | Found(s: StreamId)
    | Polling(s: StreamId)
    | Refused(s: StreamId)           // this poll saw the lock held or the stream busy
    | Released(s: StreamId)          // this poll saw the lock free and busy false
    | Joining(s: StreamId)           // out of the table, waiting for the source thread
    | Stopping(s: StreamId)

  /** What a reply answers. */
  datatype Request = ToAdd(added: StreamId) | ToRemove(found: StreamId) | ToUnknown(index: nat)

  datatype Record =
    | Starting(s: StreamId)
    | SourceState(s: StreamId)       // "running" and "reconnecting"
    | Output(s: StreamId)            // VBR1, VBE1 or VBT1
    | Stopped(s: StreamId)
    | Reply(to: Request, ok: bool)

  datatype State = State(
    streams: map<StreamId, Stream>,
    table: map<nat, StreamId>,
    workers: map<WorkerId, Worker>,
    cursor: nat,
    control: Control,
    log: seq<Record>,                // records in the order they were queued
    maxBatch: nat)

  /** snapshot[(start + k) % n] */
  function Target(w: Worker, k: nat): StreamId
    requires w.snap != []
  {
    w.snap[(w.start + k) % |w.snap|]
  }

  function NewStream(index: nat): Stream {
    Stream(index, false, false, None, Empty(), true, false, None, 0, None, 0, [], [])
  }

  ghost predicate Init(st: State) {
    && st.streams == map[] && st.table == map[] && st.control == Ready && st.log == []
    && forall w <- st.workers :: st.workers[w] == Worker(Idle, 0, [], [], [])
  }

  /** The order of the stream map: ascending index. */
  ghost predicate ByIndex(streams: map<StreamId, Stream>, q: seq<StreamId>) {
    && (forall i | 0 <= i < |q| :: q[i] in streams)
    && (forall i, j | 0 <= i < j < |q| :: streams[q[i]].index < streams[q[j]].index)
  }

  function SetWorker(st: State, w: WorkerId, v: Worker): State {
    st.(workers := st.workers[w := v])
  }

  function SetStream(st: State, s: StreamId, v: Stream): State {
    st.(streams := st.streams[s := v])
  }

  function SetPc(st: State, w: WorkerId, pc: Pc): State
    requires w in st.workers
  {
    SetWorker(st, w, st.workers[w].(pc := pc))
  }

  // ---- Context workers (pool.cpp, lines 60-117) ----

  /** op_remove holds the map's lock while it joins the source thread. */
  ghost predicate CanSnapshot(st: State, w: WorkerId, order: seq<StreamId>) {
    && w in st.workers && st.workers[w].pc == Idle && !st.control.Joining?
    && (forall s :: s in order <==> s in st.table.Values) && ByIndex(st.streams, order)
  }

  function Snapshot(st: State, w: WorkerId, order: seq<StreamId>): State {
    SetWorker(st, w, Worker(if order == [] then Idle else Fetched, 0, order, [], []))
  }

  ghost predicate CanReadCursor(st: State, w: WorkerId) {
    w in st.workers && st.workers[w].pc == Fetched
  }

  function ReadCursor(st: State, w: WorkerId): State
    requires w in st.workers
  {
    SetWorker(st, w, st.workers[w].(pc := Scan(0), start := st.cursor))
  }

  ghost predicate CanTryLock(st: State, w: WorkerId) {
    w in st.workers && var me := st.workers[w];
    me.pc.Scan? && me.pc.k < |me.snap| && |me.batch| < st.maxBatch && Target(me, me.pc.k) in st.streams
  }

  ghost function TryLock(st: State, w: WorkerId): State
    requires CanTryLock(st, w)
  {
    var k := st.workers[w].pc.k;
    var s := Target(st.workers[w], k);
    if st.streams[s].holder.Some? then SetPc(st, w, Scan(k + 1))
    else SetStream(SetPc(st, w, Locked(k, s)), s, st.streams[s].(holder := Some(w)))
  }

  ghost predicate CanCheck(st: State, w: WorkerId) {
    w in st.workers && st.workers[w].pc.Locked? && st.workers[w].pc.s in st.streams
  }

  ghost function Check(st: State, w: WorkerId): State
    requires CanCheck(st, w)
  {
    var pc := st.workers[w].pc;
    var x := st.streams[pc.s];
    if x.busy || x.removing then SetStream(SetPc(st, w, Scan(pc.k + 1)), pc.s, x.(holder := None))
    else SetPc(st, w, Passed(pc.k, pc.s))
  }

  ghost predicate CanTakeFrame(st: State, w: WorkerId) {
    w in st.workers && st.workers[w].pc.Passed? && st.workers[w].pc.s in st.streams
  }

  ghost function TakeFrame(st: State, w: WorkerId): State
    requires CanTakeFrame(st, w)
  {
    var pc := st.workers[w].pc;
    var x := st.streams[pc.s];
    if x.box.slot.None? then SetStream(SetPc(st, w, Scan(pc.k + 1)), pc.s, x.(holder := None))
    else
      SetStream(SetPc(st, w, Took(pc.k, pc.s, x.box.slot.value)), pc.s,
          x.(box := AfterTake(x.box), claimed := x.box.slot))
  }

  ghost predicate CanClaim(st: State, w: WorkerId) {
    w in st.workers && st.workers[w].pc.Took? && st.workers[w].pc.s in st.streams
  }

  ghost function Claim(st: State, w: WorkerId): State
    requires CanClaim(st, w)
  {
    var me := st.workers[w];
    var s := me.pc.s;
    SetStream(
      SetWorker(st, w, me.(pc := Scan(me.pc.k + 1), batch := me.batch + [s], frames := me.frames + [me.pc.frame])),
      s, st.streams[s].(busy := true, holder := None, owner := Some(Claimant(w, |me.batch|))))
  }

  ghost predicate CanEndScan(st: State, w: WorkerId) {
    w in st.workers && var me := st.workers[w];
    me.pc.Scan? && (me.pc.k >= |me.snap| || |me.batch| >= st.maxBatch)
  }

  ghost function EndScan(st: State, w: WorkerId): State
    requires CanEndScan(st, w)
  {
    var batch := st.workers[w].batch;
    SetPc(st, w, if batch == [] then Idle else Turn(0)).(cursor := st.cursor + |batch| + 1)
  }

  /** The batch entry at position i exists and names a known stream. */
  ghost predicate At(st: State, w: WorkerId, i: nat) {
    w in st.workers && i < |st.workers[w].batch| == |st.workers[w].frames| && st.workers[w].batch[i] in st.streams
  }

  ghost predicate CanSkipTurn(st: State, w: WorkerId) {
    w in st.workers && st.workers[w].pc.Turn? && At(st, w, st.workers[w].pc.i) &&
    st.streams[st.workers[w].batch[st.workers[w].pc.i]].removing
  }

  ghost function SkipTurn(st: State, w: WorkerId): State
    requires CanSkipTurn(st, w)
  {
    var i := st.workers[w].pc.i;
    var s := st.workers[w].batch[i];
    SetStream(SetPc(st, w, Turn(i + 1)), s, st.streams[s].(claimed := None, skipped := st.streams[s].skipped + 1))
  }

  ghost predicate CanTakeTurn(st: State, w: WorkerId) {
    w in st.workers && st.workers[w].pc.Turn? && At(st, w, st.workers[w].pc.i) &&
    !st.streams[st.workers[w].batch[st.workers[w].pc.i]].removing
  }

  function TakeTurn(st: State, w: WorkerId): State
    requires w in st.workers && st.workers[w].pc.Turn?
  {
    SetPc(st, w, Enter(st.workers[w].pc.i))
  }

  ghost predicate CanEnterProcess(st: State, w: WorkerId) {
    w in st.workers && st.workers[w].pc.Enter? && At(st, w, st.workers[w].pc.i) &&
    st.streams[st.workers[w].batch[st.workers[w].pc.i]].holder.None?
  }

  ghost function EnterProcess(st: State, w: WorkerId, ok: bool): State
    requires CanEnterProcess(st, w)
  {
    var me := st.workers[w];
    var i := me.pc.i;
    var x := st.streams[me.batch[i]];
    SetStream(SetPc(st, w, Inside(i, ok)), me.batch[i],
              x.(holder := Some(w), claimed := None, processed := x.processed + [me.frames[i]],
                 tracked := x.tracked + (if ok then [me.frames[i]] else [])))
  }

  ghost predicate CanEmit(st: State, w: WorkerId) {
    w in st.workers && st.workers[w].pc.Inside? && st.workers[w].pc.ok && At(st, w, st.workers[w].pc.i)
  }

  ghost function Emit(st: State, w: WorkerId): State
    requires CanEmit(st, w)
  {
    st.(log := st.log + [Output(st.workers[w].batch[st.workers[w].pc.i])])
  }

  ghost predicate CanLeave(st: State, w: WorkerId) {
    w in st.workers && st.workers[w].pc.Inside? && At(st, w, st.workers[w].pc.i)
  }

  ghost function Leave(st: State, w: WorkerId): State
    requires CanLeave(st, w)
  {
    var i := st.workers[w].pc.i;
    var s := st.workers[w].batch[i];
    SetStream(SetPc(st, w, Turn(i + 1)), s, st.streams[s].(holder := None))
  }

  ghost predicate CanEndTurns(st: State, w: WorkerId) {
    w in st.workers && st.workers[w].pc == Turn(|st.workers[w].batch|)
  }

  function EndTurns(st: State, w: WorkerId): State
    requires w in st.workers
  {
    SetPc(st, w, Release(0))
  }

  ghost predicate CanLetGo(st: State, w: WorkerId) {
    w in st.workers && st.workers[w].pc.Release? && At(st, w, st.workers[w].pc.i) &&
    st.streams[st.workers[w].batch[st.workers[w].pc.i]].holder.None?
  }

  ghost function LetGo(st: State, w: WorkerId): State
    requires CanLetGo(st, w)
  {
    var i := st.workers[w].pc.i;
    var s := st.workers[w].batch[i];
    SetStream(SetPc(st, w, Release(i + 1)), s, st.streams[s].(busy := false, owner := None))
  }

  ghost predicate CanEndRound(st: State, w: WorkerId) {
    w in st.workers && st.workers[w].pc == Release(|st.workers[w].batch|)
  }

  function EndRound(st: State, w: WorkerId): State
    requires w in st.workers
  {
    SetWorker(st, w, st.workers[w].(pc := Idle, batch := [], frames := []))
  }

  // ---- Source threads (runtime.cpp, lines 710-752) ----

  ghost predicate Fed(st: State, s: StreamId) {
    s in st.streams && st.streams[s].fed
  }

  function PutFrame(st: State, s: StreamId): State
    requires s in st.streams
  {
    var x := st.streams[s];
    SetStream(st, s, x.(box := AfterPut(x.box, x.puts), puts := x.puts + 1))
  }

  function ReportState(st: State, s: StreamId): State {
    st.(log := st.log + [SourceState(s)])
  }

  ghost predicate CanSourceExit(st: State, s: StreamId) {
    Fed(st, s) && st.streams[s].removing
  }

  function SourceExit(st: State, s: StreamId): State
    requires s in st.streams
  {
    SetStream(st, s, st.streams[s].(fed := false))
  }

  // ---- The control thread (runtime.cpp, lines 612-827) ----

  ghost predicate CanAdd(st: State, index: nat, s: StreamId) {
    st.control == Ready && index !in st.table && s !in st.streams
  }

  function Add(st: State, index: nat, s: StreamId): State {
    SetStream(st, s, NewStream(index))
      .(table := st.table[index := s], log := st.log + [Starting(s), Reply(ToAdd(s), true)])
  }

  /** op_remove looks the index up. */
  function Find(st: State, index: nat): State {
    if index in st.table then st.(control := Found(st.table[index]))
    else st.(log := st.log + [Reply(ToUnknown(index), false)])
  }

  function Mark(st: State): State
    requires st.control != Ready && st.control.s in st.streams
  {
    SetStream(st, st.control.s, st.streams[st.control.s].(removing := true)).(control := Polling(st.control.s))
  }

  function Poll(st: State): State
    requires st.control != Ready && st.control.s in st.streams
  {
    var x := st.streams[st.control.s];
    st.(control := if x.holder.None? && !x.busy then Released(st.control.s) else Refused(st.control.s))
  }

  function Retry(st: State): State
    requires st.control != Ready
  {
    st.(control := Polling(st.control.s))
  }

  /** The deadline passed after a refused poll. */
  function GiveUp(st: State): State
    requires st.control != Ready && st.control.s in st.streams
  {
    SetStream(st, st.control.s, st.streams[st.control.s].(removing := false))
      .(control := Ready, log := st.log + [Reply(ToRemove(st.control.s), false)])
  }

  function Detach(st: State): State
    requires st.control != Ready && st.control.s in st.streams
  {
    var index := st.streams[st.control.s].index;
    if index in st.table && st.table[index] == st.control.s then
      st.(table := st.table - {index}, control := Joining(st.control.s))
    else st.(control := Ready, log := st.log + [Reply(ToRemove(st.control.s), false)])
  }

  function Join(st: State): State
    requires st.control != Ready
  {
    st.(control := Stopping(st.control.s))
  }

  function EmitStopped(st: State): State
    requires st.control != Ready && st.control.s in st.streams
  {
    SetStream(st, st.control.s, st.streams[st.control.s].(stopped := true))
      .(control := Ready, log := st.log + [Stopped(st.control.s), Reply(ToRemove(st.control.s), true)])
  }

  // ---- Runs ----

  datatype Step =
    | SSnapshot(w: WorkerId, order: seq<StreamId>) | SReadCursor(w: WorkerId) | STryLock(w: WorkerId)
    | SCheck(w: WorkerId) | STakeFrame(w: WorkerId) | SClaim(w: WorkerId) | SEndScan(w: WorkerId)
    | SSkipTurn(w: WorkerId) | STakeTurn(w: WorkerId) | SEnterProcess(w: WorkerId, ok: bool) | SEmit(w: WorkerId)
    | SLeave(w: WorkerId) | SEndTurns(w: WorkerId) | SLetGo(w: WorkerId) | SEndRound(w: WorkerId)
    | SPutFrame(s: StreamId) | SReportState(s: StreamId) | SSourceExit(s: StreamId)
    | SAdd(index: nat, s: StreamId) | SFind(index: nat) | SMark | SPoll | SRetry | SGiveUp | SDetach | SJoin
    | SEmitStopped

  ghost predicate Enabled(st: State, step: Step) {
    match step
    case SSnapshot(w, order) => CanSnapshot(st, w, order)
    case SReadCursor(w) => CanReadCursor(st, w)
    case STryLock(w) => CanTryLock(st, w)
    case SCheck(w) => CanCheck(st, w)
    case STakeFrame(w) => CanTakeFrame(st, w)
    case SClaim(w) => CanClaim(st, w)
    case SEndScan(w) => CanEndScan(st, w)
    case SSkipTurn(w) => CanSkipTurn(st, w)
    case STakeTurn(w) => CanTakeTurn(st, w)
    case SEnterProcess(w, _) => CanEnterProcess(st, w)
    case SEmit(w) => CanEmit(st, w)
    case SLeave(w) => CanLeave(st, w)
    case SEndTurns(w) => CanEndTurns(st, w)
    case SLetGo(w) => CanLetGo(st, w)
    case SEndRound(w) => CanEndRound(st, w)
    case SPutFrame(s) => Fed(st, s)
    case SReportState(s) => Fed(st, s)
    case SSourceExit(s) => CanSourceExit(st, s)
    case SAdd(index, s) => CanAdd(st, index, s)
    case SFind(_) => st.control == Ready
    case SMark => st.control.Found? && st.control.s in st.streams
    case SPoll => st.control.Polling? && st.control.s in st.streams
    case SRetry => st.control.Refused?
    case SGiveUp => st.control.Refused? && st.control.s in st.streams
    case SDetach => st.control.Released? && st.control.s in st.streams
    case SJoin => st.control.Joining? && st.control.s in st.streams && !st.streams[st.control.s].fed
    case SEmitStopped => st.control.Stopping? && st.control.s in st.streams
  }

  ghost function Apply(st: State, step: Step): State
    requires Enabled(st, step)
  {
    match step
    case SSnapshot(w, order) => Snapshot(st, w, order)
    case SReadCursor(w) => ReadCursor(st, w)
    case STryLock(w) => TryLock(st, w)
    case SCheck(w) => Check(st, w)
    case STakeFrame(w) => TakeFrame(st, w)
    case SClaim(w) => Claim(st, w)
    case SEndScan(w) => EndScan(st, w)
    case SSkipTurn(w) => SkipTurn(st, w)
    case STakeTurn(w) => TakeTurn(st, w)
    case SEnterProcess(w, ok) => EnterProcess(st, w, ok)
    case SEmit(w) => Emit(st, w)
    case SLeave(w) => Leave(st, w)
    case SEndTurns(w) => EndTurns(st, w)
    case SLetGo(w) => LetGo(st, w)
    case SEndRound(w) => EndRound(st, w)
    case SPutFrame(s) => PutFrame(st, s)
    case SReportState(s) => ReportState(st, s)
    case SSourceExit(s) => SourceExit(st, s)
    case SAdd(index, s) => Add(st, index, s)
    case SFind(index) => Find(st, index)
    case SMark => Mark(st)
    case SPoll => Poll(st)
    case SRetry => Retry(st)
    case SGiveUp => GiveUp(st)
    case SDetach => Detach(st)
    case SJoin => Join(st)
    case SEmitStopped => EmitStopped(st)
  }

  /** `steps` is a run from `st`; it ends in `Final(st, steps)`. */
  ghost predicate Runs(st: State, steps: seq<Step>)
    decreases |steps|
  {
    steps == [] || (Enabled(st, steps[0]) && Runs(Apply(st, steps[0]), steps[1..]))
  }

  ghost function Final(st: State, steps: seq<Step>): State
    requires Runs(st, steps)
    decreases |steps|
  {
    if steps == [] then st else Final(Apply(st, steps[0]), steps[1..])
  }

  /** `st` is the last state of some run of the runtime. */
  ghost predicate Reachable(st: State) {
    exists init: State, steps: seq<Step> :: Init(init) && Runs(init, steps) && Final(init, steps) == st
  }

  lemma {:induction false} RunExtends(st: State, steps: seq<Step>, step: Step)
    requires Runs(st, steps) && Enabled(Final(st, steps), step)
    ensures Runs(st, steps + [step]) && Final(st, steps + [step]) == Apply(Final(st, steps), step)
    decreases |steps|
  {
    if steps == [] {
      assert (steps + [step])[1..] == [];
    } else {
      RunExtends(Apply(st, steps[0]), steps[1..], step);
      assert (steps + [step])[1..] == steps[1..] + [step];
    }
  }

  lemma ReachableStep(st: State, step: Step)
    requires Reachable(st) && Enabled(st, step)
    ensures Reachable(Apply(st, step))
  {
    var init: State, steps: seq<Step> :| Init(init) && Runs(init, steps) && Final(init, steps) == st;
    RunExtends(init, steps, step);
  }

  lemma InitReachable(st: State)
    requires Init(st)
    ensures Reachable(st)
  {
    assert Runs(st, []) && Final(st, []) == st;
  }
}
