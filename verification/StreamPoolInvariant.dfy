/** The inductive invariant of the stream ownership protocol. */
module StreamPoolInvariant {
  import opened Wrappers
  import opened StreamPool

  /** Batch position p holds the busy flag of s. */
  ghost predicate Holds(w: Worker, p: nat, s: StreamId) {
    p < |w.batch| && w.batch[p] == s && (w.pc.Release? ==> w.pc.i <= p)
  }

  /** Batch position p carries frame f of s, neither processed nor skipped yet. */
  ghost predicate Pending(w: Worker, p: nat, s: StreamId, f: Frame) {
    p < |w.batch| && w.batch[p] == s && p < |w.frames| && w.frames[p] == f &&
    match w.pc
    case Turn(i) => i <= p
    case Enter(i) => i <= p
    case Inside(i, _) => i < p
    case Release(_) => false
    case _ => true
  }

  /** The worker has seen s claimable and not given its lock up. */
  ghost predicate Claiming(w: Worker, s: StreamId) {
    (w.pc.Passed? || w.pc.Took?) && w.pc.s == s
  }

  /** The worker moved frame f of s out of the box and has not set busy yet. */
  ghost predicate InHand(w: Worker, s: StreamId, f: Frame) {
    w.pc.Took? && w.pc.s == s && w.pc.frame == f
  }

  ghost predicate Processing(w: Worker, s: StreamId) {
    w.pc.Inside? && w.pc.i < |w.batch| && w.batch[w.pc.i] == s
  }

  /** The worker is between lock and unlock of the stream's holder_mu. */
  ghost predicate LockedOn(w: Worker, s: StreamId) {
    (w.pc.Locked? && w.pc.s == s) || Claiming(w, s) || Processing(w, s)
  }

  /** op_remove is past setting `removing` for s and has not replied. */
  ghost predicate Removing(c: Control, s: StreamId) {
    !c.Ready? && !c.Found? && c.s == s
  }

  /** op_remove has seen the lock of s free and its busy flag down. */
  ghost predicate Ended(c: Control, s: StreamId, x: Stream) {
    ((c.Released? || c.Joining? || c.Stopping?) && c.s == s) || x.stopped
  }

  ghost predicate Gone(c: Control, s: StreamId, x: Stream) {
    ((c.Joining? || c.Stopping?) && c.s == s) || x.stopped
  }

  ghost predicate WorkerOk(st: State, w: Worker) {
    && (forall i | 0 <= i < |w.snap| :: w.snap[i] in st.streams)
    && (forall i | 0 <= i < |w.batch| :: w.batch[i] in st.streams)
    && |w.frames| == |w.batch| <= st.maxBatch
    && match w.pc
       case Idle => w.batch == []
       case Fetched => w.batch == [] && w.snap != []
       case Scan(k) => k <= |w.snap|
       case Locked(k, s) => k < |w.snap| && |w.batch| < st.maxBatch && s in st.streams
       case Passed(k, s) => k < |w.snap| && |w.batch| < st.maxBatch && s in st.streams
       case Took(k, s, _) => k < |w.snap| && |w.batch| < st.maxBatch && s in st.streams
       case Turn(i) => i <= |w.batch|
       case Enter(i) => i < |w.batch|
       case Inside(i, _) => i < |w.batch|
       case Release(i) => i <= |w.batch|
  }

  /** What relates one worker to one stream. */
  ghost predicate PairOk(c: Control, w: WorkerId, v: Worker, s: StreamId, x: Stream) {
    && (LockedOn(v, s) <==> x.holder == Some(w))
    && (forall p: nat :: Holds(v, p, s) <==> x.owner == Some(Claimant(w, p)))
    && (Claiming(v, s) ==> !x.busy && !Ended(c, s, x))
    && (forall p: nat, f: Frame :: Pending(v, p, s, f) ==> x.claimed == Some(f))
    && (forall f: Frame :: InHand(v, s, f) ==> x.claimed == Some(f))
  }

  ghost predicate Ascending(q: seq<Frame>) {
    forall i, j :: 0 <= i < j < |q| ==> q[i] < q[j]
  }

  ghost predicate Below(q: seq<Frame>, bound: int) {
    q != [] ==> q[|q| - 1] < bound
  }

  function Count<T>(o: Option<T>): nat {
    if o.Some? then 1 else 0
  }

  ghost predicate FramesOk(x: Stream) {
    && x.puts == x.box.dropped + |x.processed| + x.skipped + Count(x.claimed) + Count(x.box.slot)
    && Ascending(x.processed) && Ascending(x.tracked)
    && (forall f <- x.tracked :: f in x.processed)
    && Below(x.processed, x.puts)
    && (x.processed == [] ==> x.tracked == [])
    && (x.processed != [] ==> Below(x.tracked, x.processed[|x.processed| - 1] + 1))
    && (x.claimed.Some? ==> Below(x.processed, x.claimed.value) && x.claimed.value < x.puts)
    && (x.box.slot.Some? ==>
          Below(x.processed, x.box.slot.value) && x.box.slot.value < x.puts &&
          (x.claimed.Some? ==> x.claimed.value < x.box.slot.value))
  }

  ghost predicate RemovalOk(c: Control, table: map<nat, StreamId>, s: StreamId, x: Stream) {
    && (x.removing <==> Removing(c, s) || x.stopped)
    && (Ended(c, s, x) ==> !x.busy)
    && (Gone(c, s, x) <==> !(x.index in table && table[x.index] == s))
    && (x.stopped || c == Stopping(s) ==> !x.fed)
    && (c != Ready && c.s == s ==> !x.stopped)
  }

  /** The history fields `holder`, `owner` and `claimed` name real workers. */
  ghost predicate LinksOk(workers: map<WorkerId, Worker>, s: StreamId, x: Stream) {
    && x.busy == x.owner.Some?
    && (x.holder.Some? ==> x.holder.value in workers)
    && (x.owner.Some? ==> x.owner.value.w in workers)
    && (x.claimed.Some? ==>
          || (x.holder.Some? && x.holder.value in workers && InHand(workers[x.holder.value], s, x.claimed.value))
          || (x.owner.Some? && x.owner.value.w in workers &&
              Pending(workers[x.owner.value.w], x.owner.value.p, s, x.claimed.value)))
  }

  ghost predicate About(r: Record, s: StreamId) {
    !r.Reply? && r.s == s
  }

  ghost predicate LogOk(st: State) {
    && (forall i | 0 <= i < |st.log| && !st.log[i].Reply? ::
          st.log[i].s in st.streams && (st.log[i].Stopped? ==> st.streams[st.log[i].s].stopped))
    && (forall i, j | 0 <= i < j < |st.log| && st.log[i].Stopped? :: !About(st.log[j], st.log[i].s))
  }

  ghost predicate TableOk(st: State) {
    && (forall ix <- st.table :: st.table[ix] in st.streams && st.streams[st.table[ix]].index == ix)
    && (st.control != Ready ==> st.control.s in st.streams)
  }

  ghost predicate WorkersOk(st: State) {
    forall w {:trigger WorkerOk(st, st.workers[w])} | w in st.workers :: WorkerOk(st, st.workers[w])
  }

  ghost predicate PairsOk(st: State) {
    forall w, s {:trigger PairOk(st.control, w, st.workers[w], s, st.streams[s])}
      | w in st.workers && s in st.streams :: PairOk(st.control, w, st.workers[w], s, st.streams[s])
  }

  ghost predicate FramesAllOk(st: State) {
    forall s {:trigger FramesOk(st.streams[s])} | s in st.streams :: FramesOk(st.streams[s])
  }

  ghost predicate RemovalsOk(st: State) {
    forall s {:trigger RemovalOk(st.control, st.table, s, st.streams[s])}
      | s in st.streams :: RemovalOk(st.control, st.table, s, st.streams[s])
  }

  ghost predicate LinksAllOk(st: State) {
    forall s {:trigger LinksOk(st.workers, s, st.streams[s])}
      | s in st.streams :: LinksOk(st.workers, s, st.streams[s])
  }

  ghost predicate Inv(st: State) {
    TableOk(st) && WorkersOk(st) && PairsOk(st) && LinksAllOk(st) && RemovalsOk(st) && FramesAllOk(st) && LogOk(st)
  }

  lemma InitInv(st: State)
    requires Init(st)
    ensures Inv(st)
  {
  }

  // ---- Steps that touch one worker and one stream ----

  /** Nothing the invariant says about the worker and s differs between v and v'. */
  ghost predicate SameView(v: Worker, v': Worker, s: StreamId) {
    && (LockedOn(v, s) <==> LockedOn(v', s))
    && (Claiming(v, s) <==> Claiming(v', s))
    && (forall p: nat :: Holds(v, p, s) <==> Holds(v', p, s))
    && (forall p: nat, f: Frame :: Pending(v, p, s, f) <==> Pending(v', p, s, f))
    && (forall f: Frame :: InHand(v, s, f) <==> InHand(v', s, f))
  }

  ghost predicate HolderIsMine(x: Stream, w: WorkerId) {
    x.holder.None? || x.holder == Some(w)
  }

  ghost predicate OwnerIsMine(x: Stream, w: WorkerId) {
    x.owner.None? || x.owner.value.w == w
  }

  /** Worker w may change x into x' without disturbing any other worker. */
  ghost predicate Polite(x: Stream, x': Stream, w: WorkerId) {
    && (x'.holder == x.holder || (HolderIsMine(x, w) && HolderIsMine(x', w)))
    && (x'.owner == x.owner || (OwnerIsMine(x, w) && OwnerIsMine(x', w)))
    && (x'.busy ==> x.busy || x.holder == Some(w))
    && (x'.claimed == x.claimed || ((HolderIsMine(x, w) || x.busy) && OwnerIsMine(x, w)))
    && x'.index == x.index && x'.stopped == x.stopped && x'.removing == x.removing && x'.fed == x.fed
  }

  ghost predicate LocalStep(st: State, st': State, w: WorkerId, s: StreamId) {
    && w in st.workers && s in st.streams && w in st'.workers && s in st'.streams
    && st'.workers == st.workers[w := st'.workers[w]]
    && st'.streams == st.streams[s := st'.streams[s]]
    && st'.table == st.table && st'.control == st.control && st'.maxBatch == st.maxBatch
  }

  lemma LocalPairs(st: State, st': State, w: WorkerId, s: StreamId)
    requires LocalStep(st, st', w, s) && PairsOk(st)
    requires Polite(st.streams[s], st'.streams[s], w)
    requires PairOk(st.control, w, st'.workers[w], s, st'.streams[s])
    requires forall s2 <- st.streams :: s2 != s ==> SameView(st.workers[w], st'.workers[w], s2)
    ensures PairsOk(st')
  {
    forall w2, s2 | w2 in st'.workers && s2 in st'.streams
      ensures PairOk(st'.control, w2, st'.workers[w2], s2, st'.streams[s2])
    {
      assert PairOk(st.control, w2, st.workers[w2], s2, st.streams[s2]);
      if w2 != w && s2 == s {
        OtherWorkerPair(st.control, w, w2, st.workers[w2], s, st.streams[s], st'.streams[s]);
      }
    }
  }

  lemma OtherWorkerPair(c: Control, w: WorkerId, w2: WorkerId, v: Worker, s: StreamId, x: Stream, x': Stream)
    requires w != w2 && Polite(x, x', w) && PairOk(c, w2, v, s, x)
    ensures PairOk(c, w2, v, s, x')
  {
    forall p: nat, f: Frame | Pending(v, p, s, f)
      ensures x'.claimed == Some(f)
    {
      assert Holds(v, p, s);
    }
    forall f: Frame | InHand(v, s, f)
      ensures x'.claimed == Some(f)
    {
      assert Claiming(v, s);
    }
  }

  lemma LocalLinks(st: State, st': State, w: WorkerId, s: StreamId)
    requires LocalStep(st, st', w, s) && LinksAllOk(st)
    requires LinksOk(st'.workers, s, st'.streams[s])
    requires forall s2 <- st.streams :: s2 != s ==> SameView(st.workers[w], st'.workers[w], s2)
    ensures LinksAllOk(st')
  {
    forall s2 <- st'.streams
      ensures LinksOk(st'.workers, s2, st'.streams[s2])
    {
      assert LinksOk(st.workers, s2, st.streams[s2]);
    }
  }

  lemma SameLog(st: State, st': State)
    requires LogOk(st) && st'.log == st.log && st.streams.Keys <= st'.streams.Keys
    requires forall s <- st.streams :: st.streams[s].stopped ==> st'.streams[s].stopped
    ensures LogOk(st')
  {
  }

  lemma OneWorker(st: State, st': State, w: WorkerId)
    requires WorkersOk(st) && w in st.workers && w in st'.workers && WorkerOk(st, st'.workers[w])
    requires st'.workers == st.workers[w := st'.workers[w]]
    requires st'.streams.Keys == st.streams.Keys && st'.maxBatch == st.maxBatch
    ensures WorkersOk(st')
  {
    forall w2 <- st'.workers
      ensures WorkerOk(st', st'.workers[w2])
    {
      assert w2 != w ==> WorkerOk(st, st.workers[w2]);
    }
  }

  lemma LocalKeeps(st: State, st': State, w: WorkerId, s: StreamId)
    requires Inv(st) && LocalStep(st, st', w, s) && st'.log == st.log
    requires Polite(st.streams[s], st'.streams[s], w)
    requires WorkerOk(st, st'.workers[w])
    requires PairOk(st.control, w, st'.workers[w], s, st'.streams[s])
    requires LinksOk(st'.workers, s, st'.streams[s])
    requires FramesOk(st'.streams[s])
    requires st'.streams[s].busy ==> !Ended(st.control, s, st.streams[s])
    requires forall s2 <- st.streams :: s2 != s ==> SameView(st.workers[w], st'.workers[w], s2)
    ensures Inv(st')
  {
    LocalPairs(st, st', w, s);
    LocalLinks(st, st', w, s);
    SameLog(st, st');
    OneWorker(st, st', w);
    LocalRest(st, st', w, s);
  }

  lemma LocalRest(st: State, st': State, w: WorkerId, s: StreamId)
    requires LocalStep(st, st', w, s) && TableOk(st) && RemovalsOk(st) && FramesAllOk(st)
    requires Polite(st.streams[s], st'.streams[s], w)
    requires FramesOk(st'.streams[s])
    requires st'.streams[s].busy ==> !Ended(st.control, s, st.streams[s])
    ensures TableOk(st') && RemovalsOk(st') && FramesAllOk(st')
  {
    assert RemovalOk(st.control, st.table, s, st.streams[s]);
    forall s2 <- st'.streams
      ensures RemovalOk(st'.control, st'.table, s2, st'.streams[s2]) && FramesOk(st'.streams[s2])
    {
      assert RemovalOk(st.control, st.table, s2, st.streams[s2]);
      assert s2 != s ==> FramesOk(st.streams[s2]);
    }
  }

  /** A step that changes one worker and no stream. */
  lemma WorkerOnlyKeeps(st: State, st': State, w: WorkerId)
    requires Inv(st) && w in st.workers && w in st'.workers
    requires st' == st.(workers := st.workers[w := st'.workers[w]], cursor := st'.cursor)
    requires WorkerOk(st, st'.workers[w])
    requires forall s <- st.streams :: SameView(st.workers[w], st'.workers[w], s)
    ensures Inv(st')
  {
    OneWorker(st, st', w);
    forall w2, s | w2 in st'.workers && s in st'.streams
      ensures PairOk(st'.control, w2, st'.workers[w2], s, st'.streams[s])
    {
      assert PairOk(st.control, w2, st.workers[w2], s, st.streams[s]);
    }
    forall s <- st'.streams
      ensures LinksOk(st'.workers, s, st'.streams[s])
    {
      assert LinksOk(st.workers, s, st.streams[s]);
    }
    StreamsUntouched(st, st');
  }

  lemma StreamsUntouched(st: State, st': State)
    requires RemovalsOk(st) && FramesAllOk(st)
    requires st'.streams == st.streams && st'.control == st.control && st'.table == st.table
    ensures RemovalsOk(st') && FramesAllOk(st')
  {
    forall s <- st'.streams
      ensures RemovalOk(st'.control, st'.table, s, st'.streams[s]) && FramesOk(st'.streams[s])
    {
      assert RemovalOk(st.control, st.table, s, st.streams[s]);
      assert FramesOk(st.streams[s]);
    }
  }

  /** What the invariant says about worker w and stream s. */
  lemma Facts(st: State, w: WorkerId, s: StreamId)
    requires Inv(st) && w in st.workers && s in st.streams
    ensures WorkerOk(st, st.workers[w])
    ensures PairOk(st.control, w, st.workers[w], s, st.streams[s])
    ensures LinksOk(st.workers, s, st.streams[s])
    ensures FramesOk(st.streams[s])
    ensures RemovalOk(st.control, st.table, s, st.streams[s])
  {
  }

  ghost predicate Scanning(pc: Pc) {
    pc.Scan? || pc.Locked? || pc.Passed? || pc.Took?
  }

  /** While the scan goes on, claims and pending frames are those of the batch. */
  lemma ScanView(v: Worker, v': Worker, s: StreamId)
    requires Scanning(v.pc) && Scanning(v'.pc) && v'.batch == v.batch && v'.frames == v.frames
    ensures forall p: nat :: Holds(v', p, s) <==> Holds(v, p, s)
    ensures forall p: nat, f: Frame :: Pending(v', p, s, f) <==> Pending(v, p, s, f)
  {
  }

  lemma SnapshotKeeps(st: State, w: WorkerId, order: seq<StreamId>)
    requires Inv(st) && CanSnapshot(st, w, order)
    ensures Inv(Snapshot(st, w, order))
  {
    assert WorkerOk(st, st.workers[w]);
    forall i | 0 <= i < |order|
      ensures order[i] in st.streams
    {
      assert order[i] in st.table.Values;
    }
    WorkerOnlyKeeps(st, Snapshot(st, w, order), w);
  }

  lemma ReadCursorKeeps(st: State, w: WorkerId)
    requires Inv(st) && CanReadCursor(st, w)
    ensures Inv(ReadCursor(st, w))
  {
    assert WorkerOk(st, st.workers[w]);
    WorkerOnlyKeeps(st, ReadCursor(st, w), w);
  }

  lemma TryLockKeeps(st: State, w: WorkerId)
    requires Inv(st) && CanTryLock(st, w)
    ensures Inv(TryLock(st, w))
  {
    var s := Target(st.workers[w], st.workers[w].pc.k);
    Facts(st, w, s);
    ScanView(st.workers[w], TryLock(st, w).workers[w], s);
    if st.streams[s].holder.Some? {
      WorkerOnlyKeeps(st, TryLock(st, w), w);
    } else {
      LocalKeeps(st, TryLock(st, w), w, s);
    }
  }

  lemma CheckKeeps(st: State, w: WorkerId)
    requires Inv(st) && CanCheck(st, w)
    ensures Inv(Check(st, w))
  {
    var s := st.workers[w].pc.s;
    Facts(st, w, s);
    ScanView(st.workers[w], Check(st, w).workers[w], s);
    LocalKeeps(st, Check(st, w), w, s);
  }

  lemma TakeFrameKeeps(st: State, w: WorkerId)
    requires Inv(st) && CanTakeFrame(st, w)
    ensures Inv(TakeFrame(st, w))
  {
    var s := st.workers[w].pc.s;
    Facts(st, w, s);
    assert Claiming(st.workers[w], s);
    assert st.streams[s].owner.None? && st.streams[s].claimed.None?;
    ScanView(st.workers[w], TakeFrame(st, w).workers[w], s);
    LocalKeeps(st, TakeFrame(st, w), w, s);
  }

  lemma ClaimKeeps(st: State, w: WorkerId)
    requires Inv(st) && CanClaim(st, w)
    ensures Inv(Claim(st, w))
  {
    var me := st.workers[w];
    var s := me.pc.s;
    Facts(st, w, s);
    assert Claiming(me, s) && InHand(me, s, me.pc.frame);
    assert st.streams[s].owner.None?;
    var me' := Claim(st, w).workers[w];
    assert forall p: nat :: !Holds(me, p, s);
    assert Pending(me', |me.batch|, s, me.pc.frame);
    forall p: nat, f: Frame | Pending(me', p, s, f)
      ensures f == me.pc.frame
    {
      assert p < |me.batch| ==> Holds(me, p, s);
    }
    LocalKeeps(st, Claim(st, w), w, s);
  }

  lemma EndScanKeeps(st: State, w: WorkerId)
    requires Inv(st) && CanEndScan(st, w)
    ensures Inv(EndScan(st, w))
  {
    assert WorkerOk(st, st.workers[w]);
    WorkerOnlyKeeps(st, EndScan(st, w), w);
  }

  /** A batch names a stream at most once among its unreleased positions. */
  lemma OwnPosition(st: State, w: WorkerId, i: nat)
    requires Inv(st) && w in st.workers && i < |st.workers[w].batch|
    requires !st.workers[w].pc.Release? || st.workers[w].pc.i <= i
    ensures st.workers[w].batch[i] in st.streams
    ensures st.streams[st.workers[w].batch[i]].owner == Some(Claimant(w, i))
    ensures forall p: nat :: Holds(st.workers[w], p, st.workers[w].batch[i]) ==> p == i
  {
    assert WorkerOk(st, st.workers[w]);
    Facts(st, w, st.workers[w].batch[i]);
    assert Holds(st.workers[w], i, st.workers[w].batch[i]);
  }

  /** Once position i is dealt with, nothing of its stream is pending. */
  lemma NothingPending(v: Worker, i: nat, s: StreamId)
    requires forall p: nat :: Holds(v, p, s) ==> p == i
    requires v.pc == Turn(i + 1) || (v.pc.Inside? && v.pc.i == i)
    ensures forall p: nat, f: Frame :: !Pending(v, p, s, f)
  {
    forall p: nat, f: Frame
      ensures !Pending(v, p, s, f)
    {
      assert Pending(v, p, s, f) ==> Holds(v, p, s);
    }
  }

  lemma SkipTurnKeeps(st: State, w: WorkerId)
    requires Inv(st) && CanSkipTurn(st, w)
    ensures Inv(SkipTurn(st, w))
  {
    var me := st.workers[w];
    var s := me.batch[me.pc.i];
    Facts(st, w, s);
    OwnPosition(st, w, me.pc.i);
    assert Pending(me, me.pc.i, s, me.frames[me.pc.i]);
    var me' := SkipTurn(st, w).workers[w];
    assert forall p: nat :: Holds(me', p, s) <==> Holds(me, p, s);
    NothingPending(me', me.pc.i, s);
    LocalKeeps(st, SkipTurn(st, w), w, s);
  }

  lemma TakeTurnKeeps(st: State, w: WorkerId)
    requires Inv(st) && CanTakeTurn(st, w)
    ensures Inv(TakeTurn(st, w))
  {
    assert WorkerOk(st, st.workers[w]);
    WorkerOnlyKeeps(st, TakeTurn(st, w), w);
  }

  lemma EnteredFrames(x: Stream, f: Frame, ok: bool, x': Stream)
    requires FramesOk(x) && x.claimed == Some(f)
    requires x' == x.(holder := x'.holder, claimed := None, processed := x.processed + [f],
                      tracked := x.tracked + (if ok then [f] else []))
    ensures FramesOk(x')
  {
  }

  lemma EnterProcessKeeps(st: State, w: WorkerId, ok: bool)
    requires Inv(st) && CanEnterProcess(st, w)
    ensures Inv(EnterProcess(st, w, ok))
  {
    var me := st.workers[w];
    var s := me.batch[me.pc.i];
    Facts(st, w, s);
    OwnPosition(st, w, me.pc.i);
    assert Pending(me, me.pc.i, s, me.frames[me.pc.i]);
    var me' := EnterProcess(st, w, ok).workers[w];
    EnteredFrames(st.streams[s], me.frames[me.pc.i], ok, EnterProcess(st, w, ok).streams[s]);
    assert forall p: nat :: Holds(me', p, s) <==> Holds(me, p, s);
    NothingPending(me', me.pc.i, s);
    LocalKeeps(st, EnterProcess(st, w, ok), w, s);
  }

  lemma LeaveKeeps(st: State, w: WorkerId)
    requires Inv(st) && CanLeave(st, w)
    ensures Inv(Leave(st, w))
  {
    var me := st.workers[w];
    var s := me.batch[me.pc.i];
    Facts(st, w, s);
    OwnPosition(st, w, me.pc.i);
    var me' := Leave(st, w).workers[w];
    assert forall p: nat :: Holds(me', p, s) <==> Holds(me, p, s);
    NothingPending(me, me.pc.i, s);
    NothingPending(me', me.pc.i, s);
    LocalKeeps(st, Leave(st, w), w, s);
  }

  lemma EndTurnsKeeps(st: State, w: WorkerId)
    requires Inv(st) && CanEndTurns(st, w)
    ensures Inv(EndTurns(st, w))
  {
    assert WorkerOk(st, st.workers[w]);
    WorkerOnlyKeeps(st, EndTurns(st, w), w);
  }

  lemma LetGoKeeps(st: State, w: WorkerId)
    requires Inv(st) && CanLetGo(st, w)
    ensures Inv(LetGo(st, w))
  {
    var me := st.workers[w];
    var s := me.batch[me.pc.i];
    Facts(st, w, s);
    OwnPosition(st, w, me.pc.i);
    LocalKeeps(st, LetGo(st, w), w, s);
  }

  lemma EndRoundKeeps(st: State, w: WorkerId)
    requires Inv(st) && CanEndRound(st, w)
    ensures Inv(EndRound(st, w))
  {
    assert WorkerOk(st, st.workers[w]);
    WorkerOnlyKeeps(st, EndRound(st, w), w);
  }

  // ---- Steps of source threads and of the control thread ----

  /** x and x' agree on everything that relates a stream to the workers. */
  ghost predicate SameClaims(x: Stream, x': Stream) {
    x'.holder == x.holder && x'.owner == x.owner && x'.busy == x.busy && x'.claimed == x.claimed
  }

  /** No worker moved, and only stream s may have changed. */
  ghost predicate OutsideStep(st: State, st': State, s: StreamId) {
    && s in st.streams && s in st'.streams
    && st'.workers == st.workers && st'.maxBatch == st.maxBatch
    && st'.streams == st.streams[s := st'.streams[s]]
  }

  lemma OutsideKeeps(st: State, st': State, s: StreamId)
    requires Inv(st) && OutsideStep(st, st', s) && SameClaims(st.streams[s], st'.streams[s])
    requires TableOk(st') && LogOk(st') && RemovalsOk(st') && FramesOk(st'.streams[s])
    requires forall s2 <- st.streams ::
               Ended(st'.control, s2, st'.streams[s2]) ==>
                 Ended(st.control, s2, st.streams[s2]) || st.streams[s2].holder.None?
    ensures Inv(st')
  {
    forall w, s2 | w in st'.workers && s2 in st'.streams
      ensures PairOk(st'.control, w, st'.workers[w], s2, st'.streams[s2])
    {
      assert PairOk(st.control, w, st.workers[w], s2, st.streams[s2]);
    }
    forall s2 <- st'.streams
      ensures LinksOk(st'.workers, s2, st'.streams[s2]) && FramesOk(st'.streams[s2])
    {
      assert LinksOk(st.workers, s2, st.streams[s2]);
      assert s2 != s ==> FramesOk(st.streams[s2]);
    }
    forall w <- st'.workers
      ensures WorkerOk(st', st'.workers[w])
    {
      assert WorkerOk(st, st.workers[w]);
    }
  }

  /** The same, when the flags the remove handshake reads did not change. */
  lemma QuietKeeps(st: State, st': State, s: StreamId)
    requires Inv(st) && OutsideStep(st, st', s) && SameClaims(st.streams[s], st'.streams[s])
    requires st'.control == st.control && st'.table == st.table
    requires var x, x' := st.streams[s], st'.streams[s];
             x'.removing == x.removing && x'.stopped == x.stopped && x'.index == x.index && (x'.fed ==> x.fed)
    requires LogOk(st') && FramesOk(st'.streams[s])
    ensures Inv(st')
  {
    forall s2 <- st'.streams
      ensures RemovalOk(st'.control, st'.table, s2, st'.streams[s2])
    {
      assert RemovalOk(st.control, st.table, s2, st.streams[s2]);
    }
    OutsideKeeps(st, st', s);
  }

  lemma PutFrameKeeps(st: State, s: StreamId)
    requires Inv(st) && Fed(st, s)
    ensures Inv(PutFrame(st, s))
  {
    assert FramesOk(st.streams[s]);
    SameLog(st, PutFrame(st, s));
    QuietKeeps(st, PutFrame(st, s), s);
  }

  lemma SourceExitKeeps(st: State, s: StreamId)
    requires Inv(st) && CanSourceExit(st, s)
    ensures Inv(SourceExit(st, s))
  {
    assert FramesOk(st.streams[s]);
    SameLog(st, SourceExit(st, s));
    QuietKeeps(st, SourceExit(st, s), s);
  }

  /** Records of a stream that has not stopped, and replies, may be appended. */
  lemma LogGrows(st: State, r: Record)
    requires LogOk(st)
    requires r.Stopped? || (!r.Reply? ==> r.s in st.streams && !st.streams[r.s].stopped)
    requires r.Stopped? ==>
               r.s in st.streams && st.streams[r.s].stopped && forall i | 0 <= i < |st.log| :: st.log[i] != r
    ensures LogOk(st.(log := st.log + [r]))
  {
    var log' := st.log + [r];
    forall i, j | 0 <= i < j < |log'| && log'[i].Stopped?
      ensures !About(log'[j], log'[i].s)
    {
      assert i < |st.log| && log'[i] == st.log[i];
      if j < |st.log| {
        assert log'[j] == st.log[j];
      }
    }
  }

  lemma ReportStateKeeps(st: State, s: StreamId)
    requires Inv(st) && Fed(st, s)
    ensures Inv(ReportState(st, s))
  {
    assert FramesOk(st.streams[s]);
    assert RemovalOk(st.control, st.table, s, st.streams[s]);
    LogGrows(st, SourceState(s));
    QuietKeeps(st, ReportState(st, s), s);
  }

  lemma EmitKeeps(st: State, w: WorkerId)
    requires Inv(st) && CanEmit(st, w)
    ensures Inv(Emit(st, w))
  {
    var s := st.workers[w].batch[st.workers[w].pc.i];
    Facts(st, w, s);
    OwnPosition(st, w, st.workers[w].pc.i);
    LogGrows(st, Output(s));
    QuietKeeps(st, Emit(st, w), s);
  }

  /** A step that only moves the control thread and appends to the log. */
  lemma ControlKeeps(st: State, st': State, s: StreamId)
    requires Inv(st) && s in st.streams
    requires st' == st.(control := st'.control, log := st'.log, table := st'.table)
    requires TableOk(st') && LogOk(st') && RemovalsOk(st')
    requires forall s2 <- st.streams ::
               Ended(st'.control, s2, st.streams[s2]) ==>
                 Ended(st.control, s2, st.streams[s2]) || st.streams[s2].holder.None?
    ensures Inv(st')
  {
    assert FramesOk(st.streams[s]);
    OutsideKeeps(st, st', s);
  }

  lemma FindKeeps(st: State, index: nat)
    requires Inv(st) && st.control == Ready
    ensures Inv(Find(st, index))
  {
    var st' := Find(st, index);
    forall s <- st'.streams
      ensures RemovalOk(st'.control, st'.table, s, st'.streams[s])
    {
      assert RemovalOk(st.control, st.table, s, st.streams[s]);
    }
    if index in st.table {
      ControlKeeps(st, st', st.table[index]);
    } else {
      LogGrows(st, Reply(ToUnknown(index), false));
      OnlyLogGrew(st, st');
    }
  }

  lemma OnlyLogGrew(st: State, st': State)
    requires Inv(st) && st' == st.(log := st'.log) && LogOk(st')
    ensures Inv(st')
  {
    forall w, s | w in st'.workers && s in st'.streams
      ensures PairOk(st'.control, w, st'.workers[w], s, st'.streams[s])
    {
      assert PairOk(st.control, w, st.workers[w], s, st.streams[s]);
    }
    forall s <- st'.streams
      ensures LinksOk(st'.workers, s, st'.streams[s])
    {
      assert LinksOk(st.workers, s, st.streams[s]);
    }
    forall w <- st'.workers
      ensures WorkerOk(st', st'.workers[w])
    {
      assert WorkerOk(st, st.workers[w]);
    }
    StreamsUntouched(st, st');
  }

  lemma MarkKeeps(st: State)
    requires Inv(st) && st.control.Found?
    ensures Inv(Mark(st))
  {
    var s := st.control.s;
    var st' := Mark(st);
    forall s2 <- st'.streams
      ensures RemovalOk(st'.control, st'.table, s2, st'.streams[s2])
    {
      assert RemovalOk(st.control, st.table, s2, st.streams[s2]);
    }
    assert FramesOk(st.streams[s]);
    SameLog(st, st');
    OutsideKeeps(st, st', s);
  }

  lemma PollKeeps(st: State)
    requires Inv(st) && st.control.Polling?
    ensures Inv(Poll(st))
  {
    var st' := Poll(st);
    forall s2 <- st'.streams
      ensures RemovalOk(st'.control, st'.table, s2, st'.streams[s2])
    {
      assert RemovalOk(st.control, st.table, s2, st.streams[s2]);
    }
    ControlKeeps(st, st', st.control.s);
  }

  lemma RetryKeeps(st: State)
    requires Inv(st) && st.control.Refused?
    ensures Inv(Retry(st))
  {
    var st' := Retry(st);
    forall s2 <- st'.streams
      ensures RemovalOk(st'.control, st'.table, s2, st'.streams[s2])
    {
      assert RemovalOk(st.control, st.table, s2, st.streams[s2]);
    }
    ControlKeeps(st, st', st.control.s);
  }

  lemma GiveUpKeeps(st: State)
    requires Inv(st) && st.control.Refused?
    ensures Inv(GiveUp(st))
  {
    var s := st.control.s;
    var st' := GiveUp(st);
    forall s2 <- st'.streams
      ensures RemovalOk(st'.control, st'.table, s2, st'.streams[s2])
    {
      assert RemovalOk(st.control, st.table, s2, st.streams[s2]);
    }
    assert FramesOk(st.streams[s]);
    SameLog(st, st'.(log := st.log));
    LogGrows(st'.(log := st.log), Reply(ToRemove(s), false));
    OutsideKeeps(st, st', s);
  }

  lemma DetachKeeps(st: State)
    requires Inv(st) && st.control.Released?
    ensures Inv(Detach(st))
  {
    var s := st.control.s;
    var st' := Detach(st);
    assert RemovalOk(st.control, st.table, s, st.streams[s]);
    forall s2 <- st'.streams
      ensures RemovalOk(st'.control, st'.table, s2, st'.streams[s2])
    {
      assert RemovalOk(st.control, st.table, s2, st.streams[s2]);
    }
    ControlKeeps(st, st', s);
  }

  lemma JoinKeeps(st: State)
    requires Inv(st) && st.control.Joining? && !st.streams[st.control.s].fed
    ensures Inv(Join(st))
  {
    var st' := Join(st);
    forall s2 <- st'.streams
      ensures RemovalOk(st'.control, st'.table, s2, st'.streams[s2])
    {
      assert RemovalOk(st.control, st.table, s2, st.streams[s2]);
    }
    ControlKeeps(st, st', st.control.s);
  }

  lemma EmitStoppedKeeps(st: State)
    requires Inv(st) && st.control.Stopping?
    ensures Inv(EmitStopped(st))
  {
    var s := st.control.s;
    var st' := EmitStopped(st);
    assert RemovalOk(st.control, st.table, s, st.streams[s]);
    forall s2 <- st'.streams
      ensures RemovalOk(st'.control, st'.table, s2, st'.streams[s2])
    {
      assert RemovalOk(st.control, st.table, s2, st.streams[s2]);
    }
    assert FramesOk(st.streams[s]);
    var base := st'.(log := st.log);
    SameLog(st, base);
    LogGrows(base, Stopped(s));
    var answer := Reply(ToRemove(s), true);
    LogGrows(base.(log := base.log + [Stopped(s)]), answer);
    assert st.log + [Stopped(s), answer] == st.log + [Stopped(s)] + [answer];
    OutsideKeeps(st, st', s);
  }

  /** No worker knows a stream that is only being added. */
  lemma AddPairs(st: State, index: nat, s: StreamId)
    requires WorkersOk(st) && PairsOk(st) && CanAdd(st, index, s)
    ensures PairsOk(Add(st, index, s)) && WorkersOk(Add(st, index, s))
  {
    var st' := Add(st, index, s);
    forall w, s2 | w in st'.workers && s2 in st'.streams
      ensures PairOk(st'.control, w, st'.workers[w], s2, st'.streams[s2])
    {
      assert WorkerOk(st, st.workers[w]);
      assert s2 != s ==> PairOk(st.control, w, st.workers[w], s2, st.streams[s2]);
    }
    forall w <- st'.workers
      ensures WorkerOk(st', st'.workers[w])
    {
      assert WorkerOk(st, st.workers[w]);
    }
  }

  lemma AddStreams(st: State, index: nat, s: StreamId)
    requires TableOk(st) && LinksAllOk(st) && FramesAllOk(st) && RemovalsOk(st) && CanAdd(st, index, s)
    ensures LinksAllOk(Add(st, index, s)) && FramesAllOk(Add(st, index, s)) && RemovalsOk(Add(st, index, s))
  {
    var st' := Add(st, index, s);
    forall s2 <- st'.streams
      ensures LinksOk(st'.workers, s2, st'.streams[s2]) && FramesOk(st'.streams[s2])
      ensures RemovalOk(st'.control, st'.table, s2, st'.streams[s2])
    {
      assert s2 != s ==> LinksOk(st.workers, s2, st.streams[s2]);
      assert s2 != s ==> FramesOk(st.streams[s2]);
      assert s2 != s ==> RemovalOk(st.control, st.table, s2, st.streams[s2]);
    }
  }

  lemma AddLog(st: State, index: nat, s: StreamId)
    requires LogOk(st) && CanAdd(st, index, s)
    ensures LogOk(Add(st, index, s))
  {
    var base := Add(st, index, s).(log := st.log);
    SameLog(st, base);
    LogGrows(base, Starting(s));
    var answer := Reply(ToAdd(s), true);
    LogGrows(base.(log := base.log + [Starting(s)]), answer);
    assert st.log + [Starting(s), answer] == st.log + [Starting(s)] + [answer];
  }

  lemma AddKeeps(st: State, index: nat, s: StreamId)
    requires Inv(st) && CanAdd(st, index, s)
    ensures Inv(Add(st, index, s))
  {
    AddPairs(st, index, s);
    AddStreams(st, index, s);
    AddLog(st, index, s);
  }

  /** Every step keeps the invariant. */
  lemma StepKeeps(st: State, step: Step)
    requires Inv(st) && Enabled(st, step)
    ensures Inv(Apply(st, step))
  {
    match step
    case SSnapshot(w, order) => SnapshotKeeps(st, w, order);
    case SReadCursor(w) => ReadCursorKeeps(st, w);
    case STryLock(w) => TryLockKeeps(st, w);
    case SCheck(w) => CheckKeeps(st, w);
    case STakeFrame(w) => TakeFrameKeeps(st, w);
    case SClaim(w) => ClaimKeeps(st, w);
    case SEndScan(w) => EndScanKeeps(st, w);
    case SSkipTurn(w) => SkipTurnKeeps(st, w);
    case STakeTurn(w) => TakeTurnKeeps(st, w);
    case SEnterProcess(w, ok) => EnterProcessKeeps(st, w, ok);
    case SEmit(w) => EmitKeeps(st, w);
    case SLeave(w) => LeaveKeeps(st, w);
    case SEndTurns(w) => EndTurnsKeeps(st, w);
    case SLetGo(w) => LetGoKeeps(st, w);
    case SEndRound(w) => EndRoundKeeps(st, w);
    case SPutFrame(s) => PutFrameKeeps(st, s);
    case SReportState(s) => ReportStateKeeps(st, s);
    case SSourceExit(s) => SourceExitKeeps(st, s);
    case SAdd(index, s) => AddKeeps(st, index, s);
    case SFind(index) => FindKeeps(st, index);
    case SMark => MarkKeeps(st);
    case SPoll => PollKeeps(st);
    case SRetry => RetryKeeps(st);
    case SGiveUp => GiveUpKeeps(st);
    case SDetach => DetachKeeps(st);
    case SJoin => JoinKeeps(st);
    case SEmitStopped => EmitStoppedKeeps(st);
  }

  /** Every state of every run satisfies the invariant. */
  lemma {:induction false} RunKeeps(st: State, steps: seq<Step>)
    requires Inv(st) && Runs(st, steps)
    ensures Inv(Final(st, steps))
    decreases |steps|
  {
    if steps != [] {
      StepKeeps(st, steps[0]);
      RunKeeps(Apply(st, steps[0]), steps[1..]);
    }
  }
}
