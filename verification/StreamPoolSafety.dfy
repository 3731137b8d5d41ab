/** What the stream ownership protocol promises, in every reachable state and
    over every run from one. */
module StreamPoolSafety {
  import opened Wrappers
  import opened LatestFrames
  import opened StreamPool
  import opened StreamPoolInvariant

  lemma ReachableInv(st: State)
    requires Reachable(st)
    ensures Inv(st)
  {
    var init: State, steps: seq<Step> :| Init(init) && Runs(init, steps) && Final(init, steps) == st;
    InitInv(init);
    RunKeeps(init, steps);
  }

  // ---- Exclusive chain ----

  /** Two batch positions never hold the same stream, and only a busy stream is
      held. */
  lemma OneHolder(st: State, w1: WorkerId, p1: nat, w2: WorkerId, p2: nat, s: StreamId)
    requires Reachable(st) && w1 in st.workers && w2 in st.workers
    requires Holds(st.workers[w1], p1, s) && Holds(st.workers[w2], p2, s)
    ensures w1 == w2 && p1 == p2
    ensures s in st.streams && st.streams[s].busy
  {
    ReachableInv(st);
    assert WorkerOk(st, st.workers[w1]);
    Facts(st, w1, s);
    Facts(st, w2, s);
  }

  /** At most one worker is inside process() for a stream. */
  lemma ExclusiveChain(st: State, w1: WorkerId, w2: WorkerId, s: StreamId)
    requires Reachable(st) && w1 in st.workers && w2 in st.workers
    requires Processing(st.workers[w1], s) && Processing(st.workers[w2], s)
    ensures w1 == w2
  {
    OneHolder(st, w1, st.workers[w1].pc.i, w2, st.workers[w2].pc.i, s);
  }

  /** A busy flag that is up belongs to a worker that has it in its batch. */
  lemma BusyHasHolder(st: State, s: StreamId)
    requires Reachable(st) && s in st.streams && st.streams[s].busy
    ensures exists w, p: nat :: w in st.workers && Holds(st.workers[w], p, s)
  {
    ReachableInv(st);
    assert LinksOk(st.workers, s, st.streams[s]);
    var c := st.streams[s].owner.value;
    Facts(st, c.w, s);
    assert Holds(st.workers[c.w], c.p, s);
  }

  /** The batch of a worker never exceeds the backend's limit. */
  lemma BatchBounded(st: State, w: WorkerId)
    requires Reachable(st) && w in st.workers
    ensures |st.workers[w].batch| <= st.maxBatch
    ensures |st.workers[w].frames| == |st.workers[w].batch|
  {
    ReachableInv(st);
    assert WorkerOk(st, st.workers[w]);
  }

  // ---- Frames ----

  ghost predicate HasFrame(v: Worker, s: StreamId) {
    (exists f: Frame :: InHand(v, s, f)) || (exists p: nat, f: Frame :: Pending(v, p, s, f))
  }

  /** Some worker took a frame of s and has neither processed nor skipped it. */
  ghost predicate SomeoneHasFrame(st: State, s: StreamId) {
    exists w :: w in st.workers && HasFrame(st.workers[w], s)
  }

  /** Every frame a source put was overwritten, processed or skipped by a
      removal, or is in a worker's hands or in the box. */
  lemma FramesConserved(st: State, s: StreamId)
    requires Reachable(st) && s in st.streams
    ensures var x := st.streams[s];
            x.puts == x.box.dropped + |x.processed| + x.skipped + Count(x.box.slot) +
                      (if SomeoneHasFrame(st, s) then 1 else 0)
  {
    var x := st.streams[s];
    ReachableInv(st);
    assert FramesOk(x);
    assert LinksOk(st.workers, s, x);
    if x.claimed.Some? {
      var f := x.claimed.value;
      if x.holder.Some? && InHand(st.workers[x.holder.value], s, f) {
        assert HasFrame(st.workers[x.holder.value], s);
      } else {
        assert Pending(st.workers[x.owner.value.w], x.owner.value.p, s, f);
        assert HasFrame(st.workers[x.owner.value.w], s);
      }
    } else if SomeoneHasFrame(st, s) {
      var w :| w in st.workers && HasFrame(st.workers[w], s);
      Facts(st, w, s);
    }
  }

  /** process() is entered, and the tracker sees frames, in put order: both are
      ascending, the second within the first, the first within the puts. */
  lemma TrackerOrder(st: State, s: StreamId)
    requires Reachable(st) && s in st.streams
    ensures var x := st.streams[s];
            && Ascending(x.tracked) && Ascending(x.processed)
            && (forall f <- x.tracked :: f in x.processed)
            && (forall f <- x.processed :: f < x.puts)
  {
    ReachableInv(st);
    assert FramesOk(st.streams[s]);
  }

  // ---- Remove ----

  /** Nothing about a stream is queued after its "stopped" record: no VBR1,
      VBE1 or VBT1, no state record, no second "stopped". */
  lemma NothingAfterStopped(st: State, i: nat, j: nat)
    requires Reachable(st) && i < j < |st.log| && st.log[i].Stopped?
    ensures !About(st.log[j], st.log[i].s)
  {
    ReachableInv(st);
  }

  /** No worker step enters process() for a stream whose removal was let
      through. */
  lemma EndedNotEntered(st: State, w: WorkerId, ok: bool, s: StreamId)
    requires Inv(st) && CanEnterProcess(st, w)
    requires s in st.streams && Ended(st.control, s, st.streams[s])
    ensures EnterProcess(st, w, ok).streams[s] == st.streams[s]
  {
    Facts(st, w, s);
    assert Holds(st.workers[w], st.workers[w].pc.i, st.workers[w].batch[st.workers[w].pc.i]);
  }

  ghost predicate ByControl(step: Step) {
    step.SAdd? || step.SFind? || step.SMark? || step.SPoll? || step.SRetry? || step.SGiveUp? || step.SDetach? ||
    step.SJoin? || step.SEmitStopped?
  }

  lemma EndedControlStep(st: State, step: Step, s: StreamId)
    requires Inv(st) && Enabled(st, step) && ByControl(step) && s in st.streams && Ended(st.control, s, st.streams[s])
    ensures s in Apply(st, step).streams && Ended(Apply(st, step).control, s, Apply(st, step).streams[s])
    ensures Apply(st, step).streams[s].processed == st.streams[s].processed
  {
    assert RemovalOk(st.control, st.table, s, st.streams[s]);
  }

  lemma EndedOtherStep(st: State, step: Step, s: StreamId)
    requires Inv(st) && Enabled(st, step) && !ByControl(step) && s in st.streams && Ended(st.control, s, st.streams[s])
    ensures s in Apply(st, step).streams && Ended(Apply(st, step).control, s, Apply(st, step).streams[s])
    ensures Apply(st, step).streams[s].processed == st.streams[s].processed
  {
    if step.SEnterProcess? {
      EndedNotEntered(st, step.w, step.ok, s);
    }
  }

  /** Once op_remove has seen the lock free and busy false, no worker processes
      a frame of that stream again, in any continuation. */
  lemma {:induction false} RemoveIsFinal(st: State, steps: seq<Step>, s: StreamId)
    requires Inv(st) && Runs(st, steps) && s in st.streams && Ended(st.control, s, st.streams[s])
    ensures s in Final(st, steps).streams
    ensures Final(st, steps).streams[s].processed == st.streams[s].processed
    decreases |steps|
  {
    if steps != [] {
      if ByControl(steps[0]) {
        EndedControlStep(st, steps[0], s);
      } else {
        EndedOtherStep(st, steps[0], s);
      }
      StepKeeps(st, steps[0]);
      RemoveIsFinal(Apply(st, steps[0]), steps[1..], s);
    }
  }

  ghost predicate InTable(st: State, s: StreamId) {
    s in st.streams && st.streams[s].index in st.table && st.table[st.streams[s].index] == s
  }

  /** A stream in the table refuses claims exactly while a remove of it is
      being decided: a remove that timed out leaves no trace in the flag. */
  lemma RefusesOnlyWhileRemoving(st: State, s: StreamId)
    requires Reachable(st) && InTable(st, s)
    ensures st.streams[s].removing <==> Removing(st.control, s)
  {
    ReachableInv(st);
    assert RemovalOk(st.control, st.table, s, st.streams[s]);
  }

  /** The reply to a timed-out remove finds the stream in the table, claimable. */
  lemma TimeoutRestores(st: State, s: StreamId)
    requires Reachable(st) && st.control == Refused(s)
    ensures Enabled(st, SGiveUp) && InTable(GiveUp(st), s) && !GiveUp(st).streams[s].removing
  {
    ReachableInv(st);
    assert RemovalOk(st.control, st.table, s, st.streams[s]);
  }

  // ---- The source thread of a stream whose remove timed out ----

  /** A stream without its source thread never gets another frame. */
  lemma {:induction false} UnfedForever(st: State, steps: seq<Step>, s: StreamId)
    requires Inv(st) && Runs(st, steps) && s in st.streams && !st.streams[s].fed
    ensures s in Final(st, steps).streams && !Final(st, steps).streams[s].fed
    ensures Final(st, steps).streams[s].puts == st.streams[s].puts
    decreases |steps|
  {
    if steps != [] {
      StepKeeps(st, steps[0]);
      if ByControl(steps[0]) {
        UnfedControlStep(st, steps[0], s);
      } else {
        UnfedOtherStep(st, steps[0], s);
      }
      UnfedForever(Apply(st, steps[0]), steps[1..], s);
    }
  }

  lemma UnfedControlStep(st: State, step: Step, s: StreamId)
    requires Enabled(st, step) && ByControl(step) && s in st.streams && !st.streams[s].fed
    ensures s in Apply(st, step).streams && !Apply(st, step).streams[s].fed
    ensures Apply(st, step).streams[s].puts == st.streams[s].puts
  {
  }

  lemma UnfedOtherStep(st: State, step: Step, s: StreamId)
    requires Enabled(st, step) && !ByControl(step) && s in st.streams && !st.streams[s].fed
    ensures s in Apply(st, step).streams && !Apply(st, step).streams[s].fed
    ensures Apply(st, step).streams[s].puts == st.streams[s].puts
  {
  }

  ghost predicate GetsFrame(st: State, steps: seq<Step>, s: StreamId) {
    Runs(st, steps) && s in st.streams && s in Final(st, steps).streams &&
    Final(st, steps).streams[s].puts > st.streams[s].puts
  }

  /** A stream can still receive a frame if and only if its source thread has
      not left: nothing restarts it, a timed-out remove included. */
  lemma UsableIffFed(st: State, s: StreamId)
    requires Reachable(st) && s in st.streams
    ensures (exists steps :: GetsFrame(st, steps, s)) <==> st.streams[s].fed
  {
    ReachableInv(st);
    if st.streams[s].fed {
      var steps := [SPutFrame(s)];
      assert steps[1..] == [];
      assert Runs(PutFrame(st, s), []);
      assert GetsFrame(st, steps, s);
    } else {
      forall steps | Runs(st, steps)
        ensures !GetsFrame(st, steps, s)
      {
        UnfedForever(st, steps, s);
      }
    }
  }

  lemma Go(st: State, step: Step) returns (st': State)
    requires Reachable(st) && Enabled(st, step)
    ensures st' == Apply(st, step) && Reachable(st')
  {
    st' := Apply(st, step);
    ReachableStep(st, step);
  }

  /** One stream x whose frame 0 was put, and one worker. */
  function OneStream(holder: Option<WorkerId>, slot: Option<Frame>, claimed: Option<Frame>, owner: Option<Claimant>,
                     pc: Pc, batch: seq<StreamId>, frames: seq<Frame>): State {
    var x := Stream(0, owner.Some?, false, holder, Mailbox(slot, 0), true, false, owner, 1, claimed, 0, [], []);
    var v := Worker(pc, 0, if pc == Idle then [] else [0], batch, frames);
    State(map[0 := x], map[0 := 0], map[0 := v], 0, Ready, [Starting(0), Reply(ToAdd(0), true)], 1)
  }

  /** The worker has claimed the only frame. */
  function ClaimedState(): State {
    OneStream(None, None, Some(0), Some(Claimant(0, 0)), Scan(1), [0], [0])
  }

  lemma AddReachable(st: State)
    requires Init(st)
    ensures Reachable(Add(st, 0, 0))
  {
    InitReachable(st);
    var st' := Go(st, SAdd(0, 0));
  }

  lemma PutReachable()
    ensures Reachable(OneStream(None, Some(0), None, None, Idle, [], []))
  {
    var st := State(map[], map[], map[0 := Worker(Idle, 0, [], [], [])], 0, Ready, [], 1);
    AddReachable(st);
    st := Go(Add(st, 0, 0), SPutFrame(0));
    assert st.streams == OneStream(None, Some(0), None, None, Idle, [], []).streams;
  }

  /** The worker has its snapshot. */
  function FetchedState(): State {
    OneStream(None, Some(0), None, None, Fetched, [], [])
  }

  lemma SnapshotOne()
    ensures var st := OneStream(None, Some(0), None, None, Idle, [], []);
            CanSnapshot(st, 0, [0]) && Snapshot(st, 0, [0]) == FetchedState()
  {
    var st := OneStream(None, Some(0), None, None, Idle, [], []);
    assert 0 in st.table && st.table[0] == 0;
    assert forall s :: s in [0] <==> s in st.table.Values;
    assert Snapshot(st, 0, [0]).workers == FetchedState().workers;
  }

  lemma ReadOne()
    ensures CanReadCursor(FetchedState(), 0)
    ensures ReadCursor(FetchedState(), 0) == OneStream(None, Some(0), None, None, Scan(0), [], [])
  {
    assert ReadCursor(FetchedState(), 0).workers == OneStream(None, Some(0), None, None, Scan(0), [], []).workers;
  }

  lemma ScanReachable()
    ensures Reachable(OneStream(None, Some(0), None, None, Scan(0), [], []))
  {
    PutReachable();
    SnapshotOne();
    ReachableStep(OneStream(None, Some(0), None, None, Idle, [], []), SSnapshot(0, [0]));
    ReadOne();
    ReachableStep(FetchedState(), SReadCursor(0));
  }

  lemma PassedReachable()
    ensures Reachable(OneStream(Some(0), Some(0), None, None, Passed(0, 0), [], []))
  {
    ScanReachable();
    var st := OneStream(None, Some(0), None, None, Scan(0), [], []);
    assert Target(st.workers[0], 0) == 0;
    st := Go(st, STryLock(0));
    st := Go(st, SCheck(0));
    var target := OneStream(Some(0), Some(0), None, None, Passed(0, 0), [], []);
    assert st.streams == target.streams && st.workers == target.workers;
  }

  lemma TookReachable()
    ensures Reachable(OneStream(Some(0), None, Some(0), None, Took(0, 0, 0), [], []))
  {
    PassedReachable();
    var st := Go(OneStream(Some(0), Some(0), None, None, Passed(0, 0), [], []), STakeFrame(0));
    var target := OneStream(Some(0), None, Some(0), None, Took(0, 0, 0), [], []);
    assert st.streams == target.streams && st.workers == target.workers;
  }

  lemma ClaimOne()
    ensures var st := OneStream(Some(0), None, Some(0), None, Took(0, 0, 0), [], []);
            CanClaim(st, 0) && Claim(st, 0) == ClaimedState()
  {
    var st := Claim(OneStream(Some(0), None, Some(0), None, Took(0, 0, 0), [], []), 0);
    assert st.workers[0].batch == [0] && st.workers[0].frames == [0];
    assert st.streams == ClaimedState().streams && st.workers == ClaimedState().workers;
  }

  lemma ClaimedReachable()
    ensures Reachable(ClaimedState())
  {
    TookReachable();
    ClaimOne();
    ReachableStep(OneStream(Some(0), None, Some(0), None, Took(0, 0, 0), [], []), SClaim(0));
  }

  /** The failed reply promises a stream that is still usable, but the source
      thread may have read `removing` during the wait and left: whatever the
      state in which a poll was refused, the stream can end up in the table,
      claimable, and never get another frame. */
  lemma TimedOutRemoveCanStarve(st: State, s: StreamId) returns (st': State)
    requires Reachable(st) && st.control == Refused(s) && s in st.streams && st.streams[s].fed
    ensures Runs(st, [SSourceExit(s), SGiveUp]) && st' == Final(st, [SSourceExit(s), SGiveUp])
    ensures st'.control == Ready && InTable(st', s) && !st'.streams[s].removing
    ensures !exists steps :: GetsFrame(st', steps, s)
  {
    ReachableInv(st);
    assert RemovalOk(st.control, st.table, s, st.streams[s]);
    var mid := Go(st, SSourceExit(s));
    st' := Go(mid, SGiveUp);
    assert [SSourceExit(s), SGiveUp][1..] == [SGiveUp] && [SGiveUp][1..] == [];
    assert Runs(st', []) && Runs(mid, [SGiveUp]);
    UsableIffFed(st', s);
  }

  /** ... and that state is reached: one claimed frame is enough. */
  lemma StarvedReachable() returns (st: State)
    ensures Reachable(st) && InTable(st, 0) && st.control == Ready && !st.streams[0].removing
    ensures !exists steps :: GetsFrame(st, steps, 0)
  {
    ClaimedReachable();
    st := Go(ClaimedState(), SFind(0));
    st := Go(st, SMark);
    st := Go(st, SPoll);
    var refused := st;
    st := TimedOutRemoveCanStarve(refused, 0);
    var mid := Go(refused, SSourceExit(0));
    var last := Go(mid, SGiveUp);
    assert [SSourceExit(0), SGiveUp][1..] == [SGiveUp] && [SGiveUp][1..] == [];
    assert Final(mid, [SGiveUp]) == last;
  }
}
