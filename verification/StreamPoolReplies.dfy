/** What the control thread answers and reports, told from the log and the
    table alone: how often each stream's "stopped" record and each reply is
    queued, and what the poll and process() show about the workers. */
module StreamPoolReplies {
  import opened Wrappers
  import opened LatestFrames
  import opened StreamPool
  import opened StreamPoolInvariant
  import opened StreamPoolSafety

  function Times(log: seq<Record>, r: Record): nat {
    multiset(log)[r]
  }

  /** The control thread is past op_remove's lookup of s and has not replied. */
  ghost predicate BeingRemoved(st: State, s: StreamId) {
    st.control != Ready && st.control.s == s
  }

  /** s was in the table once, is not there now, and no remove of it is on. */
  ghost predicate RemovedFromTable(st: State, s: StreamId) {
    s in st.streams && !InTable(st, s) && !BeingRemoved(st, s)
  }

  // ---- The invariant of the log ----

  ghost predicate StreamLogOk(st: State, s: StreamId) {
    var once := if s in st.streams && st.streams[s].stopped then 1 else 0;
    Times(st.log, Stopped(s)) == once && Times(st.log, Reply(ToRemove(s), true)) == once
  }

  ghost predicate StoppedFirst(log: seq<Record>) {
    forall i, s | 0 <= i < |log| && log[i] == Reply(ToRemove(s), true) :: Stopped(s) in log[..i]
  }

  ghost predicate RepliesInv(st: State) {
    && (forall s {:trigger StreamLogOk(st, s)} :: StreamLogOk(st, s))
    && StoppedFirst(st.log)
  }

  lemma RepliesInit(st: State)
    requires Init(st)
    ensures RepliesInv(st)
  {
  }

  /** The records a step appended. */
  ghost predicate Appends(st: State, st': State, more: seq<Record>) {
    st'.log == st.log + more
  }

  ghost predicate Neutral(r: Record) {
    !r.Stopped? && !(r.Reply? && r.to.ToRemove? && r.ok)
  }

  lemma NeutralStep(st: State, st': State, more: seq<Record>)
    requires RepliesInv(st) && Appends(st, st', more)
    requires forall r <- more :: Neutral(r)
    requires SameStopped(st, st')
    ensures RepliesInv(st')
  {
    forall s
      ensures StreamLogOk(st', s)
    {
      assert StreamLogOk(st, s);
      assert !Neutral(Stopped(s)) && !Neutral(Reply(ToRemove(s), true));
      assert Stopped(s) !in multiset(more) && Reply(ToRemove(s), true) !in multiset(more);
      assert multiset(st'.log) == multiset(st.log) + multiset(more);
    }
    forall k | |st.log| <= k < |st'.log|
      ensures Neutral(st'.log[k])
    {
      assert st'.log[k] == more[k - |st.log|];
    }
    forall i, s | 0 <= i < |st'.log| && st'.log[i] == Reply(ToRemove(s), true)
      ensures Stopped(s) in st'.log[..i]
    {
      assert !Neutral(st'.log[i]) && i < |st.log|;
      assert st'.log[..i] == st.log[..i];
    }
  }

  /** The records queued by one step, and by whom: a worker and a source thread
      queue only records of their stream, the control thread the rest. */
  ghost function Queued(st: State, step: Step): (more: seq<Record>)
    requires Enabled(st, step)
    ensures Appends(st, Apply(st, step), more)
  {
    match step
    case SEmit(w) => [Output(st.workers[w].batch[st.workers[w].pc.i])]
    case SReportState(s) => [SourceState(s)]
    case SAdd(_, s) => [Starting(s), Reply(ToAdd(s), true)]
    case SFind(index) => if index in st.table then [] else [Reply(ToUnknown(index), false)]
    case SGiveUp => [Reply(ToRemove(st.control.s), false)]
    case SDetach => if InTable(st, st.control.s) then [] else [Reply(ToRemove(st.control.s), false)]
    case SEmitStopped => [Stopped(st.control.s), Reply(ToRemove(st.control.s), true)]
    case _ => []
  }

  lemma StoppedStep(st: State)
    requires Inv(st) && RepliesInv(st) && st.control.Stopping?
    ensures RepliesInv(EmitStopped(st))
  {
    var s := st.control.s;
    var st' := EmitStopped(st);
    var more := [Stopped(s), Reply(ToRemove(s), true)];
    assert st'.log == st.log + more;
    assert RemovalOk(st.control, st.table, s, st.streams[s]);
    forall s2
      ensures StreamLogOk(st', s2)
    {
      assert StreamLogOk(st, s2);
      assert multiset(more)[Stopped(s2)] == if s2 == s then 1 else 0;
    }
    forall i, s2 | 0 <= i < |st'.log| && st'.log[i] == Reply(ToRemove(s2), true)
      ensures Stopped(s2) in st'.log[..i]
    {
      if i < |st.log| {
        assert st'.log[..i] == st.log[..i];
      } else {
        assert st'.log[|st.log|] == Stopped(s) && i == |st.log| + 1;
        assert st'.log[..i][|st.log|] == Stopped(s);
      }
    }
  }

  /** `stopped` is the only stream field the log's invariant reads. */
  ghost predicate SameStopped(st: State, st': State) {
    forall s :: (s in st'.streams && st'.streams[s].stopped) <==> (s in st.streams && st.streams[s].stopped)
  }

  ghost predicate InScan(step: Step) {
    step.SSnapshot? || step.SReadCursor? || step.STryLock? || step.SCheck? || step.STakeFrame? || step.SClaim? ||
    step.SEndScan?
  }

  lemma ScanStopsNone(st: State, step: Step)
    requires Enabled(st, step) && InScan(step)
    ensures SameStopped(st, Apply(st, step))
  {
  }

  lemma OtherStopsNone(st: State, step: Step)
    requires Enabled(st, step) && !ByControl(step) && !InScan(step)
    ensures SameStopped(st, Apply(st, step))
  {
  }

  lemma RemoveStopsNone(st: State, step: Step)
    requires Enabled(st, step) && (step.SMark? || step.SPoll? || step.SRetry? || step.SGiveUp?)
    ensures SameStopped(st, Apply(st, step))
  {
  }

  lemma ControlStopsNone(st: State, step: Step)
    requires Enabled(st, step) && (step.SAdd? || step.SFind? || step.SDetach? || step.SJoin?)
    ensures SameStopped(st, Apply(st, step))
  {
  }

  lemma QueuedNeutral(st: State, step: Step)
    requires Enabled(st, step) && !step.SEmitStopped?
    ensures forall r <- Queued(st, step) :: Neutral(r)
  {
  }

  lemma RepliesStep(st: State, step: Step)
    requires Inv(st) && RepliesInv(st) && Enabled(st, step)
    ensures RepliesInv(Apply(st, step))
  {
    if step.SEmitStopped? {
      StoppedStep(st);
    } else {
      if step.SMark? || step.SPoll? || step.SRetry? || step.SGiveUp? {
        RemoveStopsNone(st, step);
      } else if ByControl(step) {
        ControlStopsNone(st, step);
      } else if InScan(step) {
        ScanStopsNone(st, step);
      } else {
        OtherStopsNone(st, step);
      }
      QueuedNeutral(st, step);
      NeutralStep(st, Apply(st, step), Queued(st, step));
    }
  }

  lemma {:induction false} RepliesRun(st: State, steps: seq<Step>)
    requires Inv(st) && RepliesInv(st) && Runs(st, steps)
    ensures RepliesInv(Final(st, steps))
    decreases |steps|
  {
    if steps != [] {
      StepKeeps(st, steps[0]);
      RepliesStep(st, steps[0]);
      RepliesRun(Apply(st, steps[0]), steps[1..]);
    }
  }

  lemma ReachableReplies(st: State)
    requires Reachable(st)
    ensures Inv(st) && RepliesInv(st)
  {
    var init: State, steps: seq<Step> :| Init(init) && Runs(init, steps) && Final(init, steps) == st;
    InitInv(init);
    RepliesInit(init);
    RunKeeps(init, steps);
    RepliesRun(init, steps);
  }

  // ---- Removal, told from the log ----

  /** A removed stream has exactly one "stopped" record and exactly one reply
      that says removed; any other stream has neither. */
  lemma StoppedOnceIff(st: State, s: StreamId)
    requires Reachable(st)
    ensures Times(st.log, Stopped(s)) == if RemovedFromTable(st, s) then 1 else 0
    ensures Times(st.log, Reply(ToRemove(s), true)) == if RemovedFromTable(st, s) then 1 else 0
  {
    ReachableReplies(st);
    assert StreamLogOk(st, s);
    if s in st.streams {
      assert RemovalOk(st.control, st.table, s, st.streams[s]);
    }
  }

  /** The reply that says removed comes after the "stopped" record. */
  lemma StoppedBeforeReply(st: State, i: nat, s: StreamId)
    requires Reachable(st) && i < |st.log| && st.log[i] == Reply(ToRemove(s), true)
    ensures Stopped(s) in st.log[..i]
  {
    ReachableReplies(st);
  }

  lemma QueuedReply(st: State, step: Step, more: seq<Record>, s: StreamId, ok: bool)
    requires Enabled(st, step) && Appends(st, Apply(st, step), more) && Reply(ToRemove(s), ok) in more
    ensures step.SGiveUp? || (step.SDetach? && !InTable(st, s)) || step.SEmitStopped?
    ensures s == st.control.s && ok == step.SEmitStopped? && more == Queued(st, step)
  {
    assert Apply(st, step).log[|st.log|..] == more;
    assert Apply(st, step).log[|st.log|..] == Queued(st, step);
  }

  /** Whatever step answers a remove, the answer says removed exactly when the
      stream is out of the table after it; a stream still there, as after a
      remove that timed out, is answered false. */
  lemma ReplyTellsTable(st: State, step: Step, more: seq<Record>, s: StreamId, ok: bool)
    requires Reachable(st) && Enabled(st, step) && Appends(st, Apply(st, step), more)
    requires Reply(ToRemove(s), ok) in more
    ensures s in st.streams && (ok <==> !InTable(Apply(st, step), s))
    ensures BeingRemoved(st, s) && Apply(st, step).control == Ready
    ensures ok <==> Stopped(s) in more
  {
    ReachableInv(st);
    QueuedReply(st, step, more, s, ok);
    assert RemovalOk(st.control, st.table, st.control.s, st.streams[st.control.s]);
  }

  // ---- Every request is answered once, in order ----

  /** The request a step takes up; a remove asks for the stream its index names
      at that moment. */
  function Read(st: State, step: Step): seq<Request> {
    match step
    case SAdd(_, s) => [ToAdd(s)]
    case SFind(index) => [if index in st.table then ToRemove(st.table[index]) else ToUnknown(index)]
    case _ => []
  }

  /** The requests the control thread took up, in order. */
  ghost function Asked(st: State, steps: seq<Step>): seq<Request>
    requires Runs(st, steps)
    decreases |steps|
  {
    if steps == [] then [] else Read(st, steps[0]) + Asked(Apply(st, steps[0]), steps[1..])
  }

  function Answered(log: seq<Record>): seq<Request> {
    if log == [] then []
    else (if log[0].Reply? then [log[0].to] else []) + Answered(log[1..])
  }

  /** The request being worked on. */
  function Open(c: Control): seq<Request> {
    if c == Ready then [] else [ToRemove(c.s)]
  }

  lemma Assoc(a: seq<Request>, b: seq<Request>, c: seq<Request>)
    ensures a + (b + c) == (a + b) + c
  {
  }

  lemma {:induction false} AnsweredConcat(a: seq<Record>, b: seq<Record>)
    ensures Answered(a + b) == Answered(a) + Answered(b)
  {
    if a == [] {
      assert a + b == b;
    } else {
      assert (a + b)[0] == a[0] && (a + b)[1..] == a[1..] + b;
      AnsweredConcat(a[1..], b);
      var first := if a[0].Reply? then [a[0].to] else [];
      assert Answered(a + b) == first + Answered(a[1..] + b);
      Assoc(first, Answered(a[1..]), Answered(b));
    }
  }

  lemma AnsweredPair(a: Record, b: Record)
    ensures Answered([a]) == if a.Reply? then [a.to] else []
    ensures Answered([a, b]) == Answered([a]) + Answered([b])
  {
    assert [a, b][1..] == [b];
  }

  lemma AnsweredQueued(st: State, step: Step)
    requires Enabled(st, step)
    ensures var more := Queued(st, step);
            Answered(more) == if more == [] || !more[|more| - 1].Reply? then [] else [more[|more| - 1].to]
  {
    var more := Queued(st, step);
    if |more| == 2 {
      AnsweredPair(more[0], more[1]);
    } else if |more| == 1 {
      AnsweredPair(more[0], more[0]);
    }
  }

  lemma AnsweredStep(st: State, step: Step)
    requires Enabled(st, step)
    ensures Open(st.control) + Read(st, step) == Answered(Queued(st, step)) + Open(Apply(st, step).control)
  {
    AnsweredQueued(st, step);
    if !ByControl(step) {
      assert Read(st, step) == [] == Answered(Queued(st, step));
    }
  }

  lemma Regroup(a: seq<Request>, o: seq<Request>, r: seq<Request>, q: seq<Request>, o': seq<Request>,
                rest: seq<Request>)
    requires o + r == q + o'
    ensures a + o + (r + rest) == a + q + o' + rest
  {
    assert a + o + (r + rest) == a + (o + r) + rest;
    assert a + q + o' + rest == a + (q + o') + rest;
  }

  /** Over any run, the requests read are those answered, in order, followed by
      the remove that is still being worked on: none is answered twice, and
      none is passed over. */
  lemma {:induction false} EachAnsweredOnce(st: State, steps: seq<Step>)
    requires Runs(st, steps)
    ensures Answered(st.log) + Open(st.control) + Asked(st, steps) ==
            Answered(Final(st, steps).log) + Open(Final(st, steps).control)
    decreases |steps|
  {
    if steps != [] {
      var step, next := steps[0], Apply(st, steps[0]);
      var more := Queued(st, step);
      AnsweredConcat(st.log, more);
      AnsweredStep(st, step);
      Regroup(Answered(st.log), Open(st.control), Read(st, step), Answered(more), Open(next.control),
              Asked(next, steps[1..]));
      EachAnsweredOnce(next, steps[1..]);
    }
  }

  lemma AnsweredFromStart(init: State, steps: seq<Step>)
    requires Init(init) && Runs(init, steps)
    ensures Asked(init, steps) == Answered(Final(init, steps).log) + Open(Final(init, steps).control)
  {
    EachAnsweredOnce(init, steps);
  }

  // ---- What the poll sees, and what process() leaves behind ----

  /** Some worker holds the lock of s, or a claim of it in its batch. */
  ghost predicate InUse(st: State, s: StreamId) {
    exists w :: w in st.workers && (LockedOn(st.workers[w], s) || exists p: nat :: Holds(st.workers[w], p, s))
  }

  /** A poll lets the remove go on exactly when no worker has the stream. */
  lemma PollSeesWorkers(st: State, s: StreamId)
    requires Reachable(st) && st.control == Polling(s)
    ensures Enabled(st, SPoll)
    ensures Apply(st, SPoll) == st.(control := if InUse(st, s) then Refused(s) else Released(s))
  {
    ReachableInv(st);
    var x := st.streams[s];
    assert LinksOk(st.workers, s, x);
    if x.holder.Some? {
      Facts(st, x.holder.value, s);
      assert LockedOn(st.workers[x.holder.value], s);
    } else if x.owner.Some? {
      Facts(st, x.owner.value.w, s);
      assert Holds(st.workers[x.owner.value.w], x.owner.value.p, s);
    } else if InUse(st, s) {
      var w :| w in st.workers && (LockedOn(st.workers[w], s) || exists p: nat :: Holds(st.workers[w], p, s));
      Facts(st, w, s);
    }
  }

  // ---- Inside process() ----

  /** A worker inside process() works on the last frame entered, and the tracker
      has seen it exactly when the inference went well. */
  ghost predicate AtWork(st: State, v: Worker) {
    v.pc.Inside? && v.pc.i < |v.batch| == |v.frames| && v.batch[v.pc.i] in st.streams ==>
      var x, f := st.streams[v.batch[v.pc.i]], v.frames[v.pc.i];
      x.processed != [] && x.processed[|x.processed| - 1] == f && (v.pc.ok <==> f in x.tracked)
  }

  ghost predicate AllAtWork(st: State) {
    forall w {:trigger AtWork(st, st.workers[w])} | w in st.workers :: AtWork(st, st.workers[w])
  }

  ghost predicate SameProcessed(st: State, st': State) {
    forall s <- st.streams ::
      s in st'.streams && st'.streams[s].processed == st.streams[s].processed &&
      st'.streams[s].tracked == st.streams[s].tracked
  }

  ghost predicate NoneEntered(st: State, st': State) {
    forall w <- st'.workers :: st'.workers[w].pc.Inside? ==> w in st.workers && st'.workers[w] == st.workers[w]
  }

  lemma ScanProcessesNone(st: State, step: Step)
    requires Enabled(st, step) && InScan(step)
    ensures SameProcessed(st, Apply(st, step))
  {
  }

  lemma ControlProcessesNone(st: State, step: Step)
    requires Enabled(st, step) && ByControl(step)
    ensures SameProcessed(st, Apply(st, step))
  {
  }

  lemma OtherProcessesNone(st: State, step: Step)
    requires Enabled(st, step) && !ByControl(step) && !InScan(step) && !step.SEnterProcess?
    ensures SameProcessed(st, Apply(st, step))
  {
  }

  lemma ScanEntersNone(st: State, step: Step)
    requires Enabled(st, step) && InScan(step)
    ensures NoneEntered(st, Apply(st, step))
  {
  }

  lemma OtherEntersNone(st: State, step: Step)
    requires Enabled(st, step) && !InScan(step) && !step.SEnterProcess?
    ensures NoneEntered(st, Apply(st, step))
  {
  }

  lemma AtWorkKept(st: State, st': State)
    requires Inv(st) && AllAtWork(st) && SameProcessed(st, st') && NoneEntered(st, st')
    ensures AllAtWork(st')
  {
    forall w <- st'.workers
      ensures AtWork(st', st'.workers[w])
    {
      if st'.workers[w].pc.Inside? {
        assert AtWork(st, st.workers[w]) && WorkerOk(st, st.workers[w]);
      }
    }
  }

  lemma {:induction false} NotProcessed(q: seq<Frame>, f: Frame)
    requires Ascending(q) && Below(q, f)
    ensures f !in q
  {
    forall i | 0 <= i < |q|
      ensures q[i] != f
    {
      assert q[i] <= q[|q| - 1];
    }
  }

  lemma EnterAtWork(st: State, w: WorkerId, ok: bool)
    requires Inv(st) && AllAtWork(st) && CanEnterProcess(st, w)
    ensures AllAtWork(EnterProcess(st, w, ok))
  {
    var me := st.workers[w];
    var s, f := me.batch[me.pc.i], me.frames[me.pc.i];
    var st' := EnterProcess(st, w, ok);
    Facts(st, w, s);
    assert Pending(me, me.pc.i, s, f);
    NotProcessed(st.streams[s].processed, f);
    forall w2 <- st'.workers
      ensures AtWork(st', st'.workers[w2])
    {
      if w2 != w {
        assert AtWork(st, st.workers[w2]);
        Facts(st, w2, s);
      }
    }
  }

  lemma AtWorkStep(st: State, step: Step)
    requires Inv(st) && AllAtWork(st) && Enabled(st, step)
    ensures AllAtWork(Apply(st, step))
  {
    if step.SEnterProcess? {
      EnterAtWork(st, step.w, step.ok);
    } else {
      if InScan(step) {
        ScanProcessesNone(st, step);
        ScanEntersNone(st, step);
      } else {
        OtherEntersNone(st, step);
        if ByControl(step) {
          ControlProcessesNone(st, step);
        } else {
          OtherProcessesNone(st, step);
        }
      }
      AtWorkKept(st, Apply(st, step));
    }
  }

  lemma {:induction false} AtWorkRun(st: State, steps: seq<Step>)
    requires Inv(st) && AllAtWork(st) && Runs(st, steps)
    ensures AllAtWork(Final(st, steps))
    decreases |steps|
  {
    if steps != [] {
      StepKeeps(st, steps[0]);
      AtWorkStep(st, steps[0]);
      AtWorkRun(Apply(st, steps[0]), steps[1..]);
    }
  }

  lemma QueuedOutput(st: State, step: Step, more: seq<Record>, s: StreamId)
    requires Enabled(st, step) && Appends(st, Apply(st, step), more) && Output(s) in more
    ensures step.SEmit? && s == st.workers[step.w].batch[st.workers[step.w].pc.i]
  {
    assert Apply(st, step).log[|st.log|..] == more;
    assert Apply(st, step).log[|st.log|..] == Queued(st, step);
  }

  /** Whoever queues a frame, event or tensor record of s is inside process()
      for s, with the frame last handed to its tracker. */
  lemma OutputIsTracked(st: State, step: Step, more: seq<Record>, s: StreamId)
    requires Reachable(st) && Enabled(st, step) && Appends(st, Apply(st, step), more) && Output(s) in more
    ensures exists w :: w in st.workers && Processing(st.workers[w], s)
    ensures s in st.streams && !RemovedFromTable(st, s)
    ensures var x := st.streams[s];
            x.processed != [] && x.tracked != [] && x.tracked[|x.tracked| - 1] == x.processed[|x.processed| - 1]
  {
    QueuedOutput(st, step, more, s);
    ReachableReplies(st);
    ReachableAtWork(st);
    var v := st.workers[step.w];
    Facts(st, step.w, s);
    assert AtWork(st, v) && Holds(v, v.pc.i, s);
    LastIsLast(st.streams[s], v.frames[v.pc.i]);
  }

  lemma LastIsLast(x: Stream, f: Frame)
    requires FramesOk(x) && f in x.tracked && x.processed != [] && x.processed[|x.processed| - 1] == f
    ensures x.tracked != [] && x.tracked[|x.tracked| - 1] == f
  {
    var i :| 0 <= i < |x.tracked| && x.tracked[i] == f;
    assert x.tracked[i] <= x.tracked[|x.tracked| - 1] < f + 1;
  }

  lemma ReachableAtWork(st: State)
    requires Reachable(st)
    ensures AllAtWork(st)
  {
    var init: State, steps: seq<Step> :| Init(init) && Runs(init, steps) && Final(init, steps) == st;
    InitInv(init);
    AtWorkRun(init, steps);
  }
}
