/** When a stream can still have frames processed: from any reachable state, in
    some continuation. Workers never deadlock, so a continuation first lets them
    all finish their rounds. */
module StreamPoolUsable {
  import opened Wrappers
  import Bytes
  import opened StreamPool
  import opened StreamPoolInvariant
  import opened StreamPoolSafety

  // ---- One worker's own steps ----

  /** At most how many steps the worker has left in its round. */
  function Rank(v: Worker): int {
    var n, b := |v.snap|, |v.batch|;
    match v.pc
    case Idle => 0
    case Fetched => 9 * n + 4 * b + 4
    case Scan(k) => 9 * (n - k) + 4 * b + 3
    case Locked(k, _) => 9 * (n - k) + 4 * b + 2
    case Passed(k, _) => 9 * (n - k) + 4 * b + 1
    case Took(k, _, _) => 9 * (n - k) + 4 * b
    case Turn(i) => 3 * (b - i) + b + 2
    case Enter(i) => 3 * (b - i) + b + 1
    case Inside(i, _) => 3 * (b - i) + b
    case Release(i) => b - i + 1
  }

  /** The worker is inside a section of some stream's lock. */
  predicate InSection(pc: Pc) {
    pc.Locked? || pc.Passed? || pc.Took? || pc.Inside?
  }

  /** Its next step. */
  ghost function NextStep(st: State, w: WorkerId): Step
    requires w in st.workers && WorkerOk(st, st.workers[w]) && st.workers[w].pc != Idle
  {
    var me := st.workers[w];
    match me.pc
    case Fetched => SReadCursor(w)
    case Scan(k) => if k < |me.snap| && |me.batch| < st.maxBatch then STryLock(w) else SEndScan(w)
    case Locked(_, _) => SCheck(w)
    case Passed(_, _) => STakeFrame(w)
    case Took(_, _, _) => SClaim(w)
    case Turn(i) =>
      if i == |me.batch| then SEndTurns(w)
      else if st.streams[me.batch[i]].removing then SSkipTurn(w)
      else STakeTurn(w)
    case Enter(_) => SEnterProcess(w, true)
    case Inside(_, _) => SLeave(w)
    case Release(i) => if i == |me.batch| then SEndRound(w) else SLetGo(w)
  }

  ghost predicate AllUnlocked(st: State) {
    forall s | s in st.streams :: st.streams[s].holder.None?
  }

  lemma TargetKnown(st: State, v: Worker, k: nat)
    requires WorkerOk(st, v) && v.snap != []
    ensures Target(v, k) in st.streams
  {
  }

  lemma NextEnabled(st: State, w: WorkerId)
    requires w in st.workers && WorkerOk(st, st.workers[w]) && st.workers[w].pc != Idle
    requires InSection(st.workers[w].pc) || AllUnlocked(st)
    ensures Enabled(st, NextStep(st, w))
  {
    var me := st.workers[w];
    if me.pc.Scan? && me.snap != [] {
      TargetKnown(st, me, me.pc.k);
    }
  }

  /** Nothing about a stream that the control and source threads decide differs. */
  ghost predicate SameSide(x: Stream, y: Stream) {
    x.index == y.index && x.removing == y.removing && x.fed == y.fed && x.stopped == y.stopped && x.puts == y.puts
  }

  ghost predicate Calm(st: State, st': State) {
    && st'.table == st.table && st'.control == st.control && st'.maxBatch == st.maxBatch
    && st'.workers.Keys == st.workers.Keys && st'.streams.Keys == st.streams.Keys
    && forall s | s in st.streams :: SameSide(st.streams[s], st'.streams[s])
  }

  /** A scan keeps what it claimed, and ends before the first turn. */
  ghost predicate ScanGoesOn(v: Worker, v': Worker) {
    Scanning(v.pc) ==>
      && v.batch <= v'.batch && v.frames <= v'.frames
      && (Scanning(v'.pc) || v'.pc == Turn(0) || v'.batch == [])
  }

  ghost predicate OneWorker(st: State, st': State, w: WorkerId)
    requires w in st.workers
  {
    && w in st'.workers && st'.workers == st.workers[w := st'.workers[w]]
    && Rank(st'.workers[w]) < Rank(st.workers[w]) && ScanGoesOn(st.workers[w], st'.workers[w])
  }

  /** The scan and its sections. */
  lemma ScanEffect(st: State, w: WorkerId)
    requires w in st.workers && WorkerOk(st, st.workers[w]) && Scanning(st.workers[w].pc)
    requires Enabled(st, NextStep(st, w))
    ensures var st' := Apply(st, NextStep(st, w));
            Calm(st, st') && OneWorker(st, st', w)
  {
    var me, st' := st.workers[w], Apply(st, NextStep(st, w));
    match me.pc
    case Scan(k) => if k < |me.snap| && |me.batch| < st.maxBatch { TryLockEffect(st, w); }
    case Locked(_, _) => CheckEffect(st, w);
    case Passed(_, _) => TakeFrameEffect(st, w);
    case Took(_, _, _) => ClaimEffect(st, w);
  }

  lemma TryLockEffect(st: State, w: WorkerId)
    requires w in st.workers && CanTryLock(st, w)
    ensures Calm(st, TryLock(st, w)) && OneWorker(st, TryLock(st, w), w)
  {
    var st' := TryLock(st, w);
    assert st'.workers == st.workers[w := st'.workers[w]];
  }

  lemma CheckEffect(st: State, w: WorkerId)
    requires w in st.workers && CanCheck(st, w)
    ensures Calm(st, Check(st, w)) && OneWorker(st, Check(st, w), w)
  {
    var st' := Check(st, w);
    assert st'.workers == st.workers[w := st'.workers[w]];
  }

  lemma TakeFrameEffect(st: State, w: WorkerId)
    requires w in st.workers && CanTakeFrame(st, w)
    ensures Calm(st, TakeFrame(st, w)) && OneWorker(st, TakeFrame(st, w), w)
  {
    var st' := TakeFrame(st, w);
    assert st'.workers == st.workers[w := st'.workers[w]];
  }

  lemma ClaimEffect(st: State, w: WorkerId)
    requires w in st.workers && CanClaim(st, w)
    ensures Calm(st, Claim(st, w)) && OneWorker(st, Claim(st, w), w)
  {
    var st' := Claim(st, w);
    assert st'.workers == st.workers[w := st'.workers[w]];
  }

  lemma TurnEffect(st: State, w: WorkerId)
    requires w in st.workers && WorkerOk(st, st.workers[w]) && st.workers[w].pc.Turn? && Enabled(st, NextStep(st, w))
    ensures var st' := Apply(st, NextStep(st, w));
            Calm(st, st') && OneWorker(st, st', w)
  {
  }

  lemma ProcessEffect(st: State, w: WorkerId)
    requires w in st.workers && WorkerOk(st, st.workers[w])
    requires st.workers[w].pc.Enter? || st.workers[w].pc.Inside?
    requires Enabled(st, NextStep(st, w))
    ensures var st' := Apply(st, NextStep(st, w));
            Calm(st, st') && OneWorker(st, st', w)
  {
    var st' := Apply(st, NextStep(st, w));
    assert st'.workers == st.workers[w := st'.workers[w]];
  }

  lemma OtherEffect(st: State, w: WorkerId)
    requires w in st.workers && WorkerOk(st, st.workers[w])
    requires st.workers[w].pc.Fetched? || st.workers[w].pc.Release?
    requires Enabled(st, NextStep(st, w))
    ensures var st' := Apply(st, NextStep(st, w));
            Calm(st, st') && OneWorker(st, st', w)
  {
  }

  lemma NextEffect(st: State, w: WorkerId)
    requires w in st.workers && WorkerOk(st, st.workers[w]) && st.workers[w].pc != Idle
    requires Enabled(st, NextStep(st, w))
    ensures var st' := Apply(st, NextStep(st, w));
            Calm(st, st') && OneWorker(st, st', w)
  {
    var pc := st.workers[w].pc;
    if Scanning(pc) {
      ScanEffect(st, w);
    } else if pc.Turn? {
      TurnEffect(st, w);
    } else if pc.Enter? || pc.Inside? {
      ProcessEffect(st, w);
    } else {
      OtherEffect(st, w);
    }
  }

  // ---- All workers finish their rounds ----

  ghost predicate Quiet(st: State) {
    forall w | w in st.workers :: st.workers[w].pc == Idle
  }

  ghost function Total(ws: set<WorkerId>, m: map<WorkerId, Worker>): int
    requires ws <= m.Keys
  {
    if ws == {} then 0
    else
      var w :| w in ws;
      Rank(m[w]) + Total(ws - {w}, m)
  }

  lemma {:induction false} TotalPick(ws: set<WorkerId>, m: map<WorkerId, Worker>, w: WorkerId)
    requires ws <= m.Keys && w in ws
    ensures Total(ws, m) == Rank(m[w]) + Total(ws - {w}, m)
  {
    var u :| u in ws && Total(ws, m) == Rank(m[u]) + Total(ws - {u}, m);
    if u != w {
      TotalPick(ws - {u}, m, w);
      TotalPick(ws - {w}, m, u);
      assert ws - {u} - {w} == ws - {w} - {u};
    }
  }

  lemma {:induction false} TotalSame(ws: set<WorkerId>, m: map<WorkerId, Worker>, m': map<WorkerId, Worker>)
    requires ws <= m.Keys && ws <= m'.Keys && forall w | w in ws :: m[w] == m'[w]
    ensures Total(ws, m) == Total(ws, m')
  {
    if ws != {} {
      var w :| w in ws;
      TotalPick(ws, m, w);
      TotalPick(ws, m', w);
      TotalSame(ws - {w}, m, m');
    }
  }

  lemma {:induction false} TotalPositive(st: State, ws: set<WorkerId>)
    requires Inv(st) && ws <= st.workers.Keys
    ensures Total(ws, st.workers) >= 0
  {
    if ws != {} {
      var w :| w in ws;
      TotalPick(ws, st.workers, w);
      assert WorkerOk(st, st.workers[w]);
      TotalPositive(st, ws - {w});
    }
  }

  lemma TotalFalls(st: State, st': State, w: WorkerId)
    requires w in st.workers && OneWorker(st, st', w)
    ensures Total(st'.workers.Keys, st'.workers) < Total(st.workers.Keys, st.workers)
  {
    var ws := st.workers.Keys;
    assert st'.workers.Keys == ws;
    TotalPick(ws, st.workers, w);
    TotalPick(ws, st'.workers, w);
    TotalSame(ws - {w}, st.workers, st'.workers);
  }

  /** While a worker is busy some worker can go on: one inside a section always
      can, and if there is none, every lock is free. */
  lemma SomeoneCanGo(st: State) returns (w: WorkerId)
    requires Inv(st) && !Quiet(st)
    ensures w in st.workers && st.workers[w].pc != Idle && (InSection(st.workers[w].pc) || AllUnlocked(st))
    ensures WorkerOk(st, st.workers[w]) && Enabled(st, NextStep(st, w))
  {
    if u :| u in st.workers && InSection(st.workers[u].pc) {
      w := u;
    } else {
      w :| w in st.workers && st.workers[w].pc != Idle;
      Unlocked(st);
    }
    assert WorkerOk(st, st.workers[w]);
    NextEnabled(st, w);
  }

  lemma Unlocked(st: State)
    requires Inv(st) && forall w | w in st.workers :: !InSection(st.workers[w].pc)
    ensures AllUnlocked(st)
  {
    forall s | s in st.streams
      ensures st.streams[s].holder.None?
    {
      assert LinksOk(st.workers, s, st.streams[s]);
      if st.streams[s].holder.Some? {
        Facts(st, st.streams[s].holder.value, s);
      }
    }
  }

  /** One step of a worker that can go on. */
  lemma GoOn(st: State, w: WorkerId) returns (step: Step)
    requires Inv(st) && w in st.workers && st.workers[w].pc != Idle && (InSection(st.workers[w].pc) || AllUnlocked(st))
    ensures WorkerOk(st, st.workers[w]) && step == NextStep(st, w) && Enabled(st, step)
    ensures Inv(Apply(st, step)) && Calm(st, Apply(st, step)) && OneWorker(st, Apply(st, step), w)
  {
    assert WorkerOk(st, st.workers[w]);
    step := NextStep(st, w);
    NextEnabled(st, w);
    NextEffect(st, w);
    StepKeeps(st, step);
  }

  lemma CalmOn(a: State, b: State, c: State)
    requires Calm(a, b) && Calm(b, c)
    ensures Calm(a, c)
  {
    forall s | s in a.streams
      ensures SameSide(a.streams[s], c.streams[s])
    {
      assert SameSide(a.streams[s], b.streams[s]);
    }
  }

  /** No deadlock: all workers can finish, whatever they are doing, while the
      control and source threads rest. */
  lemma {:induction false} Quiesce(st: State) returns (steps: seq<Step>)
    requires Inv(st)
    ensures Runs(st, steps) && Inv(Final(st, steps)) && Quiet(Final(st, steps)) && Calm(st, Final(st, steps))
    decreases Total(st.workers.Keys, st.workers)
  {
    steps := [];
    if !Quiet(st) {
      var w := SomeoneCanGo(st);
      var step := GoOn(st, w);
      var st' := Apply(st, step);
      TotalPositive(st', st'.workers.Keys);
      TotalFalls(st, st', w);
      var rest := Quiesce(st');
      CalmOn(st, st', Final(st', rest));
      steps := [step] + rest;
      assert steps[1..] == rest;
    }
  }

  // ---- Continuations ----

  ghost predicate Leads(st: State, st': State) {
    exists steps :: Runs(st, steps) && Final(st, steps) == st'
  }

  lemma Stay(st: State)
    ensures Leads(st, st)
  {
    assert Runs(st, []) && Final(st, []) == st;
  }

  /** One more step. */
  lemma Then(a: State, b: State, step: Step) returns (c: State)
    requires Leads(a, b) && Inv(b) && Enabled(b, step)
    ensures c == Apply(b, step) && Leads(a, c) && Inv(c)
  {
    var steps :| Runs(a, steps) && Final(a, steps) == b;
    RunExtends(a, steps, step);
    StepKeeps(b, step);
    c := Apply(b, step);
  }

  lemma {:induction false} RunsOn(st: State, first: seq<Step>, second: seq<Step>)
    requires Runs(st, first) && Runs(Final(st, first), second)
    ensures Runs(st, first + second) && Final(st, first + second) == Final(Final(st, first), second)
    decreases |first|
  {
    if first == [] {
      assert first + second == second;
    } else {
      RunsOn(Apply(st, first[0]), first[1..], second);
      assert (first + second)[1..] == first[1..] + second;
    }
  }

  lemma LeadsOn(a: State, b: State, c: State)
    requires Leads(a, b) && Leads(b, c)
    ensures Leads(a, c)
  {
    var first :| Runs(a, first) && Final(a, first) == b;
    var second :| Runs(b, second) && Final(b, second) == c;
    RunsOn(a, first, second);
  }

  // ---- A new frame of s on its way ----

  /** The indices below n that are in use, ascending. */
  function InUse(table: map<nat, StreamId>, n: nat): (q: seq<nat>)
    ensures forall i | 0 <= i < |q| :: q[i] in table && q[i] < n
    ensures forall i, j | 0 <= i < j < |q| :: q[i] < q[j]
    ensures forall ix: nat | ix in table && ix < n :: ix in q
  {
    if n == 0 then []
    else
      var q := InUse(table, n - 1);
      var r := q + if n - 1 in table then [n - 1] else [];
      assert n - 1 in table ==> r[|q|] == n - 1;
      assert forall i | 0 <= i < |q| :: r[i] == q[i];
      r
  }

  lemma {:induction false} Bound(keys: set<nat>) returns (n: nat)
    ensures forall ix | ix in keys :: ix < n
  {
    n := 0;
    if keys != {} {
      var ix :| ix in keys;
      n := Bound(keys - {ix});
      assert forall k | k in keys :: k == ix || k in keys - {ix};
      n := if ix < n then n else ix + 1;
    }
  }

  /** The snapshot a worker would take. */
  lemma MapOrder(st: State) returns (order: seq<StreamId>)
    requires TableOk(st)
    ensures ByIndex(st.streams, order) && forall s :: s in order <==> s in st.table.Values
  {
    var n := Bound(st.table.Keys);
    var q := InUse(st.table, n);
    order := seq(|q|, i requires 0 <= i < |q| => st.table[q[i]]);
    forall s | s in st.table.Values
      ensures s in order
    {
      var ix :| ix in st.table && st.table[ix] == s;
      var i :| 0 <= i < |q| && q[i] == ix;
      assert order[i] == s;
    }
  }

  ghost predicate OthersIdle(st: State, w: WorkerId) {
    forall u | u in st.workers && u != w :: st.workers[u].pc == Idle
  }

  lemma QuietStream(st: State, s: StreamId)
    requires Inv(st) && Quiet(st) && s in st.streams
    ensures !st.streams[s].busy && st.streams[s].holder.None?
  {
    assert LinksOk(st.workers, s, st.streams[s]);
    if st.streams[s].busy {
      var c := st.streams[s].owner.value;
      Facts(st, c.w, s);
      assert false;
    }
    Unlocked(st);
  }

  /** Frame f waits in the box of s, which nobody has claimed; the removal that
      is on, if any, is the one of c. */
  ghost predicate Waiting(st: State, c: Control, s: StreamId, f: Frame) {
    && s in st.streams && st.streams[s].box.slot == Some(f) && !st.streams[s].busy
    && st.control == c && !c.Joining? && !Ended(c, s, st.streams[s]) && InTable(st, s)
  }

  ghost function FullBoxes(st: State): set<StreamId> {
    set s | s in st.streams && st.streams[s].box.slot.Some?
  }

  /** How many boxes hold a frame. */
  ghost function Fulls(st: State): nat {
    |FullBoxes(st)|
  }

  lemma FullsSame(st: State, st': State)
    requires st'.streams.Keys == st.streams.Keys
    requires forall s | s in st.streams :: st'.streams[s].box == st.streams[s].box
    ensures Fulls(st') == Fulls(st)
  {
    assert FullBoxes(st') == FullBoxes(st);
  }

  lemma FullsLess(st: State, st': State, x: StreamId)
    requires st'.streams.Keys == st.streams.Keys && x in st.streams
    requires st.streams[x].box.slot.Some? && st'.streams[x].box.slot.None?
    requires forall s | s in st.streams && s != x :: st'.streams[s].box == st.streams[s].box
    ensures Fulls(st') == Fulls(st) - 1
  {
    assert x in FullBoxes(st) && FullBoxes(st') == FullBoxes(st) - {x};
  }

  // ---- The scan for s ----

  /** The k-th candidate of the scan comes before s does. */
  ghost predicate NotYet(v: Worker, k: nat, s: StreamId) {
    s in v.snap && forall j | 0 <= j < k && j < |v.snap| :: Target(v, j) != s
  }

  /** The scan meets every stream of its snapshot. */
  lemma ScanMeets(v: Worker, s: StreamId) returns (k: nat)
    requires s in v.snap
    ensures k < |v.snap| && Target(v, k) == s
  {
    var n := |v.snap|;
    var j :| 0 <= j < n && v.snap[j] == s;
    var a := v.start % n;
    k := if j >= a then j - a else j + n - a;
    Around(v.start, n, j, k);
  }

  lemma NotYetSame(v: Worker, v': Worker, k: nat, s: StreamId)
    requires NotYet(v, k, s) && v'.snap == v.snap && v'.start == v.start
    ensures NotYet(v', k, s)
    ensures k < |v.snap| && Target(v, k) != s ==> NotYet(v', k + 1, s)
  {
    forall j | 0 <= j < k + 1 && j < |v.snap|
      ensures Target(v', j) == Target(v, j)
    {
    }
  }

  lemma Around(start: nat, n: nat, j: nat, k: nat)
    requires j < n && k == if j >= start % n then j - start % n else j + n - start % n
    ensures (start + k) % n == j
  {
    var q, a := start / n, start % n;
    assert start == n * q + a;
    if j >= a {
      Bytes.ModUnique(start + k, n, q, j);
    } else {
      assert n * (q + 1) == n * q + n;
      Bytes.ModUnique(start + k, n, q + 1, j);
    }
  }

  /** The position of the scan, the stream it is at, and the claims it has made. */
  ghost predicate Looking(st: State, w: WorkerId, s: StreamId, full: nat) {
    && w in st.workers && OthersIdle(st, w) && st.maxBatch >= 1
    && var v := st.workers[w];
       match v.pc
       case Scan(k) => NotYet(v, k, s) && Fulls(st) + |v.batch| <= full
       case Locked(k, x) => NotYet(v, k + 1, s) && x != s && Fulls(st) + |v.batch| <= full
       case Passed(k, x) => NotYet(v, k + 1, s) && x != s && Fulls(st) + |v.batch| <= full
       case Took(k, x, _) => NotYet(v, k + 1, s) && x != s && Fulls(st) + |v.batch| + 1 <= full
       case _ => false
  }

  /** The worker, alone, has just locked s. */
  ghost predicate AtLock(st: State, w: WorkerId, s: StreamId) {
    && w in st.workers && OthersIdle(st, w) && st.workers[w].pc.Locked? && st.workers[w].pc.s == s
  }

  /** The worker's turns are next, with fewer boxes full. */
  ghost predicate RoundGoesOn(st: State, w: WorkerId, full: nat) {
    w in st.workers && OthersIdle(st, w) && st.maxBatch >= 1 && st.workers[w].pc == Turn(0) && Fulls(st) < full
  }

  ghost predicate LookedOn(st: State, w: WorkerId, s: StreamId, full: nat) {
    Looking(st, w, s, full) || AtLock(st, w, s) || RoundGoesOn(st, w, full)
  }

  /** A scan that made no claim has met s. */
  lemma ClaimedSome(st: State, w: WorkerId, s: StreamId, full: nat)
    requires Inv(st) && Looking(st, w, s, full) && CanEndScan(st, w)
    ensures st.workers[w].batch != []
  {
    var v := st.workers[w];
    assert WorkerOk(st, v);
    if v.batch == [] {
      var k := ScanMeets(v, s);
      assert false;
    }
  }

  /** Nothing that a removal or a claim of s decides differs. */
  ghost predicate SameFor(st: State, st': State, s: StreamId) {
    && st'.control == st.control && st'.table == st.table && s in st.streams && s in st'.streams
    && st'.streams[s] == st.streams[s].(holder := st'.streams[s].holder)
  }

  lemma StillWaiting(st: State, st': State, c: Control, s: StreamId, f: Frame)
    requires Waiting(st, c, s, f) && SameFor(st, st', s)
    ensures Waiting(st', c, s, f)
  {
  }

  ghost predicate LooksOn(st: State, st': State, w: WorkerId, s: StreamId, full: nat) {
    && SameFor(st, st', s) && LookedOn(st', w, s, full)
    && w in st.workers && w in st'.workers && Rank(st'.workers[w]) < Rank(st.workers[w])
  }

  lemma LookTryLock(st: State, w: WorkerId, s: StreamId, full: nat)
    requires Looking(st, w, s, full) && CanTryLock(st, w) && s in st.streams
    requires st.streams[Target(st.workers[w], st.workers[w].pc.k)].holder.None?
    ensures LooksOn(st, TryLock(st, w), w, s, full)
  {
    NotYetSame(st.workers[w], TryLock(st, w).workers[w], st.workers[w].pc.k, s);
    FullsSame(st, TryLock(st, w));
  }

  lemma LookEndScan(st: State, w: WorkerId, s: StreamId, full: nat)
    requires Looking(st, w, s, full) && CanEndScan(st, w) && s in st.streams && st.workers[w].batch != []
    requires st.workers[w].pc.k <= |st.workers[w].snap|
    ensures LooksOn(st, EndScan(st, w), w, s, full)
  {
    FullsSame(st, EndScan(st, w));
  }

  lemma LookCheck(st: State, w: WorkerId, s: StreamId, full: nat)
    requires Looking(st, w, s, full) && CanCheck(st, w) && s in st.streams && st.workers[w].pc.k < |st.workers[w].snap|
    ensures LooksOn(st, Check(st, w), w, s, full)
  {
    NotYetSame(st.workers[w], Check(st, w).workers[w], st.workers[w].pc.k + 1, s);
    FullsSame(st, Check(st, w));
  }

  lemma LookTakeFrame(st: State, w: WorkerId, s: StreamId, full: nat)
    requires Looking(st, w, s, full) && CanTakeFrame(st, w) && s in st.streams
    requires st.workers[w].pc.k < |st.workers[w].snap|
    ensures LooksOn(st, TakeFrame(st, w), w, s, full)
  {
    NotYetSame(st.workers[w], TakeFrame(st, w).workers[w], st.workers[w].pc.k + 1, s);
    var x := st.workers[w].pc.s;
    if st.streams[x].box.slot.Some? {
      FullsLess(st, TakeFrame(st, w), x);
    } else {
      FullsSame(st, TakeFrame(st, w));
    }
  }

  lemma LookClaim(st: State, w: WorkerId, s: StreamId, full: nat)
    requires Looking(st, w, s, full) && CanClaim(st, w) && s in st.streams && st.workers[w].pc.k < |st.workers[w].snap|
    ensures LooksOn(st, Claim(st, w), w, s, full)
  {
    NotYetSame(st.workers[w], Claim(st, w).workers[w], st.workers[w].pc.k + 1, s);
    FullsSame(st, Claim(st, w));
  }

  /** The scan's next step. */
  lemma LookNext(st: State, w: WorkerId, s: StreamId, full: nat) returns (step: Step)
    requires Inv(st) && Looking(st, w, s, full) && s in st.streams
    ensures Enabled(st, step) && LooksOn(st, Apply(st, step), w, s, full)
  {
    var v := st.workers[w];
    assert WorkerOk(st, v);
    match v.pc {
      case Scan(k) =>
        if k < |v.snap| && |v.batch| < st.maxBatch {
          Unlocked(st);
          TargetKnown(st, v, k);
          step := STryLock(w);
          LookTryLock(st, w, s, full);
        } else {
          ClaimedSome(st, w, s, full);
          step := SEndScan(w);
          LookEndScan(st, w, s, full);
        }
      case Locked(_, _) => step := SCheck(w); LookCheck(st, w, s, full);
      case Passed(_, _) => step := STakeFrame(w); LookTakeFrame(st, w, s, full);
      case Took(_, _, _) => step := SClaim(w); LookClaim(st, w, s, full);
    }
  }

  /** The scan locks s, or fills its batch with other streams' frames. */
  lemma {:induction false} Look(st: State, w: WorkerId, c: Control, s: StreamId, f: Frame, full: nat)
      returns (st': State)
    requires Inv(st) && Looking(st, w, s, full) && Waiting(st, c, s, f)
    ensures Leads(st, st') && Inv(st') && Waiting(st', c, s, f)
    ensures AtLock(st', w, s) || RoundGoesOn(st', w, full)
    decreases Rank(st.workers[w])
  {
    var step := LookNext(st, w, s, full);
    Stay(st);
    var next := Then(st, st, step);
    StillWaiting(st, next, c, s, f);
    st' := next;
    if Looking(next, w, s, full) {
      assert WorkerOk(next, next.workers[w]);
      st' := Look(next, w, c, s, f, full);
      LeadsOn(st, next, st');
    }
  }

  // ---- The turns ----

  /** While its turn is at or before p, the batch stays and the turn of p comes. */
  ghost predicate BeforeTurn(v: Worker, p: nat) {
    p < |v.batch| && p < |v.frames| && (v.pc == Turn(p) || ((v.pc.Turn? || v.pc.Enter? || v.pc.Inside?) && v.pc.i < p))
  }

  ghost predicate SameBatch(v: Worker, v': Worker, p: nat) {
    BeforeTurn(v', p) && v'.batch == v.batch && v'.frames == v.frames
  }

  /** The turns and releases of a worker touch no box and make no stream busy. */
  ghost predicate TurnKeeps(st: State, st': State, w: WorkerId) {
    && st'.streams.Keys == st.streams.Keys && w in st.workers && w in st'.workers
    && (forall x | x in st.streams :: st'.streams[x].box == st.streams[x].box)
    && (forall x | x in st.streams :: st'.streams[x].busy ==> st.streams[x].busy)
    && !Scanning(st'.workers[w].pc) && !st'.workers[w].pc.Fetched?
    && forall p: nat | BeforeTurn(st.workers[w], p) && st.workers[w].pc != Turn(p) ::
         SameBatch(st.workers[w], st'.workers[w], p)
  }

  lemma SkipKept(st: State, w: WorkerId)
    requires CanSkipTurn(st, w)
    ensures TurnKeeps(st, SkipTurn(st, w), w)
  {
  }

  lemma TakeKept(st: State, w: WorkerId)
    requires CanTakeTurn(st, w)
    ensures TurnKeeps(st, TakeTurn(st, w), w)
  {
  }

  lemma EnterKept(st: State, w: WorkerId)
    requires CanEnterProcess(st, w)
    ensures TurnKeeps(st, EnterProcess(st, w, true), w)
  {
  }

  lemma LeaveKept(st: State, w: WorkerId)
    requires CanLeave(st, w)
    ensures TurnKeeps(st, Leave(st, w), w)
  {
  }

  lemma LetGoKept(st: State, w: WorkerId)
    requires CanLetGo(st, w)
    ensures TurnKeeps(st, LetGo(st, w), w)
  {
  }

  lemma EndKept(st: State, w: WorkerId)
    ensures CanEndTurns(st, w) ==> TurnKeeps(st, EndTurns(st, w), w)
    ensures CanEndRound(st, w) ==> TurnKeeps(st, EndRound(st, w), w)
  {
  }

  lemma TurnsKept(st: State, w: WorkerId)
    requires w in st.workers && WorkerOk(st, st.workers[w]) && st.workers[w].pc != Idle
    requires !Scanning(st.workers[w].pc) && !st.workers[w].pc.Fetched?
    requires Enabled(st, NextStep(st, w))
    ensures TurnKeeps(st, Apply(st, NextStep(st, w)), w)
  {
    EndKept(st, w);
    match NextStep(st, w) {
      case SSkipTurn(_) => SkipKept(st, w);
      case STakeTurn(_) => TakeKept(st, w);
      case SEnterProcess(_, _) => EnterKept(st, w);
      case SLeave(_) => LeaveKept(st, w);
      case SLetGo(_) => LetGoKept(st, w);
      case _ =>
    }
  }

  /** The worker, alone, ends its round; the boxes stay as they are. */
  lemma {:induction false} EndOfRound(st: State, w: WorkerId, c: Control, s: StreamId, f: Frame) returns (st': State)
    requires Inv(st) && w in st.workers && OthersIdle(st, w) && Waiting(st, c, s, f)
    requires !Scanning(st.workers[w].pc) && !st.workers[w].pc.Fetched?
    ensures Leads(st, st') && Inv(st') && Quiet(st') && Waiting(st', c, s, f)
    ensures st'.workers.Keys == st.workers.Keys && st'.maxBatch == st.maxBatch && Fulls(st') == Fulls(st)
    decreases Rank(st.workers[w])
  {
    Stay(st);
    st' := st;
    if st.workers[w].pc != Idle {
      var next := OneTurn(st, w, c, s, f);
      st' := EndOfRound(next, w, c, s, f);
      LeadsOn(st, next, st');
    }
  }

  /** What a turn of the worker leaves as it is. */
  lemma TurnLeaves(st: State, next: State, w: WorkerId, c: Control, s: StreamId, f: Frame)
    requires TurnKeeps(st, next, w) && Calm(st, next) && OneWorker(st, next, w)
    requires OthersIdle(st, w) && Waiting(st, c, s, f)
    ensures OthersIdle(next, w) && Waiting(next, c, s, f)
    ensures next.workers.Keys == st.workers.Keys && next.maxBatch == st.maxBatch && Fulls(next) == Fulls(st)
  {
    FullsSame(st, next);
    assert SameSide(st.streams[s], next.streams[s]);
  }

  /** The next step of the worker, which is alone and past its scan. */
  lemma TakeTurnStep(st: State, w: WorkerId) returns (next: State)
    requires Inv(st) && w in st.workers && OthersIdle(st, w)
    requires !Scanning(st.workers[w].pc) && !st.workers[w].pc.Fetched? && st.workers[w].pc != Idle
    ensures Leads(st, next) && Inv(next) && TurnKeeps(st, next, w) && Calm(st, next) && OneWorker(st, next, w)
    ensures Rank(next.workers[w]) >= 0
  {
    if !InSection(st.workers[w].pc) {
      Unlocked(st);
    }
    var step := GoOn(st, w);
    TurnsKept(st, w);
    Stay(st);
    next := Then(st, st, step);
    assert WorkerOk(next, next.workers[w]);
  }

  lemma OneTurn(st: State, w: WorkerId, c: Control, s: StreamId, f: Frame) returns (next: State)
    requires Inv(st) && w in st.workers && OthersIdle(st, w) && Waiting(st, c, s, f)
    requires !Scanning(st.workers[w].pc) && !st.workers[w].pc.Fetched? && st.workers[w].pc != Idle
    ensures Leads(st, next) && Inv(next) && w in next.workers && OthersIdle(next, w) && Waiting(next, c, s, f)
    ensures !Scanning(next.workers[w].pc) && !next.workers[w].pc.Fetched?
    ensures next.workers.Keys == st.workers.Keys && next.maxBatch == st.maxBatch && Fulls(next) == Fulls(st)
    ensures 0 <= Rank(next.workers[w]) < Rank(st.workers[w])
  {
    next := TakeTurnStep(st, w);
    TurnLeaves(st, next, w, c, s, f);
  }

  // ---- Rounds until s is met ----

  lemma StartRound(st: State, w: WorkerId, c: Control, s: StreamId, f: Frame) returns (st': State)
    requires Inv(st) && Quiet(st) && w in st.workers && st.maxBatch >= 1 && Waiting(st, c, s, f)
    ensures Leads(st, st') && Inv(st') && Waiting(st', c, s, f) && Looking(st', w, s, Fulls(st))
  {
    var order := MapOrder(st);
    Stay(st);
    var mid := Then(st, st, SSnapshot(w, order));
    assert s in order;
    st' := Then(st, mid, SReadCursor(w));
    FullsSame(st, st');
  }

  /** Every round locks s or empties a box, and no box fills: so some round
      locks s. */
  lemma {:induction false} RoundsUntilLock(st: State, w: WorkerId, c: Control, s: StreamId, f: Frame)
      returns (st': State)
    requires Inv(st) && Quiet(st) && w in st.workers && st.maxBatch >= 1 && Waiting(st, c, s, f)
    ensures Leads(st, st') && Inv(st') && Waiting(st', c, s, f) && AtLock(st', w, s)
    decreases Fulls(st)
  {
    var a := StartRound(st, w, c, s, f);
    st' := Look(a, w, c, s, f, Fulls(st));
    LeadsOn(st, a, st');
    if !AtLock(st', w, s) {
      var b := EndOfRound(st', w, c, s, f);
      LeadsOn(st, st', b);
      st' := RoundsUntilLock(b, w, c, s, f);
      LeadsOn(st, b, st');
    }
  }

  // ---- From the lock to process() ----

  /** The worker's lock makes a poll fail, so a removal not decided yet can be
      given up. */
  lemma GiveUpRemoval(st: State, w: WorkerId, c: Control, s: StreamId, f: Frame) returns (st': State)
    requires Inv(st) && AtLock(st, w, s) && Waiting(st, c, s, f)
    ensures Leads(st, st') && Inv(st') && AtLock(st', w, s) && s in st'.streams
    ensures !st'.streams[s].busy && st'.streams[s].box.slot == Some(f) && !st'.streams[s].removing
  {
    Stay(st);
    st' := st;
    Facts(st, w, s);
    if st.streams[s].removing {
      if st.control.Polling? {
        st' := Then(st, st, SPoll);
      }
      assert st'.control == Refused(s);
      st' := Then(st, st', SGiveUp);
    }
  }

  /** The worker, alone, has frame f of s at position p of its batch. */
  ghost predicate InBatch(st: State, w: WorkerId, s: StreamId, f: Frame, p: nat) {
    && w in st.workers && OthersIdle(st, w) && s in st.streams && !st.streams[s].removing
    && p < |st.workers[w].batch| && st.workers[w].batch[p] == s
    && p < |st.workers[w].frames| && st.workers[w].frames[p] == f
  }

  lemma ClaimIt(st: State, w: WorkerId, s: StreamId, f: Frame) returns (st': State, p: nat)
    requires Inv(st) && AtLock(st, w, s) && s in st.streams
    requires !st.streams[s].removing && !st.streams[s].busy && st.streams[s].box.slot == Some(f)
    ensures Leads(st, st') && Inv(st') && InBatch(st', w, s, f, p) && Scanning(st'.workers[w].pc)
  {
    Stay(st);
    assert WorkerOk(st, st.workers[w]);
    p := |st.workers[w].batch|;
    st' := Then(st, st, SCheck(w));
    st' := Then(st, st', STakeFrame(w));
    st' := Then(st, st', SClaim(w));
  }

  lemma {:induction false} FinishScan(st: State, w: WorkerId, s: StreamId, f: Frame, p: nat) returns (st': State)
    requires Inv(st) && InBatch(st, w, s, f, p) && (Scanning(st.workers[w].pc) || st.workers[w].pc == Turn(0))
    ensures Leads(st, st') && Inv(st') && InBatch(st', w, s, f, p) && st'.workers[w].pc == Turn(0)
    decreases Rank(st.workers[w])
  {
    Stay(st);
    st' := st;
    if st.workers[w].pc != Turn(0) {
      if !InSection(st.workers[w].pc) {
        Unlocked(st);
      }
      var step := GoOn(st, w);
      var next := Then(st, st, step);
      assert SameSide(st.streams[s], next.streams[s]);
      assert WorkerOk(next, next.workers[w]);
      st' := FinishScan(next, w, s, f, p);
      LeadsOn(st, next, st');
    }
  }

  /** The turns before p are taken or skipped. */
  lemma {:induction false} TurnsTo(st: State, w: WorkerId, s: StreamId, f: Frame, p: nat) returns (st': State)
    requires Inv(st) && InBatch(st, w, s, f, p) && BeforeTurn(st.workers[w], p)
    ensures Leads(st, st') && Inv(st') && InBatch(st', w, s, f, p) && st'.workers[w].pc == Turn(p)
    decreases Rank(st.workers[w])
  {
    Stay(st);
    st' := st;
    if st.workers[w].pc != Turn(p) {
      var next := TurnBefore(st, w, s, f, p);
      st' := TurnsTo(next, w, s, f, p);
      LeadsOn(st, next, st');
    }
  }

  lemma TurnBefore(st: State, w: WorkerId, s: StreamId, f: Frame, p: nat) returns (next: State)
    requires Inv(st) && InBatch(st, w, s, f, p) && BeforeTurn(st.workers[w], p) && st.workers[w].pc != Turn(p)
    ensures Leads(st, next) && Inv(next) && InBatch(next, w, s, f, p) && BeforeTurn(next.workers[w], p)
    ensures 0 <= Rank(next.workers[w]) < Rank(st.workers[w])
  {
    next := TakeTurnStep(st, w);
    StillInBatch(st, next, w, s, f, p);
  }

  lemma StillInBatch(st: State, next: State, w: WorkerId, s: StreamId, f: Frame, p: nat)
    requires TurnKeeps(st, next, w) && Calm(st, next) && OneWorker(st, next, w)
    requires InBatch(st, w, s, f, p) && BeforeTurn(st.workers[w], p) && st.workers[w].pc != Turn(p)
    ensures InBatch(next, w, s, f, p) && BeforeTurn(next.workers[w], p)
  {
    assert SameSide(st.streams[s], next.streams[s]);
    assert SameBatch(st.workers[w], next.workers[w], p);
  }

  lemma ProcessIt(st: State, w: WorkerId, s: StreamId, f: Frame, p: nat) returns (st': State)
    requires Inv(st) && InBatch(st, w, s, f, p) && st.workers[w].pc == Turn(p)
    ensures Leads(st, st') && s in st'.streams && f in st'.streams[s].processed
  {
    Stay(st);
    assert WorkerOk(st, st.workers[w]);
    st' := Then(st, st, STakeTurn(w));
    Unlocked(st');
    st' := Then(st, st', SEnterProcess(w, true));
  }

  lemma FromLock(st: State, w: WorkerId, c: Control, s: StreamId, f: Frame) returns (st': State)
    requires Inv(st) && AtLock(st, w, s) && Waiting(st, c, s, f)
    ensures Leads(st, st') && s in st'.streams && f in st'.streams[s].processed
  {
    var a := GiveUpRemoval(st, w, c, s, f);
    var b, p := ClaimIt(a, w, s, f);
    LeadsOn(st, a, b);
    var d := FinishScan(b, w, s, f, p);
    LeadsOn(st, b, d);
    var e := TurnsTo(d, w, s, f, p);
    LeadsOn(st, d, e);
    st' := ProcessIt(e, w, s, f, p);
    LeadsOn(st, e, st');
  }

  /** A removal of another stream that is joining its source thread, and so
      keeps the workers from the stream map, can end. */
  lemma EndJoin(st: State, s: StreamId) returns (st': State)
    requires Inv(st) && Quiet(st) && s in st.streams && st.streams[s].fed && !Ended(st.control, s, st.streams[s])
    ensures Leads(st, st') && Inv(st') && Quiet(st') && !st'.control.Joining? && s in st'.streams
    ensures st'.streams[s] == st.streams[s] && !Ended(st'.control, s, st'.streams[s])
    ensures st'.workers == st.workers && st'.maxBatch == st.maxBatch
  {
    Stay(st);
    st' := st;
    if st.control.Joining? {
      var other := st.control.s;
      assert RemovalOk(st.control, st.table, other, st.streams[other]);
      if st.streams[other].fed {
        st' := Then(st, st, SSourceExit(other));
      }
      st' := Then(st, st', SJoin);
    }
  }

  lemma FromQuiet(st: State, w: WorkerId, s: StreamId) returns (st': State)
    requires Inv(st) && Quiet(st) && w in st.workers && st.maxBatch >= 1 && s in st.streams && st.streams[s].fed
    requires !Ended(st.control, s, st.streams[s])
    ensures Leads(st, st') && s in st'.streams && st.streams[s].puts in st'.streams[s].processed
  {
    var f := st.streams[s].puts;
    var a := EndJoin(st, s);
    var b := PutIt(a, w, s);
    LeadsOn(st, a, b);
    var d := RoundsUntilLock(b, w, a.control, s, f);
    LeadsOn(st, b, d);
    st' := FromLock(d, w, a.control, s, f);
    LeadsOn(st, d, st');
  }

  lemma PutIt(st: State, w: WorkerId, s: StreamId) returns (st': State)
    requires Inv(st) && Quiet(st) && w in st.workers && st.maxBatch >= 1 && s in st.streams && st.streams[s].fed
    requires !Ended(st.control, s, st.streams[s]) && !st.control.Joining?
    ensures Leads(st, st') && Inv(st') && Quiet(st') && w in st'.workers && st'.maxBatch >= 1
    ensures Waiting(st', st.control, s, st.streams[s].puts)
  {
    QuietStream(st, s);
    Facts(st, w, s);
    Stay(st);
    st' := Then(st, st, SPutFrame(s));
  }

  /** In some continuation a frame of s is processed that was put after st. */
  ghost predicate CanProcessNew(st: State, s: StreamId)
    requires s in st.streams
  {
    exists st', f :: Leads(st, st') && s in st'.streams && f in st'.streams[s].processed && f >= st.streams[s].puts
  }

  // ---- Exactly when ----

  /** What every step keeps when there is nobody to process anything. */
  ghost predicate NoPool(st: State) {
    st.workers == map[] || st.maxBatch == 0
  }

  lemma NoPoolStep(st: State, step: Step, s: StreamId)
    requires Inv(st) && Enabled(st, step) && NoPool(st) && s in st.streams
    ensures NoPool(Apply(st, step)) && s in Apply(st, step).streams
    ensures Apply(st, step).streams[s].processed == st.streams[s].processed
  {
    if step.SEnterProcess? {
      assert WorkerOk(st, st.workers[step.w]);
    } else if ByControl(step) {
      NoPoolControl(st, step, s);
    }
  }

  lemma NoPoolControl(st: State, step: Step, s: StreamId)
    requires Enabled(st, step) && ByControl(step) && NoPool(st) && s in st.streams
    ensures NoPool(Apply(st, step)) && s in Apply(st, step).streams
    ensures Apply(st, step).streams[s].processed == st.streams[s].processed
  {
  }

  lemma {:induction false} NoPoolForever(st: State, steps: seq<Step>, s: StreamId)
    requires Inv(st) && Runs(st, steps) && NoPool(st) && s in st.streams
    ensures s in Final(st, steps).streams
    ensures Final(st, steps).streams[s].processed == st.streams[s].processed
    decreases |steps|
  {
    if steps != [] {
      NoPoolStep(st, steps[0], s);
      StepKeeps(st, steps[0]);
      NoPoolForever(Apply(st, steps[0]), steps[1..], s);
    }
  }

  lemma {:induction false} ProcessedBelow(x: Stream, f: Frame)
    requires FramesOk(x) && f in x.processed
    ensures f < x.puts
  {
  }

  lemma NothingNew(st: State, steps: seq<Step>, s: StreamId, f: Frame)
    requires Inv(st) && Runs(st, steps) && s in st.streams
    requires !st.streams[s].fed || Ended(st.control, s, st.streams[s]) || NoPool(st)
    requires s in Final(st, steps).streams && f in Final(st, steps).streams[s].processed
    ensures f < st.streams[s].puts
  {
    if NoPool(st) {
      NoPoolForever(st, steps, s);
      assert FramesOk(st.streams[s]);
      ProcessedBelow(st.streams[s], f);
    } else if !st.streams[s].fed {
      UnfedForever(st, steps, s);
      RunKeeps(st, steps);
      assert FramesOk(Final(st, steps).streams[s]);
      ProcessedBelow(Final(st, steps).streams[s], f);
    } else {
      RemoveIsFinal(st, steps, s);
      assert FramesOk(st.streams[s]);
      ProcessedBelow(st.streams[s], f);
    }
  }

  /** A stream is usable, that is, a frame not yet put can be processed in some
      continuation, exactly while its source thread runs and its removal has
      not been decided; whatever the workers are doing, whatever they hold, and
      also while a removal is waiting for them. */
  lemma UsableIff(st: State, s: StreamId)
    requires Reachable(st) && s in st.streams
    ensures CanProcessNew(st, s) <==>
            st.streams[s].fed && !Ended(st.control, s, st.streams[s]) && st.workers != map[] && st.maxBatch >= 1
  {
    ReachableInv(st);
    var x := st.streams[s];
    if x.fed && !Ended(st.control, s, x) && st.workers != map[] && st.maxBatch >= 1 {
      var st' := SomeContinuation(st, s);
      assert x.puts in st'.streams[s].processed;
    } else if CanProcessNew(st, s) {
      var st', f :| Leads(st, st') && s in st'.streams && f in st'.streams[s].processed && f >= x.puts;
      var steps :| Runs(st, steps) && Final(st, steps) == st';
      NothingNew(st, steps, s, f);
    }
  }

  lemma SomeContinuation(st: State, s: StreamId) returns (st': State)
    requires Inv(st) && s in st.streams && st.streams[s].fed && !Ended(st.control, s, st.streams[s])
    requires st.workers != map[] && st.maxBatch >= 1
    ensures Leads(st, st') && s in st'.streams && st.streams[s].puts in st'.streams[s].processed
  {
    var steps := Quiesce(st);
    var quiet := Final(st, steps);
    assert SameSide(st.streams[s], quiet.streams[s]);
    assert RemovalOk(quiet.control, quiet.table, s, quiet.streams[s]);
    var w :| w in st.workers.Keys;
    st' := FromQuiet(quiet, w, s);
    LeadsOn(st, quiet, st');
  }
}
