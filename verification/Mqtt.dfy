/** Packet ids of QoS 1 publishes (vision_base/mqtt.py): allocation, how each
    registration leaves the in-flight map, and what the unlocked allocations of
    subscribe calls do to it. Ids are 1..65535, as section 2.3.1 of MQTT Version
    3.1.1 asks. */
module MqttIds {
  import opened Wrappers

  const IDS: nat := 65535

  type Token = nat  // one publish() call

  predicate IsId(pid: int) {
    1 <= pid <= IDS
  }

  function After(pid: nat): nat {
    pid % IDS + 1
  }

  // ---- The search for a free id ----

  /** The j-th id looked at when the search starts at pid. */
  function Nth(pid: nat, j: nat): nat {
    if j == 0 then pid else After(Nth(pid, j - 1))
  }

  lemma {:induction false} NthIs(pid: nat, j: nat)
    requires IsId(pid) && j < IDS
    ensures Nth(pid, j) == if pid + j <= IDS then pid + j else pid + j - IDS
  {
    if j > 0 {
      NthIs(pid, j - 1);
    }
  }

  /** Each id is looked at within 65535 steps. */
  lemma Reaches(pid: nat, f: nat) returns (j: nat)
    requires IsId(pid) && IsId(f)
    ensures j < IDS && Nth(pid, j) == f
  {
    j := if f >= pid then f - pid else f + IDS - pid;
    NthIs(pid, j);
  }

  /** Fewer than 65535 ids in use leave one free. */
  lemma {:induction false} FreeId(used: set<nat>, n: nat) returns (f: nat)
    requires |used| < n
    ensures 1 <= f <= n && f !in used
    decreases n
  {
    if n in used {
      assert |used - {n}| == |used| - 1;
      f := FreeId(used - {n}, n - 1);
    } else {
      f := n;
    }
  }

  class Publisher {
    const maxInflight: nat
    var inflight: map<nat, Token>
    var nextPid: nat

    ghost predicate Valid()
      reads this
    {
      IsId(nextPid) && |inflight| <= maxInflight && forall pid | pid in inflight :: IsId(pid)
    }

    constructor (maxInflight: nat)
      ensures Valid() && inflight == map[] && nextPid == 1 && this.maxInflight == maxInflight
    {
      this.maxInflight := maxInflight;
      inflight, nextPid := map[], 1;
    }

    /** The section under the in-flight lock, once there is room, when no
        subscribe call interferes: takes the first free id from the pointer on,
        and moves the pointer past it. With all ids in use it would not return
        (FullMapHasNoFreeId). */
    method Register(token: Token) returns (pid: nat, ghost moved: nat)
      requires Valid() && |inflight| < maxInflight && |inflight| < IDS
      modifies this
      ensures Valid() && IsId(pid) && pid !in old(inflight) && inflight == old(inflight)[pid := token]
      ensures pid == Nth(old(nextPid), moved) && nextPid == After(pid)
      ensures forall j | 0 <= j < moved :: Nth(old(nextPid), j) in old(inflight)
    {
      ghost var free := FreeId(inflight.Keys, IDS);
      ghost var last := Reaches(nextPid, free);
      pid, moved := nextPid, 0;
      while true
        invariant IsId(pid) && moved <= last && pid == Nth(old(nextPid), moved)
        invariant inflight == old(inflight) && forall j | 0 <= j < moved :: Nth(old(nextPid), j) in inflight
        decreases last - moved
      {
        nextPid := After(pid);
        if pid !in inflight {
          break;
        }
        pid := nextPid;
        moved := moved + 1;
      }
      inflight := inflight[pid := token];
      assert inflight.Keys == old(inflight).Keys + {pid};
    }

    /** _alloc_pid when nothing interferes: its second exit is never taken. */
    method AllocPid() returns (pid: nat, ghost moved: nat)
      requires Valid() && |inflight| < IDS
      modifies this`nextPid
      ensures Valid() && IsId(pid) && pid !in inflight && pid == Nth(old(nextPid), moved) && nextPid == After(pid)
      ensures forall j | 0 <= j < moved :: Nth(old(nextPid), j) in inflight
    {
      ghost var free := FreeId(inflight.Keys, IDS);
      ghost var last := Reaches(nextPid, free);
      pid, moved := nextPid, 0;
      while true
        invariant IsId(pid) && moved <= last && pid == Nth(old(nextPid), moved)
        invariant forall j | 0 <= j < moved :: Nth(old(nextPid), j) in inflight
        decreases last - moved
      {
        nextPid := After(pid);
        if pid !in inflight || pid == nextPid {
          return;
        }
        pid := nextPid;
        moved := moved + 1;
      }
    }

    /** _on_puback: a late or unknown id is ignored. */
    method OnPuback(pid: nat) returns (waiter: Option<Token>)
      requires Valid()
      modifies this`inflight
      ensures Valid() && inflight == old(inflight) - {pid}
      ensures waiter == if pid in old(inflight) then Some(old(inflight)[pid]) else None
    {
      waiter := None;
      if pid in inflight {
        waiter := Some(inflight[pid]);
        inflight := inflight - {pid};
        assert inflight.Keys == old(inflight).Keys - {pid};
      }
    }

    /** pop(pid, None) after a failed send or a wait that ended without an ack:
        by id, whoever holds it. */
    method Pop(pid: nat) returns (gone: bool)
      requires Valid()
      modifies this`inflight
      ensures Valid() && inflight == old(inflight) - {pid} && (gone <==> pid in old(inflight))
    {
      gone := pid in inflight;
      inflight := inflight - {pid};
      assert inflight.Keys == old(inflight).Keys - {pid};
      assert inflight.Keys <= old(inflight).Keys;
    }

    method FailInflight()
      requires Valid()
      modifies this`inflight
      ensures Valid() && inflight == map[]
    {
      inflight := map[];
    }
  }

  /** With every id in use the search would look at each of them in vain. */
  lemma FullMapHasNoFreeId(inflight: map<nat, Token>, pid: nat, j: nat)
    requires (forall id | IsId(id) :: id in inflight) && IsId(pid)
    ensures IsId(Nth(pid, j)) && Nth(pid, j) in inflight
  {
    if j > 0 {
      FullMapHasNoFreeId(inflight, pid, j - 1);
    }
  }

  // ---- Runs ----

  datatype Cause = Acked | Popped(byWhom: Token) | Disconnected

  /** The id a publish took, and the number of the pointer write it took it with. */
  datatype Mark = Mark(pid: nat, write: nat)

  /** A publish inside its locked search: it has read the pointer, or it has
      also written the pointer and is about to test the id. */
  datatype Search = Holds(token: Token, pid: nat) | Tests(token: Token, mark: Mark)

  /** `_next_pid` with its history: how often it was written, and the number of
      the last write that followed an id other than the pointer's, or 0. */
  datatype Pointer = Pointer(pid: nat, writes: nat, lastStale: nat)

  /** A subscribe call inside _alloc_pid: it has read the pointer, or also
      written it, with the write of that number. */
  datatype Sub = Read(pid: nat) | Wrote(pid: nat, write: nat)

  /** subs: the subscribe calls that are allocating;
      marks: the ids taken; left: how registrations left the map. */
  datatype World = World(inflight: map<nat, Token>, next: Pointer, search: Option<Search>, subs: map<nat, Sub>,
                         marks: map<Token, Mark>, popped: set<Token>, left: seq<(Token, Cause)>)

  /** Begin, Write and Test are the steps of a publish's search; SubRead,
      SubWrite and SubTest those of _alloc_pid, which takes no lock. */
  datatype Op =
    | Begin(token: Token)
    | Write
    | Test
    | SubRead(sub: nat)
    | SubWrite(sub: nat)
    | SubTest(sub: nat)
    | Puback(pid: nat)
    | GiveUp(giver: Token)
    | Disconnect(order: seq<nat>)

  ghost predicate Enabled(max: nat, w: World, op: Op) {
    match op
    case Begin(token) => w.search.None? && token !in w.marks && |w.inflight| < max
    case Write => w.search.Some? && w.search.value.Holds?
    case Test => w.search.Some? && w.search.value.Tests?
    case SubRead(sub) => sub !in w.subs
    case SubWrite(sub) => sub in w.subs && w.subs[sub].Read?
    case SubTest(sub) => sub in w.subs && w.subs[sub].Wrote?
    case Puback(_) => w.search.None?
    case GiveUp(giver) => w.search.None? && giver in w.marks && giver !in w.popped
    case Disconnect(order) =>
      && w.search.None? && (forall pid :: pid in order <==> pid in w.inflight)
      && forall i, j | 0 <= i < j < |order| :: order[i] != order[j]
  }

  function Leaves(w: World, pid: nat, cause: Cause): World {
    if pid in w.inflight then w.(inflight := w.inflight - {pid}, left := w.left + [(w.inflight[pid], cause)]) else w
  }

  function AllLeave(w: World, order: seq<nat>): World {
    if order == [] then w else Leaves(AllLeave(w, order[..|order| - 1]), order[|order| - 1], Disconnected)
  }

  /** `self._next_pid = pid % 65535 + 1`, by whoever read pid before. */
  function Written(p: Pointer, pid: nat): Pointer {
    Pointer(After(pid), p.writes + 1, if pid == p.pid then p.lastStale else p.writes + 1)
  }

  function Tested(w: World, token: Token, mark: Mark): World {
    if mark.pid in w.inflight then w.(search := Some(Holds(token, w.next.pid)))
    else w.(inflight := w.inflight[mark.pid := token], search := None, marks := w.marks[token := mark])
  }

  /** _alloc_pid ends with this id: it is free, or the pointer came back to it. */
  predicate Returns(w: World, pid: nat) {
    pid !in w.inflight || pid == w.next.pid
  }

  function Next(max: nat, w: World, op: Op): World
    requires Enabled(max, w, op)
  {
    match op
    case Begin(token) => w.(search := Some(Holds(token, w.next.pid)))
    case Write =>
      var s := w.search.value;
      w.(next := Written(w.next, s.pid), search := Some(Tests(s.token, Mark(s.pid, w.next.writes + 1))))
    case Test => Tested(w, w.search.value.token, w.search.value.mark)
    case SubRead(sub) => w.(subs := w.subs[sub := Read(w.next.pid)])
    case SubWrite(sub) =>
      var pid := w.subs[sub].pid;
      w.(next := Written(w.next, pid), subs := w.subs[sub := Wrote(pid, w.next.writes + 1)])
    case SubTest(sub) =>
      w.(subs := if Returns(w, w.subs[sub].pid) then w.subs - {sub} else w.subs[sub := Read(w.next.pid)])
    case Puback(pid) => Leaves(w, pid, Acked)
    case GiveUp(giver) => Leaves(w.(popped := w.popped + {giver}), w.marks[giver].pid, Popped(giver))
    case Disconnect(order) => AllLeave(w, order)
  }

  // ---- The invariant ----

  /** Each entry stands under its holder's id; no two calls took theirs with
      the same write, and an entry belongs to the latest that got its id. */
  ghost predicate Holders(inflight: map<nat, Token>, marks: map<Token, Mark>, writes: nat) {
    && (forall pid | pid in inflight :: inflight[pid] in marks && marks[inflight[pid]].pid == pid)
    && (forall t | t in marks :: IsId(marks[t].pid) && marks[t].write <= writes)
    && (forall t, u | t in marks && u in marks && t != u :: marks[t].write != marks[u].write)
    && (forall pid, t | pid in inflight && t in marks && marks[t].pid ==
        pid :: marks[t].write <= marks[inflight[pid]].write)
  }

  /** v follows u: right after it if their writes were adjacent, and as far
      behind it as there were writes if none of them was stale. */
  ghost predicate Follows(lastStale: nat, u: Mark, v: Mark) {
    u.write < v.write ==>
      && (v.write == u.write + 1 ==> v.pid == After(u.pid))
      && (lastStale <= u.write ==> v.pid == Nth(u.pid, v.write - u.write))
  }

  /** The pointer is as far past the mark as there were writes. */
  ghost predicate Past(p: Pointer, u: Mark) {
    && u.write <= p.writes && (u.write == p.writes ==> p.pid == After(u.pid))
    && (p.lastStale <= u.write ==> p.pid == Nth(u.pid, p.writes - u.write + 1))
  }

  ghost predicate Ordered(p: Pointer, marks: map<Token, Mark>) {
    && IsId(p.pid) && p.lastStale <= p.writes
    && (forall t | t in marks :: Past(p, marks[t]))
    && (forall t, u | t in marks && u in marks :: Follows(p.lastStale, marks[t], marks[u]))
  }

  ghost predicate Searching(p: Pointer, marks: map<Token, Mark>, search: Option<Search>) {
    match search
    case None => true
    case Some(Holds(token, pid)) =>
      token !in marks && IsId(pid) && forall t | t in marks && marks[t].write == p.writes :: pid == After(marks[t].pid)
    case Some(Tests(token, mark)) =>
      && token !in marks && IsId(mark.pid) && Past(p, mark)
      && forall t | t in marks :: marks[t].write < mark.write && Follows(p.lastStale, marks[t], mark)
  }

  /** A subscribe call's write is the pointer's until another write. */
  ghost predicate Allocating(p: Pointer, s: Sub) {
    IsId(s.pid) && (s.Wrote? ==> s.write <= p.writes && (s.write == p.writes ==> p.pid == After(s.pid)))
  }

  ghost predicate Holding(inflight: map<nat, Token>, t: Token, mark: Mark) {
    mark.pid in inflight && inflight[mark.pid] == t
  }

  /** Every call holds its id or has left the map, exactly once. */
  ghost predicate Once(inflight: map<nat, Token>, marks: map<Token, Mark>, left: seq<(Token, Cause)>) {
    && (forall t | t in marks :: (if Holding(inflight, t, marks[t]) then 1 else 0) + LeftCount(left, t) == 1)
    && (forall t: Token | t !in marks :: LeftCount(left, t) == 0)
  }

  ghost predicate Inv(max: nat, w: World) {
    && |w.inflight| + (if w.search.Some? then 1 else 0) <= max
    && Holders(w.inflight, w.marks, w.next.writes) && Once(w.inflight, w.marks, w.left)
    && Ordered(w.next, w.marks) && Searching(w.next, w.marks, w.search)
    && forall s | s in w.subs :: Allocating(w.next, w.subs[s])
  }

  function LeftCount(left: seq<(Token, Cause)>, t: Token): nat {
    if left == [] then 0 else LeftCount(left[..|left| - 1], t) + if left[|left| - 1].0 == t then 1 else 0
  }

  lemma LeftGrows(left: seq<(Token, Cause)>, u: Token, cause: Cause, t: Token)
    ensures LeftCount(left + [(u, cause)], t) == LeftCount(left, t) + if u == t then 1 else 0
  {
    assert (left + [(u, cause)])[..|left|] == left;
  }

  lemma LeavesOnce(inflight: map<nat, Token>, marks: map<Token, Mark>, left: seq<(Token, Cause)>, pid: nat,
      cause: Cause, writes: nat)
    requires Holders(inflight, marks, writes) && Once(inflight, marks, left) && pid in inflight
    ensures Once(inflight - {pid}, marks, left + [(inflight[pid], cause)])
    ensures Holders(inflight - {pid}, marks, writes)
  {
    var u, rest, left' := inflight[pid], inflight - {pid}, left + [(inflight[pid], cause)];
    forall t: Token
      ensures LeftCount(left', t) == LeftCount(left, t) + if u == t then 1 else 0
    {
      LeftGrows(left, u, cause, t);
    }
    forall t | t in marks
      ensures Holding(rest, t, marks[t]) <==> Holding(inflight, t, marks[t]) && t != u
    {
    }
  }

  lemma LeavesKeeps(max: nat, w: World, pid: nat, cause: Cause)
    requires Inv(max, w)
    ensures Inv(max, Leaves(w, pid, cause))
  {
    if pid in w.inflight {
      LeavesOnce(w.inflight, w.marks, w.left, pid, cause, w.next.writes);
      assert (w.inflight - {pid}).Keys == w.inflight.Keys - {pid};
    }
  }

  lemma {:induction false} AllLeaveKeeps(max: nat, w: World, order: seq<nat>)
    requires Inv(max, w)
    ensures Inv(max, AllLeave(w, order))
    ensures forall pid | pid in AllLeave(w, order).inflight :: pid in w.inflight && pid !in order
  {
    if order != [] {
      AllLeaveKeeps(max, w, order[..|order| - 1]);
      LeavesKeeps(max, AllLeave(w, order[..|order| - 1]), order[|order| - 1], Disconnected);
    }
  }

  /** A write, stale or not, keeps what is known of the pointer. */
  lemma WrittenPast(p: Pointer, pid: nat, u: Mark)
    requires p.lastStale <= p.writes && Past(p, u)
    ensures Past(Written(p, pid), u)
  {
  }

  lemma WrittenOrdered(p: Pointer, pid: nat, marks: map<Token, Mark>)
    requires Ordered(p, marks) && IsId(pid)
    ensures Ordered(Written(p, pid), marks)
  {
    var p' := Written(p, pid);
    forall t | t in marks
      ensures Past(p', marks[t])
    {
      WrittenPast(p, pid, marks[t]);
    }
    forall t, u | t in marks && u in marks
      ensures Follows(p'.lastStale, marks[t], marks[u])
    {
      assert Follows(p.lastStale, marks[t], marks[u]);
    }
  }

  /** The id a publish is about to test follows all those taken before. */
  lemma WriteSearching(p: Pointer, marks: map<Token, Mark>, token: Token, pid: nat)
    requires Ordered(p, marks) && Searching(p, marks, Some(Holds(token, pid)))
    ensures Searching(Written(p, pid), marks, Some(Tests(token, Mark(pid, p.writes + 1))))
  {
    forall t | t in marks
      ensures Follows(Written(p, pid).lastStale, marks[t], Mark(pid, p.writes + 1))
    {
      assert Past(p, marks[t]);
    }
    assert Nth(pid, 1) == After(Nth(pid, 0)) == After(pid);
  }

  /** A subscribe call's write leaves a publish's search as it is. */
  lemma SubSearching(p: Pointer, pid: nat, marks: map<Token, Mark>, search: Option<Search>)
    requires Ordered(p, marks) && Searching(p, marks, search)
    ensures Searching(Written(p, pid), marks, search)
  {
    if search.Some? {
      if search.value.Tests? {
        var mark := search.value.mark;
        WrittenPast(p, pid, mark);
        forall t | t in marks
          ensures Follows(Written(p, pid).lastStale, marks[t], mark)
        {
          assert Follows(p.lastStale, marks[t], mark);
        }
      } else {
        forall t | t in marks
          ensures marks[t].write <= p.writes
        {
          assert Past(p, marks[t]);
        }
      }
    }
  }

  lemma RegisterOrdered(p: Pointer, marks: map<Token, Mark>, token: Token, mark: Mark)
    requires Ordered(p, marks) && Searching(p, marks, Some(Tests(token, mark)))
    ensures Ordered(p, marks[token := mark])
  {
  }

  lemma RegisterHolders(inflight: map<nat, Token>, marks: map<Token, Mark>, token: Token, mark: Mark, writes: nat)
    requires Holders(inflight, marks, writes) && token !in marks && IsId(mark.pid) && mark.write <= writes
    requires forall t | t in marks :: marks[t].write < mark.write
    ensures Holders(inflight[mark.pid := token], marks[token := mark], writes)
  {
  }

  lemma RegisterOnce(inflight: map<nat, Token>, marks: map<Token, Mark>, left: seq<(Token, Cause)>, token: Token,
      mark: Mark)
    requires Once(inflight, marks, left) && token !in marks && mark.pid !in inflight
    ensures Once(inflight[mark.pid := token], marks[token := mark], left)
  {
    var inflight', marks' := inflight[mark.pid := token], marks[token := mark];
    forall t | t in marks'
      ensures Holding(inflight', t, marks'[t]) <==> t == token || Holding(inflight, t, marks[t])
    {
    }
  }

  lemma WriteKeeps(max: nat, w: World)
    requires Inv(max, w) && Enabled(max, w, Write)
    ensures Inv(max, Next(max, w, Write))
  {
    WrittenOrdered(w.next, w.search.value.pid, w.marks);
    WriteSearching(w.next, w.marks, w.search.value.token, w.search.value.pid);
  }

  /** Reading the pointer starts a search, or goes on with it. */
  lemma ReadSearching(p: Pointer, marks: map<Token, Mark>, token: Token)
    requires Ordered(p, marks) && token !in marks
    ensures Searching(p, marks, Some(Holds(token, p.pid)))
  {
    forall t | t in marks && marks[t].write == p.writes
      ensures p.pid == After(marks[t].pid)
    {
      assert Past(p, marks[t]);
    }
  }

  lemma RegisterKeeps(max: nat, w: World, token: Token, mark: Mark)
    requires Inv(max, w) && w.search == Some(Tests(token, mark)) && mark.pid !in w.inflight
    ensures Inv(max, Tested(w, token, mark))
  {
    RegisterHolders(w.inflight, w.marks, token, mark, w.next.writes);
    RegisterOnce(w.inflight, w.marks, w.left, token, mark);
    RegisterOrdered(w.next, w.marks, token, mark);
    OneMore(w.inflight, mark.pid, token);
  }

  lemma OneMore(inflight: map<nat, Token>, pid: nat, token: Token)
    requires pid !in inflight
    ensures |inflight[pid := token]| == |inflight| + 1
  {
    assert inflight[pid := token].Keys == inflight.Keys + {pid};
  }

  lemma TestKeeps(max: nat, w: World)
    requires Inv(max, w) && Enabled(max, w, Test)
    ensures Inv(max, Next(max, w, Test))
  {
    var token, mark := w.search.value.token, w.search.value.mark;
    if mark.pid in w.inflight {
      ReadSearching(w.next, w.marks, token);
    } else {
      RegisterKeeps(max, w, token, mark);
    }
  }

  lemma SubWriteKeeps(max: nat, w: World, sub: nat)
    requires Inv(max, w) && Enabled(max, w, SubWrite(sub))
    ensures Inv(max, Next(max, w, SubWrite(sub)))
  {
    WrittenOrdered(w.next, w.subs[sub].pid, w.marks);
    SubSearching(w.next, w.subs[sub].pid, w.marks, w.search);
    var w' := Next(max, w, SubWrite(sub));
    assert Holders(w'.inflight, w'.marks, w'.next.writes);
  }

  /** The other two steps of a subscribe call touch only the call itself. */
  lemma SubKeeps(max: nat, w: World, op: Op)
    requires Inv(max, w) && Enabled(max, w, op) && (op.SubRead? || op.SubTest?)
    ensures Inv(max, Next(max, w, op))
  {
    var w' := Next(max, w, op);
    assert w' == w.(subs := w'.subs);
  }

  lemma StepKeeps(max: nat, w: World, op: Op)
    requires Inv(max, w) && Enabled(max, w, op)
    ensures Inv(max, Next(max, w, op))
  {
    match op
    case Begin(token) => ReadSearching(w.next, w.marks, token);
    case Write => WriteKeeps(max, w);
    case Test => TestKeeps(max, w);
    case SubRead(_) => SubKeeps(max, w, op);
    case SubWrite(sub) => SubWriteKeeps(max, w, sub);
    case SubTest(_) => SubKeeps(max, w, op);
    case Puback(pid) => LeavesKeeps(max, w, pid, Acked);
    case GiveUp(giver) => LeavesKeeps(max, w.(popped := w.popped + {giver}), w.marks[giver].pid, Popped(giver));
    case Disconnect(order) => AllLeaveKeeps(max, w, order);
  }

  const START := World(map[], Pointer(1, 0, 0), None, map[], map[], {}, [])

  ghost predicate StepsTo(max: nat, w: World, op: Op, w': World) {
    Enabled(max, w, op) && w' == Next(max, w, op)
  }

  ghost predicate Runs(max: nat, ops: seq<Op>, ws: seq<World>) {
    && |ws| == |ops| + 1 && ws[0] == START
    && forall k | 0 <= k < |ops| :: StepsTo(max, ws[k], ops[k], ws[k + 1])
  }

  /** Over any run: at most max ids in flight, and every publish either holds
      its id or has left the map exactly once. */
  lemma {:induction false} EachLeavesOnce(max: nat, ops: seq<Op>, ws: seq<World>, k: nat)
    requires Runs(max, ops, ws) && k <= |ops|
    ensures Inv(max, ws[k])
  {
    if k > 0 {
      EachLeavesOnce(max, ops, ws, k - 1);
      StepKeeps(max, ws[k - 1], ops[k - 1]);
    }
  }

  /** The entry under pid, if any, leaves for this cause, and nothing else. */
  ghost predicate OneLeaves(w: World, w': World, pid: nat, cause: Cause) {
    && w'.inflight == w.inflight - {pid}
    && w'.left == w.left + if pid in w.inflight then [(w.inflight[pid], cause)] else []
  }

  /** Every entry leaves because of the disconnect, each once. */
  ghost predicate AllGone(w: World, w': World) {
    && w'.inflight == map[] && w.left <= w'.left && |w'.left| == |w.left| + |w.inflight|
    && forall pid | pid in w.inflight :: (w.inflight[pid], Disconnected) in w'.left[|w.left|..]
  }

  lemma {:induction false} AllLeaveExact(w: World, order: seq<nat>)
    requires (forall i | 0 <= i < |order| :: order[i] in w.inflight)
    requires forall i, j | 0 <= i < j < |order| :: order[i] != order[j]
    ensures var v := AllLeave(w, order);
            && w.left <= v.left && |v.left| == |w.left| + |order|
            && (forall pid :: pid in v.inflight <==> pid in w.inflight && pid !in order)
            && (forall pid | pid in v.inflight :: v.inflight[pid] == w.inflight[pid])
            && (forall pid | pid in order :: (w.inflight[pid], Disconnected) in v.left[|w.left|..])
    decreases |order|
  {
    if order != [] {
      var front, last := order[..|order| - 1], order[|order| - 1];
      AllLeaveExact(w, front);
      var u, v := AllLeave(w, front), AllLeave(w, order);
      assert order == front + [last] && last !in front;
      assert v.left == u.left + [(w.inflight[last], Disconnected)];
      assert v.left[|w.left|..] == u.left[|w.left|..] + [(w.inflight[last], Disconnected)];
    }
  }

  lemma {:induction false} OrderLength(order: seq<nat>, keys: set<nat>)
    requires forall x :: x in order <==> x in keys
    requires forall i, j | 0 <= i < j < |order| :: order[i] != order[j]
    ensures |order| == |keys|
    decreases |order|
  {
    if order == [] {
      assert keys == {};
    } else {
      var front, last := order[..|order| - 1], order[|order| - 1];
      assert order == front + [last] && last !in front;
      OrderLength(front, keys - {last});
    }
  }

  lemma DisconnectExact(max: nat, w: World, order: seq<nat>)
    requires Enabled(max, w, Disconnect(order))
    ensures AllGone(w, Next(max, w, Disconnect(order)))
  {
    AllLeaveExact(w, order);
    OrderLength(order, w.inflight.Keys);
  }

  /** In any run a registration leaves by an ack of its id, by a publish that
      gives up under that id, or with all others at a disconnect, and in no
      other step; an ack for an id not in flight changes nothing. */
  lemma Departures(max: nat, ops: seq<Op>, ws: seq<World>, k: nat)
    requires Runs(max, ops, ws) && k < |ops|
    ensures var w, w', op := ws[k], ws[k + 1], ops[k];
            match op
            case Puback(pid) => OneLeaves(w, w', pid, Acked)
            case GiveUp(giver) => giver in w.marks && OneLeaves(w, w', w.marks[giver].pid, Popped(giver))
            case Disconnect(_) => AllGone(w, w')
            case _ => w'.left == w.left && forall pid | pid in w.inflight ::
                        pid in w'.inflight && w'.inflight[pid] == w.inflight[pid]
  {
    assert StepsTo(max, ws[k], ops[k], ws[k + 1]);
    if ops[k].Disconnect? {
      DisconnectExact(max, ws[k], ops[k].order);
    }
  }

  // ---- Whose entry a publish pops ----

  /** How often the pointer was written since the publish took its id. */
  function Since(w: World, giver: Token): int
    requires giver in w.marks
  {
    w.next.writes - w.marks[giver].write
  }

  /** Some of these writes followed an id that was not the pointer any more. */
  predicate Stale(w: World, giver: Token)
    requires giver in w.marks
  {
    w.next.lastStale > w.marks[giver].write
  }

  /** How many writes since make a pop by id risky. */
  function Limit(stale: bool): nat {
    if stale then 2 else IDS
  }

  ghost predicate TakesAnother(w: World, giver: Token)
    requires giver in w.marks
  {
    var pid := w.marks[giver].pid;
    pid in w.inflight && w.inflight[pid] != giver
  }

  lemma Apart(lastStale: nat, g: Mark, h: Mark)
    requires IsId(g.pid) && Follows(lastStale, g, h)
    requires g.write < h.write < g.write + Limit(lastStale > g.write)
    ensures h.pid != g.pid
  {
    NthIs(g.pid, h.write - g.write);
  }

  lemma OwnEntry(max: nat, w: World, giver: Token)
    requires Inv(max, w) && giver in w.marks && Since(w, giver) < Limit(Stale(w, giver))
    ensures !TakesAnother(w, giver)
  {
    var g := w.marks[giver];
    if TakesAnother(w, giver) {
      var h := w.marks[w.inflight[g.pid]];
      assert h.pid == g.pid && g.write < h.write;
      Apart(w.next.lastStale, g, h);
    }
  }

  /** A publish that gives up removes its own registration or none, as long as
      the pointer has not been written all the way round since, and not more
      than once since if one of the writes was stale. */
  lemma GiveUpTakesOwn(max: nat, ops: seq<Op>, ws: seq<World>, k: nat)
    requires Runs(max, ops, ws) && k < |ops| && ops[k].GiveUp?
    ensures var w, giver := ws[k], ops[k].giver;
            giver in w.marks && (Since(w, giver) < Limit(Stale(w, giver)) ==> !TakesAnother(w, giver))
  {
    assert StepsTo(max, ws[k], ops[k], ws[k + 1]);
    EachLeavesOnce(max, ops, ws, k);
    if Since(ws[k], ops[k].giver) < Limit(Stale(ws[k], ops[k].giver)) {
      OwnEntry(max, ws[k], ops[k].giver);
    }
  }

  /** The id n places after id 1. */
  function IdAt(n: nat): (pid: nat)
    ensures IsId(pid)
  {
    1 + n % IDS
  }

  lemma AfterIdAt(n: nat)
    ensures After(IdAt(n)) == IdAt(n + 1)
  {
    var q, r := n / IDS, n % IDS;
    assert n == IDS * q + r;
    if r + 1 < IDS {
      assert n + 1 == IDS * q + (r + 1);
    } else {
      assert n + 1 == IDS * (q + 1);
    }
  }

  /** Writes that each follow the pointer walk the ids cyclically. */
  lemma {:induction false} PointerAt(pid: nat, n: nat)
    requires IsId(pid)
    ensures Nth(pid, n) == IdAt(pid - 1 + n)
  {
    if n > 0 {
      PointerAt(pid, n - 1);
      AfterIdAt(pid - 1 + n - 1);
    }
  }

  // ---- Runs in which another entry is taken ----

  ghost predicate Reachable(max: nat, w: World) {
    exists ops, ws :: Runs(max, ops, ws) && ws[|ops|] == w
  }

  lemma ReachableInv(max: nat, w: World)
    requires Reachable(max, w)
    ensures Inv(max, w)
  {
    var ops, ws :| Runs(max, ops, ws) && ws[|ops|] == w;
    EachLeavesOnce(max, ops, ws, |ops|);
  }

  lemma ReachableStep(max: nat, w: World, op: Op)
    requires Reachable(max, w) && Enabled(max, w, op)
    ensures Reachable(max, Next(max, w, op))
  {
    var ops, ws :| Runs(max, ops, ws) && ws[|ops|] == w;
    var ops', ws' := ops + [op], ws + [Next(max, w, op)];
    assert StepsTo(max, w, op, Next(max, w, op));
    assert Runs(max, ops', ws') && ws'[|ops'|] == Next(max, w, op);
  }

  /** A publish that finds the pointer's id free, with nobody interfering. */
  function Published(w: World, token: Token): World {
    w.(inflight := w.inflight[w.next.pid := token], next := Written(w.next, w.next.pid),
       marks := w.marks[token := Mark(w.next.pid, w.next.writes + 1)])
  }

  lemma PublishSteps(max: nat, w: World, token: Token) returns (w1: World, w2: World)
    requires Enabled(max, w, Begin(token)) && w.next.pid !in w.inflight
    ensures w1 == Next(max, w, Begin(token)) && Enabled(max, w1, Write) && w2 == Next(max, w1, Write)
    ensures Enabled(max, w2, Test) && Next(max, w2, Test) == Published(w, token)
  {
    w1 := Next(max, w, Begin(token));
    w2 := Next(max, w1, Write);
  }

  lemma PublishReachable(max: nat, w: World, token: Token)
    requires Reachable(max, w) && Enabled(max, w, Begin(token)) && w.next.pid !in w.inflight
    ensures Reachable(max, Published(w, token))
  {
    var w1, w2 := PublishSteps(max, w, token);
    ReachableStep(max, w, Begin(token));
    ReachableStep(max, w1, Write);
    ReachableStep(max, w2, Test);
  }

  lemma {:induction false} NthAfter(pid: nat, j: nat)
    ensures Nth(After(pid), j) == Nth(pid, j + 1)
  {
    if j > 0 {
      NthAfter(pid, j - 1);
    }
  }

  lemma OneTurn(max: nat, w: World, token: Token) returns (v: World)
    requires Reachable(max, w) && w.search == Some(Holds(token, w.next.pid))
    ensures Reachable(max, v) && v.left == w.left && v.next.pid == After(w.next.pid)
    ensures if w.next.pid in w.inflight then v.inflight == w.inflight && v.search == Some(Holds(token, v.next.pid))
            else v.inflight == w.inflight[w.next.pid := token] && v.search == None
  {
    ReachableStep(max, w, Write);
    var w1 := Next(max, w, Write);
    ReachableStep(max, w1, Test);
    v := Next(max, w1, Test);
  }

  /** The steps of a search, when nobody interferes, do what Register does. */
  lemma {:induction false} SearchAlone(max: nat, w: World, token: Token, moved: nat) returns (v: World)
    requires Reachable(max, w) && w.search == Some(Holds(token, w.next.pid))
    requires forall j | 0 <= j < moved :: Nth(w.next.pid, j) in w.inflight
    requires Nth(w.next.pid, moved) !in w.inflight
    ensures Reachable(max, v) && v.search == None && v.left == w.left
    ensures v.inflight == w.inflight[Nth(w.next.pid, moved) := token] && v.next.pid == After(Nth(w.next.pid, moved))
    decreases moved
  {
    v := OneTurn(max, w, token);
    if moved > 0 {
      assert Nth(w.next.pid, 0) in w.inflight;
      NthAfter(w.next.pid, moved - 1);
      forall j | 0 <= j < moved - 1
        ensures Nth(v.next.pid, j) in v.inflight
      {
        NthAfter(w.next.pid, j);
        assert Nth(w.next.pid, j + 1) in w.inflight;
      }
      v := SearchAlone(max, v, token, moved - 1);
    }
  }

  /** A publish that then leaves the map: it is acknowledged, or it times out
      and pops its own entry. */
  function PublishedAndLeft(w: World, token: Token, late: bool): World {
    Published(w, token).(inflight := w.inflight, popped := w.popped + if late then {token} else {},
                         left := w.left + [(token, if late then Popped(token) else Acked)])
  }

  lemma LeftReachable(max: nat, w: World, token: Token, late: bool)
    requires Reachable(max, w) && Enabled(max, w, Begin(token)) && w.inflight == map[] && token !in w.popped
    ensures Reachable(max, PublishedAndLeft(w, token, late))
  {
    PublishReachable(max, w, token);
    var op := if late then GiveUp(token) else Puback(w.next.pid);
    ReachableStep(max, Published(w, token), op);
    assert map[][w.next.pid := token] - {w.next.pid} == map[];
    assert Next(max, Published(w, token), op) == PublishedAndLeft(w, token, late);
  }

  /** n publishes, each out of the map before the next. */
  function OneByOne(n: nat, late: bool): (w: World)
    ensures w.inflight == map[] && w.search == None && w.subs == map[]
    ensures forall t | t in w.popped :: late && t < n
    ensures late ==> forall t: Token | t < n :: t in w.popped
    ensures w.next == Pointer(IdAt(n), n, 0) && forall t: Token :: t in w.marks <==> t < n
    ensures forall t | 0 <= t < n :: w.marks[t] == Mark(IdAt(t), t + 1)
  {
    if n == 0 then START
    else
      AfterIdAt(n - 1);
      PublishedAndLeft(OneByOne(n - 1, late), n - 1, late)
  }

  lemma NextLeft(max: nat, w: World, t: Token, late: bool)
    requires max >= 1 && Reachable(max, w) && w.inflight == map[] && w.search == None
    requires t !in w.marks && t !in w.popped
    ensures Reachable(max, PublishedAndLeft(w, t, late))
  {
    LeftReachable(max, w, t, late);
  }

  lemma {:induction false} OneByOneReachable(max: nat, n: nat, late: bool)
    requires max >= 1
    ensures Reachable(max, OneByOne(n, late))
  {
    if n == 0 {
      assert Runs(max, [], [START]);
    } else {
      OneByOneReachable(max, n - 1, late);
      NextLeft(max, OneByOne(n - 1, late), n - 1, late);
    }
  }

  /** Nobody is allocating, and publish t, popped or not, would pop, or have its
      late ack credited to, another publish's entry. */
  ghost predicate Mistaken(w: World, t: Token, late: bool) {
    w.search == None && w.subs == map[] && t in w.marks && (t in w.popped <==> late) && TakesAnother(w, t)
  }

  lemma AfterTurn(max: nat, n: nat, late: bool) returns (w: World)
    requires max >= 1 && n == IDS
    ensures Reachable(max, w) && Mistaken(w, 0, late) && Since(w, 0) == n && !Stale(w, 0)
  {
    OneByOneReachable(max, n, late);
    var w0 := OneByOne(n, late);
    assert w0.next.pid == IdAt(n) == 1 == IdAt(0);
    PublishReachable(max, w0, n);
    w := Published(w0, n);
  }

  /** One full turn of the pointer is enough: a publish whose ack came in just
      as it gave up removes the entry of the publish that now has its id. */
  lemma GiveUpCanTakeAnother(max: nat) returns (w: World)
    requires max >= 1
    ensures Reachable(max, w) && Mistaken(w, 0, false) && Since(w, 0) == IDS && !Stale(w, 0)
  {
    w := AfterTurn(max, IDS, false);
  }

  /** Two publishes left the map; a subscribe call still holds id 1. */
  function BeforeSetBack(late: bool): World {
    World(map[], Pointer(3, 2, 0), None, map[0 := Read(1)], map[0 := Mark(1, 1), 1 := Mark(2, 2)],
          if late then {0, 1} else {}, if late then [(0, Popped(0)), (1, Popped(1))] else [(0, Acked), (1, Acked)])
  }

  lemma BeforeSetBackReachable(max: nat, late: bool)
    requires max >= 1
    ensures Reachable(max, BeforeSetBack(late))
  {
    OneByOneReachable(max, 0, late);
    ReachableStep(max, START, SubRead(0));
    var w := Next(max, START, SubRead(0));
    LeftReachable(max, w, 0, late);
    LeftReachable(max, PublishedAndLeft(w, 0, late), 1, late);
    TwoLeft(w, late);
  }

  lemma TwoLeft(w: World, late: bool)
    requires w == START.(subs := map[0 := Read(1)])
    ensures PublishedAndLeft(PublishedAndLeft(w, 0, late), 1, late) == BeforeSetBack(late)
  {
    assert PublishedAndLeft(w, 0, late).next == Pointer(2, 1, 0);
  }

  /** Its write sets the pointer back to 2. */
  lemma WriteBack(max: nat, late: bool) returns (w: World, w': World)
    requires max >= 1
    ensures Enabled(max, BeforeSetBack(late), SubWrite(0)) && w == Next(max, BeforeSetBack(late), SubWrite(0))
    ensures Enabled(max, w, SubTest(0)) && w' == Next(max, w, SubTest(0))
    ensures w' == BeforeSetBack(late).(next := Pointer(2, 3, 3), subs := map[])
  {
    w := Next(max, BeforeSetBack(late), SubWrite(0));
    assert w.next == Pointer(2, 3, 3) && w.subs == map[0 := Wrote(1, 3)];
    w' := Next(max, w, SubTest(0));
    assert w'.subs == map[];
  }

  /** Two writes after publish 1 took id 2, the second by publish 2, which has
      that id now. */
  lemma SubscribeSetsBack(max: nat, late: bool) returns (w: World)
    requires max >= 1
    ensures Reachable(max, w) && Mistaken(w, 1, late) && Since(w, 1) == 2 && Stale(w, 1)
  {
    BeforeSetBackReachable(max, late);
    var w1, w2 := WriteBack(max, late);
    ReachableStep(max, BeforeSetBack(late), SubWrite(0));
    ReachableStep(max, w1, SubTest(0));
    PublishReachable(max, w2, 2);
    w := Published(w2, 2);
  }

  // ---- More writes ----

  /** Subscribe call 0 is idle, or has just read the pointer. */
  ghost predicate AtPointer(w: World) {
    w.search == None && (0 in w.subs ==> w.subs[0] == Read(w.next.pid))
  }

  /** Only the pointer was written k times more, never stale. */
  ghost predicate Farther(w: World, v: World, k: nat) {
    && v.inflight == w.inflight && v.marks == w.marks && v.popped == w.popped && v.search == w.search
    && v.next.writes == w.next.writes + k && v.next.lastStale == w.next.lastStale
  }

  lemma OneAllocation(max: nat, w: World) returns (v: World)
    requires Reachable(max, w) && AtPointer(w)
    ensures Reachable(max, v) && AtPointer(v) && Farther(w, v, 1)
  {
    v := w;
    if 0 !in w.subs {
      ReachableStep(max, v, SubRead(0));
      v := Next(max, v, SubRead(0));
    }
    ReachableStep(max, v, SubWrite(0));
    v := Next(max, v, SubWrite(0));
    ReachableStep(max, v, SubTest(0));
    v := Next(max, v, SubTest(0));
  }

  lemma {:induction false} Allocations(max: nat, w: World, k: nat) returns (v: World)
    requires Reachable(max, w) && AtPointer(w)
    ensures Reachable(max, v) && AtPointer(v) && Farther(w, v, k)
  {
    v := w;
    if k > 0 {
      v := Allocations(max, w, k - 1);
      v := OneAllocation(max, v);
    }
  }

  // ---- Exactly when ----

  /** Giving up is safe in every reachable state with this many writes since. */
  ghost predicate SafeAfter(max: nat, n: nat, stale: bool) {
    forall w, giver | Reachable(max, w) && giver in w.marks && Since(w, giver) == n && Stale(w, giver) == stale ::
      !(Enabled(max, w, GiveUp(giver)) && TakesAnother(w, giver))
  }

  /** The late ack of a publish that timed out, which carries its id, is never
      credited to another publish. */
  ghost predicate LateAckDropped(max: nat, n: nat, stale: bool) {
    forall w, t | Reachable(max, w) && t in w.marks && t in w.popped && Since(w, t) == n && Stale(w, t) == stale ::
      !(Enabled(max, w, Puback(w.marks[t].pid)) && TakesAnother(w, t))
  }

  /** The mistake, with n writes since. */
  lemma MistakenAfter(max: nat, n: nat, stale: bool, late: bool) returns (v: World, t: Token)
    requires max >= 1 && n >= Limit(stale)
    ensures Reachable(max, v) && v.search == None && t in v.marks && (t in v.popped <==> late) && TakesAnother(v, t)
    ensures Since(v, t) == n && Stale(v, t) == stale
  {
    var w: World;
    if stale {
      t := 1;
      w := SubscribeSetsBack(max, late);
    } else {
      t := 0;
      w := AfterTurn(max, IDS, late);
    }
    v := Allocations(max, w, n - Since(w, t));
  }

  lemma NeverMistaken(max: nat, w: World, t: Token)
    requires Reachable(max, w) && t in w.marks && (max == 0 || Since(w, t) < Limit(Stale(w, t)))
    ensures !TakesAnother(w, t)
  {
    ReachableInv(max, w);
    if max == 0 {
      assert w.inflight.Keys == {};
    } else {
      OwnEntry(max, w, t);
    }
  }

  /** Exactly when a pop by id is safe: fewer than 65535 writes of the pointer
      since the id was taken, none of them stale; or at most one. */
  lemma GiveUpSafeIff(max: nat, n: nat, stale: bool)
    ensures SafeAfter(max, n, stale) <==> max == 0 || n < Limit(stale)
  {
    if max == 0 || n < Limit(stale) {
      forall w, giver | Reachable(max, w) && giver in w.marks && Since(w, giver) == n && Stale(w, giver) == stale
        ensures !TakesAnother(w, giver)
      {
        NeverMistaken(max, w, giver);
      }
    } else {
      var v, t := MistakenAfter(max, n, stale, false);
      assert Enabled(max, v, GiveUp(t)) && TakesAnother(v, t);
    }
  }

  /** "A late PUBACK for this id is dropped because the id is no longer
      registered" holds exactly under the same bound; after it the ack resolves
      the publish that has the id now. */
  lemma LateAckDroppedIff(max: nat, n: nat, stale: bool)
    ensures LateAckDropped(max, n, stale) <==> max == 0 || n < Limit(stale)
  {
    if max == 0 || n < Limit(stale) {
      forall w, t | Reachable(max, w) && t in w.marks && t in w.popped && Since(w, t) == n && Stale(w, t) == stale
        ensures !TakesAnother(w, t)
      {
        NeverMistaken(max, w, t);
      }
    } else {
      var v, t := MistakenAfter(max, n, stale, true);
      assert Enabled(max, v, Puback(v.marks[t].pid)) && TakesAnother(v, t);
    }
  }

  // ---- The ids of subscribe calls ----

  /** _alloc_pid returns an id in use only if the pointer was written between
      its own write and its test. */
  lemma FreeUnlessDisturbed(max: nat, w: World, sub: nat)
    requires Reachable(max, w) && sub in w.subs && w.subs[sub].Wrote? && w.subs[sub].write == w.next.writes
    ensures Returns(w, w.subs[sub].pid) ==> w.subs[sub].pid !in w.inflight
  {
    ReachableInv(max, w);
    assert Allocating(w.next, w.subs[sub]);
  }

  /** One such write is enough: two subscribe calls and a publish that has id 2. */
  lemma AllocReturnsIdInUse(max: nat) returns (w: World)
    requires max >= 1
    ensures Reachable(max, w) && 0 in w.subs && w.subs[0].Wrote? && w.next.writes == w.subs[0].write + 1
    ensures Returns(w, w.subs[0].pid) && w.subs[0].pid in w.inflight
  {
    OneByOneReachable(max, 0, false);
    ReachableStep(max, START, SubRead(1));
    var w1 := Next(max, START, SubRead(1));
    LeftReachable(max, w1, 0, false);
    var w2 := PublishedAndLeft(w1, 0, false);
    ReachableStep(max, w2, SubRead(0));
    var w3 := Next(max, w2, SubRead(0));
    PublishReachable(max, w3, 1);
    w := TwoWrites(max, Published(w3, 1));
  }

  lemma TwoWrites(max: nat, w: World) returns (v: World)
    requires Reachable(max, w) && 2 in w.inflight
    requires 0 in w.subs && w.subs[0] == Read(2) && 1 in w.subs && w.subs[1] == Read(1)
    ensures Reachable(max, v) && 2 in v.inflight && v.next.pid == 2
    ensures 0 in v.subs && v.subs[0].Wrote? && v.subs[0].pid == 2 && v.next.writes == v.subs[0].write + 1
  {
    ReachableStep(max, w, SubWrite(0));
    v := Next(max, w, SubWrite(0));
    ReachableStep(max, v, SubWrite(1));
    v := Next(max, v, SubWrite(1));
  }
}
