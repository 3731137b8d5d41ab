/** The writer queue (writer.cpp): one deque carries frame records, dropped
    oldest first, and event records, never dropped.

    Every critical section of `mu_` is one atomic operation here. `push_event`
    is two of them when it has to wait, so any number of producers may be
    parked between the first and the second. */
module Writers {
  import opened Wrappers

  datatype Entry = Entry(isFrame: bool, bytes: seq<bv8>)

  datatype Config = Config(frameQueue: nat, eventLimit: nat)

  /** The events pushed so far; those whose producers wait for room; and those
      whose producers woke up to a stop. */
  datatype Events = Events(pushed: multiset<seq<bv8>>, waiting: multiset<seq<bv8>>, givenUp: multiset<seq<bv8>>)

  function Arrives(ev: Events, rec: seq<bv8>, parks: bool): Events {
    ev.(pushed := ev.pushed + multiset{rec}, waiting := ev.waiting + if parks then multiset{rec} else multiset{})
  }

  function Wakes(ev: Events, rec: seq<bv8>, stops: bool): Events {
    ev.(waiting := ev.waiting - multiset{rec}, givenUp := ev.givenUp + if stops then multiset{rec} else multiset{})
  }

  datatype State = State(
    q: seq<Entry>,
    framesQueued: int,
    eventsQueued: int,
    framesDropped: nat,
    backpressure: nat,
    running: bool,
    stopping: bool,
    // history
    events: Events,
    accepted: seq<Entry>,        // every record that entered the queue
    hand: Option<Entry>,         // popped, not yet given to the sink
    delivered: seq<Entry>)       // given to the sink

  function Fresh(): State {
    State([], 0, 0, 0, 0, false, false, Events(multiset{}, multiset{}, multiset{}), [], None, [])
  }

  /** Index of the first frame at or after i, |q| if there is none. */
  function FirstFrame(q: seq<Entry>, i: nat): (r: nat)
    requires i <= |q|
    ensures i <= r <= |q| && (r < |q| ==> q[r].isFrame) && forall k | i <= k < r :: !q[k].isFrame
    decreases |q| - i
  {
    if i == |q| || q[i].isFrame then i else FirstFrame(q, i + 1)
  }

  function Without(q: seq<Entry>, i: nat): seq<Entry>
    requires i < |q|
  {
    q[..i] + q[i + 1..]
  }

  /** The oldest queued frame leaves the queue. */
  function DropOne(st: State): State
    requires FirstFrame(st.q, 0) < |st.q|
  {
    st.(q := Without(st.q, FirstFrame(st.q, 0)), framesQueued := st.framesQueued - 1,
        framesDropped := st.framesDropped + 1)
  }

  function MakeRoom(st: State, cfg: Config): State
    decreases |st.q|
  {
    if st.framesQueued >= cfg.frameQueue && FirstFrame(st.q, 0) < |st.q| then MakeRoom(DropOne(st), cfg) else st
  }

  function Accept(st: State, e: Entry): State {
    st.(q := st.q + [e], accepted := st.accepted + [e],
        framesQueued := st.framesQueued + (if e.isFrame then 1 else 0),
        eventsQueued := st.eventsQueued + (if e.isFrame then 0 else 1))
  }

  function AfterPushFrame(st: State, cfg: Config, rec: seq<bv8>): State {
    if !st.running then st else Accept(MakeRoom(st, cfg), Entry(true, rec))
  }

  /** push_event up to its wait. */
  function AfterPushEvent(st: State, cfg: Config, rec: seq<bv8>): State {
    if !st.running then st
    else if st.eventsQueued >= cfg.eventLimit then
      st.(backpressure := st.backpressure + 1, events := Arrives(st.events, rec, true))
    else Accept(st.(events := Arrives(st.events, rec, false)), Entry(false, rec))
  }

  /** The wait of push_event may end. */
  predicate MayResume(st: State, cfg: Config) {
    st.stopping || st.eventsQueued < cfg.eventLimit
  }

  function AfterResume(st: State, rec: seq<bv8>): State {
    var st' := st.(events := Wakes(st.events, rec, st.stopping));
    if st.stopping then st' else Accept(st', Entry(false, rec))
  }

  /** The critical section of the writer thread's loop. */
  function AfterPop(st: State): State
    requires st.q != []
  {
    var e := st.q[0];
    st.(q := st.q[1..], hand := Some(e),
        framesQueued := st.framesQueued - (if e.isFrame then 1 else 0),
        eventsQueued := st.eventsQueued - (if e.isFrame then 0 else 1))
  }

  /** The sink call of the writer thread. */
  function AfterSink(st: State): State
    requires st.hand.Some?
  {
    st.(delivered := st.delivered + [st.hand.value], hand := None)
  }

  /** The rest of stop() once the writer thread is joined: everything left goes
      to the sink on the caller's thread. The counters are not touched. */
  function AfterDrain(st: State): State {
    st.(q := [], delivered := st.delivered + st.q, running := false)
  }

  class Writer {
    const cfg: Config
    var q: seq<Entry>
    var framesQueued: int
    var eventsQueued: int
    var framesDropped: nat
    var backpressure: nat
    var running: bool
    var stopping: bool
    ghost var events: Events
    ghost var accepted: seq<Entry>
    var hand: Option<Entry>
    ghost var delivered: seq<Entry>

    ghost function View(): State
      reads this
    {
      State(q, framesQueued, eventsQueued, framesDropped, backpressure, running, stopping,
            events, accepted, hand, delivered)
    }

    constructor (cfg: Config)
      ensures View() == Fresh() && this.cfg == cfg
    {
      this.cfg := cfg;
      q, framesQueued, eventsQueued, framesDropped, backpressure := [], 0, 0, 0, 0;
      running, stopping, accepted, hand, delivered := false, false, [], None, [];
      events := Events(multiset{}, multiset{}, multiset{});
    }

    method Start()
      modifies this
      ensures View() == old(View()).(running := true, stopping := false)
    {
      running, stopping := true, false;
    }

    method RequestStop()
      modifies this
      ensures View() == old(View()).(stopping := true)
    {
      stopping := true;
    }

    /** The inner loop of push_frame. */
    method FindFrame() returns (i: nat)
      ensures i == FirstFrame(q, 0)
    {
      i := 0;
      while i < |q| && !q[i].isFrame
        invariant i <= |q| && FirstFrame(q, i) == FirstFrame(q, 0)
      {
        i := i + 1;
      }
    }

    /** One turn of the outer loop: the oldest queued frame goes, if any. */
    method DropOldest() returns (dropped: bool)
      modifies this
      ensures dropped == (FirstFrame(old(q), 0) < |old(q)|)
      ensures View() == if dropped then DropOne(old(View())) else old(View())
    {
      var i := FindFrame();
      dropped := i < |q|;
      if dropped {
        q := q[..i] + q[i + 1..];
        framesQueued := framesQueued - 1;
        framesDropped := framesDropped + 1;
      }
    }

    method PushFrame(rec: seq<bv8>)
      modifies this
      ensures View() == AfterPushFrame(old(View()), cfg, rec)
      ensures PushFrameMeaning(old(View()), View(), cfg, rec)
    {
      if !running {
        return;
      }
      PushFrameMeans(View(), cfg, rec);
      var droppedOne := true;
      while framesQueued >= cfg.frameQueue && droppedOne
        invariant running && MakeRoom(View(), cfg) == MakeRoom(old(View()), cfg)
        invariant droppedOne || MakeRoom(View(), cfg) == View()
        decreases |q|, droppedOne
      {
        droppedOne := DropOldest();
      }
      framesQueued := framesQueued + 1;
      q := q + [Entry(true, rec)];
      accepted := accepted + [Entry(true, rec)];
    }

    /** The first critical section; `parked` tells the caller has to wait. */
    method PushEvent(rec: seq<bv8>) returns (parked: bool)
      modifies this
      ensures View() == AfterPushEvent(old(View()), cfg, rec)
      ensures Inv(old(View()), cfg) ==> EventPushed(old(View()), View(), cfg.eventLimit, Entry(false, rec), parked)
    {
      if Inv(View(), cfg) {
        PushEventExact(View(), cfg, rec);
      }
      parked := false;
      if !running {
        return;
      }
      events := Arrives(events, rec, eventsQueued >= cfg.eventLimit);
      if eventsQueued >= cfg.eventLimit {
        backpressure := backpressure + 1;
        return true;
      }
      eventsQueued := eventsQueued + 1;
      q := q + [Entry(false, rec)];
      accepted := accepted + [Entry(false, rec)];
    }

    /** The second one, entered when the wait's predicate holds. */
    method ResumeEvent(rec: seq<bv8>)
      requires MayResume(View(), cfg)
      modifies this
      ensures View() == AfterResume(old(View()), rec)
    {
      events := Wakes(events, rec, stopping);
      if stopping {
        return;
      }
      eventsQueued := eventsQueued + 1;
      q := q + [Entry(false, rec)];
      accepted := accepted + [Entry(false, rec)];
    }

    /** One round of run(): take the front, release the lock, call the sink. */
    method Pop()
      requires q != []
      modifies this
      ensures View() == AfterPop(old(View()))
    {
      var e := q[0];
      q := q[1..];
      hand := Some(e);
      if e.isFrame {
        framesQueued := framesQueued - 1;
      } else {
        eventsQueued := eventsQueued - 1;
      }
    }

    method CallSink()
      requires hand.Some?
      modifies this
      ensures View() == AfterSink(old(View()))
    {
      delivered := delivered + [hand.value];
      hand := None;
    }

    method Drain()
      modifies this
      ensures View() == AfterDrain(old(View()))
    {
      while q != []
        invariant View() == old(View()).(q := q, delivered := delivered)
        invariant delivered + q == old(delivered + q)
        decreases |q|
      {
        var e := q[0];
        delivered := delivered + [e];
        q := q[1..];
      }
      running := false;
    }
  }

  // ---- Runs ----

  datatype Step =
    | PushFrame(rec: seq<bv8>)
    | PushEvent(rec: seq<bv8>)
    | ResumeEvent(rec: seq<bv8>)
    | Pop
    | CallSink
    | RequestStop

  /** The writer thread holds at most one record at a time. */
  predicate Enabled(st: State, cfg: Config, step: Step) {
    match step
    case ResumeEvent(rec) => rec in st.events.waiting && MayResume(st, cfg)
    case Pop => st.q != [] && st.hand.None?
    case CallSink => st.hand.Some?
    case _ => true
  }

  function Apply(st: State, cfg: Config, step: Step): State
    requires Enabled(st, cfg, step)
  {
    match step
    case PushFrame(rec) => AfterPushFrame(st, cfg, rec)
    case PushEvent(rec) => AfterPushEvent(st, cfg, rec)
    case ResumeEvent(rec) => AfterResume(st, rec)
    case Pop => AfterPop(st)
    case CallSink => AfterSink(st)
    case RequestStop => st.(stopping := true)
  }

  predicate Runs(st: State, cfg: Config, steps: seq<Step>)
    decreases |steps|
  {
    steps == [] || (Enabled(st, cfg, steps[0]) && Runs(Apply(st, cfg, steps[0]), cfg, steps[1..]))
  }

  function Final(st: State, cfg: Config, steps: seq<Step>): State
    requires Runs(st, cfg, steps)
    decreases |steps|
  {
    if steps == [] then st else Final(Apply(st, cfg, steps[0]), cfg, steps[1..])
  }

  function Started(): State {
    Fresh().(running := true)
  }

  // ---- The log the writer refines ----

  /** `kept` is `full` with exactly n entries erased, all of them frames. */
  ghost predicate ErasesFrames(full: seq<Entry>, kept: seq<Entry>, n: nat)
    decreases |full|
  {
    if full == [] then kept == [] && n == 0
    else
      var last := full[|full| - 1];
      var rest := full[..|full| - 1];
      || (kept != [] && kept[|kept| - 1] == last && ErasesFrames(rest, kept[..|kept| - 1], n))
      || (last.isFrame && n > 0 && ErasesFrames(rest, kept, n - 1))
  }

  function FramesOf(q: seq<Entry>): seq<Entry> {
    if q == [] then []
    else FramesOf(q[..|q| - 1]) + (if q[|q| - 1].isFrame then [q[|q| - 1]] else [])
  }

  function EventsOf(q: seq<Entry>): seq<Entry> {
    if q == [] then []
    else EventsOf(q[..|q| - 1]) + (if q[|q| - 1].isFrame then [] else [q[|q| - 1]])
  }

  /** What left the queue towards the sink, and what is still in it. */
  function Kept(st: State): seq<Entry> {
    st.delivered + (if st.hand.Some? then [st.hand.value] else []) + st.q
  }

  /** A frame limit of 0 still lets one frame in. */
  function FrameLimit(cfg: Config): nat {
    if cfg.frameQueue == 0 then 1 else cfg.frameQueue
  }

  ghost predicate Inv(st: State, cfg: Config) {
    && ErasesFrames(st.accepted, Kept(st), st.framesDropped)
    && st.framesQueued == |FramesOf(st.q)| <= FrameLimit(cfg)
    && st.eventsQueued == |EventsOf(st.q)| <= cfg.eventLimit
    && |FramesOf(st.q)| <= |FramesOf(st.accepted)|
    && FramesOf(st.q) == Suffix(FramesOf(st.accepted), |FramesOf(st.q)|)
    && st.running
  }

  lemma {:induction false} EraseOne(full: seq<Entry>, kept: seq<Entry>, n: nat, i: nat)
    requires ErasesFrames(full, kept, n) && i < |kept| && kept[i].isFrame
    ensures ErasesFrames(full, Without(kept, i), n + 1)
    decreases |full|
  {
    var last := full[|full| - 1];
    var rest := full[..|full| - 1];
    if kept[|kept| - 1] == last && ErasesFrames(rest, kept[..|kept| - 1], n) {
      if i == |kept| - 1 {
        assert Without(kept, i) == kept[..|kept| - 1];
      } else {
        EraseOne(rest, kept[..|kept| - 1], n, i);
        var shorter := Without(kept, i);
        assert shorter[..|shorter| - 1] == Without(kept[..|kept| - 1], i);
      }
    } else {
      EraseOne(rest, kept, n - 1, i);
    }
  }

  lemma EraseNone(full: seq<Entry>, kept: seq<Entry>, n: nat, e: Entry)
    requires ErasesFrames(full, kept, n)
    ensures ErasesFrames(full + [e], kept + [e], n)
  {
    assert (full + [e])[..|full|] == full && (kept + [e])[..|kept|] == kept;
  }

  lemma {:induction false} SplitAppend(a: seq<Entry>, b: seq<Entry>)
    ensures FramesOf(a + b) == FramesOf(a) + FramesOf(b)
    ensures EventsOf(a + b) == EventsOf(a) + EventsOf(b)
    decreases |b|
  {
    if b == [] {
      assert a + b == a;
    } else {
      var rest, last := b[..|b| - 1], b[|b| - 1];
      SplitAppend(a, rest);
      assert (a + b)[..|a + b| - 1] == a + rest && (a + b)[|a + b| - 1] == last;
      assert FramesOf(b) == FramesOf(rest) + (if last.isFrame then [last] else []);
      assert EventsOf(b) == EventsOf(rest) + (if last.isFrame then [] else [last]);
    }
  }

  lemma {:induction false} NoFrames(q: seq<Entry>)
    requires forall k | 0 <= k < |q| :: !q[k].isFrame
    ensures FramesOf(q) == []
    decreases |q|
  {
    if q != [] {
      NoFrames(q[..|q| - 1]);
    }
  }

  lemma Around(a: seq<Entry>, e: Entry, b: seq<Entry>)
    ensures FramesOf(a + [e] + b) == FramesOf(a) + (if e.isFrame then [e] else []) + FramesOf(b)
    ensures EventsOf(a + [e] + b) == EventsOf(a) + (if e.isFrame then [] else [e]) + EventsOf(b)
  {
    SplitAppend(a + [e], b);
    assert (a + [e])[..|a|] == a;
  }

  /** Dropping the oldest frame removes the first of the queued frames. */
  lemma DropsOldest(a: seq<Entry>, e: Entry, b: seq<Entry>)
    requires e.isFrame && forall k | 0 <= k < |a| :: !a[k].isFrame
    ensures FramesOf(a + [e] + b) == [e] + FramesOf(a + b)
    ensures EventsOf(a + [e] + b) == EventsOf(a + b)
  {
    NoFrames(a);
    Around(a, e, b);
    SplitAppend(a, b);
  }

  lemma WithoutInside(front: seq<Entry>, q: seq<Entry>, i: nat)
    requires i < |q|
    ensures Without(front + q, |front| + i) == front + Without(q, i)
  {
    assert (front + q)[..|front| + i] == front + q[..i];
    assert (front + q)[|front| + i + 1..] == q[i + 1..];
  }

  /** The sequences of a drop at position i: the log, then the queue. */
  lemma DropAt(accepted: seq<Entry>, front: seq<Entry>, q: seq<Entry>, n: nat, i: nat)
    requires ErasesFrames(accepted, front + q, n)
    requires i < |q| && q[i].isFrame && forall k | 0 <= k < i :: !q[k].isFrame
    ensures ErasesFrames(accepted, front + Without(q, i), n + 1)
    ensures FramesOf(q) == [q[i]] + FramesOf(Without(q, i)) && EventsOf(q) == EventsOf(Without(q, i))
  {
    WithoutInside(front, q, i);
    EraseOne(accepted, front + q, n, |front| + i);
    assert q == q[..i] + [q[i]] + q[i + 1..];
    DropsOldest(q[..i], q[i], q[i + 1..]);
  }

  lemma DropAtKeeps(st: State, cfg: Config, i: nat)
    requires Inv(st, cfg) && i < |st.q| && st.q[i].isFrame && forall k | 0 <= k < i :: !st.q[k].isFrame
    ensures Inv(st.(q := Without(st.q, i), framesQueued := st.framesQueued - 1, framesDropped := st.framesDropped + 1),
            cfg)
  {
    var front := st.delivered + (if st.hand.Some? then [st.hand.value] else []);
    DropAt(st.accepted, front, st.q, st.framesDropped, i);
    LastTail(FramesOf(st.accepted), st.q[i], FramesOf(Without(st.q, i)));
  }

  lemma LastTail<T>(all: seq<T>, first: T, rest: seq<T>)
    requires |rest| + 1 <= |all| && [first] + rest == Suffix(all, |rest| + 1)
    ensures rest == Suffix(all, |rest|)
  {
    assert ([first] + rest)[1..] == rest;
  }

  lemma DropOneKeeps(st: State, cfg: Config)
    requires Inv(st, cfg) && FirstFrame(st.q, 0) < |st.q|
    ensures Inv(DropOne(st), cfg)
  {
    DropAtKeeps(st, cfg, FirstFrame(st.q, 0));
  }

  lemma {:induction false} MakeRoomKeeps(st: State, cfg: Config)
    requires Inv(st, cfg)
    ensures Inv(MakeRoom(st, cfg), cfg)
    ensures MakeRoom(st, cfg).framesQueued < cfg.frameQueue || MakeRoom(st, cfg).framesQueued == 0
    ensures MakeRoom(st, cfg).accepted == st.accepted
    decreases |st.q|
  {
    if st.framesQueued >= cfg.frameQueue {
      if FirstFrame(st.q, 0) < |st.q| {
        DropOneKeeps(st, cfg);
        MakeRoomKeeps(DropOne(st), cfg);
      } else {
        NoFrames(st.q);
      }
    }
  }

  lemma AcceptKeeps(st: State, cfg: Config, e: Entry)
    requires Inv(st, cfg)
    requires if e.isFrame then st.framesQueued < cfg.frameQueue || st.framesQueued == 0
             else st.eventsQueued < cfg.eventLimit
    ensures Inv(Accept(st, e), cfg)
  {
    EraseNone(st.accepted, Kept(st), st.framesDropped, e);
    KeptGrows(st, e);
    OneMoreEntry(st.q, e);
    OneMoreEntry(st.accepted, e);
    if e.isFrame {
      LastGrows(FramesOf(st.accepted), FramesOf(st.q), e);
    }
  }

  lemma KeptGrows(st: State, e: Entry)
    ensures Kept(Accept(st, e)) == Kept(st) + [e]
  {
  }

  lemma OneMoreEntry(s: seq<Entry>, e: Entry)
    ensures FramesOf(s + [e]) == FramesOf(s) + if e.isFrame then [e] else []
    ensures EventsOf(s + [e]) == EventsOf(s) + if e.isFrame then [] else [e]
  {
    assert (s + [e])[..|s|] == s;
  }

  lemma LastGrows<T>(all: seq<T>, tail: seq<T>, e: T)
    requires |tail| <= |all| && tail == Suffix(all, |tail|)
    ensures tail + [e] == Suffix(all + [e], |tail| + 1)
  {
  }

  lemma PopKeeps(st: State, cfg: Config)
    requires Inv(st, cfg) && st.q != [] && st.hand.None?
    ensures Inv(AfterPop(st), cfg)
  {
    assert Kept(AfterPop(st)) == Kept(st);
    assert st.q == [st.q[0]] + st.q[1..];
    SplitAppend([st.q[0]], st.q[1..]);
    assert [st.q[0]][..0] == [];
  }

  /** Nothing the invariant speaks of differs. */
  lemma SameQueueKeeps(st: State, st': State, cfg: Config)
    requires Inv(st, cfg) && st' == st.(backpressure := st'.backpressure, events := st'.events,
             stopping := st'.stopping)
    ensures Inv(st', cfg)
  {
    assert Kept(st') == Kept(st);
  }

  lemma PushEventKeeps(st: State, cfg: Config, rec: seq<bv8>)
    requires Inv(st, cfg)
    ensures Inv(AfterPushEvent(st, cfg, rec), cfg)
  {
    if st.eventsQueued < cfg.eventLimit {
      var st' := st.(events := Arrives(st.events, rec, false));
      SameQueueKeeps(st, st', cfg);
      AcceptKeeps(st', cfg, Entry(false, rec));
    } else {
      SameQueueKeeps(st, AfterPushEvent(st, cfg, rec), cfg);
    }
  }

  lemma ResumeEventKeeps(st: State, cfg: Config, rec: seq<bv8>)
    requires Inv(st, cfg) && MayResume(st, cfg)
    ensures Inv(AfterResume(st, rec), cfg)
  {
    var st' := st.(events := Wakes(st.events, rec, st.stopping));
    SameQueueKeeps(st, st', cfg);
    if !st.stopping {
      AcceptKeeps(st', cfg, Entry(false, rec));
    }
  }

  lemma SinkKeeps(st: State, cfg: Config)
    requires Inv(st, cfg) && st.hand.Some?
    ensures Inv(AfterSink(st), cfg)
  {
    assert Kept(AfterSink(st)) == Kept(st);
  }

  lemma StepKeeps(st: State, cfg: Config, step: Step)
    requires Inv(st, cfg) && Enabled(st, cfg, step)
    ensures Inv(Apply(st, cfg, step), cfg)
  {
    match step
    case PushFrame(rec) =>
      MakeRoomKeeps(st, cfg);
      AcceptKeeps(MakeRoom(st, cfg), cfg, Entry(true, rec));
    case PushEvent(rec) => PushEventKeeps(st, cfg, rec);
    case ResumeEvent(rec) => ResumeEventKeeps(st, cfg, rec);
    case Pop => PopKeeps(st, cfg);
    case CallSink => SinkKeeps(st, cfg);
    case RequestStop => SameQueueKeeps(st, st.(stopping := true), cfg);
  }

  lemma {:induction false} RunKeeps(st: State, cfg: Config, steps: seq<Step>)
    requires Inv(st, cfg) && Runs(st, cfg, steps)
    ensures Inv(Final(st, cfg, steps), cfg)
    decreases |steps|
  {
    if steps != [] {
      StepKeeps(st, cfg, steps[0]);
      RunKeeps(Apply(st, cfg, steps[0]), cfg, steps[1..]);
    }
  }

  /** The writer refines a log: what reached the sink, then the record in the
      writer's hand, then the queue, are the accepted records in order with
      exactly `framesDropped` frames erased. */
  lemma RefinesLog(cfg: Config, steps: seq<Step>)
    requires Runs(Started(), cfg, steps)
    ensures var st := Final(Started(), cfg, steps);
            ErasesFrames(st.accepted, Kept(st), st.framesDropped)
  {
    RunKeeps(Started(), cfg, steps);
  }

  lemma {:induction false} ErasedKeepsEvents(full: seq<Entry>, kept: seq<Entry>, n: nat)
    requires ErasesFrames(full, kept, n)
    ensures EventsOf(kept) == EventsOf(full)
    ensures |full| == |kept| + n
    decreases |full|
  {
    if full != [] {
      var last := full[|full| - 1];
      var rest := full[..|full| - 1];
      if kept != [] && kept[|kept| - 1] == last && ErasesFrames(rest, kept[..|kept| - 1], n) {
        ErasedKeepsEvents(rest, kept[..|kept| - 1], n);
      } else {
        ErasedKeepsEvents(rest, kept, n - 1);
      }
    }
  }

  /** No accepted event is missing or out of order, and nothing is duplicated. */
  lemma EventsNeverDropped(cfg: Config, steps: seq<Step>)
    requires Runs(Started(), cfg, steps)
    ensures var st := Final(Started(), cfg, steps);
            EventsOf(Kept(st)) == EventsOf(st.accepted) && |st.accepted| == |Kept(st)| + st.framesDropped
  {
    RunKeeps(Started(), cfg, steps);
    var st := Final(Started(), cfg, steps);
    ErasedKeepsEvents(st.accepted, Kept(st), st.framesDropped);
  }

  /** The bytes of the events among the records. */
  function EventBytes(q: seq<Entry>): multiset<seq<bv8>> {
    if q == [] then multiset{}
    else EventBytes(q[..|q| - 1]) + if q[|q| - 1].isFrame then multiset{} else multiset{q[|q| - 1].bytes}
  }

  lemma OneMoreEvent(q: seq<Entry>, e: Entry)
    ensures EventBytes(q + [e]) == EventBytes(q) + if e.isFrame then multiset{} else multiset{e.bytes}
  {
    assert (q + [e])[..|q|] == q;
  }

  /** Every event pushed was accepted, or its producer waits, or gave up; none
      gives up before a stop. */
  ghost predicate EventsAccounted(st: State) {
    && EventBytes(st.accepted) + st.events.waiting + st.events.givenUp == st.events.pushed
    && (st.events.givenUp != multiset{} ==> st.stopping)
  }

  lemma {:induction false} MakeRoomHistory(st: State, cfg: Config)
    ensures var st' := MakeRoom(st, cfg);
            st'.events == st.events && st'.accepted == st.accepted && st'.stopping == st.stopping
    decreases |st.q|
  {
    if st.framesQueued >= cfg.frameQueue && FirstFrame(st.q, 0) < |st.q| {
      MakeRoomHistory(DropOne(st), cfg);
    }
  }

  lemma AcceptAccounts(st: State, e: Entry)
    ensures EventBytes(Accept(st, e).accepted) == EventBytes(st.accepted) + if e.isFrame then multiset{}
            else multiset{e.bytes}
  {
    OneMoreEvent(st.accepted, e);
  }

  lemma PushEventAccounts(st: State, cfg: Config, rec: seq<bv8>)
    requires EventsAccounted(st)
    ensures EventsAccounted(AfterPushEvent(st, cfg, rec))
  {
    AcceptAccounts(st.(events := Arrives(st.events, rec, false)), Entry(false, rec));
  }

  lemma ResumeEventAccounts(st: State, rec: seq<bv8>)
    requires EventsAccounted(st) && rec in st.events.waiting
    ensures EventsAccounted(AfterResume(st, rec))
  {
    var rest := st.events.waiting - multiset{rec};
    assert st.events.waiting == rest + multiset{rec};
    AcceptAccounts(st.(events := Wakes(st.events, rec, st.stopping)), Entry(false, rec));
  }

  lemma StepAccounts(st: State, cfg: Config, step: Step)
    requires EventsAccounted(st) && Enabled(st, cfg, step)
    ensures EventsAccounted(Apply(st, cfg, step))
  {
    match step
    case PushFrame(rec) =>
      MakeRoomHistory(st, cfg);
      AcceptAccounts(MakeRoom(st, cfg), Entry(true, rec));
    case PushEvent(rec) => PushEventAccounts(st, cfg, rec);
    case ResumeEvent(rec) => ResumeEventAccounts(st, rec);
    case _ =>
  }

  lemma {:induction false} RunAccounts(st: State, cfg: Config, steps: seq<Step>)
    requires EventsAccounted(st) && Runs(st, cfg, steps)
    ensures EventsAccounted(Final(st, cfg, steps))
    decreases |steps|
  {
    if steps != [] {
      StepAccounts(st, cfg, steps[0]);
      RunAccounts(Apply(st, cfg, steps[0]), cfg, steps[1..]);
    }
  }

  /** No pushed event disappears: it was accepted, and then delivered, in hand
      or queued; or its producer waits; or its producer gave up because of a
      stop. */
  lemma PushedEventsAccounted(cfg: Config, steps: seq<Step>)
    requires Runs(Started(), cfg, steps)
    ensures var st := Final(Started(), cfg, steps);
            && EventBytes(Kept(st)) + st.events.waiting + st.events.givenUp == st.events.pushed
            && (st.events.givenUp != multiset{} ==> st.stopping)
  {
    RunAccounts(Started(), cfg, steps);
    EventsNeverDropped(cfg, steps);
    var st := Final(Started(), cfg, steps);
    EventBytesOf(Kept(st));
    EventBytesOf(st.accepted);
  }

  lemma {:induction false} EventBytesOf(q: seq<Entry>)
    ensures EventBytes(q) == EventBytes(EventsOf(q))
    decreases |q|
  {
    if q != [] {
      EventBytesOf(q[..|q| - 1]);
      if !q[|q| - 1].isFrame {
        OneMoreEvent(EventsOf(q[..|q| - 1]), q[|q| - 1]);
      } else {
        assert EventsOf(q) == EventsOf(q[..|q| - 1]);
      }
    }
  }

  /** The frames still queued are the newest accepted ones. */
  lemma QueueHoldsNewestFrames(cfg: Config, steps: seq<Step>)
    requires Runs(Started(), cfg, steps)
    ensures var st := Final(Started(), cfg, steps);
            |FramesOf(st.q)| <= |FramesOf(st.accepted)| &&
            FramesOf(st.q) == Suffix(FramesOf(st.accepted), |FramesOf(st.q)|)
  {
    RunKeeps(Started(), cfg, steps);
  }

  /** Both counters are the true counts and stay within the limits; a frame
      limit of 0 still lets one frame in. */
  lemma CountersExact(cfg: Config, steps: seq<Step>)
    requires Runs(Started(), cfg, steps)
    ensures var st := Final(Started(), cfg, steps);
            && st.framesQueued == |FramesOf(st.q)| <= FrameLimit(cfg)
            && st.eventsQueued == |EventsOf(st.q)| <= cfg.eventLimit
  {
    RunKeeps(Started(), cfg, steps);
  }

  // ---- What one push does ----

  /** The queue holds the newest frames up to the limit, and the one that had to
      go, if any, was counted; no event moved. */
  ghost predicate FramePushed(st: State, st': State, limit: nat, e: Entry) {
    var n := |FramesOf(st.q)|;
    && n <= limit
    && FramesOf(st'.q) == Suffix(FramesOf(st.q) + [e], limit)
    && EventsOf(st'.q) == EventsOf(st.q)
    && st'.framesDropped == st.framesDropped + (if n == limit then 1 else 0)
    && (n < limit ==> st'.q == st.q + [e])
    && st'.accepted == st.accepted + [e]
    && st'.hand == st.hand && st'.delivered == st.delivered && st'.backpressure == st.backpressure
  }

  /** The event is queued at once while there is room; else its producer waits
      and is counted, and the queue is as it was. */
  ghost predicate EventPushed(st: State, st': State, limit: nat, e: Entry, parked: bool) {
    && parked == (|EventsOf(st.q)| == limit)
    && st'.q == st.q + (if parked then [] else [e])
    && st'.accepted == st.accepted + (if parked then [] else [e])
    && st'.events.waiting == st.events.waiting + (if parked then multiset{e.bytes} else multiset{})
    && st'.backpressure == st.backpressure + (if parked then 1 else 0)
    && st'.hand == st.hand && st'.delivered == st.delivered && st'.framesDropped == st.framesDropped
  }

  ghost predicate PushFrameMeaning(st: State, st': State, cfg: Config, rec: seq<bv8>) {
    Inv(st, cfg) ==> FramePushed(st, st', FrameLimit(cfg), Entry(true, rec))
  }

  lemma PushFrameMeans(st: State, cfg: Config, rec: seq<bv8>)
    ensures PushFrameMeaning(st, AfterPushFrame(st, cfg, rec), cfg, rec)
  {
    if Inv(st, cfg) {
      PushFrameExact(st, cfg, rec);
    }
  }

  lemma SomeFrame(q: seq<Entry>, i: nat)
    requires i < |q| && q[i].isFrame
    ensures FramesOf(q) != []
  {
    assert q == q[..i] + [q[i]] + q[i + 1..];
    Around(q[..i], q[i], q[i + 1..]);
  }

  lemma FirstFrameIff(q: seq<Entry>)
    ensures FirstFrame(q, 0) < |q| <==> FramesOf(q) != []
  {
    if FirstFrame(q, 0) < |q| {
      SomeFrame(q, FirstFrame(q, 0));
    } else {
      NoFrames(q);
    }
  }

  /** Making room drops one frame from a full queue and none otherwise. */
  lemma RoomIsOneDrop(st: State, cfg: Config)
    requires st.framesQueued == |FramesOf(st.q)| <= FrameLimit(cfg)
    requires FirstFrame(st.q, 0) < |st.q| ==> |FramesOf(DropOne(st).q)| == |FramesOf(st.q)| - 1
    ensures st.framesQueued < FrameLimit(cfg) ==> MakeRoom(st, cfg) == st
    ensures st.framesQueued == FrameLimit(cfg) ==>
              FirstFrame(st.q, 0) < |st.q| && MakeRoom(st, cfg) == DropOne(st)
  {
    FirstFrameIff(st.q);
    if st.framesQueued == FrameLimit(cfg) {
      FirstFrameIff(DropOne(st).q);
    }
  }

  lemma DropOneFrames(st: State, cfg: Config)
    requires Inv(st, cfg) && FirstFrame(st.q, 0) < |st.q|
    ensures FramesOf(st.q) == [st.q[FirstFrame(st.q, 0)]] + FramesOf(DropOne(st).q)
    ensures EventsOf(st.q) == EventsOf(DropOne(st).q)
  {
    var front := st.delivered + (if st.hand.Some? then [st.hand.value] else []);
    DropAt(st.accepted, front, st.q, st.framesDropped, FirstFrame(st.q, 0));
  }

  lemma PushToFull(st: State, cfg: Config, e: Entry)
    requires Inv(st, cfg) && st.framesQueued == FrameLimit(cfg) && e.isFrame && FirstFrame(st.q, 0) < |st.q|
    ensures FramePushed(st, Accept(DropOne(st), e), FrameLimit(cfg), e)
  {
    var room := DropOne(st);
    DropOneFrames(st, cfg);
    OneMoreEntry(room.q, e);
    var f := FramesOf(st.q);
    assert (f + [e])[1..] == f[1..] + [e] == FramesOf(room.q + [e]);
  }

  lemma PushToFree(st: State, cfg: Config, e: Entry)
    requires Inv(st, cfg) && st.framesQueued < FrameLimit(cfg) && e.isFrame
    ensures FramePushed(st, Accept(st, e), FrameLimit(cfg), e)
  {
    OneMoreEntry(st.q, e);
  }

  lemma PushFrameExact(st: State, cfg: Config, rec: seq<bv8>)
    requires Inv(st, cfg)
    ensures FramePushed(st, AfterPushFrame(st, cfg, rec), FrameLimit(cfg), Entry(true, rec))
  {
    if FirstFrame(st.q, 0) < |st.q| {
      DropOneFrames(st, cfg);
    }
    RoomIsOneDrop(st, cfg);
    if st.framesQueued < FrameLimit(cfg) {
      PushToFree(st, cfg, Entry(true, rec));
    } else {
      PushToFull(st, cfg, Entry(true, rec));
    }
  }

  lemma PushEventExact(st: State, cfg: Config, rec: seq<bv8>)
    requires Inv(st, cfg)
    ensures EventPushed(st, AfterPushEvent(st, cfg, rec), cfg.eventLimit, Entry(false, rec),
                        st.eventsQueued >= cfg.eventLimit)
  {
  }

  /** In any run: a pushed frame leaves the newest frames up to the limit
      queued, drops the oldest exactly when the queue was at its limit, and
      moves no event. */
  lemma FramePushExact(cfg: Config, steps: seq<Step>, rec: seq<bv8>)
    requires Runs(Started(), cfg, steps)
    ensures var st := Final(Started(), cfg, steps);
            FramePushed(st, Apply(st, cfg, PushFrame(rec)), FrameLimit(cfg), Entry(true, rec))
  {
    RunKeeps(Started(), cfg, steps);
    PushFrameExact(Final(Started(), cfg, steps), cfg, rec);
  }

  /** In any run: a pushed event is queued unless the queue holds as many events
      as the limit allows; then its producer waits and backpressure is counted.
      A woken producer queues its event, or on a stop gives it up. */
  lemma EventPushExact(cfg: Config, steps: seq<Step>, rec: seq<bv8>)
    requires Runs(Started(), cfg, steps)
    ensures var st := Final(Started(), cfg, steps);
            EventPushed(st, Apply(st, cfg, PushEvent(rec)), cfg.eventLimit, Entry(false, rec),
                        |EventsOf(st.q)| == cfg.eventLimit)
    ensures var st := Final(Started(), cfg, steps);
            Enabled(st, cfg, ResumeEvent(rec)) <==>
              rec in st.events.waiting && (st.stopping || |EventsOf(st.q)| < cfg.eventLimit)
    ensures var st := Final(Started(), cfg, steps);
            Enabled(st, cfg, ResumeEvent(rec)) ==>
              Apply(st, cfg, ResumeEvent(rec)).q == st.q + if st.stopping then [] else [Entry(false, rec)]
  {
    RunKeeps(Started(), cfg, steps);
    PushEventExact(Final(Started(), cfg, steps), cfg, rec);
  }

  /** After stop() everything that was accepted and not dropped was delivered. */
  lemma DrainDelivers(cfg: Config, steps: seq<Step>)
    requires Runs(Started(), cfg, steps) && Final(Started(), cfg, steps).hand.None?
    ensures var st := AfterDrain(Final(Started(), cfg, steps));
            st.q == [] && ErasesFrames(st.accepted, st.delivered, st.framesDropped) &&
            EventsOf(st.delivered) == EventsOf(st.accepted)
  {
    RunKeeps(Started(), cfg, steps);
    var st := Final(Started(), cfg, steps);
    assert Kept(st) == AfterDrain(st).delivered;
    ErasedKeepsEvents(st.accepted, Kept(st), st.framesDropped);
  }
}
