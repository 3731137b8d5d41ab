/** The bounded publish queue (vision_base/publish.py): submits of any thread
    interleaved with the worker, whose sends happen outside the lock. */
module Publishing {
  import opened Wrappers

  /** Messages are compared by value, as Python compares the queued tuples. */
  datatype Message = Message(topic: string, payload: string, qos: nat, retain: bool)

  /** What the worker has in hand: nothing, an item to encode and send, or an
      item whose attempt is over and which it will now pop if it is the head. */
  datatype Hand = Idle | Trying(item: Message) | Finishing(done: Message)

  datatype State = State(q: seq<Message>, hand: Hand, dropped: nat, sent: nat, failed: nat)

  datatype Op = Submit(m: Message) | Peek | EncodeFails | SendOk | SendFails | Pop

  predicate Enabled(st: State, op: Op) {
    match op
    case Submit(_) => true
    case Peek => st.hand.Idle? && st.q != []
    case EncodeFails => st.hand.Trying?
    case SendOk => st.hand.Trying?
    case SendFails => st.hand.Trying?
    case Pop => st.hand.Finishing?
  }

  /** With a size of 0 the eviction finds nothing to evict, and raises. */
  function Submitted(size: nat, st: State, m: Message): State {
    if size == 0 && st.q == [] then st
    else if |st.q| >= size then st.(q := st.q[1..] + [m], dropped := st.dropped + 1)
    else st.(q := st.q + [m])
  }

  function Popped(st: State): State
    requires st.hand.Finishing?
  {
    st.(q := if st.q != [] && st.q[0] == st.hand.done then st.q[1..] else st.q, hand := Idle)
  }

  function Next(size: nat, st: State, op: Op): State
    requires Enabled(st, op)
  {
    match op
    case Submit(m) => Submitted(size, st, m)
    case Peek => st.(hand := Trying(st.q[0]))
    case EncodeFails => st.(hand := Finishing(st.hand.item), failed := st.failed + 1)
    case SendOk => st.(hand := Finishing(st.hand.item), sent := st.sent + 1)
    case SendFails => st.(hand := Idle, failed := st.failed + 1)
    case Pop => Popped(st)
  }

  const EMPTY := State([], Idle, 0, 0, 0)

  /** One method per critical section, plus the attempt between two of them. */
  class PublishWorker {
    const size: nat
    var q: seq<Message>
    var hand: Hand
    var dropped: nat
    var sent: nat
    var failed: nat

    ghost function View(): State
      reads this
    {
      State(q, hand, dropped, sent, failed)
    }

    constructor (size: nat)
      ensures View() == EMPTY && this.size == size
    {
      this.size := size;
      q, hand, dropped, sent, failed := [], Idle, 0, 0, 0;
    }

    method Submit(m: Message) returns (raised: bool)
      modifies this
      ensures View() == Submitted(size, old(View()), m)
      ensures raised <==> size == 0 && old(q) == []
    {
      raised := |q| >= size && q == [];
      if raised {
        return;
      }
      if |q| >= size {
        q := q[1..];
        dropped := dropped + 1;
      }
      q := q + [m];
    }

    method PeekHead()
      requires Enabled(View(), Peek)
      modifies this
      ensures View() == Next(size, old(View()), Peek)
    {
      hand := Trying(q[0]);
    }

    /** data is None for an unencodable payload; ok is the result of the send. */
    method Attempt(data: Option<string>, ok: bool)
      requires hand.Trying?
      modifies this
      ensures View() == Next(size, old(View()), if data.None? then EncodeFails else if ok then SendOk else SendFails)
    {
      var item := hand.item;
      if data.None? {
        failed := failed + 1;
        hand := Finishing(item);
      } else if ok {
        sent := sent + 1;
        hand := Finishing(item);
      } else {
        failed := failed + 1;
        hand := Idle;
      }
    }

    method PopIfHead()
      requires hand.Finishing?
      modifies this
      ensures View() == Popped(old(View()))
    {
      if q != [] && q[0] == hand.done {
        q := q[1..];
      }
      hand := Idle;
    }
  }

  // ---- Runs ----

  /** The worker with its history, in positions among all submitted messages:
      `at` is the position of the message in hand; sentAt, badAt, evictedAt and
      stolenAt hold those sent, found unencodable, dropped by a submit, and
      popped in place of the message in hand; `missed` counts the finished
      items that were not the head any more. */
  datatype World = World(st: State, submitted: seq<Message>, at: nat, sentAt: seq<nat>, badAt: seq<nat>,
                         evictedAt: seq<nat>, stolenAt: seq<nat>, missed: nat)

  const START := World(EMPTY, [], 0, [], [], [], [], 0)

  /** The position of the head. */
  function Base(w: World): int {
    |w.submitted| - |w.st.q|
  }

  predicate HeadIsDone(w: World) {
    w.st.hand.Finishing? && w.st.q != [] && w.st.q[0] == w.st.hand.done
  }

  function Step(size: nat, w: World, op: Op): World
    requires Enabled(w.st, op) && |w.st.q| <= |w.submitted|
  {
    var w' := w.(st := Next(size, w.st, op));
    match op
    case Submit(m) =>
      if size == 0 && w.st.q == [] then w
      else
        w'.(submitted := w.submitted + [m], evictedAt := w.evictedAt + if |w.st.q| >= size then [Base(w)] else [])
    case Peek => w'.(at := Base(w))
    case EncodeFails => w'.(badAt := w.badAt + [w.at])
    case SendOk => w'.(sentAt := w.sentAt + [w.at])
    case SendFails => w'
    case Pop =>
      if !HeadIsDone(w) then w'.(missed := w.missed + 1)
      else if Base(w) == w.at then w'
      else w'.(stolenAt := w.stolenAt + [Base(w)])
  }

  ghost predicate Increasing(s: seq<nat>) {
    forall i, j | 0 <= i < j < |s| :: s[i] < s[j]
  }

  function InHand(h: Hand): Message
    requires !h.Idle?
  {
    if h.Trying? then h.item else h.done
  }

  /** The queue is a suffix of everything submitted. */
  ghost predicate Suffix(w: World) {
    Base(w) >= 0 && w.st.q == w.submitted[Base(w)..]
  }

  /** Positions done with: before the head, or the one in hand. */
  ghost predicate Behind(w: World, ps: seq<nat>) {
    forall i | 0 <= i < |ps| :: ps[i] < |w.submitted| && (ps[i] < Base(w) || (w.st.hand.Finishing? && ps[i] <= w.at))
  }

  /** The message in hand is at or before the head; all sent ones are before
      the one being tried and before the head once their pop is done. */
  ghost predicate Positions(w: World) {
    && Increasing(w.sentAt) && |w.sentAt| == w.st.sent && Behind(w, w.sentAt) && Behind(w, w.badAt)
    && (!w.st.hand.Idle? ==> w.at < |w.submitted| && w.at <= Base(w) && w.submitted[w.at] == InHand(w.st.hand))
    && (w.st.hand.Trying? ==> forall i | 0 <= i < |w.sentAt| :: w.sentAt[i] < w.at)
    && (w.st.hand.Finishing? ==> w.at in w.sentAt || w.at in w.badAt)
  }

  /** Every submitted message is queued, sent, unencodable or dropped; the ones
      counted twice are exactly the misses. */
  ghost predicate Accounts(w: World) {
    && |w.submitted| + w.missed + (if w.st.hand.Finishing? then 1 else 0)
       == |w.st.q| + w.st.sent + |w.badAt| + w.st.dropped
    && |w.evictedAt| == w.st.dropped && |w.badAt| <= w.st.failed
  }

  /** What became of the message at a position that left the queue. */
  ghost predicate Fate(w: World, p: nat) {
    p in w.sentAt || p in w.badAt || p in w.evictedAt || p in w.stolenAt
  }

  /** A message popped in place of an equal one before it had no fate of its
      own; the queue was full then, so enough messages followed it. */
  ghost predicate Unsent(size: nat, w: World, p: nat) {
    && p !in w.sentAt && p !in w.badAt && p !in w.evictedAt && p < p + size <= |w.submitted|
    && exists i: nat :: i < p && w.submitted[i] == w.submitted[p] && (i in w.sentAt || i in w.badAt)
  }

  ghost predicate Fates(size: nat, w: World) {
    && (forall p: nat | p < Base(w) :: Fate(w, p))
    && (forall p | p in w.evictedAt :: p < Base(w))
    && (forall p | p in w.stolenAt :: p < Base(w) && (w.st.hand.Idle? || p < w.at))
    && (!w.st.hand.Idle? && w.at < Base(w) ==> |w.st.q| == size)
  }

  ghost predicate Thefts(size: nat, w: World) {
    forall p | p in w.stolenAt :: Unsent(size, w, p)
  }

  ghost predicate Inv(size: nat, w: World) {
    Suffix(w) && |w.st.q| <= size && Positions(w) && Accounts(w) && Fates(size, w) && Thefts(size, w)
  }

  /** No stolen position is touched again. */
  lemma TheftsStay(size: nat, w: World, w': World)
    requires Thefts(size, w) && w.submitted <= w'.submitted && w'.stolenAt == w.stolenAt
    requires forall p | p in w.stolenAt :: p !in w'.sentAt && p !in w'.badAt && p !in w'.evictedAt
    requires (forall p | p in w.sentAt :: p in w'.sentAt) && forall p | p in w.badAt :: p in w'.badAt
    ensures Thefts(size, w')
  {
    forall p | p in w'.stolenAt
      ensures Unsent(size, w', p)
    {
      assert Unsent(size, w, p);
      var i: nat :| i < p && w.submitted[i] == w.submitted[p] && (i in w.sentAt || i in w.badAt);
      assert w'.submitted[i] == w'.submitted[p];
    }
  }

  lemma SubmitKeeps(size: nat, w: World, m: Message)
    requires Inv(size, w)
    ensures Inv(size, Step(size, w, Submit(m)))
  {
    var w' := Step(size, w, Submit(m));
    TheftsStay(size, w, w');
    forall p: nat | p < Base(w')
      ensures Fate(w', p)
    {
      assert p < Base(w) ==> Fate(w, p);
    }
  }

  lemma AttemptKeeps(size: nat, w: World, op: Op)
    requires Inv(size, w) && Enabled(w.st, op) && !op.Submit? && !op.Pop?
    ensures Inv(size, Step(size, w, op))
  {
    var w' := Step(size, w, op);
    TheftsStay(size, w, w');
    forall p: nat | p < Base(w')
      ensures Fate(w', p)
    {
      assert Fate(w, p);
    }
  }

  /** The head that was popped is the message in hand, or an equal later one. */
  lemma TheftIsUnsent(size: nat, w: World)
    requires Inv(size, w) && HeadIsDone(w) && w.at < Base(w)
    ensures Unsent(size, w, Base(w))
  {
    assert w.submitted[w.at] == w.submitted[Base(w)];
  }

  lemma PopThefts(size: nat, w: World)
    requires Inv(size, w) && Enabled(w.st, Pop)
    ensures Thefts(size, Step(size, w, Pop))
  {
    var w' := Step(size, w, Pop);
    if HeadIsDone(w) && Base(w) != w.at {
      TheftIsUnsent(size, w);
    }
    forall p | p in w'.stolenAt
      ensures Unsent(size, w', p)
    {
      assert p == Base(w) || p in w.stolenAt;
      assert Unsent(size, w, p);
      var i: nat :| i < p && w.submitted[i] == w.submitted[p] && (i in w.sentAt || i in w.badAt);
      assert w'.submitted[i] == w'.submitted[p];
    }
  }

  lemma PopKeeps(size: nat, w: World)
    requires Inv(size, w) && Enabled(w.st, Pop)
    ensures Inv(size, Step(size, w, Pop))
  {
    var w' := Step(size, w, Pop);
    PopThefts(size, w);
    forall p: nat | p < Base(w')
      ensures Fate(w', p)
    {
      assert p < Base(w) ==> Fate(w, p);
    }
  }

  ghost predicate Runs(size: nat, ops: seq<Op>, ws: seq<World>) {
    && |ws| == |ops| + 1 && ws[0] == START
    && forall k | 0 <= k < |ops| :: Enabled(ws[k].st, ops[k]) && |ws[k].st.q| <= |ws[k].submitted|
                                    && ws[k + 1] == Step(size, ws[k], ops[k])
  }

  lemma {:induction false} RunInv(size: nat, ops: seq<Op>, ws: seq<World>, k: nat)
    requires Runs(size, ops, ws) && k <= |ops|
    ensures Inv(size, ws[k])
  {
    if k > 0 {
      RunInv(size, ops, ws, k - 1);
      if ops[k - 1].Submit? {
        SubmitKeeps(size, ws[k - 1], ops[k - 1].m);
      } else if ops[k - 1].Pop? {
        PopKeeps(size, ws[k - 1]);
      } else {
        AttemptKeeps(size, ws[k - 1], ops[k - 1]);
      }
    }
  }

  /** The message each send step sent. */
  function SentItems(ops: seq<Op>, ws: seq<World>): seq<Message>
    requires |ws| == |ops| + 1
    decreases |ops|
  {
    if ops == [] then []
    else
      var k := |ops| - 1;
      SentItems(ops[..k], ws[..k + 1]) + if ops[k].SendOk? && ws[k].st.hand.Trying? then [ws[k].st.hand.item] else []
  }

  ghost predicate SentBy(w: World, items: seq<Message>) {
    && Increasing(w.sentAt) && |items| == |w.sentAt| == w.st.sent
    && forall i | 0 <= i < |items| :: w.sentAt[i] < |w.submitted| && items[i] == w.submitted[w.sentAt[i]]
  }

  lemma SentStep(size: nat, w: World, op: Op, items: seq<Message>)
    requires Inv(size, w) && Enabled(w.st, op) && SentBy(w, items)
    ensures SentBy(Step(size, w, op), items + if op.SendOk? then [w.st.hand.item] else [])
  {
    assert items + [] == items;
  }

  /** Whatever the interleaving, the sent messages are submitted ones in strictly
      increasing submission order: never reordered, no submission sent twice. */
  lemma {:induction false} SentInOrder(size: nat, ops: seq<Op>, ws: seq<World>)
    requires Runs(size, ops, ws)
    ensures SentBy(ws[|ops|], SentItems(ops, ws))
    decreases |ops|
  {
    if ops != [] {
      var k := |ops| - 1;
      assert Runs(size, ops[..k], ws[..k + 1]);
      SentInOrder(size, ops[..k], ws[..k + 1]);
      RunInv(size, ops, ws, k);
      SentStep(size, ws[k], ops[k], SentItems(ops[..k], ws[..k + 1]));
    }
  }

  /** The queue never exceeds its size, and no submitted message goes
      unaccounted; the surplus is exactly the messages evicted while they were
      being tried. */
  lemma NothingUnaccounted(size: nat, ops: seq<Op>, ws: seq<World>, k: nat)
    requires Runs(size, ops, ws) && k <= |ops|
    ensures var w := ws[k];
            && |w.st.q| <= size
            && |w.submitted| <= |w.st.q| + w.st.sent + |w.badAt| + w.st.dropped
            && (w.missed == 0 && !w.st.hand.Finishing? <==>
                |w.submitted| == |w.st.q| + w.st.sent + |w.badAt| + w.st.dropped)
  {
    RunInv(size, ops, ws, k);
  }

  // ---- What one submit does ----

  /** The newest messages up to the size stay queued, and a drop is counted
      exactly when the queue was full; a size of 0 takes nothing in. */
  lemma SubmitExact(size: nat, ops: seq<Op>, ws: seq<World>, k: nat)
    requires Runs(size, ops, ws) && k < |ops| && ops[k].Submit?
    ensures var st, st' := ws[k].st, ws[k + 1].st;
            && (size > 0 ==>
                  && st'.q == Wrappers.Suffix(st.q + [ops[k].m], size)
                  && st'.dropped == st.dropped + if |st.q| == size then 1 else 0)
            && (size == 0 ==> st'.q == st.q == [] && st'.dropped == st.dropped)
            && st'.hand == st.hand && st'.sent == st.sent && st'.failed == st.failed
  {
    RunInv(size, ops, ws, k);
    var q, m := ws[k].st.q, ops[k].m;
    assert q != [] ==> (q + [m])[1..] == q[1..] + [m];
  }

  function SubmitsOf(ops: seq<Op>): seq<Message> {
    if ops == [] then []
    else SubmitsOf(ops[..|ops| - 1]) + if ops[|ops| - 1].Submit? then [ops[|ops| - 1].m] else []
  }

  /** The submissions the history speaks of are those of the run, in order. */
  lemma {:induction false} SubmittedAre(size: nat, ops: seq<Op>, ws: seq<World>, k: nat)
    requires Runs(size, ops, ws) && k <= |ops|
    ensures ws[k].submitted == if size == 0 then [] else SubmitsOf(ops[..k])
  {
    if k > 0 {
      SubmittedAre(size, ops, ws, k - 1);
      RunInv(size, ops, ws, k - 1);
      assert ops[..k][..k - 1] == ops[..k - 1];
    }
  }

  // ---- Popping by value ----

  /** A pop takes the head, which is another submission than the one in hand,
      exactly when that one was evicted meanwhile and the head equals it. */
  lemma PopTakesAnother(size: nat, ops: seq<Op>, ws: seq<World>, k: nat)
    requires Runs(size, ops, ws) && k < |ops| && ops[k].Pop?
    ensures var w, w' := ws[k], ws[k + 1];
            && (Base(w') == Base(w) + 1 && Base(w) != w.at <==>
                w.at < Base(w) && w.st.q != [] && w.st.q[0] == w.st.hand.done)
            && w'.stolenAt == w.stolenAt + if Base(w') == Base(w) + 1 && Base(w) != w.at then [Base(w)] else []
  {
    RunInv(size, ops, ws, k);
  }

  /** Every submission is queued, sent, unencodable, dropped, or was popped in
      place of an equal earlier one; then it was none of the others. */
  lemma EachHasAFate(size: nat, ops: seq<Op>, ws: seq<World>, k: nat, p: nat)
    requires Runs(size, ops, ws) && k <= |ops| && p < |ws[k].submitted|
    ensures var w := ws[k];
            && (p >= Base(w) || Fate(w, p))
            && (p in w.stolenAt ==> p < Base(w) && Unsent(size, w, p))
  {
    RunInv(size, ops, ws, k);
  }

  ghost predicate PairwiseDistinct(ms: seq<Message>) {
    forall i, j | 0 <= i < j < |ms| :: ms[i] != ms[j]
  }

  /** With pairwise distinct messages, nothing leaves the queue but by its own
      send, its own encoding failure or its own eviction. */
  lemma DistinctAllAccounted(size: nat, ops: seq<Op>, ws: seq<World>, k: nat, p: nat)
    requires Runs(size, ops, ws) && k <= |ops| && PairwiseDistinct(ws[k].submitted) && p < |ws[k].submitted|
    ensures var w := ws[k];
            p >= Base(w) || p in w.sentAt || p in w.badAt || p in w.evictedAt
  {
    EachHasAFate(size, ops, ws, k, p);
  }

  ghost predicate Reachable(size: nat, w: World) {
    exists ops, ws :: Runs(size, ops, ws) && ws[|ops|] == w
  }

  lemma ReachableInv(size: nat, w: World)
    requires Reachable(size, w)
    ensures Inv(size, w)
  {
    var ops, ws :| Runs(size, ops, ws) && ws[|ops|] == w;
    RunInv(size, ops, ws, |ops|);
  }

  lemma ReachableStep(size: nat, w: World, op: Op)
    requires Reachable(size, w) && Enabled(w.st, op) && |w.st.q| <= |w.submitted|
    ensures Reachable(size, Step(size, w, op)) && Inv(size, Step(size, w, op))
  {
    ReachableInv(size, w);
    var ops, ws :| Runs(size, ops, ws) && ws[|ops|] == w;
    var ops', ws' := ops + [op], ws + [Step(size, w, op)];
    assert Runs(size, ops', ws') && ws'[|ops'|] == Step(size, w, op);
    ReachableInv(size, Step(size, w, op));
  }

  /** Submit one and have it sent, with the queue empty before and after. */
  lemma SendOne(size: nat, w: World, m: Message) returns (v: World)
    requires size >= 1 && Reachable(size, w) && w.st.q == [] && w.st.hand.Idle?
    ensures Reachable(size, v) && v.st.q == [m] && v.st.hand == Finishing(m)
    ensures v.submitted == w.submitted + [m] && v.at == |w.submitted|
  {
    ReachableInv(size, w);
    ReachableStep(size, w, Submit(m));
    var w1 := Step(size, w, Submit(m));
    ReachableStep(size, w1, Peek);
    var w2 := Step(size, w1, Peek);
    ReachableStep(size, w2, SendOk);
    v := Step(size, w2, SendOk);
  }

  /** The first n messages sent, one after the other. */
  lemma {:induction false} SendAll(size: nat, ms: seq<Message>, n: nat) returns (v: World)
    requires size >= 1 && n <= |ms|
    ensures Reachable(size, v) && v.st.q == [] && v.st.hand.Idle? && v.submitted == ms[..n]
  {
    if n == 0 {
      v := START;
      assert Runs(size, [], [START]);
    } else {
      var w := SendAll(size, ms, n - 1);
      var u := SendOne(size, w, ms[n - 1]);
      ReachableStep(size, u, Pop);
      v := Step(size, u, Pop);
      assert ms[..n] == ms[..n - 1] + [ms[n - 1]];
    }
  }

  /** Submits while the worker is busy fill the queue, then move its head on. */
  lemma {:induction false} SubmitUpTo(size: nat, w: World, ms: seq<Message>, n: nat) returns (v: World)
    requires size >= 1 && Reachable(size, w) && |w.submitted| <= n <= |ms| && w.submitted == ms[..|w.submitted|]
    ensures Reachable(size, v) && v.submitted == ms[..n] && v.st.hand == w.st.hand && v.at == w.at &&
            v.stolenAt == w.stolenAt
    ensures |v.st.q| == if |w.st.q| + n - |w.submitted| < size then |w.st.q| + n - |w.submitted| else size
    decreases n
  {
    ReachableInv(size, w);
    if n == |w.submitted| {
      v := w;
    } else {
      var u := SubmitUpTo(size, w, ms, n - 1);
      ReachableStep(size, u, Submit(ms[n - 1]));
      v := Step(size, u, Submit(ms[n - 1]));
      assert ms[..n] == ms[..n - 1] + [ms[n - 1]];
    }
  }

  /** Of two equal submissions, the later one can be popped unsent. */
  lemma CanBePoppedUnsent(size: nat, ms: seq<Message>, i: nat, j: nat) returns (v: World)
    requires size >= 1 && i < j && j + size <= |ms| && ms[i] == ms[j]
    ensures Reachable(size, v) && v.submitted == ms && j in v.stolenAt
  {
    var w0 := SendAll(size, ms, i);
    var w1 := SendOne(size, w0, ms[i]);
    assert ms[..i + 1] == ms[..i] + [ms[i]];
    var w2 := SubmitUpTo(size, w1, ms, j + size);
    ReachableInv(size, w2);
    assert Base(w2) == j && w2.st.q[0] == ms[j];
    ReachableStep(size, w2, Pop);
    var w3 := Step(size, w2, Pop);
    assert w3.stolenAt == w2.stolenAt + [j];
    v := SubmitUpTo(size, w3, ms, |ms|);
    assert ms[..|ms|] == ms;
  }

  /** Comparing by value has a price. A submission can be popped without ever
      being sent, found unencodable or dropped, exactly when an equal one came
      before it and the queue can fill up behind it. */
  lemma PoppedUnsentIff(size: nat, ms: seq<Message>, j: nat)
    ensures (exists w :: Reachable(size, w) && w.submitted == ms && j in w.stolenAt) <==>
            size >= 1 && j + size <= |ms| && exists i: nat :: i < j && ms[i] == ms[j]
  {
    if w :| Reachable(size, w) && w.submitted == ms && j in w.stolenAt {
      ReachableInv(size, w);
      assert Unsent(size, w, j);
    }
    if size >= 1 && j + size <= |ms| && exists i: nat :: i < j && ms[i] == ms[j] {
      var i: nat :| i < j && ms[i] == ms[j];
      var v := CanBePoppedUnsent(size, ms, i, j);
    }
  }
}
