/** Runs of the line counter on one line. A chain is a track together with the
    tracks that inherited from it; chains, and the direction log they are
    tagged in, exist only in this file. */
module LineCrossRuns {
  import opened Wrappers
  import opened Bytes
  import opened LineCrossing
  import T = Trackers

  // ---- Rules of one crossing ----

  /** When a crossing is counted. The rule on directions is weaker than the
      documented one: only the last counted direction is excluded, not every
      direction counted before. */
  ghost predicate Counts(cfg: Config, s: PerTrack, cur: int, tproj: real, px: real, py: real) {
    && cur != 0 && s.side != 0 && cur != s.side                        // from one explicit side to the other
    && -cfg.margin <= tproj <= 1.0 + cfg.margin                        // within the segment
    && Signed(s.age) >= cfg.minFrames                                  // old enough
    && s.counted != (if s.side > 0 then 1 else -1)                     // not the last counted direction again
    && (s.anchor.Some? ==> cfg.hypot(px - s.anchor.value.0, py - s.anchor.value.1) >= cfg.minTravel)
  }

  /** A crossing is counted exactly under these rules, with the side it came
      from as its direction; a first explicit side or a frame inside the band
      never counts, and outside the band the side is always the anchor's. */
  lemma CrossRules(cfg: Config, s: PerTrack, cur: int, tproj: real, px: real, py: real)
    ensures var (s', dir) := Cross(cfg, s, cur, tproj, px, py);
            && (dir.Some? <==> Counts(cfg, s, cur, tproj, px, py))
            && (dir.Some? ==> dir.value == (if s.side > 0 then 1 else -1) && dir.value != s.counted)
            && (dir.Some? ==> s'.counted == dir.value && s'.anchor == Some((px, py)))
            && (dir.None? ==> s'.counted == s.counted && s'.anchor == s.anchor)
            && s'.side == (if cur != 0 then cur else s.side) && s'.age == s.age
  {
  }

  // ---- Histories ----

  type Log = seq<(nat, int)>

  /** The directions counted for chain c. */
  function History(log: Log, c: nat): seq<int> {
    if log == [] then []
    else History(log[..|log| - 1], c) + if log[|log| - 1].0 == c then [log[|log| - 1].1] else []
  }

  function Last(h: seq<int>): int {
    if h == [] then 0 else h[|h| - 1]
  }

  ghost predicate Alternates(h: seq<int>) {
    && (forall i | 0 <= i < |h| :: h[i] in {1, -1})
    && (forall i | 0 < i < |h| :: h[i] != h[i - 1])
  }

  function Balance(h: seq<int>): int {
    if h == [] then 0 else Balance(h[..|h| - 1]) + h[|h| - 1]
  }

  lemma {:induction false} AlternatesBalance(h: seq<int>)
    requires Alternates(h)
    ensures Balance(h) in {0, Last(h)} && Balance(h) in {-1, 0, 1}
  {
    if |h| > 1 {
      AlternatesBalance(h[..|h| - 1]);
      assert h[|h| - 1] != h[|h| - 2];
      var front := h[..|h| - 1];
      FirstBalance(front);
      FirstBalance(h);
    }
  }

  /** An alternating history sums to its first direction or to nothing. */
  lemma {:induction false} FirstBalance(h: seq<int>)
    requires h != [] && Alternates(h)
    ensures Balance(h) == if |h| % 2 == 1 then h[0] else 0
    ensures h[|h| - 1] == if |h| % 2 == 1 then h[0] else -h[0]
  {
    if |h| > 1 {
      FirstBalance(h[..|h| - 1]);
      assert h[|h| - 1] != h[|h| - 2];
    }
  }

  lemma HistoryGrows(log: Log, c: nat, dir: int, d: nat)
    ensures History(log + [(c, dir)], d) == History(log, d) + if c == d then [dir] else []
  {
    assert (log + [(c, dir)])[..|log|] == log;
  }

  // ---- Chains ----

  datatype World = World(ls: LineState, chain: map<U32, nat>, lostChain: seq<nat>, next: nat, log: Log)

  const START := World(LineState(map[], []), map[], [], 0, [])

  ghost predicate Shape(w: World) {
    w.chain.Keys == w.ls.st.Keys && |w.lostChain| == |w.ls.lost|
  }

  function ChainOf(w: World, id: U32, heir: Option<nat>): nat
    requires heir.Some? ==> heir.value < |w.lostChain|
  {
    if heir.Some? then w.lostChain[heir.value] else if id in w.chain then w.chain[id] else w.next
  }

  /** What a frame does to the chains. */
  function Extend(w: World, ls: LineState, id: U32, heir: Option<nat>, dir: Option<int>): World
    requires heir.Some? ==> heir.value < |w.lostChain|
  {
    var c := ChainOf(w, id, heir);
    World(ls, w.chain[id := c], if heir.Some? then T.Erased(w.lostChain, heir.value) else w.lostChain,
          if c == w.next then w.next + 1 else w.next, w.log + if dir.Some? then [(c, dir.value)] else [])
  }

  function HeirOf(cfg: Config, w: World, op: Op): Option<nat>
    requires op.Frame?
  {
    Heir(cfg, Entry(w.ls, op.id), w.ls.lost, op.x, op.y, op.now)
  }

  /** A removed track's chain waits with its lost record, if it has one. */
  function Retire(w: World, ls: LineState, id: U32): World
    requires id in w.ls.st ==> id in w.chain
    requires |ls.lost| <= |w.lostChain| + 1
  {
    if id !in w.ls.st then w
    else
      var waiting := if w.ls.st[id].counted != 0 then w.lostChain + [w.chain[id]] else w.lostChain;
      World(ls, w.chain - {id}, waiting[if |waiting| < |ls.lost| then 0 else |waiting| - |ls.lost|..], w.next, w.log)
  }

  lemma {:induction false} PrunedSuffix(cfg: Config, lost: seq<Lost>, t: real)
    ensures |Pruned(cfg, lost, t)| <= |lost| && Pruned(cfg, lost, t) == lost[|lost| - |Pruned(cfg, lost, t)|..]
    decreases |lost|
  {
    if lost != [] {
      PrunedSuffix(cfg, lost[1..], t);
    }
  }

  /** Pruning a removed track's records changes no later inheritance: what it
      drops could not be inherited any more. */
  lemma {:induction false} PruneChangesNoHeir(cfg: Config, lost: seq<Lost>, t: real, px: real, py: real, now: real)
    requires now >= t
    ensures var kept := Pruned(cfg, lost, t);
            |kept| <= |lost| && Match(cfg, lost, px, py, now) == |lost| - |kept| + Match(cfg, kept, px, py, now)
    decreases |lost|
  {
    if lost != [] && t - lost[0].t > cfg.rebornWindow {
      PruneChangesNoHeir(cfg, lost[1..], t, px, py, now);
    }
  }

  function Next(cfg: Config, ln: Line, w: World, op: Op): World
    requires Usable(cfg, ln) && Shape(w)
  {
    var (ls, dir) := After(cfg, ln, w.ls, op);
    match op
    case Frame(id, _, _, _) => Extend(w, ls, id, HeirOf(cfg, w, op), dir)
    case Removed(id, t) => RemovedSize(cfg, w.ls, id, t); Retire(w, ls, id)
  }

  lemma RemovedSize(cfg: Config, ls: LineState, id: U32, t: real)
    ensures |AfterRemoved(cfg, ls, id, t).lost| <= |ls.lost| + 1
  {
    if id in ls.st {
      var s := ls.st[id];
      PrunedSuffix(cfg, if s.counted != 0 then ls.lost + [Lost(t, s.lx, s.ly, s.counted, s.side)] else ls.lost, t);
    }
  }

  /** No chain is held twice: each lost record is inherited at most once, and a
      chain that was inherited is no longer waiting. */
  ghost predicate Held(chain: map<U32, nat>, waiting: seq<nat>, next: nat) {
    && (forall id | id in chain :: chain[id] < next)
    && (forall k | 0 <= k < |waiting| :: waiting[k] < next)
    && (forall i, j | i in chain && j in chain && i != j :: chain[i] != chain[j])
    && (forall k, l | 0 <= k < l < |waiting| :: waiting[k] != waiting[l])
    && (forall id, k | id in chain && 0 <= k < |waiting| :: chain[id] != waiting[k])
  }

  ghost predicate Counted(w: World)
    requires Shape(w)
  {
    && (forall id | id in w.chain :: w.ls.st[id].counted == Last(History(w.log, w.chain[id])))
    && (forall k | 0 <= k < |w.lostChain| :: w.ls.lost[k].counted == Last(History(w.log, w.lostChain[k])))
  }

  ghost predicate Inv(w: World) {
    && Shape(w) && Held(w.chain, w.lostChain, w.next) && Counted(w)
    && (forall c: nat :: Alternates(History(w.log, c)))
    && (forall c: nat | c >= w.next :: History(w.log, c) == [])
  }

  lemma HeirTakes(chain: map<U32, nat>, waiting: seq<nat>, next: nat, id: U32, k: nat)
    requires Held(chain, waiting, next) && k < |waiting|
    ensures Held(chain[id := waiting[k]], T.Erased(waiting, k), next)
  {
    var rest := T.Erased(waiting, k);
    assert forall i | 0 <= i < |rest| :: rest[i] == waiting[if i < k then i else i + 1];
  }

  lemma NewChain(chain: map<U32, nat>, waiting: seq<nat>, next: nat, id: U32)
    requires Held(chain, waiting, next) && id !in chain
    ensures Held(chain[id := next], waiting, next + 1)
  {
  }

  lemma ChainWaits(chain: map<U32, nat>, waiting: seq<nat>, next: nat, id: U32)
    requires Held(chain, waiting, next) && id in chain
    ensures Held(chain - {id}, waiting + [chain[id]], next) && Held(chain - {id}, waiting, next)
  {
  }

  lemma Forgotten(chain: map<U32, nat>, waiting: seq<nat>, next: nat, k: nat)
    requires Held(chain, waiting, next) && k <= |waiting|
    ensures Held(chain, waiting[k..], next)
  {
  }

  lemma ExtendHeld(w: World, ls: LineState, id: U32, heir: Option<nat>, dir: Option<int>)
    requires Held(w.chain, w.lostChain, w.next) && (heir.Some? ==> heir.value < |w.lostChain|)
    ensures var w' := Extend(w, ls, id, heir, dir);
            Held(w'.chain, w'.lostChain, w'.next)
  {
    if heir.Some? {
      HeirTakes(w.chain, w.lostChain, w.next, id, heir.value);
    } else if id in w.chain {
      assert w.chain[id := w.chain[id]] == w.chain;
    } else {
      NewChain(w.chain, w.lostChain, w.next, id);
    }
  }

  lemma LogAfter(log: Log, c: nat, dir: Option<int>)
    requires forall d: nat :: Alternates(History(log, d))
    requires dir.Some? ==> dir.value in {1, -1} && dir.value != Last(History(log, c))
    ensures var log' := log + if dir.Some? then [(c, dir.value)] else [];
            && (forall d: nat | d != c :: History(log', d) == History(log, d))
            && Last(History(log', c)) == (if dir.Some? then dir.value else Last(History(log, c)))
            && (forall d: nat :: Alternates(History(log', d)))
  {
    var log' := log + if dir.Some? then [(c, dir.value)] else [];
    if dir.None? {
      assert log' == log;
    } else {
      forall d: nat
        ensures History(log', d) == History(log, d) + (if c == d then [dir.value] else []) &&
                Alternates(History(log', d))
      {
        HistoryGrows(log, c, dir.value, d);
        assert Alternates(History(log, d));
      }
    }
  }

  /** Every track and record but the one in hand keeps its own chain's history. */
  lemma CountedAfter(w: World, ls: LineState, w': World, id: U32, c: nat)
    requires Shape(w') && Held(w'.chain, w'.lostChain, w'.next) && id in w'.chain && w'.chain[id] == c && w'.ls == ls
    requires forall d: nat | d != c :: History(w'.log, d) == History(w.log, d)
    requires ls.st[id].counted == Last(History(w'.log, c))
    requires forall j | j in w'.chain && j != id :: ls.st[j].counted == Last(History(w.log, w'.chain[j]))
    requires forall k | 0 <= k < |w'.lostChain| :: ls.lost[k].counted == Last(History(w.log, w'.lostChain[k]))
    ensures Counted(w')
  {
  }

  /** The state of the track after a frame: `base` is the count it started from. */
  lemma ExtendKeeps(w: World, id: U32, heir: Option<nat>, s: PerTrack, base: int, dir: Option<int>)
    requires Inv(w) && (heir.Some? ==> heir.value < |w.lostChain|)
    requires base == if heir.Some? then w.ls.lost[heir.value].counted else Entry(w.ls, id).counted
    requires s.counted == if dir.Some? then dir.value else base
    requires dir.Some? ==> dir.value in {1, -1} && dir.value != base
    ensures var ls := LineState(w.ls.st[id := s], if heir.Some? then T.Erased(w.ls.lost, heir.value) else w.ls.lost);
            Inv(Extend(w, ls, id, heir, dir))
  {
    var c := ChainOf(w, id, heir);
    var ls := LineState(w.ls.st[id := s], if heir.Some? then T.Erased(w.ls.lost, heir.value) else w.ls.lost);
    var w' := Extend(w, ls, id, heir, dir);
    BaseIsLast(w, id, heir, base);
    ExtendHeld(w, ls, id, heir, dir);
    LogAfter(w.log, c, dir);
    OthersKept(w, id, heir, ls, w');
    CountedAfter(w, ls, w', id, c);
  }

  lemma BaseIsLast(w: World, id: U32, heir: Option<nat>, base: int)
    requires Inv(w) && (heir.Some? ==> heir.value < |w.lostChain|)
    requires base == if heir.Some? then w.ls.lost[heir.value].counted else Entry(w.ls, id).counted
    ensures base == Last(History(w.log, ChainOf(w, id, heir)))
    ensures ChainOf(w, id, heir) <= w.next
  {
  }

  lemma OthersKept(w: World, id: U32, heir: Option<nat>, ls: LineState, w': World)
    requires Inv(w) && (heir.Some? ==> heir.value < |w.lostChain|)
    requires ls.st.Keys == w.ls.st.Keys + {id} && forall j | j in w.ls.st && j != id :: ls.st[j] == w.ls.st[j]
    requires ls.lost == if heir.Some? then T.Erased(w.ls.lost, heir.value) else w.ls.lost
    requires w'.ls == ls && w'.chain == w.chain[id := ChainOf(w, id, heir)]
    requires w'.lostChain == if heir.Some? then T.Erased(w.lostChain, heir.value) else w.lostChain
    ensures Shape(w')
    ensures forall j | j in w'.chain && j != id :: ls.st[j].counted == Last(History(w.log, w'.chain[j]))
    ensures forall k | 0 <= k < |w'.lostChain| :: ls.lost[k].counted == Last(History(w.log, w'.lostChain[k]))
  {
    forall j | j in w'.chain && j != id
      ensures ls.st[j].counted == Last(History(w.log, w'.chain[j]))
    {
      assert j in w.chain && w'.chain[j] == w.chain[j] && ls.st[j] == w.ls.st[j];
    }
    forall k | 0 <= k < |w'.lostChain|
      ensures ls.lost[k].counted == Last(History(w.log, w'.lostChain[k]))
    {
      var k0 := if heir.Some? && k >= heir.value then k + 1 else k;
      assert ls.lost[k] == w.ls.lost[k0] && w'.lostChain[k] == w.lostChain[k0];
      assert w.ls.lost[k0].counted == Last(History(w.log, w.lostChain[k0]));
    }
  }

  lemma FrameFacts(cfg: Config, ln: Line, ls: LineState, id: U32, px: real, py: real, now: real)
      returns (s: PerTrack, base: int)
    requires Usable(cfg, ln)
    ensures var (ls', dir) := AfterFrame(cfg, ln, ls, id, px, py, now);
            var heir := Heir(cfg, Entry(ls, id), ls.lost, px, py, now);
            && ls' == LineState(ls.st[id := s], if heir.Some? then T.Erased(ls.lost, heir.value) else ls.lost)
            && base == (if heir.Some? then ls.lost[heir.value].counted else Entry(ls, id).counted)
            && s.counted == (if dir.Some? then dir.value else base)
            && (dir.Some? ==> dir.value in {1, -1} && dir.value != base)
  {
    var s0 := Entry(ls, id);
    var heir := Heir(cfg, s0, ls.lost, px, py, now);
    var s1 := Inherited(s0, ls.lost, heir).(age := T.Inc(s0.age), lx := px, ly := py);
    base := s1.counted;
    var cur, tproj := SideOf(cfg, Distance(cfg, ln, px, py)), Projection(cfg, ln, px, py);
    CrossRules(cfg, s1, cur, tproj, px, py);
    s := Cross(cfg, s1, cur, tproj, px, py).0;
  }

  lemma RetireKeeps(cfg: Config, w: World, id: U32, t: real)
    requires Inv(w)
    ensures |AfterRemoved(cfg, w.ls, id, t).lost| <= |w.ls.lost| + 1
    ensures Inv(Retire(w, AfterRemoved(cfg, w.ls, id, t), id))
  {
    RemovedSize(cfg, w.ls, id, t);
    if id in w.ls.st {
      var s := w.ls.st[id];
      var lost := if s.counted != 0 then w.ls.lost + [Lost(t, s.lx, s.ly, s.counted, s.side)] else w.ls.lost;
      PrunedSuffix(cfg, lost, t);
      RetireParts(w, id, lost, Pruned(cfg, lost, t));
    }
  }

  /** The chains that wait once a track was removed, before pruning. */
  function WaitingWith(w: World, id: U32): seq<nat>
    requires id in w.ls.st && id in w.chain
  {
    if w.ls.st[id].counted != 0 then w.lostChain + [w.chain[id]] else w.lostChain
  }

  lemma WaitingCounted(w: World, id: U32, lost: seq<Lost>)
    requires Inv(w) && id in w.ls.st
    requires lost == w.ls.lost || (lost != [] && lost[..|lost| - 1] == w.ls.lost &&
             lost[|lost| - 1].counted == w.ls.st[id].counted)
    requires |lost| == |w.ls.lost| + if w.ls.st[id].counted != 0 then 1 else 0
    ensures |lost| == |WaitingWith(w, id)|
    ensures forall i | 0 <= i < |lost| :: lost[i].counted == Last(History(w.log, WaitingWith(w, id)[i]))
  {
    var waiting := WaitingWith(w, id);
    forall i | 0 <= i < |waiting|
      ensures lost[i].counted == Last(History(w.log, waiting[i]))
    {
      if i < |w.ls.lost| {
        assert lost[i] == w.ls.lost[i] && waiting[i] == w.lostChain[i];
      }
    }
  }

  lemma SuffixCounted(log: Log, lost: seq<Lost>, waiting: seq<nat>, k: nat)
    requires k <= |waiting| == |lost| && forall i | 0 <= i < |lost| :: lost[i].counted == Last(History(log, waiting[i]))
    ensures forall i | 0 <= i < |waiting[k..]| :: lost[k..][i].counted == Last(History(log, waiting[k..][i]))
  {
  }

  lemma RetireHeld(w: World, id: U32, k: nat)
    requires Inv(w) && id in w.ls.st && k <= |WaitingWith(w, id)|
    ensures Held(w.chain - {id}, WaitingWith(w, id)[k..], w.next)
  {
    ChainWaits(w.chain, w.lostChain, w.next, id);
    Forgotten(w.chain - {id}, WaitingWith(w, id), w.next, k);
  }

  lemma RetireParts(w: World, id: U32, lost: seq<Lost>, left: seq<Lost>)
    requires Inv(w) && id in w.ls.st && |left| <= |lost| && left == lost[|lost| - |left|..]
    requires lost == w.ls.lost || (lost != [] && lost[..|lost| - 1] == w.ls.lost &&
             lost[|lost| - 1].counted == w.ls.st[id].counted)
    requires |lost| == |w.ls.lost| + if w.ls.st[id].counted != 0 then 1 else 0
    ensures Inv(Retire(w, LineState(w.ls.st - {id}, left), id))
  {
    var waiting, k := WaitingWith(w, id), |lost| - |left|;
    WaitingCounted(w, id, lost);
    SuffixCounted(w.log, lost, waiting, k);
    RetireHeld(w, id, k);
    assert Retire(w, LineState(w.ls.st - {id}, left), id) ==
           World(LineState(w.ls.st - {id}, left), w.chain - {id}, waiting[k..], w.next, w.log);
  }

  lemma StepKeeps(cfg: Config, ln: Line, w: World, op: Op)
    requires Usable(cfg, ln) && Inv(w)
    ensures Inv(Next(cfg, ln, w, op))
  {
    match op
    case Frame(id, x, y, now) =>
      var s, base := FrameFacts(cfg, ln, w.ls, id, x, y, now);
      ExtendKeeps(w, id, HeirOf(cfg, w, op), s, base, AfterFrame(cfg, ln, w.ls, id, x, y, now).1);
    case Removed(id, t) => RetireKeeps(cfg, w, id, t);
  }

  ghost predicate Runs(cfg: Config, ln: Line, ops: seq<Op>, ws: seq<World>) {
    && Usable(cfg, ln) && |ws| == |ops| + 1 && ws[0] == START
    && forall i | 0 <= i < |ops| :: Shape(ws[i]) && ws[i + 1] == Next(cfg, ln, ws[i], ops[i])
  }

  lemma {:induction false} RunInv(cfg: Config, ln: Line, ops: seq<Op>, ws: seq<World>, n: nat)
    requires Runs(cfg, ln, ops, ws) && n <= |ops|
    ensures Inv(ws[n])
  {
    if n > 0 {
      RunInv(cfg, ln, ops, ws, n - 1);
      StepKeeps(cfg, ln, ws[n - 1], ops[n - 1]);
    }
  }

  /** Over any run, the directions counted along a chain of tracks strictly
      alternate, so forward minus backward stays within one. */
  lemma ChainAlternates(cfg: Config, ln: Line, ops: seq<Op>, ws: seq<World>, n: nat, c: nat)
    requires Runs(cfg, ln, ops, ws) && n <= |ops|
    ensures Alternates(History(ws[n].log, c)) && Balance(History(ws[n].log, c)) in {-1, 0, 1}
  {
    RunInv(cfg, ln, ops, ws, n);
    AlternatesBalance(History(ws[n].log, c));
  }

  /** Two live tracks never continue the same chain, nor does a live track
      continue one that still waits in a lost record. */
  lemma InheritedOnce(cfg: Config, ln: Line, ops: seq<Op>, ws: seq<World>, n: nat)
    requires Runs(cfg, ln, ops, ws) && n <= |ops|
    ensures Held(ws[n].chain, ws[n].lostChain, ws[n].next)
  {
    RunInv(cfg, ln, ops, ws, n);
  }

  /** The tags change nothing: the state and the events are those of the
      analyzer, and the log holds just their directions. */
  lemma {:induction false} TagsFollow(cfg: Config, li: nat, ops: seq<Op>, ws: seq<World>, n: nat)
    requires li < |cfg.lines| && Runs(cfg, cfg.lines[li], ops, ws) && n <= |ops|
    ensures ws[n].ls == LineRun(cfg, cfg.lines[li], START.ls, ops[..n])
    ensures var events := LineEvents(cfg, li, START.ls, ops[..n]);
            |ws[n].log| == |events| && forall k | 0 <= k < |events| :: ws[n].log[k].1 == events[k].dir
  {
    if n > 0 {
      TagsFollow(cfg, li, ops, ws, n - 1);
      assert ops[..n][..n - 1] == ops[..n - 1] && ops[..n][n - 1] == ops[n - 1];
      NextLog(cfg, cfg.lines[li], ws[n - 1], ops[n - 1]);
    }
  }

  lemma NextLog(cfg: Config, ln: Line, w: World, op: Op)
    requires Usable(cfg, ln) && Shape(w)
    ensures var (ls, dir) := After(cfg, ln, w.ls, op);
            && Next(cfg, ln, w, op).ls == ls
            && |Next(cfg, ln, w, op).log| == |w.log| + (if dir.Some? && op.Frame? then 1 else 0)
            && w.log <= Next(cfg, ln, w, op).log
            && (dir.Some? && op.Frame? ==> Next(cfg, ln, w, op).log[|w.log|].1 == dir.value)
  {
  }

  // ---- Once per direction ----

  /** The documented rule: no direction is counted twice. */
  ghost predicate OncePerDirection(h: seq<int>) {
    forall i, j | 0 <= i < j < |h| :: h[i] != h[j]
  }

  lemma AlternatesTwice(h: seq<int>)
    requires Alternates(h)
    ensures OncePerDirection(h) <==> |h| <= 2
    ensures |h| >= 2 ==> forall d | d in {1, -1} :: d in h
  {
    if |h| >= 2 {
      assert h[0] != h[1] && h[0] in {1, -1} && h[1] in {1, -1};
      if |h| > 2 {
        assert h[2] != h[1] && h[2] in {1, -1};
      }
    }
  }

  /** A chain of tracks keeps the documented rule exactly as long as at most two
      crossings were counted on it: each later one repeats a direction. */
  lemma OncePerDirectionIff(cfg: Config, ln: Line, ops: seq<Op>, ws: seq<World>, n: nat, c: nat)
    requires Runs(cfg, ln, ops, ws) && n <= |ops|
    ensures OncePerDirection(History(ws[n].log, c)) <==> |History(ws[n].log, c)| <= 2
  {
    RunInv(cfg, ln, ops, ws, n);
    AlternatesTwice(History(ws[n].log, c));
  }

  lemma NextRepeats(h: seq<int>, d: int)
    requires Alternates(h) && d in {1, -1} && d != Last(h)
    ensures d in h <==> |h| >= 2
  {
    AlternatesTwice(h);
  }

  lemma NotTheLast(cfg: Config, ln: Line, w: World, op: Op)
    requires Usable(cfg, ln) && Inv(w) && op.Frame? && After(cfg, ln, w.ls, op).1.Some?
    ensures var heir, d := HeirOf(cfg, w, op), After(cfg, ln, w.ls, op).1.value;
            (heir.Some? ==> heir.value < |w.lostChain|)
            && d in {1, -1} && d != Last(History(w.log, ChainOf(w, op.id, heir)))
  {
    var s, base := FrameFacts(cfg, ln, w.ls, op.id, op.x, op.y, op.now);
    BaseIsLast(w, op.id, HeirOf(cfg, w, op), base);
  }

  /** The directions counted so far on the chain that a frame's track is in. */
  function HistoryBefore(cfg: Config, w: World, op: Op): seq<int>
    requires op.Frame? && Shape(w)
  {
    History(w.log, ChainOf(w, op.id, HeirOf(cfg, w, op)))
  }

  /** The crossing that a frame counts repeats a direction already counted on
      its chain exactly when two were counted there before. */
  lemma RepeatsIff(cfg: Config, ln: Line, ops: seq<Op>, ws: seq<World>, n: nat)
    requires Runs(cfg, ln, ops, ws) && n < |ops| && ops[n].Frame? && After(cfg, ln, ws[n].ls, ops[n]).1.Some?
    ensures var h := HistoryBefore(cfg, ws[n], ops[n]);
            After(cfg, ln, ws[n].ls, ops[n]).1.value in h <==> |h| >= 2
  {
    RunInv(cfg, ln, ops, ws, n);
    NotTheLast(cfg, ln, ws[n], ops[n]);
    NextRepeats(HistoryBefore(cfg, ws[n], ops[n]), After(cfg, ln, ws[n].ls, ops[n]).1.value);
  }

  // ---- Forward, back, and forward again ----

  const AXIS := Line(0.0, 0.0, 1.0, 0.0)

  /** A line along the x axis, and settings that the defaults meet. */
  ghost predicate Ordinary(cfg: Config) {
    && cfg.hypot(1.0, 0.0) == 1.0 && cfg.hypot(0.0, 2.0) >= cfg.minTravel && cfg.hypot(0.0, -2.0) >= cfg.minTravel
    && 0.0 <= cfg.band < 1.0 && cfg.margin >= 0.0 && cfg.minFrames <= 3
  }

  /** One track on the line, in chain 0. */
  function Solo(id: U32, s: PerTrack, log: Log): World {
    World(LineState(map[id := s], []), map[id := 0], [], 1, log)
  }

  lemma AxisSide(cfg: Config, y: real)
    requires Ordinary(cfg) && (y == 1.0 || y == -1.0)
    ensures Usable(cfg, AXIS) && Projection(cfg, AXIS, 0.5, y) == 0.5
    ensures SideOf(cfg, Distance(cfg, AXIS, 0.5, y)) == if y > 0.0 then 1 else -1
  {
  }

  lemma SoloStep(cfg: Config, id: U32, s: PerTrack, log: Log, y: real, now: real)
    requires Ordinary(cfg) && (y == 1.0 || y == -1.0) && s.age > 0
    ensures Usable(cfg, AXIS)
    ensures var s1, side := s.(age := T.Inc(s.age), lx := 0.5, ly := y), if y > 0.0 then 1 else -1;
            var (s', dir) := Cross(cfg, s1, side, 0.5, 0.5, y);
            Next(cfg, AXIS, Solo(id, s, log), Frame(id, 0.5, y, now)) ==
            Solo(id, s', log + if dir.Some? then [(0, dir.value)] else [])
  {
    AxisSide(cfg, y);
    var (s', _) := Cross(cfg, s.(age := T.Inc(s.age), lx := 0.5, ly := y), if y > 0.0 then 1 else -1, 0.5, 0.5, y);
    assert map[id := s][id := s'] == map[id := s'] && map[id := 0][id := 0] == map[id := 0];
  }

  lemma FirstStep(cfg: Config, id: U32, now: real)
    requires Ordinary(cfg)
    ensures Usable(cfg, AXIS)
    ensures Next(cfg, AXIS, START, Frame(id, 0.5, 1.0, now)) == Solo(id, PerTrack(1, 0, None, 0.5, 1.0, 1), [])
  {
    AxisSide(cfg, 1.0);
    assert map[][id := 0] == map[id := 0];
  }

  /** The steps and worlds of a track that walks over the line, back, and over
      it again. */
  function Walk(id: U32, now: real, i: nat): Op {
    Frame(id, 0.5, if i == 2 || i == 4 then -1.0 else 1.0, now)
  }

  function Walked(id: U32, i: nat): World
    requires i <= 5
  {
    if i == 0 then START
    else if i <= 2 then Solo(id, PerTrack(1, 0, None, 0.5, 1.0, i), [])
    else if i == 3 then Solo(id, PerTrack(-1, 1, Some((0.5, -1.0)), 0.5, -1.0, 3), [(0, 1)])
    else if i == 4 then Solo(id, PerTrack(1, -1, Some((0.5, 1.0)), 0.5, 1.0, 4), [(0, 1), (0, -1)])
    else Solo(id, PerTrack(-1, 1, Some((0.5, -1.0)), 0.5, -1.0, 5), [(0, 1), (0, -1), (0, 1)])
  }

  lemma WalkStep(cfg: Config, id: U32, now: real, i: nat)
    requires Ordinary(cfg) && i < 5
    ensures Usable(cfg, AXIS) && Shape(Walked(id, i))
    ensures Next(cfg, AXIS, Walked(id, i), Walk(id, now, i)) == Walked(id, i + 1)
  {
    if i == 0 {
      FirstStep(cfg, id, now);
    } else {
      var w := Walked(id, i);
      SoloStep(cfg, id, w.ls.st[id], w.log, if i == 2 || i == 4 then -1.0 else 1.0, now);
    }
  }

  /** Such a track is counted forward twice. */
  lemma ForwardTwice(cfg: Config, id: U32, now: real) returns (ops: seq<Op>, ws: seq<World>)
    requires Ordinary(cfg)
    ensures Runs(cfg, AXIS, ops, ws) && |ops| == 5 && forall k | 0 <= k < 5 :: ops[k].Frame? && ops[k].id == id
    ensures History(ws[5].log, 0) == [1, -1, 1]
  {
    ops := seq(5, i requires 0 <= i < 5 => Walk(id, now, i));
    ws := seq(6, i requires 0 <= i < 6 => Walked(id, i));
    WalkStep(cfg, id, now, 0);
    forall i | 0 <= i < 5
      ensures Shape(ws[i]) && ws[i + 1] == Next(cfg, AXIS, ws[i], ops[i])
    {
      WalkStep(cfg, id, now, i);
    }
    ThreeTurns();
  }

  lemma ThreeTurns()
    ensures History([(0, 1), (0, -1), (0, 1)], 0) == [1, -1, 1]
  {
    HistoryGrows([], 0, 1, 0);
    HistoryGrows([(0, 1)], 0, -1, 0);
    HistoryGrows([(0, 1), (0, -1)], 0, 1, 0);
    assert [] + [(0, 1)] == [(0, 1)] && [(0, 1)] + [(0, -1)] == [(0, 1), (0, -1)];
    assert [(0, 1), (0, -1)] + [(0, 1)] == [(0, 1), (0, -1), (0, 1)];
  }
}
