/** Identity over whole runs of the tracker: which ids are issued, live and
    removed, and what holds until the 32-bit counter wraps. */
module TrackerRuns {
  import opened Wrappers
  import opened Bytes
  import opened GreedyMatching
  import opened Trackers

  datatype Input = Input(dets: seq<Det>, kpts: seq<Kpt>, t: real)

  /** The tracker with its history: how many ids were issued, which were removed. */
  datatype World = World(st: State, issued: nat, gone: seq<U32>)

  const LAST_ID: nat := 0xFFFF_FFFF

  predicate Fits(w: World, m: Match, inp: Input) {
    |m.of| == |w.st.tracks| && |m.used| == |inp.dets| && forall i | 0 <= i < |m.of| :: m.of[i] < |inp.dets|
  }

  function StepWith(cfg: Config, w: World, m: Match, inp: Input): World
    requires Fits(w, m, inp)
  {
    World(After(cfg, w.st, m, inp.dets, inp.kpts, inp.t), w.issued + Free(m.used, |inp.dets|),
          w.gone + Kept(cfg, w.st, m, inp.dets, inp.kpts, inp.t).1)
  }

  function Step(cfg: Config, w: World, inp: Input): World {
    StepWith(cfg, w, Matching(cfg, w.st.tracks, inp.dets, inp.t), inp)
  }

  function Run(cfg: Config, inputs: seq<Input>): World {
    if inputs == [] then World(State([], [], 1, None), 0, [])
    else Step(cfg, Run(cfg, inputs[..|inputs| - 1]), inputs[|inputs| - 1])
  }

  /** The detections handed back by the update after the run `inputs`. */
  function Labels(cfg: Config, w: World, inp: Input): (r: seq<Det>)
    ensures |r| == |inp.dets|
  {
    Labelled(w.st.tracks, inp.dets, Matching(cfg, w.st.tracks, inp.dets, inp.t), w.st.nextId)
  }

  function Ids(ts: seq<Track>): (ids: seq<U32>)
    ensures |ids| == |ts| && forall i | 0 <= i < |ts| :: ids[i] == ts[i].id
  {
    seq(|ts|, i requires 0 <= i < |ts| => ts[i].id)
  }

  ghost predicate Ascending(ids: seq<nat>) {
    forall i, j | 0 <= i < j < |ids| :: ids[i] < ids[j]
  }

  /** issued + 1, ..., issued + k. */
  function NewIds(issued: nat, k: nat): (ids: seq<nat>)
    ensures |ids| == k && forall i | 0 <= i < k :: ids[i] == issued + 1 + i
  {
    if k == 0 then [] else NewIds(issued, k - 1) + [issued + k]
  }

  /** {1, ..., n}, each once. */
  ghost function Upto(n: nat): multiset<nat> {
    multiset(NewIds(0, n))
  }

  lemma OneMore(ids: seq<nat>, n: nat, id: nat)
    ensures multiset(ids + [n])[id] == multiset(ids)[id] + if id == n then 1 else 0
  {
  }

  lemma {:induction false} UptoCount(n: nat, id: nat)
    ensures Upto(n)[id] == if 1 <= id <= n then 1 else 0
  {
    if n > 0 {
      UptoCount(n - 1, id);
      OneMore(NewIds(0, n - 1), n, id);
    }
  }

  /** Every issued id is live or removed, exactly once; live ids ascend. */
  ghost predicate Ledger(ids: seq<nat>, gone: seq<nat>, issued: nat) {
    Ascending(ids) && multiset(ids) + multiset(gone) == Upto(issued)
  }

  ghost predicate Inv(w: World) {
    && w.st.nextId == IdAfter(1, w.issued)
    && (w.issued <= LAST_ID ==> Ledger(Ids(w.st.tracks), w.gone, w.issued))
  }

  // ---- One step ----

  lemma {:induction false} RefreshedIds(cfg: Config, ts: seq<Track>, of: seq<int>, dets: seq<Det>, kpts: seq<Kpt>,
                                        t: real, dt: real, n: nat)
    requires n <= |of| == |ts| && forall i | 0 <= i < |ts| :: of[i] < |dets|
    ensures Ids(Refreshed(cfg, ts, of, dets, kpts, t, dt, n)) == Ids(ts)
  {
    if n > 0 {
      RefreshedIds(cfg, ts, of, dets, kpts, t, dt, n - 1);
    }
  }

  lemma IdsFront(ts: seq<Track>, x: Track)
    ensures Ids([x] + ts) == [x.id] + Ids(ts)
  {
  }

  /** kept is what is left of ids without gone, in the same order. */
  ghost predicate Split(ids: seq<nat>, kept: seq<nat>, gone: seq<nat>) {
    multiset(ids) == multiset(kept) + multiset(gone) && Ascending(kept) && forall x | x in kept :: x in ids
  }

  lemma SplitFront(id: nat, rest: seq<nat>, kept: seq<nat>, gone: seq<nat>)
    requires Split(rest, kept, gone) && Ascending([id] + rest)
    ensures Split([id] + rest, [id] + kept, gone) && Split([id] + rest, kept, [id] + gone)
  {
    forall j | 0 <= j < |kept|
      ensures id < kept[j]
    {
      assert kept[j] in rest;
      var k :| 0 <= k < |rest| && rest[k] == kept[j];
      assert ([id] + rest)[0] < ([id] + rest)[k + 1];
    }
  }

  lemma IdsSplit(ts: seq<Track>)
    requires ts != []
    ensures Ids(ts) == [ts[0].id] + Ids(ts[1..])
    ensures Ascending(Ids(ts)) ==> Ascending(Ids(ts[1..]))
  {
    forall i, j | 0 <= i < j < |ts| - 1 && Ascending(Ids(ts))
      ensures Ids(ts[1..])[i] < Ids(ts[1..])[j]
    {
      assert Ids(ts)[i + 1] < Ids(ts)[j + 1];
    }
  }

  /** The paired erase loses and duplicates no id, and keeps the order. */
  lemma {:induction false} SurviveIds(cfg: Config, ts: seq<Track>, of: seq<int>, t: real)
    requires |of| == |ts| && Ascending(Ids(ts))
    ensures var (kept, gone) := Survive(cfg, ts, of, t);
            Split(Ids(ts), Ids(kept), gone)
    decreases |ts|
  {
    if ts != [] {
      IdsSplit(ts);
      SurviveIds(cfg, ts[1..], of[1..], t);
      var (kept, gone) := Survive(cfg, ts[1..], of[1..], t);
      SplitFront(ts[0].id, Ids(ts[1..]), Ids(kept), gone);
      if of[0] >= 0 {
        IdsFront(kept, ts[0]);
      } else if !Expired(cfg, Aged(ts[0]), t) {
        IdsFront(kept, Aged(ts[0]));
      }
    }
  }

  /** Each track meets its own match: seen tracks stay as they are, the others
      are aged, and leave exactly when they have expired. */
  lemma {:induction false} SurviveExact(cfg: Config, ts: seq<Track>, of: seq<int>, t: real, i: nat)
    requires i < |ts| == |of|
    ensures var (kept, gone) := Survive(cfg, ts, of, t);
            if of[i] >= 0 then ts[i] in kept
            else if Expired(cfg, Aged(ts[i]), t) then ts[i].id in gone
            else Aged(ts[i]) in kept
    decreases |ts|
  {
    if i > 0 {
      SurviveExact(cfg, ts[1..], of[1..], t, i - 1);
    }
  }

  function Fresh(next: U32, k: nat): (ids: seq<U32>)
    ensures |ids| == k && forall i | 0 <= i < k :: ids[i] == IdAfter(next, i)
  {
    if k == 0 then [] else Fresh(next, k - 1) + [IdAfter(next, k - 1)]
  }

  lemma NoMoreIds(ids: seq<U32>)
    ensures ids + [] == ids
  {
  }

  lemma FreshLast(next: U32, k: nat)
    ensures Fresh(next, k + 1) == Fresh(next, k) + [IdAfter(next, k)]
  {
  }

  lemma BirthsLast(dets: seq<Det>, used: seq<bool>, next: U32, kpts: seq<Kpt>, t: real, n: nat)
    requires 0 < n <= |dets| == |used|
    ensures Ids(Births(dets, used, next, kpts, t, n)) ==
            Ids(Births(dets, used, next, kpts, t, n - 1)) + if used[n - 1] then []
                else [IdAfter(next, Free(used, n - 1))]
  {
  }

  lemma {:induction false} BirthIds(dets: seq<Det>, used: seq<bool>, next: U32, kpts: seq<Kpt>, t: real, n: nat)
    requires n <= |dets| == |used|
    ensures Ids(Births(dets, used, next, kpts, t, n)) == Fresh(next, Free(used, n))
  {
    if n > 0 {
      BirthIds(dets, used, next, kpts, t, n - 1);
      BirthsLast(dets, used, next, kpts, t, n);
      if used[n - 1] {
        NoMoreIds(Fresh(next, Free(used, n - 1)));
      } else {
        FreshLast(next, Free(used, n - 1));
      }
    }
  }

  lemma FreshUnwrapped(issued: nat, k: nat)
    requires issued + k <= LAST_ID
    ensures forall i | 0 <= i < k :: Fresh(IdAfter(1, issued), k)[i] == issued + 1 + i
  {
  }

  lemma UptoGrows(issued: nat, k: nat)
    ensures Upto(issued) + multiset(NewIds(issued, k)) == Upto(issued + k)
  {
    Glue(NewIds(0, issued), NewIds(issued, k), NewIds(0, issued + k), issued, k);
    SumOfParts(NewIds(0, issued), NewIds(issued, k), NewIds(0, issued + k));
  }

  lemma Glue(a: seq<nat>, b: seq<nat>, c: seq<nat>, n: nat, k: nat)
    requires |a| == n && |b| == k && |c| == n + k
    requires (forall i | 0 <= i < n :: a[i] == 1 + i) && (forall i | 0 <= i < k :: b[i] == n + 1 + i)
    requires forall i | 0 <= i < n + k :: c[i] == 1 + i
    ensures c == a + b
  {
  }

  lemma SumOfParts(a: seq<nat>, b: seq<nat>, c: seq<nat>)
    requires c == a + b
    ensures multiset(a) + multiset(b) == multiset(c)
  {
  }

  lemma IssuedBelow(ids: seq<nat>, gone: seq<nat>, issued: nat, x: nat)
    requires multiset(ids) + multiset(gone) == Upto(issued) && x in ids
    ensures 1 <= x <= issued
  {
    UptoCount(issued, x);
    assert (multiset(ids) + multiset(gone))[x] >= multiset(ids)[x] > 0;
  }

  lemma LedgerStep(ids: seq<nat>, gone: seq<nat>, issued: nat, kept: seq<nat>, left: seq<nat>, k: nat)
    requires Ledger(ids, gone, issued) && Split(ids, kept, left)
    ensures Ledger(kept + NewIds(issued, k), gone + left, issued + k)
  {
    forall i | 0 <= i < |kept|
      ensures kept[i] <= issued
    {
      assert kept[i] in ids;
      IssuedBelow(ids, gone, issued, kept[i]);
    }
    UptoGrows(issued, k);
    Rearranged(multiset(ids), multiset(gone), multiset(kept), multiset(left), multiset(NewIds(issued, k)));
    assert multiset(kept + NewIds(issued, k)) == multiset(kept) + multiset(NewIds(issued, k));
    assert multiset(gone + left) == multiset(gone) + multiset(left);
  }

  lemma Rearranged(ids: multiset<nat>, gone: multiset<nat>, kept: multiset<nat>, left: multiset<nat>,
                   born: multiset<nat>)
    requires ids == kept + left
    ensures (kept + born) + (gone + left) == (ids + gone) + born
  {
  }

  lemma NextIds(issued: nat, k: nat)
    ensures IdAfter(IdAfter(1, issued), k) == IdAfter(1, issued + k)
  {
    ModAdd(1 + issued, k, 0x1_0000_0000);
  }

  lemma ModAdd(x: nat, k: nat, m: nat)
    requires m > 0
    ensures (x % m + k) % m == (x + k) % m
  {
    var q, r := (x % m + k) / m, (x % m + k) % m;
    assert x + k == m * (x / m + q) + r by {
      assert m * (x / m + q) == m * (x / m) + m * q;
    }
    ModUnique(x + k, m, x / m + q, r);
  }

  lemma KeptIds(cfg: Config, w: World, m: Match, inp: Input)
    requires Fits(w, m, inp) && Ascending(Ids(w.st.tracks))
    ensures var (kept, left) := Kept(cfg, w.st, m, inp.dets, inp.kpts, inp.t);
            Split(Ids(w.st.tracks), Ids(kept), left)
  {
    var ts, dt := w.st.tracks, Elapsed(w.st, inp.t);
    RefreshedIds(cfg, ts, m.of, inp.dets, inp.kpts, inp.t, dt, |m.of|);
    SurviveIds(cfg, Refreshed(cfg, ts, m.of, inp.dets, inp.kpts, inp.t, dt, |m.of|), m.of, inp.t);
  }

  lemma IdsConcat(kept: seq<Track>, born: seq<Track>)
    ensures Ids(kept + born) == Ids(kept) + Ids(born)
  {
  }

  lemma BornIds(cfg: Config, w: World, m: Match, inp: Input, k: nat)
    requires Fits(w, m, inp) && w.st.nextId == IdAfter(1, w.issued) && k == Free(m.used, |inp.dets|) &&
             w.issued + k <= LAST_ID
    ensures Ids(Births(inp.dets, m.used, w.st.nextId, inp.kpts, inp.t, |inp.dets|)) == NewIds(w.issued, k)
  {
    BirthIds(inp.dets, m.used, w.st.nextId, inp.kpts, inp.t, |inp.dets|);
    FreshUnwrapped(w.issued, k);
  }

  /** The pieces of a step, and what is known of their ids. */
  lemma StepParts(cfg: Config, w: World, m: Match, inp: Input)
      returns (kept: seq<Track>, left: seq<U32>, born: seq<Track>)
    requires Fits(w, m, inp) && Inv(w)
    ensures var w' := StepWith(cfg, w, m, inp);
            && w'.st.tracks == kept + born && w'.gone == w.gone + left
            && w'.issued == w.issued + Free(m.used, |inp.dets|)
            && w'.st.nextId == IdAfter(w.st.nextId, Free(m.used, |inp.dets|))
    ensures w.issued + Free(m.used, |inp.dets|) <= LAST_ID ==>
              Split(Ids(w.st.tracks), Ids(kept), left) && Ids(born) == NewIds(w.issued, Free(m.used, |inp.dets|))
  {
    kept := Kept(cfg, w.st, m, inp.dets, inp.kpts, inp.t).0;
    left := Kept(cfg, w.st, m, inp.dets, inp.kpts, inp.t).1;
    born := Births(inp.dets, m.used, w.st.nextId, inp.kpts, inp.t, |inp.dets|);
    if w.issued + Free(m.used, |inp.dets|) <= LAST_ID {
      KeptIds(cfg, w, m, inp);
      BornIds(cfg, w, m, inp, Free(m.used, |inp.dets|));
    }
  }

  lemma AfterKeeps(cfg: Config, w: World, m: Match, inp: Input)
    requires Fits(w, m, inp) && Inv(w)
    ensures Inv(StepWith(cfg, w, m, inp))
  {
    var kept, left, born := StepParts(cfg, w, m, inp);
    InvFrom(w, StepWith(cfg, w, m, inp), kept, left, born, Free(m.used, |inp.dets|));
  }

  lemma InvFrom(w: World, w': World, kept: seq<Track>, left: seq<U32>, born: seq<Track>, k: nat)
    requires Inv(w) && w'.st.tracks == kept + born && w'.gone == w.gone + left && w'.issued == w.issued + k
    requires w'.st.nextId == IdAfter(w.st.nextId, k)
    requires w.issued + k <= LAST_ID ==> Split(Ids(w.st.tracks), Ids(kept), left) && Ids(born) == NewIds(w.issued, k)
    ensures Inv(w')
  {
    NextIds(w.issued, k);
    if w.issued + k <= LAST_ID {
      LedgerAfter(w, kept, left, born, k);
    }
  }

  lemma LedgerAfter(w: World, kept: seq<Track>, left: seq<U32>, born: seq<Track>, k: nat)
    requires Ledger(Ids(w.st.tracks), w.gone, w.issued) && Split(Ids(w.st.tracks), Ids(kept), left)
    requires Ids(born) == NewIds(w.issued, k)
    ensures Ledger(Ids(kept + born), w.gone + left, w.issued + k)
  {
    IdsConcat(kept, born);
    LedgerStep(Ids(w.st.tracks), w.gone, w.issued, Ids(kept), left, k);
  }

  lemma StepKeeps(cfg: Config, w: World, inp: Input)
    requires Inv(w)
    ensures Inv(Step(cfg, w, inp))
  {
    AfterKeeps(cfg, w, Matching(cfg, w.st.tracks, inp.dets, inp.t), inp);
  }

  lemma {:induction false} RunInv(cfg: Config, inputs: seq<Input>)
    ensures Inv(Run(cfg, inputs))
    decreases |inputs|
  {
    if inputs != [] {
      RunInv(cfg, inputs[..|inputs| - 1]);
      StepKeeps(cfg, Run(cfg, inputs[..|inputs| - 1]), inputs[|inputs| - 1]);
    }
  }

  // ---- Whole runs ----

  /** Until the counter wraps, every id issued so far is either live or was
      reported removed, exactly once, and nothing else is. */
  lemma EveryIdOnce(cfg: Config, inputs: seq<Input>, id: nat)
    requires Run(cfg, inputs).issued <= LAST_ID
    ensures var w := Run(cfg, inputs);
            multiset(Ids(w.st.tracks))[id] + multiset(w.gone)[id] == if 1 <= id <= w.issued then 1 else 0
  {
    RunInv(cfg, inputs);
    var w := Run(cfg, inputs);
    UptoCount(w.issued, id);
    assert (multiset(Ids(w.st.tracks)) + multiset(w.gone))[id] == Upto(w.issued)[id];
  }

  lemma WorldAscends(w: World, i: nat)
    requires Inv(w) && w.issued < LAST_ID && i < |w.st.tracks|
    ensures Ascending(Ids(w.st.tracks)) && 1 <= w.st.tracks[i].id < w.st.nextId
  {
    IssuedBelow(Ids(w.st.tracks), w.gone, w.issued, Ids(w.st.tracks)[i]);
  }

  /** The track list is strictly ascending in id, all ids below next_id_. */
  lemma TracksAscend(cfg: Config, inputs: seq<Input>, i: nat)
    requires Run(cfg, inputs).issued < LAST_ID && i < |Run(cfg, inputs).st.tracks|
    ensures var w := Run(cfg, inputs);
            Ascending(Ids(w.st.tracks)) && 1 <= w.st.tracks[i].id < w.st.nextId
  {
    RunInv(cfg, inputs);
    WorldAscends(Run(cfg, inputs), i);
  }

  lemma {:induction false} RunGrows(cfg: Config, inputs: seq<Input>, more: seq<Input>)
    ensures Run(cfg, inputs).gone <= Run(cfg, inputs + more).gone
    ensures Run(cfg, inputs).issued <= Run(cfg, inputs + more).issued
    decreases |more|
  {
    if more == [] {
      assert inputs + more == inputs;
    } else {
      RunGrows(cfg, inputs, more[..|more| - 1]);
      assert (inputs + more)[..|inputs + more| - 1] == inputs + more[..|more| - 1];
    }
  }

  /** A removed id never comes back and is never reported again. */
  lemma RemovedForGood(cfg: Config, inputs: seq<Input>, more: seq<Input>, id: U32)
    requires id in Run(cfg, inputs).gone && Run(cfg, inputs + more).issued <= LAST_ID
    ensures id !in Ids(Run(cfg, inputs + more).st.tracks) && multiset(Run(cfg, inputs + more).gone)[id] == 1
  {
    RunGrows(cfg, inputs, more);
    EveryIdOnce(cfg, inputs + more, id);
    var w, v := Run(cfg, inputs), Run(cfg, inputs + more);
    var k :| 0 <= k < |w.gone| && w.gone[k] == id;
    assert v.gone[k] == id && id in v.gone;
  }

  // ---- The ids written into the detections ----

  lemma {:induction false} MatchLabelsAt(dets: seq<Det>, ts: seq<Track>, m: Match, n: nat, d: nat)
    requires |m.of| == |ts| && |m.used| == |dets| && OneToOne(m) && n <= |ts| && d < |dets|
    ensures forall i | 0 <= i < n && m.of[i] == d :: MatchLabels(dets, ts, m.of, n)[d].trackId == ts[i].id
    ensures !m.used[d] ==> MatchLabels(dets, ts, m.of, n)[d] == dets[d]
  {
    if n > 0 {
      MatchLabelsAt(dets, ts, m, n - 1, d);
    }
  }

  lemma {:induction false} BirthLabelsAt(dets: seq<Det>, used: seq<bool>, next: U32, n: nat, d: nat)
    requires n <= |dets| == |used| && d < |dets|
    ensures BirthLabels(dets, used, next, n)[d] ==
            if used[d] || d >= n then dets[d] else dets[d].(trackId := IdAfter(next, Free(used, d)))
  {
    if n > 0 {
      BirthLabelsAt(dets, used, next, n - 1, d);
    }
  }

  lemma {:induction false} FreeMonotone(used: seq<bool>, d: nat, n: nat)
    requires d < n <= |used| && !used[d]
    ensures Free(used, d) < Free(used, n)
  {
    if d < n - 1 {
      FreeMonotone(used, d, n - 1);
    }
  }

  /** A matched detection gets its track's id, any other one the next new id. */
  lemma LabelIs(cfg: Config, w: World, inp: Input, d: nat)
    requires d < |inp.dets|
    ensures var m := Matching(cfg, w.st.tracks, inp.dets, inp.t);
            && (forall i | 0 <= i < |w.st.tracks| && m.of[i] == d ::
                  Labels(cfg, w, inp)[d].trackId == w.st.tracks[i].id)
            && (!m.used[d] ==> Labels(cfg, w, inp)[d].trackId == IdAfter(w.st.nextId, Free(m.used, d)))
            && (m.used[d] <==> Taken(m.of, d))
  {
    MatchingOneToOne(cfg, w.st.tracks, inp.dets, inp.t);
    LabelAt(inp.dets, w.st.tracks, Matching(cfg, w.st.tracks, inp.dets, inp.t), w.st.nextId, d);
  }

  lemma LabelAt(dets: seq<Det>, ts: seq<Track>, m: Match, next: U32, d: nat)
    requires |m.of| == |ts| && |m.used| == |dets| && OneToOne(m) && d < |dets|
    ensures forall i | 0 <= i < |ts| && m.of[i] == d :: Labelled(ts, dets, m, next)[d].trackId == ts[i].id
    ensures !m.used[d] ==> Labelled(ts, dets, m, next)[d].trackId == IdAfter(next, Free(m.used, d))
    ensures m.used[d] <==> Taken(m.of, d)
  {
    MatchLabelsAt(dets, ts, m, |ts|, d);
    BirthLabelsAt(MatchLabels(dets, ts, m.of, |ts|), m.used, next, |dets|, d);
  }

  /** The id of detection d, told from the ledger. */
  lemma LabelRange(ids: seq<nat>, gone: seq<nat>, issued: nat, m: Match, k: nat, d: nat, tag: nat)
    requires Ledger(ids, gone, issued) && |m.of| == |ids| && d < |m.used| && k == Free(m.used, |m.used|)
    requires issued + k <= LAST_ID && (m.used[d] <==> Taken(m.of, d))
    requires forall i | 0 <= i < |ids| && m.of[i] == d :: tag == ids[i]
    requires !m.used[d] ==> tag == IdAfter(IdAfter(1, issued), Free(m.used, d))
    ensures m.used[d] ==> 1 <= tag <= issued
    ensures !m.used[d] ==> tag == issued + 1 + Free(m.used, d)
  {
    if m.used[d] {
      var i :| 0 <= i < |m.of| && m.of[i] == d;
      IssuedBelow(ids, gone, issued, ids[i]);
    } else {
      FreeMonotone(m.used, d, |m.used|);
      NextIds(issued, Free(m.used, d));
      NotWrapped(issued + Free(m.used, d));
    }
  }

  lemma NotWrapped(k: nat)
    requires k < LAST_ID
    ensures IdAfter(1, k) == k + 1
  {
  }

  /** After an update that does not wrap the counter, all detections carry
      distinct, non-zero ids. */
  lemma LabelsDistinct(cfg: Config, inputs: seq<Input>, inp: Input, d: nat, e: nat)
    requires Step(cfg, Run(cfg, inputs), inp).issued <= LAST_ID && d < e < |inp.dets|
    ensures var ds := Labels(cfg, Run(cfg, inputs), inp);
            ds[d].trackId != 0 && ds[e].trackId != 0 && ds[d].trackId != ds[e].trackId
  {
    RunInv(cfg, inputs);
    var w := Run(cfg, inputs);
    MatchingOneToOne(cfg, w.st.tracks, inp.dets, inp.t);
    LabelsWith(w, Matching(cfg, w.st.tracks, inp.dets, inp.t), inp, d, e);
  }

  lemma LabelsWith(w: World, m: Match, inp: Input, d: nat, e: nat)
    requires Fits(w, m, inp) && OneToOne(m) && Inv(w) && d < e < |inp.dets|
    requires w.issued + Free(m.used, |inp.dets|) <= LAST_ID
    ensures var ds := Labelled(w.st.tracks, inp.dets, m, w.st.nextId);
            ds[d].trackId != 0 && ds[e].trackId != 0 && ds[d].trackId != ds[e].trackId
  {
    var ds := Labelled(w.st.tracks, inp.dets, m, w.st.nextId);
    LabelAt(inp.dets, w.st.tracks, m, w.st.nextId, d);
    LabelAt(inp.dets, w.st.tracks, m, w.st.nextId, e);
    TwoLabels(Ids(w.st.tracks), w.gone, w.issued, m, d, e, ds[d].trackId, ds[e].trackId);
  }

  lemma TwoLabels(ids: seq<nat>, gone: seq<nat>, issued: nat, m: Match, d: nat, e: nat, x: nat, y: nat)
    requires Ledger(ids, gone, issued) && |m.of| == |ids| && d < e < |m.used| && OneToOne(m)
    requires issued + Free(m.used, |m.used|) <= LAST_ID
    requires forall i | 0 <= i < |ids| && m.of[i] == d :: x == ids[i]
    requires forall i | 0 <= i < |ids| && m.of[i] == e :: y == ids[i]
    requires !m.used[d] ==> x == IdAfter(IdAfter(1, issued), Free(m.used, d))
    requires !m.used[e] ==> y == IdAfter(IdAfter(1, issued), Free(m.used, e))
    requires (m.used[d] <==> Taken(m.of, d)) && (m.used[e] <==> Taken(m.of, e))
    ensures x != 0 && y != 0 && x != y
  {
    LabelRange(ids, gone, issued, m, Free(m.used, |m.used|), d, x);
    LabelRange(ids, gone, issued, m, Free(m.used, |m.used|), e, y);
    if m.used[d] && m.used[e] {
      var i :| 0 <= i < |m.of| && m.of[i] == d;
      var j :| 0 <= j < |m.of| && m.of[j] == e;
      assert i < j || j < i;
    } else if !m.used[d] && !m.used[e] {
      FreeMonotone(m.used, d, e);
    }
  }

  /** The detection that gets the k-th new id of an update. */
  lemma {:induction false} NthFree(used: seq<bool>, n: nat, k: nat) returns (d: nat)
    requires n <= |used| && k < Free(used, n)
    ensures d < n && !used[d] && Free(used, d) == k
  {
    d := n - 1;
    if used[n - 1] || k < Free(used, n - 1) {
      d := NthFree(used, n - 1, k);
    }
  }

  ghost predicate AllNonZero(ds: seq<Det>) {
    forall d | 0 <= d < |ds| :: ds[d].trackId != 0
  }

  lemma ZeroWith(w: World, m: Match, inp: Input)
    requires Fits(w, m, inp) && OneToOne(m) && Inv(w) && w.issued <= LAST_ID
    ensures w.issued + Free(m.used, |inp.dets|) <= LAST_ID <==>
            AllNonZero(Labelled(w.st.tracks, inp.dets, m, w.st.nextId))
  {
    var k := Free(m.used, |inp.dets|);
    var ds := Labelled(w.st.tracks, inp.dets, m, w.st.nextId);
    if w.issued + k <= LAST_ID {
      forall d | 0 <= d < |inp.dets|
        ensures ds[d].trackId != 0
      {
        LabelAt(inp.dets, w.st.tracks, m, w.st.nextId, d);
        LabelRange(Ids(w.st.tracks), w.gone, w.issued, m, k, d, ds[d].trackId);
      }
    } else {
      var d := NthFree(m.used, |inp.dets|, LAST_ID - w.issued);
      LabelAt(inp.dets, w.st.tracks, m, w.st.nextId, d);
      NextIds(w.issued, LAST_ID - w.issued);
      assert IdAfter(1, LAST_ID) == 0 && ds[d].trackId == 0;
    }
  }

  lemma ZeroStep(cfg: Config, w: World, inp: Input)
    requires Inv(w) && w.issued <= LAST_ID
    ensures Step(cfg, w, inp).issued <= LAST_ID <==>
            AllNonZero(Labels(cfg, w, inp))
  {
    MatchingOneToOne(cfg, w.st.tracks, inp.dets, inp.t);
    ZeroWith(w, Matching(cfg, w.st.tracks, inp.dets, inp.t), inp);
  }

  /** Exactly the update that passes 2^32 - 1 issued ids hands out id 0, the
      id that means "not associated". */
  lemma ZeroIffWrapped(cfg: Config, inputs: seq<Input>, inp: Input)
    requires Run(cfg, inputs).issued <= LAST_ID
    ensures Step(cfg, Run(cfg, inputs), inp).issued <= LAST_ID <==>
            AllNonZero(Labels(cfg, Run(cfg, inputs), inp))
  {
    RunInv(cfg, inputs);
    ZeroStep(cfg, Run(cfg, inputs), inp);
  }

  /** The first frame hands out id 0 exactly when it has 2^32 detections or more. */
  lemma FirstFrameWraps(cfg: Config, inp: Input)
    ensures AllNonZero(Labels(cfg, Run(cfg, []), inp)) <==> |inp.dets| <= LAST_ID
  {
    FirstFrame(cfg, inp);
    ZeroIffWrapped(cfg, [], inp);
  }

  // ---- Misses ----

  ghost predicate MissesOk(cfg: Config, ts: seq<Track>) {
    forall i | 0 <= i < |ts| :: ts[i].misses == 0 || ts[i].misses <= cfg.maxMisses
  }

  lemma {:induction false} SurviveMisses(cfg: Config, ts: seq<Track>, of: seq<int>, t: real)
    requires |of| == |ts| && MissesOk(cfg, ts) && cfg.maxMisses < 0x7FFF_FFFF
    ensures MissesOk(cfg, Survive(cfg, ts, of, t).0)
    decreases |ts|
  {
    if ts != [] {
      SurviveMisses(cfg, ts[1..], of[1..], t);
      assert ts[0].misses == 0 || ts[0].misses <= cfg.maxMisses;
    }
  }

  lemma {:induction false} RefreshedMisses(cfg: Config, ts: seq<Track>, of: seq<int>, dets: seq<Det>, kpts: seq<Kpt>,
                                           t: real, dt: real, n: nat)
    requires n <= |of| == |ts| && (forall i | 0 <= i < |ts| :: of[i] < |dets|) && MissesOk(cfg, ts)
    ensures MissesOk(cfg, Refreshed(cfg, ts, of, dets, kpts, t, dt, n))
  {
    if n > 0 {
      RefreshedMisses(cfg, ts, of, dets, kpts, t, dt, n - 1);
    }
  }

  lemma {:induction false} BirthMisses(dets: seq<Det>, used: seq<bool>, next: U32, kpts: seq<Kpt>, t: real, n: nat)
    requires n <= |dets| == |used|
    ensures forall k | 0 <= k < Free(used, n) :: Births(dets, used, next, kpts, t, n)[k].misses == 0
  {
    if n > 0 {
      BirthMisses(dets, used, next, kpts, t, n - 1);
    }
  }

  /** No track of any run has been missed more than max_misses times in a row;
      a negative max_misses keeps no missed track at all. */
  lemma {:induction false} MissesBounded(cfg: Config, inputs: seq<Input>)
    requires cfg.maxMisses < 0x7FFF_FFFF
    ensures MissesOk(cfg, Run(cfg, inputs).st.tracks)
    decreases |inputs|
  {
    if inputs != [] {
      MissesBounded(cfg, inputs[..|inputs| - 1]);
      var w, inp := Run(cfg, inputs[..|inputs| - 1]), inputs[|inputs| - 1];
      MissesStep(cfg, w, Matching(cfg, w.st.tracks, inp.dets, inp.t), inp);
    }
  }

  lemma MissesStep(cfg: Config, w: World, m: Match, inp: Input)
    requires Fits(w, m, inp) && cfg.maxMisses < 0x7FFF_FFFF && MissesOk(cfg, w.st.tracks)
    ensures MissesOk(cfg, After(cfg, w.st, m, inp.dets, inp.kpts, inp.t).tracks)
  {
    var ts, dt := w.st.tracks, Elapsed(w.st, inp.t);
    RefreshedMisses(cfg, ts, m.of, inp.dets, inp.kpts, inp.t, dt, |m.of|);
    SurviveMisses(cfg, Refreshed(cfg, ts, m.of, inp.dets, inp.kpts, inp.t, dt, |m.of|), m.of, inp.t);
    BirthMisses(inp.dets, m.used, w.st.nextId, inp.kpts, inp.t, |inp.dets|);
  }

  /** One track, missed k times in a row since time t. */
  ghost predicate Coasting(ts: seq<Track>, k: nat, t: real) {
    |ts| == 1 && ts[0].misses == k && ts[0].lastSeen == t
  }

  /** Updates at one and the same time never expire a track by time, and at the
      largest max_misses no count does either. */
  lemma CoastOn(cfg: Config, w: World, k: nat, t: real)
    requires cfg.maxMisses == 0x7FFF_FFFF && Coasting(w.st.tracks, k, t) && k < 0x8000_0000
    ensures Coasting(Step(cfg, w, Input([], [], t)).st.tracks, k + 1, t)
  {
    var m := Matching(cfg, w.st.tracks, [], t);
    CoastWith(cfg, w, m, k, t);
  }

  lemma CoastWith(cfg: Config, w: World, m: Match, k: nat, t: real)
    requires cfg.maxMisses == 0x7FFF_FFFF && Coasting(w.st.tracks, k, t) && k < 0x8000_0000
    requires Fits(w, m, Input([], [], t)) && m.of[0] == -1
    ensures Coasting(StepWith(cfg, w, m, Input([], [], t)).st.tracks, k + 1, t)
  {
    var ts := w.st.tracks;
    assert Refreshed(cfg, ts, m.of, [], [], t, Elapsed(w.st, t), 1) == ts;
    assert ts[1..] == [] && m.of[1..] == [];
    assert Survive(cfg, ts, m.of, t).0 == [Aged(ts[0])] + [];
    assert Births([], m.used, w.st.nextId, [], t, 0) == [];
  }

  lemma FirstFrame(cfg: Config, inp: Input)
    ensures var w := Step(cfg, Run(cfg, []), inp);
            && w.issued == |inp.dets| && |w.st.tracks| == |inp.dets|
            && forall d | 0 <= d < |inp.dets| :: w.st.tracks[d].misses == 0 && w.st.tracks[d].lastSeen == inp.t
  {
    var m := Matching(cfg, [], inp.dets, inp.t);
    MatchingOneToOne(cfg, [], inp.dets, inp.t);
    AllFree(m.used, |m.used|);
    BirthsAt(inp.dets, m.used, 1, inp.kpts, inp.t, |inp.dets|);
    var born := Births(inp.dets, m.used, 1, inp.kpts, inp.t, |inp.dets|);
    assert [] + born == born;
  }

  lemma {:induction false} AllFree(used: seq<bool>, n: nat)
    requires n <= |used| && forall d | 0 <= d < |used| :: !used[d]
    ensures Free(used, n) == n
  {
    if n > 0 {
      AllFree(used, n - 1);
    }
  }

  lemma {:induction false} BirthsAt(dets: seq<Det>, used: seq<bool>, next: U32, kpts: seq<Kpt>, t: real, n: nat)
    requires n <= |dets| == |used|
    ensures forall b | 0 <= b < Free(used, n) ::
              var tr := Births(dets, used, next, kpts, t, n)[b];
              tr.misses == 0 && tr.lastSeen == t
  {
    if n > 0 {
      BirthsAt(dets, used, next, kpts, t, n - 1);
    }
  }

  /** One detection, then k frames without any, all at time t. */
  function Lost(det: Det, t: real, k: nat): (inputs: seq<Input>)
    ensures |inputs| == k + 1
  {
    if k == 0 then [Input([det], [], t)] else Lost(det, t, k - 1) + [Input([], [], t)]
  }

  lemma LostStart(cfg: Config, det: Det, t: real)
    ensures Coasting(Run(cfg, Lost(det, t, 0)).st.tracks, 0, t)
  {
    var inp := Input([det], [], t);
    assert Lost(det, t, 0) == [inp] && [inp][..0] == [];
    assert Run(cfg, [inp]) == Step(cfg, Run(cfg, []), inp);
    FirstFrame(cfg, inp);
  }

  lemma LostStep(cfg: Config, det: Det, t: real, k: nat)
    requires k > 0
    ensures Run(cfg, Lost(det, t, k)) == Step(cfg, Run(cfg, Lost(det, t, k - 1)), Input([], [], t))
  {
    var inputs := Lost(det, t, k);
    assert inputs[..k] == Lost(det, t, k - 1) && inputs[k] == Input([], [], t);
  }

  ghost predicate LostFor(cfg: Config, det: Det, t: real, k: nat) {
    Coasting(Run(cfg, Lost(det, t, k)).st.tracks, k, t)
  }

  lemma LostNext(cfg: Config, det: Det, t: real, k: nat, n: nat)
    requires cfg.maxMisses == 0x7FFF_FFFF && n == k + 1 <= 0x8000_0000 && LostFor(cfg, det, t, k)
    ensures LostFor(cfg, det, t, n)
  {
    LostStep(cfg, det, t, n);
    CoastOn(cfg, Run(cfg, Lost(det, t, k)), k, t);
  }

  lemma {:induction false} LostRun(cfg: Config, det: Det, t: real, k: nat)
    requires cfg.maxMisses == 0x7FFF_FFFF && k <= 0x8000_0000
    ensures LostFor(cfg, det, t, k)
  {
    if k == 0 {
      LostStart(cfg, det, t);
    } else {
      LostRun(cfg, det, t, k - 1);
      LostNext(cfg, det, t, k - 1, k);
    }
  }

  /** The limit on misses holds in every run exactly when it is not the largest
      32-bit value: then the 2^31-th miss in a row reads as a negative number. */
  lemma MissesOkIff(cfg: Config)
    ensures (forall inputs :: MissesOk(cfg, Run(cfg, inputs).st.tracks)) <==> cfg.maxMisses < 0x7FFF_FFFF
  {
    if cfg.maxMisses < 0x7FFF_FFFF {
      forall inputs
        ensures MissesOk(cfg, Run(cfg, inputs).st.tracks)
      {
        MissesBounded(cfg, inputs);
      }
    } else {
      LargestLimitFails(cfg, Det(0.0, 0.0, 0.0, 0.0, 0.0, 0, 0, 0, 0), 0.0, 0x8000_0000);
    }
  }

  /** At the largest limit any detection that is then lost gets past it. */
  lemma LargestLimitFails(cfg: Config, det: Det, t: real, k: nat)
    requires cfg.maxMisses == 0x7FFF_FFFF && k == 0x8000_0000
    ensures !MissesOk(cfg, Run(cfg, Lost(det, t, k)).st.tracks)
  {
    LostRun(cfg, det, t, k);
    assert Run(cfg, Lost(det, t, k)).st.tracks[0].misses == k;
  }
}
