/** Command de-duplication (vision_base/control.py, ControlPlane.handle): a
    bounded map of recently handled request ids with their acks. Executing a
    command is a parameter: the ack it would produce. */
module Commands {
  import opened Wrappers

  datatype Id = Id(text: string)

  datatype Ack = Ack(timestamp: int, body: string)

  datatype Request = Request(addressed: bool, id: Option<Id>)

  /** OrderedDict: entries in insertion order, the next to be evicted first. */
  type Seen = seq<(Id, Ack)>

  function Find(seen: Seen, id: Id): (i: nat)
    ensures i <= |seen| && (i < |seen| ==> seen[i].0 == id)
    ensures forall k | 0 <= k < i :: seen[k].0 != id
  {
    if seen == [] || seen[0].0 == id then 0 else 1 + Find(seen[1..], id)
  }

  predicate Answered(req: Request) {
    req.addressed && req.id.Some? && req.id.value.text != ""
  }

  function Without(seen: Seen, i: nat): Seen
    requires i < |seen|
  {
    seen[..i] + seen[i + 1..]
  }

  /** The map after request id; `built` is the ack if the command is executed. */
  function Remember(seen: Seen, size: nat, id: Id, built: Ack): Seen {
    var i := Find(seen, id);
    if i < |seen| then Without(seen, i) + [seen[i]]
    else
      var all := seen + [(id, built)];
      if |all| > size then all[1..] else all
  }

  class ControlPlane {
    const size: nat
    var seen: Seen

    constructor (size: nat)
      ensures seen == [] && this.size == size
    {
      this.size := size;
      seen := [];
    }

    /** Handle one request at time now. A redelivery of a remembered id is
        answered with its stored ack under the new time, and not executed. */
    method Handle(req: Request, now: int, built: Ack) returns (ack: Option<Ack>, executed: bool)
      modifies this
      ensures !Answered(req) ==> ack == None && !executed && seen == old(seen)
      ensures Answered(req) ==> seen == Remember(old(seen), size, req.id.value, built)
      ensures Answered(req) ==> (executed <==> forall k | 0 <= k < |old(seen)| :: old(seen)[k].0 != req.id.value)
      ensures Answered(req) && executed ==> ack == Some(built)
      ensures Answered(req) && !executed ==>
                exists k | 0 <= k < |old(seen)| :: old(seen)[k].0 == req.id.value &&
                    ack == Some(old(seen)[k].1.(timestamp := now))
    {
      ack, executed := None, false;
      if !req.addressed || req.id.None? || req.id.value.text == "" {
        return;
      }
      var id := req.id.value;
      var i := Find(seen, id);
      if i < |seen| {
        ack := Some(seen[i].1.(timestamp := now));
        seen := seen[..i] + seen[i + 1..] + [seen[i]];
        return;
      }
      executed, ack := true, Some(built);
      seen := seen + [(id, built)];
      if |seen| > size {
        seen := seen[1..];
      }
    }
  }

  // ---- The unbounded log it refines ----

  function Remove(ids: seq<Id>, id: Id): seq<Id> {
    if ids == [] then [] else Remove(ids[..|ids| - 1], id) + if ids[|ids| - 1] == id then [] else [ids[|ids| - 1]]
  }

  /** The distinct ids of a log, the most recently handled last. */
  function Recency(log: seq<Id>): seq<Id> {
    if log == [] then [] else Remove(Recency(log[..|log| - 1]), log[|log| - 1]) + [log[|log| - 1]]
  }

  lemma {:induction false} RemoveMembers(ids: seq<Id>, id: Id)
    ensures forall x :: x in Remove(ids, id) <==> x in ids && x != id
  {
    if ids != [] {
      RemoveMembers(ids[..|ids| - 1], id);
    }
  }

  lemma {:induction false} RecencyMembers(log: seq<Id>)
    ensures forall x :: x in Recency(log) <==> x in log
  {
    if log != [] {
      RecencyMembers(log[..|log| - 1]);
      RemoveMembers(Recency(log[..|log| - 1]), log[|log| - 1]);
    }
  }

  function Ids(seen: Seen): (r: seq<Id>)
    ensures |r| == |seen| && forall k | 0 <= k < |seen| :: r[k] == seen[k].0
  {
    seq(|seen|, k requires 0 <= k < |seen| => seen[k].0)
  }

  ghost predicate NoRepeat(s: seq<Id>) {
    forall i, j | 0 <= i < j < |s| :: s[i] != s[j]
  }

  lemma {:induction false} RemoveAbsent(s: seq<Id>, id: Id)
    requires id !in s
    ensures Remove(s, id) == s
  {
    if s != [] {
      RemoveAbsent(s[..|s| - 1], id);
    }
  }

  lemma {:induction false} RemoveAt(s: seq<Id>, i: nat)
    requires i < |s| && NoRepeat(s)
    ensures Remove(s, s[i]) == s[..i] + s[i + 1..]
  {
    var n := |s| - 1;
    if i < n {
      RemoveAt(s[..n], i);
      assert s[..n][..i] == s[..i] && s[..n][i + 1..] + [s[n]] == s[i + 1..];
    } else {
      RemoveAbsent(s[..n], s[n]);
    }
  }

  lemma {:induction false} RemoveSplit(a: seq<Id>, b: seq<Id>, id: Id)
    ensures Remove(a + b, id) == Remove(a, id) + Remove(b, id)
    decreases |b|
  {
    if b == [] {
      assert a + b == a;
    } else {
      var n := |b| - 1;
      RemoveSplit(a, b[..n], id);
      assert (a + b)[..|a + b| - 1] == a + b[..n];
    }
  }

  lemma {:induction false} RemoveNoRepeat(s: seq<Id>, id: Id)
    requires NoRepeat(s)
    ensures NoRepeat(Remove(s, id))
  {
    if s != [] {
      RemoveNoRepeat(s[..|s| - 1], id);
      RemoveMembers(s[..|s| - 1], id);
      assert s[|s| - 1] !in s[..|s| - 1];
    }
  }

  lemma AppendNew(s: seq<Id>, id: Id)
    requires NoRepeat(s) && id !in s
    ensures NoRepeat(s + [id])
  {
  }

  lemma {:induction false} RecencyNoRepeat(log: seq<Id>)
    ensures NoRepeat(Recency(log))
  {
    if log != [] {
      RecencyNoRepeat(log[..|log| - 1]);
      RemoveMembers(Recency(log[..|log| - 1]), log[|log| - 1]);
      RemoveNoRepeat(Recency(log[..|log| - 1]), log[|log| - 1]);
      AppendNew(Remove(Recency(log[..|log| - 1]), log[|log| - 1]), log[|log| - 1]);
    }
  }

  lemma LastOf(front: seq<Id>, z: seq<Id>, n: nat)
    requires |z| >= n || front == []
    ensures Suffix(front + z, n) == Suffix(z, n)
  {
    if front == [] {
      assert front + z == z;
    } else {
      var k := |front| + |z| - n;
      assert (front + z)[k..] == z[|z| - n..];
    }
  }

  lemma Assoc(a: seq<Id>, b: seq<Id>, c: seq<Id>)
    ensures (a + b) + c == a + (b + c)
  {
  }

  lemma SplitLast(r: seq<Id>, n: nat) returns (front: seq<Id>)
    ensures r == front + Suffix(r, n) && (front == [] || |Suffix(r, n)| == n)
  {
    front := r[..|r| - |Suffix(r, n)|];
  }

  /** One more request: the last n of the new recency list, told from the old
      last n. */
  lemma LastStep(r: seq<Id>, id: Id, n: nat)
    requires NoRepeat(r)
    ensures var last, next := Suffix(r, n), Suffix(Remove(r, id) + [id], n);
            next == if id in last then Remove(last, id) + [id] else Suffix(last + [id], n)
  {
    var front := SplitLast(r, n);
    RemoveSplit(front, Suffix(r, n), id);
    LastSplit(front, Suffix(r, n), id, n);
  }

  lemma LastPart(front: seq<Id>, last: seq<Id>)
    requires NoRepeat(front + last)
    ensures NoRepeat(last)
  {
    assert forall k | 0 <= k < |last| :: (front + last)[|front| + k] == last[k];
  }

  lemma LastSplit(front: seq<Id>, last: seq<Id>, id: Id, n: nat)
    requires NoRepeat(front + last) && (front == [] || |last| == n) && |last| <= n
    ensures Suffix((Remove(front, id) + Remove(last, id)) + [id], n) ==
            if id in last then Remove(last, id) + [id] else Suffix(last + [id], n)
  {
    var f, l := Remove(front, id), Remove(last, id);
    Assoc(f, l, [id]);
    assert front == [] ==> f == [];
    if id in last {
      var i :| 0 <= i < |last| && last[i] == id;
      LastPart(front, last);
      RemoveAt(last, i);
      assert |l + [id]| == |last|;
      LastOf(f, l + [id], n);
    } else {
      RemoveAbsent(last, id);
      LastOf(f, last + [id], n);
    }
  }

  lemma IdsMoved(seen: Seen, i: nat)
    requires i < |seen|
    ensures Ids(Without(seen, i) + [seen[i]]) == Ids(seen)[..i] + Ids(seen)[i + 1..] + [seen[i].0]
  {
  }

  lemma RememberIds(seen: Seen, size: nat, id: Id, built: Ack)
    requires NoRepeat(Ids(seen)) && |seen| <= size
    ensures Ids(Remember(seen, size, id, built)) ==
            if id in Ids(seen) then Remove(Ids(seen), id) + [id] else Suffix(Ids(seen) + [id], size)
  {
    var i := Find(seen, id);
    FindIds(seen, id);
    if i < |seen| {
      RemoveAt(Ids(seen), i);
      IdsMoved(seen, i);
    } else {
      IdsAdded(seen, size, (id, built));
    }
  }

  lemma IdsAdded(seen: Seen, size: nat, e: (Id, Ack))
    requires |seen| <= size
    ensures var all := seen + [e];
            Ids(if |all| > size then all[1..] else all) == Suffix(Ids(seen) + [e.0], size)
  {
    var all := seen + [e];
    assert Ids(all) == Ids(seen) + [e.0];
    assert |all| > size ==> Ids(all[1..]) == Ids(all)[1..];
  }

  lemma FindIds(seen: Seen, id: Id)
    ensures id in Ids(seen) <==> Find(seen, id) < |seen|
    ensures Find(seen, id) < |seen| ==> Ids(seen)[Find(seen, id)] == id
  {
  }

  /** The map after a whole log of answered requests with the acks their execution builds. */
  function Replay(log: seq<(Id, Ack)>, size: nat): Seen {
    if log == [] then [] else Remember(Replay(log[..|log| - 1], size), size, log[|log| - 1].0, log[|log| - 1].1)
  }

  lemma LastNoRepeat(s: seq<Id>, n: nat)
    requires NoRepeat(s)
    ensures NoRepeat(Suffix(s, n))
  {
  }

  lemma RecentStep(seen: Seen, r: seq<Id>, size: nat, id: Id, built: Ack)
    requires NoRepeat(r) && Ids(seen) == Suffix(r, size)
    ensures Ids(Remember(seen, size, id, built)) == Suffix(Remove(r, id) + [id], size)
  {
    LastNoRepeat(r, size);
    RememberIds(seen, size, id, built);
    LastStep(r, id, size);
  }

  lemma IdsFront(log: seq<(Id, Ack)>)
    requires log != []
    ensures Ids(log)[..|log| - 1] == Ids(log[..|log| - 1]) && Ids(log)[|log| - 1] == log[|log| - 1].0
  {
  }

  /** `_seen` always holds exactly the most recently handled distinct ids, in
      recency order, at most `size` of them. */
  lemma {:induction false} SeenIsRecent(log: seq<(Id, Ack)>, size: nat)
    ensures Ids(Replay(log, size)) == Suffix(Recency(Ids(log)), size)
  {
    if log != [] {
      var n := |log| - 1;
      SeenIsRecent(log[..n], size);
      RecencyNoRepeat(Ids(log[..n]));
      IdsFront(log);
      RecentStep(Replay(log[..n], size), Recency(Ids(log[..n])), size, log[n].0, log[n].1);
    }
  }

  function Minus(s: seq<Id>, b: seq<Id>): seq<Id> {
    if b == [] then s else Remove(Minus(s, b[..|b| - 1]), b[|b| - 1])
  }

  lemma MinusLast(s: seq<Id>, b: seq<Id>)
    requires b != []
    ensures Minus(s, b) == Remove(Minus(s, b[..|b| - 1]), b[|b| - 1])
  {
  }

  lemma SplitStep(m: seq<Id>, r: seq<Id>, id: Id)
    ensures Remove(m + r, id) + [id] == Remove(m, id) + (Remove(r, id) + [id])
  {
    RemoveSplit(m, r, id);
    Assoc(Remove(m, id), Remove(r, id), [id]);
  }

  lemma RecencyLast(log: seq<Id>, front: seq<Id>, id: Id)
    requires log == front + [id]
    ensures Recency(log) == Remove(Recency(front), id) + [id]
  {
    assert log[..|log| - 1] == front;
  }

  lemma RecencySplitStep(a: seq<Id>, b: seq<Id>, front: seq<Id>, id: Id)
    requires b == front + [id] && Recency(a + front) == Minus(Recency(a), front) + Recency(front)
    requires Minus(Recency(a), b) == Remove(Minus(Recency(a), front), id)
    ensures Recency(a + b) == Minus(Recency(a), b) + Recency(b)
  {
    Assoc(a, front, [id]);
    RecencyLast(a + b, a + front, id);
    RecencyLast(b, front, id);
    SplitStep(Minus(Recency(a), front), Recency(front), id);
  }

  lemma {:induction false} RecencySplit(a: seq<Id>, b: seq<Id>)
    ensures Recency(a + b) == Minus(Recency(a), b) + Recency(b)
    decreases |b|
  {
    if b == [] {
      assert a + b == a;
    } else {
      var n := |b| - 1;
      RecencySplit(a, b[..n]);
      MinusLast(Recency(a), b);
      assert b == b[..n] + [b[n]];
      RecencySplitStep(a, b, b[..n], b[n]);
    }
  }

  lemma {:induction false} MinusKeepsLast(s: seq<Id>, b: seq<Id>)
    requires s != [] && s[|s| - 1] !in b
    ensures Minus(s, b) != [] && Minus(s, b)[|Minus(s, b)| - 1] == s[|s| - 1]
    decreases |b|
  {
    if b != [] {
      MinusKeepsLast(s, b[..|b| - 1]);
      assert b[|b| - 1] in b && forall x | x in b[..|b| - 1] :: x in b;
    }
  }

  lemma {:induction false} SetSize(s: seq<Id>)
    requires NoRepeat(s)
    ensures |set x | x in s| == |s|
  {
    if s != [] {
      var n := |s| - 1;
      SetSize(s[..n]);
      assert (set x | x in s) == (set x | x in s[..n]) + {s[n]};
    }
  }

  /** A repeated request is executed again exactly when at least `size` other
      distinct ids were handled since the id was last handled. */
  lemma ReexecutedIff(before: seq<(Id, Ack)>, id: Id, ack: Ack, between: seq<(Id, Ack)>, size: nat)
    requires id !in Ids(between)
    ensures id !in Ids(Replay(before + [(id, ack)] + between, size)) <==> |set x | x in Ids(between)| >= size
  {
    var a, b := Ids(before) + [id], Ids(between);
    assert Ids(before + [(id, ack)] + between) == a + b;
    SeenIsRecent(before + [(id, ack)] + between, size);
    RecentIff(a, b, id, size);
    DistinctCount(b);
  }

  lemma DistinctCount(b: seq<Id>)
    ensures |Recency(b)| == |set x | x in b|
  {
    RecencyNoRepeat(b);
    SetSize(Recency(b));
    RecencyMembers(b);
    assert (set x | x in Recency(b)) == (set x | x in b);
  }

  lemma RecentIff(a: seq<Id>, b: seq<Id>, id: Id, size: nat)
    requires a != [] && a[|a| - 1] == id && id !in b
    ensures id in Suffix(Recency(a + b), size) <==> |Recency(b)| < size
  {
    RecencySplit(a, b);
    RecencyEnd(a);
    MinusKeepsLast(Recency(a), b);
    RecencyNoRepeat(a + b);
    InLast(Minus(Recency(a), b), Recency(b), id, size);
  }

  lemma RecencyEnd(a: seq<Id>)
    requires a != []
    ensures Recency(a) != [] && Recency(a)[|Recency(a)| - 1] == a[|a| - 1]
  {
    RecencyLast(a, a[..|a| - 1], a[|a| - 1]);
  }

  lemma InLast(m: seq<Id>, r: seq<Id>, id: Id, size: nat)
    requires m != [] && m[|m| - 1] == id && NoRepeat(m + r)
    ensures id in Suffix(m + r, size) <==> |r| < size
  {
    var s := m + r;
    assert s[|m| - 1] == id;
    if |r| < size {
      assert |s| > size ==> s[|s| - size..][|m| - 1 - (|s| - size)] == id;
    } else {
      forall k | |m| <= k < |s|
        ensures s[k] != id
      {
      }
    }
  }

  ghost predicate Executed(log: seq<(Id, Ack)>, size: nat, j: nat)
    requires j < |log|
  {
    log[j].0 !in Ids(Replay(log[..j], size))
  }

  /** Request j executed, gave this entry, and no later one with its id did. */
  ghost predicate LastExecution(log: seq<(Id, Ack)>, size: nat, j: nat, entry: (Id, Ack)) {
    && j < |log| && log[j] == entry && Executed(log, size, j)
    && forall i | j < i < |log| && log[i].0 == entry.0 :: !Executed(log, size, i)
  }

  lemma RememberMembers(seen: Seen, size: nat, id: Id, built: Ack, e: (Id, Ack))
    requires e in Remember(seen, size, id, built)
    ensures e in seen || (e == (id, built) && id !in Ids(seen))
  {
    FindIds(seen, id);
  }

  lemma OneMore(log: seq<(Id, Ack)>, size: nat, j: nat, e: (Id, Ack))
    requires log != []
    requires LastExecution(log[..|log| - 1], size, j, e) && e in Replay(log[..|log| - 1], size)
    ensures LastExecution(log, size, j, e)
  {
    var n := |log| - 1;
    forall i | 0 <= i < n
      ensures Executed(log, size, i) <==> Executed(log[..n], size, i)
    {
      SameExecution(log, size, i);
    }
    StillRemembered(Replay(log[..n], size), e);
  }

  lemma SameExecution(log: seq<(Id, Ack)>, size: nat, i: nat)
    requires i < |log| - 1
    ensures Executed(log, size, i) <==> Executed(log[..|log| - 1], size, i)
  {
    assert log[..|log| - 1][..i] == log[..i];
  }

  lemma StillRemembered(seen: Seen, e: (Id, Ack))
    requires e in seen
    ensures e.0 in Ids(seen)
  {
    var k :| 0 <= k < |seen| && seen[k] == e;
    assert Ids(seen)[k] == e.0;
  }

  /** A stored ack is the one built when its id was last executed. */
  lemma {:induction false} StoredAckIsLastExecution(log: seq<(Id, Ack)>, size: nat, e: (Id, Ack)) returns (j: nat)
    requires e in Replay(log, size)
    ensures LastExecution(log, size, j, e)
    decreases |log|
  {
    var n := |log| - 1;
    RememberMembers(Replay(log[..n], size), size, log[n].0, log[n].1, e);
    if e in Replay(log[..n], size) {
      j := StoredAckIsLastExecution(log[..n], size, e);
      OneMore(log, size, j, e);
    } else {
      j := n;
    }
  }
}
