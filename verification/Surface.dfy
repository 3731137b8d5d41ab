/** The stable-surface comparison (tools/vb_stable_surface.py): when comparing
    a recorded snapshot with the current one reports no errors. */
module Surface {
  import opened Wrappers

  /** Scalars are JSON strings, numbers, booleans and null, told apart by
      Python's equality; an object's names are distinct. */
  datatype Json = Scalar(value: int) | Arr(items: seq<Json>) | Obj(fields: seq<Field>)

  datatype Field = Field(name: string, value: Json)

  const UNORDERED := {"required", "enum", "type"}

  /** The text behind the last dot, as path.rsplit(".", 1)[-1]. */
  function LastSegment(path: string): string {
    if path == "" then ""
    else if path[|path| - 1] == '.' then ""
    else LastSegment(path[..|path| - 1]) + [path[|path| - 1]]
  }

  function Digits(n: nat): string {
    (if n < 10 then "" else Digits(n / 10)) + ["0123456789"[n % 10]]
  }

  /** The last segment of `path[i]`, from that of `path`. */
  function ItemKey(key: string, i: nat): string {
    key + "[" + Digits(i) + "]"
  }

  lemma ItemKeyOrdered(key: string, i: nat)
    ensures ItemKey(key, i) !in UNORDERED
  {
    var k := ItemKey(key, i);
    assert k[|k| - 1] == ']';
    assert "required"[7] == 'd' && "enum"[3] == 'm' && "type"[3] == 'e';
  }

  function Lookup(fs: seq<Field>, name: string): Option<Json> {
    if fs == [] then None
    else if fs[0].name == name then Some(fs[0].value)
    else Lookup(fs[1..], name)
  }

  lemma {:induction false} LookupField(fs: seq<Field>, name: string) returns (i: nat)
    requires Lookup(fs, name).Some?
    ensures i < |fs| && fs[i] == Field(name, Lookup(fs, name).value)
  {
    if fs[0].name == name {
      i := 0;
    } else {
      i := LookupField(fs[1..], name);
      i := i + 1;
    }
  }

  ghost predicate Distinct(fs: seq<Field>) {
    forall i, j | 0 <= i < j < |fs| :: fs[i].name != fs[j].name
  }

  lemma {:induction false} LookupOwn(fs: seq<Field>, i: nat)
    requires Distinct(fs) && i < |fs|
    ensures Lookup(fs, fs[i].name) == Some(fs[i].value)
  {
    if i > 0 {
      assert fs[0].name != fs[i].name;
      LookupOwn(fs[1..], i - 1);
    }
  }

  /** set(items) succeeds: dicts and lists are unhashable. */
  ghost predicate Hashable(items: seq<Json>) {
    forall i | 0 <= i < |items| :: items[i].Scalar?
  }

  /** _compare appends no error. key is the last segment of the path. */
  ghost predicate Compatible(key: string, recorded: Json, current: Json)
    decreases recorded
  {
    if recorded.Obj? && current.Obj? then
      forall i | 0 <= i < |recorded.fields| ::
        var f := recorded.fields[i];
        Lookup(current.fields, f.name).Some? && Compatible(LastSegment(f.name), f.value,
            Lookup(current.fields, f.name).value)
    else if recorded.Arr? && current.Arr? then
      if key in UNORDERED && Hashable(recorded.items) && Hashable(current.items) then
        && (forall x | x in recorded.items :: x in current.items)
        && (key == "required" ==> forall x | x in current.items :: x in recorded.items)
      else
        |recorded.items| <= |current.items| &&
        forall i | 0 <= i < |recorded.items| :: Compatible(ItemKey(key, i), recorded.items[i], current.items[i])
    else recorded == current
  }

  /** Names are distinct throughout. */
  ghost predicate WellFormed(j: Json) {
    match j
    case Scalar(_) => true
    case Arr(items) => forall i | 0 <= i < |items| :: WellFormed(items[i])
    case Obj(fields) => Distinct(fields) && forall i | 0 <= i < |fields| :: WellFormed(fields[i].value)
  }

  /** Lists under an unordered key hold scalars. */
  ghost predicate Plain(key: string, j: Json)
    decreases j
  {
    match j
    case Scalar(_) => true
    case Arr(items) =>
      (key in UNORDERED ==> Hashable(items)) && forall i | 0 <= i < |items| :: Plain(ItemKey(key, i), items[i])
    case Obj(fields) => forall i | 0 <= i < |fields| :: Plain(LastSegment(fields[i].name), fields[i].value)
  }

  // ---- A preorder ----

  /** A snapshot is compatible with itself, whatever its lists hold. */
  lemma {:induction false} Reflexive(key: string, j: Json)
    requires WellFormed(j)
    ensures Compatible(key, j, j)
    decreases j
  {
    match j
    case Scalar(_) =>
    case Arr(items) =>
      forall i | 0 <= i < |items|
        ensures Compatible(ItemKey(key, i), items[i], items[i])
      {
        Reflexive(ItemKey(key, i), items[i]);
      }
    case Obj(fields) =>
      forall i | 0 <= i < |fields|
        ensures Lookup(fields, fields[i].name).Some?
        ensures Compatible(LastSegment(fields[i].name), fields[i].value, Lookup(fields, fields[i].name).value)
      {
        LookupOwn(fields, i);
        Reflexive(LastSegment(fields[i].name), fields[i].value);
      }
  }

  /** The one place where composing goes wrong: a list under an unordered key
      that held scalars in two releases and holds a dict or a list in the third,
      so that its order starts to count. */
  ghost predicate Turns(key: string, a: Json, b: Json, c: Json) {
    && key in UNORDERED && a.Arr? && b.Arr? && c.Arr?
    && Hashable(a.items) && Hashable(b.items) && !Hashable(c.items)
  }

  ghost predicate FieldIn(f: Field, b: Json, c: Json) {
    b.Obj? && c.Obj? && Lookup(b.fields, f.name).Some? && Lookup(c.fields, f.name).Some?
  }

  /** No list in the three snapshots does so. */
  ghost predicate NoTurn(key: string, a: Json, b: Json, c: Json)
    decreases a
  {
    if a.Obj? then
      forall i | 0 <= i < |a.fields| && FieldIn(a.fields[i], b, c) ::
        var f := a.fields[i];
        NoTurn(LastSegment(f.name), f.value, Lookup(b.fields, f.name).value, Lookup(c.fields, f.name).value)
    else if a.Arr? && b.Arr? && c.Arr? then
      && !Turns(key, a, b, c)
      && forall i | 0 <= i < |a.items| && i < |b.items| && i < |c.items| ::
           NoTurn(ItemKey(key, i), a.items[i], b.items[i], c.items[i])
    else true
  }

  /** Every list that does so starts, in the third release, with all of the
      first one's items in their order. */
  ghost predicate TurnsInOrder(key: string, a: Json, b: Json, c: Json)
    decreases a
  {
    if a.Obj? then
      forall i | 0 <= i < |a.fields| && FieldIn(a.fields[i], b, c) ::
        var f := a.fields[i];
        TurnsInOrder(LastSegment(f.name), f.value, Lookup(b.fields, f.name).value, Lookup(c.fields, f.name).value)
    else if a.Arr? && b.Arr? && c.Arr? then
      if Turns(key, a, b, c) then a.items <= c.items
      else if key in UNORDERED && Hashable(a.items) && Hashable(b.items) then true
      else
        forall i | 0 <= i < |a.items| && i < |b.items| && i < |c.items| ::
          TurnsInOrder(ItemKey(key, i), a.items[i], b.items[i], c.items[i])
    else true
  }

  ghost predicate FieldKept(f: Field, c: Json) {
    c.Obj? && Lookup(c.fields, f.name).Some? && Compatible(LastSegment(f.name), f.value, Lookup(c.fields, f.name).value)
  }

  lemma ObjKept(key: string, a: Json, c: Json)
    requires a.Obj? && c.Obj?
    ensures Compatible(key, a, c) <==> forall i | 0 <= i < |a.fields| :: FieldKept(a.fields[i], c)
  {
  }

  /** Passed checks compose exactly when every such list kept its order. */
  lemma {:induction false} ComposesIff(key: string, a: Json, b: Json, c: Json)
    requires Compatible(key, a, b) && Compatible(key, b, c)
    ensures Compatible(key, a, c) <==> TurnsInOrder(key, a, b, c)
    decreases a, 1
  {
    match a
    case Scalar(_) =>
    case Obj(fields) =>
      if b.Obj? && c.Obj? {
        forall i | 0 <= i < |fields|
          ensures FieldIn(fields[i], b, c)
          ensures var f := fields[i];
                  FieldKept(f, c) <==>
                  TurnsInOrder(LastSegment(f.name), f.value, Lookup(b.fields, f.name).value,
                      Lookup(c.fields, f.name).value)
        {
          var f := fields[i];
          FieldThrough(key, f, b, c);
          ComposesIff(LastSegment(f.name), f.value, Lookup(b.fields, f.name).value, Lookup(c.fields, f.name).value);
        }
        ObjKept(key, a, c);
      }
    case Arr(items) =>
      if b.Arr? && c.Arr? {
        if key in UNORDERED && Hashable(items) && Hashable(b.items) {
          ComposesFlat(key, a, b, c);
        } else {
          ComposesOrdered(key, a, b, c);
        }
      }
  }

  /** A field of b that the next release kept. */
  lemma FieldThrough(key: string, f: Field, b: Json, c: Json)
    requires b.Obj? && c.Obj? && Lookup(b.fields, f.name).Some? && Compatible(key, b, c)
    ensures Lookup(c.fields, f.name).Some?
    ensures Compatible(LastSegment(f.name), Lookup(b.fields, f.name).value, Lookup(c.fields, f.name).value)
  {
    var j := LookupField(b.fields, f.name);
    assert FieldKept(b.fields[j], c);
  }

  /** Scalars in the first two releases. */
  lemma ComposesFlat(key: string, a: Json, b: Json, c: Json)
    requires a.Arr? && b.Arr? && c.Arr? && Compatible(key, a, b) && Compatible(key, b, c)
    requires key in UNORDERED && Hashable(a.items) && Hashable(b.items)
    ensures Compatible(key, a, c) <==> Hashable(c.items) || a.items <= c.items
  {
    if !Hashable(c.items) {
      ScalarsInOrder(key, a, c);
    }
  }

  /** Scalars compared by position must be the same. */
  lemma ScalarsInOrder(key: string, a: Json, c: Json)
    requires a.Arr? && c.Arr? && Hashable(a.items) && !Hashable(c.items)
    ensures Compatible(key, a, c) <==> a.items <= c.items
  {
    if Compatible(key, a, c) {
      forall i | 0 <= i < |a.items|
        ensures a.items[i] == c.items[i]
      {
        assert Compatible(ItemKey(key, i), a.items[i], c.items[i]);
      }
    }
  }

  /** A dict or list stays one, so such a list stays ordered. */
  lemma StaysOrdered(key: string, a: Json, b: Json)
    requires a.Arr? && b.Arr? && Compatible(key, a, b) && !Hashable(a.items)
    ensures !Hashable(b.items) && |a.items| <= |b.items|
    ensures forall i | 0 <= i < |a.items| :: Compatible(ItemKey(key, i), a.items[i], b.items[i])
  {
    var j :| 0 <= j < |a.items| && !a.items[j].Scalar?;
    assert Compatible(ItemKey(key, j), a.items[j], b.items[j]);
    assert !b.items[j].Scalar?;
  }

  /** A list that is compared by position from the first or second release on. */
  lemma ComposesOrdered(key: string, a: Json, b: Json, c: Json)
    requires a.Arr? && b.Arr? && c.Arr? && Compatible(key, a, b) && Compatible(key, b, c)
    requires !(key in UNORDERED && Hashable(a.items) && Hashable(b.items))
    ensures Compatible(key, a, c) <==> TurnsInOrder(key, a, b, c)
    decreases a, 0
  {
    if key in UNORDERED {
      if !Hashable(a.items) {
        StaysOrdered(key, a, b);
      }
      StaysOrdered(key, b, c);
    }
    forall i | 0 <= i < |a.items|
      ensures Compatible(ItemKey(key, i), a.items[i], c.items[i]) <==>
              TurnsInOrder(ItemKey(key, i), a.items[i], b.items[i], c.items[i])
    {
      ComposesIff(ItemKey(key, i), a.items[i], b.items[i], c.items[i]);
    }
  }

  /** Without such a list, checks passed release by release compose. */
  lemma Transitive(key: string, a: Json, b: Json, c: Json)
    requires Compatible(key, a, b) && Compatible(key, b, c) && NoTurn(key, a, b, c)
    ensures Compatible(key, a, c)
  {
    NoTurnInOrder(key, a, b, c);
    ComposesIff(key, a, b, c);
  }

  lemma {:induction false} NoTurnInOrder(key: string, a: Json, b: Json, c: Json)
    requires NoTurn(key, a, b, c)
    ensures TurnsInOrder(key, a, b, c)
    decreases a
  {
    if a.Obj? {
      forall i | 0 <= i < |a.fields| && FieldIn(a.fields[i], b, c)
        ensures var f := a.fields[i];
                TurnsInOrder(LastSegment(f.name), f.value, Lookup(b.fields, f.name).value,
                    Lookup(c.fields, f.name).value)
      {
        var f := a.fields[i];
        NoTurnInOrder(LastSegment(f.name), f.value, Lookup(b.fields, f.name).value, Lookup(c.fields, f.name).value);
      }
    } else if a.Arr? && b.Arr? && c.Arr? {
      forall i | 0 <= i < |a.items| && i < |b.items| && i < |c.items|
        ensures TurnsInOrder(ItemKey(key, i), a.items[i], b.items[i], c.items[i])
      {
        NoTurnInOrder(ItemKey(key, i), a.items[i], b.items[i], c.items[i]);
      }
    }
  }

  /** It is enough that the last snapshot's lists under these keys hold scalars. */
  lemma {:induction false} PlainHasNoTurn(key: string, a: Json, b: Json, c: Json)
    requires Plain(key, c)
    ensures NoTurn(key, a, b, c)
    decreases a
  {
    if a.Obj? {
      forall i | 0 <= i < |a.fields| && FieldIn(a.fields[i], b, c)
        ensures var f := a.fields[i];
                NoTurn(LastSegment(f.name), f.value, Lookup(b.fields, f.name).value, Lookup(c.fields, f.name).value)
      {
        var f := a.fields[i];
        var l := LookupField(c.fields, f.name);
        assert Plain(LastSegment(f.name), c.fields[l].value);
        PlainHasNoTurn(LastSegment(f.name), f.value, Lookup(b.fields, f.name).value, Lookup(c.fields, f.name).value);
      }
    } else if a.Arr? && b.Arr? && c.Arr? {
      forall i | 0 <= i < |a.items| && i < |b.items| && i < |c.items|
        ensures NoTurn(ItemKey(key, i), a.items[i], b.items[i], c.items[i])
      {
        PlainHasNoTurn(ItemKey(key, i), a.items[i], b.items[i], c.items[i]);
      }
    }
  }

  /** With dicts in an unordered list the order starts to count half-way: two
      passing checks whose composition fails. */
  lemma NotTransitiveWithDicts()
    ensures var a, b := Arr([Scalar(2), Scalar(1)]), Arr([Scalar(1), Scalar(2)]);
            var c := Arr([Scalar(1), Scalar(2), Obj([])]);
            Compatible("enum", a, b) && Compatible("enum", b, c) && !Compatible("enum", a, c)
  {
    var a, b := Arr([Scalar(2), Scalar(1)]), Arr([Scalar(1), Scalar(2)]);
    var c := Arr([Scalar(1), Scalar(2), Obj([])]);
    assert c.items[2] == Obj([]) && !Hashable(c.items);
    assert !Compatible(ItemKey("enum", 0), a.items[0], c.items[0]);
  }

  // ---- What a passing check keeps ----

  /** One step down a snapshot: to a name in an object, or to an index in a list. */
  datatype Step = Name(name: string) | Index(i: nat)

  function Down(j: Json, step: Step): Option<Json> {
    match step
    case Name(name) => if j.Obj? then Lookup(j.fields, name) else None
    case Index(i) => if j.Arr? && i < |j.items| then Some(j.items[i]) else None
  }

  /** The value at a path through objects and lists. */
  function Walk(j: Json, path: seq<Step>): Option<Json>
    decreases |path|
  {
    if path == [] then Some(j)
    else
      match Down(j, path[0])
      case None => None
      case Some(v) => Walk(v, path[1..])
  }

  /** The last segment of the path one step further. */
  function KeyDown(key: string, step: Step): string {
    match step
    case Name(name) => LastSegment(name)
    case Index(i) => ItemKey(key, i)
  }

  function KeyAt(key: string, path: seq<Step>): string
    decreases |path|
  {
    if path == [] then key else KeyAt(KeyDown(key, path[0]), path[1..])
  }

  /** A list that is compared as a set, unless its current version holds a dict
      or a list. */
  ghost predicate AsSet(key: string, j: Json) {
    key in UNORDERED && j.Arr? && Hashable(j.items)
  }

  /** The path ends at an item of such a list. */
  ghost predicate EndsInSet(key: string, j: Json, path: seq<Step>)
    decreases |path|
  {
    path != [] && Down(j, path[0]).Some? &&
    ((|path| == 1 && AsSet(key, j)) || EndsInSet(KeyDown(key, path[0]), Down(j, path[0]).value, path[1..]))
  }

  lemma Inside(key: string, recorded: Json, current: Json, step: Step)
    requires Compatible(key, recorded, current) && Down(recorded, step).Some? && (step.Index? ==> !AsSet(key, recorded))
    ensures Down(current, step).Some?
    ensures Compatible(KeyDown(key, step), Down(recorded, step).value, Down(current, step).value)
  {
    if step.Name? {
      var i := LookupField(recorded.fields, step.name);
      assert FieldKept(recorded.fields[i], current);
    }
  }

  /** Whatever the snapshot records at a path is still there, compatibly, and
      whatever it records in a list compared as a set is still in that list. */
  lemma {:induction false} NothingRemoved(key: string, recorded: Json, current: Json, path: seq<Step>)
    requires Compatible(key, recorded, current) && Walk(recorded, path).Some?
    ensures !EndsInSet(key, recorded, path) ==>
              Walk(current, path).Some?
              && Compatible(KeyAt(key, path), Walk(recorded, path).value, Walk(current, path).value)
    ensures EndsInSet(key, recorded, path) ==>
              var list := Walk(current, path[..|path| - 1]);
              list.Some? && list.value.Arr? && Walk(recorded, path).value in list.value.items
    decreases |path|
  {
    if path != [] {
      if |path| == 1 && AsSet(key, recorded) {
        SetItemKept(key, recorded, current, path[0].i);
      } else {
        var v, k := Down(recorded, path[0]).value, KeyDown(key, path[0]);
        if path[0].Index? && |path| > 1 {
          assert Down(v, path[1]).Some?;
        }
        Inside(key, recorded, current, path[0]);
        NothingRemoved(k, v, Down(current, path[0]).value, path[1..]);
        if |path| > 1 {
          assert path[..|path| - 1][1..] == path[1..][..|path| - 2];
        }
      }
    }
  }

  lemma SetItemKept(key: string, recorded: Json, current: Json, i: nat)
    requires Compatible(key, recorded, current) && AsSet(key, recorded) && i < |recorded.items|
    ensures current.Arr? && recorded.items[i] in current.items
  {
    if !Hashable(current.items) {
      assert Compatible(ItemKey(key, i), recorded.items[i], current.items[i]);
    }
  }

  /** A path to an object or a list does not end in a set. */
  lemma {:induction false} NodeNotInSet(key: string, j: Json, path: seq<Step>)
    requires Walk(j, path).Some? && !Walk(j, path).value.Scalar?
    ensures !EndsInSet(key, j, path)
    decreases |path|
  {
    if path != [] {
      NodeNotInSet(KeyDown(key, path[0]), Down(j, path[0]).value, path[1..]);
    }
  }

  // ---- Required fields ----

  /** The items of the node's `required` list; none when it has no such list. */
  function RequiredItems(node: Json): seq<Json> {
    if node.Obj? && Lookup(node.fields, "required").Some? && Lookup(node.fields, "required").value.Arr? then
      Lookup(node.fields, "required").value.items
    else []
  }

  function Elements(items: seq<Json>): set<Json> {
    set x | x in items
  }

  function RequiredSet(node: Json): set<Json> {
    Elements(RequiredItems(node))
  }

  /** As the collector writes them: sorted names, or nothing at all. */
  ghost predicate RecordsNames(node: Json) {
    node.Obj? &&
    match Lookup(node.fields, "required")
    case None => true
    case Some(v) => v.Arr? && Hashable(v.items)
  }

  ghost predicate RecordsRequired(node: Json) {
    node.Obj? && Lookup(node.fields, "required").Some?
  }

  lemma {:induction false} NoDot(name: string)
    requires '.' !in name
    ensures LastSegment(name) == name
    decreases |name|
  {
    if name != "" {
      NoDot(name[..|name| - 1]);
    }
  }

  lemma RequiredKey()
    ensures LastSegment("required") == "required"
  {
    NoDot("required");
  }

  /** A passing check keeps the `required` set of a node that records one,
      exactly as long as the current list holds names only. */
  lemma RequiredIsFrozen(recorded: Json, current: Json, path: seq<Step>, r: Json)
    requires Compatible("", recorded, current) && Walk(recorded, path) == Some(r)
    requires RecordsNames(r) && RecordsRequired(r)
    ensures Walk(current, path).Some? && RecordsRequired(Walk(current, path).value)
    ensures var c := Walk(current, path).value;
            RequiredSet(c) == RequiredSet(r) <==> Hashable(RequiredItems(c))
  {
    NodeNotInSet("", recorded, path);
    NothingRemoved("", recorded, current, path);
    var c := Walk(current, path).value;
    var i := LookupField(r.fields, "required");
    assert FieldKept(r.fields[i], c);
    RequiredKey();
    SameRequired(RequiredItems(r), RequiredItems(c));
  }

  lemma SameRequired(rs: seq<Json>, cs: seq<Json>)
    requires Hashable(rs) && Compatible("required", Arr(rs), Arr(cs))
    ensures Elements(cs) == Elements(rs) <==> Hashable(cs)
  {
    if Hashable(cs) {
      assert forall x :: x in cs <==> x in rs;
      assert Elements(cs) == Elements(rs);
    } else {
      var k :| 0 <= k < |cs| && !cs[k].Scalar?;
      assert cs[k] in Elements(cs) && cs[k] !in Elements(rs);
    }
  }

  function SetField(fs: seq<Field>, name: string, v: Json): seq<Field> {
    if fs == [] then []
    else if fs[0].name == name then [Field(name, v)] + fs[1..]
    else [fs[0]] + SetField(fs[1..], name, v)
  }

  lemma {:induction false} SetFieldIs(fs: seq<Field>, name: string, v: Json, other: string)
    requires Lookup(fs, name).Some?
    ensures Lookup(SetField(fs, name, v), other) == if other == name then Some(v) else Lookup(fs, other)
  {
    if fs[0].name == name {
      assert ([Field(name, v)] + fs[1..])[1..] == fs[1..];
    } else {
      SetFieldIs(fs[1..], name, v, other);
      assert ([fs[0]] + SetField(fs[1..], name, v))[1..] == SetField(fs[1..], name, v);
    }
  }

  lemma {:induction false} AppendedField(fs: seq<Field>, name: string, v: Json, other: string)
    requires Lookup(fs, name).None?
    ensures Lookup(fs + [Field(name, v)], other) == if other == name then Some(v) else Lookup(fs, other)
  {
    if fs != [] {
      AppendedField(fs[1..], name, v, other);
      assert (fs + [Field(name, v)])[1..] == fs[1..] + [Field(name, v)];
    }
  }

  /** The node with more required fields. */
  function WithRequired(node: Json, extra: seq<Json>): Json
    requires node.Obj?
  {
    if Lookup(node.fields, "required").None? then Obj(node.fields + [Field("required", Arr(extra))])
    else Obj(SetField(node.fields, "required", Arr(RequiredItems(node) + extra)))
  }

  /** The snapshot with another value at the path. */
  function Put(j: Json, path: seq<Step>, v: Json): Json
    requires Walk(j, path).Some?
    decreases |path|
  {
    if path == [] then v
    else
      var below := Put(Down(j, path[0]).value, path[1..], v);
      match path[0]
      case Name(name) => Obj(SetField(j.fields, name, below))
      case Index(i) => Arr(j.items[i := below])
  }

  /** Replacing one field is as compatible as the field's new value. */
  lemma OneField(key: string, fs: seq<Field>, name: string, fs': seq<Field>)
    requires WellFormed(Obj(fs)) && Lookup(fs, name).Some? && Lookup(fs', name).Some?
    requires forall other | other != name :: Lookup(fs', other) == Lookup(fs, other)
    ensures Compatible(key, Obj(fs), Obj(fs')) <==>
            Compatible(LastSegment(name), Lookup(fs, name).value, Lookup(fs', name).value)
  {
    forall i | 0 <= i < |fs|
      ensures FieldKept(fs[i], Obj(fs')) <==>
              (fs[i].name == name ==> Compatible(LastSegment(name), Lookup(fs, name).value, Lookup(fs', name).value))
    {
      LookupOwn(fs, i);
      Reflexive(LastSegment(fs[i].name), fs[i].value);
    }
    ObjKept(key, Obj(fs), Obj(fs'));
    var k := LookupField(fs, name);
  }

  lemma OneItem(key: string, items: seq<Json>, i: nat, v: Json)
    requires WellFormed(Arr(items)) && i < |items| && !items[i].Scalar?
    ensures Compatible(key, Arr(items), Arr(items[i := v])) <==> Compatible(ItemKey(key, i), items[i], v)
  {
    forall k | 0 <= k < |items|
      ensures Compatible(ItemKey(key, k), items[k], items[k])
    {
      Reflexive(ItemKey(key, k), items[k]);
    }
  }

  /** A change at a path to an object or list is as compatible as the values
      there: all else compares equal. */
  lemma {:induction false} ReplacedAt(key: string, j: Json, path: seq<Step>, v: Json)
    requires WellFormed(j) && Walk(j, path).Some? && !Walk(j, path).value.Scalar?
    ensures Compatible(key, j, Put(j, path, v)) <==> Compatible(KeyAt(key, path), Walk(j, path).value, v)
    decreases |path|
  {
    if path != [] {
      var child := Down(j, path[0]).value;
      var below := Put(child, path[1..], v);
      match path[0] {
        case Name(name) =>
          var k := LookupField(j.fields, name);
          forall other
            ensures Lookup(SetField(j.fields, name, below), other) ==
                    if other == name then Some(below) else Lookup(j.fields, other)
          {
            SetFieldIs(j.fields, name, below, other);
          }
          ReplacedAt(LastSegment(name), child, path[1..], v);
          OneField(key, j.fields, name, SetField(j.fields, name, below));
        case Index(i) =>
          NodeAbove(child, path[1..]);
          ReplacedAt(ItemKey(key, i), child, path[1..], v);
          OneItem(key, j.items, i, below);
      }
    }
  }

  lemma NodeAbove(j: Json, path: seq<Step>)
    requires Walk(j, path).Some? && !Walk(j, path).value.Scalar?
    ensures !j.Scalar?
  {
  }

  /** Adding required fields to a node passes exactly when it records none. */
  lemma AddedToNode(key: string, node: Json, extra: seq<Json>)
    requires WellFormed(node) && RecordsNames(node) && Hashable(extra)
    requires exists x :: x in extra && x !in RequiredItems(node)
    ensures Compatible(key, node, WithRequired(node, extra)) <==> !RecordsRequired(node)
  {
    var fs, fs' := node.fields, WithRequired(node, extra).fields;
    RequiredKey();
    if RecordsRequired(node) {
      var rs := RequiredItems(node);
      forall other
        ensures Lookup(fs', other) == if other == "required" then Some(Arr(rs + extra)) else Lookup(fs, other)
      {
        SetFieldIs(fs, "required", Arr(rs + extra), other);
      }
      OneField(key, fs, "required", fs');
      var x :| x in extra && x !in rs;
      assert x in rs + extra;
    } else {
      forall i | 0 <= i < |fs|
        ensures FieldKept(fs[i], Obj(fs'))
      {
        LookupOwn(fs, i);
        AppendedField(fs, "required", Arr(extra), fs[i].name);
        Reflexive(LastSegment(fs[i].name), fs[i].value);
      }
      ObjKept(key, node, Obj(fs'));
    }
  }

  /** New required fields at any node of a snapshot, root or nested, also inside
      a oneOf branch, are reported exactly when the node records a `required`
      list already. */
  lemma RequiredAdditionReportedIff(recorded: Json, path: seq<Step>, node: Json, extra: seq<Json>)
    requires WellFormed(recorded) && Walk(recorded, path) == Some(node) && RecordsNames(node) && Hashable(extra)
    requires exists x :: x in extra && x !in RequiredItems(node)
    ensures !Compatible("", recorded, Put(recorded, path, WithRequired(node, extra))) <==> RecordsRequired(node)
  {
    WellFormedBelow(recorded, path);
    ReplacedAt("", recorded, path, WithRequired(node, extra));
    AddedToNode(KeyAt("", path), node, extra);
  }

  lemma {:induction false} WellFormedBelow(j: Json, path: seq<Step>)
    requires WellFormed(j) && Walk(j, path).Some?
    ensures WellFormed(Walk(j, path).value)
    decreases |path|
  {
    if path != [] {
      if path[0].Name? {
        var k := LookupField(j.fields, path[0].name);
        assert WellFormed(j.fields[k].value);
      }
      WellFormedBelow(Down(j, path[0]).value, path[1..]);
    }
  }

  /** An object that says which properties it has but not which it requires can
      be given its first required field unnoticed. */
  lemma FirstRequiredPasses(props: Json)
    requires WellFormed(props)
    ensures var node := Obj([Field("properties", props)]);
            var more := WithRequired(node, [Scalar(1)]);
            Compatible("tracker", node, more) && RequiredSet(node) == {} && RequiredSet(more) == {Scalar(1)}
  {
    var node := Obj([Field("properties", props)]);
    assert [Field("properties", props)][1..] == [];
    assert Scalar(1) in [Scalar(1)];
    AddedToNode("tracker", node, [Scalar(1)]);
    AppendedField(node.fields, "required", Arr([Scalar(1)]), "required");
    assert RequiredItems(WithRequired(node, [Scalar(1)])) == [Scalar(1)];
  }

  // ---- Ordered lists ----

  /** A list is compared by position unless its key is required, enum or type;
      a list inside a list always is. */
  ghost predicate ByPosition(path: seq<Step>) {
    path != [] && (path[|path| - 1].Name? ==> LastSegment(path[|path| - 1].name) !in UNORDERED)
  }

  lemma {:induction false} OrderedKey(key: string, path: seq<Step>)
    requires ByPosition(path)
    ensures KeyAt(key, path) !in UNORDERED
    decreases |path|
  {
    if |path| == 1 {
      if path[0].Index? {
        ItemKeyOrdered(key, path[0].i);
      }
    } else {
      OrderedKey(KeyDown(key, path[0]), path[1..]);
    }
  }

  /** Such a list of scalars may only grow at its end: a reordered ABI member
      list breaks compatibility. */
  lemma MembersOnlyAppended(recorded: Json, current: Json, path: seq<Step>, r: seq<Json>, c: seq<Json>)
    requires ByPosition(path) && Hashable(r)
    requires Walk(recorded, path) == Some(Arr(r)) && Walk(current, path) == Some(Arr(c))
    requires Compatible("", recorded, current)
    ensures r <= c
  {
    NodeNotInSet("", recorded, path);
    NothingRemoved("", recorded, current, path);
    OrderedKey("", path);
    forall i | 0 <= i < |r|
      ensures r[i] == c[i]
    {
      assert Compatible(ItemKey(KeyAt("", path), i), r[i], c[i]);
    }
  }
}
