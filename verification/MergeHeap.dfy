/** Merge of internal/config/config.go on map objects: which objects the result is
    made of, and that no argument is changed. The value of the result is
    Merging.Merged of the values. */
module MergeHeap {
  import opened Base
  import opened Merging

  // A raw value: a scalar, a list, or a reference to a map object. The elements of a
  // list are values too, and Merge never looks at them.
  datatype Item = Scalar(text: string) | Listing(elements: seq<Item>) | Ref(obj: MapObject)

  class MapObject {
    var entries: map<string, Item>

    constructor ()
      ensures entries == map[]
    {
      entries := map[];
    }
  }

  // The map objects below o lie in s, at most h levels deep.
  ghost predicate Under(o: MapObject, s: set<MapObject>, h: nat)
    reads o, s
    decreases h
  {
    forall k :: k in o.entries && o.entries[k].Ref? ==> h > 0 && o.entries[k].obj in s && Under(o.entries[k].obj, s, h - 1)
  }

  ghost function ValOf(i: Item, s: set<MapObject>, h: nat): Value<Item>
    requires i.Ref? ==> h > 0 && i.obj in s && Under(i.obj, s, h - 1)
    reads s
    decreases h, 0
  {
    if i.Ref? then Val(i.obj, s, h - 1) else Leaf(i)
  }

  // What o stands for. A list keeps the objects inside it.
  ghost function Val(o: MapObject, s: set<MapObject>, h: nat): (v: Value<Item>)
    requires Under(o, s, h)
    reads o, s
    ensures v.Map?
    decreases h, 1
  {
    Map(map k | k in o.entries :: ValOf(o.entries[k], s, h))
  }

  lemma {:induction false} UnderMore(o: MapObject, s: set<MapObject>, h: nat, t: set<MapObject>, g: nat)
    requires Under(o, s, h) && s <= t && h <= g
    ensures Under(o, t, g) && Val(o, t, g) == Val(o, s, h)
    decreases h
  {
    forall k | k in o.entries && o.entries[k].Ref?
      ensures g > 0 && Under(o.entries[k].obj, t, g - 1)
      ensures Val(o.entries[k].obj, t, g - 1) == Val(o.entries[k].obj, s, h - 1)
    {
      UnderMore(o.entries[k].obj, s, h - 1, t, g - 1);
    }
    assert Under(o, t, g);
    forall k | k in o.entries
      ensures ValOf(o.entries[k], t, g) == ValOf(o.entries[k], s, h)
    {
    }
  }

  // The entries of dst as values, after the keys of src outside `rest` were merged.
  ghost predicate Partly(now: map<string, Value<Item>>, was: map<string, Value<Item>>, added: map<string, Value<Item>>, rest: set<string>) {
    && (forall k :: k in rest || k !in added ==> (k in now <==> k in was) && (k in was ==> now[k] == was[k]))
    && (forall k :: k in added && k !in rest ==> k in now && now[k] == Merged(At(was, k), added[k]))
  }

  lemma PartlyDone(now: map<string, Value<Item>>, was: Value<Item>, added: Value<Item>)
    requires was.Map? && added.Map? && Partly(now, was.entries, added.entries, {})
    ensures Map(now) == Merged(was, added)
  {
    MergedAt(was, added, "");
    assert now.Keys == was.entries.Keys + added.entries.Keys;
    forall k | k in now
      ensures now[k] == Merged(was, added).entries[k]
    {
      MergedAt(was, added, k);
    }
    assert now == Merged(was, added).entries;
  }

  lemma PartlyNext(now: map<string, Value<Item>>, was: map<string, Value<Item>>, added: map<string, Value<Item>>, rest: set<string>, k: string)
    requires Partly(now, was, added, rest) && k in rest && k in added
    ensures Partly(now[k := Merged(At(now, k), added[k])], was, added, rest - {k})
  {
    assert At(now, k) == At(was, k);
  }

  // The fresh map that holds the merge of two maps.
  method MergeChild(below: Option<MapObject>, above: MapObject, ghost d: set<MapObject>, ghost h: nat, ghost s: set<MapObject>, ghost hs: nat)
    returns (m: MapObject, ghost t: set<MapObject>)
    requires 0 < hs <= h && above in s && Under(above, s, hs - 1)
    requires below.Some? ==> below.value in d && Under(below.value, d, h - 1)
    ensures fresh(m) && fresh(t) && m in t && Under(m, t, h - 1)
    ensures Val(m, t, h - 1) == Merged(if below.Some? then old(Val(below.value, d, h - 1)) else Map(map[]), old(Val(above, s, hs - 1)))
    decreases h, 0
  {
    hide Merged;
    m := new MapObject();
    t := {};
    ghost var base := if below.Some? then Val(below.value, d, h - 1) else Map(map[]);
    ghost var added := Val(above, s, hs - 1);
    assert Val(m, {}, h - 1) == Map(map[]);
    if below.Some? {
      MergedFresh(Map(map[]), base);
      t := MergeInto(m, below.value, {}, h - 1, d, h - 1);
    }
    assert Val(above, s, hs - 1) == added;
    assert Val(m, t, h - 1) == base;
    ghost var more := MergeInto(m, above, t, h - 1, s, hs - 1);
    t := more + {m};
    UnderMore(m, more, h - 1, t, h - 1);
  }

  // One key of src: a map is merged into a fresh one, anything else replaces.
  method MergeKey(dst: MapObject, k: string, sv: Item, ghost d: set<MapObject>, ghost h: nat, ghost s: set<MapObject>, ghost hs: nat)
    returns (ghost t: set<MapObject>)
    requires dst !in d && Under(dst, d, h) && hs <= h
    requires sv.Ref? ==> hs > 0 && sv.obj in s && Under(sv.obj, s, hs - 1)
    modifies dst
    ensures d <= t && fresh(t - d) && dst !in t && Under(dst, t, h)
    ensures var was := old(Val(dst, d, h).entries);
            Val(dst, t, h).entries == was[k := Merged(At(was, k), old(ValOf(sv, s, hs)))]
    ensures !sv.Ref? ==> dst.entries == old(dst.entries)[k := sv]
    decreases h, 1
  {
    ghost var was, added := Val(dst, d, h).entries, ValOf(sv, s, hs);
    var next := sv;
    t := d;
    if sv.Ref? {
      var below := if k in dst.entries && dst.entries[k].Ref? then Some(dst.entries[k].obj) else None;
      assert k in was ==> k in dst.entries && was[k] == ValOf(dst.entries[k], d, h);
      assert below.None? ==> !At(was, k).Map? || At(was, k).entries == map[];
      var m, objs := MergeChild(below, sv.obj, d, h, s, hs);
      next := Ref(m);
      t := d + objs;
      UnderMore(m, objs, h - 1, t, h - 1);
      if below.None? { NoBelow(At(was, k), added); }
    }
    hide Merged;
    UnderMore(dst, d, h, t, h);
    SetEntry(dst, k, next, t, h);
  }

  lemma NoBelow(d: Value<Item>, s: Value<Item>)
    requires !d.Map? || d.entries == map[]
    ensures Merged(d, s) == Merged(Map(map[]), s)
  {
    MergedFresh(d, s);
    MergedFresh(Map(map[]), s);
  }

  method SetEntry(dst: MapObject, k: string, next: Item, ghost t: set<MapObject>, ghost h: nat)
    requires dst !in t && Under(dst, t, h)
    requires next.Ref? ==> h > 0 && next.obj in t && Under(next.obj, t, h - 1)
    modifies dst
    ensures dst.entries == old(dst.entries)[k := next] && Under(dst, t, h)
    ensures Val(dst, t, h).entries == old(Val(dst, t, h).entries)[k := old(ValOf(next, t, h))]
  {
    ghost var was, v := Val(dst, t, h).entries, ValOf(next, t, h);
    dst.entries := dst.entries[k := next];
    forall q | q in dst.entries
      ensures Val(dst, t, h).entries[q] == was[k := v][q]
    {
    }
  }

  // mergeInto. Only dst is changed; the map objects below it are new ones or were
  // below it before, never objects of src.
  method MergeInto(dst: MapObject, src: MapObject, ghost d: set<MapObject>, ghost h: nat, ghost s: set<MapObject>, ghost hs: nat)
    returns (ghost t: set<MapObject>)
    requires dst !in d && Under(dst, d, h) && hs <= h
    requires src != dst && dst !in s && Under(src, s, hs)
    modifies dst
    ensures d <= t && fresh(t - d) && dst !in t && Under(dst, t, h)
    ensures Under(src, s, hs) && Val(src, s, hs) == old(Val(src, s, hs))
    ensures Val(dst, t, h) == Merged(old(Val(dst, d, h)), old(Val(src, s, hs)))
    decreases h, 2
  {
    hide Merged;
    t := d;
    ghost var was, added := Val(dst, d, h), Val(src, s, hs);
    var rest := src.entries.Keys;
    while rest != {}
      invariant rest <= src.entries.Keys && src.entries == old(src.entries)
      invariant d <= t && fresh(t - d) && dst !in t && Under(dst, t, h)
      invariant Under(src, s, hs) && Val(src, s, hs) == added
      invariant Partly(Val(dst, t, h).entries, was.entries, added.entries, rest)
      decreases rest
    {
      var k :| k in rest;
      PartlyNext(Val(dst, t, h).entries, was.entries, added.entries, rest, k);
      hide Partly;
      t := MergeKey(dst, k, src.entries[k], t, h, s, hs);
      rest := rest - {k};
    }
    PartlyDone(Val(dst, t, h).entries, was, added);
  }

  // The merge of the values in order, the last one strongest.
  ghost function Folded(vs: seq<Value<Item>>): Value<Item> {
    if vs == [] then Map(map[]) else Merged(Folded(vs[..|vs| - 1]), vs[|vs| - 1])
  }

  ghost function Values(os: seq<MapObject>, s: set<MapObject>, h: nat): seq<Value<Item>>
    requires forall i :: 0 <= i < |os| ==> os[i] in s && Under(os[i], s, h)
    reads s
  {
    if os == [] then [] else Values(os[..|os| - 1], s, h) + [Val(os[|os| - 1], s, h)]
  }

  lemma {:induction false} ValuesAt(os: seq<MapObject>, s: set<MapObject>, h: nat, i: nat)
    requires (forall k :: 0 <= k < |os| ==> os[k] in s && Under(os[k], s, h)) && i < |os|
    ensures |Values(os, s, h)| == |os| && Values(os, s, h)[i] == Val(os[i], s, h)
    ensures Values(os, s, h)[..i] == Values(os[..i], s, h)
  {
    var n := |os| - 1;
    if i < n {
      ValuesAt(os[..n], s, h, i);
      assert os[..n][..i] == os[..i];
    } else {
      ValuesLength(os[..n], s, h);
    }
  }

  lemma {:induction false} ValuesLength(os: seq<MapObject>, s: set<MapObject>, h: nat)
    requires forall k :: 0 <= k < |os| ==> os[k] in s && Under(os[k], s, h)
    ensures |Values(os, s, h)| == |os|
  {
    if os == [] {
    } else {
      ValuesLength(os[..|os| - 1], s, h);
    }
  }

  lemma FoldedNext(vs: seq<Value<Item>>, i: nat)
    requires i < |vs|
    ensures Folded(vs[..i + 1]) == Merged(Folded(vs[..i]), vs[i])
  {
    assert vs[..i + 1][..i] == vs[..i];
  }

  /* ---- what is reachable ---- */

  type Heap = map<MapObject, map<string, Item>>

  ghost function Snap(u: set<MapObject>): Heap
    reads u
  {
    map o | o in u :: o.entries
  }

  // Some path from i leads to o through maps and lists, over at most n maps.
  ghost predicate Reaches(heap: Heap, i: Item, o: MapObject, n: nat)
    decreases n, i
  {
    match i
    case Scalar(_) => false
    case Listing(es) => exists k :: 0 <= k < |es| && Reaches(heap, es[k], o, n)
    case Ref(x) => x == o || (n > 0 && x in heap && exists k :: k in heap[x] && Reaches(heap, heap[x][k], o, n - 1))
  }

  ghost predicate Reachable(heap: Heap, i: Item, o: MapObject) { exists n: nat :: Reaches(heap, i, o, n) }

  // Some list of the value, at any depth of its maps, leads to o.
  ghost predicate InLists(heap: Heap, v: Value<Item>, o: MapObject, n: nat)
    decreases v
  {
    match v
    case Leaf(i) => Reaches(heap, i, o, n)
    case Map(m) => exists k :: k in m && InLists(heap, m[k], o, n)
  }

  ghost predicate Listed(heap: Heap, v: Value<Item>, o: MapObject) { exists n: nat :: InLists(heap, v, o, n) }

  // The map objects an item mentions, at any depth of its lists, are in u.
  ghost predicate Mentions(i: Item, u: set<MapObject>) {
    match i
    case Scalar(_) => true
    case Listing(es) => forall k :: 0 <= k < |es| ==> Mentions(es[k], u)
    case Ref(x) => x in u
  }

  ghost predicate Closed(heap: Heap) { forall x, k :: x in heap && k in heap[x] ==> Mentions(heap[x][k], heap.Keys) }

  // The same of all lists of a value. With no u, no list has a map object inside.
  ghost predicate Lists(v: Value<Item>, u: set<MapObject>)
    decreases v
  {
    match v
    case Leaf(i) => Mentions(i, u)
    case Map(m) => forall k :: k in m ==> Lists(m[k], u)
  }

  lemma {:induction false} ReachesMore(heap: Heap, i: Item, o: MapObject, n: nat, m: nat)
    requires Reaches(heap, i, o, n) && n <= m
    ensures Reaches(heap, i, o, m)
    decreases n, i
  {
    match i
    case Listing(es) =>
      var k :| 0 <= k < |es| && Reaches(heap, es[k], o, n);
      ReachesMore(heap, es[k], o, n, m);
    case Ref(x) =>
      if x != o {
        var k :| k in heap[x] && Reaches(heap, heap[x][k], o, n - 1);
        ReachesMore(heap, heap[x][k], o, n - 1, m - 1);
      }
    case Scalar(_) =>
  }

  lemma {:induction false} InListsMore(heap: Heap, v: Value<Item>, o: MapObject, n: nat, m: nat)
    requires InLists(heap, v, o, n) && n <= m
    ensures InLists(heap, v, o, m)
    decreases v
  {
    if v.Leaf? {
      ReachesMore(heap, v.leaf, o, n, m);
    } else {
      var k :| k in v.entries && InLists(heap, v.entries[k], o, n);
      InListsMore(heap, v.entries[k], o, n, m);
    }
  }

  lemma ValAt(x: MapObject, s: set<MapObject>, h: nat, k: string)
    requires Under(x, s, h) && k in x.entries
    ensures var v := Val(x, s, h).entries;
            k in v && (if x.entries[k].Ref? then v[k] == Val(x.entries[k].obj, s, h - 1) else v[k] == Leaf(x.entries[k]))
  {
    assert Val(x, s, h).entries[k] == ValOf(x.entries[k], s, h);
  }

  ghost predicate Shows(heap: Heap, s: set<MapObject>)
    reads s
  {
    forall y :: y in s ==> y in heap && heap[y] == y.entries
  }

  // A path from x to an object outside x's own maps goes through a list.
  lemma {:induction false} ReachedInList(heap: Heap, x: MapObject, s: set<MapObject>, h: nat, o: MapObject, n: nat)
    requires Under(x, s, h) && Shows(heap, s) && Shows(heap, {x}) && o != x && o !in s && Reaches(heap, Ref(x), o, n)
    ensures InLists(heap, Val(x, s, h), o, n)
    decreases h
  {
    assert x in {x};
    var k :| k in heap[x] && Reaches(heap, heap[x][k], o, n - 1);
    ValAt(x, s, h, k);
    var i, v := x.entries[k], Val(x, s, h).entries[k];
    if i.Ref? {
      assert Shows(heap, {i.obj});
      ReachedInList(heap, i.obj, s, h - 1, o, n - 1);
      InListsMore(heap, v, o, n - 1, n);
    } else {
      ReachesMore(heap, i, o, n - 1, n);
      assert InLists(heap, v, o, n);
    }
  }

  lemma {:induction false} InListReached(heap: Heap, x: MapObject, s: set<MapObject>, h: nat, o: MapObject, n: nat)
    requires Under(x, s, h) && Shows(heap, s) && Shows(heap, {x}) && InLists(heap, Val(x, s, h), o, n)
    ensures Reaches(heap, Ref(x), o, n + h + 1)
    decreases h
  {
    assert x in {x};
    var vs := Val(x, s, h).entries;
    var k :| k in vs && InLists(heap, vs[k], o, n);
    ValAt(x, s, h, k);
    var i := x.entries[k];
    if i.Ref? {
      assert Shows(heap, {i.obj});
      InListReached(heap, i.obj, s, h - 1, o, n);
    } else {
      ReachesMore(heap, i, o, n, n + h);
    }
    assert heap[x][k] == i && Reaches(heap, i, o, n + h);
  }

  // Paths from old items stay among the old objects.
  lemma {:induction false} ReachesSame(was: Heap, now: Heap, i: Item, o: MapObject, n: nat)
    requires Closed(was) && Mentions(i, was.Keys) && was.Keys <= now.Keys && forall x :: x in was ==> now[x] == was[x]
    ensures Reaches(was, i, o, n) == Reaches(now, i, o, n)
    decreases n, i
  {
    match i
    case Scalar(_) =>
    case Listing(es) =>
      forall k | 0 <= k < |es|
        ensures Reaches(was, es[k], o, n) == Reaches(now, es[k], o, n)
      {
        ReachesSame(was, now, es[k], o, n);
      }
    case Ref(x) =>
      if n > 0 {
        forall k | k in was[x]
          ensures Reaches(was, was[x][k], o, n - 1) == Reaches(now, was[x][k], o, n - 1)
        {
          ReachesSame(was, now, was[x][k], o, n - 1);
        }
      }
  }

  lemma {:induction false} InListsSame(was: Heap, now: Heap, v: Value<Item>, o: MapObject, n: nat)
    requires Closed(was) && Lists(v, was.Keys) && was.Keys <= now.Keys && forall x :: x in was ==> now[x] == was[x]
    ensures InLists(was, v, o, n) == InLists(now, v, o, n)
    decreases v
  {
    if v.Leaf? {
      ReachesSame(was, now, v.leaf, o, n);
    } else {
      forall k | k in v.entries
        ensures InLists(was, v.entries[k], o, n) == InLists(now, v.entries[k], o, n)
      {
        InListsSame(was, now, v.entries[k], o, n);
      }
    }
  }

  // An old object is reachable from out exactly if a list of out's value leads to it.
  lemma SharingExact(was: Heap, out: MapObject, t: set<MapObject>, h: nat, o: MapObject)
    requires Under(out, t, h) && Closed(was) && Lists(Val(out, t, h), was.Keys) && Shows(was, was.Keys)
    requires out !in was && t !! was.Keys && o in was
    ensures Reachable(Snap(was.Keys + t + {out}), Ref(out), o) <==> Listed(was, Val(out, t, h), o)
  {
    hide Under, Val, Lists, Closed, Reaches, InLists;
    var now, v := Snap(was.Keys + t + {out}), Val(out, t, h);
    assert Shows(now, t) && Shows(now, {out});
    if n: nat :| Reaches(now, Ref(out), o, n) {
      ReachedInList(now, out, t, h, o, n);
      InListsSame(was, now, v, o, n);
    }
    if n: nat :| InLists(was, v, o, n) {
      InListsSame(was, now, v, o, n);
      InListReached(now, out, t, h, o, n);
    }
  }

  /* ---- the lists of a merge are lists of its arguments ---- */

  lemma {:induction false} MergedLists(d: Value<Item>, s: Value<Item>, u: set<MapObject>)
    requires Lists(d, u) && Lists(s, u)
    ensures Lists(Merged(d, s), u)
    decreases s
  {
    if s.Map? {
      var m := Merged(d, s);
      forall k | k in m.entries
        ensures Lists(m.entries[k], u)
      {
        MergedAt(d, s, k);
        if k in s.entries { MergedLists(At(EntriesOf(d), k), s.entries[k], u); }
      }
    }
  }

  lemma {:induction false} FoldedLists(vs: seq<Value<Item>>, u: set<MapObject>)
    requires forall i :: 0 <= i < |vs| ==> Lists(vs[i], u)
    ensures Lists(Folded(vs), u)
  {
    if vs == [] {
      assert Folded(vs) == Map(map[]);
    } else {
      FoldedLists(vs[..|vs| - 1], u);
      MergedLists(Folded(vs[..|vs| - 1]), vs[|vs| - 1], u);
    }
  }

  lemma {:induction false} ValLists(x: MapObject, s: set<MapObject>, h: nat, heap: Heap)
    requires Under(x, s, h) && Shows(heap, s) && Shows(heap, {x}) && Closed(heap)
    ensures Lists(Val(x, s, h), heap.Keys)
    decreases h
  {
    assert x in {x};
    var vs := Val(x, s, h).entries;
    forall k | k in vs
      ensures Lists(vs[k], heap.Keys)
    {
      ValAt(x, s, h, k);
      if x.entries[k].Ref? {
        assert Shows(heap, {x.entries[k].obj});
        ValLists(x.entries[k].obj, s, h - 1, heap);
      } else {
        assert Mentions(heap[x][k], heap.Keys);
      }
    }
  }

  // Without map objects in the lists of any argument, nothing is shared.
  lemma NothingListed(heap: Heap, vs: seq<Value<Item>>, o: MapObject)
    requires forall i :: 0 <= i < |vs| ==> Lists(vs[i], {})
    ensures !Listed(heap, Folded(vs), o)
  {
    FoldedLists(vs, {});
    forall n: nat
      ensures !InLists(heap, Folded(vs), o, n)
    {
      ListlessReaches(heap, Folded(vs), o, n);
    }
  }

  lemma {:induction false} ListlessReaches(heap: Heap, v: Value<Item>, o: MapObject, n: nat)
    requires Lists(v, {})
    ensures !InLists(heap, v, o, n)
    decreases v
  {
    if v.Leaf? {
      NoMention(heap, v.leaf, o, n);
    } else {
      forall k | k in v.entries
        ensures !InLists(heap, v.entries[k], o, n)
      {
        ListlessReaches(heap, v.entries[k], o, n);
      }
    }
  }

  lemma {:induction false} NoMention(heap: Heap, i: Item, o: MapObject, n: nat)
    requires Mentions(i, {})
    ensures !Reaches(heap, i, o, n)
    decreases i
  {
    if i.Listing? {
      forall k | 0 <= k < |i.elements|
        ensures !Reaches(heap, i.elements[k], o, n)
      {
        NoMention(heap, i.elements[k], o, n);
      }
    }
  }

  // What every argument's lists mention is there before the call.
  lemma {:induction false} ValuesLists(os: seq<MapObject>, s: set<MapObject>, h: nat, u: set<MapObject>)
    requires forall i :: 0 <= i < |os| ==> os[i] in s && Under(os[i], s, h)
    requires s <= u && Closed(Snap(u))
    ensures forall i :: 0 <= i < |Values(os, s, h)| ==> Lists(Values(os, s, h)[i], u)
  {
    hide Under, Lists, Closed;
    ValuesLength(os, s, h);
    forall i | 0 <= i < |os|
      ensures Lists(Values(os, s, h)[i], u)
    {
      ValuesAt(os, s, h, i);
      assert Shows(Snap(u), s) && Shows(Snap(u), {os[i]});
      ValLists(os[i], s, h, Snap(u));
      assert Snap(u).Keys == u;
    }
  }

  // The loop of Merge.
  method MergeAll(values: seq<MapObject>, ghost s: set<MapObject>, ghost h: nat) returns (out: MapObject, ghost t: set<MapObject>)
    requires forall i :: 0 <= i < |values| ==> values[i] in s && Under(values[i], s, h)
    ensures fresh(out) && fresh(t) && out !in t && Under(out, t, h)
    ensures Val(out, t, h) == Folded(old(Values(values, s, h)))
  {
    hide Merged, Values;
    ghost var vs := Values(values, s, h);
    ValuesLength(values, s, h);
    forall i | 0 <= i < |values|
      ensures vs[i] == Val(values[i], s, h)
    {
      ValuesAt(values, s, h, i);
    }
    out := new MapObject();
    t := {};
    assert Val(out, {}, h) == Map(map[]) && Folded([]) == Map(map[]) && vs[..0] == [];
    hide Folded;
    for i := 0 to |values|
      invariant fresh(out) && fresh(t) && out !in t && Under(out, t, h) && out !in s
      invariant forall o :: o in s ==> unchanged(o)
      invariant forall k :: 0 <= k < |values| ==> values[k] in s && Under(values[k], s, h)
      invariant forall k :: 0 <= k < |values| ==> Val(values[k], s, h) == vs[k]
      invariant Val(out, t, h) == Folded(vs[..i])
    {
      FoldedNext(vs, i);
      t := MergeInto(out, values[i], t, h, s, h);
    }
    assert vs[..|values|] == vs;
  }

  // Merge: the result is the merge of the arguments in order, and no argument is
  // changed. Its map objects, at every depth, are new. Of the objects u there before,
  // it leads exactly to those that lie in a list of the merged value, or below one
  // that does: a list is taken over with the objects in it.
  method Merge(values: seq<MapObject>, ghost s: set<MapObject>, ghost h: nat, ghost u: set<MapObject>) returns (out: MapObject, ghost t: set<MapObject>)
    requires forall i :: 0 <= i < |values| ==> values[i] in s && Under(values[i], s, h)
    requires s <= u && Closed(Snap(u))
    ensures fresh(out) && fresh(t) && out !in t && Under(out, t, h)
    ensures Val(out, t, h) == Folded(old(Values(values, s, h)))
    ensures forall o :: o in u ==> unchanged(o)
    ensures forall o :: o in u ==>
      (Reachable(Snap(u + t + {out}), Ref(out), o) <==> Listed(old(Snap(u)), Folded(old(Values(values, s, h))), o))
  {
    hide Values, Under, Val, Lists, Closed, Folded, Reachable, Listed;
    ghost var was, vs := Snap(u), Values(values, s, h);
    ValuesLists(values, s, h, u);
    FoldedLists(vs, u);
    out, t := MergeAll(values, s, h);
    assert Snap(u) == was && was.Keys == u;
    forall o | o in u
      ensures Reachable(Snap(u + t + {out}), Ref(out), o) <==> Listed(was, Folded(vs), o)
    {
      SharingExact(was, out, t, h, o);
    }
  }

  // An argument with a map object inside a list shares it with the result.
  method SharedInList(inner: MapObject) returns (arg: MapObject, out: MapObject, ghost t: set<MapObject>)
    requires inner.entries == map[]
    ensures fresh(arg) && fresh(out) && arg != out && arg.entries == map["k" := Listing([Ref(inner)])]
    ensures Reachable(Snap({inner, arg} + t + {out}), Ref(out), inner)
  {
    arg := new MapObject();
    var list := Listing([Ref(inner)]);
    arg.entries := map["k" := list];
    ghost var s, u := {arg}, {inner, arg};
    assert Mentions(Ref(inner), u) && Mentions(list, u);
    assert Snap(u).Keys == u && Snap(u)[inner] == map[] && Snap(u)[arg] == arg.entries;
    assert Under(arg, s, 0) && Closed(Snap(u));
    ValAt(arg, s, 0, "k");
    ValuesAt([arg], s, 0, 0);
    assert Values([arg], s, 0) == [Val(arg, s, 0)];
    FoldedOne(Val(arg, s, 0));
    assert Reaches(Snap(u), Ref(inner), inner, 0) && Reaches(Snap(u), list.elements[0], inner, 0);
    assert InLists(Snap(u), Val(arg, s, 0).entries["k"], inner, 0);
    assert InLists(Snap(u), Val(arg, s, 0), inner, 0);
    hide Reaches, InLists, Listed, Reachable, Under, Val, Values, Closed;
    out, t := Merge([arg], s, 0, u);
  }

  lemma FoldedOne(v: Value<Item>)
    requires v.Map?
    ensures Folded([v]) == v
  {
    assert [v][..0] == [];
    MergedFresh(Map(map[]), v);
  }
}
