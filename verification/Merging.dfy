/** Merge of internal/config/config.go on values, and when the regrouping done at run
    time (internal/execution/goworkflows/activities.go) equals merging in order. */
module Merging {
  import opened Base

  // A raw configuration value: a map, or a scalar or list, which Merge never opens.
  datatype Value<A> = Leaf(leaf: A) | Map(entries: map<string, Value<A>>)

  // The entries of a value that is a map, none otherwise.
  function EntriesOf<A>(v: Value<A>): map<string, Value<A>> { if v.Map? then v.entries else map[] }

  function At<A>(m: map<string, Value<A>>, k: string): Value<A> { if k in m then m[k] else Map(map[]) }

  // mergeInto: a map merges into a map, anything else replaces.
  function Merged<A>(d: Value<A>, s: Value<A>): Value<A>
    decreases s
  {
    if !s.Map? then s
    else
      var dm := EntriesOf(d);
      Map(map k | k in dm.Keys + s.entries.Keys :: if k in s.entries then Merged(At(dm, k), s.entries[k]) else dm[k])
  }

  lemma MergedAt<A>(d: Value<A>, s: Value<A>, k: string)
    requires s.Map?
    ensures var m := Merged(d, s); m.Map? && m.entries.Keys == EntriesOf(d).Keys + s.entries.Keys
    ensures k in s.entries ==> Merged(d, s).entries[k] == Merged(At(EntriesOf(d), k), s.entries[k])
    ensures k in EntriesOf(d) && k !in s.entries ==> Merged(d, s).entries[k] == EntriesOf(d)[k]
  {
  }

  // Merging over something that is not a map copies.
  lemma {:induction false} MergedFresh<A>(d: Value<A>, s: Value<A>)
    requires !d.Map? || d.entries == map[]
    ensures Merged(d, s) == s
    decreases s
  {
    if s.Map? {
      var m := Merged(d, s);
      forall k | k in s.entries
        ensures m.entries[k] == s.entries[k]
      {
        MergedFresh(At(EntriesOf(d), k), s.entries[k]);
      }
      assert m.entries == s.entries;
    }
  }

  // Whatever map d has, s has the same keys and more, at every depth.
  ghost predicate Covered<A>(d: Value<A>, s: Value<A>)
    decreases s
  {
    s.Map? && d.Map? ==> forall k :: k in d.entries ==> k in s.entries && Covered(d.entries[k], s.entries[k])
  }

  // A value that covers another takes nothing over from it, and only then.
  lemma {:induction false} CoveredIff<A>(d: Value<A>, s: Value<A>)
    ensures Merged(d, s) == s <==> Covered(d, s)
    decreases s
  {
    if s.Map? && d.Map? {
      var m := Merged(d, s);
      forall k | k in s.entries
        ensures m.entries[k] == s.entries[k] <==> k in d.entries ==> Covered(d.entries[k], s.entries[k])
      {
        CoveredIff(At(d.entries, k), s.entries[k]);
        if k !in d.entries { MergedFresh(At(d.entries, k), s.entries[k]); }
      }
      if Covered(d, s) { assert m.entries == s.entries; }
      if m == s {
        forall k | k in d.entries
          ensures k in s.entries
        {
          assert k in m.entries;
        }
      }
    } else if s.Map? {
      MergedFresh(d, s);
    }
  }

  // Root, workflow and node values agree on how they may be regrouped: wherever the
  // middle scope puts a non-map between two maps, the outer map adds nothing to the
  // inner one.
  ghost predicate Regroups<A>(d: Value<A>, w: Value<A>, n: Value<A>)
    decreases n
  {
    n.Map? && w.Map? ==>
      forall k :: k in n.entries ==>
        if k in w.entries && !w.entries[k].Map? && n.entries[k].Map?
        then Covered(At(EntriesOf(d), k), n.entries[k])
        else k in w.entries ==> Regroups(At(EntriesOf(d), k), w.entries[k], n.entries[k])
  }

  ghost predicate Sandwich<A>(d: Value<A>, w: Value<A>, n: Value<A>, k: string) {
    && w.Map? && n.Map? && k in w.entries && k in n.entries && k in EntriesOf(d)
    && EntriesOf(d)[k].Map? && !w.entries[k].Map? && n.entries[k].Map?
  }

  // No key path is a map, then a non-map, then a map.
  ghost predicate Plain<A>(d: Value<A>, w: Value<A>, n: Value<A>)
    decreases n
  {
    n.Map? && w.Map? ==>
      forall k :: k in n.entries ==>
        && !Sandwich(d, w, n, k)
        && (k in w.entries ==> Plain(At(EntriesOf(d), k), w.entries[k], n.entries[k]))
  }

  lemma CoveredEmpty<A>(d: Value<A>, s: Value<A>)
    requires !d.Map? || d.entries == map[]
    ensures Covered(d, s)
  {
  }

  lemma {:induction false} PlainRegroups<A>(d: Value<A>, w: Value<A>, n: Value<A>)
    requires Plain(d, w, n)
    ensures Regroups(d, w, n)
    decreases n
  {
    if n.Map? && w.Map? {
      forall k | k in n.entries
        ensures if k in w.entries && !w.entries[k].Map? && n.entries[k].Map?
                then Covered(At(EntriesOf(d), k), n.entries[k])
                else k in w.entries ==> Regroups(At(EntriesOf(d), k), w.entries[k], n.entries[k])
      {
        assert !Sandwich(d, w, n, k);
        if k in w.entries {
          if !w.entries[k].Map? && n.entries[k].Map? {
            CoveredEmpty(At(EntriesOf(d), k), n.entries[k]);
          } else {
            PlainRegroups(At(EntriesOf(d), k), w.entries[k], n.entries[k]);
          }
        }
      }
    }
  }

  // One key of the two groupings.
  function Left<A>(d: Value<A>, w: Value<A>, n: Value<A>): Value<A> { Merged(Merged(d, w), n) }

  function Right<A>(d: Value<A>, w: Value<A>, n: Value<A>): Value<A> { Merged(d, Merged(w, n)) }

  lemma KeyLeft<A>(d: Value<A>, w: Value<A>, n: Value<A>, k: string)
    requires w.Map? && n.Map?
    ensures Left(d, w, n).Map? && Right(d, w, n).Map?
    ensures Left(d, w, n).entries.Keys == EntriesOf(d).Keys + w.entries.Keys + n.entries.Keys
    ensures Right(d, w, n).entries.Keys == EntriesOf(d).Keys + w.entries.Keys + n.entries.Keys
    ensures k in w.entries && k in n.entries ==>
              Left(d, w, n).entries[k] == Merged(Merged(At(EntriesOf(d), k), w.entries[k]), n.entries[k])
    ensures k in w.entries && k in n.entries ==>
              Right(d, w, n).entries[k] == Merged(At(EntriesOf(d), k), Merged(w.entries[k], n.entries[k]))
    ensures k in EntriesOf(d).Keys + w.entries.Keys + n.entries.Keys && !(k in w.entries && k in n.entries) ==>
              Left(d, w, n).entries[k] == Right(d, w, n).entries[k]
  {
    MergedAt(d, w, k);
    MergedAt(w, n, k);
    var dw, wn := Merged(d, w), Merged(w, n);
    MergedAt(dw, n, k);
    MergedAt(d, wn, k);
    if k in n.entries && k !in w.entries {
      MergedFresh(At(w.entries, k), n.entries[k]);
    }
    hide Merged;
  }

  // The regrouping at run time gives the in-order merge exactly when the scopes
  // regroup; in particular when no key path is a map, a non-map and a map.
  lemma {:induction false} RegroupExact<A>(d: Value<A>, w: Value<A>, n: Value<A>)
    requires w.Map? || !n.Map?
    ensures Left(d, w, n) == Right(d, w, n) <==> Regroups(d, w, n)
    decreases n
  {
    if n.Map? && w.Map? {
      hide Merged;
      forall k | k in w.entries && k in n.entries
        ensures Left(d, w, n).entries.Keys == Right(d, w, n).entries.Keys && k in Left(d, w, n).entries
        ensures Left(d, w, n).entries[k] == Right(d, w, n).entries[k] <==> RegroupsAt(d, w, n, k)
      {
        KeyLeft(d, w, n, k);
        RegroupKey(d, w, n, k);
      }
      RegroupWhole(d, w, n);
    }
  }

  ghost predicate RegroupsAt<A>(d: Value<A>, w: Value<A>, n: Value<A>, k: string)
    requires w.Map? && n.Map? && k in n.entries
  {
    if k in w.entries && !w.entries[k].Map? && n.entries[k].Map?
    then Covered(At(EntriesOf(d), k), n.entries[k])
    else k in w.entries ==> Regroups(At(EntriesOf(d), k), w.entries[k], n.entries[k])
  }

  lemma RegroupKey<A>(d: Value<A>, w: Value<A>, n: Value<A>, k: string)
    requires w.Map? && n.Map? && k in w.entries && k in n.entries
    ensures Merged(Merged(At(EntriesOf(d), k), w.entries[k]), n.entries[k])
            == Merged(At(EntriesOf(d), k), Merged(w.entries[k], n.entries[k]))
            <==> RegroupsAt(d, w, n, k)
    decreases n, 0
  {
    var dk, wk, nk := At(EntriesOf(d), k), w.entries[k], n.entries[k];
    if !wk.Map? && nk.Map? {
      assert Merged(dk, wk) == wk;
      MergedFresh(wk, nk);
      CoveredIff(dk, nk);
    } else {
      RegroupExact(dk, wk, nk);
    }
  }

  lemma RegroupWhole<A>(d: Value<A>, w: Value<A>, n: Value<A>)
    requires w.Map? && n.Map?
    requires forall k :: k in w.entries && k in n.entries ==>
      Left(d, w, n).Map? && Right(d, w, n).Map? && k in Left(d, w, n).entries && k in Right(d, w, n).entries
      && (Left(d, w, n).entries[k] == Right(d, w, n).entries[k] <==> RegroupsAt(d, w, n, k))
    ensures Left(d, w, n) == Right(d, w, n) <==> Regroups(d, w, n)
  {
    hide Left, Right, Merged;
    assert Regroups(d, w, n) <==> forall k :: k in w.entries && k in n.entries ==> RegroupsAt(d, w, n, k);
    var l, r := Left(d, w, n), Right(d, w, n);
    KeyLeft(d, w, n, "");
    if Regroups(d, w, n) {
      forall k | k in l.entries
        ensures l.entries[k] == r.entries[k]
      {
        KeyLeft(d, w, n, k);
      }
      assert l.entries == r.entries;
    }
  }

  // The regrouping is sound for configurations without such a path.
  lemma RegroupPlain<A>(d: Value<A>, w: Value<A>, n: Value<A>)
    requires w.Map? && Plain(d, w, n)
    ensures Merged(d, Merged(w, n)) == Merged(Merged(d, w), n)
  {
    PlainRegroups(d, w, n);
    RegroupExact(d, w, n);
  }
}
