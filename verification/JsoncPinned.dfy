/** The plugin array of an edited document, in the words of the file format: which
    entries name the relay-flow plugin, and what becomes of them and of all others. */
module JsoncPinned {
  import opened Base
  import opened JsoncLexer
  import opened JsoncParser
  import opened JsoncDocument
  import opened JsoncRows
  import opened JsoncEditor
  import opened JsoncPlan
  import opened JsoncUpdate
  import opened JsoncTheorem

  // The bare name, or the name, an at sign and any version.
  ghost predicate Names(v: string) { v == "relay-flow-plugin" || exists w: string :: v == "relay-flow-plugin" + "@" + w }

  lemma NamesIff(v: string)
    ensures Names(v) <==> IsRelay(v)
  {
    var p := "relay-flow-plugin" + "@";
    if IsRelay(v) && v != PLUGIN {
      assert v == p + v[|p|..];
    }
    if w: string :| v == p + w {
      assert p <= v;
    }
  }

  ghost predicate NamesPlugin(j: Json) { j.Leaf? && Names(j.value) }

  // The entries that name other plugins, in order.
  ghost function Strangers(js: seq<Json>): seq<Json> {
    if js == [] then [] else (if NamesPlugin(js[0]) then [] else [js[0]]) + Strangers(js[1..])
  }

  // What one entry of the plugin array must read.
  predicate PinnedEntry(j: Json) { j.Leaf? && j.kind == 's' && j.value == "relay-flow-plugin@0.3.14-alpha" }

  // The first entry that names the plugin is exchanged where it stands and the others
  // that do are gone; without one, the entry is added at the end. All else stays.
  ghost predicate Exchanges(was: seq<Json>, now: seq<Json>) {
    || ((forall d :: 0 <= d < |was| ==> !NamesPlugin(was[d]))
        && |now| == |was| + 1 && now[..|was|] == was && PinnedEntry(now[|was|]))
    || exists f :: 0 <= f < |was| && NamesPlugin(was[f]) && (forall d :: 0 <= d < f ==> !NamesPlugin(was[d]))
                   && |now| > f && now[..f] == was[..f] && PinnedEntry(now[f]) && now[f + 1..] == Strangers(was[f + 1..])
  }

  lemma PinnedLeafReads()
    ensures PinnedEntry(PINNED_LEAF) && PINNED_LEAF.Leaf?
  {
  }

  lemma RelayIff(j: Json)
    ensures RelayLeaf(j) <==> NamesPlugin(j)
  {
    if j.Leaf? { NamesIff(j.value); }
    hide IsRelay, Names;
  }

  lemma {:induction false} StrangersKept(js: seq<Json>)
    ensures KeepOthers(js) == Strangers(js)
  {
    hide RelayLeaf, NamesPlugin;
    if js == [] {
    } else {
      RelayIff(js[0]);
      StrangersKept(js[1..]);
    }
  }

  lemma ExchangesCons(j: Json, was: seq<Json>, now: seq<Json>)
    requires Exchanges(was, now) && !NamesPlugin(j)
    ensures Exchanges([j] + was, [j] + now)
  {
    hide NamesPlugin, PinnedEntry;
    var us, ns := [j] + was, [j] + now;
    if f :| 0 <= f < |was| && NamesPlugin(was[f]) && (forall d :: 0 <= d < f ==> !NamesPlugin(was[d]))
            && |now| > f && now[..f] == was[..f] && PinnedEntry(now[f]) && now[f + 1..] == Strangers(was[f + 1..]) {
      var g := f + 1;
      assert us[g] == was[f] && ns[g] == now[f] && us[g + 1..] == was[f + 1..] && ns[g + 1..] == now[f + 1..];
      assert ns[..g] == [j] + now[..f] && us[..g] == [j] + was[..f];
    } else {
      assert ns[..|us|] == us && ns[|us|] == now[|was|];
    }
  }

  lemma {:induction false} PinExchanges(js: seq<Json>)
    ensures Exchanges(js, PinLeaves(js))
  {
    PinnedLeafReads();
    hide RelayLeaf, NamesPlugin, PinnedEntry, PINNED_LEAF;
    if js == [] {
    } else {
      RelayIff(js[0]);
      if RelayLeaf(js[0]) {
        StrangersKept(js[1..]);
        assert PinLeaves(js)[0] == PINNED_LEAF && PinLeaves(js)[1..] == KeepOthers(js[1..]);
      } else {
        PinExchanges(js[1..]);
        ExchangesCons(js[0], js[1..], PinLeaves(js[1..]));
        assert js == [js[0]] + js[1..];
      }
    }
  }

  lemma {:induction false} StrangersOnly(js: seq<Json>)
    ensures forall d :: 0 <= d < |Strangers(js)| ==> !NamesPlugin(Strangers(js)[d]) && Strangers(js)[d] in js
    ensures forall d :: 0 <= d < |js| && !NamesPlugin(js[d]) ==> js[d] in Strangers(js)
  {
    hide NamesPlugin;
    if js == [] {
    } else {
      StrangersOnly(js[1..]);
    }
  }

  // Exactly one entry of the new array names the plugin, and it is pinned.
  lemma OneLeft(was: seq<Json>, now: seq<Json>) returns (p: nat)
    requires Exchanges(was, now)
    ensures p < |now| && PinnedEntry(now[p]) && NamesPlugin(now[p])
    ensures forall d :: 0 <= d < |now| && d != p ==> !NamesPlugin(now[d])
  {
    if f :| 0 <= f < |was| && NamesPlugin(was[f]) && (forall d :: 0 <= d < f ==> !NamesPlugin(was[d]))
            && |now| > f && now[..f] == was[..f] && PinnedEntry(now[f]) && now[f + 1..] == Strangers(was[f + 1..]) {
      p := f;
      StrangersOnly(was[f + 1..]);
      PinnedNames(now[p]);
      hide NamesPlugin, PinnedEntry;
      forall d | 0 <= d < |now| && d != p
        ensures !NamesPlugin(now[d])
      {
        if d < p { assert now[d] == now[..p][d]; } else { assert now[d] == now[p + 1..][d - p - 1]; }
      }
    } else {
      p := |was|;
      PinnedNames(now[p]);
      hide NamesPlugin, PinnedEntry;
      forall d | 0 <= d < |now| && d != p
        ensures !NamesPlugin(now[d])
      {
        assert now[d] == now[..p][d];
      }
    }
  }

  lemma PinnedNames(j: Json)
    requires PinnedEntry(j)
    ensures NamesPlugin(j)
  {
    assert j.value == "relay-flow-plugin" + "@" + "0.3.14-alpha";
  }

  // The edited document has one plugin property, the last one if it had none. Its array
  // is the old one, or the empty one, with one entry exchanged or added.
  lemma UpdatePins(codec: Codec, data: string, out: string) returns (k: nat, was: seq<Json>)
    requires Decodes(codec) && Update(codec, data) == Ok(out)
    ensures Read(codec, data).Ok? && Read(codec, out).Ok?
    ensures var before, after := Read(codec, data).value.members, Read(codec, out).value.members;
            && k < |after| && after[k].0 == "plugin" && after[k].1.Arr? && (forall q :: 0 <= q < |after| && q != k ==> after[q].0 != "plugin")
            && Exchanges(was, after[k].1.elements)
            && (if k < |before| then before[k] == ("plugin", Arr(was)) && after == before[k := after[k]]
                else was == [] && after == before + [after[k]])
  {
    UpdateMeaning(codec, data, out);
    var before := Read(codec, data).value.members;
    hide Read, Update, Decodes, PinLeaves, PINNED_LEAF, Exchanges;
    k := Where(before);
    was := if k < |before| then before[k].1.elements else [];
    PinExchanges(was);
    AddedLeaf();
  }

  lemma AddedLeaf()
    ensures PinLeaves([]) == [PINNED_LEAF]
  {
    hide PINNED_LEAF;
  }
}
