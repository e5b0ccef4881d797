/** Where an edited document differs from the one it was: inside the brackets of the
    plugin array, or just before the closing brace, and nowhere else. */
module JsoncLocal {
  import opened Base
  import opened JsoncLexer
  import opened JsoncSplice
  import opened JsoncParser
  import opened JsoncDocument
  import opened JsoncRows
  import opened JsoncEditor
  import opened JsoncPlan
  import opened JsoncInsert
  import opened JsoncUpdate

  predicate Within(es: seq<TextEdit>, a: nat, b: nat) { forall i :: 0 <= i < |es| ==> a <= es[i].start <= es[i].end <= b }

  lemma {:induction false} DisjointBound(es: seq<TextEdit>, n: nat)
    requires Disjoint(es, n)
    ensures forall i :: 0 <= i < |es| ==> es[i].end <= n
  {
    if es == [] {
    } else {
      DisjointBound(es[1..], es[0].start);
      assert forall i :: 0 < i < |es| ==> es[i] == es[1..][i - 1];
    }
  }

  // Edits between a and b leave the bytes outside alone.
  lemma {:induction false} SpliceWithin(data: string, es: seq<TextEdit>, a: nat, b: nat) returns (mid: string)
    requires Disjoint(es, |data|) && Within(es, a, b) && a <= b <= |data|
    ensures SpliceAll(data, es) == data[..a] + mid + data[b..]
    decreases |es|
  {
    if es == [] {
      mid := data[a..b];
      assert data == data[..a] + mid + data[b..];
    } else {
      var e, more := es[0], es[1..];
      var next := SpliceOne(data, e);
      var b' := b - (e.end - e.start) + |e.text|;
      DisjointBound(more, e.start);
      assert Within(more, a, e.start) by {
        assert forall i :: 0 <= i < |more| ==> more[i] == es[i + 1];
      }
      DisjointGrows(more, e.start, |next|);
      mid := SpliceWithin(next, more, a, b');
      assert next[..a] == data[..a] && next[b'..] == data[b..];
    }
  }

  lemma WithinSorted(es: seq<TextEdit>, a: nat, b: nat)
    requires Within(es, a, b)
    ensures Within(SortDown(es), a, b)
  {
    SortDownSpec(es);
    var sorted := SortDown(es);
    hide SortDown;
    forall i | 0 <= i < |sorted|
      ensures a <= sorted[i].start <= sorted[i].end <= b
    {
      assert sorted[i] in multiset(es);
    }
  }

  /* ---- tokens stand in order ---- */

  ghost predicate InOrder(ts: seq<Token>) {
    && (forall i :: 0 <= i < |ts| ==> ts[i].start <= ts[i].end)
    && forall i, j :: 0 <= i < j < |ts| ==> ts[i].end <= ts[j].start
  }

  lemma TokensInOrder(ls: seq<Lexeme>)
    ensures InOrder(TokensOf(ls, 0)) && forall k :: 0 <= k < |TokensOf(ls, 0)| ==> TokensOf(ls, 0)[k].end <= |Flatten(ls)|
  {
    hide TokensOf, Flatten;
    var ts := TokensOf(ls, 0);
    forall j | 0 <= j < |ts|
      ensures ts[j].start <= ts[j].end <= |Flatten(ls)|
      ensures forall i :: 0 <= i < j ==> ts[i].end <= ts[j].start
    {
      TokensOfCount(ls, 0);
      var xs, l, ys := SplitAtToken(ls, j);
      TokenInside(ls, j);
      Layout(xs, l, ys);
      forall i | 0 <= i < j
        ensures ts[i].end <= ts[j].start
      {
        TokenInside(xs, i);
        assert ts[..j][i] == ts[i];
      }
    }
  }

  // The elements of an array stand between its brackets.
  ghost predicate Inside(v: Node, x: nat) {
    x < v.closeToken && forall d :: 0 <= d < |v.elements| ==> x < v.elements[d].startToken <= v.elements[d].endToken < v.closeToken
  }

  lemma AddWithin(ts: seq<Token>, v: Node, x: nat)
    requires Anchored(ts, v) && InOrder(ts) && Inside(v, x)
    ensures Within([AddElementEdit(ts, v)], ts[x].end, ts[v.closeToken].start)
  {
    hide CommaFrom, QUOTED;
  }

  lemma {:induction false} DropWithin(ts: seq<Token>, v: Node, ds: seq<nat>, x: nat)
    requires Anchored(ts, v) && InOrder(ts) && Inside(v, x) && forall k :: 0 <= k < |ds| ==> 0 < ds[k] < |v.elements|
    ensures Within(DropEdits(ts, v, ds), ts[x].end, ts[v.closeToken].start)
  {
    if ds == [] {
    } else {
      DropWithin(ts, v, ds[1..], x);
      hide CommaFrom;
      var e, f := v.elements[ds[0]], v.elements[ds[0] - 1];
      assert Spaced(ts, v.elements, ds[0] - 1);
      var comma := CommaBefore(ts, f.endToken, e.startToken);
      assert x < f.endToken < comma < e.startToken;
    }
  }

  lemma PinWithin(ts: seq<Token>, v: Node, x: nat)
    requires Anchored(ts, v) && InOrder(ts) && Inside(v, x) && PinEdits(ts, v).Ok?
    ensures Within(PinEdits(ts, v).value, ts[x].end, ts[v.closeToken].start)
  {
    RelayIndicesRange(ts, v, 0);
    hide RelayIndices, QUOTED, Anchored, AddElementEdit, DropEdits;
    var rs := RelayIndices(ts, v, 0).value;
    if rs == [] {
      AddWithin(ts, v, x);
    } else {
      DropWithin(ts, v, rs[1..], x);
    }
  }

  lemma PluginInside(ts: seq<Token>, root: Node, k: nat)
    requires ValueFrom(ts, 0) == Ok((root, |ts|)) && root.kind == '{' && k < |root.members| && root.members[k].value.kind == '['
    ensures var v := root.members[k].value; v.closeToken < |ts| && Inside(v, v.startToken)
  {
    hide MembersFrom, ElementsFrom, ValueFrom;
    ParsedRoot(ts, root);
    MembersAfterStart(ts, 1, |ts| - 1, root.members, k);
    var v := root.members[k].value;
    ArrayAnchored(ts, v.startToken);
    ElementsAnchored(ts, v.startToken + 1, v.closeToken, v.elements);
  }

  lemma PropertyWithin(ts: seq<Token>, root: Node)
    requires Rooted(ts, root) && InOrder(ts)
    ensures |ts| >= 2 && Within(AddPropertyEdits(ts, root), ts[|ts| - 2].end, ts[|ts| - 1].start)
  {
    PropertyEdits(ts, root);
    hide ValueFrom, AddPropertyEdits, RootAnchored, PROPERTY, NeedsComma;
  }

  // The bytes between which the edit takes place: the brackets of the plugin array, or
  // the last token and the closing brace where there is no such property.
  ghost predicate Place(ts: seq<Token>, root: Node, a: nat, b: nat) {
    match PluginIndex(root.members, 0, None)
    case Ok(Some(k)) =>
      && k < |root.members| && root.members[k].name == "plugin" && root.members[k].value.kind == '['
      && root.members[k].value.startToken < root.members[k].value.closeToken < |ts|
      && a == ts[root.members[k].value.startToken].end && b == ts[root.members[k].value.closeToken].start
    case Ok(None) => |ts| >= 2 && a == ts[|ts| - 2].end && b == ts[|ts| - 1].start
    case Err(_) => false
  }

  lemma PlanPlace(ts: seq<Token>, root: Node) returns (a: nat, b: nat)
    requires Rooted(ts, root) && InOrder(ts) && Plan(ts, root).Ok?
    ensures Place(ts, root, a, b) && Within(Plan(ts, root).value, a, b) && a <= b && exists i :: 0 <= i < |ts| && b <= ts[i].end
  {
    hide ValueFrom, Plan, PinEdits, AddPropertyEdits, RelayIndices, PluginIndex, InOrder, Within;
    PlanParts(ts, root);
    var found := PluginIndex(root.members, 0, None).value;
    if found.None? {
      PropertyWithin(ts, root);
      a, b := ts[|ts| - 2].end, ts[|ts| - 1].start;
      Apart(ts, |ts| - 2, |ts| - 1);
    } else {
      var v := root.members[found.value].value;
      PluginInside(ts, root, found.value);
      PinWithin(ts, v, v.startToken);
      a, b := ts[v.startToken].end, ts[v.closeToken].start;
      Apart(ts, v.startToken, v.closeToken);
    }
  }

  lemma Apart(ts: seq<Token>, i: nat, j: nat)
    requires InOrder(ts) && i < j < |ts|
    ensures ts[i].end <= ts[j].start <= ts[j].end
  {
  }

  // Every byte outside that place is kept.
  lemma UpdateLocal(codec: Codec, data: string, out: string) returns (ls: seq<Lexeme>, root: Node, a: nat, b: nat, mid: string)
    requires Update(codec, data) == Ok(out)
    ensures Lex(codec, data, 0) == Ok(ls) && RootOf(TokensOf(ls, 0)) == Ok(root) && Place(TokensOf(ls, 0), root, a, b)
    ensures a <= b <= |data| && out == data[..a] + mid + data[b..]
  {
    hide Lex, TokensOf, Plan, SortDown, SpliceAll, Disjoint, Within, InOrder, Place, ValueFrom, RootAnchored, WellFormed, Flatten;
    ls := Lex(codec, data, 0).value;
    root := RootOf(TokensOf(ls, 0)).value;
    var es := Plan(TokensOf(ls, 0), root).value;
    LexSound(codec, data, 0, ls);
    PlanDisjoint(codec, ls, root);
    TokensInOrder(ls);
    a, b := PlanPlace(TokensOf(ls, 0), root);
    WithinSorted(es, a, b);
    mid := SpliceWithin(data, SortDown(es), a, b);
  }

  // Inside it tokens are exchanged for tokens and blanks: every white space and every
  // comment stays between the tokens it stood between.
  lemma UpdateSubst(codec: Codec, data: string, out: string) returns (ls: seq<Lexeme>, f: map<nat, seq<Lexeme>>)
    requires Decodes(codec) && Update(codec, data) == Ok(out)
    ensures Lex(codec, data, 0) == Ok(ls) && Lex(codec, out, 0) == Ok(Subst(ls, 0, f))
    ensures forall k :: k in f ==> CommentsOf(f[k]) == []
  {
    hide Lex, TokensOf, Plan, SortDown, SpliceAll, Disjoint, Edits, Suits, Flatten, SymbolsOf, CommentsOf, Decodes, Subst, WellFormed, RootAnchored, ValueFrom;
    ls := Lex(codec, data, 0).value;
    var root := RootOf(TokensOf(ls, 0)).value;
    var es := Plan(TokensOf(ls, 0), root).value;
    LexSound(codec, data, 0, ls);
    var ks: seq<nat>;
    ks, f := PlanRealizes(codec, ls, root);
    SpliceIsSubst(ls, ks, SortDown(es), f);
    SubstWellFormed(codec, None, ls, 0, f);
    LexIff(codec, Flatten(Subst(ls, 0, f)), Subst(ls, 0, f));
  }
}
