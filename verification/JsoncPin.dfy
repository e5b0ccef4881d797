/** The plugin array before and after the edit, as rows of tokens: which tokens the
    plan touches and what the row becomes. */
module JsoncPin {
  import opened Base
  import opened JsoncLexer
  import opened JsoncSplice
  import opened JsoncParser
  import opened JsoncDocument
  import opened JsoncRows
  import opened JsoncEditor
  import opened JsoncPlan

  const PIN := Symbol('s', QUOTED, PINNED)

  predicate Relay(s: Symbol) { IsRelay(s.value) }

  // The entries that are not relay-flow's.
  function Others(es: seq<Symbol>): seq<Symbol> {
    if es == [] then [] else (if Relay(es[0]) then [] else [es[0]]) + Others(es[1..])
  }

  // The first relay-flow entry pinned and the later ones dropped; a new last entry
  // when there is none.
  function Pin(es: seq<Symbol>): seq<Symbol> {
    if es == [] then [PIN]
    else if Relay(es[0]) then [PIN] + Others(es[1..])
    else [es[0]] + Pin(es[1..])
  }

  lemma PinIsRelay()
    ensures Relay(PIN) && PIN.kind == 's'
  {
    assert PINNED == PLUGIN + "@" + "0.3.14-alpha";
  }

  /* ---- positions in a row ---- */

  lemma {:induction false} StringNodesAt(at: nat, n: nat, d: nat)
    requires d < n
    ensures |StringNodes(at, n)| == n && StringNodes(at, n)[d] == Scalar('s', at + 2 * d)
    decreases n
  {
    if d > 0 { StringNodesAt(at + 2, n - 1, d - 1); } else { StringNodesLength(at, n); }
  }

  lemma {:induction false} StringNodesLength(at: nat, n: nat)
    ensures |StringNodes(at, n)| == n
    decreases n
  {
    if n > 0 { StringNodesLength(at + 2, n - 1); }
  }

  lemma {:induction false} RowLength(es: seq<Symbol>, t: bool)
    requires es != []
    ensures |Row(es, t)| == 2 * |es| - (if t then 0 else 1)
    ensures t ==> Row(es, t)[2 * |es| - 1] == COMMA
  {
    var tail := es[1..];
    assert es == [es[0]] + tail;
    RowCons(es[0], tail, t);
    if tail == [] {
    } else {
      RowLength(tail, t);
    }
  }

  lemma {:induction false} RowAt(es: seq<Symbol>, t: bool, d: nat)
    requires d < |es|
    ensures 2 * d < |Row(es, t)| && Row(es, t)[2 * d] == es[d]
    ensures d > 0 ==> Row(es, t)[2 * d - 1] == COMMA
  {
    var tail := es[1..];
    assert es == [es[0]] + tail;
    RowCons(es[0], tail, t);
    if d > 0 { RowAt(tail, t, d - 1); }
  }

  // An array of strings es between tokens x and c.
  ghost predicate PluginArray(a: Doc, x: nat, c: nat, v: Node, es: seq<Symbol>, t: bool) {
    && x < c < |a.syms| && a.Valid()
    && v == ArrayNode(x, StringNodes(x + 1, |es|), c) && Anchored(a.ts, v)
    && Strings(es) && a.syms[x].kind == '[' && a.syms[c].kind == ']'
    && a.syms[x + 1..c] == Row(es, t) && (es == [] ==> c == x + 1)
  }

  lemma ArrayEntry(a: Doc, x: nat, c: nat, v: Node, es: seq<Symbol>, t: bool, d: nat)
    requires PluginArray(a, x, c, v, es, t) && d < |es|
    ensures |v.elements| == |es| && v.elements[d] == Scalar('s', x + 1 + 2 * d) && x + 1 + 2 * d < c
    ensures a.syms[x + 1 + 2 * d] == es[d] && es[d].kind == 's' && a.ts[x + 1 + 2 * d].value == es[d].value
    ensures d > 0 ==> a.syms[x + 2 * d] == COMMA && a.ts[x + 2 * d].kind == ','
  {
    StringNodesAt(x + 1, |es|, d);
    RowAt(es, t, d);
    hide Anchored, StringNodes, Row;
    SpellsAt(a, x + 1 + 2 * d);
    assert a.syms[x + 1..c][2 * d] == a.syms[x + 1 + 2 * d];
    if d > 0 {
      SpellsAt(a, x + 2 * d);
      assert a.syms[x + 1..c][2 * d - 1] == a.syms[x + 2 * d];
    }
  }

  lemma ArrayEnd(a: Doc, x: nat, c: nat, v: Node, es: seq<Symbol>, t: bool)
    requires PluginArray(a, x, c, v, es, t)
    ensures |v.elements| == |es|
    ensures es != [] ==> c == x + 2 * |es| + (if t then 1 else 0)
    ensures es != [] && t ==> a.syms[c - 1] == COMMA
  {
    StringNodesLength(x + 1, |es|);
    if es != [] {
      RowLength(es, t);
      hide Anchored, StringNodes, Row;
      assert |a.syms[x + 1..c]| == c - x - 1;
      if t { assert a.syms[x + 1..c][2 * |es| - 1] == a.syms[c - 1]; }
    }
  }

  lemma CommaFound(ts: seq<Token>, after: nat, before: nat)
    requires after + 2 <= before <= |ts| && ts[after + 1].kind == ','
    ensures CommaBefore(ts, after, before) == after + 1
  {
  }

  lemma CommaAbsent(ts: seq<Token>, after: nat, before: nat)
    requires before <= |ts| && before <= after + 1
    ensures CommaBefore(ts, after, before) == -1
  {
  }

  /* ---- the tokens a drop touches ---- */

  function DropKeys(x: nat, ds: seq<nat>): seq<nat> {
    if ds == [] then [] else [x + 2 * ds[0], x + 1 + 2 * ds[0]] + DropKeys(x, ds[1..])
  }

  predicate Ascending(ds: seq<nat>) { forall j, k :: 0 <= j < k < |ds| ==> ds[j] < ds[k] }

  lemma {:induction false} DropKeysHas(x: nat, ds: seq<nat>, d: nat)
    ensures x + 2 * d in DropKeys(x, ds) <==> d in ds
    ensures x + 1 + 2 * d in DropKeys(x, ds) <==> d in ds
  {
    if ds == [] {
    } else {
      DropKeysHas(x, ds[1..], d);
      assert ds == [ds[0]] + ds[1..];
    }
  }

  lemma {:induction false} DropKeysAscend(x: nat, ds: seq<nat>)
    requires Ascending(ds)
    ensures Ascending(DropKeys(x, ds))
    ensures forall q :: q in DropKeys(x, ds) ==> q >= x + 2 * ds[0]
    ensures DropKeys(x, ds) == [] <==> ds == []
  {
    if ds == [] {
    } else {
      DropKeysAscend(x, ds[1..]);
      var tail := DropKeys(x, ds[1..]);
      assert forall k :: 0 <= k < |tail| ==> tail[k] in tail;
    }
  }

  function Erase(t: Token): TextEdit { TextEdit(t.start, t.end, "") }

  lemma DropEditsCons(ts: seq<Token>, v: Node, ds: seq<nat>, at: nat)
    requires Anchored(ts, v) && ds != [] && forall k :: 0 <= k < |ds| ==> 0 < ds[k] < |v.elements|
    requires v.elements[ds[0] - 1] == Scalar('s', at) && v.elements[ds[0]] == Scalar('s', at + 2)
    requires at + 2 < |ts| && ts[at + 1].kind == ','
    ensures DropEdits(ts, v, ds) == [Erase(ts[at + 1]), Erase(ts[at + 2])] + DropEdits(ts, v, ds[1..])
  {
    CommaFound(ts, at, at + 2);
    hide Anchored, CommaBefore, CommaFrom, Spaced;
  }

  ghost predicate Erases(ts: seq<Token>, es: seq<TextEdit>, ks: seq<nat>) {
    |es| == |ks| && forall k :: 0 <= k < |ks| ==> ks[k] < |ts| && es[k] == Erase(ts[ks[k]])
  }

  lemma ErasesTwo(ts: seq<Token>, es: seq<TextEdit>, ks: seq<nat>, p: nat, q: nat)
    requires Erases(ts, es, ks) && p < |ts| && q < |ts|
    ensures Erases(ts, [Erase(ts[p]), Erase(ts[q])] + es, [p, q] + ks)
  {
    hide Erase;
  }

  lemma {:induction false} DropEditsErase(a: Doc, x: nat, c: nat, v: Node, es: seq<Symbol>, t: bool, ds: seq<nat>)
    requires PluginArray(a, x, c, v, es, t) && Anchored(a.ts, v) && |v.elements| == |es|
    requires forall k :: 0 <= k < |ds| ==> 0 < ds[k] < |es|
    ensures Erases(a.ts, DropEdits(a.ts, v, ds), DropKeys(x, ds))
  {
    hide PluginArray, Anchored, Erase, Erases, Spaced;
    if ds == [] {
      assert Erases(a.ts, [], []) by { NoErases(a.ts); }
    } else {
      var d := ds[0];
      ArrayEntry(a, x, c, v, es, t, d);
      ArrayEntry(a, x, c, v, es, t, d - 1);
      ValidLength(a, x, c, v, es, t);
      DropEditsErase(a, x, c, v, es, t, ds[1..]);
      DropEditsCons(a.ts, v, ds, x + 2 * d - 1);
      ErasesTwo(a.ts, DropEdits(a.ts, v, ds[1..]), DropKeys(x, ds[1..]), x + 2 * d, x + 1 + 2 * d);
    }
  }

  lemma NoErases(ts: seq<Token>)
    ensures Erases(ts, [], [])
  {
  }

  lemma ValidLength(a: Doc, x: nat, c: nat, v: Node, es: seq<Symbol>, t: bool)
    requires PluginArray(a, x, c, v, es, t)
    ensures |a.ts| == |a.syms| && c < |a.ts| && Anchored(a.ts, v)
  {
  }

  /* ---- reversal ---- */

  function Rev<T>(s: seq<T>): (r: seq<T>)
    ensures |r| == |s|
  {
    if s == [] then [] else Rev(s[1..]) + [s[0]]
  }

  lemma {:induction false} RevAt<T>(s: seq<T>, k: nat)
    requires k < |s|
    ensures Rev(s)[k] == s[|s| - 1 - k]
  {
    if k < |s| - 1 { RevAt(s[1..], k); }
  }

  lemma {:induction false} RevMultiset<T>(s: seq<T>)
    ensures multiset(Rev(s)) == multiset(s)
  {
    if s == [] {
    } else {
      RevMultiset(s[1..]);
      assert s == [s[0]] + s[1..];
    }
  }

  // An ascending list of edits is sorted by reversing it.
  lemma SortAscending(es: seq<TextEdit>)
    requires forall i, j :: 0 <= i < j < |es| ==> es[i].start < es[j].start
    ensures SortDown(es) == Rev(es)
  {
    SortDownSpec(es);
    RevMultiset(es);
    forall i, j | 0 <= i < j < |es|
      ensures Rev(es)[i].start > Rev(es)[j].start
    {
      RevAt(es, i);
      RevAt(es, j);
    }
    DescendingUnique(Rev(es), SortDown(es));
  }

  /* ---- replacing and dropping entries realizes a substitution ---- */

  ghost predicate RewriteAt(ts: seq<Token>, e: TextEdit, k: nat, f: map<nat, seq<Lexeme>>) {
    k < |ts| && k in f && e == TextEdit(ts[k].start, ts[k].end, Flatten(f[k]))
  }

  // The edits replace whole tokens, in the order of the text.
  ghost predicate Rewrites(ts: seq<Token>, es: seq<TextEdit>, ks: seq<nat>, f: map<nat, seq<Lexeme>>) {
    && |es| == |ks| && Ascending(ks) && (forall k :: k in f <==> k in ks)
    && forall i :: 0 <= i < |ks| ==> RewriteAt(ts, es[i], ks[i], f)
  }

  lemma RewritesSorted(codec: Codec, ls: seq<Lexeme>, es: seq<TextEdit>, ks: seq<nat>, f: map<nat, seq<Lexeme>>)
    requires WellFormed(codec, ls) && Rewrites(TokensOf(ls, 0), es, ks, f)
    ensures SortDown(es) == Rev(es)
  {
    hide WellFormed, Flatten, TokensOf, TokenCount;
    TokensOfCount(ls, 0);
    forall i, j | 0 <= i < j < |es|
      ensures es[i].start < es[j].start
    {
      TokensApart(codec, ls, ks[i], ks[j]);
    }
    SortAscending(es);
  }

  lemma RevKeys(ks: seq<nat>)
    requires Ascending(ks)
    ensures forall i, j :: 0 <= i < j < |ks| ==> Rev<nat>(ks)[i] > Rev<nat>(ks)[j]
    ensures forall k :: k in ks <==> k in Rev<nat>(ks)
  {
    RevMultiset<nat>(ks);
    assert forall k :: k in ks <==> k in multiset(ks);
    assert forall k :: k in Rev<nat>(ks) <==> k in multiset(Rev<nat>(ks));
    forall i, j | 0 <= i < j < |ks|
      ensures Rev<nat>(ks)[i] > Rev<nat>(ks)[j]
    {
      RevAt<nat>(ks, i);
      RevAt<nat>(ks, j);
    }
  }

  lemma RewriteFits(ls: seq<Lexeme>, e: TextEdit, k: nat, f: map<nat, seq<Lexeme>>)
    requires RewriteAt(TokensOf(ls, 0), e, k, f)
    ensures Fits(Flatten(ls), TokensOf(ls, 0)[k], e, f[k])
  {
    hide Flatten, TokensOf, Fits;
    TokenInside(ls, k);
    FitsReplace(Flatten(ls), TokensOf(ls, 0)[k], e, f[k]);
  }

  lemma RewritesEdits(codec: Codec, ls: seq<Lexeme>, es: seq<TextEdit>, ks: seq<nat>, f: map<nat, seq<Lexeme>>)
    requires WellFormed(codec, ls) && Rewrites(TokensOf(ls, 0), es, ks, f)
    ensures Edits(ls, Rev<nat>(ks), SortDown(es), f)
  {
    hide WellFormed, Flatten, TokensOf, TokenCount, Fits, SortDown, Rev;
    RewritesSorted(codec, ls, es, ks, f);
    RevKeys(ks);
    var ts := TokensOf(ls, 0);
    forall i | 0 <= i < |ks|
      ensures Rev<nat>(ks)[i] < |ts| && Rev<nat>(ks)[i] in f && Fits(Flatten(ls), ts[Rev<nat>(ks)[i]], Rev(es)[i], f[Rev<nat>(ks)[i]])
    {
      RevAt<nat>(ks, i);
      RevAt(es, i);
      var j := |ks| - 1 - i;
      assert RewriteAt(ts, es[j], ks[j], f);
      RewriteFits(ls, es[j], ks[j], f);
    }
  }

  lemma RewritesRealize(codec: Codec, ls: seq<Lexeme>, es: seq<TextEdit>, ks: seq<nat>, f: map<nat, seq<Lexeme>>)
    requires WellFormed(codec, ls) && Rewrites(TokensOf(ls, 0), es, ks, f)
    requires forall k :: k in f ==> CommentsOf(f[k]) == []
    requires Decodes(codec) ==> forall k :: k in f ==> Placed(codec, ls, f, k)
    ensures Realizes(codec, ls, es, Rev<nat>(ks), f)
  {
    RewritesEdits(codec, ls, es, ks, f);
    hide Edits, TokensOf, Suits, Placed, WellFormed, CommentsOf, Decodes, SortDown;
    if Decodes(codec) { SuitsWhole(codec, ls, f); }
  }

  /* ---- the pinned and the dropped entries ---- */

  function PinKeys(x: nat, rs: seq<nat>): (ks: seq<nat>)
    requires rs != []
    ensures ks != []
  {
    [x + 1 + 2 * rs[0]] + DropKeys(x, rs[1..])
  }

  function PinMap(ks: seq<nat>, piece: seq<Lexeme>): map<nat, seq<Lexeme>>
    requires ks != []
  {
    map q | q in ks :: if q == ks[0] then piece else []
  }

  lemma PinKeysAscend(x: nat, rs: seq<nat>)
    requires rs != [] && Ascending(rs)
    ensures Ascending(PinKeys(x, rs))
  {
    DropKeysAscend(x, rs[1..]);
    var tail := DropKeys(x, rs[1..]);
    assert forall k :: 0 <= k < |tail| ==> tail[k] in tail;
  }

  lemma RewritesCons(ts: seq<Token>, es: seq<TextEdit>, ks: seq<nat>, p: nat, piece: seq<Lexeme>)
    requires Erases(ts, es, ks) && p < |ts| && Ascending([p] + ks)
    ensures Rewrites(ts, [TextEdit(ts[p].start, ts[p].end, Flatten(piece))] + es, [p] + ks, PinMap([p] + ks, piece))
  {
    PieceNil();
    hide Flatten;
    var qs, ds, f := [p] + ks, [TextEdit(ts[p].start, ts[p].end, Flatten(piece))] + es, PinMap([p] + ks, piece);
    forall i | 0 <= i < |qs|
      ensures RewriteAt(ts, ds[i], qs[i], f)
    {
      if i > 0 { assert ds[i] == es[i - 1] && qs[i] == ks[i - 1]; }
    }
  }

  lemma PinRewrites(a: Doc, x: nat, c: nat, v: Node, es: seq<Symbol>, t: bool, rs: seq<nat>, piece: seq<Lexeme>)
    requires PluginArray(a, x, c, v, es, t) && Anchored(a.ts, v) && |v.elements| == |es|
    requires rs != [] && Ascending(rs) && forall k :: 0 <= k < |rs| ==> rs[k] < |es|
    ensures x + 1 + 2 * rs[0] < |a.ts| && forall k :: 0 <= k < |rs[1..]| ==> 0 < rs[1..][k] < |v.elements|
    ensures var tok := a.ts[x + 1 + 2 * rs[0]];
            Rewrites(a.ts, [TextEdit(tok.start, tok.end, Flatten(piece))] + DropEdits(a.ts, v, rs[1..]),
                     PinKeys(x, rs), PinMap(PinKeys(x, rs), piece))
  {
    hide PluginArray, Anchored, Rewrites, Erases, DropEdits, DropKeys, PinMap, Flatten;
    ValidLength(a, x, c, v, es, t);
    ArrayEntry(a, x, c, v, es, t, rs[0]);
    PinKeysAscend(x, rs);
    DropEditsErase(a, x, c, v, es, t, rs[1..]);
    RewritesCons(a.ts, DropEdits(a.ts, v, rs[1..]), DropKeys(x, rs[1..]), x + 1 + 2 * rs[0], piece);
  }
}
