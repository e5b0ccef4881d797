/** applyTextEdits of internal/harness/opencode/repo_setup.go, and what splicing a
    text does to its lexemes.

    An edit that stays inside one token replaces that token's lexeme by a short
    sequence of lexemes. `SpliceIsSubst` turns a descending list of byte splices
    into one substitution, and `SubstWellFormed` says when the spliced text lexes
    back to exactly the substituted sequence. */
module JsoncSplice {
  import opened Base
  import opened JsoncLexer

  datatype TextEdit = TextEdit(start: nat, end: nat, text: string)

  /* ---- byte splices ---- */

  predicate InRange(e: TextEdit, n: nat) { e.start <= e.end <= n }

  function SpliceOne(data: string, e: TextEdit): string
    requires InRange(e, |data|)
  {
    data[..e.start] + e.text + data[e.end..]
  }

  // Each edit lies below the one before it, so its offsets still hold when its
  // turn comes.
  predicate Disjoint(es: seq<TextEdit>, n: nat) {
    es == [] || (InRange(es[0], n) && Disjoint(es[1..], es[0].start))
  }

  function SpliceAll(data: string, es: seq<TextEdit>): string
    requires Disjoint(es, |data|)
    decreases |es|
  {
    if es == [] then data
    else
      DisjointGrows(es[1..], es[0].start, |SpliceOne(data, es[0])|);
      SpliceAll(SpliceOne(data, es[0]), es[1..])
  }

  lemma DisjointGrows(es: seq<TextEdit>, n: nat, m: nat)
    requires Disjoint(es, n) && n <= m
    ensures Disjoint(es, m)
  {
  }

  lemma {:induction false} SplicePrefix(p: string, q: string, es: seq<TextEdit>)
    requires Disjoint(es, |p|)
    ensures Disjoint(es, |p + q|) && SpliceAll(p + q, es) == SpliceAll(p, es) + q
    decreases |es|
  {
    DisjointGrows(es, |p|, |p + q|);
    if es == [] {
    } else {
      var p' := SpliceOne(p, es[0]);
      assert SpliceOne(p + q, es[0]) == p' + q;
      DisjointGrows(es[1..], es[0].start, |p'|);
      SplicePrefix(p', q, es[1..]);
    }
  }

  /* ---- the exchange sort ---- */

  predicate Descending(es: seq<TextEdit>) { forall i, j :: 0 <= i < j < |es| ==> es[i].start >= es[j].start }

  predicate Strict(es: seq<TextEdit>) { forall i, j :: 0 <= i < j < |es| ==> es[i].start > es[j].start }

  function Exchange(es: seq<TextEdit>, i: nat, j: nat): (r: seq<TextEdit>)
    requires i < j <= |es|
    ensures |r| == |es|
    decreases |es| - j
  {
    if j == |es| then es
    else Exchange(if es[j].start > es[i].start then es[i := es[j]][j := es[i]] else es, i, j + 1)
  }

  function SortFrom(es: seq<TextEdit>, i: nat): (r: seq<TextEdit>)
    requires i <= |es|
    ensures |r| == |es|
    decreases |es| - i
  {
    if i == |es| then es else SortFrom(Exchange(es, i, i + 1), i + 1)
  }

  function SortDown(es: seq<TextEdit>): (r: seq<TextEdit>)
    ensures |r| == |es|
  {
    SortFrom(es, 0)
  }

  lemma {:induction false} ExchangeSpec(es: seq<TextEdit>, i: nat, j: nat)
    requires i < j <= |es|
    requires forall k :: i < k < j ==> es[i].start >= es[k].start
    ensures var r := Exchange(es, i, j);
            multiset(r) == multiset(es) && r[..i] == es[..i] && forall k :: i < k < |r| ==> r[i].start >= r[k].start
    ensures Descending(es) ==> Exchange(es, i, j) == es
    decreases |es| - j
  {
    if j < |es| {
      var next := if es[j].start > es[i].start then es[i := es[j]][j := es[i]] else es;
      assert next[..i] == es[..i];
      ExchangeSpec(next, i, j + 1);
    }
  }

  lemma {:induction false} ExchangeBound(es: seq<TextEdit>, i: nat, j: nat, bound: nat)
    requires i < j <= |es| && forall k :: i <= k < |es| ==> es[k].start <= bound
    ensures forall k :: i <= k < |es| ==> Exchange(es, i, j)[k].start <= bound
    decreases |es| - j
  {
    if j < |es| {
      ExchangeBound(if es[j].start > es[i].start then es[i := es[j]][j := es[i]] else es, i, j + 1, bound);
    }
  }

  lemma {:induction false} SortFromSpec(es: seq<TextEdit>, i: nat)
    requires i <= |es|
    requires forall a, b :: 0 <= a < b < |es| && a < i ==> es[a].start >= es[b].start
    ensures var r := SortFrom(es, i); multiset(r) == multiset(es) && Descending(r) && (Descending(es) ==> r == es)
    decreases |es| - i
  {
    if i < |es| {
      var next := Exchange(es, i, i + 1);
      ExchangeSpec(es, i, i + 1);
      forall a, b | 0 <= a < b < |next| && a < i + 1
        ensures next[a].start >= next[b].start
      {
        if a < i {
          assert next[..i][a] == es[a] && (b < i ==> next[..i][b] == es[b]);
          ExchangeBound(es, i, i + 1, es[a].start);
        }
      }
      SortFromSpec(next, i + 1);
    }
  }

  // The edits end up in descending order; a list already in that order, ties
  // included, is left alone.
  lemma SortDownSpec(es: seq<TextEdit>)
    ensures multiset(SortDown(es)) == multiset(es) && Descending(SortDown(es))
    ensures Descending(es) ==> SortDown(es) == es
  {
    SortFromSpec(es, 0);
  }

  lemma SameHead(xs: seq<TextEdit>, ys: seq<TextEdit>)
    requires Strict(xs) && Descending(ys) && multiset(xs) == multiset(ys) && xs != [] && ys != []
    ensures xs[0] == ys[0]
  {
    assert ys[0] in multiset(ys) && xs[0] in multiset(xs);
    assert ys[0] in xs && xs[0] in ys;
    var a :| 0 <= a < |ys| && ys[a] == xs[0];
    var b :| 0 <= b < |xs| && xs[b] == ys[0];
    assert ys[0].start >= ys[a].start;
  }

  lemma TailMultiset(xs: seq<TextEdit>)
    requires xs != []
    ensures multiset(xs[1..]) == multiset(xs) - multiset{xs[0]}
  {
    assert xs == [xs[0]] + xs[1..];
  }

  lemma {:induction false} DescendingUnique(xs: seq<TextEdit>, ys: seq<TextEdit>)
    requires Strict(xs) && Descending(ys) && multiset(xs) == multiset(ys)
    ensures xs == ys
    decreases |xs|
  {
    assert |multiset(xs)| == |xs| && |multiset(ys)| == |ys|;
    if xs == [] {
    } else {
      SameHead(xs, ys);
      TailMultiset(xs);
      TailMultiset(ys);
      DescendingUnique(xs[1..], ys[1..]);
      assert xs == [xs[0]] + xs[1..] && ys == [ys[0]] + ys[1..];
    }
  }

  // applyTextEdits: sort the edits in place, then splice a copy of the text.
  method ApplyTextEdits(data: string, edits: array<TextEdit>) returns (out: string)
    requires Disjoint(SortDown(edits[..]), |data|)
    modifies edits
    ensures edits[..] == SortDown(old(edits[..]))
    ensures out == SpliceAll(data, SortDown(old(edits[..])))
  {
    ghost var was := edits[..];
    var i := 0;
    while i < edits.Length
      invariant 0 <= i <= edits.Length
      invariant SortFrom(edits[..], i) == SortDown(was)
    {
      ghost var row := edits[..];
      var j := i + 1;
      while j < edits.Length
        invariant i < j <= edits.Length
        invariant Exchange(edits[..], i, j) == Exchange(row, i, i + 1)
      {
        ghost var before := edits[..];
        if edits[j].start > edits[i].start {
          edits[i], edits[j] := edits[j], edits[i];
          assert edits[..] == before[i := before[j]][j := before[i]];
        }
        j := j + 1;
      }
      i := i + 1;
    }
    assert edits[..] == SortDown(was);
    out := data;
    var k := 0;
    while k < edits.Length
      invariant 0 <= k <= edits.Length
      invariant edits[..] == SortDown(was)
      invariant Disjoint(edits[k..], |out|) && SpliceAll(out, edits[k..]) == SpliceAll(data, SortDown(was))
    {
      var edit := edits[k];
      assert edits[k..][0] == edit && edits[k..][1..] == edits[k + 1..];
      DisjointGrows(edits[k + 1..], edit.start, |SpliceOne(out, edit)|);
      out := out[..edit.start] + edit.text + out[edit.end..];
      k := k + 1;
    }
  }

  /* ---- substitution of lexemes for tokens ---- */

  // Token number n, n + 1, ... of ls replaced by what f holds for it.
  ghost function Subst(ls: seq<Lexeme>, n: nat, f: map<nat, seq<Lexeme>>): seq<Lexeme> {
    if ls == [] then []
    else if !ls[0].IsToken() then [ls[0]] + Subst(ls[1..], n, f)
    else (if n in f then f[n] else [ls[0]]) + Subst(ls[1..], n + 1, f)
  }

  function TokenCount(ls: seq<Lexeme>): nat {
    if ls == [] then 0 else (if ls[0].IsToken() then 1 else 0) + TokenCount(ls[1..])
  }

  lemma {:induction false} FlattenAppend(xs: seq<Lexeme>, ys: seq<Lexeme>)
    ensures Flatten(xs + ys) == Flatten(xs) + Flatten(ys)
  {
    if xs == [] {
      assert xs + ys == ys;
    } else {
      assert (xs + ys)[1..] == xs[1..] + ys;
      FlattenAppend(xs[1..], ys);
    }
  }

  lemma {:induction false} SubstAppend(xs: seq<Lexeme>, ys: seq<Lexeme>, n: nat, f: map<nat, seq<Lexeme>>)
    ensures Subst(xs + ys, n, f) == Subst(xs, n, f) + Subst(ys, n + TokenCount(xs), f)
  {
    if xs == [] {
      assert xs + ys == ys;
    } else {
      assert (xs + ys)[1..] == xs[1..] + ys;
      SubstAppend(xs[1..], ys, if xs[0].IsToken() then n + 1 else n, f);
    }
  }

  // Only the pieces for tokens that occur matter.
  lemma {:induction false} SubstAgree(ls: seq<Lexeme>, n: nat, f: map<nat, seq<Lexeme>>, g: map<nat, seq<Lexeme>>)
    requires forall k :: n <= k < n + TokenCount(ls) ==> (k in f <==> k in g) && (k in f ==> f[k] == g[k])
    ensures Subst(ls, n, f) == Subst(ls, n, g)
  {
    if ls == [] {
    } else {
      SubstAgree(ls[1..], if ls[0].IsToken() then n + 1 else n, f, g);
    }
  }

  lemma {:induction false} SubstNone(ls: seq<Lexeme>, n: nat)
    ensures Subst(ls, n, map[]) == ls
  {
    if ls == [] {
    } else {
      SubstNone(ls[1..], if ls[0].IsToken() then n + 1 else n);
    }
  }

  lemma {:induction false} TokensOfCount(ls: seq<Lexeme>, at: nat)
    ensures |TokensOf(ls, at)| == TokenCount(ls)
  {
    if ls == [] {
    } else {
      TokensOfCount(ls[1..], at + |ls[0].Text()|);
    }
  }

  lemma {:induction false} TokensOfAppend(xs: seq<Lexeme>, ys: seq<Lexeme>, at: nat)
    ensures TokensOf(xs + ys, at) == TokensOf(xs, at) + TokensOf(ys, at + |Flatten(xs)|)
  {
    if xs == [] {
      assert xs + ys == ys;
    } else {
      assert (xs + ys)[1..] == xs[1..] + ys;
      TokensOfAppend(xs[1..], ys, at + |xs[0].Text()|);
    }
  }

  // The lexemes before token k, its own, and the ones after it.
  lemma {:induction false} SplitAtToken(ls: seq<Lexeme>, k: nat) returns (xs: seq<Lexeme>, l: Lexeme, ys: seq<Lexeme>)
    requires k < TokenCount(ls)
    ensures ls == xs + [l] + ys && l.IsToken() && TokenCount(xs) == k
  {
    var h, t := ls[0], ls[1..];
    if h.IsToken() && k == 0 {
      xs, l, ys := [], h, t;
    } else {
      xs, l, ys := SplitAtToken(t, if h.IsToken() then k - 1 else k);
      assert ([h] + xs)[1..] == xs;
      xs := [h] + xs;
      assert ls == xs + [l] + ys;
    }
  }

  lemma TokenAtSplit(xs: seq<Lexeme>, l: Lexeme, ys: seq<Lexeme>, at: nat)
    requires l.IsToken()
    ensures var ts := TokensOf(xs + [l] + ys, at); var k := TokenCount(xs); var p := at + |Flatten(xs)|;
            k < |ts| && ts[k] == Token(l.Kind(), p, p + |l.Text()|, l.Value()) && ts[..k] == TokensOf(xs, at)
  {
    TokensOfCount(xs, at);
    TokensOfAppend(xs, [l] + ys, at);
    assert xs + ([l] + ys) == xs + [l] + ys;
    TokensOfCons(l, ys, at + |Flatten(xs)|);
  }

  /* ---- a descending list of edits is one substitution ---- */

  // Edit e, made inside token t of the document, turns its lexeme into `piece`.
  ghost predicate Fits(data: string, t: Token, e: TextEdit, piece: seq<Lexeme>) {
    && t.start <= e.start <= e.end <= t.end <= |data|
    && Flatten(piece) == data[t.start..e.start] + e.text + data[e.end..t.end]
  }

  ghost predicate Edits(ls: seq<Lexeme>, ks: seq<nat>, es: seq<TextEdit>, f: map<nat, seq<Lexeme>>) {
    var ts := TokensOf(ls, 0);
    && |ks| == |es|
    && (forall i, j :: 0 <= i < j < |ks| ==> ks[i] > ks[j])
    && (forall k :: k in f <==> k in ks)
    && forall i :: 0 <= i < |ks| ==> ks[i] < |ts| && ks[i] in f && Fits(Flatten(ls), ts[ks[i]], es[i], f[ks[i]])
  }

  // Where the middle lexeme of a document stands.
  lemma Layout(xs: seq<Lexeme>, l: Lexeme, ys: seq<Lexeme>)
    requires l.IsToken()
    ensures var ls, p, k := xs + [l] + ys, Flatten(xs), TokenCount(xs);
            && Flatten(ls) == p + l.Text() + Flatten(ys)
            && k < |TokensOf(ls, 0)|
            && TokensOf(ls, 0)[k] == Token(l.Kind(), |p|, |p| + |l.Text()|, l.Value())
            && TokensOf(ls, 0)[..k] == TokensOf(xs, 0)
            && |TokensOf(xs, 0)| == k
  {
    TokenAtSplit(xs, l, ys, 0);
    TokensOfCount(xs, 0);
    FlattenAppend(xs + [l], ys);
    FlattenAppend(xs, [l]);
    assert Flatten([l]) == l.Text();
  }

  lemma TokenInside(ls: seq<Lexeme>, k: nat)
    requires k < |TokensOf(ls, 0)|
    ensures TokensOf(ls, 0)[k].start <= TokensOf(ls, 0)[k].end <= |Flatten(ls)|
  {
    TokensOfCount(ls, 0);
    var xs, l, ys := SplitAtToken(ls, k);
    Layout(xs, l, ys);
  }

  lemma FitsPrefix(p: string, rest: string, t: Token, e: TextEdit, piece: seq<Lexeme>)
    requires t.end <= |p| && Fits(p + rest, t, e, piece)
    ensures Fits(p, t, e, piece)
  {
    hide Flatten;
    assert (p + rest)[t.start..e.start] == p[t.start..e.start];
    assert (p + rest)[e.end..t.end] == p[e.end..t.end];
  }

  lemma EditsTail(xs: seq<Lexeme>, l: Lexeme, ys: seq<Lexeme>, ks: seq<nat>, es: seq<TextEdit>, f: map<nat, seq<Lexeme>>)
    requires l.IsToken() && Edits(xs + [l] + ys, ks, es, f) && ks != [] && TokenCount(xs) == ks[0]
    ensures Edits(xs, ks[1..], es[1..], f - {ks[0]})
  {
    hide Flatten, TokensOf, TokenCount, Fits;
    Layout(xs, l, ys);
    var p, ts, us := Flatten(xs), TokensOf(xs + [l] + ys, 0), TokensOf(xs, 0);
    var rest := l.Text() + Flatten(ys);
    assert Flatten(xs + [l] + ys) == p + rest;
    var g := f - {ks[0]};
    forall i | 0 <= i < |ks[1..]|
      ensures ks[1..][i] < |us| && ks[1..][i] in g && Fits(p, us[ks[1..][i]], es[1..][i], g[ks[1..][i]])
    {
      var k := ks[i + 1];
      assert ks[0] > k && us[k] == ts[..ks[0]][k] == ts[k];
      TokenInside(xs, k);
      FitsPrefix(p, rest, us[k], es[i + 1], f[k]);
    }
  }

  lemma SubstOne(xs: seq<Lexeme>, l: Lexeme, ys: seq<Lexeme>, f: map<nat, seq<Lexeme>>)
    requires l.IsToken() && TokenCount(xs) in f
    requires forall k :: k in f ==> k <= TokenCount(xs)
    ensures Subst(xs + [l] + ys, 0, f) == Subst(xs, 0, f - {TokenCount(xs)}) + (f[TokenCount(xs)] + ys)
  {
    var k := TokenCount(xs);
    SubstAppend(xs, [l] + ys, 0, f);
    assert xs + ([l] + ys) == xs + [l] + ys;
    SubstAgree(xs, 0, f, f - {k});
    assert ([l] + ys)[1..] == ys;
    SubstAgree(ys, k + 1, f, map[]);
    SubstNone(ys, k + 1);
  }

  lemma SpliceMiddle(p: string, m: string, q: string, e: TextEdit, piece: string)
    requires |p| <= e.start <= e.end <= |p| + |m|
    requires piece == (p + m + q)[|p|..e.start] + e.text + (p + m + q)[e.end..|p| + |m|]
    ensures SpliceOne(p + m + q, e) == p + (piece + q)
  {
    var data := p + m + q;
    assert data[..e.start] == p + data[|p|..e.start];
    assert data[e.end..] == data[e.end..|p| + |m|] + q;
  }

  lemma SpliceOneToken(xs: seq<Lexeme>, l: Lexeme, ys: seq<Lexeme>, e: TextEdit, piece: seq<Lexeme>)
    requires l.IsToken()
    requires var ls := xs + [l] + ys; TokenCount(xs) < |TokensOf(ls, 0)| && Fits(Flatten(ls), TokensOf(ls, 0)[TokenCount(xs)], e, piece)
    ensures InRange(e, |Flatten(xs + [l] + ys)|) && |Flatten(xs)| <= e.start
    ensures SpliceOne(Flatten(xs + [l] + ys), e) == Flatten(xs) + Flatten(piece + ys)
  {
    hide Flatten, TokensOf, TokenCount, SpliceOne;
    Layout(xs, l, ys);
    FlattenAppend(piece, ys);
    SpliceMiddle(Flatten(xs), l.Text(), Flatten(ys), e, Flatten(piece));
  }

  lemma {:induction false} SpliceIsSubst(ls: seq<Lexeme>, ks: seq<nat>, es: seq<TextEdit>, f: map<nat, seq<Lexeme>>)
    requires Edits(ls, ks, es, f)
    ensures Disjoint(es, |Flatten(ls)|) && SpliceAll(Flatten(ls), es) == Flatten(Subst(ls, 0, f))
    decreases |ks|
  {
    if ks == [] {
      assert f == map[];
      SubstNone(ls, 0);
    } else {
      TokensOfCount(ls, 0);
      var xs, l, ys := SplitAtToken(ls, ks[0]);
      EditsTail(xs, l, ys, ks, es, f);
      SpliceOneToken(xs, l, ys, es[0], f[ks[0]]);
      SubstOne(xs, l, ys, f);
      SpliceIsSubst(xs, ks[1..], es[1..], f - {ks[0]});
      DisjointGrows(es[1..], |Flatten(xs)|, es[0].start);
      SplicePrefix(Flatten(xs), Flatten(f[ks[0]] + ys), es[1..]);
      FlattenAppend(Subst(xs, 0, f - {ks[0]}), f[ks[0]] + ys);
    }
  }
}
