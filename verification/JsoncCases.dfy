/** The plans of the editor, case by case: each realizes a substitution, and the
    tokens of the substituted document are those of the original with the plugin
    row exchanged or the plugin property appended. */
module JsoncCases {
  import opened Base
  import opened JsoncLexer
  import opened JsoncSplice
  import opened JsoncParser
  import opened JsoncDocument
  import opened JsoncRows
  import opened JsoncEditor
  import opened JsoncPlan
  import opened JsoncPin

  /* ---- the row after pinning ---- */

  // Entry d and the comma before it, d entries on from the comma at token `at`.
  ghost predicate Gone(f: map<nat, seq<Lexeme>>, at: nat, es: seq<Symbol>, d: nat)
    requires d < |es|
  {
    && (at + 2 * d in f <==> Relay(es[d])) && (at + 2 * d + 1 in f <==> Relay(es[d]))
    && (Relay(es[d]) ==> SymbolsOf(f[at + 2 * d]) == [] && SymbolsOf(f[at + 2 * d + 1]) == [])
  }

  ghost predicate AllGone(f: map<nat, seq<Lexeme>>, at: nat, es: seq<Symbol>) {
    forall d :: 0 <= d < |es| ==> Gone(f, at, es, d)
  }

  lemma GoneTail(f: map<nat, seq<Lexeme>>, at: nat, es: seq<Symbol>)
    requires AllGone(f, at, es) && es != []
    ensures AllGone(f, at + 2, es[1..]) && Gone(f, at, es, 0)
  {
    hide SymbolsOf, Relay;
    var tail, n := es[1..], at + 2;
    forall d | 0 <= d < |tail|
      ensures Gone(f, n, tail, d)
    {
      assert Gone(f, at, es, d + 1);
      assert at + 2 * (d + 1) == n + 2 * d;
    }
  }

  lemma SymbolSubstTwo(s: Symbol, u: Symbol, rest: seq<Symbol>, n: nat, f: map<nat, seq<Lexeme>>)
    ensures SymbolSubst([s] + ([u] + rest), n, f)
         == (if n in f then SymbolsOf(f[n]) else [s])
            + ((if n + 1 in f then SymbolsOf(f[n + 1]) else [u]) + SymbolSubst(rest, n + 2, f))
  {
    hide SymbolsOf;
    SymbolSubstOne(s, [u] + rest, n, f);
    SymbolSubstOne(u, rest, n + 1, f);
  }

  lemma SymbolSubstOne(s: Symbol, rest: seq<Symbol>, n: nat, f: map<nat, seq<Lexeme>>)
    ensures SymbolSubst([s] + rest, n, f) == (if n in f then SymbolsOf(f[n]) else [s]) + SymbolSubst(rest, n + 1, f)
  {
    hide SymbolsOf;
    assert ([s] + rest)[1..] == rest;
  }

  lemma OthersCons(s: Symbol, es: seq<Symbol>)
    ensures Others([s] + es) == (if Relay(s) then [] else [s]) + Others(es)
  {
    hide Relay;
    assert ([s] + es)[1..] == es;
  }

  lemma TailCons(s: Symbol, es: seq<Symbol>, t: bool)
    ensures RowTail([s] + es, t) == [COMMA] + ([s] + RowTail(es, t))
  {
    assert ([s] + es)[1..] == es;
  }

  lemma {:induction false} DropRow(es: seq<Symbol>, t: bool, at: nat, f: map<nat, seq<Lexeme>>)
    requires AllGone(f, at, es) && at + 2 * |es| !in f
    ensures SymbolSubst(RowTail(es, t), at, f) == RowTail(Others(es), t)
  {
    hide SymbolsOf, Relay;
    if es == [] {
      if t {
        SymbolSubstOne(COMMA, [], at, f);
        assert [COMMA] + [] == [COMMA];
      }
    } else {
      var s, tail := es[0], es[1..];
      GoneTail(f, at, es);
      DropRow(tail, t, at + 2, f);
      assert es == [s] + tail;
      TailCons(s, tail, t);
      SymbolSubstTwo(COMMA, s, RowTail(tail, t), at, f);
      OthersCons(s, tail);
      if Relay(s) {
        assert [] + Others(tail) == Others(tail);
      } else {
        TailCons(s, Others(tail), t);
      }
    }
  }

  // f leaves the entries before r alone, pins entry r and drops the later ones.
  ghost predicate Pins(f: map<nat, seq<Lexeme>>, at: nat, es: seq<Symbol>, r: nat) {
    && r < |es| && Relay(es[r]) && at + 2 * |es| - 1 !in f
    && (forall d :: 0 <= d < r ==> !Relay(es[d]))
    && (forall q :: at <= q < at + 2 * r ==> q !in f)
    && at + 2 * r in f && SymbolsOf(f[at + 2 * r]) == [PIN]
    && AllGone(f, at + 2 * r + 1, es[r + 1..])
  }

  lemma PinCons(s: Symbol, es: seq<Symbol>)
    ensures Pin([s] + es) == if Relay(s) then [PIN] + Others(es) else [s] + Pin(es)
    ensures Pin(es) != []
  {
    hide Relay, Others;
    assert ([s] + es)[1..] == es;
  }

  lemma PinsTail(f: map<nat, seq<Lexeme>>, at: nat, es: seq<Symbol>, r: nat)
    requires Pins(f, at, es, r) && 0 < r
    ensures Pins(f, at + 2, es[1..], r - 1) && at !in f && at + 1 !in f && !Relay(es[0])
  {
    hide SymbolsOf, Relay, AllGone;
    var tail := es[1..];
    assert tail[r..] == es[r + 1..] && at + 2 + 2 * (r - 1) == at + 2 * r;
    forall d | 0 <= d < r - 1
      ensures !Relay(tail[d])
    {
      assert tail[d] == es[d + 1];
    }
  }

  lemma {:induction false} PinRow(es: seq<Symbol>, t: bool, at: nat, f: map<nat, seq<Lexeme>>, r: nat)
    requires Pins(f, at, es, r)
    ensures SymbolSubst(Row(es, t), at, f) == Row(Pin(es), t)
    decreases r
  {
    hide SymbolsOf, Relay, AllGone, Others;
    var s, tail := es[0], es[1..];
    assert es == [s] + tail;
    RowCons(s, tail, t);
    PinCons(s, tail);
    if r == 0 {
      DropRow(tail, t, at + 1, f);
      SymbolSubstOne(s, RowTail(tail, t), at, f);
      RowCons(PIN, Others(tail), t);
    } else {
      PinsTail(f, at, es, r);
      PinRow(tail, t, at + 2, f, r - 1);
      SymbolSubstTwo(s, COMMA, Row(tail, t), at, f);
      RowCons(s, Pin(tail), t);
    }
  }

  lemma PinMapAt(x: nat, rs: seq<nat>, piece: seq<Lexeme>, d: nat)
    requires rs != [] && Ascending(rs)
    ensures var f := PinMap(PinKeys(x, rs), piece);
            && (x + 1 + 2 * d in f <==> d in rs) && (x + 2 * d in f <==> d in rs && d != rs[0])
            && (d in rs ==> f[x + 1 + 2 * d] == if d == rs[0] then piece else [])
            && (d in rs && d != rs[0] ==> f[x + 2 * d] == [])
  {
    DropKeysHas(x, rs[1..], d);
    assert rs == [rs[0]] + rs[1..];
    assert forall k :: 0 <= k < |rs[1..]| ==> rs[0] < rs[1..][k];
  }

  // rs lists the relay-flow entries of es.
  ghost predicate Lists(rs: seq<nat>, es: seq<Symbol>) {
    Ascending(rs) && forall d: nat :: d in rs <==> d < |es| && Relay(es[d])
  }

  lemma PinMapPins(x: nat, rs: seq<nat>, es: seq<Symbol>, piece: seq<Lexeme>)
    requires Lists(rs, es) && rs != [] && SymbolsOf(piece) == [PIN]
    ensures Pins(PinMap(PinKeys(x, rs), piece), x + 1, es, rs[0])
  {
    hide Relay, SymbolsOf, PinMap, PinKeys;
    PieceNil();
    var f, r := PinMap(PinKeys(x, rs), piece), rs[0];
    assert r in rs;
    PinMapAt(x, rs, piece, |es|);
    PinMapAt(x, rs, piece, r);
    forall q: nat | x + 1 <= q < x + 1 + 2 * r
      ensures q !in f
    {
      PinMapAt(x, rs, piece, (q - x) / 2);
      assert q == x + 2 * ((q - x) / 2) || q == x + 1 + 2 * ((q - x) / 2);
    }
    var tail, at := es[r + 1..], x + 1 + 2 * r + 1;
    forall d | 0 <= d < |tail|
      ensures Gone(f, at, tail, d)
    {
      PinMapAt(x, rs, piece, r + 1 + d);
      assert at + 2 * d == x + 2 * (r + 1 + d) && tail[d] == es[r + 1 + d];
    }
  }

  // Tokens x + 1 to c replaced by `row`.
  function Exchanged(syms: seq<Symbol>, x: nat, c: nat, row: seq<Symbol>): seq<Symbol>
    requires x < c <= |syms|
  {
    syms[..x + 1] + row + syms[c..]
  }

  lemma SubstInside(syms: seq<Symbol>, x: nat, c: nat, row: seq<Symbol>, f: map<nat, seq<Lexeme>>)
    requires x < c <= |syms| && (forall q :: q in f ==> x < q < c)
    requires SymbolSubst(syms[x + 1..c], x + 1, f) == row
    ensures SymbolSubst(syms, 0, f) == Exchanged(syms, x, c, row)
  {
    hide SymbolSubst, SymbolsOf;
    var p, m, q := syms[..x + 1], syms[x + 1..c], syms[c..];
    assert syms == p + (m + q);
    SymbolSubstAppend(p, m + q, 0, f);
    SymbolSubstAppend(m, q, x + 1, f);
    SymbolSubstNone(p, 0, f);
    SymbolSubstNone(q, c, f);
    assert p + (row + q) == p + row + q;
  }

  /* ---- an array with a relay-flow entry ---- */

  lemma {:induction false} RowKinds(es: seq<Symbol>, t: bool)
    requires Strings(es)
    ensures forall k :: 0 <= k < |Row(es, t)| ==> Row(es, t)[k].kind != 'v'
  {
    if es == [] {
    } else {
      var tail := es[1..];
      assert es == [es[0]] + tail;
      RowCons(es[0], tail, t);
      RowKinds(tail, t);
    }
  }

  // No token of the array is an unquoted literal.
  lemma NoLiteralBefore(a: Doc, x: nat, c: nat, v: Node, es: seq<Symbol>, t: bool, q: nat)
    requires PluginArray(a, x, c, v, es, t) && x < q <= c
    ensures a.syms[q - 1].kind != 'v'
  {
    RowKinds(es, t);
    hide Row, Anchored, StringNodes;
    if q - 1 > x { assert a.syms[x + 1..c][q - 2 - x] == a.syms[q - 1]; }
  }

  lemma RelayList(a: Doc, x: nat, c: nat, v: Node, es: seq<Symbol>, t: bool, rs: seq<nat>)
    requires PluginArray(a, x, c, v, es, t) && Anchored(a.ts, v) && RelayIndices(a.ts, v, 0) == Ok(rs)
    ensures Lists(rs, es) && |v.elements| == |es|
    ensures rs != [] ==> rs[0] < |es| && v.elements[rs[0]].startToken == x + 1 + 2 * rs[0]
  {
    hide PluginArray, Anchored, RelayIndices, IsRelay;
    ArrayEnd(a, x, c, v, es, t);
    ValidLength(a, x, c, v, es, t);
    RelayIndicesRange(a.ts, v, 0);
    forall d: nat
      ensures d in rs <==> d < |es| && Relay(es[d])
    {
      if d < |es| { ArrayEntry(a, x, c, v, es, t, d); }
    }
    if rs != [] { ArrayEntry(a, x, c, v, es, t, rs[0]); }
  }

  lemma PinPlaced(codec: Codec, ls: seq<Lexeme>, x: nat, c: nat, v: Node, es: seq<Symbol>, t: bool, f: map<nat, seq<Lexeme>>, q: nat)
    requires WellFormed(codec, ls) && PluginArray(DocOf(ls), x, c, v, es, t)
    requires x < q < c && q in f && Solid(codec, f[q])
    ensures Placed(codec, ls, f, q)
  {
    DocValid(ls);
    NoLiteralBefore(DocOf(ls), x, c, v, es, t, q);
    assert q < |SymbolsOf(ls)|;
    hide PluginArray, WellFormed, SymbolsOf, TokenCount, Solid;
    FitSolid(codec, LexemeAt(ls, q), f[q]);
    hide Fitting, LexemeAt;
  }

  lemma {:induction false} DropKeyOf(x: nat, ds: seq<nat>, q: nat) returns (d: nat)
    requires q in DropKeys(x, ds)
    ensures d in ds && (q == x + 2 * d || q == x + 1 + 2 * d)
  {
    d := ds[0];
    if q != x + 2 * d && q != x + 1 + 2 * d {
      d := DropKeyOf(x, ds[1..], q);
    }
  }

  lemma KeysInside(a: Doc, x: nat, c: nat, v: Node, es: seq<Symbol>, t: bool, rs: seq<nat>, q: nat)
    requires PluginArray(a, x, c, v, es, t) && Lists(rs, es) && rs != [] && q in PinKeys(x, rs)
    ensures x < q < c
  {
    hide PluginArray, Relay;
    var d := rs[0];
    assert rs[0] in rs && forall k :: 0 <= k < |rs[1..]| ==> rs[0] < rs[1..][k];
    if q != x + 1 + 2 * d {
      d := DropKeyOf(x, rs[1..], q);
      assert d in rs && d > 0;
    }
    ArrayEntry(a, x, c, v, es, t, d);
  }

  lemma PinSubst(ls: seq<Lexeme>, x: nat, c: nat, v: Node, es: seq<Symbol>, t: bool, rs: seq<nat>, piece: seq<Lexeme>)
    requires PluginArray(DocOf(ls), x, c, v, es, t) && Lists(rs, es) && rs != [] && SymbolsOf(piece) == [PIN]
    ensures c <= |SymbolsOf(ls)|
    ensures SymbolSubst(SymbolsOf(ls), 0, PinMap(PinKeys(x, rs), piece)) == Exchanged(SymbolsOf(ls), x, c, Row(Pin(es), t))
  {
    PinMapPins(x, rs, es, piece);
    var f := PinMap(PinKeys(x, rs), piece);
    PinRow(es, t, x + 1, f, rs[0]);
    hide SymbolSubst, Pins, Lists, PinKeys, Anchored, TokensOf, SymbolsOf, Pin, Strings, StringNodes;
    forall q | q in f
      ensures x < q < c
    {
      KeysInside(DocOf(ls), x, c, v, es, t, rs, q);
    }
    SubstInside(SymbolsOf(ls), x, c, Row(Pin(es), t), f);
  }

  lemma PinRealizes(codec: Codec, ls: seq<Lexeme>, x: nat, c: nat, v: Node, es: seq<Symbol>, t: bool, rs: seq<nat>,
                    piece: seq<Lexeme>, edits: seq<TextEdit>)
    requires WellFormed(codec, ls) && PluginArray(DocOf(ls), x, c, v, es, t) && Lists(rs, es) && rs != []
    requires CommentsOf(piece) == [] && (Decodes(codec) ==> Solid(codec, piece))
    requires Rewrites(TokensOf(ls, 0), edits, PinKeys(x, rs), PinMap(PinKeys(x, rs), piece))
    ensures Realizes(codec, ls, edits, Rev<nat>(PinKeys(x, rs)), PinMap(PinKeys(x, rs), piece))
  {
    var ks, f := PinKeys(x, rs), PinMap(PinKeys(x, rs), piece);
    assert Solid(codec, []);
    PieceNil();
    hide WellFormed, PluginArray, Rewrites, Decodes, Placed, Realizes, Lists, PinKeys, Solid, CommentsOf, TokensOf;
    if Decodes(codec) {
      forall q | q in f
        ensures Placed(codec, ls, f, q)
      {
        KeysInside(DocOf(ls), x, c, v, es, t, rs, q);
        PinPlaced(codec, ls, x, c, v, es, t, f, q);
      }
    }
    RewritesRealize(codec, ls, edits, ks, f);
  }

  lemma PinPieceReads()
    ensures SymbolsOf([QUOTED_LEXEME]) == [PIN]
  {
    hide SymbolsOf;
    PieceNil();
    PieceCons(QUOTED_LEXEME, []);
    assert [QUOTED_LEXEME] == [QUOTED_LEXEME] + [];
  }

  lemma PinCase(codec: Codec, ls: seq<Lexeme>, x: nat, c: nat, v: Node, es: seq<Symbol>, t: bool)
    returns (edits: seq<TextEdit>, ks: seq<nat>, f: map<nat, seq<Lexeme>>)
    requires WellFormed(codec, ls) && PluginArray(DocOf(ls), x, c, v, es, t) && Anchored(TokensOf(ls, 0), v)
    requires RelayIndices(TokensOf(ls, 0), v, 0).Ok? && RelayIndices(TokensOf(ls, 0), v, 0) != Ok([])
    ensures PinEdits(TokensOf(ls, 0), v) == Ok(edits) && Realizes(codec, ls, edits, ks, f)
    ensures c <= |SymbolsOf(ls)| && SymbolSubst(SymbolsOf(ls), 0, f) == Exchanged(SymbolsOf(ls), x, c, Row(Pin(es), t))
  {
    hide WellFormed, PluginArray, Rewrites, Decodes, Realizes, PinKeys, PinMap, Solid, CommentsOf, TokensOf, SymbolsOf;
    hide SymbolSubst, Pin, Row, Exchanged, Lists, RelayIndices, DropEdits, Anchored, Flatten, Relay;
    var ts, piece := TokensOf(ls, 0), [QUOTED_LEXEME];
    var rs := RelayIndices(ts, v, 0).value;
    RelayList(DocOf(ls), x, c, v, es, t, rs);
    assert Ascending(rs) && forall k :: 0 <= k < |rs| ==> rs[k] < |es| by { ListsInside(rs, es); }
    PinRewrites(DocOf(ls), x, c, v, es, t, rs, piece);
    QuotedTexts();
    PinPieceReads();
    PinSubst(ls, x, c, v, es, t, rs, piece);
    if Decodes(codec) { SolidQuoted(codec); }
    ks, f := Rev<nat>(PinKeys(x, rs)), PinMap(PinKeys(x, rs), piece);
    edits := PinEdits(ts, v).value;
    PinRealizes(codec, ls, x, c, v, es, t, rs, piece, edits);
  }

  lemma ListsInside(rs: seq<nat>, es: seq<Symbol>)
    requires Lists(rs, es)
    ensures Ascending(rs) && forall k :: 0 <= k < |rs| ==> rs[k] < |es|
  {
    assert forall k :: 0 <= k < |rs| ==> rs[k] in rs;
  }
}
