/** Plans that only insert: a new last entry of the array, and a new last property
    of the root object. */
module JsoncInsert {
  import opened Base
  import opened JsoncLexer
  import opened JsoncSplice
  import opened JsoncParser
  import opened JsoncDocument
  import opened JsoncRows
  import opened JsoncEditor
  import opened JsoncPlan
  import opened JsoncPin
  import opened JsoncCases

  /* ---- one insertion ---- */

  lemma SubstSingle(syms: seq<Symbol>, k: nat, piece: seq<Lexeme>)
    requires k < |syms|
    ensures SymbolSubst(syms, 0, map[k := piece]) == syms[..k] + SymbolsOf(piece) + syms[k + 1..]
  {
    hide SymbolSubst, SymbolsOf;
    var f, p, q := map[k := piece], syms[..k], syms[k + 1..];
    assert syms == p + ([syms[k]] + q);
    assert forall q :: q in f <==> q == k;
    SymbolSubstAppend(p, [syms[k]] + q, 0, f);
    SymbolSubstOne(syms[k], q, k, f);
    SymbolSubstNone(p, 0, f);
    SymbolSubstNone(q, k + 1, f);
    assert p + (SymbolsOf(piece) + q) == p + SymbolsOf(piece) + q;
  }

  lemma SingleToken(l: Lexeme)
    requires l.IsToken()
    ensures SymbolsOf([l]) == [SymbolOf(l)] && CommentsOf([l]) == []
  {
    assert [l][1..] == [];
  }

  lemma TokenLexeme(codec: Codec, ls: seq<Lexeme>, k: nat) returns (l: Lexeme)
    requires WellFormed(codec, ls) && k < TokenCount(ls)
    ensures l == LexemeAt(ls, k) && l.IsToken() && LexOk(codec, l) && (k + 1 < TokenCount(ls) ==> !Open(l))
    ensures |SymbolsOf(ls)| == |TokensOf(ls, 0)| == TokenCount(ls) && SymbolsOf(ls)[k] == SymbolOf(l)
    ensures SymbolsOf([l]) == [SymbolsOf(ls)[k]] && CommentsOf([l]) == []
    ensures var t := TokensOf(ls, 0)[k]; t.start <= t.end <= |Flatten(ls)| && Flatten(ls)[t.start..t.end] == l.Text()
  {
    TokenFacts(codec, ls, k);
    l := LexemeAt(ls, k);
    hide LexOk, Open, WellFormed, Flatten, TokensOf, SymbolsOf, CommentsOf, LexemeAt, TokenCount;
    SingleToken(l);
  }

  lemma InsertBefore(codec: Codec, ls: seq<Lexeme>, k: nat, ins: seq<Lexeme>, e: TextEdit) returns (f: map<nat, seq<Lexeme>>)
    requires WellFormed(codec, ls) && k < TokenCount(ls) && k < |TokensOf(ls, 0)| && k < |SymbolsOf(ls)|
    requires e == TextEdit(TokensOf(ls, 0)[k].start, TokensOf(ls, 0)[k].start, Flatten(ins))
    requires CommentsOf(ins) == [] && (Decodes(codec) ==> Solid(codec, ins))
    requires (ins != [] && ins[0] == Space('\n')) || (k > 0 && SymbolsOf(ls)[k - 1].kind != 'v')
    ensures Realizes(codec, ls, [e], [k], f)
    ensures SymbolSubst(SymbolsOf(ls), 0, f) == SymbolsOf(ls)[..k] + SymbolsOf(ins) + SymbolsOf(ls)[k..]
  {
    hide WellFormed, TokenCount, TokensOf, SymbolsOf, Flatten, CommentsOf, Decodes, Solid, LexOk, Open, LexemeAt;
    hide SymbolSubst, Realizes, Fits, Fitting;
    var l := TokenLexeme(codec, ls, k);
    var piece := ins + [l];
    f := map[k := piece];
    FitsBefore(Flatten(ls), TokensOf(ls, 0)[k], l, e, ins);
    CommentsAppend(ins, [l]);
    SymbolsAppend(ins, [l]);
    if Decodes(codec) { FitBefore(codec, l, ins); }
    assert ins != [] ==> piece[0] == ins[0];
    OneEdit(codec, ls, e, k, piece);
    var syms := SymbolsOf(ls);
    SubstSingle(syms, k, piece);
    assert syms[..k] + (SymbolsOf(ins) + [syms[k]]) + syms[k + 1..] == syms[..k] + SymbolsOf(ins) + syms[k..];
  }

  lemma InsertAfter(codec: Codec, ls: seq<Lexeme>, k: nat, ins: seq<Lexeme>, e: TextEdit) returns (f: map<nat, seq<Lexeme>>)
    requires WellFormed(codec, ls) && k + 1 < TokenCount(ls) && k < |TokensOf(ls, 0)| && k < |SymbolsOf(ls)|
    requires e == TextEdit(TokensOf(ls, 0)[k].end, TokensOf(ls, 0)[k].end, Flatten(ins))
    requires CommentsOf(ins) == [] && (Decodes(codec) ==> Solid(codec, ins))
    requires (ins != [] && ins[0] == Punct(',')) || SymbolsOf(ls)[k].kind == ','
    ensures Realizes(codec, ls, [e], [k], f)
    ensures SymbolSubst(SymbolsOf(ls), 0, f) == SymbolsOf(ls)[..k + 1] + SymbolsOf(ins) + SymbolsOf(ls)[k + 1..]
  {
    hide WellFormed, TokenCount, TokensOf, SymbolsOf, Flatten, CommentsOf, Decodes, Solid, LexOk, Open, LexemeAt;
    hide SymbolSubst, Realizes, Fits, Fitting;
    var l := TokenLexeme(codec, ls, k);
    var piece := [l] + ins;
    f := map[k := piece];
    FitsAfter(Flatten(ls), TokensOf(ls, 0)[k], l, e, ins);
    CommentsAppend([l], ins);
    SymbolsAppend([l], ins);
    if Decodes(codec) {
      if SymbolsOf(ls)[k].kind == ',' {
        assert l == Punct(',');
        SolidPunctSpace(codec);
        SolidCons(codec, l, ins);
        FitSolid(codec, l, piece);
      } else {
        FitAfter(codec, l, ins);
      }
    }
    assert piece[0] == l;
    OneEdit(codec, ls, e, k, piece);
    var syms := SymbolsOf(ls);
    SubstSingle(syms, k, piece);
    assert syms[..k] + ([syms[k]] + SymbolsOf(ins)) + syms[k + 1..] == syms[..k + 1] + SymbolsOf(ins) + syms[k + 1..];
  }

  /* ---- an array without a relay-flow entry ---- */

  lemma {:induction false} NoRelayPin(es: seq<Symbol>)
    requires Lists([], es)
    ensures Pin(es) == es + [PIN]
  {
    hide Relay;
    if es == [] {
    } else {
      assert forall d: nat :: d in [] <==> d < |es| && Relay(es[d]);
      var tail := es[1..];
      forall d: nat
        ensures d in [] <==> d < |tail| && Relay(tail[d])
      {
        if d < |tail| { assert d + 1 in [] <==> d + 1 < |es| && Relay(es[d + 1]); }
      }
      NoRelayPin(tail);
      assert 0 in [] <==> 0 < |es| && Relay(es[0]);
      assert es + [PIN] == [es[0]] + (tail + [PIN]);
    }
  }

  lemma {:induction false} RowSnoc(es: seq<Symbol>, t: bool, s: Symbol)
    ensures Row(es + [s], false) == if es == [] then [s] else Row(es, t) + (if t then [s] else [COMMA, s])
  {
    if es == [] {
      assert es + [s] == [s] + [];
      RowCons(s, [], false);
      assert [s] + [] == [s];
    } else {
      var h, tail := es[0], es[1..];
      assert es == [h] + tail && es + [s] == [h] + (tail + [s]);
      RowCons(h, tail, t);
      RowCons(h, tail + [s], false);
      RowSnoc(tail, t, s);
      if tail == [] {
        assert tail + [s] == [s] && [h] + ([COMMA] + [s]) == [h] + [COMMA, s];
      } else {
        var end := if t then [s] else [COMMA, s];
        assert [h] + ([COMMA] + (Row(tail, t) + end)) == [h] + ([COMMA] + Row(tail, t)) + end;
      }
    }
  }

  // The edit lands on the bracket, on the trailing comma or on the last entry.
  lemma AddEditPlace(a: Doc, x: nat, c: nat, v: Node, es: seq<Symbol>, t: bool)
    requires PluginArray(a, x, c, v, es, t) && Anchored(a.ts, v)
    ensures x < c < |a.ts|
    ensures AddElementEdit(a.ts, v) == if es == [] then TextEdit(a.ts[c].start, a.ts[c].start, QUOTED)
                                       else TextEdit(a.ts[c - 1].end, a.ts[c - 1].end, (if t then " " else ", ") + QUOTED)
  {
    hide QUOTED, PluginArray, Anchored, CommaBefore, Row;
    ArrayEnd(a, x, c, v, es, t);
    ArrayShape(a, x, c, v, es, t);
    if es != [] {
      ArrayEntry(a, x, c, v, es, t, |es| - 1);
      if t {
        CommaFound(a.ts, x + 2 * |es| - 1, c);
      } else {
        CommaAbsent(a.ts, x + 2 * |es| - 1, c);
      }
    }
  }

  lemma AddEntry(codec: Codec, ls: seq<Lexeme>, x: nat, c: nat, v: Node, es: seq<Symbol>, t: bool)
    returns (k: nat, f: map<nat, seq<Lexeme>>)
    requires WellFormed(codec, ls) && PluginArray(DocOf(ls), x, c, v, es, t) && Anchored(TokensOf(ls, 0), v)
    ensures x < c <= |SymbolsOf(ls)|
    ensures Realizes(codec, ls, [AddElementEdit(TokensOf(ls, 0), v)], [k], f)
    ensures SymbolSubst(SymbolsOf(ls), 0, f)
         == SymbolsOf(ls)[..c] + (if es == [] || t then [PIN] else [COMMA, PIN]) + SymbolsOf(ls)[c..]
  {
    hide WellFormed, TokensOf, SymbolsOf, Flatten, CommentsOf, Decodes, Solid, SymbolSubst, Realizes, TokenCount, PluginArray;
    hide QUOTED, PIN, QUOTED_LEXEME, Anchored, AddElementEdit, Row, Spells;
    var ts := TokensOf(ls, 0);
    DocValid(ls);
    ArrayShape(DocOf(ls), x, c, v, es, t);
    AddEditPlace(DocOf(ls), x, c, v, es, t);
    QuotedTexts();
    PinPieceReads();
    if Decodes(codec) { SolidQuoted(codec); }
    if es == [] {
      k := c;
      f := InsertBefore(codec, ls, c, [QUOTED_LEXEME], AddElementEdit(ts, v));
    } else if t {
      k := c - 1;
      SpacePinReads();
      ArrayComma(DocOf(ls), x, c, v, es);
      f := InsertAfter(codec, ls, k, [Space(' '), QUOTED_LEXEME], AddElementEdit(ts, v));
    } else {
      k := c - 1;
      CommaPinReads();
      f := InsertAfter(codec, ls, k, [Punct(','), Space(' '), QUOTED_LEXEME], AddElementEdit(ts, v));
    }
  }

  lemma SpacePinReads()
    ensures SymbolsOf([Space(' '), QUOTED_LEXEME]) == [PIN]
  {
    hide SymbolsOf, PIN, QUOTED_LEXEME;
    PinPieceReads();
    PieceCons(Space(' '), [QUOTED_LEXEME]);
    assert [Space(' ')] + [QUOTED_LEXEME] == [Space(' '), QUOTED_LEXEME] && [] + [PIN] == [PIN];
  }

  lemma ArrayComma(a: Doc, x: nat, c: nat, v: Node, es: seq<Symbol>)
    requires PluginArray(a, x, c, v, es, true) && es != []
    ensures x + 1 < c < |a.syms| && a.syms[c - 1].kind == ','
  {
    ArrayEnd(a, x, c, v, es, true);
  }

  lemma CommaPinReads()
    ensures SymbolsOf([Punct(','), Space(' '), QUOTED_LEXEME]) == [COMMA, PIN]
  {
    hide SymbolsOf, PIN, QUOTED_LEXEME;
    SpacePinReads();
    PieceCons(Punct(','), [Space(' '), QUOTED_LEXEME]);
    assert [Punct(',')] + [Space(' '), QUOTED_LEXEME] == [Punct(','), Space(' '), QUOTED_LEXEME];
    assert [COMMA] + [PIN] == [COMMA, PIN];
  }

  lemma ArrayShape(a: Doc, x: nat, c: nat, v: Node, es: seq<Symbol>, t: bool)
    requires PluginArray(a, x, c, v, es, t)
    ensures x < c < |a.syms| == |a.ts| && v.closeToken == c && Anchored(a.ts, v)
    ensures a.syms[x].kind == '[' && (es == [] ==> c == x + 1)
    ensures a.ts[x].kind == '[' && a.syms[x + 1..c] == Row(es, t) && a.syms[c].kind == ']' && Strings(es)
    ensures es != [] && t ==> a.ts[c - 1].kind == ','
  {
    ArrayEnd(a, x, c, v, es, t);
  }

  lemma AddCase(codec: Codec, ls: seq<Lexeme>, x: nat, c: nat, v: Node, es: seq<Symbol>, t: bool)
    returns (edits: seq<TextEdit>, ks: seq<nat>, f: map<nat, seq<Lexeme>>)
    requires WellFormed(codec, ls) && PluginArray(DocOf(ls), x, c, v, es, t) && Anchored(TokensOf(ls, 0), v)
    requires RelayIndices(TokensOf(ls, 0), v, 0) == Ok([])
    ensures PinEdits(TokensOf(ls, 0), v) == Ok(edits) && Realizes(codec, ls, edits, ks, f)
    ensures x < c <= |SymbolsOf(ls)|
    ensures SymbolSubst(SymbolsOf(ls), 0, f) == Exchanged(SymbolsOf(ls), x, c, Row(Pin(es), false))
  {
    hide WellFormed, PluginArray, Decodes, Realizes, Solid, TokensOf, SymbolsOf, SymbolSubst, Pin, Row, Lists, RelayIndices;
    hide Anchored, AddElementEdit, PIN;
    var k: nat;
    k, f := AddEntry(codec, ls, x, c, v, es, t);
    edits, ks := [AddElementEdit(TokensOf(ls, 0), v)], [k];
    RelayList(DocOf(ls), x, c, v, es, t, []);
    NoRelayPin(es);
    RowSnoc(es, t, PIN);
    ArrayShape(DocOf(ls), x, c, v, es, t);
    var syms := SymbolsOf(ls);
    if es == [] {
      assert syms[..x + 1] == syms[..c];
    } else {
      var end := if t then [PIN] else [COMMA, PIN];
      RegroupRow(syms, x, c, end);
    }
  }

  lemma RegroupRow(syms: seq<Symbol>, x: nat, c: nat, end: seq<Symbol>)
    requires x < c <= |syms|
    ensures syms[..x + 1] + (syms[x + 1..c] + end) + syms[c..] == syms[..c] + end + syms[c..]
  {
  }

  /* ---- an object without a plugin property ---- */

  lemma {:induction false} MembersEnd(ts: seq<Token>, i: nat, c: nat, ms: seq<Member>)
    requires i <= |ts| && MembersFrom(ts, i) == Ok((ms, c)) && ms != []
    ensures var last := ms[|ms| - 1].value.endToken;
            (c == last + 1 && ts[c - 1].kind != ',') || (c == last + 2 && ts[c - 1].kind == ',')
    decreases |ms|
  {
    hide MembersFrom, ElementsFrom, ValueFrom;
    var v, j := FirstMember(ts, i, c, ms);
    ValueEnd(ts, i + 2);
    if ts[j].kind == ',' {
      if ms[1..] == [] {
        EmptyMembers(ts, j + 1, c);
      } else {
        MembersEnd(ts, j + 1, c, ms[1..]);
      }
    }
  }

  // Whether the plan adds a comma of its own.
  lemma PropertyEdits(ts: seq<Token>, root: Node)
    requires ValueFrom(ts, 0) == Ok((root, |ts|)) && root.kind == '{' && RootAnchored(ts, root)
    ensures |ts| >= 2
    ensures var c := |ts| - 1;
            AddPropertyEdits(ts, root)
              == [TextEdit(ts[c].start, ts[c].start, PROPERTY)]
                 + if NeedsComma(ts, root.members, c) then [TextEdit(ts[c - 1].end, ts[c - 1].end, ",")] else []
  {
    hide PROPERTY, ValueFrom, MembersFrom, ElementsFrom, CommaBefore, Anchored;
    ParsedRoot(ts, root);
    var c := |ts| - 1;
    if root.members != [] {
      MembersEnd(ts, 1, c, root.members);
      var last := root.members[|root.members| - 1].value.endToken;
      if c == last + 1 { CommaAbsent(ts, last, c); } else { CommaFound(ts, last, c); }
    }
  }

  // The symbols of the document with `row` in front of token c.
  function Inserted(syms: seq<Symbol>, c: nat, row: seq<Symbol>): seq<Symbol>
    requires c <= |syms|
  {
    syms[..c] + row + syms[c..]
  }

  lemma SubstPair(h: seq<Symbol>, s: Symbol, u: Symbol, rest: seq<Symbol>, f: map<nat, seq<Lexeme>>)
    requires forall k :: k in f <==> k == |h| || k == |h| + 1
    ensures SymbolSubst(h + ([s] + ([u] + rest)), 0, f) == h + (SymbolsOf(f[|h|]) + (SymbolsOf(f[|h| + 1]) + rest))
  {
    hide SymbolSubst, SymbolsOf;
    SymbolSubstAppend(h, [s] + ([u] + rest), 0, f);
    SymbolSubstTwo(s, u, rest, |h|, f);
    SymbolSubstNone(h, 0, f);
    SymbolSubstNone(rest, |h| + 2, f);
  }

  lemma SplitPair(syms: seq<Symbol>, c: nat, ins: seq<Symbol>)
    requires 0 < c < |syms|
    ensures syms == syms[..c - 1] + ([syms[c - 1]] + ([syms[c]] + syms[c + 1..])) && |syms[..c - 1]| == c - 1
    ensures syms[..c - 1] + (([syms[c - 1]] + [COMMA]) + ((ins + [syms[c]]) + syms[c + 1..]))
         == Inserted(syms, c, [COMMA] + ins)
  {
  }

  lemma RealizesTwo(codec: Codec, ls: seq<Lexeme>, c: nat, e: TextEdit, d: TextEdit, p: seq<Lexeme>, q: seq<Lexeme>)
    requires WellFormed(codec, ls) && 0 < c < |TokensOf(ls, 0)|
    requires e.start >= d.start && CommentsOf(p) == CommentsOf(q) == []
    requires Fits(Flatten(ls), TokensOf(ls, 0)[c], e, q) && Fits(Flatten(ls), TokensOf(ls, 0)[c - 1], d, p)
    requires Decodes(codec) ==> Suits(codec, None, ls, 0, map[c - 1 := p, c := q])
    ensures Realizes(codec, ls, [e, d], [c, c - 1], map[c - 1 := p, c := q])
  {
    hide WellFormed, TokensOf, Flatten, CommentsOf, Decodes, Fits, Suits, SortDown;
    SortDownSpec([e, d]);
  }

  lemma PlacedBefore(codec: Codec, ls: seq<Lexeme>, c: nat, ins: seq<Lexeme>, f: map<nat, seq<Lexeme>>)
    requires WellFormed(codec, ls) && c < TokenCount(ls) && Solid(codec, ins) && ins != [] && ins[0] == Space('\n')
    requires c in f && f[c] == ins + [LexemeAt(ls, c)]
    ensures Placed(codec, ls, f, c)
  {
    hide WellFormed, TokenCount, SymbolsOf, Solid, LexOk, Open, LexemeAt, Fitting, TokensOf, Flatten, CommentsOf;
    var l := TokenLexeme(codec, ls, c);
    FitBefore(codec, l, ins);
    assert f[c][0] == ins[0];
  }

  lemma PlacedComma(codec: Codec, ls: seq<Lexeme>, k: nat, f: map<nat, seq<Lexeme>>)
    requires WellFormed(codec, ls) && k + 1 < TokenCount(ls)
    requires k in f && f[k] == [LexemeAt(ls, k)] + [Punct(',')]
    ensures Placed(codec, ls, f, k)
  {
    hide WellFormed, TokenCount, SymbolsOf, Solid, LexOk, Open, LexemeAt, Fitting, TokensOf, Flatten, CommentsOf;
    var l := TokenLexeme(codec, ls, k);
    SolidPunctSpace(codec);
    SolidOne(codec, Punct(','));
    FitAfter(codec, l, [Punct(',')]);
  }

  lemma SuitsTwo(codec: Codec, ls: seq<Lexeme>, c: nat, ins: seq<Lexeme>, f: map<nat, seq<Lexeme>>)
    requires WellFormed(codec, ls) && 0 < c < TokenCount(ls)
    requires forall k :: k in f <==> k == c - 1 || k == c
    requires f[c - 1] == [LexemeAt(ls, c - 1)] + [Punct(',')] && f[c] == ins + [LexemeAt(ls, c)]
    requires Solid(codec, ins) && ins != [] && ins[0] == Space('\n')
    ensures Suits(codec, None, ls, 0, f)
  {
    hide WellFormed, TokenCount, Solid, LexemeAt, Suits, Placed;
    PlacedBefore(codec, ls, c, ins, f);
    PlacedComma(codec, ls, c - 1, f);
    SuitsWhole(codec, ls, f);
  }

  lemma InsertTwo(codec: Codec, ls: seq<Lexeme>, c: nat, ins: seq<Lexeme>, e: TextEdit, d: TextEdit)
    returns (f: map<nat, seq<Lexeme>>)
    requires WellFormed(codec, ls) && 0 < c < TokenCount(ls) && c < |TokensOf(ls, 0)| && c < |SymbolsOf(ls)|
    requires e == TextEdit(TokensOf(ls, 0)[c].start, TokensOf(ls, 0)[c].start, Flatten(ins))
    requires d == TextEdit(TokensOf(ls, 0)[c - 1].end, TokensOf(ls, 0)[c - 1].end, ",")
    requires CommentsOf(ins) == [] && (Decodes(codec) ==> Solid(codec, ins)) && ins != [] && ins[0] == Space('\n')
    ensures Realizes(codec, ls, [e, d], [c, c - 1], f)
    ensures SymbolSubst(SymbolsOf(ls), 0, f) == Inserted(SymbolsOf(ls), c, [COMMA] + SymbolsOf(ins))
  {
    hide WellFormed, TokenCount, TokensOf, SymbolsOf, Flatten, CommentsOf, Decodes, Solid, LexOk, Open, LexemeAt;
    hide SymbolSubst, Fits, Suits, Realizes;
    var l := TokenLexeme(codec, ls, c);
    var m := TokenLexeme(codec, ls, c - 1);
    var p, q := [m] + [Punct(',')], ins + [l];
    f := map[c - 1 := p, c := q];
    CommaPiece();
    FitsBefore(Flatten(ls), TokensOf(ls, 0)[c], l, e, ins);
    FitsAfter(Flatten(ls), TokensOf(ls, 0)[c - 1], m, d, [Punct(',')]);
    TokensApart(codec, ls, c - 1, c);
    CommentsAppend(ins, [l]);
    SymbolsAppend(ins, [l]);
    CommentsAppend([m], [Punct(',')]);
    SymbolsAppend([m], [Punct(',')]);
    if Decodes(codec) { SuitsTwo(codec, ls, c, ins, f); }
    RealizesTwo(codec, ls, c, e, d, p, q);
    var syms := SymbolsOf(ls);
    SplitPair(syms, c, SymbolsOf(ins));
    SubstPair(syms[..c - 1], syms[c - 1], syms[c], syms[c + 1..], f);
  }

  lemma CommaPiece()
    ensures Flatten([Punct(',')]) == "," && SymbolsOf([Punct(',')]) == [COMMA] && CommentsOf([Punct(',')]) == []
  {
    assert [Punct(',')][1..] == [];
  }

  lemma PropertyCase(codec: Codec, ls: seq<Lexeme>, root: Node)
    returns (edits: seq<TextEdit>, ks: seq<nat>, f: map<nat, seq<Lexeme>>)
    requires WellFormed(codec, ls) && ValueFrom(TokensOf(ls, 0), 0) == Ok((root, |TokensOf(ls, 0)|)) && root.kind == '{'
    requires RootAnchored(TokensOf(ls, 0), root)
    ensures edits == AddPropertyEdits(TokensOf(ls, 0), root) && Realizes(codec, ls, edits, ks, f)
    ensures 2 <= |SymbolsOf(ls)| == |TokensOf(ls, 0)|
    ensures var c := |SymbolsOf(ls)| - 1;
            SymbolSubst(SymbolsOf(ls), 0, f)
              == Inserted(SymbolsOf(ls), c, (if NeedsComma(TokensOf(ls, 0), root.members, c) then [COMMA] else []) +
                                            PropertyRow(Symbol('s', "\"plugin\"", "plugin"), PIN))
  {
    hide WellFormed, TokenCount, TokensOf, SymbolsOf, Flatten, CommentsOf, Decodes, Solid, SymbolSubst, Realizes;
    hide PROPERTY_PIECE, PROPERTY, PIN, RootAnchored, AddPropertyEdits, PropertyRow, ValueFrom, Spells;
    DocValid(ls);
    TokensOfCount(ls, 0);
    var ts := TokensOf(ls, 0);
    PropertyEdits(ts, root);
    PropertyText();
    PinReads();
    if Decodes(codec) { SolidProperty(codec); }
    edits := AddPropertyEdits(ts, root);
    var c := |ts| - 1;
    PropertyStarts();
    if NeedsComma(ts, root.members, c) {
      ks := [c, c - 1];
      f := InsertTwo(codec, ls, c, PROPERTY_PIECE, edits[0], edits[1]);
      assert edits == [edits[0], edits[1]];
    } else {
      ks := [c];
      f := InsertBefore(codec, ls, c, PROPERTY_PIECE, edits[0]);
      assert edits == [edits[0]];
      assert [] + SymbolsOf(PROPERTY_PIECE) == SymbolsOf(PROPERTY_PIECE);
    }
  }

  lemma PinReads()
    ensures PIN == Symbol('s', QUOTED, PINNED)
  {
  }

  lemma PropertyStarts()
    ensures PROPERTY_PIECE != [] && PROPERTY_PIECE[0] == Space('\n')
  {
  }
}
