/** Every plan of the editor is a substitution on the lexed document: which tokens
    it touches, what it puts there, and why the result is well formed again. */
module JsoncPlan {
  import opened Base
  import opened JsoncLexer
  import opened JsoncSplice
  import opened JsoncParser
  import opened JsoncDocument
  import opened JsoncRows
  import opened JsoncEditor

  /* ---- one token of a lexed document ---- */

  ghost function LexemeAt(ls: seq<Lexeme>, k: nat): Lexeme
    requires k < TokenCount(ls)
  {
    if ls[0].IsToken() then (if k == 0 then ls[0] else LexemeAt(ls[1..], k - 1)) else LexemeAt(ls[1..], k)
  }

  lemma {:induction false} LexemeAtSplit(xs: seq<Lexeme>, l: Lexeme, ys: seq<Lexeme>)
    requires l.IsToken()
    ensures TokenCount(xs) < TokenCount(xs + [l] + ys) && LexemeAt(xs + [l] + ys, TokenCount(xs)) == l
  {
    var ls := xs + [l] + ys;
    if xs == [] {
      assert ls == [l] + ys && ls[1..] == ys;
    } else {
      assert ls[1..] == xs[1..] + [l] + ys;
      LexemeAtSplit(xs[1..], l, ys);
    }
  }

  lemma SymbolAtSplit(xs: seq<Lexeme>, l: Lexeme, ys: seq<Lexeme>)
    requires l.IsToken()
    ensures |SymbolsOf(xs)| == TokenCount(xs) < |SymbolsOf(xs + [l] + ys)|
    ensures SymbolsOf(xs + [l] + ys)[TokenCount(xs)] == SymbolOf(l)
  {
    DocValid(xs);
    SymbolsAppend(xs + [l], ys);
    SymbolsAppend(xs, [l]);
    assert SymbolsOf([l]) == [SymbolOf(l)];
  }

  lemma {:induction false} WellFormedAt(codec: Codec, xs: seq<Lexeme>, l: Lexeme, ys: seq<Lexeme>)
    requires WellFormed(codec, xs + [l] + ys)
    ensures LexOk(codec, l) && Follow(l, Flatten(ys)) && WellFormed(codec, ys)
  {
    hide LexOk, Follow;
    var ls := xs + [l] + ys;
    if xs == [] {
      assert ls == [l] + ys && ls[1..] == ys;
    } else {
      assert ls[1..] == xs[1..] + [l] + ys;
      WellFormedAt(codec, xs[1..], l, ys);
    }
  }

  lemma NoTokensInEmpty(codec: Codec, ls: seq<Lexeme>)
    requires WellFormed(codec, ls) && Flatten(ls) == ""
    ensures TokenCount(ls) == 0
  {
    if ls != [] { NonEmptyText(codec, ls[0]); }
  }

  lemma {:induction false} TokenCountAppend(xs: seq<Lexeme>, ys: seq<Lexeme>)
    ensures TokenCount(xs + ys) == TokenCount(xs) + TokenCount(ys)
  {
    if xs == [] {
      assert xs + ys == ys;
    } else {
      assert (xs + ys)[1..] == xs[1..] + ys;
      TokenCountAppend(xs[1..], ys);
    }
  }

  // Token k as text, as symbol and as lexeme.
  ghost predicate TokenReads(codec: Codec, ls: seq<Lexeme>, k: nat)
    requires k < TokenCount(ls)
  {
    var l, data := LexemeAt(ls, k), Flatten(ls);
    && k < |TokensOf(ls, 0)| && k < |SymbolsOf(ls)|
    && var t := TokensOf(ls, 0)[k];
       && l.IsToken() && LexOk(codec, l) && SymbolsOf(ls)[k] == SymbolOf(l)
       && t.start < t.end <= |data| && data[t.start..t.end] == l.Text()
       && t.kind == l.Kind() && t.value == l.Value()
  }

  lemma SplitReads(codec: Codec, xs: seq<Lexeme>, l: Lexeme, ys: seq<Lexeme>)
    requires l.IsToken() && WellFormed(codec, xs + [l] + ys)
    ensures TokenCount(xs) < TokenCount(xs + [l] + ys) && TokenReads(codec, xs + [l] + ys, TokenCount(xs))
  {
    Layout(xs, l, ys);
    LexemeAtSplit(xs, l, ys);
    SymbolAtSplit(xs, l, ys);
    WellFormedAt(codec, xs, l, ys);
    NonEmptyText(codec, l);
    hide LexOk, WellFormed, Flatten, TokensOf, SymbolsOf, LexemeAt, Follow, TokenCount;
    var p, m, q := Flatten(xs), l.Text(), Flatten(ys);
    assert (p + m + q)[|p|..|p| + |m|] == m;
  }

  // Only the last token can be a string that runs into the end of the text.
  lemma SplitClosed(codec: Codec, xs: seq<Lexeme>, l: Lexeme, ys: seq<Lexeme>)
    requires l.IsToken() && WellFormed(codec, xs + [l] + ys) && TokenCount(xs) + 1 < TokenCount(xs + [l] + ys)
    ensures !Open(l)
  {
    WellFormedAt(codec, xs, l, ys);
    TokenCountAppend(xs, [l] + ys);
    assert xs + ([l] + ys) == xs + [l] + ys && ([l] + ys)[1..] == ys;
    hide LexOk, WellFormed, Flatten;
    if Open(l) {
      NoTokensInEmpty(codec, ys);
    }
  }

  lemma TokenFacts(codec: Codec, ls: seq<Lexeme>, k: nat)
    requires WellFormed(codec, ls) && k < TokenCount(ls)
    ensures |TokensOf(ls, 0)| == |SymbolsOf(ls)| == TokenCount(ls) && TokenReads(codec, ls, k)
    ensures k + 1 < TokenCount(ls) ==> !Open(LexemeAt(ls, k))
  {
    DocValid(ls);
    TokensOfCount(ls, 0);
    var xs, l, ys := SplitAtToken(ls, k);
    SplitReads(codec, xs, l, ys);
    LexemeAtSplit(xs, l, ys);
    hide LexOk, WellFormed, Flatten, TokensOf, LexemeAt, TokenReads, TokenCount, Open;
    if k + 1 < TokenCount(ls) {
      SplitClosed(codec, xs, l, ys);
    }
  }

  lemma TokensApart(codec: Codec, ls: seq<Lexeme>, j: nat, k: nat)
    requires WellFormed(codec, ls) && j < k < TokenCount(ls)
    ensures |TokensOf(ls, 0)| == TokenCount(ls)
    ensures TokensOf(ls, 0)[j].start < TokensOf(ls, 0)[j].end <= TokensOf(ls, 0)[k].start
  {
    TokensOfCount(ls, 0);
    TokenFacts(codec, ls, j);
    var xs, l, ys := SplitAtToken(ls, k);
    Layout(xs, l, ys);
    TokenInside(xs, j);
    assert TokensOf(xs, 0)[j] == TokensOf(ls, 0)[..k][j];
  }

  /* ---- the three shapes of an edit ---- */

  lemma FitsReplace(data: string, t: Token, e: TextEdit, piece: seq<Lexeme>)
    requires t.start <= t.end <= |data| && e == TextEdit(t.start, t.end, Flatten(piece))
    ensures Fits(data, t, e, piece)
  {
    assert data[t.start..t.start] == "" && data[t.end..t.end] == "";
  }

  lemma FitsBefore(data: string, t: Token, l: Lexeme, e: TextEdit, ins: seq<Lexeme>)
    requires t.start <= t.end <= |data| && data[t.start..t.end] == l.Text()
    requires e == TextEdit(t.start, t.start, Flatten(ins))
    ensures Fits(data, t, e, ins + [l])
  {
    FlattenAppend(ins, [l]);
    assert Flatten([l]) == l.Text() && data[t.start..t.start] == "";
  }

  lemma FitsAfter(data: string, t: Token, l: Lexeme, e: TextEdit, ins: seq<Lexeme>)
    requires t.start <= t.end <= |data| && data[t.start..t.end] == l.Text()
    requires e == TextEdit(t.end, t.end, Flatten(ins))
    ensures Fits(data, t, e, [l] + ins)
  {
    FlattenAppend([l], ins);
    assert Flatten([l]) == l.Text() && data[t.end..t.end] == "";
  }

  /* ---- pieces ---- */

  const QUOTED_LEXEME := Str(QUOTED, PINNED)

  const PROPERTY_PIECE: seq<Lexeme> := [
    Space('\n'), Space(' '), Space(' '), Str("\"plugin\"", "plugin"), Punct(':'), Space(' '),
    Punct('['), QUOTED_LEXEME, Punct(']'), Space('\n')]

  lemma PieceCons(l: Lexeme, ls: seq<Lexeme>)
    ensures Flatten([l] + ls) == l.Text() + Flatten(ls)
    ensures SymbolsOf([l] + ls) == SymbolIn(l) + SymbolsOf(ls)
    ensures CommentsOf([l] + ls) == CommentIn(l) + CommentsOf(ls)
  {
    assert ([l] + ls)[1..] == ls;
  }

  lemma PieceNil()
    ensures Flatten([]) == "" && SymbolsOf([]) == [] && CommentsOf([]) == []
  {
  }

  lemma PropertyTail()
    ensures var p := [Punct('['), QUOTED_LEXEME, Punct(']'), Space('\n')];
            && Flatten(p) == "[" + QUOTED + "]\n" && CommentsOf(p) == []
            && SymbolsOf(p) == [Symbol('[', "[", ""), Symbol('s', QUOTED, PINNED), Symbol(']', "]", "")]
  {
    hide Flatten, SymbolsOf, CommentsOf;
    PieceNil();
    PieceCons(Space('\n'), []);
    PieceCons(Punct(']'), [Space('\n')]);
    PieceCons(QUOTED_LEXEME, [Punct(']'), Space('\n')]);
    PieceCons(Punct('['), [QUOTED_LEXEME, Punct(']'), Space('\n')]);
    assert [Space('\n')] == [Space('\n')] + [];
    assert [Punct(']'), Space('\n')] == [Punct(']')] + [Space('\n')];
    assert [QUOTED_LEXEME, Punct(']'), Space('\n')] == [QUOTED_LEXEME] + [Punct(']'), Space('\n')];
    assert [Punct('['), QUOTED_LEXEME, Punct(']'), Space('\n')] == [Punct('[')] + [QUOTED_LEXEME, Punct(']'), Space('\n')];
  }

  lemma PropertyHead(p: seq<Lexeme>)
    ensures var q := [Space('\n'), Space(' '), Space(' '), Str("\"plugin\"", "plugin"), Punct(':'), Space(' ')] + p;
            && Flatten(q) == "\n  \"plugin\": " + Flatten(p) && CommentsOf(q) == CommentsOf(p)
            && SymbolsOf(q) == [Symbol('s', "\"plugin\"", "plugin"), Symbol(':', ":", "")] + SymbolsOf(p)
  {
    hide Flatten, SymbolsOf, CommentsOf;
    var q5 := [Space(' ')] + p;
    var q4 := [Punct(':')] + q5;
    var q3 := [Str("\"plugin\"", "plugin")] + q4;
    var q2 := [Space(' ')] + q3;
    var q1 := [Space(' ')] + q2;
    PieceCons(Space(' '), p);
    PieceCons(Punct(':'), q5);
    PieceCons(Str("\"plugin\"", "plugin"), q4);
    PieceCons(Space(' '), q3);
    PieceCons(Space(' '), q2);
    PieceCons(Space('\n'), q1);
    assert [Space('\n')] + q1
        == [Space('\n'), Space(' '), Space(' '), Str("\"plugin\"", "plugin"), Punct(':'), Space(' ')] + p;
  }

  lemma PropertyText()
    ensures Flatten(PROPERTY_PIECE) == PROPERTY && CommentsOf(PROPERTY_PIECE) == []
    ensures SymbolsOf(PROPERTY_PIECE)
         == PropertyRow(Symbol('s', "\"plugin\"", "plugin"), Symbol('s', QUOTED, PINNED))
  {
    hide Flatten, SymbolsOf, CommentsOf;
    PropertyTail();
    var tail := [Punct('['), QUOTED_LEXEME, Punct(']'), Space('\n')];
    PropertyHead(tail);
    assert PROPERTY_PIECE
        == [Space('\n'), Space(' '), Space(' '), Str("\"plugin\"", "plugin"), Punct(':'), Space(' ')] + tail;
  }

  /* ---- the literals the editor writes ---- */

  // A character that a JSON string holds as itself (section 7 of RFC 8259).
  predicate Unescaped(c: char) { ' ' <= c <= '~' && c != '"' && c != '\\' }

  function Quote(s: string): string { "\"" + s + "\"" }

  // All that is assumed of Go's decoder: the two literals the editor writes.
  predicate Decodes(codec: Codec) { codec.decode(QUOTED) == Some(PINNED) && codec.decode("\"plugin\"") == Some("plugin") }

  lemma {:induction false} QuoteScan(s: string, i: nat)
    requires i <= |s| && forall k :: 0 <= k < |s| ==> Unescaped(s[k])
    ensures StringEnd(Quote(s), i + 1) == (|s| + 2, true)
    decreases |s| - i
  {
    if i < |s| {
      assert Quote(s)[i + 1] == s[i];
      QuoteScan(s, i + 1);
    }
  }

  lemma QuoteOk(codec: Codec, s: string)
    requires codec.decode(Quote(s)) == Some(s) && forall k :: 0 <= k < |s| ==> Unescaped(s[k])
    ensures LexOk(codec, Str(Quote(s), s)) && !Open(Str(Quote(s), s))
  {
    QuoteScan(s, 0);
  }

  predicate AllUnescaped(s: string) { forall k :: 0 <= k < |s| ==> Unescaped(s[k]) }

  lemma PinnedUnescaped()
    ensures AllUnescaped(PINNED) && Quote(PINNED) == QUOTED && AllUnescaped("plugin") && Quote("plugin") == "\"plugin\""
  {
    PinnedHead();
    PinnedTail();
    assert PINNED == "relay-flow-plugin" + "@0.3.14-alpha";
    assert QUOTED == "\"" + PINNED + "\"";
  }

  lemma PinnedHead()
    ensures AllUnescaped("relay-flow-plugin")
  {
    assert AllUnescaped("relay-flow") && AllUnescaped("-plugin");
    assert "relay-flow-plugin" == "relay-flow" + "-plugin";
  }

  lemma PinnedTail()
    ensures AllUnescaped("@0.3.14-alpha")
  {
    assert AllUnescaped("@0.3.14") && AllUnescaped("-alpha");
    assert "@0.3.14-alpha" == "@0.3.14" + "-alpha";
  }

  lemma LiteralsOk(codec: Codec)
    requires Decodes(codec)
    ensures LexOk(codec, QUOTED_LEXEME) && !Open(QUOTED_LEXEME)
    ensures LexOk(codec, Str("\"plugin\"", "plugin")) && !Open(Str("\"plugin\"", "plugin"))
  {
    PinnedUnescaped();
    QuoteOk(codec, PINNED);
    QuoteOk(codec, "plugin");
  }

  /* ---- pieces that fit ---- */

  // Lexemes that may be followed by anything.
  ghost predicate Solid(codec: Codec, p: seq<Lexeme>) { p == [] || (SolidLexeme(codec, p[0]) && Solid(codec, p[1..])) }

  ghost predicate SolidLexeme(codec: Codec, l: Lexeme) { LexOk(codec, l) && !l.Line? && !l.Val? && !Open(l) }

  lemma {:induction false} SolidChain(codec: Codec, p: seq<Lexeme>, rest: string)
    requires Solid(codec, p)
    ensures Chain(codec, p, rest)
  {
    hide LexOk, Open;
    if p == [] {
    } else {
      SolidChain(codec, p[1..], rest);
    }
  }

  lemma FitSolid(codec: Codec, l: Lexeme, p: seq<Lexeme>)
    requires Solid(codec, p)
    ensures Fitting(codec, l, p)
  {
    forall rest: string | Follow(l, rest)
      ensures Chain(codec, p, rest)
    {
      SolidChain(codec, p, rest);
    }
  }

  lemma {:induction false} SolidBefore(codec: Codec, p: seq<Lexeme>, l: Lexeme, rest: string)
    requires Solid(codec, p) && LexOk(codec, l) && Follow(l, rest)
    ensures Chain(codec, p + [l], rest)
  {
    hide LexOk;
    if p == [] {
      assert p + [l] == [l] && [l][1..] == [] && Flatten([]) + rest == rest;
    } else {
      assert (p + [l])[1..] == p[1..] + [l];
      SolidBefore(codec, p[1..], l, rest);
    }
  }

  lemma FitBefore(codec: Codec, l: Lexeme, p: seq<Lexeme>)
    requires Solid(codec, p) && LexOk(codec, l)
    ensures Fitting(codec, l, p + [l])
  {
    forall rest: string | Follow(l, rest)
      ensures Chain(codec, p + [l], rest)
    {
      SolidBefore(codec, p, l, rest);
    }
  }

  lemma FitAfter(codec: Codec, l: Lexeme, p: seq<Lexeme>)
    requires Solid(codec, p) && LexOk(codec, l) && l.IsToken() && !Open(l)
    requires p != [] && p[0] == Punct(',')
    ensures Fitting(codec, l, [l] + p)
  {
    hide LexOk;
    assert ([l] + p)[1..] == p;
    forall rest: string | Follow(l, rest)
      ensures Chain(codec, [l] + p, rest)
    {
      SolidChain(codec, p, rest);
      assert (Flatten(p) + rest)[0] == ',';
    }
  }

  /* ---- a substitution that suits a document, token by token ---- */

  ghost predicate SuitsAt(codec: Codec, ls: seq<Lexeme>, n: nat, f: map<nat, seq<Lexeme>>, afterVal: bool, k: nat) {
    k < TokenCount(ls) && n + k in f ==>
      && Fitting(codec, LexemeAt(ls, k), f[n + k])
      && (StartsSafely(f[n + k], LexemeAt(ls, k)) || (if k == 0 then !afterVal else !LexemeAt(ls, k - 1).Val?))
  }

  predicate AfterVal(prev: Option<Lexeme>) { prev.Some? && prev.value.Val? }

  lemma {:induction false} SuitsPointwise(codec: Codec, prev: Option<Lexeme>, ls: seq<Lexeme>, n: nat, f: map<nat, seq<Lexeme>>)
    requires forall k: nat :: SuitsAt(codec, ls, n, f, AfterVal(prev), k)
    ensures Suits(codec, prev, ls, n, f)
    decreases |ls|
  {
    if ls == [] {
    } else {
      var h, t := ls[0], ls[1..];
      var afterVal := AfterVal(prev);
      hide Fitting, StartsSafely;
      if !h.IsToken() {
        forall k: nat
          ensures SuitsAt(codec, t, n, f, AfterVal(Some(h)), k)
        {
          assert SuitsAt(codec, ls, n, f, afterVal, k);
        }
        SuitsPointwise(codec, Some(h), t, n, f);
      } else {
        assert SuitsAt(codec, ls, n, f, afterVal, 0);
        var m := n + 1;
        forall k: nat
          ensures SuitsAt(codec, t, m, f, AfterVal(Some(h)), k)
        {
          assert n + (k + 1) == m + k;
          assert SuitsAt(codec, ls, n, f, afterVal, k + 1);
        }
        SuitsPointwise(codec, Some(h), t, m, f);
      }
    }
  }

  /* ---- a plan and its substitution ---- */

  // The edits, once sorted, substitute f, and the result is well formed.
  ghost predicate Realizes(codec: Codec, ls: seq<Lexeme>, es: seq<TextEdit>, ks: seq<nat>, f: map<nat, seq<Lexeme>>) {
    && Edits(ls, ks, SortDown(es), f)
    && (Decodes(codec) ==> Suits(codec, None, ls, 0, f))
    && forall k :: k in f ==> CommentsOf(f[k]) == []
  }

  // Replacement k suits its token: it fits, and either starts safely or does not
  // follow a literal.
  ghost predicate Placed(codec: Codec, ls: seq<Lexeme>, f: map<nat, seq<Lexeme>>, k: nat) {
    && k in f && k < TokenCount(ls) && k < |SymbolsOf(ls)|
    && Fitting(codec, LexemeAt(ls, k), f[k])
    && (StartsSafely(f[k], LexemeAt(ls, k)) || (k > 0 && SymbolsOf(ls)[k - 1].kind != 'v'))
  }

  lemma SuitsWhole(codec: Codec, ls: seq<Lexeme>, f: map<nat, seq<Lexeme>>)
    requires WellFormed(codec, ls) && forall k :: k in f ==> Placed(codec, ls, f, k)
    ensures Suits(codec, None, ls, 0, f)
  {
    forall k: nat
      ensures SuitsAt(codec, ls, 0, f, AfterVal(None), k)
    {
      if k < TokenCount(ls) && k in f {
        assert Placed(codec, ls, f, k);
        if k > 0 { TokenFacts(codec, ls, k - 1); }
      }
    }
    SuitsPointwise(codec, None, ls, 0, f);
  }

  lemma OneEdit(codec: Codec, ls: seq<Lexeme>, e: TextEdit, k: nat, piece: seq<Lexeme>)
    requires WellFormed(codec, ls) && k < |TokensOf(ls, 0)| && Fits(Flatten(ls), TokensOf(ls, 0)[k], e, piece)
    requires CommentsOf(piece) == [] && (Decodes(codec) ==> Placed(codec, ls, map[k := piece], k))
    ensures Realizes(codec, ls, [e], [k], map[k := piece])
  {
    hide Fits, TokensOf, SymbolsOf, Flatten, Suits, Placed, TokenCount, WellFormed, CommentsOf, Decodes, SortDown;
    SortDownSpec([e]);
    if Decodes(codec) { SuitsWhole(codec, ls, map[k := piece]); }
  }

  /* ---- adding an entry to the array ---- */

  lemma SolidCons(codec: Codec, l: Lexeme, p: seq<Lexeme>)
    requires SolidLexeme(codec, l) && Solid(codec, p)
    ensures Solid(codec, [l] + p)
  {
    hide SolidLexeme;
    assert ([l] + p)[1..] == p;
  }

  lemma SolidOne(codec: Codec, l: Lexeme)
    requires SolidLexeme(codec, l)
    ensures Solid(codec, [l])
  {
    hide SolidLexeme;
    assert [l][1..] == [];
  }

  lemma SolidPunctSpace(codec: Codec)
    ensures SolidLexeme(codec, Space(' ')) && SolidLexeme(codec, Space('\n')) && SolidLexeme(codec, Punct(','))
    ensures SolidLexeme(codec, Punct(':')) && SolidLexeme(codec, Punct('[')) && SolidLexeme(codec, Punct(']'))
  {
  }

  lemma QuotedSolid(codec: Codec)
    requires Decodes(codec)
    ensures SolidLexeme(codec, QUOTED_LEXEME)
  {
    LiteralsOk(codec);
    hide LexOk, Open, Decodes, QUOTED, PINNED;
  }

  lemma SolidQuoted(codec: Codec)
    requires Decodes(codec)
    ensures Solid(codec, [QUOTED_LEXEME]) && Solid(codec, [Space(' '), QUOTED_LEXEME])
    ensures Solid(codec, [Punct(','), Space(' '), QUOTED_LEXEME]) && Solid(codec, [Punct(',')])
  {
    hide Decodes, LexOk, Open, Solid, SolidLexeme, QUOTED_LEXEME;
    QuotedSolid(codec);
    SolidPunctSpace(codec);
    SolidOne(codec, QUOTED_LEXEME);
    SolidCons(codec, Space(' '), [QUOTED_LEXEME]);
    assert [Space(' ')] + [QUOTED_LEXEME] == [Space(' '), QUOTED_LEXEME];
    SolidCons(codec, Punct(','), [Space(' '), QUOTED_LEXEME]);
    assert [Punct(',')] + [Space(' '), QUOTED_LEXEME] == [Punct(','), Space(' '), QUOTED_LEXEME];
    SolidOne(codec, Punct(','));
  }

  lemma SolidProperty(codec: Codec)
    requires Decodes(codec)
    ensures Solid(codec, PROPERTY_PIECE)
  {
    LiteralsOk(codec);
    var key := Str("\"plugin\"", "plugin");
    assert SolidLexeme(codec, QUOTED_LEXEME) && SolidLexeme(codec, key);
    SolidPunctSpace(codec);
    hide Decodes, LexOk, Open, Solid, SolidLexeme;
    SolidOne(codec, Space('\n'));
    SolidCons(codec, Punct(']'), [Space('\n')]);
    var p7 := [QUOTED_LEXEME] + ([Punct(']')] + [Space('\n')]);
    SolidCons(codec, QUOTED_LEXEME, [Punct(']')] + [Space('\n')]);
    var p5 := [Space(' ')] + ([Punct('[')] + p7);
    SolidCons(codec, Punct('['), p7);
    SolidCons(codec, Space(' '), [Punct('[')] + p7);
    var p3 := [key] + ([Punct(':')] + p5);
    SolidCons(codec, Punct(':'), p5);
    SolidCons(codec, key, [Punct(':')] + p5);
    var p1 := [Space(' ')] + ([Space(' ')] + p3);
    SolidCons(codec, Space(' '), p3);
    SolidCons(codec, Space(' '), [Space(' ')] + p3);
    SolidCons(codec, Space('\n'), p1);
    PropertyNested(key, p7, p5, p3, p1);
  }

  lemma PropertyNested(key: Lexeme, p7: seq<Lexeme>, p5: seq<Lexeme>, p3: seq<Lexeme>, p1: seq<Lexeme>)
    requires key == Str("\"plugin\"", "plugin") && p7 == [QUOTED_LEXEME] + ([Punct(']')] + [Space('\n')])
    requires p5 == [Space(' ')] + ([Punct('[')] + p7) && p3 == [key] + ([Punct(':')] + p5)
    requires p1 == [Space(' ')] + ([Space(' ')] + p3)
    ensures PROPERTY_PIECE == [Space('\n')] + p1
  {
    assert p5 == [Space(' '), Punct('['), QUOTED_LEXEME, Punct(']'), Space('\n')];
    assert p3 == [key, Punct(':'), Space(' '), Punct('['), QUOTED_LEXEME, Punct(']'), Space('\n')];
  }

  lemma QuotedTexts()
    ensures Flatten([QUOTED_LEXEME]) == QUOTED && CommentsOf([QUOTED_LEXEME]) == []
    ensures Flatten([Space(' '), QUOTED_LEXEME]) == " " + QUOTED && CommentsOf([Space(' '), QUOTED_LEXEME]) == []
    ensures Flatten([Punct(','), Space(' '), QUOTED_LEXEME]) == ", " + QUOTED
    ensures CommentsOf([Punct(','), Space(' '), QUOTED_LEXEME]) == []
  {
    hide Flatten, SymbolsOf, CommentsOf;
    PieceNil();
    PieceCons(QUOTED_LEXEME, []);
    PieceCons(Space(' '), [QUOTED_LEXEME]);
    PieceCons(Punct(','), [Space(' '), QUOTED_LEXEME]);
    assert [QUOTED_LEXEME] == [QUOTED_LEXEME] + [] && [Space(' '), QUOTED_LEXEME] == [Space(' ')] + [QUOTED_LEXEME];
    assert [Punct(','), Space(' '), QUOTED_LEXEME] == [Punct(',')] + [Space(' '), QUOTED_LEXEME];
  }
}
