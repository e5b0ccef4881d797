/** Substituted documents: they lex back to the substituted lexemes, their symbols
    are the substituted symbols, and no comment is touched. */
module JsoncDocument {
  import opened Base
  import opened JsoncLexer
  import opened JsoncSplice
  import opened JsoncParser

  function SymbolOf(l: Lexeme): Symbol
    requires l.IsToken()
  {
    Symbol(l.Kind(), l.Text(), l.Value())
  }

  function SymbolIn(l: Lexeme): seq<Symbol> { if l.IsToken() then [SymbolOf(l)] else [] }

  function CommentIn(l: Lexeme): seq<Lexeme> { if l.IsComment() then [l] else [] }

  function SymbolsOf(ls: seq<Lexeme>): seq<Symbol> {
    if ls == [] then [] else SymbolIn(ls[0]) + SymbolsOf(ls[1..])
  }

  function CommentsOf(ls: seq<Lexeme>): seq<Lexeme> {
    if ls == [] then [] else CommentIn(ls[0]) + CommentsOf(ls[1..])
  }

  ghost function DocOf(ls: seq<Lexeme>): Doc { Doc(TokensOf(ls, 0), SymbolsOf(ls)) }

  lemma {:induction false} SymbolsMatchTokens(ls: seq<Lexeme>, at: nat)
    ensures Spells(TokensOf(ls, at), SymbolsOf(ls))
  {
    if ls == [] {
    } else {
      SymbolsMatchTokens(ls[1..], at + |ls[0].Text()|);
    }
  }

  lemma DocValid(ls: seq<Lexeme>)
    ensures DocOf(ls).Valid() && |SymbolsOf(ls)| == TokenCount(ls)
  {
    SymbolsMatchTokens(ls, 0);
    TokensOfCount(ls, 0);
  }

  lemma {:induction false} SymbolsAppend(xs: seq<Lexeme>, ys: seq<Lexeme>)
    ensures SymbolsOf(xs + ys) == SymbolsOf(xs) + SymbolsOf(ys)
  {
    hide SymbolIn;
    if xs == [] {
      assert xs + ys == ys;
    } else {
      var h, t := xs[0], xs[1..];
      assert (xs + ys)[1..] == t + ys;
      SymbolsAppend(t, ys);
      assert SymbolIn(h) + (SymbolsOf(t) + SymbolsOf(ys)) == SymbolIn(h) + SymbolsOf(t) + SymbolsOf(ys);
    }
  }

  lemma {:induction false} CommentsAppend(xs: seq<Lexeme>, ys: seq<Lexeme>)
    ensures CommentsOf(xs + ys) == CommentsOf(xs) + CommentsOf(ys)
  {
    hide CommentIn;
    if xs == [] {
      assert xs + ys == ys;
    } else {
      var h, t := xs[0], xs[1..];
      assert (xs + ys)[1..] == t + ys;
      CommentsAppend(t, ys);
      assert CommentIn(h) + (CommentsOf(t) + CommentsOf(ys)) == CommentIn(h) + CommentsOf(t) + CommentsOf(ys);
    }
  }

  /* ---- symbols and comments of a substitution ---- */

  ghost function SymbolSubst(syms: seq<Symbol>, n: nat, f: map<nat, seq<Lexeme>>): seq<Symbol> {
    if syms == [] then []
    else (if n in f then SymbolsOf(f[n]) else [syms[0]]) + SymbolSubst(syms[1..], n + 1, f)
  }

  lemma {:induction false} SubstSymbols(ls: seq<Lexeme>, n: nat, f: map<nat, seq<Lexeme>>)
    ensures SymbolsOf(Subst(ls, n, f)) == SymbolSubst(SymbolsOf(ls), n, f)
  {
    if ls == [] {
    } else {
      var tail := ls[1..];
      if !ls[0].IsToken() {
        SubstSymbols(tail, n, f);
        SymbolsAppend([ls[0]], Subst(tail, n, f));
        assert SymbolsOf([ls[0]]) == [];
        assert SymbolsOf(ls) == SymbolsOf(tail);
      } else {
        SubstSymbols(tail, n + 1, f);
        SymbolsAppend(if n in f then f[n] else [ls[0]], Subst(tail, n + 1, f));
        assert SymbolsOf([ls[0]]) == [SymbolOf(ls[0])];
        assert SymbolsOf(ls) == [SymbolOf(ls[0])] + SymbolsOf(tail);
      }
    }
  }

  lemma {:induction false} SymbolSubstAppend(a: seq<Symbol>, b: seq<Symbol>, n: nat, f: map<nat, seq<Lexeme>>)
    ensures SymbolSubst(a + b, n, f) == SymbolSubst(a, n, f) + SymbolSubst(b, n + |a|, f)
  {
    if a == [] {
      assert a + b == b;
    } else {
      assert (a + b)[1..] == a[1..] + b;
      SymbolSubstAppend(a[1..], b, n + 1, f);
    }
  }

  lemma {:induction false} SymbolSubstNone(a: seq<Symbol>, n: nat, f: map<nat, seq<Lexeme>>)
    requires forall k :: n <= k < n + |a| ==> k !in f
    ensures SymbolSubst(a, n, f) == a
  {
    if a == [] {
    } else {
      SymbolSubstNone(a[1..], n + 1, f);
    }
  }

  lemma {:induction false} SubstComments(ls: seq<Lexeme>, n: nat, f: map<nat, seq<Lexeme>>)
    requires forall k :: k in f ==> CommentsOf(f[k]) == []
    ensures CommentsOf(Subst(ls, n, f)) == CommentsOf(ls)
  {
    if ls == [] {
    } else {
      var tail := ls[1..];
      if !ls[0].IsToken() {
        SubstComments(tail, n, f);
        CommentsAppend([ls[0]], Subst(tail, n, f));
        CommentsAppend([ls[0]], tail);
        assert [ls[0]] + tail == ls;
      } else {
        SubstComments(tail, n + 1, f);
        CommentsAppend(if n in f then f[n] else [ls[0]], Subst(tail, n + 1, f));
        assert CommentsOf([ls[0]]) == [];
      }
    }
  }

  /* ---- well-formedness of a substitution ---- */

  // p is well formed in front of the text `rest`.
  ghost predicate Chain(codec: Codec, p: seq<Lexeme>, rest: string) {
    p == [] || (LexOk(codec, p[0]) && Follow(p[0], Flatten(p[1..]) + rest) && Chain(codec, p[1..], rest))
  }

  lemma {:induction false} ChainAppend(codec: Codec, p: seq<Lexeme>, q: seq<Lexeme>)
    requires Chain(codec, p, Flatten(q)) && WellFormed(codec, q)
    ensures WellFormed(codec, p + q)
  {
    if p == [] {
      assert p + q == q;
    } else {
      hide LexOk, Follow, Flatten;
      assert (p + q)[1..] == p[1..] + q;
      FlattenAppend(p[1..], q);
      ChainAppend(codec, p[1..], q);
    }
  }

  // Whatever may follow the token may follow its replacement.
  ghost predicate Fitting(codec: Codec, l: Lexeme, p: seq<Lexeme>) {
    forall rest: string :: Follow(l, rest) ==> Chain(codec, p, rest)
  }

  // A replacement for l that may stand after an unquoted literal if l could.
  predicate StartsSafely(p: seq<Lexeme>, l: Lexeme) {
    p != [] && (p[0] == l || (|p[0].Text()| > 0 && IsDelimiter(p[0].Text()[0])))
  }

  // Replacements for the tokens of ls, the lexeme before which is `prev`.
  ghost predicate Suits(codec: Codec, prev: Option<Lexeme>, ls: seq<Lexeme>, n: nat, f: map<nat, seq<Lexeme>>)
    decreases |ls|
  {
    ls == [] ||
    if !ls[0].IsToken() then Suits(codec, Some(ls[0]), ls[1..], n, f)
    else
      && (n in f ==> Fitting(codec, ls[0], f[n])
                     && (prev.Some? && prev.value.Val? ==> StartsSafely(f[n], ls[0])))
      && Suits(codec, Some(ls[0]), ls[1..], n + 1, f)
  }

  // What may follow a lexeme before the substitution may follow it after.
  lemma FollowKept(codec: Codec, prev: Lexeme, ls: seq<Lexeme>, n: nat, f: map<nat, seq<Lexeme>>)
    requires LexOk(codec, prev) && WellFormed(codec, ls) && Suits(codec, Some(prev), ls, n, f)
    requires Follow(prev, Flatten(ls))
    ensures Follow(prev, Flatten(Subst(ls, n, f)))
  {
    if ls != [] {
      var h := ls[0];
      NonEmptyText(codec, h);
      var after := Subst(ls[1..], if h.IsToken() then n + 1 else n, f);
      hide Chain, Suits, Fitting, WellFormed, Subst;
      if h.IsToken() && n in f {
        assert Subst(ls, n, f) == f[n] + after by { SubstHead(ls, n, f); }
        SuitsHead(codec, Some(prev), ls, n, f);
        if prev.Val? {
          assert (f[n] + after)[0] == f[n][0];
        }
      } else {
        assert Subst(ls, n, f) == [h] + after by { SubstHead(ls, n, f); }
        assert ([h] + after)[0] == h;
      }
    }
  }

  lemma SubstHead(ls: seq<Lexeme>, n: nat, f: map<nat, seq<Lexeme>>)
    requires ls != []
    ensures Subst(ls, n, f) == (if ls[0].IsToken() && n in f then f[n] else [ls[0]])
                               + Subst(ls[1..], if ls[0].IsToken() then n + 1 else n, f)
  {
  }

  lemma SuitsHead(codec: Codec, prev: Option<Lexeme>, ls: seq<Lexeme>, n: nat, f: map<nat, seq<Lexeme>>)
    requires ls != [] && Suits(codec, prev, ls, n, f)
    ensures ls[0].IsToken() && n in f ==>
              Fitting(codec, ls[0], f[n]) && (prev.Some? && prev.value.Val? ==> StartsSafely(f[n], ls[0]))
    ensures Suits(codec, Some(ls[0]), ls[1..], if ls[0].IsToken() then n + 1 else n, f)
  {
  }

  lemma NonEmptyText(codec: Codec, l: Lexeme)
    requires LexOk(codec, l)
    ensures l.Text() != ""
    ensures l.Val? ==> !IsDelimiter(l.Text()[0])
    ensures l.Text()[0] == '\n' ==> l.Space?
  {
  }

  lemma {:induction false} SubstWellFormed(codec: Codec, prev: Option<Lexeme>, ls: seq<Lexeme>, n: nat, f: map<nat, seq<Lexeme>>)
    requires WellFormed(codec, ls) && Suits(codec, prev, ls, n, f)
    ensures WellFormed(codec, Subst(ls, n, f))
    decreases |ls|
  {
    if ls == [] {
    } else {
      var h, t := ls[0], ls[1..];
      var m := if h.IsToken() then n + 1 else n;
      SuitsHead(codec, prev, ls, n, f);
      SubstHead(ls, n, f);
      hide LexOk, Follow, Suits, Subst, Flatten;
      SubstWellFormed(codec, Some(h), t, m, f);
      FollowKept(codec, h, t, m, f);
      var after := Subst(t, m, f);
      if h.IsToken() && n in f {
        assert Chain(codec, f[n], Flatten(after));
        ChainAppend(codec, f[n], after);
      } else {
        FlattenCons(codec, h, after);
      }
    }
  }
}
