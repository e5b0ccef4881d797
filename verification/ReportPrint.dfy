/** Printing a report and parsing it back, for every order of the four labels. */
module ReportPrint {
  import opened Base
  import opened ReportText

  function ValueOf(r: Report, l: Label): string {
    match l
    case Status => if r.success then "success" else "failure"
    case NextStep => r.nextStep
    case Summary => r.summary
    case Feedback => r.feedback
  }

  function Field1(r: Report, l: Label): string { Name(l) + ": " + ValueOf(r, l) }

  // The fields in some order, one below the other.
  function Print(r: Report, order: seq<Label>): string {
    if order == [] then ""
    else if |order| == 1 then Field1(r, order[0])
    else Field1(r, order[0]) + "\n" + Print(r, order[1..])
  }

  predicate Permutation(order: seq<Label>) {
    |order| == 4 && forall i, j :: 0 <= i < j < 4 ==> order[i] != order[j]
  }

  /* ---- the lines of a printed report ---- */

  function Head(r: Report, l: Label): string { Name(l) + ": " + Lines(ValueOf(r, l))[0] }

  function Block(r: Report, l: Label): seq<string> { [Head(r, l)] + Lines(ValueOf(r, l))[1..] }

  function Blocks(r: Report, order: seq<Label>): seq<string> {
    if order == [] then [] else Block(r, order[0]) + Blocks(r, order[1..])
  }

  lemma NameShape(l: Label)
    ensures NoNewline(Name(l)) && LabelLike(Name(l)) && Core(Name(l)) == Name(l) && Known(Name(l)) == Some(l)
    ensures NoNewline(Name(l) + ": ")
    ensures forall i :: 0 <= i < |Name(l)| ==> Name(l)[i] != ':'
  {
  }

  lemma BlockLines(r: Report, l: Label)
    ensures Lines(Field1(r, l)) == Block(r, l)
  {
    NameShape(l);
    hide Name;
    LinesPrefix(Name(l) + ": ", ValueOf(r, l));
  }

  lemma {:induction false} PrintLines(r: Report, order: seq<Label>)
    requires order != []
    ensures Lines(Print(r, order)) == Blocks(r, order)
    decreases |order|
  {
    hide Block, Field1, Lines;
    BlockLines(r, order[0]);
    if |order| > 1 {
      PrintLines(r, order[1..]);
      LinesAppend(Field1(r, order[0]), Print(r, order[1..]));
    } else {
      assert order[1..] == [] && Block(r, order[0]) + [] == Block(r, order[0]);
    }
  }

  /* ---- what makes a value survive ---- */

  // The first line can stand behind a label: it has no carriage return or Unicode
  // line separator inside, which the pattern of a label line does not cross.
  predicate Opens(v: string) { OneLine(TrimRight(Lines(v)[0])) }

  // The first line does not end in white space, which the parser cuts off there.
  predicate Flush1(v: string) { TrimRight(Lines(v)[0]) == Lines(v)[0] }

  predicate Marks(line: string) { var m := MatchLabel(TrimRight(line)); m.Some? && Known(m.value.0).Some? }

  // No later line reads as one of the four labels. Other upper-case headings may.
  predicate Unlabelled(v: string) { forall i :: 0 < i < |Lines(v)| ==> !Marks(Lines(v)[i]) }

  // A report the contract allows: trimmed values, and a next step on one line.
  predicate Sound(r: Report) {
    && Trim(r.nextStep) == r.nextStep != "" && OneLine(r.nextStep) && |Lines(r.nextStep)| == 1
    && Trim(r.summary) == r.summary != "" && Trim(r.feedback) == r.feedback != ""
  }

  /* ---- trimming ---- */

  lemma {:induction false} TrimLeftSuffix(s: string)
    ensures |TrimLeft(s)| <= |s| && TrimLeft(s) == s[|s| - |TrimLeft(s)|..]
    ensures TrimLeft(s) == s <==> s == "" || !Ws(s[0])
  {
    if s != "" && Ws(s[0]) { TrimLeftSuffix(s[1..]); }
  }

  lemma {:induction false} TrimRightPrefix(s: string)
    ensures |TrimRight(s)| <= |s| && TrimRight(s) == s[..|TrimRight(s)|]
    ensures TrimRight(s) == s <==> s == "" || !Ws(s[|s| - 1])
    decreases |s|
  {
    if s != "" && Ws(s[|s| - 1]) { TrimRightPrefix(s[..|s| - 1]); }
  }

  lemma TrimFixed(s: string)
    ensures Trim(s) == s <==> s == "" || (!Ws(s[0]) && !Ws(s[|s| - 1]))
    ensures |Trim(s)| <= |s|
  {
    TrimLeftSuffix(s);
    TrimRightPrefix(TrimLeft(s));
    if s != "" && !Ws(s[0]) { TrimRightPrefix(s); }
  }

  // The first line of a trimmed value.
  lemma FirstLine(v: string)
    requires Trim(v) == v != ""
    ensures Lines(v)[0] != "" && !Ws(Lines(v)[0][0]) && TrimRight(Lines(v)[0]) != ""
    ensures Trim(TrimRight(Lines(v)[0])) == TrimRight(Lines(v)[0])
  {
    TrimFixed(v);
    LinesCons(v[0], v[1..]);
    assert v == [v[0]] + v[1..];
    hide Lines;
    var f := Lines(v)[0];
    assert f[0] == v[0];
    TrimRightPrefix(f);
    TrimRightFirst(f);
    TrimRightTwice(f);
    TrimFixed(TrimRight(f));
  }

  lemma {:induction false} TrimRightFirst(s: string)
    requires s != "" && !Ws(s[0])
    ensures TrimRight(s) != "" && TrimRight(s)[0] == s[0]
    decreases |s|
  {
    if Ws(s[|s| - 1]) { TrimRightFirst(s[..|s| - 1]); }
  }

  lemma {:induction false} TrimRightTwice(s: string)
    ensures TrimRight(TrimRight(s)) == TrimRight(s)
    ensures TrimRight(s) != "" ==> !Ws(TrimRight(s)[|TrimRight(s)| - 1])
    decreases |s|
  {
    if s != "" && Ws(s[|s| - 1]) { TrimRightTwice(s[..|s| - 1]); }
  }

  lemma {:induction false} TrimRightAfter(p: string, f: string)
    requires TrimRight(f) != ""
    ensures TrimRight(p + f) == p + TrimRight(f)
    decreases |f|
  {
    assert f != "" && (p + f)[|p + f| - 1] == f[|f| - 1];
    if Ws(f[|f| - 1]) {
      assert (p + f)[..|p + f| - 1] == p + f[..|f| - 1];
      TrimRightAfter(p, f[..|f| - 1]);
    }
  }

  /* ---- the head of a block ---- */

  // A head reads as its label when its value's first line can stand there, and as no
  // label at all otherwise.
  lemma HeadReads(l: Label, f: string)
    requires f != "" && !Ws(f[0]) && TrimRight(f) != "" && TrimRight(f)[0] == f[0]
    ensures MatchLabel(TrimRight(Name(l) + ": " + f)) == if OneLine(TrimRight(f)) then Some((Name(l), TrimRight(f))) else None
  {
    NameShape(l);
    TrimRightAfter(Name(l) + ": ", f);
    hide Name, Known, Core, LabelLike, Ws, TrimRight;
    var g, n := TrimRight(f), Name(l);
    var line := n + ": " + g;
    var rest := ": " + g;
    IndexPrefix(n, rest);
    assert rest[1..] == " " + g && rest[0] == ':';
    assert line == n + rest;
    CutAt(n, rest);
    SpaceBefore(g);
  }

  lemma {:induction false} IndexPrefix(n: string, rest: string)
    requires rest != "" && rest[0] == ':' && forall i :: 0 <= i < |n| ==> n[i] != ':'
    ensures IndexOf(n + rest, ':', 0) == |n|
  {
    assert (n + rest)[|n|] == ':';
  }

  lemma CutAt(n: string, rest: string)
    requires rest != ""
    ensures (n + rest)[..|n|] == n && (n + rest)[|n| + 1..] == rest[1..]
  {
  }

  lemma SpaceBefore(g: string)
    requires g != "" && !Ws(g[0])
    ensures TrimLeft(" " + g) == g && (OneLine(" " + g) <==> OneLine(g))
  {
    assert (" " + g)[1..] == g && Ws(' ') && !Break(' ');
    if OneLine(" " + g) {
      forall i | 0 <= i < |g|
        ensures !Break(g[i])
      {
        assert (" " + g)[i + 1] == g[i];
      }
    }
  }

  /* ---- parsing the blocks ---- */

  // Every value's first line is trimmed at its start, as a printed report's is.
  predicate Ready(r: Report, l: Label) {
    var v := ValueOf(r, l);
    Trim(v) == v != "" && ((l == Status || l == NextStep) ==> |Lines(v)| == 1)
  }

  lemma SoundReady(r: Report, l: Label)
    requires Sound(r)
    ensures Ready(r, l) && (l == Status || l == NextStep ==> Opens(ValueOf(r, l)) && Unlabelled(ValueOf(r, l)) && Flush1(ValueOf(r, l)))
  {
    if l == Status {
      StatusWords();
      WordShape(ValueOf(r, l));
      hide Lines, Trim, TrimRight;
    }
    if l == NextStep {
      hide Lines, Trim, TrimRight;
      SingleLine(r.nextStep);
      TrimFixed(r.nextStep);
      TrimRightPrefix(r.nextStep);
    }
  }

  predicate Word(w: string) { w != "" && forall i :: 0 <= i < |w| ==> 'a' <= w[i] <= 'z' }

  lemma WordShape(w: string)
    requires Word(w)
    ensures Trim(w) == w && Lines(w) == [w] && OneLine(w) && TrimRight(w) == w
  {
    TrimFixed(w);
    TrimRightPrefix(w);
    WordLines(w);
    hide Trim, Lines, TrimRight;
  }

  lemma StatusWords()
    ensures Word("success") && Word("failure")
  {
  }

  lemma WordLines(w: string)
    requires NoNewline(w)
    ensures Lines(w) == [w]
  {
    LinesPrefix(w, "");
    assert w + "" == w && Lines("") == [""];
  }

  lemma SingleLine(v: string)
    requires |Lines(v)| == 1
    ensures Lines(v)[0] == v
  {
    LinesJoined(v);
    hide Lines;
  }

  // What the parser collects for a value whose head is recognised.
  function Cut(v: string): seq<string> { [TrimRight(Lines(v)[0])] + Lines(v)[1..] }

  function Kept(v: string): string { Trim(Joined(Cut(v))) }

  lemma FeedHead(s: State, r: Report, l: Label)
    requires Ready(r, l) && Opens(ValueOf(r, l)) && l !in s.seen
    ensures Feed(s, Head(r, l)) == Some(State(Flush(s), s.seen + {l}, Some(l), [TrimRight(Lines(ValueOf(r, l))[0])]))
  {
    var f := Lines(ValueOf(r, l))[0];
    FirstLine(ValueOf(r, l));
    TrimRightFirst(f);
    HeadReads(l, f);
    NameShape(l);
    hide Lines, Trim, TrimRight, MatchLabel, Name, Known, Flush;
  }

  lemma FeedLine(s: State, line: string)
    requires (s.current == Some(Summary) || s.current == Some(Feedback)) && !Marks(line)
    ensures Feed(s, line) == Some(s.(value := s.value + [line]))
  {
    hide MatchLabel, TrimRight, Known;
  }

  lemma {:induction false} FeedBody(s: State, body: seq<string>, rest: seq<string>)
    requires body == [] || s.current == Some(Summary) || s.current == Some(Feedback)
    requires forall i :: 0 <= i < |body| ==> !Marks(body[i])
    ensures Feeds(s, body + rest) == Feeds(s.(value := s.value + body), rest)
    decreases |body|
  {
    hide Marks, Feed;
    if body == [] {
      assert body + rest == rest && s.value + body == s.value;
    } else {
      FeedLine(s, body[0]);
      var t := s.(value := s.value + [body[0]]);
      assert (body + rest)[0] == body[0] && (body + rest)[1..] == body[1..] + rest;
      FeedBody(t, body[1..], rest);
      assert s.value + [body[0]] + body[1..] == s.value + body;
    }
  }

  lemma FeedBlock(s: State, r: Report, l: Label, rest: seq<string>)
    requires Ready(r, l) && Opens(ValueOf(r, l)) && Unlabelled(ValueOf(r, l)) && l !in s.seen
    ensures Feeds(s, Block(r, l) + rest) == Feeds(State(Flush(s), s.seen + {l}, Some(l), Cut(ValueOf(r, l))), rest)
  {
    FeedHead(s, r, l);
    hide Lines, Trim, TrimRight, Feed, Marks, ValueOf, Flush;
    var ls := Lines(ValueOf(r, l));
    var body := ls[1..];
    var t := State(Flush(s), s.seen + {l}, Some(l), [TrimRight(ls[0])]);
    assert (Block(r, l) + rest)[0] == Head(r, l) && (Block(r, l) + rest)[1..] == body + rest;
    FeedBody(t, body, rest);
  }

  function KeptAll(r: Report, order: seq<Label>): map<Label, string> {
    map l | l in order :: Kept(ValueOf(r, l))
  }

  predicate Clean(r: Report, order: seq<Label>) {
    && (forall i :: 0 <= i < |order| ==> Ready(r, order[i]) && Opens(ValueOf(r, order[i])) && Unlabelled(ValueOf(r, order[i])))
    && forall i, j :: 0 <= i < j < |order| ==> order[i] != order[j]
  }

  lemma {:induction false} FeedBlocks(s: State, r: Report, order: seq<Label>) returns (t: State)
    requires Clean(r, order) && forall i :: 0 <= i < |order| ==> order[i] !in s.seen
    ensures Feeds(s, Blocks(r, order)) == Some(t)
    ensures t.seen == s.seen + (set l | l in order) && Flush(t) == Flush(s) + KeptAll(r, order)
    decreases |order|
  {
    hide Ready, Opens, Unlabelled, Kept, Block, Feed, ValueOf, Cut;
    if order == [] {
      t := s;
      assert KeptAll(r, []) == map[] && Blocks(r, []) == [];
    } else {
      var l, more := order[0], order[1..];
      var u := State(Flush(s), s.seen + {l}, Some(l), Cut(ValueOf(r, l)));
      FeedBlock(s, r, l, Blocks(r, more));
      t := FeedBlocks(u, r, more);
      assert order == [l] + more;
      FlushCut(s, r, l);
      hide Flush, Feeds, Clean;
      KeptCons(r, l, more, Flush(s));
      SetCons(l, more);
    }
  }

  lemma KeptCons(r: Report, l: Label, more: seq<Label>, base: map<Label, string>)
    ensures base[l := Kept(ValueOf(r, l))] + KeptAll(r, more) == base + KeptAll(r, [l] + more)
  {
    hide Kept;
    var m := [l] + more;
    assert forall k :: k in m <==> k == l || k in more;
    assert KeptAll(r, m) == map[l := Kept(ValueOf(r, l))] + KeptAll(r, more);
  }

  lemma SetCons(l: Label, more: seq<Label>)
    ensures (set k | k in [l] + more) == {l} + set k | k in more
  {
    assert forall k :: k in [l] + more <==> k == l || k in more;
  }

  lemma FlushCut(s: State, r: Report, l: Label)
    ensures Flush(State(Flush(s), s.seen + {l}, Some(l), Cut(ValueOf(r, l)))) == Flush(s)[l := Kept(ValueOf(r, l))]
  {
  }

  // A value whose first line ends cleanly is kept; any other comes back shorter.
  lemma KeptExact(v: string)
    requires Trim(v) == v
    ensures Kept(v) == v <==> Flush1(v)
  {
    LinesJoined(v);
    TrimRightPrefix(Lines(v)[0]);
    TrimFixed(Joined(Cut(v)));
    hide Lines, Trim, TrimRight;
    var ls := Lines(v);
    JoinedHead(ls[0], ls[1..]);
    JoinedHead(TrimRight(ls[0]), ls[1..]);
    assert [ls[0]] + ls[1..] == ls;
  }

  lemma JoinedHead(f: string, rest: seq<string>)
    ensures Joined([f] + rest) == f + if rest == [] then "" else "\n" + Joined(rest)
  {
    assert ([f] + rest)[1..] == rest;
  }
}
