/** What the parser returns never holds a line that reads as one of the four labels. */
module ReportTidy {
  import opened Base
  import opened ReportText
  import opened ReportPrint

  lemma {:induction false} LinesSnoc(s: string, c: char)
    ensures c == '\n' ==> Lines(s + [c]) == Lines(s) + [""]
    ensures c != '\n' ==> Lines(s + [c]) == Lines(s)[..|Lines(s)| - 1] + [Lines(s)[|Lines(s)| - 1] + [c]]
  {
    if s == "" {
      assert s + [c] == [c] + "" && Lines("") == [""];
      LinesCons(c, "");
      assert [c] + "" == "" + [c];
    } else {
      var d, q := s[0], s[1..];
      assert s + [c] == [d] + (q + [c]) && s == [d] + q;
      hide Lines;
      LinesSnoc(q, c);
      LinesCons(d, q + [c]);
      LinesCons(d, q);
      SnocStep(d, c, Lines(q));
    }
  }

  lemma SnocStep(d: char, c: char, ls: seq<string>)
    requires ls != []
    ensures [""] + (ls[..|ls| - 1] + [ls[|ls| - 1] + [c]]) == ([""] + ls)[..|ls|] + [([""] + ls)[|ls|] + [c]]
    ensures var up := ls[..|ls| - 1] + [ls[|ls| - 1] + [c]];
            var ms := [[d] + ls[0]] + ls[1..];
            [[d] + up[0]] + up[1..] == ms[..|ms| - 1] + [ms[|ms| - 1] + [c]]
    ensures var up := ls + [""];
            var ms := [[d] + ls[0]] + ls[1..];
            [[d] + up[0]] + up[1..] == ms + [""]
    ensures [""] + (ls + [""]) == [""] + ls + [""]
  {
    if |ls| == 1 {
      assert [d] + (ls[0] + [c]) == [d] + ls[0] + [c];
    }
  }

  lemma DropFirst(s: string)
    requires s != "" && Unlabelled(s)
    ensures Unlabelled(s[1..])
  {
    LinesCons(s[0], s[1..]);
    assert s == [s[0]] + s[1..];
    hide Lines, Marks;
    var ls := Lines(s[1..]);
    forall i | 0 < i < |ls|
      ensures !Marks(ls[i])
    {
      if s[0] == '\n' { assert Lines(s)[i + 1] == ls[i]; } else { assert Lines(s)[i] == ls[i]; }
    }
  }

  lemma MarksTrimmed(line: string, c: char)
    requires Ws(c)
    ensures Marks(line + [c]) == Marks(line)
  {
    assert (line + [c])[..|line|] == line;
    assert TrimRight(line + [c]) == TrimRight(line);
    hide TrimRight, MatchLabel, Known;
  }

  lemma DropLast(s: string)
    requires s != "" && Ws(s[|s| - 1]) && Unlabelled(s)
    ensures Unlabelled(s[..|s| - 1])
  {
    hide Lines, Marks, Ws;
    var p, c := s[..|s| - 1], s[|s| - 1];
    assert s == p + [c];
    LinesSnoc(p, c);
    var ls := Lines(p);
    forall i | 0 < i < |ls|
      ensures !Marks(ls[i])
    {
      MarksTrimmed(ls[i], c);
      if c != '\n' && i == |ls| - 1 {
        assert Lines(s)[i] == ls[i] + [c];
      } else {
        assert Lines(s)[i] == ls[i];
      }
    }
  }

  lemma {:induction false} TrimLeftTidy(s: string)
    requires Unlabelled(s)
    ensures Unlabelled(TrimLeft(s))
  {
    hide Unlabelled, Ws;
    if s != "" && Ws(s[0]) {
      DropFirst(s);
      TrimLeftTidy(s[1..]);
    }
  }

  lemma {:induction false} TrimRightTidy(s: string)
    requires Unlabelled(s)
    ensures Unlabelled(TrimRight(s))
    decreases |s|
  {
    hide Unlabelled, Ws;
    if s != "" && Ws(s[|s| - 1]) {
      DropLast(s);
      TrimRightTidy(s[..|s| - 1]);
    }
  }

  lemma TrimTidy(s: string)
    requires Unlabelled(s)
    ensures Unlabelled(Trim(s))
  {
    hide Unlabelled;
    TrimLeftTidy(s);
    TrimRightTidy(TrimLeft(s));
  }

  lemma {:induction false} JoinedLines(ls: seq<string>)
    requires ls != [] && forall i :: 0 <= i < |ls| ==> NoNewline(ls[i])
    ensures Lines(Joined(ls)) == ls
  {
    hide NoNewline;
    if |ls| == 1 {
      WordLines(ls[0]);
    } else {
      JoinedLines(ls[1..]);
      WordLines(ls[0]);
      hide Lines;
      LinesAppend(ls[0], Joined(ls[1..]));
      assert [ls[0]] + ls[1..] == ls;
    }
  }

  /* ---- the parser's state ---- */

  predicate TidyValue(value: seq<string>) {
    && (forall i :: 0 <= i < |value| ==> NoNewline(value[i]))
    && forall i :: 0 < i < |value| ==> !Marks(value[i])
  }

  predicate Tidy(s: State) {
    TidyValue(s.value) && forall l :: l in s.fields ==> Unlabelled(s.fields[l])
  }

  lemma FlushTidy(s: State, l: Label)
    requires Tidy(s) && l in Flush(s)
    ensures Unlabelled(Flush(s)[l])
  {
    hide Trim, Joined;
    if s.current == Some(l) {
      JoinedTidy(s.value);
      hide Unlabelled;
      TrimTidy(Joined(s.value));
    }
  }

  lemma JoinedTidy(value: seq<string>)
    requires TidyValue(value)
    ensures Unlabelled(Joined(value))
  {
    if value == [] {
      assert Lines("") == [""];
    } else {
      hide Lines, Marks, NoNewline, Joined;
      JoinedLines(value);
    }
  }

  lemma RestClean(line: string)
    requires MatchLabel(line).Some?
    ensures NoNewline(MatchLabel(line).value.1)
  {
    hide LabelLike, Core;
    var rest := line[IndexOf(line, ':', 0) + 1..];
    TrimLeftSuffix(rest);
    forall i | 0 <= i < |TrimLeft(rest)|
      ensures TrimLeft(rest)[i] != '\n'
    {
      assert TrimLeft(rest)[i] == rest[|rest| - |TrimLeft(rest)| + i];
    }
  }

  lemma FeedTidy(s: State, line: string)
    requires Tidy(s) && NoNewline(line) && Feed(s, line).Some?
    ensures Tidy(Feed(s, line).value)
  {
    hide MatchLabel, Known, TrimRight, Trim, Flush, Unlabelled, NoNewline;
    var m := MatchLabel(TrimRight(line));
    if Marks(line) {
      RestClean(TrimRight(line));
      forall l | l in Flush(s)
        ensures Unlabelled(Flush(s)[l])
      {
        FlushTidy(s, l);
      }
    }
  }

  lemma {:induction false} FeedsTidy(s: State, lines: seq<string>)
    requires Tidy(s) && Feeds(s, lines).Some? && forall i :: 0 <= i < |lines| ==> NoNewline(lines[i])
    ensures Tidy(Feeds(s, lines).value)
    decreases |lines|
  {
    hide Feed, Tidy, NoNewline;
    if lines == [] {
    } else {
      FeedTidy(s, lines[0]);
      FeedsTidy(Feed(s, lines[0]).value, lines[1..]);
    }
  }

  // Whatever text was parsed, no later line of its two texts reads as a label.
  lemma ParsedTidy(text: string)
    requires Parsed(text).Some?
    ensures Unlabelled(Parsed(text).value.summary) && Unlabelled(Parsed(text).value.feedback)
  {
    hide Lines, Feed, Feeds, Unlabelled, Trim, Flush, Lower, NoNewline;
    LinesClean(text);
    assert Tidy(START);
    FeedsTidy(START, Lines(text));
    var s := Feeds(START, Lines(text)).value;
    FieldTidy(s, Summary);
    FieldTidy(s, Feedback);
  }

  lemma FieldTidy(s: State, l: Label)
    requires Tidy(s)
    ensures Field(Flush(s), l) != "" ==> Unlabelled(Field(Flush(s), l))
  {
    hide Unlabelled, Flush, Tidy, Trim;
    if l in Flush(s) {
      FlushTidy(s, l);
      TrimTidy(Flush(s)[l]);
    }
  }
}
