/** The texts the report parser accepts, as a grammar: the pattern of a label line, and
    the sections a report is made of. */
module ReportGrammar {
  import opened Base
  import opened ReportText
  import opened ReportPrint

  /* ---- the pattern of a label line ---- */

  // Neither a letter, nor a digit, nor a colon.
  predicate Ornament(s: string) { forall i :: 0 <= i < |s| ==> !Alnum(s[i]) && s[i] != ':' }

  // [A-Z]([A-Z0-9 ]*[A-Z0-9])?
  predicate Heading(s: string) {
    && |s| > 0 && 'A' <= s[0] <= 'Z' && s[|s| - 1] != ' '
    && forall i :: 0 <= i < |s| ==> 'A' <= s[i] <= 'Z' || '0' <= s[i] <= '9' || s[i] == ' '
  }

  // Ornament, a heading, ornament, a colon, and anything but a line break.
  predicate Pattern(line: string, before: string, heading: string, after: string, rest: string) {
    line == before + heading + after + ":" + rest && Ornament(before) && Heading(heading) && Ornament(after) && OneLine(rest)
  }

  lemma {:induction false} CoreSplits(s: string) returns (before: string, after: string)
    ensures s == before + Core(s) + after && (forall i :: 0 <= i < |before| ==> !Alnum(before[i])) && forall i :: 0 <= i < |after| ==> !Alnum(after[i])
    ensures Core(s) != "" ==> Alnum(Core(s)[0]) && Alnum(Core(s)[|Core(s)| - 1])
    decreases |s|
  {
    hide Alnum;
    before, after := "", "";
    if s == "" {
    } else if !Alnum(s[0]) {
      var p, q := CoreSplits(s[1..]);
      before, after := [s[0]] + p, q;
      assert s == [s[0]] + s[1..] && [s[0]] + (p + Core(s[1..]) + q) == [s[0]] + p + Core(s[1..]) + q;
    } else if !Alnum(s[|s| - 1]) {
      var front, c := s[..|s| - 1], s[|s| - 1];
      var p, q := CoreSplits(front);
      before, after := p, q + [c];
      assert s == front + [c] && p + Core(front) + q + [c] == p + Core(front) + (q + [c]);
    } else {
      assert s == "" + s + "";
    }
  }

  lemma {:induction false} CoreOf(before: string, core: string, after: string)
    requires (forall i :: 0 <= i < |before| ==> !Alnum(before[i])) && forall i :: 0 <= i < |after| ==> !Alnum(after[i])
    requires core != "" && Alnum(core[0]) && Alnum(core[|core| - 1])
    ensures Core(before + core + after) == core
    decreases |before| + |after|
  {
    hide Alnum;
    var s := before + core + after;
    if before != "" {
      assert s[0] == before[0] && s[1..] == before[1..] + core + after;
      CoreOf(before[1..], core, after);
    } else if after != "" {
      var shorter := after[..|after| - 1];
      assert s[0] == core[0] && s[|s| - 1] == after[|after| - 1] && s[..|s| - 1] == before + core + shorter;
      CoreOf(before, core, shorter);
    } else {
      assert s == core;
    }
  }

  // The matcher meets the pattern, and there is one way only to meet it.
  lemma MatchLabelIff(line: string, heading: string, value: string)
    ensures MatchLabel(line) == Some((heading, value)) <==>
            exists before, after, rest :: Pattern(line, before, heading, after, rest) && value == TrimLeft(rest)
  {
    if MatchLabel(line) == Some((heading, value)) {
      Matched(line);
    }
    forall before, after, rest | Pattern(line, before, heading, after, rest) && value == TrimLeft(rest)
      ensures MatchLabel(line) == Some((heading, value))
    {
      Matches(line, before, heading, after, rest);
    }
  }

  lemma Matched(line: string)
    requires MatchLabel(line).Some?
    ensures exists before, after, rest :: Pattern(line, before, MatchLabel(line).value.0, after, rest) && MatchLabel(line).value.1 == TrimLeft(rest)
  {
    var colon := IndexOf(line, ':', 0);
    var rest := line[colon + 1..];
    var before, after := CoreSplits(line[..colon]);
    hide Core, OneLine, TrimLeft, IndexOf;
    var heading := Core(line[..colon]);
    assert line == line[..colon] + ":" + rest;
    forall i | 0 <= i < colon
      ensures line[i] != ':'
    {
    }
    OrnamentIn(line[..colon], before, heading, after);
    assert Pattern(line, before, heading, after, rest);
  }

  lemma OrnamentIn(s: string, before: string, heading: string, after: string)
    requires s == before + heading + after && forall i :: 0 <= i < |s| ==> s[i] != ':'
    requires (forall i :: 0 <= i < |before| ==> !Alnum(before[i])) && forall i :: 0 <= i < |after| ==> !Alnum(after[i])
    ensures Ornament(before) && Ornament(after)
  {
    forall i | 0 <= i < |before|
      ensures before[i] != ':'
    {
      assert s[i] == before[i];
    }
    forall i | 0 <= i < |after|
      ensures after[i] != ':'
    {
      assert s[|before + heading| + i] == after[i];
    }
  }

  lemma Matches(line: string, before: string, heading: string, after: string, rest: string)
    requires Pattern(line, before, heading, after, rest)
    ensures MatchLabel(line) == Some((heading, TrimLeft(rest)))
  {
    var n, tail := before + heading + after, ":" + rest;
    assert line == n + tail;
    forall i | 0 <= i < |n|
      ensures n[i] != ':'
    {
    }
    IndexPrefix(n, tail);
    CutAt(n, tail);
    CoreOf(before, heading, after);
    assert tail[1..] == rest;
    hide IndexOf, Core, OneLine, TrimLeft, Ornament;
  }

  /* ---- sections ---- */

  // A label line and the lines below it. `first` is what follows the colon.
  datatype Section = Section(kind: Label, head: string, first: string, rest: seq<string>)

  // A line that belongs to a section: no label line, nor, except in a summary or a
  // feedback, any other heading.
  predicate Content(raw: string, l: Label) {
    var m := MatchLabel(TrimRight(raw));
    m.Some? ==> Known(m.value.0).None? && (l == Summary || l == Feedback)
  }

  predicate WellFormed(s: Section) {
    && MatchLabel(TrimRight(s.head)) == Some((Name(s.kind), s.first))
    && forall i :: 0 <= i < |s.rest| ==> Content(s.rest[i], s.kind)
  }

  function Flat(ss: seq<Section>): seq<string> {
    if ss == [] then [] else Flat(ss[..|ss| - 1]) + [ss[|ss| - 1].head] + ss[|ss| - 1].rest
  }

  predicate Blank(raw: string) { Trim(TrimRight(raw)) == "" }

  // Blank lines, then sections of different labels.
  predicate Grammar(lines: seq<string>, blank: seq<string>, ss: seq<Section>) {
    && lines == blank + Flat(ss)
    && (forall i :: 0 <= i < |blank| ==> Blank(blank[i]))
    && (forall i :: 0 <= i < |ss| ==> WellFormed(ss[i]))
    && forall i, j :: 0 <= i < j < |ss| ==> ss[i].kind != ss[j].kind
  }

  function Collected(s: Section): seq<string> { (if s.first == "" then [] else [s.first]) + s.rest }

  function TextOf(s: Section): string { Trim(Joined(Collected(s))) }

  function LabelsOf(ss: seq<Section>): set<Label> { set i | 0 <= i < |ss| :: ss[i].kind }

  function FieldsOf(ss: seq<Section>): map<Label, string> {
    if ss == [] then map[] else FieldsOf(ss[..|ss| - 1])[ss[|ss| - 1].kind := TextOf(ss[|ss| - 1])]
  }

  // Where the loop stands after them.
  function StateOf(ss: seq<Section>): State {
    if ss == [] then START
    else
      var last := ss[|ss| - 1];
      State(FieldsOf(ss[..|ss| - 1]), LabelsOf(ss), Some(last.kind), Collected(last))
  }

  /* ---- the loop follows the grammar ---- */

  lemma {:induction false} FeedsSnoc(s: State, lines: seq<string>, raw: string)
    ensures Feeds(s, lines + [raw]) == match Feeds(s, lines) case None => None case Some(t) => Feed(t, raw)
    decreases |lines|
  {
    hide Feed;
    if lines == [] {
      assert lines + [raw] == [raw] && [raw][1..] == [];
    } else {
      assert (lines + [raw])[1..] == lines[1..] + [raw];
      match Feed(s, lines[0])
      case None =>
      case Some(t) => FeedsSnoc(t, lines[1..], raw);
    }
  }

  lemma FlushOf(ss: seq<Section>)
    ensures Flush(StateOf(ss)) == FieldsOf(ss)
  {
    hide Trim, Joined;
  }

  lemma LabelsSnoc(ss: seq<Section>, s: Section)
    ensures LabelsOf(ss + [s]) == LabelsOf(ss) + {s.kind}
  {
    var ts := ss + [s];
    assert ts[|ss|] == s && forall i :: 0 <= i < |ss| ==> ts[i] == ss[i];
  }

  lemma FlatSnoc(ss: seq<Section>, s: Section)
    ensures Flat(ss + [s]) == Flat(ss) + [s.head] + s.rest
  {
    assert (ss + [s])[..|ss|] == ss;
  }

  lemma StateSnoc(ss: seq<Section>, s: Section)
    ensures StateOf(ss + [s]) == State(FieldsOf(ss), LabelsOf(ss) + {s.kind}, Some(s.kind), Collected(s))
  {
    LabelsSnoc(ss, s);
    assert (ss + [s])[..|ss|] == ss;
    hide FieldsOf, LabelsOf, Collected;
  }

  lemma KnownName(l: Label, name: string)
    ensures Known(name) == Some(l) <==> name == Name(l)
  {
  }

  // A label line opens a section.
  lemma FeedOpens(ss: seq<Section>, s: Section)
    requires WellFormed(s) && s.rest == [] && s.kind !in LabelsOf(ss)
    ensures Feed(StateOf(ss), s.head) == Some(StateOf(ss + [s]))
  {
    FlushOf(ss);
    StateSnoc(ss, s);
    KnownName(s.kind, Name(s.kind));
    SeenOf(ss);
    hide MatchLabel, TrimRight, Known, Name, Flush, FieldsOf, StateOf, LabelsOf;
    assert Collected(s) == if s.first == "" then [] else [s.first];
  }

  lemma SeenOf(ss: seq<Section>)
    ensures StateOf(ss).seen == LabelsOf(ss)
    ensures StateOf(ss).current == if ss == [] then None else Some(ss[|ss| - 1].kind)
  {
    hide Collected, FieldsOf;
  }

  // Any other line of the section is added to it.
  lemma FeedAdds(ss: seq<Section>, s: Section, raw: string)
    requires Content(raw, s.kind)
    ensures Feed(StateOf(ss + [s]), raw) == Some(StateOf(ss + [s.(rest := s.rest + [raw])]))
  {
    StateSnoc(ss, s);
    StateSnoc(ss, s.(rest := s.rest + [raw]));
    hide MatchLabel, TrimRight, Known, Flush, FieldsOf, StateOf, LabelsOf;
    assert Collected(s) + [raw] == Collected(s.(rest := s.rest + [raw]));
  }

  lemma BlankUnmatched(raw: string)
    requires Blank(raw)
    ensures MatchLabel(TrimRight(raw)).None?
  {
    var line := TrimRight(raw);
    TrimLeftSuffix(line);
    TrimRightPrefix(TrimLeft(line));
    BlankAll(line);
    assert !Ws(':');
  }

  lemma {:induction false} BlankAll(s: string)
    requires Trim(s) == ""
    ensures forall i :: 0 <= i < |s| ==> Ws(s[i])
  {
    if s == "" {
    } else if Ws(s[0]) {
      BlankAll(s[1..]);
    } else {
      TrimRightFirst(s);
    }
  }

  lemma FeedBlank(raw: string)
    requires Blank(raw)
    ensures Feed(START, raw) == Some(START)
  {
    BlankUnmatched(raw);
    hide MatchLabel, TrimRight, Trim, Known;
  }

  lemma FeedsOpens(blank: seq<string>, ss: seq<Section>, s: Section)
    requires Feeds(START, blank + Flat(ss)) == Some(StateOf(ss)) && WellFormed(s) && s.rest == [] && s.kind !in LabelsOf(ss)
    ensures Feeds(START, blank + Flat(ss + [s])) == Some(StateOf(ss + [s]))
  {
    FlatSnoc(ss, s);
    FeedsSnoc(START, blank + Flat(ss), s.head);
    FeedOpens(ss, s);
    hide Feed, Feeds, WellFormed, LabelsOf, StateOf, Flat;
    assert blank + Flat(ss + [s]) == blank + Flat(ss) + [s.head];
  }

  lemma FeedsAdds(blank: seq<string>, ss: seq<Section>, s: Section, raw: string)
    requires Feeds(START, blank + Flat(ss + [s])) == Some(StateOf(ss + [s])) && Content(raw, s.kind)
    ensures var t := s.(rest := s.rest + [raw]); Feeds(START, blank + Flat(ss + [t])) == Some(StateOf(ss + [t]))
  {
    var t := s.(rest := s.rest + [raw]);
    FlatSnoc(ss, s);
    FlatSnoc(ss, t);
    FeedsSnoc(START, blank + Flat(ss + [s]), raw);
    FeedAdds(ss, s, raw);
    hide Feed, Feeds, Content, StateOf, Flat;
    assert blank + Flat(ss + [t]) == blank + Flat(ss + [s]) + [raw];
  }

  lemma {:induction false} BlankFeeds(blank: seq<string>)
    requires forall i :: 0 <= i < |blank| ==> Blank(blank[i])
    ensures Feeds(START, blank) == Some(START)
    decreases |blank|
  {
    hide Feed, Blank;
    if blank != [] {
      FeedBlank(blank[0]);
      BlankFeeds(blank[1..]);
    }
  }

  lemma {:induction false} GrammarFeeds(lines: seq<string>, blank: seq<string>, ss: seq<Section>)
    requires Grammar(lines, blank, ss)
    ensures Feeds(START, lines) == Some(StateOf(ss))
    decreases |ss|, if ss == [] then 0 else |ss[|ss| - 1].rest|
  {
    hide Feed, Feeds, WellFormed, Content, Blank, LabelsOf, Flat, StateOf;
    if ss == [] {
      NoSections();
      BlankFeeds(blank);
      assert blank + Flat(ss) == blank;
    } else {
      var front, last := ss[..|ss| - 1], ss[|ss| - 1];
      assert ss == front + [last];
      if last.rest == [] {
        GrammarFeeds(blank + Flat(front), blank, front);
        NewLabel(front, last);
        FeedsOpens(blank, front, last);
      } else {
        var raw := last.rest[|last.rest| - 1];
        var less := last.(rest := last.rest[..|last.rest| - 1]);
        Shortened(front, last);
        GrammarFeeds(blank + Flat(front + [less]), blank, front + [less]);
        FeedsAdds(blank, front, less, raw);
        assert less.(rest := less.rest + [raw]) == last;
      }
    }
  }

  lemma NoSections()
    ensures Flat([]) == [] && StateOf([]) == START
  {
  }

  lemma NewLabel(front: seq<Section>, last: Section)
    requires forall i, j :: 0 <= i < j < |front + [last]| ==> (front + [last])[i].kind != (front + [last])[j].kind
    ensures last.kind !in LabelsOf(front)
  {
    var ss := front + [last];
    forall i | 0 <= i < |front|
      ensures front[i].kind != last.kind
    {
      assert ss[i].kind != ss[|front|].kind;
    }
  }

  // One line less in the last section.
  lemma Shortened(front: seq<Section>, last: Section)
    requires last.rest != [] && (forall i :: 0 <= i < |front + [last]| ==> WellFormed((front + [last])[i]))
    requires forall i, j :: 0 <= i < j < |front + [last]| ==> (front + [last])[i].kind != (front + [last])[j].kind
    ensures var less := last.(rest := last.rest[..|last.rest| - 1]);
            && (forall i :: 0 <= i < |front + [less]| ==> WellFormed((front + [less])[i]))
            && (forall i, j :: 0 <= i < j < |front + [less]| ==> (front + [less])[i].kind != (front + [less])[j].kind)
            && Content(last.rest[|last.rest| - 1], last.kind)
  {
    var ss, less := front + [last], last.(rest := last.rest[..|last.rest| - 1]);
    var ts := front + [less];
    assert WellFormed(ss[|front|]);
    assert WellFormed(less) by { hide Content; }
    hide WellFormed, Content;
    forall i | 0 <= i < |ts|
      ensures WellFormed(ts[i]) && ts[i].kind == ss[i].kind
    {
      if i < |front| { assert ts[i] == ss[i]; }
    }
  }

  // Whatever the loop lets through is blank lines and sections.
  lemma {:induction false} FeedsGrammar(lines: seq<string>) returns (blank: seq<string>, ss: seq<Section>)
    requires Feeds(START, lines).Some?
    ensures Grammar(lines, blank, ss) && Feeds(START, lines).value == StateOf(ss)
    decreases |lines|
  {
    hide Feed, WellFormed, Content, Blank, LabelsOf, FieldsOf, Collected;
    if lines == [] {
      blank, ss := [], [];
      assert lines == blank + Flat(ss);
    } else {
      var front, raw := lines[..|lines| - 1], lines[|lines| - 1];
      assert lines == front + [raw];
      FeedsSnoc(START, front, raw);
      var b, ts := FeedsGrammar(front);
      hide StateOf;
      blank, ss := FeedExtends(b, ts, raw);
      assert lines == front + [raw];
    }
  }

  // The three ways in which the loop goes on.
  lemma FeedCases(ts: seq<Section>, raw: string) returns (start: Option<Section>)
    requires Feed(StateOf(ts), raw).Some?
    ensures match start
            case Some(s) => WellFormed(s) && s.head == raw && s.rest == [] && s.kind !in LabelsOf(ts)
            case None => if ts == [] then Blank(raw) else Content(raw, ts[|ts| - 1].kind)
  {
    SeenOf(ts);
    hide MatchLabel, TrimRight, Trim, Known, Flush, FieldsOf, StateOf, LabelsOf, Collected, Name;
    var m := MatchLabel(TrimRight(raw));
    var known := if m.Some? then Known(m.value.0) else None;
    if known.Some? {
      KnownName(known.value, m.value.0);
      start := Some(Section(known.value, raw, m.value.1, []));
    } else {
      start := None;
    }
  }

  lemma GrammarOpens(b: seq<string>, ts: seq<Section>, s: Section)
    requires Grammar(b + Flat(ts), b, ts) && WellFormed(s) && s.rest == [] && s.kind !in LabelsOf(ts)
    ensures Grammar(b + Flat(ts) + [s.head], b, ts + [s])
  {
    FreshLabel(ts, s);
    FlatSnoc(ts, s);
    hide LabelsOf, WellFormed, Blank, Flat;
    assert b + Flat(ts) + [s.head] == b + Flat(ts + [s]);
  }

  lemma GrammarBlank(b: seq<string>, raw: string)
    requires Grammar(b + Flat([]), b, []) && Blank(raw)
    ensures Grammar(b + Flat([]) + [raw], b + [raw], [])
  {
    NoSections();
    hide Blank, Flat;
    assert b + Flat([]) + [raw] == b + [raw] + Flat([]);
  }

  lemma GrammarAdds(b: seq<string>, front: seq<Section>, last: Section, raw: string)
    requires Grammar(b + Flat(front + [last]), b, front + [last]) && Content(raw, last.kind)
    ensures Grammar(b + Flat(front + [last]) + [raw], b, front + [last.(rest := last.rest + [raw])])
  {
    Lengthened(front, last, raw);
    FlatAdds(b, front, last, raw);
    hide WellFormed, Content, Blank, Flat;
  }

  lemma FlatAdds(b: seq<string>, front: seq<Section>, last: Section, raw: string)
    ensures b + Flat(front + [last]) + [raw] == b + Flat(front + [last.(rest := last.rest + [raw])])
  {
    var more := last.(rest := last.rest + [raw]);
    FlatSnoc(front, last);
    FlatSnoc(front, more);
    hide Flat;
  }

  lemma FeedExtends(b: seq<string>, ts: seq<Section>, raw: string) returns (blank: seq<string>, ss: seq<Section>)
    requires Grammar(b + Flat(ts), b, ts) && Feed(StateOf(ts), raw).Some?
    ensures Grammar(b + Flat(ts) + [raw], blank, ss) && Feed(StateOf(ts), raw).value == StateOf(ss)
  {
    var start := FeedCases(ts, raw);
    hide Feed, StateOf, LabelsOf, WellFormed, Content, Blank, Flat, Grammar;
    if start.Some? {
      blank, ss := b, ts + [start.value];
      GrammarOpens(b, ts, start.value);
      FeedOpens(ts, start.value);
    } else if ts == [] {
      blank, ss := b + [raw], ts;
      GrammarBlank(b, raw);
      NoSections();
      FeedBlank(raw);
    } else {
      var front, last := ts[..|ts| - 1], ts[|ts| - 1];
      assert ts == front + [last];
      blank, ss := b, front + [last.(rest := last.rest + [raw])];
      GrammarAdds(b, front, last, raw);
      FeedAdds(front, last, raw);
    }
  }

  lemma FreshLabel(ts: seq<Section>, s: Section)
    requires s.kind !in LabelsOf(ts) && forall i, j :: 0 <= i < j < |ts| ==> ts[i].kind != ts[j].kind
    ensures forall i, j :: 0 <= i < j < |ts + [s]| ==> (ts + [s])[i].kind != (ts + [s])[j].kind
  {
  }

  lemma Lengthened(front: seq<Section>, last: Section, raw: string)
    requires Content(raw, last.kind) && (forall i :: 0 <= i < |front + [last]| ==> WellFormed((front + [last])[i]))
    requires forall i, j :: 0 <= i < j < |front + [last]| ==> (front + [last])[i].kind != (front + [last])[j].kind
    ensures var more := last.(rest := last.rest + [raw]);
            && (forall i :: 0 <= i < |front + [more]| ==> WellFormed((front + [more])[i]))
            && (forall i, j :: 0 <= i < j < |front + [more]| ==> (front + [more])[i].kind != (front + [more])[j].kind)
  {
    var ss, more := front + [last], last.(rest := last.rest + [raw]);
    var ts := front + [more];
    assert WellFormed(ss[|front|]);
    assert WellFormed(more) by { hide Content; }
    hide WellFormed, Content;
    forall i | 0 <= i < |ts|
      ensures WellFormed(ts[i]) && ts[i].kind == ss[i].kind
    {
      if i < |front| { assert ts[i] == ss[i]; }
    }
  }

  /* ---- the fields ---- */

  lemma {:induction false} FieldsHave(ss: seq<Section>, i: nat)
    requires i < |ss| && forall j, k :: 0 <= j < k < |ss| ==> ss[j].kind != ss[k].kind
    ensures ss[i].kind in FieldsOf(ss) && FieldsOf(ss)[ss[i].kind] == TextOf(ss[i])
    decreases |ss|
  {
    hide TextOf;
    if i + 1 < |ss| { FieldsHave(ss[..|ss| - 1], i); }
  }

  // The word in capital or small letters.
  predicate Spells(s: string, word: string) {
    |s| == |word| && forall i :: 0 <= i < |s| ==> s[i] == word[i] || ('A' <= s[i] <= 'Z' && word[i] as int == s[i] as int + 32)
  }

  lemma {:induction false} LowerSpells(s: string, word: string)
    requires forall i :: 0 <= i < |word| ==> 'a' <= word[i] <= 'z'
    ensures Lower(s) == word <==> Spells(s, word)
  {
    if s == "" {
    } else if word != "" {
      LowerSpells(s[1..], word[1..]);
      assert Lower(s) == [LowerChar(s[0])] + Lower(s[1..]) && word == [word[0]] + word[1..];
      if Spells(s, word) {
        assert forall i :: 0 <= i < |s[1..]| ==> s[1..][i] == s[i + 1] && word[1..][i] == word[i + 1];
      }
    }
  }

  // A section whose text gives the report's field.
  predicate Gives(s: Section, r: Report) {
    match s.kind
    case Status => Spells(TextOf(s), if r.success then "success" else "failure")
    case NextStep => TextOf(s) == r.nextStep && r.nextStep != ""
    case Summary => TextOf(s) == r.summary && r.summary != ""
    case Feedback => TextOf(s) == r.feedback && r.feedback != ""
  }

  lemma {:induction false} TrimTwice(s: string)
    ensures Trim(Trim(s)) == Trim(s)
  {
    TrimLeftTwice(s);
    var t := TrimLeft(s);
    TrimRightTwice(t);
    if t != "" && !Ws(t[0]) {
      TrimRightFirst(t);
      TrimFixed(TrimRight(t));
    }
  }

  lemma {:induction false} TrimLeftTwice(s: string)
    ensures TrimLeft(s) == "" || !Ws(TrimLeft(s)[0])
  {
    if s != "" && Ws(s[0]) { TrimLeftTwice(s[1..]); }
  }

  // All four labels, each with the report's field.
  predicate Complete(ss: seq<Section>, r: Report) {
    && Has(ss, Status) && Has(ss, NextStep) && Has(ss, Summary) && Has(ss, Feedback)
    && forall i :: 0 <= i < |ss| ==> Gives(ss[i], r)
  }

  predicate Has(ss: seq<Section>, l: Label) { exists i :: 0 <= i < |ss| && ss[i].kind == l }

  lemma HasIff(ss: seq<Section>, l: Label)
    ensures Has(ss, l) <==> l in LabelsOf(ss)
  {
  }

  lemma AllLabels(seen: set<Label>)
    ensures (exists l | l in LABELS :: l !in seen) <==> !(Status in seen && NextStep in seen && Summary in seen && Feedback in seen)
  {
    assert LABELS[0] == Status && LABELS[1] == NextStep && LABELS[2] == Summary && LABELS[3] == Feedback;
  }

  lemma Apart(ss: seq<Section>, i: nat, r: Report)
    requires i < |ss| && forall j, k :: 0 <= j < k < |ss| ==> ss[j].kind != ss[k].kind
    ensures ss[i].kind in LabelsOf(ss) && Field(FieldsOf(ss), ss[i].kind) == TextOf(ss[i])
  {
    FieldsHave(ss, i);
    TrimTwice(Joined(Collected(ss[i])));
    hide Trim, Joined, FieldsOf;
  }

  lemma Incomplete(ss: seq<Section>, r: Report)
    requires !(Has(ss, Status) && Has(ss, NextStep) && Has(ss, Summary) && Has(ss, Feedback))
    ensures Checked(FieldsOf(ss), LabelsOf(ss)) == None && !Complete(ss, r)
  {
    HasIff(ss, Status);
    HasIff(ss, NextStep);
    HasIff(ss, Summary);
    HasIff(ss, Feedback);
    AllLabels(LabelsOf(ss));
    hide FieldsOf, Lower, Field, Gives, Has, LabelsOf;
  }

  // The fields a complete set of sections gives.
  lemma CheckedIff(lines: seq<string>, blank: seq<string>, ss: seq<Section>, r: Report)
    requires Grammar(lines, blank, ss)
    ensures Checked(FieldsOf(ss), LabelsOf(ss)) == Some(r) <==> Complete(ss, r)
  {
    forall i | 0 <= i < |ss|
      ensures Field(FieldsOf(ss), ss[i].kind) == TextOf(ss[i])
    {
      Apart(ss, i, r);
    }
    HasIff(ss, Status);
    HasIff(ss, NextStep);
    HasIff(ss, Summary);
    HasIff(ss, Feedback);
    hide FieldsOf, TextOf, Field, WellFormed, Flat, Lower, Spells, LabelsOf, Checked, Complete, Gives, Blank;
    if Has(ss, Status) && Has(ss, NextStep) && Has(ss, Summary) && Has(ss, Feedback) {
      var a :| 0 <= a < |ss| && ss[a].kind == Status;
      var b :| 0 <= b < |ss| && ss[b].kind == NextStep;
      var c :| 0 <= c < |ss| && ss[c].kind == Summary;
      var d :| 0 <= d < |ss| && ss[d].kind == Feedback;
      hide Has;
      StatusSpells(TextOf(ss[a]));
      FourGive(ss, a, b, c, d, r);
      FourChecked(ss, a, b, c, d, r);
    } else {
      Incomplete(ss, r);
    }
  }

  lemma StatusSpells(s: string)
    ensures Lower(s) == "success" <==> Spells(s, "success")
    ensures Lower(s) == "failure" <==> Spells(s, "failure")
  {
    LowerSpells(s, "success");
    LowerSpells(s, "failure");
  }

  lemma FourGive(ss: seq<Section>, a: nat, b: nat, c: nat, d: nat, r: Report)
    requires a < |ss| && b < |ss| && c < |ss| && d < |ss|
    requires ss[a].kind == Status && ss[b].kind == NextStep && ss[c].kind == Summary && ss[d].kind == Feedback
    requires forall j, k :: 0 <= j < k < |ss| ==> ss[j].kind != ss[k].kind
    ensures Complete(ss, r) <==> Gives(ss[a], r) && Gives(ss[b], r) && Gives(ss[c], r) && Gives(ss[d], r)
  {
    hide Gives;
    assert Has(ss, Status) && Has(ss, NextStep) && Has(ss, Summary) && Has(ss, Feedback);
    if Gives(ss[a], r) && Gives(ss[b], r) && Gives(ss[c], r) && Gives(ss[d], r) {
      forall i | 0 <= i < |ss|
        ensures Gives(ss[i], r)
      {
        var l := ss[i].kind;
        assert l == Status || l == NextStep || l == Summary || l == Feedback;
        assert i == a || i == b || i == c || i == d;
      }
    }
  }

  lemma FourChecked(ss: seq<Section>, a: nat, b: nat, c: nat, d: nat, r: Report)
    requires a < |ss| && b < |ss| && c < |ss| && d < |ss|
    requires Status in LabelsOf(ss) && NextStep in LabelsOf(ss) && Summary in LabelsOf(ss) && Feedback in LabelsOf(ss)
    requires ss[a].kind == Status && ss[b].kind == NextStep && ss[c].kind == Summary && ss[d].kind == Feedback
    requires forall i :: 0 <= i < |ss| ==> Field(FieldsOf(ss), ss[i].kind) == TextOf(ss[i])
    requires Lower(TextOf(ss[a])) == "success" <==> Spells(TextOf(ss[a]), "success")
    requires Lower(TextOf(ss[a])) == "failure" <==> Spells(TextOf(ss[a]), "failure")
    ensures Checked(FieldsOf(ss), LabelsOf(ss)) == Some(r) <==> Gives(ss[a], r) && Gives(ss[b], r) && Gives(ss[c], r) && Gives(ss[d], r)
  {
    AllLabels(LabelsOf(ss));
    hide FieldsOf, TextOf, Field, Lower, LabelsOf;
    var status := TextOf(ss[a]);
    assert Field(FieldsOf(ss), Status) == status && Field(FieldsOf(ss), NextStep) == TextOf(ss[b]);
    assert Field(FieldsOf(ss), Summary) == TextOf(ss[c]) && Field(FieldsOf(ss), Feedback) == TextOf(ss[d]);
    assert Spells(status, "success") ==> !Spells(status, "failure") by { hide FieldsOf; }
    hide Spells;
  }

  lemma {:induction false} LinesIn(s: string)
    ensures forall i, k :: 0 <= i < |Lines(s)| && 0 <= k < |Lines(s)[i]| ==> Lines(s)[i][k] in s
  {
    if s != "" {
      LinesIn(s[1..]);
      assert s == [s[0]] + s[1..];
    }
  }

  lemma {:induction false} SectionIn(ss: seq<Section>)
    requires ss != []
    ensures ss[|ss| - 1].head in Flat(ss)
  {
  }

  lemma NotBlank(text: string, blank: seq<string>, ss: seq<Section>, r: Report)
    requires Grammar(Lines(text), blank, ss) && Complete(ss, r)
    ensures Trim(text) != ""
  {
    assert Has(ss, Status);
    var s := ss[|ss| - 1];
    SectionIn(ss);
    LinesIn(text);
    assert WellFormed(s);
    hide Lines, Flat, Complete;
    assert s.head in Lines(text);
    var q :| 0 <= q < |Lines(text)| && Lines(text)[q] == s.head;
    if Trim(text) == "" {
      BlankAll(text);
      WhiteUnmatched(s.head);
    }
  }

  lemma WhiteUnmatched(raw: string)
    requires forall k :: 0 <= k < |raw| ==> Ws(raw[k])
    ensures MatchLabel(TrimRight(raw)).None?
  {
    TrimRightPrefix(raw);
    assert !Ws(':');
    hide Ws, TrimRight;
    var line := TrimRight(raw);
    assert forall k :: 0 <= k < |line| ==> line[k] == raw[k];
  }

  lemma ParsedGrammar(text: string, r: Report) returns (blank: seq<string>, ss: seq<Section>)
    requires Parsed(text) == Some(r)
    ensures Grammar(Lines(text), blank, ss) && Complete(ss, r)
  {
    hide Feeds, Lines, Grammar, Complete, StateOf, Checked, Trim;
    blank, ss := FeedsGrammar(Lines(text));
    FlushOf(ss);
    SeenOf(ss);
    CheckedIff(Lines(text), blank, ss, r);
  }

  lemma GrammarParsed(text: string, r: Report, blank: seq<string>, ss: seq<Section>)
    requires Grammar(Lines(text), blank, ss) && Complete(ss, r)
    ensures Parsed(text) == Some(r)
  {
    hide Feeds, Lines, Grammar, Complete, StateOf, Checked, Trim;
    GrammarFeeds(Lines(text), blank, ss);
    FlushOf(ss);
    SeenOf(ss);
    CheckedIff(Lines(text), blank, ss, r);
    NotBlank(text, blank, ss, r);
  }

  // The exact set of texts: a text is parsed to a report if and only if it consists of
  // blank lines and four sections, in any order, that give its fields.
  lemma ParsedIff(text: string, r: Report)
    ensures Parsed(text) == Some(r) <==> exists blank, ss :: Grammar(Lines(text), blank, ss) && Complete(ss, r)
  {
    hide Parsed, Lines, Grammar, Complete;
    if Parsed(text) == Some(r) {
      var blank, ss := ParsedGrammar(text, r);
    }
    forall blank, ss | Grammar(Lines(text), blank, ss) && Complete(ss, r)
      ensures Parsed(text) == Some(r)
    {
      GrammarParsed(text, r, blank, ss);
    }
  }
}
