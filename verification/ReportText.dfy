/** The report parser of plugin/index.ts (matchLabel, parseReport). */
module ReportText {
  import opened Base

  /* ---- white space and lines, as in ECMAScript ---- */

  // The class \s, which is also what trim removes.
  predicate Ws(c: char) {
    c == '\t' || c == '\n' || c == '\U{0B}' || c == '\U{0C}' || c == '\r' || c == ' ' || c == '\U{A0}' || c == '\U{1680}'
    || '\U{2000}' <= c <= '\U{200A}' || c == '\U{2028}' || c == '\U{2029}' || c == '\U{202F}' || c == '\U{205F}'
    || c == '\U{3000}' || c == '\U{FEFF}'
  }

  // What `.` does not match.
  predicate Break(c: char) { c == '\n' || c == '\r' || c == '\U{2028}' || c == '\U{2029}' }

  function TrimLeft(s: string): string { if s != "" && Ws(s[0]) then TrimLeft(s[1..]) else s }

  function TrimRight(s: string): string
    decreases |s|
  {
    if s != "" && Ws(s[|s| - 1]) then TrimRight(s[..|s| - 1]) else s
  }

  function Trim(s: string): string { TrimRight(TrimLeft(s)) }

  // split("\n"), never empty.
  function Lines(s: string): (ls: seq<string>)
    ensures ls != []
  {
    if s == "" then [""]
    else if s[0] == '\n' then [""] + Lines(s[1..])
    else
      var ls := Lines(s[1..]);
      [[s[0]] + ls[0]] + ls[1..]
  }

  // join("\n").
  function Joined(ls: seq<string>): string {
    if ls == [] then "" else if |ls| == 1 then ls[0] else ls[0] + "\n" + Joined(ls[1..])
  }

  lemma {:induction false} LinesJoined(s: string)
    ensures Joined(Lines(s)) == s
  {
    if s == "" {
    } else {
      LinesJoined(s[1..]);
      var ls := Lines(s[1..]);
      if s[0] == '\n' {
        assert ([""] + ls)[1..] == ls;
      } else {
        var ms := [[s[0]] + ls[0]] + ls[1..];
        assert ms[1..] == ls[1..];
        if |ls| > 1 { assert [s[0]] + (ls[0] + "\n" + Joined(ls[1..])) == [s[0]] + ls[0] + "\n" + Joined(ls[1..]); }
      }
    }
  }

  predicate NoNewline(s: string) { forall i :: 0 <= i < |s| ==> s[i] != '\n' }

  lemma {:induction false} LinesClean(s: string)
    ensures forall i :: 0 <= i < |Lines(s)| ==> NoNewline(Lines(s)[i])
  {
    if s == "" {
    } else {
      LinesClean(s[1..]);
    }
  }

  lemma LinesCons(c: char, s: string)
    ensures Lines([c] + s) == if c == '\n' then [""] + Lines(s) else [[c] + Lines(s)[0]] + Lines(s)[1..]
  {
    assert ([c] + s)[1..] == s;
  }

  // A prefix without a line break stays on the first line.
  lemma {:induction false} LinesPrefix(p: string, s: string)
    requires NoNewline(p)
    ensures Lines(p + s) == [p + Lines(s)[0]] + Lines(s)[1..]
  {
    hide Lines;
    if p == "" {
      assert p + s == s && p + Lines(s)[0] == Lines(s)[0];
    } else {
      var c, q := p[0], p[1..];
      assert p + s == [c] + (q + s) && NoNewline(q) && c != '\n';
      LinesPrefix(q, s);
      LinesCons(c, q + s);
      assert [c] + (q + Lines(s)[0]) == p + Lines(s)[0];
    }
  }

  lemma {:induction false} LinesAppend(s: string, t: string)
    ensures Lines(s + "\n" + t) == Lines(s) + Lines(t)
  {
    if s == "" {
      assert s + "\n" + t == ['\n'] + t && Lines("") == [""];
      hide Lines;
      LinesCons('\n', t);
    } else {
      hide Lines;
      var c, q := s[0], s[1..];
      assert s + "\n" + t == [c] + (q + "\n" + t) && s == [c] + q;
      LinesAppend(q, t);
      LinesCons(c, q + "\n" + t);
      LinesCons(c, q);
      RegroupLines(c, Lines(q), Lines(t));
    }
  }

  lemma RegroupLines(c: char, ls: seq<string>, ms: seq<string>)
    requires ls != []
    ensures [""] + (ls + ms) == [""] + ls + ms
    ensures [[c] + (ls + ms)[0]] + (ls + ms)[1..] == [[c] + ls[0]] + ls[1..] + ms
  {
  }

  /* ---- label lines ---- */

  predicate Upper(c: char) { 'A' <= c <= 'Z' }

  predicate Alnum(c: char) { Upper(c) || 'a' <= c <= 'z' || '0' <= c <= '9' }

  // The first index of c at or after i, or |s|.
  function IndexOf(s: string, c: char, i: nat): (r: nat)
    requires i <= |s|
    ensures i <= r <= |s| && (r < |s| ==> s[r] == c) && forall k :: i <= k < r ==> s[k] != c
    decreases |s| - i
  {
    if i == |s| || s[i] == c then i else IndexOf(s, c, i + 1)
  }

  // The letters and digits of s, from the first to the last, or nothing.
  function Core(s: string): (r: string)
    decreases |s|
  {
    if s == "" then ""
    else if !Alnum(s[0]) then Core(s[1..])
    else if !Alnum(s[|s| - 1]) then Core(s[..|s| - 1])
    else s
  }

  predicate LabelLike(s: string) {
    s != "" && Upper(s[0]) && forall i :: 0 <= i < |s| ==> Upper(s[i]) || '0' <= s[i] <= '9' || s[i] == ' '
  }

  predicate OneLine(s: string) { forall i :: 0 <= i < |s| ==> !Break(s[i]) }

  // LABEL_PATTERN: the text before the first colon, stripped of everything but
  // letters and digits at its ends, is an upper-case heading.
  function MatchLabel(line: string): Option<(string, string)> {
    var colon := IndexOf(line, ':', 0);
    if colon == |line| || !LabelLike(Core(line[..colon])) || !OneLine(line[colon + 1..]) then None
    else Some((Core(line[..colon]), TrimLeft(line[colon + 1..])))
  }

  datatype Label = Status | NextStep | Summary | Feedback

  const LABELS := [Status, NextStep, Summary, Feedback]

  function Name(l: Label): string {
    match l
    case Status => "STATUS"
    case NextStep => "NEXT STEP"
    case Summary => "SUMMARY"
    case Feedback => "FEEDBACK"
  }

  // LABEL_SET.
  function Known(name: string): Option<Label> {
    if name == "STATUS" then Some(Status)
    else if name == "NEXT STEP" then Some(NextStep)
    else if name == "SUMMARY" then Some(Summary)
    else if name == "FEEDBACK" then Some(Feedback)
    else None
  }

  /* ---- the parser ---- */

  // `value` holds the lines collected for the current label.
  datatype State = State(fields: map<Label, string>, seen: set<Label>, current: Option<Label>, value: seq<string>)

  const START := State(map[], {}, None, [])

  function Flush(s: State): map<Label, string> {
    if s.current.None? then s.fields else s.fields[s.current.value := Trim(Joined(s.value))]
  }

  // One line of the loop; None is a rejected text.
  function Feed(s: State, raw: string): Option<State> {
    var line := TrimRight(raw);
    var m := MatchLabel(line);
    var known := if m.Some? then Known(m.value.0) else None;
    if known.Some? then
      if known.value in s.seen then None
      else Some(State(Flush(s), s.seen + {known.value}, known, if m.value.1 == "" then [] else [m.value.1]))
    else if m.Some? && s.current != Some(Summary) && s.current != Some(Feedback) then None
    else if s.current.None? then (if Trim(line) != "" then None else Some(s))
    else Some(s.(value := s.value + [raw]))
  }

  function Feeds(s: State, lines: seq<string>): Option<State>
    decreases |lines|
  {
    if lines == [] then Some(s)
    else match Feed(s, lines[0])
      case None => None
      case Some(t) => Feeds(t, lines[1..])
  }

  datatype Report = Report(success: bool, nextStep: string, summary: string, feedback: string)

  function LowerChar(c: char): char { if Upper(c) then ((c as int) - ('A' as int) + ('a' as int)) as char else c }

  function Lower(s: string): (r: string)
    ensures |r| == |s|
  {
    if s == "" then "" else [LowerChar(s[0])] + Lower(s[1..])
  }

  function Field(fields: map<Label, string>, l: Label): string { if l in fields then Trim(fields[l]) else "" }

  // The checks after the loop.
  function Checked(fields: map<Label, string>, seen: set<Label>): Option<Report> {
    var status, next := Lower(Field(fields, Status)), Field(fields, NextStep);
    var summary, feedback := Field(fields, Summary), Field(fields, Feedback);
    if (exists l | l in LABELS :: l !in seen) || (status != "success" && status != "failure") || next == "" || summary == "" || feedback == ""
    then None
    else Some(Report(status == "success", next, summary, feedback))
  }

  function Parsed(text: string): Option<Report> {
    if Trim(text) == "" then None
    else match Feeds(START, Lines(text))
      case None => None
      case Some(s) => Checked(Flush(s), s.seen)
  }

  // parseReport.
  method ParseReport(text: string) returns (r: Option<Report>)
    ensures r == Parsed(text)
  {
    hide Lines, Checked, Feed, Trim;
    if Trim(text) == "" {
      return None;
    }
    var lines := Lines(text);
    var s := START;
    var i := 0;
    assert lines[0..] == lines;
    while i < |lines|
      invariant 0 <= i <= |lines|
      invariant Feeds(s, lines[i..]) == Feeds(START, lines)
    {
      var next := Feed(s, lines[i]);
      if next.None? {
        return None;
      }
      s := next.value;
      i := i + 1;
    }
    return Checked(Flush(s), s.seen);
  }
}
