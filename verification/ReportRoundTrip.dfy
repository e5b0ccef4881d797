/** The round trip of a printed report, and when it fails. */
module ReportRoundTrip {
  import opened Base
  import opened ReportText
  import opened ReportPrint
  import opened ReportTidy

  /* ---- counting label lines ---- */

  function MarkOf(line: string): Option<Label> {
    var m := MatchLabel(TrimRight(line));
    if m.Some? then Known(m.value.0) else None
  }

  function Marked(lines: seq<string>, l: Label): nat {
    if lines == [] then 0 else (if MarkOf(lines[0]) == Some(l) then 1 else 0) + Marked(lines[1..], l)
  }

  lemma {:induction false} MarkedAppend(a: seq<string>, b: seq<string>, l: Label)
    ensures Marked(a + b, l) == Marked(a, l) + Marked(b, l)
  {
    hide MarkOf;
    if a == [] {
      assert a + b == b;
    } else {
      assert (a + b)[1..] == a[1..] + b;
      MarkedAppend(a[1..], b, l);
    }
  }

  lemma FeedSeen(s: State, line: string)
    requires Feed(s, line).Some?
    ensures var t := Feed(s, line).value;
            if MarkOf(line).Some? then MarkOf(line).value !in s.seen && t.seen == s.seen + {MarkOf(line).value} else t.seen == s.seen
  {
    hide MatchLabel, TrimRight, Known, Flush, Trim;
  }

  // An accepted text has each label on at most one line, and has seen those it has.
  lemma {:induction false} FeedsSeen(s: State, lines: seq<string>, l: Label)
    requires Feeds(s, lines).Some?
    ensures Marked(lines, l) + (if l in s.seen then 1 else 0) <= 1
    ensures l in Feeds(s, lines).value.seen <==> l in s.seen || Marked(lines, l) == 1
    decreases |lines|
  {
    hide MarkOf, Feed;
    if lines == [] {
    } else {
      FeedSeen(s, lines[0]);
      FeedsSeen(Feed(s, lines[0]).value, lines[1..], l);
    }
  }

  lemma {:induction false} NoneMarked(lines: seq<string>, l: Label)
    requires forall i :: 0 <= i < |lines| ==> !Marks(lines[i])
    ensures Marked(lines, l) == 0
  {
    if lines == [] {
    } else {
      NoneMarked(lines[1..], l);
    }
  }

  lemma {:induction false} SomeMarked(lines: seq<string>, i: nat, l: Label)
    requires i < |lines| && MarkOf(lines[i]) == Some(l)
    ensures Marked(lines, l) >= 1
  {
    hide MarkOf;
    if i > 0 { SomeMarked(lines[1..], i - 1, l); }
  }

  lemma HeadMark(r: Report, l: Label)
    requires Ready(r, l)
    ensures MarkOf(Head(r, l)) == if Opens(ValueOf(r, l)) then Some(l) else None
  {
    var f := Lines(ValueOf(r, l))[0];
    FirstLine(ValueOf(r, l));
    TrimRightFirst(f);
    HeadReads(l, f);
    NameShape(l);
    hide Lines, Trim, TrimRight, MatchLabel, Name, Known;
  }

  lemma BlockMarked(r: Report, m: Label, l: Label)
    requires Ready(r, m)
    ensures Marked(Block(r, m), l) == (if m == l && Opens(ValueOf(r, m)) then 1 else 0) + Marked(Lines(ValueOf(r, m))[1..], l)
  {
    HeadMark(r, m);
    hide MarkOf, Lines, Opens, Head, ValueOf;
    var body := Lines(ValueOf(r, m))[1..];
    assert ([Head(r, m)] + body)[1..] == body;
  }

  predicate AllReady(r: Report, order: seq<Label>) { forall i :: 0 <= i < |order| ==> Ready(r, order[i]) }

  // How often label l stands in the bodies of the values.
  function InBodies(r: Report, order: seq<Label>, l: Label): nat {
    if order == [] then 0 else Marked(Lines(ValueOf(r, order[0]))[1..], l) + InBodies(r, order[1..], l)
  }

  predicate Distinct(order: seq<Label>) { forall i, j :: 0 <= i < j < |order| ==> order[i] != order[j] }

  lemma {:induction false} BlocksMarked(r: Report, order: seq<Label>, l: Label)
    requires AllReady(r, order) && Distinct(order)
    ensures Marked(Blocks(r, order), l) == (if l in order && Opens(ValueOf(r, l)) then 1 else 0) + InBodies(r, order, l)
    decreases |order|
  {
    hide Block, Opens, Lines, ValueOf, Ready;
    if order == [] {
    } else {
      var m, more := order[0], order[1..];
      assert order == [m] + more;
      BlocksMarked(r, more, l);
      BlockMarked(r, m, l);
      MarkedAppend(Block(r, m), Blocks(r, more), l);
    }
  }

  lemma {:induction false} BodiesAt(r: Report, order: seq<Label>, i: nat, l: Label)
    requires i < |order|
    ensures InBodies(r, order, l) >= Marked(Lines(ValueOf(r, order[i]))[1..], l)
  {
    hide Lines, ValueOf;
    if i > 0 { BodiesAt(r, order[1..], i - 1, l); }
  }

  lemma {:induction false} BodiesNone(r: Report, order: seq<Label>, l: Label)
    requires forall i :: 0 <= i < |order| ==> Unlabelled(ValueOf(r, order[i]))
    ensures InBodies(r, order, l) == 0
  {
    if order == [] {
    } else {
      BodiesNone(r, order[1..], l);
      BodyNone(ValueOf(r, order[0]), l);
    }
  }

  lemma BodyNone(v: string, l: Label)
    requires Unlabelled(v)
    ensures Marked(Lines(v)[1..], l) == 0
  {
    hide Lines, Marks;
    var body := Lines(v)[1..];
    forall i | 0 <= i < |body|
      ensures !Marks(body[i])
    {
      assert body[i] == Lines(v)[i + 1];
    }
    NoneMarked(body, l);
  }

  lemma BodySome(v: string) returns (l: Label)
    requires !Unlabelled(v)
    ensures Marked(Lines(v)[1..], l) >= 1
  {
    var i :| 0 < i < |Lines(v)| && Marks(Lines(v)[i]);
    l := MarkOf(Lines(v)[i]).value;
    hide Lines, MarkOf, Marks;
    SomeMarked(Lines(v)[1..], i - 1, l);
  }

  /* ---- a printed report is never blank ---- */

  lemma PrintStarts(r: Report, order: seq<Label>)
    requires order != []
    ensures Trim(Print(r, order)) != ""
  {
    assert Field1(r, order[0]) != "" && !Ws(Field1(r, order[0])[0]) by { FieldStarts(r, order[0]); }
    var p := Print(r, order);
    assert p != "" && p[0] == Field1(r, order[0])[0];
    TrimLeftSuffix(p);
    TrimRightFirst(p);
  }

  lemma FieldStarts(r: Report, l: Label)
    ensures Field1(r, l) != "" && !Ws(Field1(r, l)[0])
  {
    NameShape(l);
    hide Name;
  }

  /* ---- the checks after the loop ---- */

  lemma TrimTwice(s: string)
    ensures Trim(Trim(s)) == Trim(s)
  {
    var a := TrimLeft(s);
    TrimLeftEnds(s);
    TrimRightTwice(a);
    if a != "" { TrimRightFirst(a); }
    TrimFixed(Trim(s));
  }

  lemma {:induction false} TrimLeftEnds(s: string)
    ensures TrimLeft(s) != "" ==> !Ws(TrimLeft(s)[0])
  {
    if s != "" && Ws(s[0]) { TrimLeftEnds(s[1..]); }
  }

  lemma {:induction false} LowerWord(w: string)
    requires forall i :: 0 <= i < |w| ==> 'a' <= w[i] <= 'z'
    ensures Lower(w) == w
  {
    if w == "" {
    } else {
      LowerWord(w[1..]);
    }
  }

  lemma AllLabels(order: seq<Label>, l: Label)
    requires Permutation(order)
    ensures l in order
  {
    var a, b, c, d := order[0], order[1], order[2], order[3];
    assert a != b && a != c && a != d && b != c && b != d && c != d;
    assert l == a || l == b || l == c || l == d by { Four(a, b, c, d, l); }
  }

  lemma Four(a: Label, b: Label, c: Label, d: Label, l: Label)
    requires a != b && a != c && a != d && b != c && b != d && c != d
    ensures l == a || l == b || l == c || l == d
  {
  }

  // When every head is read and no body reads as a label, the report comes back with
  // what was kept of its two texts.
  lemma CleanParse(r: Report, order: seq<Label>)
    requires Sound(r) && Permutation(order) && Clean(r, order)
    ensures Parsed(Print(r, order)) == Some(Report(r.success, r.nextStep, Kept(r.summary), Kept(r.feedback)))
  {
    hide Lines, Clean, Trim, Kept, Feed, Flush, Lower;
    PrintStarts(r, order);
    PrintLines(r, order);
    var t := FeedBlocks(START, r, order);
    assert Flush(START) == map[] by { FlushStart(); }
    var fields := Flush(t);
    forall l: Label
      ensures l in t.seen && l in fields && fields[l] == Kept(ValueOf(r, l))
    {
      AllLabels(order, l);
    }
    CheckKept(r, fields, t.seen);
  }

  lemma FlushStart()
    ensures Flush(START) == map[]
  {
  }

  lemma CheckKept(r: Report, fields: map<Label, string>, seen: set<Label>)
    requires Sound(r) && forall l :: l in seen && l in fields && fields[l] == Kept(ValueOf(r, l))
    ensures Checked(fields, seen) == Some(Report(r.success, r.nextStep, Kept(r.summary), Kept(r.feedback)))
  {
    hide Lines, Kept, Lower, Sound, Trim;
    KeptSound(r, Status);
    KeptSound(r, NextStep);
    KeptTrimmed(r.summary);
    KeptTrimmed(r.feedback);
    KeptNonEmpty(r);
    StatusLower();
  }

  lemma StatusLower()
    ensures Lower("success") == "success" && Lower("failure") == "failure"
  {
    StatusWords();
    LowerWord("success");
    LowerWord("failure");
  }

  lemma KeptTrimmed(v: string)
    ensures Trim(Kept(v)) == Kept(v)
  {
    TrimTwice(Joined(Cut(v)));
  }

  lemma KeptSound(r: Report, l: Label)
    requires Sound(r) && (l == Status || l == NextStep)
    ensures Kept(ValueOf(r, l)) == ValueOf(r, l) == Trim(ValueOf(r, l)) != ""
  {
    SoundReady(r, l);
    KeptExact(ValueOf(r, l));
  }

  lemma KeptNonEmpty(r: Report)
    requires Sound(r)
    ensures Kept(r.summary) != "" && Kept(r.feedback) != ""
  {
    KeptStarts(r.summary);
    KeptStarts(r.feedback);
  }

  lemma KeptStarts(v: string)
    requires Trim(v) == v != ""
    ensures Kept(v) != ""
  {
    FirstLine(v);
    TrimRightFirst(Lines(v)[0]);
    JoinedHead(TrimRight(Lines(v)[0]), Lines(v)[1..]);
    hide Lines, TrimRight;
    var j := Joined(Cut(v));
    TrimLeftSuffix(j);
    TrimRightFirst(j);
  }

  /* ---- the theorem ---- */

  predicate Keeps(v: string) { Opens(v) && Unlabelled(v) && Flush1(v) }

  lemma AllSound(r: Report, order: seq<Label>)
    requires Sound(r)
    ensures AllReady(r, order)
    ensures Opens(r.summary) && Opens(r.feedback) ==> forall i :: 0 <= i < |order| ==> Opens(ValueOf(r, order[i]))
    ensures Unlabelled(r.summary) && Unlabelled(r.feedback) ==> forall i :: 0 <= i < |order| ==> Unlabelled(ValueOf(r, order[i]))
  {
    SoundReady(r, Status);
    SoundReady(r, NextStep);
    SoundReady(r, Summary);
    SoundReady(r, Feedback);
    hide Sound, Ready, Opens, Unlabelled, Lines, Trim;
  }

  // A text accepted with every label seen has each label once.
  lemma AcceptedOnce(r: Report, order: seq<Label>, l: Label)
    requires order != [] && Parsed(Print(r, order)).Some?
    ensures Marked(Blocks(r, order), l) == 1
  {
    hide Trim, Lines, Feed, Flush, Lower, Field;
    PrintLines(r, order);
    FeedsSeen(START, Blocks(r, order), l);
    assert l in LABELS;
  }

  // Printing a report in any of the 24 orders and parsing it gives the report back,
  // exactly when the first lines of its texts can stand behind a label and end
  // cleanly, and no later line reads as one of the four labels.
  lemma RoundTrip(r: Report, order: seq<Label>)
    requires Sound(r) && Permutation(order)
    ensures Parsed(Print(r, order)) == Some(r) <==> Keeps(r.summary) && Keeps(r.feedback)
  {
    hide Sound, Parsed, Opens, Unlabelled, Flush1, Print;
    AllSound(r, order);
    if Parsed(Print(r, order)) == Some(r) { ParsedTidy(Print(r, order)); }
    if Unlabelled(r.summary) && Unlabelled(r.feedback) {
      if Opens(r.summary) && Opens(r.feedback) {
        AllClean(r, order);
        CleanParse(r, order);
        TextsExact(r);
      } else {
        Refused(r, order);
      }
    }
  }

  lemma AllClean(r: Report, order: seq<Label>)
    requires Sound(r) && Permutation(order)
    requires Opens(r.summary) && Opens(r.feedback) && Unlabelled(r.summary) && Unlabelled(r.feedback)
    ensures Clean(r, order)
  {
    AllSound(r, order);
    hide Sound, Opens, Unlabelled, Ready, ValueOf;
  }

  lemma TextsExact(r: Report)
    requires Sound(r)
    ensures Kept(r.summary) == r.summary <==> Flush1(r.summary)
    ensures Kept(r.feedback) == r.feedback <==> Flush1(r.feedback)
  {
    KeptExact(r.summary);
    KeptExact(r.feedback);
  }

  // A first line that cannot stand behind its label, or one more label line: refused.
  lemma Refused(r: Report, order: seq<Label>)
    requires Sound(r) && Permutation(order)
    requires (Opens(r.summary) && Opens(r.feedback)) != (Unlabelled(r.summary) && Unlabelled(r.feedback))
    ensures Parsed(Print(r, order)).None?
  {
    hide Sound, Lines, Trim, Parsed, Opens;
    AllSound(r, order);
    if Parsed(Print(r, order)).Some? {
      var l: Label;
      if Opens(r.summary) && Opens(r.feedback) {
        var k := if !Unlabelled(r.summary) then Summary else Feedback;
        hide Unlabelled;
        l := BodySome(ValueOf(r, k));
        AllLabels(order, k);
        AllLabels(order, l);
        var i :| 0 <= i < |order| && order[i] == k;
        BodiesAt(r, order, i, l);
      } else {
        hide Unlabelled;
        l := if !Opens(r.summary) then Summary else Feedback;
        BodiesNone(r, order, l);
      }
      BlocksMarked(r, order, l);
      AcceptedOnce(r, order, l);
      assert false;
    }
  }
}
