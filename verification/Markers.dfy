/** Marked comments: the text of internal/task/beads/beads.go Comment and the
    substring check that makes writing it repeatable. */
module Markers {
  import opened Base

  predicate OccursAt(text: string, m: string, i: nat) { i + |m| <= |text| && text[i..i + |m|] == m }

  // strings.Contains.
  ghost predicate Contains(text: string, m: string) { exists i: nat :: OccursAt(text, m, i) }

  const OPENING := "\n\n<!-- "
  const CLOSING := " -->"

  function Marked(body: string, marker: string): string { body + OPENING + marker + CLOSING }

  predicate Apart(sep: string, m: string) { forall c :: c in sep ==> c !in m }

  lemma ContainsIn(p: string, m: string, q: string)
    ensures Contains(p + m + q, m)
  {
    assert (p + m + q)[|p|..|p| + |m|] == m;
    assert OccursAt(p + m + q, m, |p|);
  }

  lemma ContainsLeft(p: string, q: string, m: string)
    requires Contains(p, m)
    ensures Contains(p + q, m)
  {
    var i: nat :| OccursAt(p, m, i);
    assert (p + q)[i..i + |m|] == p[i..i + |m|];
    assert OccursAt(p + q, m, i);
  }

  // An occurrence does not reach across a character it lacks.
  lemma SplitAtChar(p: string, c: char, q: string, m: string)
    requires Contains(p + [c] + q, m) && c !in m && m != ""
    ensures Contains(p, m) || Contains(q, m)
  {
    var text := p + [c] + q;
    var i: nat :| OccursAt(text, m, i);
    assert forall j :: i <= j < i + |m| ==> text[j] == m[j - i];
    assert text[|p|] == c;
    if i + |m| <= |p| {
      assert p[i..i + |m|] == text[i..i + |m|];
      assert OccursAt(p, m, i);
    } else {
      assert i > |p|;
      var j := i - |p| - 1;
      assert q[j..j + |m|] == text[i..i + |m|];
      assert OccursAt(q, m, j);
    }
  }

  lemma {:induction false} SplitAtGap(p: string, sep: string, q: string, m: string)
    requires Contains(p + sep + q, m) && Apart(sep, m) && m != "" && sep != ""
    ensures Contains(p, m) || Contains(q, m)
    decreases |sep|
  {
    var c, rest := sep[0], sep[1..];
    if rest == [] {
      assert sep == [c];
      SplitAtChar(p, c, q, m);
    } else {
      assert p + sep + q == p + [c] + (rest + q);
      SplitAtChar(p, c, rest + q, m);
      if !Contains(p, m) {
        assert "" + rest + q == rest + q;
        SplitAtGap("", rest, q, m);
        NotInEmpty(m);
      }
    }
  }

  lemma NotInEmpty(m: string)
    requires m != ""
    ensures !Contains("", m)
  {
  }

  // A marked comment contains a marker exactly when its body or its own marker does.
  lemma MarkedContains(body: string, own: string, m: string)
    requires m != "" && Apart(OPENING, m) && Apart(CLOSING, m)
    ensures Contains(Marked(body, own), m) <==> Contains(body, m) || Contains(own, m)
  {
    hide OPENING, CLOSING;
    assert OPENING != "" && CLOSING != "" by { GapsNonEmpty(); }
    var text := Marked(body, own);
    assert text == body + OPENING + (own + CLOSING);
    if Contains(text, m) {
      SplitAtGap(body, OPENING, own + CLOSING, m);
      if !Contains(body, m) {
        assert own + CLOSING == own + CLOSING + "";
        SplitAtGap(own, CLOSING, "", m);
        NotInEmpty(m);
      }
    }
    if Contains(body, m) { ContainsLeft(body, OPENING + (own + CLOSING), m); assert text == body + (OPENING + (own + CLOSING)); }
    if Contains(own, m) {
      var i: nat :| OccursAt(own, m, i);
      var k := |body + OPENING| + i;
      assert text[k..k + |m|] == own[i..i + |m|];
      assert OccursAt(text, m, k);
    }
  }

  lemma GapsNonEmpty()
    ensures OPENING != "" && CLOSING != ""
  {
  }

  /* ---- markers of a visit ---- */

  datatype Kind = Summary | Feedback

  predicate HexDigit(c: char) { '0' <= c <= '9' || 'a' <= c <= 'f' }

  // 16 random bytes in hexadecimal.
  predicate VisitId(s: string) { |s| == 32 && forall i :: 0 <= i < |s| ==> HexDigit(s[i]) }

  function Tag(k: Kind): string { if k == Summary then ":summary" else ":feedback" }

  function MarkerOf(id: string, k: Kind): string { id + Tag(k) }

  lemma MarkerApart(id: string, k: Kind)
    requires VisitId(id)
    ensures MarkerOf(id, k) != "" && Apart(OPENING, MarkerOf(id, k)) && Apart(CLOSING, MarkerOf(id, k))
  {
    var m := MarkerOf(id, k);
    assert forall i :: 0 <= i < |m| ==> m[i] == if i < 32 then id[i] else Tag(k)[i - 32];
    assert forall c :: c in Tag(k) ==> c == ':' || 'a' <= c <= 'z';
    assert forall c :: c in m ==> HexDigit(c) || c == ':' || 'a' <= c <= 'z';
    assert forall c :: c in OPENING ==> c == '\n' || c == '<' || c == '!' || c == '-' || c == ' ';
    assert forall c :: c in CLOSING ==> c == ' ' || c == '-' || c == '>';
  }

  lemma TagShape(k: Kind)
    ensures |Tag(k)| >= 8 && |Tag(k)| <= 9 && Tag(k)[0] == ':' && !HexDigit(':')
    ensures forall i :: 0 < i < |Tag(k)| ==> Tag(k)[i] != ':'
  {
  }

  lemma TagsDiffer()
    ensures Tag(Summary)[1] != Tag(Feedback)[1]
  {
  }

  // Two visit markers are equal or neither contains the other.
  lemma MarkersDistinct(a: string, k: Kind, b: string, l: Kind)
    requires VisitId(a) && VisitId(b)
    ensures Contains(MarkerOf(a, k), MarkerOf(b, l)) <==> a == b && k == l
  {
    TagShape(k);
    TagShape(l);
    TagsDiffer();
    hide Tag;
    var text, m := MarkerOf(a, k), MarkerOf(b, l);
    if Contains(text, m) {
      var i: nat :| OccursAt(text, m, i);
      assert m[32] == ':' && text[i..i + |m|][32] == text[i + 32];
      assert i <= 1 && text[33] == Tag(k)[1];
      assert i == 0;
      assert text[..32] == a && m[..32] == b && text[0..|m|][..32] == text[..32];
      assert text[0..|m|][33] == text[33] && m[33] == Tag(l)[1] && text[33] == Tag(k)[1];
    }
    if a == b && k == l { ContainsIn("", m, ""); assert "" + m + "" == m; }
  }

  lemma VisitMarkerIff(body: string, a: string, k: Kind, b: string, l: Kind)
    requires VisitId(a) && VisitId(b)
    ensures Contains(Marked(body, MarkerOf(a, k)), MarkerOf(b, l)) <==> Contains(body, MarkerOf(b, l)) || (a == b && k == l)
  {
    hide Contains, Marked, VisitId, MarkerOf;
    MarkerApart(b, l);
    MarkersDistinct(a, k, b, l);
    MarkedContains(body, MarkerOf(a, k), MarkerOf(b, l));
  }
}
