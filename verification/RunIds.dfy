/** Run identifiers: internal/identity/identity.go, and the cancellation marker that
    internal/run/manager.go derives from them. Text is a sequence of bytes. */
module RunIds {
  import opened Base
  import opened Markers

  predicate Bytes(s: string) { forall i :: 0 <= i < |s| ==> s[i] as int < 256 }

  /* ---- path escaping: RFC 3986, sections 2.1 and 3.3, as url.PathEscape does it ---- */

  predicate Digit(c: char) { '0' <= c <= '9' }

  predicate Unreserved(c: char) {
    Digit(c) || 'a' <= c <= 'z' || 'A' <= c <= 'Z' || c == '-' || c == '_' || c == '.' || c == '~'
  }

  // What a path segment keeps as it is.
  predicate Plain(c: char) { Unreserved(c) || c == '$' || c == '&' || c == '+' || c == ':' || c == '=' || c == '@' }

  function Hex(n: nat): (c: char)
    requires n < 16
  {
    if n < 10 then '0' + n as char else 'A' + (n - 10) as char
  }

  function HexValue(c: char): Option<nat> {
    if Digit(c) then Some(c as int - '0' as int)
    else if 'A' <= c <= 'F' then Some(c as int - 'A' as int + 10)
    else if 'a' <= c <= 'f' then Some(c as int - 'a' as int + 10)
    else None
  }

  function EscapeChar(c: char): string {
    if Plain(c) then [c] else ['%', Hex(c as int / 16 % 16), Hex(c as int % 16)]
  }

  function Escape(s: string): string { if s == "" then "" else EscapeChar(s[0]) + Escape(s[1..]) }

  // The inverse, url.PathUnescape.
  function Unescape(s: string): Option<string>
    decreases |s|
  {
    if s == "" then Some("")
    else if s[0] != '%' then
      match Unescape(s[1..]) case None => None case Some(t) => Some([s[0]] + t)
    else if |s| < 3 || HexValue(s[1]).None? || HexValue(s[2]).None? then None
    else
      match Unescape(s[3..])
      case None => None
      case Some(t) => Some([(16 * HexValue(s[1]).value + HexValue(s[2]).value) as char] + t)
  }

  // A name of letters, digits and the marks a path segment may hold stays as it is.
  lemma {:induction false} PlainKept(s: string)
    requires forall i :: 0 <= i < |s| ==> 'a' <= s[i] <= 'z' || 'A' <= s[i] <= 'Z' || '0' <= s[i] <= '9' || s[i] in "-_.~$&+:=@"
    ensures Escape(s) == s
  {
    if s != "" {
      MarkPlain(s[0]);
      PlainKept(s[1..]);
      assert s == [s[0]] + s[1..];
    }
  }

  lemma MarkPlain(c: char)
    requires 'a' <= c <= 'z' || 'A' <= c <= 'Z' || '0' <= c <= '9' || c in "-_.~$&+:=@"
    ensures Plain(c)
  {
  }

  lemma HexBack(n: nat)
    requires n < 16
    ensures HexValue(Hex(n)) == Some(n) && (Digit(Hex(n)) || 'A' <= Hex(n) <= 'F')
  {
  }

  lemma UnescapeChar(c: char, rest: string)
    requires c as int < 256
    ensures Unescape(EscapeChar(c) + rest) == match Unescape(rest) case None => None case Some(t) => Some([c] + t)
  {
    var text := EscapeChar(c) + rest;
    if Plain(c) {
      assert text[1..] == rest;
    } else {
      HexBack(c as int / 16 % 16);
      HexBack(c as int % 16);
      assert text[3..] == rest;
    }
  }

  lemma {:induction false} EscapeRoundTrip(s: string)
    requires Bytes(s)
    ensures Unescape(Escape(s)) == Some(s)
  {
    hide Unescape, EscapeChar;
    if s == "" {
      assert Unescape("") == Some("") by { UnescapeNil(); }
    } else {
      EscapeRoundTrip(s[1..]);
      UnescapeChar(s[0], Escape(s[1..]));
      assert [s[0]] + s[1..] == s;
    }
  }

  lemma UnescapeNil()
    ensures Unescape("") == Some("")
  {
  }

  lemma {:induction false} EscapeAppend(a: string, b: string)
    ensures Escape(a + b) == Escape(a) + Escape(b)
  {
    hide EscapeChar;
    if a == "" {
      assert a + b == b;
    } else {
      assert (a + b)[1..] == a[1..] + b;
      EscapeAppend(a[1..], b);
    }
  }

  predicate AllPlain(s: string) { forall i :: 0 <= i < |s| ==> Plain(s[i]) }

  lemma {:induction false} EscapePlain(s: string)
    requires AllPlain(s)
    ensures Escape(s) == s
  {
    if s == "" {
    } else {
      EscapePlain(s[1..]);
    }
  }

  lemma {:induction false} EscapeShape(s: string)
    ensures forall i :: 0 <= i < |Escape(s)| ==> Plain(Escape(s)[i]) || Escape(s)[i] == '%'
    ensures '/' !in Escape(s)
  {
    if s == "" {
    } else {
      EscapeShape(s[1..]);
      CharShape(s[0]);
      hide EscapeChar, Plain;
    }
  }

  lemma CharShape(c: char)
    ensures forall i :: 0 <= i < |EscapeChar(c)| ==> Plain(EscapeChar(c)[i]) || EscapeChar(c)[i] == '%'
    ensures '/' !in EscapeChar(c)
  {
    HexBack(c as int / 16 % 16);
    HexBack(c as int % 16);
  }

  /* ---- logical run IDs ---- */

  function NewRunID(repo: string, workflow: string, ticket: string): string {
    Escape(repo) + "/" + Escape(workflow) + "/" + Escape(ticket)
  }

  lemma SplitFirst(a: string, x: string, b: string, y: string)
    requires '/' !in a && '/' !in b && a + "/" + x == b + "/" + y
    ensures a == b && x == y
  {
    var text := a + "/" + x;
    assert text[|a|] == '/' && text[|b|] == '/';
    assert forall i :: 0 <= i < |a| ==> text[i] == a[i] && a[i] in a;
    assert forall i :: 0 <= i < |b| ==> text[i] == b[i] && b[i] in b;
    assert |a| == |b|;
    assert text[..|a|] == a && text[..|b|] == b;
    assert text[|a| + 1..] == x && text[|b| + 1..] == y;
  }

  predicate Parts(repo: string, workflow: string, ticket: string) { Bytes(repo) && Bytes(workflow) && Bytes(ticket) }

  // A run ID determines its repo, workflow and ticket, whatever bytes they hold.
  lemma RunIdInjective(r: string, w: string, t: string, r': string, w': string, t': string)
    requires Parts(r, w, t) && Parts(r', w', t') && NewRunID(r, w, t) == NewRunID(r', w', t')
    ensures r == r' && w == w' && t == t'
  {
    hide Escape, Unescape;
    EscapeShape(r);
    EscapeShape(w);
    EscapeShape(r');
    EscapeShape(w');
    assert NewRunID(r, w, t) == Escape(r) + "/" + (Escape(w) + "/" + Escape(t));
    assert NewRunID(r', w', t') == Escape(r') + "/" + (Escape(w') + "/" + Escape(t'));
    SplitFirst(Escape(r), Escape(w) + "/" + Escape(t), Escape(r'), Escape(w') + "/" + Escape(t'));
    SplitFirst(Escape(w), Escape(t), Escape(w'), Escape(t'));
    EscapeRoundTrip(r);
    EscapeRoundTrip(w);
    EscapeRoundTrip(t);
    EscapeRoundTrip(r');
    EscapeRoundTrip(w');
    EscapeRoundTrip(t');
  }

  /* ---- attempts ---- */

  const ATTEMPT := "~attempt~"

  // FormatUint in base 10.
  function Decimal(n: nat): (s: string)
    ensures s != "" && forall i :: 0 <= i < |s| ==> Digit(s[i])
  {
    var last := ['0' + (n % 10) as char];
    if n < 10 then last else Decimal(n / 10) + last
  }

  lemma {:induction false} DecimalInjective(n: nat, m: nat)
    requires Decimal(n) == Decimal(m)
    ensures n == m
    decreases n
  {
    var s := Decimal(n);
    var d, e := ['0' + (n % 10) as char], ['0' + (m % 10) as char];
    assert s[|s| - 1] == d[0] == e[0];
    assert n % 10 == m % 10;
    if n >= 10 && m >= 10 {
      assert Decimal(n / 10) == s[..|s| - 1] == Decimal(m / 10);
      DecimalInjective(n / 10, m / 10);
    } else {
      assert n >= 10 ==> |s| > 1;
      assert m >= 10 ==> |s| > 1;
    }
  }

  function NewAttemptRunID(logical: string, attempt: nat): string {
    if attempt <= 1 then logical else logical + ATTEMPT + Decimal(attempt)
  }

  // strings.LastIndex, looking from i down.
  function LastIndex(s: string, m: string, i: nat): Option<nat> {
    if OccursAt(s, m, i) then Some(i) else if i == 0 then None else LastIndex(s, m, i - 1)
  }

  function LogicalRunID(execution: string): string {
    var index := LastIndex(execution, ATTEMPT, |execution|);
    if index.Some? && index.value <= |execution| then execution[..index.value] else execution
  }

  lemma {:induction false} LastIndexIs(s: string, m: string, i: nat, k: nat)
    requires k <= i && OccursAt(s, m, k) && forall j: nat :: k < j <= i ==> !OccursAt(s, m, j)
    ensures LastIndex(s, m, i) == Some(k)
  {
    hide OccursAt;
    if i > k { LastIndexIs(s, m, i - 1, k); }
  }

  lemma {:induction false} LastIndexNone(s: string, m: string, i: nat)
    ensures LastIndex(s, m, i).None? <==> forall j: nat :: j <= i ==> !OccursAt(s, m, j)
    ensures LastIndex(s, m, i).Some? ==> LastIndex(s, m, i).value <= i && OccursAt(s, m, LastIndex(s, m, i).value)
  {
    hide OccursAt;
    if i > 0 && !OccursAt(s, m, i) { LastIndexNone(s, m, i - 1); }
  }

  lemma AttemptShape()
    ensures |ATTEMPT| == 9 && ATTEMPT[0] == '~' && ATTEMPT[1] == 'a' && ATTEMPT[8] == '~'
    ensures forall i :: 0 < i < 8 ==> ATTEMPT[i] != '~'
    ensures AllPlain(ATTEMPT)
    ensures forall i :: 0 <= i < 9 ==> !Digit(ATTEMPT[i]) && !('A' <= ATTEMPT[i] <= 'F') && ATTEMPT[i] != '%' && ATTEMPT[i] != '/'
  {
  }

  // LogicalRunID undoes NewAttemptRunID for every restart, even of an ID that holds
  // the marker itself; for a first attempt, exactly when the ID does not hold it.
  lemma LogicalUndoes(logical: string, attempt: nat)
    ensures LogicalRunID(NewAttemptRunID(logical, attempt)) == logical <==> attempt > 1 || !Contains(logical, ATTEMPT)
  {
    AttemptShape();
    hide ATTEMPT, AllPlain, Decimal, Digit;
    if attempt > 1 {
      var tail := Decimal(attempt);
      var text := logical + ATTEMPT + tail;
      assert text[|logical|..|logical| + 9] == ATTEMPT;
      forall j: nat | |logical| < j <= |text|
        ensures !OccursAt(text, ATTEMPT, j)
      {
        if OccursAt(text, ATTEMPT, j) { Overrun(logical, tail, j); }
      }
      LastIndexIs(text, ATTEMPT, |text|, |logical|);
      assert text[..|logical|] == logical;
    } else {
      LastIndexNone(logical, ATTEMPT, |logical|);
    }
  }

  lemma Overrun(logical: string, tail: string, j: nat)
    requires |logical| < j <= |logical + ATTEMPT + tail| && forall i :: 0 <= i < |tail| ==> Digit(tail[i])
    ensures !OccursAt(logical + ATTEMPT + tail, ATTEMPT, j)
  {
    AttemptShape();
    hide ATTEMPT, AllPlain;
    var text := logical + ATTEMPT + tail;
    if j + 9 <= |text| {
      assert text[j..j + 9][0] == text[j] && text[j..j + 9][1] == text[j + 1];
      if j < |logical| + 9 {
        assert text[j] == ATTEMPT[j - |logical|];
        assert text[|logical| + 9] == tail[0];
      } else {
        assert text[j] == tail[j - |logical| - 9];
      }
    }
  }

  /* ---- executions of different runs ---- */

  lemma TicketSuffix(r: string, w: string, t: string, suffix: string)
    requires AllPlain(suffix)
    ensures NewRunID(r, w, t) + suffix == NewRunID(r, w, t + suffix)
  {
    EscapeAppend(t, suffix);
    EscapePlain(suffix);
    hide Escape;
  }

  lemma SuffixPlain(attempt: nat)
    ensures AllPlain(ATTEMPT + Decimal(attempt)) && Bytes(ATTEMPT + Decimal(attempt))
  {
    AttemptShape();
    var tail := Decimal(attempt);
    hide ATTEMPT, Decimal;
    assert forall i :: 0 <= i < |tail| ==> Digit(tail[i]);
  }

  lemma BytesAppend(a: string, b: string)
    requires Bytes(a) && Bytes(b)
    ensures Bytes(a + b)
  {
  }

  datatype Execution = Execution(repo: string, workflow: string, ticket: string, attempt: nat)

  function IdOf(e: Execution): string { NewAttemptRunID(NewRunID(e.repo, e.workflow, e.ticket), e.attempt) }

  predicate WellFormed(e: Execution) { Parts(e.repo, e.workflow, e.ticket) && e.attempt >= 1 }

  // A first attempt for a ticket that is named like a restart of another.
  predicate Poses(a: Execution, b: Execution) {
    a.attempt == 1 && b.attempt > 1 && a.repo == b.repo && a.workflow == b.workflow && a.ticket == b.ticket + ATTEMPT + Decimal(b.attempt)
  }

  // Two executions share an ID exactly when they are the same, or one poses as a
  // restart of the other.
  lemma ExecutionIdIff(a: Execution, b: Execution)
    requires WellFormed(a) && WellFormed(b)
    ensures IdOf(a) == IdOf(b) <==> a == b || Poses(a, b) || Poses(b, a)
  {
    hide NewRunID, ATTEMPT, Decimal, Bytes, AllPlain;
    if IdOf(a) == IdOf(b) {
      if a.attempt > 1 && b.attempt > 1 {
        BothRestarts(a, b);
      } else if a.attempt > 1 {
        FirstIsRestart(b, a);
      } else if b.attempt > 1 {
        FirstIsRestart(a, b);
      } else {
        RunIdInjective(a.repo, a.workflow, a.ticket, b.repo, b.workflow, b.ticket);
      }
    }
    if Poses(a, b) { PosesCollides(a, b); }
    if Poses(b, a) { PosesCollides(b, a); }
  }

  lemma BothRestarts(a: Execution, b: Execution)
    requires WellFormed(a) && WellFormed(b) && a.attempt > 1 && b.attempt > 1 && IdOf(a) == IdOf(b)
    ensures a == b
  {
    hide NewRunID, ATTEMPT, Decimal;
    var la, lb := NewRunID(a.repo, a.workflow, a.ticket), NewRunID(b.repo, b.workflow, b.ticket);
    LogicalUndoes(la, a.attempt);
    LogicalUndoes(lb, b.attempt);
    assert la == lb;
    SameTail(la + ATTEMPT, Decimal(a.attempt), Decimal(b.attempt));
    DecimalInjective(a.attempt, b.attempt);
    RunIdInjective(a.repo, a.workflow, a.ticket, b.repo, b.workflow, b.ticket);
  }

  lemma SameTail(p: string, x: string, y: string)
    requires p + x == p + y
    ensures x == y
  {
    assert (p + x)[|p|..] == x && (p + y)[|p|..] == y;
  }

  lemma FirstIsRestart(a: Execution, b: Execution)
    requires WellFormed(a) && WellFormed(b) && a.attempt == 1 && b.attempt > 1
    ensures IdOf(a) == IdOf(b) ==> Poses(a, b)
    ensures IdOf(b) == NewRunID(b.repo, b.workflow, b.ticket + ATTEMPT + Decimal(b.attempt))
  {
    SuffixPlain(b.attempt);
    hide NewRunID, ATTEMPT, Decimal, Bytes, AllPlain;
    var suffix := ATTEMPT + Decimal(b.attempt);
    TicketSuffix(b.repo, b.workflow, b.ticket, suffix);
    BytesAppend(b.ticket, suffix);
    var l := NewRunID(b.repo, b.workflow, b.ticket);
    assert l + ATTEMPT + Decimal(b.attempt) == l + suffix;
    assert b.ticket + ATTEMPT + Decimal(b.attempt) == b.ticket + suffix;
    if IdOf(a) == IdOf(b) {
      RunIdInjective(a.repo, a.workflow, a.ticket, b.repo, b.workflow, b.ticket + suffix);
    }
  }

  lemma PosesCollides(a: Execution, b: Execution)
    requires WellFormed(a) && WellFormed(b) && Poses(a, b)
    ensures IdOf(a) == IdOf(b)
  {
    FirstIsRestart(a, b);
    hide NewRunID, ATTEMPT, Decimal;
  }

  /* ---- the marker inside a component ---- */

  // A prefix of escaped text that has no hexadecimal digits and no escapes is a prefix
  // of the text.
  predicate Wordy(m: string) {
    AllPlain(m) && forall i :: 0 <= i < |m| ==> m[i] != '%' && m[i] != '/' && !Digit(m[i]) && !('A' <= m[i] <= 'F')
  }

  lemma {:induction false} WordyPrefix(s: string, m: string)
    requires Wordy(m) && OccursAt(Escape(s), m, 0)
    ensures OccursAt(s, m, 0)
    decreases |m|
  {
    if m == "" {
    } else {
      var c := s[0];
      assert Escape(s)[0..|m|][0] == m[0];
      assert Plain(c) && m[0] == c;
      assert Escape(s) == [c] + Escape(s[1..]);
      hide Escape, Plain;
      assert Escape(s)[0..|m|][1..] == Escape(s[1..])[0..|m| - 1];
      WordyPrefix(s[1..], m[1..]);
      assert s[0..|m|] == [c] + s[1..][0..|m| - 1];
      assert m == [m[0]] + m[1..];
    }
  }

  lemma {:induction false} WordyInside(s: string, m: string, i: nat)
    requires Wordy(m) && m != "" && OccursAt(Escape(s), m, i)
    ensures Contains(s, m)
  {
    if i == 0 {
      WordyPrefix(s, m);
    } else {
      var c, e := s[0], EscapeChar(s[0]);
      assert Escape(s) == e + Escape(s[1..]);
      CharTail(c);
      assert Escape(s)[i..i + |m|][0] == m[0] == Escape(s)[i];
      hide Escape, EscapeChar, Plain;
      assert i >= |e|;
      assert Escape(s[1..])[i - |e|..i - |e| + |m|] == Escape(s)[i..i + |m|];
      WordyInside(s[1..], m, i - |e|);
      ContainsTail(s, m);
    }
  }

  lemma ContainsTail(s: string, m: string)
    requires s != "" && Contains(s[1..], m)
    ensures Contains(s, m)
  {
    var k: nat :| OccursAt(s[1..], m, k);
    assert s[1..][k..k + |m|] == s[k + 1..k + 1 + |m|];
    assert OccursAt(s, m, k + 1);
  }

  lemma CharTail(c: char)
    ensures forall i :: 0 < i < |EscapeChar(c)| ==> Digit(EscapeChar(c)[i]) || 'A' <= EscapeChar(c)[i] <= 'F'
  {
    HexBack(c as int / 16 % 16);
    HexBack(c as int % 16);
  }

  lemma EscapeContains(s: string, m: string)
    requires Wordy(m) && m != ""
    ensures Contains(Escape(s), m) <==> Contains(s, m)
  {
    if Contains(s, m) {
      var i: nat :| OccursAt(s, m, i);
      var p, q := s[..i], s[i + |m|..];
      assert s == p + m + q;
      EscapeAppend(p + m, q);
      EscapeAppend(p, m);
      EscapePlain(m);
      ContainsIn(Escape(p), m, Escape(q));
    }
    hide Escape;
    if Contains(Escape(s), m) {
      var i: nat :| OccursAt(Escape(s), m, i);
      WordyInside(s, m, i);
    }
  }

  // A run ID holds the attempt marker exactly when its repo, workflow or ticket does.
  lemma MarkerInComponents(r: string, w: string, t: string)
    ensures Contains(NewRunID(r, w, t), ATTEMPT) <==> Contains(r, ATTEMPT) || Contains(w, ATTEMPT) || Contains(t, ATTEMPT)
  {
    AttemptShape();
    hide ATTEMPT, Escape, AllPlain, Contains;
    var a, b, c := Escape(r), Escape(w), Escape(t);
    EscapeContains(r, ATTEMPT);
    EscapeContains(w, ATTEMPT);
    EscapeContains(t, ATTEMPT);
    assert NewRunID(r, w, t) == a + ['/'] + (b + ['/'] + c);
    if Contains(NewRunID(r, w, t), ATTEMPT) {
      SplitAtChar(a, '/', b + ['/'] + c, ATTEMPT);
      if !Contains(a, ATTEMPT) { SplitAtChar(b, '/', c, ATTEMPT); }
    }
    if Contains(a, ATTEMPT) {
      ContainsLeft(a, ['/'] + (b + ['/'] + c), ATTEMPT);
      assert a + (['/'] + (b + ['/'] + c)) == NewRunID(r, w, t);
    }
    if Contains(b, ATTEMPT) {
      ContainsLeft(b, ['/'] + c, ATTEMPT);
      ContainsRight(a + ['/'], b + (['/'] + c), ATTEMPT);
      assert a + ['/'] + (b + (['/'] + c)) == NewRunID(r, w, t);
    }
    if Contains(c, ATTEMPT) {
      ContainsRight(a + ['/'] + b + ['/'], c, ATTEMPT);
      assert a + ['/'] + b + ['/'] + c == NewRunID(r, w, t);
    }
  }

  lemma ContainsRight(p: string, q: string, m: string)
    requires Contains(q, m)
    ensures Contains(p + q, m)
  {
    var i: nat :| OccursAt(q, m, i);
    assert (p + q)[|p| + i..|p| + i + |m|] == q[i..i + |m|];
    assert OccursAt(p + q, m, |p| + i);
  }

  // The logical ID of any execution of (repo, workflow, ticket) is theirs, exactly
  // unless it is a first attempt and one of the three holds the attempt marker.
  lemma LogicalOfExecution(e: Execution)
    requires WellFormed(e)
    ensures LogicalRunID(IdOf(e)) == NewRunID(e.repo, e.workflow, e.ticket)
            <==> e.attempt > 1 || !(Contains(e.repo, ATTEMPT) || Contains(e.workflow, ATTEMPT) || Contains(e.ticket, ATTEMPT))
  {
    hide NewRunID, ATTEMPT, Contains, LogicalRunID, NewAttemptRunID;
    LogicalUndoes(NewRunID(e.repo, e.workflow, e.ticket), e.attempt);
    MarkerInComponents(e.repo, e.workflow, e.ticket);
  }

  /* ---- cancellation markers ---- */

  const CANCELLATION := ":cancellation"

  function CancellationMarker(logical: string): (m: string)
    ensures m == logical + ":" + "cancellation"
  {
    logical + CANCELLATION
  }

  predicate Suffix(s: string, t: string) { |s| <= |t| && t[|t| - |s|..] == s }

  predicate Prefix(s: string, t: string) { |s| <= |t| && t[..|s|] == s }

  // A comment that carries the cancellation marker of run a also answers a search for
  // that of run b, exactly when both have the same workflow, b's escaped repo ends
  // a's, and b's escaped ticket starts a's up to the end of the marker.
  lemma CancellationContains(ra: string, wa: string, ta: string, rb: string, wb: string, tb: string)
    requires Parts(ra, wa, ta) && Parts(rb, wb, tb)
    ensures Contains(CancellationMarker(NewRunID(ra, wa, ta)), CancellationMarker(NewRunID(rb, wb, tb)))
            <==> Suffix(Escape(rb), Escape(ra)) && wa == wb && Prefix(Escape(tb) + CANCELLATION, Escape(ta) + CANCELLATION)
  {
    EscapeShape(ra);
    EscapeShape(rb);
    EscapeShape(wa);
    EscapeShape(wb);
    EscapeShape(ta);
    EscapeShape(tb);
    CancellationShape();
    hide CANCELLATION, Escape, Unescape, Contains;
    var a, b, c := Escape(ra), Escape(wa), Escape(ta) + CANCELLATION;
    var x, y, z := Escape(rb), Escape(wb), Escape(tb) + CANCELLATION;
    assert CancellationMarker(NewRunID(ra, wa, ta)) == a + "/" + (b + "/" + c);
    assert CancellationMarker(NewRunID(rb, wb, tb)) == x + "/" + (y + "/" + z);
    PathContains(a, b, c, x, y, z);
    if b == y {
      EscapeRoundTrip(wa);
      EscapeRoundTrip(wb);
    }
  }

  lemma CancellationShape()
    ensures '/' !in CANCELLATION
  {
  }

  lemma PathContains(a: string, b: string, c: string, x: string, y: string, z: string)
    requires '/' !in a && '/' !in b && '/' !in c && '/' !in x && '/' !in y && '/' !in z
    ensures Contains(a + "/" + (b + "/" + c), x + "/" + (y + "/" + z)) <==> Suffix(x, a) && b == y && Prefix(z, c)
  {
    var text, m := a + "/" + (b + "/" + c), x + "/" + (y + "/" + z);
    if Contains(text, m) {
      var i: nat :| OccursAt(text, m, i);
      PathAt(a, b, c, x, y, z, i);
    }
    if Suffix(x, a) && b == y && Prefix(z, c) {
      var p, q := a[..|a| - |x|], c[|z|..];
      assert a == p + x && c == z + q;
      assert text == p + m + q;
      ContainsIn(p, m, q);
    }
  }

  lemma PathAt(a: string, b: string, c: string, x: string, y: string, z: string, i: nat)
    requires '/' !in a && '/' !in b && '/' !in c && '/' !in x && '/' !in y && '/' !in z
    requires OccursAt(a + "/" + (b + "/" + c), x + "/" + (y + "/" + z), i)
    ensures Suffix(x, a) && b == y && Prefix(z, c)
  {
    var text, m := a + "/" + (b + "/" + c), x + "/" + (y + "/" + z);
    var part := text[i..i + |m|];
    assert forall j :: 0 <= j < |m| ==> part[j] == text[i + j];
    assert m[|x|] == '/' && m[|x| + 1 + |y|] == '/';
    Slashes(a, b, c, i + |x|);
    Slashes(a, b, c, i + |x| + 1 + |y|);
    assert i + |x| == |a| && |y| == |b|;
    assert text[i..i + |x|] == m[..|x|] == x;
    assert a[i..] == text[i..|a|];
    assert text[|a| + 1..|a| + 1 + |b|] == b && m[|x| + 1..|x| + 1 + |y|] == y;
    var k := |a| + 1 + |b| + 1;
    assert text[k..] == c && m[|x| + 1 + |y| + 1..] == z;
    assert c[..|z|] == text[k..k + |z|];
  }

  lemma Slashes(a: string, b: string, c: string, k: nat)
    requires '/' !in a && '/' !in b && '/' !in c && k < |a + "/" + (b + "/" + c)|
    ensures (a + "/" + (b + "/" + c))[k] == '/' ==> k == |a| || k == |a| + 1 + |b|
  {
    var text := a + "/" + (b + "/" + c);
    if k < |a| { assert text[k] == a[k]; }
    else if |a| < k <= |a| + |b| { assert text[k] == b[k - |a| - 1]; }
    else if k > |a| + 1 + |b| { assert text[k] == c[k - |a| - |b| - 2]; }
  }
}
