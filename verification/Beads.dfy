/** Issue statuses in Beads: reconcileIssue, ApplyTaskConfig, CompleteMailbox and
    PrepareRestart of internal/task/beads/beads.go. */
module Beads {
  import opened Base

  type Status = string

  const OPEN := "open"
  const IN_PROGRESS := "in_progress"
  const CLOSED := "closed"

  datatype Issue = Issue(status: Status, assignee: string)

  datatype Outcome = Settled | Conflict | Failed

  // The statuses relay-flow itself gives and takes away. Any other is a person's.
  predicate Owned(s: Status) { s == OPEN || s == IN_PROGRESS || s == CLOSED }

  function MailboxSources(target: Status): seq<Status> {
    if target == IN_PROGRESS then [OPEN, CLOSED] else if target == CLOSED then [IN_PROGRESS] else [OPEN]
  }

  function ParentSources(target: Status): seq<Status> {
    if target == CLOSED then [OPEN, IN_PROGRESS] else [OPEN]
  }

  const RESTART_SOURCES := [OPEN, IN_PROGRESS, CLOSED]

  // An issue key, the statuses it may leave, and what it shall become; empty texts
  // leave the field alone.
  datatype Call = Call(id: string, expected: seq<Status>, target: Status, assignee: string)

  predicate Conflicts(i: Issue, c: Call) { c.target != "" && i.status != c.target && i.status !in c.expected }

  function After(i: Issue, c: Call): Issue {
    Issue(if c.target != "" then c.target else i.status, if c.assignee != "" then c.assignee else i.assignee)
  }

  // transitionTo and assignee of an effective task configuration.
  datatype Config = Config(parentStatus: Status, taskStatus: Status, assignee: string)

  function MailboxCall(mailbox: string, c: Config): Call { Call(mailbox, MailboxSources(c.taskStatus), c.taskStatus, c.assignee) }

  function ParentCall(parent: string, c: Config): Call { Call(parent, ParentSources(c.parentStatus), c.parentStatus, "") }

  function CloseCall(mailbox: string): Call { Call(mailbox, MailboxSources(CLOSED), CLOSED, "") }

  function ReopenCall(mailbox: string): Call { Call(mailbox, RESTART_SOURCES, OPEN, "") }

  function ApplyCalls(parent: string, mailbox: Option<string>, c: Config): seq<Call> {
    (if mailbox.Some? then [MailboxCall(mailbox.value, c)] else []) + if c.parentStatus == "" then [] else [ParentCall(parent, c)]
  }

  function ReopenCalls(mailboxes: seq<string>): seq<Call> { seq(|mailboxes|, i requires 0 <= i < |mailboxes| => ReopenCall(mailboxes[i])) }

  type Issues = map<string, Issue>

  /* ---- calls in order ---- */

  predicate Idle(c: Call) { c.target == "" && c.assignee == "" }

  predicate Passes(a: Issues, c: Call) { Idle(c) || (c.id in a && !Conflicts(a[c.id], c)) }

  predicate Stuck(a: Issues, c: Call) { !Idle(c) && c.id in a && Conflicts(a[c.id], c) }

  function Step(a: Issues, c: Call): Issues { if Idle(c) || c.id !in a then a else a[c.id := After(a[c.id], c)] }

  function Done(a: Issues, calls: seq<Call>): Issues { if calls == [] then a else Done(Step(a, calls[0]), calls[1..]) }

  predicate Clear(a: Issues, calls: seq<Call>) { calls == [] || (Passes(a, calls[0]) && Clear(Step(a, calls[0]), calls[1..])) }

  // The first k calls took effect; all of them on success, and after a conflict the
  // next one does not apply.
  ghost predicate RanTo(a: Issues, b: Issues, calls: seq<Call>, r: Outcome, k: nat) {
    && k <= |calls| && Clear(a, calls[..k]) && b == Done(a, calls[..k])
    && (r == Settled ==> k == |calls|)
    && (r == Conflict ==> k < |calls| && Stuck(b, calls[k]))
  }

  ghost predicate Ran(a: Issues, b: Issues, calls: seq<Call>, r: Outcome) { exists k: nat :: RanTo(a, b, calls, r, k) }

  lemma {:induction false} DoneSnoc(a: Issues, calls: seq<Call>, c: Call)
    ensures Done(a, calls + [c]) == Step(Done(a, calls), c)
    ensures Clear(a, calls + [c]) <==> Clear(a, calls) && Passes(Done(a, calls), c)
    decreases |calls|
  {
    hide Step, Passes;
    if calls != [] {
      assert (calls + [c])[1..] == calls[1..] + [c];
      DoneSnoc(Step(a, calls[0]), calls[1..], c);
    } else {
      assert (calls + [c])[1..] == [];
    }
  }

  // After the first k calls succeeded, the outcome of the next decides.
  lemma RanOn(a: Issues, b: Issues, c: Issues, calls: seq<Call>, k: nat, r: Outcome)
    requires k < |calls| && RanTo(a, b, calls[..k], Settled, k)
    requires r == Settled ==> Passes(b, calls[k]) && c == Step(b, calls[k])
    requires r == Conflict ==> c == b && Stuck(b, calls[k])
    requires c == b || (Passes(b, calls[k]) && c == Step(b, calls[k]))
    ensures if r == Settled then RanTo(a, c, calls[..k + 1], r, k + 1) else Ran(a, c, calls, r)
  {
    assert calls[..k][..k] == calls[..k] && calls[..k + 1] == calls[..k] + [calls[k]];
    assert calls[..k + 1][..k + 1] == calls[..k + 1];
    DoneSnoc(a, calls[..k], calls[k]);
    hide Step, Passes, Stuck, Done, Clear;
    if r != Settled {
      if c == b { assert RanTo(a, c, calls, r, k); } else { assert RanTo(a, c, calls, r, k + 1); }
    }
  }

  lemma RanAll(a: Issues, b: Issues, calls: seq<Call>)
    requires RanTo(a, b, calls[..|calls|], Settled, |calls|)
    ensures Ran(a, b, calls, Settled)
  {
    assert calls[..|calls|] == calls;
    assert RanTo(a, b, calls, Settled, |calls|);
  }

  lemma RanNone(a: Issues, calls: seq<Call>)
    ensures RanTo(a, a, calls[..0], Settled, 0)
  {
  }

  /* ---- what a settled activity has done ---- */

  // The issue was found at the status or one of the sources, and got it and the
  // assignee; empty texts leave the field alone.
  predicate Moved(a: Issues, b: Issues, id: string, sources: set<Status>, status: Status, assignee: string) {
    if status == "" && assignee == "" then Untouched(a, b, id)
    else
      && id in a && id in b && (status == "" || a[id].status == status || a[id].status in sources)
      && b[id].status == (if status == "" then a[id].status else status)
      && b[id].assignee == (if assignee == "" then a[id].assignee else assignee)
  }

  predicate Untouched(a: Issues, b: Issues, id: string) { if id in a then id in b && b[id] == a[id] else id !in b }

  lemma Settles(a: Issues, b: Issues, calls: seq<Call>)
    requires Ran(a, b, calls, Settled)
    ensures b == Done(a, calls) && Clear(a, calls)
  {
    var k: nat :| RanTo(a, b, calls, Settled, k);
    assert calls[..k] == calls;
  }

  lemma StepMoves(a: Issues, c: Call, sources: set<Status>)
    requires Passes(a, c) && forall t :: t in sources <==> t in c.expected
    ensures Moved(a, Step(a, c), c.id, sources, c.target, c.assignee) && forall id :: id != c.id ==> Untouched(a, Step(a, c), id)
  {
  }

  lemma OneDone(a: Issues, c: Call)
    ensures Done(a, [c]) == Step(a, c) && (Clear(a, [c]) <==> Passes(a, c))
  {
    assert [c][1..] == [];
    hide Step, Passes;
  }

  lemma TwoDone(a: Issues, c: Call, d: Call)
    ensures Done(a, [c, d]) == Step(Step(a, c), d) && (Clear(a, [c, d]) <==> Passes(a, c) && Passes(Step(a, c), d))
  {
    assert [c, d][1..] == [d];
    OneDone(Step(a, c), d);
    hide Step, Passes;
  }

  // A completed mailbox was in progress, or closed already, and is closed.
  lemma Completed(a: Issues, b: Issues, mailbox: string)
    requires Ran(a, b, [CloseCall(mailbox)], Settled)
    ensures Moved(a, b, mailbox, {"in_progress"}, "closed", "") && forall id :: id != mailbox ==> Untouched(a, b, id)
  {
    var c := CloseCall(mailbox);
    Settles(a, b, [c]);
    OneDone(a, c);
    assert forall t :: t in {IN_PROGRESS} <==> t in c.expected;
    hide Step, Passes, Ran, Done, Clear, Moved;
    StepMoves(a, c, {IN_PROGRESS});
    assert IN_PROGRESS == "in_progress" && CLOSED == "closed";
  }

  function TaskSources(target: Status): set<Status> {
    if target == "in_progress" then {"open", "closed"} else if target == "closed" then {"in_progress"} else {"open"}
  }

  function ParentFrom(target: Status): set<Status> { if target == "closed" then {"open", "in_progress"} else {"open"} }

  // An applied configuration gave the mailbox its status and assignee, and the parent
  // its status where one is configured, each from a status relay-flow expects there.
  lemma Applied(a: Issues, b: Issues, parent: string, mailbox: Option<string>, c: Config)
    requires Ran(a, b, ApplyCalls(parent, mailbox, c), Settled) && mailbox != Some(parent)
    ensures mailbox.Some? ==> Moved(a, b, mailbox.value, TaskSources(c.taskStatus), c.taskStatus, c.assignee)
    ensures if c.parentStatus != "" then Moved(a, b, parent, ParentFrom(c.parentStatus), c.parentStatus, "") else Untouched(a, b, parent)
    ensures forall id :: id != parent && mailbox != Some(id) ==> Untouched(a, b, id)
  {
    var calls := ApplyCalls(parent, mailbox, c);
    Settles(a, b, calls);
    SourcesAre(c.taskStatus);
    SourcesAre(c.parentStatus);
    hide Step, Passes, Ran, Done, Clear, TaskSources, ParentFrom, MailboxSources, ParentSources;
    var p := ParentCall(parent, c);
    if mailbox.Some? {
      var m := MailboxCall(mailbox.value, c);
      var mid := Step(a, m);
      if c.parentStatus == "" { OneDone(a, m); assert calls == [m]; } else { TwoDone(a, m, p); assert calls == [m, p]; StepMoves(mid, p, ParentFrom(c.parentStatus)); }
      StepMoves(a, m, TaskSources(c.taskStatus));
    } else if c.parentStatus == "" {
      assert calls == [];
      NoneDone(a);
    } else {
      assert calls == [p];
      OneDone(a, p);
      StepMoves(a, p, ParentFrom(c.parentStatus));
    }
  }

  lemma NoneDone(a: Issues)
    ensures Done(a, []) == a
  {
  }

  lemma SourcesAre(target: Status)
    ensures forall t :: t in TaskSources(target) <==> t in MailboxSources(target)
    ensures forall t :: t in ParentFrom(target) <==> t in ParentSources(target)
  {
  }

  // After a settled restart every mailbox is open, whatever relay-flow had made of it,
  // and nothing else changed.
  lemma Reopened(a: Issues, b: Issues, mailboxes: seq<string>)
    requires Ran(a, b, ReopenCalls(mailboxes), Settled)
    ensures forall id :: if id in mailboxes then Moved(a, b, id, {"open", "in_progress", "closed"}, "open", "") else Untouched(a, b, id)
  {
    Settles(a, b, ReopenCalls(mailboxes));
    ReopenedAll(a, mailboxes);
  }

  lemma {:induction false} ReopenedAll(a: Issues, mailboxes: seq<string>)
    requires Clear(a, ReopenCalls(mailboxes))
    ensures forall id :: if id in mailboxes then Moved(a, Done(a, ReopenCalls(mailboxes)), id, {"open", "in_progress", "closed"}, "open", "")
                         else Untouched(a, Done(a, ReopenCalls(mailboxes)), id)
    decreases |mailboxes|
  {
    var calls := ReopenCalls(mailboxes);
    if mailboxes != [] {
      var c, rest := ReopenCall(mailboxes[0]), mailboxes[1..];
      assert calls[0] == c && calls[1..] == ReopenCalls(rest);
      ReopenedAll(Step(a, c), rest);
      RestartSources();
      var all := {"open", "in_progress", "closed"};
      StepMoves(a, c, all);
      var mid, b := Step(a, c), Done(a, calls);
      assert b == Done(mid, ReopenCalls(rest)) && c.target == "open" && c.assignee == "";
      hide Step, Passes, Clear, ReopenCalls, Done;
      forall id
        ensures if id in mailboxes then Moved(a, b, id, all, "open", "") else Untouched(a, b, id)
      {
        assert id in mailboxes <==> id == c.id || id in rest;
        MovedAlong(a, mid, b, id, all, id == c.id, id in rest);
      }
    }
  }

  lemma MovedAlong(a: Issues, mid: Issues, b: Issues, id: string, all: set<Status>, first: bool, second: bool)
    requires if first then Moved(a, mid, id, all, "open", "") else Untouched(a, mid, id)
    requires if second then Moved(mid, b, id, all, "open", "") else Untouched(mid, b, id)
    ensures if first || second then Moved(a, b, id, all, "open", "") else Untouched(a, b, id)
  {
  }

  lemma RestartSources()
    ensures forall t :: t in {"open", "in_progress", "closed"} <==> t in RESTART_SOURCES
    ensures OPEN == "open"
  {
  }

  // A call names no issue, or one that Beads does not have.
  predicate Unknown(a: Issues, calls: seq<Call>) { exists k :: 0 <= k < |calls| && (calls[k].id == "" || calls[k].id !in a) }

  lemma {:induction false} DoneKeys(a: Issues, calls: seq<Call>)
    ensures Done(a, calls).Keys == a.Keys
    decreases |calls|
  {
    if calls != [] {
      DoneKeys(Step(a, calls[0]), calls[1..]);
    }
  }

  // Where the call after the first k names an unknown issue, so does one of them all.
  lemma UnknownAt(a: Issues, b: Issues, calls: seq<Call>, k: nat)
    requires k < |calls| && RanTo(a, b, calls[..k], Settled, k) && (calls[k].id == "" || calls[k].id !in b)
    ensures Unknown(a, calls)
  {
    DoneKeys(a, calls[..k][..k]);
    hide Done, Clear;
  }

  class Tracker {
    var issues: Issues
    // How many calls of Beads went unanswered or failed, and how many updates were sent.
    ghost var failures: nat
    ghost var updates: nat

    constructor (issues: Issues)
      ensures this.issues == issues
    {
      this.issues := issues;
      failures, updates := 0, 0;
    }

    // reconcileIssue: at most one update, and none where the status found is not
    // expected. A failed update may still have taken effect.
    method ReconcileIssue(c: Call) returns (r: Outcome)
      modifies this
      ensures r == Settled ==> Passes(old(issues), c) && issues == Step(old(issues), c)
      ensures r == Conflict ==> Stuck(old(issues), c) && issues == old(issues)
      ensures issues == old(issues) || (Passes(old(issues), c) && issues == Step(old(issues), c))
      ensures failures >= old(failures) && (r == Failed ==> failures > old(failures) || c.id == "" || c.id !in old(issues))
      ensures updates == old(updates) || (updates == old(updates) + 1 && c.id in old(issues) && r != Conflict)
      ensures updates > old(updates) ==>
                (c.target != "" && c.target != old(issues)[c.id].status) || (c.assignee != "" && c.assignee != old(issues)[c.id].assignee)
      ensures c.target == "" && c.assignee == "" ==> r == Settled
      ensures (c.target != "" || c.assignee != "") && c.id == "" ==> r == Failed && issues == old(issues)
    {
      if c.target == "" && c.assignee == "" {
        return Settled;
      }
      if c.id == "" {
        return Failed;
      }
      var up: bool := *;
      if !up || c.id !in issues {
        failures := failures + if up then 0 else 1;
        return Failed;
      }
      var issue := issues[c.id];
      var status, assignee := "", "";
      if c.target != "" && issue.status != c.target {
        if issue.status !in c.expected {
          return Conflict;
        }
        status := c.target;
      }
      if c.assignee != "" && issue.assignee != c.assignee {
        assignee := c.assignee;
      }
      if status == "" && assignee == "" {
        assert issues == issues[c.id := issue];
        return Settled;
      }
      updates := updates + 1;
      var effect, acknowledged: bool := *, *;
      if effect {
        issues := issues[c.id := Issue(if status != "" then status else issue.status, if assignee != "" then assignee else issue.assignee)];
      }
      r := if effect && acknowledged then Settled else Failed;
      failures := failures + if r == Failed then 1 else 0;
    }

    // ApplyTaskConfig: the mailbox first, the parent only where its status is configured.
    method ApplyTaskConfig(parent: string, mailbox: Option<string>, c: Config) returns (r: Outcome)
      modifies this
      ensures Ran(old(issues), issues, ApplyCalls(parent, mailbox, c), r)
      ensures failures >= old(failures) && (r == Failed ==> failures > old(failures) || Unknown(old(issues), ApplyCalls(parent, mailbox, c)))
    {
      hide MailboxCall, ParentCall, Step, Passes, Stuck, RanTo, Ran;
      ghost var start := issues;
      ghost var calls := ApplyCalls(parent, mailbox, c);
      RanNone(start, calls);
      if mailbox.Some? {
        assert calls[0] == MailboxCall(mailbox.value, c);
        r := ReconcileIssue(MailboxCall(mailbox.value, c));
        RanOn(start, start, issues, calls, 0, r);
        if r != Settled {
          if r == Failed && failures == old(failures) { UnknownAt(start, start, calls, 0); }
          return;
        }
      }
      if c.parentStatus == "" {
        RanAll(start, issues, calls);
        return Settled;
      }
      ghost var mid := issues;
      assert calls[|calls| - 1] == ParentCall(parent, c);
      r := ReconcileIssue(ParentCall(parent, c));
      RanOn(start, mid, issues, calls, |calls| - 1, r);
      if r == Settled { RanAll(start, issues, calls); }
      if r == Failed && failures == old(failures) { UnknownAt(start, mid, calls, |calls| - 1); }
    }

    // CompleteMailbox.
    method CompleteMailbox(mailbox: string) returns (r: Outcome)
      modifies this
      ensures mailbox != "" ==> Ran(old(issues), issues, [CloseCall(mailbox)], r)
      ensures mailbox == "" ==> r == Failed && issues == old(issues)
      ensures failures >= old(failures) && (r == Failed ==> failures > old(failures) || mailbox == "" || mailbox !in old(issues))
    {
      hide MailboxSources, Step, Passes, Stuck, RanTo, Ran;
      if mailbox == "" {
        return Failed;
      }
      ghost var start := issues;
      r := ReconcileIssue(CloseCall(mailbox));
      RanNone(start, [CloseCall(mailbox)]);
      RanOn(start, start, issues, [CloseCall(mailbox)], 0, r);
      if r == Settled { RanAll(start, issues, [CloseCall(mailbox)]); }
    }

    // PrepareRestart: every mailbox open again, the parent untouched.
    method PrepareRestart(mailboxes: seq<string>) returns (r: Outcome)
      modifies this
      ensures Ran(old(issues), issues, ReopenCalls(mailboxes), r)
      ensures failures >= old(failures) && (r == Failed ==> failures > old(failures) || Unknown(old(issues), ReopenCalls(mailboxes)))
    {
      hide ReopenCall, Step, Passes, Stuck, RanTo, Ran;
      ghost var start := issues;
      ghost var calls := ReopenCalls(mailboxes);
      RanNone(start, calls);
      var k := 0;
      while k < |mailboxes|
        invariant 0 <= k <= |mailboxes|
        invariant RanTo(start, issues, calls[..k], Settled, k) && failures >= old(failures)
      {
        ghost var mid := issues;
        r := ReconcileIssue(ReopenCall(mailboxes[k]));
        RanOn(start, mid, issues, calls, k, r);
        if r != Settled {
          if r == Failed && failures == old(failures) { UnknownAt(start, mid, calls, k); }
          return;
        }
        k := k + 1;
      }
      RanAll(start, issues, calls);
      r := Settled;
    }
  }

  /* ---- what a call may overwrite ---- */

  lemma Guarded(a: Issues, c: Call, id: string)
    requires Passes(a, c) && id in a
    ensures id in Step(a, c)
    ensures Step(a, c)[id].status != a[id].status ==> id == c.id && a[id].status in c.expected && Step(a, c)[id].status == c.target
  {
  }

  // The sources declared for a call's target.
  predicate Ours(c: Call) {
    || c.expected == MailboxSources(c.target) || c.expected == ParentSources(c.target)
    || (c.target == OPEN && c.expected == RESTART_SOURCES)
  }

  // Every activity calls with declared sources, whatever is configured.
  lemma CallsOurs(parent: string, mailbox: Option<string>, f: Config, mailboxes: seq<string>)
    ensures forall k :: 0 <= k < |ApplyCalls(parent, mailbox, f)| ==> Ours(ApplyCalls(parent, mailbox, f)[k])
    ensures forall k :: 0 <= k < |ReopenCalls(mailboxes)| ==> Ours(ReopenCalls(mailboxes)[k])
    ensures forall id :: Ours(CloseCall(id))
  {
    hide OPEN, IN_PROGRESS, CLOSED, RESTART_SOURCES, MailboxSources, ParentSources;
  }

  lemma OursExpects(c: Call)
    requires Ours(c)
    ensures forall k :: 0 <= k < |c.expected| ==> Owned(c.expected[k])
  {
    hide OPEN, IN_PROGRESS, CLOSED;
  }

  // A status that only a person sets is never changed, by any call under any
  // configuration.
  lemma HumanStatusKept(a: Issues, c: Call, id: string)
    requires Ours(c) && Passes(a, c) && id in a && !Owned(a[id].status)
    ensures id in Step(a, c) && Step(a, c)[id].status == a[id].status
  {
    OursExpects(c);
    Guarded(a, c, id);
  }

  // The same over a whole activity, finished, failed or stuck.
  lemma {:induction false} HumanStatusKeptAll(a: Issues, calls: seq<Call>, id: string)
    requires (forall k :: 0 <= k < |calls| ==> Ours(calls[k])) && Clear(a, calls) && id in a && !Owned(a[id].status)
    ensures id in Done(a, calls) && Done(a, calls)[id].status == a[id].status
    decreases |calls|
  {
    hide Ours, Owned, Passes, Step;
    if calls == [] {
    } else {
      HumanStatusKept(a, calls[0], id);
      HumanStatusKeptAll(Step(a, calls[0]), calls[1..], id);
    }
  }

  // Whatever becomes of an activity of the adapter, under any configuration, it leaves
  // a status alone that only a person sets.
  lemma RanKeepsHuman(a: Issues, b: Issues, calls: seq<Call>, r: Outcome, id: string)
    requires Ran(a, b, calls, r) && (forall k :: 0 <= k < |calls| ==> Ours(calls[k])) && id in a && !Owned(a[id].status)
    ensures id in b && b[id].status == a[id].status
  {
    hide Ours, Owned, Clear, Done;
    var k: nat :| RanTo(a, b, calls, r, k);
    HumanStatusKeptAll(a, calls[..k], id);
  }

  lemma ActivitiesKeepHuman(a: Issues, b: Issues, r: Outcome, id: string, parent: string, mailbox: Option<string>, f: Config, mailboxes: seq<string>, done: string)
    requires id in a && !Owned(a[id].status)
    requires Ran(a, b, ApplyCalls(parent, mailbox, f), r) || Ran(a, b, ReopenCalls(mailboxes), r) || Ran(a, b, [CloseCall(done)], r)
    ensures id in b && b[id].status == a[id].status
  {
    CallsOurs(parent, mailbox, f, mailboxes);
    hide Ours, Owned, Ran, ApplyCalls, ReopenCalls, CloseCall;
    if Ran(a, b, ApplyCalls(parent, mailbox, f), r) {
      RanKeepsHuman(a, b, ApplyCalls(parent, mailbox, f), r, id);
    } else if Ran(a, b, ReopenCalls(mailboxes), r) {
      RanKeepsHuman(a, b, ReopenCalls(mailboxes), r, id);
    } else {
      RanKeepsHuman(a, b, [CloseCall(done)], r, id);
    }
  }
}
