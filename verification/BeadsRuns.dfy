/** Whole runs over Beads with the default lifecycle configuration: any walk, with
    repeated and interrupted activities, cancellation and restart, and nobody else
    changing a status. */
module BeadsRuns {
  import opened Base
  import opened Beads

  const END := "end"

  // `mailbox` names the issue of every work node, `order` lists them as a restart does.
  datatype Setting = Setting(parent: string, mailbox: map<string, string>, order: seq<string>, assignee: string)

  predicate WellSet(c: Setting) {
    && (forall n :: n in c.mailbox ==> c.mailbox[n] != c.parent)
    && (forall i :: 0 <= i < |c.order| ==> c.order[i] in c.mailbox.Values)
  }

  // The activities that touch statuses, with the durable place among them.
  datatype Activity = Ensure | Prepare | Start | Work(node: string) | Complete(node: string) | End | Finished

  // `at` counts the calls the running activity has made; `canceled` leaves its rest
  // in flight until a restart.
  datatype State = State(attempt: nat, act: Activity, at: nat, canceled: bool, issues: Issues)

  datatype Event = Create(node: string) | Perform | Crash | Advance(next: string) | Cancel | Restart

  // StartDefaults, WorkDefaults and EndDefaults.
  function StartConfig(c: Setting): Config { Config(IN_PROGRESS, "", c.assignee) }

  function WorkConfig(c: Setting): Config { Config(IN_PROGRESS, IN_PROGRESS, c.assignee) }

  function EndConfig(c: Setting): Config { Config(CLOSED, "", c.assignee) }

  function Calls(c: Setting, act: Activity): seq<Call> {
    match act
    case Prepare => ReopenCalls(c.order)
    case Start => ApplyCalls(c.parent, None, StartConfig(c))
    case Work(n) => if n in c.mailbox then ApplyCalls(c.parent, Some(c.mailbox[n]), WorkConfig(c)) else []
    case Complete(n) => if n in c.mailbox then [CloseCall(c.mailbox[n])] else []
    case End => ApplyCalls(c.parent, None, EndConfig(c))
    case _ => []
  }

  predicate AllThere(c: Setting, issues: Issues) { forall n :: n in c.mailbox ==> c.mailbox[n] in issues }

  predicate Enabled(c: Setting, s: State, e: Event) {
    match e
    case Create(n) => s.act == Ensure && n in c.mailbox && c.mailbox[n] !in s.issues
    case Perform => s.at < |Calls(c, s.act)| && Passes(s.issues, Calls(c, s.act)[s.at])
    case Crash => true
    case Advance(next) =>
      && !s.canceled && s.act != Finished && s.at == |Calls(c, s.act)| && (s.act == Ensure ==> AllThere(c, s.issues))
      && (s.act == Start || s.act.Complete? ==> next == END || next in c.mailbox)
    case Cancel => !s.canceled && s.act != Finished
    case Restart => s.canceled
  }

  function Following(s: State, next: string): Activity {
    match s.act
    case Ensure => if s.attempt > 1 then Prepare else Start
    case Prepare => Start
    case Work(n) => Complete(n)
    case End => Finished
    case _ => if next == END then End else Work(next)
  }

  function Apply(c: Setting, s: State, e: Event): State
    requires Enabled(c, s, e)
  {
    match e
    case Create(n) => s.(issues := s.issues[c.mailbox[n] := Issue(OPEN, "")])
    case Perform => s.(issues := Step(s.issues, Calls(c, s.act)[s.at]), at := s.at + 1)
    case Crash => s.(at := 0)
    case Advance(next) => s.(act := Following(s, next), at := 0)
    case Cancel => s.(canceled := true)
    case Restart => State(s.attempt + 1, Ensure, 0, false, s.issues)
  }

  predicate Initial(c: Setting, s: State) {
    && WellSet(c) && s.attempt == 1 && s.act == Ensure && s.at == 0 && !s.canceled
    && c.parent in s.issues && (s.issues[c.parent].status == OPEN || s.issues[c.parent].status == IN_PROGRESS)
    && BoxesOwned(c, s.issues)
  }

  predicate BoxesOwned(c: Setting, issues: Issues) {
    forall n :: n in c.mailbox && c.mailbox[n] in issues ==> Owned(issues[c.mailbox[n]].status)
  }

  // The next call of the running activity meets a status it does not expect.
  predicate Blocked(c: Setting, s: State) { s.at < |Calls(c, s.act)| && Stuck(s.issues, Calls(c, s.act)[s.at]) }

  /* ---- the invariant ---- */

  function StatusOf(issues: Issues, id: string): Status { if id in issues then issues[id].status else "" }

  function BoxOf(c: Setting, s: State, n: string): Status { if n in c.mailbox then StatusOf(s.issues, c.mailbox[n]) else "" }

  // `ended`: the end configuration of some attempt has closed the parent.
  predicate ParentInv(s: State, parent: Status, ended: bool) {
    && (ended <==> parent == CLOSED)
    && (!ended ==> parent == OPEN || parent == IN_PROGRESS)
    && (s.act.Work? || s.act.Complete? || (s.act == End && !ended) || (s.act == Start && s.at > 0) ==> parent == IN_PROGRESS)
    && ((s.act == End && s.at > 0) || s.act == Finished ==> ended)
    && (ended && s.act != End && s.act != Finished ==> s.attempt > 1)
  }

  predicate BoxInv(c: Setting, s: State) {
    match s.act
    case Work(n) => n in c.mailbox && (s.at > 0 ==> BoxOf(c, s, n) == IN_PROGRESS)
    case Complete(n) => n in c.mailbox && (BoxOf(c, s, n) == IN_PROGRESS || BoxOf(c, s, n) == CLOSED)
    case _ => true
  }

  predicate Inv(c: Setting, s: State, ended: bool) {
    && s.attempt >= 1 && WellSet(c) && c.parent in s.issues && BoxesOwned(c, s.issues) && s.at <= |Calls(c, s.act)|
    && (s.act == Ensure || AllThere(c, s.issues))
    && ParentInv(s, s.issues[c.parent].status, ended)
    && BoxInv(c, s)
  }

  predicate Ends(s: State, e: Event) { e == Perform && s.act == End }

  lemma CallShapes(c: Setting, act: Activity)
    ensures act == Start ==> Calls(c, act) == [Call(c.parent, [OPEN], IN_PROGRESS, "")]
    ensures act == End ==> Calls(c, act) == [Call(c.parent, [OPEN, IN_PROGRESS], CLOSED, "")]
    ensures act.Work? && act.node in c.mailbox ==>
      Calls(c, act) == [Call(c.mailbox[act.node], [OPEN, CLOSED], IN_PROGRESS, c.assignee), Call(c.parent, [OPEN], IN_PROGRESS, "")]
    ensures act.Complete? && act.node in c.mailbox ==> Calls(c, act) == [Call(c.mailbox[act.node], [IN_PROGRESS], CLOSED, "")]
    ensures act == Prepare ==> |Calls(c, act)| == |c.order|
    ensures act == Prepare ==> forall i :: 0 <= i < |c.order| ==> Calls(c, act)[i] == Call(c.order[i], [OPEN, IN_PROGRESS, CLOSED], OPEN, "")
    ensures act == Ensure || act == Finished ==> Calls(c, act) == []
  {
    Words();
    hide OPEN, IN_PROGRESS, CLOSED;
  }

  lemma Words()
    ensures OPEN != "" && IN_PROGRESS != "" && CLOSED != "" && OPEN != IN_PROGRESS && OPEN != CLOSED && IN_PROGRESS != CLOSED
  {
    assert |OPEN| == 4 && |IN_PROGRESS| == 11 && |CLOSED| == 6;
  }

  lemma InitialInv(c: Setting, s: State)
    requires Initial(c, s)
    ensures Inv(c, s, false)
  {
    Words();
    hide OPEN, IN_PROGRESS, CLOSED;
  }

  // In a reachable state a call is refused exactly when a later attempt starts on a
  // parent that an earlier attempt's end configuration had closed.
  lemma BlockedIff(c: Setting, s: State, ended: bool)
    requires Inv(c, s, ended) && s.at < |Calls(c, s.act)|
    ensures Blocked(c, s) <==> s.act == Start && ended
    ensures Passes(s.issues, Calls(c, s.act)[s.at]) <==> !Blocked(c, s)
  {
    Words();
    CallShapes(c, s.act);
    hide OPEN, IN_PROGRESS, CLOSED, Calls;
  }

  lemma CreateInv(c: Setting, s: State, ended: bool, n: string)
    requires Inv(c, s, ended) && Enabled(c, s, Create(n))
    ensures Inv(c, Apply(c, s, Create(n)), ended)
  {
    Words();
    hide OPEN, IN_PROGRESS, CLOSED;
  }

  lemma AdvanceInv(c: Setting, s: State, ended: bool, next: string)
    requires Inv(c, s, ended) && Enabled(c, s, Advance(next))
    ensures Inv(c, Apply(c, s, Advance(next)), ended)
  {
    Words();
    CallShapes(c, s.act);
    hide OPEN, IN_PROGRESS, CLOSED, Calls;
  }

  lemma PerformInv(c: Setting, s: State, ended: bool)
    requires Inv(c, s, ended) && Enabled(c, s, Perform)
    ensures Inv(c, Apply(c, s, Perform), ended || s.act == End)
  {
    Words();
    CallShapes(c, s.act);
    hide OPEN, IN_PROGRESS, CLOSED, Calls;
  }

  lemma StepInv(c: Setting, s: State, e: Event, ended: bool)
    requires Inv(c, s, ended) && Enabled(c, s, e)
    ensures Inv(c, Apply(c, s, e), ended || Ends(s, e))
  {
    match e
    case Create(n) => CreateInv(c, s, ended, n);
    case Perform => PerformInv(c, s, ended);
    case Advance(next) => AdvanceInv(c, s, ended, next);
    case _ =>
      Words();
      hide OPEN, IN_PROGRESS, CLOSED, Calls;
  }

  /* ---- whole runs ---- */

  predicate Run(c: Setting, states: seq<State>, events: seq<Event>) {
    && |states| == |events| + 1 && Initial(c, states[0])
    && forall k :: 0 <= k < |events| ==> Enabled(c, states[k], events[k]) && states[k + 1] == Apply(c, states[k], events[k])
  }

  predicate EndedBefore(states: seq<State>, events: seq<Event>, k: nat)
    requires k <= |events| && |states| == |events| + 1
  {
    exists j :: 0 <= j < k && Ends(states[j], events[j])
  }

  lemma {:induction false} RunInv(c: Setting, states: seq<State>, events: seq<Event>, k: nat)
    requires Run(c, states, events) && k <= |events|
    ensures Inv(c, states[k], EndedBefore(states, events, k))
  {
    hide Inv, Initial, Enabled, Apply;
    if k == 0 {
      InitialInv(c, states[0]);
    } else {
      RunInv(c, states, events, k - 1);
      StepInv(c, states[k - 1], events[k - 1], EndedBefore(states, events, k - 1));
      hide Ends;
      assert EndedBefore(states, events, k) == (EndedBefore(states, events, k - 1) || Ends(states[k - 1], events[k - 1]));
    }
  }

  // On any walk, self-loops and revisits included, and however often activities are
  // repeated, no status conflict arises, except exactly where a restarted attempt
  // starts after the end configuration of an earlier one had closed the parent.
  lemma ConflictsIff(c: Setting, states: seq<State>, events: seq<Event>, k: nat)
    requires Run(c, states, events) && k <= |events|
    ensures Blocked(c, states[k]) <==> states[k].act == Start && EndedBefore(states, events, k)
    ensures Blocked(c, states[k]) ==> states[k].attempt > 1
    ensures states[k].at < |Calls(c, states[k].act)| && !Blocked(c, states[k]) ==> Enabled(c, states[k], Perform)
  {
    RunInv(c, states, events, k);
    var s, ended := states[k], EndedBefore(states, events, k);
    if s.at < |Calls(c, s.act)| {
      BlockedIff(c, s, ended);
    } else {
      Words();
      CallShapes(c, s.act);
    }
    hide EndedBefore, Run, Calls, OPEN, IN_PROGRESS, CLOSED;
  }

  /* ---- the conflict does arise ---- */

  // Some run leads to s; its end configuration took effect or did not.
  ghost predicate Reached(c: Setting, s: State, ended: bool) {
    exists states, events :: |states| == |events| + 1 && Run(c, states, events) && states[|events|] == s && EndedBefore(states, events, |events|) == ended
  }

  lemma ReachedInv(c: Setting, s: State, ended: bool)
    requires Reached(c, s, ended)
    ensures Inv(c, s, ended)
  {
    hide Inv, Run, EndedBefore;
    var states, events :| |states| == |events| + 1 && Run(c, states, events) && states[|events|] == s && EndedBefore(states, events, |events|) == ended;
    RunInv(c, states, events, |events|);
  }

  lemma ReachedNext(c: Setting, s: State, e: Event, ended: bool)
    requires Reached(c, s, ended) && Enabled(c, s, e)
    ensures Reached(c, Apply(c, s, e), ended || Ends(s, e))
  {
    hide Enabled, Apply, Initial, Ends;
    var states, events :| |states| == |events| + 1 && Run(c, states, events) && states[|events|] == s && EndedBefore(states, events, |events|) == ended;
    var more, then_ := events + [e], states + [Apply(c, s, e)];
    forall k | 0 <= k < |more|
      ensures Enabled(c, then_[k], more[k]) && then_[k + 1] == Apply(c, then_[k], more[k])
    {
      if k < |events| { assert then_[k] == states[k] && then_[k + 1] == states[k + 1]; }
    }
    assert Run(c, then_, more);
    EndedSnoc(states, events, Apply(c, s, e), e);
  }

  lemma EndedSnoc(states: seq<State>, events: seq<Event>, s: State, e: Event)
    requires |states| == |events| + 1
    ensures EndedBefore(states + [s], events + [e], |events| + 1) <==> EndedBefore(states, events, |events|) || Ends(states[|events|], e)
  {
    hide Ends;
    var then_, more := states + [s], events + [e];
    if EndedBefore(states, events, |events|) {
      var j :| 0 <= j < |events| && Ends(states[j], events[j]);
      assert Ends(then_[j], more[j]);
    }
    if Ends(states[|events|], e) { assert Ends(then_[|events|], more[|events|]); }
  }

  // A fresh ticket whose mailboxes are there.
  function Ready(c: Setting): State {
    State(1, Ensure, 0, false, map id | id in c.mailbox.Values + {c.parent} :: Issue(OPEN, ""))
  }

  lemma ReadyReached(c: Setting)
    requires WellSet(c)
    ensures Reached(c, Ready(c), false) && AllThere(c, Ready(c).issues)
  {
    assert Run(c, [Ready(c)], []);
    assert !EndedBefore([Ready(c)], [], 0);
  }

  // Every setting has a run that gets to its end configuration: start leads there.
  lemma EndReached(c: Setting) returns (s: State)
    requires WellSet(c)
    ensures Reached(c, s, false) && s.act == End && s.at == 0 && !s.canceled
  {
    ReadyReached(c);
    s := Ready(c);
    CallShapes(c, Ensure);
    CallShapes(c, Start);
    hide Calls, WellSet, Reached, AllThere;
    ReachedNext(c, s, Advance(END), false);
    s := Apply(c, s, Advance(END));
    ReachedInv(c, s, false);
    BlockedIff(c, s, false);
    hide Inv;
    ReachedNext(c, s, Perform, false);
    s := Apply(c, s, Perform);
    ReachedNext(c, s, Advance(END), false);
    s := Apply(c, s, Advance(END));
  }

  // Reopening the mailboxes is never refused.
  lemma {:induction false} Reopened(c: Setting, s: State, ended: bool) returns (t: State)
    requires Reached(c, s, ended) && s.act == Prepare && s.at <= |Calls(c, Prepare)|
    ensures Reached(c, t, ended) && t.act == Prepare && t.at == |Calls(c, Prepare)| && t.canceled == s.canceled && t.attempt == s.attempt
    decreases |Calls(c, Prepare)| - s.at
  {
    hide Calls, Reached, Step, Passes;
    if s.at == |Calls(c, Prepare)| {
      t := s;
    } else {
      ReachedInv(c, s, ended);
      BlockedIff(c, s, ended);
      hide Inv, Blocked;
      ReachedNext(c, s, Perform, ended);
      t := Reopened(c, Apply(c, s, Perform), ended);
    }
  }

  // After the end configuration: cancel, restart, and the new attempt gets to its
  // start, where it is stuck.
  lemma StuckAfter(c: Setting, s: State) returns (t: State)
    requires Reached(c, s, true) && s.act == End && !s.canceled
    ensures Reached(c, t, true) && t.act == Start && t.attempt == s.attempt + 1 && Blocked(c, t)
  {
    ReachedInv(c, s, true);
    CallShapes(c, Ensure);
    hide Calls, Reached, Inv, Blocked;
    ReachedNext(c, s, Cancel, true);
    t := Apply(c, s, Cancel);
    ReachedNext(c, t, Restart, true);
    t := Apply(c, t, Restart);
    EndThere(c, s, true);
    ReachedNext(c, t, Advance(END), true);
    t := Reopened(c, Apply(c, t, Advance(END)), true);
    assert Enabled(c, t, Advance(END));
    ReachedNext(c, t, Advance(END), true);
    t := Apply(c, t, Advance(END));
    ReachedInv(c, t, true);
    CallShapes(c, Start);
    BlockedIff(c, t, true);
  }

  lemma EndThere(c: Setting, s: State, ended: bool)
    requires Inv(c, s, ended) && s.act == End
    ensures AllThere(c, s.issues) && s.attempt >= 1
  {
    hide Calls, AllThere, BoxInv, ParentInv;
  }

  // Every setting has a run that ends with a conflict: a restart stuck at its start.
  lemma RestartStuck(c: Setting)
    requires WellSet(c)
    ensures exists states: seq<State>, events: seq<Event> :: Run(c, states, events) && Blocked(c, states[|events|]) && states[|events|].attempt > 1
  {
    hide Run, Blocked, Inv, Calls;
    var s := EndReached(c);
    ReachedInv(c, s, false);
    BlockedIff(c, s, false) by { CallShapes(c, End); }
    CallShapes(c, End);
    ReachedNext(c, s, Perform, false);
    EndAttempt(c, s, false);
    var t := StuckAfter(c, Apply(c, s, Perform));
    hide EndedBefore;
    var states, events :| |states| == |events| + 1 && Run(c, states, events) && states[|events|] == t && EndedBefore(states, events, |events|) == true;
  }

  lemma EndAttempt(c: Setting, s: State, ended: bool)
    requires Inv(c, s, ended)
    ensures s.attempt >= 1
  {
  }
}
