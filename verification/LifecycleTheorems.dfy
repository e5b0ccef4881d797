/** The promises of the attempt machine, in every run of it. */
module LifecycleTheorems {
  import opened Base
  import opened Projection
  import opened Lifecycle
  import opened LifecycleInv
  import opened LifecycleSeal

  // At most one attempt is unfinished and it is the newest; while it is, the stored
  // definition is the one its execution runs.
  lemma OneUnfinished(es: seq<Event>)
    ensures var s := Run(es);
            && (forall a, b :: a in s.rows && b in s.rows && !Terminal(s.rows[a].state) && !Terminal(s.rows[b].state) ==> a == b)
            && (forall a, b :: a in s.rows && b in s.rows && !Terminal(s.rows[a].state) ==> b <= a)
            && (forall a :: a in s.rows && !Terminal(s.rows[a].state) ==>
                  s.def.Some? && (a in s.insts ==> s.insts[a].def == s.def.value))
  {
    hide Run, OpFits, Noticed, Requests, Reasons, Cleanups, Labels, Executions, Credited, Numbers;
    Invariant(es);
  }

  // A completed run was completed by an execution without a cancel event in its
  // history; a canceled one has left the marker on its parent.
  lemma TerminalMeans(es: seq<Event>, a: nat)
    requires a in Run(es).rows
    ensures var s := Run(es);
            && (s.rows[a].state == Completed ==> a in s.book.completer && s.book.completer[a] !in s.book.struck)
            && (s.rows[a].state == Canceled ==> s.notes != [])
  {
    hide Run, OpFits, Ordered, Requests, Reasons, Cleanups, Labels, Current, Executions, Numbers;
    Invariant(es);
  }

  // An execution that completed a run does not get a cancel event later either.
  lemma CompleterClean(es: seq<Event>, e: Event, a: nat)
    requires a in Run(es).rows && Run(es).rows[a].state == Completed && a in Step(Run(es), e).rows
    ensures a in Run(es).book.completer && Run(es).book.completer[a] !in Step(Run(es), e).book.struck
  {
    Invariant(es);
    InvStep(Run(es), e);
    var s, t := Run(es), Step(Run(es), e);
    RowsUntouched(s, e, a);
    CompleterStays(s, e, a);
    hide Run, Step, OpFits, Ordered, Requests, Reasons, Cleanups, Labels, Current, Executions, Numbers, Noticed;
  }

  predicate SameCompleter(s: State, t: State, a: nat) {
    a in s.book.completer ==> a in t.book.completer && t.book.completer[a] == s.book.completer[a]
  }

  lemma ActedCompleter(s: State, c: Cancel, a: nat)
    requires a in s.rows && s.rows[a].state == Completed
    ensures SameCompleter(s, Acted(s, c), a)
  {
    hide Settle;
  }

  lemma RequestCompleter(s: State, e: Event, a: nat)
    requires a in s.rows && s.rows[a].state == Completed && (e.Continue? || e.CancelRun? || e.Reconcile? || e.Drop?)
    ensures SameCompleter(s, Step(s, e), a)
  {
    if e.Continue? && e.id in s.cancels { ActedCompleter(s, s.cancels[e.id], a); }
    hide Acted, After, Claimed;
  }

  lemma ExecutionCompleter(s: State, e: Event, a: nat)
    requires a in s.rows && s.rows[a].state == Completed
    requires e.Progress? || e.WriteCompleted? || e.FinishRun? || e.Fail? || e.Deliver? || e.LoadReason? || e.NoteList? || e.NoteWrite? || e.WriteCanceled?
    ensures SameCompleter(s, Step(s, e), a)
  {
    hide Put;
  }

  lemma GatedCompleter(s: State, e: Event, a: nat)
    requires e.Poll? || e.Restart? || e.Proceed? || e.Submit? || e.Remove? || e.Crash? || e.Sweep? || e.Tick? || e.Snapshot?
    ensures SameCompleter(s, Step(s, e), a)
  {
    hide Expired, Restartable, Maximal, AllTerminal, Unlisted, Active;
  }

  // Who completed a run is settled once.
  lemma CompleterStays(s: State, e: Event, a: nat)
    requires a in s.rows && s.rows[a].state == Completed
    ensures SameCompleter(s, Step(s, e), a)
  {
    hide Step, SameCompleter;
    if e.Continue? || e.CancelRun? || e.Reconcile? || e.Drop? {
      RequestCompleter(s, e, a);
    } else if e.Poll? || e.Restart? || e.Proceed? || e.Submit? || e.Remove? || e.Crash? || e.Sweep? || e.Tick? || e.Snapshot? {
      GatedCompleter(s, e, a);
    } else {
      ExecutionCompleter(s, e, a);
    }
  }

  /* ---- terminal states ---- */

  // How a row may be replaced.
  predicate Final(was: RunRow, now: RunRow) {
    && (Terminal(was.state) ==> now.state == was.state)
    && (was.state == Canceling ==> (now.state == Canceling && now.lastError == was.lastError) || Terminal(now.state))
  }

  // Completed and canceled are final, and a canceling run keeps its reason until it
  // becomes one of them.
  lemma TerminalFinal(es: seq<Event>, e: Event, a: nat)
    requires a in Run(es).rows && a in Step(Run(es), e).rows
    ensures Final(Run(es).rows[a], Step(Run(es), e).rows[a])
  {
    Invariant(es);
    hide Run, Inv;
    RowsUntouched(Run(es), e, a);
  }

  lemma SameFinal(r: RunRow)
    ensures Final(r, r)
  {
  }

  lemma PutFinal(s: State, a: nat, b: nat, state: RunState, text: string, finished: Option<nat>)
    requires state != Starting && state != Canceling && b in s.rows
    ensures b in Put(s, a, state, text, finished) && Final(s.rows[b], Put(s, a, state, text, finished)[b])
  {
  }

  lemma ActedFinal(s: State, c: Cancel, b: nat)
    requires b in s.rows
    ensures b in Acted(s, c).rows && Final(s.rows[b], Acted(s, c).rows[b])
  {
  }

  lemma ClaimFinal(r: RunRow, reason: string)
    ensures Final(r, Claimed(r, reason))
  {
  }

  lemma ExecutionFinal(s: State, e: Event, a: nat)
    requires a in s.rows && (e.Progress? || e.WriteCompleted? || e.WriteCanceled?)
    ensures a in Step(s, e).rows && Final(s.rows[a], Step(s, e).rows[a])
  {
    SameFinal(s.rows[a]);
    hide Put, Final;
    match e
    case Progress(b, state, message) =>
      if state == RunState.Running || state == Waiting || state == Blocked { PutFinal(s, b, a, state, message, None); }
    case WriteCompleted(b, recorded) => PutFinal(s, b, a, Completed, "", Some(s.clock));
    case WriteCanceled(b, recorded) => PutFinal(s, b, a, Canceled, "", Some(s.clock));
    case _ =>
  }

  lemma RequestFinal(s: State, e: Event, a: nat)
    requires a in s.rows && (e.Continue? || e.CancelRun?)
    ensures a in Step(s, e).rows && Final(s.rows[a], Step(s, e).rows[a])
  {
    SameFinal(s.rows[a]);
    if e.Continue? && e.id in s.cancels { ActedFinal(s, s.cancels[e.id], a); }
    if e.CancelRun? { ClaimFinal(s.rows[a], e.reason); }
    hide Acted, After, Final, Claimed;
  }

  lemma RowsUntouched(s: State, e: Event, a: nat)
    requires Inv(s) && a in s.rows && a in Step(s, e).rows
    ensures Final(s.rows[a], Step(s, e).rows[a])
  {
    hide Inv;
    SameFinal(s.rows[a]);
    if e.Progress? || e.WriteCompleted? || e.WriteCanceled? {
      ExecutionFinal(s, e, a);
    } else if e.Continue? || e.CancelRun? {
      RequestFinal(s, e, a);
    } else {
      OthersFinal(s, e, a);
    }
    hide Step, Final;
  }

  lemma OthersFinal(s: State, e: Event, a: nat)
    requires a in s.rows && a in Step(s, e).rows
    requires !e.Progress? && !e.WriteCompleted? && !e.WriteCanceled? && !e.Continue? && !e.CancelRun?
    ensures Step(s, e).rows[a] == s.rows[a]
  {
    hide Expired, Restartable, Newest, Maximal, AllTerminal, Unlisted, Active;
  }

  /* ---- polls and restarts ---- */

  // A poll that begins once the logical run is canceled, completed or being canceled
  // begins no other execution, even after its rows were swept.
  lemma PollsStaySilent(es: seq<Event>, seen: bool)
    requires var s := Run(es); (forall a :: a in s.rows ==> !Active(s.rows[a])) && (s.rows != map[] || s.notes != [])
    ensures PollStep(Run(es), seen) == Run(es)
  {
    Invariant(es);
    hide Run, OpFits, Ordered, Requests, Reasons, Cleanups, Noticed, Current, Executions, Credited, Numbers;
  }

  // A restart is accepted only for a canceled run with nothing unfinished, and its
  // attempt number exceeds every retained one.
  lemma RestartExceeds(es: seq<Event>)
    requires RestartStep(Run(es)) != Run(es)
    ensures var s, r := Run(es), RestartStep(Run(es));
            && r.op.Ensuring? && (forall b :: b in s.rows ==> b < r.op.a && Terminal(s.rows[b].state))
            && exists b :: b in s.rows && s.rows[b].state == Canceled
  {
    Invariant(es);
    hide Run, OpFits, Requests, Reasons, Cleanups, Noticed, Current, Executions, Labels, Credited, Numbers;
    NewestTerminal(Run(es).rows, Run(es).clock);
  }

  /* ---- which operations create an execution ---- */

  // The gated operation has read attempt a's row active, or inserted it, and has not
  // yet created its execution.
  predicate Holds(op: Op, a: nat, d: Def) { op == Looking(a, d) || op == Creating(a, d) }

  ghost predicate Held(es: seq<Event>, k: nat, a: nat, d: Def) { forall j :: k <= j <= |es| ==> Holds(Run(es[..j]).op, a, d) }

  lemma HeldLonger(es: seq<Event>, k: nat, a: nat, d: Def)
    requires es != [] && Held(es[..|es| - 1], k, a, d) && Holds(Run(es).op, a, d)
    ensures Held(es, k, a, d)
  {
    hide Run, Holds;
    var front := es[..|es| - 1];
    forall j | k <= j <= |es|
      ensures Holds(Run(es[..j]).op, a, d)
    {
      if j < |es| { assert es[..j] == front[..j]; } else { assert es[..j] == es; }
    }
  }

  // An execution is created only by an operation that read its run active, or inserted
  // it, and held the gate since. (What may happen to the run in between is what
  // LifecycleSeal is about.)
  lemma {:induction false} CreatedActive(es: seq<Event>, a: nat, d: Def) returns (k: nat)
    requires Holds(Run(es).op, a, d)
    ensures k <= |es| && a in Run(es[..k]).rows && Active(Run(es[..k]).rows[a]) && Held(es, k, a, d)
    decreases |es|
  {
    hide Run, Step, Inv, INITIAL, Held, Active, Holds;
    LastStep(es, a, d);
    var front := es[..|es| - 1];
    if Holds(Run(front).op, a, d) {
      k := CreatedActive(front, a, d);
      HeldLonger(es, k, a, d);
      assert es[..k] == front[..k];
    } else {
      Invariant(front);
      EntersActive(Run(front), es[|es| - 1], a, d);
      k := |es|;
      assert es[..k] == es;
      HeldNow(es, a, d);
    }
  }

  lemma HeldNow(es: seq<Event>, a: nat, d: Def)
    requires Holds(Run(es).op, a, d)
    ensures Held(es, |es|, a, d)
  {
    hide Run;
    assert es[..|es|] == es;
  }

  lemma LastStep(es: seq<Event>, a: nat, d: Def)
    requires Holds(Run(es).op, a, d)
    ensures es != [] && Run(es) == Step(Run(es[..|es| - 1]), es[|es| - 1])
  {
    hide Step;
  }

  lemma EntersActive(s: State, e: Event, a: nat, d: Def)
    requires Inv(s) && !Holds(s.op, a, d) && Holds(Step(s, e).op, a, d)
    ensures e == Proceed && a in Step(s, e).rows && Active(Step(s, e).rows[a])
  {
    OpMoves(s, e);
    hide Ordered, Requests, Reasons, Cleanups, Noticed, Current, Executions, Labels, Credited, Numbers, Step;
    assert e == Proceed ==> Step(s, e) == ProceedStep(s) by { ProceedIs(s); }
  }

  lemma ProceedIs(s: State)
    ensures Step(s, Proceed) == ProceedStep(s)
  {
    hide ProceedStep;
  }

  lemma OpMoves(s: State, e: Event)
    ensures e == Proceed || Step(s, e).op == s.op || Step(s, e).op.Free? || Step(s, e).op.Ensuring? || Step(s, e).op.Claiming?
  {
    if e.Continue? && e.id in s.cancels { ActedOp(s, s.cancels[e.id]); }
    hide Acted, After, Restartable, Maximal, Expired, Put, Claimed, Unlisted, AllTerminal, ProceedStep;
  }

  lemma ActedOp(s: State, c: Cancel)
    ensures Acted(s, c).op == s.op
  {
    hide Settle;
  }
}
