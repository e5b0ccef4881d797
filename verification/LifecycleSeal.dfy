/** When a run that is over is left with an execution of its own at work: exactly when
    the gated operation goes on to create one for a run that has been, or is bound to
    be, marked canceled or completed. */
module LifecycleSeal {
  import opened Base
  import opened Projection
  import opened Lifecycle
  import opened LifecycleInv

  // A request has decided, and is going to mark attempt a.
  predicate Finishing(c: Cancel, a: nat) { (c.Effects? || c.Writing? || c.Mark? || c.Conclude?) && c.a == a }

  predicate Settling(cancels: map<nat, Cancel>, a: nat) { exists id :: id in cancels && Finishing(cancels[id], a) }

  predicate Settled(rows: map<nat, RunRow>, a: nat) { a in rows && Terminal(rows[a].state) }

  // The row is over because of this very execution: it completed the run, or it was
  // canceled with it.
  predicate Own(rows: map<nat, RunRow>, book: Book, a: nat, i: Inst)
    requires a in rows
  {
    && (rows[a].state == Completed ==> a in book.completer && book.completer[a] == i.serial)
    && (rows[a].state == Canceled ==> i.canceled)
  }

  // The gated operation looked for a live execution of attempt a and found none.
  predicate Creates(op: Op, a: nat) { op.Creating? && op.a == a }

  // The run is over, or bound to be, and still has or gets an execution that does not
  // belong to that end.
  predicate Doomed(s: State, a: nat) {
    || (Settling(s.cancels, a) && (Alive(s.insts, a) || Creates(s.op, a)))
    || (Settled(s.rows, a) && (Creates(s.op, a) || (Alive(s.insts, a) && !Own(s.rows, s.book, a, s.insts[a]))))
  }

  // A run that is over, with an execution at work that nothing has canceled and that
  // did not complete it.
  predicate Orphan(s: State, a: nat) {
    && Settled(s.rows, a) && Alive(s.insts, a) && !s.insts[a].canceled
    && !(s.rows[a].state == Completed && a in s.book.completer && s.book.completer[a] == s.insts[a].serial)
  }

  // The request's next call shows it no live execution and decides.
  predicate Decides(s: State, c: Cancel, a: nat) {
    !Finishing(c, a) && After(s, c).Some? && Finishing(After(s, c).value, a)
  }

  // The two steps that overtake attempt a: a request decides while the gated operation
  // is about to create an execution; or the operation, which read the row active, finds
  // no live execution when the row is over or a request has decided.
  predicate Overtakes(s: State, e: Event, a: nat) {
    || (e.Continue? && e.id in s.cancels && Decides(s, s.cancels[e.id], a) && Creates(s.op, a))
    || (e.Proceed? && s.op.Looking? && s.op.a == a && !Alive(s.insts, a) && (Settled(s.rows, a) || Settling(s.cancels, a)))
  }

  /* ---- the steps ---- */

  // Ends that belong to a live execution still do.
  predicate StillOwn(s: State, r: State, a: nat) {
    Settled(r.rows, a) && Alive(r.insts, a) ==>
      Alive(s.insts, a) && (Settled(s.rows, a) && Own(s.rows, s.book, a, s.insts[a]) ==> Own(r.rows, r.book, a, r.insts[a]))
  }

  // What a step may do without dooming attempt a.
  predicate Kept(s: State, r: State, a: nat) {
    && (Settling(r.cancels, a) ==> Settling(s.cancels, a)) && (Settled(r.rows, a) ==> Settled(s.rows, a))
    && (Creates(r.op, a) ==> Creates(s.op, a)) && (Alive(r.insts, a) ==> Alive(s.insts, a)) && StillOwn(s, r, a)
  }

  lemma KeptSafe(s: State, r: State, a: nat)
    requires Kept(s, r, a) && !Doomed(s, a)
    ensures !Doomed(r, a)
  {
    hide Settling, Own, Creates;
  }

  lemma PollSafe(s: State, seen: bool, a: nat)
    requires !Doomed(s, a)
    ensures !Doomed(PollStep(s, seen), a)
  {
    var r := PollStep(s, seen);
    assert r == s.(op := r.op) && (r.op == s.op || !r.op.Creating?);
    hide Settling;
    KeptSafe(s, r, a);
  }

  lemma RestartSafe(s: State, a: nat)
    requires !Doomed(s, a)
    ensures !Doomed(RestartStep(s), a)
  {
    hide Restartable, Maximal, Settling;
    KeptSafe(s, RestartStep(s), a);
  }

  // A request that has decided knows of a claim.
  lemma SettlingPast(s: State, a: nat)
    requires Inv(s) && Settling(s.cancels, a)
    ensures a in s.rows && Past(s.rows, s.book, a)
  {
    hide Ordered, OpFits, Current, Executions, Noticed, Reasons, Cleanups, Labels, Credited, Numbers;
    var id :| id in s.cancels && Finishing(s.cancels[id], a);
    assert CancelFits(s.cancels[id], s.rows, s.notes, s.book);
  }

  lemma ProceedSafe(s: State, a: nat)
    requires Inv(s) && !Doomed(s, a) && !Overtakes(s, Proceed, a)
    ensures !Doomed(ProceedStep(s), a)
  {
    hide Ordered, Current, Executions, Noticed, Reasons, Cleanups, Labels, Requests, Credited, Numbers;
    if Settling(s.cancels, a) { SettlingPast(s, a); }
    hide Inv, Settling, Past;
  }

  // While an execution is alive no operation is about to create another.
  lemma AliveFree(s: State, a: nat)
    requires Inv(s) && Alive(s.insts, a)
    ensures !Creates(s.op, a)
  {
    hide Ordered, Current, Executions, Noticed, Reasons, Cleanups, Labels, Requests, Credited, Numbers;
  }

  lemma StagedSafe(s: State, b: nat, stage: Stage, a: nat)
    requires !Doomed(s, a) && Alive(s.insts, b)
    ensures !Doomed(Staged(s, b, stage), a)
  {
    hide Settling, Creates, Settled;
    KeptSafe(s, Staged(s, b, stage), a);
  }

  lemma DeliverSafe(s: State, b: nat, a: nat)
    requires !Doomed(s, a)
    ensures !Doomed(DeliverStep(s, b), a)
  {
    hide Settling, Creates, Settled;
    KeptSafe(s, DeliverStep(s, b), a);
  }

  // Books and markers play no part.
  lemma NotesSafe(s: State, r: State, a: nat)
    requires !Doomed(s, a) && r.rows == s.rows && r.insts == s.insts && r.op == s.op && r.cancels == s.cancels
    requires r.book.completer == s.book.completer
    ensures !Doomed(r, a)
  {
    hide Settling, Creates, Settled;
  }

  // A step of an execution that changes neither its end nor its row's.
  lemma InstSafe(s: State, e: Event, a: nat)
    requires !Doomed(s, a)
    requires e.FinishRun? || e.Fail? || e.LoadReason? || e.NoteList? || e.NoteWrite?
    ensures !Doomed(Step(s, e), a)
  {
    hide Doomed;
    match e
    case FinishRun(b) => if Alive(s.insts, b) { StagedSafe(s, b, Finished, a); }
    case Fail(b) => if Alive(s.insts, b) { StagedSafe(s, b, Finished, a); }
    case LoadReason(b) =>
      if Alive(s.insts, b) && b in s.rows {
        StagedSafe(s, b, Cleaning(s.rows[b].lastError, false), a);
        if s.insts[b].stage == Reading { NotesSafe(Staged(s, b, Cleaning(s.rows[b].lastError, false)), LoadReasonStep(s, b), a); }
      }
    case NoteList(b, recorded) => NoteListSafe(s, b, recorded, a);
    case NoteWrite(b, wrote, recorded) => NoteWriteSafe(s, b, wrote, recorded, a);
    case _ =>
  }

  lemma NoteListSafe(s: State, b: nat, recorded: bool, a: nat)
    requires !Doomed(s, a)
    ensures !Doomed(NoteListStep(s, b, recorded), a)
  {
    hide Doomed;
    if Alive(s.insts, b) && s.insts[b].stage.Cleaning? {
      var r := s.insts[b].stage.reason;
      StagedSafe(s, b, if s.notes == [] then Cleaning(r, true) else if recorded then Marked else Cleaning(r, false), a);
    }
  }

  lemma NoteWriteSafe(s: State, b: nat, wrote: bool, recorded: bool, a: nat)
    requires !Doomed(s, a)
    ensures !Doomed(NoteWriteStep(s, b, wrote, recorded), a)
  {
    hide Doomed;
    if Alive(s.insts, b) && s.insts[b].stage.Cleaning? {
      var r := s.insts[b].stage.reason;
      var t := if wrote then s.(notes := s.notes + [Note(b, r)]) else s;
      NotesSafe(s, t, a);
      StagedSafe(t, b, if wrote && recorded then Marked else Cleaning(r, false), a);
    }
  }

  lemma ProgressSafe(s: State, b: nat, state: RunState, message: string, a: nat)
    requires !Doomed(s, a)
    ensures !Doomed(ProgressStep(s, b, state, message), a)
  {
    hide Settling;
    KeptSafe(s, ProgressStep(s, b, state, message), a);
  }

  // The row of an execution's own attempt ends, in a way that belongs to it.
  lemma PutSafe(s: State, b: nat, state: RunState, finished: Option<nat>, book: Book, a: nat)
    requires !Doomed(s, a) && Alive(s.insts, b) && !Creates(s.op, b) && (state == Completed || state == Canceled)
    requires forall c :: c in s.book.completer && c != b ==> c in book.completer && book.completer[c] == s.book.completer[c]
    requires b in s.rows && Settled(s.rows, b) ==> book == s.book
    requires b in s.rows && !Settled(s.rows, b) ==> Settled(Put(s, b, state, "", finished), b) ==> Own(Put(s, b, state, "", finished), book, b, s.insts[b])
    ensures !Doomed(s.(rows := Put(s, b, state, "", finished), book := book), a)
  {
    hide Settling, Creates;
    var r := s.(rows := Put(s, b, state, "", finished), book := book);
    if b != a { KeptSafe(s, r, a); }
  }

  lemma WriteCompletedSafe(s: State, b: nat, recorded: bool, a: nat)
    requires Inv(s) && !Doomed(s, a)
    ensures !Doomed(WriteCompletedStep(s, b, recorded), a)
  {
    if b in s.insts && s.insts[b].stage == Working {
      AliveFree(s, b);
      RowOf(s, b);
      hide Inv, Doomed, Creates, InstFits, CleanupFits;
      var book := if Active(s.rows[b]) then s.book.(completer := s.book.completer[b := s.insts[b].serial]) else s.book;
      PutSafe(s, b, Completed, Some(s.clock), book, a);
      var t := s.(rows := Put(s, b, Completed, "", Some(s.clock)), book := book);
      if recorded { StagedSafe(t, b, Closing, a); }
    }
  }

  lemma WriteCanceledSafe(s: State, b: nat, recorded: bool, a: nat)
    requires Inv(s) && !Doomed(s, a)
    ensures !Doomed(WriteCanceledStep(s, b, recorded), a)
  {
    if b in s.insts && s.insts[b].stage == Marked {
      AliveFree(s, b);
      RowOf(s, b);
      assert s.insts[b].canceled && !Active(s.rows[b]);
      hide Inv, Doomed, Creates, InstFits, CleanupFits;
      PutSafe(s, b, Canceled, Some(s.clock), s.book, a);
      var t := s.(rows := Put(s, b, Canceled, "", Some(s.clock)));
      if recorded { StagedSafe(t, b, Finished, a); }
    }
  }

  lemma RequestSafe(s: State, e: Event, a: nat)
    requires !Doomed(s, a) && (e.CancelRun? || e.Reconcile? || e.Drop?)
    ensures !Doomed(Step(s, e), a)
  {
    KeptSafe(s, Step(s, e), a);
  }

  // A decision is made without a live execution.
  lemma DecidesDead(s: State, c: Cancel, a: nat)
    requires Decides(s, c, a)
    ensures !Alive(s.insts, a) && Acted(s, c).insts == s.insts && Acted(s, c).op == s.op && Acted(s, c).rows == s.rows
  {
  }

  lemma ActedKept(s: State, c: Cancel, a: nat)
    requires !Finishing(c, a)
    ensures var t := Acted(s, c);
            && t.op == s.op && (Alive(t.insts, a) <==> Alive(s.insts, a)) && (Settled(t.rows, a) <==> Settled(s.rows, a))
            && (Settled(s.rows, a) && Alive(s.insts, a) ==> (Own(t.rows, t.book, a, t.insts[a]) <==> Own(s.rows, s.book, a, s.insts[a])))
  {
  }

  lemma FinishingDead(s: State, id: nat, a: nat)
    requires id in s.cancels && Finishing(s.cancels[id], a) && !Doomed(s, a)
    ensures var t := Acted(s, s.cancels[id]); !Alive(t.insts, a) && !Creates(t.op, a)
  {
    assert Settling(s.cancels, a);
    hide Settling, Settled, Own;
  }

  lemma ContinueSafe(s: State, id: nat, a: nat)
    requires !Doomed(s, a) && !Overtakes(s, Continue(id), a)
    ensures !Doomed(ContinueStep(s, id), a)
  {
    if id in s.cancels {
      var c, r := s.cancels[id], ContinueStep(s, id);
      if Finishing(c, a) {
        FinishingDead(s, id, a);
      } else if Decides(s, c, a) {
        DecidesDead(s, c, a);
      } else {
        ActedKept(s, c, a);
        LeftSettling(s.cancels, id, After(s, c), a);
      }
      hide Acted, After, Settling, Settled, Own, Decides;
    }
  }

  lemma LeftSettling(cancels: map<nat, Cancel>, id: nat, next: Option<Cancel>, a: nat)
    requires next.Some? ==> !Finishing(next.value, a)
    ensures Settling(if next.Some? then cancels[id := next.value] else cancels - {id}, a) ==> Settling(cancels, a)
  {
  }

  lemma OtherSafe(s: State, e: Event, a: nat)
    requires !Doomed(s, a) && (e.Tick? || e.Snapshot? || e.Submit? || e.Remove? || e.Crash? || e.Sweep?)
    ensures !Doomed(Step(s, e), a)
  {
    hide Expired, AllTerminal;
    KeptSafe(s, Step(s, e), a);
  }

  // Nothing else dooms an attempt.
  lemma StepSafe(s: State, e: Event, a: nat)
    requires Inv(s) && !Doomed(s, a) && !Overtakes(s, e, a)
    ensures !Doomed(Step(s, e), a)
  {
    hide Inv, Doomed, Overtakes, PollStep, RestartStep, ProceedStep, WriteCanceledStep, WriteCompletedStep, ContinueStep, ProgressStep;
    match e
    case Poll(seen) => PollSafe(s, seen, a);
    case Restart => RestartSafe(s, a);
    case Proceed => ProceedSafe(s, a);
    case Progress(b, state, message) => ProgressSafe(s, b, state, message, a);
    case WriteCompleted(b, recorded) => WriteCompletedSafe(s, b, recorded, a);
    case FinishRun(_) => InstSafe(s, e, a);
    case Fail(_) => InstSafe(s, e, a);
    case Deliver(b) => DeliverSafe(s, b, a);
    case LoadReason(_) => InstSafe(s, e, a);
    case NoteList(_, _) => InstSafe(s, e, a);
    case NoteWrite(_, _, _) => InstSafe(s, e, a);
    case WriteCanceled(b, recorded) => WriteCanceledSafe(s, b, recorded, a);
    case CancelRun(_, _, _) => RequestSafe(s, e, a);
    case Reconcile(_, _) => RequestSafe(s, e, a);
    case Drop(_) => RequestSafe(s, e, a);
    case Continue(id) => ContinueSafe(s, id, a);
    case _ => OtherSafe(s, e, a);
  }

  /* ---- runs ---- */

  // No step of the run from event k on overtakes attempt a.
  ghost predicate Undisturbed(es: seq<Event>, k: nat, a: nat) {
    forall j :: k <= j < |es| ==> !Overtakes(Run(es[..j]), es[j], a)
  }

  lemma RunSnoc(es: seq<Event>, e: Event)
    ensures Run(es + [e]) == Step(Run(es), e)
  {
    hide Step;
    assert (es + [e])[..|es|] == es;
  }

  lemma UndisturbedFront(es: seq<Event>, e: Event, k: nat, a: nat)
    requires k <= |es|
    ensures Undisturbed(es + [e], k, a) <==> Undisturbed(es, k, a) && !Overtakes(Run(es), e, a)
  {
    hide Run, Overtakes;
    var whole := es + [e];
    assert whole[..|es|] == es && forall j :: k <= j < |es| ==> whole[..j] == es[..j] && whole[j] == es[j];
    if Undisturbed(whole, k, a) {
      forall j | k <= j < |es|
        ensures !Overtakes(Run(es[..j]), es[j], a)
      {
        assert !Overtakes(Run(whole[..j]), whole[j], a);
      }
      assert !Overtakes(Run(whole[..|es|]), whole[|es|], a);
    }
  }

  // A run that was safe after k events and is not overtaken after that stays safe.
  lemma {:induction false} RunSafe(es: seq<Event>, k: nat, a: nat)
    requires k <= |es| && !Doomed(Run(es[..k]), a) && Undisturbed(es, k, a)
    ensures !Doomed(Run(es), a)
    decreases |es|
  {
    hide Run, Step, Doomed, Overtakes, Undisturbed;
    if k == |es| {
      assert es[..k] == es;
    } else {
      var front, e := es[..|es| - 1], es[|es| - 1];
      assert es == front + [e] && front[..k] == es[..k];
      UndisturbedFront(front, e, k, a);
      RunSafe(front, k, a);
      Invariant(front);
      StepSafe(Run(front), e, a);
      RunSnoc(front, e);
    }
  }

  lemma StartSafe(a: nat)
    ensures !Doomed(Run([]), a)
  {
  }

  lemma UndisturbedSafe(es: seq<Event>, a: nat)
    requires Undisturbed(es, 0, a)
    ensures !Doomed(Run(es), a)
  {
    hide Run, Doomed, Undisturbed;
    assert es[..0] == [];
    StartSafe(a);
    RunSafe(es, 0, a);
  }

  // While attempt a is not overtaken: once its row is canceled or completed, its live
  // execution is the one that was canceled or that completed it, and no operation is
  // about to create another.
  lemma SettledSealed(es: seq<Event>, a: nat)
    requires Undisturbed(es, 0, a) && a in Run(es).rows && Terminal(Run(es).rows[a].state)
    ensures var s := Run(es);
            && (Alive(s.insts, a) && s.rows[a].state == Canceled ==> s.insts[a].canceled)
            && (Alive(s.insts, a) && s.rows[a].state == Completed ==> a in s.book.completer && s.book.completer[a] == s.insts[a].serial)
            && !(s.op.Creating? && s.op.a == a)
  {
    hide Run, Undisturbed;
    UndisturbedSafe(es, a);
  }

  /* ---- after attempt a is overtaken ---- */

  // What an overtaking step leaves.
  predicate Overtaken(s: State, a: nat) { Creates(s.op, a) && (Settled(s.rows, a) || Settling(s.cancels, a)) }

  lemma OvertakesLeaves(s: State, e: Event, a: nat)
    requires Overtakes(s, e, a)
    ensures Overtaken(Step(s, e), a)
  {
    if e.Continue? {
      DecidesDead(s, s.cancels[e.id], a);
      var t := Step(s, e);
      assert t.cancels[e.id] == After(s, s.cancels[e.id]).value && e.id in t.cancels;
      hide After, Acted;
    }
  }

  function Rank(c: Cancel): nat { if c.Effects? then 3 else if c.Writing? then 2 else 1 }

  lemma FinishingCall(s: State, c: Cancel, a: nat)
    requires Past(s.rows, s.book, a) && Finishing(c, a)
    ensures var t := Acted(s, c); t.op == s.op && (c.Mark? || c.Conclude? ==> Settled(t.rows, a))
    ensures c.Effects? || c.Writing? ==> After(s, c).Some? && Finishing(After(s, c).value, a) && Rank(After(s, c).value) < Rank(c)
  {
  }

  lemma Continued(s: State, id: nat)
    requires id in s.cancels
    ensures var t, c := Step(s, Continue(id)), s.cancels[id];
            t.op == Acted(s, c).op && t.rows == Acted(s, c).rows
            && (After(s, c).Some? ==> id in t.cancels && t.cancels[id] == After(s, c).value)
  {
    hide Acted, After;
  }

  // One call of a request that has decided: another one to make, or the row is over.
  lemma FinishingStep(s: State, id: nat, a: nat)
    requires Inv(s) && id in s.cancels && Finishing(s.cancels[id], a) && Creates(s.op, a)
    ensures var t := Step(s, Continue(id));
            Creates(t.op, a) && (Settled(t.rows, a) || (id in t.cancels && Finishing(t.cancels[id], a) && Rank(t.cancels[id]) < Rank(s.cancels[id])))
    ensures !Overtakes(s, Continue(id), a)
  {
    assert Settling(s.cancels, a);
    SettlingPast(s, a);
    FinishingCall(s, s.cancels[id], a);
    Continued(s, id);
    hide Inv, Settling, Past, Acted, After, Rank, Step, Settled, Creates;
  }

  // Any request that has decided can go on until the row is over.
  lemma {:induction false} FinishOff(es: seq<Event>, id: nat, a: nat) returns (more: seq<Event>)
    requires id in Run(es).cancels && Finishing(Run(es).cancels[id], a) && Creates(Run(es).op, a)
    ensures Undisturbed(es + more, |es|, a) && Creates(Run(es + more).op, a) && Settled(Run(es + more).rows, a)
    decreases Rank(Run(es).cancels[id])
  {
    hide Run, Step, Overtakes, Undisturbed, Settled, Creates, Finishing, Rank;
    Invariant(es);
    var e := Continue(id);
    FinishingStep(Run(es), id, a);
    RunSnoc(es, e);
    UndisturbedEmpty(es, a);
    UndisturbedFront(es, e, |es|, a);
    if Settled(Run(es + [e]).rows, a) {
      more := [e];
    } else {
      var rest := FinishOff(es + [e], id, a);
      more := [e] + rest;
      assert es + [e] + rest == es + more;
      UndisturbedJoin(es, e, rest, a);
    }
  }

  lemma UndisturbedEmpty(es: seq<Event>, a: nat)
    ensures Undisturbed(es, |es|, a)
  {
  }

  lemma UndisturbedJoin(es: seq<Event>, e: Event, rest: seq<Event>, a: nat)
    requires Undisturbed(es + [e], |es|, a) && Undisturbed(es + [e] + rest, |es| + 1, a)
    ensures Undisturbed(es + [e] + rest, |es|, a)
  {
    hide Run, Overtakes;
    var whole := es + [e] + rest;
    assert whole[..|es|] == (es + [e])[..|es|] && whole[|es|] == e;
    assert !Overtakes(Run((es + [e])[..|es|]), (es + [e])[|es|], a);
  }

  lemma CreatesOrphan(s: State, a: nat)
    requires Inv(s) && Creates(s.op, a) && Settled(s.rows, a)
    ensures Orphan(Step(s, Proceed), a) && !Overtakes(s, Proceed, a)
  {
    hide Ordered, Current, Executions, Noticed, Reasons, Cleanups, Labels, Requests, Numbers;
  }

  lemma OrphanFollows(es: seq<Event>, a: nat) returns (more: seq<Event>)
    requires Overtaken(Run(es), a)
    ensures Undisturbed(es + more, |es|, a) && Orphan(Run(es + more), a)
  {
    hide Run, Step, Overtakes, Undisturbed, Settled, Creates, Orphan, Inv;
    more := [];
    assert es + [] == es;
    UndisturbedEmpty(es, a);
    if !Settled(Run(es).rows, a) {
      var id :| id in Run(es).cancels && Finishing(Run(es).cancels[id], a);
      more := FinishOff(es, id, a);
    }
    var front := es + more;
    Invariant(front);
    CreatesOrphan(Run(front), a);
    RunSnoc(front, Proceed);
    UndisturbedFront(front, Proceed, |es|, a);
    more := more + [Proceed];
    assert es + more == front + [Proceed];
  }

  lemma OrphanDoomed(s: State, a: nat)
    ensures Orphan(s, a) ==> Doomed(s, a)
  {
  }

  // The exact condition. From a safe state, a step leads to an orphan without another
  // such step if and only if it overtakes the attempt.
  lemma OrphanExact(es: seq<Event>, e: Event, a: nat)
    requires !Doomed(Run(es), a)
    ensures Overtakes(Run(es), e, a) <==>
            exists more: seq<Event> :: Undisturbed(es + [e] + more, |es| + 1, a) && Orphan(Run(es + [e] + more), a)
  {
    hide Run, Step, Overtakes, Doomed, Undisturbed, Overtaken;
    Invariant(es);
    RunSnoc(es, e);
    if Overtakes(Run(es), e, a) {
      OvertakesLeaves(Run(es), e, a);
      var more := OrphanFollows(es + [e], a);
    } else {
      StepSafe(Run(es), e, a);
      forall more: seq<Event> | Undisturbed(es + [e] + more, |es| + 1, a)
        ensures !Orphan(Run(es + [e] + more), a)
      {
        var whole := es + [e] + more;
        assert whole[..|es| + 1] == es + [e];
        RunSafe(whole, |es| + 1, a);
        OrphanDoomed(Run(whole), a);
      }
    }
  }
}
