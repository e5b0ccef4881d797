/** The cancellation marker: what it says, and when it is written twice. Writing it is a
    list of the comments and then a comment, with anything in between. */
module LifecycleNotes {
  import opened Base
  import opened Projection
  import opened Lifecycle
  import opened LifecycleInv
  import opened LifecycleSeal

  /* ---- what a marker says ---- */

  // Every marker belongs to the first attempt and carries the reason of the first
  // request that claimed it, or the empty reason of a completed row, from which an
  // execution's cleanup loaded it.
  lemma MarkerReason(es: seq<Event>, k: nat)
    requires k < |Run(es).notes|
    ensures var s := Run(es);
            && s.notes[k].a == 1
            && ((1 in s.book.first && s.notes[k].reason == s.book.first[1]) || (1 in s.book.late && s.notes[k].reason == ""))
  {
    Invariant(es);
    hide Run, Ordered, OpFits, Current, Executions, Credited, Numbers, Reasons, Cleanups, Requests, Labels;
  }

  // A live execution with a cancel event did not complete its row.
  lemma StruckNotOwn(s: State, a: nat)
    requires Inv(s) && Alive(s.insts, a) && s.insts[a].canceled && a in s.rows && s.rows[a].state == Completed
    ensures !Own(s.rows, s.book, a, s.insts[a])
  {
    RowOf(s, a);
    hide Inv;
  }

  lemma LateStep(s: State, e: Event, a: nat)
    requires Inv(s) && !Doomed(s, a) && a !in s.book.late
    ensures a !in Step(s, e).book.late
  {
    if e == LoadReason(a) && Alive(s.insts, a) && s.insts[a].stage == Reading && a in s.rows && s.rows[a].state == Completed {
      RowOf(s, a);
      StruckNotOwn(s, a);
      hide Inv, Own, InstFits;
    } else {
      hide Inv, Doomed;
      LateOnly(s, e, a);
    }
  }

  lemma ActedLate(s: State, c: Cancel)
    ensures Acted(s, c).book.late == s.book.late
  {
    hide Settle;
  }

  lemma RequestLate(s: State, e: Event)
    requires e.Continue? || e.CancelRun? || e.Reconcile? || e.Drop?
    ensures Step(s, e).book.late == s.book.late
  {
    if e.Continue? && e.id in s.cancels { ActedLate(s, s.cancels[e.id]); }
    hide Acted, After, Claimed;
  }

  lemma GatedLate(s: State, e: Event)
    requires e.Poll? || e.Restart? || e.Proceed? || e.Submit? || e.Remove? || e.Crash? || e.Sweep? || e.Tick? || e.Snapshot?
    ensures Step(s, e).book.late == s.book.late
  {
    hide Expired, Restartable, Maximal, AllTerminal, Unlisted;
  }

  lemma LateOnly(s: State, e: Event, a: nat)
    requires a !in s.book.late
    requires !(e == LoadReason(a) && Alive(s.insts, a) && s.insts[a].stage == Reading && a in s.rows && s.rows[a].state == Completed)
    ensures a !in Step(s, e).book.late
  {
    hide Put, PollStep, RestartStep, ProceedStep, SubmitStep, SweepStep, CrashStep, ContinueStep, CancelRunStep, ReconcileStep;
    if e.Continue? || e.CancelRun? || e.Reconcile? || e.Drop? {
      RequestLate(s, e);
    } else if e.Poll? || e.Restart? || e.Proceed? || e.Submit? || e.Remove? || e.Crash? || e.Sweep? || e.Tick? || e.Snapshot? {
      GatedLate(s, e);
    }
  }

  lemma {:induction false} NeverLate(es: seq<Event>, a: nat)
    requires Undisturbed(es, 0, a)
    ensures a !in Run(es).book.late
    decreases |es|
  {
    hide Run, Step, Undisturbed, Doomed, Inv, Overtakes;
    if es == [] {
      assert Run([]) == INITIAL by { FirstState(); }
    } else {
      var front, e := es[..|es| - 1], es[|es| - 1];
      assert es == front + [e];
      UndisturbedFront(front, e, 0, a);
      NeverLate(front, a);
      UndisturbedSafe(front, a);
      Invariant(front);
      LateStep(Run(front), e, a);
      RunSnoc(front, e);
    }
  }

  lemma FirstState()
    ensures Run([]) == INITIAL
  {
  }

  // While the first attempt is not overtaken, every marker carries the reason of the
  // first request that claimed it.
  lemma FirstReason(es: seq<Event>, k: nat)
    requires Undisturbed(es, 0, 1) && k < |Run(es).notes|
    ensures 1 in Run(es).book.first && Run(es).notes[k].reason == Run(es).book.first[1]
  {
    hide Run, Undisturbed;
    MarkerReason(es, k);
    NeverLate(es, 1);
  }

  /* ---- a second marker ---- */

  // Who may be about to write: a request, or the cleanup of an execution.
  datatype Pen = OfRequest(id: nat) | OfExecution(a: nat)

  // It has looked for the marker, found none, and not yet written it.
  predicate Holds(s: State, p: Pen) {
    match p
    case OfRequest(id) => id in s.cancels && s.cancels[id].Writing?
    case OfExecution(a) => a in s.insts && s.insts[a].stage.Cleaning? && s.insts[a].stage.listed
  }

  // Two markers are there, or only writes separate the run from that.
  ghost predicate Doubled(s: State) {
    || |s.notes| >= 2 || (s.notes != [] && exists p :: Holds(s, p))
    || exists p, q :: p != q && Holds(s, p) && Holds(s, q)
  }

  // The pen whose list this event is.
  function Lists(s: State, e: Event): Option<Pen> {
    match e
    case Continue(id) => if id in s.cancels && s.cancels[id].Effects? then Some(OfRequest(id)) else None
    case NoteList(a, _) => if a in s.insts && s.insts[a].stage.Cleaning? then Some(OfExecution(a)) else None
    case _ => None
  }

  // A list that finds no marker while another one has found none and not yet written.
  ghost predicate Collides(s: State, e: Event) {
    Lists(s, e).Some? && s.notes == [] && exists p :: Holds(s, p) && p != Lists(s, e).value
  }

  // The write of a pen.
  function Writes(p: Pen): Event {
    match p
    case OfRequest(id) => Continue(id)
    case OfExecution(a) => NoteWrite(a, true, false)
  }

  // Event e is the write of pen p, whether it succeeds or not.
  predicate Uses(e: Event, p: Pen) { e == Writes(p) || (e.NoteWrite? && p == OfExecution(e.a)) }

  // A holder held before or has just listed, and has not used its pen; a marker more
  // is the work of a holder.
  ghost predicate PensKept(s: State, e: Event, t: State) {
    && (forall p :: Holds(t, p) ==> Holds(s, p) || (s.notes == [] && Lists(s, e) == Some(p)))
    && (forall p :: Holds(t, p) && |t.notes| > |s.notes| ==> Holds(s, p) && !Uses(e, p))
    && (t.notes == s.notes || (|t.notes| == |s.notes| + 1 && exists p :: Holds(s, p) && Uses(e, p)))
  }

  lemma ActedPens(s: State, c: Cancel, p: Pen)
    requires p.OfExecution?
    ensures Holds(Acted(s, c), p) ==> Holds(s, p)
  {
    hide Settle;
  }

  lemma PensContinue(s: State, id: nat)
    ensures PensKept(s, Continue(id), Step(s, Continue(id)))
  {
    var e, t := Continue(id), Step(s, Continue(id));
    if id in s.cancels {
      var c := s.cancels[id];
      if c.Writing? { assert Holds(s, OfRequest(id)) && Uses(e, OfRequest(id)); }
      forall p | Holds(t, p)
        ensures Holds(s, p) || (s.notes == [] && Lists(s, e) == Some(p))
        ensures |t.notes| > |s.notes| ==> Holds(s, p) && !Uses(e, p)
      {
        if p.OfExecution? { ActedPens(s, c, p); }
        hide Settle;
      }
    }
  }

  lemma PensRequest(s: State, e: Event)
    requires e.CancelRun? || e.Reconcile? || e.Drop? || e.Tick? || e.Snapshot? || e.Submit? || e.Remove?
    ensures PensKept(s, e, Step(s, e))
  {
    hide Claimed, AllTerminal;
  }

  lemma PensGated(s: State, e: Event)
    requires e.Poll? || e.Restart? || e.Proceed? || e.Crash? || e.Sweep?
    ensures PensKept(s, e, Step(s, e))
  {
    hide Expired, Restartable, Maximal, Active;
  }

  lemma PensInst(s: State, e: Event)
    requires e.Progress? || e.WriteCompleted? || e.FinishRun? || e.Fail? || e.Deliver? || e.LoadReason? || e.WriteCanceled?
    ensures PensKept(s, e, Step(s, e))
  {
    hide Put;
  }

  lemma PensNote(s: State, e: Event)
    requires e.NoteList? || e.NoteWrite?
    ensures PensKept(s, e, Step(s, e))
  {
    if e.NoteWrite? && e.a in s.insts && s.insts[e.a].stage.Cleaning? && s.insts[e.a].stage.listed {
      assert Holds(s, OfExecution(e.a)) && Uses(e, OfExecution(e.a));
    }
  }

  lemma PensStep(s: State, e: Event)
    ensures PensKept(s, e, Step(s, e))
  {
    hide Step, PensKept;
    match e
    case Continue(id) => PensContinue(s, id);
    case NoteList(_, _) => PensNote(s, e);
    case NoteWrite(_, _, _) => PensNote(s, e);
    case Poll(_) => PensGated(s, e);
    case Restart => PensGated(s, e);
    case Proceed => PensGated(s, e);
    case Crash => PensGated(s, e);
    case Sweep(_) => PensGated(s, e);
    case CancelRun(_, _, _) => PensRequest(s, e);
    case Reconcile(_, _) => PensRequest(s, e);
    case Drop(_) => PensRequest(s, e);
    case Tick => PensRequest(s, e);
    case Snapshot => PensRequest(s, e);
    case Submit(_) => PensRequest(s, e);
    case Remove => PensRequest(s, e);
    case _ => PensInst(s, e);
  }

  // Nothing else leads to a second marker.
  lemma StepSingle(s: State, e: Event)
    requires !Doubled(s) && !Collides(s, e)
    ensures !Doubled(Step(s, e))
  {
    PensStep(s, e);
    hide Step, Holds, Lists, Uses;
  }

  /* ---- runs ---- */

  // No list of the run from event k on collides.
  ghost predicate Apart(es: seq<Event>, k: nat) { forall j :: k <= j < |es| ==> !Collides(Run(es[..j]), es[j]) }

  lemma ApartFront(es: seq<Event>, e: Event, k: nat)
    requires k <= |es|
    ensures Apart(es + [e], k) <==> Apart(es, k) && !Collides(Run(es), e)
  {
    hide Run, Collides;
    var whole := es + [e];
    assert whole[..|es|] == es && forall j :: k <= j < |es| ==> whole[..j] == es[..j] && whole[j] == es[j];
    if Apart(whole, k) {
      forall j | k <= j < |es|
        ensures !Collides(Run(es[..j]), es[j])
      {
        assert !Collides(Run(whole[..j]), whole[j]);
      }
      assert !Collides(Run(whole[..|es|]), whole[|es|]);
    }
  }

  lemma {:induction false} RunSingle(es: seq<Event>, k: nat)
    requires k <= |es| && !Doubled(Run(es[..k])) && Apart(es, k)
    ensures !Doubled(Run(es))
    decreases |es|
  {
    hide Run, Step, Doubled, Collides, Apart;
    if k == |es| {
      assert es[..k] == es;
    } else {
      var front, e := es[..|es| - 1], es[|es| - 1];
      assert es == front + [e] && front[..k] == es[..k];
      ApartFront(front, e, k);
      RunSingle(front, k);
      StepSingle(Run(front), e);
      RunSnoc(front, e);
    }
  }

  // While no two writers have both found no marker, it is written at most once.
  lemma MarkerOnce(es: seq<Event>)
    requires Apart(es, 0)
    ensures |Run(es).notes| <= 1
  {
    hide Run, Apart;
    assert es[..0] == [];
    FirstState();
    assert !Doubled(Run(es[..0]));
    RunSingle(es, 0);
  }

  // The write of a holder adds a marker; other holders stay.
  lemma PenWrites(s: State, p: Pen, q: Pen)
    requires Holds(s, p)
    ensures var t := Step(s, Writes(p)); |t.notes| == |s.notes| + 1 && (q != p && Holds(s, q) ==> Holds(t, q))
    ensures !Collides(s, Writes(p))
  {
  }

  lemma SecondFollows(es: seq<Event>, p: Pen, q: Pen) returns (more: seq<Event>)
    requires p != q && Holds(Run(es), p) && Holds(Run(es), q)
    ensures Apart(es + more, |es|) && |Run(es + more).notes| >= 2
  {
    hide Run, Step, Holds, Writes, Collides;
    var e1, e2 := es + [Writes(p)], es + [Writes(p)] + [Writes(q)];
    assert Apart(es, |es|);
    hide Apart;
    PenWrites(Run(es), p, q);
    RunSnoc(es, Writes(p));
    ApartFront(es, Writes(p), |es|);
    PenWrites(Run(e1), q, q);
    RunSnoc(e1, Writes(q));
    ApartFront(e1, Writes(q), |es|);
    more := [Writes(p), Writes(q)];
    assert es + more == e2;
  }

  lemma ListHolds(s: State, e: Event)
    requires Collides(s, e)
    ensures exists p, q :: p != q && Holds(Step(s, e), p) && Holds(Step(s, e), q)
  {
    var mine := Lists(s, e).value;
    var p :| Holds(s, p) && p != mine;
    assert Holds(Step(s, e), mine);
    assert Holds(Step(s, e), p);
  }

  // The exact condition. From a run without a second marker in sight, a step leads to
  // one without another such step if and only if it is a list that finds no marker
  // while another writer has found none and not yet written.
  lemma SecondMarkerExact(es: seq<Event>, e: Event)
    requires !Doubled(Run(es))
    ensures Collides(Run(es), e) <==>
            exists more: seq<Event> :: Apart(es + [e] + more, |es| + 1) && |Run(es + [e] + more).notes| >= 2
  {
    hide Run, Step, Collides, Apart, Holds;
    RunSnoc(es, e);
    if Collides(Run(es), e) {
      ListHolds(Run(es), e);
      var p, q :| p != q && Holds(Run(es + [e]), p) && Holds(Run(es + [e]), q);
      var more := SecondFollows(es + [e], p, q);
    } else {
      StepSingle(Run(es), e);
      forall more: seq<Event> | Apart(es + [e] + more, |es| + 1)
        ensures |Run(es + [e] + more).notes| <= 1
      {
        var whole := es + [e] + more;
        assert whole[..|es| + 1] == es + [e];
        RunSingle(whole, |es| + 1);
      }
    }
  }
}
