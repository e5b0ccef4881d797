/** The walks of finished runs are exactly the legal ones: whatever walk from start to
    end a workflow allows, with any reports that lead along it, some run takes it. */
module RunPaths {
  import opened Base
  import opened Markers
  import opened Workflows
  import opened RunProtocol
  import opened RunInvariants
  import opened RunTheorems
  import opened RunSteps

  // One visit of a walk: its ID, its node, and the report that ends it with its ID.
  datatype Leg = Leg(id: string, node: string, report: Report, reportId: string)

  // Where the legs so far lead, or the start edge if there are none.
  function Leads(w: Workflow, legs: seq<Leg>): Option<string> {
    if legs == [] then StartTarget(w) else Some(legs[|legs| - 1].report.nextStep)
  }

  predicate LegOk(w: Workflow, legs: seq<Leg>, k: nat)
    requires k < |legs|
  {
    && Leads(w, legs[..k]) == Some(legs[k].node) && legs[k].node != "end"
    && ValidateReport(w, legs[k].node, legs[k].report).None? && VisitId(legs[k].id)
  }

  // Each leg starts where the one before it leads and ends with an acceptable report,
  // and IDs are not used twice.
  predicate Legal(w: Workflow, legs: seq<Leg>) {
    && (forall k :: 0 <= k < |legs| ==> LegOk(w, legs, k))
    && forall j, k :: 0 <= j < k < |legs| ==> legs[j].id != legs[k].id && legs[j].reportId != legs[k].reportId
  }

  function VisitOf(l: Leg): Visit { Visit(l.id, l.node, Some(Signal(l.reportId, l.node, l.id, l.report))) }

  function VisitsOf(legs: seq<Leg>): seq<Visit> {
    if legs == [] then [] else VisitsOf(legs[..|legs| - 1]) + [VisitOf(legs[|legs| - 1])]
  }

  function IdsOf(legs: seq<Leg>): set<string> { set k | 0 <= k < |legs| :: legs[k].reportId }

  // Nothing is on its way, and no cancellation has claimed the run.
  predicate At(s: State, p: Phase, current: string, vs: seq<Visit>, taken: set<string>) {
    && s.phase == p && s.current == current && s.visits == vs && s.posting == Idle
    && s.queue == [] && s.subs == multiset{} && s.row.live && !s.row.claimed && s.seen == taken && s.processed <= taken
  }

  predicate Plain(p: Phase) {
    p in {ShowRunning, LoadRuntime, PublishVisit, Apply, Ensure, Launch, PublishNode, PublishWaiting, ShowFinished, Close,
          EndShow, EndApply, EndStatus, EndCleanup, EndFinalize, EndShown}
  }

  lemma Go(c: Setting, es: seq<Event>, p: Phase, current: string, vs: seq<Visit>, taken: set<string>) returns (more: seq<Event>)
    requires At(Run(c, es), p, current, vs, taken) && Plain(p)
    ensures At(Run(c, more), Follow(p, false), current, vs, taken)
  {
    more := es + [Advance];
    RunSnoc(c, es, Advance);
    ActKeeps(Run(c, es));
    hide Run, ActStep, EffectNow;
  }

  lemma Goes(c: Setting, es: seq<Event>, current: string, vs: seq<Visit>, taken: set<string>) returns (more: seq<Event>)
    requires At(Run(c, es), ShowRunning, current, vs, taken)
    ensures At(Run(c, more), Await, current, vs, taken)
  {
    hide Run, At;
    more := Go(c, es, ShowRunning, current, vs, taken);
    more := Go(c, more, LoadRuntime, current, vs, taken);
    more := Go(c, more, PublishVisit, current, vs, taken);
    more := Go(c, more, Apply, current, vs, taken);
    more := Go(c, more, Ensure, current, vs, taken);
    more := Go(c, more, Launch, current, vs, taken);
    more := Go(c, more, PublishNode, current, vs, taken);
    more := Go(c, more, PublishWaiting, current, vs, taken);
  }

  lemma Ends(c: Setting, es: seq<Event>, current: string, vs: seq<Visit>, taken: set<string>) returns (more: seq<Event>)
    requires At(Run(c, es), EndShow, current, vs, taken)
    ensures Run(c, more).phase == Done && Run(c, more).visits == vs
  {
    hide Run, At;
    more := Go(c, es, EndShow, current, vs, taken);
    more := Go(c, more, EndApply, current, vs, taken);
    more := Go(c, more, EndStatus, current, vs, taken);
    more := Go(c, more, EndCleanup, current, vs, taken);
    more := Go(c, more, EndFinalize, current, vs, taken);
    more := Go(c, more, EndShown, current, vs, taken);
    more := Finishes(c, more, current, vs, taken);
  }

  lemma Finishes(c: Setting, es: seq<Event>, current: string, vs: seq<Visit>, taken: set<string>) returns (more: seq<Event>)
    requires At(Run(c, es), Finish, current, vs, taken)
    ensures Run(c, more).phase == Done && Run(c, more).visits == vs
  {
    more := es + [Advance];
    RunSnoc(c, es, Advance);
    ActKeeps(Run(c, es));
    hide Run, ActStep, EffectNow;
  }

  lemma Begins(c: Setting, es: seq<Event>, l: Leg, vs: seq<Visit>, taken: set<string>) returns (more: seq<Event>)
    requires At(Run(c, es), Enter, l.node, vs, taken) && Fresh(vs, l.id)
    ensures At(Run(c, more), ShowRunning, l.node, vs + [Visit(l.id, l.node, None)], taken)
  {
    more := es + [Begin(l.id)];
    RunSnoc(c, es, Begin(l.id));
    hide Run, Fresh;
  }

  // A submission for the waiting visit is read, checked, sent and received.
  lemma Submits(c: Setting, es: seq<Event>, l: Leg, vs: seq<Visit>, taken: set<string>) returns (more: seq<Event>)
    requires Valid(c.wf) && At(Run(c, es), Await, l.node, vs + [Visit(l.id, l.node, None)], taken)
    requires ValidateReport(c.wf, l.node, l.report).None? && l.reportId !in taken
    ensures At(Run(c, more), Record, l.node, vs + [VisitOf(l)], taken + {l.reportId})
  {
    var s := Run(c, es);
    WaitingAdmits(c, es, l.reportId, l.node, l.report);
    var read := Submission(l.reportId, l.node, l.report, s.row, false);
    var sent := read.(checked := true);
    RunSnoc(c, es, Read(l.reportId, l.node, l.report));
    more := es + [Read(l.reportId, l.node, l.report)];
    RunSnoc(c, more, Check(read));
    more := more + [Check(read)];
    RunSnoc(c, more, Send(sent));
    more := more + [Send(sent)];
    RunSnoc(c, more, Receive);
    more := more + [Receive];
    hide Run, Valid, ValidateReport, At;
    Delivered(c, s, l, vs, taken, read, sent);
  }

  lemma Delivered(c: Setting, s: State, l: Leg, vs: seq<Visit>, taken: set<string>, read: Submission, sent: Submission)
    requires Shaped(s) && At(s, Await, l.node, vs + [Visit(l.id, l.node, None)], taken)
    requires read == Submission(l.reportId, l.node, l.report, s.row, false) && sent == read.(checked := true)
    requires Admits(c, s, read) && s.row.visit == l.id
    requires ValidateReport(c.wf, l.node, l.report).None? && l.reportId !in taken
    ensures var r := Step(c, s, Read(l.reportId, l.node, l.report));
            var t := Step(c, r, Check(read));
            At(Step(c, Step(c, t, Send(sent)), Receive), Record, l.node, vs + [VisitOf(l)], taken + {l.reportId})
  {
    hide ValidateReport, END;
    var r := s.(subs := multiset{read});
    var t := s.(subs := multiset{sent});
    var q := s.(queue := [Signal(l.reportId, l.node, l.id, l.report)]);
    assert multiset{read} - multiset{read} == multiset{} && multiset{sent} - multiset{sent} == multiset{};
    assert Step(c, s, Read(l.reportId, l.node, l.report)) == r;
    assert Step(c, r, Check(read)) == t;
    assert Step(c, t, Send(sent)) == q;
    ReceivedNow(c, q, l, vs, taken);
  }

  lemma ReceivedNow(c: Setting, q: State, l: Leg, vs: seq<Visit>, taken: set<string>)
    requires Shaped(q) && At(q.(queue := []), Await, l.node, vs + [Visit(l.id, l.node, None)], taken)
    requires q.queue == [Signal(l.reportId, l.node, l.id, l.report)]
    requires ValidateReport(c.wf, l.node, l.report).None? && l.reportId !in taken
    ensures At(ReceiveStep(c, q), Record, l.node, vs + [VisitOf(l)], taken + {l.reportId})
  {
    hide ValidateReport;
    assert q.visits[|q.visits| - 1 := VisitOf(l)] == vs + [VisitOf(l)];
  }

  lemma Records(c: Setting, es: seq<Event>, l: Leg, vs: seq<Visit>, taken: set<string>) returns (more: seq<Event>)
    requires At(Run(c, es), Record, l.node, vs + [VisitOf(l)], taken) && l.reportId in taken
    ensures At(Run(c, more), ShowFinished, l.node, vs + [VisitOf(l)], taken)
  {
    more := es + [Advance];
    RunSnoc(c, es, Advance);
    assert Last(vs + [VisitOf(l)]) == VisitOf(l);
    hide Run, EffectNow, END;
  }

  // A comment is found or written, and the run goes on.
  lemma Comments(c: Setting, es: seq<Event>, p: Phase, l: Leg, vs: seq<Visit>, taken: set<string>) returns (more: seq<Event>)
    requires At(Run(c, es), p, l.node, vs + [VisitOf(l)], taken) && Commenting(p)
    ensures At(Run(c, more), Follow(p, l.report.nextStep == END), l.node, vs + [VisitOf(l)], taken)
  {
    var s := Run(c, es);
    more := es + [List];
    RunSnoc(c, es, List);
    assert Last(vs + [VisitOf(l)]) == VisitOf(l);
    hide Run, END;
    if !MentionedNow(s) {
      RunSnoc(c, more, Write);
      more := more + [Write];
      WritesNow(c, s);
    } else {
      ListsNow(c, s);
    }
    Passes(c, more, p, l, vs, taken);
    more := more + [Advance];
  }

  lemma WritesNow(c: Setting, s: State)
    requires Shaped(s) && Commenting(s.phase) && s.posting == Idle && !MentionedNow(s)
    ensures var r := Step(c, Step(c, s, List), Write); r == s.(posting := Written, world := r.world)
  {
    hide MentionedNow, Comment, Target, MarkerOf;
  }

  lemma ListsNow(c: Setting, s: State)
    requires Shaped(s) && Commenting(s.phase) && s.posting == Idle && MentionedNow(s)
    ensures Step(c, s, List) == s.(posting := Listed(true))
  {
    hide MentionedNow;
  }

  lemma Passes(c: Setting, es: seq<Event>, p: Phase, l: Leg, vs: seq<Visit>, taken: set<string>)
    requires At(Run(c, es).(posting := Idle), p, l.node, vs + [VisitOf(l)], taken) && Commenting(p)
    requires Run(c, es).posting == Written || Run(c, es).posting == Listed(true)
    ensures At(Run(c, es + [Advance]), Follow(p, l.report.nextStep == END), l.node, vs + [VisitOf(l)], taken)
  {
    RunSnoc(c, es, Advance);
    assert Last(vs + [VisitOf(l)]) == VisitOf(l);
    hide Run, EffectNow, END;
  }

  lemma Leaves(c: Setting, es: seq<Event>, l: Leg, vs: seq<Visit>, taken: set<string>) returns (more: seq<Event>)
    requires At(Run(c, es), Checkpoint, l.node, vs + [VisitOf(l)], taken)
    ensures At(Run(c, more), if l.report.nextStep == END then EndShow else Enter, l.report.nextStep, vs + [VisitOf(l)], taken)
  {
    more := es + [Advance];
    RunSnoc(c, es, Advance);
    assert Last(vs + [VisitOf(l)]) == VisitOf(l);
    hide Run, EffectNow, END;
  }

  // A visit, from its entry to the next one.
  lemma Visits(c: Setting, es: seq<Event>, l: Leg, vs: seq<Visit>, taken: set<string>) returns (more: seq<Event>)
    requires Valid(c.wf) && At(Run(c, es), Enter, l.node, vs, taken) && Fresh(vs, l.id)
    requires ValidateReport(c.wf, l.node, l.report).None? && l.reportId !in taken
    ensures At(Run(c, more), if l.report.nextStep == END then EndShow else Enter, l.report.nextStep, vs + [VisitOf(l)], taken + {l.reportId})
  {
    hide Run, At, Valid, ValidateReport, Fresh, END, VisitOf;
    more := Begins(c, es, l, vs, taken);
    more := Goes(c, more, l.node, vs + [Visit(l.id, l.node, None)], taken);
    more := Submits(c, more, l, vs, taken);
    var us, ids := vs + [VisitOf(l)], taken + {l.reportId};
    more := Records(c, more, l, vs, ids);
    more := Go(c, more, ShowFinished, l.node, us, ids);
    more := Comments(c, more, Summarize, l, vs, ids);
    if l.report.nextStep != END { more := Comments(c, more, Handoff, l, vs, ids); }
    more := Go(c, more, Close, l.node, us, ids);
    more := Leaves(c, more, l, vs, ids);
  }

  lemma Starts(c: Setting) returns (es: seq<Event>)
    requires Valid(c.wf)
    ensures StartTarget(c.wf).Some?
    ensures var t := StartTarget(c.wf).value; At(Run(c, es), if t == END then EndShow else Enter, t, [], {})
  {
    StartLeads(c.wf);
    hide Valid, StartTarget, START, END;
    assert Run(c, []) == INITIAL;
    RunSnoc(c, [], Advance);
    es := [] + [Advance];
    hide Run;
  }

  lemma {:induction false} VisitsOfAt(legs: seq<Leg>)
    ensures |VisitsOf(legs)| == |legs| && forall k :: 0 <= k < |legs| ==> VisitsOf(legs)[k] == VisitOf(legs[k])
  {
    hide VisitOf;
    if legs != [] { VisitsOfAt(legs[..|legs| - 1]); }
  }

  lemma {:induction false} Takes(c: Setting, legs: seq<Leg>) returns (es: seq<Event>)
    requires Valid(c.wf) && Legal(c.wf, legs)
    ensures Leads(c.wf, legs).Some?
    ensures var t := Leads(c.wf, legs).value; At(Run(c, es), if t == END then EndShow else Enter, t, VisitsOf(legs), IdsOf(legs))
    decreases |legs|
  {
    hide Run, At, Valid, ValidateReport, END, VisitOf, VisitId, StartTarget;
    if legs == [] {
      es := Starts(c);
      assert IdsOf(legs) == {};
    } else {
      var front, l := legs[..|legs| - 1], legs[|legs| - 1];
      LegalFront(c.wf, legs);
      es := Takes(c, front);
      FreshLeg(c.wf, legs);
      es := Visits(c, es, l, VisitsOf(front), IdsOf(front));
    }
  }

  lemma LegalFront(w: Workflow, legs: seq<Leg>)
    requires Legal(w, legs) && legs != []
    ensures Legal(w, legs[..|legs| - 1]) && Leads(w, legs[..|legs| - 1]) == Some(legs[|legs| - 1].node)
  {
    var front := legs[..|legs| - 1];
    hide Leads, ValidateReport, VisitId;
    assert LegOk(w, legs, |front|);
    forall k | 0 <= k < |front|
      ensures LegOk(w, front, k)
    {
      assert LegOk(w, legs, k) && front[k] == legs[k] && front[..k] == legs[..k];
    }
    hide LegOk;
  }

  lemma FreshLeg(w: Workflow, legs: seq<Leg>)
    requires Legal(w, legs) && legs != []
    ensures var front, l := legs[..|legs| - 1], legs[|legs| - 1];
            && Fresh(VisitsOf(front), l.id) && l.reportId !in IdsOf(front) && IdsOf(legs) == IdsOf(front) + {l.reportId}
            && l.node != END && ValidateReport(w, l.node, l.report).None?
  {
    hide Leads, ValidateReport, VisitId, VisitsOf, StartTarget;
    var front, l := legs[..|legs| - 1], legs[|legs| - 1];
    VisitsOfAt(front);
    assert legs == front + [l] && LegOk(w, legs, |front|);
    forall k | 0 <= k < |front|
      ensures front[k].id != l.id && front[k].reportId != l.reportId
    {
      assert legs[k].id != legs[|legs| - 1].id;
    }
    IdsOfSnoc(front, l);
  }

  lemma IdsOfSnoc(front: seq<Leg>, l: Leg)
    ensures IdsOf(front + [l]) == IdsOf(front) + {l.reportId}
  {
    var legs := front + [l];
    assert legs[|front|] == l && forall k :: 0 <= k < |front| ==> legs[k] == front[k];
  }

  lemma LegsOf(vs: seq<Visit>) returns (legs: seq<Leg>)
    requires forall k :: 0 <= k < |vs| ==> vs[k].taken.Some? && vs[k].taken.value.node == vs[k].node && vs[k].taken.value.visit == vs[k].id
    ensures VisitsOf(legs) == vs && |legs| == |vs|
    ensures forall k :: 0 <= k < |vs| ==> legs[k] == Leg(vs[k].id, vs[k].node, vs[k].taken.value.report, vs[k].taken.value.id)
  {
    legs := seq(|vs|, k requires 0 <= k < |vs| => Leg(vs[k].id, vs[k].node, vs[k].taken.value.report, vs[k].taken.value.id));
    VisitsOfAt(legs);
  }

  // The visits of finished runs are exactly those of the legal walks to end.
  lemma WalksExact(c: Setting, vs: seq<Visit>)
    requires Valid(c.wf)
    ensures (exists es :: Run(c, es).phase == Done && Run(c, es).visits == vs) <==>
            exists legs :: Legal(c.wf, legs) && Leads(c.wf, legs) == Some("end") && vs == VisitsOf(legs)
  {
    hide Run, Valid, Legal, VisitsOf, Leads;
    if legs :| Legal(c.wf, legs) && Leads(c.wf, legs) == Some("end") && vs == VisitsOf(legs) {
      var es := Takes(c, legs);
      es := Ends(c, es, "end", vs, IdsOf(legs));
    }
    if es :| Run(c, es).phase == Done && Run(c, es).visits == vs {
      var legs := Walked(c, es);
    }
  }

  lemma Walked(c: Setting, es: seq<Event>) returns (legs: seq<Leg>)
    requires Valid(c.wf) && Run(c, es).phase == Done
    ensures Legal(c.wf, legs) && Leads(c.wf, legs) == Some("end") && Run(c, es).visits == VisitsOf(legs)
  {
    hide Run, Valid, Inv, OnPath, ValidateReport, VisitsOf, StartTarget, VisitOk, Heads, Unlike, Legal, Leads, Shaped;
    var vs := Run(c, es).visits;
    Invariant(c, es);
    ReportsOnce(c, es);
    PathOfInv(c, es);
    DoneWalk(c, Run(c, es));
    legs := LegsOf(vs);
    WalkLegal(c, vs, legs);
  }

  lemma DoneWalk(c: Setting, s: State)
    requires Shaped(s) && OnPath(c, s) && s.phase == Done
    ensures Unlike(s.visits) && Heads(c, s.visits, END) && forall k :: 0 <= k < |s.visits| ==> VisitOk(c, s.visits, k)
    ensures s.visits != [] ==> Last(s.visits).taken.Some?
  {
    hide VisitOk, Unlike, StartTarget, END;
  }

  lemma WalkLegal(c: Setting, vs: seq<Visit>, legs: seq<Leg>)
    requires Unlike(vs) && Heads(c, vs, END) && |legs| == |vs|
    requires forall k :: 0 <= k < |vs| ==> VisitOk(c, vs, k) && vs[k].taken.Some?
    requires forall i, j :: 0 <= i < j < |vs| ==> vs[i].taken.value.id != vs[j].taken.value.id
    requires forall k :: 0 <= k < |vs| ==> legs[k] == Leg(vs[k].id, vs[k].node, vs[k].taken.value.report, vs[k].taken.value.id)
    ensures Legal(c.wf, legs) && Leads(c.wf, legs) == Some("end")
  {
    hide VisitOk, LegOk, StartTarget, ValidateReport, VisitId;
    forall k | 0 <= k < |legs|
      ensures LegOk(c.wf, legs, k)
    {
      LegIs(c, vs, legs, k);
    }
  }

  lemma LegIs(c: Setting, vs: seq<Visit>, legs: seq<Leg>, k: nat)
    requires k < |vs| == |legs| && VisitOk(c, vs, k) && vs[k].taken.Some? && (k > 0 ==> vs[k - 1].taken.Some?)
    requires legs[k] == Leg(vs[k].id, vs[k].node, vs[k].taken.value.report, vs[k].taken.value.id)
    requires k > 0 ==> legs[k - 1].report == vs[k - 1].taken.value.report
    ensures LegOk(c.wf, legs, k)
  {
    hide ValidateReport, VisitId, StartTarget;
    if k > 0 { assert legs[..k][k - 1] == legs[k - 1]; }
  }
}
