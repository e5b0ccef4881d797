/** What every step of the run machine keeps: the visits walk the graph, signals
    are addressed to visits that exist, no report answers twice, and effects follow
    the order of the program. */
module RunInvariants {
  import opened Base
  import opened Markers
  import opened Workflows
  import opened RunProtocol

  /* ---- the walk ---- */

  // The report taken by a visit was sent to that visit and is valid for its node.
  predicate Answers(c: Setting, v: Visit) {
    v.taken.Some? ==>
      && v.taken.value.visit == v.id && v.taken.value.node == v.node
      && ValidateReport(c.wf, v.node, v.taken.value.report).None?
  }

  // Visit i begins where the start edge or the report before it points.
  predicate Follows(c: Setting, vs: seq<Visit>, i: nat)
    requires i < |vs|
  {
    if i == 0 then StartTarget(c.wf) == Some(vs[0].node)
    else vs[i - 1].taken.Some? && vs[i].node == NextOf(vs[i - 1])
  }

  predicate VisitOk(c: Setting, vs: seq<Visit>, i: nat)
    requires i < |vs|
  {
    WorkNode(c.wf, vs[i].node) && VisitId(vs[i].id) && Answers(c, vs[i]) && Follows(c, vs, i)
  }

  predicate Unlike(vs: seq<Visit>) { forall i, j :: 0 <= i < j < |vs| ==> vs[i].id != vs[j].id }

  predicate Walk(c: Setting, vs: seq<Visit>) { Unlike(vs) && forall i :: 0 <= i < |vs| ==> VisitOk(c, vs, i) }

  // Where the run goes once the last visit is answered.
  predicate Heads(c: Setting, vs: seq<Visit>, node: string) {
    if vs == [] then StartTarget(c.wf) == Some(node) else Last(vs).taken.Some? && NextOf(Last(vs)) == node
  }

  predicate OnPath(c: Setting, s: State)
    requires Shaped(s)
  {
    && Walk(c, s.visits) && s.phase != Rejected
    && (s.phase == Setup ==> s.visits == [])
    && (s.phase == Enter ==> WorkNode(c.wf, s.current) && Heads(c, s.visits, s.current))
    && (Ending(s.phase) ==> Heads(c, s.visits, END))
    && (InVisit(s.phase) && !Answered(s.phase) ==> Last(s.visits).taken.None?)
  }

  /* ---- mail ---- */

  ghost predicate Known(vs: seq<Visit>, node: string, id: string) {
    exists i :: 0 <= i < |vs| && vs[i].id == id && vs[i].node == node
  }

  ghost predicate Addressed(c: Setting, vs: seq<Visit>, node: string, id: string, report: Report) {
    Known(vs, node, id) && ValidateReport(c.wf, node, report).None?
  }

  ghost predicate SubOk(c: Setting, vs: seq<Visit>, sub: Submission) {
    && RowOk(vs, sub.row)
    && (sub.checked ==> Addressed(c, vs, sub.node, sub.row.visit, sub.report))
  }

  ghost predicate SigOk(c: Setting, vs: seq<Visit>, sig: Signal) { Addressed(c, vs, sig.node, sig.visit, sig.report) }

  ghost predicate RowOk(vs: seq<Visit>, row: Row) { row.visit != "" ==> Known(vs, row.node, row.visit) }

  // Every signal, submission and row names a visit that took place.
  ghost predicate Mail(c: Setting, s: State) {
    && (forall q :: 0 <= q < |s.queue| ==> SigOk(c, s.visits, s.queue[q]))
    && (forall sub :: sub in s.subs ==> SubOk(c, s.visits, sub))
    && RowOk(s.visits, s.row)
  }

  /* ---- reports ---- */

  predicate Once(s: State) {
    && (forall i :: 0 <= i < |s.visits| && s.visits[i].taken.Some? ==> s.visits[i].taken.value.id in s.seen)
    && (forall i, j :: 0 <= i < j < |s.visits| && s.visits[i].taken.Some? && s.visits[j].taken.Some? ==>
          s.visits[i].taken.value.id != s.visits[j].taken.value.id)
  }

  /* ---- each step keeps them ---- */

  lemma OnPathSetup(c: Setting, s: State)
    requires Valid(c.wf) && Shaped(s) && OnPath(c, s) && s.phase == Setup
    ensures OnPath(c, StartEdge(c, s))
  {
    hide Valid, START, WorkNode, StartTarget, VisitOk;
    StartLeads(c.wf);
  }

  lemma NextLeads(c: Setting, vs: seq<Visit>)
    requires Valid(c.wf) && vs != [] && Walk(c, vs) && Last(vs).taken.Some?
    ensures WorkNode(c.wf, NextOf(Last(vs))) || NextOf(Last(vs)) == END
  {
    var v := Last(vs);
    assert VisitOk(c, vs, |vs| - 1);
    ReportLeads(c.wf, v.node, v.taken.value.report);
  }

  lemma OnPathCheckpoint(c: Setting, s: State)
    requires Valid(c.wf) && Shaped(s) && OnPath(c, s) && s.phase == Checkpoint
    ensures OnPath(c, AdvanceStep(c, s))
  {
    hide Valid, START, END, WorkNode, StartTarget, VisitOk, ValidateReport, EffectNow, Walk;
    NextLeads(c, s.visits);
  }

  lemma OnPathProceed(c: Setting, s: State)
    requires Shaped(s) && OnPath(c, s) && s.phase != Setup && s.phase != Checkpoint
    ensures OnPath(c, AdvanceStep(c, s))
  {
    hide START, END, WorkNode, StartTarget, VisitOk, EffectNow, Walk, Heads;
  }

  lemma OnPathBegin(c: Setting, s: State, id: string)
    requires Shaped(s) && OnPath(c, s)
    ensures OnPath(c, BeginStep(s, id))
  {
    hide VisitId, WorkNode, START, END, StartTarget, ValidateReport;
    if s.phase == Enter && Fresh(s.visits, id) {
      WalkBegun(c, s.visits, id, s.current);
      hide VisitOk, Unlike, Walk;
    }
  }

  lemma WalkBegun(c: Setting, vs: seq<Visit>, id: string, node: string)
    requires Walk(c, vs) && Fresh(vs, id) && WorkNode(c.wf, node) && Heads(c, vs, node)
    ensures Walk(c, vs + [Visit(id, node, None)])
  {
    hide VisitId, WorkNode, START, END, StartTarget, ValidateReport;
    var us := vs + [Visit(id, node, None)];
    forall i | 0 <= i < |us|
      ensures VisitOk(c, us, i)
    {
      if i < |vs| { assert VisitOk(c, vs, i); }
    }
  }

  // The re-validation inside the workflow accepts whatever the server let through.
  lemma Revalidates(c: Setting, s: State)
    requires Shaped(s) && OnPath(c, s) && Mail(c, s) && s.phase == Await && s.queue != []
    requires s.queue[0].node == s.current && s.queue[0].visit == Last(s.visits).id
    ensures ValidateReport(c.wf, s.current, s.queue[0].report).None?
  {
  }

  lemma WalkAnswered(c: Setting, vs: seq<Visit>, sig: Signal)
    requires vs != [] && Walk(c, vs) && Answers(c, Last(vs).(taken := Some(sig))) && Last(vs).taken.None?
    ensures Walk(c, vs[|vs| - 1 := Last(vs).(taken := Some(sig))])
  {
    hide VisitId, WorkNode, StartTarget, ValidateReport;
    var us := vs[|vs| - 1 := Last(vs).(taken := Some(sig))];
    forall i | 0 <= i < |us|
      ensures VisitOk(c, us, i)
    {
      assert VisitOk(c, vs, i);
    }
  }

  lemma OnPathReceive(c: Setting, s: State)
    requires Shaped(s) && OnPath(c, s) && Mail(c, s)
    ensures OnPath(c, ReceiveStep(c, s))
  {
    hide VisitOk, ValidateReport, Unlike, Walk, Heads;
    if s.phase == Await && s.queue != [] && s.queue[0].id !in s.seen
       && s.queue[0].node == s.current && s.queue[0].visit == Last(s.visits).id {
      Revalidates(c, s);
      WalkAnswered(c, s.visits, s.queue[0]);
    }
  }

  lemma SetupAdvances(c: Setting, s: State)
    requires Shaped(s) && s.phase == Setup
    ensures AdvanceStep(c, s) == StartEdge(c, s)
  {
  }

  lemma OnPathStep(c: Setting, s: State, e: Event)
    requires Valid(c.wf) && Shaped(s) && OnPath(c, s) && Mail(c, s)
    ensures OnPath(c, Step(c, s, e))
  {
    hide Valid, Walk, Heads, AdvanceStep, ReceiveStep, BeginStep, MentionedNow, Mail, Admits, Comment;
    match e
    case Begin(id) => OnPathBegin(c, s, id);
    case Advance =>
      if s.phase == Setup {
        OnPathSetup(c, s);
        SetupAdvances(c, s);
      } else if s.phase == Checkpoint {
        OnPathCheckpoint(c, s);
      } else {
        OnPathProceed(c, s);
      }
    case Receive => OnPathReceive(c, s);
    case _ =>
  }

  // Visits are only added and answered.
  ghost predicate Grows(vs: seq<Visit>, us: seq<Visit>) {
    |vs| <= |us| && forall i :: 0 <= i < |vs| ==>
      us[i].id == vs[i].id && us[i].node == vs[i].node && (vs[i].taken.Some? ==> us[i].taken == vs[i].taken)
  }

  lemma StepGrows(c: Setting, s: State, e: Event)
    requires Shaped(s) && OnPath(c, s)
    ensures Grows(s.visits, Step(c, s, e).visits)
  {
    hide Walk, Heads, EffectNow, MentionedNow, Admits, Comment, ValidateReport, Valid, StartTarget, START, END;
  }

  lemma KnownGrows(vs: seq<Visit>, us: seq<Visit>, node: string, id: string)
    requires Grows(vs, us) && Known(vs, node, id)
    ensures Known(us, node, id)
  {
    var i :| 0 <= i < |vs| && vs[i].id == id && vs[i].node == node;
    assert us[i].id == id && us[i].node == node;
  }

  lemma SubGrows(c: Setting, vs: seq<Visit>, us: seq<Visit>, sub: Submission)
    requires Grows(vs, us) && SubOk(c, vs, sub)
    ensures SubOk(c, us, sub)
  {
    hide Grows, Known, ValidateReport;
    if sub.row.visit != "" { KnownGrows(vs, us, sub.row.node, sub.row.visit); }
    if sub.checked { KnownGrows(vs, us, sub.node, sub.row.visit); }
  }

  lemma MailGrows(c: Setting, s: State, us: seq<Visit>)
    requires Grows(s.visits, us) && Mail(c, s)
    ensures forall q :: 0 <= q < |s.queue| ==> SigOk(c, us, s.queue[q])
    ensures forall sub :: sub in s.subs ==> SubOk(c, us, sub)
    ensures RowOk(us, s.row)
  {
    hide Grows, Known, ValidateReport, SubOk;
    forall q | 0 <= q < |s.queue|
      ensures SigOk(c, us, s.queue[q])
    {
      KnownGrows(s.visits, us, s.queue[q].node, s.queue[q].visit);
    }
    forall sub | sub in s.subs
      ensures SubOk(c, us, sub)
    {
      SubGrows(c, s.visits, us, sub);
    }
    if s.row.visit != "" { KnownGrows(s.visits, us, s.row.node, s.row.visit); }
  }

  // A submission that passes the server's checks is addressed to a real visit.
  lemma AdmittedOk(c: Setting, s: State, sub: Submission)
    requires SubOk(c, s.visits, sub) && Admits(c, s, sub)
    ensures SubOk(c, s.visits, sub.(checked := true))
  {
    hide Known, ValidateReport;
  }

  lemma MailCheck(c: Setting, s: State, sub: Submission)
    requires Mail(c, s)
    ensures Mail(c, CheckStep(c, s, sub))
  {
    hide Known, ValidateReport, SubOk, SigOk, RowOk, Admits;
    if sub in s.subs && !sub.checked && Admits(c, s, sub) {
      AdmittedOk(c, s, sub);
    }
  }

  lemma MailSend(c: Setting, s: State, sub: Submission)
    requires Mail(c, s)
    ensures Mail(c, SendStep(s, sub))
  {
    hide Known, ValidateReport, RowOk;
    if sub in s.subs && sub.checked {
      assert SubOk(c, s.visits, sub);
      hide SubOk;
    }
  }

  // An activity that takes effect changes neither the program nor the mail.
  lemma ActKeeps(s: State)
    requires Shaped(s)
    ensures var r := ActStep(s);
            r == s.(world := r.world, row := r.row, processed := r.processed) && (r.row == s.row || s.phase == PublishNode || s.phase == Finish)
    ensures s.phase == PublishNode ==> ActStep(s).row == Published(s.row, s.current, Last(s.visits).id)
    ensures s.phase == Finish ==> ActStep(s).row == s.row.(live := false)
    ensures ActStep(s).world == s.world + EffectNow(s) && (s.phase != Record ==> ActStep(s).processed == s.processed)
  {
    hide EffectNow, Published;
  }

  lemma MailAct(c: Setting, s: State)
    requires Shaped(s) && Mail(c, s)
    ensures Mail(c, ActStep(s)) && Mail(c, AdvanceStep(c, s))
  {
    ActKeeps(s);
    if s.phase == PublishNode { RowPublished(s.visits); }
    hide ActStep, Known, SigOk, SubOk, StartTarget, EffectNow;
  }

  lemma MailStep(c: Setting, s: State, e: Event)
    requires Shaped(s) && OnPath(c, s) && Mail(c, s)
    ensures Mail(c, Step(c, s, e))
  {
    hide Walk, Heads, EffectNow, MentionedNow, Admits, Comment, ValidateReport, Valid, StartTarget, START, END, OnPath;
    hide Known, SigOk, SubOk, Fresh, CheckStep, SendStep, ActStep, AdvanceStep;
    StepGrows(c, s, e);
    MailGrows(c, s, Step(c, s, e).visits);
    match e
    case Check(sub) => MailCheck(c, s, sub);
    case Send(sub) => MailSend(c, s, sub);
    case Advance | Repeat => MailAct(c, s);
    case Read(id, node, report) => ReadOk(c, s, Submission(id, node, report, s.row, false));
    case _ =>
  }

  lemma ReadOk(c: Setting, s: State, sub: Submission)
    requires RowOk(s.visits, s.row) && sub.row == s.row && !sub.checked
    ensures SubOk(c, s.visits, sub)
  {
  }

  lemma RowPublished(vs: seq<Visit>)
    requires vs != []
    ensures Known(vs, Last(vs).node, Last(vs).id)
  {
  }

  // Only a new visit and a received signal touch the visits.
  lemma Untouched(c: Setting, s: State, e: Event)
    requires Shaped(s) && !e.Begin? && !e.Receive?
    ensures Step(c, s, e).visits == s.visits && Step(c, s, e).seen == s.seen
  {
    hide EffectNow, MentionedNow, Admits, Comment, ValidateReport, StartTarget, START, END, Fresh;
  }

  lemma OnceReceive(c: Setting, s: State)
    requires Shaped(s) && OnPath(c, s) && Once(s)
    ensures Once(ReceiveStep(c, s))
  {
    hide Walk, Heads, ValidateReport;
  }

  lemma OnceBegin(s: State, id: string)
    requires Shaped(s) && Once(s)
    ensures Once(BeginStep(s, id))
  {
    hide Fresh;
  }

  lemma OnceStep(c: Setting, s: State, e: Event)
    requires Shaped(s) && OnPath(c, s) && Once(s)
    ensures Once(Step(c, s, e))
  {
    hide OnPath, ReceiveStep, BeginStep, Shaped;
    match e
    case Begin(id) => OnceBegin(s, id);
    case Receive => OnceReceive(c, s);
    case _ =>
      hide Step;
      Untouched(c, s, e);
  }
}
