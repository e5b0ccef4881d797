/** The run protocol's promises, for every interleaving of activity attempts,
    crashes, submissions, remarks and cancellation. */
module RunTheorems {
  import opened Base
  import opened Markers
  import opened Workflows
  import opened RunProtocol
  import opened RunInvariants
  import opened RunTrace

  ghost predicate Inv(c: Setting, s: State)
    requires Shaped(s)
  {
    && OnPath(c, s) && Mail(c, s) && Once(s)
    && InOrder(s) && Posts(c, s) && UnderWay(c, s) && Single(s.world) && Settled(s) && AllAlone(s)
  }

  lemma InvInitial(c: Setting)
    ensures Inv(c, INITIAL)
  {
    hide START, END;
  }

  lemma InvStep(c: Setting, s: State, e: Event)
    requires Valid(c.wf) && Shaped(s) && Inv(c, s)
    ensures Inv(c, Step(c, s, e))
  {
    hide Valid, Shaped, Step, OnPath, Mail, Once, InOrder, Posts, UnderWay, Single, Settled, AllAlone;
    OnPathStep(c, s, e);
    MailStep(c, s, e);
    OnceStep(c, s, e);
    InOrderStep(c, s, e);
    PostsStep(c, s, e);
    PostingStep(c, s, e);
    SingleStep(c, s, e);
    SettledStep(c, s, e);
    AloneStep(c, s, e);
  }

  lemma {:induction false} Invariant(c: Setting, es: seq<Event>)
    requires Valid(c.wf)
    ensures Inv(c, Run(c, es))
  {
    hide Inv, Valid, Step, Shaped, INITIAL;
    if es == [] {
      InvInitial(c);
    } else {
      Invariant(c, es[..|es| - 1]);
      InvStep(c, Run(c, es[..|es| - 1]), es[|es| - 1]);
    }
  }

  /* ---- the visited nodes ---- */

  // The visits of any run walk configured routes from the start edge over work
  // nodes only, each along a route of the outcome reported before it, and the
  // workflow never rejects a report the server let through.
  lemma VisitsWalk(c: Setting, es: seq<Event>)
    requires Valid(c.wf)
    ensures var s := Run(c, es); s.phase != Rejected && forall i :: 0 <= i < |s.visits| ==> Stepped(c.wf, s.visits, i)
  {
    hide Run, Valid, Stepped, Shaped, Mail, Once, InOrder, Posts, UnderWay, Single, Settled, AllAlone;
    var s := Run(c, es);
    Invariant(c, es);
    forall i | 0 <= i < |s.visits|
      ensures Stepped(c.wf, s.visits, i)
    {
      VisitStepped(c, s.visits, i);
    }
  }

  // A route of the node for the outcome goes to the target.
  predicate RouteFor(w: Workflow, node: string, outcome: Outcome, target: string) {
    node in w.nodes && match outcome
                       case Success => LeadsTo(w.nodes[node].onSuccess, target)
                       case Failure => LeadsTo(w.nodes[node].onFailure, target)
                       case Other(_) => false
  }

  ghost predicate Stepped(w: Workflow, vs: seq<Visit>, i: nat)
    requires i < |vs|
  {
    && vs[i].node in w.nodes && vs[i].node != "start" && vs[i].node != "end"
    && (if i == 0 then RouteFor(w, "start", Success, vs[0].node)
        else vs[i - 1].taken.Some? && vs[i].node == vs[i - 1].taken.value.report.nextStep
             && RouteFor(w, vs[i - 1].node, vs[i - 1].taken.value.report.status, vs[i].node))
  }

  lemma VisitStepped(c: Setting, vs: seq<Visit>, i: nat)
    requires Valid(c.wf) && Walk(c, vs) && i < |vs|
    ensures Stepped(c.wf, vs, i)
  {
    hide Valid, Edge, ValidateReport, VisitId, LeadsTo, StartTarget;
    assert VisitOk(c, vs, i);
    if i == 0 {
      StartLeads(c.wf);
    } else {
      assert VisitOk(c, vs, i - 1);
      AcceptsIff(c.wf, vs[i - 1].node, vs[i - 1].taken.value.report);
    }
  }

  // A run that finishes was led to end by its last report, a success, along a success
  // route and without feedback, or by the start edge.
  lemma FinishesAtEnd(c: Setting, es: seq<Event>)
    requires Valid(c.wf) && Run(c, es).phase == Done
    ensures var vs := Run(c, es).visits;
            if vs == [] then RouteFor(c.wf, "start", Success, "end")
            else vs[|vs| - 1].taken.Some? && LastSuccess(c.wf, vs[|vs| - 1].node, vs[|vs| - 1].taken.value.report)
  {
    var vs := Run(c, es).visits;
    Invariant(c, es);
    if vs == [] { StartLeads(c.wf); } else { LedToEnd(c, vs); }
    hide Run, Valid, Shaped, Mail, Once, InOrder, Posts, UnderWay, Single, Settled, AllAlone, Walk, LastSuccess, LeadsTo, StartTarget;
  }

  predicate LastSuccess(w: Workflow, node: string, r: Report) {
    && r.status == Success && r.nextStep == "end" && RouteFor(w, node, Success, "end")
    && forall i :: 0 <= i < |r.feedback| ==> r.feedback[i] == "None"
  }

  lemma LedToEnd(c: Setting, vs: seq<Visit>)
    requires Walk(c, vs) && vs != [] && Heads(c, vs, END)
    ensures vs[|vs| - 1].taken.Some? && LastSuccess(c.wf, vs[|vs| - 1].node, vs[|vs| - 1].taken.value.report)
  {
    hide ValidateReport, VisitId, LeadsTo, StartTarget;
    assert VisitOk(c, vs, |vs| - 1);
    AcceptsIff(c.wf, Last(vs).node, Last(vs).taken.value.report);
  }

  /* ---- reports ---- */

  // Every visit but the last one took one report, sent to that visit and valid for
  // its node; no report ID answers two visits.
  lemma ReportsOnce(c: Setting, es: seq<Event>)
    requires Valid(c.wf)
    ensures var vs := Run(c, es).visits;
            && (forall i :: 0 <= i < |vs| - 1 ==> vs[i].taken.Some?)
            && (forall i :: 0 <= i < |vs| && vs[i].taken.Some? ==>
                  vs[i].taken.value.visit == vs[i].id && vs[i].taken.value.node == vs[i].node
                  && ValidateReport(c.wf, vs[i].node, vs[i].taken.value.report).None?)
            && (forall i, j :: 0 <= i < j < |vs| && vs[i].taken.Some? && vs[j].taken.Some? ==>
                  vs[i].taken.value.id != vs[j].taken.value.id)
            && forall i, j :: 0 <= i < j < |vs| ==> vs[i].id != vs[j].id
  {
    hide Run, Valid, ValidateReport, WorkNode, VisitId, Shaped, Mail, InOrder, Posts, UnderWay, Single, Settled, AllAlone;
    var s := Run(c, es);
    Invariant(c, es);
    var vs := s.visits;
    forall i | 0 <= i < |vs|
      ensures i < |vs| - 1 ==> vs[i].taken.Some?
      ensures Answers(c, vs[i])
    {
      assert VisitOk(c, vs, i);
      if i + 1 < |vs| { assert VisitOk(c, vs, i + 1); }
    }
  }

  /* ---- effects ---- */

  // The effects of a run appear in program order: for each visit its start, its
  // summary, its feedback and its completion, then the next visit.
  lemma EffectsOrdered(c: Setting, es: seq<Event>, p: nat, q: nat)
    requires Valid(c.wf) && p < q < |Run(c, es).world|
    requires ByRun(Run(c, es).world[p]) && ByRun(Run(c, es).world[q])
    ensures Key(Run(c, es).world[p]) <= Key(Run(c, es).world[q])
  {
    Invariant(c, es);
    assert InOrder(Run(c, es));
  }

  // Some comment the run wrote earlier on the same mailbox has the marker of comment
  // k of visit i in its rendered body.
  ghost predicate Quoted(c: Setting, s: State, i: nat, k: Kind)
    requires i < |s.visits| && s.visits[i].taken.Some?
  {
    exists j: nat, l ::
      && j < |s.visits| && s.visits[j].taken.Some? && Wrote(s.world, j, l) && KeyOf(j, l) < KeyOf(i, k)
      && Target(s.visits[j], l) == Target(s.visits[i], k)
      && Contains(Body(c, s.visits[j], l), MarkerOf(s.visits[i].id, k))
  }

  ghost predicate HumanQuotes(s: State, i: nat, k: Kind)
    requires i < |s.visits| && s.visits[i].taken.Some?
  {
    exists p :: 0 <= p < |s.world| && PostIn(s.world[p], Target(s.visits[i], k)) && s.world[p].author.Human?
                && Contains(s.world[p].text, MarkerOf(s.visits[i].id, k))
  }

  // A comment of the run is the rendering of its kind with the marker of its visit,
  // the summary on the mailbox of the visit's node and the feedback on that of the
  // reported next step, which is not end; and it was written at most once.
  lemma CommentPlaced(c: Setting, es: seq<Event>, i: nat, k: Kind)
    requires Valid(c.wf)
    ensures var s := Run(c, es);
            && (forall p :: 0 <= p < |s.world| && PostBy(s.world[p], i, k) ==>
                  i < |s.visits| && s.visits[i].taken.Some? && PostedFor(c, s.visits[i], k, s.world[p].mailbox, s.world[p].text))
            && forall p, q :: 0 <= p < q < |s.world| && PostBy(s.world[p], i, k) ==> !PostBy(s.world[q], i, k)
  {
    var s := Run(c, es);
    Invariant(c, es);
    assert Posts(c, s) && Single(s.world);
    hide Run, Inv, Valid, END, PostedFor, PostOk;
    forall p | 0 <= p < |s.world| && PostBy(s.world[p], i, k)
      ensures i < |s.visits| && s.visits[i].taken.Some? && PostedFor(c, s.visits[i], k, s.world[p].mailbox, s.world[p].text)
    {
      PostedAs(c, s.visits, s.world[p], i, k);
    }
  }

  predicate PostedFor(c: Setting, v: Visit, k: Kind, mailbox: string, text: string)
    requires v.taken.Some?
  {
    var r := v.taken.value.report;
    match k
    case Summary => mailbox == v.node && text == c.render(Summary, v.node, r) + "\n\n<!-- " + v.id + ":summary" + " -->"
    case Feedback =>
      && mailbox == r.nextStep && mailbox != "end"
      && text == c.render(Feedback, v.node, r) + "\n\n<!-- " + v.id + ":feedback" + " -->"
  }

  lemma PostedAs(c: Setting, vs: seq<Visit>, e: Effect, i: nat, k: Kind)
    requires PostOk(c, vs, e) && PostBy(e, i, k)
    ensures i < |vs| && vs[i].taken.Some? && PostedFor(c, vs[i], k, e.mailbox, e.text)
  {
    var body, opening, id, tag, closing := c.render(k, vs[i].node, vs[i].taken.value.report), OPENING, vs[i].id, Tag(k), CLOSING;
    assert e.text == body + opening + (id + tag) + closing;
    assert body + opening + (id + tag) + closing == body + opening + id + tag + closing by {
      hide OPENING, CLOSING, Tag;
    }
  }

  // An earlier comment of the run has the marker exactly when its body quotes it.
  lemma EarlierQuotes(c: Setting, s: State, i: nat, k: Kind, q: nat, j: nat, l: Kind)
    requires Shaped(s) && Inv(c, s) && i < |s.visits| && s.visits[i].taken.Some? && q < |s.world|
    requires PostBy(s.world[q], j, l) && KeyOf(j, l) < KeyOf(i, k)
    ensures j < |s.visits| && s.visits[j].taken.Some? && s.world[q] == Comment(c, j, s.visits[j], l)
    ensures Contains(s.world[q].text, MarkerOf(s.visits[i].id, k)) <==>
            Contains(Body(c, s.visits[j], l), MarkerOf(s.visits[i].id, k))
  {
    assert PostOk(c, s.visits, s.world[q]) && OnPath(c, s);
    assert VisitOk(c, s.visits, i) && VisitOk(c, s.visits, j);
    hide Inv, Shaped, Contains, Marked, MarkerOf, VisitId, Answers, Follows, WorkNode;
    VisitMarkerIff(Body(c, s.visits[j], l), s.visits[j].id, l, s.visits[i].id, k);
  }

  // Every comment a run has passed is on its mailbox, unless somebody else's comment
  // there, or an earlier one of the run, already had its marker. When no person wrote
  // the marker, the comment is missing exactly if an earlier report text of the run
  // quotes it.
  lemma CommentWritten(c: Setting, es: seq<Event>, i: nat, k: Kind)
    requires Valid(c.wf) && Passed(Run(c, es), i, k)
    ensures i < |Run(c, es).visits| && Run(c, es).visits[i].taken.Some?
    ensures Wrote(Run(c, es).world, i, k) || HumanQuotes(Run(c, es), i, k) || Quoted(c, Run(c, es), i, k)
    ensures !HumanQuotes(Run(c, es), i, k) ==> (Wrote(Run(c, es).world, i, k) <==> !Quoted(c, Run(c, es), i, k))
  {
    var s := Run(c, es);
    Invariant(c, es);
    hide Run, Valid;
    assert SettledAt(s, i, k) && AllAlone(s) && InOrder(s);
    hide Inv, Shaped, Passed;
    if !Wrote(s.world, i, k) {
      EchoFound(c, s, i, k);
    } else {
      WroteUnquoted(c, s, i, k);
    }
  }

  lemma EchoFound(c: Setting, s: State, i: nat, k: Kind)
    requires Shaped(s) && Inv(c, s) && i < |s.visits| && s.visits[i].taken.Some?
    requires Echoed(s.world, Target(s.visits[i], k), MarkerOf(s.visits[i].id, k), i, k)
    ensures HumanQuotes(s, i, k) || Quoted(c, s, i, k)
  {
    hide Inv, Shaped, Contains, Marked, MarkerOf, KeyOf;
    var mailbox, marker := Target(s.visits[i], k), MarkerOf(s.visits[i].id, k);
    var q :| 0 <= q < |s.world| && PostIn(s.world[q], mailbox) && Prior(s.world[q], i, k) && Contains(s.world[q].text, marker);
    if s.world[q].author.Relay? {
      var j, l := s.world[q].author.visit, s.world[q].author.kind;
      EarlierQuotes(c, s, i, k, q, j, l);
      assert PostBy(s.world[q], j, l);
    }
  }

  lemma NotQuotedBy(c: Setting, s: State, i: nat, k: Kind, p: nat, j: nat, l: Kind)
    requires Shaped(s) && Inv(c, s) && AllAlone(s) && InOrder(s) && i < |s.visits| && s.visits[i].taken.Some?
    requires p < |s.world| && PostBy(s.world[p], i, k)
    requires j < |s.visits| && s.visits[j].taken.Some? && Wrote(s.world, j, l) && KeyOf(j, l) < KeyOf(i, k)
    requires Target(s.visits[j], l) == Target(s.visits[i], k)
    ensures !Contains(Body(c, s.visits[j], l), MarkerOf(s.visits[i].id, k))
  {
    hide Inv, Contains, Marked, MarkerOf, KeyOf, Cursor;
    var q :| 0 <= q < |s.world| && PostBy(s.world[q], j, l);
    assert ByRun(s.world[p]) && ByRun(s.world[q]);
    hide Shaped;
    EarlierQuotes(c, s, i, k, q, j, l);
    PostTarget(c, s, i, k, p);
    assert q < p;
    assert Alone(s.visits, s.world, p);
  }

  lemma WroteUnquoted(c: Setting, s: State, i: nat, k: Kind)
    requires Shaped(s) && Inv(c, s) && AllAlone(s) && InOrder(s) && i < |s.visits| && s.visits[i].taken.Some?
    requires Wrote(s.world, i, k)
    ensures !Quoted(c, s, i, k)
  {
    hide Inv, Contains, MarkerOf, KeyOf, Shaped, AllAlone, InOrder, Body;
    var p :| 0 <= p < |s.world| && PostBy(s.world[p], i, k);
    forall j: nat, l | j < |s.visits| && s.visits[j].taken.Some? && Wrote(s.world, j, l) && KeyOf(j, l) < KeyOf(i, k)
                       && Target(s.visits[j], l) == Target(s.visits[i], k)
      ensures !Contains(Body(c, s.visits[j], l), MarkerOf(s.visits[i].id, k))
    {
      NotQuotedBy(c, s, i, k, p, j, l);
    }
  }

  lemma PostTarget(c: Setting, s: State, i: nat, k: Kind, p: nat)
    requires Shaped(s) && Inv(c, s) && p < |s.world| && PostBy(s.world[p], i, k)
    ensures i < |s.visits| && s.visits[i].taken.Some? && s.world[p].mailbox == Target(s.visits[i], k)
  {
    assert PostOk(c, s.visits, s.world[p]);
    hide Marked, MarkerOf;
  }
}
