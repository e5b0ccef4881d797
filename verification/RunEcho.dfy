/** A run in which a report quotes its own visit's feedback marker, on a node that
    routes to itself: the summary then stands in for the feedback, which is never
    written. */
module RunEcho {
  import opened Base
  import opened Markers
  import opened Workflows
  import opened RunProtocol
  import opened RunTrace
  import opened RunSteps

  // A state on the first visit, before its report.
  function Early(n: string, id: string, p: Phase, row: Row, world: seq<Effect>): State {
    State(p, n, [Visit(id, n, None)], Idle, world, row, {}, {}, [], multiset{})
  }

  lemma Entered(c: Setting, n: string, id: string) returns (es: seq<Event>)
    requires StartTarget(c.wf) == Some(n) && n != END && VisitId(id)
    ensures Run(c, es) == Early(n, id, ShowRunning, Row("", "", true, false), [])
  {
    hide StartTarget, VisitId, START, END;
    assert Run(c, []) == INITIAL;
    RunSnoc(c, [], Advance);
    RunSnoc(c, [Advance], Begin(id));
    assert [] + [Advance] == [Advance];
    es := [Advance] + [Begin(id)];
  }

  // No comment yet.
  predicate Quiet(world: seq<Effect>) { forall q :: 0 <= q < |world| ==> !world[q].Post? }

  lemma Ahead(c: Setting, es: seq<Event>, n: string, id: string, p: Phase, row: Row, world: seq<Effect>) returns (more: seq<Event>, w: seq<Effect>)
    requires Run(c, es) == Early(n, id, p, row, world) && Quiet(world)
    requires p == ShowRunning || p == LoadRuntime || p == PublishVisit || p == Apply || p == Ensure || p == Launch || p == PublishWaiting
    ensures Run(c, more) == Early(n, id, Follow(p, false), row, w) && Quiet(w)
  {
    RunSnoc(c, es, Advance);
    more := es + [Advance];
    w := world + [Did(p, 0, n)];
    hide Run;
  }

  lemma Launched(c: Setting, n: string, id: string) returns (es: seq<Event>, w: seq<Effect>)
    requires StartTarget(c.wf) == Some(n) && n != END && VisitId(id)
    ensures Run(c, es) == Early(n, id, Ensure, Row("", "", true, false), w) && Quiet(w)
  {
    hide Run, StartTarget, VisitId, START, END, Step, Early, Quiet;
    var none := Row("", "", true, false);
    es := Entered(c, n, id);
    w := [];
    assert Quiet(w) by { QuietNone(); }
    es, w := Ahead(c, es, n, id, ShowRunning, none, w);
    es, w := Ahead(c, es, n, id, LoadRuntime, none, w);
    es, w := Ahead(c, es, n, id, PublishVisit, none, w);
    es, w := Ahead(c, es, n, id, Apply, none, w);
  }

  lemma QuietNone()
    ensures Quiet([])
  {
  }

  lemma Waiting(c: Setting, n: string, id: string) returns (es: seq<Event>, w: seq<Effect>)
    requires StartTarget(c.wf) == Some(n) && n != END && VisitId(id)
    ensures Run(c, es) == Early(n, id, Await, Row(n, id, true, false), w) && Quiet(w)
  {
    hide Run, StartTarget, VisitId, START, END, Step, Early, Quiet;
    var none := Row("", "", true, false);
    es, w := Launched(c, n, id);
    es, w := Ahead(c, es, n, id, Ensure, none, w);
    es, w := Ahead(c, es, n, id, Launch, none, w);
    RunSnoc(c, es, Advance);
    es := es + [Advance];
    PublishNow(c, n, id, none, w);
    w := w + [Did(PublishNode, 0, n)];
    es, w := Ahead(c, es, n, id, PublishWaiting, Row(n, id, true, false), w);
  }

  lemma PublishNow(c: Setting, n: string, id: string, row: Row, world: seq<Effect>)
    requires row.live && !row.claimed && Quiet(world)
    ensures Step(c, Early(n, id, PublishNode, row, world), Advance)
         == Early(n, id, PublishWaiting, Row(n, id, true, false), world + [Did(PublishNode, 0, n)])
    ensures Quiet(world + [Did(PublishNode, 0, n)])
  {
  }

  predicate Loops(c: Setting, n: string, r: Report) {
    StartTarget(c.wf) == Some(n) && n != END && ValidateReport(c.wf, n, r).None? && r.nextStep == n
  }

  function Answer(n: string, id: string, r: Report): Signal { Signal("report", n, id, r) }

  // A state with the report taken.
  function Later(n: string, id: string, r: Report, p: Phase, posting: Posting, processed: set<string>, world: seq<Effect>): State {
    State(p, n, [Visit(id, n, Some(Answer(n, id, r)))], posting, world, Row(n, id, true, false), processed, {"report"}, [], multiset{})
  }

  function Sub(n: string, id: string, r: Report): Submission { Submission("report", n, r, Row(n, id, true, false), false) }

  lemma ReadNow(c: Setting, n: string, id: string, r: Report, w: seq<Effect>)
    ensures Step(c, Early(n, id, Await, Row(n, id, true, false), w), Read("report", n, r))
         == Early(n, id, Await, Row(n, id, true, false), w).(subs := multiset{Sub(n, id, r)})
  {
  }

  lemma CheckNow(c: Setting, n: string, id: string, r: Report, s: State)
    requires Loops(c, n, r) && id != "" && s.processed == {} && s.subs == multiset{Sub(n, id, r)} && Shaped(s)
    ensures Step(c, s, Check(Sub(n, id, r))) == s.(subs := multiset{Sub(n, id, r).(checked := true)})
  {
    hide StartTarget, ValidateReport, END;
    assert Admits(c, s, Sub(n, id, r));
    assert multiset{Sub(n, id, r)} - multiset{Sub(n, id, r)} == multiset{};
  }

  lemma SendNow(c: Setting, n: string, id: string, r: Report, s: State)
    requires s.queue == [] && s.subs == multiset{Sub(n, id, r).(checked := true)} && Shaped(s)
    ensures Step(c, s, Send(Sub(n, id, r).(checked := true))) == s.(subs := multiset{}, queue := [Answer(n, id, r)])
  {
    var sub := Sub(n, id, r).(checked := true);
    assert multiset{sub} - multiset{sub} == multiset{};
  }

  lemma ReceiveNow(c: Setting, n: string, id: string, r: Report, w: seq<Effect>)
    requires Loops(c, n, r)
    ensures Step(c, Early(n, id, Await, Row(n, id, true, false), w).(queue := [Answer(n, id, r)]), Receive) == Later(n, id, r, Record, Idle, {}, w)
  {
    hide StartTarget, ValidateReport, END;
  }

  lemma Submitted(c: Setting, n: string, id: string, r: Report) returns (es: seq<Event>, w: seq<Effect>)
    requires Loops(c, n, r) && VisitId(id)
    ensures Run(c, es) == Later(n, id, r, Record, Idle, {}, w) && Quiet(w)
  {
    var sub := Sub(n, id, r);
    es, w := Waiting(c, n, id);
    assert id != "";
    hide Run, Step, Loops, VisitId, Sub, Later, Answer, Quiet;
    ghost var s := Run(c, es);
    RunSnoc(c, es, Read("report", n, r));
    es := es + [Read("report", n, r)];
    ReadNow(c, n, id, r, w);
    RunSnoc(c, es, Check(sub));
    es := es + [Check(sub)];
    CheckNow(c, n, id, r, s.(subs := multiset{sub}));
    RunSnoc(c, es, Send(sub.(checked := true)));
    es := es + [Send(sub.(checked := true))];
    SendNow(c, n, id, r, s.(subs := multiset{sub.(checked := true)}));
    RunSnoc(c, es, Receive);
    es := es + [Receive];
    ReceiveNow(c, n, id, r, w);
  }

  // The summary of the first visit.
  function Post1(c: Setting, n: string, id: string, r: Report): Effect {
    Post(n, Marked(c.render(Summary, n, r), MarkerOf(id, Summary)), Relay(0, Summary))
  }

  lemma Summarizing(c: Setting, n: string, id: string, r: Report, world: seq<Effect>, es: seq<Event>) returns (more: seq<Event>, w: seq<Effect>)
    requires Loops(c, n, r) && Run(c, es) == Later(n, id, r, Record, Idle, {}, world) && Quiet(world)
    ensures Run(c, more) == Later(n, id, r, Summarize, Idle, {"report"}, w) && Quiet(w)
  {
    hide StartTarget, ValidateReport, END;
    RunSnoc(c, es, Advance);
    var a := es + [Advance];
    RunSnoc(c, a, Advance);
    more := a + [Advance];
    hide Run;
    var mid := world + [Did(Record, 0, n)];
    assert Run(c, a) == Later(n, id, r, ShowFinished, Idle, {"report"}, mid);
    w := mid + [Did(ShowFinished, 0, n)];
  }

  lemma ListNow(c: Setting, n: string, id: string, r: Report, p: Phase, w: seq<Effect>)
    requires r.nextStep == n && (p == Summarize || p == Handoff)
    ensures Step(c, Later(n, id, r, p, Idle, {"report"}, w), List)
         == Later(n, id, r, p, Listed(Mentioned(w, n, MarkerOf(id, KindNow(p)))), {"report"}, w)
  {
    hide Mentioned, MarkerOf;
  }

  lemma WriteNow(c: Setting, n: string, id: string, r: Report, w: seq<Effect>)
    ensures Step(c, Later(n, id, r, Summarize, Listed(false), {"report"}, w), Write)
         == Later(n, id, r, Summarize, Written, {"report"}, w + [Post1(c, n, id, r)])
  {
    hide Marked, MarkerOf;
  }

  lemma OnNow(c: Setting, n: string, id: string, r: Report, p: Phase, posting: Posting, w: seq<Effect>)
    requires r.nextStep == n != END && ((p == Summarize && posting == Written) || (p == Handoff && posting == Listed(true)))
    ensures Step(c, Later(n, id, r, p, posting, {"report"}, w), Advance)
         == Later(n, id, r, if p == Summarize then Handoff else Close, Idle, {"report"}, w)
  {
    hide END;
    assert w + [] == w;
  }

  lemma Unmentioned(w: seq<Effect>, n: string, m: string)
    requires Quiet(w)
    ensures !Mentioned(w, n, m)
  {
  }

  lemma Summarized(c: Setting, n: string, id: string, r: Report, w: seq<Effect>, es: seq<Event>) returns (more: seq<Event>)
    requires Loops(c, n, r) && Run(c, es) == Later(n, id, r, Summarize, Idle, {"report"}, w) && Quiet(w)
    ensures Run(c, more) == Later(n, id, r, Handoff, Idle, {"report"}, w + [Post1(c, n, id, r)])
  {
    hide Run, Step, Later, StartTarget, ValidateReport, END, MarkerOf, Mentioned, Post1;
    RunSnoc(c, es, List);
    more := es + [List];
    ListNow(c, n, id, r, Summarize, w);
    Unmentioned(w, n, MarkerOf(id, Summary));
    RunSnoc(c, more, Write);
    more := more + [Write];
    WriteNow(c, n, id, r, w);
    RunSnoc(c, more, Advance);
    more := more + [Advance];
    OnNow(c, n, id, r, Summarize, Written, w + [Post1(c, n, id, r)]);
  }

  lemma Skipped(c: Setting, n: string, id: string, r: Report, es: seq<Event>, w: seq<Effect>) returns (more: seq<Event>)
    requires Loops(c, n, r) && Run(c, es) == Later(n, id, r, Handoff, Idle, {"report"}, w)
    requires Mentioned(w, n, MarkerOf(id, Feedback))
    ensures Run(c, more) == Later(n, id, r, Close, Idle, {"report"}, w)
  {
    hide Run, Step, Later, StartTarget, ValidateReport, END, MarkerOf, Mentioned;
    RunSnoc(c, es, List);
    more := es + [List];
    ListNow(c, n, id, r, Handoff, w);
    RunSnoc(c, more, Advance);
    more := more + [Advance];
    OnNow(c, n, id, r, Handoff, Listed(true), w);
  }

  lemma MentionedBySummary(c: Setting, n: string, id: string, r: Report, w: seq<Effect>, m: string)
    requires Contains(Marked(c.render(Summary, n, r), MarkerOf(id, Summary)), m)
    ensures Mentioned(w + [Post1(c, n, id, r)], n, m)
  {
    hide Contains, Marked, MarkerOf;
    var v := w + [Post1(c, n, id, r)];
    assert PostIn(v[|w|], n);
  }

  lemma PassedWithout(c: Setting, n: string, id: string, r: Report, w: seq<Effect>)
    requires r.nextStep == n != END && Quiet(w)
    ensures var s := Later(n, id, r, Close, Idle, {"report"}, w + [Post1(c, n, id, r)]);
            && Passed(s, 0, Feedback) && !Wrote(s.world, 0, Feedback)
            && forall p :: 0 <= p < |s.world| && s.world[p].Post? ==> !s.world[p].author.Human?
  {
    hide Marked, MarkerOf, END;
  }

  // On a node that routes to itself, a summary that quotes the visit's feedback marker
  // replaces the feedback: the run goes past it and it is never written.
  lemma FeedbackSkipped(c: Setting, n: string, id: string, r: Report) returns (es: seq<Event>)
    requires Loops(c, n, r) && VisitId(id) && Contains(c.render(Summary, n, r), MarkerOf(id, Feedback))
    ensures Passed(Run(c, es), 0, Feedback) && !Wrote(Run(c, es).world, 0, Feedback)
    ensures forall p :: 0 <= p < |Run(c, es).world| && Run(c, es).world[p].Post? ==> !Run(c, es).world[p].author.Human?
  {
    hide Run, StartTarget, ValidateReport, VisitId, Marked, MarkerOf, Contains, Mentioned, END, Later, Post1, Wrote, Passed, Quiet;
    var w;
    es, w := Submitted(c, n, id, r);
    es, w := Summarizing(c, n, id, r, w, es);
    es := Summarized(c, n, id, r, w, es);
    VisitMarkerIff(c.render(Summary, n, r), id, Summary, id, Feedback);
    MentionedBySummary(c, n, id, r, w, MarkerOf(id, Feedback));
    es := Skipped(c, n, id, r, es, w + [Post1(c, n, id, r)]);
    PassedWithout(c, n, id, r, w);
  }
}
