/** Every activity of a run takes effect after all that the program puts before it, a
    run that goes on has left none out, and what the projection shows of a waiting run
    is what a report is checked against. */
module RunSteps {
  import opened Base
  import opened Markers
  import opened Workflows
  import opened RunProtocol
  import opened RunInvariants
  import opened RunTrace
  import opened RunTheorems

  // Among the first n effects is step p of visit i, at the node.
  ghost predicate DidIn(world: seq<Effect>, n: nat, p: Phase, i: nat, node: string) {
    exists q :: 0 <= q < n && q < |world| && world[q] == Did(p, i, node)
  }

  // A run at this phase, with so many visits, has left step p of visit i behind.
  predicate Left(at: Phase, visits: nat, i: nat, p: Phase) {
    && InVisit(p) && i < visits
    && (i + 1 < visits || (InVisit(at) && Rank(p) < Rank(at)) || at == Enter || Ending(at))
  }

  predicate Past(s: State, i: nat, p: Phase) { Left(s.phase, |s.visits|, i, p) }

  predicate PastEnd(s: State, p: Phase) { Ending(s.phase) && Ending(p) && Rank(p) < Rank(s.phase) }

  ghost predicate Complete(s: State) {
    && (forall i: nat, p :: Acting(p) && Past(s, i, p) ==> DidIn(s.world, |s.world|, p, i, s.visits[i].node))
    && (forall p :: Acting(p) && PastEnd(s, p) ==> DidIn(s.world, |s.world|, p, |s.visits|, END))
    && (Ending(s.phase) ==> s.current == END)
  }

  lemma DidMore(world: seq<Effect>, more: seq<Effect>, n: nat, m: nat, p: Phase, i: nat, node: string)
    requires DidIn(world, n, p, i, node) && n <= m
    ensures DidIn(world + more, m, p, i, node)
  {
    var q :| 0 <= q < n && q < |world| && world[q] == Did(p, i, node);
    assert (world + more)[q] == world[q];
  }

  lemma RankApart(p: Phase, q: Phase)
    requires Acting(p) && Acting(q) && Rank(p) == Rank(q)
    ensures p == q
  {
  }

  // The program moves from one activity to the next.
  lemma NextLeft(at: Phase, end: bool, visits: nat, i: nat, p: Phase)
    requires Acting(p) && at != Setup && (InVisit(at) ==> visits > 0) && Left(Follow(at, end), visits, i, p) && !Left(at, visits, i, p)
    ensures p == at && i + 1 == visits
  {
  }

  lemma NextEnd(at: Phase, end: bool, p: Phase)
    requires Acting(p) && Ending(p) && Ending(Follow(at, end)) && Rank(p) < Rank(Follow(at, end)) && !(Ending(at) && Rank(p) < Rank(at))
    ensures p == at
  {
  }

  lemma AdvancePhase(c: Setting, s: State) returns (end: bool)
    requires Shaped(s) && s.phase != Setup
    ensures AdvanceStep(c, s).phase == s.phase || AdvanceStep(c, s).phase == Follow(s.phase, end)
    ensures AdvanceStep(c, s).visits == s.visits && AdvanceStep(c, s).world == s.world + if AdvanceStep(c, s) == s then [] else EffectNow(s)
    ensures AdvanceStep(c, s).phase != s.phase ==> AdvanceStep(c, s).world == s.world + EffectNow(s)
    ensures Ending(AdvanceStep(c, s).phase) && (Ending(s.phase) ==> s.current == END) ==> AdvanceStep(c, s).current == END
  {
    ActKeeps(s);
    hide ActStep, EffectNow, END, Published;
    end := Answered(s.phase) && NextOf(Last(s.visits)) == END;
    assert s.world + [] == s.world;
  }

  lemma EffectIs(s: State)
    requires Shaped(s)
    ensures Acting(s.phase) && InVisit(s.phase) ==> EffectNow(s) == [Did(s.phase, |s.visits| - 1, Last(s.visits).node)]
    ensures Acting(s.phase) && Ending(s.phase) ==> EffectNow(s) == [Did(s.phase, |s.visits|, s.current)]
    ensures !Acting(s.phase) ==> EffectNow(s) == []
  {
  }

  lemma CompleteFrom(s: State, r: State, more: seq<Effect>)
    requires Complete(s) && Grows(s.visits, r.visits) && r.world == s.world + more && (Ending(r.phase) ==> r.current == END)
    requires forall i: nat, p :: Acting(p) && Past(r, i, p) && !Past(s, i, p) ==> DidIn(r.world, |r.world|, p, i, r.visits[i].node)
    requires forall p :: Acting(p) && PastEnd(r, p) && !PastEnd(s, p) ==> DidIn(r.world, |r.world|, p, |r.visits|, END)
    requires Ending(s.phase) && Ending(r.phase) ==> |r.visits| == |s.visits|
    ensures Complete(r)
  {
    hide DidIn, Acting, Rank, END;
    forall i: nat, p | Acting(p) && Past(r, i, p)
      ensures DidIn(r.world, |r.world|, p, i, r.visits[i].node)
    {
      if Past(s, i, p) {
        assert r.visits[i].node == s.visits[i].node;
        DidMore(s.world, more, |s.world|, |r.world|, p, i, s.visits[i].node);
      }
    }
    forall p | Acting(p) && PastEnd(r, p)
      ensures DidIn(r.world, |r.world|, p, |r.visits|, END)
    {
      if PastEnd(s, p) { DidMore(s.world, more, |s.world|, |r.world|, p, |s.visits|, END); }
    }
  }

  lemma CompleteAdvance(c: Setting, s: State)
    requires Shaped(s) && OnPath(c, s) && Complete(s)
    ensures Complete(AdvanceStep(c, s))
  {
    StepGrows(c, s, Advance);
    var r := AdvanceStep(c, s);
    assert r == Step(c, s, Advance);
    EffectIs(s);
    if s.phase == Setup {
      CompleteSetup(c, s);
    } else {
      var end := AdvancePhase(c, s);
      hide AdvanceStep, Step, EffectNow, OnPath, END;
      assert s.world + [] == s.world;
      forall i: nat, p | Acting(p) && Past(r, i, p) && !Past(s, i, p)
        ensures DidIn(r.world, |r.world|, p, i, r.visits[i].node)
      {
        NextLeft(s.phase, end, |s.visits|, i, p);
        assert r.world[|s.world|] == Did(p, i, r.visits[i].node);
      }
      forall p | Acting(p) && PastEnd(r, p) && !PastEnd(s, p)
        ensures DidIn(r.world, |r.world|, p, |r.visits|, END)
      {
        NextEnd(s.phase, end, p);
        assert r.world[|s.world|] == Did(p, |r.visits|, END);
      }
      CompleteFrom(s, r, if r.world == s.world then [] else EffectNow(s));
    }
  }

  lemma CompleteSetup(c: Setting, s: State)
    requires Shaped(s) && OnPath(c, s) && s.phase == Setup
    ensures Complete(AdvanceStep(c, s))
  {
    hide StartTarget, END;
  }

  // Other events leave the program where it is, begin a visit, answer it, or stop it.
  lemma Elsewhere(c: Setting, s: State, e: Event)
    requires Shaped(s) && !e.Advance?
    ensures var r := Step(c, s, e);
            || (r.phase == s.phase && r.current == s.current && |r.visits| == |s.visits|)
            || (s.phase == Enter && r.phase == ShowRunning && |r.visits| == |s.visits| + 1)
            || (s.phase == Await && (r.phase == Record || r.phase == Rejected) && |r.visits| == |s.visits|)
            || (r.phase == Stopped && |r.visits| == |s.visits|)
    ensures !e.Begin? && !e.Receive? ==> Step(c, s, e).visits == s.visits
  {
    if e.Repeat? { ActKeeps(s); }
    hide ActStep, AdvanceStep, MentionedNow, Admits, Comment, ValidateReport, Fresh, EffectNow, Published, END;
  }

  lemma BeginsLeft(visits: nat, i: nat, p: Phase)
    requires Acting(p) && Left(ShowRunning, visits + 1, i, p)
    ensures Left(Enter, visits, i, p)
  {
  }

  lemma AnswersLeft(at: Phase, visits: nat, i: nat, p: Phase)
    requires Acting(p) && (at == Record || at == Rejected) && Left(at, visits, i, p)
    ensures Left(Await, visits, i, p)
  {
  }

  lemma StopsLeft(at: Phase, visits: nat, i: nat, p: Phase)
    requires Left(Stopped, visits, i, p)
    ensures Left(at, visits, i, p)
  {
  }

  // Nothing else leaves an activity behind.
  lemma NothingPast(c: Setting, s: State, e: Event)
    requires Shaped(s) && !e.Advance? && (Ending(s.phase) ==> s.current == END)
    ensures forall i: nat, p :: Acting(p) && Past(Step(c, s, e), i, p) ==> Past(s, i, p)
    ensures forall p :: Acting(p) && PastEnd(Step(c, s, e), p) ==> PastEnd(s, p)
    ensures Ending(Step(c, s, e).phase) ==> Ending(s.phase) && Step(c, s, e).current == END && |Step(c, s, e).visits| == |s.visits|
  {
    Elsewhere(c, s, e);
    hide Step, END, Shaped, Left, Acting;
    var r := Step(c, s, e);
    forall i: nat, p | Acting(p) && Past(r, i, p)
      ensures Past(s, i, p)
    {
      if r.phase == Stopped {
        StopsLeft(s.phase, |s.visits|, i, p);
      } else if s.phase == Enter && r.phase == ShowRunning {
        BeginsLeft(|s.visits|, i, p);
      } else if s.phase == Await && r.phase != Await {
        AnswersLeft(r.phase, |s.visits|, i, p);
      }
    }
  }

  lemma CompleteStep(c: Setting, s: State, e: Event)
    requires Shaped(s) && OnPath(c, s) && Complete(s)
    ensures Complete(Step(c, s, e))
  {
    if e.Advance? {
      CompleteAdvance(c, s);
      assert Step(c, s, e) == AdvanceStep(c, s);
    } else {
      NothingPast(c, s, e);
      StepGrows(c, s, e);
      WorldGrows(c, s, e);
      hide Step, Added, OnPath, Past, PastEnd, Grows;
      CompleteFrom(s, Step(c, s, e), Added(c, s, e));
    }
  }

  /* ---- what is in the world, and what stands before it ---- */

  // Everything the program puts before effect q came before it.
  ghost predicate Preceded(vs: seq<Visit>, world: seq<Effect>, q: nat)
    requires q < |world|
  {
    world[q].Did? ==>
      var p, i := world[q].step, world[q].visit;
      && i <= |vs|
      && (forall j: nat, r :: Acting(r) && Left(p, if InVisit(p) then i + 1 else i, j, r) && j < |vs| ==> DidIn(world, q, r, j, vs[j].node))
      && (forall r :: Acting(r) && Ending(p) && Ending(r) && Rank(r) < Rank(p) ==> DidIn(world, q, r, i, END))
  }

  // Effect q belongs to a visit of the run, or to its end.
  ghost predicate Belongs(c: Setting, s: State, q: nat)
    requires q < |s.world|
  {
    var e := s.world[q];
    e.Did? ==>
      && Acting(e.step)
      && (InVisit(e.step) ==> e.visit < |s.visits| && e.node == s.visits[e.visit].node && (Answered(e.step) ==> s.visits[e.visit].taken.Some?))
      && (Ending(e.step) ==> e.visit == |s.visits| && e.node == END && Heads(c, s.visits, END) && (Ending(s.phase) || s.phase == Stopped))
  }

  ghost predicate Ranked(c: Setting, s: State) { forall q :: 0 <= q < |s.world| ==> Preceded(s.visits, s.world, q) && Belongs(c, s, q) }

  lemma PrecededMore(vs: seq<Visit>, us: seq<Visit>, world: seq<Effect>, more: seq<Effect>, q: nat)
    requires q < |world| && Preceded(vs, world, q) && Grows(vs, us)
    requires world[q].Did? ==> (InVisit(world[q].step) && world[q].visit < |vs|) || |vs| == |us|
    ensures Preceded(us, world + more, q)
  {
    hide DidIn, Acting, END, Rank;
    assert (world + more)[q] == world[q];
    if world[q].Did? {
      var p, i := world[q].step, world[q].visit;
      forall j: nat, r | Acting(r) && Left(p, if InVisit(p) then i + 1 else i, j, r) && j < |us|
        ensures DidIn(world + more, q, r, j, us[j].node)
      {
        assert j < |vs| && us[j].node == vs[j].node;
        DidMore(world, more, q, q, r, j, vs[j].node);
      }
      forall r | Acting(r) && Ending(p) && Ending(r) && Rank(r) < Rank(p)
        ensures DidIn(world + more, q, r, i, END)
      {
        DidMore(world, more, q, q, r, i, END);
      }
    }
  }

  lemma PrecededNow(c: Setting, s: State)
    requires Shaped(s) && OnPath(c, s) && Complete(s) && Acting(s.phase)
    ensures var w := s.world + EffectNow(s); |w| == |s.world| + 1 && Preceded(s.visits, w, |s.world|)
  {
    EffectIs(s);
    var w, p := s.world + EffectNow(s), s.phase;
    hide DidIn, Acting, END, Rank, OnPath, EffectNow, Shaped;
    assert w[|s.world|] == EffectNow(s)[0];
    var n := |s.visits|;
    forall j: nat, r | Acting(r) && Left(p, n, j, r)
      ensures DidIn(w, |s.world|, r, j, s.visits[j].node)
    {
      assert Past(s, j, r);
      DidMore(s.world, EffectNow(s), |s.world|, |s.world|, r, j, s.visits[j].node);
    }
    forall r | Acting(r) && Ending(p) && Ending(r) && Rank(r) < Rank(p)
      ensures DidIn(w, |s.world|, r, n, END)
    {
      assert PastEnd(s, r);
      DidMore(s.world, EffectNow(s), |s.world|, |s.world|, r, n, END);
    }
  }

  lemma BelongsNow(c: Setting, s: State, r: State)
    requires Shaped(s) && OnPath(c, s) && Complete(s) && Acting(s.phase) && r.visits == s.visits && r.world == s.world + EffectNow(s)
    requires Ending(s.phase) ==> Ending(r.phase)
    ensures |r.world| == |s.world| + 1 && Belongs(c, r, |s.world|)
  {
    EffectIs(s);
    hide END, Rank, EffectNow, Walk, Heads, WorkNode, DidIn;
  }

  lemma BelongsLater(c: Setting, s: State, e: Event, q: nat)
    requires Shaped(s) && OnPath(c, s) && q < |s.world| && Belongs(c, s, q)
    ensures var r := Step(c, s, e); q < |r.world| && Belongs(c, r, q)
  {
    WorldGrows(c, s, e);
    StepGrows(c, s, e);
    var r := Step(c, s, e);
    assert r.world[q] == s.world[q];
    if s.world[q].Did? && Ending(s.world[q].step) {
      EndingStays(c, s, e);
    }
    hide Step, Added, Heads, END, OnPath, Shaped;
  }

  lemma EndingStays(c: Setting, s: State, e: Event)
    requires Shaped(s) && (Ending(s.phase) || s.phase == Stopped)
    ensures var r := Step(c, s, e); r.visits == s.visits && (Ending(r.phase) || r.phase == Stopped)
  {
    if e.Repeat? || e.Advance? { ActKeeps(s); }
    hide ActStep, MentionedNow, Admits, Comment, ValidateReport, Fresh, EffectNow, Published, END, StartTarget;
  }

  // The effect a step adds, if it is not a comment, is the activity of the phase.
  lemma AddedActs(c: Setting, s: State, e: Event)
    requires Shaped(s) && Added(c, s, e) != [] && Added(c, s, e)[0].Did?
    ensures Acting(s.phase) && Added(c, s, e) == EffectNow(s) && (e.Advance? || e.Repeat?)
    ensures Step(c, s, e).visits == s.visits && (Ending(s.phase) ==> Ending(Step(c, s, e).phase))
  {
    ActKeeps(s);
    hide ActStep, MentionedNow, Marked, MarkerOf, END, StartTarget, Published;
  }

  lemma RankedStep(c: Setting, s: State, e: Event)
    requires Shaped(s) && OnPath(c, s) && Complete(s) && Ranked(c, s)
    ensures Ranked(c, Step(c, s, e))
  {
    var r, more := Step(c, s, e), Added(c, s, e);
    WorldGrows(c, s, e);
    StepGrows(c, s, e);
    AddedNow(c, s, e);
    hide Step, Added, OnPath, Complete, Preceded, Belongs, Grows, Key, Shaped;
    forall q | 0 <= q < |r.world|
      ensures Preceded(r.visits, r.world, q) && Belongs(c, r, q)
    {
      if q < |s.world| {
        BelongsLater(c, s, e, q);
        VisitsFixed(c, s, r, q);
        PrecededMore(s.visits, r.visits, s.world, more, q);
      } else if more[0].Did? {
        AddedActs(c, s, e);
        PrecededNow(c, s);
        BelongsNow(c, s, r);
      } else {
        NoActivity(c, r, q);
      }
    }
  }

  lemma NoActivity(c: Setting, r: State, q: nat)
    requires q < |r.world| && !r.world[q].Did?
    ensures Preceded(r.visits, r.world, q) && Belongs(c, r, q)
  {
  }

  lemma VisitsFixed(c: Setting, s: State, r: State, q: nat)
    requires q < |s.world| && q < |r.world| && r.world[q] == s.world[q] && Belongs(c, s, q) && Belongs(c, r, q)
    ensures s.world[q].Did? ==> (InVisit(s.world[q].step) && s.world[q].visit < |s.visits|) || |s.visits| == |r.visits|
  {
  }

  /* ---- what submissions are checked against ---- */

  // From publication on the row shows the visit, unless a cancellation claims it, and
  // the reports recorded are those of the visits that went past their recording.
  ghost predicate Shown(s: State) {
    && RowShows(s)
    && (forall i: nat :: Past(s, i, Record) && s.visits[i].taken.Some? ==> s.visits[i].taken.value.id in s.processed)
    && (forall id :: id in s.processed ==> Taken(s.visits, id))
  }

  // The ID of the last visit.
  function LastId(vs: seq<Visit>): string { if vs == [] then "" else vs[|vs| - 1].id }

  ghost predicate Taken(vs: seq<Visit>, id: string) { exists i :: 0 <= i < |vs| && vs[i].taken.Some? && vs[i].taken.value.id == id }

  lemma TakenMore(vs: seq<Visit>, us: seq<Visit>, id: string)
    requires Taken(vs, id) && Grows(vs, us)
    ensures Taken(us, id)
  {
    var i :| 0 <= i < |vs| && vs[i].taken.Some? && vs[i].taken.value.id == id;
    assert us[i].taken == vs[i].taken;
  }

  predicate RowShows(s: State) {
    && (InVisit(s.phase) && Rank(s.phase) > Rank(PublishNode) ==> s.row.claimed || s.row == Row(s.current, LastId(s.visits), true, false))
    && (!Ending(s.phase) && s.phase != Stopped && s.phase != Rejected ==> s.row.live)
    && (s.phase == Done ==> !s.row.live)
  }

  lemma RowAct(s: State)
    requires Shaped(s) && RowShows(s) && s.phase != Finish
    ensures var r := ActStep(s); RowShows(r) && (s.phase == PublishNode ==> r.row.claimed || r.row == Row(r.current, LastId(r.visits), true, false))
  {
    ActKeeps(s);
    hide ActStep, EffectNow;
  }

  lemma RowOn(s: State)
    requires Shaped(s) && RowShows(s) && s.phase != Setup && s.phase != Finish
    requires s.phase == PublishNode ==> s.row.claimed || s.row == Row(s.current, LastId(s.visits), true, false)
    ensures RowShows(OnStep(s))
  {
    hide END;
  }

  lemma RowStep(c: Setting, s: State, e: Event)
    requires Shaped(s) && OnPath(c, s) && RowShows(s)
    ensures RowShows(Step(c, s, e))
  {
    match e
    case Advance => RowAdvance(c, s);
    case Repeat =>
      if s.phase == Finish { ActKeeps(s); } else { RowAct(s); }
      hide ActStep;
    case _ => RowElse(c, s, e);
  }

  lemma RowAdvance(c: Setting, s: State)
    requires Shaped(s) && OnPath(c, s) && RowShows(s)
    ensures RowShows(AdvanceStep(c, s))
  {
    if s.phase == Setup {
      hide StartTarget, END;
    } else if s.phase == Finish {
      ActKeeps(s);
      hide ActStep, END;
    } else {
      RowAct(s);
      ActKeeps(s);
      RowOn(ActStep(s));
      hide ActStep, OnStep, RowShows;
    }
  }

  lemma RowElse(c: Setting, s: State, e: Event)
    requires Shaped(s) && OnPath(c, s) && RowShows(s) && !e.Advance? && !e.Repeat?
    ensures RowShows(Step(c, s, e))
  {
    hide ActStep, MentionedNow, Admits, Comment, ValidateReport, Fresh, EffectNow, END, StartTarget, Walk, Heads, WorkNode;
  }

  lemma RecordedAct(s: State)
    requires Shaped(s) && Shown(s) && (Answered(s.phase) ==> Past(s, |s.visits| - 1, Record) || s.phase == Record)
    ensures forall id :: id in ActStep(s).processed ==> Taken(s.visits, id)
    ensures s.processed <= ActStep(s).processed
    ensures s.phase == Record ==> Last(s.visits).taken.value.id in ActStep(s).processed
  {
    hide EffectNow, Published;
    if s.phase == Record { assert Taken(s.visits, Last(s.visits).taken.value.id); }
  }

  lemma RecordedAdvance(c: Setting, s: State)
    requires Shaped(s) && OnPath(c, s) && Shown(s)
    ensures var r := AdvanceStep(c, s);
            && (forall i: nat :: Past(r, i, Record) && r.visits[i].taken.Some? ==> r.visits[i].taken.value.id in r.processed)
            && forall id :: id in r.processed ==> Taken(r.visits, id)
  {
    if s.phase == Setup {
      hide StartTarget, END;
    } else {
      assert InVisit(s.phase) ==> s.visits != [];
      hide AdvanceStep, ActStep, OnPath, Shaped, Taken, RowShows, EffectNow, END, Acting;
      var end := AdvancePhase(c, s);
      AnsweredPast(s);
      RecordedAct(s);
      AdvanceProcessed(c, s);
      assert Acting(Record) by { RecordActs(); }
      var r := AdvanceStep(c, s);
      forall i: nat | Past(r, i, Record) && r.visits[i].taken.Some?
        ensures r.visits[i].taken.value.id in r.processed
      {
        if !Past(s, i, Record) { NextLeft(s.phase, end, |s.visits|, i, Record); }
      }
    }
  }

  lemma RecordActs()
    ensures Acting(Record)
  {
  }

  lemma AnsweredPast(s: State)
    requires Shaped(s)
    ensures Answered(s.phase) ==> Past(s, |s.visits| - 1, Record) || s.phase == Record
  {
  }

  lemma AdvanceProcessed(c: Setting, s: State)
    requires Shaped(s) && s.phase != Setup
    ensures AdvanceStep(c, s).processed == s.processed || AdvanceStep(c, s).processed == ActStep(s).processed
    ensures AdvanceStep(c, s).phase != s.phase ==> AdvanceStep(c, s).processed == ActStep(s).processed
  {
    hide ActStep, END;
  }

  lemma RecordedElse(c: Setting, s: State, e: Event)
    requires Shaped(s) && OnPath(c, s) && Shown(s) && Complete(s) && !e.Advance?
    ensures var r := Step(c, s, e);
            && (forall i: nat :: Past(r, i, Record) && r.visits[i].taken.Some? ==> r.visits[i].taken.value.id in r.processed)
            && forall id :: id in r.processed ==> Taken(r.visits, id)
  {
    assert Ending(s.phase) ==> s.current == END;
    hide Step, ActStep, Complete, OnPath, Shaped, Shown, RowShows, Taken, Grows, Past, END, Acting, EffectNow;
    NothingPast(c, s, e);
    StepGrows(c, s, e);
    AnsweredPast(s);
    RecordedAct(s);
    ProcessedElse(c, s, e);
    RecordsTaken(c, s);
    NoneNewly(s, Step(c, s, e));
    RecordedFrom(s, Step(c, s, e));
  }

  lemma NoneNewly(s: State, r: State)
    requires forall i: nat, p :: Acting(p) && Past(r, i, p) ==> Past(s, i, p)
    ensures forall i: nat :: Past(r, i, Record) ==> Past(s, i, Record)
  {
    RecordActs();
    hide Acting, Past;
  }

  lemma RecordsTaken(c: Setting, s: State)
    requires Shaped(s) && OnPath(c, s)
    ensures forall i: nat :: Past(s, i, Record) ==> i < |s.visits| && s.visits[i].taken.Some?
  {
    hide Shaped, OnPath, Past;
    forall i: nat | Past(s, i, Record)
      ensures i < |s.visits| && s.visits[i].taken.Some?
    {
      RecordTaken(c, s, i);
    }
  }

  lemma RecordedFrom(s: State, r: State)
    requires Shown(s) && Grows(s.visits, r.visits) && s.processed <= r.processed && (forall id :: id in r.processed ==> Taken(s.visits, id))
    requires forall i: nat :: Past(r, i, Record) ==> Past(s, i, Record)
    requires forall i: nat :: Past(s, i, Record) ==> i < |s.visits| && s.visits[i].taken.Some?
    ensures forall i: nat :: Past(r, i, Record) && r.visits[i].taken.Some? ==> r.visits[i].taken.value.id in r.processed
    ensures forall id :: id in r.processed ==> Taken(r.visits, id)
  {
    hide Taken, RowShows;
    forall id | id in r.processed
      ensures Taken(r.visits, id)
    {
      TakenMore(s.visits, r.visits, id);
    }
    forall i: nat | Past(r, i, Record) && r.visits[i].taken.Some?
      ensures r.visits[i].taken.value.id in r.processed
    {
      assert Past(s, i, Record) && r.visits[i].taken == s.visits[i].taken;
    }
  }

  lemma RecordTaken(c: Setting, s: State, i: nat)
    requires Shaped(s) && OnPath(c, s) && Past(s, i, Record)
    ensures i < |s.visits| && s.visits[i].taken.Some?
  {
    hide WorkNode, END, ValidateReport, StartTarget;
    if i + 1 < |s.visits| {
      assert VisitOk(c, s.visits, i + 1);
    }
  }

  lemma ProcessedElse(c: Setting, s: State, e: Event)
    requires Shaped(s) && !e.Advance?
    ensures Step(c, s, e).processed == if e.Repeat? then ActStep(s).processed else s.processed
  {
    hide ActStep, MentionedNow, Admits, Comment, ValidateReport, Fresh, EffectNow, END;
  }

  lemma ShownStep(c: Setting, s: State, e: Event)
    requires Shaped(s) && OnPath(c, s) && Shown(s) && Complete(s)
    ensures Shown(Step(c, s, e))
  {
    RowStep(c, s, e);
    if e.Advance? {
      RecordedAdvance(c, s);
      assert Step(c, s, e) == AdvanceStep(c, s);
    } else {
      RecordedElse(c, s, e);
    }
    hide Step, AdvanceStep, RowShows, OnPath, Complete, Past;
  }

  /* ---- for every run ---- */

  ghost predicate Kept(c: Setting, s: State) { Complete(s) && Ranked(c, s) && Shown(s) }

  lemma KeptInitial(c: Setting)
    ensures Kept(c, INITIAL)
  {
  }

  lemma {:induction false} KeptAlways(c: Setting, es: seq<Event>)
    requires Valid(c.wf)
    ensures Kept(c, Run(c, es)) && OnPath(c, Run(c, es))
  {
    Invariant(c, es);
    hide Valid, Step, Shaped, INITIAL, Kept, Inv;
    if es == [] {
      KeptInitial(c);
      assert Run(c, es) == INITIAL;
    } else {
      var front, e := es[..|es| - 1], es[|es| - 1];
      KeptAlways(c, front);
      KeptStep(c, Run(c, front), e);
    }
    PathOfInv(c, es);
  }

  lemma PathOfInv(c: Setting, es: seq<Event>)
    requires Inv(c, Run(c, es))
    ensures OnPath(c, Run(c, es))
  {
    hide Run;
  }

  lemma KeptStep(c: Setting, s: State, e: Event)
    requires Shaped(s) && OnPath(c, s) && Kept(c, s)
    ensures Kept(c, Step(c, s, e))
  {
    hide Step, Complete, Ranked, Shown, OnPath, Shaped;
    CompleteStep(c, s, e);
    RankedStep(c, s, e);
    ShownStep(c, s, e);
  }

  // Effect q is an activity of a visit at its node, of an answered one after its
  // report, or of the end the run was led to.
  ghost predicate OfVisit(s: State, q: nat)
    requires q < |s.world| && s.world[q].Did?
  {
    var e := s.world[q];
    if InVisit(e.step) then e.visit < |s.visits| && e.node == s.visits[e.visit].node && (Answered(e.step) ==> s.visits[e.visit].taken.Some?)
    else
      && Ending(e.step) && e.visit == |s.visits| && e.node == "end"
      && (s.visits != [] ==> Last(s.visits).taken.Some? && Last(s.visits).taken.value.report.nextStep == "end")
  }

  // Before an activity takes effect for a visit, every activity did that the program
  // puts before it: those of all earlier visits and the earlier ones of this visit;
  // and before one of the end, those of all visits and the earlier ones of the end.
  lemma ActsInOrder(c: Setting, es: seq<Event>, q: nat)
    requires Valid(c.wf) && q < |Run(c, es).world| && Run(c, es).world[q].Did?
    ensures OfVisit(Run(c, es), q) && Acting(Run(c, es).world[q].step)
    ensures var s, e := Run(c, es), Run(c, es).world[q];
            forall j: nat, r :: Acting(r) && InVisit(r) && j < |s.visits| && (j < e.visit || (j == e.visit && InVisit(e.step) && Rank(r) < Rank(e.step))) ==>
              DidIn(s.world, q, r, j, s.visits[j].node)
    ensures var s, e := Run(c, es), Run(c, es).world[q];
            forall r :: Acting(r) && Ending(e.step) && Ending(r) && Rank(r) < Rank(e.step) ==> DidIn(s.world, q, r, |s.visits|, "end")
  {
    KeptAlways(c, es);
    hide Run, Valid, OnPath, DidIn, StartTarget, Rank;
    var s := Run(c, es);
    assert Preceded(s.visits, s.world, q) && Belongs(c, s, q);
  }

  // A run leaves no activity out: all are done for every visit it has left, and for
  // the end once it is over.
  lemma ActsComplete(c: Setting, es: seq<Event>)
    requires Valid(c.wf)
    ensures var s := Run(c, es);
            forall i: nat, p :: Acting(p) && InVisit(p) && i < |s.visits| && (i + 1 < |s.visits| || s.phase == Done) ==>
              DidIn(s.world, |s.world|, p, i, s.visits[i].node)
    ensures var s := Run(c, es);
            forall p :: Acting(p) && Ending(p) && s.phase == Done ==> DidIn(s.world, |s.world|, p, |s.visits|, "end")
  {
    KeptAlways(c, es);
    var s := Run(c, es);
    assert Complete(s);
    hide Run, Valid, OnPath, DidIn, Kept, Rank, Acting, END;
    forall i: nat, p | Acting(p) && InVisit(p) && i < |s.visits| && (i + 1 < |s.visits| || s.phase == Done)
      ensures DidIn(s.world, |s.world|, p, i, s.visits[i].node)
    {
      assert Past(s, i, p);
    }
    forall p | Acting(p) && Ending(p) && s.phase == Done
      ensures DidIn(s.world, |s.world|, p, |s.visits|, "end")
    {
      DoneLast(p);
      assert PastEnd(s, p);
      assert END == "end";
    }
  }

  lemma DoneLast(p: Phase)
    requires Acting(p) && Ending(p)
    ensures Rank(p) < Rank(Done)
  {
  }

  // While a visit waits and no cancellation has claimed the run, a submission read now
  // passes the checks exactly if its report is new to the run and valid for the
  // waiting node.
  lemma WaitingAdmits(c: Setting, es: seq<Event>, id: string, node: string, report: Report)
    requires Valid(c.wf) && Run(c, es).phase == Await && !Run(c, es).row.claimed
    ensures var s := Run(c, es);
            Admits(c, s, Submission(id, node, report, s.row, false)) <==>
            id !in s.processed && node == s.current && ValidateReport(c.wf, s.current, report).None?
    ensures Run(c, es).visits != [] && Run(c, es).row.visit == Last(Run(c, es).visits).id
  {
    KeptAlways(c, es);
    WaitingId(c, Run(c, es));
    WaitingRow(c, Run(c, es), Submission(id, node, report, Run(c, es).row, false));
    hide Run, Valid, OnPath, Kept, ValidateReport, Admits;
  }

  lemma WaitingRow(c: Setting, s: State, sub: Submission)
    requires Shown(s) && s.phase == Await && !s.row.claimed && s.visits != [] && Last(s.visits).id != "" && sub.row == s.row
    ensures Admits(c, s, sub) <==> sub.id !in s.processed && sub.node == s.current && ValidateReport(c.wf, s.current, sub.report).None?
    ensures s.row.visit == Last(s.visits).id
  {
    hide ValidateReport, Taken, Past;
  }

  lemma WaitingId(c: Setting, s: State)
    requires Shaped(s) && OnPath(c, s) && s.phase == Await
    ensures s.visits != [] && Last(s.visits).id != ""
  {
    assert VisitOk(c, s.visits, |s.visits| - 1);
  }

  // A finished run lets nothing in.
  lemma DoneRefuses(c: Setting, es: seq<Event>, id: string, node: string, report: Report)
    requires Valid(c.wf) && Run(c, es).phase == Done
    ensures !Admits(c, Run(c, es), Submission(id, node, report, Run(c, es).row, false))
  {
    KeptAlways(c, es);
    hide Run, Valid, OnPath, Complete, Ranked, ValidateReport;
  }

  // A claim of the run fixes its row: nothing is published after it.
  lemma {:induction false} ClaimFixes(c: Setting, es: seq<Event>, more: seq<Event>)
    requires Run(c, es).row.claimed
    ensures Run(c, es + more).row.(live := true) == Run(c, es).row.(live := true)
    decreases |more|
  {
    hide Run, Step;
    if more == [] {
      assert es + more == es;
    } else {
      var front, e := more[..|more| - 1], more[|more| - 1];
      ClaimFixes(c, es, front);
      assert es + more == es + front + [e];
      RunSnoc(c, es + front, e);
      ClaimStep(c, Run(c, es + front), e);
    }
  }

  lemma RunSnoc(c: Setting, es: seq<Event>, e: Event)
    ensures Run(c, es + [e]) == Step(c, Run(c, es), e)
  {
    assert (es + [e])[..|es|] == es;
    hide Step;
  }

  lemma ClaimStep(c: Setting, s: State, e: Event)
    requires Shaped(s) && s.row.claimed
    ensures Step(c, s, e).row.(live := true) == s.row.(live := true)
  {
    if e.Repeat? || e.Advance? { ActKeeps(s); }
    hide ActStep, MentionedNow, Admits, Comment, ValidateReport, Fresh, EffectNow, END, StartTarget;
  }

  // Only people add to the world from position n on.
  ghost predicate OnlyPeople(world: seq<Effect>, n: nat) { forall p :: n <= p < |world| ==> !ByRun(world[p]) }

  // A cancellation stops the run wherever it is, unless it is finished: it gets no
  // further, takes no report, and does nothing to the world any more.
  lemma {:induction false} CancelStops(c: Setting, es: seq<Event>, more: seq<Event>)
    requires Valid(c.wf)
    ensures var s, r := Run(c, es), Run(c, es + [Cancel] + more);
            && r.phase == (if s.phase == Done then Done else Stopped) && r.visits == s.visits
            && s.world <= r.world && OnlyPeople(r.world, |s.world|)
    decreases |more|
  {
    hide Step, Run, Valid;
    if more == [] {
      assert es + [Cancel] + more == es + [Cancel];
      RunSnoc(c, es, Cancel);
      KeptAlways(c, es);
      CancelNow(c, Run(c, es));
    } else {
      var front, e := more[..|more| - 1], more[|more| - 1];
      CancelStops(c, es, front);
      assert es + [Cancel] + more == es + [Cancel] + front + [e];
      RunSnoc(c, es + [Cancel] + front, e);
      StoppedStep(c, Run(c, es + [Cancel] + front), e);
    }
  }

  lemma CancelNow(c: Setting, s: State)
    requires Shaped(s) && OnPath(c, s)
    ensures Step(c, s, Cancel) == if s.phase == Done then s else s.(phase := Stopped, posting := Idle)
  {
    hide Walk, Heads;
  }

  lemma StoppedStep(c: Setting, s: State, e: Event)
    requires Shaped(s) && (s.phase == Done || s.phase == Stopped)
    ensures var r := Step(c, s, e);
            && r.phase == s.phase && r.visits == s.visits && s.world <= r.world && OnlyPeople(r.world, |s.world|)
  {
    WorldGrows(c, s, e);
    if e.Repeat? || e.Advance? { ActKeeps(s); }
    hide ActStep, MentionedNow, Comment, Admits, ValidateReport, Fresh;
  }

  // The report of a visit the run has left is never let in again.
  lemma RecordedRefused(c: Setting, es: seq<Event>, i: nat, sub: Submission)
    requires Valid(c.wf) && i + 1 < |Run(c, es).visits|
    ensures Run(c, es).visits[i].taken.Some?
    ensures sub.id == Run(c, es).visits[i].taken.value.id ==> !Admits(c, Run(c, es), sub)
  {
    KeptAlways(c, es);
    var s := Run(c, es);
    RecordTaken(c, s, i);
    assert Past(s, i, Record);
    hide Run, Valid, OnPath, Complete, Ranked, ValidateReport;
  }
}
