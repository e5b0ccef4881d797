/** Exactly which comments a run goes past without writing them: those whose marker
    the activity found, wherever it came from. */
module RunChecks {
  import opened Base
  import opened Markers
  import opened Workflows
  import opened RunProtocol
  import opened RunInvariants
  import opened RunTrace
  import opened RunTheorems

  // The run is at comment k of visit i.
  predicate Writing(s: State, i: nat, k: Kind) { Commenting(s.phase) && i + 1 == |s.visits| && k == KindNow(s.phase) }

  // It looked for the marker, found it, and had not written the comment.
  ghost predicate Found(s: State, i: nat, k: Kind) { Writing(s, i, k) && s.posting == Listed(true) && !Wrote(s.world, i, k) }

  // The marker stands on the comment's mailbox, and the comment is not there and not
  // on its way.
  ghost predicate Forestalled(s: State, i: nat, k: Kind) {
    && i < |s.visits| && s.visits[i].taken.Some? && !Wrote(s.world, i, k)
    && Mentioned(s.world, Target(s.visits[i], k), MarkerOf(s.visits[i].id, k))
    && (Writing(s, i, k) ==> s.posting == Idle || s.posting == Listed(true))
  }

  lemma FoundForestalls(c: Setting, s: State, i: nat, k: Kind)
    requires Shaped(s) && UnderWay(c, s) && Found(s, i, k)
    ensures Forestalled(s, i, k)
  {
    hide Wrote, Mentioned, MarkerOf, Target, ClearTo;
  }

  lemma PostingStays(c: Setting, s: State, e: Event, i: nat, k: Kind)
    requires Shaped(s) && Forestalled(s, i, k) && Writing(Step(c, s, e), i, k)
    ensures Step(c, s, e).posting == Idle || Step(c, s, e).posting == Listed(true)
  {
    hide Mentioned, MarkerOf, Admits, Comment, ValidateReport, StartTarget, START, END, Fresh, EffectNow, Wrote, Target;
  }

  lemma StillUnwritten(c: Setting, s: State, e: Event, i: nat, k: Kind)
    requires Shaped(s) && Forestalled(s, i, k)
    ensures !Wrote(s.world + Added(c, s, e), i, k)
  {
    var more := Added(c, s, e);
    AddedNow(c, s, e);
    hide Mentioned, MarkerOf, Target, Marked, Body;
    forall p | 0 <= p < |s.world + more|
      ensures !PostBy((s.world + more)[p], i, k)
    {
      if p < |s.world| { assert (s.world + more)[p] == s.world[p]; } else { assert (s.world + more)[p] == more[p - |s.world|]; }
    }
  }

  lemma MentionedMore(world: seq<Effect>, more: seq<Effect>, mailbox: string, marker: string)
    requires Mentioned(world, mailbox, marker)
    ensures Mentioned(world + more, mailbox, marker)
  {
    hide Contains;
    var p :| 0 <= p < |world| && PostIn(world[p], mailbox) && Contains(world[p].text, marker);
    assert (world + more)[p] == world[p];
  }

  lemma ForestalledStep(c: Setting, s: State, e: Event, i: nat, k: Kind)
    requires Shaped(s) && OnPath(c, s) && Forestalled(s, i, k)
    ensures Forestalled(Step(c, s, e), i, k)
  {
    StepGrows(c, s, e);
    WorldGrows(c, s, e);
    StillUnwritten(c, s, e, i, k);
    MentionedMore(s.world, Added(c, s, e), Target(s.visits[i], k), MarkerOf(s.visits[i].id, k));
    if Writing(Step(c, s, e), i, k) { PostingStays(c, s, e, i, k); }
    hide Step, Mentioned, MarkerOf, Wrote, OnPath, Shaped, Writing, Added;
  }

  lemma PathOf(c: Setting, es: seq<Event>)
    requires Valid(c.wf)
    ensures OnPath(c, Run(c, es)) && UnderWay(c, Run(c, es))
  {
    Invariant(c, es);
    hide Run, Valid;
  }

  lemma RunFront(c: Setting, es: seq<Event>)
    requires es != []
    ensures Run(c, es) == Step(c, Run(c, es[..|es| - 1]), es[|es| - 1])
  {
    hide Step;
  }

  // A comment whose marker was found is never written.
  lemma {:induction false} FoundStays(c: Setting, es: seq<Event>, j: nat, i: nat, k: Kind)
    requires Valid(c.wf) && j <= |es| && Found(Run(c, es[..j]), i, k)
    ensures Forestalled(Run(c, es), i, k)
    decreases |es|
  {
    hide Run, Step, Valid, OnPath, UnderWay, Found, Forestalled;
    if j == |es| {
      assert es[..j] == es;
      PathOf(c, es);
      FoundForestalls(c, Run(c, es), i, k);
    } else {
      var front := es[..|es| - 1];
      assert front[..j] == es[..j];
      FoundStays(c, front, j, i, k);
      PathOf(c, front);
      ForestalledStep(c, Run(c, front), es[|es| - 1], i, k);
      RunFront(c, es);
    }
  }

  lemma WroteLater(c: Setting, s: State, e: Event, i: nat, k: Kind)
    requires Shaped(s) && !Wrote(Step(c, s, e).world, i, k)
    ensures !Wrote(s.world, i, k)
  {
    WorldGrows(c, s, e);
    WroteMore(s.world, Added(c, s, e), i, k);
    hide Step, Wrote, Added;
  }

  lemma PassedUnwritten(c: Setting, s: State, e: Event, i: nat, k: Kind)
    requires Shaped(s) && OnPath(c, s) && UnderWay(c, s) && Passed(Step(c, s, e), i, k) && !Passed(s, i, k) && !Wrote(s.world, i, k)
    ensures Found(s, i, k)
  {
    JustPassed(c, s, e, i, k);
    hide Step, Passed, OnPath, Wrote, MentionedNow, ClearTo;
  }

  // A comment passed without being written was found.
  lemma {:induction false} UnwrittenFound(c: Setting, es: seq<Event>, i: nat, k: Kind) returns (j: nat)
    requires Valid(c.wf) && Passed(Run(c, es), i, k) && !Wrote(Run(c, es).world, i, k)
    ensures j <= |es| && Found(Run(c, es[..j]), i, k)
    decreases |es|
  {
    hide Step, Valid, OnPath, UnderWay, Found, Wrote;
    NothingPassed(c, i, k);
    hide Run, Passed;
    if es == [] {
      assert false;
    } else {
      var front, e := es[..|es| - 1], es[|es| - 1];
      RunFront(c, es);
      PathOf(c, front);
      WroteLater(c, Run(c, front), e, i, k);
      if Passed(Run(c, front), i, k) {
        j := UnwrittenFound(c, front, i, k);
        assert es[..j] == front[..j];
      } else {
        PassedUnwritten(c, Run(c, front), e, i, k);
        j := |front|;
        assert es[..j] == front;
      }
    }
  }

  lemma NothingPassed(c: Setting, i: nat, k: Kind)
    ensures !Passed(Run(c, []), i, k)
  {
  }

  // The exact condition, for every run and whatever people write: a comment the run
  // has passed is missing if and only if its activity once found the marker there
  // before it had written the comment itself.
  lemma MissingIff(c: Setting, es: seq<Event>, i: nat, k: Kind)
    requires Valid(c.wf) && Passed(Run(c, es), i, k)
    ensures !Wrote(Run(c, es).world, i, k) <==> exists j: nat :: j <= |es| && Found(Run(c, es[..j]), i, k)
  {
    hide Run, Valid, Passed, Found;
    if !Wrote(Run(c, es).world, i, k) {
      var j := UnwrittenFound(c, es, i, k);
    }
    forall j: nat | j <= |es| && Found(Run(c, es[..j]), i, k)
      ensures !Wrote(Run(c, es).world, i, k)
    {
      FoundStays(c, es, j, i, k);
    }
  }
}
