/** What the task system sees of a run: effects in program order, and every comment
    written at most once, where it belongs. */
module RunTrace {
  import opened Base
  import opened Markers
  import opened Workflows
  import opened RunProtocol
  import opened RunInvariants

  /* ---- the order of effects ---- */

  predicate ByRun(e: Effect) { e.Post? ==> e.author.Relay? }

  // The steps of visit 0 in program order, then those of visit 1, and so on.
  function Key(e: Effect): nat
    requires ByRun(e)
  {
    match e
    case Did(p, i, _) => 32 * i + Rank(p)
    case Post(_, _, Relay(i, k)) => KeyOf(i, k)
  }

  function Rank(p: Phase): nat {
    match p
    case Setup | Enter => 0
    case ShowRunning => 1 case LoadRuntime => 2 case PublishVisit => 3 case Apply => 4 case Ensure => 5 case Launch => 6
    case PublishNode => 7 case PublishWaiting => 8 case Await => 9 case Record => 10 case ShowFinished => 11
    case Summarize => 12 case Handoff => 13 case Close => 14 case Checkpoint => 15
    case EndShow => 16 case EndApply => 17 case EndStatus => 18 case EndCleanup => 19 case EndFinalize => 20
    case EndShown => 21 case Finish => 22 case Done | Stopped | Rejected => 23
  }

  function Cursor(s: State): nat
    requires Shaped(s)
  {
    if InVisit(s.phase) then 32 * (|s.visits| - 1) + Rank(s.phase) else 32 * |s.visits| + Rank(s.phase)
  }

  ghost predicate Ordered(world: seq<Effect>) {
    forall p, q :: 0 <= p < q < |world| && ByRun(world[p]) && ByRun(world[q]) ==> Key(world[p]) <= Key(world[q])
  }

  ghost predicate Below(world: seq<Effect>, bound: nat) {
    forall p :: 0 <= p < |world| && ByRun(world[p]) ==> Key(world[p]) <= bound
  }

  ghost predicate InOrder(s: State)
    requires Shaped(s)
  {
    Ordered(s.world) && Below(s.world, Cursor(s))
  }

  // A step adds at most one effect, the one of the current phase.
  function Added(c: Setting, s: State, e: Event): seq<Effect>
    requires Shaped(s)
  {
    match e
    case Repeat | Advance => EffectNow(s)
    case Write =>
      if Commenting(s.phase) && s.posting == Listed(false)
      then [Comment(c, |s.visits| - 1, Last(s.visits), KindNow(s.phase))] else []
    case Remark(mailbox, text) => [Post(mailbox, text, Human)]
    case _ => []
  }

  lemma WorldGrows(c: Setting, s: State, e: Event)
    requires Shaped(s)
    ensures Step(c, s, e).world == s.world + Added(c, s, e)
  {
    hide MentionedNow, Admits, Comment, ValidateReport, StartTarget, START, END, Fresh;
    assert s.world + [] == s.world;
  }

  lemma AddedNow(c: Setting, s: State, e: Event)
    requires Shaped(s)
    ensures |Added(c, s, e)| <= 1
    ensures Added(c, s, e) != [] && ByRun(Added(c, s, e)[0]) ==> Key(Added(c, s, e)[0]) == Cursor(s)
  {
    hide Marked, MarkerOf;
  }

  lemma CursorOn(s: State)
    requires Shaped(s) && s.phase != Setup
    ensures Cursor(s) <= Cursor(OnStep(s))
  {
    hide END;
  }

  lemma CursorAdvances(c: Setting, s: State)
    requires Shaped(s)
    ensures Cursor(s) <= Cursor(AdvanceStep(c, s))
  {
    ActKeeps(s);
    hide StartTarget, END, ActStep, OnStep, Published;
    if s.phase != Setup { CursorOn(ActStep(s)); }
  }

  lemma CursorGrows(c: Setting, s: State, e: Event)
    requires Shaped(s)
    ensures Cursor(s) <= Cursor(Step(c, s, e))
  {
    hide MentionedNow, Admits, Comment, ValidateReport, Fresh, EffectNow, AdvanceStep, Published, ActStep;
    if e.Advance? { CursorAdvances(c, s); }
    if e.Repeat? { ActKeeps(s); }
  }

  lemma InOrderStep(c: Setting, s: State, e: Event)
    requires Shaped(s) && InOrder(s)
    ensures InOrder(Step(c, s, e))
  {
    hide Step, Added, Cursor, Key, Shaped;
    WorldGrows(c, s, e);
    AddedNow(c, s, e);
    CursorGrows(c, s, e);
    OrderedMore(s.world, Added(c, s, e), Cursor(s));
    BelowMore(s.world + Added(c, s, e), Cursor(s), Cursor(Step(c, s, e)));
  }

  lemma OrderedMore(world: seq<Effect>, more: seq<Effect>, bound: nat)
    requires Ordered(world) && Below(world, bound) && |more| <= 1
    requires more != [] && ByRun(more[0]) ==> Key(more[0]) == bound
    ensures Ordered(world + more) && Below(world + more, bound)
  {
    hide Key, ByRun;
  }

  lemma BelowMore(world: seq<Effect>, bound: nat, larger: nat)
    requires Below(world, bound) && bound <= larger
    ensures Below(world, larger)
  {
    hide Key, ByRun;
  }

  /* ---- comments ---- */

  predicate PostBy(e: Effect, i: nat, k: Kind) { e.Post? && e.author == Relay(i, k) }

  ghost predicate Wrote(world: seq<Effect>, i: nat, k: Kind) { exists p :: 0 <= p < |world| && PostBy(world[p], i, k) }

  function KeyOf(i: nat, k: Kind): nat { 32 * i + if k == Summary then Rank(Summarize) else Rank(Handoff) }

  // A person's comment, or one the run is to write before comment k of visit i.
  predicate Prior(e: Effect, i: nat, k: Kind) { e.Post? && (e.author.Relay? ==> KeyOf(e.author.visit, e.author.kind) < KeyOf(i, k)) }

  // Such a comment of the mailbox contains the marker.
  ghost predicate Echoed(world: seq<Effect>, mailbox: string, marker: string, i: nat, k: Kind) {
    exists p :: 0 <= p < |world| && PostIn(world[p], mailbox) && Prior(world[p], i, k) && Contains(world[p].text, marker)
  }

  // A comment of the run is the one its author's visit calls for.
  predicate PostOk(c: Setting, vs: seq<Visit>, e: Effect) {
    e.Post? && e.author.Relay? ==>
      var i, k := e.author.visit, e.author.kind;
      && i < |vs| && vs[i].taken.Some? && e == Comment(c, i, vs[i], k)
      && (k == Feedback ==> NextOf(vs[i]) != END)
  }

  ghost predicate Posts(c: Setting, s: State) { forall p :: 0 <= p < |s.world| ==> PostOk(c, s.visits, s.world[p]) }

  ghost predicate Single(world: seq<Effect>) {
    forall p, q, i: nat, k :: 0 <= p < q < |world| && PostBy(world[p], i, k) ==> !PostBy(world[q], i, k)
  }

  // No comment the run wrote on the mailbox before position n contains the marker.
  ghost predicate ClearTo(world: seq<Effect>, n: nat, mailbox: string, marker: string) {
    forall q :: 0 <= q < n && q < |world| && PostIn(world[q], mailbox) && world[q].author.Relay? ==> !Contains(world[q].text, marker)
  }

  // The comment being written: what listing and writing have established.
  ghost predicate UnderWay(c: Setting, s: State)
    requires Shaped(s)
  {
    Commenting(s.phase) ==>
      var i, v, k := |s.visits| - 1, Last(s.visits), KindNow(s.phase);
      && (k == Feedback ==> NextOf(v) != END)
      && (s.posting == Written ==> Wrote(s.world, i, k))
      && (s.posting == Listed(true) ==> MentionedNow(s))
      && (s.posting == Listed(false) ==> ClearTo(s.world, |s.world|, Target(v, k), MarkerOf(v.id, k)))
  }

  lemma WroteMore(world: seq<Effect>, more: seq<Effect>, i: nat, k: Kind)
    ensures Wrote(world, i, k) ==> Wrote(world + more, i, k)
  {
    if Wrote(world, i, k) {
      var p :| 0 <= p < |world| && PostBy(world[p], i, k);
      assert (world + more)[p] == world[p];
    }
  }

  lemma MentionedMore(world: seq<Effect>, more: seq<Effect>, mailbox: string, marker: string)
    ensures Mentioned(world, mailbox, marker) ==> Mentioned(world + more, mailbox, marker)
  {
    if Mentioned(world, mailbox, marker) {
      var p :| 0 <= p < |world| && PostIn(world[p], mailbox) && Contains(world[p].text, marker);
      assert (world + more)[p] == world[p];
    }
  }

  lemma EchoedMore(world: seq<Effect>, more: seq<Effect>, mailbox: string, marker: string, i: nat, k: Kind)
    ensures Echoed(world, mailbox, marker, i, k) ==> Echoed(world + more, mailbox, marker, i, k)
  {
    if Echoed(world, mailbox, marker, i, k) {
      var p :| 0 <= p < |world| && PostIn(world[p], mailbox) && Prior(world[p], i, k) && Contains(world[p].text, marker);
      assert (world + more)[p] == world[p];
    }
  }

  // A comment the run wrote carries its own marker.
  lemma OwnMarker(c: Setting, vs: seq<Visit>, e: Effect)
    requires PostOk(c, vs, e) && e.Post? && e.author.Relay?
    ensures var v, k := vs[e.author.visit], e.author.kind; Contains(e.text, MarkerOf(v.id, k)) && PostIn(e, Target(v, k))
  {
    var v, k := vs[e.author.visit], e.author.kind;
    hide Contains, MarkerOf, OPENING, CLOSING;
    ContainsIn(Body(c, v, k) + OPENING, MarkerOf(v.id, k), CLOSING);
  }

  // When no comment of the run on the mailbox has the marker, none was written.
  lemma ClearUnwritten(c: Setting, s: State, i: nat, k: Kind)
    requires Posts(c, s) && i < |s.visits| && s.visits[i].taken.Some?
    requires ClearTo(s.world, |s.world|, Target(s.visits[i], k), MarkerOf(s.visits[i].id, k))
    ensures !Wrote(s.world, i, k)
  {
    hide Contains, MarkerOf, PostOk, Target;
    if Wrote(s.world, i, k) {
      var p :| 0 <= p < |s.world| && PostBy(s.world[p], i, k);
      assert PostOk(c, s.visits, s.world[p]);
      OwnMarkerAt(c, s.visits, s.world[p]);
      assert false;
    }
  }

  lemma OwnMarkerAt(c: Setting, vs: seq<Visit>, e: Effect)
    requires PostOk(c, vs, e) && e.Post? && e.author.Relay?
    ensures e.author.visit < |vs| && vs[e.author.visit].taken.Some?
    ensures var v, k := vs[e.author.visit], e.author.kind; Contains(e.text, MarkerOf(v.id, k)) && PostIn(e, Target(v, k))
  {
    OwnMarker(c, vs, e);
  }

  lemma PostKept(c: Setting, vs: seq<Visit>, us: seq<Visit>, e: Effect)
    requires Grows(vs, us) && PostOk(c, vs, e)
    ensures PostOk(c, us, e)
  {
    hide Marked, MarkerOf;
  }

  lemma PostsStep(c: Setting, s: State, e: Event)
    requires Shaped(s) && OnPath(c, s) && Posts(c, s) && UnderWay(c, s)
    ensures Posts(c, Step(c, s, e))
  {
    hide Step, Added, Shaped, OnPath, UnderWay, PostOk, Grows;
    var r, more := Step(c, s, e), Added(c, s, e);
    WorldGrows(c, s, e);
    StepGrows(c, s, e);
    AddedNow(c, s, e);
    forall p | 0 <= p < |r.world|
      ensures PostOk(c, r.visits, r.world[p])
    {
      if p < |s.world| {
        PostKept(c, s.visits, r.visits, s.world[p]);
      } else {
        AddedOk(c, s, e);
        PostKept(c, s.visits, r.visits, more[0]);
      }
    }
  }

  lemma AddedOk(c: Setting, s: State, e: Event)
    requires Shaped(s) && UnderWay(c, s) && Added(c, s, e) != []
    ensures PostOk(c, s.visits, Added(c, s, e)[0])
  {
    hide Marked, MarkerOf, Contains, MentionedNow, Wrote, ClearTo;
  }

  lemma SingleStep(c: Setting, s: State, e: Event)
    requires Shaped(s) && Posts(c, s) && UnderWay(c, s) && Single(s.world)
    ensures Single(Step(c, s, e).world)
  {
    hide Step, Shaped, UnderWay, PostOk, Comment;
    WorldGrows(c, s, e);
    AddedNow(c, s, e);
    var more := Added(c, s, e);
    if e.Write? && more != [] {
      WriteUnwritten(c, s);
      hide Added;
      SingleMore(s.world, more, |s.visits| - 1, KindNow(s.phase));
    } else {
      SingleOther(s.world, more);
    }
  }

  lemma SingleMore(world: seq<Effect>, more: seq<Effect>, i: nat, k: Kind)
    requires Single(world) && |more| == 1 && PostBy(more[0], i, k) && !Wrote(world, i, k)
    ensures Single(world + more)
  {
  }

  lemma SingleOther(world: seq<Effect>, more: seq<Effect>)
    requires Single(world) && |more| <= 1 && forall i: nat, k :: more != [] ==> !PostBy(more[0], i, k)
    ensures Single(world + more)
  {
  }

  lemma WriteUnwritten(c: Setting, s: State)
    requires Shaped(s) && Posts(c, s) && UnderWay(c, s) && Commenting(s.phase) && s.posting == Listed(false)
    ensures !Wrote(s.world, |s.visits| - 1, KindNow(s.phase))
    ensures PostBy(Comment(c, |s.visits| - 1, Last(s.visits), KindNow(s.phase)), |s.visits| - 1, KindNow(s.phase))
  {
    hide Wrote, ClearTo, MentionedNow, Posts, Marked, MarkerOf;
    ClearUnwritten(c, s, |s.visits| - 1, KindNow(s.phase));
  }

  /* ---- the comment under way ---- */

  lemma PostingList(c: Setting, s: State)
    requires Shaped(s) && UnderWay(c, s)
    ensures UnderWay(c, ListStep(s))
  {
    hide Contains, MarkerOf, Target, Wrote;
  }

  lemma PostingWrite(c: Setting, s: State)
    requires Shaped(s) && UnderWay(c, s)
    ensures UnderWay(c, WriteStep(c, s))
  {
    hide Contains, MarkerOf, Target, ClearTo, MentionedNow, Marked, Body;
    if Commenting(s.phase) && s.posting == Listed(false) {
      var e := Comment(c, |s.visits| - 1, Last(s.visits), KindNow(s.phase));
      assert (s.world + [e])[|s.world|] == e && PostBy(e, |s.visits| - 1, KindNow(s.phase));
    }
  }

  lemma PostingRemark(c: Setting, s: State, more: seq<Effect>)
    requires Shaped(s) && UnderWay(c, s) && forall q :: 0 <= q < |more| ==> !(more[q].Post? && more[q].author.Relay?)
    ensures UnderWay(c, s.(world := s.world + more))
  {
    hide Contains, MarkerOf, Target;
    if Commenting(s.phase) {
      var v, k := Last(s.visits), KindNow(s.phase);
      WroteMore(s.world, more, |s.visits| - 1, k);
      MentionedMore(s.world, more, Target(v, k), MarkerOf(v.id, k));
      hide Wrote, Mentioned;
    }
  }

  lemma PostingAdvance(c: Setting, s: State)
    requires Shaped(s) && UnderWay(c, s)
    ensures UnderWay(c, AdvanceStep(c, s))
  {
    hide Contains, MarkerOf, Target, Wrote, ClearTo, MentionedNow, StartTarget, START, EffectNow, END;
    QuietComments(s);
    assert s.world + [] == s.world;
  }

  lemma QuietComments(s: State)
    requires Shaped(s)
    ensures Commenting(s.phase) ==> EffectNow(s) == []
  {
  }

  lemma PostingStep(c: Setting, s: State, e: Event)
    requires Shaped(s) && UnderWay(c, s)
    ensures UnderWay(c, Step(c, s, e))
  {
    hide AdvanceStep, ListStep, WriteStep, UnderWay, Admits, ReceiveStep, Fresh;
    match e
    case Advance => PostingAdvance(c, s);
    case List => PostingList(c, s);
    case Write => PostingWrite(c, s);
    case Remark(mailbox, text) => PostingRemark(c, s, [Post(mailbox, text, Human)]);
    case Repeat =>
      QuietComments(s);
      PostingRepeat(c, s);
    case Receive => PostingReceive(c, s);
    case _ => PostingElse(c, s, e);
  }

  lemma PostingRepeat(c: Setting, s: State)
    requires Shaped(s) && UnderWay(c, s) && (Commenting(s.phase) ==> EffectNow(s) == [])
    ensures UnderWay(c, ActStep(s))
  {
    hide Contains, MarkerOf, Target, Wrote, ClearTo, MentionedNow, EffectNow;
    assert s.world + [] == s.world;
  }

  lemma PostingReceive(c: Setting, s: State)
    requires Shaped(s) && UnderWay(c, s)
    ensures UnderWay(c, ReceiveStep(c, s))
  {
    hide Contains, MarkerOf, Target, Wrote, ClearTo, MentionedNow, ValidateReport;
  }

  lemma PostingElse(c: Setting, s: State, e: Event)
    requires Shaped(s) && UnderWay(c, s)
    requires e.Begin? || e.Crash? || e.Read? || e.Check? || e.Send? || e.Cancel? || e.Claim?
    ensures UnderWay(c, Step(c, s, e))
  {
    hide Contains, MarkerOf, Target, Wrote, ClearTo, Mentioned, ValidateReport, Admits, Fresh;
  }

  /* ---- comments of finished visits ---- */

  predicate Beyond(p: Phase, k: Kind) {
    match p
    case Handoff => k == Summary
    case Close | Checkpoint | Enter => true
    case _ => Ending(p)
  }

  // The run has gone past comment k of visit i.
  predicate Passed(s: State, i: nat, k: Kind) {
    && i < |s.visits| && s.visits[i].taken.Some? && (k == Feedback ==> NextOf(s.visits[i]) != END)
    && (i + 1 < |s.visits| || Beyond(s.phase, k))
  }

  ghost predicate SettledAt(s: State, i: nat, k: Kind)
    requires i < |s.visits| && s.visits[i].taken.Some?
  {
    Wrote(s.world, i, k) || Echoed(s.world, Target(s.visits[i], k), MarkerOf(s.visits[i].id, k), i, k)
  }

  ghost predicate Settled(s: State) { forall i: nat, k :: Passed(s, i, k) ==> SettledAt(s, i, k) }

  lemma SettledMore(s: State, r: State, more: seq<Effect>, i: nat, k: Kind)
    requires Grows(s.visits, r.visits) && r.world == s.world + more
    requires i < |s.visits| && s.visits[i].taken.Some? && SettledAt(s, i, k)
    ensures i < |r.visits| && r.visits[i].taken.Some? && SettledAt(r, i, k)
  {
    hide Wrote, Echoed, MarkerOf, KeyOf;
    WroteMore(s.world, more, i, k);
    EchoedMore(s.world, more, Target(s.visits[i], k), MarkerOf(s.visits[i].id, k), i, k);
  }

  lemma MentionSplits(world: seq<Effect>, mailbox: string, marker: string, i: nat, k: Kind)
    requires Mentioned(world, mailbox, marker) && Below(world, KeyOf(i, k))
    ensures Wrote(world, i, k) || Echoed(world, mailbox, marker, i, k)
  {
    hide Contains;
    var p :| 0 <= p < |world| && PostIn(world[p], mailbox) && Contains(world[p].text, marker);
    if !PostBy(world[p], i, k) {
      assert Prior(world[p], i, k);
      assert Echoed(world, mailbox, marker, i, k);
    }
  }

  lemma CommentCursor(s: State)
    requires Shaped(s) && Commenting(s.phase)
    ensures s.visits != [] && Cursor(s) == KeyOf(|s.visits| - 1, KindNow(s.phase))
  {
  }

  // A comment is passed only once it is listed or written.
  lemma NewlyPassed(c: Setting, s: State, e: Event, i: nat, k: Kind)
    requires Shaped(s) && OnPath(c, s) && UnderWay(c, s) && InOrder(s) && Passed(Step(c, s, e), i, k) && !Passed(s, i, k)
    ensures i < |s.visits| && i == |s.visits| - 1 && Commenting(s.phase) && k == KindNow(s.phase) && SettledAt(s, i, k)
  {
    hide Step, Passed, OnPath, Shaped, UnderWay, InOrder, Below, Mentioned, Wrote, Echoed, MarkerOf, Target, KeyOf;
    JustPassed(c, s, e, i, k);
    CommentShows(c, s);
    if s.posting == Listed(true) {
      MentionSplits(s.world, Target(s.visits[i], k), MarkerOf(s.visits[i].id, k), i, k);
    }
  }

  // What the state of the comment activity says of the world.
  lemma CommentShows(c: Setting, s: State)
    requires Shaped(s) && UnderWay(c, s) && InOrder(s) && Commenting(s.phase)
    ensures s.visits != [] && Last(s.visits).taken.Some?
    ensures var i, v, k := |s.visits| - 1, Last(s.visits), KindNow(s.phase);
            && (s.posting == Written ==> Wrote(s.world, i, k)) && Below(s.world, KeyOf(i, k))
            && (s.posting == Listed(true) ==> Mentioned(s.world, Target(v, k), MarkerOf(v.id, k)))
  {
    CommentCursor(s);
    hide Key, KeyOf, Cursor, Ordered, Below, Contains, MarkerOf, Wrote, ClearTo, Mentioned;
  }

  lemma JustPassed(c: Setting, s: State, e: Event, i: nat, k: Kind)
    requires Shaped(s) && OnPath(c, s) && Passed(Step(c, s, e), i, k) && !Passed(s, i, k)
    ensures e.Advance? && i < |s.visits| && i == |s.visits| - 1 && Commenting(s.phase) && k == KindNow(s.phase)
    ensures s.posting == Written || s.posting == Listed(true)
  {
    hide MentionedNow, Admits, Comment, ValidateReport, StartTarget, START, Fresh, EffectNow, Walk, WorkNode;
  }

  lemma SettledStep(c: Setting, s: State, e: Event)
    requires Shaped(s) && OnPath(c, s) && UnderWay(c, s) && InOrder(s) && Settled(s)
    ensures Settled(Step(c, s, e))
  {
    var r := Step(c, s, e);
    hide InOrder, Step, OnPath, UnderWay, Passed, SettledAt, Shaped, Added, Grows;
    WorldGrows(c, s, e);
    StepGrows(c, s, e);
    forall i: nat, k | Passed(r, i, k)
      ensures PassedOpen(r, i, k) && SettledAt(r, i, k)
    {
      PassedIs(r, i, k);
      if Passed(s, i, k) { PassedIs(s, i, k); } else { NewlyPassed(c, s, e, i, k); LastAnswered(s); }
      SettledMore(s, r, Added(c, s, e), i, k);
    }
  }

  ghost predicate PassedOpen(s: State, i: nat, k: Kind) { i < |s.visits| && s.visits[i].taken.Some? }

  lemma PassedIs(s: State, i: nat, k: Kind)
    requires Passed(s, i, k)
    ensures PassedOpen(s, i, k)
  {
  }

  lemma LastAnswered(s: State)
    requires Shaped(s) && Commenting(s.phase)
    ensures s.visits != [] && Last(s.visits).taken.Some?
  {
  }

  /* ---- nothing the run wrote before a comment carries its marker ---- */

  ghost predicate Alone(vs: seq<Visit>, world: seq<Effect>, p: nat)
    requires p < |world|
  {
    world[p].Post? && world[p].author.Relay? && world[p].author.visit < |vs| ==>
      ClearTo(world, p, world[p].mailbox, MarkerOf(vs[world[p].author.visit].id, world[p].author.kind))
  }

  ghost predicate AllAlone(s: State) { forall p :: 0 <= p < |s.world| ==> Alone(s.visits, s.world, p) }

  lemma AloneKept(vs: seq<Visit>, us: seq<Visit>, world: seq<Effect>, more: seq<Effect>, p: nat)
    requires p < |world| && Alone(vs, world, p) && Grows(vs, us)
    requires world[p].Post? && world[p].author.Relay? ==> world[p].author.visit < |vs|
    ensures Alone(us, world + more, p)
  {
    hide Contains, MarkerOf;
    assert (world + more)[p] == world[p];
  }

  lemma AloneWritten(c: Setting, s: State)
    requires Shaped(s) && UnderWay(c, s) && Commenting(s.phase) && s.posting == Listed(false)
    ensures var r := WriteStep(c, s); |r.world| == |s.world| + 1 && Alone(r.visits, r.world, |s.world|)
  {
    hide Contains, MarkerOf, Marked, Wrote, MentionedNow;
  }

  lemma AloneStep(c: Setting, s: State, e: Event)
    requires Shaped(s) && OnPath(c, s) && Posts(c, s) && UnderWay(c, s) && AllAlone(s)
    ensures AllAlone(Step(c, s, e))
  {
    var r := Step(c, s, e);
    assert e.Write? ==> r == WriteStep(c, s);
    hide Step, OnPath, UnderWay, Shaped, Grows, Alone, WriteStep;
    WorldGrows(c, s, e);
    StepGrows(c, s, e);
    AddedNow(c, s, e);
    var more := Added(c, s, e);
    forall p | 0 <= p < |r.world|
      ensures Alone(r.visits, r.world, p)
    {
      if p < |s.world| {
        AuthorKnown(c, s, p);
        AloneKept(s.visits, r.visits, s.world, more, p);
      } else if e.Write? {
        AloneWritten(c, s);
      } else {
        AloneOther(r.visits, r.world, p);
      }
    }
  }

  lemma AuthorKnown(c: Setting, s: State, p: nat)
    requires Posts(c, s) && p < |s.world|
    ensures s.world[p].Post? && s.world[p].author.Relay? ==> s.world[p].author.visit < |s.visits|
  {
  }

  lemma AloneOther(vs: seq<Visit>, world: seq<Effect>, p: nat)
    requires p < |world| && !(world[p].Post? && world[p].author.Relay?)
    ensures Alone(vs, world, p)
  {
  }
}
