/** The durable run of internal/execution/goworkflows/interpreter.go (runGraph) as a
    step machine, together with report submission (engine.go SubmitReport) and the
    comment activity of internal/task/beads/beads.go.

    The phase is the durable program counter. An activity may take effect any number
    of times before its result is recorded (`Repeat`, `Crash`), a comment is a list
    and a write with anything in between, submissions interleave at every point, and
    people may comment on any mailbox at any time. */
module RunProtocol {
  import opened Base
  import opened Markers
  import opened Workflows

  // Go's rendering of a report into a comment body is left uninterpreted.
  datatype Setting = Setting(wf: Workflow, render: (Kind, string, Report) -> string)

  datatype Phase =
    | Setup
    | Enter | ShowRunning | LoadRuntime | PublishVisit | Apply | Ensure | Launch | PublishNode | PublishWaiting
    | Await | Record | ShowFinished | Summarize | Handoff | Close | Checkpoint
    | EndShow | EndApply | EndStatus | EndCleanup | EndFinalize | EndShown | Finish
    | Done | Stopped | Rejected

  datatype Signal = Signal(id: string, node: string, visit: string, report: Report)

  datatype Visit = Visit(id: string, node: string, taken: Option<Signal>)

  datatype Author = Human | Relay(visit: nat, kind: Kind)

  // What the run does to the world, in the order it happens: comments, and every other
  // activity taking effect for a visit. The end counts as the visit after the last.
  datatype Effect =
    | Post(mailbox: string, text: string, author: Author)
    | Did(step: Phase, visit: nat, node: string)

  // The projection row a submission reads: the published visit, whether the run is not
  // over, and whether a cancellation has claimed it.
  datatype Row = Row(node: string, visit: string, live: bool, claimed: bool)

  datatype Submission = Submission(id: string, node: string, report: Report, row: Row, checked: bool)

  // Progress of the comment activity being executed.
  datatype Posting = Idle | Listed(found: bool) | Written

  datatype State = State(
    phase: Phase, current: string, visits: seq<Visit>, posting: Posting, world: seq<Effect>,
    row: Row, processed: set<string>, seen: set<string>, queue: seq<Signal>, subs: multiset<Submission>)

  datatype Event =
    | Begin(id: string)
    | Advance
    | Repeat
    | List
    | Write
    | Crash
    | Receive
    | Read(id: string, node: string, report: Report)
    | Check(sub: Submission)
    | Send(sub: Submission)
    | Remark(mailbox: string, text: string)
    | Claim
    | Cancel

  predicate InVisit(p: Phase) {
    match p
    case ShowRunning | LoadRuntime | PublishVisit | Apply | Ensure | Launch | PublishNode | PublishWaiting | Await => true
    case _ => Answered(p)
  }

  // The visit's report has been received.
  predicate Answered(p: Phase) {
    match p
    case Record | ShowFinished | Summarize | Handoff | Close | Checkpoint => true
    case _ => false
  }

  predicate Ending(p: Phase) {
    match p
    case EndShow | EndApply | EndStatus | EndCleanup | EndFinalize | EndShown | Finish | Done => true
    case _ => false
  }

  predicate Commenting(p: Phase) { p == Summarize || p == Handoff }

  function Last(vs: seq<Visit>): Visit
    requires vs != []
  {
    vs[|vs| - 1]
  }

  function NextOf(v: Visit): string
    requires v.taken.Some?
  {
    v.taken.value.report.nextStep
  }

  predicate Shaped(s: State) {
    && (InVisit(s.phase) ==> s.visits != [] && s.current == Last(s.visits).node)
    && (Answered(s.phase) ==> Last(s.visits).taken.Some?)
    && (!Commenting(s.phase) ==> s.posting == Idle)
  }

  /* ---- the comment of the current phase ---- */

  function KindNow(p: Phase): Kind { if p == Summarize then Summary else Feedback }

  // The summary goes to the visit's own mailbox, the feedback to the chosen next one.
  function Target(v: Visit, k: Kind): string
    requires v.taken.Some?
  {
    if k == Summary then v.node else NextOf(v)
  }

  function Body(c: Setting, v: Visit, k: Kind): string
    requires v.taken.Some?
  {
    c.render(k, v.node, v.taken.value.report)
  }

  function Comment(c: Setting, i: nat, v: Visit, k: Kind): Effect
    requires v.taken.Some?
  {
    Post(Target(v, k), Marked(Body(c, v, k), MarkerOf(v.id, k)), Relay(i, k))
  }

  predicate PostIn(e: Effect, mailbox: string) { e.Post? && e.mailbox == mailbox }

  // HasComment: some comment of the mailbox contains the marker.
  ghost predicate Mentioned(world: seq<Effect>, mailbox: string, marker: string) {
    exists p :: 0 <= p < |world| && PostIn(world[p], mailbox) && Contains(world[p].text, marker)
  }

  ghost predicate MentionedNow(s: State)
    requires Shaped(s) && Commenting(s.phase)
  {
    var v, k := Last(s.visits), KindNow(s.phase);
    Mentioned(s.world, Target(v, k), MarkerOf(v.id, k))
  }

  /* ---- steps ---- */

  // The phases that are one activity, other than the comments.
  predicate Acting(p: Phase) {
    (InVisit(p) && p != Await && !Commenting(p)) || (Ending(p) && p != Done)
  }

  function EffectNow(s: State): seq<Effect>
    requires Shaped(s)
  {
    if !Acting(s.phase) then [] else [Did(s.phase, if InVisit(s.phase) then |s.visits| - 1 else |s.visits|, s.current)]
  }

  // The activity of the phase takes effect.
  function ActStep(s: State): (r: State)
    requires Shaped(s)
    ensures Shaped(r)
  {
    var t := s.(world := s.world + EffectNow(s));
    match s.phase
    case PublishNode => t.(row := Published(s.row, s.current, Last(s.visits).id))
    case Record => t.(processed := s.processed + {Last(s.visits).taken.value.id})
    case Finish => t.(row := s.row.(live := false))
    case _ => t
  }

  function Follow(p: Phase, end: bool): Phase {
    match p
    case ShowRunning => LoadRuntime case LoadRuntime => PublishVisit case PublishVisit => Apply case Apply => Ensure
    case Ensure => Launch case Launch => PublishNode case PublishNode => PublishWaiting case PublishWaiting => Await
    case Record => ShowFinished case ShowFinished => Summarize
    case Summarize => if end then Close else Handoff
    case Handoff => Close case Close => Checkpoint
    case Checkpoint => if end then EndShow else Enter
    case EndShow => EndApply case EndApply => EndStatus case EndStatus => EndCleanup case EndCleanup => EndFinalize
    case EndFinalize => EndShown case EndShown => Finish case Finish => Done
    case _ => p
  }

  // The run passes its start edge.
  function StartEdge(c: Setting, s: State): State {
    match StartTarget(c.wf)
    case None => s.(phase := Rejected)
    case Some(t) => s.(current := t, phase := if t == END then EndShow else Enter)
  }

  // updateNode leaves a row alone that is over or claimed.
  function Published(r: Row, node: string, visit: string): Row { if r.live && !r.claimed then Row(node, visit, true, false) else r }

  // The result of the current phase is recorded and the run goes on. A comment has to
  // have been found or written first.
  function OnStep(s: State): (r: State)
    requires Shaped(s)
    ensures Shaped(r)
  {
    var end := Answered(s.phase) && NextOf(Last(s.visits)) == END;
    var p := Follow(s.phase, end);
    s.(phase := p, posting := if p == s.phase then s.posting else Idle,
       current := if s.phase == Checkpoint then NextOf(Last(s.visits)) else s.current)
  }

  function AdvanceStep(c: Setting, s: State): (r: State)
    requires Shaped(s)
    ensures Shaped(r)
  {
    if s.phase == Setup then StartEdge(c, s)
    else if Commenting(s.phase) && s.posting != Written && s.posting != Listed(true) then s
    else OnStep(ActStep(s))
  }

  // One turn of the signal select: the oldest signal of the channel.
  function ReceiveStep(c: Setting, s: State): (r: State)
    requires Shaped(s)
    ensures Shaped(r)
  {
    if s.phase != Await || s.queue == [] then s
    else
      var sig, rest := s.queue[0], s.queue[1..];
      var v := Last(s.visits);
      if sig.id in s.seen then s.(queue := rest)
      else if sig.node != s.current || sig.visit != v.id then s.(queue := rest, seen := s.seen + {sig.id})
      else
        s.(queue := rest, seen := s.seen + {sig.id},
           visits := s.visits[|s.visits| - 1 := v.(taken := Some(sig))],
           phase := if ValidateReport(c.wf, s.current, sig.report).None? then Record else Rejected)
  }

  // SubmitReport after its reads: a duplicate, a stale or an invalid report is
  // answered without a signal.
  function Admits(c: Setting, s: State, sub: Submission): bool {
    && sub.id !in s.processed && sub.row.visit != "" && sub.node == sub.row.node && sub.row.live
    && ValidateReport(c.wf, sub.node, sub.report).None?
  }

  predicate Fresh(vs: seq<Visit>, id: string) { VisitId(id) && forall i :: 0 <= i < |vs| ==> vs[i].id != id }

  function BeginStep(s: State, id: string): (r: State)
    requires Shaped(s)
    ensures Shaped(r)
  {
    if s.phase == Enter && Fresh(s.visits, id)
    then s.(visits := s.visits + [Visit(id, s.current, None)], phase := ShowRunning) else s
  }

  ghost function ListStep(s: State): (r: State)
    requires Shaped(s)
    ensures Shaped(r)
  {
    if Commenting(s.phase) && s.posting == Idle then s.(posting := Listed(MentionedNow(s))) else s
  }

  function WriteStep(c: Setting, s: State): (r: State)
    requires Shaped(s)
    ensures Shaped(r)
  {
    if Commenting(s.phase) && s.posting == Listed(false)
    then s.(world := s.world + [Comment(c, |s.visits| - 1, Last(s.visits), KindNow(s.phase))], posting := Written) else s
  }

  function CheckStep(c: Setting, s: State, sub: Submission): State {
    if sub in s.subs && !sub.checked
    then s.(subs := s.subs - multiset{sub} + if Admits(c, s, sub) then multiset{sub.(checked := true)} else multiset{})
    else s
  }

  function SendStep(s: State, sub: Submission): State {
    if sub in s.subs && sub.checked
    then s.(subs := s.subs - multiset{sub}, queue := s.queue + [Signal(sub.id, sub.node, sub.row.visit, sub.report)])
    else s
  }

  function CancelStep(s: State): State {
    if s.phase == Done || s.phase == Rejected then s else s.(phase := Stopped, posting := Idle)
  }

  ghost function Step(c: Setting, s: State, e: Event): (r: State)
    requires Shaped(s)
    ensures Shaped(r)
  {
    match e
    case Begin(id) => BeginStep(s, id)
    case Advance => AdvanceStep(c, s)
    case Repeat => ActStep(s)
    case List => ListStep(s)
    case Write => WriteStep(c, s)
    case Crash => s.(posting := Idle)
    case Receive => ReceiveStep(c, s)
    case Read(id, node, report) => s.(subs := s.subs + multiset{Submission(id, node, report, s.row, false)})
    case Check(sub) => CheckStep(c, s, sub)
    case Send(sub) => SendStep(s, sub)
    case Remark(mailbox, text) => s.(world := s.world + [Post(mailbox, text, Human)])
    case Claim => s.(row := s.row.(claimed := true))
    case Cancel => CancelStep(s)
  }

  const INITIAL := State(Setup, START, [], Idle, [], Row("", "", true, false), {}, {}, [], multiset{})

  ghost function Run(c: Setting, es: seq<Event>): (r: State)
    ensures Shaped(r)
  {
    if es == [] then INITIAL else Step(c, Run(c, es[..|es| - 1]), es[|es| - 1])
  }
}
