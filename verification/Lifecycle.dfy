/** One logical run across polls, restarts, cancellation, completion, retention and
    crashes: internal/run/manager.go with internal/execution/goworkflows/engine.go.

    Attempts of the run are rows and executions keyed by attempt number. Polls,
    restarts and workflow replacement share the lifecycle gate, so at most one of
    them is under way (`op`); cancellation does not take the gate and any number of
    requests may be in flight (`cancels`). A crash loses whatever was under way. */
module Lifecycle {
  import opened Base
  import opened Projection

  // The content of a workflow definition, health fields aside.
  type Def = string

  // An execution: working, about to finish normally, in cancellation cleanup, done.
  // `listed`: its comment activity has looked for the marker and found none.
  datatype Stage = Working | Closing | Reading | Cleaning(reason: string, listed: bool) | Marked | Finished

  // The latest execution of an attempt. `pending` and `canceled`: a cancel event is
  // queued, or stands in the history.
  datatype Inst = Inst(serial: nat, def: Def, pending: bool, canceled: bool, stage: Stage)

  // The operation that holds the gate, by the call it makes next: claim the ticket,
  // read the row, insert it, look for a live execution, create one.
  datatype Op =
    | Free
    | Claiming(def: Def)
    | Ensuring(a: nat, def: Def)
    | Inserting(a: nat, def: Def)
    | Looking(a: nat, def: Def)
    | Creating(a: nat, def: Def)

  // A cancellation request, by the call it makes next. Effects looks for the marker
  // and Writing writes it.
  datatype Cancel =
    | ReadBack(a: nat)
    | Lookup(a: nat, reason: string)
    | Request(a: nat, reason: string, serial: nat)
    | MissingRow(a: nat, reason: string)
    | MissingAgain(a: nat, reason: string)
    | Effects(a: nat, reason: string)
    | Writing(a: nat, reason: string)
    | Mark(a: nat)
    | Conclude(a: nat, serial: nat)

  // A comment with the cancellation marker.
  datatype Note = Note(a: nat, reason: string)

  // A record of the run: the reason that first claimed an attempt, the next serial
  // number, the executions that are over, those with a cancel event in their history,
  // the execution that completed an attempt, and the attempts whose cleanup loaded its
  // reason from a completed row.
  datatype Book = Book(first: map<nat, string>, serial: nat, done: set<nat>, struck: set<nat>, completer: map<nat, nat>, late: set<nat>)

  datatype State = State(
    rows: map<nat, RunRow>, insts: map<nat, Inst>, notes: seq<Note>, claimed: bool, def: Option<Def>,
    clock: nat, op: Op, cancels: map<nat, Cancel>, snaps: set<bool>, book: Book)

  // `id` names a request while it is in flight.
  datatype Event =
    | Tick
    | Snapshot
    | Poll(seen: bool)
    | Restart
    | Submit(def: Def)
    | Remove
    | Proceed
    | Progress(a: nat, state: RunState, message: string)
    | WriteCompleted(a: nat, recorded: bool)
    | FinishRun(a: nat)
    | Fail(a: nat)
    | Deliver(a: nat)
    | LoadReason(a: nat)
    | NoteList(a: nat, recorded: bool)
    | NoteWrite(a: nat, wrote: bool, recorded: bool)
    | WriteCanceled(a: nat, recorded: bool)
    | CancelRun(a: nat, reason: string, id: nat)
    | Reconcile(a: nat, id: nat)
    | Continue(id: nat)
    | Drop(id: nat)
    | Crash
    | Sweep(cutoff: nat)

  predicate Active(r: RunRow) { !Terminal(r.state) && r.state != Canceling }

  predicate AllTerminal(rows: map<nat, RunRow>) { forall a :: a in rows ==> Terminal(rows[a].state) }

  predicate Alive(insts: map<nat, Inst>, a: nat) { a in insts && insts[a].stage != Finished }

  // ORDER BY started_at DESC, attempt_id DESC LIMIT 1.
  predicate Newest(rows: map<nat, RunRow>, a: nat) {
    a in rows && forall b :: b in rows ==> rows[b].started < rows[a].started || (rows[b].started == rows[a].started && b <= a)
  }

  predicate Maximal(rows: map<nat, RunRow>, a: nat) { a in rows && forall b :: b in rows ==> b <= a }

  const INITIAL := State(map[], map[], [], false, None, 0, Free, map[], {}, Book(map[], 0, {}, {}, map[], {}))

  /* ---- gated operations ---- */

  // RunManager.EnsureRun up to its first effect.
  ghost function PollStep(s: State, seen: bool): State {
    if s.op != Free || s.def.None? || seen !in s.snaps then s
    else if exists a: nat :: a in s.rows && Active(s.rows[a]) then
      var a: nat :| a in s.rows && Active(s.rows[a]);
      s.(op := Ensuring(a, s.def.value))
    else if s.rows != map[] then s
    else if !seen then s.(op := Claiming(s.def.value))
    else if s.notes != [] then s
    else s.(op := Ensuring(1, s.def.value))
  }

  // The row the ticket leads to is canceled.
  ghost predicate Restartable(rows: map<nat, RunRow>) { exists a: nat :: Newest(rows, a) && rows[a].state == Canceled }

  // RestartByTicket up to its first effect: the largest attempt number plus one.
  ghost function RestartStep(s: State): State {
    if s.op == Free && s.def.Some? && Restartable(s.rows) && exists m: nat :: Maximal(s.rows, m) then
      var m: nat :| Maximal(s.rows, m);
      s.(op := Ensuring(m + 1, s.def.value))
    else s
  }

  function NewRow(now: nat): RunRow { RunRow(Starting, "", "", "", now, None) }

  function ProceedStep(s: State): State {
    match s.op
    case Free => s
    case Claiming(d) => s.(claimed := true, op := Ensuring(1, d))
    case Ensuring(a, d) => s.(op := if a !in s.rows then Inserting(a, d) else if Active(s.rows[a]) then Looking(a, d) else Free)
    case Inserting(a, d) =>
      s.(rows := if a in s.rows then s.rows else s.rows[a := NewRow(s.clock)], op := Creating(a, d))
    case Looking(a, d) => s.(op := if Alive(s.insts, a) then Free else Creating(a, d))
    case Creating(a, d) =>
      if Alive(s.insts, a) then s.(op := Free)
      else
        s.(insts := s.insts[a := Inst(s.book.serial, d, false, false, Working)], op := Free,
           book := s.book.(serial := s.book.serial + 1))
  }

  function SubmitStep(s: State, def: Option<Def>): State {
    if s.op == Free && AllTerminal(s.rows) then s.(def := def) else s
  }

  /* ---- the execution ---- */

  function Put(s: State, a: nat, state: RunState, text: string, finished: Option<nat>): map<nat, RunRow> {
    if a in s.rows then s.rows[a := Updated(s.rows[a], None, state, text, finished)] else s.rows
  }

  function ProgressStep(s: State, a: nat, state: RunState, message: string): State {
    if Alive(s.insts, a) && (state == RunState.Running || state == Waiting || state == Blocked)
    then s.(rows := Put(s, a, state, message, None)) else s
  }

  // The execution of attempt a moves to another stage; one that is over is recorded.
  function Staged(s: State, a: nat, stage: Stage): State
    requires a in s.insts
  {
    s.(insts := s.insts[a := s.insts[a].(stage := stage)],
       book := if stage == Finished then s.book.(done := s.book.done + {s.insts[a].serial}) else s.book)
  }

  // The last activity of a run: it may take effect and not be recorded.
  function WriteCompletedStep(s: State, a: nat, recorded: bool): State {
    if a in s.insts && s.insts[a].stage == Working then
      var t := s.(rows := Put(s, a, Completed, "", Some(s.clock)),
                  book := if a in s.rows && Active(s.rows[a]) then s.book.(completer := s.book.completer[a := s.insts[a].serial]) else s.book);
      if recorded then Staged(t, a, Closing) else t
    else s
  }

  function FinishStep(s: State, a: nat): State {
    if a in s.insts && s.insts[a].stage == Closing then Staged(s, a, Finished) else s
  }

  // An execution may end with an error at any time.
  function FailStep(s: State, a: nat): State { if Alive(s.insts, a) then Staged(s, a, Finished) else s }

  // A queued cancel event reaches the history before the execution finishes.
  function DeliverStep(s: State, a: nat): State {
    if Alive(s.insts, a) && s.insts[a].pending && !s.insts[a].canceled then
      var i := s.insts[a];
      s.(insts := s.insts[a := i.(pending := false, canceled := true, stage := if i.stage == Working then Reading else i.stage)],
         book := s.book.(struck := s.book.struck + {i.serial}))
    else s
  }

  function LoadReasonStep(s: State, a: nat): State {
    if a in s.insts && s.insts[a].stage == Reading && a in s.rows then
      var t := Staged(s, a, Cleaning(s.rows[a].lastError, false));
      if s.rows[a].state == Completed then t.(book := t.book.(late := t.book.late + {a})) else t
    else s
  }

  // The comment activity with the cancellation marker: first the list of comments.
  function NoteListStep(s: State, a: nat, recorded: bool): State {
    if a in s.insts && s.insts[a].stage.Cleaning? then
      var r := s.insts[a].stage.reason;
      Staged(s, a, if s.notes == [] then Cleaning(r, true) else if recorded then Marked else Cleaning(r, false))
    else s
  }

  // Then the comment; it may fail, or be written and not be recorded.
  function NoteWriteStep(s: State, a: nat, wrote: bool, recorded: bool): State {
    if a in s.insts && s.insts[a].stage.Cleaning? && s.insts[a].stage.listed then
      var r := s.insts[a].stage.reason;
      var t := if wrote then s.(notes := s.notes + [Note(a, r)]) else s;
      Staged(t, a, if wrote && recorded then Marked else Cleaning(r, false))
    else s
  }

  function WriteCanceledStep(s: State, a: nat, recorded: bool): State {
    if a in s.insts && s.insts[a].stage == Marked then
      var t := s.(rows := Put(s, a, Canceled, "", Some(s.clock)));
      if recorded then Staged(t, a, Finished) else t
    else s
  }

  /* ---- cancellation requests ---- */

  // The compare-and-set of Engine.CancelRun.
  function CancelRunStep(s: State, a: nat, reason: string, id: nat): State {
    if a !in s.rows || id in s.cancels then s
    else s.(rows := s.rows[a := Claimed(s.rows[a], reason)],
            book := if Active(s.rows[a]) then s.book.(first := s.book.first[a := reason]) else s.book,
            cancels := s.cancels[id := ReadBack(a)])
  }

  // Startup reconciliation of a canceling row.
  function ReconcileStep(s: State, a: nat, id: nat): State {
    if a in s.rows && id !in s.cancels && s.rows[a].state == Canceling
    then s.(cancels := s.cancels[id := Lookup(a, s.rows[a].lastError)]) else s
  }

  // What a finished execution, whose history does not change any more, decides.
  function Verdict(i: Inst, a: nat, r: string): Cancel { if i.canceled then Effects(a, r) else Conclude(a, i.serial) }

  // What a request does next, and its effect. (Asking for a cancel event checks for an
  // earlier one under a lock that every request takes, so it is one step.)
  function After(s: State, c: Cancel): Option<Cancel> {
    match c
    case ReadBack(a) => if a in s.rows && s.rows[a].state == Canceling then Some(Lookup(a, s.rows[a].lastError)) else None
    case Lookup(a, r) =>
      if a !in s.insts then Some(MissingRow(a, r))
      else if s.insts[a].stage == Finished then Some(Verdict(s.insts[a], a, r)) else Some(Request(a, r, s.insts[a].serial))
    case Request(a, r, _) => if a !in s.insts then Some(MissingRow(a, r)) else None
    case MissingRow(a, r) => if a in s.rows && s.rows[a].state == Canceling then Some(MissingAgain(a, r)) else None
    case MissingAgain(a, r) =>
      if a !in s.insts then Some(Effects(a, r))
      else if s.insts[a].stage == Finished then Some(Verdict(s.insts[a], a, r)) else None
    case Effects(a, r) => Some(if s.notes == [] then Writing(a, r) else Mark(a))
    case Writing(a, _) => Some(Mark(a))
    case Mark(_) => None
    case Conclude(_, _) => None
  }

  function Settle(s: State, a: nat, state: RunState): map<nat, RunRow> {
    if a in s.rows then s.rows[a := Updated(s.rows[a], Some(Canceling), state, "", Some(s.clock))] else s.rows
  }

  function Acted(s: State, c: Cancel): State {
    match c
    case Request(a, _, serial) =>
      if a in s.insts && s.insts[a].serial == serial && !s.insts[a].pending && !s.insts[a].canceled
      then s.(insts := s.insts[a := s.insts[a].(pending := true)]) else s
    case Writing(a, r) => s.(notes := s.notes + [Note(a, r)])
    case Mark(a) => s.(rows := Settle(s, a, Canceled))
    case Conclude(a, serial) =>
      s.(rows := Settle(s, a, Completed),
         book := if a in s.rows && s.rows[a].state == Canceling then s.book.(completer := s.book.completer[a := serial]) else s.book)
    case _ => s
  }

  function ContinueStep(s: State, id: nat): State {
    if id !in s.cancels then s
    else
      var c := s.cancels[id];
      Acted(s, c).(cancels := if After(s, c).Some? then s.cancels[id := After(s, c).value] else s.cancels - {id})
  }

  /* ---- crashes and retention ---- */

  function Gone(s: State, cutoff: nat): set<nat> { set a | a in s.rows && Expired(s.rows[a], cutoff) }

  // The startup sweep, before any poll: a run's row and finished executions go
  // together, and not while one is at work.
  function SweepStep(s: State, cutoff: nat): State {
    if s.op == Free && s.snaps == {} && s.cancels == map[] && (forall a :: a in Gone(s, cutoff) ==> !Alive(s.insts, a))
    then s.(rows := s.rows - Gone(s, cutoff), insts := s.insts - Gone(s, cutoff)) else s
  }

  // An activity that dies starts again with its list.
  function Unlisted(i: Inst): Inst { if i.stage.Cleaning? then i.(stage := Cleaning(i.stage.reason, false)) else i }

  function CrashStep(s: State): State {
    s.(op := Free, cancels := map[], snaps := {}, insts := map a | a in s.insts :: Unlisted(s.insts[a]))
  }

  ghost function Step(s: State, e: Event): State {
    match e
    case Tick => s.(clock := s.clock + 1)
    case Snapshot => s.(snaps := s.snaps + {s.claimed})
    case Poll(seen) => PollStep(s, seen)
    case Restart => RestartStep(s)
    case Submit(d) => SubmitStep(s, Some(d))
    case Remove => SubmitStep(s, None)
    case Proceed => ProceedStep(s)
    case Progress(a, state, message) => ProgressStep(s, a, state, message)
    case WriteCompleted(a, recorded) => WriteCompletedStep(s, a, recorded)
    case FinishRun(a) => FinishStep(s, a)
    case Fail(a) => FailStep(s, a)
    case Deliver(a) => DeliverStep(s, a)
    case LoadReason(a) => LoadReasonStep(s, a)
    case NoteList(a, recorded) => NoteListStep(s, a, recorded)
    case NoteWrite(a, wrote, recorded) => NoteWriteStep(s, a, wrote, recorded)
    case WriteCanceled(a, recorded) => WriteCanceledStep(s, a, recorded)
    case CancelRun(a, reason, id) => CancelRunStep(s, a, reason, id)
    case Reconcile(a, id) => ReconcileStep(s, a, id)
    case Continue(id) => ContinueStep(s, id)
    case Drop(id) => s.(cancels := s.cancels - {id})
    case Crash => CrashStep(s)
    case Sweep(cutoff) => SweepStep(s, cutoff)
  }

  ghost function Run(es: seq<Event>): State { if es == [] then INITIAL else Step(Run(es[..|es| - 1]), es[|es| - 1]) }
}
