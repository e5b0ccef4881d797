/** Runs in which an execution outlives its run, the marker is written twice, or it
    gives no reason. */
module LifecycleRuns {
  import opened Base
  import opened Projection
  import opened Lifecycle
  import opened LifecycleSeal
  import opened LifecycleNotes

  ghost predicate Reached(s: State) { exists es :: Run(es) == s }

  lemma ReachedNext(s: State, e: Event, t: State)
    requires Reached(s) && Step(s, e) == t
    ensures Reached(t)
  {
    hide Step;
    var es :| Run(es) == s;
    RunSnoc(es, e);
  }

  const FRESH := Book(map[], 0, {}, {}, map[], {})

  // The states on the way: one attempt of a run of definition d.
  function At(d: Def, row: RunRow, insts: map<nat, Inst>, notes: seq<Note>, op: Op, cancels: map<nat, Cancel>, book: Book): State {
    State(map[1 := row], insts, notes, true, Some(d), 0, op, cancels, {false}, book)
  }

  function Polling(d: Def, op: Op, claimed: bool): State {
    State(map[], map[], [], claimed, Some(d), 0, op, map[], {false}, FRESH)
  }

  function Row(state: RunState, text: string): RunRow { RunRow(state, text, "", "", 0, if Terminal(state) then Some(0) else None) }

  function Started(d: Def): State { At(d, Row(Starting, ""), map[], [], Creating(1, d), map[], FRESH) }

  lemma PollingSteps(d: Def)
    ensures Step(INITIAL, Submit(d)) == INITIAL.(def := Some(d))
    ensures Step(INITIAL.(def := Some(d)), Snapshot) == Polling(d, Free, false)
    ensures Step(Polling(d, Free, false), Poll(false)) == Polling(d, Claiming(d), false)
    ensures Step(Polling(d, Claiming(d), false), Proceed) == Polling(d, Ensuring(1, d), true)
    ensures Step(Polling(d, Ensuring(1, d), true), Proceed) == Polling(d, Inserting(1, d), true)
    ensures Step(Polling(d, Inserting(1, d), true), Proceed) == Started(d)
  {
  }

  // A first poll up to the creation of the execution.
  lemma StartReached(d: Def)
    ensures Reached(Started(d))
  {
    FirstState();
    assert Reached(INITIAL);
    PollingSteps(d);
    hide Run, Step, INITIAL, Started, Polling, Reached;
    ReachedNext(INITIAL, Submit(d), INITIAL.(def := Some(d)));
    ReachedNext(INITIAL.(def := Some(d)), Snapshot, Polling(d, Free, false));
    ReachedNext(Polling(d, Free, false), Poll(false), Polling(d, Claiming(d), false));
    ReachedNext(Polling(d, Claiming(d), false), Proceed, Polling(d, Ensuring(1, d), true));
    ReachedNext(Polling(d, Ensuring(1, d), true), Proceed, Polling(d, Inserting(1, d), true));
    ReachedNext(Polling(d, Inserting(1, d), true), Proceed, Started(d));
  }

  /* ---- a request moves on ---- */

  lemma StepContinues(s: State, id: nat)
    requires id in s.cancels
    ensures var c := s.cancels[id];
            Step(s, Continue(id)) == Acted(s, c).(cancels := if After(s, c).Some? then s.cancels[id := After(s, c).value] else s.cancels - {id})
  {
    hide After, Acted;
  }

  // A call that only reads.
  lemma Reads(s: State, id: nat, c: Cancel, next: Cancel)
    requires Reached(s) && id in s.cancels && s.cancels[id] == c && After(s, c) == Some(next) && Acted(s, c) == s
    ensures Reached(s.(cancels := s.cancels[id := next]))
  {
    StepContinues(s, id);
    hide Step, After, Acted, Reached;
    ReachedNext(s, Continue(id), s.(cancels := s.cancels[id := next]));
  }

  // A claimed attempt without an execution, and the requests in flight.
  function Claimed1(d: Def, r: string, cancels: map<nat, Cancel>, notes: seq<Note>): State {
    At(d, Row(Canceling, r), map[], notes, Creating(1, d), cancels, FRESH.(first := map[1 := r]))
  }

  // From its claim a request that finds no execution gets to the marker.
  lemma Misses(d: Def, r: string, cancels: map<nat, Cancel>, id: nat)
    requires Reached(Claimed1(d, r, cancels, [])) && id in cancels && cancels[id] == ReadBack(1)
    ensures Reached(Claimed1(d, r, cancels[id := Effects(1, r)], []))
  {
    hide Reached;
    Again(cancels, id, Lookup(1, r), MissingRow(1, r));
    Again(cancels, id, MissingRow(1, r), MissingAgain(1, r));
    Again(cancels, id, MissingAgain(1, r), Effects(1, r));
    Moves(d, r, cancels, id, ReadBack(1), Lookup(1, r));
    Moves(d, r, cancels[id := Lookup(1, r)], id, Lookup(1, r), MissingRow(1, r));
    Moves(d, r, cancels[id := MissingRow(1, r)], id, MissingRow(1, r), MissingAgain(1, r));
    Moves(d, r, cancels[id := MissingAgain(1, r)], id, MissingAgain(1, r), Effects(1, r));
  }

  lemma Again(cancels: map<nat, Cancel>, id: nat, c: Cancel, next: Cancel)
    ensures cancels[id := c][id := next] == cancels[id := next]
  {
  }

  lemma Moves(d: Def, r: string, cancels: map<nat, Cancel>, id: nat, c: Cancel, next: Cancel)
    requires Reached(Claimed1(d, r, cancels, [])) && id in cancels && cancels[id] == c
    requires (c, next) == (ReadBack(1), Lookup(1, r)) || (c, next) == (Lookup(1, r), MissingRow(1, r))
          || (c, next) == (MissingRow(1, r), MissingAgain(1, r)) || (c, next) == (MissingAgain(1, r), Effects(1, r))
          || (c, next) == (Effects(1, r), Writing(1, r))
    ensures Reached(Claimed1(d, r, cancels[id := next], []))
  {
    hide Reached;
    Reads(Claimed1(d, r, cancels, []), id, c, next);
  }

  lemma FirstClaim(d: Def, r: string)
    ensures Reached(Claimed1(d, r, map[0 := ReadBack(1)], []))
  {
    StartReached(d);
    hide Reached;
    ReachedNext(Started(d), CancelRun(1, r, 0), Claimed1(d, r, map[0 := ReadBack(1)], []));
  }

  /* ---- a request decides before the execution is created ---- */

  lemma Writes1(d: Def, r: string)
    requires Reached(Claimed1(d, r, map[0 := Writing(1, r)], []))
    ensures Reached(Claimed1(d, r, map[0 := Mark(1)], [Note(1, r)]))
  {
    StepContinues(Claimed1(d, r, map[0 := Writing(1, r)], []), 0);
    hide Reached, Step;
    ReachedNext(Claimed1(d, r, map[0 := Writing(1, r)], []), Continue(0), Claimed1(d, r, map[0 := Mark(1)], [Note(1, r)]));
  }

  function Over(d: Def, r: string, op: Op, insts: map<nat, Inst>, serial: nat): State {
    At(d, Row(Canceled, ""), insts, [Note(1, r)], op, map[], Book(map[1 := r], serial, {}, {}, map[], {}))
  }

  lemma Marks1(d: Def, r: string)
    requires Reached(Claimed1(d, r, map[0 := Mark(1)], [Note(1, r)]))
    ensures Reached(Over(d, r, Creating(1, d), map[], 0))
  {
    var s := Claimed1(d, r, map[0 := Mark(1)], [Note(1, r)]);
    StepContinues(s, 0);
    assert s.cancels - {0} == map[];
    hide Reached, Step;
    ReachedNext(s, Continue(0), Over(d, r, Creating(1, d), map[], 0));
  }

  // For every definition and reason: a canceled run with an execution at work and
  // nothing left to stop it.
  lemma CanceledYetWorking(d: Def, r: string)
    ensures exists es :: var s := Run(es); s.rows.Keys == {1} && s.rows[1].state == Canceled && Orphan(s, 1) && s.op == Free && s.cancels == map[]
  {
    hide Reached;
    FirstClaim(d, r);
    var c := map[0 := ReadBack(1)];
    Misses(d, r, c, 0);
    Moves(d, r, c[0 := Effects(1, r)], 0, Effects(1, r), Writing(1, r));
    assert c[0 := Effects(1, r)][0 := Writing(1, r)] == map[0 := Writing(1, r)];
    Writes1(d, r);
    Marks1(d, r);
    CreatesLast(d, r);
  }

  lemma CreatesLast(d: Def, r: string)
    requires Reached(Over(d, r, Creating(1, d), map[], 0))
    ensures exists es :: var s := Run(es); s.rows.Keys == {1} && s.rows[1].state == Canceled && Orphan(s, 1) && s.op == Free && s.cancels == map[]
  {
    var t := Over(d, r, Free, map[1 := Inst(0, d, false, false, Working)], 1);
    assert Step(Over(d, r, Creating(1, d), map[], 0), Proceed) == t;
    ReachedNext(Over(d, r, Creating(1, d), map[], 0), Proceed, t);
    hide Step, Run;
    var es :| Run(es) == t;
  }

  /* ---- two requests find no marker ---- */

  lemma SecondClaim(d: Def, r: string, again: string, c: Cancel)
    requires Reached(Claimed1(d, r, map[0 := c], []))
    ensures Reached(Claimed1(d, r, map[0 := c][1 := ReadBack(1)], []))
  {
    hide Reached;
    ReachedNext(Claimed1(d, r, map[0 := c], []), CancelRun(1, again, 1), Claimed1(d, r, map[0 := c][1 := ReadBack(1)], []));
  }

  // Two cancels of a run whose execution does not exist: the marker is written twice.
  lemma MarkerTwice(d: Def, r: string, again: string)
    ensures exists es :: |Run(es).notes| >= 2
  {
    hide Reached;
    FirstClaim(d, r);
    var c := map[0 := ReadBack(1)];
    Misses(d, r, c, 0);
    Moves(d, r, c[0 := Effects(1, r)], 0, Effects(1, r), Writing(1, r));
    assert c[0 := Effects(1, r)][0 := Writing(1, r)] == map[0 := Writing(1, r)];
    SecondClaim(d, r, again, Writing(1, r));
    var both := map[0 := Writing(1, r)][1 := ReadBack(1)];
    Misses(d, r, both, 1);
    Moves(d, r, both[1 := Effects(1, r)], 1, Effects(1, r), Writing(1, r));
    BothHold(d, r, both[1 := Effects(1, r)][1 := Writing(1, r)]);
  }

  lemma BothHold(d: Def, r: string, cancels: map<nat, Cancel>)
    requires Reached(Claimed1(d, r, cancels, [])) && 0 in cancels && 1 in cancels && cancels[0].Writing? && cancels[1].Writing?
    ensures exists es :: |Run(es).notes| >= 2
  {
    hide Run;
    var s := Claimed1(d, r, cancels, []);
    var es :| Run(es) == s;
    assert LifecycleNotes.Holds(s, OfRequest(0)) && LifecycleNotes.Holds(s, OfRequest(1));
    var more := SecondFollows(es, OfRequest(0), OfRequest(1));
  }

  /* ---- a poll that read the row active, and then looks for an execution ---- */

  function Exec(serial: nat, d: Def, canceled: bool, stage: Stage): Inst { Inst(serial, d, false, canceled, stage) }

  // The first execution is at work, and a second poll has read the row.
  function Watched(d: Def): State {
    At(d, Row(Starting, ""), map[1 := Exec(0, d, false, Working)], [], Looking(1, d), map[], FRESH.(serial := 1))
  }

  lemma WatchedReached(d: Def)
    ensures Reached(Watched(d))
  {
    StartReached(d);
    hide Reached;
    var t := Watched(d).(op := Free);
    ReachedNext(Started(d), Proceed, t);
    PollAgain(t, d);
    ReachedNext(t, Poll(false), t.(op := Ensuring(1, d)));
    ReachedNext(t.(op := Ensuring(1, d)), Proceed, Watched(d));
  }

  lemma PollAgain(t: State, d: Def)
    requires t == Watched(d).(op := Free)
    ensures Step(t, Poll(false)) == t.(op := Ensuring(1, d))
  {
    assert 1 in t.rows && Active(t.rows[1]);
  }

  // The run is over and so is its execution, when the poll looks.
  function Ended(d: Def, state: RunState, notes: seq<Note>, canceled: bool, book: Book): State {
    At(d, Row(state, ""), map[1 := Exec(0, d, canceled, Finished)], notes, Looking(1, d), map[], book)
  }

  lemma LooksLate(d: Def, state: RunState, notes: seq<Note>, canceled: bool, book: Book)
    requires Reached(Ended(d, state, notes, canceled, book)) && Terminal(state)
    requires book.serial == 1 && (1 in book.completer ==> book.completer[1] == 0)
    ensures exists es :: var s := Run(es); s.rows.Keys == {1} && s.rows[1].state == state && Orphan(s, 1) && s.op == Free && s.cancels == map[]
  {
    var b := Ended(d, state, notes, canceled, book);
    var c := b.(op := Creating(1, d));
    var e := b.(op := Free, insts := map[1 := Exec(1, d, false, Working)], book := book.(serial := 2));
    assert Step(b, Proceed) == c;
    assert Step(c, Proceed) == e;
    assert Orphan(e, 1) && e.rows.Keys == {1};
    hide Step, Reached, Orphan, Ended;
    ReachedNext(b, Proceed, c);
    ReachedNext(c, Proceed, e);
    Witness(e);
  }

  lemma Witness(s: State)
    requires Reached(s)
    ensures exists es :: Run(es) == s
  {
  }

  // The run completes in between.
  lemma CompletedYetWorking(d: Def)
    ensures exists es :: var s := Run(es); s.rows.Keys == {1} && s.rows[1].state == Completed && Orphan(s, 1) && s.op == Free && s.cancels == map[]
  {
    WatchedReached(d);
    var book := Book(map[], 1, {}, {}, map[1 := 0], {});
    var a := At(d, Row(Completed, ""), map[1 := Exec(0, d, false, Closing)], [], Looking(1, d), map[], book);
    assert Step(Watched(d), WriteCompleted(1, true)) == a;
    assert Step(a, FinishRun(1)) == Ended(d, Completed, [], false, book.(done := {0}));
    hide Step, Reached, Orphan, Watched, Ended;
    ReachedNext(Watched(d), WriteCompleted(1, true), a);
    ReachedNext(a, FinishRun(1), Ended(d, Completed, [], false, book.(done := {0})));
    LooksLate(d, Completed, [], false, book.(done := {0}));
  }

  // A claimed attempt with its execution, while the poll is about to look.
  function Live(d: Def, r: string, i: Inst, notes: seq<Note>, cancels: map<nat, Cancel>, struck: set<nat>): State {
    At(d, Row(Canceling, r), map[1 := i], notes, Looking(1, d), cancels, Book(map[1 := r], 1, {}, struck, map[], {}))
  }

  lemma RequestSteps(d: Def, r: string)
    ensures Reached(Live(d, r, Exec(0, d, false, Working).(pending := true), [], map[], {}))
  {
    WatchedReached(d);
    var i := Exec(0, d, false, Working);
    var a, b := Live(d, r, i, [], map[0 := ReadBack(1)], {}), Live(d, r, i, [], map[0 := Lookup(1, r)], {});
    var c, e := Live(d, r, i, [], map[0 := Request(1, r, 0)], {}), Live(d, r, i.(pending := true), [], map[], {});
    assert Step(Watched(d), CancelRun(1, r, 0)) == a;
    StepContinues(a, 0);
    StepContinues(b, 0);
    StepContinues(c, 0);
    assert c.cancels - {0} == map[];
    hide Step, Reached, Watched;
    ReachedNext(Watched(d), CancelRun(1, r, 0), a);
    ReachedNext(a, Continue(0), b);
    ReachedNext(b, Continue(0), c);
    ReachedNext(c, Continue(0), e);
  }

  lemma CleanupSteps(d: Def, r: string)
    requires Reached(Live(d, r, Exec(0, d, false, Working).(pending := true), [], map[], {}))
    ensures Reached(Live(d, r, Exec(0, d, true, Marked), [Note(1, r)], map[], {0}))
  {
    var a := Live(d, r, Exec(0, d, false, Working).(pending := true), [], map[], {});
    var b := Live(d, r, Exec(0, d, true, Reading), [], map[], {0});
    var c := Live(d, r, Exec(0, d, true, Cleaning(r, false)), [], map[], {0});
    var e := Live(d, r, Exec(0, d, true, Cleaning(r, true)), [], map[], {0});
    var f := Live(d, r, Exec(0, d, true, Marked), [Note(1, r)], map[], {0});
    assert Step(a, Deliver(1)) == b;
    assert Step(b, LoadReason(1)) == c;
    assert Step(c, NoteList(1, true)) == e;
    assert Step(e, NoteWrite(1, true, true)) == f;
    hide Step, Reached;
    ReachedNext(a, Deliver(1), b);
    ReachedNext(b, LoadReason(1), c);
    ReachedNext(c, NoteList(1, true), e);
    ReachedNext(e, NoteWrite(1, true, true), f);
  }

  // The run is canceled in between, and its execution cleans up and finishes: no
  // request has decided anything.
  lemma CanceledBehindPoll(d: Def, r: string)
    ensures exists es :: var s := Run(es); s.rows.Keys == {1} && s.rows[1].state == Canceled && Orphan(s, 1) && s.op == Free && s.cancels == map[]
  {
    hide Reached, Ended;
    RequestSteps(d, r);
    CleanupSteps(d, r);
    var f := Live(d, r, Exec(0, d, true, Marked), [Note(1, r)], map[], {0});
    var book := Book(map[1 := r], 1, {0}, {0}, map[], {});
    var g := Ended(d, Canceled, [Note(1, r)], true, book);
    assert Step(f, WriteCanceled(1, true)) == g by { LastWrite(d, r, f, g); }
    hide Step;
    ReachedNext(f, WriteCanceled(1, true), g);
    LooksLate(d, Canceled, [Note(1, r)], true, book);
  }

  lemma LastWrite(d: Def, r: string, f: State, g: State)
    requires f == Live(d, r, Exec(0, d, true, Marked), [Note(1, r)], map[], {0})
    requires g == Ended(d, Canceled, [Note(1, r)], true, Book(map[1 := r], 1, {0}, {0}, map[], {}))
    ensures Step(f, WriteCanceled(1, true)) == g
  {
  }

  /* ---- a marker without the reason ---- */

  // The first execution failed uncanceled, a request decided to conclude, and the
  // operation created a second execution, which another request then canceled.
  function Twin(d: Def, r: string, state: RunState, second: Inst, notes: seq<Note>, cancels: map<nat, Cancel>, struck: set<nat>, late: set<nat>): State {
    At(d, Row(state, if state == Canceling then r else ""), map[1 := second], notes, Free, cancels,
       Book(map[1 := r], 2, {0}, struck, if state == Completed then map[1 := 0] else map[], late))
  }

  lemma FailSteps(d: Def, r: string)
    ensures Reached(Twin(d, r, Canceling, Exec(1, d, false, Working), [], map[0 := Conclude(1, 0)], {}, {}))
  {
    WatchedReached(d);
    var i, j := Exec(0, d, false, Working), Exec(0, d, false, Finished);
    var a, b := Live(d, r, i, [], map[0 := ReadBack(1)], {}), Live(d, r, i, [], map[0 := Lookup(1, r)], {});
    var c := Live(d, r, j, [], map[0 := Lookup(1, r)], {}).(book := Book(map[1 := r], 1, {0}, {}, map[], {}));
    var e := c.(cancels := map[0 := Conclude(1, 0)]);
    var f := e.(op := Creating(1, d));
    assert Step(Watched(d), CancelRun(1, r, 0)) == a;
    StepContinues(a, 0);
    assert Step(b, Fail(1)) == c;
    StepContinues(c, 0);
    assert Step(e, Proceed) == f;
    assert Step(f, Proceed) == Twin(d, r, Canceling, Exec(1, d, false, Working), [], map[0 := Conclude(1, 0)], {}, {});
    hide Step, Reached, Watched, Twin;
    ReachedNext(Watched(d), CancelRun(1, r, 0), a);
    ReachedNext(a, Continue(0), b);
    ReachedNext(b, Fail(1), c);
    ReachedNext(c, Continue(0), e);
    ReachedNext(e, Proceed, f);
    ReachedNext(f, Proceed, Twin(d, r, Canceling, Exec(1, d, false, Working), [], map[0 := Conclude(1, 0)], {}, {}));
  }

  lemma TwinRequest(d: Def, r: string)
    requires Reached(Twin(d, r, Canceling, Exec(1, d, false, Working), [], map[0 := Conclude(1, 0)], {}, {}))
    ensures Reached(Twin(d, r, Canceling, Exec(1, d, false, Working).(pending := true), [], map[0 := Conclude(1, 0)], {}, {}))
  {
    var i, k := Exec(1, d, false, Working), Conclude(1, 0);
    var a, b := Twin(d, r, Canceling, i, [], map[0 := k], {}, {}), Twin(d, r, Canceling, i, [], map[0 := k, 1 := ReadBack(1)], {}, {});
    var c := Twin(d, r, Canceling, i, [], map[0 := k, 1 := Lookup(1, r)], {}, {});
    var e := Twin(d, r, Canceling, i, [], map[0 := k, 1 := Request(1, r, 1)], {}, {});
    var f := Twin(d, r, Canceling, i.(pending := true), [], map[0 := k], {}, {});
    assert Step(a, CancelRun(1, r, 1)) == b;
    StepContinues(b, 1);
    StepContinues(c, 1);
    StepContinues(e, 1);
    assert e.cancels - {1} == map[0 := k];
    assert b.cancels[1 := Lookup(1, r)] == c.cancels && c.cancels[1 := Request(1, r, 1)] == e.cancels;
    hide Step, Reached;
    ReachedNext(a, CancelRun(1, r, 1), b);
    ReachedNext(b, Continue(1), c);
    ReachedNext(c, Continue(1), e);
    ReachedNext(e, Continue(1), f);
  }

  lemma TwinConcludes(d: Def, r: string)
    requires Reached(Twin(d, r, Canceling, Exec(1, d, false, Working).(pending := true), [], map[0 := Conclude(1, 0)], {}, {}))
    ensures Reached(Twin(d, r, Completed, Exec(1, d, false, Working).(pending := true), [], map[], {}, {}))
  {
    var a := Twin(d, r, Canceling, Exec(1, d, false, Working).(pending := true), [], map[0 := Conclude(1, 0)], {}, {});
    var b := Twin(d, r, Completed, Exec(1, d, false, Working).(pending := true), [], map[], {}, {});
    StepContinues(a, 0);
    assert a.cancels - {0} == map[];
    hide Step, Reached;
    ReachedNext(a, Continue(0), b);
  }

  lemma TwinCleansUp(d: Def, r: string)
    requires Reached(Twin(d, r, Completed, Exec(1, d, false, Working).(pending := true), [], map[], {}, {}))
    ensures Reached(Twin(d, r, Completed, Exec(1, d, true, Cleaning("", true)), [], map[], {1}, {1}))
  {
    var b := Twin(d, r, Completed, Exec(1, d, false, Working).(pending := true), [], map[], {}, {});
    var c := Twin(d, r, Completed, Exec(1, d, true, Reading), [], map[], {1}, {});
    var e := Twin(d, r, Completed, Exec(1, d, true, Cleaning("", false)), [], map[], {1}, {1});
    var f := Twin(d, r, Completed, Exec(1, d, true, Cleaning("", true)), [], map[], {1}, {1});
    assert Step(b, Deliver(1)) == c;
    assert Step(c, LoadReason(1)) == e;
    assert Step(e, NoteList(1, true)) == f;
    hide Step, Reached;
    ReachedNext(b, Deliver(1), c);
    ReachedNext(c, LoadReason(1), e);
    ReachedNext(e, NoteList(1, true), f);
  }

  // A completed run is left with a cancellation marker that gives no reason, whatever
  // the reason of its one claim was.
  lemma MarkerWithoutReason(d: Def, r: string)
    ensures exists es :: var s := Run(es);
              s.rows.Keys == {1} && s.rows[1].state == Completed && s.notes == [Note(1, "")] && s.book.first == map[1 := r]
  {
    hide Reached;
    FailSteps(d, r);
    TwinRequest(d, r);
    TwinConcludes(d, r);
    TwinCleansUp(d, r);
    var f := Twin(d, r, Completed, Exec(1, d, true, Cleaning("", true)), [], map[], {1}, {1});
    var g := Twin(d, r, Completed, Exec(1, d, true, Marked), [Note(1, "")], map[], {1}, {1});
    assert Step(f, NoteWrite(1, true, true)) == g by { TwinWrites(d, r, f, g); }
    assert g.rows.Keys == {1} && g.rows[1].state == Completed && g.notes == [Note(1, "")] && g.book.first == map[1 := r];
    hide Step, Twin;
    ReachedNext(f, NoteWrite(1, true, true), g);
    Witness(g);
  }

  lemma TwinWrites(d: Def, r: string, f: State, g: State)
    requires f == Twin(d, r, Completed, Exec(1, d, true, Cleaning("", true)), [], map[], {1}, {1})
    requires g == Twin(d, r, Completed, Exec(1, d, true, Marked), [Note(1, "")], map[], {1}, {1})
    ensures Step(f, NoteWrite(1, true, true)) == g
  {
  }
}
