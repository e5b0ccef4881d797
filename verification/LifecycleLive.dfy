/** No reachable state is a dead end: a run that is being canceled can always be brought
    to its end, and an active one can always be completed, whatever has crashed. */
module LifecycleLive {
  import opened Base
  import opened Projection
  import opened Lifecycle
  import opened LifecycleInv
  import opened LifecycleSeal

  ghost function From(s: State, es: seq<Event>): State
    decreases |es|
  {
    if es == [] then s else From(Step(s, es[0]), es[1..])
  }

  lemma FromCons(s: State, e: Event, es: seq<Event>)
    ensures From(s, [e] + es) == From(Step(s, e), es)
  {
    assert ([e] + es)[1..] == es;
    hide Step;
  }

  lemma {:induction false} FromRun(es: seq<Event>, more: seq<Event>)
    ensures Run(es + more) == From(Run(es), more)
    decreases |more|
  {
    hide Step;
    if more == [] {
      assert es + more == es;
    } else {
      RunSnoc(es, more[0]);
      FromRun(es + [more[0]], more[1..]);
      assert es + [more[0]] + more[1..] == es + more;
    }
  }

  predicate IsCanceling(s: State, a: nat) { a in s.rows && s.rows[a].state == Canceling }

  predicate StagedAt(s: State, a: nat, stage: Stage) { IsCanceling(s, a) && a in s.insts && s.insts[a].stage == stage }

  predicate Ended(s: State, a: nat) { a in s.rows && Terminal(s.rows[a].state) }

  lemma {:induction false} FreshId(ids: set<nat>) returns (id: nat)
    ensures id !in ids && forall x :: x in ids ==> x < id
    decreases |ids|
  {
    if ids == {} {
      id := 0;
    } else {
      var x: nat :| x in ids;
      id := FreshId(ids - {x});
      assert ids == ids - {x} + {x};
      if id <= x { id := x + 1; }
    }
  }

  /* ---- the cleanup of a canceled execution ---- */

  lemma FromMarked(s: State, a: nat) returns (es: seq<Event>)
    requires StagedAt(s, a, Marked)
    ensures Ended(From(s, es), a)
  {
    es := [WriteCanceled(a, true)];
    FromCons(s, WriteCanceled(a, true), []);
    assert es == [WriteCanceled(a, true)] + [];
  }

  lemma FromListed(s: State, a: nat, r: string) returns (es: seq<Event>)
    requires StagedAt(s, a, Cleaning(r, true))
    ensures Ended(From(s, es), a)
  {
    var t := Step(s, NoteWrite(a, true, true));
    assert StagedAt(t, a, Marked);
    hide Step, From;
    es := FromMarked(t, a);
    FromCons(s, NoteWrite(a, true, true), es);
    es := [NoteWrite(a, true, true)] + es;
  }

  lemma FromCleaning(s: State, a: nat, r: string, listed: bool) returns (es: seq<Event>)
    requires StagedAt(s, a, Cleaning(r, listed))
    ensures Ended(From(s, es), a)
  {
    var t := Step(s, NoteList(a, true));
    assert StagedAt(t, a, if s.notes == [] then Cleaning(r, true) else Marked);
    hide Step, From;
    if s.notes == [] { es := FromListed(t, a, r); } else { es := FromMarked(t, a); }
    FromCons(s, NoteList(a, true), es);
    es := [NoteList(a, true)] + es;
  }

  lemma FromReading(s: State, a: nat) returns (es: seq<Event>)
    requires StagedAt(s, a, Reading)
    ensures Ended(From(s, es), a)
  {
    var t := Step(s, LoadReason(a));
    assert StagedAt(t, a, Cleaning(s.rows[a].lastError, false));
    hide Step, From;
    es := FromCleaning(t, a, s.rows[a].lastError, false);
    FromCons(s, LoadReason(a), es);
    es := [LoadReason(a)] + es;
  }

  lemma FromPending(s: State, a: nat) returns (es: seq<Event>)
    requires StagedAt(s, a, Working) && s.insts[a].pending && !s.insts[a].canceled
    ensures Ended(From(s, es), a)
  {
    var t := Step(s, Deliver(a));
    assert StagedAt(t, a, Reading);
    hide Step, From;
    es := FromReading(t, a);
    FromCons(s, Deliver(a), es);
    es := [Deliver(a)] + es;
  }

  /* ---- a request taken up again at startup ---- */

  predicate Asked(s: State, a: nat, id: nat, c: Cancel) { IsCanceling(s, a) && id in s.cancels && s.cancels[id] == c }

  lemma Continues(s: State, id: nat)
    requires id in s.cancels
    ensures var c := s.cancels[id];
            Step(s, Continue(id)) == Acted(s, c).(cancels := if After(s, c).Some? then s.cancels[id := After(s, c).value] else s.cancels - {id})
  {
    hide After, Acted;
  }

  lemma FromMark(s: State, a: nat, id: nat) returns (es: seq<Event>)
    requires Asked(s, a, id, Mark(a))
    ensures Ended(From(s, es), a)
  {
    Continues(s, id);
    es := [Continue(id)];
    FromCons(s, Continue(id), []);
    assert es == [Continue(id)] + [];
    hide Step;
  }

  lemma FromEffects(s: State, a: nat, id: nat, r: string) returns (es: seq<Event>)
    requires Asked(s, a, id, Effects(a, r)) || Asked(s, a, id, Writing(a, r))
    ensures Ended(From(s, es), a)
    decreases if s.cancels[id].Effects? then 1 else 0
  {
    Continues(s, id);
    var t := Step(s, Continue(id));
    hide Step, From;
    if s.cancels[id].Effects? && s.notes == [] {
      es := FromEffects(t, a, id, r);
    } else {
      es := FromMark(t, a, id);
    }
    FromCons(s, Continue(id), es);
    es := [Continue(id)] + es;
  }

  lemma FromConclude(s: State, a: nat, id: nat, serial: nat) returns (es: seq<Event>)
    requires Asked(s, a, id, Conclude(a, serial))
    ensures Ended(From(s, es), a)
  {
    Continues(s, id);
    es := [Continue(id)];
    FromCons(s, Continue(id), []);
    assert es == [Continue(id)] + [];
    hide Step;
  }

  lemma FromDecided(s: State, a: nat, id: nat, r: string, i: Inst) returns (es: seq<Event>)
    requires Asked(s, a, id, Effects(a, r)) || Asked(s, a, id, Conclude(a, i.serial))
    ensures Ended(From(s, es), a)
  {
    if s.cancels[id].Effects? { es := FromEffects(s, a, id, r); } else { es := FromConclude(s, a, id, i.serial); }
  }

  // A request that finds no execution, or a finished one.
  lemma FromAgain(s: State, a: nat, id: nat, r: string) returns (es: seq<Event>)
    requires Asked(s, a, id, MissingAgain(a, r)) && (a in s.insts ==> s.insts[a].stage == Finished)
    ensures Ended(From(s, es), a)
  {
    Continues(s, id);
    var t := Step(s, Continue(id));
    hide Step, From;
    es := FromDecided(t, a, id, r, if a in s.insts then s.insts[a] else Inst(0, "", false, false, Finished));
    FromCons(s, Continue(id), es);
    es := [Continue(id)] + es;
  }

  lemma FromMissing(s: State, a: nat, id: nat, r: string) returns (es: seq<Event>)
    requires Asked(s, a, id, MissingRow(a, r)) && (a in s.insts ==> s.insts[a].stage == Finished)
    ensures Ended(From(s, es), a)
  {
    Continues(s, id);
    var t := Step(s, Continue(id));
    hide Step, From;
    es := FromAgain(t, a, id, r);
    FromCons(s, Continue(id), es);
    es := [Continue(id)] + es;
  }

  lemma FromLookup(s: State, a: nat, id: nat, r: string) returns (es: seq<Event>)
    requires Asked(s, a, id, Lookup(a, r)) && (a in s.insts ==> s.insts[a].stage == Finished)
    ensures Ended(From(s, es), a)
  {
    Continues(s, id);
    var t := Step(s, Continue(id));
    hide Step, From;
    if a in s.insts { es := FromDecided(t, a, id, r, s.insts[a]); } else { es := FromMissing(t, a, id, r); }
    FromCons(s, Continue(id), es);
    es := [Continue(id)] + es;
  }

  lemma FromGone(s: State, a: nat) returns (es: seq<Event>)
    requires IsCanceling(s, a) && (a in s.insts ==> s.insts[a].stage == Finished)
    ensures Ended(From(s, es), a)
  {
    var id := FreshId(s.cancels.Keys);
    var t := Step(s, Reconcile(a, id));
    assert Asked(t, a, id, Lookup(a, s.rows[a].lastError));
    hide Step, From;
    es := FromLookup(t, a, id, s.rows[a].lastError);
    FromCons(s, Reconcile(a, id), es);
    es := [Reconcile(a, id)] + es;
  }

  lemma FromClosing(s: State, a: nat) returns (es: seq<Event>)
    requires StagedAt(s, a, Closing)
    ensures Ended(From(s, es), a)
  {
    var t := Step(s, FinishRun(a));
    assert StagedAt(t, a, Finished);
    hide Step, From;
    es := FromGone(t, a);
    FromCons(s, FinishRun(a), es);
    es := [FinishRun(a)] + es;
  }

  lemma FromRequest(s: State, a: nat, id: nat, r: string) returns (es: seq<Event>)
    requires StagedAt(s, a, Working) && !s.insts[a].canceled && Asked(s, a, id, Request(a, r, s.insts[a].serial))
    ensures Ended(From(s, es), a)
  {
    Continues(s, id);
    var t := Step(s, Continue(id));
    hide Step, From;
    es := FromPending(t, a);
    FromCons(s, Continue(id), es);
    es := [Continue(id)] + es;
  }

  lemma FromWorking(s: State, a: nat) returns (es: seq<Event>)
    requires StagedAt(s, a, Working) && !s.insts[a].canceled
    ensures Ended(From(s, es), a)
  {
    var id := FreshId(s.cancels.Keys);
    var r := s.rows[a].lastError;
    var t := Step(s, Reconcile(a, id));
    assert Asked(t, a, id, Lookup(a, r)) && t.insts == s.insts;
    Continues(t, id);
    var u := Step(t, Continue(id));
    assert Asked(u, a, id, Request(a, r, s.insts[a].serial)) && u.insts == s.insts;
    hide Step, From;
    es := FromRequest(u, a, id, r);
    FromCons(t, Continue(id), es);
    es := [Continue(id)] + es;
    FromCons(s, Reconcile(a, id), es);
    es := [Reconcile(a, id)] + es;
  }

  // From every reachable state in which an attempt is being canceled, relay-flow alone
  // can bring it to an end.
  lemma CancelCanEnd(es: seq<Event>, a: nat) returns (more: seq<Event>)
    requires a in Run(es).rows && Run(es).rows[a].state == Canceling
    ensures a in Run(es + more).rows && Run(es + more).rows[a].state in {Canceled, Completed}
  {
    Invariant(es);
    var s := Run(es);
    StageFacts(s, a);
    hide Run, Inv, Step, From;
    if a !in s.insts {
      more := FromGone(s, a);
    } else {
      match s.insts[a].stage
      case Working => more := FromWorking(s, a);
      case Closing => more := FromClosing(s, a);
      case Reading => more := FromReading(s, a);
      case Cleaning(r, listed) => more := FromCleaning(s, a, r, listed);
      case Marked => more := FromMarked(s, a);
      case Finished => more := FromGone(s, a);
    }
    FromRun(es, more);
  }

  lemma StageFacts(s: State, a: nat)
    requires Inv(s)
    ensures a in s.insts && s.insts[a].stage == Working ==> !s.insts[a].canceled
  {
    hide Ordered, OpFits, Current, Numbers, Credited, Noticed, Reasons, Cleanups, Requests, Labels;
  }

  /* ---- an active run ---- */

  predicate OnlyActive(s: State, a: nat, def: Def) {
    && a in s.rows && Active(s.rows[a]) && s.def == Some(def)
    && forall b: nat :: b in s.rows && Active(s.rows[b]) ==> b == a
  }

  predicate AtWork(s: State, a: nat) { a in s.rows && Active(s.rows[a]) && a in s.insts && s.insts[a].stage == Working }

  predicate CompletedNow(s: State, a: nat) { a in s.rows && s.rows[a].state == Completed && a in s.insts && s.insts[a].stage == Finished }

  predicate Waits(s: State, a: nat, m: string) { a in s.rows && s.rows[a].state == Waiting && s.rows[a].lastError == m }

  lemma ShowsWait(s: State, a: nat, m: string)
    requires AtWork(s, a)
    ensures AtWork(Step(s, Progress(a, Waiting, m)), a) && Waits(Step(s, Progress(a, Waiting, m)), a, m)
  {
  }

  lemma Completes(t: State, a: nat)
    requires AtWork(t, a)
    ensures CompletedNow(Step(Step(t, WriteCompleted(a, true)), FinishRun(a)), a)
  {
    var u := Step(t, WriteCompleted(a, true));
    assert a in u.insts && u.insts[a].stage == Closing && a in u.rows && u.rows[a].state == Completed;
  }

  // The execution shows that it waits, completes the run and finishes.
  lemma FromAtWork(s: State, a: nat, m: string) returns (es: seq<Event>)
    requires AtWork(s, a)
    ensures CompletedNow(From(s, es), a) && es != [] && Waits(From(s, es[..1]), a, m)
  {
    var t := Step(s, Progress(a, Waiting, m));
    var u := Step(t, WriteCompleted(a, true));
    var v := Step(u, FinishRun(a));
    ShowsWait(s, a, m);
    Completes(t, a);
    hide Step, Waits, CompletedNow, AtWork;
    assert From(t, []) == t;
    es := [Progress(a, Waiting, m), WriteCompleted(a, true), FinishRun(a)];
    assert From(v, []) == v;
    FromCons(u, FinishRun(a), []);
    FromCons(t, WriteCompleted(a, true), [FinishRun(a)] + []);
    FromCons(s, Progress(a, Waiting, m), [WriteCompleted(a, true)] + ([FinishRun(a)] + []));
    assert es == [Progress(a, Waiting, m)] + ([WriteCompleted(a, true)] + ([FinishRun(a)] + []));
    FromCons(s, Progress(a, Waiting, m), []);
    assert es[..1] == [Progress(a, Waiting, m)] + [];
  }

  // A poll finds the active row and makes sure of its execution.
  lemma Polled(s: State, a: nat, def: Def) returns (es: seq<Event>)
    requires OnlyActive(s, a, def) && s.op == Free && !Alive(s.insts, a)
    ensures AtWork(From(s, es), a)
  {
    var b := Step(s, Snapshot);
    assert OnlyActive(b, a, def) && b.op == Free && s.claimed in b.snaps;
    var t := Step(b, Poll(s.claimed));
    assert t == b.(op := Ensuring(a, def)) by { PollTakes(b, a, def, s.claimed); }
    var u := Step(t, Proceed);
    assert u == t.(op := Looking(a, def));
    var v := Step(u, Proceed);
    assert v == u.(op := Creating(a, def));
    var w := Step(v, Proceed);
    assert AtWork(w, a);
    hide Step;
    assert From(w, []) == w;
    FromCons(v, Proceed, []);
    FromCons(u, Proceed, [Proceed] + []);
    FromCons(t, Proceed, [Proceed] + ([Proceed] + []));
    FromCons(b, Poll(s.claimed), [Proceed] + ([Proceed] + ([Proceed] + [])));
    FromCons(s, Snapshot, [Poll(s.claimed)] + ([Proceed] + ([Proceed] + ([Proceed] + []))));
    es := [Snapshot] + ([Poll(s.claimed)] + ([Proceed] + ([Proceed] + ([Proceed] + []))));
  }

  lemma PollTakes(s: State, a: nat, def: Def, seen: bool)
    requires OnlyActive(s, a, def) && s.op == Free && seen in s.snaps
    ensures Step(s, Poll(seen)) == s.(op := Ensuring(a, def))
  {
  }

  lemma {:induction false} FromAppend(s: State, es: seq<Event>, more: seq<Event>)
    ensures From(s, es + more) == From(From(s, es), more)
    decreases |es|
  {
    hide Step;
    if es == [] {
      assert es + more == more;
    } else {
      FromAppend(Step(s, es[0]), es[1..], more);
      assert (es + more)[1..] == es[1..] + more;
    }
  }

  // Whatever crashed, and whatever became of its execution, a poll gets an active run
  // back to work.
  lemma ToWork(s: State, a: nat, def: Def) returns (es: seq<Event>)
    requires OnlyActive(s, a, def)
    ensures AtWork(From(s, es), a)
  {
    var t := Step(s, Crash);
    assert OnlyActive(t, a, def) && t.op == Free;
    if Alive(t.insts, a) && t.insts[a].stage == Working {
      assert AtWork(t, a);
      es := [Crash];
      FromCons(s, Crash, []);
      assert es == [Crash] + [] && From(t, []) == t;
    } else if Alive(t.insts, a) {
      var u := Step(t, Fail(a));
      assert OnlyActive(u, a, def) && u.op == Free && !Alive(u.insts, a);
      hide Step;
      es := Polled(u, a, def);
      FromCons(t, Fail(a), es);
      FromCons(s, Crash, [Fail(a)] + es);
      es := [Crash] + ([Fail(a)] + es);
    } else {
      hide Step;
      es := Polled(t, a, def);
      FromCons(s, Crash, es);
      es := [Crash] + es;
    }
  }

  // From every reachable state in which an attempt is active, it can be completed, and
  // can be shown waiting with any message before.
  lemma ActiveCanComplete(es: seq<Event>, a: nat, m: string) returns (wait: seq<Event>, more: seq<Event>)
    requires a in Run(es).rows && Active(Run(es).rows[a])
    ensures Waits(Run(es + wait), a, m) && wait <= more
    ensures a in Run(es + more).rows && Run(es + more).rows[a].state == Completed
  {
    Invariant(es);
    var s := Run(es);
    assert s.def.Some? && OnlyActive(s, a, s.def.value) by { ActiveFacts(s, a); }
    hide Run, Inv, Step, From, Waits;
    var first := ToWork(s, a, s.def.value);
    var second := FromAtWork(From(s, first), a, m);
    wait, more := first + second[..1], first + second;
    FromAppend(s, first, second);
    FromAppend(s, first, second[..1]);
    FromRun(es, more);
    FromRun(es, wait);
  }

  lemma ActiveFacts(s: State, a: nat)
    requires Inv(s) && a in s.rows && Active(s.rows[a])
    ensures s.def.Some? && OnlyActive(s, a, s.def.value)
  {
    hide OpFits, Executions, Numbers, Credited, Noticed, Reasons, Cleanups, Requests, Labels;
  }

  /* ---- a canceled run ---- */

  lemma RestartTakes(s: State, a: nat, def: Def)
    requires s.op == Free && s.def == Some(def) && Newest(s.rows, a) && s.rows[a].state == Canceled && Maximal(s.rows, a)
    ensures Step(s, Restart) == s.(op := Ensuring(a + 1, def))
  {
    assert Restartable(s.rows);
    assert forall m: nat :: Maximal(s.rows, m) ==> m == a;
  }

  // A gated operation for a new attempt inserts its row and creates its execution.
  lemma FromEnsuring(t: State, n: nat, def: Def) returns (es: seq<Event>)
    requires t.op == Ensuring(n, def) && n !in t.rows && n !in t.insts
    ensures AtWork(From(t, es), n)
  {
    var u := Step(t, Proceed);
    assert u == t.(op := Inserting(n, def));
    var v := Step(u, Proceed);
    assert v == u.(op := Creating(n, def), rows := u.rows[n := NewRow(u.clock)]);
    var w := Step(v, Proceed);
    assert AtWork(w, n) by { Created(v, n, def); }
    hide Step;
    assert From(w, []) == w;
    FromCons(v, Proceed, []);
    FromCons(u, Proceed, [Proceed] + []);
    FromCons(t, Proceed, [Proceed] + ([Proceed] + []));
    es := [Proceed] + ([Proceed] + ([Proceed] + []));
  }

  lemma FromCanceled(s: State, a: nat, def: Def) returns (es: seq<Event>)
    requires s.def == Some(def) && Newest(s.rows, a) && s.rows[a].state == Canceled && Maximal(s.rows, a)
    requires a + 1 !in s.insts
    ensures AtWork(From(s, es), a + 1)
  {
    var b := Step(s, Crash);
    assert b.op == Free && b.rows == s.rows && b.def == s.def && a + 1 !in b.insts;
    RestartTakes(b, a, def);
    var t := b.(op := Ensuring(a + 1, def));
    hide Step, From, Newest;
    es := FromEnsuring(t, a + 1, def);
    FromCons(b, Restart, es);
    FromCons(s, Crash, [Restart] + es);
    es := [Crash] + ([Restart] + es);
  }

  lemma Created(v: State, n: nat, def: Def)
    requires v.op == Creating(n, def) && n in v.rows && Active(v.rows[n]) && n !in v.insts
    ensures AtWork(Step(v, Proceed), n)
  {
  }

  // A run whose last attempt is canceled can be restarted, as long as its workflow is
  // there: the next number gets an execution at work.
  lemma CanceledCanRestart(es: seq<Event>, a: nat) returns (more: seq<Event>)
    requires a in Run(es).rows && Run(es).rows[a].state == Canceled && Run(es).def.Some? && forall b :: b in Run(es).rows ==> b <= a
    ensures AtWork(Run(es + more), a + 1)
  {
    Invariant(es);
    var s := Run(es);
    CanceledFacts(s, a);
    hide Run, Inv, Step, From, Newest;
    more := FromCanceled(s, a, s.def.value);
    FromRun(es, more);
  }

  lemma CanceledFacts(s: State, a: nat)
    requires Inv(s) && a in s.rows && forall b :: b in s.rows ==> b <= a
    ensures Newest(s.rows, a) && Maximal(s.rows, a) && a + 1 !in s.insts
  {
    hide OpFits, Numbers, Credited, Noticed, Reasons, Cleanups, Requests, Labels, InstFits;
  }

  /* ---- requests that lost their claim ---- */

  // A request that reads the row back goes on exactly if the row is still canceling;
  // otherwise it is over, and neither way does it change anything else.
  lemma ReadsBack(s: State, id: nat)
    requires id in s.cancels && (s.cancels[id].ReadBack? || s.cancels[id].MissingRow?)
    ensures var t, c := Step(s, Continue(id)), s.cancels[id];
            && t == s.(cancels := t.cancels) && (forall x :: x != id ==> (x in t.cancels <==> x in s.cancels))
            && (id in t.cancels <==> c.a in s.rows && s.rows[c.a].state == Canceling)
            && (id in t.cancels ==> t.cancels[id] == if c.ReadBack? then Lookup(c.a, s.rows[c.a].lastError) else MissingAgain(c.a, c.reason))
  {
    Continues(s, id);
    hide Step;
  }

  /* ---- retention ---- */

  // The sweep meets an idle server.
  predicate Quiet(s: State) { s.op == Free && s.snaps == {} && s.cancels == map[] }

  // A row goes only in a sweep, exactly if it is completed or canceled and finished
  // before the cutoff, its execution with it, and none while one of these is at work.
  lemma SweptExact(s: State, e: Event, a: nat)
    requires a in s.rows
    ensures a !in Step(s, e).rows <==>
            && e.Sweep? && Quiet(s)
            && s.rows[a].state in {Completed, Canceled} && s.rows[a].finished.Some? && s.rows[a].finished.value < e.cutoff
            && forall b :: b in s.rows && s.rows[b].state in {Completed, Canceled} && s.rows[b].finished.Some? && s.rows[b].finished.value < e.cutoff ==>
                 !(b in s.insts && s.insts[b].stage != Finished)
    ensures a !in Step(s, e).rows ==> a !in Step(s, e).insts
  {
    if e.Sweep? {
      SweptNow(s, e.cutoff, a);
    } else {
      RowStays(s, e, a);
    }
  }

  lemma SweptNow(s: State, cutoff: nat, a: nat)
    requires a in s.rows
    ensures a !in SweepStep(s, cutoff).rows <==>
            && Quiet(s) && s.rows[a].state in {Completed, Canceled} && s.rows[a].finished.Some? && s.rows[a].finished.value < cutoff
            && forall b :: b in s.rows && s.rows[b].state in {Completed, Canceled} && s.rows[b].finished.Some? && s.rows[b].finished.value < cutoff ==>
                 !(b in s.insts && s.insts[b].stage != Finished)
    ensures a !in SweepStep(s, cutoff).rows ==> a !in SweepStep(s, cutoff).insts
  {
    forall b
      ensures b in Gone(s, cutoff) <==> b in s.rows && s.rows[b].state in {Completed, Canceled} && s.rows[b].finished.Some? && s.rows[b].finished.value < cutoff
    {
    }
    hide Gone;
  }

  lemma RowStays(s: State, e: Event, a: nat)
    requires a in s.rows && !e.Sweep?
    ensures a in Step(s, e).rows
  {
    if e.Continue? && e.id in s.cancels {
      RowActs(s, s.cancels[e.id], a);
      Continues(s, e.id);
      hide After, Acted, Step;
    } else {
      hide After, Acted, Updated, Claimed, Unlisted, Verdict;
    }
  }

  lemma RowActs(s: State, c: Cancel, a: nat)
    requires a in s.rows
    ensures a in Acted(s, c).rows
  {
    hide Updated;
  }
}
