/** The relay-owned tables of internal/execution/projection/projection.go. Each SQL
    statement is one guarded update of a map of rows; the functions below say what it
    does to a row, and class Database runs the statements. */
module Projection {
  import opened Base

  datatype RunState = Starting | Running | Waiting | Blocked | Canceling | Completed | Canceled

  predicate Terminal(s: RunState) { s == Completed || s == Canceled }

  datatype RunRow = RunRow(state: RunState, lastError: string, node: string, visit: string, started: nat, finished: Option<nat>)

  /* ---- guarded updates of one run row ---- */

  // beginCancellation: claims any run that is neither terminal nor canceling.
  function Claimed(r: RunRow, reason: string): RunRow {
    if Terminal(r.state) || r.state == Canceling then r else r.(state := Canceling, lastError := reason)
  }

  // The fence of an ordinary state update.
  predicate Fenced(was: RunState, next: RunState) {
    (was == Canceling && next != Canceling && next != Canceled) || (Terminal(was) && was != next)
  }

  function Placed(r: RunRow, state: RunState, error: string, finished: Option<nat>): RunRow {
    r.(state := state, lastError := error, finished := if finished.Some? then finished else r.finished)
  }

  predicate Admits(was: RunState, expected: Option<RunState>, next: RunState) {
    match expected
    case None => !Fenced(was, next)
    case Some(e) => was == e && !(Terminal(was) && was != next)
  }

  // updateStateCAS on the run row.
  function Updated(r: RunRow, expected: Option<RunState>, state: RunState, error: string, finished: Option<nat>): RunRow {
    if Admits(r.state, expected, state) then Placed(r, state, error, finished) else r
  }

  // updateNode on the run row.
  function Entered(r: RunRow, state: RunState, node: string, visit: string): RunRow {
    if r.state == Canceling || Terminal(r.state) then r else r.(state := state, node := node, visit := visit)
  }

  // Once a row is completed or canceled no update changes its state; once it is
  // canceling only a terminal state follows and its reason is the first one.
  lemma TerminalAbsorbs(r: RunRow, expected: Option<RunState>, state: RunState, text: string, finished: Option<nat>)
    ensures Terminal(r.state) ==>
      Claimed(r, text) == r && Updated(r, expected, state, text, finished).state == r.state
      && Entered(r, state, text, text) == r
    ensures r.state == Canceling ==>
      Claimed(r, text) == r && Entered(r, state, text, text) == r
      && (expected.None? ==> Updated(r, expected, state, text, finished) == r
                             || Updated(r, expected, state, text, finished).state in {Canceling, Canceled})
  {
  }

  /* ---- the step timeline ---- */

  datatype StepStatus = Pending | StepRunning | StepWaiting | StepBlocked | Succeeded | Failed | StepCanceled

  type Steps = map<nat, StepStatus>

  predicate Over(s: StepStatus) { s == Succeeded || s == Failed || s == StepCanceled }

  predicate Live(s: StepStatus) { s == StepRunning || s == StepWaiting || s == StepBlocked }

  // The CASE expression of upsertStep.
  function MergedStatus(was: StepStatus, next: StepStatus): StepStatus {
    if Over(was) then was
    else if was == StepBlocked && (next == Pending || next == StepRunning || next == StepWaiting) then was
    else if was == StepWaiting && (next == Pending || next == StepRunning) then was
    else if was == StepRunning && next == Pending then was
    else next
  }

  function Upserted(steps: Steps, n: nat, status: StepStatus): Steps {
    steps[n := if n in steps then MergedStatus(steps[n], status) else status]
  }

  function StepFor(s: RunState): Option<StepStatus> {
    match s
    case Running => Some(StepRunning)
    case Waiting => Some(StepWaiting)
    case Blocked => Some(StepBlocked)
    case Completed => Some(Succeeded)
    case Canceled => Some(StepCanceled)
    case _ => None
  }

  // n is the live step with the largest sequence.
  predicate Latest(steps: Steps, n: nat) {
    n in steps && steps[n] in LIVE && forall m :: m in steps && steps[m] in LIVE ==> m <= n
  }

  const LIVE := {StepRunning, StepWaiting, StepBlocked}

  predicate NoneLive(steps: Steps) { forall m :: m in steps ==> steps[m] !in LIVE }

  // The latest live step gets the status, if there is one.
  ghost predicate LatestBecomes(before: Steps, status: StepStatus, after: Steps) {
    (NoneLive(before) && after == before) || exists n :: Latest(before, n) && after == before[n := status]
  }

  // The step update that follows an effective state update.
  ghost predicate Followed(before: Steps, state: RunState, after: Steps) {
    match state
    case Running => LatestBecomes(before, StepRunning, after)
    case Waiting => LatestBecomes(before, StepWaiting, after)
    case Blocked => LatestBecomes(before, StepBlocked, after)
    case Completed => LatestBecomes(before, Succeeded, after)
    case Canceled => LatestBecomes(before, StepCanceled, after)
    case Starting | Canceling => after == before
  }

  // Repeating an upsert changes nothing.
  lemma UpsertTwice(steps: Steps, n: nat, status: StepStatus)
    ensures Upserted(Upserted(steps, n, status), n, status) == Upserted(steps, n, status)
  {
  }

  /* ---- the tables, statement by statement ---- */

  datatype Runtime = Runtime(visit: string, session: string)

  // The rows of the runs that are not gone.
  function Keep<V>(m: map<string, V>, gone: set<string>): map<string, V> { map id | id in m && id !in gone :: m[id] }

  function KeepPairs<V>(m: map<(string, string), V>, gone: set<string>): map<(string, string), V> {
    map k | k in m && k.0 !in gone :: m[k]
  }

  function KeepTriples<V>(m: map<(string, string, string), V>, gone: set<string>): map<(string, string, string), V> {
    map k | k in m && k.0 !in gone :: m[k]
  }

  lemma KeepNone<V>(m: map<string, V>)
    ensures Keep(m, {}) == m
  {
  }

  lemma KeepPairsNone<V>(m: map<(string, string), V>)
    ensures KeepPairs(m, {}) == m
  {
  }

  lemma KeepTriplesNone<V>(m: map<(string, string, string), V>)
    ensures KeepTriples(m, {}) == m
  {
  }

  lemma KeepMore<V>(m: map<string, V>, gone: set<string>, id: string)
    ensures Keep(Keep(m, gone), {id}) == Keep(m, gone + {id})
  {
  }

  lemma KeepPairsMore<V>(m: map<(string, string), V>, gone: set<string>, id: string)
    ensures KeepPairs(KeepPairs(m, gone), {id}) == KeepPairs(m, gone + {id})
  {
  }

  lemma KeepTriplesMore<V>(m: map<(string, string, string), V>, gone: set<string>, id: string)
    ensures KeepTriples(KeepTriples(m, gone), {id}) == KeepTriples(m, gone + {id})
  {
  }

  // What a deletion of runs leaves of a table keyed by run: the rows of all others.
  ghost predicate LeftOf<K(!new), V>(was: map<K, V>, now: map<K, V>, run: K -> string, gone: set<string>) {
    forall k :: (k in now <==> k in was && run(k) !in gone) && (k in now ==> now[k] == was[k])
  }

  lemma KeepLeft<V>(m: map<string, V>, gone: set<string>)
    ensures LeftOf(m, Keep(m, gone), id => id, gone)
  {
  }

  lemma KeepPairsLeft<V>(m: map<(string, string), V>, gone: set<string>)
    ensures LeftOf(m, KeepPairs(m, gone), (k: (string, string)) => k.0, gone)
  {
  }

  lemma KeepTriplesLeft<V>(m: map<(string, string, string), V>, gone: set<string>)
    ensures LeftOf(m, KeepTriples(m, gone), (k: (string, string, string)) => k.0, gone)
  {
  }

  predicate Expired(r: RunRow, olderThan: nat) { Terminal(r.state) && r.finished.Some? && r.finished.value < olderThan }

  function Revisited(rts: map<(string, string), Runtime>, id: string, node: string, visit: string): map<(string, string), Runtime> {
    rts[(id, node) := if (id, node) in rts then rts[(id, node)].(visit := visit) else Runtime(visit, "")]
  }

  function Bound(m: map<(string, string, string), string>, key: (string, string, string), visit: string): map<(string, string, string), string> {
    if key in m then m else m[key := visit]
  }

  // The run, runtime, session and receipt tables. Steps have their own timeline.
  datatype Tables = Tables(
    runs: map<string, RunRow>, runtimes: map<(string, string), Runtime>,
    sessions: map<(string, string, string), string>, reports: map<(string, string), string>)

  datatype Statement =
    | Insert(id: string, now: nat)
    | Begin(id: string, reason: string)
    | Set(id: string, expected: Option<RunState>, state: RunState, error: string, finished: Option<nat>)
    | Enter(id: string, state: RunState, node: string, visit: string)
    | Visit(id: string, node: string, visit: string)
    | Record(id: string, report: string, visit: string)
    | Register(id: string, node: string, session: string)
    | Delete(id: string)

  // A session is accepted if the runtime's visit is the one it was first seen at.
  predicate Accepts(t: Tables, id: string, node: string, session: string) {
    (id, node) in t.runtimes
    && ((id, node, session) in t.sessions ==> t.sessions[(id, node, session)] == t.runtimes[(id, node)].visit)
  }

  function Execute(t: Tables, s: Statement): Tables {
    match s
    case Insert(id, now) => t.(runs := if id in t.runs then t.runs else t.runs[id := RunRow(Starting, "", "", "", now, None)])
    case Begin(id, reason) => if id in t.runs then t.(runs := t.runs[id := Claimed(t.runs[id], reason)]) else t
    case Set(id, expected, state, error, finished) =>
      if id in t.runs then t.(runs := t.runs[id := Updated(t.runs[id], expected, state, error, finished)]) else t
    case Enter(id, state, node, visit) =>
      if id !in t.runs then t
      else
        t.(runs := t.runs[id := Entered(t.runs[id], state, node, visit)],
           runtimes := if t.runs[id].state != Canceling && !Terminal(t.runs[id].state)
                       then Revisited(t.runtimes, id, node, visit) else t.runtimes)
    case Visit(id, node, visit) => t.(runtimes := Revisited(t.runtimes, id, node, visit))
    case Record(id, report, visit) => t.(reports := if (id, report) in t.reports then t.reports else t.reports[(id, report) := visit])
    case Register(id, node, session) =>
      if (id, node) !in t.runtimes then t
      else
        t.(sessions := Bound(t.sessions, (id, node, session), t.runtimes[(id, node)].visit),
           runtimes := if Accepts(t, id, node, session)
                       then t.runtimes[(id, node) := t.runtimes[(id, node)].(session := session)] else t.runtimes)
    case Delete(id) =>
      Tables(Keep(t.runs, {id}), KeepPairs(t.runtimes, {id}), KeepTriples(t.sessions, {id}), KeepPairs(t.reports, {id}))
  }

  function ExecuteAll(t: Tables, ss: seq<Statement>): Tables
    decreases |ss|
  {
    if ss == [] then t else ExecuteAll(Execute(t, ss[0]), ss[1..])
  }

  predicate Retained(ss: seq<Statement>, id: string) { Delete(id) !in ss }

  /* ---- what any sequence of statements keeps ---- */

  // A row keeps its start, and its state once it is final.
  lemma RowStep(t: Tables, s: Statement, id: string)
    requires id in t.runs && s != Delete(id)
    ensures var u := Execute(t, s);
            id in u.runs && u.runs[id].started == t.runs[id].started && (Terminal(t.runs[id].state) ==> u.runs[id].state == t.runs[id].state)
  {
  }

  lemma {:induction false} RowKept(t: Tables, ss: seq<Statement>, id: string)
    requires id in t.runs && Retained(ss, id)
    ensures var u := ExecuteAll(t, ss);
            id in u.runs && u.runs[id].started == t.runs[id].started && (Terminal(t.runs[id].state) ==> u.runs[id].state == t.runs[id].state)
    decreases |ss|
  {
    hide Execute;
    if ss == [] {
    } else {
      RowStep(t, ss[0], id);
      RowKept(Execute(t, ss[0]), ss[1..], id);
    }
  }

  // Writes a canceling row gives way to: canceling and canceled, and what expects it.
  predicate Settles(s: Statement, id: string) {
    s.Set? && s.id == id && (s.state == Canceling || s.state == Canceled || s.expected == Some(Canceling))
  }

  predicate Unsettled(ss: seq<Statement>, id: string) { forall k :: 0 <= k < |ss| ==> !Settles(ss[k], id) }

  lemma ClaimStep(t: Tables, s: Statement, id: string)
    requires id in t.runs && t.runs[id].state == Canceling && s != Delete(id) && !Settles(s, id)
    ensures id in Execute(t, s).runs && Execute(t, s).runs[id] == t.runs[id]
  {
  }

  // A claimed row, its reason with it, outlives anything but the end of its
  // cancellation: further claims, inserts, visits and ordinary state updates.
  lemma {:induction false} ClaimKept(t: Tables, ss: seq<Statement>, id: string)
    requires id in t.runs && t.runs[id].state == Canceling && Retained(ss, id) && Unsettled(ss, id)
    ensures id in ExecuteAll(t, ss).runs && ExecuteAll(t, ss).runs[id] == t.runs[id]
    decreases |ss|
  {
    hide Execute, Settles;
    if ss == [] {
    } else {
      ClaimStep(t, ss[0], id);
      ClaimKept(Execute(t, ss[0]), ss[1..], id);
    }
  }

  lemma ReceiptStep(t: Tables, s: Statement, key: (string, string))
    requires key in t.reports && s != Delete(key.0)
    ensures key in Execute(t, s).reports && Execute(t, s).reports[key] == t.reports[key]
  {
  }

  // A report ID belongs to the visit that first recorded it, whatever is recorded later.
  lemma {:induction false} ReceiptKept(t: Tables, ss: seq<Statement>, key: (string, string))
    requires key in t.reports && Retained(ss, key.0)
    ensures key in ExecuteAll(t, ss).reports && ExecuteAll(t, ss).reports[key] == t.reports[key]
    decreases |ss|
  {
    hide Execute;
    if ss == [] {
    } else {
      ReceiptStep(t, ss[0], key);
      ReceiptKept(Execute(t, ss[0]), ss[1..], key);
    }
  }

  lemma SessionStep(t: Tables, s: Statement, key: (string, string, string))
    requires key in t.sessions && s != Delete(key.0)
    ensures key in Execute(t, s).sessions && Execute(t, s).sessions[key] == t.sessions[key]
  {
  }

  // A session belongs to the visit it was first seen at: at any later time it is
  // accepted exactly while that visit is the current one.
  lemma {:induction false} SessionKept(t: Tables, ss: seq<Statement>, id: string, node: string, session: string)
    requires (id, node, session) in t.sessions && Retained(ss, id)
    ensures var u := ExecuteAll(t, ss);
            Accepts(u, id, node, session) <==> (id, node) in u.runtimes && u.runtimes[(id, node)].visit == t.sessions[(id, node, session)]
    ensures (id, node, session) in ExecuteAll(t, ss).sessions
    decreases |ss|
  {
    hide Execute;
    if ss == [] {
    } else {
      SessionStep(t, ss[0], (id, node, session));
      SessionKept(Execute(t, ss[0]), ss[1..], id, node, session);
    }
  }

  // The visit of the last statement that moved a node's runtime, if there was one.
  function Moved(t: Tables, s: Statement, key: (string, string)): Option<string> {
    match s
    case Visit(id, node, visit) => if (id, node) == key then Some(visit) else None
    case Enter(id, _, node, visit) =>
      if (id, node) == key && id in t.runs && t.runs[id].state != Canceling && !Terminal(t.runs[id].state) then Some(visit) else None
    case _ => None
  }

  function LastMove(t: Tables, ss: seq<Statement>, key: (string, string)): Option<string>
    decreases |ss|
  {
    if ss == [] then None
    else
      var later := LastMove(Execute(t, ss[0]), ss[1..], key);
      if later.Some? then later else Moved(t, ss[0], key)
  }

  lemma RuntimeStep(t: Tables, s: Statement, key: (string, string))
    requires s != Delete(key.0)
    ensures var u := Execute(t, s);
            && (Moved(t, s, key).Some? ==> key in u.runtimes && u.runtimes[key].visit == Moved(t, s, key).value)
            && (Moved(t, s, key).None? ==> (key in u.runtimes <==> key in t.runtimes) && (key in t.runtimes ==> u.runtimes[key].visit == t.runtimes[key].visit))
            && (key in t.runtimes && !s.Register? ==> u.runtimes[key].session == t.runtimes[key].session)
  {
  }

  // A runtime row is at the visit it was last moved to, and keeps its session as long
  // as none is registered.
  lemma {:induction false} RuntimeKept(t: Tables, ss: seq<Statement>, key: (string, string))
    requires Retained(ss, key.0)
    ensures var u, m := ExecuteAll(t, ss), LastMove(t, ss, key);
            && (m.Some? ==> key in u.runtimes && u.runtimes[key].visit == m.value)
            && (m.None? ==> (key in u.runtimes <==> key in t.runtimes) && (key in t.runtimes ==> u.runtimes[key].visit == t.runtimes[key].visit))
            && (key in t.runtimes && (forall k :: 0 <= k < |ss| ==> !ss[k].Register?) ==> key in u.runtimes && u.runtimes[key].session == t.runtimes[key].session)
    decreases |ss|
  {
    hide Execute, Moved;
    if ss == [] {
    } else {
      RuntimeStep(t, ss[0], key);
      RuntimeKept(Execute(t, ss[0]), ss[1..], key);
    }
  }

  // The node and visit an entry publishes for a run, unless the row is claimed or over.
  function Publishes(t: Tables, s: Statement, id: string): Option<(string, string)> {
    match s
    case Enter(run, _, node, visit) =>
      if run == id && id in t.runs && t.runs[id].state !in {Canceling, Completed, Canceled} then Some((node, visit)) else None
    case _ => None
  }

  function LastPublished(t: Tables, ss: seq<Statement>, id: string): Option<(string, string)>
    decreases |ss|
  {
    if ss == [] then None
    else
      var later := LastPublished(Execute(t, ss[0]), ss[1..], id);
      if later.Some? then later else Publishes(t, ss[0], id)
  }

  lemma NodeStep(t: Tables, s: Statement, id: string)
    requires id in t.runs && s != Delete(id)
    ensures id in Execute(t, s).runs
    ensures Publishes(t, s, id).Some? ==> (Execute(t, s).runs[id].node, Execute(t, s).runs[id].visit) == Publishes(t, s, id).value
    ensures Publishes(t, s, id).None? ==>
              Execute(t, s).runs[id].node == t.runs[id].node && Execute(t, s).runs[id].visit == t.runs[id].visit
  {
  }

  // A row shows the node and the visit of the last entry published for its run, one
  // that met it neither claimed nor over; everything else leaves them alone.
  lemma {:induction false} NodeKept(t: Tables, ss: seq<Statement>, id: string)
    requires id in t.runs && Retained(ss, id)
    ensures var u, last := ExecuteAll(t, ss), LastPublished(t, ss, id);
            && id in u.runs
            && (last.Some? ==> u.runs[id].node == last.value.0 && u.runs[id].visit == last.value.1)
            && (last.None? ==> u.runs[id].node == t.runs[id].node && u.runs[id].visit == t.runs[id].visit)
    decreases |ss|
  {
    hide Execute, Publishes;
    if ss == [] {
    } else {
      NodeStep(t, ss[0], id);
      NodeKept(Execute(t, ss[0]), ss[1..], id);
    }
  }

  /* ---- the database ---- */

  class Database {
    var runs: map<string, RunRow>
    var steps: map<string, Steps>
    var runtimes: map<(string, string), Runtime>
    var sessions: map<(string, string, string), string>
    var reports: map<(string, string), string>

    constructor ()
      ensures runs == map[] && steps == map[] && runtimes == map[] && sessions == map[] && reports == map[]
    {
      runs, steps, runtimes, sessions, reports := map[], map[], map[], map[], map[];
    }

    ghost function Now(): Tables
      reads this
    {
      Tables(runs, runtimes, sessions, reports)
    }

    ghost function StepsOf(id: string): Steps
      reads this
    {
      if id in steps then steps[id] else map[]
    }

    method InsertStart(id: string, now: nat)
      modifies this`runs
      ensures Now() == Execute(old(Now()), Insert(id, now))
      ensures runs == if id in old(runs) then old(runs) else old(runs)[id := RunRow(Starting, "", "", "", now, None)]
    {
      if id !in runs {
        runs := runs[id := RunRow(Starting, "", "", "", now, None)];
      }
    }

    method BeginCancellation(id: string, reason: string) returns (r: Option<RunRow>)
      modifies this`runs
      ensures Now() == Execute(old(Now()), Begin(id, reason))
      ensures id !in old(runs) ==> runs == old(runs) && r == None
      ensures id in old(runs) && old(runs)[id].state !in {Canceling, Completed, Canceled} ==>
                var row := old(runs)[id];
                runs == old(runs)[id := RunRow(Canceling, reason, row.node, row.visit, row.started, row.finished)] && r == Some(runs[id])
      ensures id in old(runs) && old(runs)[id].state in {Canceling, Completed, Canceled} ==> runs == old(runs) && r == Some(old(runs)[id])
    {
      if id in runs && !Terminal(runs[id].state) && runs[id].state != Canceling {
        runs := runs[id := runs[id].(state := Canceling, lastError := reason)];
      }
      return if id in runs then Some(runs[id]) else None;
    }

    // Guarded update of the run row, then of its latest live step.
    method UpdateStateCAS(id: string, expected: Option<RunState>, state: RunState, error: string, finished: Option<nat>)
      returns (updated: bool)
      modifies this`runs, this`steps
      ensures Now() == Execute(old(Now()), Set(id, expected, state, error, finished))
      ensures updated <==>
              && id in old(runs) && (expected.Some? ==> expected.value == old(runs)[id].state)
              && (old(runs)[id].state in {Completed, Canceled} ==> state == old(runs)[id].state)
              && (old(runs)[id].state == Canceling && expected.None? ==> state == Canceling || state == Canceled)
      ensures updated ==>
                var row := old(runs)[id];
                runs == old(runs)[id := RunRow(state, error, row.node, row.visit, row.started, if finished.Some? then finished else row.finished)]
      ensures !updated ==> runs == old(runs)
      ensures forall other :: other != id ==> StepsOf(other) == old(StepsOf(other))
      ensures if updated then Followed(old(StepsOf(id)), state, StepsOf(id)) else StepsOf(id) == old(StepsOf(id))
    {
      hide Followed;
      if id !in runs || !Admits(runs[id].state, expected, state) {
        return false;
      }
      runs := runs[id := Placed(runs[id], state, error, finished)];
      UpdateLatestStep(id, state);
      return true;
    }

    method UpdateLatestStep(id: string, state: RunState)
      modifies this`steps
      ensures Followed(old(StepsOf(id)), state, StepsOf(id))
      ensures forall other :: other != id ==> StepsOf(other) == old(StepsOf(other))
    {
      var status := StepFor(state);
      if status.Some? && id in steps {
        var found := FindLatest(steps[id]);
        if found.Some? {
          steps := steps[id := steps[id][found.value := status.value]];
        }
      }
    }

    static method FindLatest(steps: Steps) returns (found: Option<nat>)
      ensures found.None? ==> NoneLive(steps)
      ensures found.Some? ==> Latest(steps, found.value)
    {
      found := None;
      var rest := steps.Keys;
      while rest != {}
        invariant rest <= steps.Keys
        invariant found.None? ==> forall m :: m in steps && m !in rest ==> !Live(steps[m])
        invariant found.Some? ==> found.value in steps && Live(steps[found.value])
        invariant found.Some? ==> forall m :: m in steps && m !in rest && Live(steps[m]) ==> m <= found.value
        decreases rest
      {
        var m :| m in rest;
        rest := rest - {m};
        if Live(steps[m]) && (found.None? || m > found.value) {
          found := Some(m);
        }
      }
    }

    method UpdateNode(id: string, state: RunState, node: string, visit: string)
      modifies this`runs, this`runtimes
      ensures Now() == Execute(old(Now()), Enter(id, state, node, visit))
      ensures id in old(runs) && old(runs)[id].state !in {Canceling, Completed, Canceled} ==>
                var row, session := old(runs)[id], if (id, node) in old(runtimes) then old(runtimes)[(id, node)].session else "";
                && runs == old(runs)[id := RunRow(state, row.lastError, node, visit, row.started, row.finished)]
                && runtimes == old(runtimes)[(id, node) := Runtime(visit, session)]
      ensures id !in old(runs) || old(runs)[id].state in {Canceling, Completed, Canceled} ==>
                runs == old(runs) && runtimes == old(runtimes)
    {
      if id !in runs || runs[id].state == Canceling || Terminal(runs[id].state) {
        return;
      }
      runs := runs[id := runs[id].(state := state, node := node, visit := visit)];
      runtimes := Revisited(runtimes, id, node, visit);
    }

    method UpdateNodeRuntimeVisit(id: string, node: string, visit: string)
      modifies this`runtimes
      ensures Now() == Execute(old(Now()), Visit(id, node, visit))
      ensures var session := if (id, node) in old(runtimes) then old(runtimes)[(id, node)].session else "";
              runtimes == old(runtimes)[(id, node) := Runtime(visit, session)]
    {
      runtimes := Revisited(runtimes, id, node, visit);
    }

    // Steps are display data: any status may be upserted for any run.
    method UpsertStep(id: string, n: nat, status: StepStatus)
      modifies this`steps
      ensures StepsOf(id) == Upserted(old(StepsOf(id)), n, status)
      ensures forall other :: other != id ==> StepsOf(other) == old(StepsOf(other))
    {
      var mine: Steps := if id in steps then steps[id] else map[];
      steps := steps[id := mine[n := if n in mine then MergedStatus(mine[n], status) else status]];
    }

    method RecordProcessedReport(id: string, report: string, visit: string)
      modifies this`reports
      ensures Now() == Execute(old(Now()), Record(id, report, visit))
      ensures reports == if (id, report) in old(reports) then old(reports) else old(reports)[(id, report) := visit]
    {
      if (id, report) !in reports {
        reports := reports[(id, report) := visit];
      }
    }

    // A session belongs to the visit during which it was first seen. It is stored on
    // the runtime row only while that visit is the current one.
    method RegisterNodeSession(id: string, node: string, session: string) returns (accepted: bool)
      modifies this`sessions, this`runtimes
      ensures Now() == Execute(old(Now()), Register(id, node, session))
      ensures accepted <==>
                ((id, node) in old(runtimes)
                 && ((id, node, session) in old(sessions) ==> old(sessions)[(id, node, session)] == old(runtimes)[(id, node)].visit))
      ensures (id, node) !in old(runtimes) ==> sessions == old(sessions)
      ensures (id, node) in old(runtimes) && (id, node, session) !in old(sessions) ==>
                sessions == old(sessions)[(id, node, session) := old(runtimes)[(id, node)].visit]
      ensures (id, node, session) in old(sessions) ==> sessions == old(sessions)
      ensures runtimes == if accepted then old(runtimes)[(id, node) := old(runtimes)[(id, node)].(session := session)] else old(runtimes)
    {
      if (id, node) !in runtimes {
        return false;
      }
      var current := runtimes[(id, node)].visit;
      if (id, node, session) !in sessions {
        sessions := sessions[(id, node, session) := current];
      }
      var bound := sessions[(id, node, session)];
      if bound != current {
        return false;
      }
      runtimes := runtimes[(id, node) := runtimes[(id, node)].(session := session)];
      return true;
    }

    // sweepRetention: terminal rows finished before the cutoff go, with everything
    // recorded about them; every other run keeps all it has.
    method SweepRetention(olderThan: nat) returns (ids: set<string>)
      modifies this
      ensures forall id :: id in ids <==>
                && id in old(runs) && old(runs)[id].state in {Completed, Canceled}
                && old(runs)[id].finished.Some? && old(runs)[id].finished.value < olderThan
      ensures LeftOf(old(runs), runs, id => id, ids) && LeftOf(old(steps), steps, id => id, ids)
      ensures LeftOf(old(runtimes), runtimes, (k: (string, string)) => k.0, ids)
      ensures LeftOf(old(reports), reports, (k: (string, string)) => k.0, ids)
      ensures LeftOf(old(sessions), sessions, (k: (string, string, string)) => k.0, ids)
    {
      KeepNone(runs);
      KeepNone(steps);
      KeepPairsNone(runtimes);
      KeepPairsNone(reports);
      KeepTriplesNone(sessions);
      hide Execute, Keep, KeepPairs, KeepTriples;
      ids := set id | id in runs && Expired(runs[id], olderThan);
      var rest := ids;
      assert ids - rest == {};
      while rest != {}
        invariant rest <= ids
        invariant runs == Keep(old(runs), ids - rest) && steps == Keep(old(steps), ids - rest)
        invariant runtimes == KeepPairs(old(runtimes), ids - rest) && reports == KeepPairs(old(reports), ids - rest)
        invariant sessions == KeepTriples(old(sessions), ids - rest)
        decreases rest
      {
        var gone :| gone in rest;
        assert ids - (rest - {gone}) == (ids - rest) + {gone};
        KeepMore(old(runs), ids - rest, gone);
        KeepMore(old(steps), ids - rest, gone);
        KeepPairsMore(old(runtimes), ids - rest, gone);
        KeepPairsMore(old(reports), ids - rest, gone);
        KeepTriplesMore(old(sessions), ids - rest, gone);
        DeleteRun(gone);
        rest := rest - {gone};
      }
      assert ids - rest == ids;
      KeepLeft(old(runs), ids);
      KeepLeft(old(steps), ids);
      KeepPairsLeft(old(runtimes), ids);
      KeepPairsLeft(old(reports), ids);
      KeepTriplesLeft(old(sessions), ids);
    }

    // The five deletes of one transaction.
    method DeleteRun(id: string)
      modifies this
      ensures Now() == Execute(old(Now()), Delete(id))
      ensures runs == Keep(old(runs), {id}) && steps == Keep(old(steps), {id})
      ensures runtimes == KeepPairs(old(runtimes), {id}) && reports == KeepPairs(old(reports), {id})
      ensures sessions == KeepTriples(old(sessions), {id})
    {
      reports := KeepPairs(reports, {id});
      sessions := KeepTriples(sessions, {id});
      runtimes := KeepPairs(runtimes, {id});
      steps := Keep(steps, {id});
      runs := Keep(runs, {id});
    }
  }
}
