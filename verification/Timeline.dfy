/** The timeline rebuilt from Temporal history (internal/execution/temporal/operations.go)
    against the one kept in SQL while the run executes. */
module Timeline {
  import opened Base
  import opened Projection

  /* ---- one status lattice, written twice ---- */

  // temporalStepRank.
  function Rank(s: StepStatus): nat {
    match s
    case Succeeded | Failed | StepCanceled => 4
    case StepBlocked => 3
    case StepWaiting => 2
    case StepRunning => 1
    case Pending => 0
  }

  // mergeTemporalStep, on statuses.
  function Ranked(was: StepStatus, next: StepStatus): StepStatus {
    if Rank(was) >= 4 || Rank(next) < Rank(was) then was else next
  }

  // The SQL CASE expression and the rank comparison are the same lattice.
  lemma SameLattice(was: StepStatus, next: StepStatus)
    ensures MergedStatus(was, next) == Ranked(was, next)
  {
  }

  function Refolded(steps: Steps, n: nat, status: StepStatus): Steps {
    steps[n := if n in steps then Ranked(steps[n], status) else status]
  }

  // applyTemporalProjectionState.
  function FoldedStatus(s: RunState): Option<StepStatus> {
    match s
    case Waiting => Some(StepWaiting)
    case Blocked => Some(StepBlocked)
    case Canceled | Canceling => Some(StepCanceled)
    case _ => None
  }

  ghost predicate Applied(before: Steps, state: RunState, after: Steps) {
    match state
    case Waiting => LatestBecomes(before, StepWaiting, after)
    case Blocked => LatestBecomes(before, StepBlocked, after)
    case Canceled | Canceling => LatestBecomes(before, StepCanceled, after)
    case _ => after == before
  }

  method ApplyState(steps: Steps, state: RunState) returns (after: Steps)
    ensures Applied(steps, state, after)
  {
    var selected: Option<nat> := None;
    var rest := steps.Keys;
    while rest != {}
      invariant rest <= steps.Keys
      invariant selected.None? ==> forall m :: m in steps && m !in rest ==> !Live(steps[m])
      invariant selected.Some? ==> selected.value in steps && Live(steps[selected.value])
      invariant selected.Some? ==> forall m :: m in steps && m !in rest && Live(steps[m]) ==> m <= selected.value
      decreases rest
    {
      var m :| m in rest;
      rest := rest - {m};
      if Live(steps[m]) && (selected.None? || m > selected.value) {
        selected := Some(m);
      }
    }
    var status := FoldedStatus(state);
    if selected.None? || status.None? {
      return steps;
    }
    assert Latest(steps, selected.value);
    return steps[selected.value := status.value];
  }

  /* ---- histories ---- */

  // A scheduled projection activity, and whether it ever ran.
  datatype Item =
    | Upsert(n: nat, status: StepStatus, ran: bool)
    | Update(state: RunState, ran: bool)

  // Requesting cancellation claims the row; the interpreter learns of it later.
  datatype Event = Scheduled(item: Item) | Claim | Observed

  // Where the interpreter stands: between steps, opening step n, in it, or closing it.
  datatype Place =
    | Gap(n: nat)
    | Opening(n: nat)
    | Open(n: nat)
    | Closing(n: nat, status: StepStatus)

  // Running, cleaning up after cancellation, or closed.
  datatype Stage = Going | Cleanup | Closed

  datatype Position = Position(place: Place, stage: Stage, last: StepStatus)

  // The scheduling rules of runGraph, retryActivity and cancelCleanup. An activity
  // that did not succeed is scheduled again before anything else is.
  function Moved(p: Position, e: Event): Option<Position> {
    match e
    case Claim => Some(p)
    case Observed => if p.stage == Going then Some(p.(stage := Cleanup)) else None
    case Scheduled(Upsert(n, status, ran)) =>
      if p.stage != Going then None
      else (match p.place
        case Gap(m) =>
          if n == m && status == StepRunning then Some(p.(place := if ran then Open(n) else Opening(n)))
          else if n + 1 == m && status == p.last then Some(p) else None
        case Opening(m) =>
          if n == m && status == StepRunning then Some(p.(place := if ran then Open(n) else Opening(n))) else None
        case Open(m) =>
          if n == m && status == StepRunning then Some(p)
          else if n == m && (status == Succeeded || status == Failed)
          then Some(p.(place := if ran then Gap(n + 1) else Closing(n, status), last := status)) else None
        case Closing(m, s) =>
          if n == m && status == s then Some(p.(place := if ran then Gap(n + 1) else Closing(n, status))) else None)
    case Scheduled(Update(state, ran)) =>
      if p.stage == Closed then None
      else if state == Waiting || state == Blocked then Some(p)
      else if state == Completed && p.stage == Going && p.place.Gap? then Some(if ran then p.(stage := Closed) else p)
      else if state == Canceled && p.stage == Cleanup then Some(if ran then p.(stage := Closed) else p)
      else None
  }

  function Track(es: seq<Event>): Option<Position>
    decreases |es|
  {
    if es == [] then Some(Position(Gap(0), Going, Pending))
    else match Track(es[..|es| - 1])
      case None => None
      case Some(p) => Moved(p, es[|es| - 1])
  }

  /* ---- both timelines ---- */

  datatype Both = Both(row: RunState, sql: Steps, fold: Steps)

  // What one event does to the row, to the SQL timeline and to the fold.
  ghost predicate Effect(b: Both, e: Event, r: Both) {
    match e
    case Claim => r == b.(row := if Terminal(b.row) then b.row else Canceling)
    case Observed => r == b
    case Scheduled(Upsert(n, status, ran)) =>
      r == Both(b.row, if ran then Upserted(b.sql, n, status) else b.sql, Refolded(b.fold, n, status))
    case Scheduled(Update(state, ran)) =>
      && Applied(b.fold, state, r.fold)
      && (if ran && !Fenced(b.row, state) then r.row == state && Followed(b.sql, state, r.sql)
          else r.row == b.row && r.sql == b.sql)
  }

  ghost predicate Trace(es: seq<Event>, bs: seq<Both>) {
    && |bs| == |es| + 1 && bs[0] == Both(Starting, map[], map[])
    && forall k :: 0 <= k < |es| ==> Effect(bs[k], es[k], bs[k + 1])
  }

  // Steps 0 to n are over, and both timelines agree on them.
  ghost predicate Settled(b: Both, n: nat) {
    forall m: nat :: m < n ==> m in b.sql && m in b.fold && b.sql[m] == b.fold[m] && Over(b.sql[m])
  }

  ghost predicate Keyed(steps: Steps, n: nat) { forall m: nat :: m in steps <==> m < n }

  // The open step of the fold: canceled at the end, and possibly before that, since
  // the fold counts activities when they are scheduled.
  predicate FoldFits(s: StepStatus, stage: Stage) {
    match stage
    case Going => Live(s)
    case Cleanup => Live(s) || s == StepCanceled
    case Closed => s == StepCanceled
  }

  predicate SqlFits(s: StepStatus, stage: Stage) { if stage == Closed then s == StepCanceled else Live(s) }

  ghost predicate InGap(b: Both, n: nat) { Settled(b, n) && Keyed(b.sql, n) && Keyed(b.fold, n) }

  ghost predicate InOpening(b: Both, n: nat, stage: Stage) {
    Settled(b, n) && Keyed(b.sql, n) && Keyed(b.fold, n + 1) && FoldFits(b.fold[n], stage)
  }

  ghost predicate InOpen(b: Both, n: nat, stage: Stage) {
    Settled(b, n) && Keyed(b.sql, n + 1) && Keyed(b.fold, n + 1) && FoldFits(b.fold[n], stage) && SqlFits(b.sql[n], stage)
  }

  ghost predicate InClosing(b: Both, n: nat, s: StepStatus, stage: Stage) {
    && Settled(b, n) && Keyed(b.sql, n + 1) && Keyed(b.fold, n + 1)
    && (s == Succeeded || s == Failed) && b.fold[n] == s && SqlFits(b.sql[n], stage)
  }

  ghost predicate Agrees(b: Both, p: Position) {
    match p.place
    case Gap(n) => InGap(b, n) && (n > 0 ==> b.sql[n - 1] == p.last)
    case Opening(n) => InOpening(b, n, p.stage)
    case Open(n) => InOpen(b, n, p.stage)
    case Closing(n, s) => InClosing(b, n, s, p.stage) && s == p.last && (s == Succeeded || s == Failed)
  }

  // The row is terminal only once the history is closed or everything is over.
  ghost predicate RowFits(b: Both, p: Position) {
    && (b.row == Completed ==> p.stage == Closed && p.place.Gap?)
    && (b.row == Canceled ==> p.stage == Closed)
  }

  lemma LatestIs(steps: Steps, n: nat, k: nat)
    requires Keyed(steps, n + 1) && Live(steps[n]) && forall m: nat :: m < n ==> Over(steps[m])
    ensures Latest(steps, k) <==> k == n
    ensures !NoneLive(steps)
  {
    assert n in steps;
  }

  lemma NoneIs(steps: Steps, n: nat)
    requires Keyed(steps, n) && forall m: nat :: m < n ==> Over(steps[m])
    ensures NoneLive(steps) && forall k: nat :: !Latest(steps, k)
  {
  }

  lemma OpenStep(b: Both, n: nat, ran: bool, r: Both)
    requires InGap(b, n) || InOpening(b, n, Going)
    requires Effect(b, Scheduled(Upsert(n, StepRunning, ran)), r)
    ensures if ran then InOpen(r, n, Going) else InOpening(r, n, Going)
  {
  }

  lemma ReopenStep(b: Both, n: nat, ran: bool, r: Both)
    requires InOpen(b, n, Going) && Effect(b, Scheduled(Upsert(n, StepRunning, ran)), r)
    ensures InOpen(r, n, Going)
  {
  }

  lemma CloseStep(b: Both, n: nat, status: StepStatus, ran: bool, r: Both)
    requires (status == Succeeded || status == Failed) && (InOpen(b, n, Going) || InClosing(b, n, status, Going))
    requires Effect(b, Scheduled(Upsert(n, status, ran)), r)
    ensures if ran then InGap(r, n + 1) && r.sql[n] == status else InClosing(r, n, status, Going)
  {
  }

  lemma RecloseStep(b: Both, n: nat, status: StepStatus, ran: bool, r: Both)
    requires InGap(b, n + 1) && b.sql[n] == status && Effect(b, Scheduled(Upsert(n, status, ran)), r)
    ensures InGap(r, n + 1) && r.sql[n] == status
  {
    assert Over(b.sql[n]);
  }

  lemma AgreesUpsert(b: Both, p: Position, n: nat, status: StepStatus, ran: bool, r: Both)
    requires Agrees(b, p) && Moved(p, Scheduled(Upsert(n, status, ran))).Some?
    requires Effect(b, Scheduled(Upsert(n, status, ran)), r)
    ensures Agrees(r, Moved(p, Scheduled(Upsert(n, status, ran))).value)
  {
    hide InGap, InOpening, InOpen, InClosing, Effect;
    match p.place
    case Gap(m) => if n == m && status == StepRunning { OpenStep(b, n, ran, r); } else { RecloseStep(b, n, status, ran, r); }
    case Opening(m) => OpenStep(b, n, ran, r);
    case Open(m) => if status == StepRunning { ReopenStep(b, n, ran, r); } else { CloseStep(b, n, status, ran, r); }
    case Closing(m, s) => CloseStep(b, n, status, ran, r);
  }

  // A state update changes the open step of a timeline, or nothing.
  lemma AppliedAt(steps: Steps, n: nat, state: RunState, after: Steps)
    requires Keyed(steps, n + 1) && (forall m: nat :: m < n ==> Over(steps[m]))
    requires Applied(steps, state, after)
    ensures after == if Live(steps[n]) && FoldedStatus(state).Some? then steps[n := FoldedStatus(state).value] else steps
  {
    if Live(steps[n]) { LatestIs(steps, n, n); } else if Over(steps[n]) { NoneIs(steps, n + 1); }
    forall k: nat
      ensures Latest(steps, k) ==> k == n
    {
      if Live(steps[n]) { LatestIs(steps, n, k); }
    }
  }

  lemma FollowedAt(steps: Steps, n: nat, state: RunState, after: Steps)
    requires Keyed(steps, n + 1) && (forall m: nat :: m < n ==> Over(steps[m]))
    requires Followed(steps, state, after)
    ensures after == if Live(steps[n]) && StepFor(state).Some? then steps[n := StepFor(state).value] else steps
  {
    if Live(steps[n]) { LatestIs(steps, n, n); } else if Over(steps[n]) { NoneIs(steps, n + 1); }
    forall k: nat
      ensures Latest(steps, k) ==> k == n
    {
      if Live(steps[n]) { LatestIs(steps, n, k); }
    }
  }

  lemma GapUpdate(b: Both, n: nat, state: RunState, ran: bool, r: Both)
    requires InGap(b, n) && Effect(b, Scheduled(Update(state, ran)), r)
    ensures r.sql == b.sql && r.fold == b.fold
  {
    NoneIs(b.sql, n);
    NoneIs(b.fold, n);
  }

  lemma OpeningUpdate(b: Both, n: nat, stage: Stage, state: RunState, ran: bool, r: Both)
    requires InOpening(b, n, stage) && stage != Closed && Effect(b, Scheduled(Update(state, ran)), r)
    requires state == Waiting || state == Blocked || (state == Canceled && stage == Cleanup)
    ensures InOpening(r, n, if state == Canceled && ran then Closed else stage)
  {
    NoneIs(b.sql, n);
    AppliedAt(b.fold, n, state, r.fold);
  }

  lemma OpenUpdate(b: Both, n: nat, stage: Stage, state: RunState, ran: bool, r: Both)
    requires InOpen(b, n, stage) && stage != Closed && !Terminal(b.row) && Effect(b, Scheduled(Update(state, ran)), r)
    requires state == Waiting || state == Blocked || (state == Canceled && stage == Cleanup)
    ensures InOpen(r, n, if state == Canceled && ran then Closed else stage)
  {
    AppliedAt(b.fold, n, state, r.fold);
    if ran && !Fenced(b.row, state) { FollowedAt(b.sql, n, state, r.sql); }
  }

  lemma ClosingUpdate(b: Both, n: nat, s: StepStatus, stage: Stage, state: RunState, ran: bool, r: Both)
    requires InClosing(b, n, s, stage) && stage != Closed && !Terminal(b.row) && Effect(b, Scheduled(Update(state, ran)), r)
    requires state == Waiting || state == Blocked || (state == Canceled && stage == Cleanup)
    ensures InClosing(r, n, s, if state == Canceled && ran then Closed else stage)
  {
    AppliedAt(b.fold, n, state, r.fold);
    if ran && !Fenced(b.row, state) { FollowedAt(b.sql, n, state, r.sql); }
  }

  lemma AgreesUpdate(b: Both, p: Position, state: RunState, ran: bool, r: Both)
    requires Agrees(b, p) && RowFits(b, p) && Moved(p, Scheduled(Update(state, ran))).Some?
    requires Effect(b, Scheduled(Update(state, ran)), r)
    ensures Agrees(r, Moved(p, Scheduled(Update(state, ran))).value)
  {
    hide InOpening, InOpen, InClosing, Effect;
    match p.place
    case Gap(n) => GapUpdate(b, n, state, ran, r);
    case Opening(n) => OpeningUpdate(b, n, p.stage, state, ran, r);
    case Open(n) => OpenUpdate(b, n, p.stage, state, ran, r);
    case Closing(n, s) => ClosingUpdate(b, n, s, p.stage, state, ran, r);
  }

  lemma RowStep(b: Both, p: Position, e: Event, r: Both)
    requires RowFits(b, p) && Moved(p, e).Some? && Effect(b, e, r)
    ensures RowFits(r, Moved(p, e).value)
  {
    hide Applied, Followed, Refolded, Upserted;
  }

  lemma PlaceObserved(b: Both, p: Position)
    requires Agrees(b, p) && p.stage == Going
    ensures Agrees(b, p.(stage := Cleanup))
  {
    hide Settled, Keyed;
  }

  lemma AgreesStep(b: Both, p: Position, e: Event, r: Both)
    requires Agrees(b, p) && RowFits(b, p) && Moved(p, e).Some? && Effect(b, e, r)
    ensures Agrees(r, Moved(p, e).value) && RowFits(r, Moved(p, e).value)
  {
    RowStep(b, p, e, r);
    hide RowFits, Agrees;
    match e
    case Claim => AgreesClaim(b, p, r);
    case Observed => PlaceObserved(b, p);
    case Scheduled(item) =>
      match item {
        case Upsert(n, status, ran) => AgreesUpsert(b, p, n, status, ran, r);
        case Update(state, ran) => AgreesUpdate(b, p, state, ran, r);
      }
  }

  lemma AgreesClaim(b: Both, p: Position, r: Both)
    requires Agrees(b, p) && r.sql == b.sql && r.fold == b.fold
    ensures Agrees(r, p)
  {
    hide Keyed;
  }

  lemma {:induction false} TraceAgrees(es: seq<Event>, bs: seq<Both>)
    requires Track(es).Some? && Trace(es, bs)
    ensures Agrees(bs[|es|], Track(es).value) && RowFits(bs[|es|], Track(es).value)
    decreases |es|
  {
    if es == [] {
      assert bs[0].sql == map[] && bs[0].fold == map[];
      assert InGap(bs[0], 0);
    } else {
      var front := es[..|es| - 1];
      assert Trace(front, bs[..|es|]);
      TraceAgrees(front, bs[..|es|]);
      hide Agrees, RowFits, Moved;
      AgreesStep(bs[|es| - 1], Track(front).value, es[|es| - 1], bs[|es|]);
    }
  }

  // For every closed history the timelines rebuilt and kept are equal, except when
  // cancellation came while the upsert that opens or closes a step was scheduled but
  // had not run; then they always differ.
  lemma ClosedTimelines(es: seq<Event>, bs: seq<Both>)
    requires Track(es).Some? && Track(es).value.stage == Closed && Trace(es, bs)
    ensures bs[|es|].sql == bs[|es|].fold <==> Track(es).value.place.Gap? || Track(es).value.place.Open?
  {
    TraceAgrees(es, bs);
    var b, p := bs[|es|], Track(es).value;
    hide Track, Trace, RowFits;
    match p.place
    case Gap(n) => assert b.sql.Keys == b.fold.Keys;
    case Open(n) => assert b.sql.Keys == b.fold.Keys;
    case Opening(n) => assert n in b.fold && n !in b.sql;
    case Closing(n, s) => assert b.fold[n] == s && b.sql[n] == StepCanceled;
  }

  // Completed histories have no such gap: both timelines show every step over.
  lemma CompletedTimelines(es: seq<Event>, bs: seq<Both>)
    requires Track(es).Some? && Track(es).value.stage == Closed && Trace(es, bs)
    requires forall k :: 0 <= k < |es| ==> !es[k].Observed?
    ensures bs[|es|].sql == bs[|es|].fold && NoneLive(bs[|es|].sql)
  {
    NeverCleanup(es);
    ClosedTimelines(es, bs);
    TraceAgrees(es, bs);
    hide Track, Trace, RowFits;
    var n := Track(es).value.place.n;
    NoneIs(bs[|es|].sql, n);
  }

  lemma {:induction false} NeverCleanup(es: seq<Event>)
    requires Track(es).Some? && forall k :: 0 <= k < |es| ==> !es[k].Observed?
    ensures Track(es).value.stage != Cleanup && (Track(es).value.stage == Closed ==> Track(es).value.place.Gap?)
    decreases |es|
  {
    if es == [] {
    } else {
      var front := es[..|es| - 1];
      NeverCleanup(front);
    }
  }

  /* ---- the rebuild itself ---- */

  // The timelines a fold over the scheduled activities passes through.
  ghost predicate FoldOf(items: seq<Item>, fs: seq<Steps>) {
    && |fs| == |items| + 1 && fs[0] == map[]
    && forall k :: 0 <= k < |items| ==>
         match items[k]
         case Upsert(n, status, _) => fs[k + 1] == Refolded(fs[k], n, status)
         case Update(state, _) => Applied(fs[k], state, fs[k + 1])
  }

  // stepsFromHistory: one pass over the scheduled projection activities.
  method StepsFromHistory(items: seq<Item>) returns (steps: Steps)
    ensures exists fs :: FoldOf(items, fs) && steps == fs[|items|]
  {
    steps := map[];
    ghost var fs: seq<Steps> := [map[]];
    for k := 0 to |items|
      invariant FoldOf(items[..k], fs) && steps == fs[k]
    {
      match items[k] {
        case Upsert(n, status, _) => steps := steps[n := if n in steps then Ranked(steps[n], status) else status];
        case Update(state, _) => steps := ApplyState(steps, state);
      }
      FoldSnoc(items, k, fs, steps);
      fs := fs + [steps];
    }
    assert items[..|items|] == items;
  }

  lemma FoldSnoc(items: seq<Item>, k: nat, fs: seq<Steps>, next: Steps)
    requires k < |items| && FoldOf(items[..k], fs)
    requires match items[k]
             case Upsert(n, status, _) => next == Refolded(fs[k], n, status)
             case Update(state, _) => Applied(fs[k], state, next)
    ensures FoldOf(items[..k + 1], fs + [next])
  {
    hide Applied, Refolded;
    var more, gs := items[..k + 1], fs + [next];
    forall j | 0 <= j < k + 1
      ensures match more[j]
              case Upsert(n, status, _) => gs[j + 1] == Refolded(gs[j], n, status)
              case Update(state, _) => Applied(gs[j], state, gs[j + 1])
    {
      if j < k { assert more[j] == items[..k][j]; }
    }
  }

  lemma AppliedOnce(before: Steps, state: RunState, a: Steps, b: Steps)
    requires Applied(before, state, a) && Applied(before, state, b)
    ensures a == b
  {
  }

  // The rebuilt timeline depends on the history alone.
  lemma {:induction false} FoldUnique(items: seq<Item>, fs: seq<Steps>, gs: seq<Steps>, k: nat)
    requires FoldOf(items, fs) && FoldOf(items, gs) && k <= |items|
    ensures fs[k] == gs[k]
  {
    if k > 0 {
      FoldUnique(items, fs, gs, k - 1);
      var item := items[k - 1];
      if item.Update? { AppliedOnce(fs[k - 1], item.state, fs[k], gs[k]); }
    }
  }

  /* ---- the rebuild of a history ---- */

  // What the history holds for the rebuild: the scheduled projection activities.
  function ItemsOf(es: seq<Event>): seq<Item>
    decreases |es|
  {
    if es == [] then []
    else ItemsOf(es[..|es| - 1]) + if es[|es| - 1].Scheduled? then [es[|es| - 1].item] else []
  }

  lemma {:induction false} TraceFold(es: seq<Event>, bs: seq<Both>) returns (fs: seq<Steps>)
    requires Trace(es, bs)
    ensures FoldOf(ItemsOf(es), fs) && fs[|ItemsOf(es)|] == bs[|es|].fold
    decreases |es|
  {
    hide Applied, Refolded, Followed, Upserted;
    if es == [] {
      fs := [map[]];
    } else {
      var front, e := es[..|es| - 1], es[|es| - 1];
      assert Trace(front, bs[..|es|]);
      fs := TraceFold(front, bs[..|es|]);
      assert Effect(bs[|es| - 1], e, bs[|es|]);
      if e.Scheduled? {
        var items := ItemsOf(es);
        assert items[..|items| - 1] == ItemsOf(front);
        FoldSnoc(items, |items| - 1, fs, bs[|es|].fold);
        assert items[..|items|] == items;
        fs := fs + [bs[|es|].fold];
      } else {
        assert ItemsOf(front) + [] == ItemsOf(front);
      }
    }
  }

  // For every closed history, whatever stepsFromHistory returns is the timeline kept in
  // SQL, exactly unless an opening or closing upsert was still to run.
  lemma RebuildAgrees(es: seq<Event>, bs: seq<Both>, gs: seq<Steps>)
    requires Track(es).Some? && Track(es).value.stage == Closed && Trace(es, bs) && FoldOf(ItemsOf(es), gs)
    ensures gs[|ItemsOf(es)|] == bs[|es|].sql <==> Track(es).value.place.Gap? || Track(es).value.place.Open?
  {
    hide Track, Trace, FoldOf, ItemsOf;
    var fs := TraceFold(es, bs);
    FoldLength(ItemsOf(es), fs);
    FoldLength(ItemsOf(es), gs);
    FoldUnique(ItemsOf(es), fs, gs, |ItemsOf(es)|);
    TraceLength(es, bs);
    ClosedTimelines(es, bs);
  }

  lemma FoldLength(items: seq<Item>, fs: seq<Steps>)
    requires FoldOf(items, fs)
    ensures |fs| == |items| + 1
  {
  }

  lemma TraceLength(es: seq<Event>, bs: seq<Both>)
    requires Trace(es, bs)
    ensures |bs| == |es| + 1
  {
  }

  /* ---- there are such histories ---- */

  lemma TrackSnoc(es: seq<Event>, e: Event)
    ensures Track(es + [e]) == match Track(es) case None => None case Some(p) => Moved(p, e)
  {
    assert (es + [e])[..|es|] == es;
    hide Moved;
  }

  // One more event that the position allows.
  lemma Next(es: seq<Event>, p: Position, e: Event, q: Position) returns (more: seq<Event>)
    requires Track(es) == Some(p) && Moved(p, e) == Some(q)
    ensures Track(more) == Some(q) && more == es + [e]
  {
    TrackSnoc(es, e);
    more := es + [e];
    hide Track, Moved;
  }

  predicate Outcomes(os: seq<StepStatus>) { forall i :: 0 <= i < |os| ==> os[i] == Succeeded || os[i] == Failed }

  function LastOf(os: seq<StepStatus>): StepStatus { if os == [] then Pending else os[|os| - 1] }

  // A step whose opening and closing are lost and repeated, that waits and blocks, and
  // whose upserts come again.
  lemma StepHistory(es: seq<Event>, n: nat, last: StepStatus, o: StepStatus) returns (more: seq<Event>)
    requires Track(es) == Some(Position(Gap(n), Going, last)) && (o == Succeeded || o == Failed)
    ensures Track(more) == Some(Position(Gap(n + 1), Going, o))
  {
    hide Track;
    var gap, opening, open := Position(Gap(n), Going, last), Position(Opening(n), Going, last), Position(Open(n), Going, last);
    var closing, next := Position(Closing(n, o), Going, o), Position(Gap(n + 1), Going, o);
    more := Next(es, gap, Scheduled(Upsert(n, StepRunning, false)), opening);
    more := Next(more, opening, Scheduled(Upsert(n, StepRunning, false)), opening);
    more := Next(more, opening, Scheduled(Upsert(n, StepRunning, true)), open);
    more := Next(more, open, Scheduled(Update(Waiting, true)), open);
    more := Next(more, open, Scheduled(Update(Blocked, false)), open);
    more := Next(more, open, Scheduled(Upsert(n, StepRunning, true)), open);
    more := Next(more, open, Claim, open);
    more := Next(more, open, Scheduled(Upsert(n, o, false)), closing);
    more := Next(more, closing, Scheduled(Upsert(n, o, false)), closing);
    more := Next(more, closing, Scheduled(Upsert(n, o, true)), next);
    more := Next(more, next, Scheduled(Upsert(n, o, true)), next);
  }

  lemma {:induction false} StepsHistory(os: seq<StepStatus>) returns (es: seq<Event>)
    requires Outcomes(os)
    ensures Track(es) == Some(Position(Gap(|os|), Going, LastOf(os)))
    decreases |os|
  {
    if os == [] {
      es := [];
    } else {
      var front := os[..|os| - 1];
      es := StepsHistory(front);
      hide Track;
      es := StepHistory(es, |front|, LastOf(front), os[|os| - 1]);
    }
  }

  // For any outcomes of any number of steps the interpreter has a history that
  // completes the run.
  lemma CompletedHistory(os: seq<StepStatus>) returns (es: seq<Event>)
    requires Outcomes(os)
    ensures Track(es) == Some(Position(Gap(|os|), Closed, LastOf(os)))
  {
    hide Track;
    var p := Position(Gap(|os|), Going, LastOf(os));
    es := StepsHistory(os);
    es := Next(es, p, Scheduled(Update(Completed, false)), p);
    es := Next(es, p, Scheduled(Update(Completed, true)), p.(stage := Closed));
  }

  // And one that is canceled between steps, at an opening or closing that is still to
  // run, or in an open step.
  lemma CanceledHistory(os: seq<StepStatus>, place: Place, o: StepStatus) returns (es: seq<Event>)
    requires Outcomes(os) && (o == Succeeded || o == Failed)
    requires place == Gap(|os|) || place == Opening(|os|) || place == Open(|os|) || place == Closing(|os|, o)
    ensures exists last :: Track(es) == Some(Position(place, Closed, last))
  {
    hide Track;
    var n, last := |os|, LastOf(os);
    es := StepsHistory(os);
    var p := Position(Gap(n), Going, last);
    if place == Opening(n) {
      es := Next(es, p, Scheduled(Upsert(n, StepRunning, false)), p.(place := place));
      p := p.(place := place);
    } else if place != Gap(n) {
      es := Next(es, p, Scheduled(Upsert(n, StepRunning, true)), p.(place := Open(n)));
      p := p.(place := Open(n));
      if place == Closing(n, o) {
        es := Next(es, p, Scheduled(Upsert(n, o, false)), p.(place := place, last := o));
        p := p.(place := place, last := o);
      }
    }
    es := Next(es, p, Observed, p.(stage := Cleanup));
    p := p.(stage := Cleanup);
    es := Next(es, p, Scheduled(Update(Canceled, false)), p);
    es := Next(es, p, Scheduled(Update(Canceled, true)), p.(stage := Closed));
  }
}
