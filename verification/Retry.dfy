/** retryLoop of internal/execution/goworkflows/interpreter.go: what a run's row
    shows while an activity is retried and after it succeeds. */
module Retry {
  import opened Base
  import opened Projection

  datatype End = Succeeds | Fails(conflict: bool) | Stops

  // One scheduled attempt: whether a cancellation claims the row before it ends, and
  // whether the writes that follow it reach the row: of the state, whose failure the
  // loop ignores, and of the retry status, whose failure ends it.
  datatype Attempt = Attempt(end: End, claimed: bool, stated: bool, recorded: bool)

  // The row's state and its retry status.
  datatype Display = Display(state: RunState, retry: Option<nat>)

  datatype Result = Finished | Stopped | Broken | Retrying

  predicate Shut(s: RunState) { s == Canceling || Terminal(s) }

  predicate Failing(attempts: seq<Attempt>) { forall k :: 0 <= k < |attempts| ==> attempts[k].end.Fails? }

  predicate Claims(attempts: seq<Attempt>) { exists k :: 0 <= k < |attempts| && attempts[k].claimed }

  predicate HadConflict(attempts: seq<Attempt>) { exists k :: 0 <= k < |attempts| && attempts[k].end == Fails(true) }

  predicate ShowsConflict(attempts: seq<Attempt>) { exists k :: 0 <= k < |attempts| && attempts[k].end == Fails(true) && attempts[k].stated }

  // The row after some attempts: a shut one is left as it was, a claimed one stays
  // canceling, and any other is blocked once a conflict was written.
  function StateAfter(s: RunState, attempts: seq<Attempt>): RunState {
    if Shut(s) then s else if Claims(attempts) then Canceling else if ShowsConflict(attempts) then Blocked else s
  }

  function RetryAfter(d: Display, failed: nat): Option<nat> { if failed == 0 then d.retry else Some(failed) }

  // The row after the success that follows n failures: no retry status, and waiting
  // again if there was a conflict, unless it is shut.
  function Recovered(d: Display, attempts: seq<Attempt>, n: nat): Display
    requires n < |attempts|
  {
    var s := StateAfter(d.state, attempts[..n + 1]);
    Display(if HadConflict(attempts[..n]) && attempts[n].stated && !Shut(s) then Waiting else s, if n == 0 then d.retry else None)
  }

  // An unconditional state update behind the fence of the projection.
  function Written(s: RunState, next: RunState, reaches: bool): RunState { if reaches && !Fenced(s, next) then next else s }

  lemma AfterSnoc(s: RunState, attempts: seq<Attempt>, n: nat)
    requires n < |attempts|
    ensures var before, a := StateAfter(s, attempts[..n]), attempts[n];
            var claimed := if a.claimed && !Shut(before) then Canceling else before;
            StateAfter(s, attempts[..n + 1]) == if a.end == Fails(true) then Written(claimed, Blocked, a.stated) else claimed
  {
    assert attempts[..n + 1] == attempts[..n] + [attempts[n]];
    SomeSnoc(attempts[..n], attempts[n]);
    hide Claims, ShowsConflict;
  }

  lemma SomeSnoc(attempts: seq<Attempt>, a: Attempt)
    ensures Claims(attempts + [a]) <==> Claims(attempts) || a.claimed
    ensures ShowsConflict(attempts + [a]) <==> ShowsConflict(attempts) || (a.end == Fails(true) && a.stated)
    ensures HadConflict(attempts + [a]) <==> HadConflict(attempts) || a.end == Fails(true)
  {
    var more := attempts + [a];
    assert more[|attempts|] == a && forall k :: 0 <= k < |attempts| ==> more[k] == attempts[k];
  }

  lemma NothingYet(d: Display)
    ensures StateAfter(d.state, []) == d.state && !HadConflict([])
  {
  }

  // One activity, retried until it succeeds, the run is canceled or a write of the
  // retry status fails. `attempts` are the outcomes the attempts will have.
  method RetryLoop(d: Display, attempts: seq<Attempt>) returns (shown: Display, result: Result, n: nat)
    ensures n <= |attempts| && Failing(attempts[..n])
    ensures result == Finished ==> n < |attempts| && attempts[n].end == Succeeds && shown == Recovered(d, attempts, n)
    ensures result == Stopped ==> n < |attempts| && attempts[n].end == Stops
    ensures result == Broken ==> n < |attempts| && attempts[n].end != Stops && !attempts[n].recorded
    ensures result == Stopped || result == Broken ==> shown == Display(StateAfter(d.state, attempts[..n + 1]), RetryAfter(d, n))
    ensures result == Retrying ==> n == |attempts| && shown == Display(StateAfter(d.state, attempts), RetryAfter(d, n))
  {
    hide StateAfter, HadConflict, Written;
    shown, n := d, 0;
    var blocked := false;
    NothingYet(d);
    while n < |attempts|
      invariant n <= |attempts| && Failing(attempts[..n])
      invariant blocked <==> HadConflict(attempts[..n])
      invariant shown == Display(StateAfter(d.state, attempts[..n]), RetryAfter(d, n))
    {
      var a := attempts[n];
      AfterSnoc(d.state, attempts, n);
      if a.claimed && !Shut(shown.state) {
        shown := shown.(state := Canceling);
      }
      if a.end.Stops? {
        return shown, Stopped, n;
      }
      if a.end.Succeeds? {
        if n > 0 {
          if !a.recorded {
            return shown, Broken, n;
          }
          shown := shown.(retry := None);
        }
        if blocked {
          shown := shown.(state := Written(shown.state, Waiting, a.stated));
        }
        WaitingAgain(StateAfter(d.state, attempts[..n + 1]), a.stated);
        return shown, Finished, n;
      }
      if a.end.conflict {
        shown := shown.(state := Written(shown.state, Blocked, a.stated));
        blocked := true;
      }
      if !a.recorded {
        return shown, Broken, n;
      }
      shown := shown.(retry := Some(n + 1));
      assert attempts[..n + 1] == attempts[..n] + [a];
      SomeSnoc(attempts[..n], a);
      n := n + 1;
    }
    assert attempts[..n] == attempts;
    return shown, Retrying, n;
  }

  lemma WaitingAgain(s: RunState, reaches: bool)
    ensures Written(s, Waiting, reaches) == if reaches && !Shut(s) then Waiting else s
  {
  }
}
