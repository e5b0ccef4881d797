/** The loops of internal/run/manager.go over the retained rows of a logical run. */
module Manager {
  import opened Base
  import opened Projection

  datatype Candidate = Candidate(attempt: nat, state: RunState, started: nat, updated: nat)

  // newerRun.
  predicate Newer(c: Candidate, d: Candidate) { c.started > d.started || (c.started == d.started && c.updated > d.updated) }

  predicate Unfinished(c: Candidate) { !Terminal(c.state) && c.state != Canceling }

  // No candidate that qualifies is newer than the chosen one.
  predicate Chosen(cs: seq<Candidate>, n: nat, unfinished: bool, r: Option<Candidate>) {
    && n <= |cs|
    && (r.None? ==> forall k :: 0 <= k < n ==> unfinished && !Unfinished(cs[k]))
    && (r.Some? ==> r.value in cs[..n] && (unfinished ==> Unfinished(r.value))
                    && forall k :: 0 <= k < n && (unfinished ==> Unfinished(cs[k])) ==> !Newer(cs[k], r.value))
  }

  // The newest candidate and the newest unfinished one.
  method PickAttempts(cs: seq<Candidate>) returns (latest: Option<Candidate>, active: Option<Candidate>)
    ensures Chosen(cs, |cs|, false, latest) && Chosen(cs, |cs|, true, active)
  {
    latest, active := None, None;
    for i := 0 to |cs|
      invariant Chosen(cs, i, false, latest) && Chosen(cs, i, true, active)
    {
      var c := cs[i];
      assert cs[..i + 1] == cs[..i] + [c];
      if latest.None? || Newer(c, latest.value) {
        latest := Some(c);
      }
      if Unfinished(c) && (active.None? || Newer(c, active.value)) {
        active := Some(c);
      }
    }
    assert cs[..|cs|] == cs;
  }

  const MAX_ATTEMPT := 0xFFFF_FFFF_FFFF_FFFF

  function Number(c: Candidate): nat { if c.attempt == 0 then 1 else c.attempt }

  // The attempt number of a restart: one more than the largest retained, unless that
  // is the largest number there is.
  method AllocateAttempt(cs: seq<Candidate>) returns (r: Option<nat>)
    requires forall k :: 0 <= k < |cs| ==> cs[k].attempt <= MAX_ATTEMPT
    ensures r.None? <==> exists k :: 0 <= k < |cs| && cs[k].attempt == MAX_ATTEMPT
    ensures r.Some? ==> 1 <= r.value <= MAX_ATTEMPT && (cs != [] ==> r.value > 1) && forall k :: 0 <= k < |cs| ==> cs[k].attempt < r.value
    ensures r.Some? && r.value > 1 ==>
              exists k :: 0 <= k < |cs| && (cs[k].attempt + 1 == r.value || (cs[k].attempt == 0 && r.value == 2))
  {
    var next := 1;
    for i := 0 to |cs|
      invariant 1 <= next <= MAX_ATTEMPT && (i > 0 ==> next > 1)
      invariant forall k :: 0 <= k < i ==> Number(cs[k]) < next && cs[k].attempt != MAX_ATTEMPT
      invariant next > 1 ==> exists k :: 0 <= k < i && Number(cs[k]) + 1 == next
    {
      var attempt := Number(cs[i]);
      if attempt >= next {
        if attempt == MAX_ATTEMPT {
          return None;
        }
        next := attempt + 1;
      }
    }
    return Some(next);
  }

  // Since at most one attempt is unfinished, and it is the newest, the loops find it
  // whatever the ties: an active row wins, and otherwise any row stops the poll.
  lemma PollDecision(cs: seq<Candidate>, latest: Option<Candidate>, active: Option<Candidate>)
    requires Chosen(cs, |cs|, false, latest) && Chosen(cs, |cs|, true, active)
    ensures active.Some? <==> exists k :: 0 <= k < |cs| && cs[k].state !in {Canceling, Completed, Canceled}
    ensures (forall i, j :: 0 <= i < j < |cs| ==> cs[i].state in {Canceling, Completed, Canceled} || cs[j].state in {Canceling, Completed, Canceled}) ==>
              forall k :: 0 <= k < |cs| && cs[k].state !in {Canceling, Completed, Canceled} ==> active == Some(cs[k])
    ensures active.None? && latest.Some? ==> Terminal(latest.value.state) || latest.value.state == Canceling
  {
    assert cs[..|cs|] == cs;
    if active.Some? {
      var i :| 0 <= i < |cs| && cs[i] == active.value;
    }
  }
}
