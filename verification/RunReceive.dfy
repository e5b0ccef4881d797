/** The signal loop of runGraph: which of the queued reports a waiting visit takes. */
module RunReceive {
  import opened Base
  import opened Markers
  import opened Workflows
  import opened RunProtocol
  import opened RunInvariants
  import opened RunTheorems

  // Signal p is for the visit and its report ID has not been met before.
  predicate Counts(queue: seq<Signal>, seen: set<string>, node: string, visit: string, p: nat) {
    && p < |queue| && queue[p].node == node && queue[p].visit == visit && queue[p].id !in seen
    && forall q :: 0 <= q < p ==> queue[q].id != queue[p].id
  }

  // The first signal that counts.
  predicate First(queue: seq<Signal>, seen: set<string>, node: string, visit: string, p: nat) {
    Counts(queue, seen, node, visit, p) && forall q :: 0 <= q < p ==> !Counts(queue, seen, node, visit, q)
  }

  function IdsOf(queue: seq<Signal>): set<string> { set q | 0 <= q < |queue| :: queue[q].id }

  // The select loop on the report channel: it drops known IDs, marks every new ID as
  // seen and stops at the first report for this visit, or when the channel is empty.
  method AwaitReport(queue: seq<Signal>, seen: set<string>, node: string, visit: string)
    returns (taken: Option<Signal>, n: nat, seenAfter: set<string>)
    ensures n <= |queue| && seenAfter == seen + IdsOf(queue[..n])
    ensures taken.Some? ==> n > 0 && First(queue, seen, node, visit, n - 1) && taken.value == queue[n - 1]
    ensures taken.None? ==> n == |queue| && forall p: nat :: !Counts(queue, seen, node, visit, p)
  {
    taken, n, seenAfter := None, 0, seen;
    assert IdsOf(queue[..0]) == {};
    while n < |queue| && taken.None?
      invariant n <= |queue| && seenAfter == seen + IdsOf(queue[..n])
      invariant taken.None? ==> forall p: nat :: p < n ==> !Counts(queue, seen, node, visit, p)
      invariant taken.Some? ==> n > 0 && First(queue, seen, node, visit, n - 1) && taken.value == queue[n - 1]
      decreases |queue| - n
    {
      var signal := queue[n];
      IdsOfSnoc(queue, n);
      n := n + 1;
      if signal.id !in seenAfter {
        seenAfter := seenAfter + {signal.id};
        if signal.node == node && signal.visit == visit {
          taken := Some(signal);
        }
      }
    }
  }

  lemma IdsOfSnoc(queue: seq<Signal>, n: nat)
    requires n < |queue|
    ensures IdsOf(queue[..n + 1]) == IdsOf(queue[..n]) + {queue[n].id}
    ensures queue[n].id in IdsOf(queue[..n]) <==> exists q :: 0 <= q < n && queue[q].id == queue[n].id
  {
    assert queue[..n + 1] == queue[..n] + [queue[n]];
    assert forall q :: 0 <= q < n ==> queue[..n][q] == queue[q];
  }

  lemma {:induction false} FirstExists(queue: seq<Signal>, seen: set<string>, node: string, visit: string, m: nat) returns (p: nat)
    requires Counts(queue, seen, node, visit, m)
    ensures p <= m && First(queue, seen, node, visit, p)
    decreases m
  {
    if q :| 0 <= q < m && Counts(queue, seen, node, visit, q) {
      p := FirstExists(queue, seen, node, visit, q);
    } else {
      p := m;
    }
  }

  /* ---- on the machine, whatever else happens meanwhile ---- */

  ghost function After(c: Setting, s: State, es: seq<Event>): (r: State)
    requires Shaped(s)
    ensures Shaped(r)
    decreases |es|
  {
    if es == [] then s else After(c, Step(c, s, es[0]), es[1..])
  }

  function Receives(es: seq<Event>): nat { if es == [] then 0 else (if es[0].Receive? then 1 else 0) + Receives(es[1..]) }

  predicate Uncanceled(es: seq<Event>) { forall k :: 0 <= k < |es| ==> !es[k].Cancel? }

  // The report at position p of the channel is the next that counts.
  predicate Pending(s: State, p: nat)
    requires Shaped(s)
  {
    s.phase == Await && First(s.queue, s.seen, s.current, Last(s.visits).id, p)
  }

  lemma FirstTail(queue: seq<Signal>, seen: set<string>, node: string, visit: string, p: nat)
    requires First(queue, seen, node, visit, p) && p > 0
    ensures First(queue[1..], seen + {queue[0].id}, node, visit, p - 1)
  {
    var rest, more := queue[1..], seen + {queue[0].id};
    forall q | 0 <= q < p - 1
      ensures !Counts(rest, more, node, visit, q)
    {
      if Counts(rest, more, node, visit, q) {
        forall k | 0 <= k < q + 1
          ensures queue[k].id != queue[q + 1].id
        {
          if k > 0 { assert rest[k - 1].id != rest[q].id; }
        }
        assert Counts(queue, seen, node, visit, q + 1);
      }
    }
  }

  lemma CountsPrefix(queue: seq<Signal>, more: seq<Signal>, seen: set<string>, node: string, visit: string, q: nat)
    requires q < |queue| <= |more| && forall k :: 0 <= k < |queue| ==> more[k] == queue[k]
    ensures Counts(more, seen, node, visit, q) <==> Counts(queue, seen, node, visit, q)
  {
  }

  lemma FirstGrown(queue: seq<Signal>, sig: Signal, seen: set<string>, node: string, visit: string, p: nat)
    requires First(queue, seen, node, visit, p)
    ensures First(queue + [sig], seen, node, visit, p)
  {
    var more := queue + [sig];
    assert forall q :: 0 <= q < |queue| ==> more[q] == queue[q];
    forall q | 0 <= q < p
      ensures !Counts(more, seen, node, visit, q)
    {
      CountsPrefix(queue, more, seen, node, visit, q);
    }
    CountsPrefix(queue, more, seen, node, visit, p);
  }

  lemma ReceiveDrops(c: Setting, s: State, p: nat)
    requires Shaped(s) && Pending(s, p) && p > 0
    ensures Pending(ReceiveStep(c, s), p - 1) && ReceiveStep(c, s).visits == s.visits
  {
    FirstTail(s.queue, s.seen, s.current, Last(s.visits).id, p);
    assert !Counts(s.queue, s.seen, s.current, Last(s.visits).id, 0);
    if s.queue[0].id in s.seen { assert s.seen + {s.queue[0].id} == s.seen; }
  }

  lemma ReceiveTakes(c: Setting, s: State)
    requires Shaped(s) && Pending(s, 0)
    ensures var r := ReceiveStep(c, s); |r.visits| == |s.visits| > 0 && Last(r.visits).taken == Some(s.queue[0])
  {
  }

  lemma StillPending(c: Setting, s: State, e: Event, p: nat)
    requires Shaped(s) && Pending(s, p) && !e.Receive? && !e.Cancel?
    ensures Pending(Step(c, s, e), p) && Step(c, s, e).visits == s.visits && s.queue <= Step(c, s, e).queue
  {
    hide First, Counts, Admits;
    if e.Send? && e.sub in s.subs && e.sub.checked {
      FirstGrown(s.queue, Signal(e.sub.id, e.sub.node, e.sub.row.visit, e.sub.report), s.seen, s.current, Last(s.visits).id, p);
    }
  }

  lemma {:induction false} TakenStays(c: Setting, s: State, es: seq<Event>, i: nat)
    requires Valid(c.wf) && Shaped(s) && Inv(c, s) && i < |s.visits| && s.visits[i].taken.Some?
    ensures i < |After(c, s, es).visits| && After(c, s, es).visits[i].taken == s.visits[i].taken
    decreases |es|
  {
    hide Valid, Step, Shaped;
    if es == [] {
    } else {
      assert OnPath(c, s);
      hide Inv;
      StepGrows(c, s, es[0]);
      InvStep(c, s, es[0]);
      TakenStays(c, Step(c, s, es[0]), es[1..], i);
    }
  }

  // A visit that waits takes the first report that counts as soon as enough signals
  // were received, however submissions, remarks and crashes interleave.
  lemma {:induction false} WaitingTakes(c: Setting, s: State, es: seq<Event>, p: nat)
    requires Valid(c.wf) && Shaped(s) && Inv(c, s) && Pending(s, p) && Uncanceled(es) && Receives(es) > p
    ensures p < |s.queue| && s.visits != []
    ensures var r := After(c, s, es); |s.visits| <= |r.visits| && r.visits[|s.visits| - 1].taken == Some(s.queue[p])
    decreases |es|
  {
    hide Valid, Step, ReceiveStep, First, Inv, Shaped;
    PendingInside(s, p);
    var r := Step(c, s, es[0]);
    InvStep(c, s, es[0]);
    assert Uncanceled(es[1..]);
    if es[0].Receive? {
      assert r == ReceiveStep(c, s) by { ReceiveIs(c, s); }
      if p == 0 {
        ReceiveTakes(c, s);
        TakenStays(c, r, es[1..], |s.visits| - 1);
      } else {
        ReceiveDrops(c, s, p);
        ReceiveRest(c, s);
        WaitingTakes(c, r, es[1..], p - 1);
      }
    } else {
      StillPending(c, s, es[0], p);
      WaitingTakes(c, r, es[1..], p);
    }
  }

  lemma PendingInside(s: State, p: nat)
    requires Shaped(s) && Pending(s, p)
    ensures p < |s.queue| && s.visits != []
  {
  }

  lemma ReceiveIs(c: Setting, s: State)
    requires Shaped(s)
    ensures Step(c, s, Receive) == ReceiveStep(c, s)
  {
  }

  lemma ReceiveRest(c: Setting, s: State)
    requires Shaped(s) && s.phase == Await && s.queue != []
    ensures ReceiveStep(c, s).queue == s.queue[1..]
  {
  }

  // An unseen report for the waiting visit is taken unless another one for the same
  // visit stands before it in the channel.
  lemma UnseenTaken(c: Setting, history: seq<Event>, es: seq<Event>, m: nat) returns (p: nat)
    requires Valid(c.wf) && Run(c, history).phase == Await
    requires var s := Run(c, history); s.visits != [] && Counts(s.queue, s.seen, s.current, Last(s.visits).id, m)
    requires Uncanceled(es) && Receives(es) > m
    ensures var s, r := Run(c, history), After(c, Run(c, history), es);
            && p <= m && Counts(s.queue, s.seen, s.current, Last(s.visits).id, p)
            && |s.visits| <= |r.visits| && r.visits[|s.visits| - 1].taken == Some(s.queue[p])
  {
    hide Valid, Run, Inv, Counts;
    var s := Run(c, history);
    Invariant(c, history);
    p := FirstExists(s.queue, s.seen, s.current, Last(s.visits).id, m);
    WaitingTakes(c, s, es, p);
  }
}
