/** Node terminals in Herdr: FindTerminal, CreateTerminal, startNode, EnsureTerminal and
    recoverTerminal of internal/runner/herdr/herdr.go. Every call to Herdr may fail with
    or without its effect; between calls processes come and go, panes are closed, and
    the user opens panes of their own. */
module Herdr {
  import opened Base

  datatype Tab = Tab(workspace: string, caption: string)

  // `input` is the command last submitted to the pane's shell.
  datatype Pane = Pane(terminal: string, workspace: string, tab: string, caption: string,
                       shell: Option<int>, foreground: seq<int>, input: Option<string>)

  // `used` holds every ID ever given out.
  datatype Server = Server(tabs: map<string, Tab>, panes: map<string, Pane>, used: set<string>)

  // The pane runs something other than its own shell.
  predicate Live(p: Pane) { p.shell.Some? && exists k :: 0 <= k < |p.foreground| && p.foreground[k] != p.shell.value }

  method HasLiveForegroundProcess(p: Pane) returns (live: bool)
    ensures live <==> Live(p)
  {
    if p.shell.None? {
      return false;
    }
    for k := 0 to |p.foreground|
      invariant forall j :: 0 <= j < k ==> p.foreground[j] == p.shell.value
    {
      if p.foreground[k] != p.shell.value {
        return true;
      }
    }
    return false;
  }

  // The pane belongs to the title, by its own label or its tab's.
  predicate Owns(s: Server, ws: string, title: string, p: string) {
    && p in s.panes && s.panes[p].workspace == ws
    && (s.panes[p].caption == title
        || (s.panes[p].tab in s.tabs && s.tabs[s.panes[p].tab] == Tab(ws, title)))
  }

  predicate Unowned(s: Server, titles: set<string>, p: string) {
    p in s.panes ==> forall t :: t in titles ==> !Owns(s, s.panes[p].workspace, t, p)
  }

  predicate Shape(s: Server) {
    && s.panes.Keys <= s.used && s.tabs.Keys <= s.used && "" !in s.used
    && forall p :: p in s.panes ==> s.panes[p].tab in s.tabs && s.tabs[s.panes[p].tab].workspace == s.panes[p].workspace
  }

  // No title owns two panes of a workspace, and no pane has two titles.
  ghost predicate Good(s: Server, titles: set<string>) {
    && Shape(s)
    && (forall ws, t, p, q :: t in titles && Owns(s, ws, t, p) && Owns(s, ws, t, q) ==> p == q)
    && (forall ws, t, u, p :: t in titles && u in titles && Owns(s, ws, t, p) && Owns(s, ws, u, p) ==> t == u)
  }

  ghost predicate SameOwner(a: Server, b: Server, titles: set<string>, p: string) {
    && (p in a.panes && p in b.panes ==> a.panes[p].tab == b.panes[p].tab)
    && forall ws, t :: t in titles ==> (Owns(a, ws, t, p) <==> Owns(b, ws, t, p))
  }

  predicate TabsKept(a: Server, b: Server) {
    && a.used <= b.used
    && forall t :: t in b.tabs ==> if t in a.tabs then a.tabs[t] == b.tabs[t] else t !in a.used
  }

  // b comes after a: panes keep their titles, and IDs are not used again.
  ghost predicate Later(a: Server, b: Server, titles: set<string>) {
    && TabsKept(a, b)
    && forall p :: p in b.panes ==> if p in a.panes then SameOwner(a, b, titles, p) else p !in a.used
  }

  // Between a and b no title gained a pane.
  ghost predicate Quiet(a: Server, b: Server, titles: set<string>) {
    Later(a, b, titles) && forall p :: p in b.panes && p !in a.panes ==> Unowned(b, titles, p)
  }

  // What may happen by itself: panes and tabs go, processes change, and the user opens
  // panes that no title owns.
  predicate Drifts(a: Server, b: Server, titles: set<string>) {
    && TabsKept(a, b) && Shape(b)
    && forall p :: p in b.panes ==>
      if p in a.panes then SamePane(a, b, p) else p !in a.used && Unowned(b, titles, p)
  }

  predicate SamePane(a: Server, b: Server, p: string)
    requires p in a.panes && p in b.panes
  {
    var x, y := a.panes[p], b.panes[p];
    x.workspace == y.workspace && x.tab == y.tab && x.caption == y.caption && x.input == y.input
  }

  lemma LaterTransitive(a: Server, b: Server, c: Server, titles: set<string>)
    requires Shape(a) && Later(a, b, titles) && Later(b, c, titles)
    ensures Later(a, c, titles)
  {
    hide SameOwner;
    forall p | p in c.panes && p in a.panes
      ensures SameOwner(a, c, titles, p)
    {
      assert p in b.panes;
      SameOwnerTransitive(a, b, c, titles, p);
    }
  }

  lemma SameOwnerTransitive(a: Server, b: Server, c: Server, titles: set<string>, p: string)
    requires SameOwner(a, b, titles, p) && SameOwner(b, c, titles, p) && p in b.panes
    ensures SameOwner(a, c, titles, p)
  {
    hide Owns;
  }

  lemma QuietTransitive(a: Server, b: Server, c: Server, titles: set<string>)
    requires Shape(a) && Quiet(a, b, titles) && Quiet(b, c, titles)
    ensures Quiet(a, c, titles)
  {
    hide SameOwner, Unowned;
    LaterTransitive(a, b, c, titles);
    forall p | p in c.panes && p !in a.panes
      ensures Unowned(c, titles, p)
    {
      if p in b.panes { UnownedStays(b, c, titles, p); }
    }
  }

  lemma UnownedStays(b: Server, c: Server, titles: set<string>, p: string)
    requires Unowned(b, titles, p) && SameOwner(b, c, titles, p)
    ensures Unowned(c, titles, p)
  {
  }

  lemma SamePaneOwner(a: Server, b: Server, titles: set<string>, p: string)
    requires p in a.panes && p in b.panes && SamePane(a, b, p) && TabsKept(a, b) && Shape(a) && Shape(b)
    ensures SameOwner(a, b, titles, p)
  {
  }

  lemma DriftsQuiet(a: Server, b: Server, titles: set<string>)
    requires Shape(a) && Drifts(a, b, titles)
    ensures Quiet(a, b, titles)
  {
    hide SamePane, SameOwner, Unowned;
    forall p | p in b.panes && p in a.panes
      ensures SameOwner(a, b, titles, p)
    {
      SamePaneOwner(a, b, titles, p);
    }
  }

  // A quiet step keeps every title's panes single.
  lemma QuietGood(a: Server, b: Server, titles: set<string>)
    requires Good(a, titles) && Quiet(a, b, titles) && Shape(b)
    ensures Good(b, titles)
  {
    forall ws, t, p | t in titles && Owns(b, ws, t, p)
      ensures Owns(a, ws, t, p)
    {
      QuietOwned(a, b, titles, ws, t, p);
    }
    hide Owns;
  }

  lemma QuietOwned(a: Server, b: Server, titles: set<string>, ws: string, t: string, p: string)
    requires Quiet(a, b, titles) && t in titles && Owns(b, ws, t, p)
    ensures Owns(a, ws, t, p)
  {
    assert p in b.panes;
    hide Owns;
    if p in a.panes { assert SameOwner(a, b, titles, p); }
  }

  // A new pane in a tab of a title that owned none.
  lemma CreatedGood(a: Server, b: Server, titles: set<string>, ws: string, title: string, tab: string, id: string, pane: Pane)
    requires Good(a, titles) && title in titles && "" !in titles && (forall p :: !Owns(a, ws, title, p))
    requires id !in a.used && id != "" && tab !in a.used && tab != ""
    requires pane.workspace == ws && pane.tab == tab && pane.caption == ""
    requires b == Server(a.tabs[tab := Tab(ws, title)], a.panes[id := pane], a.used + {tab, id})
    ensures Good(b, titles) && Later(a, b, titles) && Owns(b, ws, title, id)
  {
    forall v, t, p | t in titles
      ensures Owns(b, v, t, p) <==> Owns(a, v, t, p) || (p == id && v == ws && t == title)
    {
    }
    hide Owns;
    assert id !in a.panes;
    forall v, t
      ensures !Owns(a, v, t, id)
    {
      OwnsKnown(a, v, t, id);
    }
  }

  lemma OwnsKnown(s: Server, ws: string, t: string, p: string)
    ensures Owns(s, ws, t, p) ==> p in s.panes
  {
  }

  /* ---- the calls ---- */

  datatype Reply<+T> = Done(value: T) | NotFound | Failed

  ghost predicate AllGood(trace: seq<Server>, titles: set<string>) {
    forall k :: 0 <= k < |trace| ==> Good(trace[k], titles) && Later(trace[0], trace[k], titles)
  }

  // A persisted handle: empty, or a pane that was this title's and is so while it lives.
  ghost predicate Handle(s: Server, ws: string, title: string, id: string) {
    id == "" || (id in s.used && (id in s.panes ==> Owns(s, ws, title, id)))
  }

  lemma HandleLater(a: Server, b: Server, titles: set<string>, ws: string, title: string, id: string)
    requires Handle(a, ws, title, id) && Later(a, b, titles) && title in titles
    ensures Handle(b, ws, title, id)
  {
    hide Owns;
    if id != "" && id in b.panes {
      assert id in a.panes;
      assert SameOwner(a, b, titles, id);
    }
  }

  lemma LaterSelf(a: Server, titles: set<string>)
    ensures Quiet(a, a, titles) && Drifts(a, a, titles) == Shape(a)
  {
  }

  /* ---- what was asked of Herdr, and when ---- */

  datatype Op = Inspect | Processes | Tabs | Panes | Close | Rename | Submit | Create

  datatype Answer = Did | Missing | Broke

  // A call about a pane, a workspace or a title. It met state `at - 1` of the trace.
  datatype Call = Call(op: Op, id: string, answer: Answer, at: nat)

  function AnswerOf<T>(r: Reply<T>): (a: Answer)
    ensures (a == Broke <==> r.Failed?) && (a == Missing <==> r.NotFound?)
  {
    match r
    case Done(_) => Did
    case NotFound => Missing
    case Failed => Broke
  }

  // No agent runs in the pane: it is gone, has no terminal, or only its shell.
  predicate Dead(s: Server, id: string) { id !in s.panes || s.panes[id].terminal == "" || !Live(s.panes[id]) }

  ghost predicate SeenDead(trace: seq<Server>, from: nat, id: string) { exists k :: from <= k < |trace| && Dead(trace[k], id) }

  // Some call since the n-th was not answered.
  ghost predicate Broken(log: seq<Call>, n: nat) { exists i :: n <= i < |log| && log[i].answer == Broke }

  // Some call was not answered, or the pane to rename or submit to was gone.
  ghost predicate Hindered(log: seq<Call>, n: nat) {
    exists i :: n <= i < |log| && (log[i].answer == Broke || (log[i].answer == Missing && (log[i].op == Rename || log[i].op == Submit)))
  }

  // The pane was opened since `used` was recorded, or had no agent at some state
  // between `from` and the call.
  ghost predicate Idle(trace: seq<Server>, from: nat, used: set<string>, c: Call) {
    c.id !in used || exists k :: from <= k < c.at && k < |trace| && Dead(trace[k], c.id)
  }

  ghost predicate OwnedBefore(trace: seq<Server>, from: nat, ws: string, title: string, c: Call) {
    exists k :: from <= k < c.at && k < |trace| && Owns(trace[k], ws, title, c.id)
  }

  // A call at `at` met a state in which the title owned no pane.
  ghost predicate FreeAt(trace: seq<Server>, at: nat, ws: string, title: string) {
    0 < at <= |trace| && Free(trace[at - 1], ws, title)
  }

  ghost predicate Free(s: Server, ws: string, title: string) { forall p :: !Owns(s, ws, title, p) }

  // A tab is opened only where the title owns no pane; a pane is closed, renamed or
  // submitted to only if no agent runs in it, and the latter two if it is the title's.
  ghost predicate Earned(trace: seq<Server>, from: nat, ws: string, title: string, used: set<string>, c: Call) {
    match c.op
    case Create => from < c.at && FreeAt(trace, c.at, ws, title)
    case Close => Idle(trace, from, used, c)
    case Rename => Idle(trace, from, used, c) && OwnedBefore(trace, from, ws, title, c)
    case Submit => Idle(trace, from, used, c) && OwnedBefore(trace, from, ws, title, c)
    case _ => true
  }

  ghost predicate AllEarned(trace: seq<Server>, log: seq<Call>, n: nat, from: nat, ws: string, title: string, used: set<string>) {
    forall i :: n <= i < |log| ==> Earned(trace, from, ws, title, used, log[i])
  }

  predicate ReadsOnly(log: seq<Call>, n: nat) {
    forall i :: n <= i < |log| ==> log[i].op in {Inspect, Processes, Tabs, Panes}
  }

  // The title's agent runs in pane p all the while.
  ghost predicate Alive(trace: seq<Server>, from: nat, ws: string, title: string, p: string) {
    forall k :: from <= k < |trace| ==> Owns(trace[k], ws, title, p) && !Dead(trace[k], p)
  }

  lemma IdleMore(t: seq<Server>, u: seq<Server>, from: nat, since: nat, used: set<string>, later: set<string>, c: Call)
    requires Idle(t, since, later, c) && t <= u && from <= since && used <= later
    ensures Idle(u, from, used, c)
  {
    if c.id in later {
      var k :| since <= k < c.at && k < |t| && Dead(t[k], c.id);
      assert u[k] == t[k];
    }
  }

  lemma OwnedMore(t: seq<Server>, u: seq<Server>, from: nat, since: nat, ws: string, title: string, c: Call)
    requires OwnedBefore(t, since, ws, title, c) && t <= u && from <= since
    ensures OwnedBefore(u, from, ws, title, c)
  {
    var k :| since <= k < c.at && k < |t| && Owns(t[k], ws, title, c.id);
    assert u[k] == t[k];
  }

  lemma EarnedMore(t: seq<Server>, u: seq<Server>, from: nat, since: nat, ws: string, title: string, used: set<string>, later: set<string>, c: Call)
    requires Earned(t, since, ws, title, later, c) && t <= u && from <= since && used <= later
    ensures Earned(u, from, ws, title, used, c)
  {
    hide Owns, Dead, Idle, OwnedBefore;
    if c.op == Close || c.op == Rename || c.op == Submit { IdleMore(t, u, from, since, used, later, c); }
    if c.op == Rename || c.op == Submit { OwnedMore(t, u, from, since, ws, title, c); }
  }

  // What was earned before a call and during it was earned.
  lemma AllEarnedThen(t: seq<Server>, u: seq<Server>, log: seq<Call>, more: seq<Call>, n: nat, from: nat, since: nat,
                      ws: string, title: string, used: set<string>, later: set<string>)
    requires t <= u && log <= more && from <= since && used <= later && n <= |log|
    requires AllEarned(t, log, n, from, ws, title, used) && AllEarned(u, more, |log|, since, ws, title, later)
    ensures AllEarned(u, more, n, from, ws, title, used)
  {
    hide Earned;
    forall i | n <= i < |more|
      ensures Earned(u, from, ws, title, used, more[i])
    {
      if i < |log| {
        assert more[i] == log[i];
        EarnedMore(t, u, from, from, ws, title, used, used, log[i]);
      } else {
        EarnedMore(u, u, from, since, ws, title, used, later, more[i]);
      }
    }
  }

  lemma ReadsEarned(t: seq<Server>, log: seq<Call>, n: nat, from: nat, ws: string, title: string, used: set<string>)
    requires ReadsOnly(log, n)
    ensures AllEarned(t, log, n, from, ws, title, used)
  {
    hide Idle, OwnedBefore;
  }

  lemma BrokenHinders(log: seq<Call>, n: nat)
    requires Broken(log, n)
    ensures Hindered(log, n)
  {
  }

  lemma BrokenMore(log: seq<Call>, more: seq<Call>, n: nat, m: nat)
    requires log <= more && n <= m
    ensures (Broken(log, n) || Broken(more, m)) ==> Broken(more, n)
    ensures Hindered(more, m) ==> Hindered(more, n)
  {
    if Broken(log, n) {
      var i :| n <= i < |log| && log[i].answer == Broke;
      assert more[i].answer == Broke;
    }
  }

  // Where an agent of the title runs all the while and every call is answered, that
  // pane is returned and no tab, pane or command is touched.
  lemma AliveReturned(trace: seq<Server>, log: seq<Call>, n: nat, from: nat, ws: string, title: string, titles: set<string>,
                      used: set<string>, result: Option<string>, p: string)
    requires title in titles && from < |trace| && trace[from].used <= used && AllGood(trace, titles)
    requires AllEarned(trace, log, n, from, ws, title, used)
    requires result.None? ==> Hindered(log, n)
    requires result.Some? ==> Owns(trace[|trace| - 1], ws, title, result.value)
    requires Alive(trace, from, ws, title, p) && !Broken(log, n)
    ensures result == Some(p)
    ensures forall i :: n <= i < |log| ==> log[i].op in {Inspect, Processes, Tabs, Panes} || (log[i].op == Close && log[i].id != p)
  {
    hide AllEarned, Good, Later, Dead, Owns;
    forall i | n <= i < |log|
      ensures log[i].op in {Inspect, Processes, Tabs, Panes} || (log[i].op == Close && log[i].id != p)
    {
      assert Earned(trace, from, ws, title, used, log[i]) by { AllEarnedAt(trace, log, n, from, ws, title, used, i); }
      UntouchedAlive(trace, from, ws, title, titles, used, log[i], p);
    }
    if result.Some? { GoodOnly(trace[|trace| - 1], titles, ws, title, p); }
  }

  lemma AllEarnedAt(t: seq<Server>, log: seq<Call>, n: nat, from: nat, ws: string, title: string, used: set<string>, i: nat)
    requires AllEarned(t, log, n, from, ws, title, used) && n <= i < |log|
    ensures Earned(t, from, ws, title, used, log[i])
  {
  }

  lemma UntouchedAlive(trace: seq<Server>, from: nat, ws: string, title: string, titles: set<string>, used: set<string>, c: Call, p: string)
    requires title in titles && from < |trace| && trace[from].used <= used && AllGood(trace, titles)
    requires Earned(trace, from, ws, title, used, c) && Alive(trace, from, ws, title, p)
    ensures c.op in {Inspect, Processes, Tabs, Panes} || (c.op == Close && c.id != p)
  {
    hide Good, Later, Dead, Owns, Idle, OwnedBefore;
    assert Owns(trace[from], ws, title, p);
    OwnsUsed(trace[from], titles, ws, title, p);
    if c.op == Rename || c.op == Submit {
      OwnedIs(trace, from, ws, title, titles, c, p);
    }
    if c.op in {Close, Rename, Submit} && c.id == p { NotIdle(trace, from, ws, title, used, c); }
  }

  lemma OwnsUsed(s: Server, titles: set<string>, ws: string, title: string, p: string)
    requires Good(s, titles) && Owns(s, ws, title, p)
    ensures p in s.used
  {
  }

  lemma OwnedIs(trace: seq<Server>, from: nat, ws: string, title: string, titles: set<string>, c: Call, p: string)
    requires title in titles && AllGood(trace, titles) && Alive(trace, from, ws, title, p) && OwnedBefore(trace, from, ws, title, c)
    ensures c.id == p
  {
    hide Good, Later, Dead, Owns;
    var k :| from <= k < c.at && k < |trace| && Owns(trace[k], ws, title, c.id);
    GoodOnly(trace[k], titles, ws, title, p);
  }

  lemma NotIdle(trace: seq<Server>, from: nat, ws: string, title: string, used: set<string>, c: Call)
    requires Alive(trace, from, ws, title, c.id) && c.id in used
    ensures !Idle(trace, from, used, c)
  {
    hide Dead, Owns;
  }

  lemma PaneUsed(s: Server, titles: set<string>, id: string)
    requires Good(s, titles)
    ensures id in s.panes ==> id in s.used
  {
  }

  lemma HandleUsed(s: Server, ws: string, title: string, id: string)
    requires Handle(s, ws, title, id) && id != ""
    ensures id in s.used
  {
  }

  // The calls since the n-th rename, submit to or close this pane, at `since` or later.
  ghost predicate About(log: seq<Call>, n: nat, id: string, since: nat) {
    forall i :: n <= i < |log| ==> log[i].op in {Close, Rename, Submit} && log[i].id == id && log[i].at >= since
  }

  ghost predicate Untouched(log: seq<Call>, n: nat, p: string) {
    forall i :: n <= i < |log| ==> log[i].op in {Inspect, Processes, Tabs, Panes} || (log[i].op == Close && log[i].id != p)
  }

  lemma UntouchedIs(log: seq<Call>, n: nat, p: string)
    requires forall i :: n <= i < |log| ==> log[i].op in {Inspect, Processes, Tabs, Panes} || (log[i].op == Close && log[i].id != p)
    ensures Untouched(log, n, p)
  {
  }

  // Calls about a new pane that the title owns.
  lemma AboutEarned(t: seq<Server>, u: seq<Server>, log: seq<Call>, n: nat, from: nat, ws: string, title: string, used: set<string>, id: string)
    requires About(log, n, id, |t|) && t <= u && from < |t| && id !in used && Owns(t[|t| - 1], ws, title, id)
    ensures AllEarned(u, log, n, from, ws, title, used)
  {
    hide Owns;
    assert u[|t| - 1] == t[|t| - 1];
  }

  // Calls that close a pane seen without an agent.
  lemma ClosedEarned(t: seq<Server>, u: seq<Server>, log: seq<Call>, n: nat, from: nat, ws: string, title: string, used: set<string>, id: string)
    requires About(log, n, id, |t|) && t <= u && SeenDead(t, from, id) && forall i :: n <= i < |log| ==> log[i].op == Close
    ensures AllEarned(u, log, n, from, ws, title, used)
  {
    hide Owns, Dead;
    var k :| from <= k < |t| && Dead(t[k], id);
    assert u[k] == t[k];
  }

  // Calls about a pane of the title that was seen without an agent.
  lemma ResumedEarned(t: seq<Server>, u: seq<Server>, log: seq<Call>, n: nat, from: nat, ws: string, title: string, used: set<string>, id: string)
    requires About(log, n, id, |t|) && t <= u && from < |t| && SeenDead(t, from, id) && Owns(t[from], ws, title, id)
    ensures AllEarned(u, log, n, from, ws, title, used)
  {
    hide Owns, Dead;
    var k :| from <= k < |t| && Dead(t[k], id);
    assert u[k] == t[k] && u[from] == t[from];
  }

  lemma LaterUsed(a: Server, b: Server, titles: set<string>)
    requires Later(a, b, titles)
    ensures a.used <= b.used
  {
  }

  class Adapter {
    const titles: set<string>
    var s: Server
    // Every state of Herdr since the last crash of relay-flow, and every call.
    var trace: seq<Server>
    ghost var log: seq<Call>

    ghost predicate Valid()
      reads this
    {
      trace != [] && trace[|trace| - 1] == s && "" !in titles && AllGood(trace, titles)
    }

    method Move(next: Server)
      requires Valid() && Good(next, titles) && Later(s, next, titles)
      modifies this
      ensures Valid() && s == next && trace == old(trace) + [next] && log == old(log)
    {
      assert Good(trace[0], titles);
      assert Shape(trace[0]);
      hide Good, Later;
      LaterTransitive(trace[0], s, next, titles);
      s := next;
      trace := trace + [next];
    }

    lemma Calm(a: Server, b: Server)
      requires Good(a, titles) && Drifts(a, b, titles)
      ensures Good(b, titles) && Quiet(a, b, titles)
    {
      assert Shape(a);
      hide Good, Quiet;
      DriftsQuiet(a, b, titles);
      QuietGood(a, b, titles);
    }

    // Time passes in Herdr.
    method Drift()
      requires Valid()
      modifies this
      ensures Valid() && old(trace) <= trace && Quiet(old(s), s, titles) && log == old(log)
      ensures s == old(s) || Drifts(old(s), s, titles)
    {
      var next: Server := *;
      if Drifts(s, next, titles) {
        Calm(s, next);
        Move(next);
      } else {
        LaterSelf(s, titles);
      }
    }

    /* -- reads -- */

    method GetPane(id: string, ghost op: Op) returns (r: Reply<Pane>)
      requires Valid()
      modifies this
      ensures Valid() && old(trace) <= trace && Quiet(old(s), s, titles)
      ensures s == old(s) || Drifts(old(s), s, titles)
      ensures log == old(log) + [Call(op, id, AnswerOf(r), |trace|)]
      ensures r.Done? ==> id in s.panes && r.value == s.panes[id]
      ensures r.NotFound? ==> id !in s.panes
    {
      Drift();
      var up: bool := *;
      r := if !up then Failed else if id in s.panes then Done(s.panes[id]) else NotFound;
      log := log + [Call(op, id, AnswerOf(r), |trace|)];
    }

    method ListTabs(ws: string) returns (r: Reply<map<string, Tab>>)
      requires Valid()
      modifies this
      ensures Valid() && old(trace) <= trace && Quiet(old(s), s, titles)
      ensures s == old(s) || Drifts(old(s), s, titles)
      ensures log == old(log) + [Call(Tabs, ws, AnswerOf(r), |trace|)]
      ensures r.Done? ==> r.value == map t | t in s.tabs && s.tabs[t].workspace == ws :: s.tabs[t]
      ensures r.NotFound? ==> forall p :: p in s.panes ==> s.panes[p].workspace != ws
    {
      Drift();
      var up, known: bool := *, *;
      r := if !up then Failed
           else if !known && forall p :: p in s.panes ==> s.panes[p].workspace != ws then NotFound
           else Done(map t | t in s.tabs && s.tabs[t].workspace == ws :: s.tabs[t]);
      log := log + [Call(Tabs, ws, AnswerOf(r), |trace|)];
    }

    method ListPanes(ws: string) returns (r: Reply<map<string, Pane>>)
      requires Valid()
      modifies this
      ensures Valid() && old(trace) <= trace && Quiet(old(s), s, titles)
      ensures s == old(s) || Drifts(old(s), s, titles)
      ensures log == old(log) + [Call(Panes, ws, AnswerOf(r), |trace|)]
      ensures r.Done? ==> r.value == map p | p in s.panes && s.panes[p].workspace == ws :: s.panes[p]
      ensures r.NotFound? ==> forall p :: p in s.panes ==> s.panes[p].workspace != ws
    {
      Drift();
      var up, known: bool := *, *;
      r := if !up then Failed
           else if !known && forall p :: p in s.panes ==> s.panes[p].workspace != ws then NotFound
           else Done(map p | p in s.panes && s.panes[p].workspace == ws :: s.panes[p]);
      log := log + [Call(Panes, ws, AnswerOf(r), |trace|)];
    }

    /* -- writes -- */

    // A quiet change that may or may not take effect, and may or may not be reported.
    method Change(next: Server, ghost was: Server) returns (ok: bool)
      requires Valid() && Good(was, titles) && Quiet(was, s, titles) && Quiet(s, next, titles) && Shape(next)
      modifies this
      ensures Valid() && old(trace) <= trace && Quiet(was, s, titles) && log == old(log)
      ensures s == next || s == old(s)
      ensures ok ==> s == next
    {
      hide Quiet;
      assert Shape(was);
      var effect: bool := *;
      ok := *;
      ok := ok && effect;
      if effect {
        QuietGood(s, next, titles);
        QuietTransitive(was, s, next, titles);
        assert Later(s, next, titles) by { QuietLater(s, next, titles); }
        Move(next);
      }
    }

    method ClosePane(id: string) returns (r: Reply<()>)
      requires Valid()
      modifies this
      ensures Valid() && old(trace) <= trace && Quiet(old(s), s, titles)
      ensures r.Done? || r.NotFound? ==> id !in s.panes
      ensures exists at: nat :: |old(trace)| <= at <= |trace| && log == old(log) + [Call(Close, id, AnswerOf(r), at)]
    {
      hide Good, Quiet;
      ghost var was := s;
      Drift();
      ghost var at := |trace|;
      if id !in s.panes {
        var up: bool := *;
        r := if up then NotFound else Failed;
        log := log + [Call(Close, id, AnswerOf(r), at)];
        return;
      }
      var next := s.(panes := s.panes - {id});
      Removed(s, next, titles, id);
      var ok := Change(next, was);
      r := if ok then Done(()) else Failed;
      log := log + [Call(Close, id, AnswerOf(r), at)];
    }

    method RenamePane(id: string, ghost ws: string, title: string) returns (r: Reply<()>)
      requires Valid() && title in titles && Handle(s, ws, title, id) && id != ""
      modifies this
      ensures Valid() && old(trace) <= trace && Quiet(old(s), s, titles)
      ensures r.Done? ==> id in s.panes && s.panes[id].caption == title
      ensures exists at: nat :: |old(trace)| <= at <= |trace| && log == old(log) + [Call(Rename, id, AnswerOf(r), at)]
    {
      hide Good, Quiet, Handle;
      ghost var was := s;
      Drift();
      ghost var at := |trace|;
      assert Handle(s, ws, title, id) by { HandleQuiet(was, s, titles, ws, title, id); }
      if id !in s.panes {
        var up: bool := *;
        r := if up then NotFound else Failed;
        log := log + [Call(Rename, id, AnswerOf(r), at)];
        return;
      }
      var next := s.(panes := s.panes[id := s.panes[id].(caption := title)]);
      Renamed(s, next, titles, ws, title, id);
      var ok := Change(next, was);
      r := if ok then Done(()) else Failed;
      log := log + [Call(Rename, id, AnswerOf(r), at)];
    }

    method RunPane(id: string, text: string) returns (r: Reply<()>)
      requires Valid()
      modifies this
      ensures Valid() && old(trace) <= trace && Quiet(old(s), s, titles)
      ensures r.Done? ==> id in s.panes && s.panes[id].input == Some(text)
      ensures r.Done? && id in old(s).used ==> id in old(s).panes && s.panes[id].caption == old(s).panes[id].caption
      ensures exists at: nat :: |old(trace)| <= at <= |trace| && log == old(log) + [Call(Submit, id, AnswerOf(r), at)]
    {
      hide Good, Quiet;
      ghost var was := s;
      Drift();
      ghost var at := |trace|;
      if id !in s.panes {
        var up: bool := *;
        r := if up then NotFound else Failed;
        log := log + [Call(Submit, id, AnswerOf(r), at)];
        return;
      }
      var next := s.(panes := s.panes[id := s.panes[id].(input := Some(text))]);
      Submitted(s, next, titles, id);
      var ok := Change(next, was);
      r := if ok then Done(()) else Failed;
      log := log + [Call(Submit, id, AnswerOf(r), at)];
    }

    // A reply without a pane is no answer.
    method CreateTab(ws: string, title: string) returns (r: Reply<string>)
      requires Valid() && title in titles && forall p :: !Owns(s, ws, title, p)
      modifies this
      ensures Valid() && old(trace) <= trace && Later(old(s), s, titles)
      ensures r.Done? && r.value != "" ==> Owns(s, ws, title, r.value) && r.value !in old(s).used
      ensures exists at: nat :: && |old(trace)| <= at && FreeAt(trace, at, ws, title)
                                && log == old(log) + [Call(Create, title, if r.Done? && r.value != "" then Did else Broke, at)]
    {
      hide Good, Quiet, Owns, Later;
      ghost var was := s;
      Drift();
      ghost var at := |trace|;
      UnownedQuiet(was, s, titles, ws, title);
      assert FreeAt(trace, at, ws, title);
      assert Shape(was) && Later(was, s, titles) by { GoodShape(was, titles); QuietLater(was, s, titles); }
      var up: bool := *;
      var tab, id: string := *, *;
      if !up || tab in s.used || id in s.used || tab == "" || id == "" {
        r := Failed;
        log := log + [Call(Create, title, Broke, at)];
        return;
      }
      var pane: Pane := *;
      pane := pane.(workspace := ws, tab := tab, caption := "");
      var next := Server(s.tabs[tab := Tab(ws, title)], s.panes[id := pane], s.used + {tab, id});
      assert id !in was.used by { LaterUsed(was, s, titles); }
      CreatedGood(s, next, titles, ws, title, tab, id, pane);
      LaterTransitive(was, s, next, titles);
      Move(next);
      assert FreeAt(trace, at, ws, title);
      var acknowledged, complete: bool := *, *;
      r := if !acknowledged then Failed else if !complete then Done("") else Done(id);
      log := log + [Call(Create, title, if r.Done? && r.value != "" then Did else Broke, at)];
    }

    /* -- the adapter -- */

    // FindTerminal asks twice and changes nothing. It finds the pane if an agent runs
    // there, misses it only if none ran at some moment, and fails only if Herdr does.
    method FindTerminal(id: string) returns (r: Reply<()>)
      requires Valid()
      modifies this
      ensures Valid() && old(trace) <= trace && Quiet(old(s), s, titles)
      ensures old(log) <= log && ReadsOnly(log, |old(log)|)
      ensures r.Done? ==> id != "" && id in s.panes && Live(s.panes[id])
      ensures r.NotFound? ==> id == "" || SeenDead(trace, |old(trace)| - 1, id)
      ensures r.Failed? ==> Broken(log, |old(log)|)
      ensures id in old(s).panes && id in s.panes ==> s.panes[id].caption == old(s).panes[id].caption
    {
      hide Good, Quiet, Live;
      ghost var was := s;
      if id == "" {
        LaterSelf(s, titles);
        return NotFound;
      }
      var pane := GetPane(id, Inspect);
      assert log[|old(log)|].answer == AnswerOf(pane);
      if !pane.Done? {
        assert Dead(trace[|trace| - 1], id) || pane.Failed?;
        return if pane.NotFound? then NotFound else Failed;
      }
      if pane.value.terminal == "" {
        assert Dead(trace[|trace| - 1], id);
        return NotFound;
      }
      ghost var mid := s;
      var info := GetPane(id, Processes);
      assert Shape(was) by { GoodShape(was, titles); }
      QuietTransitive(was, mid, s, titles);
      assert log[|old(log)| + 1].answer == AnswerOf(info);
      if !info.Done? {
        assert Dead(trace[|trace| - 1], id) || info.Failed?;
        return if info.NotFound? then NotFound else Failed;
      }
      assert !Live(info.value) ==> Dead(trace[|trace| - 1], id);
      var live := HasLiveForegroundProcess(info.value);
      r := if live then Done(()) else NotFound;
    }

    // startNode: a pane that cannot be prepared is closed, as far as Herdr answers.
    method StartNode(id: string, ghost ws: string, title: string, text: string, labelled: bool) returns (ok: bool)
      requires Valid() && title in titles && Handle(s, ws, title, id) && id != ""
      requires labelled && id in s.panes ==> s.panes[id].caption == title
      modifies this
      ensures Valid() && old(trace) <= trace && Quiet(old(s), s, titles)
      ensures ok ==> Owns(s, ws, title, id) && s.panes[id].input == Some(text)
      ensures ok ==> s.panes[id].caption == title
      ensures old(log) <= log && About(log, |old(log)|, id, |old(trace)|)
      ensures !ok ==> Hindered(log, |old(log)|)
      ensures !ok ==> log[|log| - 1].op == Close
    {
      hide Good, Quiet, Handle, Owns, Shape;
      ghost var was := s;
      GoodShape(was, titles);
      HandleUsed(was, ws, title, id);
      LaterSelf(s, titles);
      if !labelled {
        var renamed := RenamePane(id, ws, title);
        ghost var mid := s;
        assert log[|old(log)|].answer == AnswerOf(renamed);
        if !renamed.Done? {
          var closed := ClosePane(id);
          QuietTransitive(was, mid, s, titles);
          assert log[|old(log)|].op == Rename;
          return false;
        }
      }
      ghost var mid := s;
      ghost var done := |log|;
      PaneUsed(mid, titles, id);
      var run := RunPane(id, text);
      assert log[done].op == Submit && log[done].answer == AnswerOf(run);
      QuietTransitive(was, mid, s, titles);
      HandleQuiet(was, s, titles, ws, title, id);
      if !run.Done? {
        ghost var end := s;
        var closed := ClosePane(id);
        QuietTransitive(was, end, s, titles);
        assert log[done].op == Submit;
        return false;
      }
      assert Owns(s, ws, title, id) by { HandleOwns(s, ws, title, id); }
      ok := true;
    }

    // CreateTerminal.
    method CreateTerminal(ws: string, title: string, text: string) returns (result: Option<string>)
      requires Valid() && title in titles && forall p :: !Owns(s, ws, title, p)
      modifies this
      ensures Valid() && old(trace) <= trace && Later(old(s), s, titles)
      ensures result.Some? ==> Owns(s, ws, title, result.value) && s.panes[result.value].input == Some(text)
      ensures result.Some? ==> s.panes[result.value].caption == title && result.value !in old(s).used
      ensures old(log) <= log && AllEarned(trace, log, |old(log)|, |old(trace)| - 1, ws, title, old(s).used)
      ensures result.None? ==> Hindered(log, |old(log)|)
    {
      hide Good, Quiet, Handle, Owns, Later;
      ghost var was := s;
      assert Shape(was) by { GoodShape(was, titles); }
      var pane := CreateTab(ws, title);
      ghost var t1, l1 := trace, log;
      assert Earned(trace, |old(trace)| - 1, ws, title, was.used, log[|old(log)|]);
      if !pane.Done? || pane.value == "" {
        assert log[|old(log)|].answer == Broke;
        return None;
      }
      ghost var mid := s;
      assert Handle(s, ws, title, pane.value) by { OwnsHandle(s, titles, ws, title, pane.value); }
      var ok := StartNode(pane.value, ws, title, text, false);
      assert Later(mid, s, titles) by { QuietLater(mid, s, titles); }
      LaterTransitive(was, mid, s, titles);
      result := if ok then Some(pane.value) else None;
      AboutEarned(t1, trace, log, |l1|, |old(trace)| - 1, ws, title, was.used, pane.value);
      AllEarnedThen(t1, trace, l1, log, |old(log)|, |old(trace)| - 1, |old(trace)| - 1, ws, title, was.used, was.used);
      BrokenMore(l1, log, |old(log)|, |l1|);
    }

    // CloseTerminal.
    method CloseTerminal(id: string) returns (ok: bool)
      requires Valid()
      modifies this
      ensures Valid() && old(trace) <= trace && Quiet(old(s), s, titles)
      ensures ok && id != "" ==> id !in s.panes
      ensures old(log) <= log && About(log, |old(log)|, id, |old(trace)|) && forall i :: |old(log)| <= i < |log| ==> log[i].op == Close
      ensures !ok ==> Broken(log, |old(log)|)
    {
      hide Good, Quiet;
      if id == "" {
        LaterSelf(s, titles);
        return true;
      }
      var r := ClosePane(id);
      assert log[|old(log)|].answer == AnswerOf(r);
      ok := !r.Failed?;
    }

    // recoverTerminal: the first by ID of the panes that belong to the title.
    method RecoverTerminal(ws: string, title: string) returns (r: Reply<Option<(string, bool)>>)
      requires Valid() && title in titles && ws != ""
      modifies this
      ensures Valid() && old(trace) <= trace && Quiet(old(s), s, titles)
      ensures r.Done? && r.value.Some? ==> Owns(s, ws, title, r.value.value.0) && r.value.value.0 != ""
      ensures r.Done? && r.value.Some? ==> (r.value.value.1 <==> s.panes[r.value.value.0].caption == title)
      ensures r.Done? && r.value.None? ==> forall p :: !Owns(s, ws, title, p)
      ensures old(log) <= log && ReadsOnly(log, |old(log)|) && !r.NotFound?
      ensures r.Failed? ==> Broken(log, |old(log)|)
    {
      hide Good, Quiet, Owns;
      ghost var was := s;
      assert Shape(was) by { GoodShape(was, titles); }
      var tabs := ListTabs(ws);
      ghost var mid := s;
      assert Good(mid, titles);
      assert log[|old(log)|].answer == AnswerOf(tabs);
      if !tabs.Done? {
        if tabs.NotFound? { NothingOwned(s, ws, title); }
        return if tabs.NotFound? then Done(None) else Failed;
      }
      var panes := ListPanes(ws);
      QuietTransitive(was, mid, s, titles);
      assert log[|log| - 1].answer == AnswerOf(panes);
      if !panes.Done? {
        if panes.NotFound? { NothingOwned(s, ws, title); }
        return if panes.NotFound? then Done(None) else Failed;
      }
      var best := Choose(ws, title, tabs.value, panes.value);
      forall p
        ensures Belongs(ws, title, tabs.value, panes.value, p) <==> Owns(s, ws, title, p)
      {
        Candidate(mid, s, titles, ws, title, p);
      }
      hide Belongs;
      r := Done(best);
    }

    // EnsureTerminal. A handle it returns is the title's only pane in the workspace,
    // and runs a command, this one or, if it was found running, whatever it runs. It
    // closes and restarts only panes in which it saw no agent, opens one only where the
    // title has none, and leaves an agent that runs all the while alone.
    method EnsureTerminal(ws: string, stored: string, title: string, text: string) returns (result: Option<string>)
      requires Valid() && title in titles && ws != "" && Handle(s, ws, title, stored)
      modifies this
      ensures Valid() && old(trace) <= trace && Later(old(s), s, titles)
      ensures result.Some? ==> Owns(s, ws, title, result.value) && forall p :: Owns(s, ws, title, p) ==> p == result.value
      ensures result.Some? ==> Live(s.panes[result.value]) || (s.panes[result.value].input == Some(text) && s.panes[result.value].caption == title)
      ensures old(log) <= log && AllEarned(trace, log, |old(log)|, |old(trace)| - 1, ws, title, old(s).used)
      ensures result.None? ==> Hindered(log, |old(log)|)
      ensures forall p :: Alive(trace, |old(trace)| - 1, ws, title, p) && !Broken(log, |old(log)|) ==> result == Some(p) && Untouched(log, |old(log)|, p)
    {
      result := Ensure(ws, stored, title, text);
      hide Good, Quiet, Handle, Owns, Later, Live, AllEarned, Hindered, Alive, Untouched;
      forall p | Alive(trace, |old(trace)| - 1, ws, title, p) && !Broken(log, |old(log)|)
        ensures result == Some(p) && Untouched(log, |old(log)|, p)
      {
        AliveReturned(trace, log, |old(log)|, |old(trace)| - 1, ws, title, titles, old(s).used, result, p);
        UntouchedIs(log, |old(log)|, p);
      }
    }

    method Ensure(ws: string, stored: string, title: string, text: string) returns (result: Option<string>)
      requires Valid() && title in titles && ws != "" && Handle(s, ws, title, stored)
      modifies this
      ensures Valid() && old(trace) <= trace && Later(old(s), s, titles)
      ensures result.Some? ==> Owns(s, ws, title, result.value) && forall p :: Owns(s, ws, title, p) ==> p == result.value
      ensures result.Some? ==> Live(s.panes[result.value]) || (s.panes[result.value].input == Some(text) && s.panes[result.value].caption == title)
      ensures old(log) <= log && AllEarned(trace, log, |old(log)|, |old(trace)| - 1, ws, title, old(s).used)
      ensures result.None? ==> Hindered(log, |old(log)|)
    {
      hide Good, Quiet, Handle, Owns, Later, Live, AllEarned, Hindered, Broken, SeenDead, About, ReadsOnly;
      ghost var was := s;
      ghost var n, from := |log|, |trace| - 1;
      assert Shape(was) by { GoodShape(was, titles); }
      var kept := FindTerminal(stored);
      HandleQuiet(was, s, titles, ws, title, stored);
      QuietLater(was, s, titles);
      ReadsEarned(trace, log, n, from, ws, title, was.used);
      if kept.Done? {
        HandleOwns(s, ws, title, stored);
        GoodOnly(s, titles, ws, title, stored);
        return Some(stored);
      }
      if kept.Failed? {
        BrokenHinders(log, n);
        return None;
      }
      ghost var mid, t1, l1 := s, trace, log;
      if stored != "" {
        var closed := CloseTerminal(stored);
        QuietTransitive(was, mid, s, titles);
        QuietLater(was, s, titles);
        ClosedEarned(t1, trace, log, |l1|, from, ws, title, was.used, stored);
        AllEarnedThen(t1, trace, l1, log, n, from, from, ws, title, was.used, was.used);
        if !closed {
          BrokenMore(l1, log, n, |l1|);
          BrokenHinders(log, n);
          return None;
        }
      }
      ghost var gone, t2, l2 := s, trace, log;
      var recovered := RecoverTerminal(ws, title);
      HandleQuiet(was, gone, titles, ws, title, stored);
      QuietTransitive(was, gone, s, titles);
      QuietLater(was, s, titles);
      ReadsEarned(trace, log, |l2|, from, ws, title, was.used);
      AllEarnedThen(t2, trace, l2, log, n, from, from, ws, title, was.used, was.used);
      if recovered.Failed? {
        BrokenMore(l2, log, n, |l2|);
        BrokenHinders(log, n);
        return None;
      }
      ghost var free, t3, l3 := s, trace, log;
      LaterUsed(was, free, titles);
      if recovered.value.Some? && recovered.value.value.0 != stored {
        var id, labelled := recovered.value.value.0, recovered.value.value.1;
        result := Resume(ws, title, text, id, labelled, was);
      } else {
        if recovered.value.Some? {
          ClosedStays(gone, s, titles, ws, title, stored);
          assert false;
        }
        result := CreateTerminal(ws, title, text);
        LaterTransitive(was, free, s, titles);
        if result.Some? { GoodOnly(s, titles, ws, title, result.value); }
      }
      AllEarnedThen(t3, trace, l3, log, n, from, |t3| - 1, ws, title, was.used, free.used);
      BrokenMore(l3, log, n, |l3|);
    }

    // The recovered half of EnsureTerminal: a pane left between the creation of its tab
    // and the submission of its command.
    method Resume(ws: string, title: string, text: string, id: string, labelled: bool, ghost was: Server) returns (result: Option<string>)
      requires Valid() && title in titles && Owns(s, ws, title, id) && Shape(was) && Quiet(was, s, titles) && id != ""
      requires labelled <==> s.panes[id].caption == title
      modifies this
      ensures Valid() && old(trace) <= trace && Later(was, s, titles)
      ensures result.Some? ==> Owns(s, ws, title, result.value) && forall p :: Owns(s, ws, title, p) ==> p == result.value
      ensures result.Some? ==> Live(s.panes[result.value]) || (s.panes[result.value].input == Some(text) && s.panes[result.value].caption == title)
      ensures old(log) <= log && AllEarned(trace, log, |old(log)|, |old(trace)| - 1, ws, title, old(s).used)
      ensures result.None? ==> Hindered(log, |old(log)|)
    {
      hide Good, Quiet, Handle, Owns, Later, Live, AllEarned, Hindered, Broken, SeenDead, About, ReadsOnly;
      ghost var then_ := s;
      ghost var n, from := |log|, |trace| - 1;
      OwnsKnown(s, ws, title, id);
      OwnsHandle(s, titles, ws, title, id);
      var found := FindTerminal(id);
      HandleQuiet(then_, s, titles, ws, title, id);
      QuietTransitive(was, then_, s, titles);
      QuietLater(was, s, titles);
      ReadsEarned(trace, log, n, from, ws, title, then_.used);
      if found.Done? {
        HandleOwns(s, ws, title, id);
        GoodOnly(s, titles, ws, title, id);
        return Some(id);
      }
      if found.Failed? {
        BrokenHinders(log, n);
        return None;
      }
      ghost var mid, t1, l1 := s, trace, log;
      var ok := StartNode(id, ws, title, text, labelled);
      QuietTransitive(was, mid, s, titles);
      QuietLater(was, s, titles);
      ResumedEarned(t1, trace, log, |l1|, from, ws, title, then_.used, id);
      AllEarnedThen(t1, trace, l1, log, n, from, from, ws, title, then_.used, then_.used);
      BrokenMore(l1, log, n, |l1|);
      if !ok {
        return None;
      }
      GoodOnly(s, titles, ws, title, id);
      return Some(id);
    }

    // relay-flow dies; Herdr is as it was after some call.
    method Die(at: nat)
      requires Valid() && at < |trace|
      modifies this
      ensures Valid() && s == old(trace[at]) && trace == [s]
    {
      LaterSelf(trace[at], titles);
      s := trace[at];
      trace := [s];
      log := [];
    }

    // Any number of launches of a node's terminal, each of which may die after any
    // call, before its handle was recorded: throughout, the title owns at most one pane.
    method Launches(ws: string, title: string, texts: seq<string>) returns (handle: string)
      requires Valid() && title in titles && ws != ""
      modifies this
      ensures Valid() && Handle(s, ws, title, handle)
    {
      hide Good, Later, Owns, Handle, Live;
      handle := "";
      EmptyHandle(s, ws, title);
      for k := 0 to |texts|
        invariant Valid() && Handle(s, ws, title, handle)
      {
        var first := |trace| - 1;
        Die(first);
        ghost var was := s;
        var got := EnsureTerminal(ws, handle, title, texts[k]);
        var dies: bool := *;
        if dies {
          var moment: int := *;
          var at := if 0 <= moment < |trace| then moment else 0;
          assert Later(trace[0], trace[at], titles);
          HandleLater(was, trace[at], titles, ws, title, handle);
          Die(at);
        } else {
          HandleLater(was, s, titles, ws, title, handle);
          if got.Some? {
            OwnsHandle(s, titles, ws, title, got.value);
            handle := got.value;
          }
        }
      }
    }
  }

  lemma QuietLater(a: Server, b: Server, titles: set<string>)
    requires Quiet(a, b, titles)
    ensures Later(a, b, titles)
  {
  }

  lemma HandleQuiet(a: Server, b: Server, titles: set<string>, ws: string, title: string, id: string)
    requires Handle(a, ws, title, id) && Quiet(a, b, titles) && title in titles
    ensures Handle(b, ws, title, id)
  {
    HandleLater(a, b, titles, ws, title, id);
  }

  lemma Removed(a: Server, b: Server, titles: set<string>, id: string)
    requires Good(a, titles) && b == a.(panes := a.panes - {id})
    ensures Quiet(a, b, titles) && Shape(b)
  {
    hide Owns;
    forall p | p in b.panes
      ensures p in a.panes && SameOwner(a, b, titles, p)
    {
      SamePaneOwner(a, b, titles, p);
    }
  }

  lemma Renamed(a: Server, b: Server, titles: set<string>, ws: string, title: string, id: string)
    requires Good(a, titles) && title in titles && id in a.panes && Handle(a, ws, title, id)
    requires b == a.(panes := a.panes[id := a.panes[id].(caption := title)])
    ensures Quiet(a, b, titles) && Shape(b)
  {
    forall p | p in b.panes
      ensures p in a.panes && SameOwner(a, b, titles, p)
    {
      if p != id { SamePaneOwner(a, b, titles, p); } else { RenamedOwner(a, b, titles, ws, title, id); }
    }
  }

  lemma RenamedOwner(a: Server, b: Server, titles: set<string>, ws: string, title: string, id: string)
    requires Good(a, titles) && title in titles && id in a.panes && Owns(a, ws, title, id)
    requires b == a.(panes := a.panes[id := a.panes[id].(caption := title)])
    ensures SameOwner(a, b, titles, id)
  {
    forall v, t | t in titles
      ensures Owns(a, v, t, id) <==> Owns(b, v, t, id)
    {
      assert Owns(a, v, t, id) ==> v == ws;
    }
  }

  lemma Submitted(a: Server, b: Server, titles: set<string>, id: string)
    requires Good(a, titles) && id in a.panes && exists i :: b == a.(panes := a.panes[id := a.panes[id].(input := i)])
    ensures Quiet(a, b, titles) && Shape(b)
  {
    forall p | p in b.panes
      ensures p in a.panes && SameOwner(a, b, titles, p)
    {
    }
    hide Owns;
  }

  lemma GoodShape(s: Server, titles: set<string>)
    requires Good(s, titles)
    ensures Shape(s)
  {
  }

  lemma GoodOnly(s: Server, titles: set<string>, ws: string, title: string, id: string)
    requires Good(s, titles) && title in titles && Owns(s, ws, title, id)
    ensures forall p :: Owns(s, ws, title, p) ==> p == id
  {
  }

  lemma UnownedQuiet(a: Server, b: Server, titles: set<string>, ws: string, title: string)
    requires Quiet(a, b, titles) && title in titles && forall p :: !Owns(a, ws, title, p)
    ensures forall p :: !Owns(b, ws, title, p)
  {
    forall p
      ensures !Owns(b, ws, title, p)
    {
      if Owns(b, ws, title, p) { QuietOwned(a, b, titles, ws, title, p); }
    }
  }

  lemma HandleOwns(s: Server, ws: string, title: string, id: string)
    requires Handle(s, ws, title, id) && id != "" && id in s.panes
    ensures Owns(s, ws, title, id)
  {
  }

  lemma OwnsHandle(s: Server, titles: set<string>, ws: string, title: string, id: string)
    requires Good(s, titles) && Owns(s, ws, title, id)
    ensures Handle(s, ws, title, id)
  {
  }

  lemma EmptyHandle(s: Server, ws: string, title: string)
    ensures Handle(s, ws, title, "")
  {
  }

  lemma NothingOwned(s: Server, ws: string, title: string)
    requires forall p :: p in s.panes ==> s.panes[p].workspace != ws
    ensures forall p :: !Owns(s, ws, title, p)
  {
  }

  // Tabs listed first and panes listed later pick exactly the panes the title owns.
  lemma Candidate(a: Server, b: Server, titles: set<string>, ws: string, title: string, p: string)
    requires Good(a, titles) && Good(b, titles) && Quiet(a, b, titles) && title in titles
    ensures Owns(b, ws, title, p) <==>
            p in b.panes && b.panes[p].workspace == ws && p != ""
            && (b.panes[p].caption == title || (b.panes[p].tab in a.tabs && a.tabs[b.panes[p].tab] == Tab(ws, title)))
  {
    if p in b.panes && b.panes[p].workspace == ws {
      if p in a.panes {
        assert Owns(a, ws, title, p) <==> Owns(b, ws, title, p);
      } else {
        assert Unowned(b, titles, p);
      }
    }
  }

  // A listed pane carries the title or stands in a listed tab that does.
  predicate Belongs(ws: string, title: string, tabs: map<string, Tab>, panes: map<string, Pane>, p: string) {
    p in panes && p != "" && (panes[p].caption == title || (panes[p].tab in tabs && tabs[panes[p].tab] == Tab(ws, title)))
  }

  // The selection in recoverTerminal, and whether the pane has the label itself.
  method Choose(ws: string, title: string, tabs: map<string, Tab>, panes: map<string, Pane>) returns (best: Option<(string, bool)>)
    ensures best.None? ==> forall p :: !Belongs(ws, title, tabs, panes, p)
    ensures best.Some? ==> Belongs(ws, title, tabs, panes, best.value.0) && (best.value.1 <==> panes[best.value.0].caption == title)
    ensures best.Some? ==> forall p :: Belongs(ws, title, tabs, panes, p) ==> !Below(p, best.value.0)
  {
    var owned := set t | t in tabs && tabs[t] == Tab(ws, title);
    var candidates := set p | p in panes && p != "" && (panes[p].caption == title || panes[p].tab in owned);
    assert forall p :: Belongs(ws, title, tabs, panes, p) ==> p in candidates;
    if candidates == {} {
      return None;
    }
    var first := First(candidates);
    best := Some((first, panes[first].caption == title));
  }

  // A closed pane does not come back.
  lemma ClosedStays(a: Server, b: Server, titles: set<string>, ws: string, title: string, id: string)
    requires Quiet(a, b, titles) && Handle(a, ws, title, id) && id !in a.panes && id != ""
    ensures !Owns(b, ws, title, id)
  {
  }

  // The first of some names.
  method First(names: set<string>) returns (best: string)
    requires names != {}
    ensures best in names && forall n :: n in names ==> !Below(n, best)
  {
    best :| best in names;
    var rest := names - {best};
    BelowTotal(best, best);
    while rest != {}
      invariant rest <= names && best in names
      invariant forall n :: n in names && n !in rest ==> !Below(n, best)
      decreases |rest|
    {
      var n :| n in rest;
      rest := rest - {n};
      BelowTotal(n, best);
      if Below(n, best) {
        forall m | m in names && m !in rest
          ensures !Below(m, n)
        {
          if m != n { BelowTransitive(n, best, m); } else { BelowTotal(n, n); }
        }
        best := n;
      }
    }
  }
}
