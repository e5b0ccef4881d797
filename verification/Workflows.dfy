/** Workflow graphs and reports: internal/workflow/workflow.go and
    internal/workflow/report.go. `Validate` and `ReachFrom` are the source's loops;
    `Reachable` is the independent notion of reachability, a path of edges. */
module Workflows {
  import opened Base

  const START := "start"
  const END := "end"
  const NONE := "None"

  datatype NodeType = Untyped | Agent | Hitl | Unknown(text: string)

  datatype Route = Route(target: string, whenText: string)

  // `rejects` stands for autoReject, set to any value; `templateVars` are the
  // variables named by the nudge prompt.
  datatype Node = Node(kind: NodeType, agent: string, description: string, nudge: string, templateVars: seq<string>,
                       rejects: bool, onSuccess: seq<Route>, onFailure: seq<Route>)

  datatype Workflow = Workflow(name: string, repos: seq<string>, nodes: map<string, Node>)

  datatype Fault =
    | AutoReject | LifecycleFields | StartFailureRoutes | StartTargets | EndRoutes
    | WorkType | WorkAgent | WorkDescription | WorkSuccess | WorkFailure | FailureToEnd | NudgeVariable

  datatype ValidateError =
    | BadName | NoRepos | DuplicateRepo(repo: string)
    | MissingStart | MissingEnd | BadNode(node: string, fault: Fault)
    | RouteToStart(node: string) | UnknownTarget(node: string, target: string) | Unreachable(node: string)

  function AllRoutes(n: Node): seq<Route> { n.onSuccess + n.onFailure }

  /* ---- single nodes ---- */

  const NUDGE_VARS := {"taskSystem", "ticket", "workflow", "repo", "node", "mailbox", "nextSteps"}

  predicate Bare(n: Node) { n.kind == Untyped && n.agent == "" && n.description == "" && n.nudge == "" }

  function StartFault(n: Node): Option<Fault> {
    if n.rejects then Some(AutoReject)
    else if !Bare(n) then Some(LifecycleFields)
    else if n.onFailure != [] then Some(StartFailureRoutes)
    else if |n.onSuccess| != 1 then Some(StartTargets)
    else None
  }

  function EndFault(n: Node): Option<Fault> {
    if n.rejects then Some(AutoReject)
    else if !Bare(n) then Some(LifecycleFields)
    else if n.onSuccess != [] || n.onFailure != [] then Some(EndRoutes)
    else None
  }

  predicate TargetsEnd(rs: seq<Route>) { exists r :: r in rs && r.target == END }

  predicate NamesUnknownVar(vs: seq<string>) { exists v :: v in vs && v !in NUDGE_VARS }

  function WorkFault(n: Node): Option<Fault> {
    if n.kind != Agent && n.kind != Hitl then Some(WorkType)
    else if n.kind != Hitl && n.rejects then Some(AutoReject)
    else if n.agent == "" then Some(WorkAgent)
    else if n.description == "" then Some(WorkDescription)
    else if n.onSuccess == [] then Some(WorkSuccess)
    else if n.onFailure == [] then Some(WorkFailure)
    else if TargetsEnd(n.onFailure) then Some(FailureToEnd)
    else if NamesUnknownVar(n.templateVars) then Some(NudgeVariable)
    else None
  }

  function NodeFault(name: string, n: Node): Option<Fault> {
    if name == START then StartFault(n) else if name == END then EndFault(n) else WorkFault(n)
  }

  // What the three kinds of node must look like.
  predicate Plain(n: Node) { !n.rejects && n.kind == Untyped && |n.agent| + |n.description| + |n.nudge| == 0 }

  predicate Sound(name: string, n: Node) {
    if name == "start" then Plain(n) && |n.onSuccess| == 1 && |n.onFailure| == 0
    else if name == "end" then Plain(n) && |n.onSuccess| == 0 && |n.onFailure| == 0
    else
      && (n.kind == Hitl || (n.kind == Agent && !n.rejects))
      && |n.agent| > 0 && |n.description| > 0 && |n.onSuccess| > 0 && |n.onFailure| > 0
      && (forall i :: 0 <= i < |n.onFailure| ==> n.onFailure[i].target != "end")
      && forall i :: 0 <= i < |n.templateVars| ==>
           n.templateVars[i] in {"taskSystem", "ticket", "workflow", "repo", "node", "mailbox", "nextSteps"}
  }

  // The checks in their order accept exactly these.
  lemma NodeFaultIff(name: string, n: Node)
    ensures NodeFault(name, n).None? <==> Sound(name, n)
  {
    if name != START && name != END && !Sound(name, n) && n.onFailure != [] {
      if i :| 0 <= i < |n.onFailure| && n.onFailure[i].target == END { assert n.onFailure[i] in n.onFailure; }
      if i :| 0 <= i < |n.templateVars| && n.templateVars[i] !in NUDGE_VARS { assert n.templateVars[i] in n.templateVars; }
    }
  }

  // What a fault says of the node.
  predicate Blames(name: string, n: Node, fault: Fault) {
    match fault
    case AutoReject => n.rejects && (name == "start" || name == "end" || n.kind != Hitl)
    case LifecycleFields => (name == "start" || name == "end") && !n.rejects && !Plain(n)
    case StartFailureRoutes => name == "start" && |n.onFailure| > 0
    case StartTargets => name == "start" && |n.onSuccess| != 1
    case EndRoutes => name == "end" && |n.onSuccess| + |n.onFailure| > 0
    case WorkType => name != "start" && name != "end" && (n.kind == Untyped || n.kind.Unknown?)
    case WorkAgent => name != "start" && name != "end" && |n.agent| == 0
    case WorkDescription => name != "start" && name != "end" && |n.description| == 0
    case WorkSuccess => name != "start" && name != "end" && |n.onSuccess| == 0
    case WorkFailure => name != "start" && name != "end" && |n.onFailure| == 0
    case FailureToEnd => name != "start" && name != "end" && exists i :: 0 <= i < |n.onFailure| && n.onFailure[i].target == "end"
    case NudgeVariable => name != "start" && name != "end" && |n.templateVars| > 0
  }

  lemma FaultBlames(name: string, n: Node)
    requires NodeFault(name, n).Some?
    ensures Blames(name, n, NodeFault(name, n).value)
  {
    if name != START && name != END && TargetsEnd(n.onFailure) {
      var r :| r in n.onFailure && r.target == END;
      var i :| 0 <= i < |n.onFailure| && n.onFailure[i] == r;
    }
    hide NUDGE_VARS;
  }

  // A lower-case letter, then letters and digits.
  predicate NameOk(s: string) {
    |s| > 0 && 'a' <= s[0] <= 'z' && forall i :: 0 <= i < |s| ==> Alphanumeric(s[i])
  }

  predicate Alphanumeric(c: char) { '0' <= c <= '9' || 'A' <= c <= 'Z' || 'a' <= c <= 'z' }

  // The pattern ^[a-z][a-zA-Z0-9]*$, from left to right.
  predicate Matches(s: string) { s != "" && 'a' <= s[0] <= 'z' && MatchesRest(s[1..]) }

  predicate MatchesRest(s: string) {
    s == "" || (('a' <= s[0] <= 'z' || 'A' <= s[0] <= 'Z' || '0' <= s[0] <= '9') && MatchesRest(s[1..]))
  }

  lemma {:induction false} MatchesRestIff(s: string)
    ensures MatchesRest(s) <==> forall i :: 0 <= i < |s| ==> Alphanumeric(s[i])
  {
    if s != "" {
      MatchesRestIff(s[1..]);
      assert s == [s[0]] + s[1..];
    }
  }

  lemma MatchesIff(s: string)
    ensures Matches(s) <==> NameOk(s)
  {
    if s != "" {
      MatchesRestIff(s[1..]);
      assert s == [s[0]] + s[1..];
    }
  }

  /* ---- reachability ---- */

  ghost predicate Edge(w: Workflow, a: string, b: string) {
    a in w.nodes && exists r :: r in AllRoutes(w.nodes[a]) && r.target == b
  }

  ghost predicate Path(w: Workflow, p: seq<string>) {
    p != [] && p[0] == START && forall i :: 0 < i < |p| ==> Edge(w, p[i - 1], p[i])
  }

  ghost predicate Reachable(w: Workflow, n: string) { exists p :: Path(w, p) && p[|p| - 1] == n }

  lemma StartReachable(w: Workflow)
    ensures Reachable(w, START)
  {
    assert Path(w, [START]) && [START][|[START]| - 1] == START;
  }

  lemma EdgeReachable(w: Workflow, a: string, b: string)
    requires Reachable(w, a) && Edge(w, a, b)
    ensures Reachable(w, b)
  {
    var p :| Path(w, p) && p[|p| - 1] == a;
    var q := p + [b];
    assert forall i :: 0 < i < |q| ==> Edge(w, q[i - 1], q[i]);
    assert Path(w, q) && q[|q| - 1] == b;
  }

  // A set that holds start and every successor of a member holds every path.
  lemma {:induction false} ClosedHoldsPath(w: Workflow, s: set<string>, p: seq<string>)
    requires Path(w, p) && START in s
    requires forall a, b :: a in s && Edge(w, a, b) ==> b in s
    ensures p[|p| - 1] in s
    decreases |p|
  {
    if |p| > 1 {
      var q := p[..|p| - 1];
      assert Path(w, q);
      ClosedHoldsPath(w, s, q);
      assert Edge(w, p[|p| - 2], p[|p| - 1]);
    }
  }

  function Targets(rs: seq<Route>): seq<string> {
    if rs == [] then [] else [rs[0].target] + Targets(rs[1..])
  }

  lemma {:induction false} TargetsSnoc(rs: seq<Route>, k: nat)
    requires k < |rs|
    ensures Targets(rs[..k + 1]) == Targets(rs[..k]) + [rs[k].target]
  {
    if k > 0 {
      TargetsSnoc(rs[1..], k - 1);
      assert rs[..k + 1][1..] == rs[1..][..k] && rs[..k][1..] == rs[1..][..k - 1];
    }
  }

  lemma {:induction false} TargetsHas(rs: seq<Route>, b: string)
    ensures b in Targets(rs) <==> exists r :: r in rs && r.target == b
  {
    if rs == [] {
    } else {
      TargetsHas(rs[1..], b);
      assert rs == [rs[0]] + rs[1..];
    }
  }

  // adj[name] holds the targets of name's routes, in order.
  ghost predicate Adjacency(w: Workflow, adj: map<string, seq<string>>, done: set<string>) {
    && adj.Keys <= done
    && forall n :: n in w.nodes && n in done ==> Next(adj, n) == Targets(AllRoutes(w.nodes[n]))
  }

  function Next(adj: map<string, seq<string>>, n: string): seq<string> { if n in adj then adj[n] else [] }

  lemma NextIsEdge(w: Workflow, adj: map<string, seq<string>>, a: string, b: string)
    requires Adjacency(w, adj, w.nodes.Keys)
    ensures b in Next(adj, a) <==> Edge(w, a, b)
  {
    if a in w.nodes { TargetsHas(AllRoutes(w.nodes[a]), b); }
  }

  method AddRoutes(before: map<string, seq<string>>, name: string, routes: seq<Route>) returns (adj: map<string, seq<string>>)
    requires Next(before, name) == []
    ensures Next(adj, name) == Targets(routes) && adj.Keys <= before.Keys + {name}
    ensures forall n :: n != name ==> Next(adj, n) == Next(before, n)
  {
    adj := before;
    for k := 0 to |routes|
      invariant Next(adj, name) == Targets(routes[..k]) && adj.Keys <= before.Keys + {name}
      invariant forall n :: n != name ==> Next(adj, n) == Next(before, n)
    {
      TargetsSnoc(routes, k);
      adj := adj[name := Next(adj, name) + [routes[k].target]];
    }
    assert routes[..|routes|] == routes;
  }

  method BuildAdjacency(w: Workflow) returns (adj: map<string, seq<string>>)
    ensures Adjacency(w, adj, w.nodes.Keys)
  {
    hide AllRoutes, Targets;
    adj := map[];
    var rest := w.nodes.Keys;
    while rest != {}
      invariant rest <= w.nodes.Keys && Adjacency(w, adj, w.nodes.Keys - rest)
      decreases rest
    {
      var name :| name in rest;
      adj := AddRoutes(adj, name, AllRoutes(w.nodes[name]));
      rest := rest - {name};
    }
    assert w.nodes.Keys - rest == w.nodes.Keys;
  }

  /* ---- the worklist ---- */

  // Every name a search can meet.
  ghost function Universe(adj: map<string, seq<string>>): set<string> {
    {START} + set n, k | n in adj && 0 <= k < |adj[n]| :: adj[n][k]
  }

  // What holds between the visited names and the queue.
  ghost predicate Searching(w: Workflow, adj: map<string, seq<string>>, visited: set<string>, queue: seq<string>) {
    && (START in visited || START in queue)
    && (forall n :: n in visited || n in queue ==> Reachable(w, n) && n in Universe(adj))
    && (forall a, b :: a in visited && Edge(w, a, b) ==> b in visited || b in queue)
  }

  lemma NextInUniverse(adj: map<string, seq<string>>, a: string, b: string)
    requires b in Next(adj, a)
    ensures b in Universe(adj)
  {
    var k :| 0 <= k < |adj[a]| && adj[a][k] == b;
  }

  lemma SearchStep(w: Workflow, adj: map<string, seq<string>>, visited: set<string>, queue: seq<string>)
    requires Adjacency(w, adj, w.nodes.Keys) && queue != [] && Searching(w, adj, visited, queue)
    ensures queue[0] in visited ==> Searching(w, adj, visited, queue[1..])
    ensures Searching(w, adj, visited + {queue[0]}, queue[1..] + Next(adj, queue[0]))
  {
    var cur, more := queue[0], Next(adj, queue[0]);
    assert queue == [cur] + queue[1..];
    forall b | b in more
      ensures Reachable(w, b) && b in Universe(adj)
    {
      NextIsEdge(w, adj, cur, b);
      EdgeReachable(w, cur, b);
      NextInUniverse(adj, cur, b);
    }
    forall b | Edge(w, cur, b)
      ensures b in more
    {
      NextIsEdge(w, adj, cur, b);
    }
  }

  // The loop of validateReachability: what is visited once the queue is empty.
  method ReachFrom(w: Workflow, adj: map<string, seq<string>>) returns (visited: set<string>)
    requires Adjacency(w, adj, w.nodes.Keys)
    ensures forall n :: n in visited <==> Reachable(w, n)
  {
    hide Reachable, Adjacency, Edge, Universe;
    visited := {};
    var queue := [START];
    StartReachable(w);
    assert START in Universe(adj) by { StartInUniverse(adj); }
    while queue != []
      invariant Searching(w, adj, visited, queue)
      decreases Universe(adj) - visited, |queue|
    {
      var cur := queue[0];
      SearchStep(w, adj, visited, queue);
      queue := queue[1..];
      if cur !in visited {
        visited := visited + {cur};
        queue := queue + Next(adj, cur);
      }
    }
    forall n | Reachable(w, n)
      ensures n in visited
    {
      ReachedVisited(w, visited, n);
    }
  }

  lemma StartInUniverse(adj: map<string, seq<string>>)
    ensures START in Universe(adj)
  {
  }

  lemma ReachedVisited(w: Workflow, visited: set<string>, n: string)
    requires Reachable(w, n) && START in visited
    requires forall a, b :: a in visited && Edge(w, a, b) ==> b in visited
    ensures n in visited
  {
    var p :| Path(w, p) && p[|p| - 1] == n;
    ClosedHoldsPath(w, visited, p);
  }

  // validateReachability: the error names some node without a path from start.
  method ValidateReachability(w: Workflow) returns (bad: Option<string>)
    ensures bad.None? <==> forall n :: n in w.nodes ==> Reachable(w, n)
    ensures bad.Some? ==> bad.value in w.nodes && !Reachable(w, bad.value)
  {
    hide Reachable;
    var adj := BuildAdjacency(w);
    var visited := ReachFrom(w, adj);
    var rest := w.nodes.Keys;
    while rest != {}
      invariant rest <= w.nodes.Keys
      invariant forall n :: n in w.nodes && n !in rest ==> Reachable(w, n)
      decreases rest
    {
      var name :| name in rest;
      if name !in visited {
        return Some(name);
      }
      rest := rest - {name};
    }
    return None;
  }

  /* ---- the whole definition ---- */

  predicate Distinct(rs: seq<string>) { forall i, j :: 0 <= i < j < |rs| ==> rs[i] != rs[j] }

  predicate NodesOk(w: Workflow) { forall n :: n in w.nodes ==> Sound(n, w.nodes[n]) }

  predicate TargetsOk(w: Workflow) {
    forall n, r :: n in w.nodes && r in AllRoutes(w.nodes[n]) ==> r.target != START && r.target in w.nodes
  }

  ghost predicate Valid(w: Workflow) {
    && NameOk(w.name) && w.repos != [] && Distinct(w.repos)
    && START in w.nodes && END in w.nodes && NodesOk(w) && TargetsOk(w)
    && forall n :: n in w.nodes ==> Reachable(w, n)
  }

  // What an error of `Validate` says about the definition.
  ghost predicate Justifies(w: Workflow, e: ValidateError) {
    match e
    case BadName => !NameOk(w.name)
    case NoRepos => w.repos == []
    case DuplicateRepo(r) => !Distinct(w.repos) && r in w.repos
    case MissingStart => START !in w.nodes
    case MissingEnd => END !in w.nodes
    case BadNode(n, f) => n in w.nodes && Blames(n, w.nodes[n], f)
    case RouteToStart(n) => n in w.nodes && exists r :: r in AllRoutes(w.nodes[n]) && r.target == START
    case UnknownTarget(n, t) => n in w.nodes && t !in w.nodes && exists r :: r in AllRoutes(w.nodes[n]) && r.target == t
    case Unreachable(n) => n in w.nodes && !Reachable(w, n)
  }

  method CheckRepos(w: Workflow) returns (bad: Option<ValidateError>)
    ensures bad.None? <==> Distinct(w.repos)
    ensures bad.Some? ==> bad.value.DuplicateRepo? && bad.value.repo in w.repos
  {
    var seen: set<string> := {};
    for i := 0 to |w.repos|
      invariant forall r :: r in seen <==> r in w.repos[..i]
      invariant Distinct(w.repos[..i])
    {
      if w.repos[i] in seen {
        return Some(DuplicateRepo(w.repos[i]));
      }
      assert w.repos[..i + 1] == w.repos[..i] + [w.repos[i]];
      seen := seen + {w.repos[i]};
    }
    assert w.repos[..|w.repos|] == w.repos;
    return None;
  }

  method CheckNodes(w: Workflow) returns (bad: Option<ValidateError>)
    requires START in w.nodes && END in w.nodes
    requires Sound(START, w.nodes[START]) && Sound(END, w.nodes[END])
    ensures bad.None? <==> NodesOk(w)
    ensures bad.Some? ==> bad.value.BadNode? && Justifies(w, bad.value)
  {
    hide Sound, Blames, WorkFault, StartFault, EndFault, START, END;
    var rest := w.nodes.Keys;
    while rest != {}
      invariant rest <= w.nodes.Keys
      invariant forall n :: n in w.nodes && n !in rest ==> Sound(n, w.nodes[n])
      decreases rest
    {
      var name :| name in rest;
      rest := rest - {name};
      NodeFaultIff(name, w.nodes[name]);
      if NodeFault(name, w.nodes[name]).Some? { FaultBlames(name, w.nodes[name]); }
      if name != START && name != END && WorkFault(w.nodes[name]).Some? {
        return Some(BadNode(name, WorkFault(w.nodes[name]).value));
      }
    }
    return None;
  }

  method CheckTargets(w: Workflow) returns (bad: Option<ValidateError>)
    ensures bad.None? <==> TargetsOk(w)
    ensures bad.Some? ==> (bad.value.RouteToStart? || bad.value.UnknownTarget?) && Justifies(w, bad.value)
  {
    var rest := w.nodes.Keys;
    while rest != {}
      invariant rest <= w.nodes.Keys
      invariant forall n, r :: n in w.nodes && n !in rest && r in AllRoutes(w.nodes[n]) ==> r.target != START && r.target in w.nodes
      decreases rest
    {
      var name :| name in rest;
      rest := rest - {name};
      var routes := AllRoutes(w.nodes[name]);
      for i := 0 to |routes|
        invariant forall k :: 0 <= k < i ==> routes[k].target != START && routes[k].target in w.nodes
      {
        if routes[i].target == START {
          return Some(RouteToStart(name));
        }
        if routes[i].target !in w.nodes {
          return Some(UnknownTarget(name, routes[i].target));
        }
      }
    }
    return None;
  }

  // Validate accepts exactly the valid definitions, and an error is a true one.
  method Validate(w: Workflow) returns (bad: Option<ValidateError>)
    ensures bad.None? <==> Valid(w)
    ensures bad.Some? ==> Justifies(w, bad.value)
  {
    hide NameOk, Matches, NodeFault, Reachable, TargetsOk, Sound, Blames, START, END;
    MatchesIff(w.name);
    if !Matches(w.name) {
      return Some(BadName);
    }
    if |w.repos| == 0 {
      return Some(NoRepos);
    }
    bad := CheckRepos(w);
    if bad.Some? {
      return;
    }
    if START !in w.nodes {
      return Some(MissingStart);
    }
    NodeFaultIff(START, w.nodes[START]);
    if NodeFault(START, w.nodes[START]).Some? {
      FaultBlames(START, w.nodes[START]);
      return Some(BadNode(START, NodeFault(START, w.nodes[START]).value));
    }
    if END !in w.nodes {
      return Some(MissingEnd);
    }
    NodeFaultIff(END, w.nodes[END]);
    if NodeFault(END, w.nodes[END]).Some? {
      FaultBlames(END, w.nodes[END]);
      return Some(BadNode(END, NodeFault(END, w.nodes[END]).value));
    }
    bad := CheckNodes(w);
    if bad.Some? {
      return;
    }
    bad := CheckTargets(w);
    if bad.Some? {
      return;
    }
    var lost := ValidateReachability(w);
    if lost.Some? {
      return Some(Unreachable(lost.value));
    }
  }

  /* ---- routes and reports ---- */

  datatype Outcome = Success | Failure | Other(text: string)

  datatype Report = Report(status: Outcome, nextStep: string, summary: seq<string>, feedback: seq<string>) {
    // Six summary sections and four feedback sections.
    predicate Shaped() { |summary| == 6 && |feedback| == 4 }
  }

  datatype ReportError = NoNode | BadStatus | EmptySection | FailureEnds | IllegalStep | EndFeedback

  function StartTarget(w: Workflow): Option<string> {
    if START in w.nodes && |w.nodes[START].onSuccess| == 1 then Some(w.nodes[START].onSuccess[0].target) else None
  }

  function Routes(w: Workflow, node: string, status: Outcome): Option<seq<Route>> {
    if node !in w.nodes then None
    else match status
      case Success => Some(w.nodes[node].onSuccess)
      case Failure => Some(w.nodes[node].onFailure)
      case Other(_) => None
  }

  predicate HasEmpty(ss: seq<string>) { exists i :: 0 <= i < |ss| && ss[i] == "" }

  predicate Leads(rs: seq<Route>, target: string) { exists i :: 0 <= i < |rs| && rs[i].target == target }

  function ValidateReport(w: Workflow, node: string, r: Report): Option<ReportError> {
    if node !in w.nodes then Some(NoNode)
    else if r.status.Other? then Some(BadStatus)
    else if HasEmpty(r.summary) || HasEmpty(r.feedback) || r.nextStep == "" then Some(EmptySection)
    else
      var routes := Routes(w, node, r.status).value;
      if r.status == Failure && r.nextStep == END then Some(FailureEnds)
      else if !Leads(routes, r.nextStep) then Some(IllegalStep)
      else if r.nextStep == END && exists i :: 0 <= i < |r.feedback| && r.feedback[i] != NONE then Some(EndFeedback)
      else None
  }

  // Some route of the list goes to the target.
  predicate LeadsTo(rs: seq<Route>, target: string) { exists e :: e in rs && e.target == target }

  // A report is accepted exactly if its node exists, no field is empty, its next step
  // is the target of a route of the node for the reported outcome, a failure does not
  // go to end, and with end as the next step all feedback reads None.
  lemma AcceptsIff(w: Workflow, node: string, r: Report)
    ensures ValidateReport(w, node, r).None? <==>
            && node in w.nodes
            && (forall i :: 0 <= i < |r.summary| ==> r.summary[i] != "")
            && (forall i :: 0 <= i < |r.feedback| ==> r.feedback[i] != "")
            && r.nextStep != ""
            && ((r.status == Success && LeadsTo(w.nodes[node].onSuccess, r.nextStep))
                || (r.status == Failure && LeadsTo(w.nodes[node].onFailure, r.nextStep) && r.nextStep != "end"))
            && (r.nextStep == "end" ==> forall i :: 0 <= i < |r.feedback| ==> r.feedback[i] == "None")
  {
    if node in w.nodes {
      var n := w.nodes[node];
      assert Leads(n.onSuccess, r.nextStep) <==> LeadsTo(n.onSuccess, r.nextStep);
      assert Leads(n.onFailure, r.nextStep) <==> LeadsTo(n.onFailure, r.nextStep);
    }
  }

  // What each refusal says of the report.
  lemma RefusalTrue(w: Workflow, node: string, r: Report)
    requires ValidateReport(w, node, r).Some?
    ensures ValidateReport(w, node, r).value == NoNode <==> node !in w.nodes
    ensures ValidateReport(w, node, r).value == BadStatus ==> r.status.Other?
    ensures ValidateReport(w, node, r).value == EmptySection ==> r.nextStep == "" || "" in r.summary || "" in r.feedback
    ensures ValidateReport(w, node, r).value == FailureEnds ==> r.status == Failure && r.nextStep == "end"
    ensures ValidateReport(w, node, r).value == IllegalStep ==>
              node in w.nodes && (r.status == Success ==> !LeadsTo(w.nodes[node].onSuccess, r.nextStep))
    ensures ValidateReport(w, node, r).value == IllegalStep ==>
              node in w.nodes && (r.status == Failure ==> !LeadsTo(w.nodes[node].onFailure, r.nextStep))
    ensures ValidateReport(w, node, r).value == EndFeedback ==> r.nextStep == "end" && exists i :: 0 <= i < |r.feedback| && r.feedback[i] != "None"
  {
    if node in w.nodes {
      var n := w.nodes[node];
      assert Leads(n.onSuccess, r.nextStep) <==> LeadsTo(n.onSuccess, r.nextStep);
      assert Leads(n.onFailure, r.nextStep) <==> LeadsTo(n.onFailure, r.nextStep);
    }
  }

  predicate WorkNode(w: Workflow, n: string) { n in w.nodes && n != START && n != END }

  // The first node of a run of a valid workflow is a work node or end.
  lemma StartLeads(w: Workflow)
    requires Valid(w)
    ensures StartTarget(w).Some? && (WorkNode(w, StartTarget(w).value) || StartTarget(w).value == END)
    ensures "start" in w.nodes && LeadsTo(w.nodes["start"].onSuccess, StartTarget(w).value)
  {
    assert Sound(START, w.nodes[START]);
    var r := w.nodes[START].onSuccess[0];
    assert r in AllRoutes(w.nodes[START]);
    hide NameOk, Reachable;
  }

  // In a valid workflow an accepted report leads to a node that exists, never to
  // start, and to end only on success and without feedback.
  lemma ReportLeads(w: Workflow, node: string, r: Report)
    requires Valid(w) && ValidateReport(w, node, r).None?
    ensures WorkNode(w, r.nextStep) || r.nextStep == END
    ensures r.nextStep == END ==> r.status == Success && forall i :: 0 <= i < |r.feedback| ==> r.feedback[i] == NONE
  {
    hide NameOk, Reachable, NodeFault;
    var routes := Routes(w, node, r.status).value;
    var i :| 0 <= i < |routes| && routes[i].target == r.nextStep;
    assert routes[i] in AllRoutes(w.nodes[node]);
  }
}
