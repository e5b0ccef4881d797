/** The derived index from repos to workflows: bindWorkflows in internal/repo/repo.go.
    Compiled matchers are values; a task system is the table of what it compiles. */
module Bindings {
  import opened Base

  type Config = map<string, string>

  // Stands for a compiled predicate on tickets.
  datatype Matcher = Matcher(text: string)

  // A configuration without an entry does not compile; an ownership compiler may also
  // return a nil matcher. `owners` is None for a system without the capability.
  datatype TaskSystem = TaskSystem(filters: map<Config, Matcher>, owners: Option<map<Config, Option<Matcher>>>)

  datatype Health = Unset | Healthy | Blocked | Unverified | Outdated

  datatype Fault = Unregistered | NoSystem | BadFilter | NoOwnership | BadOwnership | NilOwnership

  datatype Reason = Reason(repo: string, fault: Fault)

  class Workflow {
    const name: string
    const repos: seq<string>
    const config: Config
    var health: Health
    var reason: Option<Reason>

    constructor (name: string, repos: seq<string>, config: Config, health: Health)
      ensures this.name == name && this.repos == repos && this.config == config && this.health == health && reason == None
    {
      this.name, this.repos, this.config, this.health, reason := name, repos, config, health, None;
    }

    // IsRoutable.
    predicate Routable()
      reads this
    {
      health == Unset || health == Healthy
    }

    // MarkBlocked.
    method MarkBlocked(why: Reason)
      modifies this
      ensures health == Blocked && reason == Some(why)
    {
      health, reason := Blocked, Some(why);
    }
  }

  datatype Binding = Binding(wf: Workflow, match_: Matcher, owner: Matcher)

  class Repo {
    const name: string
    const system: Option<TaskSystem>
    var bindings: seq<Binding>

    constructor (name: string, system: Option<TaskSystem>)
      ensures this.name == name && this.system == system && bindings == []
    {
      this.name, this.system, bindings := name, system, [];
    }
  }

  type Repos = map<string, Repo>

  predicate Keyed(byId: Repos) { forall n :: n in byId ==> byId[n].name == n }

  /* ---- one workflow in one repo ---- */

  datatype Built = Built(binding: Binding) | Failed(fault: Fault)

  function Build(byId: Repos, wf: Workflow, repo: string): Built {
    if repo !in byId then Failed(Unregistered)
    else if byId[repo].system.None? then Failed(NoSystem)
    else
      var s := byId[repo].system.value;
      if wf.config !in s.filters then Failed(BadFilter)
      else if s.owners.None? then Failed(NoOwnership)
      else if wf.config !in s.owners.value then Failed(BadOwnership)
      else if s.owners.value[wf.config].None? then Failed(NilOwnership)
      else Built(Binding(wf, s.filters[wf.config], s.owners.value[wf.config].value))
  }

  /* ---- what must be published ---- */

  // The workflow's matchers build in every repo it lists.
  predicate Good(byId: Repos, wf: Workflow) { forall k :: 0 <= k < |wf.repos| ==> Build(byId, wf, wf.repos[k]).Built? }

  // The first of the repos at which the workflow fails.
  function FirstFault(byId: Repos, wf: Workflow, repos: seq<string>): Option<Reason> {
    if repos == [] then None
    else
      match Build(byId, wf, repos[0])
      case Failed(fault) => Some(Reason(repos[0], fault))
      case Built(_) => FirstFault(byId, wf, repos[1..])
  }

  lemma {:induction false} FirstFaultIff(byId: Repos, wf: Workflow, repos: seq<string>)
    ensures FirstFault(byId, wf, repos).None? <==> forall k :: 0 <= k < |repos| ==> Build(byId, wf, repos[k]).Built?
  {
    hide Build;
    if repos == [] {
    } else {
      FirstFaultIff(byId, wf, repos[1..]);
      assert forall k :: 0 < k < |repos| ==> repos[k] == repos[1..][k - 1];
    }
  }

  // The bindings one good workflow has in a repo: one for each time it lists it.
  function Share(byId: Repos, wf: Workflow, repos: seq<string>, repo: string): seq<Binding> {
    if repos == [] then []
    else
      var last := repos[|repos| - 1];
      Share(byId, wf, repos[..|repos| - 1], repo)
      + if last == repo && Build(byId, wf, repo).Built? then [Build(byId, wf, repo).binding] else []
  }

  // The bindings of a repo, in the order of the workflows.
  ghost function Expected(byId: Repos, routable: set<Workflow>, ws: seq<Workflow?>, repo: string): seq<Binding> {
    if ws == [] then []
    else
      var wf := ws[|ws| - 1];
      Expected(byId, routable, ws[..|ws| - 1], repo)
      + if wf != null && wf in routable && FirstFault(byId, wf, wf.repos).None? then Share(byId, wf, wf.repos, repo) else []
  }

  datatype Issue = Issue(wf: Workflow, why: Reason)

  ghost predicate Failing(byId: Repos, routable: set<Workflow>, wf: Workflow?) {
    wf != null && wf in routable && FirstFault(byId, wf, wf.repos).Some?
  }

  // One issue for each failing workflow, where it is first listed.
  ghost function Issues(byId: Repos, routable: set<Workflow>, ws: seq<Workflow?>): seq<Issue> {
    if ws == [] then []
    else
      var wf, before := ws[|ws| - 1], ws[..|ws| - 1];
      Issues(byId, routable, before)
      + if Failing(byId, routable, wf) && wf !in before then [Issue(wf, FirstFault(byId, wf, wf.repos).value)] else []
  }

  /* ---- order ---- */

  predicate AtMost(a: Binding, b: Binding) { !Below(b.wf.name, a.wf.name) }

  predicate Sorted(bs: seq<Binding>) { forall i, j :: 0 <= i < j < |bs| ==> AtMost(bs[i], bs[j]) }

  // Bindings of the same workflow name are the same.
  predicate Apart(bs: seq<Binding>) { forall i, j :: 0 <= i < |bs| && 0 <= j < |bs| && bs[i].wf.name == bs[j].wf.name ==> bs[i] == bs[j] }

  lemma ApartTail(bs: seq<Binding>)
    requires bs != [] && Apart(bs)
    ensures Apart(bs[1..])
  {
  }

  // Workflows of different names have one sorted order only.
  lemma {:induction false} SortedUnique(a: seq<Binding>, b: seq<Binding>)
    requires Sorted(a) && Sorted(b) && multiset(a) == multiset(b)
    requires Apart(a)
    ensures a == b
    decreases |a|
  {
    hide AtMost, Apart;
    SameLength(a, b);
    if a == [] {
    } else {
      HeadsAgree(a, b);
      TailsAgree(a, b);
      ApartTail(a);
      SortedUnique(a[1..], b[1..]);
    }
  }

  lemma SameLength(a: seq<Binding>, b: seq<Binding>)
    requires multiset(a) == multiset(b)
    ensures |a| == |b| && (a == [] ==> a == b)
  {
    assert |a| == |multiset(a)| == |multiset(b)| == |b|;
  }

  lemma TailsAgree(a: seq<Binding>, b: seq<Binding>)
    requires multiset(a) == multiset(b) && a != [] && b != [] && a[0] == b[0]
    ensures multiset(a[1..]) == multiset(b[1..]) && (a[1..] == b[1..] ==> a == b)
  {
    assert a == [a[0]] + a[1..] && b == [b[0]] + b[1..];
    assert multiset(a[1..]) == multiset(a) - multiset{a[0]} == multiset(b[1..]);
  }

  lemma HeadsAgree(a: seq<Binding>, b: seq<Binding>)
    requires Sorted(a) && Sorted(b) && multiset(a) == multiset(b) && a != [] && b != []
    requires Apart(a)
    ensures a[0] == b[0]
  {
    hide Below;
    assert a[0] in multiset(b) && b[0] in multiset(a);
    var i :| 0 <= i < |a| && a[i] == b[0];
    var j :| 0 <= j < |b| && b[j] == a[0];
    BelowTotal(a[0].wf.name, b[0].wf.name);
    assert AtMost(a[0], b[0]) && AtMost(b[0], a[0]);
  }

  // sort.Slice by workflow name, which promises no more than this.
  method SortByName(bs: seq<Binding>) returns (out: seq<Binding>)
    ensures Sorted(out) && multiset(out) == multiset(bs)
  {
    out := [];
    var i := 0;
    while i < |bs|
      invariant 0 <= i <= |bs|
      invariant Sorted(out) && multiset(out) == multiset(bs[..i])
    {
      out := Insert(out, bs[i]);
      assert bs[..i + 1] == bs[..i] + [bs[i]];
      i := i + 1;
    }
    assert bs[..i] == bs;
  }

  method Insert(bs: seq<Binding>, b: Binding) returns (out: seq<Binding>)
    requires Sorted(bs)
    ensures Sorted(out) && multiset(out) == multiset(bs) + multiset{b}
  {
    hide Sorted;
    var k := |bs|;
    while k > 0 && Below(b.wf.name, bs[k - 1].wf.name)
      invariant 0 <= k <= |bs|
      invariant forall j :: k <= j < |bs| ==> Below(b.wf.name, bs[j].wf.name)
    {
      k := k - 1;
    }
    out := bs[..k] + [b] + bs[k..];
    assert bs == bs[..k] + bs[k..];
    InsertedSorted(bs, b, k);
  }

  lemma InsertedSorted(bs: seq<Binding>, b: Binding, k: nat)
    requires k <= |bs| && Sorted(bs) && (k > 0 ==> AtMost(bs[k - 1], b))
    requires forall j :: k <= j < |bs| ==> Below(b.wf.name, bs[j].wf.name)
    ensures Sorted(bs[..k] + [b] + bs[k..])
  {
    hide Below;
    forall j | 0 <= j < k
      ensures AtMost(bs[j], b)
    {
      if j < k - 1 { BelowTransitive(bs[j].wf.name, bs[k - 1].wf.name, b.wf.name); }
    }
    forall j | k <= j < |bs|
      ensures AtMost(b, bs[j])
    {
      BelowTotal(b.wf.name, bs[j].wf.name);
    }
    hide AtMost;
    var out := bs[..k] + [b] + bs[k..];
    forall i, j | 0 <= i < j < |out|
      ensures AtMost(out[i], out[j])
    {
      assert out[i] == if i < k then bs[i] else if i == k then b else bs[i - 1];
      assert out[j] == if j < k then bs[j] else if j == k then b else bs[j - 1];
    }
  }

  /* ---- the build ---- */

  function At(byRepo: map<string, seq<Binding>>, repo: string): seq<Binding> { if repo in byRepo then byRepo[repo] else [] }

  function Without(bs: seq<Binding>, wf: Workflow): seq<Binding> {
    if bs == [] then []
    else Without(bs[..|bs| - 1], wf) + if bs[|bs| - 1].wf != wf then [bs[|bs| - 1]] else []
  }

  lemma AtUpdate(m: map<string, seq<Binding>>, repo: string, bs: seq<Binding>, n: string)
    ensures At(m[repo := bs], n) == if n == repo then bs else At(m, n)
  {
  }

  lemma ShareSnoc(byId: Repos, wf: Workflow, repos: seq<string>, repo: string, n: string)
    ensures Share(byId, wf, repos + [repo], n)
         == Share(byId, wf, repos, n) + if repo == n && Build(byId, wf, n).Built? then [Build(byId, wf, n).binding] else []
  {
    assert (repos + [repo])[..|repos|] == repos;
  }

  lemma WithoutSnoc(bs: seq<Binding>, b: Binding, wf: Workflow)
    ensures Without(bs + [b], wf) == Without(bs, wf) + if b.wf != wf then [b] else []
  {
    assert (bs + [b])[..|bs|] == bs;
  }

  // One more of its bindings: in the repo's own list, and taken out again by Without.
  lemma AddedWithout(wf: Workflow, repo: string, b: Binding, m: map<string, seq<Binding>>, n: string)
    requires b.wf == wf
    ensures Without(At(m[repo := At(m, repo) + [b]], n), wf) == Without(At(m, n), wf)
  {
    hide At, Without;
    AtUpdate(m, repo, At(m, repo) + [b], n);
    WithoutSnoc(At(m, repo), b, wf);
  }

  lemma AddedShare(byId: Repos, wf: Workflow, repos: seq<string>, repo: string, b: Binding, m: map<string, seq<Binding>>, n: string, was: seq<Binding>)
    requires Build(byId, wf, repo) == Built(b) && At(m, n) == was + Share(byId, wf, repos, n)
    ensures At(m[repo := At(m, repo) + [b]], n) == was + Share(byId, wf, repos + [repo], n)
  {
    hide Build, At, Share;
    AtUpdate(m, repo, At(m, repo) + [b], n);
    ShareSnoc(byId, wf, repos, repo, n);
    assert was + Share(byId, wf, repos, n) + [b] == was + (Share(byId, wf, repos, n) + [b]);
  }

  lemma BuildSelf(byId: Repos, wf: Workflow, repo: string)
    requires Build(byId, wf, repo).Built?
    ensures Build(byId, wf, repo).binding.wf == wf
  {
  }

  // The workflow's repos, up to the first that fails.
  method BindOne(byId: Repos, wf: Workflow, byRepo: map<string, seq<Binding>>) returns (out: map<string, seq<Binding>>, failure: Option<Reason>)
    ensures failure == FirstFault(byId, wf, wf.repos)
    ensures failure.None? ==> forall n :: At(out, n) == At(byRepo, n) + Share(byId, wf, wf.repos, n)
    ensures forall n :: Without(At(out, n), wf) == Without(At(byRepo, n), wf)
  {
    hide Build, At, Without;
    out := byRepo;
    var j := 0;
    assert wf.repos[0..] == wf.repos;
    while j < |wf.repos|
      invariant 0 <= j <= |wf.repos|
      invariant FirstFault(byId, wf, wf.repos[j..]) == FirstFault(byId, wf, wf.repos)
      invariant forall n :: At(out, n) == At(byRepo, n) + Share(byId, wf, wf.repos[..j], n)
      invariant forall n :: Without(At(out, n), wf) == Without(At(byRepo, n), wf)
    {
      var repo := wf.repos[j];
      assert wf.repos[j..][1..] == wf.repos[j + 1..];
      match Build(byId, wf, repo) {
        case Failed(fault) =>
          return out, Some(Reason(repo, fault));
        case Built(b) =>
          ghost var was := out;
          out := out[repo := At(out, repo) + [b]];
          assert wf.repos[..j + 1] == wf.repos[..j] + [repo];
          BuildSelf(byId, wf, repo);
          forall n
            ensures At(out, n) == At(byRepo, n) + Share(byId, wf, wf.repos[..j + 1], n)
            ensures Without(At(out, n), wf) == Without(At(byRepo, n), wf)
          {
            AddedShare(byId, wf, wf.repos[..j], repo, b, was, n, At(byRepo, n));
            AddedWithout(wf, repo, b, was, n);
          }
      }
      j := j + 1;
    }
    assert wf.repos[..j] == wf.repos;
    return out, None;
  }

  method Filtered(binds: seq<Binding>, wf: Workflow) returns (filtered: seq<Binding>)
    ensures filtered == Without(binds, wf)
  {
    hide Without;
    filtered := [];
    var i := 0;
    assert Without([], wf) == [] by { WithoutNil(wf); }
    while i < |binds|
      invariant 0 <= i <= |binds|
      invariant filtered == Without(binds[..i], wf)
    {
      WithoutSnoc(binds[..i], binds[i], wf);
      assert binds[..i + 1] == binds[..i] + [binds[i]];
      if binds[i].wf != wf { filtered := filtered + [binds[i]]; }
      i := i + 1;
    }
    assert binds[..i] == binds;
  }

  lemma WithoutNil(wf: Workflow)
    ensures Without([], wf) == []
  {
  }

  function Put(m: map<string, seq<Binding>>, n: string, bs: seq<Binding>): map<string, seq<Binding>> {
    if bs == [] then m - {n} else m[n := bs]
  }

  lemma AtPut(m: map<string, seq<Binding>>, n: string, bs: seq<Binding>, k: string)
    ensures At(Put(m, n, bs), k) == if k == n then bs else At(m, k)
  {
  }

  // Takes a failed workflow back out of every repo.
  method DropWorkflow(byRepo: map<string, seq<Binding>>, wf: Workflow) returns (out: map<string, seq<Binding>>)
    ensures forall n :: At(out, n) == Without(At(byRepo, n), wf)
  {
    out := byRepo;
    var rest := byRepo.Keys;
    WithoutNil(wf);
    assert forall n :: n !in rest ==> At(byRepo, n) == [];
    hide Without, Put, At;
    while rest != {}
      invariant rest <= byRepo.Keys
      invariant forall n :: At(out, n) == if n in rest then At(byRepo, n) else Without(At(byRepo, n), wf)
      decreases |rest|
    {
      var n :| n in rest;
      var filtered := Filtered(At(byRepo, n), wf);
      ghost var was := out;
      out := Put(out, n, filtered);
      rest := rest - {n};
      forall k
        ensures At(out, k) == if k in rest then At(byRepo, k) else Without(At(byRepo, k), wf)
      {
        AtPut(was, n, filtered, k);
      }
    }
  }

  ghost function Objects(ws: seq<Workflow?>): set<Workflow> { set wf: Workflow | wf in ws }

  ghost function RoutableOf(ws: seq<Workflow?>): set<Workflow>
    reads Objects(ws)
  {
    set wf: Workflow | wf in ws && wf.Routable()
  }

  // No workflow bound so far is one that fails.
  lemma {:induction false} ExpectedGood(byId: Repos, routable: set<Workflow>, ws: seq<Workflow?>, repo: string, wf: Workflow)
    requires FirstFault(byId, wf, wf.repos).Some?
    ensures Without(Expected(byId, routable, ws, repo), wf) == Expected(byId, routable, ws, repo)
  {
    if ws == [] {
      WithoutNil(wf);
    } else {
      hide Without, FirstFault;
      var v, before := ws[|ws| - 1], ws[..|ws| - 1];
      ExpectedGood(byId, routable, before, repo, wf);
      if v != null && v != wf { ShareWithout(byId, v, v.repos, repo, Expected(byId, routable, before, repo), wf); }
      assert Expected(byId, routable, before, repo) + [] == Expected(byId, routable, before, repo);
    }
  }

  lemma {:induction false} ShareWithout(byId: Repos, v: Workflow, repos: seq<string>, repo: string, base: seq<Binding>, wf: Workflow)
    requires Without(base, wf) == base && v != wf
    ensures Without(base + Share(byId, v, repos, repo), wf) == base + Share(byId, v, repos, repo)
    decreases |repos|
  {
    hide Build, Without;
    if repos == [] {
      assert base + [] == base;
    } else {
      var front := repos[..|repos| - 1];
      ShareWithout(byId, v, front, repo, base, wf);
      var so := Share(byId, v, front, repo);
      if repos[|repos| - 1] == repo && Build(byId, v, repo).Built? {
        var b := Build(byId, v, repo).binding;
        BuildSelf(byId, v, repo);
        assert base + (so + [b]) == base + so + [b];
        WithoutSnoc(base + so, b, wf);
      } else {
        assert so + [] == so;
      }
    }
  }

  /* ---- the whole rebuild ---- */

  datatype Outcome = Published(issues: seq<Issue>) | Refused(issue: Issue)

  // A workflow's health once the failing ones among `done` are marked.
  ghost predicate Marked(byId: Repos, routable: set<Workflow>, done: seq<Workflow?>, wf: Workflow, health: Health, reason: Option<Reason>)
    reads wf
  {
    if Failing(byId, routable, wf) && wf in done
    then wf.health == Blocked && wf.reason == FirstFault(byId, wf, wf.repos)
    else wf.health == health && wf.reason == reason
  }

  ghost predicate NoneFailing(byId: Repos, routable: set<Workflow>, ws: seq<Workflow?>) {
    forall k :: 0 <= k < |ws| ==> !Failing(byId, routable, ws[k])
  }

  lemma ExpectedSnoc(byId: Repos, routable: set<Workflow>, ws: seq<Workflow?>, wf: Workflow?, n: string)
    ensures Expected(byId, routable, ws + [wf], n)
         == Expected(byId, routable, ws, n)
            + if wf != null && wf in routable && FirstFault(byId, wf, wf.repos).None? then Share(byId, wf, wf.repos, n) else []
  {
    assert (ws + [wf])[..|ws|] == ws;
  }

  lemma IssuesSnoc(byId: Repos, routable: set<Workflow>, ws: seq<Workflow?>, wf: Workflow?)
    ensures Issues(byId, routable, ws + [wf])
         == Issues(byId, routable, ws)
            + if Failing(byId, routable, wf) && wf !in ws then [Issue(wf, FirstFault(byId, wf, wf.repos).value)] else []
  {
    assert (ws + [wf])[..|ws|] == ws;
  }

  // One routable workflow: all of its repos, or none and an issue.
  method BindNext(byId: Repos, wf: Workflow, ghost routable: set<Workflow>, ghost before: seq<Workflow?>,
                  byRepo: map<string, seq<Binding>>, issues: seq<Issue>, isolate: bool)
    returns (out: map<string, seq<Binding>>, more: seq<Issue>, refused: Option<Issue>)
    requires wf in routable && (Failing(byId, routable, wf) ==> wf !in before)
    requires forall n :: At(byRepo, n) == Expected(byId, routable, before, n)
    requires issues == Issues(byId, routable, before)
    modifies wf
    ensures refused == if !isolate && Failing(byId, routable, wf) then Some(Issue(wf, FirstFault(byId, wf, wf.repos).value)) else None
    ensures refused.None? ==> forall n :: At(out, n) == Expected(byId, routable, before + [wf], n)
    ensures refused.None? ==> more == Issues(byId, routable, before + [wf])
    ensures if isolate && Failing(byId, routable, wf) then wf.health == Blocked && wf.reason == FirstFault(byId, wf, wf.repos)
            else wf.health == old(wf.health) && wf.reason == old(wf.reason)
  {
    hide FirstFault, Share, Without, At, Build, Expected, Issues;
    var failure;
    out, failure := BindOne(byId, wf, byRepo);
    more, refused := issues, None;
    IssuesSnoc(byId, routable, before, wf);
    if failure.Some? {
      if !isolate {
        return out, issues, Some(Issue(wf, failure.value));
      }
      wf.MarkBlocked(failure.value);
      more := issues + [Issue(wf, failure.value)];
      out := DropWorkflow(out, wf);
    }
    forall n
      ensures At(out, n) == Expected(byId, routable, before + [wf], n)
    {
      ExpectedSnoc(byId, routable, before, wf, n);
      if failure.Some? { ExpectedGood(byId, routable, before, n, wf); }
    }
  }

  lemma Skipped(byId: Repos, routable: set<Workflow>, before: seq<Workflow?>, wf: Workflow?)
    requires wf == null || wf !in routable || (Failing(byId, routable, wf) && wf in before)
    ensures forall n :: Expected(byId, routable, before + [wf], n) == Expected(byId, routable, before, n)
    ensures Issues(byId, routable, before + [wf]) == Issues(byId, routable, before)
  {
    hide FirstFault, Expected, Issues, Share;
    IssuesSnoc(byId, routable, before, wf);
    forall n
      ensures Expected(byId, routable, before + [wf], n) == Expected(byId, routable, before, n)
    {
      ExpectedSnoc(byId, routable, before, wf, n);
    }
  }

  // The first half of bindWorkflows: every workflow in turn, all of its repos or none.
  method Collect(byId: Repos, ws: seq<Workflow?>, isolate: bool)
    returns (byRepo: map<string, seq<Binding>>, issues: seq<Issue>, refused: Option<Issue>)
    modifies Objects(ws)
    ensures refused.Some? <==> !isolate && !NoneFailing(byId, old(RoutableOf(ws)), ws)
    ensures refused.Some? ==> exists k :: 0 <= k < |ws| && Failing(byId, old(RoutableOf(ws)), ws[k]) && NoneFailing(byId, old(RoutableOf(ws)), ws[..k])
                                          && refused.value == Issue(ws[k], FirstFault(byId, ws[k], ws[k].repos).value)
    ensures refused.Some? ==> forall wf: Workflow :: wf in ws ==> wf.health == old(wf.health) && wf.reason == old(wf.reason)
    ensures refused.None? ==> issues == Issues(byId, old(RoutableOf(ws)), ws)
    ensures refused.None? ==> forall n :: At(byRepo, n) == Expected(byId, old(RoutableOf(ws)), ws, n)
    ensures refused.None? ==> forall wf: Workflow :: wf in ws ==> Marked(byId, old(RoutableOf(ws)), ws, wf, old(wf.health), old(wf.reason))
  {
    hide FirstFault, At, Expected, Issues;
    ghost var routable := RoutableOf(ws);
    byRepo, issues := map[], [];
    NothingYet(byId, routable);
    var i := 0;
    while i < |ws|
      invariant 0 <= i <= |ws|
      invariant forall n :: At(byRepo, n) == Expected(byId, routable, ws[..i], n)
      invariant issues == Issues(byId, routable, ws[..i])
      invariant !isolate ==> NoneFailing(byId, routable, ws[..i])
      invariant forall wf: Workflow :: wf in ws ==> Marked(byId, routable, ws[..i], wf, old(wf.health), old(wf.reason))
    {
      var wf := ws[i];
      assert ws[..i + 1] == ws[..i] + [wf];
      if wf != null && wf.Routable() {
        assert wf in ws && wf in routable;
        var refused;
        byRepo, issues, refused := BindNext(byId, wf, routable, ws[..i], byRepo, issues, isolate);
        if refused.Some? {
          return byRepo, issues, refused;
        }
      } else {
        assert wf in ws;
        Skipped(byId, routable, ws[..i], wf);
      }
      i := i + 1;
    }
    assert ws[..i] == ws;
    refused := None;
  }

  lemma NothingYet(byId: Repos, routable: set<Workflow>)
    ensures forall n :: At(map[], n) == Expected(byId, routable, [], n)
    ensures Issues(byId, routable, []) == []
  {
  }

  // The second half: each repo's bindings are replaced at once.
  method Publish(byId: Repos, byRepo: map<string, seq<Binding>>)
    requires Keyed(byId)
    modifies byId.Values
    ensures forall n :: n in byId ==> Sorted(byId[n].bindings) && multiset(byId[n].bindings) == multiset(At(byRepo, n))
  {
    hide At, Sorted;
    var rest := byId.Keys;
    while rest != {}
      invariant rest <= byId.Keys
      invariant forall n :: n in byId && n !in rest ==> Sorted(byId[n].bindings) && multiset(byId[n].bindings) == multiset(At(byRepo, n))
      decreases |rest|
    {
      var n :| n in rest;
      var next := SortByName(At(byRepo, n));
      byId[n].bindings := next;
      rest := rest - {n};
    }
  }

  // bindWorkflows. `isolate` is BindWorkflowsIsolated, otherwise BindWorkflows.
  method BindWorkflows(byId: Repos, ws: seq<Workflow?>, isolate: bool) returns (result: Outcome)
    requires Keyed(byId)
    modifies byId.Values, Objects(ws)
    ensures result.Refused? <==> !isolate && !NoneFailing(byId, old(RoutableOf(ws)), ws)
    ensures result.Refused? ==> exists k :: 0 <= k < |ws| && Failing(byId, old(RoutableOf(ws)), ws[k]) && NoneFailing(byId, old(RoutableOf(ws)), ws[..k])
                                            && result.issue == Issue(ws[k], FirstFault(byId, ws[k], ws[k].repos).value)
    ensures result.Refused? ==> forall n :: n in byId ==> byId[n].bindings == old(byId[n].bindings)
    ensures result.Refused? ==> forall wf: Workflow :: wf in ws ==> wf.health == old(wf.health) && wf.reason == old(wf.reason)
    ensures result.Published? ==> result.issues == Issues(byId, old(RoutableOf(ws)), ws)
    ensures result.Published? ==> forall n :: n in byId ==>
                                    Sorted(byId[n].bindings) && multiset(byId[n].bindings) == multiset(Expected(byId, old(RoutableOf(ws)), ws, n))
    ensures result.Published? ==> forall wf: Workflow :: wf in ws ==> Marked(byId, old(RoutableOf(ws)), ws, wf, old(wf.health), old(wf.reason))
  {
    hide FirstFault, Issues, Expected, Sorted;
    var byRepo, issues, refused := Collect(byId, ws, isolate);
    if refused.Some? {
      return Refused(refused.value);
    }
    Publish(byId, byRepo);
    return Published(issues);
  }

  /* ---- what is published, and what is reported ---- */

  lemma {:induction false} ShareIff(byId: Repos, wf: Workflow, repos: seq<string>, repo: string, b: Binding)
    ensures b in Share(byId, wf, repos, repo) <==> repo in repos && Build(byId, wf, repo) == Built(b)
  {
    hide Build;
    if repos == [] {
    } else {
      ShareIff(byId, wf, repos[..|repos| - 1], repo, b);
      assert repos == repos[..|repos| - 1] + [repos[|repos| - 1]];
    }
  }

  // The repo is registered and its system compiles the configuration into a filter and
  // an ownership matcher.
  predicate Compiles(byId: Repos, wf: Workflow, repo: string) {
    && repo in byId && byId[repo].system.Some?
    && var system := byId[repo].system.value;
       wf.config in system.filters && system.owners.Some? && wf.config in system.owners.value && system.owners.value[wf.config].Some?
  }

  // The workflow is routable, lists the repo, and compiles in every repo it lists; the
  // binding holds the repo's filter and its ownership matcher.
  predicate Binds(byId: Repos, routable: set<Workflow>, wf: Workflow, repo: string, b: Binding) {
    && wf in routable && repo in wf.repos && (forall k :: 0 <= k < |wf.repos| ==> Compiles(byId, wf, wf.repos[k]))
    && Compiles(byId, wf, repo) && b.wf == wf
    && b.match_ == byId[repo].system.value.filters[wf.config]
    && b.owner == byId[repo].system.value.owners.value[wf.config].value
  }

  lemma BuildCompiles(byId: Repos, wf: Workflow, repo: string)
    ensures Build(byId, wf, repo).Built? <==> Compiles(byId, wf, repo)
    ensures Compiles(byId, wf, repo) ==> forall b :: Build(byId, wf, repo) == Built(b) <==>
              && b.wf == wf && b.match_ == byId[repo].system.value.filters[wf.config]
              && b.owner == byId[repo].system.value.owners.value[wf.config].value
  {
  }

  lemma GoodCompiles(byId: Repos, wf: Workflow)
    ensures Good(byId, wf) <==> forall k :: 0 <= k < |wf.repos| ==> Compiles(byId, wf, wf.repos[k])
  {
    hide Build, Compiles;
    forall k | 0 <= k < |wf.repos|
      ensures Build(byId, wf, wf.repos[k]).Built? <==> Compiles(byId, wf, wf.repos[k])
    {
      BuildCompiles(byId, wf, wf.repos[k]);
    }
  }

  // A repo's bindings are those of the routable workflows that list it and compile in
  // every repo they list, each with the repo's filter and its ownership matcher.
  lemma {:induction false} PublishedIff(byId: Repos, routable: set<Workflow>, ws: seq<Workflow?>, repo: string, b: Binding)
    ensures b in Expected(byId, routable, ws, repo) <==> exists wf: Workflow :: wf in ws && Binds(byId, routable, wf, repo, b)
  {
    hide Build, FirstFault, Share, Good, Compiles;
    if ws == [] {
    } else {
      var wf, before := ws[|ws| - 1], ws[..|ws| - 1];
      assert ws == before + [wf];
      PublishedIff(byId, routable, before, repo, b);
      assert forall v: Workflow :: v in ws <==> v in before || v == wf;
      if wf != null {
        GoodIff(byId, wf);
        GoodCompiles(byId, wf);
        BuildCompiles(byId, wf, repo);
        ShareIff(byId, wf, wf.repos, repo, b);
        assert Binds(byId, routable, wf, repo, b) <==> wf in routable && Good(byId, wf) && b in Share(byId, wf, wf.repos, repo);
      }
    }
  }

  // What each reported fault says of the repo and the workflow.
  lemma FaultTrue(byId: Repos, wf: Workflow, repo: string, fault: Fault)
    requires Build(byId, wf, repo) == Failed(fault)
    ensures fault == Unregistered <==> repo !in byId
    ensures fault == NoSystem <==> repo in byId && byId[repo].system.None?
    ensures fault == BadFilter <==> repo in byId && byId[repo].system.Some? && wf.config !in byId[repo].system.value.filters
    ensures fault == NoOwnership ==> repo in byId && byId[repo].system.Some? && byId[repo].system.value.owners.None?
    ensures fault == BadOwnership || fault == NilOwnership ==>
              && repo in byId && byId[repo].system.Some? && byId[repo].system.value.owners.Some?
              && (wf.config in byId[repo].system.value.owners.value <==> fault == NilOwnership)
              && (fault == NilOwnership ==> byId[repo].system.value.owners.value[wf.config] == None)
  {
  }

  // The reason of an issue is the fault at the first repo that fails.
  lemma {:induction false} FirstFaultIs(byId: Repos, wf: Workflow, repos: seq<string>) returns (k: nat)
    requires FirstFault(byId, wf, repos).Some?
    ensures k < |repos| && FirstFault(byId, wf, repos).value.repo == repos[k]
    ensures Build(byId, wf, repos[k]) == Failed(FirstFault(byId, wf, repos).value.fault)
    ensures forall j :: 0 <= j < k ==> Build(byId, wf, repos[j]).Built?
  {
    hide Build;
    if Build(byId, wf, repos[0]).Failed? {
      k := 0;
    } else {
      k := FirstFaultIs(byId, wf, repos[1..]);
      k := k + 1;
      assert forall j :: 0 < j < k ==> repos[j] == repos[1..][j - 1];
    }
  }

  lemma GoodIff(byId: Repos, wf: Workflow)
    ensures Good(byId, wf) <==> FirstFault(byId, wf, wf.repos).None?
  {
    FirstFaultIff(byId, wf, wf.repos);
  }

  lemma {:induction false} IssuesFailing(byId: Repos, routable: set<Workflow>, ws: seq<Workflow?>)
    ensures var all := Issues(byId, routable, ws);
            && (forall i :: 0 <= i < |all| ==> all[i].wf in ws && Failing(byId, routable, all[i].wf))
            && (forall i, j :: 0 <= i < j < |all| ==> all[i].wf != all[j].wf)
            && (forall wf: Workflow :: wf in ws && Failing(byId, routable, wf) ==> exists i :: 0 <= i < |all| && all[i].wf == wf)
  {
    hide FirstFault;
    if ws == [] {
    } else {
      var wf, before := ws[|ws| - 1], ws[..|ws| - 1];
      assert ws == before + [wf];
      IssuesFailing(byId, routable, before);
      var was, now := Issues(byId, routable, before), Issues(byId, routable, ws);
      assert forall i :: 0 <= i < |was| ==> now[i] == was[i];
      forall v: Workflow | v in ws && Failing(byId, routable, v)
        ensures exists i :: 0 <= i < |now| && now[i].wf == v
      {
        if v in before {
          var i :| 0 <= i < |was| && was[i].wf == v;
          assert now[i].wf == v;
        } else {
          assert now[|was|].wf == v;
        }
      }
    }
  }

  // A failing workflow is bound nowhere and has exactly one issue.
  lemma Isolated(byId: Repos, routable: set<Workflow>, ws: seq<Workflow?>, wf: Workflow)
    requires wf in ws && wf in routable && !Good(byId, wf)
    ensures forall repo, b :: b in Expected(byId, routable, ws, repo) ==> b.wf != wf
    ensures exists i :: 0 <= i < |Issues(byId, routable, ws)| && Issues(byId, routable, ws)[i].wf == wf
                        && forall j :: 0 <= j < |Issues(byId, routable, ws)| && j != i ==> Issues(byId, routable, ws)[j].wf != wf
  {
    GoodIff(byId, wf);
    IssuesFailing(byId, routable, ws);
    hide Good, FirstFault, Issues, Expected;
    forall repo, b | b in Expected(byId, routable, ws, repo)
      ensures b.wf != wf
    {
      PublishedIff(byId, routable, ws, repo, b);
      var v: Workflow :| v in ws && Binds(byId, routable, v, repo, b);
      GoodCompiles(byId, v);
    }
  }

  predicate Once(repos: seq<string>) { forall i, j :: 0 <= i < j < |repos| ==> repos[i] != repos[j] }

  ghost predicate Listed(ws: seq<Workflow?>) {
    && (forall i, j :: 0 <= i < j < |ws| && ws[i] != null && ws[j] != null ==> ws[i].name != ws[j].name)
    && forall i :: 0 <= i < |ws| && ws[i] != null ==> Once(ws[i].repos)
  }

  lemma {:induction false} ShareOnce(byId: Repos, wf: Workflow, repos: seq<string>, repo: string)
    requires Once(repos)
    ensures |Share(byId, wf, repos, repo)| <= 1 && forall i :: 0 <= i < |Share(byId, wf, repos, repo)| ==> Share(byId, wf, repos, repo)[i].wf == wf
    ensures repo !in repos ==> Share(byId, wf, repos, repo) == []
  {
    if repos == [] {
    } else {
      var front := repos[..|repos| - 1];
      ShareOnce(byId, wf, front, repo);
      assert repos == front + [repos[|repos| - 1]];
      if Build(byId, wf, repo).Built? { BuildSelf(byId, wf, repo); }
      hide Build;
      assert repos[|repos| - 1] !in front;
    }
  }

  // At most one binding for each workflow among ws, under its own name.
  ghost predicate Single(bs: seq<Binding>, ws: seq<Workflow?>) {
    && (forall i :: 0 <= i < |bs| ==> bs[i].wf in ws)
    && forall i, j :: 0 <= i < j < |bs| ==> bs[i].wf.name != bs[j].wf.name
  }

  lemma OneMore(before: seq<Workflow?>, wf: Workflow, bs: seq<Binding>, share: seq<Binding>)
    requires |share| <= 1 && forall i :: 0 <= i < |share| ==> share[i].wf == wf
    requires forall i :: 0 <= i < |before| && before[i] != null ==> before[i].name != wf.name
    requires Single(bs, before)
    ensures Single(bs + share, before + [wf])
  {
    forall i | 0 <= i < |bs|
      ensures bs[i].wf.name != wf.name
    {
      var k :| 0 <= k < |before| && before[k] == bs[i].wf;
    }
  }

  lemma OneMoreNone(before: seq<Workflow?>, wf: Workflow?, bs: seq<Binding>)
    requires Single(bs, before)
    ensures Single(bs + [], before + [wf])
  {
    assert bs + [] == bs;
  }

  // Workflows of different names that list no repo twice are bound at most once in a
  // repo, so what is published there is determined, order and all.
  lemma {:induction false} BoundOnce(byId: Repos, routable: set<Workflow>, ws: seq<Workflow?>, repo: string)
    requires Listed(ws)
    ensures Single(Expected(byId, routable, ws, repo), ws)
  {
    hide FirstFault, Share, Once;
    if ws == [] {
    } else {
      var wf, before := ws[|ws| - 1], ws[..|ws| - 1];
      assert ws == before + [wf];
      BoundOnce(byId, routable, before, repo);
      var bs := Expected(byId, routable, before, repo);
      if wf != null {
        ShareOnce(byId, wf, wf.repos, repo);
        OneMore(before, wf, bs, Share(byId, wf, wf.repos, repo));
      }
      OneMoreNone(before, wf, bs);
    }
  }

  lemma ApartSame(a: seq<Binding>, b: seq<Binding>)
    requires multiset(a) == multiset(b) && Apart(b)
    ensures Apart(a)
  {
    forall i, j | 0 <= i < |a| && 0 <= j < |a| && a[i].wf.name == a[j].wf.name
      ensures a[i] == a[j]
    {
      assert a[i] in multiset(b) && a[j] in multiset(b);
    }
  }

  // Two rebuilds over the same workflows publish the same lists.
  lemma Determined(byId: Repos, routable: set<Workflow>, ws: seq<Workflow?>, repo: string, a: seq<Binding>, b: seq<Binding>)
    requires Listed(ws) && Sorted(a) && Sorted(b)
    requires multiset(a) == multiset(Expected(byId, routable, ws, repo)) == multiset(b)
    ensures a == b
  {
    hide Expected, Sorted;
    BoundOnce(byId, routable, ws, repo);
    ApartSame(a, Expected(byId, routable, ws, repo));
    SortedUnique(a, b);
  }
}
