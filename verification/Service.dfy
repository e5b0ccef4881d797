/** Submit and Remove of internal/workflow/service.go: the stored pair, the in-memory
    registry and the published bindings change together or not at all. */
module Service {
  import opened Base
  import opened Store

  type Definition = string

  datatype Outcome = Accepted | Rejected | StoreFailed | RolledBack | RollbackFailed

  // What rebuild i will answer.
  predicate Answers(rebinds: seq<bool>, i: nat) { i < |rebinds| ==> rebinds[i] }

  // The service for one workflow name. Bindings are a function of the registry they
  // are built from, so `published` is that registry. `rebinds` is what the next
  // rebuilds of the bindings will answer; a failed one publishes nothing.
  class Workflows {
    const name: string
    const dir: Directory
    var registry: map<string, Definition>
    var published: map<string, Definition>
    var rebinds: seq<bool>

    constructor (name: string, dir: Directory, registry: map<string, Definition>, rebinds: seq<bool>)
      ensures this.name == name && this.dir == dir && this.registry == registry && Bound() && this.rebinds == rebinds
    {
      this.name := name;
      this.dir := dir;
      this.registry := registry;
      this.published := registry;
      this.rebinds := rebinds;
    }

    // The bindings are those of the registry. Every outcome but a failed rollback keeps
    // this, and acceptance restores it.
    predicate Bound()
      reads this`registry, this`published
    {
      published == registry
    }

    // Repo bindings rebuilt from the registry, strictly.
    method Rebind() returns (ok: bool)
      modifies this`published, this`rebinds
      ensures published == (if ok then registry else old(published))
      ensures (ok <==> Answers(old(rebinds), 0)) && rebinds == (if old(rebinds) == [] then [] else old(rebinds)[1..])
    {
      ok := rebinds == [] || rebinds[0];
      rebinds := if rebinds == [] then [] else rebinds[1..];
      if ok {
        published := registry;
      }
    }

    // A binding failure takes the files and the registry back and binds again.
    method Rollback(files: Pair, previous: map<string, Definition>) returns (outcome: Outcome)
      modifies this`registry, this`published, this`rebinds, dir
      ensures registry == previous && (outcome == RolledBack || outcome == RollbackFailed)
      ensures outcome == RolledBack <==> Smooth(old(dir.fates), 5) && Answers(old(rebinds), 0)
      ensures outcome == RolledBack ==> dir.disk == Disk(files.yaml, files.hash, None) && published == previous
    {
      RestorePairSafe(dir.Now(), files);
      RestorePairSucceeds(dir.Now(), files);
      var restored := dir.RestoreDefinition(files);
      registry := previous;
      var bound := Rebind();
      return if restored && bound then RolledBack else RollbackFailed;
    }

    // `valid` and `active` are the answers of the checks that come first.
    method Submit(yaml: Bytes, hash: Bytes, definition: Definition, valid: bool, active: bool) returns (outcome: Outcome)
      modifies this`registry, this`published, this`rebinds, dir
      ensures outcome == Accepted ==>
                dir.disk == Disk(Some(yaml), Some(hash), None) && registry == old(registry)[name := definition] && published == registry
      ensures outcome == RolledBack ==>
                dir.disk == Disk(old(dir.disk.yaml), old(dir.disk.hash), None)
                && registry == old(registry) && published == old(registry)
      ensures outcome == Rejected ==> dir.disk == old(dir.disk)
      ensures outcome == StoreFailed ==>
                dir.disk == old(dir.disk) || dir.disk.Files() == old(dir.disk.Files())
                || dir.disk.journal == Some(Journal(Forward, old(dir.disk.Files()), Pair(Some(yaml), Some(hash))))
      ensures outcome == Rejected || outcome == StoreFailed ==> registry == old(registry) && published == old(published)
      ensures outcome == RollbackFailed ==> registry == old(registry)
      ensures outcome == RolledBack && old(Bound()) ==> published == old(published)
      ensures old(Bound()) && outcome != RollbackFailed ==> Bound()
      ensures outcome == Rejected <==> !valid || active
      ensures outcome == Accepted <==> valid && !active && Smooth(old(dir.fates), 6) && Answers(old(rebinds), 0)
      ensures outcome == StoreFailed <==> valid && !active && !Smooth(old(dir.fates), 6)
      ensures outcome == RolledBack <==>
              valid && !active && Smooth(old(dir.fates), 11) && !Answers(old(rebinds), 0) && Answers(old(rebinds), 1)
    {
      hide Smooth, Put, RestorePair, NextFate;
      if !valid || active {
        return Rejected;
      }
      SmoothNext(dir.Now(), 6);
      SmoothNext(dir.Now(), 11);
      if Smooth(dir.fates, 11) { SmoothLess(dir.fates, 6, 11); }
      var files := dir.ReadFiles();
      if files.None? {
        return StoreFailed;
      }
      var previous := registry;
      PutEnds(dir.Now(), yaml, hash);
      PutSucceeds(dir.Now(), yaml, hash, 5);
      var stored := dir.PutDefinition(yaml, hash);
      if !stored {
        return StoreFailed;
      }
      registry := registry[name := definition];
      var bound := Rebind();
      if !bound {
        outcome := Rollback(files.value, previous);
        return outcome;
      }
      return Accepted;
    }

    method Remove(active: bool) returns (outcome: Outcome)
      modifies this`registry, this`published, this`rebinds, dir
      ensures outcome == Accepted ==>
                dir.disk == Disk(None, None, None) && registry == old(registry) - {name} && published == registry
      ensures outcome == RolledBack ==>
                dir.disk == Disk(old(dir.disk.yaml), old(dir.disk.hash), None)
                && registry == old(registry) && published == old(registry)
      ensures outcome == Rejected ==> dir.disk == old(dir.disk)
      ensures outcome == StoreFailed ==>
                dir.disk == old(dir.disk) || dir.disk.Files() == old(dir.disk.Files())
                || dir.disk.journal == Some(Journal(Forward, old(dir.disk.Files()), Pair(None, None)))
      ensures outcome == Rejected || outcome == StoreFailed ==> registry == old(registry) && published == old(published)
      ensures outcome == RollbackFailed ==> registry == old(registry)
      ensures outcome == RolledBack && old(Bound()) ==> published == old(published)
      ensures old(Bound()) && outcome != RollbackFailed ==> Bound()
      ensures outcome == Rejected <==> active
      ensures outcome == Accepted <==> !active && old(dir.disk.yaml).Some? && Smooth(old(dir.fates), 6) && Answers(old(rebinds), 0)
      ensures outcome == StoreFailed <==> !active && (old(dir.disk.yaml).None? || !Smooth(old(dir.fates), 6))
      ensures outcome == RolledBack <==>
              !active && old(dir.disk.yaml).Some? && Smooth(old(dir.fates), 11) && !Answers(old(rebinds), 0) && Answers(old(rebinds), 1)
    {
      hide Smooth, Store.Remove, RestorePair, NextFate;
      if active {
        return Rejected;
      }
      SmoothNext(dir.Now(), 6);
      SmoothNext(dir.Now(), 11);
      if Smooth(dir.fates, 11) { SmoothLess(dir.fates, 6, 11); }
      var files := dir.ReadFiles();
      if files.None? {
        return StoreFailed;
      }
      var previous := registry;
      RemoveEnds(dir.Now());
      RemoveSucceeds(dir.Now(), 5);
      var stored := dir.RemoveDefinition();
      if !stored {
        return StoreFailed;
      }
      registry := registry - {name};
      var bound := Rebind();
      if !bound {
        outcome := Rollback(files.value, previous);
        return outcome;
      }
      return Accepted;
    }
  }

  lemma PutEnds(w: World, yaml: Bytes, hash: Bytes)
    ensures var (r, ok) := Put(w, yaml, hash);
            if ok then r.disk == Disk(Some(yaml), Some(hash), None)
            else r.disk == w.disk || r.disk.Files() == w.disk.Files()
                 || r.disk.journal == Some(Journal(Forward, w.disk.Files(), Pair(Some(yaml), Some(hash))))
  {
    ReplaceSafe(Store.Snapshot(w).0, Journal(Forward, w.disk.Files(), Pair(Some(yaml), Some(hash))));
    hide Replace;
  }

  lemma RemoveEnds(w: World)
    ensures var (r, ok) := Remove(w);
            if ok then w.disk.yaml.Some? && r.disk == Disk(None, None, None)
            else r.disk == w.disk || r.disk.Files() == w.disk.Files()
                 || r.disk.journal == Some(Journal(Forward, w.disk.Files(), Pair(None, None)))
  {
    ReplaceSafe(Store.Snapshot(w).0, Journal(Forward, w.disk.Files(), Pair(None, None)));
    hide Replace;
  }
}
