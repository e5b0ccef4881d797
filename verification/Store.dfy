/** The two-file workflow store of internal/workflow/store.go: a definition and its
    accepted hash, replaced together under a journal.

    Every file operation is one atomic step whose outcome is a `Fate`: it succeeds,
    fails without effect, or fails after taking effect (WriteAtomic replaces the file
    and may still fail to sync its directory; a failed remove has no effect). `trace`
    collects every disk state on the way, that is, every state a crash can leave. */
module Store {
  import opened Base

  type Bytes = string

  datatype Pair = Pair(yaml: Option<Bytes>, hash: Option<Bytes>)

  datatype Kind = Forward | Rollback

  datatype Journal = Journal(kind: Kind, was: Pair, next: Pair)

  datatype Disk = Disk(yaml: Option<Bytes>, hash: Option<Bytes>, journal: Option<Journal>) {
    function Files(): Pair { Pair(yaml, hash) }
  }

  datatype Fate = Done | Lost | Late

  // The disk, the outcomes to come, and the states so far.
  datatype World = World(disk: Disk, fates: seq<Fate>, trace: seq<Disk>)

  /* ---- single operations ---- */

  function NextFate(w: World): Fate { if w.fates == [] then Done else w.fates[0] }

  function Rest(w: World): seq<Fate> { if w.fates == [] then [] else w.fates[1..] }

  // One step towards disk `next`.
  function Act(w: World, next: Disk, removal: bool): (World, bool) {
    var f := NextFate(w);
    var d := if f == Done || (f == Late && !removal) then next else w.disk;
    (World(d, Rest(w), w.trace + [d]), f == Done)
  }

  function SetYaml(w: World, v: Option<Bytes>): (World, bool) { Act(w, w.disk.(yaml := v), v.None?) }

  function SetHash(w: World, v: Option<Bytes>): (World, bool) { Act(w, w.disk.(hash := v), v.None?) }

  function SetJournal(w: World, v: Option<Journal>): (World, bool) { Act(w, w.disk.(journal := v), v.None?) }

  // Reading the two files: it may fail and changes nothing.
  function Snapshot(w: World): (World, Option<Pair>) {
    (w.(fates := Rest(w)), if NextFate(w) == Done then Some(w.disk.Files()) else None)
  }

  /* ---- the operations of the store ---- */

  function Restore(w: World, p: Pair): (World, bool) {
    var (w1, ok) := SetYaml(w, p.yaml);
    if !ok then (w1, false) else SetHash(w1, p.hash)
  }

  function Finish(r: (World, bool)): (World, bool) {
    if !r.1 then (r.0, false) else SetJournal(r.0, None)
  }

  // recoverTransaction.
  function Recover(w: World, j: Journal, forceOld: bool): (World, bool) {
    var (w1, current) := Snapshot(w);
    if current.None? then (w1, false)
    else if j.kind == Rollback then
      if current.value == j.next then SetJournal(w1, None) else Finish(Restore(w1, j.next))
    else if !forceOld && (current.value == j.next || current.value == j.was) then SetJournal(w1, None)
    else Finish(Restore(w1, j.was))
  }

  // A failed step of Put or Remove puts the old pair back.
  function Undo(w: World, j: Journal): (World, bool) { (Recover(w, j, true).0, false) }

  function ReplaceTail(w3: World, second: bool, j: Journal): (World, bool) {
    if !second then Undo(w3, j)
    else
      var (w4, removed) := SetJournal(w3, None);
      if !removed then Undo(w4, j) else (w4, true)
  }

  function ReplaceBody(w1: World, j: Journal): (World, bool) {
    var (w2, first) := SetYaml(w1, j.next.yaml);
    if !first then Undo(w2, j)
    else
      var (w3, second) := SetHash(w2, j.next.hash);
      ReplaceTail(w3, second, j)
  }

  // Put and Remove from the journal on: write the journal, the two files, and remove
  // the journal.
  function Replace(w: World, j: Journal): (World, bool) {
    var (w1, journaled) := SetJournal(w, Some(j));
    if !journaled then (w1, false) else ReplaceBody(w1, j)
  }

  function Put(w: World, yaml: Bytes, hash: Bytes): (World, bool) {
    var (w1, before) := Snapshot(w);
    if before.None? then (w1, false)
    else Replace(w1, Journal(Forward, before.value, Pair(Some(yaml), Some(hash))))
  }

  function Remove(w: World): (World, bool) {
    var (w1, before) := Snapshot(w);
    if before.None? || before.value.yaml.None? then (w1, false)
    else Replace(w1, Journal(Forward, before.value, Pair(None, None)))
  }

  // restorePair: a rollback journal, the target, and the journal removed.
  function RestorePair(w: World, desired: Pair): (World, bool) {
    var (w1, current) := Snapshot(w);
    if current.None? then (w1, false)
    else
      var (w2, journaled) := SetJournal(w1, Some(Journal(Rollback, current.value, desired)));
      if !journaled then (w2, false) else Finish(Restore(w2, desired))
  }

  // Startup recovery of this workflow's journal.
  function Startup(w: World): (World, bool) {
    if w.disk.journal.None? then (w, true) else Recover(w, w.disk.journal.value, false)
  }

  /* ---- what a crash can leave ---- */

  // Each file is the old or the new one.
  predicate Mixed(d: Disk, j: Journal) {
    (d.yaml == j.was.yaml || d.yaml == j.next.yaml) && (d.hash == j.was.hash || d.hash == j.next.hash)
  }

  // A state from which the journal's operation is completed or undone: its journal is
  // there and the files are a mix, or no journal is and the files are one whole pair.
  predicate Recoverable(d: Disk, j: Journal) {
    || (d.journal == Some(j) && Mixed(d, j))
    || (d.journal == None && (d.Files() == j.next || (j.kind == Forward && d.Files() == j.was)))
  }

  predicate AllRecoverable(ds: seq<Disk>, j: Journal) { forall k :: 0 <= k < |ds| ==> Recoverable(ds[k], j) }

  // The states a step or an operation adds to the trace are recoverable.
  predicate Safe(w: World, r: World, j: Journal) {
    w.trace <= r.trace && AllRecoverable(r.trace[|w.trace|..], j) && (|r.trace| > |w.trace| ==> r.disk == r.trace[|r.trace| - 1])
    && (|r.trace| == |w.trace| ==> r.disk == w.disk)
  }

  lemma SafeThen(w: World, x: World, r: World, j: Journal)
    requires Safe(w, x, j) && Safe(x, r, j)
    ensures Safe(w, r, j)
  {
    hide Recoverable;
    var a, b := x.trace[|w.trace|..], r.trace[|x.trace|..];
    assert r.trace[|w.trace|..] == a + b;
  }

  lemma ActSafe(w: World, next: Disk, removal: bool, j: Journal)
    requires Recoverable(next, j) && Recoverable(w.disk, j)
    ensures Safe(w, Act(w, next, removal).0, j) && Recoverable(Act(w, next, removal).0.disk, j)
  {
    hide Recoverable;
    var r := Act(w, next, removal).0;
    assert r.trace[|w.trace|..] == [r.disk];
  }

  // Recovery, interrupted anywhere, leaves a state it can start from again.
  lemma RestoreSafe(w: World, p: Pair, j: Journal)
    requires w.disk.journal == Some(j) && Mixed(w.disk, j) && (p == j.was || p == j.next)
    ensures var r := Restore(w, p); Safe(w, r.0, j) && r.0.disk.journal == Some(j) && Mixed(r.0.disk, j)
    ensures Restore(w, p).1 ==> Restore(w, p).0.disk == Disk(p.yaml, p.hash, Some(j))
  {
    var (w1, ok) := SetYaml(w, p.yaml);
    ActSafe(w, w.disk.(yaml := p.yaml), p.yaml.None?, j);
    if ok {
      ActSafe(w1, w1.disk.(hash := p.hash), p.hash.None?, j);
      SafeThen(w, w1, Restore(w, p).0, j);
    }
  }

  lemma FinishSafe(w: World, p: Pair, j: Journal)
    requires w.disk.journal == Some(j) && Mixed(w.disk, j) && (p == j.next || (p == j.was && j.kind == Forward))
    ensures var r := Finish(Restore(w, p)); Safe(w, r.0, j) && Recoverable(r.0.disk, j)
    ensures Finish(Restore(w, p)).1 ==> Finish(Restore(w, p)).0.disk == Disk(p.yaml, p.hash, None)
  {
    RestoreSafe(w, p, j);
    var r := Restore(w, p);
    hide Restore;
    if r.1 {
      ActSafe(r.0, r.0.disk.(journal := None), true, j);
      SafeThen(w, r.0, Finish(r).0, j);
    }
  }

  predicate Whole(d: Disk, j: Journal, forceOld: bool) {
    && d.journal == None && (d.Files() == j.next || (j.kind == Forward && d.Files() == j.was))
    && (forceOld && j.kind == Forward ==> d.Files() == j.was)
  }

  lemma UnjournalSafe(w: World, j: Journal, forceOld: bool)
    requires w.disk.journal == Some(j) && (w.disk.Files() == j.next || (j.kind == Forward && w.disk.Files() == j.was))
    requires forceOld && j.kind == Forward ==> w.disk.Files() == j.was
    ensures var r := SetJournal(w, None); Safe(w, r.0, j) && Recoverable(r.0.disk, j) && (r.1 ==> Whole(r.0.disk, j, forceOld))
  {
    ActSafe(w, w.disk.(journal := None), true, j);
  }

  // A recovery that finishes leaves no journal and one whole pair: the requested
  // target of a rollback, the old or the new pair otherwise.
  lemma RecoverSafe(w: World, j: Journal, forceOld: bool)
    requires w.disk.journal == Some(j) && Mixed(w.disk, j)
    ensures var r := Recover(w, j, forceOld); Safe(w, r.0, j) && Recoverable(r.0.disk, j) && (r.1 ==> Whole(r.0.disk, j, forceOld))
  {
    hide Restore, Recoverable, Mixed, SetJournal, Finish;
    var w1 := Snapshot(w).0;
    assert w1.trace[|w.trace|..] == [];
    assert Recoverable(w.disk, j) by { StillRecoverable(w.disk, j); }
    if NextFate(w) == Done {
      if j.kind == Rollback {
        FinishSafe(w1, j.next, j);
        if w.disk.Files() == j.next { UnjournalSafe(w1, j, forceOld); }
      } else {
        FinishSafe(w1, j.was, j);
        if !forceOld && (w.disk.Files() == j.next || w.disk.Files() == j.was) { UnjournalSafe(w1, j, forceOld); }
      }
    }
  }

  lemma StillRecoverable(d: Disk, j: Journal)
    requires d.journal == Some(j) && Mixed(d, j)
    ensures Recoverable(d, j)
  {
  }

  // What one replacement may leave on the way: what was there before it, or a
  // recoverable state of it.
  predicate Reaches(d: Disk, start: Disk, j: Journal) { d == start || Recoverable(d, j) }

  predicate AllReach(ds: seq<Disk>, start: Disk, j: Journal) { forall k :: 0 <= k < |ds| ==> Reaches(ds[k], start, j) }

  predicate Steps(w: World, r: World, start: Disk, j: Journal) {
    w.trace <= r.trace && AllReach(r.trace[|w.trace|..], start, j)
  }

  lemma SafeSteps(w: World, x: World, r: World, start: Disk, j: Journal)
    requires Steps(w, x, start, j) && Safe(x, r, j)
    ensures Steps(w, r, start, j)
  {
    hide Recoverable;
    assert r.trace[|w.trace|..] == x.trace[|w.trace|..] + r.trace[|x.trace|..];
  }

  // The files of w move to j.next under journal j.
  predicate Begins(w: World, j: Journal) { w.disk.Files() == j.was && j.kind == Forward }

  // After the journal is written: both files, the journal, and undoing.
  lemma BodySafe(w: World, j: Journal)
    requires w.disk == Disk(j.was.yaml, j.was.hash, Some(j)) && j.kind == Forward
    ensures var r := ReplaceBody(w, j); Safe(w, r.0, j) && Recoverable(r.0.disk, j)
    ensures ReplaceBody(w, j).1 ==> ReplaceBody(w, j).0.disk == Disk(j.next.yaml, j.next.hash, None)
    ensures !ReplaceBody(w, j).1 ==> ReplaceBody(w, j).0.disk.journal == Some(j) || ReplaceBody(w, j).0.disk.Files() == j.was
  {
    var (w2, first) := SetYaml(w, j.next.yaml);
    ActSafe(w, w.disk.(yaml := j.next.yaml), j.next.yaml.None?, j);
    if !first {
      UndoSafe(w2, j);
      SafeThen(w, w2, Undo(w2, j).0, j);
    } else {
      var (w3, second) := SetHash(w2, j.next.hash);
      ActSafe(w2, w2.disk.(hash := j.next.hash), j.next.hash.None?, j);
      SafeThen(w, w2, w3, j);
      TailSafe(w, w3, second, j);
    }
  }

  lemma TailSafe(w: World, w3: World, second: bool, j: Journal)
    requires Safe(w, w3, j) && w3.disk.journal == Some(j) && Mixed(w3.disk, j) && j.kind == Forward
    requires second ==> w3.disk.Files() == j.next
    ensures var r := ReplaceTail(w3, second, j); Safe(w, r.0, j) && Recoverable(r.0.disk, j)
    ensures ReplaceTail(w3, second, j).1 ==> ReplaceTail(w3, second, j).0.disk == Disk(j.next.yaml, j.next.hash, None)
    ensures !ReplaceTail(w3, second, j).1 ==>
              ReplaceTail(w3, second, j).0.disk.journal == Some(j) || ReplaceTail(w3, second, j).0.disk.Files() == j.was
  {
    if !second {
      UndoSafe(w3, j);
      SafeThen(w, w3, Undo(w3, j).0, j);
    } else {
      var (w4, removed) := SetJournal(w3, None);
      ActSafe(w3, w3.disk.(journal := None), true, j);
      SafeThen(w, w3, w4, j);
      if !removed {
        UndoSafe(w4, j);
        SafeThen(w, w4, Undo(w4, j).0, j);
      }
    }
  }

  lemma UndoSafe(w: World, j: Journal)
    requires w.disk.journal == Some(j) && Mixed(w.disk, j) && j.kind == Forward
    ensures var r := Undo(w, j); Safe(w, r.0, j) && Recoverable(r.0.disk, j) && !r.1
    ensures Undo(w, j).0.disk.journal == Some(j) || Undo(w, j).0.disk.Files() == j.was
  {
    RecoverSafe(w, j, true);
    UndoEnds(w, j);
  }

  // A forced recovery ends with the old pair or with its journal in place.
  lemma UndoEnds(w: World, j: Journal)
    requires w.disk.journal == Some(j) && Mixed(w.disk, j) && j.kind == Forward
    ensures var d := Recover(w, j, true).0.disk; d.journal == Some(j) || d.Files() == j.was
  {
  }

  // Put and Remove leave the disk as it was or recoverable at every point; when they
  // succeed the new pair is there, and when they fail the old pair is, or the journal.
  lemma ReplaceSafe(w: World, j: Journal)
    requires Begins(w, j)
    ensures Steps(w, Replace(w, j).0, w.disk, j) && Reaches(Replace(w, j).0.disk, w.disk, j)
    ensures Replace(w, j).1 ==> Replace(w, j).0.disk == Disk(j.next.yaml, j.next.hash, None)
    ensures !Replace(w, j).1 ==> Replace(w, j).0.disk.journal == Some(j) || Replace(w, j).0.disk.Files() == j.was
  {
    var (w1, journaled) := SetJournal(w, Some(j));
    assert w1.trace[|w.trace|..] == [w1.disk];
    if journaled {
      BodySafe(w1, j);
      hide ReplaceBody, SetJournal, Recoverable;
      SafeSteps(w, w1, ReplaceBody(w1, j).0, w.disk, j);
    }
  }

  /* ---- crashes during recovery ---- */

  // One attempt at recovery: the outcomes of its steps, and after how many of them
  // the process dies (a number past the end means it did not die).
  datatype Attempt = Attempt(fates: seq<Fate>, dies: nat)

  function Tried(d: Disk, a: Attempt): Disk {
    var r := Startup(World(d, a.fates, [])).0;
    if a.dies == 0 then d else if a.dies <= |r.trace| then r.trace[a.dies - 1] else r.disk
  }

  function TriedAll(d: Disk, attempts: seq<Attempt>): Disk
    decreases |attempts|
  {
    if attempts == [] then d else Tried(TriedAll(d, attempts[..|attempts| - 1]), attempts[|attempts| - 1])
  }

  lemma TriedSafe(d: Disk, a: Attempt, j: Journal)
    requires Recoverable(d, j)
    ensures Recoverable(Tried(d, a), j)
  {
    var w := World(d, a.fates, []);
    if d.journal.Some? { RecoverSafe(w, j, false); }
    var r := Startup(w).0;
    hide Recoverable, Recover;
    assert r.trace[|w.trace|..] == r.trace;
  }

  // After a crash at any point of a replacement or a rollback, and any number of
  // further crashes during recovery, a recovery that finishes leaves no journal and
  // the complete old or the complete new pair; a rollback ends at its target.
  lemma {:induction false} RecoveryEnds(d: Disk, j: Journal, attempts: seq<Attempt>, fates: seq<Fate>)
    requires Recoverable(d, j)
    ensures Recoverable(TriedAll(d, attempts), j)
    ensures var r := Startup(World(TriedAll(d, attempts), fates, []));
            r.1 ==> r.0.disk.journal == None
                    && (r.0.disk.Files() == j.next || (j.kind == Forward && r.0.disk.Files() == j.was))
    decreases |attempts|
  {
    hide Startup, Tried;
    if attempts == [] {
    } else {
      RecoveryEnds(d, j, attempts[..|attempts| - 1], fates);
      TriedSafe(TriedAll(d, attempts[..|attempts| - 1]), attempts[|attempts| - 1], j);
    }
    StartupEnds(TriedAll(d, attempts), j, fates);
  }

  lemma StartupEnds(d: Disk, j: Journal, fates: seq<Fate>)
    requires Recoverable(d, j)
    ensures var r := Startup(World(d, fates, []));
            r.1 ==> r.0.disk.journal == None
                    && (r.0.disk.Files() == j.next || (j.kind == Forward && r.0.disk.Files() == j.was))
  {
    if d.journal.Some? { RecoverSafe(World(d, fates, []), j, false); }
    hide Recover;
  }

  /* ---- Put and Remove, whatever journal stands when they begin ---- */

  // Files under a standing journal are a mix of its two pairs. Every operation keeps
  // this at every moment: PutCrash, RemoveCrash and StandingKept.
  predicate Standing(d: Disk) { d.journal.Some? ==> Mixed(d, d.journal.value) }

  // The files are a pair the standing journal may end with.
  predicate WholeFor(files: Pair, j: Journal) { files == j.next || (j.kind == Forward && files == j.was) }

  predicate WholeAt(d: Disk) { d.journal.Some? ==> WholeFor(d.Files(), d.journal.value) }

  // The crash comes before step `at`, or the operation ends.
  function Moment(d: Disk, trace: seq<Disk>, at: nat): Disk
    requires at <= |trace|
  {
    if at == 0 then d else trace[at - 1]
  }

  // What a recovery leaves, after the crash and any crashed recoveries before it.
  function Survived(d: Disk, attempts: seq<Attempt>, fates: seq<Fate>): (World, bool) {
    Startup(World(TriedAll(d, attempts), fates, []))
  }

  // A state on the way of an operation begun on disk d, and where it may end.
  lemma AfterCrash(d: Disk, moment: Disk, j: Journal, attempts: seq<Attempt>, fates: seq<Fate>)
    requires Standing(d) && j.was == d.Files() && Reaches(moment, d, j)
    ensures Standing(moment)
    ensures var r := Survived(moment, attempts, fates);
            r.1 ==> r.0.disk.journal == None
                    && (WholeFor(r.0.disk.Files(), j) || (d.journal == None && r.0.disk.Files() == d.Files())
                        || (d.journal.Some? && WholeFor(r.0.disk.Files(), d.journal.value)))
  {
    hide Startup, TriedAll;
    if Recoverable(moment, j) {
      RecoveryEnds(moment, j, attempts, fates);
    } else if d.journal.Some? {
      RecoveryEnds(d, d.journal.value, attempts, fates);
    } else {
      RecoveryEnds(d, Journal(Forward, d.Files(), d.Files()), attempts, fates);
    }
  }

  function PutJournal(d: Disk, yaml: Bytes, hash: Bytes): Journal { Journal(Forward, d.Files(), Pair(Some(yaml), Some(hash))) }

  function RemoveJournal(d: Disk): Journal { Journal(Forward, d.Files(), Pair(None, None)) }

  // Every state on the way of a replacement is its start or recoverable.
  lemma ReplaceMoment(d: Disk, fates: seq<Fate>, j: Journal, at: nat)
    requires Begins(World(d, fates, []), j) && at <= |Replace(World(d, fates, []), j).0.trace|
    ensures Reaches(Moment(d, Replace(World(d, fates, []), j).0.trace, at), d, j)
  {
    var w := World(d, fates, []);
    ReplaceSafe(w, j);
    hide Replace, Recoverable;
    assert Replace(w, j).0.trace[|w.trace|..] == Replace(w, j).0.trace;
  }

  // A crash at any point of Put, whatever journal stood before it, then any recovery:
  // the files are the new pair, or what they were, or what that journal ends with.
  lemma PutCrash(d: Disk, fates: seq<Fate>, yaml: Bytes, hash: Bytes, at: nat, attempts: seq<Attempt>, last: seq<Fate>)
    requires Standing(d) && at <= |Put(World(d, fates, []), yaml, hash).0.trace|
    ensures var m := Moment(d, Put(World(d, fates, []), yaml, hash).0.trace, at);
            var r := Survived(m, attempts, last);
            && Standing(m)
            && (r.1 ==> r.0.disk.journal == None
                        && (r.0.disk.Files() == Pair(Some(yaml), Some(hash)) || r.0.disk.Files() == d.Files()
                            || (d.journal.Some? && WholeFor(r.0.disk.Files(), d.journal.value))))
  {
    var w, j := World(d, fates, []), PutJournal(d, yaml, hash);
    var w1 := Snapshot(w).0;
    if NextFate(w) == Done { ReplaceMoment(d, w1.fates, j, at); }
    hide Replace, Survived, Standing, WholeFor;
    AfterCrash(d, Moment(d, Put(w, yaml, hash).0.trace, at), j, attempts, last);
    WholeOf(Survived(Moment(d, Put(w, yaml, hash).0.trace, at), attempts, last).0.disk.Files(), j);
  }

  lemma WholeOf(files: Pair, j: Journal)
    ensures WholeFor(files, j) ==> files == j.next || files == j.was
  {
  }

  lemma RemoveCrash(d: Disk, fates: seq<Fate>, at: nat, attempts: seq<Attempt>, last: seq<Fate>)
    requires Standing(d) && at <= |Remove(World(d, fates, [])).0.trace|
    ensures var m := Moment(d, Remove(World(d, fates, [])).0.trace, at);
            var r := Survived(m, attempts, last);
            && Standing(m)
            && (r.1 ==> r.0.disk.journal == None
                        && (r.0.disk.Files() == Pair(None, None) || r.0.disk.Files() == d.Files()
                            || (d.journal.Some? && WholeFor(r.0.disk.Files(), d.journal.value))))
  {
    var w, j := World(d, fates, []), RemoveJournal(d);
    var w1 := Snapshot(w).0;
    if NextFate(w) == Done && d.yaml.Some? { ReplaceMoment(d, w1.fates, j, at); }
    hide Replace, Survived, Standing, WholeFor;
    AfterCrash(d, Moment(d, Remove(w).0.trace, at), j, attempts, last);
    WholeOf(Survived(Moment(d, Remove(w).0.trace, at), attempts, last).0.disk.Files(), j);
  }

  lemma StandingKept(d: Disk, fates: seq<Fate>, desired: Pair, at: nat, attempt: Attempt)
    requires Standing(d) && at <= |RestorePair(World(d, fates, []), desired).0.trace|
    ensures Standing(Moment(d, RestorePair(World(d, fates, []), desired).0.trace, at)) && Standing(Tried(d, attempt))
  {
    var w, j := World(d, fates, []), Journal(Rollback, d.Files(), desired);
    RestorePairSafe(w, desired);
    if d.journal.Some? { TriedSafe(d, attempt, d.journal.value); }
    hide RestorePair, Recover;
    assert RestorePair(w, desired).0.trace[|w.trace|..] == RestorePair(w, desired).0.trace;
    assert Reaches(Moment(d, RestorePair(w, desired).0.trace, at), d, j);
  }

  // Where an operation begun on disk d may end: with its own pair, or with a whole one.
  predicate Lands(files: Pair, d: Disk, next: Pair) {
    files == next || (if d.journal.Some? then WholeFor(files, d.journal.value) else files == d.Files())
  }

  // Whatever the outcomes and the crashes, a Put begun on d ends with a whole pair.
  ghost predicate PutLands(d: Disk, yaml: Bytes, hash: Bytes) {
    forall fates, at: nat, attempts, last :: at <= |Put(World(d, fates, []), yaml, hash).0.trace| ==>
      var r := Survived(Moment(d, Put(World(d, fates, []), yaml, hash).0.trace, at), attempts, last);
      r.1 ==> Lands(r.0.disk.Files(), d, Pair(Some(yaml), Some(hash)))
  }

  ghost predicate RemoveLands(d: Disk) {
    forall fates, at: nat, attempts, last :: at <= |Remove(World(d, fates, [])).0.trace| ==>
      var r := Survived(Moment(d, Remove(World(d, fates, [])).0.trace, at), attempts, last);
      r.1 ==> Lands(r.0.disk.Files(), d, Pair(None, None))
  }

  // The yaml write fails and the operation puts back what it found.
  const HALFWAY := [Done, Done, Lost]

  lemma ForgetsReplace(d: Disk, j: Journal)
    requires j.kind == Forward && j.was == d.Files()
    ensures Replace(World(d, [Done, Lost], []), j).0.disk == Disk(d.yaml, d.hash, None)
    ensures |Replace(World(d, [Done, Lost], []), j).0.trace| > 0
    ensures var t := Replace(World(d, [Done, Lost], []), j).0; t.trace[|t.trace| - 1] == t.disk
  {
    assert [Done, Lost][1..] == [Lost] && [Lost][1..] == [];
  }

  lemma NothingLeft(d: Disk)
    requires d.journal == None
    ensures Survived(d, [], []) == (World(d, [], []), true)
  {
  }

  // A Put whose start files are a mix of a standing journal's pairs can end with that
  // mix and no journal.
  lemma PutForgets(d: Disk, yaml: Bytes, hash: Bytes)
    requires !Lands(d.Files(), d, Pair(Some(yaml), Some(hash)))
    ensures !PutLands(d, yaml, hash)
  {
    var w, j := World(d, HALFWAY, []), PutJournal(d, yaml, hash);
    assert HALFWAY[1..] == [Done, Lost];
    ForgetsReplace(d, j);
    var t := Put(w, yaml, hash).0.trace;
    hide Replace, Survived, Lands;
    NothingLeft(Moment(d, t, |t|));
  }

  lemma RemoveForgets(d: Disk)
    requires d.yaml.Some? && !Lands(d.Files(), d, Pair(None, None))
    ensures !RemoveLands(d)
  {
    var w, j := World(d, HALFWAY, []), RemoveJournal(d);
    assert HALFWAY[1..] == [Done, Lost];
    ForgetsReplace(d, j);
    var t := Remove(w).0.trace;
    hide Replace, Survived, Lands;
    NothingLeft(Moment(d, t, |t|));
  }

  // The exact condition: for all outcomes and crashes a Put ends with a whole pair, if
  // and only if the files it found were one, or were the new pair already.
  lemma PutLandsIff(d: Disk, yaml: Bytes, hash: Bytes)
    requires Standing(d)
    ensures PutLands(d, yaml, hash) <==> WholeAt(d) || d.Files() == Pair(Some(yaml), Some(hash))
  {
    if WholeAt(d) || d.Files() == Pair(Some(yaml), Some(hash)) {
      hide Put, Survived, Standing;
      forall fates, at: nat, attempts, last | at <= |Put(World(d, fates, []), yaml, hash).0.trace|
        ensures var r := Survived(Moment(d, Put(World(d, fates, []), yaml, hash).0.trace, at), attempts, last);
                r.1 ==> Lands(r.0.disk.Files(), d, Pair(Some(yaml), Some(hash)))
      {
        PutCrash(d, fates, yaml, hash, at, attempts, last);
      }
    } else {
      PutForgets(d, yaml, hash);
    }
  }

  // The same for Remove, which does nothing where there is no definition.
  lemma RemoveLandsIff(d: Disk)
    requires Standing(d)
    ensures RemoveLands(d) <==> WholeAt(d) || d.yaml.None?
  {
    if WholeAt(d) || d.yaml.None? {
      if d.yaml.None? { RemoveNothing(d); }
      hide Remove, Survived, Standing;
      forall fates, at: nat, attempts, last | at <= |Remove(World(d, fates, [])).0.trace|
        ensures var r := Survived(Moment(d, Remove(World(d, fates, [])).0.trace, at), attempts, last);
                r.1 ==> Lands(r.0.disk.Files(), d, Pair(None, None))
      {
        if WholeAt(d) { RemoveCrash(d, fates, at, attempts, last); } else { UntouchedLands(d, Pair(None, None), attempts, last); }
      }
    } else {
      RemoveForgets(d);
    }
  }

  lemma RemoveNothing(d: Disk)
    requires d.yaml.None?
    ensures forall fates :: Remove(World(d, fates, [])).0.trace == []
  {
  }

  lemma UntouchedLands(d: Disk, next: Pair, attempts: seq<Attempt>, last: seq<Fate>)
    requires Standing(d) && d.journal.Some?
    ensures var r := Survived(d, attempts, last); r.1 ==> Lands(r.0.disk.Files(), d, next)
  {
    hide Startup, TriedAll;
    RecoveryEnds(d, d.journal.value, attempts, last);
  }

  lemma RestorePairSafe(w: World, desired: Pair)
    ensures var r, j := RestorePair(w, desired).0, Journal(Rollback, w.disk.Files(), desired);
            Steps(w, r, w.disk, j) && Reaches(r.disk, w.disk, j)
    ensures RestorePair(w, desired).1 ==> RestorePair(w, desired).0.disk == Disk(desired.yaml, desired.hash, None)
  {
    var j := Journal(Rollback, w.disk.Files(), desired);
    var w1 := Snapshot(w).0;
    assert w1.trace[|w.trace|..] == [];
    if NextFate(w) == Done {
      var (w2, journaled) := SetJournal(w1, Some(j));
      assert w2.trace[|w1.trace|..] == [w2.disk];
      if journaled {
        FinishSafe(w2, desired, j);
        hide Finish, Restore, SetJournal, Recoverable;
        SafeSteps(w1, w2, Finish(Restore(w2, desired)).0, w.disk, j);
      }
    }
  }

  // A rollback whose journal reached the disk ends at its target, whatever crashes.
  lemma RollbackEnds(w: World, desired: Pair, at: nat, attempts: seq<Attempt>, fates: seq<Fate>)
    requires w.trace == [] && at < |RestorePair(w, desired).0.trace| && RestorePair(w, desired).0.trace[at] != w.disk
    ensures var r := Startup(World(TriedAll(RestorePair(w, desired).0.trace[at], attempts), fates, []));
            r.1 ==> r.0.disk.journal == None && r.0.disk.Files() == desired
  {
    var j := Journal(Rollback, w.disk.Files(), desired);
    RestorePairSafe(w, desired);
    hide RestorePair, Startup, TriedAll;
    assert RestorePair(w, desired).0.trace[|w.trace|..] == RestorePair(w, desired).0.trace;
    RecoveryEnds(RestorePair(w, desired).0.trace[at], j, attempts, fates);
  }

  /* ---- when an operation succeeds ---- */

  // The next n operations on files succeed.
  predicate Smooth(fates: seq<Fate>, n: nat) { forall i :: 0 <= i < n && i < |fates| ==> fates[i] == Done }

  lemma SmoothNext(w: World, n: nat)
    requires n > 0
    ensures Smooth(w.fates, n) <==> NextFate(w) == Done && Smooth(Rest(w), n - 1)
  {
    if w.fates != [] && NextFate(w) == Done && Smooth(Rest(w), n - 1) {
      forall i | 0 <= i < n && i < |w.fates|
        ensures w.fates[i] == Done
      {
        if i > 0 { assert w.fates[i] == Rest(w)[i - 1]; }
      }
    }
  }

  lemma ReplaceSucceeds(w: World, j: Journal, n: nat)
    ensures Replace(w, j).1 <==> Smooth(w.fates, 4)
    ensures Replace(w, j).1 ==> (Smooth(w.fates, 4 + n) <==> Smooth(Replace(w, j).0.fates, n))
  {
    var w1 := SetJournal(w, Some(j)).0;
    var w2 := SetYaml(w1, j.next.yaml).0;
    var w3 := SetHash(w2, j.next.hash).0;
    var w4 := SetJournal(w3, None).0;
    SmoothNone(w4.fates);
    hide Recover, Smooth;
    SmoothFour(w, w1, w2, w3, w4, 0);
    SmoothFour(w, w1, w2, w3, w4, n);
  }

  lemma SmoothFour(w: World, w1: World, w2: World, w3: World, w4: World, n: nat)
    requires w1.fates == Rest(w) && w2.fates == Rest(w1) && w3.fates == Rest(w2) && w4.fates == Rest(w3)
    ensures Smooth(w.fates, 4 + n) <==> NextFate(w) == Done && NextFate(w1) == Done && NextFate(w2) == Done && NextFate(w3) == Done && Smooth(w4.fates, n)
  {
    hide Smooth;
    SmoothNext(w, 4 + n);
    SmoothNext(w1, 3 + n);
    SmoothNext(w2, 2 + n);
    SmoothNext(w3, 1 + n);
  }

  lemma SmoothLess(fates: seq<Fate>, n: nat, m: nat)
    requires Smooth(fates, m) && n <= m
    ensures Smooth(fates, n)
  {
  }

  lemma SmoothNone(fates: seq<Fate>)
    ensures Smooth(fates, 0)
  {
  }

  // Put succeeds exactly if its five steps on files do: reading them, the journal, the
  // two files and the removal of the journal. n more steps follow.
  lemma PutSucceeds(w: World, yaml: Bytes, hash: Bytes, n: nat)
    ensures Put(w, yaml, hash).1 <==> Smooth(w.fates, 5)
    ensures Put(w, yaml, hash).1 ==> (Smooth(w.fates, 5 + n) <==> Smooth(Put(w, yaml, hash).0.fates, n))
  {
    SmoothNext(w, 5);
    SmoothNext(w, 5 + n);
    ReplaceSucceeds(Snapshot(w).0, Journal(Forward, w.disk.Files(), Pair(Some(yaml), Some(hash))), n);
    hide Replace, Smooth;
  }

  // Remove, where there is a definition.
  lemma RemoveSucceeds(w: World, n: nat)
    ensures Remove(w).1 <==> w.disk.yaml.Some? && Smooth(w.fates, 5)
    ensures Remove(w).1 ==> (Smooth(w.fates, 5 + n) <==> Smooth(Remove(w).0.fates, n))
  {
    SmoothNext(w, 5);
    SmoothNext(w, 5 + n);
    ReplaceSucceeds(Snapshot(w).0, Journal(Forward, w.disk.Files(), Pair(None, None)), n);
    hide Replace, Smooth;
  }

  // A rollback likewise.
  lemma RestorePairSucceeds(w: World, desired: Pair)
    ensures RestorePair(w, desired).1 <==> Smooth(w.fates, 5)
  {
    var w1 := Snapshot(w).0;
    var w2 := SetJournal(w1, Some(Journal(Rollback, w.disk.Files(), desired))).0;
    var w3 := SetYaml(w2, desired.yaml).0;
    var w4 := SetHash(w3, desired.hash).0;
    SmoothNext(w, 5);
    SmoothNext(w1, 4);
    SmoothNext(w2, 3);
    SmoothNext(w3, 2);
    SmoothNext(w4, 1);
  }

  // Recovery: reading the files, the files themselves unless they stay as they are, and
  // the removal of the journal.
  lemma StartupSucceeds(w: World)
    requires w.disk.journal.Some?
    ensures var j, files := w.disk.journal.value, w.disk.Files();
            Startup(w).1 <==> Smooth(w.fates, if files == j.next || (j.kind == Forward && files == j.was) then 2 else 4)
  {
    var j := w.disk.journal.value;
    var p := if j.kind == Rollback then j.next else j.was;
    var w1 := Snapshot(w).0;
    var w2 := SetYaml(w1, p.yaml).0;
    var w3 := SetHash(w2, p.hash).0;
    SmoothNext(w, 2);
    SmoothNext(w, 4);
    SmoothNext(w1, 1);
    SmoothNext(w1, 3);
    SmoothNext(w2, 2);
    SmoothNext(w3, 1);
    hide Smooth;
    SmoothNone(Rest(w1));
    SmoothNone(Rest(w3));
  }

  /* ---- a rollback that another operation forgets ---- */

  // restorePair stops after the first file, with its journal in place; a Put in the
  // same process replaces that journal, fails, and undoes itself. What is left has no
  // journal and is neither the candidate, nor the rollback target, nor the new pair.
  lemma ForgottenTarget(candidate: Pair, target: Pair, yaml: Bytes, hash: Bytes)
    requires candidate.yaml != target.yaml && candidate.hash != target.hash
    ensures var w := World(Disk(candidate.yaml, candidate.hash, None), [Done, Done, Done, Lost, Done, Done, Lost], []);
            var (w1, restored) := RestorePair(w, target);
            var (w2, stored) := Put(w1, yaml, hash);
            && !restored && w1.disk.journal == Some(Journal(Rollback, candidate, target))
            && !stored && w2.disk == Disk(target.yaml, candidate.hash, None)
            && w2.disk.Files() != candidate && w2.disk.Files() != target
  {
    var start := World(Disk(candidate.yaml, candidate.hash, None), [Done, Done, Done, Lost, Done, Done, Lost], []);
    ForgottenRestore(candidate, target, start);
    var w1 := RestorePair(start, target).0;
    hide RestorePair;
    var j := Journal(Forward, Pair(target.yaml, candidate.hash), Pair(Some(yaml), Some(hash)));
    assert w1.fates[1..] == [Done, Lost] && w1.fates[1..][1..] == [Lost] && [Lost][1..] == [];
    var x := World(w1.disk.(journal := Some(j)), [Lost], w1.trace + [w1.disk.(journal := Some(j))]);
    ForgottenUndo(x, j);
  }

  lemma ForgottenRestore(candidate: Pair, target: Pair, w: World)
    requires w.disk == Disk(candidate.yaml, candidate.hash, None) && w.fates == [Done, Done, Done, Lost, Done, Done, Lost]
    ensures var (w1, ok) := RestorePair(w, target);
            !ok && w1.disk == Disk(target.yaml, candidate.hash, Some(Journal(Rollback, candidate, target)))
            && w1.fates == [Done, Done, Lost]
  {
    var f := w.fates;
    assert f[1..] == [Done, Done, Lost, Done, Done, Lost] && f[1..][1..] == [Done, Lost, Done, Done, Lost];
    assert f[1..][1..][1..] == [Lost, Done, Done, Lost] && f[1..][1..][1..][1..] == [Done, Done, Lost];
  }

  lemma ForgottenUndo(x: World, j: Journal)
    requires x.disk == Disk(j.was.yaml, j.was.hash, Some(j)) && j.kind == Forward && x.fates == [Lost]
    ensures var (r, ok) := ReplaceBody(x, j); !ok && r.disk == Disk(j.was.yaml, j.was.hash, None)
  {
    assert [Lost][1..] == [];
  }

  /* ---- the program ---- */

  // One workflow's files, changed in place. `fates` is what the operating system will
  // answer; `Now()` is what the functions above speak about.
  class Directory {
    var disk: Disk
    var fates: seq<Fate>
    ghost var trace: seq<Disk>

    ghost function Now(): World
      reads this
    {
      World(disk, fates, trace)
    }

    constructor (disk: Disk, fates: seq<Fate>)
      ensures Now() == World(disk, fates, [])
    {
      this.disk := disk;
      this.fates := fates;
      this.trace := [];
    }

    // config.WriteAtomic, or os.Remove when `next` lacks the file.
    method Change(next: Disk, removal: bool) returns (ok: bool)
      modifies this
      ensures (Now(), ok) == Act(old(Now()), next, removal)
    {
      var f := if fates == [] then Done else fates[0];
      fates := if fates == [] then [] else fates[1..];
      if f == Done || (f == Late && !removal) {
        disk := next;
      }
      trace := trace + [disk];
      return f == Done;
    }

    method ReadFiles() returns (pair: Option<Pair>)
      modifies this`fates
      ensures (Now(), pair) == Snapshot(old(Now()))
    {
      var f := if fates == [] then Done else fates[0];
      fates := if fates == [] then [] else fates[1..];
      return if f == Done then Some(disk.Files()) else None;
    }

    method RestoreFiles(pair: Pair) returns (ok: bool)
      modifies this
      ensures (Now(), ok) == Restore(old(Now()), pair)
    {
      ok := Change(disk.(yaml := pair.yaml), pair.yaml.None?);
      if !ok {
        return false;
      }
      ok := Change(disk.(hash := pair.hash), pair.hash.None?);
    }

    method RecoverTransaction(j: Journal, forceOld: bool) returns (ok: bool)
      modifies this
      ensures (Now(), ok) == Recover(old(Now()), j, forceOld)
    {
      var current := ReadFiles();
      if current.None? {
        return false;
      }
      if j.kind == Rollback {
        if current.value != j.next {
          ok := RestoreFiles(j.next);
          if !ok {
            return false;
          }
        }
        ok := Change(disk.(journal := None), true);
        return ok;
      }
      if forceOld || (current.value != j.next && current.value != j.was) {
        ok := RestoreFiles(j.was);
        if !ok {
          return false;
        }
      }
      ok := Change(disk.(journal := None), true);
    }

    // Put and Remove once the two files are known.
    method ReplaceFiles(j: Journal) returns (ok: bool)
      modifies this
      ensures (Now(), ok) == Replace(old(Now()), j)
    {
      hide Recover;
      ok := Change(disk.(journal := Some(j)), false);
      if !ok {
        return false;
      }
      ok := Change(disk.(yaml := j.next.yaml), j.next.yaml.None?);
      if ok {
        ok := Change(disk.(hash := j.next.hash), j.next.hash.None?);
        if ok {
          ok := Change(disk.(journal := None), true);
        }
      }
      if !ok {
        var undone := RecoverTransaction(j, true);
        return false;
      }
    }

    method PutDefinition(yaml: Bytes, hash: Bytes) returns (ok: bool)
      modifies this
      ensures (Now(), ok) == Put(old(Now()), yaml, hash)
    {
      var before := ReadFiles();
      if before.None? {
        return false;
      }
      ok := ReplaceFiles(Journal(Forward, before.value, Pair(Some(yaml), Some(hash))));
    }

    method RemoveDefinition() returns (ok: bool)
      modifies this
      ensures (Now(), ok) == Remove(old(Now()))
    {
      var before := ReadFiles();
      if before.None? || before.value.yaml.None? {
        return false;
      }
      ok := ReplaceFiles(Journal(Forward, before.value, Pair(None, None)));
    }

    method RestoreDefinition(desired: Pair) returns (ok: bool)
      modifies this
      ensures (Now(), ok) == RestorePair(old(Now()), desired)
    {
      var current := ReadFiles();
      if current.None? {
        return false;
      }
      ok := Change(disk.(journal := Some(Journal(Rollback, current.value, desired))), false);
      if !ok {
        return false;
      }
      ok := RestoreFiles(desired);
      if !ok {
        return false;
      }
      ok := Change(disk.(journal := None), true);
    }

    // recoverTransactions, for this workflow.
    method RecoverAtStartup() returns (ok: bool)
      modifies this
      ensures (Now(), ok) == Startup(old(Now()))
    {
      if disk.journal.None? {
        return true;
      }
      ok := RecoverTransaction(disk.journal.value, false);
    }
  }
}
