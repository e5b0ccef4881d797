/** First-run publication of cmd/relay-flow/onboarding.go: configuration, database and
    optional credentials appear together, under a marker file. */
module Onboarding {
  import opened Base

  type Bytes = string

  datatype Database = Absent | Partial | Ready

  // `marker` holds whether credentials belong to the publication; `wal` and `shm` are
  // the database's side files.
  datatype Disk = Disk(config: Option<Bytes>, credentials: Option<Bytes>, database: Database, wal: bool, shm: bool, marker: Option<bool>)

  // What is being published.
  datatype Staged = Staged(config: Bytes, credentials: Option<Bytes>)

  predicate Empty(d: Disk) { d.config == None && d.credentials == None && d.database == Absent && !d.wal && !d.shm }

  predicate Complete(d: Disk, s: Staged) {
    d.config == Some(s.config) && d.credentials == s.credentials && d.database == Ready
  }

  // All three files are as staged.
  predicate Published(d: Disk, s: Staged) { (d.config, d.credentials, d.database) == (Some(s.config), s.credentials, Ready) }

  // Under the marker any part may be missing, but the database is ready whenever the
  // configuration or the credentials are there.
  predicate Pending(d: Disk, s: Staged) {
    && d.marker == Some(s.credentials.Some?)
    && (d.config == None || d.config == Some(s.config))
    && (d.credentials == None || d.credentials == s.credentials)
    && (d.config.Some? || d.credentials.Some? ==> d.database == Ready)
  }

  // What a crash at any moment may leave, where `before` was there.
  predicate Safe(d: Disk, s: Staged, before: Disk) {
    Pending(d, s) || (d.marker == None && (d == before || Empty(d) || Complete(d, s)))
  }

  predicate AllSafe(ds: seq<Disk>, s: Staged, before: Disk) { forall k :: 0 <= k < |ds| ==> Safe(ds[k], s, before) }

  class Home {
    const staged: Staged
    // What stood in the directory before, without a marker.
    const before: Disk
    var disk: Disk
    // Every state of the disk since the last crash.
    var trace: seq<Disk>
    // How many operations on files have failed.
    ghost var failures: nat

    ghost predicate Valid()
      reads this
    {
      trace != [] && trace[|trace| - 1] == disk && AllSafe(trace, staged, before) && before.marker == None
    }

    constructor (staged: Staged, before: Disk)
      requires before.marker == None
      ensures Valid() && this.staged == staged && this.before == before && disk == before
    {
      this.staged, this.before := staged, before;
      disk := before;
      failures := 0;
      trace := [before];
    }

    // Removing the marker is the last step; it is reported once the directory is synced.
    method Unmark() returns (ok: bool)
      requires Valid() && Safe(disk.(marker := None), staged, before)
      modifies this
      ensures Valid() && old(trace) <= trace && disk.(marker := None) == old(disk).(marker := None)
      ensures ok ==> disk.marker == None
      ensures failures >= old(failures) && (!ok ==> failures > old(failures))
    {
      ok := Change(disk.(marker := None), true);
      if ok {
        ok := *;
        failures := failures + if ok then 0 else 1;
      }
    }

    // One file operation: a write may fail before or after its effect, a remove only
    // before it.
    method Change(next: Disk, removal: bool) returns (ok: bool)
      requires Valid() && Safe(next, staged, before)
      modifies this
      ensures Valid() && old(trace) <= trace
      ensures disk == next || (!ok && disk == old(disk))
      ensures ok ==> disk == next
      ensures removal && !ok ==> disk == old(disk)
      ensures failures == old(failures) + if ok then 0 else 1
    {
      var effect: bool := *;
      ok := *;
      ok := ok && effect;
      if effect && (ok || !removal) {
        disk := next;
      }
      trace := trace + [disk];
      failures := failures + if ok then 0 else 1;
    }

    // removeFirstRunArtifacts: the marker goes last.
    method RemoveArtifacts() returns (ok: bool)
      requires Valid() && Pending(disk, staged)
      modifies this
      ensures Valid() && old(trace) <= trace
      ensures ok ==> disk == Disk(None, None, Absent, false, false, None)
      ensures failures >= old(failures) && (!ok ==> failures > old(failures))
    {
      ok := Change(disk.(config := None), true);
      if !ok {
        return;
      }
      ok := Change(disk.(credentials := None), true);
      if !ok {
        return;
      }
      ok := Change(disk.(database := Absent), true);
      if !ok {
        return;
      }
      ok := Change(disk.(wal := false), true);
      if !ok {
        return;
      }
      ok := Change(disk.(shm := false), true);
      if !ok {
        return;
      }
      var synced: bool := *;
      if !synced {
        failures := failures + 1;
        return false;
      }
      ok := Unmark();
    }

    // The two visible steps of creating the database.
    method InitDatabase() returns (ok: bool)
      requires Valid() && Pending(disk, staged) && disk.config == None && disk.credentials == None
      modifies this
      ensures Valid() && old(trace) <= trace && Pending(disk, staged) && disk.config == None && disk.credentials == None
      ensures ok ==> disk.database == Ready
      ensures failures >= old(failures) && (!ok ==> failures > old(failures))
    {
      var wal, shm: bool := *, *;
      ok := Change(disk.(database := Partial, wal := wal, shm := shm), false);
      if ok {
        wal, shm := *, *;
        ok := Change(disk.(database := Ready, wal := wal, shm := shm), false);
      }
    }

    // commitFirstRun from the checks for existing artifacts on. `published` says that
    // every artifact is in place.
    method Commit() returns (ok: bool, published: bool)
      requires Valid() && disk == before
      modifies this
      ensures Valid() && old(trace) <= trace
      ensures ok ==> published && disk.marker == None
      ensures published ==> disk.config == Some(staged.config) && disk.credentials == staged.credentials && disk.database == Ready
      ensures before.config.Some? || before.credentials.Some? || before.database != Absent ==> !ok && trace == old(trace)
      ensures before.config.None? && before.credentials.None? && before.database == Absent && !ok ==> failures > old(failures)
    {
      published := false;
      if disk.config.Some? || disk.database != Absent || disk.credentials.Some? {
        return false, false;
      }
      ok := Change(disk.(marker := Some(staged.credentials.Some?)), false);
      if !ok {
        return;
      }
      ok := InitDatabase();
      if ok {
        ok := Change(disk.(config := Some(staged.config)), false);
        if ok && staged.credentials.Some? {
          ok := Change(disk.(credentials := staged.credentials), false);
        }
      }
      if !ok {
        var cleaned := RemoveArtifacts();
        return false, false;
      }
      published := true;
      ok := Unmark();
    }

    // recoverFirstRunPublication: finish a complete publication, remove any other.
    method Recover() returns (ok: bool)
      requires Valid()
      modifies this
      ensures Valid() && old(trace) <= trace
      ensures ok ==> disk.marker == None && (disk == Disk(None, None, Absent, false, false, None) || Published(disk, staged) || disk == before)
      ensures ok && Published(old(disk), staged) ==> Published(disk, staged)
      ensures !ok ==> failures > old(failures)
    {
      if disk.marker.None? {
        return true;
      }
      var readable: bool := *;
      if !readable {
        failures := failures + 1;
        return false;
      }
      var complete := disk.config.Some? && disk.database != Absent && (disk.marker.value ==> disk.credentials.Some?);
      if complete {
        ok := Unmark();
      } else {
        ok := RemoveArtifacts();
      }
    }

    // The process dies: the disk is as it was at some moment since the last crash.
    method Die(at: nat)
      requires Valid() && at < |trace|
      modifies this
      ensures Valid() && disk == old(trace[at]) && trace == [disk]
    {
      disk := trace[at];
      trace := [disk];
    }

    // A first run that dies at any moment, and recoveries that die too: when one
    // finishes, everything is published, or nothing is there, or what was there before,
    // and no marker.
    method Survive(crashes: nat) returns (ok: bool)
      requires Valid() && disk == before
      modifies this
      ensures Valid()
      ensures ok ==> disk.marker == None && (disk == Disk(None, None, Absent, false, false, None) || Published(disk, staged) || disk == before)
    {
      var committed, published := Commit();
      var at :| 0 <= at < |trace|;
      Die(at);
      for k := 0 to crashes
        invariant Valid()
      {
        ok := Recover();
        var again :| 0 <= again < |trace|;
        Die(again);
      }
      ok := Recover();
    }
  }
}
