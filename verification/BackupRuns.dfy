/** That a backup, as the code takes it, is a run of the snapshot rotation's file operations. */
module BackupRuns {
  import opened Prelude
  import opened Calendar
  import opened Strings
  import opened SnapshotNames
  import opened Backup

  lemma {:induction false} RunAppend(d: Disk, a: seq<Event>, b: seq<Event>, keep: nat)
    requires IsRun(d, a, keep) && IsRun(AfterAll(d, a, keep), b, keep)
    ensures IsRun(d, a + b, keep) && AfterAll(d, a + b, keep) == AfterAll(AfterAll(d, a, keep), b, keep)
    decreases |a|
  {
    if a == [] {
      assert a + b == b;
    } else {
      assert (a + b)[0] == a[0] && (a + b)[1..] == a[1..] + b;
      RunAppend(Happen(d, a[0], keep), a[1..], b, keep);
    }
  }

  lemma {:induction false} PrefixIsRun(d: Disk, events: seq<Event>, k: nat, keep: nat)
    requires IsRun(d, events, keep) && k <= |events|
    ensures IsRun(d, events[..k], keep)
    decreases k
  {
    if k > 0 {
      assert events[..k][1..] == events[1..][..k - 1];
      PrefixIsRun(Happen(d, events[0], keep), events[1..], k - 1, keep);
    }
  }

  lemma {:induction false} OneEvent(d: Disk, event: Event, keep: nat)
    requires CanHappen(d, event)
    ensures IsRun(d, [event], keep) && AfterAll(d, [event], keep) == Happen(d, event, keep)
  {
    assert [event][1..] == [];
    assert IsRun(Happen(d, event, keep), [], keep);
  }

  lemma {:induction false} FirstEvent(d: Disk, event: Event, rest: seq<Event>, keep: nat)
    requires CanHappen(d, event) && IsRun(Happen(d, event, keep), rest, keep)
    ensures IsRun(d, [event] + rest, keep)
    ensures AfterAll(d, [event] + rest, keep) == AfterAll(Happen(d, event, keep), rest, keep)
  {
    OneEvent(d, event, keep);
    RunAppend(d, [event], rest, keep);
  }

  predicate NoBegins(events: seq<Event>) {
    forall k :: 0 <= k < |events| ==> !events[k].Begin?
  }

  // The prune

  function Without(files: Files, names: seq<string>): Files {
    map name | name in files && name !in names :: files[name]
  }

  /** The old snapshots go one by one. */
  lemma {:induction false} DeletesRun(d: Disk, keep: nat) returns (path: seq<Event>)
    requires d.pc.Pruning?
    ensures IsRun(d, path, keep) && NoBegins(path)
    ensures AfterAll(d, path, keep) == d.(files := Without(d.files, d.pc.todo), pc := Pruning([]))
    decreases |d.pc.todo|
  {
    path := [];
    if d.pc.todo == [] {
      assert Without(d.files, []) == d.files;
    } else {
      var todo, after := d.pc.todo, Happen(d, Delete, keep);
      var rest := DeletesRun(after, keep);
      FirstEvent(d, Delete, rest, keep);
      path := [Delete] + rest;
      assert todo == [todo[0]] + todo[1..];
      assert Without(after.files, todo[1..]) == Without(d.files, todo);
    }
  }

  /** Then the leftovers, in any order. */
  lemma {:induction false} LeftoversRun(d: Disk, left: set<string>, keep: nat) returns (path: seq<Event>)
    requires d.pc == Pruning([]) && forall name :: name in left ==> name in d.files && IsLeftover(name)
    ensures IsRun(d, path, keep) && NoBegins(path)
    ensures AfterAll(d, path, keep) == d.(files := d.files - left)
    decreases |left|
  {
    path := [];
    if left == {} {
      assert d.files - left == d.files;
    } else {
      var name :| name in left;
      var after := Happen(d, SweepLeftover(name), keep);
      var rest := LeftoversRun(after, left - {name}, keep);
      FirstEvent(d, SweepLeftover(name), rest, keep);
      path := [SweepLeftover(name)] + rest;
      assert after.files - (left - {name}) == d.files - left;
    }
  }

  ghost function Leftovers(files: Files): set<string> {
    set name | name in files && IsLeftover(name)
  }

  lemma {:induction false} TidiesUp(d: Disk, keep: nat) returns (path: seq<Event>)
    requires d.pc == Pruning([])
    ensures IsRun(d, path, keep) && NoBegins(path)
    ensures AfterAll(d, path, keep) == d.(files := d.files - Leftovers(d.files), pc := Resting)
  {
    var swept := d.(files := d.files - Leftovers(d.files));
    var leftovers := LeftoversRun(d, Leftovers(d.files), keep);
    OneEvent(swept, Finish, keep);
    RunAppend(d, leftovers, [Finish], keep);
    path := leftovers + [Finish];
  }

  /** What a prune leaves, as the class leaves it. */
  lemma {:induction false} PruneRun(d: Disk, listing: seq<string>, keep: nat) returns (path: seq<Event>)
    requires d.pc.Renamed? && IsListing(listing, d.files)
    ensures IsRun(d, path, keep) && NoBegins(path)
    ensures AfterAll(d, path, keep) == d.(files := Pruned(d.files, ToPrune(listing, keep)), pc := Resting)
  {
    var listed := Happen(d, List(listing), keep);
    var deletes := DeletesRun(listed, keep);
    var deleted := AfterAll(listed, deletes, keep);
    var tidies := TidiesUp(deleted, keep);
    assert deleted.files - Leftovers(deleted.files) == Pruned(d.files, ToPrune(listing, keep));
    RunAppend(listed, deletes, tidies, keep);
    FirstEvent(d, List(listing), deletes + tidies, keep);
    path := [List(listing)] + (deletes + tidies);
  }

  // The whole backup

  /** From the check on: the rename, then an exception or the prune. */
  lemma {:induction false} RenamedRun(d: Disk, after: Files, name: string, dirSynced: bool, keep: nat)
    returns (path: seq<Event>)
    requires d.pc == Checked(name) && Partial(name) in d.files && d.files[Partial(name)]
    requires
      var written := (d.files - {Partial(name)})[name := true];
      if !dirSynced || exists other :: other in written && SnapshotTime(other).BadStamp? then after == written
      else exists listing :: IsListing(listing, written) && after == Pruned(written, ToPrune(listing, keep))
    ensures IsRun(d, path, keep) && NoBegins(path)
    ensures AfterAll(d, path, keep).files == after && AfterAll(d, path, keep).pc.Resting?
  {
    var renamed := Happen(d, Rename, keep);
    var written := renamed.files;
    assert written == (d.files - {Partial(name)})[name := true];
    var rest: seq<Event>;
    if !dirSynced || exists other :: other in written && SnapshotTime(other).BadStamp? {
      OneEvent(renamed, Raise, keep);
      rest := [Raise];
    } else {
      var listing :| IsListing(listing, written) && after == Pruned(written, ToPrune(listing, keep));
      rest := PruneRun(renamed, listing, keep);
    }
    FirstEvent(d, Rename, rest, keep);
    path := [Rename] + rest;
  }

  /** A copy that fails, or fails the check, ends with its partial file unlinked. */
  lemma {:induction false} FailedCopyRun(d: Disk, keep: nat) returns (path: seq<Event>)
    requires d.pc.Copying? && Partial(d.pc.name) !in d.files
    ensures IsRun(d, path, keep) && NoBegins(path)
    ensures AfterAll(d, path, keep) == d.(pc := Resting)
  {
    var written := Happen(d, Write(false), keep);
    OneEvent(written, Raise, keep);
    FirstEvent(d, Write(false), [Raise], keep);
    path := [Write(false), Raise];
    assert path == [Write(false)] + [Raise];
    assert Happen(written, Raise, keep).files == d.files;
  }

  /**
   Whatever comes of an attempt, what it does to the directory is a run of the
   rotation's file operations that leaves it at rest: none if there is no
   database, else one that begins the snapshot, and no other.
   */
  lemma {:induction false} BackupIsRun(
    d: Disk, after: Files, name: string, source: Source, dirSynced: bool, keep: nat) returns (path: seq<Event>)
    requires CanHappen(d, Begin(name)) && Effect(d.files, after, name, source, dirSynced, keep)
    ensures IsRun(d, path, keep)
    ensures AfterAll(d, path, keep).files == after && AfterAll(d, path, keep).pc.Resting?
    ensures path != [] ==> path[0] == Begin(name) && NoBegins(path[1..])
  {
    path := [];
    if !source.Missing? {
      var begun := Happen(d, Begin(name), keep);
      var rest: seq<Event>;
      if source != CopiedWhole(true) {
        rest := FailedCopyRun(begun, keep);
      } else {
        var copied := Happen(begun, Write(true), keep);
        var checked := Happen(copied, Check, keep);
        assert checked.files - {Partial(name)} == d.files - {Partial(name)};
        var tail := RenamedRun(checked, after, name, dirSynced, keep);
        FirstEvent(copied, Check, tail, keep);
        FirstEvent(begun, Write(true), [Check] + tail, keep);
        rest := [Write(true)] + ([Check] + tail);
      }
      FirstEvent(d, Begin(name), rest, keep);
      path := [Begin(name)] + rest;
      assert path[1..] == rest;
    }
  }
}
