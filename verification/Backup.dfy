/**
 Snapshot rotation, one file operation at a time, with a crash or an exception
 between any two: write a partial file, check it, rename it, prune.
 */
module Backup {
  import opened Prelude
  import opened Calendar
  import opened Strings
  import opened SnapshotNames

  // Whether a file passes the integrity check, by name.
  type Files = map<string, bool>

  datatype Pc =
    | Resting
    | Copying(name: string)
    | Checked(name: string)
    | Renamed
    | Pruning(todo: seq<string>)

  // `successes`: every snapshot ever renamed into place, in order.
  datatype Disk = Disk(files: Files, pc: Pc, successes: seq<string>)

  datatype Event =
    | Begin(name: string)
    | Write(sound: bool)            // the backup copy, whole or interrupted
    | Check
    | Rename
    | List(listing: seq<string>)
    | Delete
    | SweepLeftover(name: string)
    | Finish
    | Raise                         // any exception; `take_snapshot` then unlinks its partial file
    | Crash

  function Partial(name: string): string {
    name + ".partial"
  }

  predicate IsSnapshot(name: string) {
    SnapshotTime(name).At?
  }

  predicate Increasing(names: seq<string>) {
    forall i, j :: 0 <= i < j < |names| ==> Less(names[i], names[j])
  }

  /** `list_snapshots`: the finished snapshots, oldest first. */
  ghost predicate IsListing(names: seq<string>, files: Files) {
    && Increasing(names)
    && forall name :: name in names <==> name in files && IsSnapshot(name)
  }

  /** The snapshots `prune` deletes. */
  function ToPrune(listing: seq<string>, keep: nat): seq<string> {
    listing[..if |listing| > keep then |listing| - keep else 0]
  }

  /** The name is later than every success. */
  predicate IsNewer(d: Disk, name: string) {
    forall i :: 0 <= i < |d.successes| ==> Less(d.successes[i], name)
  }

  ghost predicate CanHappen(d: Disk, event: Event) {
    match event
    case Begin(name) => d.pc.Resting? && IsSnapshot(name) && IsNewer(d, name)
    case Write(_) => d.pc.Copying?
    case Check => d.pc.Copying? && Partial(d.pc.name) in d.files && d.files[Partial(d.pc.name)]
    case Rename => d.pc.Checked? && Partial(d.pc.name) in d.files
    case List(listing) => d.pc.Renamed? && IsListing(listing, d.files)
    case Delete => d.pc.Pruning? && d.pc.todo != []
    case SweepLeftover(name) => d.pc == Pruning([]) && name in d.files && IsLeftover(name)
    case Finish => d.pc == Pruning([]) && forall name :: name in d.files ==> !IsLeftover(name)
    case Raise => !d.pc.Resting?
    case Crash => true
  }

  ghost function Happen(d: Disk, event: Event, keep: nat): Disk
    requires CanHappen(d, event)
  {
    match event
    case Begin(name) => d.(files := d.files - {Partial(name)}, pc := Copying(name))
    case Write(sound) => d.(files := d.files[Partial(d.pc.name) := sound])
    case Check => d.(pc := Checked(d.pc.name))
    case Rename =>
      var partial := Partial(d.pc.name);
      d.(files := (d.files - {partial})[d.pc.name := d.files[partial]], pc := Renamed,
         successes := d.successes + [d.pc.name])
    case List(listing) => d.(pc := Pruning(ToPrune(listing, keep)))
    case Delete => d.(files := d.files - {d.pc.todo[0]}, pc := Pruning(d.pc.todo[1..]))
    case SweepLeftover(name) => d.(files := d.files - {name})
    case Finish => d.(pc := Resting)
    case Raise =>
      d.(files := if d.pc.Copying? || d.pc.Checked? then d.files - {Partial(d.pc.name)} else d.files, pc := Resting)
    case Crash => d.(pc := Resting)
  }

  // The invariant

  /** The snapshots on disk are the newest successes, from `from` on, all of them sound. */
  ghost predicate Keeps(d: Disk, from: nat) {
    && from <= |d.successes|
    && forall name :: name in d.files && IsSnapshot(name) <==> name in d.successes[from..]
  }

  predicate AllSound(d: Disk) {
    forall name :: name in d.files && IsSnapshot(name) ==> d.files[name]
  }

  predicate InOrder(d: Disk) {
    && Increasing(d.successes)
    && (forall i :: 0 <= i < |d.successes| ==> IsSnapshot(d.successes[i]))
    && (d.pc.Copying? || d.pc.Checked? ==> IsSnapshot(d.pc.name) && IsNewer(d, d.pc.name))
    && (d.pc.Checked? ==> Partial(d.pc.name) in d.files && d.files[Partial(d.pc.name)])
  }

  /** What is still to be deleted is the oldest, and leaves `keep` behind. */
  predicate PrunesOldest(d: Disk, from: nat, keep: nat) {
    d.pc.Pruning? ==>
      && from + |d.pc.todo| <= |d.successes| && d.pc.todo == d.successes[from..from + |d.pc.todo|]
      && (d.pc.todo != [] ==> from + |d.pc.todo| + keep <= |d.successes|)
      && |d.successes| <= from + |d.pc.todo| + keep
  }

  ghost predicate Inv(d: Disk, from: nat, keep: nat) {
    && Keeps(d, from) && AllSound(d) && InOrder(d) && PrunesOldest(d, from, keep)
    && (from > 0 ==> from + keep <= |d.successes|)
  }

  lemma PartialIsNoSnapshot(name: string)
    requires IsSnapshot(name)
    ensures IsLeftover(Partial(name)) && !IsSnapshot(Partial(name))
  {
    assert Partial(name)[24..32] == ".partial";
    assert HasPartialAt(Partial(name), 24);
    assert Partial(name)[..5] == name[..5] == "jobs-";
    LeftoverIsNoSnapshot(Partial(name));
  }

  // Listing

  lemma ListingIsUnique(a: seq<string>, b: seq<string>, files: Files)
    requires IsListing(a, files) && IsListing(b, files)
    ensures a == b
  {
    SortedIsUnique(a, b);
  }

  lemma {:induction false} SortedIsUnique(a: seq<string>, b: seq<string>)
    requires Increasing(a) && Increasing(b) && forall name :: name in a <==> name in b
    ensures a == b
    decreases |a|
  {
    HasAnElement(a);
    HasAnElement(b);
    if a != [] {
      assert a[0] in b && b[0] in a;
      LessIsTotal(a[0], b[0]);
      HeadIsLeast(a, b[0]);
      HeadIsLeast(b, a[0]);
      forall name
        ensures name in a[1..] <==> name in b[1..]
      {
        InTail(a, name);
        InTail(b, name);
      }
      SortedIsUnique(a[1..], b[1..]);
      assert a == [a[0]] + a[1..] && b == [b[0]] + b[1..];
    }
  }

  lemma HasAnElement(names: seq<string>)
    ensures names == [] <==> forall name :: name !in names
  {
    if names != [] {
      assert names[0] in names;
    }
  }

  lemma {:induction false} HeadIsLeast(names: seq<string>, name: string)
    requires Increasing(names) && name in names
    ensures name == names[0] || Less(names[0], name)
  {
  }

  lemma InTail(names: seq<string>, name: string)
    requires Increasing(names) && names != []
    ensures name in names[1..] <==> name in names && name != names[0]
  {
    LessIsTotal(names[0], names[0]);
    assert names == [names[0]] + names[1..];
  }

  // Every event keeps the invariant

  function DroppedAfter(from: nat, event: Event): nat {
    if event.Delete? then from + 1 else from
  }

  lemma BeginKeepsInv(d: Disk, name: string, from: nat, keep: nat)
    requires Inv(d, from, keep) && CanHappen(d, Begin(name))
    ensures Inv(Happen(d, Begin(name), keep), from, keep)
  {
    PartialIsNoSnapshot(name);
  }

  lemma RenameKeepsInv(d: Disk, from: nat, keep: nat)
    requires Inv(d, from, keep) && CanHappen(d, Rename)
    ensures Inv(Happen(d, Rename, keep), from, keep)
  {
    var after, name := Happen(d, Rename, keep), d.pc.name;
    PartialIsNoSnapshot(name);
    assert after.successes[from..] == d.successes[from..] + [name];
    forall other | other in d.successes
      ensures other != name
    {
      LessIsTotal(name, name);
    }
  }

  lemma ListKeepsInv(d: Disk, listing: seq<string>, from: nat, keep: nat)
    requires Inv(d, from, keep) && CanHappen(d, List(listing))
    ensures Inv(Happen(d, List(listing), keep), from, keep)
  {
    var onDisk := d.successes[from..];
    SortedIsUnique(listing, onDisk);
    var todo := ToPrune(listing, keep);
    assert todo == d.successes[from..from + |todo|];
  }

  lemma DeleteKeepsInv(d: Disk, from: nat, keep: nat)
    requires Inv(d, from, keep) && CanHappen(d, Delete)
    ensures Inv(Happen(d, Delete, keep), from + 1, keep)
  {
    var onDisk, oldest := d.successes[from..], d.pc.todo[0];
    assert oldest == d.successes[from..from + |d.pc.todo|][0] == onDisk[0];
    assert onDisk[1..] == d.successes[from + 1..];
    assert Increasing(onDisk);
    forall name
      ensures name in onDisk[1..] <==> name in onDisk && name != oldest
    {
      InTail(onDisk, name);
    }
  }

  lemma RaiseKeepsInv(d: Disk, from: nat, keep: nat)
    requires Inv(d, from, keep) && CanHappen(d, Raise)
    ensures Inv(Happen(d, Raise, keep), from, keep)
  {
    if d.pc.Copying? || d.pc.Checked? {
      PartialIsNoSnapshot(d.pc.name);
    }
  }

  lemma EveryEventKeepsInv(d: Disk, event: Event, from: nat, keep: nat)
    requires Inv(d, from, keep) && CanHappen(d, event)
    ensures Inv(Happen(d, event, keep), DroppedAfter(from, event), keep)
  {
    match event
    case Begin(name) => BeginKeepsInv(d, name, from, keep);
    case Write(_) => PartialIsNoSnapshot(d.pc.name);
    case Check =>
    case Rename => RenameKeepsInv(d, from, keep);
    case List(listing) => ListKeepsInv(d, listing, from, keep);
    case Delete => DeleteKeepsInv(d, from, keep);
    case SweepLeftover(name) => LeftoverIsNoSnapshot(name);
    case Finish =>
    case Raise => RaiseKeepsInv(d, from, keep);
    case Crash =>
  }

  // Whole runs

  ghost predicate IsRun(d: Disk, events: seq<Event>, keep: nat)
    decreases |events|
  {
    events != [] ==> CanHappen(d, events[0]) && IsRun(Happen(d, events[0], keep), events[1..], keep)
  }

  ghost function AfterAll(d: Disk, events: seq<Event>, keep: nat): Disk
    requires IsRun(d, events, keep)
    decreases |events|
  {
    if events == [] then d else AfterAll(Happen(d, events[0], keep), events[1..], keep)
  }

  /** A directory a loop can take over: at rest, every snapshot there sound and counted as a success. */
  ghost predicate CanStart(d: Disk) {
    d.pc.Resting? && IsListing(d.successes, d.files) && AllSound(d)
  }

  lemma {:induction false} StartsInInv(d: Disk, keep: nat)
    requires CanStart(d)
    ensures Inv(d, 0, keep)
  {
    assert d.successes[0..] == d.successes;
  }

  lemma {:induction false} RunKeepsInv(d: Disk, events: seq<Event>, from: nat, keep: nat) returns (after: nat)
    requires Inv(d, from, keep) && IsRun(d, events, keep)
    ensures Inv(AfterAll(d, events, keep), after, keep)
    decreases |events|
  {
    after := from;
    if events != [] {
      EveryEventKeepsInv(d, events[0], from, keep);
      after := RunKeepsInv(Happen(d, events[0], keep), events[1..], DroppedAfter(from, events[0]), keep);
    }
  }

  /** On disk stand the newest successes, from `from` on: all of them, or at least `keep`. */
  ghost predicate NewestAreKept(d: Disk, from: nat, keep: nat) {
    && from <= |d.successes| && (from > 0 ==> |d.successes| - from >= keep)
    && IsListing(d.successes[from..], d.files)
  }

  /**
   However the backups went and wherever they were cut off: every file that
   bears a snapshot's name passed the check, and the snapshots on disk are the
   newest of all that succeeded, at least `keep` of them once that many have.
   */
  lemma {:induction false} BackupsAreSafe(start: Disk, events: seq<Event>, keep: nat)
    requires CanStart(start) && IsRun(start, events, keep)
    ensures
      var d := AfterAll(start, events, keep);
      && (forall name :: name in d.files && IsSnapshot(name) ==> d.files[name])
      && exists from: nat :: NewestAreKept(d, from, keep)
  {
    StartsInInv(start, keep);
    var from := RunKeepsInv(start, events, 0, keep);
    assert NewestAreKept(AfterAll(start, events, keep), from, keep);
  }

  /**
   Only a prune after a success removes a snapshot, and only one with `keep`
   newer ones beside it: a failed or interrupted attempt removes none.
   */
  lemma {:induction false} NothingGoodIsLost(d: Disk, event: Event, from: nat, keep: nat, name: string)
    requires Inv(d, from, keep) && CanHappen(d, event)
    requires name in d.files && IsSnapshot(name) && name !in Happen(d, event, keep).files
    ensures event.Delete? && name == d.successes[from]
    ensures |d.successes[from + 1..]| >= keep
    ensures forall newer :: newer in d.successes[from + 1..] ==> newer in d.files && Less(name, newer)
  {
    EveryEventKeepsInv(d, event, from, keep);
    match event
    case Begin(begun) => PartialIsNoSnapshot(begun);
    case SweepLeftover(leftover) => LeftoverIsNoSnapshot(leftover);
    case Raise => RaiseKeepsInv(d, from, keep); NoPartialIsASnapshot(d);
    case Rename => NoPartialIsASnapshot(d);
    case Delete =>
      assert d.pc.todo[0] == d.successes[from..from + |d.pc.todo|][0];
      assert forall newer :: newer in d.successes[from + 1..] ==> newer in d.successes[from..];
    case _ =>
  }

  lemma NoPartialIsASnapshot(d: Disk)
    requires InOrder(d)
    ensures d.pc.Copying? || d.pc.Checked? ==> !IsSnapshot(Partial(d.pc.name))
  {
    if d.pc.Copying? || d.pc.Checked? {
      PartialIsNoSnapshot(d.pc.name);
    }
  }

  /** Whatever has been pruned, the newest snapshot on disk is the last one that succeeded. */
  lemma {:induction false} NewestOnDiskIsLastSuccess(d: Disk, listing: seq<string>, from: nat, keep: nat)
    requires Inv(d, from, keep) && keep >= 1 && IsListing(listing, d.files)
    ensures listing != [] <==> d.successes != []
    ensures listing != [] ==> listing[|listing| - 1] == d.successes[|d.successes| - 1]
  {
    ListingIsUnique(listing, d.successes[from..], d.files);
  }

  /** A backup that runs to its end leaves exactly the newest `keep` successes, and no partial file. */
  lemma FinishedBackupIsTidy(d: Disk, from: nat, keep: nat)
    requires Inv(d, from, keep) && CanHappen(d, Finish)
    ensures NewestAreKept(d, from, keep)
    ensures |d.successes[from..]| == if |d.successes| <= keep then |d.successes| else keep
    ensures forall name :: name in d.files ==> !IsLeftover(name)
  {
    assert IsListing(d.successes[from..], d.files);
  }

  // The directory

  function InsertName(names: seq<string>, name: string): seq<string> {
    if names == [] then [name]
    else if Less(name, names[0]) then [name] + names
    else [names[0]] + InsertName(names[1..], name)
  }

  lemma {:induction false} InsertSorts(names: seq<string>, name: string)
    requires Increasing(names) && name !in names
    ensures Increasing(InsertName(names, name))
    ensures forall other :: other in InsertName(names, name) <==> other in names || other == name
    decreases |names|
  {
    if names != [] {
      LessIsTotal(name, names[0]);
      if Less(name, names[0]) {
        forall j | 0 <= j < |names|
          ensures Less(name, names[j])
        {
          if j > 0 {
            LessTransitive(name, names[0], names[j]);
          }
        }
      } else {
        InsertSorts(names[1..], name);
        var rest := InsertName(names[1..], name);
        forall j | 0 <= j < |rest|
          ensures Less(names[0], rest[j])
        {
          assert rest[j] in rest;
        }
        assert names == [names[0]] + names[1..];
      }
    }
  }

  /** The files a finished prune leaves. */
  function Pruned(files: Files, todo: seq<string>): Files {
    map name | name in files && name !in todo && !IsLeftover(name) :: files[name]
  }

  class BackupDir {
    var files: Files

    /** None: a file looks like a snapshot but names no date, and reading its name raises. */
    method ListSnapshots() returns (listing: Option<seq<string>>)
      ensures listing.None? <==> exists name :: name in files && SnapshotTime(name).BadStamp?
      ensures listing.Some? ==> IsListing(listing.value, files)
    {
      var names: seq<string>, left := [], files.Keys;
      while left != {}
        invariant left <= files.Keys && Increasing(names)
        invariant forall name :: name in names <==> name in files && name !in left && IsSnapshot(name)
        invariant forall name :: name in files && name !in left ==> !SnapshotTime(name).BadStamp?
        decreases |left|
      {
        var name :| name in left;
        left := left - {name};
        if SnapshotTime(name).BadStamp? {
          return None;
        }
        if SnapshotTime(name).At? {
          InsertSorts(names, name);
          names := InsertName(names, name);
        }
      }
      listing := Some(names);
    }

    /** Delete all but the newest `keep` snapshots, then every leftover partial file. */
    method Prune(keep: nat) returns (pruned: Option<seq<string>>)
      modifies this
      ensures pruned.None? ==> files == old(files)
      ensures pruned.None? <==> exists name :: name in old(files) && SnapshotTime(name).BadStamp?
      ensures pruned.Some? ==>
        exists listing :: IsListing(listing, old(files)) && pruned.value == ToPrune(listing, keep)
      ensures pruned.Some? ==> files == Pruned(old(files), pruned.value)
    {
      var listing := ListSnapshots();
      if listing.None? {
        return None;
      }
      var todo := ToPrune(listing.value, keep);
      pruned := Some(todo);
      var i := 0;
      while i < |todo|
        invariant i <= |todo|
        invariant files == map name | name in old(files) && name !in todo[..i] :: old(files)[name]
      {
        files := files - {todo[i]};
        i := i + 1;
      }
      assert todo[..i] == todo;
      var left := files.Keys;
      while left != {}
        invariant left <= files.Keys
        invariant files == map name |
          name in old(files) && name !in todo && (name in left || !IsLeftover(name)) :: old(files)[name]
        decreases |left|
      {
        var name :| name in left;
        left := left - {name};
        if IsLeftover(name) {
          files := files - {name};
        }
      }
    }

    /** `source` is the database's state: missing, copied with an exception on the way, or copied whole. */
    method TakeSnapshot(name: string, source: Source, dirSynced: bool) returns (ok: bool)
      requires IsSnapshot(name)
      modifies this
      ensures ok <==> source == CopiedWhole(true) && dirSynced
      ensures source == CopiedWhole(true) ==> files == (old(files) - {Partial(name)})[name := true]
      ensures source == Missing ==> files == old(files)
      ensures source != CopiedWhole(true) && source != Missing ==> files == old(files) - {Partial(name)}
    {
      if source.Missing? {
        return false;
      }
      files := files - {Partial(name)};
      if source.CopyRaises? {
        // However much was written by then.
        files := files[Partial(name) := false];
        files := files - {Partial(name)};
        return false;
      }
      files := files[Partial(name) := source.sound];
      if !files[Partial(name)] {
        files := files - {Partial(name)};
        return false;
      }
      var sound := files[Partial(name)];
      files := (files - {Partial(name)})[name := sound];
      PartialIsNoSnapshot(name);
      ok := dirSynced;
    }

    /**
     `backup_once` with a name no older than any snapshot there: a failure costs
     no snapshot, and a success leaves the newest `keep` of the others and it.
     None: a name with an impossible date raised in the prune.
     */
    method BackupOnce(name: string, source: Source, dirSynced: bool, keep: nat) returns (ok: Option<bool>)
      requires IsSnapshot(name) && keep >= 1
      requires forall other :: other in files && IsSnapshot(other) ==> other == name || Less(other, name)
      modifies this
      ensures ok.None? <==>
        && source == CopiedWhole(true) && dirSynced
        && exists other :: other in old(files) && SnapshotTime(other).BadStamp?
      ensures ok.Some? ==> (ok.value <==> source == CopiedWhole(true) && dirSynced)
      ensures Outcome(old(files), files, name, keep, ok.Some? && ok.value)
      ensures Effect(old(files), files, name, source, dirSynced, keep)
    {
      ghost var before := files;
      var written := TakeSnapshot(name, source, dirSynced);
      PartialIsNoSnapshot(name);
      LessIsTotal(name, name);
      assert !SnapshotTime(Partial(name)).BadStamp?;
      ok := Some(written);
      if written {
        ghost var after := files;
        assert forall other :: other in before && other != Partial(name) ==> other in after;
        var pruned := Prune(keep);
        if pruned.None? {
          return None;
        }
        AfterBackup(before - {name}, after, files, name, keep, pruned.value);
      }
    }
  }

  /** What the attempt writes, renames and deletes, file by file. */
  ghost predicate Effect(before: Files, after: Files, name: string, source: Source, dirSynced: bool, keep: nat) {
    var written := (before - {Partial(name)})[name := true];
    if source.Missing? then after == before
    else if source != CopiedWhole(true) then after == before - {Partial(name)}
    else if !dirSynced || exists other :: other in written && SnapshotTime(other).BadStamp? then after == written
    else exists listing :: IsListing(listing, written) && after == Pruned(written, ToPrune(listing, keep))
  }

  /** What that comes to for the snapshots. */
  ghost predicate Outcome(before: Files, after: Files, name: string, keep: nat, ok: bool) {
    if ok then
      && name in after && after[name]
      && exists listing :: HoldsNewestOf(listing, name, keep, before - {name}, after)
    else
      && KeepsSnapshots(before, after, name)
      && (name in before ==> name in after && (after[name] || after[name] == before[name]))
  }

  /** Every snapshot but `name` is as it was. */
  ghost predicate KeepsSnapshots(before: Files, after: Files, name: string) {
    forall other :: other in before && IsSnapshot(other) && other != name ==>
      other in after && after[other] == before[other]
  }

  datatype Source = Missing | CopyRaises | CopiedWhole(sound: bool)

  /** Of the snapshots there were, and the new one, exactly the newest `keep` are there. */
  ghost predicate HoldsNewestOf(listing: seq<string>, name: string, keep: nat, before: Files, after: Files) {
    var all := listing + [name];
    IsListing(listing, before) && IsListing(all[|ToPrune(all, keep)|..], after)
  }

  lemma {:induction false} AfterBackup(
    before: Files, written: Files, after: Files, name: string, keep: nat, pruned: seq<string>)
    requires IsSnapshot(name) && keep >= 1 && written == (before - {Partial(name)})[name := true]
    requires forall other :: other in before && IsSnapshot(other) ==> Less(other, name)
    requires exists listing :: IsListing(listing, written) && pruned == ToPrune(listing, keep)
    requires after == Pruned(written, pruned)
    ensures name in after && after[name]
    ensures exists listing :: HoldsNewestOf(listing, name, keep, before, after)
  {
    PartialIsNoSnapshot(name);
    var all :| IsListing(all, written) && pruned == ToPrune(all, keep);
    NewestIsLast(all, name);
    var n := |all| - 1;
    var listing := all[..n];
    assert all == listing + [name];
    ListedBefore(before, written, all, name);
    ListedAfterPrune(all, keep, written, after);
    assert all[|pruned|..][n - |pruned|] == name;
    assert HoldsNewestOf(listing, name, keep, before, after);
  }

  lemma {:induction false} ListedBefore(before: Files, written: Files, all: seq<string>, name: string)
    requires IsSnapshot(name) && written == (before - {Partial(name)})[name := true]
    requires forall other :: other in before && IsSnapshot(other) ==> Less(other, name)
    requires IsListing(all, written) && all != [] && all[|all| - 1] == name
    ensures IsListing(all[..|all| - 1], before)
  {
    var n := |all| - 1;
    PartialIsNoSnapshot(name);
    LessIsTotal(name, name);
    assert all == all[..n] + [name];
    forall other
      ensures other in all[..n] <==> other in before && IsSnapshot(other)
    {
      if other in all[..n] {
        var i :| 0 <= i < n && all[..n][i] == other;
        assert Less(all[i], all[n]);
      }
      assert other in all <==> other in all[..n] || other == name;
    }
  }

  lemma {:induction false} NewestIsLast(all: seq<string>, name: string)
    requires Increasing(all) && name in all && forall other :: other in all ==> other == name || Less(other, name)
    ensures all[|all| - 1] == name
  {
    var last := all[|all| - 1];
    var k :| 0 <= k < |all| && all[k] == name;
    LessIsTotal(last, name);
  }

  lemma ListedAfterPrune(listing: seq<string>, keep: nat, files: Files, after: Files)
    requires IsListing(listing, files) && after == Pruned(files, ToPrune(listing, keep))
    ensures IsListing(listing[|ToPrune(listing, keep)|..], after)
  {
    var k := |ToPrune(listing, keep)|;
    assert listing == listing[..k] + listing[k..];
    forall name
      ensures name in listing[k..] <==> name in after && IsSnapshot(name)
    {
      if IsSnapshot(name) && IsLeftover(name) {
        LeftoverIsNoSnapshot(name);
      }
      if name in listing[k..] && name in listing[..k] {
        LessIsTotal(name, name);
      }
    }
  }
}
