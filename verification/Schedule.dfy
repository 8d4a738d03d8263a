/**
 The backup loop between two snapshots. It remembers nothing across a restart:
 the newest snapshot is read off the directory each time, and the retry time
 after a failure dies with the process.
 */
module Schedule {
  import opened Prelude
  import opened Calendar
  import opened Strings
  import opened SnapshotNames
  import opened Backup
  import opened BackupRuns

  // Microseconds on the UTC clock.
  type Instant = int

  const SECOND: Instant := 1_000_000
  const RETRY_AFTER: Instant := 900 * SECOND
  const MAX_SLEEP: Instant := 300 * SECOND

  /** A reading of the clock: a snapshot's name keeps only its whole seconds. */
  datatype Clock = Clock(when: When, micros: nat)

  predicate IsClock(clock: Clock) {
    IsDate(clock.when) && clock.micros < SECOND
  }

  function InstantOf(clock: Clock): Instant {
    SECOND * Seconds(clock.when) + clock.micros
  }

  /** The time a snapshot's name stands for. */
  function TimeOf(name: string): Instant
    requires IsSnapshot(name)
  {
    SECOND * Seconds(SnapshotTime(name).when)
  }

  /** What `newest_snapshot_time` reads off the directory. */
  ghost predicate NewestIs(files: Files, newest: Option<Instant>) {
    exists listing :: IsListing(listing, files) && newest == LastOf(listing)
  }

  function LastOf(listing: seq<string>): Option<Instant>
    requires forall name :: name in listing ==> IsSnapshot(name)
  {
    if listing == [] then None else Some(TimeOf(listing[|listing| - 1]))
  }

  function SecondsUntilDue(newest: Option<Instant>, now: Instant, interval: Instant): (wait: Instant)
    ensures wait >= 0
    ensures wait == 0 <==> newest.None? || now >= newest.value + interval
    ensures wait > 0 ==> now + wait == newest.value + interval
  {
    if newest.None? || newest.value + interval - now < 0 then 0 else newest.value + interval - now
  }

  /** An attempt is due: the newest snapshot is old enough and no retry is pending. */
  predicate IsDue(newest: Option<Instant>, retryAt: Option<Instant>, now: Instant, interval: Instant) {
    && (newest.Some? ==> now >= newest.value + interval)
    && (retryAt.Some? ==> now >= retryAt.value)
  }

  /** How long the loop has to wait, until the newest snapshot is old enough and no retry is pending. */
  function WaitFor(newest: Option<Instant>, retryAt: Option<Instant>, now: Instant, interval: Instant): (wait: Instant)
    ensures wait > 0 <==> !IsDue(newest, retryAt, now, interval)
    ensures wait > 0 ==> IsDue(newest, retryAt, now + wait, interval)
    ensures forall t :: now <= t < now + wait ==> !IsDue(newest, retryAt, t, interval)
  {
    var wait := SecondsUntilDue(newest, now, interval);
    if retryAt.Some? && retryAt.value - now > wait then retryAt.value - now else wait
  }

  // Names and times

  lemma {:induction false} LaterNameIsNewer(name: string, other: string)
    requires IsSnapshot(name) && IsSnapshot(other)
    ensures Less(name, other) <==> TimeOf(name) < TimeOf(other)
    ensures name == other <==> TimeOf(name) == TimeOf(other)
  {
    SnapshotFilesSortAsTimes(name, other);
    SnapshotFilesSortAsTimes(other, name);
    SecondsSort(SnapshotTime(name).when, SnapshotTime(other).when);
    SecondsSort(SnapshotTime(other).when, SnapshotTime(name).when);
    LessIsTotal(name, other);
  }

  /** The name taken at a clock reading stands for its whole seconds. */
  lemma {:induction false} NameOfClock(clock: Clock)
    requires IsClock(clock)
    ensures IsSnapshot(SnapshotName(clock.when))
    ensures TimeOf(SnapshotName(clock.when)) <= InstantOf(clock) < TimeOf(SnapshotName(clock.when)) + SECOND
  {
    NameReadsBack(clock.when);
  }

  lemma {:induction false} WholeSecondsApart(a: int, b: int, interval: Instant)
    requires SECOND * b + SECOND > SECOND * a + interval
    ensures interval >= 0 ==> b >= a
    ensures interval % SECOND == 0 ==> SECOND * b >= SECOND * a + interval
  {
    if interval % SECOND == 0 {
      var n := interval / SECOND;
      assert interval == SECOND * n;
      assert b + 1 > a + n;
    }
  }

  lemma {:induction false} NewestIsLatest(listing: seq<string>, files: Files, name: string)
    requires IsListing(listing, files) && name in files && IsSnapshot(name)
    ensures listing != [] && TimeOf(name) <= LastOf(listing).value
  {
    assert name in listing;
    var last := listing[|listing| - 1];
    LaterNameIsNewer(name, last);
  }

  /** When an attempt is due, its name is no older than any snapshot there. */
  lemma {:induction false} DueNameIsNewest(listing: seq<string>, files: Files, clock: Clock, interval: Instant)
    requires IsClock(clock) && interval > 0 && IsListing(listing, files)
    requires LastOf(listing).Some? ==> InstantOf(clock) >= LastOf(listing).value + interval
    ensures
      var taken := SnapshotName(clock.when);
      IsSnapshot(taken) && forall name :: name in files && IsSnapshot(name) ==> name == taken || Less(name, taken)
  {
    var taken := SnapshotName(clock.when);
    NameOfClock(clock);
    forall name | name in files && IsSnapshot(name)
      ensures name == taken || Less(name, taken)
    {
      NewestIsLatest(listing, files, name);
      NotNewer(name, taken);
    }
  }

  lemma {:induction false} NotNewer(name: string, other: string)
    requires IsSnapshot(name) && IsSnapshot(other) && TimeOf(name) < TimeOf(other) + SECOND
    ensures name == other || Less(name, other)
  {
    WholeSecondsApart(Seconds(SnapshotTime(name).when), Seconds(SnapshotTime(other).when), 0);
    LaterNameIsNewer(name, other);
  }

  // The loop

  // `Died`: a name with an impossible date raised, which the loop does not catch.
  datatype Move = Slept(micros: Instant) | Tried(ok: bool) | Died

  /** The retry time after a wake-up. */
  function RetryAfter(retryAt: Option<Instant>, move: Move, now: Instant): Option<Instant> {
    if !move.Tried? then retryAt else if move.ok then None else Some(now + RETRY_AFTER)
  }

  class Sidecar {
    const dir: BackupDir
    const interval: Instant
    const keep: nat
    var retryAt: Option<Instant>
    // What the directory was when its first loop began, and every file operation since.
    ghost const start: Disk
    ghost var history: seq<Event>

    /** The directory is what that history made of it. */
    ghost predicate Traced()
      reads this, dir
    {
      Traces(start, history, dir.files, keep, interval)
    }

    predicate Valid() {
      interval > 0 && keep >= 1
    }

    /** A new process remembers no retry. */
    constructor (dir: BackupDir, interval: Instant, keep: nat, ghost start: Disk, ghost history: seq<Event>)
      requires interval > 0 && keep >= 1
      ensures Valid() && retryAt.None? && this.dir == dir && this.interval == interval && this.keep == keep
      ensures Traced() <==> Traces(start, history, dir.files, keep, interval)
    {
      this.dir, this.interval, this.keep, retryAt := dir, interval, keep, None;
      this.start, this.history := start, history;
    }

    /** One turn of the loop: an attempt exactly when one is due, else a sleep no longer than until then. */
    method Turn(clock: Clock, source: Source, dirSynced: bool) returns (move: Move, ghost newest: Option<Instant>)
      requires Valid() && IsClock(clock)
      modifies this, dir
      ensures move.Died? <==> exists name :: name in old(dir.files) && SnapshotTime(name).BadStamp?
      ensures !move.Died? ==> NewestIs(old(dir.files), newest)
      ensures retryAt == RetryAfter(old(retryAt), move, InstantOf(clock))
      ensures !move.Died? ==> (move.Tried? <==> IsDue(newest, old(retryAt), InstantOf(clock), interval))
      ensures move.Slept? ==> 0 < move.micros <= MAX_SLEEP && forall t ::
        InstantOf(clock) <= t < InstantOf(clock) + move.micros ==> !IsDue(newest, old(retryAt), t, interval)
      ensures move.Slept? && move.micros < MAX_SLEEP ==>
        IsDue(newest, old(retryAt), InstantOf(clock) + move.micros, interval)
      ensures !move.Tried? ==> dir.files == old(dir.files)
      ensures move.Tried? ==>
        && (move.ok <==> source == CopiedWhole(true) && dirSynced)
        && Outcome(old(dir.files), dir.files, SnapshotName(clock.when), keep, move.ok)
      ensures interval >= SECOND && old(Traced()) ==> Traced() && old(history) <= history
    {
      newest := None;
      var listing := dir.ListSnapshots();
      if listing.None? {
        return Died, None;
      }
      var now := InstantOf(clock);
      newest := LastOf(listing.value);
      var wait := WaitFor(LastOf(listing.value), retryAt, now, interval);
      if wait > 0 {
        move := Slept(if wait < MAX_SLEEP then wait else MAX_SLEEP);
        return;
      }
      var ok := Attempt(clock, source, dirSynced, listing.value);
      move := Tried(ok);
    }

    /** One attempt, when the listing says that one is due. */
    method Attempt(clock: Clock, source: Source, dirSynced: bool, ghost listing: seq<string>) returns (ok: bool)
      requires Valid() && IsClock(clock) && IsListing(listing, dir.files)
      requires IsDue(LastOf(listing), retryAt, InstantOf(clock), interval)
      requires forall name :: name in dir.files ==> !SnapshotTime(name).BadStamp?
      modifies this, dir
      ensures ok <==> source == CopiedWhole(true) && dirSynced
      ensures retryAt == if ok then None else Some(InstantOf(clock) + RETRY_AFTER)
      ensures Outcome(old(dir.files), dir.files, SnapshotName(clock.when), keep, ok)
      ensures interval >= SECOND && old(Traced()) ==> Traced() && old(history) <= history
    {
      ghost var before, retry := dir.files, retryAt;
      DueNameIsNewest(listing, dir.files, clock, interval);
      var done := dir.BackupOnce(SnapshotName(clock.when), source, dirSynced, keep);
      if interval >= SECOND && Traces(start, history, before, keep, interval) {
        ghost var path := AttemptIsTraced(
          start, history, before, dir.files, clock, LastOf(listing), retry, source, dirSynced, keep, interval);
        history := history + path;
      }
      ok := done.value;
      retryAt := if ok then None else Some(InstantOf(clock) + RETRY_AFTER);
    }
  }

  // Snapshots are spaced, however the loop is restarted

  /** An attempt under this name is due on this directory, at some instant its name stands for. */
  ghost predicate BeginsDue(files: Files, name: string, interval: Instant)
    requires IsSnapshot(name)
  {
    exists newest :: NewestIs(files, newest) && (newest.Some? ==> TimeOf(name) + SECOND > newest.value + interval)
  }

  /** What `Turn` attempts begins due. */
  lemma {:induction false} AttemptsBeginDue(
    files: Files, newest: Option<Instant>, retryAt: Option<Instant>, clock: Clock, interval: Instant)
    requires IsClock(clock) && NewestIs(files, newest) && IsDue(newest, retryAt, InstantOf(clock), interval)
    ensures IsSnapshot(SnapshotName(clock.when)) && BeginsDue(files, SnapshotName(clock.when), interval)
  {
    NameOfClock(clock);
  }

  /** Every attempt of the run begins due. */
  ghost predicate AllBeginDue(d: Disk, events: seq<Event>, keep: nat, interval: Instant)
    requires IsRun(d, events, keep)
    decreases |events|
  {
    events != [] ==>
      && (events[0].Begin? ==> BeginsDue(d.files, events[0].name, interval))
      && AllBeginDue(Happen(d, events[0], keep), events[1..], keep, interval)
  }

  /** The second name's time is an interval after the first's, give or take the fraction of a second it drops. */
  predicate Apart(earlier: string, later: string, interval: Instant) {
    && IsSnapshot(earlier) && IsSnapshot(later)
    && TimeOf(later) + SECOND > TimeOf(earlier) + interval
    && (interval % SECOND == 0 ==> TimeOf(later) >= TimeOf(earlier) + interval)
  }

  /** All successes are spaced, and so is the one being written. */
  predicate Spaced(d: Disk, interval: Instant) {
    && (forall i, j :: 0 <= i < j < |d.successes| ==> Apart(d.successes[i], d.successes[j], interval))
    && (d.pc.Copying? || d.pc.Checked? ==> forall i :: 0 <= i < |d.successes| ==> Apart(d.successes[i], d.pc.name, interval))
  }

  lemma {:induction false} ApartByTimes(earlier: string, later: string, interval: Instant)
    requires IsSnapshot(earlier) && IsSnapshot(later) && TimeOf(later) + SECOND > TimeOf(earlier) + interval
    ensures Apart(earlier, later, interval)
  {
    WholeSecondsApart(Seconds(SnapshotTime(earlier).when), Seconds(SnapshotTime(later).when), interval);
  }

  lemma {:induction false} ApartFromLast(d: Disk, name: string, interval: Instant, i: nat)
    requires InOrder(d) && IsSnapshot(name) && i < |d.successes|
    requires TimeOf(name) + SECOND > TimeOf(d.successes[|d.successes| - 1]) + interval
    ensures Apart(d.successes[i], name, interval)
  {
    LaterNameIsNewer(d.successes[i], d.successes[|d.successes| - 1]);
    ApartByTimes(d.successes[i], name, interval);
  }

  lemma {:induction false} DueIsApart(d: Disk, name: string, from: nat, keep: nat, interval: Instant, i: nat)
    requires Inv(d, from, keep) && keep >= 1 && IsSnapshot(name) && BeginsDue(d.files, name, interval)
    requires i < |d.successes|
    ensures Apart(d.successes[i], name, interval)
  {
    var newest :| NewestIs(d.files, newest) && (newest.Some? ==> TimeOf(name) + SECOND > newest.value + interval);
    var listing :| IsListing(listing, d.files) && newest == LastOf(listing);
    NewestOnDiskIsLastSuccess(d, listing, from, keep);
    ApartFromLast(d, name, interval, i);
  }

  lemma {:induction false} EventKeepsSpaced(d: Disk, event: Event, from: nat, keep: nat, interval: Instant)
    requires Inv(d, from, keep) && keep >= 1 && Spaced(d, interval) && CanHappen(d, event)
    requires event.Begin? ==> BeginsDue(d.files, event.name, interval)
    ensures Spaced(Happen(d, event, keep), interval)
  {
    if event.Begin? {
      forall i | 0 <= i < |d.successes|
        ensures Apart(d.successes[i], event.name, interval)
      {
        DueIsApart(d, event.name, from, keep, interval, i);
      }
    }
  }

  lemma {:induction false} RunKeepsSpaced(d: Disk, events: seq<Event>, from: nat, keep: nat, interval: Instant)
    requires Inv(d, from, keep) && keep >= 1 && Spaced(d, interval)
    requires IsRun(d, events, keep) && AllBeginDue(d, events, keep, interval)
    ensures Spaced(AfterAll(d, events, keep), interval)
    decreases |events|
  {
    if events != [] {
      EveryEventKeepsInv(d, events[0], from, keep);
      EventKeepsSpaced(d, events[0], from, keep, interval);
      RunKeepsSpaced(Happen(d, events[0], keep), events[1..], DroppedAfter(from, events[0]), keep, interval);
    }
  }

  /**
   Whatever fails, is cut off, pruned or restarted: if each attempt begins when
   the directory says it is due, any two snapshots ever taken are an interval
   apart, to the second that a name keeps, if those it began with were.
   */
  lemma {:induction false} SnapshotsAreSpaced(start: Disk, events: seq<Event>, keep: nat, interval: Instant)
    requires keep >= 1 && CanStart(start) && Spaced(start, interval)
    requires IsRun(start, events, keep) && AllBeginDue(start, events, keep, interval)
    ensures
      var successes := AfterAll(start, events, keep).successes;
      forall i, j :: 0 <= i < j < |successes| ==> Apart(successes[i], successes[j], interval)
  {
    StartsInInv(start, keep);
    RunKeepsSpaced(start, events, 0, keep, interval);
  }

  // The loop's own history is such a run

  /** From a directory it could take over, a due history of file operations has left these files. */
  ghost predicate Traces(start: Disk, history: seq<Event>, files: Files, keep: nat, interval: Instant) {
    && CanStart(start) && Spaced(start, interval)
    && IsRun(start, history, keep) && AllBeginDue(start, history, keep, interval)
    && AfterAll(start, history, keep).files == files && AfterAll(start, history, keep).pc.Resting?
  }

  lemma {:induction false} DueAppend(d: Disk, a: seq<Event>, b: seq<Event>, keep: nat, interval: Instant)
    requires IsRun(d, a, keep) && IsRun(AfterAll(d, a, keep), b, keep) && IsRun(d, a + b, keep)
    requires AllBeginDue(d, a, keep, interval) && AllBeginDue(AfterAll(d, a, keep), b, keep, interval)
    ensures AllBeginDue(d, a + b, keep, interval)
    decreases |a|
  {
    if a == [] {
      assert a + b == b;
    } else {
      assert (a + b)[0] == a[0] && (a + b)[1..] == a[1..] + b;
      DueAppend(Happen(d, a[0], keep), a[1..], b, keep, interval);
    }
  }

  lemma {:induction false} NoBeginsAllDue(d: Disk, events: seq<Event>, keep: nat, interval: Instant)
    requires IsRun(d, events, keep) && NoBegins(events)
    ensures AllBeginDue(d, events, keep, interval)
    decreases |events|
  {
    if events != [] {
      NoBeginsAllDue(Happen(d, events[0], keep), events[1..], keep, interval);
    }
  }

  /** With an interval of a second or more, a due name is newer than every success. */
  lemma {:induction false} DueIsNewer(d: Disk, name: string, from: nat, keep: nat, interval: Instant)
    requires Inv(d, from, keep) && keep >= 1 && interval >= SECOND
    requires IsSnapshot(name) && BeginsDue(d.files, name, interval)
    ensures IsNewer(d, name)
  {
    forall i | 0 <= i < |d.successes|
      ensures Less(d.successes[i], name)
    {
      DueIsApart(d, name, from, keep, interval, i);
      LaterNameIsNewer(d.successes[i], name);
    }
  }

  /** What an attempt of `Turn` does to the directory goes on with the history. */
  lemma {:induction false} AttemptIsTraced(
    start: Disk, history: seq<Event>, before: Files, after: Files, clock: Clock, newest: Option<Instant>,
    retryAt: Option<Instant>, source: Source, dirSynced: bool, keep: nat, interval: Instant)
    returns (path: seq<Event>)
    requires keep >= 1 && interval >= SECOND && Traces(start, history, before, keep, interval)
    requires IsClock(clock) && NewestIs(before, newest) && IsDue(newest, retryAt, InstantOf(clock), interval)
    requires Effect(before, after, SnapshotName(clock.when), source, dirSynced, keep)
    ensures Traces(start, history + path, after, keep, interval)
  {
    var d, name := AfterAll(start, history, keep), SnapshotName(clock.when);
    StartsInInv(start, keep);
    var from := RunKeepsInv(start, history, 0, keep);
    AttemptsBeginDue(before, newest, retryAt, clock, interval);
    DueIsNewer(d, name, from, keep, interval);
    path := BackupIsRun(d, after, name, source, dirSynced, keep);
    RunAppend(start, history, path, keep);
    if path != [] {
      NoBeginsAllDue(Happen(d, path[0], keep), path[1..], keep, interval);
    }
    DueAppend(start, history, path, keep, interval);
  }

  lemma {:induction false} PrefixIsDue(d: Disk, events: seq<Event>, k: nat, keep: nat, interval: Instant)
    requires IsRun(d, events, keep) && AllBeginDue(d, events, keep, interval)
    requires k <= |events| && IsRun(d, events[..k], keep)
    ensures AllBeginDue(d, events[..k], keep, interval)
    decreases k
  {
    if k > 0 {
      assert events[..k][1..] == events[1..][..k - 1];
      PrefixIsDue(Happen(d, events[0], keep), events[1..], k - 1, keep, interval);
    }
  }

  /** A process that dies after any of these operations leaves a directory the next one can go on from. */
  lemma {:induction false} CutOffIsTraced(
    start: Disk, history: seq<Event>, files: Files, k: nat, keep: nat, interval: Instant) returns (left: Files)
    requires Traces(start, history, files, keep, interval) && k <= |history|
    ensures IsRun(start, history[..k], keep) && left == AfterAll(start, history[..k], keep).files
    ensures Traces(start, history[..k] + [Crash], left, keep, interval)
  {
    PrefixIsRun(start, history, k, keep);
    PrefixIsDue(start, history, k, keep, interval);
    var d := AfterAll(start, history[..k], keep);
    left := d.files;
    OneEvent(d, Crash, keep);
    NoBeginsAllDue(d, [Crash], keep, interval);
    RunAppend(start, history[..k], [Crash], keep);
    DueAppend(start, history[..k], [Crash], keep, interval);
  }

  /**
   So whatever the loop has met, and however often it was killed and started
   again: every snapshot in its directory passed the check, they are the newest
   of all it took, at least `keep` once there were so many, and any two that it
   ever took are an interval apart.
   */
  lemma {:induction false} LoopIsSafe(start: Disk, history: seq<Event>, files: Files, keep: nat, interval: Instant)
    requires keep >= 1 && Traces(start, history, files, keep, interval)
    ensures forall name :: name in files && IsSnapshot(name) ==> files[name]
    ensures
      var d := AfterAll(start, history, keep);
      && (exists from: nat :: NewestAreKept(d, from, keep))
      && forall i, j :: 0 <= i < j < |d.successes| ==> Apart(d.successes[i], d.successes[j], interval)
  {
    BackupsAreSafe(start, history, keep);
    SnapshotsAreSpaced(start, history, keep, interval);
  }

  // Retries are spaced within one process

  // `newest`: what the directory said. `restarted`: the process is new.
  datatype Wake = Wake(at: Instant, restarted: bool, newest: Option<Instant>, ok: bool)

  function Remembered(retryAt: Option<Instant>, wake: Wake): Option<Instant> {
    if wake.restarted then None else retryAt
  }

  /** What the wake-up does, as `Turn` does it. */
  function MoveAt(retryAt: Option<Instant>, wake: Wake, interval: Instant): Move {
    if IsDue(wake.newest, Remembered(retryAt, wake), wake.at, interval) then Tried(wake.ok) else Slept(MAX_SLEEP)
  }

  function RetryAtAfter(wakes: seq<Wake>, interval: Instant): Option<Instant> {
    if wakes == [] then None
    else
      var before, last := RetryAtAfter(wakes[..|wakes| - 1], interval), wakes[|wakes| - 1];
      RetryAfter(Remembered(before, last), MoveAt(before, last, interval), last.at)
  }

  /** The wake-up makes an attempt. */
  predicate Tries(wakes: seq<Wake>, i: nat, interval: Instant)
    requires i < |wakes|
  {
    MoveAt(RetryAtAfter(wakes[..i], interval), wakes[i], interval).Tried?
  }

  lemma {:induction false} RetryIsRemembered(wakes: seq<Wake>, i: nat, interval: Instant)
    requires i < |wakes| && Tries(wakes, i, interval) && !wakes[i].ok
    requires forall k :: i < k < |wakes| ==> !wakes[k].restarted && !Tries(wakes, k, interval)
    ensures RetryAtAfter(wakes, interval) == Some(wakes[i].at + RETRY_AFTER)
    decreases |wakes|
  {
    var n := |wakes| - 1;
    if i < n {
      assert wakes[..n][..i] == wakes[..i];
      assert forall k :: i < k < n ==> wakes[..n][..k] == wakes[..k];
      assert forall k :: i < k < n ==> Tries(wakes[..n], k, interval) == Tries(wakes, k, interval);
      RetryIsRemembered(wakes[..n], i, interval);
      assert !Tries(wakes, n, interval) && wakes[..n] == wakes[..|wakes| - 1];
    }
  }

  /** Within one process the attempt after a failed one comes no sooner than the retry delay. */
  lemma {:induction false} RetriesAreSpaced(wakes: seq<Wake>, i: nat, j: nat, interval: Instant)
    requires i < j < |wakes|
    requires Tries(wakes, i, interval) && !wakes[i].ok && Tries(wakes, j, interval)
    requires forall k :: i < k < j ==> !Tries(wakes, k, interval)
    requires forall k :: i < k <= j ==> !wakes[k].restarted
    ensures wakes[j].at >= wakes[i].at + RETRY_AFTER
  {
    var before := wakes[..j];
    assert forall k :: 0 <= k < j ==> before[..k] == wakes[..k];
    assert forall k :: i <= k < j ==> Tries(before, k, interval) == Tries(wakes, k, interval);
    RetryIsRemembered(before, i, interval);
  }
}
