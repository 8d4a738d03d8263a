/**
 Line endings around an agent call: every CRLF text file becomes LF before it,
 and exactly those files become CRLF after it.
 */
module LineEndings {
  import opened Replacing

  newtype byte = x: int | 0 <= x < 256
  type Bytes = seq<byte>

  const NUL: byte := 0
  const LF: byte := 10
  const CR: byte := 13
  const CRLF: Bytes := [CR, LF]
  const CRCRLF: Bytes := [CR, CR, LF]

  function Collapse(data: Bytes): Bytes {
    Replace(data, CRLF, [LF])
  }

  function Expand(data: Bytes): Bytes {
    Replace(data, [LF], CRLF)
  }

  function Restored(data: Bytes): Bytes {
    Expand(Collapse(data))
  }

  lemma Heads(data: Bytes)
    ensures [LF] <= data <==> data != [] && data[0] == LF
    ensures CRLF <= data <==> |data| > 1 && data[0] == CR && data[1] == LF
    ensures CRCRLF <= data <==> |data| > 2 && data[0] == CR && data[1] == CR && data[2] == LF
  {
    if data != [] && data[0] == LF {
      assert data[..1] == [LF];
    }
    if |data| > 1 && data[0] == CR && data[1] == LF {
      assert data[..2] == CRLF;
    }
    if |data| > 2 && data[0] == CR && data[1] == CR && data[2] == LF {
      assert data[..3] == CRCRLF;
    }
  }

  // The two passes as one

  /** One CR before each LF that has none. */
  function WithCrs(data: Bytes, afterCr: bool): Bytes {
    if data == [] then []
    else (if data[0] == LF && !afterCr then CRLF else [data[0]]) + WithCrs(data[1..], data[0] == CR)
  }

  lemma {:induction false} RestoredInsertsMissingCrs(data: Bytes)
    ensures Restored(data) == WithCrs(data, false)
    decreases |data|
  {
    if data == [] {
    } else if CRLF <= data {
      var rest := data[2..];
      RestoredInsertsMissingCrs(rest);
      assert Collapse(data) == [LF] + Collapse(rest);
      ExpandHead(LF, Collapse(rest));
      assert data[1..][0] == LF && data[1..][1..] == rest;
      assert WithCrs(data, false) == [CR] + ([LF] + WithCrs(rest, false));
    } else {
      var rest := data[1..];
      RestoredInsertsMissingCrs(rest);
      assert Collapse(data) == [data[0]] + Collapse(rest);
      ExpandHead(data[0], Collapse(rest));
      if data[0] == CR {
        Heads(data);
        assert WithCrs(rest, true) == WithCrs(rest, false);
      }
    }
  }

  lemma ExpandHead(head: byte, rest: Bytes)
    ensures Expand([head] + rest) == (if head == LF then CRLF else [head]) + Expand(rest)
  {
    var data := [head] + rest;
    assert data[1..] == rest;
    Heads(data);
  }

  // Collapsing undoes expanding

  lemma {:induction false} CollapseUndoesExpand(data: Bytes)
    ensures Collapse(Expand(data)) == data
    decreases |data|
  {
    if data != [] {
      var rest := data[1..];
      CollapseUndoesExpand(rest);
      assert data == [data[0]] + rest;
      ExpandHead(data[0], rest);
      var expanded := Expand(data);
      if data[0] == LF {
        assert CRLF <= expanded && expanded[2..] == Expand(rest);
      } else {
        NoLeadingLf(rest);
        assert expanded[1..] == Expand(rest);
        Heads(expanded);
      }
    }
  }

  lemma NoLeadingLf(data: Bytes)
    ensures Expand(data) != [] ==> Expand(data)[0] != LF
  {
    if data != [] {
      assert data == [data[0]] + data[1..];
      ExpandHead(data[0], data[1..]);
    }
  }

  lemma RestoringTwiceIsRestoringOnce(data: Bytes)
    ensures Restored(Restored(data)) == Restored(data)
    ensures Collapse(Restored(data)) == Collapse(data)
  {
    CollapseUndoesExpand(Collapse(data));
  }

  // Bare line feeds

  predicate NoBareLf(data: Bytes, afterCr: bool) {
    data == [] || ((data[0] == LF ==> afterCr) && NoBareLf(data[1..], data[0] == CR))
  }

  lemma {:induction false} WithCrsLeavesNoBareLf(data: Bytes, afterCr: bool)
    ensures NoBareLf(WithCrs(data, afterCr), afterCr)
    decreases |data|
  {
    if data != [] {
      var rest := WithCrs(data[1..], data[0] == CR);
      WithCrsLeavesNoBareLf(data[1..], data[0] == CR);
      var all := WithCrs(data, afterCr);
      if data[0] == LF && !afterCr {
        assert all[1..] == [LF] + rest && all[1..][1..] == rest;
      } else {
        assert all[1..] == rest;
      }
    }
  }

  lemma {:induction false} WithCrsKeepsExactlyWhatHasNoBareLf(data: Bytes, afterCr: bool)
    ensures |WithCrs(data, afterCr)| >= |data|
    ensures WithCrs(data, afterCr) == data <==> NoBareLf(data, afterCr)
    decreases |data|
  {
    if data != [] {
      var rest := WithCrs(data[1..], data[0] == CR);
      WithCrsKeepsExactlyWhatHasNoBareLf(data[1..], data[0] == CR);
      if !(data[0] == LF && !afterCr) {
        assert WithCrs(data, afterCr)[1..] == rest;
        assert rest == data[1..] ==> WithCrs(data, afterCr) == data;
      }
    }
  }

  /** Restoring changes nothing exactly on the files without a bare LF, and leaves none. */
  lemma {:induction false} RestoredKeepsExactlyWhatHasNoBareLf(data: Bytes)
    ensures Restored(data) == data <==> NoBareLf(data, false)
    ensures NoBareLf(Restored(data), false)
  {
    RestoredInsertsMissingCrs(data);
    WithCrsKeepsExactlyWhatHasNoBareLf(data, false);
    WithCrsLeavesNoBareLf(data, false);
  }

  // CR-CR-LF

  function Count(data: Bytes, pattern: Bytes): nat {
    if data == [] then 0 else (if pattern <= data then 1 else 0) + Count(data[1..], pattern)
  }

  lemma {:induction false} WithCrsAddsNoCrCrLf(data: Bytes, afterCr: bool)
    ensures Count(WithCrs(data, afterCr), CRCRLF) == Count(data, CRCRLF)
    decreases |data|
  {
    if data != [] {
      var rest := WithCrs(data[1..], data[0] == CR);
      WithCrsAddsNoCrCrLf(data[1..], data[0] == CR);
      var all := WithCrs(data, afterCr);
      if data[0] == LF && !afterCr {
        assert all[1..] == [LF] + rest && all[1..][1..] == rest;
        Heads(all);
        Heads(all[1..]);
        Heads(data);
      } else {
        assert all[1..] == rest;
        LeadingCrCrLf(data, afterCr);
      }
    }
  }

  lemma {:induction false} LeadingCrCrLf(data: Bytes, afterCr: bool)
    requires data != [] && !(data[0] == LF && !afterCr)
    ensures CRCRLF <= WithCrs(data, afterCr) <==> CRCRLF <= data
  {
    var all := WithCrs(data, afterCr);
    Heads(data);
    Heads(all);
    if data[0] == CR && |data| > 1 {
      var second := WithCrs(data[1..], true);
      assert all == [CR] + second && second[0] == data[1];
      if data[1] == CR {
        var third := WithCrs(data[2..], true);
        assert data[1..][1..] == data[2..] && second == [CR] + third;
        assert |data| > 2 ==> third[0] == data[2];
      }
    }
  }

  /** Restoring creates no CR-CR-LF that was not there. */
  lemma {:induction false} RestoredAddsNoCrCrLf(data: Bytes)
    ensures Count(Restored(data), CRCRLF) == Count(data, CRCRLF)
  {
    RestoredInsertsMissingCrs(data);
    WithCrsAddsNoCrCrLf(data, false);
  }

  // The exact round trip

  lemma {:induction false} CollapsedHasCrLfExactlyFromCrCrLf(data: Bytes)
    ensures Count(Collapse(data), CRLF) == Count(data, CRCRLF)
    decreases |data|
  {
    if data == [] {
    } else if CRLF <= data {
      var rest := data[2..];
      CollapsedHasCrLfExactlyFromCrCrLf(rest);
      assert Collapse(data)[1..] == Collapse(rest);
      assert data[1..][1..] == rest;
      Heads(data);
      Heads(data[1..]);
      Heads(Collapse(data));
    } else {
      var rest := data[1..];
      CollapsedHasCrLfExactlyFromCrCrLf(rest);
      assert Collapse(data)[1..] == Collapse(rest);
      CollapseHead(rest);
      Heads(data);
      Heads(rest);
      Heads(Collapse(data));
    }
  }

  lemma CollapseHead(data: Bytes)
    ensures Collapse(data) != [] <==> data != []
    ensures data != [] ==> (Collapse(data)[0] == LF <==> CRLF <= data || data[0] == LF)
  {
  }

  lemma {:induction false} CollapseKeepsExactlyWhatHasNoCrLf(data: Bytes)
    ensures |Collapse(data)| <= |data|
    ensures Collapse(data) == data <==> Count(data, CRLF) == 0
    decreases |data|
  {
    if data == [] {
    } else if CRLF <= data {
      CollapseKeepsExactlyWhatHasNoCrLf(data[2..]);
    } else {
      CollapseKeepsExactlyWhatHasNoCrLf(data[1..]);
      assert Collapse(data)[1..] == Collapse(data[1..]);
      assert Collapse(data) == [data[0]] + Collapse(data[1..]);
    }
  }

  /** Every LF stands after exactly one CR. */
  predicate Consistent(data: Bytes) {
    forall i :: 0 <= i < |data| && data[i] == LF ==> i > 0 && data[i - 1] == CR && (i > 1 ==> data[i - 2] != CR)
  }

  predicate CrBefore(data: Bytes, i: nat, afterCr: bool)
    requires i < |data|
  {
    if i == 0 then afterCr else data[i - 1] == CR
  }

  lemma {:induction false} BareLfByIndex(data: Bytes, afterCr: bool)
    ensures NoBareLf(data, afterCr) <==>
      forall i :: 0 <= i < |data| && data[i] == LF ==> CrBefore(data, i, afterCr)
    decreases |data|
  {
    if data != [] {
      var rest := data[1..];
      BareLfByIndex(rest, data[0] == CR);
      forall i | 0 <= i < |rest|
        ensures rest[i] == data[i + 1] && CrBefore(rest, i, data[0] == CR) == CrBefore(data, i + 1, afterCr)
      {
      }
      if NoBareLf(data, afterCr) {
        forall i | 0 <= i < |data| && data[i] == LF
          ensures CrBefore(data, i, afterCr)
        {
          assert i > 0 ==> rest[i - 1] == LF;
        }
      } else if data[0] == LF ==> afterCr {
        var i :| 0 <= i < |rest| && rest[i] == LF && !CrBefore(rest, i, data[0] == CR);
        assert data[i + 1] == LF && !CrBefore(data, i + 1, afterCr);
      } else {
        assert data[0] == LF && !CrBefore(data, 0, afterCr);
      }
    }
  }

  lemma {:induction false} CrCrLfByIndex(data: Bytes)
    ensures Count(data, CRCRLF) == 0 <==>
      forall i :: 1 < i < |data| && data[i] == LF && data[i - 1] == CR ==> data[i - 2] != CR
    decreases |data|
  {
    if data != [] {
      var rest := data[1..];
      CrCrLfByIndex(rest);
      Heads(data);
      if Count(data, CRCRLF) == 0 {
        forall i | 1 < i < |data| && data[i] == LF && data[i - 1] == CR
          ensures data[i - 2] != CR
        {
          assert i > 2 ==> rest[i - 1] == LF && rest[i - 2] == CR;
        }
      } else if CRCRLF <= data {
        assert data[2] == LF && data[1] == CR;
      } else {
        var i :| 1 < i < |rest| && rest[i] == LF && rest[i - 1] == CR && rest[i - 2] == CR;
        assert data[i + 1] == LF && data[i] == CR && data[i - 1] == CR;
      }
    }
  }

  lemma {:induction false} ConsistentMeans(data: Bytes)
    ensures Consistent(data) <==> NoBareLf(data, false) && Count(data, CRCRLF) == 0
  {
    BareLfByIndex(data, false);
    CrCrLfByIndex(data);
    if NoBareLf(data, false) && Count(data, CRCRLF) == 0 {
      forall i | 0 <= i < |data| && data[i] == LF
        ensures i > 0 && data[i - 1] == CR && (i > 1 ==> data[i - 2] != CR)
      {
        assert CrBefore(data, i, false);
      }
    }
  }

  /** Normalised and restored unedited, a file is itself again exactly when it is consistent. */
  lemma RoundTripIsExact(data: Bytes)
    ensures Restored(Collapse(data)) == data <==> Consistent(data)
  {
    var normal := Collapse(data);
    ConsistentMeans(data);
    RestoredKeepsExactlyWhatHasNoBareLf(data);
    RestoredKeepsExactlyWhatHasNoBareLf(normal);
    CollapsedHasCrLfExactlyFromCrCrLf(data);
    CollapseKeepsExactlyWhatHasNoCrLf(normal);
    if Restored(normal) == data {
      // Both `normal` and its collapse expand to the file, and collapsing tells them apart.
      assert Expand(normal) == data;
      CollapseUndoesExpand(normal);
      CollapseUndoesExpand(Collapse(normal));
    }
  }

  /** The two ways to be inconsistent: a bare LF gains a CR, and CR-CR-LF loses one. */
  lemma InconsistentFilesChange()
    ensures Restored(Collapse([LF])) != [LF]
    ensures Restored(Collapse([CR, CR, LF])) != [CR, CR, LF]
  {
    var bare, doubled := [LF], [CR, CR, LF];
    assert bare[0] == LF && !Consistent(bare);
    assert doubled[2] == LF && doubled[0] == CR && !Consistent(doubled);
    RoundTripIsExact(bare);
    RoundTripIsExact(doubled);
  }

  // The workspace

  // The parts of a path relative to the workspace, the file's own name last.
  type Path = seq<string>

  const SKIP_DIR_NAMES := {
    ".git", ".hg", ".svn", "node_modules", ".venv", "venv", "__pycache__", ".next", "dist", "build", "target"
  }
  const BINARY_SNIFF_BYTES := 8000

  // The files whose size, content or write fails with an OSError.
  datatype Faults = Faults(unstatable: set<Path>, unreadable: set<Path>, unwritable: set<Path>)

  type Files = map<Path, Bytes>

  predicate IsProbablyBinary(sample: Bytes) {
    NUL in sample
  }

  function Sample(data: Bytes): Bytes {
    if |data| > BINARY_SNIFF_BYTES then data[..BINARY_SNIFF_BYTES] else data
  }

  predicate IsCandidate(path: Path, data: Bytes, maxFileBytes: nat, faults: Faults) {
    && (forall part :: part in path ==> part !in SKIP_DIR_NAMES)
    && path !in faults.unstatable
    && |data| <= maxFileBytes
  }

  predicate IsConverted(path: Path, data: Bytes, maxFileBytes: nat, faults: Faults) {
    && IsCandidate(path, data, maxFileBytes, faults)
    && path !in faults.unreadable && path !in faults.unwritable
    && !IsProbablyBinary(Sample(data))
    && Contains(data, CRLF)
  }

  // What is converted, byte by byte

  /** A zero byte among the first 8000. */
  predicate HasEarlyZero(data: Bytes) {
    exists i :: 0 <= i < |data| && i < 8000 && data[i] == 0
  }

  /** A line feed (10) right after a carriage return (13). */
  predicate HasCrLf(data: Bytes) {
    exists i :: 0 <= i < |data| - 1 && data[i] == 13 && data[i + 1] == 10
  }

  /** A file in no skipped directory, within the size, that can be read and written. */
  predicate IsReachable(path: Path, data: Bytes, maxFileBytes: nat, faults: Faults) {
    && (forall i :: 0 <= i < |path| ==> path[i] !in SKIP_DIR_NAMES)
    && |data| <= maxFileBytes
    && path !in faults.unstatable && path !in faults.unreadable && path !in faults.unwritable
  }

  lemma {:induction false} ZeroIsSampled(data: Bytes)
    ensures IsProbablyBinary(Sample(data)) <==> HasEarlyZero(data)
  {
    var sample := Sample(data);
    if IsProbablyBinary(sample) {
      var i :| 0 <= i < |sample| && sample[i] == NUL;
      assert data[i] == 0;
    }
    if HasEarlyZero(data) {
      var i :| 0 <= i < |data| && i < 8000 && data[i] == 0;
      assert sample[i] == NUL;
    }
  }

  lemma {:induction false} PairIsCrLf(data: Bytes)
    ensures Contains(data, CRLF) <==> HasCrLf(data)
  {
    if Contains(data, CRLF) {
      var i: nat :| i <= |data| && OccursAt(data, CRLF, i);
      assert data[i..i + 2][0] == CR && data[i..i + 2][1] == LF;
      assert data[i] == 13 && data[i + 1] == 10;
    }
    if HasCrLf(data) {
      var i :| 0 <= i < |data| - 1 && data[i] == 13 && data[i + 1] == 10;
      assert data[i..i + 2] == CRLF;
      assert OccursAt(data, CRLF, i);
    }
  }

  /** It can be reached, is not binary and has a CRLF somewhere. */
  predicate ShouldConvert(path: Path, data: Bytes, maxFileBytes: nat, faults: Faults) {
    IsReachable(path, data, maxFileBytes, faults) && !HasEarlyZero(data) && HasCrLf(data)
  }

  lemma {:induction false} ConvertedByBytes(path: Path, data: Bytes, maxFileBytes: nat, faults: Faults)
    ensures IsConverted(path, data, maxFileBytes, faults) <==> ShouldConvert(path, data, maxFileBytes, faults)
  {
    ZeroIsSampled(data);
    PairIsCrLf(data);
    assert (forall part :: part in path ==> part !in SKIP_DIR_NAMES) <==>
      (forall i :: 0 <= i < |path| ==> path[i] !in SKIP_DIR_NAMES);
  }

  function ConvertedPaths(files: Files, maxFileBytes: nat, faults: Faults): set<Path> {
    set path | path in files && IsConverted(path, files[path], maxFileBytes, faults)
  }

  function NormalisedFiles(files: Files, maxFileBytes: nat, faults: Faults): Files {
    map path | path in files ::
      if IsConverted(path, files[path], maxFileBytes, faults) then Collapse(files[path]) else files[path]
  }

  predicate IsRestored(path: Path, converted: set<Path>, faults: Faults) {
    path in converted && path !in faults.unreadable && path !in faults.unwritable
  }

  function RestoredFiles(files: Files, converted: set<Path>, faults: Faults): Files {
    map path | path in files ::
      if IsRestored(path, converted, faults) then Restored(files[path]) else files[path]
  }

  lemma {:induction false} NormalisedByBytes(files: Files, maxFileBytes: nat, faults: Faults)
    ensures forall path :: path in ConvertedPaths(files, maxFileBytes, faults) <==>
      path in files && ShouldConvert(path, files[path], maxFileBytes, faults)
    ensures forall path :: path in files && path !in ConvertedPaths(files, maxFileBytes, faults) ==>
      NormalisedFiles(files, maxFileBytes, faults)[path] == files[path]
  {
    forall path | path in files
      ensures IsConverted(path, files[path], maxFileBytes, faults) <==>
        ShouldConvert(path, files[path], maxFileBytes, faults)
    {
      ConvertedByBytes(path, files[path], maxFileBytes, faults);
    }
  }

  method HasPair(data: Bytes) returns (found: bool)
    ensures found == Contains(data, CRLF)
  {
    var i := 0;
    while i + 1 < |data|
      invariant forall k: nat :: k < i ==> !OccursAt(data, CRLF, k)
    {
      if data[i] == CR && data[i + 1] == LF {
        assert OccursAt(data, CRLF, i);
        return true;
      }
      i := i + 1;
    }
    found := false;
  }

  class Workspace {
    var files: Files

    /** Exactly the reachable text files with a CRLF are converted; every other file, binary ones too, keeps its bytes. */
    method NormalizeToLf(maxFileBytes: nat, faults: Faults) returns (converted: set<Path>)
      modifies this
      ensures converted == ConvertedPaths(old(files), maxFileBytes, faults)
      ensures files == NormalisedFiles(old(files), maxFileBytes, faults)
      ensures forall path :: path in converted <==>
        path in old(files) && ShouldConvert(path, old(files)[path], maxFileBytes, faults)
      ensures forall path :: path in old(files) && path !in converted ==> files[path] == old(files)[path]
    {
      NormalisedByBytes(files, maxFileBytes, faults);
      converted := ConvertAll(maxFileBytes, faults);
    }

    method ConvertAll(maxFileBytes: nat, faults: Faults) returns (converted: set<Path>)
      modifies this
      ensures converted == ConvertedPaths(old(files), maxFileBytes, faults)
      ensures files == NormalisedFiles(old(files), maxFileBytes, faults)
    {
      converted := {};
      var found := files.Keys;
      while found != {}
        invariant found <= old(files).Keys == files.Keys
        invariant converted == set path |
          path in old(files) && path !in found && IsConverted(path, old(files)[path], maxFileBytes, faults)
        invariant forall path :: path in files ==>
          files[path] == if path in converted then Collapse(old(files)[path]) else old(files)[path]
        decreases |found|
      {
        var path :| path in found;
        found := found - {path};
        var data := files[path];
        if !IsCandidate(path, data, maxFileBytes, faults) {
          continue;
        }
        if path in faults.unreadable || IsProbablyBinary(Sample(data)) {
          continue;
        }
        var isCrlf := HasPair(data);
        if !isCrlf {
          continue;
        }
        var collapsed := ReplaceAll(data, CRLF, [LF]);
        if path in faults.unwritable {
          continue;
        }
        files := files[path := collapsed];
        converted := converted + {path};
      }
    }

    method RestoreOriginalLineEndings(converted: set<Path>, faults: Faults)
      modifies this
      ensures files == RestoredFiles(old(files), converted, faults)
    {
      var left := converted;
      while left != {}
        invariant left <= converted && files.Keys == old(files).Keys
        invariant forall path :: path in files ==>
          files[path] ==
            if path !in left && IsRestored(path, converted, faults) then Restored(old(files)[path])
            else old(files)[path]
        decreases |left|
      {
        var path :| path in left;
        left := left - {path};
        if path !in files || path in faults.unreadable {
          continue;
        }
        var data := files[path];
        var collapsed := ReplaceAll(data, CRLF, [LF]);
        var restored := ReplaceAll(collapsed, [LF], CRLF);
        if restored != data && path !in faults.unwritable {
          files := files[path := restored];
        }
      }
    }
  }

  const NO_FAULTS := Faults({}, {}, {})

  /** What normalising and restoring, with nothing between, makes of a workspace. */
  function BackAgain(files: Files, maxFileBytes: nat, faults: Faults): Files {
    RestoredFiles(NormalisedFiles(files, maxFileBytes, faults), ConvertedPaths(files, maxFileBytes, faults), NO_FAULTS)
  }

  lemma {:induction false} FileComesBack(files: Files, maxFileBytes: nat, faults: Faults, path: Path)
    requires path in files
    ensures BackAgain(files, maxFileBytes, faults)[path] == files[path] <==>
      path !in ConvertedPaths(files, maxFileBytes, faults) || Consistent(files[path])
  {
    if path in ConvertedPaths(files, maxFileBytes, faults) {
      RoundTripIsExact(files[path]);
    }
  }

  /** A file with an early zero byte comes back whole, whatever its line ends are. */
  lemma {:induction false} BinaryComesBack(files: Files, maxFileBytes: nat, faults: Faults, path: Path)
    requires path in files && HasEarlyZero(files[path])
    ensures path !in ConvertedPaths(files, maxFileBytes, faults)
    ensures NormalisedFiles(files, maxFileBytes, faults)[path] == files[path]
    ensures BackAgain(files, maxFileBytes, faults)[path] == files[path]
  {
    ConvertedByBytes(path, files[path], maxFileBytes, faults);
  }

  lemma {:induction false} AllComesBack(files: Files, maxFileBytes: nat, faults: Faults)
    ensures BackAgain(files, maxFileBytes, faults) == files <==>
      forall path :: path in ConvertedPaths(files, maxFileBytes, faults) ==> Consistent(files[path])
  {
    var converted, back := ConvertedPaths(files, maxFileBytes, faults), BackAgain(files, maxFileBytes, faults);
    forall path | path in files
      ensures back[path] == files[path] <==> path !in converted || Consistent(files[path])
    {
      FileComesBack(files, maxFileBytes, faults, path);
    }
    if forall path :: path in converted ==> Consistent(files[path]) {
      assert back == files;
    } else {
      var path :| path in converted && !Consistent(files[path]);
      assert back[path] != files[path];
    }
  }

  /**
   A workspace the agent did not touch comes back whole exactly when every
   converted file is consistent, and its binary files always do; whatever the
   agent wrote, a file outside the converted set keeps its bytes, and a
   converted one keeps its lines.
   */
  lemma {:induction false} WorkspaceRoundTrip(files: Files, maxFileBytes: nat, faults: Faults, edited: Files)
    ensures
      var converted := ConvertedPaths(files, maxFileBytes, faults);
      var normal := NormalisedFiles(files, maxFileBytes, faults);
      && (RestoredFiles(normal, converted, NO_FAULTS) == files <==>
          forall path :: path in converted ==> Consistent(files[path]))
      && (forall path :: path in files && path !in converted ==> normal[path] == files[path])
      && (forall path :: path in files && HasEarlyZero(files[path]) ==>
          RestoredFiles(normal, converted, NO_FAULTS)[path] == files[path])
      && (forall path :: path in edited && path !in converted ==>
          RestoredFiles(edited, converted, NO_FAULTS)[path] == edited[path])
      && (forall path :: path in edited && path in converted ==>
          && NoBareLf(RestoredFiles(edited, converted, NO_FAULTS)[path], false)
          && Collapse(RestoredFiles(edited, converted, NO_FAULTS)[path]) == Collapse(edited[path]))
  {
    AllComesBack(files, maxFileBytes, faults);
    forall path | path in files && HasEarlyZero(files[path])
      ensures BackAgain(files, maxFileBytes, faults)[path] == files[path]
    {
      BinaryComesBack(files, maxFileBytes, faults, path);
    }
    forall path | path in edited && path in ConvertedPaths(files, maxFileBytes, faults)
      ensures NoBareLf(Restored(edited[path]), false) && Collapse(Restored(edited[path])) == Collapse(edited[path])
    {
      RestoredKeepsExactlyWhatHasNoBareLf(edited[path]);
      RestoringTwiceIsRestoringOnce(edited[path]);
    }
  }
}
