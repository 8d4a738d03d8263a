/**
 The printed repository map and the parser that reads it back: a path per file,
 an indented line per symbol, and a marker after a cut at any character.
 */
module RepoMapText {
  import opened Prelude
  import opened Strings

  datatype Symbol = Symbol(kind: string, name: string, line: nat)
  datatype Entry = Entry(path: string, symbols: seq<Symbol>)

  const TRUNCATION_LINE := "[... repo map truncated ...]"
  const TRUNCATION_MARKER := "\n" + TRUNCATION_LINE

  // Lines

  function Decimal(n: nat): string {
    if n < 10 then ["0123456789"[n]] else Decimal(n / 10) + ["0123456789"[n % 10]]
  }

  function SymbolLine(symbol: Symbol): string {
    "  " + symbol.kind + " " + symbol.name + " (line " + Decimal(symbol.line) + ")"
  }

  // A printed symbol line tells its symbol

  lemma {:induction false} DecimalTells(m: nat, n: nat)
    requires Decimal(m) == Decimal(n)
    ensures m == n
    decreases m
  {
    DecimalEnds(m);
    DecimalEnds(n);
    if m >= 10 && n >= 10 {
      assert Decimal(m)[..|Decimal(m)| - 1] == Decimal(m / 10) && Decimal(n)[..|Decimal(n)| - 1] == Decimal(n / 10);
      DecimalTells(m / 10, n / 10);
    }
  }

  lemma {:induction false} DecimalEnds(n: nat)
    ensures |Decimal(n)| >= 1 && Decimal(n)[|Decimal(n)| - 1] == "0123456789"[n % 10]
    ensures |Decimal(n)| == 1 <==> n < 10
    decreases n
  {
    if n >= 10 {
      DecimalEnds(n / 10);
    }
  }

  lemma {:induction false} DecimalHasNoBlank(n: nat)
    ensures ' ' !in Decimal(n)
    decreases n
  {
    if n >= 10 {
      DecimalHasNoBlank(n / 10);
    }
  }

  lemma {:induction false} FirstBlank(a: string, x: string)
    requires ' ' !in a
    ensures (a + " " + x)[|a|] == ' ' && forall i :: 0 <= i < |a| ==> (a + " " + x)[i] != ' '
  {}

  lemma {:induction false} LastBlank(x: string, a: string)
    requires ' ' !in a
    ensures (x + " " + a)[|x|] == ' ' && forall i :: |x| < i <= |x| + |a| ==> (x + " " + a)[i] != ' '
  {
    var all := x + " " + a;
    assert forall i :: |x| < i <= |x| + |a| ==> all[i] == a[i - |x| - 1];
  }

  /** A word before the first blank is told by what it begins. */
  lemma {:induction false} FirstWordTells(a: string, x: string, b: string, y: string)
    requires a + " " + x == b + " " + y && ' ' !in a && ' ' !in b
    ensures a == b && x == y
  {
    FirstBlank(a, x);
    FirstBlank(b, y);
    PartsAre(a, x);
    PartsAre(b, y);
    assert |a| == |b|;
  }

  /** And one after the last blank by what it ends. */
  lemma {:induction false} LastWordTells(x: string, a: string, y: string, b: string)
    requires x + " " + a == y + " " + b && ' ' !in a && ' ' !in b
    ensures x == y && a == b
  {
    LastBlank(x, a);
    LastBlank(y, b);
    PartsAre(x, a);
    PartsAre(y, b);
    assert |x| + 1 + |a| == |x + " " + a| == |y| + 1 + |b|;
    assert |x| == |y|;
  }

  lemma {:induction false} PartsAre(a: string, x: string)
    ensures (a + " " + x)[..|a|] == a && (a + " " + x)[|a| + 1..] == x
  {}

  /** Kinds are words; then a line determines its symbol, whatever the name holds. */
  lemma {:induction false} SymbolLineTells(a: Symbol, b: Symbol)
    requires ' ' !in a.kind && ' ' !in b.kind && SymbolLine(a) == SymbolLine(b)
    ensures a == b
  {
    var x, y := a.kind + " " + a.name + " (line", b.kind + " " + b.name + " (line";
    LineEndsInNumber(a);
    LineEndsInNumber(b);
    DecimalHasNoBlank(a.line);
    DecimalHasNoBlank(b.line);
    LastWordTells("  " + x, Decimal(a.line) + ")", "  " + y, Decimal(b.line) + ")");
    assert (Decimal(a.line) + ")")[..|Decimal(a.line)|] == Decimal(a.line);
    assert (Decimal(b.line) + ")")[..|Decimal(b.line)|] == Decimal(b.line);
    DecimalTells(a.line, b.line);
    assert ("  " + x)[2..] == x && ("  " + y)[2..] == y;
    assert x == a.kind + " " + (a.name + " (line") && y == b.kind + " " + (b.name + " (line");
    FirstWordTells(a.kind, a.name + " (line", b.kind, b.name + " (line");
    assert (a.name + " (line")[..|a.name|] == a.name && (b.name + " (line")[..|b.name|] == b.name;
  }

  lemma {:induction false} LineEndsInNumber(symbol: Symbol)
    ensures SymbolLine(symbol) ==
      "  " + (symbol.kind + " " + symbol.name + " (line") + " " + (Decimal(symbol.line) + ")")
  {
    assert " (line " == " (line" + " ";
  }

  function SymbolLines(symbols: seq<Symbol>): (lines: seq<string>)
    ensures |lines| == |symbols|
  {
    if symbols == [] then [] else [SymbolLine(symbols[0])] + SymbolLines(symbols[1..])
  }

  function MapLines(entries: seq<Entry>): seq<string> {
    if entries == [] then []
    else [entries[0].path] + SymbolLines(entries[0].symbols) + MapLines(entries[1..])
  }

  function JoinLines(lines: seq<string>): string {
    if lines == [] then ""
    else if |lines| == 1 then lines[0]
    else lines[0] + "\n" + JoinLines(lines[1..])
  }

  predicate IsOneLine(s: string) {
    '\n' !in s
  }

  predicate AreLines(lines: seq<string>) {
    forall i :: 0 <= i < |lines| ==> IsOneLine(lines[i])
  }

  predicate OneLineSymbols(entries: seq<Entry>) {
    forall i, j :: 0 <= i < |entries| && 0 <= j < |entries[i].symbols| ==>
      IsOneLine(entries[i].symbols[j].kind) && IsOneLine(entries[i].symbols[j].name)
  }

  function SymbolCount(entries: seq<Entry>): nat {
    if entries == [] then 0 else |entries[0].symbols| + SymbolCount(entries[1..])
  }

  // The parser

  /** `str.splitlines` on text whose only line break is the line feed: no empty last line. */
  function SplitLines(text: string): seq<string> {
    if text == "" then []
    else if text[0] == '\n' then [""] + SplitLines(text[1..])
    else
      var rest := SplitLines(text[1..]);
      if rest == [] then [[text[0]]] else [[text[0]] + rest[0]] + rest[1..]
  }

  datatype Listed = Listed(path: string, symbols: nat)

  function Emitted(current: Option<string>, count: nat): seq<Listed> {
    if current.Some? then [Listed(current.value, count)] else []
  }

  predicate IsSkipped(line: string) {
    line == "" || line[0] == '['
  }

  function Parsed(lines: seq<string>, current: Option<string>, count: nat): seq<Listed>
    decreases |lines|
  {
    if lines == [] then Emitted(current, count)
    else if IsSkipped(lines[0]) then Parsed(lines[1..], current, count)
    else if lines[0][0] == ' ' then Parsed(lines[1..], current, if current.Some? then count + 1 else count)
    else Emitted(current, count) + Parsed(lines[1..], Some(lines[0]), 0)
  }

  function ParsedText(text: string): seq<Listed> {
    Parsed(SplitLines(text), None, 0)
  }

  method ParseRepoMapFiles(text: string) returns (files: seq<Listed>)
    ensures files == ParsedText(text)
  {
    files := [];
    var current: Option<string>, count: nat := None, 0;
    var lines := SplitLines(text);
    var i := 0;
    while i < |lines|
      invariant i <= |lines| && files + Parsed(lines[i..], current, count) == ParsedText(text)
    {
      var line := lines[i];
      assert lines[i..][1..] == lines[i + 1..];
      i := i + 1;
      if line == "" || line[0] == '[' {
        continue;
      }
      if line[0] == ' ' {
        if current.Some? {
          count := count + 1;
        }
        continue;
      }
      if current.Some? {
        files := files + [Listed(current.value, count)];
      }
      current, count := Some(line), 0;
    }
    if current.Some? {
      files := files + [Listed(current.value, count)];
    }
  }

  // The printer

  function Capped(whole: string, maxChars: nat): string {
    if |whole| > maxChars then whole[..maxChars] + TRUNCATION_MARKER else whole
  }

  lemma {:induction false} CutIsMarked(whole: string, maxChars: nat)
    ensures
      var text := Capped(whole, maxChars);
      |text| > maxChars ==> text == whole[..maxChars] + "\n[... repo map truncated ...]"
  {
    assert TRUNCATION_MARKER == "\n[... repo map truncated ...]";
  }

  method AppendSymbols(lines: seq<string>, symbols: seq<Symbol>) returns (appended: seq<string>, count: nat)
    ensures appended == lines + SymbolLines(symbols) && count == |symbols|
  {
    appended, count := lines, 0;
    while count < |symbols|
      invariant count <= |symbols|
      invariant appended + SymbolLines(symbols[count..]) == lines + SymbolLines(symbols)
    {
      var line := SymbolLine(symbols[count]);
      assert symbols[count..][1..] == symbols[count + 1..];
      appended := appended + [line];
      count := count + 1;
    }
  }

  lemma MapOneMore(lines: seq<string>, entries: seq<Entry>, i: nat)
    requires i < |entries|
    ensures (lines + [entries[i].path]) + SymbolLines(entries[i].symbols) + MapLines(entries[i + 1..])
            == lines + MapLines(entries[i..])
    ensures SymbolCount(entries[i..]) == |entries[i].symbols| + SymbolCount(entries[i + 1..])
  {
    assert entries[i..][1..] == entries[i + 1..];
  }

  method PrintEntries(entries: seq<Entry>, maxChars: nat) returns (text: string, symbolCount: nat, cut: bool)
    ensures symbolCount == SymbolCount(entries)
    ensures text == Capped(JoinLines(MapLines(entries)), maxChars)
    ensures cut <==> |JoinLines(MapLines(entries))| > maxChars
  {
    var lines: seq<string> := [];
    symbolCount := 0;
    var i := 0;
    while i < |entries|
      invariant i <= |entries|
      invariant lines + MapLines(entries[i..]) == MapLines(entries)
      invariant symbolCount + SymbolCount(entries[i..]) == SymbolCount(entries)
    {
      var entry := entries[i];
      var appended, count := AppendSymbols(lines + [entry.path], entry.symbols);
      MapOneMore(lines, entries, i);
      lines, symbolCount := appended, symbolCount + count;
      i := i + 1;
    }
    assert lines == MapLines(entries);
    var whole := JoinLines(lines);
    text, cut := Capped(whole, maxChars), |whole| > maxChars;
  }

  /** What a map looks like: a path, and a line per symbol under it. */
  lemma {:induction false} AMap()
    ensures MapLines([Entry("a.py", [Symbol("fn", "main", 3)]), Entry("b.md", [])]) ==
      ["a.py", "  fn main (line 3)", "b.md"]
  {
    var entries := [Entry("a.py", [Symbol("fn", "main", 3)]), Entry("b.md", [])];
    assert entries[1..] == [Entry("b.md", [])] && entries[1..][1..] == [];
    assert SymbolLines([Symbol("fn", "main", 3)]) == [SymbolLine(Symbol("fn", "main", 3))];
    assert Decimal(3) == "3";
    assert SymbolLine(Symbol("fn", "main", 3)) == "  fn main (line 3)";
  }

  /** The count is that of the indented lines. */
  lemma {:induction false} CountIsOfSymbolLines(entries: seq<Entry>)
    ensures |MapLines(entries)| == |entries| + SymbolCount(entries)
    decreases |entries|
  {
    if entries != [] {
      CountIsOfSymbolLines(entries[1..]);
    }
  }

  // The files a map is built from

  // What the symbol extraction of a file comes to. All but the last list no symbols.
  datatype Extraction = NoLanguage | TooBig | Unparseable | Extracted(symbols: seq<Symbol>)

  datatype RepoFile = RepoFile(path: string, extraction: Extraction)

  function EntryOf(file: RepoFile): (entry: Entry)
    ensures entry.path == file.path
    ensures file.extraction.Extracted? ==> entry.symbols == file.extraction.symbols
    ensures !file.extraction.Extracted? ==> entry.symbols == []
  {
    Entry(file.path, if file.extraction.Extracted? then file.extraction.symbols else [])
  }

  function EntriesOf(files: seq<RepoFile>): (entries: seq<Entry>)
    ensures |entries| == |files| && forall i :: 0 <= i < |files| ==> entries[i] == EntryOf(files[i])
  {
    seq(|files|, i requires 0 <= i < |files| => EntryOf(files[i]))
  }

  predicate SortedByPath(files: seq<RepoFile>) {
    forall i, j :: 0 <= i < j < |files| ==> !Less(files[j].path, files[i].path)
  }

  predicate DistinctPaths(files: seq<RepoFile>) {
    forall i, j :: 0 <= i < j < |files| ==> files[i].path != files[j].path
  }

  function InsertFile(file: RepoFile, sorted: seq<RepoFile>): seq<RepoFile> {
    if sorted == [] || !Less(sorted[0].path, file.path) then [file] + sorted
    else [sorted[0]] + InsertFile(file, sorted[1..])
  }

  function SortFiles(files: seq<RepoFile>): seq<RepoFile> {
    if files == [] then [] else InsertFile(files[0], SortFiles(files[1..]))
  }

  lemma {:induction false} NotAfter(a: string, b: string, c: string)
    requires !Less(b, a) && !Less(c, b)
    ensures !Less(c, a)
  {
    LessIsTotal(a, b);
    LessIsTotal(b, c);
    LessIsTotal(c, a);
    if Less(c, a) && a != b && b != c {
      LessTransitive(b, c, a);
    }
  }

  lemma {:induction false} InsertSorts(file: RepoFile, sorted: seq<RepoFile>)
    requires SortedByPath(sorted)
    ensures SortedByPath(InsertFile(file, sorted))
    ensures multiset(InsertFile(file, sorted)) == multiset(sorted) + multiset{file}
    decreases |sorted|
  {
    if sorted != [] {
      var head, rest := sorted[0], sorted[1..];
      LessIsTotal(head.path, file.path);
      assert sorted == [head] + rest;
      if Less(head.path, file.path) {
        InsertSorts(file, rest);
        var inserted := InsertFile(file, rest);
        forall j | 0 <= j < |inserted|
          ensures !Less(inserted[j].path, head.path)
        {
          assert inserted[j] in multiset(inserted);
          assert inserted[j] == file || inserted[j] in rest;
        }
      } else {
        forall j | 0 <= j < |sorted|
          ensures !Less(sorted[j].path, file.path)
        {
          if j > 0 {
            NotAfter(file.path, head.path, sorted[j].path);
          }
        }
      }
    }
  }

  lemma {:induction false} SortSorts(files: seq<RepoFile>)
    ensures SortedByPath(SortFiles(files)) && multiset(SortFiles(files)) == multiset(files)
    decreases |files|
  {
    if files != [] {
      SortSorts(files[1..]);
      InsertSorts(files[0], SortFiles(files[1..]));
      assert files == [files[0]] + files[1..];
    }
  }

  lemma {:induction false} HeadsAgree(a: seq<RepoFile>, b: seq<RepoFile>)
    requires SortedByPath(a) && SortedByPath(b) && DistinctPaths(a) && multiset(a) == multiset(b)
    requires a != [] && b != []
    ensures a[0] == b[0]
  {
    assert a[0] in multiset(b) && b[0] in multiset(a);
    var i :| 0 <= i < |a| && a[i] == b[0];
    var j :| 0 <= j < |b| && b[j] == a[0];
    LessIsTotal(a[0].path, b[0].path);
  }

  lemma {:induction false} SortedIsUnique(a: seq<RepoFile>, b: seq<RepoFile>)
    requires SortedByPath(a) && SortedByPath(b) && DistinctPaths(a) && multiset(a) == multiset(b)
    ensures a == b
    decreases |a|
  {
    if a == [] || b == [] {
      assert |multiset(a)| == |a| && |multiset(b)| == |b|;
    } else {
      HeadsAgree(a, b);
      assert a == [a[0]] + a[1..] && b == [b[0]] + b[1..];
      assert multiset(a[1..]) == multiset(a) - multiset{a[0]};
      assert multiset(b[1..]) == multiset(b) - multiset{b[0]};
      SortedIsUnique(a[1..], b[1..]);
    }
  }

  /** The map depends on the files alone, not on the order the walk found them in. */
  lemma {:induction false} OrderOfWalkDoesNotMatter(files: seq<RepoFile>, others: seq<RepoFile>)
    requires multiset(files) == multiset(others) && DistinctPaths(files)
    ensures SortFiles(files) == SortFiles(others)
  {
    SortSorts(files);
    SortSorts(others);
    SortingKeepsDistinct(files, SortFiles(files));
    SortedIsUnique(SortFiles(files), SortFiles(others));
  }

  lemma {:induction false} SortingKeepsDistinct(files: seq<RepoFile>, sorted: seq<RepoFile>)
    requires DistinctPaths(files) && multiset(files) == multiset(sorted)
    ensures DistinctPaths(sorted)
  {
    forall i, j | 0 <= i < j < |sorted|
      ensures sorted[i].path != sorted[j].path
    {
      if sorted[i].path == sorted[j].path {
        SamePathSameFile(files, sorted, i, j);
        TwiceIn(sorted, i, j);
        OnceIn(files, sorted[i]);
      }
    }
  }

  lemma {:induction false} SamePathSameFile(files: seq<RepoFile>, sorted: seq<RepoFile>, i: nat, j: nat)
    requires DistinctPaths(files) && multiset(files) == multiset(sorted) && i < |sorted| && j < |sorted|
    requires sorted[i].path == sorted[j].path
    ensures sorted[i] == sorted[j]
  {
    assert sorted[i] in multiset(files) && sorted[j] in multiset(files);
    var k :| 0 <= k < |files| && files[k] == sorted[i];
    var l :| 0 <= l < |files| && files[l] == sorted[j];
  }

  lemma {:induction false} TwiceIn(files: seq<RepoFile>, i: nat, j: nat)
    requires i < j < |files| && files[i] == files[j]
    ensures multiset(files)[files[i]] >= 2
  {
    assert files == files[..j] + files[j..];
    assert files[i] == files[..j][i] && files[j] == files[j..][0];
    assert files[i] in multiset(files[..j]) && files[i] in multiset(files[j..]);
  }

  lemma {:induction false} OnceIn(files: seq<RepoFile>, file: RepoFile)
    requires DistinctPaths(files)
    ensures multiset(files)[file] <= 1
    decreases |files|
  {
    if files != [] {
      OnceIn(files[1..], file);
      assert files == [files[0]] + files[1..];
      if files[0] == file {
        assert file !in files[1..];
        assert file !in multiset(files[1..]);
      }
    }
  }

  /**
   `build_repo_map_sync` over the files of the walk: each file's line, in the
   order of the paths, then its symbols if it gave any; cut at `maxChars`.
   */
  method BuildRepoMapText(files: seq<RepoFile>, walkTruncated: bool, maxChars: nat)
    returns (text: string, symbolCount: nat, truncated: bool)
    ensures
      var entries := EntriesOf(SortFiles(files));
      && symbolCount == SymbolCount(entries)
      && text == Capped(JoinLines(MapLines(entries)), maxChars)
      && (truncated <==> walkTruncated || |JoinLines(MapLines(entries))| > maxChars)
      && (|text| > maxChars ==> text == JoinLines(MapLines(entries))[..maxChars] + "\n[... repo map truncated ...]")
    ensures SortedByPath(SortFiles(files)) && multiset(SortFiles(files)) == multiset(files)
  {
    SortSorts(files);
    var cut: bool;
    text, symbolCount, cut := PrintEntries(EntriesOf(SortFiles(files)), maxChars);
    truncated := walkTruncated || cut;
    CutIsMarked(JoinLines(MapLines(EntriesOf(SortFiles(files)))), maxChars);
  }

  // Splitting undoes joining

  lemma {:induction false} SplitLastLine(line: string)
    requires IsOneLine(line)
    ensures SplitLines(line) == if line == "" then [] else [line]
    decreases |line|
  {
    if line != "" {
      SplitLastLine(line[1..]);
      assert line[0] in line && line == [line[0]] + line[1..];
      assert |line| == 1 ==> line == [line[0]];
    }
  }

  lemma {:induction false} SplitOneLine(line: string, rest: string)
    requires IsOneLine(line)
    ensures SplitLines(line + "\n" + rest) == [line] + SplitLines(rest)
    decreases |line|
  {
    var text := line + "\n" + rest;
    if line == "" {
      assert text == "\n" + rest && text[1..] == rest;
    } else {
      SplitOneLine(line[1..], rest);
      assert text[1..] == line[1..] + "\n" + rest;
      assert line == [line[0]] + line[1..];
    }
  }

  /** Splitting gives the lines back, but for an empty last one, which the parser would skip. */
  lemma {:induction false} ParsingJoinedLines(lines: seq<string>, current: Option<string>, count: nat)
    requires AreLines(lines)
    ensures Parsed(SplitLines(JoinLines(lines)), current, count) == Parsed(lines, current, count)
    decreases |lines|
  {
    if |lines| == 1 {
      SplitLastLine(lines[0]);
      assert lines[0] == "" ==> lines[1..] == [];
      assert lines == [lines[0]];
    } else if lines != [] {
      var rest := JoinLines(lines[1..]);
      SplitOneLine(lines[0], rest);
      var split := SplitLines(JoinLines(lines));
      assert split == [lines[0]] + SplitLines(rest) && split[1..] == SplitLines(rest);
      ParsingJoinedLines(lines[1..], current, count);
      ParsingJoinedLines(lines[1..], current, if current.Some? then count + 1 else count);
      ParsingJoinedLines(lines[1..], Some(lines[0]), 0);
    }
  }

  // The printed map parses back

  function Summary(entries: seq<Entry>): (listed: seq<Listed>)
    ensures |listed| == |entries|
    ensures forall i :: 0 <= i < |entries| ==> listed[i] == Listed(entries[i].path, |entries[i].symbols|)
  {
    if entries == [] then []
    else [Listed(entries[0].path, |entries[0].symbols|)] + Summary(entries[1..])
  }

  /** A file line: not empty, not indented, not like the marker. */
  predicate IsListable(path: string) {
    path != "" && path[0] != ' ' && path[0] != '['
  }

  predicate AllListable(entries: seq<Entry>) {
    forall i :: 0 <= i < |entries| ==> IsListable(entries[i].path)
  }

  lemma {:induction false} DecimalIsOneLine(n: nat)
    ensures IsOneLine(Decimal(n))
    decreases n
  {
    if n >= 10 {
      DecimalIsOneLine(n / 10);
    }
  }

  lemma SymbolLineIsIndented(symbol: Symbol)
    ensures SymbolLine(symbol) != "" && SymbolLine(symbol)[0] == ' '
    ensures IsOneLine(symbol.kind) && IsOneLine(symbol.name) ==> IsOneLine(SymbolLine(symbol))
  {
    DecimalIsOneLine(symbol.line);
  }

  lemma {:induction false} MapLinesAreLines(entries: seq<Entry>)
    requires OneLineSymbols(entries) && forall i :: 0 <= i < |entries| ==> IsOneLine(entries[i].path)
    ensures AreLines(MapLines(entries))
    decreases |entries|
  {
    if entries != [] {
      MapLinesAreLines(entries[1..]);
      SymbolLinesAreLines(entries[0].symbols);
    }
  }

  lemma {:induction false} SymbolLinesAreLines(symbols: seq<Symbol>)
    requires forall j :: 0 <= j < |symbols| ==> IsOneLine(symbols[j].kind) && IsOneLine(symbols[j].name)
    ensures AreLines(SymbolLines(symbols))
    decreases |symbols|
  {
    if symbols != [] {
      SymbolLineIsIndented(symbols[0]);
      SymbolLinesAreLines(symbols[1..]);
    }
  }

  lemma {:induction false} SymbolLinesAreIndented(symbols: seq<Symbol>)
    ensures forall j :: 0 <= j < |symbols| ==> SymbolLines(symbols)[j] != "" && SymbolLines(symbols)[j][0] == ' '
    decreases |symbols|
  {
    if symbols != [] {
      SymbolLineIsIndented(symbols[0]);
      SymbolLinesAreIndented(symbols[1..]);
    }
  }

  lemma {:induction false} ParsingFirst(line: string, rest: seq<string>, current: Option<string>, count: nat)
    ensures Parsed([line] + rest, current, count) ==
      if IsSkipped(line) then Parsed(rest, current, count)
      else if line[0] == ' ' then Parsed(rest, current, if current.Some? then count + 1 else count)
      else Emitted(current, count) + Parsed(rest, Some(line), 0)
  {
    assert ([line] + rest)[1..] == rest;
  }

  lemma {:induction false} MapLinesFirst(entries: seq<Entry>)
    requires entries != []
    ensures MapLines(entries) == [entries[0].path] + (SymbolLines(entries[0].symbols) + MapLines(entries[1..]))
  {
  }

  lemma {:induction false} ParsingIndented(
    indented: seq<string>, rest: seq<string>, current: Option<string>, count: nat)
    requires forall j :: 0 <= j < |indented| ==> indented[j] != "" && indented[j][0] == ' '
    ensures Parsed(indented + rest, current, count)
      == Parsed(rest, current, if current.Some? then count + |indented| else count)
    decreases |indented|
  {
    if indented == [] {
      assert indented + rest == rest;
    } else {
      assert (indented + rest)[1..] == indented[1..] + rest;
      ParsingIndented(indented[1..], rest, current, if current.Some? then count + 1 else count);
    }
  }

  function ListableCount(entries: seq<Entry>): nat {
    if entries == [] then 0 else (if IsListable(entries[0].path) then 1 else 0) + ListableCount(entries[1..])
  }

  lemma {:induction false} ParsingFirstFile(entries: seq<Entry>, current: Option<string>, count: nat)
    requires entries != [] && IsListable(entries[0].path)
    ensures Parsed(MapLines(entries), current, count) ==
      Emitted(current, count) + Parsed(MapLines(entries[1..]), Some(entries[0].path), |entries[0].symbols|)
  {
    var entry, rest := entries[0], MapLines(entries[1..]);
    var indented := SymbolLines(entry.symbols);
    SymbolLinesAreIndented(entry.symbols);
    MapLinesFirst(entries);
    ParsingFirst(entry.path, indented + rest, current, count);
    ParsingIndented(indented, rest, Some(entry.path), 0);
  }

  lemma {:induction false} ParsingMap(entries: seq<Entry>, current: Option<string>, count: nat)
    requires AllListable(entries)
    ensures Parsed(MapLines(entries), current, count) == Emitted(current, count) + Summary(entries)
    decreases |entries|
  {
    if entries != [] {
      var path, symbols := entries[0].path, |entries[0].symbols|;
      ParsingFirstFile(entries, current, count);
      ParsingMap(entries[1..], Some(path), symbols);
      assert Emitted(Some(path), symbols) + Summary(entries[1..]) == Summary(entries);
    }
  }

  lemma {:induction false} ParsingMapCounts(entries: seq<Entry>, current: Option<string>, count: nat)
    ensures |Parsed(MapLines(entries), current, count)| == |Emitted(current, count)| + ListableCount(entries)
    decreases |entries|
  {
    if entries != [] {
      var entry, rest := entries[0], MapLines(entries[1..]);
      var indented := SymbolLines(entry.symbols);
      SymbolLinesAreIndented(entry.symbols);
      MapLinesFirst(entries);
      ParsingFirst(entry.path, indented + rest, current, count);
      if IsListable(entry.path) {
        ParsingIndented(indented, rest, Some(entry.path), 0);
        ParsingMapCounts(entries[1..], Some(entry.path), |indented|);
      } else {
        var taken := if !IsSkipped(entry.path) && current.Some? then count + 1 else count;
        ParsingIndented(indented, rest, current, taken);
        ParsingMapCounts(entries[1..], current, if current.Some? then taken + |indented| else taken);
      }
    }
  }

  lemma {:induction false} AllListableByCount(entries: seq<Entry>)
    ensures ListableCount(entries) <= |entries|
    ensures ListableCount(entries) == |entries| <==> AllListable(entries)
    decreases |entries|
  {
    if entries != [] {
      AllListableByCount(entries[1..]);
      assert AllListable(entries) <==> IsListable(entries[0].path) && AllListable(entries[1..]) by {
        assert forall i :: 0 < i < |entries| ==> entries[i] == entries[1..][i - 1];
      }
    }
  }

  /** Parsing an uncut map gives every path in order with its symbol count exactly when every path is a file line. */
  lemma {:induction false} RoundTripIsExact(entries: seq<Entry>)
    requires OneLineSymbols(entries) && forall i :: 0 <= i < |entries| ==> IsOneLine(entries[i].path)
    ensures ParsedText(JoinLines(MapLines(entries))) == Summary(entries) <==> AllListable(entries)
    ensures |ParsedText(JoinLines(MapLines(entries)))| == ListableCount(entries)
  {
    MapLinesAreLines(entries);
    ParsingJoinedLines(MapLines(entries), None, 0);
    ParsingMapCounts(entries, None, 0);
    AllListableByCount(entries);
    if AllListable(entries) {
      ParsingMap(entries, None, 0);
    }
    assert Emitted(None, 0) + Summary(entries) == Summary(entries);
  }

  /** A root file like `[id].tsx` is taken for the marker and lost, and one like ` a.txt` for a symbol. */
  lemma BracketPathIsLost()
    ensures ParsedText(JoinLines(MapLines([Entry("[id].tsx", [])]))) == []
    ensures ParsedText(JoinLines(MapLines([Entry(" a.txt", [])]))) == []
  {
    var bracket, space := [Entry("[id].tsx", [])], [Entry(" a.txt", [])];
    assert MapLines(bracket) == ["[id].tsx"] && MapLines(space) == [" a.txt"];
    RoundTripIsExact(bracket);
    RoundTripIsExact(space);
  }

  // The cut map

  /** `cut` ends in a part of a line of `lines`: the whole lines before it, then a prefix. */
  lemma {:induction false} CutInALine(lines: seq<string>, k: nat) returns (m: nat, part: string)
    requires lines != [] && k <= |JoinLines(lines)|
    ensures m < |lines| && part <= lines[m]
    ensures JoinLines(lines)[..k] == JoinLines(lines[..m] + [part])
    decreases |lines|
  {
    if k <= |lines[0]| {
      m, part := 0, lines[0][..k];
      assert lines[..0] + [part] == [part];
      assert lines[0] <= JoinLines(lines);
    } else {
      var rest := JoinLines(lines[1..]);
      var m', part' := CutInALine(lines[1..], k - |lines[0]| - 1);
      m, part := m' + 1, part';
      var cut := lines[..m] + [part];
      assert cut[1..] == lines[1..][..m'] + [part] && |cut| > 1;
      assert JoinLines(lines) == (lines[0] + "\n") + rest;
      assert JoinLines(lines)[..k] == (lines[0] + "\n") + rest[..k - |lines[0]| - 1];
    }
  }

  lemma {:induction false} JoinOneMore(lines: seq<string>, line: string)
    requires lines != []
    ensures JoinLines(lines + [line]) == JoinLines(lines) + "\n" + line
    decreases |lines|
  {
    assert (lines + [line])[1..] == lines[1..] + [line];
    if |lines| > 1 {
      JoinOneMore(lines[1..], line);
    }
  }

  lemma {:induction false} SkippedLastLine(lines: seq<string>, line: string, current: Option<string>, count: nat)
    requires IsSkipped(line)
    ensures Parsed(lines + [line], current, count) == Parsed(lines, current, count)
    decreases |lines|
  {
    if lines != [] {
      assert (lines + [line])[1..] == lines[1..] + [line];
      SkippedLastLine(lines[1..], line, current, count);
      SkippedLastLine(lines[1..], line, current, if current.Some? then count + 1 else count);
      SkippedLastLine(lines[1..], line, Some(lines[0]), 0);
    }
  }

  /** `last` is `entry` as far as the cut lets it show. */
  predicate IsCutEntry(last: Listed, entry: Entry) {
    && last.path != "" && last.path <= entry.path
    && last.symbols <= |entry.symbols|
    && (last.path != entry.path ==> last.symbols == 0)
  }

  /** The first files of the map, all but the last exactly. */
  predicate IsCutOf(listed: seq<Listed>, entries: seq<Entry>) {
    && |listed| <= |entries|
    && (forall i :: 0 <= i < |listed| - 1 ==> listed[i] == Listed(entries[i].path, |entries[i].symbols|))
    && (listed != [] ==> IsCutEntry(listed[|listed| - 1], entries[|listed| - 1]))
  }

  lemma CutOfOneMore(entries: seq<Entry>, listed: seq<Listed>)
    requires entries != [] && entries[0].path != "" && IsCutOf(listed, entries[1..])
    ensures IsCutOf([Listed(entries[0].path, |entries[0].symbols|)] + listed, entries)
  {
    var all := [Listed(entries[0].path, |entries[0].symbols|)] + listed;
    assert forall i :: 0 < i < |all| ==> all[i] == listed[i - 1] && entries[i] == entries[1..][i - 1];
  }

  /** A cut within the first file: its path cut short, or fewer of its symbols. */
  lemma {:induction false} ParsingFirstFileCut(entries: seq<Entry>, m: nat, part: string)
    requires entries != [] && IsListable(entries[0].path) && m <= |entries[0].symbols|
    requires part <= MapLines(entries)[m]
    ensures IsCutOf(Parsed(MapLines(entries)[..m] + [part], None, 0), entries)
  {
    if m == 0 {
      assert MapLines(entries)[..0] + [part] == [part] && [part][1..] == [];
      assert part != "" ==> part[0] == entries[0].path[0];
    } else {
      SymbolsCutParse(entries, m, part);
    }
  }

  lemma {:induction false} SymbolsCutParse(entries: seq<Entry>, m: nat, part: string)
    requires entries != [] && IsListable(entries[0].path) && 0 < m <= |entries[0].symbols|
    requires part <= MapLines(entries)[m]
    ensures
      var symbols := m - 1 + if part == "" then 0 else 1;
      Parsed(MapLines(entries)[..m] + [part], None, 0) == [Listed(entries[0].path, symbols)]
  {
    var entry, indented := entries[0], SymbolLines(entries[0].symbols);
    assert [part][1..] == [];
    SymbolLinesAreIndented(entry.symbols);
    assert MapLines(entries)[..m] + [part] == [entry.path] + (indented[..m - 1] + [part]);
    assert MapLines(entries)[m] == indented[m - 1];
    ParsingFirst(entry.path, indented[..m - 1] + [part], None, 0);
    ParsingIndented(indented[..m - 1], [part], Some(entry.path), 0);
  }

  /** The lines up to a cut, with the current file still to be emitted. */
  lemma {:induction false} ParsingCutLines(entries: seq<Entry>, m: nat, part: string)
    requires AllListable(entries) && m < |MapLines(entries)| && part <= MapLines(entries)[m]
    ensures IsCutOf(Parsed(MapLines(entries)[..m] + [part], None, 0), entries)
    decreases |entries|
  {
    var symbols := |entries[0].symbols|;
    if m <= symbols {
      ParsingFirstFileCut(entries, m, part);
    } else {
      var n := m - 1 - symbols;
      assert MapLines(entries)[m] == MapLines(entries[1..])[n];
      ParsingCutLines(entries[1..], n, part);
      ParsingLaterCut(entries, n, part);
      assert 1 + symbols + n == m;
    }
  }

  lemma CutAfter(path: string, indented: seq<string>, rest: seq<string>, n: nat, part: string)
    requires n <= |rest|
    ensures ([path] + indented + rest)[..1 + |indented| + n] + [part] == [path] + (indented + (rest[..n] + [part]))
  {
  }

  lemma {:induction false} ParsingLaterCut(entries: seq<Entry>, n: nat, part: string)
    requires AllListable(entries) && entries != []
    requires n < |MapLines(entries[1..])| && part <= MapLines(entries[1..])[n]
    requires IsCutOf(Parsed(MapLines(entries[1..])[..n] + [part], None, 0), entries[1..])
    ensures IsCutOf(Parsed(MapLines(entries)[..1 + |entries[0].symbols| + n] + [part], None, 0), entries)
  {
    LaterCutParses(entries, n, part);
    CutOfOneMore(entries, Parsed(MapLines(entries[1..])[..n] + [part], None, 0));
  }

  lemma {:induction false} LaterCutParses(entries: seq<Entry>, n: nat, part: string)
    requires AllListable(entries) && entries != []
    requires n < |MapLines(entries[1..])| && part <= MapLines(entries[1..])[n]
    ensures
      var entry := entries[0];
      Parsed(MapLines(entries)[..1 + |entry.symbols| + n] + [part], None, 0) ==
        [Listed(entry.path, |entry.symbols|)] + Parsed(MapLines(entries[1..])[..n] + [part], None, 0)
  {
    var entry, rest := entries[0], MapLines(entries[1..]);
    var indented, cut := SymbolLines(entry.symbols), rest[..n] + [part];
    SymbolLinesAreIndented(entry.symbols);
    CutAfter(entry.path, indented, rest, n, part);
    ParsingFirst(entry.path, indented + cut, None, 0);
    ParsingIndented(indented, cut, Some(entry.path), 0);
    EmittedFirst(entries[1..], n, part, entry.path, |indented|);
  }

  /** The file before the cut lines is emitted by them and does not mix with them. */
  lemma {:induction false} EmittedFirst(entries: seq<Entry>, n: nat, part: string, path: string, count: nat)
    requires AllListable(entries) && n < |MapLines(entries)| && part <= MapLines(entries)[n]
    ensures
      var cut := MapLines(entries)[..n] + [part];
      Parsed(cut, Some(path), count) == [Listed(path, count)] + Parsed(cut, None, 0)
  {
    var cut := MapLines(entries)[..n] + [part];
    if n == 0 {
      assert cut == [part] && cut[1..] == [];
    } else {
      assert cut[0] == entries[0].path;
    }
  }

  /** A map cut at any character and marked still parses to the first files of the real list. */
  lemma {:induction false} CutMapParsesToAPrefix(entries: seq<Entry>, k: nat)
    requires OneLineSymbols(entries) && forall i :: 0 <= i < |entries| ==> IsOneLine(entries[i].path)
    requires AllListable(entries) && entries != [] && k <= |JoinLines(MapLines(entries))|
    ensures IsCutOf(ParsedText(JoinLines(MapLines(entries))[..k] + TRUNCATION_MARKER), entries)
  {
    var lines := MapLines(entries);
    MapLinesAreLines(entries);
    var m, part := CutInALine(lines, k);
    var cut := lines[..m] + [part];
    JoinOneMore(cut, TRUNCATION_LINE);
    var marked := cut + [TRUNCATION_LINE];
    assert JoinLines(marked) == JoinLines(lines)[..k] + TRUNCATION_MARKER;
    assert AreLines(marked);
    ParsingJoinedLines(marked, None, 0);
    SkippedLastLine(cut, TRUNCATION_LINE, None, 0);
    ParsingCutLines(entries, m, part);
  }
}
