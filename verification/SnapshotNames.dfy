/**
 Snapshot names: a fixed-width UTC stamp, so that names sort as the times they
 encode and the directory listing is the backup history.
 */
module SnapshotNames {

  import opened Calendar
  import opened Strings

  // Fixed-width numbers

  function Power(width: nat): nat {
    if width == 0 then 1 else 10 * Power(width - 1)
  }

  function Digit(n: nat): char
    requires n < 10
  {
    "0123456789"[n]
  }

  function Pad(n: nat, width: nat): (digits: string)
    ensures |digits| == width
  {
    if width == 0 then "" else Pad(n / 10, width - 1) + [Digit(n % 10)]
  }

  predicate IsDigit(c: char) {
    '0' <= c <= '9'
  }

  predicate AreDigits(s: string) {
    forall i :: 0 <= i < |s| ==> IsDigit(s[i])
  }

  function Value(s: string): nat
    requires AreDigits(s)
  {
    if s == "" then 0 else 10 * Value(s[..|s| - 1]) + (s[|s| - 1] as int - '0' as int)
  }

  lemma {:induction false} PadReadsBack(n: nat, width: nat)
    requires n < Power(width)
    ensures AreDigits(Pad(n, width)) && Value(Pad(n, width)) == n
    decreases width
  {
    if width > 0 {
      PadReadsBack(n / 10, width - 1);
      var digits := Pad(n, width);
      assert digits[..|digits| - 1] == Pad(n / 10, width - 1);
      DigitReadsBack(n % 10);
    }
  }

  lemma DigitReadsBack(n: nat)
    requires n < 10
    ensures IsDigit(Digit(n)) && Digit(n) as int - '0' as int == n
  {
  }

  // The order of names

  lemma {:induction false} PadSorts(m: nat, n: nat, width: nat)
    requires m < Power(width) && n < Power(width)
    ensures Less(Pad(m, width), Pad(n, width)) <==> m < n
    decreases width
  {
    if width > 0 {
      PadSorts(m / 10, n / 10, width - 1);
      PadReadsBack(m / 10, width - 1);
      PadReadsBack(n / 10, width - 1);
      LessOfConcat(Pad(m / 10, width - 1), [Digit(m % 10)], Pad(n / 10, width - 1), [Digit(n % 10)]);
      DigitReadsBack(m % 10);
      DigitReadsBack(n % 10);
    }
  }

  lemma {:induction false} ValueReadsBack(s: string)
    requires AreDigits(s)
    ensures Value(s) < Power(|s|) && Pad(Value(s), |s|) == s
    decreases |s|
  {
    if s != "" {
      var init, last := s[..|s| - 1], s[|s| - 1] as int - '0' as int;
      ValueReadsBack(init);
      assert Value(s) / 10 == Value(init) && Value(s) % 10 == last;
      assert s == init + [s[|s| - 1]];
      assert Digit(last) == s[|s| - 1];
    }
  }

  // Names and times

  function Stamp(when: When): string {
    Pad(when.year, 4) + (Pad(when.month, 2) + (Pad(when.day, 2) + ("T" +
      (Pad(when.hour, 2) + (Pad(when.minute, 2) + (Pad(when.second, 2) + "Z"))))))
  }

  function SnapshotName(when: When): string {
    "jobs-" + (Stamp(when) + ".db")
  }

  // What `snapshot_time` does with a name: a foreign file, an impossible date
  // (strptime raises ValueError), or a time.
  datatype Reading = NotASnapshot | BadStamp | At(when: When)

  predicate LooksLikeSnapshot(name: string) {
    && |name| == 24 && name[..5] == "jobs-" && AreDigits(name[5..13]) && name[13] == 'T'
    && AreDigits(name[14..20]) && name[20] == 'Z' && name[21..] == ".db"
  }

  function Field(name: string, from: nat, to: nat): nat
    requires from <= to <= |name| && AreDigits(name[from..to])
  {
    Value(name[from..to])
  }

  function Fields(name: string): When
    requires LooksLikeSnapshot(name)
  {
    FieldsAreDigits(name);
    When(Field(name, 5, 9), Field(name, 9, 11), Field(name, 11, 13),
         Field(name, 14, 16), Field(name, 16, 18), Field(name, 18, 20))
  }

  function SnapshotTime(name: string): Reading {
    if !LooksLikeSnapshot(name) then NotASnapshot
    else if IsDate(Fields(name)) then At(Fields(name))
    else BadStamp
  }

  predicate Fits(when: When) {
    && when.year < Power(4) && when.month < Power(2) && when.day < Power(2)
    && when.hour < Power(2) && when.minute < Power(2) && when.second < Power(2)
  }

  /** The fields of a date fit their widths. */
  lemma DateFits(when: When)
    requires IsDate(when)
    ensures Fits(when)
  {
    assert Power(1) == 10 && Power(2) == 100 && Power(3) == 1000 && Power(4) == 10000;
  }

  lemma StampLayout(when: When)
    ensures
      var name := SnapshotName(when);
      && |name| == 24
      && name[..5] == "jobs-" && name[5..9] == Pad(when.year, 4) && name[9..11] == Pad(when.month, 2)
      && name[11..13] == Pad(when.day, 2) && name[13] == 'T' && name[14..16] == Pad(when.hour, 2)
      && name[16..18] == Pad(when.minute, 2) && name[18..20] == Pad(when.second, 2) && name[20] == 'Z'
      && name[21..] == ".db"
  {
  }

  lemma {:induction false} PadsAreRead(when: When)
    requires Fits(when)
    ensures AreDigits(Pad(when.year, 4)) && Value(Pad(when.year, 4)) == when.year
    ensures AreDigits(Pad(when.month, 2)) && Value(Pad(when.month, 2)) == when.month
    ensures AreDigits(Pad(when.day, 2)) && Value(Pad(when.day, 2)) == when.day
    ensures AreDigits(Pad(when.hour, 2)) && Value(Pad(when.hour, 2)) == when.hour
    ensures AreDigits(Pad(when.minute, 2)) && Value(Pad(when.minute, 2)) == when.minute
    ensures AreDigits(Pad(when.second, 2)) && Value(Pad(when.second, 2)) == when.second
  {
    PadReadsBack(when.year, 4);
    PadReadsBack(when.month, 2);
    PadReadsBack(when.day, 2);
    PadReadsBack(when.hour, 2);
    PadReadsBack(when.minute, 2);
    PadReadsBack(when.second, 2);
  }

  lemma {:induction false} DigitsInARow(s: string, from: nat, a: nat, b: nat, to: nat)
    requires from <= a <= b <= to <= |s| && AreDigits(s[from..a]) && AreDigits(s[a..b]) && AreDigits(s[b..to])
    ensures AreDigits(s[from..to])
  {
    assert s[from..to] == s[from..a] + (s[a..b] + s[b..to]);
  }

  lemma {:induction false} NameLooksLikeSnapshot(when: When)
    requires Fits(when)
    ensures LooksLikeSnapshot(SnapshotName(when))
  {
    var name := SnapshotName(when);
    StampLayout(when);
    PadsAreRead(when);
    DigitsInARow(name, 5, 9, 11, 13);
    DigitsInARow(name, 14, 16, 18, 20);
  }

  /** A name made from numbers that fit is read as those numbers, if they are a date. */
  lemma {:induction false} NameIsRead(when: When)
    requires Fits(when)
    ensures SnapshotTime(SnapshotName(when)) == if IsDate(when) then At(when) else BadStamp
  {
    NameLooksLikeSnapshot(when);
    StampLayout(when);
    PadsAreRead(when);
  }

  /** The time in a name is the time it was made from. */
  lemma {:induction false} NameReadsBack(when: When)
    requires IsDate(when)
    ensures SnapshotTime(SnapshotName(when)) == At(when)
  {
    DateFits(when);
    NameIsRead(when);
  }

  lemma FieldsAreDigits(name: string)
    requires LooksLikeSnapshot(name)
    ensures AreDigits(name[5..9]) && AreDigits(name[9..11]) && AreDigits(name[11..13])
    ensures AreDigits(name[14..16]) && AreDigits(name[16..18]) && AreDigits(name[18..20])
  {
    assert forall i :: 5 <= i < 13 ==> name[i] == name[5..13][i - 5];
    assert forall i :: 14 <= i < 20 ==> name[i] == name[14..20][i - 14];
  }

  lemma FieldsPadBack(name: string)
    requires LooksLikeSnapshot(name)
    ensures
      var when := Fields(name);
      && Pad(when.year, 4) == name[5..9] && Pad(when.month, 2) == name[9..11] && Pad(when.day, 2) == name[11..13]
      && Pad(when.hour, 2) == name[14..16] && Pad(when.minute, 2) == name[16..18]
      && Pad(when.second, 2) == name[18..20]
  {
    FieldsAreDigits(name);
    ValueReadsBack(name[5..9]);
    ValueReadsBack(name[9..11]);
    ValueReadsBack(name[11..13]);
    ValueReadsBack(name[14..16]);
    ValueReadsBack(name[16..18]);
    ValueReadsBack(name[18..20]);
  }

  lemma SameUpTo(a: string, b: string, from: nat, to: nat)
    requires from <= to <= |a| && to <= |b|
    requires a[..from] == b[..from] && a[from..to] == b[from..to]
    ensures a[..to] == b[..to]
  {
    assert a[..to] == a[..from] + a[from..to];
    assert b[..to] == b[..from] + b[from..to];
  }

  lemma SameBySlices(a: string, b: string)
    requires |a| == |b| == 24 && a[..5] == b[..5] && a[5..9] == b[5..9] && a[9..11] == b[9..11]
    requires a[11..13] == b[11..13] && a[13] == b[13] && a[14..16] == b[14..16] && a[16..18] == b[16..18]
    requires a[18..20] == b[18..20] && a[20] == b[20] && a[21..] == b[21..]
    ensures a == b
  {
    SameUpTo(a, b, 5, 9);
    SameUpTo(a, b, 9, 11);
    SameUpTo(a, b, 11, 13);
    SameUpTo(a, b, 13, 14);
    SameUpTo(a, b, 14, 16);
    SameUpTo(a, b, 16, 18);
    SameUpTo(a, b, 18, 20);
    SameUpTo(a, b, 20, 21);
    SameUpTo(a, b, 21, 24);
    assert a == a[..24] && b == b[..24];
  }

  /** Every name with a time is the name made from that time. */
  lemma TimeNamesBack(name: string)
    requires SnapshotTime(name).At?
    ensures name == SnapshotName(SnapshotTime(name).when)
  {
    StampLayout(Fields(name));
    FieldsPadBack(name);
    SameBySlices(name, SnapshotName(Fields(name)));
  }

  lemma {:induction false} PadSame(m: nat, n: nat, width: nat)
    requires m < Power(width) && n < Power(width)
    ensures Pad(m, width) == Pad(n, width) <==> m == n
  {
    PadReadsBack(m, width);
    PadReadsBack(n, width);
  }

  /** Names sort as their times do. */
  lemma NamesSortAsTimes(a: When, b: When)
    requires IsDate(a) && IsDate(b)
    ensures Less(SnapshotName(a), SnapshotName(b)) <==> Before(a, b)
  {
    DateFits(a);
    DateFits(b);
    LessOfConcat("jobs-", Stamp(a) + ".db", "jobs-", Stamp(b) + ".db");
    LessOfConcat(Stamp(a), ".db", Stamp(b), ".db");
    LessIsTotal("jobs-", "jobs-");
    LessIsTotal(".db", ".db");
    StampsSort(a, b);
  }

  lemma StampsSort(a: When, b: When)
    requires IsDate(a) && IsDate(b)
    ensures Less(Stamp(a), Stamp(b)) <==> Before(a, b)
  {
    DateFits(a);
    DateFits(b);
    var aSecond, bSecond := Pad(a.second, 2) + "Z", Pad(b.second, 2) + "Z";
    var aMinute, bMinute := Pad(a.minute, 2) + aSecond, Pad(b.minute, 2) + bSecond;
    var aHour, bHour := Pad(a.hour, 2) + aMinute, Pad(b.hour, 2) + bMinute;
    var aDay, bDay := Pad(a.day, 2) + ("T" + aHour), Pad(b.day, 2) + ("T" + bHour);
    var aMonth, bMonth := Pad(a.month, 2) + aDay, Pad(b.month, 2) + bDay;
    FieldSorts(a.second, b.second, 2, "Z", "Z");
    LessIsTotal("Z", "Z");
    FieldSorts(a.minute, b.minute, 2, aSecond, bSecond);
    FieldSorts(a.hour, b.hour, 2, aMinute, bMinute);
    LessOfConcat("T", aHour, "T", bHour);
    LessIsTotal("T", "T");
    FieldSorts(a.day, b.day, 2, "T" + aHour, "T" + bHour);
    FieldSorts(a.month, b.month, 2, aDay, bDay);
    FieldSorts(a.year, b.year, 4, aMonth, bMonth);
  }

  lemma {:induction false} FieldSorts(m: nat, n: nat, width: nat, a: string, b: string)
    requires m < Power(width) && n < Power(width)
    ensures Less(Pad(m, width) + a, Pad(n, width) + b) <==> m < n || (m == n && Less(a, b))
  {
    LessOfConcat(Pad(m, width), a, Pad(n, width), b);
    PadSorts(m, n, width);
    PadSame(m, n, width);
  }

  /** So the files of a directory that carry a time sort by it, whoever wrote them. */
  lemma {:induction false} SnapshotFilesSortAsTimes(a: string, b: string)
    requires SnapshotTime(a).At? && SnapshotTime(b).At?
    ensures Less(a, b) <==> Before(SnapshotTime(a).when, SnapshotTime(b).when)
  {
    TimeNamesBack(a);
    TimeNamesBack(b);
    NamesSortAsTimes(SnapshotTime(a).when, SnapshotTime(b).when);
  }

  /** A name of a snapshot's shape need not name a date: there is no 30 February. */
  lemma {:induction false} ImpossibleDateHasNoTime()
    ensures SnapshotTime(SnapshotName(When(2025, 2, 30, 0, 0, 0))) == BadStamp
  {
    assert Power(1) == 10 && Power(2) == 100 && Power(3) == 1000 && Power(4) == 10000;
    NameIsRead(When(2025, 2, 30, 0, 0, 0));
  }

  lemma {:induction false} TwoDigits(n: nat)
    requires n < 100
    ensures Pad(n, 2) == [Digit(n / 10), Digit(n % 10)]
  {
    assert Pad(n / 10, 1) == Pad(n / 100, 0) + [Digit(n / 10 % 10)];
  }

  lemma {:induction false} YearDigits()
    ensures Pad(2026, 4) == "2026"
  {
    assert Pad(2, 1) == Pad(0, 0) + ['2'];
    assert Pad(20, 2) == Pad(2, 1) + ['0'];
    assert Pad(202, 3) == Pad(20, 2) + ['2'];
    assert Pad(2026, 4) == Pad(202, 3) + ['6'];
  }

  lemma {:induction false} AStamp()
    ensures Stamp(When(2026, 10, 21, 2, 30, 0)) == "20261021T023000Z"
  {
    YearDigits();
    TwoDigits(10);
    TwoDigits(21);
    TwoDigits(2);
    TwoDigits(30);
    TwoDigits(0);
    var tail := Pad(2, 2) + (Pad(30, 2) + (Pad(0, 2) + "Z"));
    assert tail == "023000Z";
    assert Stamp(When(2026, 10, 21, 2, 30, 0)) == "2026" + ("10" + ("21" + ("T" + tail)));
  }

  /** The names as they look. */
  lemma {:induction false} ASnapshotName()
    ensures SnapshotName(When(2026, 10, 21, 2, 30, 0)) == "jobs-20261021T023000Z.db"
  {
    AStamp();
    assert "jobs-" + ("20261021T023000Z" + ".db") == "jobs-20261021T023000Z.db";
  }

  // Leftovers

  /** The glob `jobs-*.partial*`. */
  predicate IsLeftover(name: string) {
    "jobs-" <= name && exists i :: 5 <= i <= |name| - 8 && HasPartialAt(name, i)
  }

  predicate HasPartialAt(name: string, i: nat)
    requires i + 8 <= |name|
  {
    name[i..i + 8] == ".partial"
  }

  /** Whatever SQLite appends to a partial file's name, it is a leftover. */
  lemma {:induction false} PartialsAreLeftovers(name: string, tail: string)
    requires "jobs-" <= name
    ensures IsLeftover(name + ".partial" + tail)
  {
    var all := name + ".partial" + tail;
    assert all[|name|..|name| + 8] == ".partial";
    assert HasPartialAt(all, |name|);
    assert all[..5] == name[..5];
  }

  lemma LeftoverIsNoSnapshot(name: string)
    requires IsLeftover(name)
    ensures !LooksLikeSnapshot(name)
  {
    var i :| 5 <= i <= |name| - 8 && HasPartialAt(name, i);
    assert name[i] == name[i..i + 8][0] == '.';
    if LooksLikeSnapshot(name) {
      SnapshotHasNoEarlyDot(name, i);
    }
  }

  lemma SnapshotHasNoEarlyDot(name: string, i: nat)
    requires LooksLikeSnapshot(name) && 5 <= i < 21
    ensures name[i] != '.'
  {
    if i < 13 {
      assert name[i] == name[5..13][i - 5];
    } else if 14 <= i < 20 {
      assert name[i] == name[14..20][i - 14];
    }
  }
}
