/** UTC dates, as the backup names spell them out. */
module Calendar {
  datatype Civil = Civil(year: int, month: int, day: int, hour: int, minute: int, second: int)

  // Unix time of 0000-01-01T00:00:00Z is -EPOCH; the year 10000 begins at END.
  const EPOCH := 62167219200
  const END := 253402300800

  // A Unix time in whole seconds, within the years 0 to 9999.
  type Instant = at: int | -EPOCH <= at < END

  predicate IsLeap(y: int) { y % 4 == 0 && (y % 100 != 0 || y % 400 == 0) }

  function YearLength(y: int): int { if IsLeap(y) then 366 else 365 }

  function MonthLength(y: int, m: int): int {
    if m == 2 then (if IsLeap(y) then 29 else 28)
    else if m == 4 || m == 6 || m == 9 || m == 11 then 30
    else 31
  }

  // Days from 0000-01-01 to the first day of year y.
  function DaysBeforeYear(y: nat): nat {
    365 * y + (y + 3) / 4 - (y + 99) / 100 + (y + 399) / 400
  }

  // Days from the first of January to the first of month m.
  function DaysBeforeMonth(y: int, m: int): int
    requires 1 <= m <= 13
    decreases m
  {
    if m == 1 then 0 else DaysBeforeMonth(y, m - 1) + MonthLength(y, m - 1)
  }

  predicate Valid(c: Civil) {
    && 0 <= c.year < 10000 && 1 <= c.month <= 12 && 1 <= c.day <= MonthLength(c.year, c.month)
    && 0 <= c.hour < 24 && 0 <= c.minute < 60 && 0 <= c.second < 60
  }

  function DayNumber(c: Civil): int
    requires Valid(c)
  {
    DaysBeforeYear(c.year) + DaysBeforeMonth(c.year, c.month) + c.day - 1
  }

  function Seconds(c: Civil): int
    requires Valid(c)
  {
    DayNumber(c) * 86400 + c.hour * 3600 + c.minute * 60 + c.second
  }

  predicate DateLess(a: Civil, b: Civil) {
    a.year < b.year || (a.year == b.year && (a.month < b.month || (a.month == b.month && a.day < b.day)))
  }

  predicate SameDate(a: Civil, b: Civil) { a.year == b.year && a.month == b.month && a.day == b.day }

  predicate ClockLess(a: Civil, b: Civil) {
    a.hour < b.hour || (a.hour == b.hour && (a.minute < b.minute || (a.minute == b.minute && a.second < b.second)))
  }

  predicate Less(a: Civil, b: Civil) { DateLess(a, b) || (SameDate(a, b) && ClockLess(a, b)) }

  lemma Fours(y: nat)
    ensures (y + 4) / 4 - (y + 3) / 4 == if y % 4 == 0 then 1 else 0
  {
  }

  lemma Hundreds(y: nat)
    ensures (y + 100) / 100 - (y + 99) / 100 == if y % 100 == 0 then 1 else 0
    ensures y % 100 == 0 ==> y % 4 == 0
  {
    assert y == 100 * (y / 100) + y % 100;
    FourTimes(25 * (y / 100));
  }

  lemma FourTimes(k: nat)
    ensures 4 * k % 4 == 0
  {
  }

  lemma FourHundreds(y: nat)
    ensures (y + 400) / 400 - (y + 399) / 400 == if y % 400 == 0 then 1 else 0
    ensures y % 400 == 0 ==> y % 100 == 0
  {
    assert y == 400 * (y / 400) + y % 400;
    if y % 400 == 0 { assert y == 100 * (4 * (y / 400)); }
  }

  lemma YearStep(y: nat)
    ensures DaysBeforeYear(y + 1) == DaysBeforeYear(y) + YearLength(y)
  {
    Fours(y);
    Hundreds(y);
    FourHundreds(y);
  }

  lemma {:induction false} YearsApart(y: nat, z: nat)
    requires y < z
    ensures DaysBeforeYear(y) + YearLength(y) <= DaysBeforeYear(z)
    decreases z
  {
    YearStep(z - 1);
    if y < z - 1 { YearsApart(y, z - 1); }
  }

  lemma {:induction false} MonthsApart(y: int, m: int, n: int)
    requires 1 <= m < n <= 13
    ensures DaysBeforeMonth(y, m) + MonthLength(y, m) <= DaysBeforeMonth(y, n)
    decreases n
  {
    if m < n - 1 { MonthsApart(y, m, n - 1); }
  }

  lemma YearEnds(y: int)
    ensures DaysBeforeMonth(y, 13) == YearLength(y)
  {
    assert DaysBeforeMonth(y, 3) == 31 + MonthLength(y, 2);
    assert DaysBeforeMonth(y, 5) == DaysBeforeMonth(y, 3) + 61;
    assert DaysBeforeMonth(y, 7) == DaysBeforeMonth(y, 5) + 61;
    assert DaysBeforeMonth(y, 9) == DaysBeforeMonth(y, 7) + 62;
    assert DaysBeforeMonth(y, 11) == DaysBeforeMonth(y, 9) + 61;
  }

  // Days from 0000-03-01 to a date of the Gregorian calendar, without month tables:
  // years begin in March, so that the leap day is the last of its year.
  function GregorianDays(year: int, month: int, day: int): int {
    var y, m := if month <= 2 then year - 1 else year, (month + 9) % 12;
    365 * y + y / 4 - y / 100 + y / 400 + (153 * m + 2) / 5 + day - 1
  }

  /** The day count is the calendar's. */
  lemma DaysAreGregorian(c: Civil)
    requires Valid(c)
    ensures DayNumber(c) == GregorianDays(c.year, c.month, c.day) + 60
  {
    hide DaysBeforeYear, DaysBeforeMonth, YearLength, MonthLength;
    MonthFromMarch(c.month);
    MonthsAreGregorian(c.year, c.month);
    YearStep(c.year);
    YearsAreGregorian(c.year);
  }

  lemma MonthFromMarch(m: int)
    requires 1 <= m <= 12
    ensures (m + 9) % 12 == if m <= 2 then m + 9 else m - 3
    ensures m <= 2 ==> (153 * (m + 9) + 2) / 5 == 306 + 31 * (m - 1)
  {
  }

  lemma YearsAreGregorian(y: nat)
    ensures DaysBeforeYear(y) == 365 * (y - 1) + (y - 1) / 4 - (y - 1) / 100 + (y - 1) / 400 + 366
    ensures DaysBeforeYear(y + 1) == 365 * y + y / 4 - y / 100 + y / 400 + 366
  {
    RoundedUp(y - 1, 4);
    RoundedUp(y - 1, 100);
    RoundedUp(y - 1, 400);
    RoundedUp(y, 4);
    RoundedUp(y, 100);
    RoundedUp(y, 400);
  }

  lemma RoundedUp(y: int, n: int)
    requires n in {4, 100, 400}
    ensures (y + n) / n == y / n + 1
  {
  }

  lemma MonthsAreGregorian(y: int, m: int)
    requires 1 <= m <= 12
    ensures DaysBeforeMonth(y, m) == if m <= 2 then 31 * (m - 1) else YearLength(y) - 306 + (153 * (m - 3) + 2) / 5
  {
    assert DaysBeforeMonth(y, 3) == 31 + MonthLength(y, 2);
    assert DaysBeforeMonth(y, 5) == DaysBeforeMonth(y, 3) + 61;
    assert DaysBeforeMonth(y, 7) == DaysBeforeMonth(y, 5) + 61;
    assert DaysBeforeMonth(y, 9) == DaysBeforeMonth(y, 7) + 62;
    assert DaysBeforeMonth(y, 11) == DaysBeforeMonth(y, 9) + 61;
  }

  lemma DayInYear(c: Civil)
    requires Valid(c)
    ensures DaysBeforeYear(c.year) <= DayNumber(c) < DaysBeforeYear(c.year) + YearLength(c.year)
  {
    MonthsApart(c.year, c.month, 13);
    YearEnds(c.year);
    if c.month > 1 { MonthsApart(c.year, 1, c.month); }
  }

  lemma DaysInOrder(a: Civil, b: Civil)
    requires Valid(a) && Valid(b) && DateLess(a, b)
    ensures DayNumber(a) < DayNumber(b)
  {
    if a.year < b.year {
      DayInYear(a);
      DayInYear(b);
      YearsApart(a.year, b.year);
    } else if a.month < b.month {
      MonthsApart(a.year, a.month, b.month);
    }
  }

  /** Later dates are later instants. */
  lemma SecondsInOrder(a: Civil, b: Civil)
    requires Valid(a) && Valid(b) && Less(a, b)
    ensures Seconds(a) < Seconds(b)
  {
    if DateLess(a, b) { DaysInOrder(a, b); }
  }

  lemma LessTotal(a: Civil, b: Civil)
    ensures a == b || Less(a, b) || Less(b, a)
  {
  }

  // The year a day falls in, counting up from y.
  function YearFrom(day: nat, y: nat): (r: nat)
    requires DaysBeforeYear(y) <= day
    ensures y <= r && DaysBeforeYear(r) <= day < DaysBeforeYear(r + 1)
    decreases day - DaysBeforeYear(y)
  {
    YearStep(y);
    if day < DaysBeforeYear(y + 1) then y else YearFrom(day, y + 1)
  }

  function MonthFrom(y: int, dayOfYear: int, m: int): (r: int)
    requires 1 <= m <= 12 && DaysBeforeMonth(y, m) <= dayOfYear < DaysBeforeMonth(y, 13)
    ensures m <= r <= 12 && DaysBeforeMonth(y, r) <= dayOfYear < DaysBeforeMonth(y, r + 1)
    decreases 12 - m
  {
    if dayOfYear < DaysBeforeMonth(y, m + 1) then m else MonthFrom(y, dayOfYear, m + 1)
  }

  // The date of a day, at midnight.
  function DateOf(day: nat): (c: Civil)
    requires day < (END + EPOCH) / 86400
    ensures Valid(c) && DayNumber(c) == day && c.hour == c.minute == c.second == 0
  {
    var y := YearFrom(day, 0);
    YearStep(y);
    YearEnds(y);
    assert y < 10000 by { if 10000 <= y { LastYear(y); } }
    var m := MonthFrom(y, day - DaysBeforeYear(y), 1);
    Civil(y, m, day - DaysBeforeYear(y) - DaysBeforeMonth(y, m) + 1, 0, 0, 0)
  }

  // The UTC date of a Unix time.
  function CivilOf(at: Instant): (c: Civil)
    ensures Valid(c) && Seconds(c) == at + EPOCH
  {
    var day, clock := (at + EPOCH) / 86400, (at + EPOCH) % 86400;
    DateOf(day).(hour := clock / 3600, minute := clock % 3600 / 60, second := clock % 60)
  }

  lemma LastYear(y: nat)
    requires 10000 <= y
    ensures (END + EPOCH) / 86400 <= DaysBeforeYear(y)
  {
    if 10000 < y { YearsApart(10000, y); }
  }

  /** Dates order exactly as times do. */
  lemma DatesInOrder(a: Instant, b: Instant)
    ensures Less(CivilOf(a), CivilOf(b)) <==> a < b
  {
    LessTotal(CivilOf(a), CivilOf(b));
    if Less(CivilOf(a), CivilOf(b)) { SecondsInOrder(CivilOf(a), CivilOf(b)); }
    if Less(CivilOf(b), CivilOf(a)) { SecondsInOrder(CivilOf(b), CivilOf(a)); }
  }
}

/** Snapshots of the store on disk (internal/store/backup.go): written under
    timestamped names, pruned to the newest few, and the latest one restored. */
module Backups {
  import opened Order
  import opened StoreState
  import opened Calendar

  function Digit(n: int): char
    requires 0 <= n < 10
  {
    '0' + (n as char)
  }

  function Two(n: int): string
    requires 0 <= n < 100
  {
    [Digit(n / 10), Digit(n % 10)]
  }

  // The layout 20060102T150405Z.
  function Stamp(c: Civil): string
    requires Valid(c)
  {
    Two(c.year / 100) + (Two(c.year % 100) + (Two(c.month) + (Two(c.day)
      + ("T" + (Two(c.hour) + (Two(c.minute) + (Two(c.second) + "Z.db")))))))
  }

  const PREFIX := "state-"
  const SUFFIX := ".db"

  function NameAt(at: Instant): string
  {
    PREFIX + Stamp(CivilOf(at))
  }

  // The pattern state-*.db.
  predicate IsBackup(name: string) {
    && |PREFIX| + |SUFFIX| <= |name|
    && name[..|PREFIX|] == PREFIX && name[|name| - |SUFFIX|..] == SUFFIX
  }

  lemma TwoInOrder(a: int, b: int, x: string, y: string)
    requires 0 <= a < 100 && 0 <= b < 100
    ensures StrLess(Two(a) + x, Two(b) + y) <==> a < b || (a == b && StrLess(x, y))
  {
    var s, t := Two(a) + x, Two(b) + y;
    assert s[1..] == [Digit(a % 10)] + x && t[1..] == [Digit(b % 10)] + y;
    assert s[1..][1..] == x && t[1..][1..] == y;
    assert StrLess(s, t) <==> s[0] < t[0] || (s[0] == t[0] && StrLess(s[1..], t[1..]));
    assert StrLess(s[1..], t[1..]) <==> s[1] < t[1] || (s[1] == t[1] && StrLess(x, y));
  }

  lemma StampsInOrder(a: Civil, b: Civil)
    requires Valid(a) && Valid(b)
    ensures StrLess(Stamp(a), Stamp(b)) <==> Less(a, b)
  {
    hide Two, StrLess;
    var s0, t0 := Two(a.second) + "Z.db", Two(b.second) + "Z.db";
    TwoInOrder(a.second, b.second, "Z.db", "Z.db");
    StrIrreflexive("Z.db");
    var s1, t1 := Two(a.minute) + s0, Two(b.minute) + t0;
    TwoInOrder(a.minute, b.minute, s0, t0);
    var s2, t2 := Two(a.hour) + s1, Two(b.hour) + t1;
    TwoInOrder(a.hour, b.hour, s1, t1);
    StrPrefix("T", s2, t2);
    var s3, t3 := Two(a.day) + ("T" + s2), Two(b.day) + ("T" + t2);
    TwoInOrder(a.day, b.day, "T" + s2, "T" + t2);
    var s4, t4 := Two(a.month) + s3, Two(b.month) + t3;
    TwoInOrder(a.month, b.month, s3, t3);
    var s5, t5 := Two(a.year % 100) + s4, Two(b.year % 100) + t4;
    TwoInOrder(a.year % 100, b.year % 100, s4, t4);
    TwoInOrder(a.year / 100, b.year / 100, s5, t5);
  }

  /** Names in lexicographic order are snapshots in time order. */
  lemma NamesInOrder(a: Instant, b: Instant)
    ensures StrLess(NameAt(a), NameAt(b)) <==> a < b
    ensures NameAt(a) == NameAt(b) <==> a == b
  {
    hide StrLess, Stamp, Less;
    StrPrefix(PREFIX, Stamp(CivilOf(a)), Stamp(CivilOf(b)));
    StampsInOrder(CivilOf(a), CivilOf(b));
    DatesInOrder(a, b);
    StrPrefix(PREFIX, Stamp(CivilOf(b)), Stamp(CivilOf(a)));
    StampsInOrder(CivilOf(b), CivilOf(a));
    DatesInOrder(b, a);
    StrIrreflexive(NameAt(a));
  }

  // The decimal number a text spells.
  function Number(digits: string): int {
    if digits == "" then 0 else 10 * Number(digits[..|digits| - 1]) + (digits[|digits| - 1] as int - '0' as int)
  }

  // A time as it is written in a snapshot's name, read with the calendar alone.
  function TimeIn(name: string): int
    requires |name| == 25
  {
    (GregorianDays(Number(name[6..10]), Number(name[10..12]), Number(name[12..14])) - 719_468) * 86400
      + Number(name[15..17]) * 3600 + Number(name[17..19]) * 60 + Number(name[19..21])
  }

  lemma TwoReads(n: int)
    requires 0 <= n < 100
    ensures Number(Two(n)) == n
  {
    assert Two(n)[..1] == [Digit(n / 10)] && Two(n)[..1][..0] == "";
    assert Number(Two(n)[..1]) == n / 10;
  }

  lemma FourRead(a: int, b: int)
    requires 0 <= a < 100 && 0 <= b < 100
    ensures Number(Two(a) + Two(b)) == 100 * a + b
  {
    var s := Two(a) + Two(b);
    TwoReads(a);
    assert s[..3][..2] == Two(a) && s[..3] == Two(a) + [Digit(b / 10)] && s[..4] == s;
    assert Number(s[..3]) == 10 * a + b / 10;
  }

  /** The name of a snapshot can be read back: it spells its time in the calendar's
      terms, as state-YYYYMMDDTHHMMSSZ.db. */
  lemma NameReadsBack(at: Instant)
    ensures var name := NameAt(at);
      && |name| == 25 && name[..6] == "state-" && name[14] == 'T' && name[21..] == "Z.db"
      && 1 <= Number(name[10..12]) <= 12 && 1 <= Number(name[12..14]) <= 31
      && 0 <= Number(name[15..17]) < 24 && 0 <= Number(name[17..19]) < 60 && 0 <= Number(name[19..21]) < 60
      && TimeIn(name) == at
  {
    hide Two, Number, GregorianDays, Stamp, DayNumber, CivilOf;
    var c, name := CivilOf(at), NameAt(at);
    NameParts(at);
    FourRead(c.year / 100, c.year % 100);
    TwoReads(c.month);
    TwoReads(c.day);
    TwoReads(c.hour);
    TwoReads(c.minute);
    TwoReads(c.second);
    DaysAreGregorian(c);
  }

  lemma NameParts(at: Instant)
    ensures var c, name := CivilOf(at), NameAt(at);
      && |name| == 25 && name[..6] == "state-" && name[14] == 'T' && name[21..] == "Z.db"
      && name[6..10] == Two(c.year / 100) + Two(c.year % 100) && name[10..12] == Two(c.month) && name[12..14] == Two(c.day)
      && name[15..17] == Two(c.hour) && name[17..19] == Two(c.minute) && name[19..21] == Two(c.second)
  {
    hide Two, Stamp, CivilOf;
    var s := Stamp(CivilOf(at));
    StampParts(CivilOf(at));
    assert NameAt(at) == PREFIX + s;
    Shifted(PREFIX, s);
  }

  lemma Shifted(p: string, s: string)
    ensures forall i, j | 0 <= i <= j <= |s| :: (p + s)[|p| + i..|p| + j] == s[i..j]
    ensures (p + s)[..|p|] == p
    ensures forall i | 0 <= i <= |s| :: (p + s)[|p| + i..] == s[i..]
  {
  }

  lemma StampParts(c: Civil)
    requires Valid(c)
    ensures var s := Stamp(c);
      && |s| == 19 && s[0..4] == Two(c.year / 100) + Two(c.year % 100) && s[4..6] == Two(c.month) && s[6..8] == Two(c.day)
      && s[8] == 'T' && s[9..11] == Two(c.hour) && s[11..13] == Two(c.minute) && s[13..15] == Two(c.second) && s[15..] == "Z.db"
  {
    var s := Stamp(c);
    assert s == Two(c.year / 100) + Two(c.year % 100) + Two(c.month) + Two(c.day) + "T" + Two(c.hour) + Two(c.minute) + Two(c.second) + "Z.db";
  }

  // A file of the pattern, read off its name.
  predicate IsSnapshotName(name: string) {
    9 <= |name| && name[..6] == "state-" && name[|name| - 3..] == ".db"
  }

  function SnapshotNames(files: map<string, State>): set<string> { set name | name in files && IsSnapshotName(name) }

  // left is all but for snapshots older by name than every snapshot left; of those
  // as many as are to be kept are there.
  ghost predicate LeavesNewest(all: map<string, State>, left: map<string, State>, keep: int) {
    && (forall name | name in left :: name in all && left[name] == all[name])
    && (forall gone | gone in all && gone !in left ::
          IsSnapshotName(gone) && forall kept | kept in SnapshotNames(left) :: StrLess(gone, kept))
    && |SnapshotNames(left)| == if 0 < keep < |SnapshotNames(all)| then keep else |SnapshotNames(all)|
  }

  lemma ExcessExactly(all: map<string, State>, keep: int)
    ensures LeavesNewest(all, all - Excess(all, keep), keep)
  {
    hide Listing, BackupsIn, IsBackup, StrLess;
    var names := Listing(BackupsIn(all).Keys, StrLess);
    var k := |names| - Retained(|names|, keep);
    ListedBackups(all);
    SameNames(all);
    StrOrder();
    ListingDistinct(names, BackupsIn(all).Keys, StrLess);
    DropFirst(all, all - Excess(all, keep), names, k);
  }

  lemma SameNames(all: map<string, State>)
    ensures SnapshotNames(all) == BackupsIn(all).Keys
  {
  }

  // Without the first k of its sorted names, a directory keeps the rest of them.
  lemma DropFirst(all: map<string, State>, left: map<string, State>, names: seq<string>, k: nat)
    requires k <= |names| && IsListing(names, SnapshotNames(all), StrLess) && StrictOrder(StrLess)
    requires left == all - Names(names[..k])
    ensures SnapshotNames(left) == Names(names[k..]) && |SnapshotNames(left)| == |names| - k
    ensures forall gone, kept | gone in Names(names[..k]) && kept in SnapshotNames(left) :: StrLess(gone, kept)
    ensures Names(names[..k]) <= SnapshotNames(all)
  {
    hide StrLess, IsSnapshotName;
    var first, rest := names[..k], names[k..];
    assert names == first + rest;
    forall a, b | a in first && b in rest ensures StrLess(a, b) && a != b {
      var i :| 0 <= i < k && first[i] == a;
      var j :| 0 <= j < |rest| && rest[j] == b;
      assert names[i] == a && names[k + j] == b;
    }
    forall name ensures name in SnapshotNames(left) <==> name in rest {
      assert name in SnapshotNames(all) <==> name in first || name in rest;
    }
    assert Distinct(rest) by {
      forall i, j | 0 <= i < j < |rest| ensures rest[i] != rest[j] { assert StrLess(names[k + i], names[k + j]); }
    }
    DistinctCard(rest, SnapshotNames(left));
  }

  datatype Snapshot = Snapshot(at: Instant, state: State)

  // What a directory holds that was given exactly these snapshots.
  function FilesOf(taken: seq<Snapshot>): map<string, State>
  {
    if taken == [] then map[] else
      var last := taken[|taken| - 1];
      FilesOf(taken[..|taken| - 1])[NameAt(last.at) := last.state]
  }

  predicate Increasing(taken: seq<Snapshot>) {
    forall i, j | 0 <= i < j < |taken| :: taken[i].at < taken[j].at
  }

  // How many of n snapshots are retained; without a limit, all.
  function Retained(n: nat, keep: int): nat {
    if keep <= 0 || n <= keep then n else keep
  }

  function Newest(taken: seq<Snapshot>, keep: int): seq<Snapshot> { taken[|taken| - Retained(|taken|, keep)..] }

  function BackupsIn(files: map<string, State>): map<string, State> {
    map name | name in files && IsBackup(name) :: files[name]
  }

  function Names(names: seq<string>): set<string> { set name | name in names }

  lemma NoNames()
    ensures Names([]) == {}
  {
  }

  lemma OneMoreName(names: seq<string>, k: nat)
    requires k < |names|
    ensures Names(names[..k + 1]) == Names(names[..k]) + {names[k]}
  {
    assert names[..k + 1] == names[..k] + [names[k]];
  }

  // The oldest names beyond keep.
  ghost function Excess(files: map<string, State>, keep: int): set<string> {
    var names := Listing(BackupsIn(files).Keys, StrLess);
    Names(names[..|names| - Retained(|names|, keep)])
  }

  function NamesOf(taken: seq<Snapshot>): seq<string>
  {
    seq(|taken|, i requires 0 <= i < |taken| => NameAt(taken[i].at))
  }

  lemma {:induction false} FilesListed(taken: seq<Snapshot>)
    requires Increasing(taken)
    ensures Listing(FilesOf(taken).Keys, StrLess) == NamesOf(taken)
    ensures IsListing(NamesOf(taken), FilesOf(taken).Keys, StrLess)
    ensures forall i | 0 <= i < |taken| :: NameAt(taken[i].at) in FilesOf(taken) && FilesOf(taken)[NameAt(taken[i].at)] == taken[i].state
  {
    hide NameAt, StrLess;
    FilesFound(taken);
    var names := NamesOf(taken);
    forall i, j | 0 <= i < j < |names| ensures StrLess(names[i], names[j]) { NamesInOrder(taken[i].at, taken[j].at); }
    forall name ensures name in names <==> name in FilesOf(taken).Keys {
      if name in FilesOf(taken) {
        var i :| 0 <= i < |taken| && NameAt(taken[i].at) == name;
        assert names[i] == name;
      }
    }
    StrOrder();
    ListingIs(names, FilesOf(taken).Keys, StrLess);
  }

  lemma {:induction false} FilesFound(taken: seq<Snapshot>)
    requires Increasing(taken)
    ensures forall i | 0 <= i < |taken| :: NameAt(taken[i].at) in FilesOf(taken) && FilesOf(taken)[NameAt(taken[i].at)] == taken[i].state
    ensures forall name | name in FilesOf(taken) :: exists i | 0 <= i < |taken| :: NameAt(taken[i].at) == name
  {
    hide NameAt, StrLess;
    if taken != [] {
      var k := |taken| - 1;
      FilesFound(taken[..k]);
      forall i | 0 <= i < k ensures NameAt(taken[i].at) != NameAt(taken[k].at) {
        NamesInOrder(taken[i].at, taken[k].at);
        assert taken[..k][i] == taken[i];
      }
      forall i | 0 <= i < |taken|
        ensures NameAt(taken[i].at) in FilesOf(taken) && FilesOf(taken)[NameAt(taken[i].at)] == taken[i].state
      {
        if i < k { assert taken[..k][i] == taken[i]; }
      }
      forall name | name in FilesOf(taken) ensures exists i | 0 <= i < |taken| :: NameAt(taken[i].at) == name {
        if name in FilesOf(taken[..k]) {
          var i :| 0 <= i < k && NameAt(taken[..k][i].at) == name;
          assert taken[i] == taken[..k][i];
        }
      }
    }
  }

  lemma NamesCount(taken: seq<Snapshot>)
    ensures |NamesOf(taken)| == |taken| && (taken != [] ==> NamesOf(taken)[|taken| - 1] == NameAt(taken[|taken| - 1].at))
  {
    hide NameAt;
  }

  lemma FilesStep(taken: seq<Snapshot>, next: Snapshot)
    ensures FilesOf(taken + [next]) == FilesOf(taken)[NameAt(next.at) := next.state]
  {
    hide NameAt;
    assert (taken + [next])[..|taken|] == taken;
  }

  lemma NamesMatch(at: Instant)
    ensures IsBackup(NameAt(at))
  {
    hide NameAt;
    NameReadsBack(at);
    assert NameAt(at)[22..] == NameAt(at)[21..][1..];
  }

  lemma AddedBackup(files: map<string, State>, at: Instant, state: State)
    ensures BackupsIn(files[NameAt(at) := state]) == BackupsIn(files)[NameAt(at) := state]
  {
    hide NameAt, IsBackup;
    NamesMatch(at);
  }

  /** Dropping the oldest names drops the oldest snapshots. */
  lemma {:induction false} DropOldest(taken: seq<Snapshot>, k: nat)
    requires Increasing(taken) && k <= |taken|
    ensures FilesOf(taken[k..]) == FilesOf(taken) - Names(NamesOf(taken)[..k])
    decreases |taken|
  {
    hide NameAt, StrLess;
    if k == |taken| {
      DropAll(taken);
    } else {
      var n := |taken| - 1;
      var before, last := taken[..n], taken[n];
      assert taken[k..][..n - k] == before[k..];
      assert NamesOf(before)[..k] == NamesOf(taken)[..k];
      DropOldest(before, k);
      forall i | 0 <= i < k ensures NamesOf(taken)[..k][i] != NameAt(last.at) { NamesInOrder(taken[i].at, last.at); }
    }
  }

  lemma DropAll(taken: seq<Snapshot>)
    requires Increasing(taken)
    ensures FilesOf(taken) - Names(NamesOf(taken)) == map[] && NamesOf(taken)[..|taken|] == NamesOf(taken)
  {
    hide NameAt, StrLess;
    FilesFound(taken);
    forall name | name in FilesOf(taken) ensures name in Names(NamesOf(taken)) {
      var i :| 0 <= i < |taken| && NameAt(taken[i].at) == name;
      assert NamesOf(taken)[i] == name;
    }
  }

  class BackupDir {
    // Names to contents; files that do not match the pattern are left alone.
    var files: map<string, State>

    constructor (files: map<string, State>)
      ensures this.files == files
    {
      this.files := files;
    }

    // Publishes a snapshot under its timestamped name, then prunes.
    method Backup(at: Instant, state: State, keep: int) returns (name: string)
      modifies this
      ensures name == NameAt(at)
      ensures var all := old(files)[name := state]; files == all - Excess(all, keep) && LeavesNewest(all, files, keep)
    {
      name := NameAt(at);
      files := files[name := state];
      Prune(keep);
    }

    method List() returns (names: seq<string>)
      ensures names == Listing(BackupsIn(files).Keys, StrLess) && IsListing(names, BackupsIn(files).Keys, StrLess)
    {
      names := [];
      var rest := BackupsIn(files).Keys;
      while rest != {}
        invariant rest <= BackupsIn(files).Keys && Distinct(names)
        invariant forall name :: name in names <==> name in BackupsIn(files).Keys - rest
        decreases rest
      {
        var name :| name in rest;
        assert name !in names;
        names := names + [name];
        rest := rest - {name};
      }
      StrOrder();
      assert TotalOn(BackupsIn(files).Keys, StrLess);
      SortLists(names, StrLess);
      names := Sort(names, StrLess);
      ListingIs(names, BackupsIn(files).Keys, StrLess);
    }

    method Prune(keep: int)
      modifies this
      ensures files == old(files) - Excess(old(files), keep) && LeavesNewest(old(files), files, keep)
    {
      hide Listing, BackupsIn, IsBackup, Names, LeavesNewest;
      NoNames();
      ExcessExactly(files, keep);
      if keep <= 0 { assert files - {} == files; return; }
      var names := List();
      ghost var all, k := names, 0;
      ghost var removed: set<string> := {};
      assert files - {} == files;
      ghost var found := files;
      while |names| > keep
        invariant 0 <= k <= |all| && names == all[k..] && (k > 0 ==> |names| >= keep)
        invariant removed == Names(all[..k])
        invariant files == found - removed
        decreases |names|
      {
        OneMoreName(all, k);
        assert names[0] == all[k];
        assert found - removed - {names[0]} == found - (removed + {names[0]});
        files := files - {names[0]};
        removed := removed + {names[0]};
        k := k + 1;
        names := names[1..];
      }
      assert k == |all| - Retained(|all|, keep);
    }

    method LatestBackup() returns (latest: string)
      ensures var names := Listing(BackupsIn(files).Keys, StrLess);
        latest == if names == [] then "" else names[|names| - 1]
      ensures latest != "" ==> latest in files
    {
      var names := List();
      if names == [] { return ""; }
      latest := names[|names| - 1];
      assert latest in names;
    }

    // The database at start-up: as found, else the newest snapshot, if any.
    method RestoreIfMissing(found: Option<State>) returns (db: Option<State>, used: string)
      ensures found.Some? ==> db == found && used == ""
      ensures found.None? ==>
        var names := Listing(BackupsIn(files).Keys, StrLess);
        if names == [] then db == None && used == ""
        else used == names[|names| - 1] && used in files && db == Some(files[used])
    {
      if found.Some? { return found, ""; }
      used := LatestBackup();
      ListedBackups(files);
      db := if used == "" then None else Some(files[used]);
    }
  }

  lemma ListedBackups(files: map<string, State>)
    ensures IsListing(Listing(BackupsIn(files).Keys, StrLess), BackupsIn(files).Keys, StrLess)
    ensures "" !in BackupsIn(files)
  {
    StrOrder();
    assert TotalOn(BackupsIn(files).Keys, StrLess);
    ListingExists(BackupsIn(files).Keys, StrLess);
  }

  lemma BackupsLeft(files: map<string, State>, gone: set<string>)
    ensures BackupsIn(files - gone) == BackupsIn(files) - gone
  {
    hide IsBackup;
  }

  /** One more backup, later than all before: the directory goes from the newest
      keep of what was taken to the newest keep of what is taken now. */
  lemma BackupStep(files: map<string, State>, taken: seq<Snapshot>, next: Snapshot, keep: int)
    requires Increasing(taken + [next]) && BackupsIn(files) == FilesOf(Newest(taken, keep))
    ensures var all := files[NameAt(next.at) := next.state];
      BackupsIn(all - Excess(all, keep)) == FilesOf(Newest(taken + [next], keep))
  {
    hide NameAt, StrLess, FilesOf, IsBackup, NamesOf;
    var kept := Newest(taken, keep);
    var now := kept + [next];
    var all := files[NameAt(next.at) := next.state];
    assert now == (taken + [next])[|taken| - |kept|..];
    FilesStep(kept, next);
    AddedBackup(files, next.at, next.state);
    FilesListed(now);
    NamesCount(now);
    var k := |now| - Retained(|now|, keep);
    DropOldest(now, k);
    assert now[k..] == Newest(taken + [next], keep);
    BackupsLeft(all, Excess(all, keep));
  }

  /** Retention. Backups taken at increasing times leave exactly the newest keep
      of them, or all of them without a limit, and a restore picks the last one
      taken. Other files in the directory make no difference. */
  method BackupsOverTime(dir: BackupDir, taken: seq<Snapshot>, keep: int) returns (db: Option<State>)
    requires Increasing(taken) && BackupsIn(dir.files) == map[]
    modifies dir
    ensures BackupsIn(dir.files) == FilesOf(Newest(taken, keep))
    ensures db == if taken == [] then None else Some(taken[|taken| - 1].state)
  {
    hide Excess, NameAt, IsBackup, BackupsIn, FilesOf, Newest, Increasing, StrLess;
    NoneTaken(keep);
    for i := 0 to |taken|
      invariant BackupsIn(dir.files) == FilesOf(Newest(taken[..i], keep))
    {
      assert taken[..i + 1] == taken[..i] + [taken[i]];
      IncreasingSoFar(taken, i);
      BackupStep(dir.files, taken[..i], taken[i], keep);
      var _ := dir.Backup(taken[i].at, taken[i].state, keep);
    }
    assert taken[..|taken|] == taken;
    LatestIsLast(dir.files, taken, keep);
    var used;
    db, used := dir.RestoreIfMissing(None);
  }

  lemma IncreasingSoFar(taken: seq<Snapshot>, i: nat)
    requires Increasing(taken) && i < |taken|
    ensures Increasing(taken[..i] + [taken[i]])
  {
  }

  lemma NoneTaken(keep: int)
    ensures FilesOf(Newest([], keep)) == map[]
  {
  }

  lemma LatestIsLast(files: map<string, State>, taken: seq<Snapshot>, keep: int)
    requires Increasing(taken) && BackupsIn(files) == FilesOf(Newest(taken, keep))
    ensures var names := Listing(BackupsIn(files).Keys, StrLess);
      if taken == [] then names == []
      else names != [] && names[|names| - 1] in files && files[names[|names| - 1]] == taken[|taken| - 1].state
  {
    hide NameAt, StrLess, FilesOf, IsBackup, NamesOf;
    var kept := Newest(taken, keep);
    FilesListed(kept);
    NamesCount(kept);
    if taken != [] {
      assert kept[|kept| - 1] == taken[|taken| - 1];
      var name := NameAt(kept[|kept| - 1].at);
      assert name in BackupsIn(files) && BackupsIn(files)[name] == files[name];
    }
  }
}
