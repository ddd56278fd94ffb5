/**
 * `gen_filename` (UNFLoader/helper.cpp): a name of the form
 * `[outdir]filename-YYMMDDhhmmssCC.ext`, where `CC` tells apart names made
 * within the same second. The two static counters of the C function are the
 * fields of a `FilenameGenerator`; the clock reading and the binary-output
 * directory are parameters.
 */
module ArtifactNamer {
  import opened Wrappers
  import opened Numerals

  /** A `localtime` reading in calendar terms: `year` is `tm_year + 1900`, `month` is `tm_mon + 1`. */
  datatype LocalTime = LocalTime(year: int, month: int, day: int, hour: int, minute: int, second: int) {
    /** The ranges `localtime` produces (a leap second may read as 60). */
    predicate Valid() {
      && 0 <= year
      && 1 <= month <= 12
      && 1 <= day <= 31
      && 0 <= hour <= 23
      && 0 <= minute <= 59
      && 0 <= second <= 60
    }
  }

  const LastSecondOfDay := 23 * 3600 + 59 * 60 + 60

  function SecondOfDay(t: LocalTime): (r: int)
    requires t.Valid()
    ensures 0 <= r <= LastSecondOfDay
  {
    t.hour * 3600 + t.minute * 60 + t.second
  }

  /** The first twelve digits, `%02d` six times: year mod 100, month, day, hour, minute, second. */
  function DateDigits(t: LocalTime): (d: string)
    requires t.Valid()
    ensures |d| == 12
  {
    TwoDigits(t.year % 100) + TwoDigits(t.month) + TwoDigits(t.day)
      + TwoDigits(t.hour) + TwoDigits(t.minute) + TwoDigits(t.second)
  }

  /** The 14 digits of a name: the date digits, then the counter mod 100 as `%02d`. */
  function Stamp(t: LocalTime, increment: nat): (d: string)
    requires t.Valid()
    ensures |d| == 14
  {
    DateDigits(t) + TwoDigits(increment % 100)
  }

  /** Each pair of stamp digits reads back as the field it was printed from. */
  lemma StampFields(t: LocalTime, increment: nat)
    requires t.Valid()
    ensures var d := Stamp(t, increment);
      && AllDigits(d)
      && DecimalValue(d[0..2]) == t.year % 100
      && DecimalValue(d[2..4]) == t.month
      && DecimalValue(d[4..6]) == t.day
      && DecimalValue(d[6..8]) == t.hour
      && DecimalValue(d[8..10]) == t.minute
      && DecimalValue(d[10..12]) == t.second
      && DecimalValue(d[12..14]) == increment % 100
  {
    var y, mo, dd := TwoDigits(t.year % 100), TwoDigits(t.month), TwoDigits(t.day);
    var h, mi, s := TwoDigits(t.hour), TwoDigits(t.minute), TwoDigits(t.second);
    var c := TwoDigits(increment % 100);
    var date, d := DateDigits(t), Stamp(t, increment);
    var ymd, hms := y + mo + dd, h + mi + s;
    assert ymd[0..2] == y && ymd[2..4] == mo && ymd[4..6] == dd;
    assert hms[0..2] == h && hms[2..4] == mi && hms[4..6] == s;
    assert date == ymd + hms;
    assert d == ymd + hms + c;
    assert d[0..2] == y && d[2..4] == mo && d[4..6] == dd;
    assert d[6..8] == h && d[8..10] == mi && d[10..12] == s;
    assert d[12..14] == c;
  }

  /** The directory prefix, present when `debug_getbinaryout()` is not NULL. */
  function Prefix(binaryOut: Option<string>): string {
    if binaryOut.Some? then binaryOut.value else ""
  }

  /** The final `sprintf`: prefix (if any), file name, '-', the stamp, '.', the extension. */
  function ArtifactName(binaryOut: Option<string>, filename: string, fileext: string, t: LocalTime, increment: nat): (name: string)
    requires t.Valid()
    ensures |name| == |Prefix(binaryOut)| + |filename| + 16 + |fileext|
  {
    Prefix(binaryOut) + filename + "-" + Stamp(t, increment) + "." + fileext
  }

  /** Where the counter digits sit in a name. */
  function CounterAt(binaryOut: Option<string>, filename: string): nat {
    |Prefix(binaryOut)| + |filename| + 13
  }

  /**
   * `a` and `b` have the same length and agree outside the two digits at
   * `k`, where `a` holds `ca` and `b` holds `cb`.
   */
  ghost predicate DifferOnlyAt(a: string, b: string, k: nat, ca: nat, cb: nat) {
    && |a| == |b| && k + 2 < |a|
    && (forall m :: 0 <= m < |a| && m != k && m != k + 1 ==> a[m] == b[m])
    && AllDigits(a[k..k + 2]) && DecimalValue(a[k..k + 2]) == ca
    && AllDigits(b[k..k + 2]) && DecimalValue(b[k..k + 2]) == cb
  }

  /** The name splits back into prefix, filename, '-', the stamp, '.' and the extension. */
  lemma ArtifactNameLayout(binaryOut: Option<string>, filename: string, fileext: string, t: LocalTime, increment: nat)
    requires t.Valid()
    ensures var name, p, n := ArtifactName(binaryOut, filename, fileext, t, increment), |Prefix(binaryOut)|, |filename|;
      && |name| == p + n + 16 + |fileext|
      && name[..p] == Prefix(binaryOut)
      && name[p..p + n] == filename
      && name[p + n] == '-'
      && name[p + n + 1..p + n + 15] == Stamp(t, increment)
      && name[p + n + 15] == '.'
      && name[p + n + 16..] == fileext
  {
    var name, p, n := ArtifactName(binaryOut, filename, fileext, t, increment), |Prefix(binaryOut)|, |filename|;
    var pre, st := Prefix(binaryOut), Stamp(t, increment);
    var head := pre + filename;
    assert head[..p] == pre && head[p..] == filename;
    var left := head + "-" + st;
    assert left[..p + n] == head && left[p + n] == '-' && left[p + n + 1..] == st;
    assert name == left + "." + fileext;
    assert name[..p + n + 15] == left && name[p + n + 15] == '.' && name[p + n + 16..] == fileext;
  }

  /** Two strings that differ only in a two-digit middle part differ only at its position. */
  lemma SpliceDiffersOnlyAt(left: string, x: string, y: string, right: string)
    requires |x| == 2 && |y| == 2 && AllDigits(x) && AllDigits(y) && |right| > 0
    ensures DifferOnlyAt(left + x + right, left + y + right, |left|, DecimalValue(x), DecimalValue(y))
  {
    var a, b, k := left + x + right, left + y + right, |left|;
    assert a[k..k + 2] == x;
    assert b[k..k + 2] == y;
  }

  /** A name is its fixed head, the counter digits, and its fixed tail. */
  lemma NameSplitsAtCounter(binaryOut: Option<string>, filename: string, fileext: string, t: LocalTime, increment: nat)
    requires t.Valid()
    ensures var head := Prefix(binaryOut) + filename + "-" + DateDigits(t);
      && |head| == CounterAt(binaryOut, filename)
      && ArtifactName(binaryOut, filename, fileext, t, increment) == head + TwoDigits(increment % 100) + ("." + fileext)
  {
  }

  /** Counter values that differ mod 100 give different names, all else equal. */
  lemma {:induction false} NamesDiffer(binaryOut: Option<string>, filename: string, fileext: string, t: LocalTime, i: nat, j: nat)
    requires t.Valid() && i % 100 != j % 100
    ensures ArtifactName(binaryOut, filename, fileext, t, i) != ArtifactName(binaryOut, filename, fileext, t, j)
  {
    NamesDifferOnlyInCounter(binaryOut, filename, fileext, t, i, j);
  }

  /**
   * With the same time and different counters, two names agree everywhere
   * except in the two counter digits.
   */
  lemma {:induction false} NamesDifferOnlyInCounter(binaryOut: Option<string>, filename: string, fileext: string, t: LocalTime, i: nat, j: nat)
    requires t.Valid()
    ensures DifferOnlyAt(ArtifactName(binaryOut, filename, fileext, t, i), ArtifactName(binaryOut, filename, fileext, t, j),
                         CounterAt(binaryOut, filename), i % 100, j % 100)
  {
    NameSplitsAtCounter(binaryOut, filename, fileext, t, i);
    NameSplitsAtCounter(binaryOut, filename, fileext, t, j);
    SpliceDiffersOnlyAt(Prefix(binaryOut) + filename + "-" + DateDigits(t), TwoDigits(i % 100), TwoDigits(j % 100), "." + fileext);
  }

  /** Proof helper: a counter below 100 prints as itself under `% 100`. */
  lemma SmallCounter(c: nat)
    requires c < 100
    ensures c % 100 == c
  {
  }

  /** Consecutive counters below 99 show up as consecutive digit pairs. */
  lemma ConsecutiveNamesDiffer(binaryOut: Option<string>, filename: string, fileext: string, t: LocalTime, c: nat)
    requires t.Valid() && c < 99
    ensures DifferOnlyAt(ArtifactName(binaryOut, filename, fileext, t, c), ArtifactName(binaryOut, filename, fileext, t, c + 1),
                         CounterAt(binaryOut, filename), c, c + 1)
  {
    var head := Prefix(binaryOut) + filename + "-" + DateDigits(t);
    NameSplitsAtCounter(binaryOut, filename, fileext, t, c);
    NameSplitsAtCounter(binaryOut, filename, fileext, t, c + 1);
    SmallCounter(c);
    SmallCounter(c + 1);
    SpliceDiffersOnlyAt(head, TwoDigits(c), TwoDigits(c + 1), "." + fileext);
  }

  /** The process-wide `increment`/`lasttime` pair of `gen_filename`. */
  class FilenameGenerator {
    var increment: nat
    var lasttime: int

    /**
     * `lasttime` always holds a second of the day (0 before the first call),
     * which is the range `curtime` takes; every call keeps this.
     */
    ghost predicate Valid()
      reads this
    {
      0 <= lasttime <= LastSecondOfDay
    }

    /** Both statics start at zero. */
    constructor ()
      ensures Valid() && increment == 0 && lasttime == 0
    {
      increment, lasttime := 0, 0;
    }

    /**
     * One call of `gen_filename`. The counter is reset when the second of
     * the day changed since the last call and incremented otherwise; this
     * happens before the allocations, so it happens even when `allocOk` is
     * false and the C code returns NULL.
     */
    method GenFilename(filename: string, fileext: string, binaryOut: Option<string>, now: LocalTime, allocOk: bool)
      returns (name: Option<string>)
      requires Valid() && now.Valid()
      modifies this
      ensures Valid()
      ensures lasttime == SecondOfDay(now)
      ensures old(lasttime) != SecondOfDay(now) ==> increment == 0
      ensures old(lasttime) == SecondOfDay(now) ==> increment == old(increment) + 1
      ensures name == if allocOk then Some(ArtifactName(binaryOut, filename, fileext, now, increment)) else None
    {
      var curtime := now.hour * 60 * 60 + now.minute * 60 + now.second;
      if lasttime != curtime {
        increment := 0;
        lasttime := curtime;
      } else {
        increment := increment + 1;
      }
      if !allocOk {
        return None;
      }
      var extraname := Stamp(now, increment);
      if binaryOut.Some? {
        name := Some(binaryOut.value + filename + "-" + extraname + "." + fileext);
      } else {
        name := Some(filename + "-" + extraname + "." + fileext);
        assert Prefix(binaryOut) + filename == filename;
      }
    }
  }

  /**
   * Two captures in the same second from a fresh generator: the names
   * differ only in the counter digits, and the second counter is one more
   * than the first. The first counter is 0, except at 00:00:00, where the
   * initial `lasttime` of 0 already matches and it is 1.
   */
  method SameSecondCaptures(filename: string, fileext: string, binaryOut: Option<string>, now: LocalTime)
    returns (first: string, second: string)
    requires now.Valid()
    ensures var c := if SecondOfDay(now) == 0 then 1 else 0;
      && first == ArtifactName(binaryOut, filename, fileext, now, c)
      && second == ArtifactName(binaryOut, filename, fileext, now, c + 1)
      && DifferOnlyAt(first, second, CounterAt(binaryOut, filename), c, c + 1)
  {
    var g := new FilenameGenerator();
    var a := g.GenFilename(filename, fileext, binaryOut, now, true);
    var b := g.GenFilename(filename, fileext, binaryOut, now, true);
    first, second := a.value, b.value;
    ConsecutiveNamesDiffer(binaryOut, filename, fileext, now, if SecondOfDay(now) == 0 then 1 else 0);
  }

  /** A call that observes a new second restarts the counter digits at "00". */
  lemma NewSecondEndsIn00(binaryOut: Option<string>, filename: string, fileext: string, t: LocalTime)
    requires t.Valid()
    ensures var name, k := ArtifactName(binaryOut, filename, fileext, t, 0), CounterAt(binaryOut, filename);
      k + 2 < |name| && name[k..k + 2] == "00"
  {
    NameSplitsAtCounter(binaryOut, filename, fileext, t, 0);
    var name, k := ArtifactName(binaryOut, filename, fileext, t, 0), CounterAt(binaryOut, filename);
    assert name[k..k + 2] == TwoDigits(0);
  }
}
