/**
 * Daily runs at fixed hours: the longest gap between two runs, and the wait until the next one.
 * The clock of the time zone is the second of a 24-hour day.
 */
module DailySchedule {

  const HOUR_MS := 3_600_000
  const HOUR := 3600
  const DAY := 86_400

  type Hour = h: nat | h < 24

  /** A second of the 24-hour day. */
  type Second = n: nat | n < DAY

  ghost predicate Ascending(s: seq<Hour>) {
    forall i, j :: 0 <= i < j < |s| ==> s[i] <= s[j]
  }

  ghost predicate Distinct(s: seq<Hour>) {
    forall i, j :: 0 <= i < j < |s| ==> s[i] != s[j]
  }

  ghost predicate AllEqual(s: seq<Hour>) {
    forall i, j :: 0 <= i < j < |s| ==> s[i] == s[j]
  }

  // ----- Sorting, smallest and largest

  function Insert(x: Hour, s: seq<Hour>): (r: seq<Hour>)
    requires Ascending(s)
    ensures Ascending(r) && |r| == |s| + 1
    ensures forall h :: h in r <==> h == x || h in s
    ensures multiset(r) == multiset(s) + multiset{x}
  {
    if s == [] || x <= s[0] then [x] + s
    else
      var rest := Insert(x, s[1..]);
      assert s == [s[0]] + s[1..];
      assert forall i :: 0 <= i < |rest| ==> s[0] <= rest[i] by { HeadIsLeast(s, x, rest); }
      [s[0]] + rest
  }

  lemma HeadIsLeast(s: seq<Hour>, x: Hour, rest: seq<Hour>)
    requires Ascending(s) && s != [] && s[0] < x
    requires forall h :: h in rest ==> h == x || h in s[1..]
    ensures forall i :: 0 <= i < |rest| ==> s[0] <= rest[i]
  {
    forall i | 0 <= i < |rest| ensures s[0] <= rest[i] {
      assert rest[i] in rest;
      if rest[i] != x {
        var k :| 0 <= k < |s[1..]| && s[1..][k] == rest[i];
        assert s[0] <= s[k + 1];
      }
    }
  }

  /** `[...hours].sort((a, b) => a - b)` */
  function Sorted(hours: seq<Hour>): (r: seq<Hour>)
    ensures Ascending(r) && |r| == |hours|
    ensures forall h :: h in r <==> h in hours
    ensures multiset(r) == multiset(hours)
  {
    if hours == [] then []
    else
      assert hours == [hours[0]] + hours[1..];
      Insert(hours[0], Sorted(hours[1..]))
  }

  lemma DistinctCons(x: Hour, s: seq<Hour>)
    ensures Distinct([x] + s) <==> x !in s && Distinct(s)
  {
    var r := [x] + s;
    if Distinct(r) {
      assert forall i {:trigger s[i]} :: 0 <= i < |s| ==> r[i + 1] == s[i] && r[0] != r[i + 1];
      forall i, j | 0 <= i < j < |s| ensures s[i] != s[j] {
        assert r[i + 1] != r[j + 1];
      }
    }
  }

  lemma {:induction false} InsertDistinct(x: Hour, s: seq<Hour>)
    requires Ascending(s)
    ensures Distinct(Insert(x, s)) <==> x !in s && Distinct(s)
  {
    if s == [] || x <= s[0] {
      DistinctCons(x, s);
    } else {
      InsertDistinct(x, s[1..]);
      DistinctCons(s[0], Insert(x, s[1..]));
      DistinctCons(s[0], s[1..]);
      assert s == [s[0]] + s[1..];
    }
  }

  /** Sorting neither merges nor separates repeated hours. */
  lemma {:induction false} SortedDistinct(hours: seq<Hour>)
    ensures Distinct(Sorted(hours)) <==> Distinct(hours)
  {
    if hours != [] {
      SortedDistinct(hours[1..]);
      InsertDistinct(hours[0], Sorted(hours[1..]));
      DistinctCons(hours[0], hours[1..]);
      assert hours == [hours[0]] + hours[1..];
    }
  }

  function Largest(s: seq<nat>): (m: nat)
    requires s != []
    ensures m in s && forall i :: 0 <= i < |s| ==> s[i] <= m
  {
    if |s| == 1 then s[0]
    else var m := Largest(s[1..]); if s[0] < m then m else s[0]
  }

  function Smallest(s: seq<nat>): (m: nat)
    requires s != []
    ensures m in s && forall i :: 0 <= i < |s| ==> m <= s[i]
  {
    if |s| == 1 then s[0]
    else var m := Smallest(s[1..]); if m < s[0] then m else s[0]
  }

  // ----- The longest gap

  /** `(i + 1) % n` of an index */
  function Following(i: nat, n: nat): (j: nat)
    requires i < n
    ensures j < n
  {
    if i + 1 == n then 0 else i + 1
  }

  /** Hours from `from` to `next`, a whole day when they are equal. */
  function Gap(from: Hour, next: Hour): (g: nat)
    ensures 1 <= g <= 24
    ensures g == if next > from then next - from else next - from + 24
  {
    var g := (next - from + 24) % 24;
    if g == 0 then 24 else g
  }

  function Gaps(sorted: seq<Hour>): (gaps: seq<nat>)
    ensures |gaps| == |sorted|
    ensures forall i :: 0 <= i < |sorted| ==> gaps[i] == Gap(sorted[i], sorted[Following(i, |sorted|)])
  {
    seq(|sorted|, i requires 0 <= i < |sorted| => Gap(sorted[i], sorted[Following(i, |sorted|)]))
  }

  function MaxGapMs(hours: seq<Hour>): nat
    requires hours != []
  {
    Largest(Gaps(Sorted(hours))) * HOUR_MS
  }

  // ----- The wait until the next run

  /** Seconds from `second` to the next time the clock shows `hour`, a whole day when it shows it now. */
  function Wait(hour: Hour, second: Second): (w: nat)
    ensures 1 <= w <= DAY
    ensures w == if hour * HOUR > second then hour * HOUR - second else hour * HOUR - second + DAY
  {
    var w := (hour * HOUR - second + DAY) % DAY;
    if w == 0 then DAY else w
  }

  function Waits(hours: seq<Hour>, second: Second): (waits: seq<nat>)
    ensures |waits| == |hours|
    ensures forall i :: 0 <= i < |hours| ==> waits[i] == Wait(hours[i], second)
  {
    seq(|hours|, i requires 0 <= i < |hours| => Wait(hours[i], second))
  }

  function MsUntilNextRun(hours: seq<Hour>, second: Second): nat
    requires hours != []
  {
    Smallest(Waits(hours, second)) * 1000
  }

  /** What the clock shows `seconds` later. */
  function Ahead(second: Second, seconds: nat): Second {
    (second + seconds) % DAY
  }

  predicate RunsAt(hours: seq<Hour>, second: Second) {
    exists i :: 0 <= i < |hours| && hours[i] * HOUR == second
  }

  lemma WaitReaches(hour: Hour, second: Second, ahead: nat)
    requires 1 <= ahead <= DAY
    ensures Ahead(second, ahead) == hour * HOUR <==> ahead == Wait(hour, second)
  {
    assert Ahead(second, ahead) == if second + ahead < DAY then second + ahead else second + ahead - DAY;
  }

  /** The wait is positive, ends at a listed hour, and passes no listed hour on the way. */
  lemma NextRunIsFirst(hours: seq<Hour>, second: Second)
    requires hours != []
    ensures var wait := MsUntilNextRun(hours, second);
            && wait % 1000 == 0 && 0 < wait / 1000 <= DAY
            && RunsAt(hours, Ahead(second, wait / 1000))
            && forall ahead {:trigger Ahead(second, ahead)} ::
                 0 < ahead < wait / 1000 ==> !RunsAt(hours, Ahead(second, ahead))
  {
    var waits := Waits(hours, second);
    var w := Smallest(waits);
    var i :| 0 <= i < |waits| && waits[i] == w;
    WaitReaches(hours[i], second, w);
    assert forall j :: 0 <= j < |hours| ==> w <= waits[j] == Wait(hours[j], second);
    forall ahead | 0 < ahead < w ensures !RunsAt(hours, Ahead(second, ahead)) {
      NoneOnTheWay(hours, second, ahead);
    }
  }

  lemma NoneOnTheWay(hours: seq<Hour>, second: Second, ahead: nat)
    requires 0 < ahead <= DAY && forall j :: 0 <= j < |hours| ==> ahead < Wait(hours[j], second)
    ensures !RunsAt(hours, Ahead(second, ahead))
  {
    if RunsAt(hours, Ahead(second, ahead)) {
      var j :| 0 <= j < |hours| && hours[j] * HOUR == Ahead(second, ahead);
      WaitReaches(hours[j], second, ahead);
    }
  }

  // ----- The longest gap bounds every wait

  /** Index in `sorted` of the last run at or before `second`, the day's last run when there is none. */
  function LastRun(sorted: seq<Hour>, second: Second): (i: nat)
    requires sorted != [] && Ascending(sorted)
    ensures i < |sorted|
    ensures second < sorted[0] * HOUR ==> i == |sorted| - 1
    ensures sorted[0] * HOUR <= second ==>
      sorted[i] * HOUR <= second && (i + 1 < |sorted| ==> second < sorted[i + 1] * HOUR)
  {
    if second < sorted[0] * HOUR || sorted[|sorted| - 1] * HOUR <= second then |sorted| - 1
    else LastRun(sorted[..|sorted| - 1], second)
  }

  lemma WaitWithinGap(sorted: seq<Hour>, second: Second)
    requires sorted != [] && Ascending(sorted)
    ensures var i := LastRun(sorted, second);
            var next := sorted[Following(i, |sorted|)];
            Wait(next, second) <= Gap(sorted[i], next) * HOUR
  {
    var i := LastRun(sorted, second);
    assert sorted[0] <= sorted[i];
  }

  /** No wait exceeds the longest gap. */
  lemma NextRunWithinMaxGap(hours: seq<Hour>, second: Second)
    requires hours != []
    ensures MsUntilNextRun(hours, second) <= MaxGapMs(hours)
  {
    var sorted, waits := Sorted(hours), Waits(hours, second);
    WaitWithinGap(sorted, second);
    var i := LastRun(sorted, second);
    var next := sorted[Following(i, |sorted|)];
    assert next in sorted;
    var j :| 0 <= j < |hours| && hours[j] == next;
    assert Smallest(waits) <= waits[j];
    assert Gaps(sorted)[i] <= Largest(Gaps(sorted));
  }

  ghost predicate Attained(hours: seq<Hour>)
    requires hours != []
  {
    exists second: Second :: MsUntilNextRun(hours, second) == MaxGapMs(hours)
  }

  /** From the run that precedes a gap, every listed hour is at least the gap away. */
  lemma WaitAcrossGap(sorted: seq<Hour>, i: nat, j: nat)
    requires Ascending(sorted) && Distinct(sorted) && i < |sorted| && j < |sorted|
    ensures Wait(sorted[j], sorted[i] * HOUR) >= Gap(sorted[i], sorted[Following(i, |sorted|)]) * HOUR
  {
    assert j < i ==> sorted[j] < sorted[i];
    assert i < j ==> sorted[i + 1] <= sorted[j];
    assert i < j ==> sorted[i] < sorted[i + 1];
    assert 0 < j ==> sorted[0] < sorted[j];
  }

  lemma DistinctAttains(hours: seq<Hour>)
    requires hours != [] && Distinct(hours)
    ensures Attained(hours)
  {
    SortedDistinct(hours);
    var sorted := Sorted(hours);
    var gaps := Gaps(sorted);
    var i :| 0 <= i < |gaps| && gaps[i] == Largest(gaps);
    var second: Second := sorted[i] * HOUR;
    var waits := Waits(hours, second);
    forall k | 0 <= k < |hours| ensures gaps[i] * HOUR <= waits[k] {
      assert hours[k] in sorted;
      var j :| 0 <= j < |sorted| && sorted[j] == hours[k];
      WaitAcrossGap(sorted, i, j);
    }
    assert gaps[i] * HOUR <= Smallest(waits);
    NextRunWithinMaxGap(hours, second);
    assert MsUntilNextRun(hours, second) == MaxGapMs(hours);
  }

  lemma RepeatedHourIsAWholeDay(hours: seq<Hour>)
    requires hours != [] && !Distinct(hours)
    ensures MaxGapMs(hours) == 24 * HOUR_MS
  {
    SortedDistinct(hours);
    var sorted := Sorted(hours);
    var gaps := Gaps(sorted);
    var i, j :| 0 <= i < j < |sorted| && sorted[i] == sorted[j];
    assert sorted[i] <= sorted[i + 1] <= sorted[j];
    assert gaps[i] == 24 <= Largest(gaps);
    assert forall k :: 0 <= k < |gaps| ==> gaps[k] <= 24;
  }

  lemma AllEqualAttains(hours: seq<Hour>)
    requires hours != [] && !Distinct(hours) && AllEqual(hours)
    ensures Attained(hours)
  {
    RepeatedHourIsAWholeDay(hours);
    var second: Second := hours[0] * HOUR;
    var waits := Waits(hours, second);
    forall k | 0 <= k < |hours| ensures waits[k] == DAY {
      assert hours[k] == hours[0];
    }
    assert Smallest(waits) == DAY;
    assert MsUntilNextRun(hours, second) == MaxGapMs(hours);
  }

  lemma TwoHoursCutTheDay(hours: seq<Hour>, a: nat, b: nat, second: Second)
    requires a < |hours| && b < |hours| && hours[a] != hours[b]
    ensures MsUntilNextRun(hours, second) < DAY * 1000
  {
    var waits := Waits(hours, second);
    assert waits[a] < DAY || waits[b] < DAY;
  }

  /** The longest gap is an actual wait exactly when the hours are distinct or all the same. */
  lemma MaxGapAttainedExactly(hours: seq<Hour>)
    requires hours != []
    ensures Attained(hours) <==> Distinct(hours) || AllEqual(hours)
  {
    if Distinct(hours) {
      DistinctAttains(hours);
    } else if AllEqual(hours) {
      AllEqualAttains(hours);
    } else {
      RepeatedHourIsAWholeDay(hours);
      var a, b :| 0 <= a < b < |hours| && hours[a] != hours[b];
      forall second: Second ensures MsUntilNextRun(hours, second) != MaxGapMs(hours) {
        TwoHoursCutTheDay(hours, a, b, second);
      }
    }
  }
}
