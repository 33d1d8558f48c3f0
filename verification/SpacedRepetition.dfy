/**
 * Review levels, their intervals, and when a word is due. A moment is a number of seconds on the
 * local calendar; a day has 86400 of them.
 */
module SpacedRepetition {
  import opened Prelude

  type Moment = int

  const DAY := 86_400

  datatype Level = X | Level0 | Level1 | Level2 | V

  const LEVELS: seq<Level> := [X, Level0, Level1, Level2, V]

  function Interval(level: Level): nat {
    match level
    case X => 0
    case Level0 => 2
    case Level1 => 4
    case Level2 => 10
    case V => 20
  }

  /** Place of a level in `LEVELS`. */
  function Rank(level: Level): (r: nat)
    ensures r < |LEVELS| && LEVELS[r] == level
  {
    match level
    case X => 0
    case Level0 => 1
    case Level1 => 2
    case Level2 => 3
    case V => 4
  }

  /** Each level promotes to the next one in `LEVELS`; `V` is final. */
  function NextLevel(level: Level): (next: Level)
    requires level != V
    ensures Rank(next) == Rank(level) + 1
  {
    LEVELS[Rank(level) + 1]
  }

  function DayOf(m: Moment): int {
    m / DAY
  }

  function StartOfDay(m: Moment): Moment {
    DayOf(m) * DAY
  }

  function DaysCutoff(days: nat, today: Moment): Moment {
    today + (1 - days) * DAY
  }

  function DueCutoff(level: Level, today: Moment): Moment {
    DaysCutoff(Interval(level), today)
  }

  /** A missing date is never due. */
  predicate IsDue(level: Level, memorized: Option<Moment>, today: Moment) {
    memorized.Some? && memorized.value < DueCutoff(level, today)
  }

  /** One branch of the query: this level, memorized before this moment. */
  datatype Clause = Clause(level: Level, before: Moment)

  function DueWhereConditions(today: Moment): (clauses: seq<Clause>)
    ensures |clauses| == |LEVELS|
  {
    seq(|LEVELS|, i requires 0 <= i < |LEVELS| => Clause(LEVELS[i], DueCutoff(LEVELS[i], today)))
  }

  /** SQL: a comparison with NULL matches nothing. */
  predicate Matches(c: Clause, level: Level, memorized: Option<Moment>) {
    c.level == level && memorized.Some? && memorized.value < c.before
  }

  /** The due rule in calendar days: the day of the last review plus the interval has come. */
  lemma DueByCalendar(level: Level, memorized: Moment, now: Moment)
    ensures IsDue(level, Some(memorized), StartOfDay(now)) <==> DayOf(memorized) + Interval(level) <= DayOf(now)
  {
    var limit := DayOf(now) + 1 - Interval(level);
    assert DueCutoff(level, StartOfDay(now)) == limit * DAY;
  }

  /** Level by level: how many days after its last review a word comes due. */
  lemma DueAfterDays(memorized: Moment, now: Moment)
    ensures var days := DayOf(now) - DayOf(memorized);
            && (IsDue(X, Some(memorized), StartOfDay(now)) <==> days >= 0)
            && (IsDue(Level0, Some(memorized), StartOfDay(now)) <==> days >= 2)
            && (IsDue(Level1, Some(memorized), StartOfDay(now)) <==> days >= 4)
            && (IsDue(Level2, Some(memorized), StartOfDay(now)) <==> days >= 10)
            && (IsDue(V, Some(memorized), StartOfDay(now)) <==> days >= 20)
  {
    forall level ensures IsDue(level, Some(memorized), StartOfDay(now))
                    <==> DayOf(memorized) + Interval(level) <= DayOf(now)
    {
      DueByCalendar(level, memorized, now);
    }
  }

  /** The query selects exactly the rows the check accepts. */
  lemma QuerySelectsTheDue(level: Level, memorized: Option<Moment>, today: Moment)
    ensures (exists i :: 0 <= i < |LEVELS| && Matches(DueWhereConditions(today)[i], level, memorized))
       <==> IsDue(level, memorized, today)
  {
    if IsDue(level, memorized, today) {
      assert Matches(DueWhereConditions(today)[Rank(level)], level, memorized);
    }
  }
}
