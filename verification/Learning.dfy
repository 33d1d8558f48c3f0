/**
 * Level promotion: one user's progress in one package. Completed games are fields of a Redis hash;
 * a completion that removes a whole level's fields promotes that level's due words.
 */
module Learning {
  import opened Prelude
  import opened SpacedRepetition

  datatype Game = FlashMatch | VocabQuiz | TestPronun | WordScramble | PhraseCompletion | SpeedVocab | WordSearch

  function GameLevel(g: Game): (level: Level)
    ensures level != V
  {
    match g
    case FlashMatch => X
    case VocabQuiz => X
    case TestPronun => X
    case WordScramble => Level0
    case PhraseCompletion => Level0
    case SpeedVocab => Level1
    case WordSearch => Level2
  }

  /** Games required to promote a level. */
  function LevelGames(level: Level): set<Game> {
    match level
    case X => {FlashMatch, VocabQuiz, TestPronun}
    case Level0 => {WordScramble, PhraseCompletion}
    case Level1 => {SpeedVocab}
    case Level2 => {WordSearch}
    case V => {}
  }

  type DetailId = nat

  /**
   * A learning row. `added`, `start` and `climbs` are its history: when and where it began, and the
   * moments of its promotions.
   */
  datatype Row = Row(level: Level, memorized: Moment, added: Moment, start: Level, climbs: seq<Moment>)

  function Promoted(row: Row, at: Moment): Row
    requires row.level != V
  {
    row.(level := NextLevel(row.level), memorized := at, climbs := row.climbs + [at])
  }

  function DueIds(rows: map<DetailId, Row>, level: Level, now: Moment): set<DetailId> {
    set d | d in rows && rows[d].level == level && IsDue(level, Some(rows[d].memorized), StartOfDay(now))
  }

  /** `updateMany` on the ids read earlier: only rows still at the level move. */
  function BatchUpdate(rows: map<DetailId, Row>, ids: set<DetailId>, level: Level, at: Moment): map<DetailId, Row>
    requires level != V
  {
    map d | d in rows :: if d in ids && rows[d].level == level then Promoted(rows[d], at) else rows[d]
  }

  // ----- One request, with Redis up or down at each of its commands

  datatype Answer =
    | NotCompleted
    | NothingDue
    | LevelCompleted(updated: nat)
    | Missing(games: set<Game>)

  /** An answered command was executed; one without an answer may have been, too. */
  datatype Command = Answered | Unanswered(executed: bool) {
    predicate Executed() {
      Answered? || executed
    }
  }

  /** How Redis meets the store, the read and the removal of one request. */
  datatype Redis = Redis(store: Command, readUp: bool, removal: Command)

  datatype Tracked = Tracked(fields: set<Game>, rows: map<DetailId, Row>, answer: Answer)

  /** What a completed game leads to when no other request interferes. */
  function Track(fields: set<Game>, rows: map<DetailId, Row>, game: Game, redis: Redis, now: Moment): Tracked {
    var level, required := GameLevel(game), LevelGames(GameLevel(game));
    var stored := if redis.store.Executed() then fields + {game} else fields;
    var read := if redis.readUp then stored else {};
    var seen := if redis.store.Answered? || !redis.readUp then read + {game} else read;
    var due := DueIds(rows, level, now);
    if !(required <= seen) then Tracked(stored, rows, Missing(required - seen))
    else if due == {} then Tracked(stored, rows, NothingDue)
    else
      var left := if redis.removal.Executed() then stored - required else stored;
      if redis.removal.Answered? && !(required <= stored) then Tracked(left, rows, LevelCompleted(0))
      else Tracked(left, BatchUpdate(rows, due, level, now), LevelCompleted(|due|))
  }

  /** With Redis up, a request promotes exactly when it completes the set and a word is due, and clears the set. */
  lemma PromotesWithRedis(fields: set<Game>, rows: map<DetailId, Row>, game: Game, now: Moment)
    ensures var level := GameLevel(game);
            var t := Track(fields, rows, game, Redis(Answered, true, Answered), now);
            && (t.answer.LevelCompleted? && t.answer.updated > 0 <==>
                  LevelGames(level) <= fields + {game} && DueIds(rows, level, now) != {})
            && (t.answer.LevelCompleted? ==> t.fields == fields + {game} - LevelGames(level))
            && (!t.answer.LevelCompleted? ==> t.fields == fields + {game} && t.rows == rows)
  {
    var due := DueIds(rows, GameLevel(game), now);
    assert fields + {game} + {game} == fields + {game};
    assert due != {} ==> exists d :: d in due;
  }

  /** With Redis down throughout, only a level of a single game can be promoted, and nothing is kept. */
  lemma PromotesWithoutRedis(fields: set<Game>, rows: map<DetailId, Row>, game: Game, now: Moment)
    ensures var level := GameLevel(game);
            var t := Track(fields, rows, game, Redis(Unanswered(false), false, Unanswered(false)), now);
            && t.fields == fields
            && (t.answer.LevelCompleted? <==>
                  (level == Level1 || level == Level2) && DueIds(rows, level, now) != {})
  {
    assert {} + {game} == {game};
    match game
    case FlashMatch => assert VocabQuiz in LevelGames(X);
    case VocabQuiz => assert FlashMatch in LevelGames(X);
    case TestPronun => assert FlashMatch in LevelGames(X);
    case WordScramble => assert PhraseCompletion in LevelGames(Level0);
    case PhraseCompletion => assert WordScramble in LevelGames(Level0);
    case SpeedVocab =>
    case WordSearch =>
  }

  /** The word is due at the level today. */
  predicate DueAt(row: Row, level: Level, now: Moment) {
    row.level == level && IsDue(level, Some(row.memorized), StartOfDay(now))
  }

  /** The row climbed to the next level at `at`, and its history before that stands. */
  predicate Climbed(row: Row, after: Row, at: Moment) {
    && Rank(after.level) == Rank(row.level) + 1 && after.memorized == at && after.climbs == row.climbs + [at]
    && after.added == row.added && after.start == row.start
  }

  /** Exactly the rows that satisfy `climbs` climb at `at`; all others stay as they are. */
  ghost predicate ExactlyClimb(rows: map<DetailId, Row>, after: map<DetailId, Row>, climbs: Row -> bool, at: Moment) {
    && after.Keys == rows.Keys
    && forall d :: d in rows ==> if climbs(rows[d]) then Climbed(rows[d], after[d], at) else after[d] == rows[d]
  }

  /**
   * What a completed level does, however Redis answered: told of `n` promoted words, exactly the `n`
   * words due at the level climb; told of none, or of anything else, no row changes.
   */
  lemma LevelCompletedPromotes(fields: set<Game>, rows: map<DetailId, Row>, game: Game, redis: Redis, now: Moment)
    ensures var level := GameLevel(game);
            var t := Track(fields, rows, game, redis, now);
            if t.answer.LevelCompleted? && t.answer.updated > 0 then
              && t.answer.updated == |set d | d in rows && DueAt(rows[d], level, now)|
              && ExactlyClimb(rows, t.rows, row => DueAt(row, level, now), now)
            else t.rows == rows
  {
    var level := GameLevel(game);
    TracksDue(fields, rows, game, redis, now);
    DuePromoted(rows, level, now);
    assert DueIds(rows, level, now) == set d | d in rows && DueAt(rows[d], level, now);
  }

  lemma TracksDue(fields: set<Game>, rows: map<DetailId, Row>, game: Game, redis: Redis, now: Moment)
    ensures var level := GameLevel(game);
            var due, t := DueIds(rows, level, now), Track(fields, rows, game, redis, now);
            if t.answer.LevelCompleted? && t.answer.updated > 0 then
              t.answer.updated == |due| && t.rows == BatchUpdate(rows, due, level, now)
            else t.rows == rows
  {
    var due := DueIds(rows, GameLevel(game), now);
    assert due != {} ==> |due| > 0;
  }

  lemma DuePromoted(rows: map<DetailId, Row>, level: Level, now: Moment)
    requires level != V
    ensures ExactlyClimb(rows, BatchUpdate(rows, DueIds(rows, level, now), level, now),
                         row => DueAt(row, level, now), now)
  {
  }

  class LearningService {
    var fields: set<Game>
    var rows: map<DetailId, Row>

    constructor ()
      ensures fields == {} && rows == map[]
    {
      fields, rows := {}, map[];
    }

    method TrackGameCompletion(game: Game, completed: bool, redis: Redis, now: Moment) returns (answer: Answer)
      modifies this
      ensures Tracked(fields, rows, answer)
           == if completed then Track(old(fields), old(rows), game, redis, now)
              else Tracked(old(fields), old(rows), NotCompleted)
    {
      if !completed { return NotCompleted; }
      var level := GameLevel(game);
      if redis.store.Executed() { fields := fields + {game}; }
      var progress := if redis.readUp then fields else {};
      if redis.store.Answered? || !redis.readUp { progress := progress + {game}; }
      var required := LevelGames(level);
      if !(required <= progress) { return Missing(required - progress); }
      var due := DueIds(rows, level, now);
      if due == {} { return NothingDue; }
      var promotes := true;
      if redis.removal.Executed() {
        var all := RemoveFields(required);
        promotes := redis.removal.Unanswered? || all;
      }
      if !promotes { return LevelCompleted(0); }
      rows := BatchUpdate(rows, due, level, now);
      return LevelCompleted(|due|);
    }

    /** `HDEL`: whether it removed as many fields as it was given. */
    method RemoveFields(required: set<Game>) returns (all: bool)
      modifies this`fields
      ensures fields == old(fields) - required && (all <==> required <= old(fields))
    {
      var removed := |fields * required|;
      RemovedAll(fields, required);
      fields := fields - required;
      all := removed == |required|;
    }
  }

  lemma RemovedAll(fields: set<Game>, required: set<Game>)
    ensures |fields * required| == |required| <==> required <= fields
  {
    if required <= fields {
      assert fields * required == required;
    } else {
      var g :| g in required && g !in fields;
      SubsetSize(fields * required, required);
    }
  }

  // ----- Interleaved requests, any of their Redis commands failing

  datatype Request =
    | Storing(game: Game)
    | Reading(game: Game, stored: bool)
    | FindingDue(level: Level)
    | Removing(level: Level, ids: set<DetailId>, readAt: Moment)
    | Updating(level: Level, ids: set<DetailId>, readAt: Moment, stamp: Moment)
    | Done

  /** What Redis executed, in order. `TakeUnanswered` marks a removal whose answer never came, executed or not. */
  datatype Event = Store(game: Game) | Take(level: Level, whole: bool) | TakeUnanswered(level: Level)

  datatype State = State(now: Moment, fields: set<Game>, rows: map<DetailId, Row>, used: set<DetailId>,
                         requests: map<nat, Request>, log: seq<Event>)

  datatype Action =
    | Tick(time: Moment)
    | Start(id: nat, game: Game)
    | StoreField(id: nat, store: Command)
    | ReadHash(id: nat, up: bool)
    | FindDue(id: nat)
    | RemoveFields(id: nat)
    | RemoveUnanswered(id: nat, executed: bool)
    | Update(id: nat)
    | Reset(level: Level)
    | HashExpires
    | AddRow(detail: DetailId, level: Level)
    | RemoveRow(detail: DetailId)
    | MoveRow(detail: DetailId, to: DetailId)  // an edit gave the package its own copy of the detail

  const INITIAL := State(0, {}, map[], {}, map[], [])

  predicate Enabled(s: State, a: Action) {
    match a
    case Tick(time) => s.now <= time
    case Start(id, _) => id !in s.requests
    case StoreField(id, _) => id in s.requests && s.requests[id].Storing?
    case ReadHash(id, _) => id in s.requests && s.requests[id].Reading?
    case FindDue(id) => id in s.requests && s.requests[id].FindingDue?
    case RemoveFields(id) => id in s.requests && s.requests[id].Removing?
    case RemoveUnanswered(id, _) => id in s.requests && s.requests[id].Removing?
    case Update(id) => id in s.requests && s.requests[id].Updating? && s.requests[id].level != V
    case Reset(level) => level != V
    case HashExpires => true
    case AddRow(d, _) => d !in s.used
    case RemoveRow(d) => d in s.rows
    case MoveRow(d, to) => d in s.rows && to !in s.used
  }

  function Goto(s: State, id: nat, r: Request): State {
    s.(requests := s.requests[id := r])
  }

  function Apply(s: State, a: Action): State
    requires Enabled(s, a)
  {
    match a
    case Tick(time) => s.(now := time)
    case Start(id, game) => Goto(s, id, Storing(game))
    case StoreField(id, store) =>
      var game := s.requests[id].game;
      var t := Goto(s, id, Reading(game, store.Answered?));
      if store.Executed() then t.(fields := s.fields + {game}, log := s.log + [Store(game)]) else t
    case ReadHash(id, up) =>
      var Reading(game, stored) := s.requests[id];
      var level := GameLevel(game);
      var read := if up then s.fields else {};
      var seen := if stored || !up then read + {game} else read;
      Goto(s, id, if LevelGames(level) <= seen then FindingDue(level) else Done)
    case FindDue(id) =>
      var level := s.requests[id].level;
      var ids := DueIds(s.rows, level, s.now);
      Goto(s, id, if ids == {} then Done else Removing(level, ids, s.now))
    case RemoveFields(id) =>
      var r := s.requests[id];
      var whole := LevelGames(r.level) <= s.fields;
      Goto(s, id, if whole then Updating(r.level, r.ids, r.readAt, s.now) else Done)
        .(fields := s.fields - LevelGames(r.level), log := s.log + [Take(r.level, whole)])
    case RemoveUnanswered(id, executed) =>
      // Nothing to race on without an answer: the request promotes
      var r := s.requests[id];
      Goto(s, id, Updating(r.level, r.ids, r.readAt, s.now))
        .(fields := if executed then s.fields - LevelGames(r.level) else s.fields,
          log := s.log + [TakeUnanswered(r.level)])
    case Update(id) =>
      var r := s.requests[id];
      Goto(s, id, Done).(rows := BatchUpdate(s.rows, r.ids, r.level, r.stamp))
    case Reset(level) => s.(fields := s.fields - LevelGames(level))
    case HashExpires => s.(fields := {})
    case AddRow(d, level) =>
      s.(rows := s.rows[d := Row(level, s.now, s.now, level, [])], used := s.used + {d})
    case RemoveRow(d) => s.(rows := s.rows - {d})
    case MoveRow(d, to) => s.(rows := (s.rows - {d})[to := s.rows[d]], used := s.used + {to})
  }

  ghost predicate Runs(s: State, actions: seq<Action>, end: State)
    decreases |actions|
  {
    if actions == [] then end == s
    else Enabled(s, actions[0]) && Runs(Apply(s, actions[0]), actions[1..], end)
  }

  ghost predicate Reachable(s: State) {
    exists actions :: Runs(INITIAL, actions, s)
  }

  // ----- One request by itself is a run

  ghost predicate Leads(s: State, t: State) {
    exists actions :: Runs(s, actions, t)
  }

  lemma {:induction false} RunThen(s: State, actions: seq<Action>, t: State, a: Action)
    requires Runs(s, actions, t) && Enabled(t, a)
    ensures Runs(s, actions + [a], Apply(t, a))
    decreases |actions|
  {
    var all := actions + [a];
    if actions == [] {
      assert all[1..] == [] && Runs(Apply(s, all[0]), all[1..], Apply(t, a));
    } else {
      RunThen(Apply(s, actions[0]), actions[1..], t, a);
      assert all[0] == actions[0] && all[1..] == actions[1..] + [a];
    }
  }

  lemma Then(s: State, t: State, a: Action) returns (u: State)
    requires Leads(s, t) && Enabled(t, a)
    ensures u == Apply(t, a) && Leads(s, u)
  {
    var actions :| Runs(s, actions, t);
    RunThen(s, actions, t, a);
    u := Apply(t, a);
  }

  /**
   * A request nobody interferes with, however Redis answers its commands, is a run of the requests
   * below: it leaves the hash and the rows that `Track` says, hence those of `TrackGameCompletion`.
   */
  lemma TrackIsARun(s: State, id: nat, game: Game, redis: Redis) returns (t: State)
    requires id !in s.requests
    ensures Leads(s, t) && t.now == s.now && id in t.requests && t.requests[id] == Done
    ensures var tracked := Track(s.fields, s.rows, game, redis, s.now);
            t.fields == tracked.fields && t.rows == tracked.rows
  {
    t := StoreAndRead(s, id, game, redis);
    if t.requests[id].FindingDue? {
      t := Then(s, t, FindDue(id));
      if t.requests[id].Removing? { t := RemoveAndUpdate(s, t, id, redis.removal); }
    }
  }

  lemma StoreAndRead(s: State, id: nat, game: Game, redis: Redis) returns (t: State)
    requires id !in s.requests
    ensures Leads(s, t)
    ensures var level := GameLevel(game);
            var stored := if redis.store.Executed() then s.fields + {game} else s.fields;
            var read := if redis.readUp then stored else {};
            var seen := if redis.store.Answered? || !redis.readUp then read + {game} else read;
            && t.now == s.now && t.fields == stored && t.rows == s.rows && id in t.requests
            && t.requests[id] == if LevelGames(level) <= seen then FindingDue(level) else Done
  {
    assert Runs(s, [], s);
    t := Then(s, s, Start(id, game));
    t := Then(s, t, StoreField(id, redis.store));
    t := Then(s, t, ReadHash(id, redis.readUp));
  }

  lemma RemoveAndUpdate(s: State, t: State, id: nat, removal: Command) returns (u: State)
    requires Leads(s, t) && id in t.requests && t.requests[id].Removing? && t.requests[id].level != V
    ensures Leads(s, u) && u.now == t.now && id in u.requests && u.requests[id] == Done
    ensures var r := t.requests[id];
            var whole := LevelGames(r.level) <= t.fields;
            && u.fields == (if removal.Executed() then t.fields - LevelGames(r.level) else t.fields)
            && u.rows == if removal.Answered? && !whole then t.rows else BatchUpdate(t.rows, r.ids, r.level, t.now)
  {
    u := Then(s, t, if removal.Answered? then RemoveFields(id) else RemoveUnanswered(id, removal.executed));
    if u.requests[id].Updating? { u := Then(s, u, Update(id)); }
  }

  /** The rows of the ids read earlier that are still at the level climb, and no others. */
  lemma UpdatePromotes(s: State, id: nat)
    requires Enabled(s, Update(id))
    ensures var r, t := s.requests[id], Apply(s, Update(id));
            && t.rows.Keys == s.rows.Keys
            && forall d :: d in s.rows ==>
                 if d in r.ids && s.rows[d].level == r.level then Climbed(s.rows[d], t.rows[d], r.stamp)
                 else t.rows[d] == s.rows[d]
  {
  }

  // ----- Every word can be memorized

  lemma Across(s: State, t: State, u: State)
    requires Leads(s, t) && Leads(t, u)
    ensures Leads(s, u)
  {
    var actions :| Runs(s, actions, t);
    var more :| Runs(t, more, u);
    RunsAcross(s, actions, t, more, u);
  }

  lemma {:induction false} RunsAcross(s: State, actions: seq<Action>, t: State, more: seq<Action>, u: State)
    requires Runs(s, actions, t) && Runs(t, more, u)
    ensures Runs(s, actions + more, u)
    decreases |actions|
  {
    if actions == [] {
      assert actions + more == more;
    } else {
      RunsAcross(Apply(s, actions[0]), actions[1..], t, more, u);
      assert (actions + more)[0] == actions[0] && (actions + more)[1..] == actions[1..] + more;
    }
  }

  const UP := Redis(Answered, true, Answered)

  /** A game completed by a new request nobody interferes with, Redis up. */
  lemma Plays(s: State, game: Game) returns (t: State)
    ensures Leads(s, t) && t.now == s.now
    ensures var tracked := Track(s.fields, s.rows, game, UP, s.now);
            t.fields == tracked.fields && t.rows == tracked.rows
  {
    var id := IdsBounded(s.requests.Keys);
    assert id !in s.requests.Keys;
    t := TrackIsARun(s, id, game, UP);
  }

  /** The game that comes last of a level, and the ones before it. */
  function LastGame(level: Level): Game
    requires level != V
  {
    match level
    case X => TestPronun
    case Level0 => PhraseCompletion
    case Level1 => SpeedVocab
    case Level2 => WordSearch
  }

  /** Every game of the level but the last one has been played, and the word is as it was or has climbed. */
  lemma PlaysFirstGames(s: State, d: DetailId, level: Level) returns (t: State)
    requires level != V && d in s.rows && DueAt(s.rows[d], level, s.now)
    ensures Leads(s, t) && t.now == s.now && d in t.rows
    ensures (t.rows[d] == s.rows[d] && LevelGames(level) <= t.fields + {LastGame(level)})
         || Climbed(s.rows[d], t.rows[d], s.now)
  {
    t := s;
    assert Runs(s, [], s);
    if level == X {
      t := PlaysOne(s, s, d, FlashMatch);
      if t.rows[d] == s.rows[d] { t := PlaysOne(s, t, d, VocabQuiz); }
    } else if level == Level0 {
      t := PlaysOne(s, s, d, WordScramble);
    }
  }

  /** One more game of the word's level: either the word climbs, or the game is in the hash beside the others. */
  lemma PlaysOne(s: State, t: State, d: DetailId, game: Game) returns (u: State)
    requires Leads(s, t) && t.now == s.now && d in s.rows && d in t.rows && t.rows[d] == s.rows[d]
    requires DueAt(s.rows[d], GameLevel(game), s.now)
    ensures Leads(s, u) && u.now == s.now && d in u.rows
    ensures (u.rows[d] == s.rows[d] && u.fields == t.fields + {game}) || Climbed(s.rows[d], u.rows[d], s.now)
    ensures LevelGames(GameLevel(game)) <= t.fields + {game} ==> Climbed(s.rows[d], u.rows[d], s.now)
  {
    u := Plays(t, game);
    Across(s, t, u);
    PromotesWithRedis(t.fields, t.rows, game, t.now);
    LevelCompletedPromotes(t.fields, t.rows, game, UP, t.now);
    assert d in DueIds(t.rows, GameLevel(game), t.now);
  }

  /** From any state, some run takes a given word one level up. */
  lemma WordCanClimb(s: State, d: DetailId) returns (t: State)
    requires d in s.rows && s.rows[d].level != V
    ensures Leads(s, t) && d in t.rows && Rank(t.rows[d].level) == Rank(s.rows[d].level) + 1
    ensures t.rows[d].start == s.rows[d].start
  {
    var row := s.rows[d];
    var later := Max(s.now, row.memorized + (Interval(row.level) + 1) * DAY);
    assert Runs(s, [], s);
    var due := Then(s, s, Tick(later));
    ComesDue(row.memorized, row.level, later);
    var ready := PlaysFirstGames(due, d, row.level);
    t := ready;
    if ready.rows[d] == row { t := PlaysOne(due, ready, d, LastGame(row.level)); }
    Across(s, due, t);
  }

  lemma ComesDue(memorized: Moment, level: Level, now: Moment)
    requires now >= memorized + (Interval(level) + 1) * DAY
    ensures IsDue(level, Some(memorized), StartOfDay(now))
  {
    DueByCalendar(level, memorized, now);
    DaysOrdered(memorized + Interval(level) * DAY, now);
  }

  /** From any state, some run memorizes a given word. */
  lemma {:induction false} WordCanBeMemorized(s: State, d: DetailId) returns (t: State)
    requires d in s.rows
    ensures Leads(s, t) && d in t.rows && t.rows[d].level == V && t.rows[d].start == s.rows[d].start
    decreases |LEVELS| - Rank(s.rows[d].level)
  {
    t := s;
    assert Runs(s, [], s);
    if s.rows[d].level != V {
      var higher := WordCanClimb(s, d);
      t := WordCanBeMemorized(higher, d);
      Across(s, higher, t);
    }
  }

  /** Some word does go all the way from `x` to `v`. */
  lemma SomeWordIsMemorized() returns (t: State)
    ensures Reachable(t) && 0 in t.rows && t.rows[0].start == X && t.rows[0].level == V
  {
    assert Runs(INITIAL, [], INITIAL);
    var added := Then(INITIAL, INITIAL, AddRow(0, X));
    t := WordCanBeMemorized(added, 0);
    Across(INITIAL, added, t);
  }

  // ----- Promotions are paid for in games

  predicate PromotesAt(log: seq<Event>, level: Level, i: int) {
    0 <= i < |log| && log[i] == Take(level, true)
  }

  ghost predicate StoredBetween(log: seq<Event>, g: Game, h: int, i: int) {
    exists k :: h < k < i && 0 <= k < |log| && log[k] == Store(g)
  }

  ghost predicate StoredAfter(log: seq<Event>, g: Game, i: int) {
    StoredBetween(log, g, i, |log|)
  }

  /** A field in the hash was stored, and stored again since every promotion of its level. */
  ghost predicate FieldPaid(s: State, g: Game) {
    g in s.fields ==>
      StoredAfter(s.log, g, -1) && forall i :: PromotesAt(s.log, GameLevel(g), i) ==> StoredAfter(s.log, g, i)
  }

  ghost predicate TakePaid(log: seq<Event>, i: int, g: Game) {
    PromotesAt(log, GameLevel(g), i) && g in LevelGames(GameLevel(g)) ==>
      && StoredBetween(log, g, -1, i)
      && forall h :: h < i && PromotesAt(log, GameLevel(g), h) ==> StoredBetween(log, g, h, i)
  }

  ghost predicate Paid(s: State) {
    && (forall g :: FieldPaid(s, g))
    && (forall i, g :: TakePaid(s.log, i, g))
  }

  lemma LogGrows(log: seq<Event>, e: Event, g: Game, h: int, i: int, j: int)
    requires StoredBetween(log, g, h, i) && i <= j
    ensures StoredBetween(log + [e], g, h, j)
  {
    var k :| h < k < i && 0 <= k < |log| && log[k] == Store(g);
    assert (log + [e])[k] == Store(g);
  }

  lemma OldTakesPaid(log: seq<Event>, e: Event, i: int, g: Game)
    requires TakePaid(log, i, g) && i < |log|
    ensures TakePaid(log + [e], i, g)
  {
    if PromotesAt(log + [e], GameLevel(g), i) && g in LevelGames(GameLevel(g)) {
      assert PromotesAt(log, GameLevel(g), i);
      LogGrows(log, e, g, -1, i, i);
      forall h | h < i && PromotesAt(log + [e], GameLevel(g), h) ensures StoredBetween(log + [e], g, h, i) {
        assert PromotesAt(log, GameLevel(g), h);
        LogGrows(log, e, g, h, i, i);
      }
    }
  }

  lemma GamesOfTheirLevel(g: Game, level: Level)
    ensures g in LevelGames(level) <==> GameLevel(g) == level
  {
  }

  lemma LogStepPaid(s: State, e: Event, fields: set<Game>)
    requires Paid(s)
    requires e.Store? ==> fields == s.fields + {e.game}
    requires e.Take? ==> fields == s.fields - LevelGames(e.level) && (e.whole ==> LevelGames(e.level) <= s.fields)
    requires e.TakeUnanswered? ==> fields <= s.fields
    ensures Paid(s.(fields := fields, log := s.log + [e]))
  {
    var t := s.(fields := fields, log := s.log + [e]);
    var n := |s.log|;
    forall g ensures FieldPaid(t, g) {
      assert FieldPaid(s, g);
      if g in t.fields {
        if e == Store(g) {
          assert t.log[n] == Store(g);
        } else {
          LogGrows(s.log, e, g, -1, n, n + 1);
          forall i | PromotesAt(t.log, GameLevel(g), i) ensures StoredAfter(t.log, g, i) {
            if e.Take? { GamesOfTheirLevel(g, e.level); }
            assert PromotesAt(s.log, GameLevel(g), i);
            LogGrows(s.log, e, g, i, n, n + 1);
          }
        }
      }
    }
    forall i, g ensures TakePaid(t.log, i, g) {
      if i < n {
        assert TakePaid(s.log, i, g);
        OldTakesPaid(s.log, e, i, g);
      } else if PromotesAt(t.log, GameLevel(g), i) && g in LevelGames(GameLevel(g)) {
        assert i == n && FieldPaid(s, g);
        LogGrows(s.log, e, g, -1, n, n);
        forall h | h < i && PromotesAt(t.log, GameLevel(g), h) ensures StoredBetween(t.log, g, h, i) {
          assert PromotesAt(s.log, GameLevel(g), h);
          LogGrows(s.log, e, g, h, n, n);
        }
      }
    }
  }

  lemma StepPaid(s: State, a: Action)
    requires Paid(s) && Enabled(s, a)
    ensures Paid(Apply(s, a))
  {
    var t := Apply(s, a);
    if a.StoreField? && a.store.Executed() {
      LogStepPaid(s, Store(s.requests[a.id].game), t.fields);
      var u := s.(fields := t.fields, log := t.log);
      forall g ensures FieldPaid(t, g) { assert FieldPaid(u, g); }
    } else if a.RemoveFields? {
      LogStepPaid(s, Take(s.requests[a.id].level, LevelGames(s.requests[a.id].level) <= s.fields), t.fields);
      var u := s.(fields := t.fields, log := t.log);
      forall g ensures FieldPaid(t, g) { assert FieldPaid(u, g); }
    } else if a.RemoveUnanswered? {
      LogStepPaid(s, TakeUnanswered(s.requests[a.id].level), t.fields);
      var u := s.(fields := t.fields, log := t.log);
      forall g ensures FieldPaid(t, g) { assert FieldPaid(u, g); }
    } else {
      forall g ensures FieldPaid(t, g) { assert FieldPaid(s, g); }
    }
  }

  // ----- Promotions are spaced

  /** One level per climb, each at least the interval of the level it leaves after the one before. */
  predicate SpacedRow(row: Row) {
    && Rank(row.level) == Rank(row.start) + |row.climbs|
    && row.memorized == (if row.climbs == [] then row.added else row.climbs[|row.climbs| - 1])
    && forall k :: 0 <= k < |row.climbs| ==> SpacedClimb(row, k)
  }

  predicate SpacedClimb(row: Row, k: nat)
    requires k < |row.climbs| && Rank(row.start) + k < |LEVELS|
  {
    var before := if k == 0 then row.added else row.climbs[k - 1];
    DayOf(before) + Interval(LEVELS[Rank(row.start) + k]) <= DayOf(row.climbs[k])
  }

  predicate RowOk(s: State, d: DetailId) {
    d in s.rows ==> d in s.used && SpacedRow(s.rows[d])
  }

  /** A word read as due that is still at the level is due on the day it was read. */
  ghost predicate IdsOk(s: State, level: Level, ids: set<DetailId>, readAt: Moment) {
    forall d :: d in ids ==>
      d in s.used
      && (d in s.rows ==>
            && Rank(level) <= Rank(s.rows[d].level)
            && (s.rows[d].level == level ==> DayOf(s.rows[d].memorized) + Interval(level) <= DayOf(readAt)))
  }

  ghost predicate RequestOk(s: State, id: nat) {
    id in s.requests ==>
      match s.requests[id]
      case Removing(level, ids, readAt) => readAt <= s.now && IdsOk(s, level, ids, readAt)
      case Updating(level, ids, readAt, stamp) => readAt <= stamp <= s.now && IdsOk(s, level, ids, readAt)
      case _ => true
  }

  ghost predicate Spaced(s: State) {
    && (forall d :: RowOk(s, d))
    && (forall id :: RequestOk(s, id))
  }

  lemma DaysOrdered(a: Moment, b: Moment)
    requires a <= b
    ensures DayOf(a) <= DayOf(b)
  {
  }

  lemma PromotedSpaced(row: Row, at: Moment)
    requires SpacedRow(row) && row.level != V && DayOf(row.memorized) + Interval(row.level) <= DayOf(at)
    ensures SpacedRow(Promoted(row, at))
  {
    var after, n := Promoted(row, at), |row.climbs|;
    assert LEVELS[Rank(row.start) + n] == row.level;
    forall k | 0 <= k < n + 1 ensures SpacedClimb(after, k) {
      assert k > 0 ==> after.climbs[k - 1] == row.climbs[k - 1];
      assert k < n ==> SpacedClimb(row, k) && after.climbs[k] == row.climbs[k];
    }
  }

  lemma UpdatedRowOk(s: State, id: nat, d: DetailId)
    requires Spaced(s) && Enabled(s, Update(id)) && d in s.rows
    ensures RowOk(Apply(s, Update(id)), d)
  {
    var r, row := s.requests[id], s.rows[d];
    assert RowOk(s, d) && RequestOk(s, id);
    if d in r.ids && row.level == r.level {
      DaysOrdered(r.readAt, r.stamp);
      PromotedSpaced(row, r.stamp);
      assert Apply(s, Update(id)).rows[d] == Promoted(row, r.stamp);
    }
  }

  /** Rows only climb, and a row that stays at its level keeps its date. */
  ghost predicate Climbs(s: State, t: State) {
    && s.now <= t.now && s.used <= t.used
    && forall d :: d in t.rows && d in s.used ==>
         && d in s.rows && Rank(s.rows[d].level) <= Rank(t.rows[d].level)
         && (t.rows[d].level == s.rows[d].level ==> t.rows[d].memorized == s.rows[d].memorized)
  }

  lemma IdsClimb(s: State, t: State, level: Level, ids: set<DetailId>, readAt: Moment)
    requires Climbs(s, t) && IdsOk(s, level, ids, readAt)
    ensures IdsOk(t, level, ids, readAt)
  {
    forall d | d in ids && d in t.rows
      ensures Rank(level) <= Rank(t.rows[d].level)
      ensures t.rows[d].level == level ==> DayOf(t.rows[d].memorized) + Interval(level) <= DayOf(readAt)
    {
      assert d in s.used && d in s.rows;
    }
  }

  lemma RequestClimbs(s: State, t: State, id: nat)
    requires Climbs(s, t) && RequestOk(s, id)
    requires id in t.requests ==> id in s.requests && t.requests[id] == s.requests[id]
    ensures RequestOk(t, id)
  {
    if id in t.requests {
      match t.requests[id] {
        case Removing(level, ids, readAt) => IdsClimb(s, t, level, ids, readAt);
        case Updating(level, ids, readAt, _) => IdsClimb(s, t, level, ids, readAt);
        case _ =>
      }
    }
  }

  lemma StepClimbs(s: State, a: Action)
    requires Spaced(s) && Enabled(s, a)
    ensures Climbs(s, Apply(s, a))
  {
    var t := Apply(s, a);
    forall d | d in t.rows && d in s.used
      ensures && d in s.rows && Rank(s.rows[d].level) <= Rank(t.rows[d].level)
              && (t.rows[d].level == s.rows[d].level ==> t.rows[d].memorized == s.rows[d].memorized)
    {
      assert RowOk(s, d);
    }
  }

  lemma DueIdsOk(s: State, level: Level)
    requires Spaced(s)
    ensures IdsOk(s, level, DueIds(s.rows, level, s.now), s.now)
  {
    forall d | d in DueIds(s.rows, level, s.now)
      ensures d in s.used && DayOf(s.rows[d].memorized) + Interval(level) <= DayOf(s.now)
    {
      assert RowOk(s, d);
      DueByCalendar(level, s.rows[d].memorized, s.now);
    }
  }

  lemma StepSpaced(s: State, a: Action)
    requires Spaced(s) && Enabled(s, a)
    ensures Spaced(Apply(s, a))
  {
    var t := Apply(s, a);
    StepClimbs(s, a);
    forall d ensures RowOk(t, d) {
      assert RowOk(s, d);
      if a.Update? {
        if d in s.rows { UpdatedRowOk(s, a.id, d); }
      } else if a.MoveRow? {
        assert RowOk(s, a.detail);
      }
    }
    forall id ensures RequestOk(t, id) {
      assert RequestOk(s, id);
      if id in t.requests && (id !in s.requests || t.requests[id] != s.requests[id]) {
        if a.FindDue? { DueIdsOk(s, s.requests[id].level); }
        if a.RemoveFields? || a.RemoveUnanswered? {
          IdsClimb(s, t, s.requests[id].level, s.requests[id].ids, s.requests[id].readAt);
        }
      } else {
        RequestClimbs(s, t, id);
      }
    }
  }

  /** A request goes on to promote only by removing the whole set, or by a removal that was not answered. */
  lemma StartsUpdating(s: State, a: Action, id: nat)
    requires Enabled(s, a) && id in Apply(s, a).requests && Apply(s, a).requests[id].Updating?
    requires !(id in s.requests && s.requests[id].Updating?)
    ensures var level := Apply(s, a).requests[id].level;
            Apply(s, a).log == s.log + [Take(level, true)] || Apply(s, a).log == s.log + [TakeUnanswered(level)]
  {
  }

  // ----- What every run guarantees

  lemma {:induction false} RunKeeps(s: State, actions: seq<Action>, end: State)
    requires Paid(s) && Spaced(s) && Runs(s, actions, end)
    ensures Paid(end) && Spaced(end)
    decreases |actions|
  {
    if actions != [] {
      StepPaid(s, actions[0]);
      StepSpaced(s, actions[0]);
      RunKeeps(Apply(s, actions[0]), actions[1..], end);
    }
  }

  /**
   * Each promoting request consumed a complete set: between two promotions of a level, and before
   * the first, every required game was stored.
   */
  lemma PromotionsArePaid(s: State, level: Level, i: int, g: Game)
    requires Reachable(s) && PromotesAt(s.log, level, i) && g in LevelGames(level)
    ensures StoredBetween(s.log, g, -1, i)
    ensures forall h :: h < i && PromotesAt(s.log, level, h) ==> StoredBetween(s.log, g, h, i)
  {
    var actions :| Runs(INITIAL, actions, s);
    RunKeeps(INITIAL, actions, s);
    GamesOfTheirLevel(g, level);
    assert TakePaid(s.log, i, g);
    assert level == GameLevel(g) && PromotesAt(s.log, GameLevel(g), i);
  }

  /**
   * A word climbs one level per promotion, however requests race, and each climb comes at least the
   * interval of the level it leaves after the previous one, in calendar days.
   */
  lemma ClimbsAreSpaced(s: State, d: DetailId)
    requires Reachable(s) && d in s.rows
    ensures var row := s.rows[d];
            && Rank(row.level) == Rank(row.start) + |row.climbs|
            && forall k :: 0 <= k < |row.climbs| ==> SpacedClimb(row, k)
  {
    var actions :| Runs(INITIAL, actions, s);
    RunKeeps(INITIAL, actions, s);
    assert RowOk(s, d);
  }

  /** Level by level: 2 days at `0`, 4 at `1` and 10 at `2`, at least, before the next climb. */
  lemma DaysAtEachLevel(s: State, d: DetailId)
    requires Reachable(s) && d in s.rows && s.rows[d].start == X
    ensures var c := s.rows[d].climbs;
            && |c| <= 4 && |c| == Rank(s.rows[d].level)
            && (|c| > 0 ==> DayOf(s.rows[d].added) <= DayOf(c[0]))
            && (|c| > 1 ==> DayOf(c[0]) + 2 <= DayOf(c[1]))
            && (|c| > 2 ==> DayOf(c[1]) + 4 <= DayOf(c[2]))
            && (|c| > 3 ==> DayOf(c[2]) + 10 <= DayOf(c[3]))
  {
    ClimbsAreSpaced(s, d);
    var row := s.rows[d];
    assert |row.climbs| > 0 ==> SpacedClimb(row, 0);
    assert |row.climbs| > 1 ==> SpacedClimb(row, 1);
    assert |row.climbs| > 2 ==> SpacedClimb(row, 2);
    assert |row.climbs| > 3 ==> SpacedClimb(row, 3);
  }

  /** From the promotion out of `x` to the one into `v`: at least 2 + 4 + 10 = 16 calendar days. */
  lemma SixteenDaysToMemorized(s: State, d: DetailId)
    requires Reachable(s) && d in s.rows && s.rows[d].start == X && s.rows[d].level == V
    ensures |s.rows[d].climbs| == 4
    ensures DayOf(s.rows[d].climbs[0]) + 16 <= DayOf(s.rows[d].climbs[3])
  {
    ClimbsAreSpaced(s, d);
    var c := s.rows[d].climbs;
    var row := s.rows[d];
    assert SpacedClimb(row, 1) && SpacedClimb(row, 2) && SpacedClimb(row, 3);
  }
}
