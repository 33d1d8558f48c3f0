/**
 * The Redis fixed-window rate limiter with a block.
 *
 * `Hit` is the Lua script on one key; `RedisThrottler` runs it against the Redis keyspace. All
 * times are milliseconds, and a Redis key lives as long as `now <= expiry`.
 */
module Throttler {
  import opened Prelude

  datatype Config = Config(ttl: nat, limit: nat, blockDuration: int)

  datatype Window = Window(hits: nat, expiresAt: int)

  /** What Redis holds for one throttled key: the counter and the block marker. */
  datatype KeyState = KeyState(window: Option<Window>, blockedUntil: Option<int>)

  datatype Reply = Reply(hits: nat, timeToExpire: int, isBlocked: bool, timeToBlockExpire: int)

  const EMPTY := KeyState(None, None)

  predicate Live(s: KeyState, now: int) {
    s.window.Some? && now <= s.window.value.expiresAt
  }

  /** The script reads PTTL of the block key: a block with no millisecond left is over. */
  predicate Blocked(s: KeyState, now: int) {
    s.blockedUntil.Some? && now < s.blockedUntil.value
  }

  function Opened(cfg: Config, s: KeyState, now: int): Window {
    if Live(s, now) then Window(s.window.value.hits + 1, s.window.value.expiresAt)
    else Window(1, now + cfg.ttl)
  }

  function Hit(cfg: Config, s: KeyState, now: int): (KeyState, Reply) {
    if Blocked(s, now) then
      var left := s.blockedUntil.value - now;
      (s, Reply(cfg.limit + 1, left, true, left))
    else
      var w := Opened(cfg, s, now);
      var left := w.expiresAt - now;
      if w.hits <= cfg.limit then (KeyState(Some(w), None), Reply(w.hits, left, false, 0))
      else if cfg.blockDuration <= 0 then (KeyState(Some(w), None), Reply(w.hits, left, true, left))
      else
        (KeyState(None, Some(now + cfg.blockDuration)),
         Reply(w.hits, left, true, cfg.blockDuration))
  }

  /** The keyspace of every throttled key, and the script run on it. */
  class RedisThrottler {
    var windows: map<string, Window>
    var blocks: map<string, int>

    function KeyAt(key: string): KeyState
      reads this
    {
      KeyState(if key in windows then Some(windows[key]) else None,
               if key in blocks then Some(blocks[key]) else None)
    }

    constructor ()
      ensures forall key :: KeyAt(key) == EMPTY
    {
      windows, blocks := map[], map[];
    }

    method Increment(key: string, cfg: Config, now: int) returns (reply: Reply)
      modifies this
      ensures (KeyAt(key), reply) == Hit(cfg, old(KeyAt(key)), now)
      ensures forall other :: other != key ==> KeyAt(other) == old(KeyAt(other))
    {
      // PTTL of the block key; -2 stands for a missing or expired key
      var blockTtl := if key in blocks && now <= blocks[key] then blocks[key] - now else -2;
      if blockTtl > 0 {
        return Reply(cfg.limit + 1, blockTtl, true, blockTtl);
      }
      blocks := map k | k in blocks && k != key :: blocks[k];
      // INCR keeps the expiry of a live counter and starts a new one without expiry
      var hits, hitTtl := 1, -1;
      if key in windows && now <= windows[key].expiresAt {
        hits, hitTtl := windows[key].hits + 1, windows[key].expiresAt - now;
      }
      if hitTtl < 0 {
        hitTtl := cfg.ttl;
      }
      windows := windows[key := Window(hits, now + hitTtl)];
      if hits <= cfg.limit {
        return Reply(hits, hitTtl, false, 0);
      }
      if cfg.blockDuration <= 0 {
        return Reply(hits, hitTtl, true, hitTtl);
      }
      blocks := blocks[key := now + cfg.blockDuration];
      windows := map k | k in windows && k != key :: windows[k];
      return Reply(hits, hitTtl, true, cfg.blockDuration);
    }
  }

  // ----- Request sequences on one key

  ghost predicate Ordered(times: seq<int>) {
    forall i, j :: 0 <= i < j < |times| ==> times[i] <= times[j]
  }

  /** Requests of `times` let through inside the closed interval [from, to]. */
  function Allowed(cfg: Config, s: KeyState, times: seq<int>, from: int, until: int): nat
    decreases |times|
  {
    if times == [] then 0
    else
      var (next, reply) := Hit(cfg, s, times[0]);
      (if !reply.isBlocked && from <= times[0] <= until then 1 else 0)
      + Allowed(cfg, next, times[1..], from, until)
  }

  /** No interval as long as the window ever lets more than twice the limit through. */
  ghost predicate TwiceTheLimit(cfg: Config) {
    forall times, from, until :: Ordered(times) && until == from + cfg.ttl ==>
      Allowed(cfg, EMPTY, times, from, until) <= 2 * cfg.limit
  }

  /** The configurations under which the bound holds. */
  predicate KeepsBound(cfg: Config) {
    || cfg.blockDuration <= 0
    || cfg.blockDuration >= cfg.ttl
    || cfg.limit == 0
    || (cfg.limit == 1 && 2 * cfg.blockDuration > cfg.ttl)
  }

  // ----- Upper bound

  /** Shortest time between the starts of two windows. */
  function Spacing(cfg: Config): (d: int)
    ensures d >= 1
  {
    if cfg.blockDuration <= 0 then cfg.ttl + 1 else Min(cfg.ttl + 1, cfg.blockDuration)
  }

  /** Most requests let through up to `until` when no window starts before `start`. */
  function Fresh(cfg: Config, start: int, until: int): nat
    decreases until - start
  {
    if start > until then 0 else cfg.limit + Fresh(cfg, start + Spacing(cfg), until)
  }

  function NextStart(cfg: Config, w: Window, now: int): int {
    if cfg.blockDuration <= 0 then w.expiresAt + 1
    else Min(w.expiresAt + 1, now + cfg.blockDuration)
  }

  /** Most requests still let through up to `until`, whatever comes next. */
  function Budget(cfg: Config, s: KeyState, now: int, until: int): nat {
    if Blocked(s, now) then Fresh(cfg, s.blockedUntil.value, until)
    else if Live(s, now) then
      (if s.window.value.hits <= cfg.limit then cfg.limit - s.window.value.hits else 0)
      + Fresh(cfg, NextStart(cfg, s.window.value, now), until)
    else Fresh(cfg, now, until)
  }

  /** A state the script can leave behind at `now`: a block and a counter never coexist. */
  ghost predicate Reached(cfg: Config, s: KeyState, now: int) {
    && (s.blockedUntil.Some? ==> s.window.None?)
    && (s.window.Some? ==> s.window.value.hits >= 1 && s.window.value.expiresAt <= now + cfg.ttl)
  }

  lemma {:induction false} FreshMonotone(cfg: Config, early: int, late: int, until: int)
    requires early <= late
    ensures Fresh(cfg, late, until) <= Fresh(cfg, early, until)
    decreases until - early
  {
    if late <= until {
      FreshMonotone(cfg, early + Spacing(cfg), late + Spacing(cfg), until);
    }
  }

  lemma BudgetShrinks(cfg: Config, s: KeyState, now: int, later: int, until: int)
    requires Reached(cfg, s, now) && now <= later
    ensures Budget(cfg, s, later, until) <= Budget(cfg, s, now, until)
  {
    if Blocked(s, now) {
      if !Blocked(s, later) { FreshMonotone(cfg, s.blockedUntil.value, later, until); }
    } else if Live(s, now) {
      var w := s.window.value;
      FreshMonotone(cfg, NextStart(cfg, w, now), if Live(s, later) then NextStart(cfg, w, later) else later, until);
    } else {
      FreshMonotone(cfg, now, later, until);
    }
  }

  /** Every request let through is paid for out of the budget. */
  lemma HitPays(cfg: Config, s: KeyState, now: int, until: int)
    requires Reached(cfg, s, now) && now <= until
    ensures var (next, reply) := Hit(cfg, s, now);
            && Reached(cfg, next, now)
            && Budget(cfg, next, now, until) + (if reply.isBlocked then 0 else 1) <= Budget(cfg, s, now, until)
  {
    var (next, reply) := Hit(cfg, s, now);
    if !Blocked(s, now) {
      if Live(s, now) && cfg.blockDuration > 0 {
        FreshMonotone(cfg, NextStart(cfg, s.window.value, now), now + cfg.blockDuration, until);
      } else if !Live(s, now) {
        assert Fresh(cfg, now, until) == cfg.limit + Fresh(cfg, now + Spacing(cfg), until);
        var late := if next.window.Some? then NextStart(cfg, next.window.value, now) else now + cfg.blockDuration;
        FreshMonotone(cfg, now + Spacing(cfg), late, until);
      }
    }
  }

  lemma {:induction false} NoneAfter(cfg: Config, s: KeyState, times: seq<int>, from: int, until: int)
    requires Ordered(times) && (times == [] || until < times[0])
    ensures Allowed(cfg, s, times, from, until) == 0
    decreases |times|
  {
    if times != [] {
      NoneAfter(cfg, Hit(cfg, s, times[0]).0, times[1..], from, until);
    }
  }

  lemma {:induction false} AllowedWithinBudget(cfg: Config, s: KeyState, now: int, times: seq<int>, from: int,
                                               until: int)
    requires Reached(cfg, s, now) && Ordered(times)
    requires from <= now && (times == [] || now <= times[0])
    ensures Allowed(cfg, s, times, from, until) <= Budget(cfg, s, now, until)
    decreases |times|
  {
    if times != [] {
      var t := times[0];
      if until < t {
        NoneAfter(cfg, s, times, from, until);
      } else {
        BudgetShrinks(cfg, s, now, t, until);
        HitPays(cfg, s, t, until);
        AllowedWithinBudget(cfg, Hit(cfg, s, t).0, t, times[1..], from, until);
      }
    }
  }

  /** The budget at the start of an interval, for the configurations that keep the bound. */
  lemma BudgetAtMostTwice(cfg: Config, s: KeyState, last: int, from: int)
    requires cfg.ttl > 0 && KeepsBound(cfg)
    requires Reached(cfg, s, last) && last <= from
    ensures Budget(cfg, s, from, from + cfg.ttl) <= 2 * cfg.limit
  {
    var until := from + cfg.ttl;
    var d := Spacing(cfg);
    var start := if Blocked(s, from) then s.blockedUntil.value
                 else if Live(s, from) then NextStart(cfg, s.window.value, from) else from;
    if cfg.limit == 0 {
      NoLimitNothing(cfg, start, until);
    } else if Live(s, from) && !Blocked(s, from) {
      FreshMonotone(cfg, from + 1, start, until);
      assert Fresh(cfg, from + 1 + d, until) <= cfg.limit by {
        assert Fresh(cfg, from + 1 + d + d, until) == 0;
      }
      if cfg.limit > 1 {
        if cfg.blockDuration > 0 && start < until { assert start + d > until; }
        assert Fresh(cfg, start + d, until) == 0;
      }
    } else {
      FreshMonotone(cfg, from, start, until);
      assert Fresh(cfg, from + d + d, until) == 0;
    }
  }

  lemma {:induction false} NoLimitNothing(cfg: Config, start: int, until: int)
    requires cfg.limit == 0
    ensures Fresh(cfg, start, until) == 0
    decreases until - start
  {
    if start <= until { NoLimitNothing(cfg, start + Spacing(cfg), until); }
  }

  lemma {:induction false} AllowedAtMostTwice(cfg: Config, s: KeyState, last: int, times: seq<int>, from: int)
    requires cfg.ttl > 0 && KeepsBound(cfg)
    requires Reached(cfg, s, last) && last <= from
    requires Ordered(times) && (times == [] || last <= times[0])
    ensures Allowed(cfg, s, times, from, from + cfg.ttl) <= 2 * cfg.limit
    decreases |times|
  {
    if times != [] {
      var t := times[0];
      if t < from {
        HitPays(cfg, s, t, t);
        AllowedAtMostTwice(cfg, Hit(cfg, s, t).0, t, times[1..], from);
      } else {
        BudgetAtMostTwice(cfg, s, last, from);
        AllowedWithinBudget(cfg, s, from, times, from, from + cfg.ttl);
      }
    }
  }

  /** Everything is refused while the key is blocked. */
  lemma {:induction false} BlockRefusesAll(cfg: Config, s: KeyState, times: seq<int>, from: int, until: int)
    requires s.blockedUntil.Some? && forall i :: 0 <= i < |times| ==> times[i] < s.blockedUntil.value
    ensures Allowed(cfg, s, times, from, until) == 0
    decreases |times|
  {
    if times != [] {
      BlockRefusesAll(cfg, s, times[1..], from, until);
    }
  }

  /** A window lets its limit through, no more: what is left of it when no block can end before it does. */
  lemma WindowLetsLimitThrough(cfg: Config, w: Window, now: int, times: seq<int>)
    requires Reached(cfg, KeyState(Some(w), None), now) && now <= w.expiresAt
    requires Ordered(times) && (times == [] || now <= times[0])
    requires cfg.blockDuration <= 0 || w.expiresAt < now + cfg.blockDuration
    ensures Allowed(cfg, KeyState(Some(w), None), times, now, w.expiresAt)
         <= if w.hits <= cfg.limit then cfg.limit - w.hits else 0
  {
    AllowedWithinBudget(cfg, KeyState(Some(w), None), now, times, now, w.expiresAt);
  }

  // ----- What a reply promises

  /** The state after a series of requests. */
  function AfterAll(cfg: Config, s: KeyState, times: seq<int>): KeyState
    decreases |times|
  {
    if times == [] then s else AfterAll(cfg, Hit(cfg, s, times[0]).0, times[1..])
  }

  /** The first moment a refused client is let in again: a block ends at its last millisecond, a window after it. */
  function LetInAgain(cfg: Config, s: KeyState, now: int): int {
    var until := now + Hit(cfg, s, now).1.timeToBlockExpire;
    if !Blocked(s, now) && cfg.blockDuration <= 0 then until + 1 else until
  }

  ghost predicate AllWithin(times: seq<int>, from: int, before: int) {
    Ordered(times) && forall i :: 0 <= i < |times| ==> from <= times[i] < before
  }

  /** Refuses everything before `again`, and nothing at it. */
  ghost predicate RefusesUntil(cfg: Config, s: KeyState, again: int) {
    || (s.blockedUntil == Some(again) && s.window.None?)
    || (&& s.blockedUntil.None? && cfg.blockDuration <= 0 && s.window.Some?
        && s.window.value.hits > cfg.limit && s.window.value.expiresAt + 1 == again)
  }

  lemma {:induction false} RefusedMeanwhile(cfg: Config, s: KeyState, again: int, times: seq<int>, from: int)
    requires RefusesUntil(cfg, s, again) && AllWithin(times, from, again)
    ensures Allowed(cfg, s, times, from, again) == 0 && RefusesUntil(cfg, AfterAll(cfg, s, times), again)
    decreases |times|
  {
    if times != [] { RefusedMeanwhile(cfg, Hit(cfg, s, times[0]).0, again, times[1..], from); }
  }

  /**
   * A refusal names the moment the client is let in again: whatever is asked before is refused, and the
   * request at that moment is the first of a new window.
   */
  lemma RefusalEndsAsTold(cfg: Config, s: KeyState, now: int, times: seq<int>)
    requires Reached(cfg, s, now) && Hit(cfg, s, now).1.isBlocked && AllWithin(times, now, LetInAgain(cfg, s, now))
    ensures LetInAgain(cfg, s, now) > now && Hit(cfg, s, now).1.hits > cfg.limit
    ensures var next, again := Hit(cfg, s, now).0, LetInAgain(cfg, s, now);
            && Allowed(cfg, next, times, now, again) == 0
            && var reply := Hit(cfg, AfterAll(cfg, next, times), again).1;
               cfg.limit > 0 ==> !reply.isBlocked && reply.hits == 1 && reply.timeToExpire == cfg.ttl
  {
    RefusedMeanwhile(cfg, Hit(cfg, s, now).0, LetInAgain(cfg, s, now), times, now);
  }

  /**
   * An admission counts itself: exactly `limit - hits` more are let in at once, and the count starts
   * anew after `timeToExpire`.
   */
  lemma AdmissionCountsAsTold(cfg: Config, s: KeyState, now: int, n: nat)
    requires !Hit(cfg, s, now).1.isBlocked
    ensures var (next, reply) := Hit(cfg, s, now);
            && 1 <= reply.hits <= cfg.limit && reply.timeToExpire >= 0 && reply.timeToBlockExpire == 0
            && Allowed(cfg, next, Repeat(now, n), now, now) == Min(n, cfg.limit - reply.hits)
            && Hit(cfg, next, now + reply.timeToExpire).1.hits == reply.hits + 1
            && Hit(cfg, next, now + reply.timeToExpire + 1).1.hits == 1
  {
    var (next, reply) := Hit(cfg, s, now);
    var expiresAt := now + reply.timeToExpire;
    assert next == Holding(reply.hits, expiresAt);
    var count := Min(n, cfg.limit - reply.hits);
    BurstAllowed(cfg, reply.hits, expiresAt, now, count, Repeat(now, n - count), now, now);
    assert Repeat(now, n) == Repeat(now, count) + Repeat(now, n - count);
    if n > count { FullRefuses(cfg, Holding(cfg.limit, expiresAt), now, n - count); }
  }

  /** A window with its limit used up lets nothing more in. */
  lemma {:induction false} FullRefuses(cfg: Config, s: KeyState, now: int, n: nat)
    requires Blocked(s, now) || (Live(s, now) && s.window.value.hits >= cfg.limit)
    ensures Allowed(cfg, s, Repeat(now, n), now, now) == 0
    decreases n
  {
    if n > 0 {
      assert Repeat(now, n)[1..] == Repeat(now, n - 1);
      FullRefuses(cfg, Hit(cfg, s, now).0, now, n - 1);
    }
  }

  // ----- Where the bound fails

  function Repeat(now: int, count: nat): (times: seq<int>)
    ensures |times| == count && forall i :: 0 <= i < count ==> times[i] == now
  {
    seq(count, _ => now)
  }

  /** A window, possibly not opened yet, with `hits` requests counted. */
  function Holding(hits: nat, expiresAt: int): KeyState {
    KeyState(Some(Window(hits, expiresAt)), None)
  }

  /** A burst that stays within the limit of a live window is let through entirely. */
  lemma {:induction false} BurstAllowed(cfg: Config, hits: nat, expiresAt: int, now: int, count: nat,
                                        rest: seq<int>, from: int, until: int)
    requires now <= expiresAt && hits + count <= cfg.limit && from <= now <= until
    ensures Allowed(cfg, Holding(hits, expiresAt), Repeat(now, count) + rest, from, until)
         == count + Allowed(cfg, Holding(hits + count, expiresAt), rest, from, until)
    decreases count
  {
    if count == 0 {
      assert Repeat(now, 0) + rest == rest;
    } else {
      var times := Repeat(now, count) + rest;
      assert times[1..] == Repeat(now, count - 1) + rest;
      BurstAllowed(cfg, hits + 1, expiresAt, now, count - 1, rest, from, until);
    }
  }

  /** Opening a window with a burst of exactly the limit. */
  lemma BurstOpens(cfg: Config, s: KeyState, now: int, count: nat, rest: seq<int>, from: int, until: int)
    requires !Blocked(s, now) && !Live(s, now) && 1 <= count <= cfg.limit && from <= now <= until
    ensures Allowed(cfg, s, Repeat(now, count) + rest, from, until)
         == count + Allowed(cfg, Holding(count, now + cfg.ttl), rest, from, until)
  {
    var times := Repeat(now, count) + rest;
    assert times[1..] == Repeat(now, count - 1) + rest;
    BurstAllowed(cfg, 1, now + cfg.ttl, now, count - 1, rest, from, until);
  }

  /** One request over the limit of a live window blocks the key. */
  lemma OverLimitBlocks(cfg: Config, expiresAt: int, now: int, rest: seq<int>, from: int, until: int)
    requires now <= expiresAt && cfg.blockDuration > 0
    ensures Allowed(cfg, Holding(cfg.limit, expiresAt), [now] + rest, from, until)
         == Allowed(cfg, KeyState(None, Some(now + cfg.blockDuration)), rest, from, until)
  {
    assert ([now] + rest)[1..] == rest;
  }

  /**
   * A block shorter than the window: the last requests of one window, a full window cut short by
   * the block, and the start of a third fit in one window length.
   */
  function ShortBlockRun(cfg: Config): seq<int> {
    var t := cfg.ttl;
    [0] + (Repeat(t, if cfg.limit > 0 then cfg.limit - 1 else 0)
    + (Repeat(t + 1, cfg.limit) + ([t + 1] + (Repeat(t + 1 + cfg.blockDuration, 2) + []))))
  }

  lemma ShortBlockExceeds(cfg: Config)
    requires cfg.ttl > 0 && cfg.limit >= 2 && 0 < cfg.blockDuration < cfg.ttl
    ensures Ordered(ShortBlockRun(cfg))
    ensures Allowed(cfg, EMPTY, ShortBlockRun(cfg), cfg.ttl, 2 * cfg.ttl) == 2 * cfg.limit + 1
  {
    var t, u := cfg.ttl, cfg.ttl + 1 + cfg.blockDuration;
    var until := t + t;
    var tail2 := Repeat(u, 2) + [];
    var tail1 := [t + 1] + tail2;
    var tail0 := Repeat(t + 1, cfg.limit) + tail1;
    var all := Repeat(t, cfg.limit - 1) + tail0;
    assert ([0] + all)[1..] == all;
    BurstAllowed(cfg, 1, t, t, cfg.limit - 1, tail0, t, until);
    BurstOpens(cfg, Holding(cfg.limit, t), t + 1, cfg.limit, tail1, t, until);
    OverLimitBlocks(cfg, t + 1 + t, t + 1, tail2, t, until);
    BurstOpens(cfg, KeyState(None, Some(u)), u, 2, [], t, until);
  }

  /** With a limit of one, three requests each right after a block of at most half the window. */
  lemma HalfBlockExceeds(cfg: Config)
    requires cfg.ttl > 0 && cfg.limit == 1 && 0 < 2 * cfg.blockDuration <= cfg.ttl
    ensures var b := cfg.blockDuration;
            && Ordered([0, 0, b, b, 2 * b])
            && Allowed(cfg, EMPTY, [0, 0, b, b, 2 * b], 0, cfg.ttl) == 3
  {
    var b, t := cfg.blockDuration, cfg.ttl;
    var tail2 := Repeat(2 * b, 1) + [];
    var tail1 := Repeat(b, 1) + ([b] + tail2);
    assert [0, 0, b, b, 2 * b] == Repeat(0, 1) + ([0] + tail1);
    BurstOpens(cfg, EMPTY, 0, 1, [0] + tail1, 0, t);
    OverLimitBlocks(cfg, t, 0, tail1, 0, t);
    BurstOpens(cfg, KeyState(None, Some(b)), b, 1, [b] + tail2, 0, t);
    OverLimitBlocks(cfg, b + t, b, tail2, 0, t);
    BurstOpens(cfg, KeyState(None, Some(2 * b)), 2 * b, 1, [], 0, t);
  }

  /** The rate bound holds for exactly the configurations of `KeepsBound`. */
  lemma TwiceTheLimitExactly(cfg: Config)
    requires cfg.ttl > 0
    ensures TwiceTheLimit(cfg) <==> KeepsBound(cfg)
  {
    if KeepsBound(cfg) {
      forall times, from, until | Ordered(times) && until == from + cfg.ttl
        ensures Allowed(cfg, EMPTY, times, from, until) <= 2 * cfg.limit
      {
        AllowedAtMostTwice(cfg, EMPTY, if times == [] then from else Min(from, times[0]), times, from);
      }
    } else if cfg.limit >= 2 {
      ShortBlockExceeds(cfg);
      assert Allowed(cfg, EMPTY, ShortBlockRun(cfg), cfg.ttl, cfg.ttl + cfg.ttl) > 2 * cfg.limit;
    } else {
      HalfBlockExceeds(cfg);
      var b := cfg.blockDuration;
      assert Allowed(cfg, EMPTY, [0, 0, b, b, 2 * b], 0, 0 + cfg.ttl) > 2 * cfg.limit;
    }
  }
}
