/**
 * Refresh sessions: rotation with reuse detection (section 4.14.2 of RFC 9700).
 *
 * One session row is read and compare-and-swapped by any number of concurrent rotations. Times are
 * whole seconds, the resolution of the stored columns. A secret stands for its own hash.
 */
module RefreshSessions {
  import opened Prelude

  type Secret = string

  const LEEWAY := 10
  const MAX_ATTEMPTS := 3
  const TTL := 7 * 24 * 60 * 60
  const MAX_AGE := 30 * 24 * 60 * 60

  datatype Session = Session(current: Secret, previous: Option<Secret>, rotatedAt: Option<int>,
                             createdAt: int, expiresAt: int)

  function Expiry(createdAt: int, now: int): int {
    Min(now + TTL, createdAt + MAX_AGE)
  }

  function Created(secret: Secret, now: int): Session {
    Session(secret, None, None, now, Expiry(now, now))
  }

  /** What the swap stores over the row that was read. */
  function Rotated(seen: Session, secret: Secret, now: int): Session {
    Session(secret, Some(seen.current), Some(now), seen.createdAt, Expiry(seen.createdAt, now))
  }

  datatype Verdict = Missing | Reuse | Accept

  /** How a rotation judges the presented secret against the row it read. */
  function Judge(seen: Option<Session>, presented: Secret, now: int): Verdict {
    if seen.None? || seen.value.expiresAt <= now then Missing
    else
      var s := seen.value;
      var isJustRotated := s.previous.Some? && s.rotatedAt.Some?
                           && now - s.rotatedAt.value <= LEEWAY && presented == s.previous.value;
      if presented == s.current || isJustRotated then Accept else Reuse
  }

  // ----- Token format

  function Split(s: string): (parts: seq<string>)
    ensures |parts| >= 1
  {
    if s == "" then [""]
    else
      var rest := Split(s[1..]);
      if s[0] == '.' then [""] + rest else [[s[0]] + rest[0]] + rest[1..]
  }

  /** `<sessionId>.<secret>` */
  function Parse(token: string): Option<(string, Secret)> {
    var parts := Split(token);
    if |parts| == 2 && |parts[0]| == 36 && |parts[1]| == 64 then Some((parts[0], parts[1])) else None
  }

  lemma {:induction false} SplitAtDot(a: string, b: string)
    requires '.' !in a && '.' !in b
    ensures Split(b) == [b] && Split(a + "." + b) == [a, b]
    decreases |a| + |b|
  {
    if b != "" {
      SplitAtDot("", b[1..]);
      assert [b[0]] + b[1..] == b;
    }
    if a == "" {
      assert (a + "." + b)[1..] == b;
    } else {
      SplitAtDot(a[1..], b);
      assert (a + "." + b)[1..] == a[1..] + "." + b;
      assert [a[0]] + a[1..] == a;
    }
  }

  lemma {:induction false} SplitJoins(s: string)
    ensures forall i :: 0 <= i < |Split(s)| ==> '.' !in Split(s)[i]
    ensures |Split(s)| == 1 ==> s == Split(s)[0]
    ensures |Split(s)| == 2 ==> s == Split(s)[0] + "." + Split(s)[1]
  {
    if s != "" {
      SplitJoins(s[1..]);
      assert s == [s[0]] + s[1..];
    }
  }

  /** A token is accepted exactly when it is one dot between a 36-character id and a 64-character secret. */
  lemma ParseExactly(token: string, id: string, secret: Secret)
    ensures Parse(token) == Some((id, secret)) <==>
      && token == id + "." + secret && |id| == 36 && |secret| == 64 && '.' !in id && '.' !in secret
  {
    SplitJoins(token);
    if token == id + "." + secret && '.' !in id && '.' !in secret {
      SplitAtDot(id, secret);
    }
  }

  // ----- Concurrent rotations of one session

  datatype Outcome = Granted(secret: Secret) | Rejected | Revoked | Exhausted

  /**
   * A rotation between two of its awaits. `version` counts the rotations committed before its
   * read. `attempt` counts its lost swaps.
   */
  datatype Rotation =
    | Reading(presented: Secret, attempt: nat)
    | Judging(presented: Secret, attempt: nat, seen: Option<Session>, version: nat)
    | Swapping(presented: Secret, attempt: nat, read: Session, version: nat, minted: Secret, stamp: int)
    | Revoking(presented: Secret)
    | Ended(presented: Secret, outcome: Outcome)

  /** A committed rotation: the secret presented, and when it was decided. */
  datatype Grant = Grant(presented: Secret, stamp: int)

  /**
   * `lineage` lists the secrets the session has had, the first one then one per committed
   * rotation; `known` holds every secret ever issued, drawn or presented.
   */
  datatype RawWorld = World(now: int, session: Option<Session>, createdAt: int, lineage: seq<Secret>,
                            grants: seq<Grant>, known: set<Secret>, rotations: map<nat, Rotation>)

  type World = w: RawWorld | |w.lineage| == |w.grants| + 1
    witness World(0, None, 0, [""], [], {}, map[])

  datatype Action =
    | Tick(time: int)
    | Start(id: nat, token: Secret)
    | Read(id: nat)
    | Decide(id: nat, newSecret: Secret)
    | Swap(id: nat)
    | Delete(id: nat)
    | Remove  // logout, password reset or the cleanup of expired rows

  function Initial(secret: Secret, now: int): World {
    World(now, Some(Created(secret, now)), now, [secret], [], {secret}, map[])
  }

  predicate Enabled(w: World, a: Action) {
    match a
    case Tick(time) => w.now <= time
    case Start(id, _) => id !in w.rotations
    case Read(id) => id in w.rotations && w.rotations[id].Reading?
    case Decide(id, minted) => id in w.rotations && w.rotations[id].Judging? && minted !in w.known
    case Swap(id) => id in w.rotations && w.rotations[id].Swapping?
    case Delete(id) => id in w.rotations && w.rotations[id].Revoking?
    case Remove => true
  }

  function Retry(presented: Secret, attempt: nat): Rotation {
    if attempt + 1 < MAX_ATTEMPTS then Reading(presented, attempt + 1) else Ended(presented, Exhausted)
  }

  function Apply(w: World, a: Action): World
    requires Enabled(w, a)
  {
    match a
    case Tick(time) => w.(now := time)
    case Start(id, token) =>
      w.(known := w.known + {token}, rotations := w.rotations[id := Reading(token, 0)])
    case Read(id) =>
      var r := w.rotations[id];
      w.(rotations := w.rotations[id := Judging(r.presented, r.attempt, w.session, |w.grants|)])
    case Decide(id, minted) =>
      var r := w.rotations[id];
      (match Judge(r.seen, r.presented, w.now)
       case Missing => w.(rotations := w.rotations[id := Ended(r.presented, Rejected)])
       case Reuse => w.(rotations := w.rotations[id := Revoking(r.presented)])
       case Accept =>
         w.(known := w.known + {minted},
            rotations := w.rotations[id := Swapping(r.presented, r.attempt, r.seen.value, r.version, minted, w.now)]))
    case Swap(id) =>
      var r := w.rotations[id];
      if w.session.Some? && w.session.value.current == r.read.current then
        w.(session := Some(Rotated(r.read, r.minted, r.stamp)),
           lineage := w.lineage + [r.minted], grants := w.grants + [Grant(r.presented, r.stamp)],
           rotations := w.rotations[id := Ended(r.presented, Granted(r.minted))])
      else
        w.(rotations := w.rotations[id := Retry(r.presented, r.attempt)])
    case Delete(id) =>
      w.(session := None, rotations := w.rotations[id := Ended(w.rotations[id].presented, Revoked)])
    case Remove => w.(session := None)
  }

  ghost predicate Runs(w: World, actions: seq<Action>, end: World)
    decreases |actions|
  {
    if actions == [] then end == w
    else Enabled(w, actions[0]) && Runs(Apply(w, actions[0]), actions[1..], end)
  }

  ghost predicate Reachable(w: World) {
    exists secret, now, actions :: Runs(Initial(secret, now), actions, w)
  }

  // ----- The invariant

  /** `s` is the row as it stood after `k` committed rotations. */
  ghost predicate RowAt(w: World, s: Session, k: nat) {
    && k <= |w.grants|
    && s.createdAt == w.createdAt
    && s.current == w.lineage[k]
    && (if k == 0 then s.previous == None && s.rotatedAt == None && s.expiresAt == Expiry(w.createdAt, w.createdAt)
        else && s.previous == Some(w.lineage[k - 1]) && s.rotatedAt == Some(w.grants[k - 1].stamp)
             && s.expiresAt == Expiry(w.createdAt, w.grants[k - 1].stamp))
  }

  ghost predicate LineageDistinct(w: World) {
    && (forall k :: 0 <= k < |w.lineage| ==> w.lineage[k] in w.known)
    && (forall i, j :: 0 <= i < j < |w.lineage| ==> w.lineage[i] != w.lineage[j])
  }

  ghost predicate Unissued(w: World, secret: Secret) {
    secret in w.known && secret !in w.lineage
  }

  /** A secret waiting to be swapped in is like no other. */
  ghost predicate FreshApart(w: World) {
    && (forall id :: id in w.rotations && w.rotations[id].Swapping? ==> Unissued(w, w.rotations[id].minted))
    && (forall id, other | id in w.rotations && other in w.rotations && id != other ::
          w.rotations[id].Swapping? && w.rotations[other].Swapping? ==>
            w.rotations[id].minted != w.rotations[other].minted)
  }

  /** Rotation number `k` was earned by the current secret, or by the one before it within the leeway. */
  ghost predicate Earned(w: World, presented: Secret, stamp: int, k: nat)
    requires k <= |w.grants|
  {
    && stamp < w.createdAt + MAX_AGE
    && (k > 0 ==> w.grants[k - 1].stamp <= stamp < w.grants[k - 1].stamp + TTL)
    && (|| presented == w.lineage[k]
        || (k > 0 && presented == w.lineage[k - 1] && stamp <= w.grants[k - 1].stamp + LEEWAY))
  }

  /** `attempt` swaps were lost, so at least as many rotations committed since `presented` was issued. */
  ghost predicate Lost(w: World, presented: Secret, attempt: nat, version: nat) {
    attempt > 0 ==> exists p :: 0 <= p < |w.lineage| && w.lineage[p] == presented && p + attempt <= version
  }

  ghost predicate RotationOk(w: World, r: Rotation) {
    match r
    case Reading(presented, attempt) =>
      attempt <= 2 && (w.session.Some? ==> Lost(w, presented, attempt, |w.grants|))
    case Judging(presented, attempt, seen, version) =>
      && version <= |w.grants| && attempt <= 2
      && (seen.Some? ==> RowAt(w, seen.value, version) && Lost(w, presented, attempt, version))
    case Swapping(presented, attempt, read, version, minted, stamp) =>
      && attempt <= 1 && stamp <= w.now
      && RowAt(w, read, version) && Earned(w, presented, stamp, version) && Lost(w, presented, attempt, version)
    case Revoking(_) => true
    case Ended(_, outcome) =>
      outcome != Exhausted && (outcome == Revoked ==> w.session.None?)
  }

  ghost predicate EarnedAt(w: World, k: nat)
    requires k < |w.grants|
  {
    Earned(w, w.grants[k].presented, w.grants[k].stamp, k)
  }

  ghost predicate GrantsEarned(w: World) {
    forall k :: 0 <= k < |w.grants| ==> EarnedAt(w, k)
  }

  ghost predicate Inv(w: World) {
    && (w.session.Some? ==> RowAt(w, w.session.value, |w.grants|))
    && w.createdAt <= w.now && (forall k :: 0 <= k < |w.grants| ==> w.grants[k].stamp <= w.now)
    && LineageDistinct(w) && FreshApart(w) && GrantsEarned(w)
    && forall id :: id in w.rotations ==> RotationOk(w, w.rotations[id])
  }

  /** `w` with more committed rotations and perhaps no session, seen by the untouched rotations. */
  ghost predicate Extends(w: World, later: World) {
    && later.createdAt == w.createdAt && |w.grants| <= |later.grants|
    && (forall k :: 0 <= k < |w.lineage| ==> w.lineage[k] == later.lineage[k])
    && (forall k :: 0 <= k < |w.grants| ==> w.grants[k] == later.grants[k])
    && w.now <= later.now && (w.session.None? ==> later.session.None?)
  }

  lemma LostLater(w: World, later: World, presented: Secret, attempt: nat, version: nat, more: nat)
    requires Extends(w, later) && Lost(w, presented, attempt, version) && version <= more
    ensures Lost(later, presented, attempt, more)
  {
    if attempt > 0 {
      var p :| 0 <= p < |w.lineage| && w.lineage[p] == presented && p + attempt <= version;
      assert later.lineage[p] == presented;
    }
  }

  lemma RotationOkLater(w: World, later: World, r: Rotation)
    requires Extends(w, later) && RotationOk(w, r)
    ensures RotationOk(later, r)
  {
    match r
    case Reading(presented, attempt) =>
      if later.session.Some? { LostLater(w, later, presented, attempt, |w.grants|, |later.grants|); }
    case Judging(presented, attempt, seen, version) =>
      if seen.Some? { LostLater(w, later, presented, attempt, version, version); }
    case Swapping(presented, attempt, _, version, _, _) =>
      LostLater(w, later, presented, attempt, version, version);
    case _ =>
  }

  lemma InitialInv(secret: Secret, now: int)
    ensures Inv(Initial(secret, now))
  {
  }

  /** Every other rotation is as sound after the step as before. */
  lemma OthersKept(w: World, later: World, id: nat)
    requires Inv(w) && Extends(w, later)
    requires forall other :: other in later.rotations && other != id ==>
               other in w.rotations && later.rotations[other] == w.rotations[other]
    ensures forall other :: other in later.rotations && other != id ==> RotationOk(later, later.rotations[other])
  {
    forall other | other in later.rotations && other != id ensures RotationOk(later, later.rotations[other]) {
      RotationOkLater(w, later, w.rotations[other]);
    }
  }

  lemma DecideApart(w: World, id: nat, minted: Secret)
    requires Inv(w) && Enabled(w, Decide(id, minted))
    ensures FreshApart(Apply(w, Decide(id, minted)))
  {
    var later := Apply(w, Decide(id, minted));
    forall other | other in later.rotations && later.rotations[other].Swapping?
      ensures later.rotations[other].minted in later.known && later.rotations[other].minted !in later.lineage
      ensures other != id ==> later.rotations[other].minted != minted
    {
      assert other != id ==> later.rotations[other] == w.rotations[other];
    }
  }

  lemma DecideAcceptOk(w: World, id: nat, minted: Secret)
    requires Inv(w) && Enabled(w, Decide(id, minted))
    requires Judge(w.rotations[id].seen, w.rotations[id].presented, w.now) == Accept
    ensures var r := w.rotations[id];
            RotationOk(w, Swapping(r.presented, r.attempt, r.seen.value, r.version, minted, w.now))
  {
    var r := w.rotations[id];
    assert RowAt(w, r.seen.value, r.version) && Lost(w, r.presented, r.attempt, r.version);
    assert Earned(w, r.presented, w.now, r.version);
    if r.attempt > 0 {
      var p :| 0 <= p < |w.lineage| && w.lineage[p] == r.presented && p + r.attempt <= r.version;
      assert p == r.version || p == r.version - 1;
    }
  }

  /** The part of the invariant that a step leaving the row and the lineage alone cannot touch. */
  lemma HistoryKept(w: World, later: World)
    requires Inv(w)
    requires later.session == w.session || later.session.None?
    requires later.createdAt == w.createdAt && later.lineage == w.lineage
    requires later.grants == w.grants && w.known <= later.known && w.now <= later.now
    ensures later.session.Some? ==> RowAt(later, later.session.value, |later.grants|)
    ensures LineageDistinct(later) && GrantsEarned(later)
  {
    forall k | 0 <= k < |later.grants| ensures EarnedAt(later, k) {
      assert EarnedAt(w, k);
    }
  }

  lemma DecideKeeps(w: World, id: nat, minted: Secret)
    requires Inv(w) && Enabled(w, Decide(id, minted))
    ensures Inv(Apply(w, Decide(id, minted)))
  {
    var later, r := Apply(w, Decide(id, minted)), w.rotations[id];
    OthersKept(w, later, id);
    HistoryKept(w, later);
    DecideApart(w, id, minted);
    assert RotationOk(later, later.rotations[id]) by {
      if Judge(r.seen, r.presented, w.now) == Accept {
        DecideAcceptOk(w, id, minted);
        RotationOkLater(w, later, later.rotations[id]);
      }
    }
  }

  lemma SwapWonApart(w: World, id: nat)
    requires Inv(w) && Enabled(w, Swap(id))
    requires w.session.Some? && w.session.value.current == w.rotations[id].read.current
    ensures LineageDistinct(Apply(w, Swap(id))) && FreshApart(Apply(w, Swap(id)))
  {
    var later := Apply(w, Swap(id));
    forall other | other in later.rotations && later.rotations[other].Swapping?
      ensures later.rotations[other].minted in later.known && later.rotations[other].minted !in later.lineage
    {
      assert w.rotations[other].minted != w.rotations[id].minted;
    }
  }

  /** The swap that finds the row unchanged. */
  lemma SwapWonKeeps(w: World, id: nat)
    requires Inv(w) && Enabled(w, Swap(id))
    requires w.session.Some? && w.session.value.current == w.rotations[id].read.current
    ensures Inv(Apply(w, Swap(id)))
  {
    var later := Apply(w, Swap(id));
    OthersKept(w, later, id);
    SwapWonApart(w, id);
    SwapWonEarned(w, id);
  }

  lemma SwapWonEarned(w: World, id: nat)
    requires Inv(w) && Enabled(w, Swap(id))
    requires w.session.Some? && w.session.value.current == w.rotations[id].read.current
    ensures GrantsEarned(Apply(w, Swap(id))) && w.rotations[id].version == |w.grants|
  {
    var later, r, n := Apply(w, Swap(id)), w.rotations[id], |w.grants|;
    assert r.version == n;
    forall k | 0 <= k < |later.grants| ensures EarnedAt(later, k) {
      assert k < n ==> EarnedAt(w, k);
      assert Earned(w, (if k < n then w.grants[k].presented else r.presented),
                    (if k < n then w.grants[k].stamp else r.stamp), k);
    }
  }

  /** The swap that finds the row changed, or gone. */
  lemma SwapLostKeeps(w: World, id: nat)
    requires Inv(w) && Enabled(w, Swap(id))
    requires w.session.None? || w.session.value.current != w.rotations[id].read.current
    ensures Inv(Apply(w, Swap(id)))
  {
    OthersKept(w, Apply(w, Swap(id)), id);
    HistoryKept(w, Apply(w, Swap(id)));
    if w.session.Some? { OneMoreLost(w, id); }
  }

  lemma OneMoreLost(w: World, id: nat)
    requires Inv(w) && Enabled(w, Swap(id))
    requires w.session.Some? && w.session.value.current != w.rotations[id].read.current
    ensures var r := w.rotations[id];
            r.version < |w.grants| && Lost(w, r.presented, r.attempt + 1, |w.grants|)
  {
    var r := w.rotations[id];
    assert RowAt(w, w.session.value, |w.grants|) && RowAt(w, r.read, r.version);
    assert Earned(w, r.presented, r.stamp, r.version);
    var p := if r.presented == w.lineage[r.version] then r.version else r.version - 1;
    CountsOne(w, r.presented, r.attempt, r.version, p);
  }

  /** One more rotation committed than before, after a lost swap of an attempt at version `version`. */
  lemma CountsOne(w: World, presented: Secret, attempt: nat, version: nat, p: int)
    requires version < |w.grants| && Lost(w, presented, attempt, version)
    requires 0 <= p <= version && w.lineage[p] == presented
    ensures Lost(w, presented, attempt + 1, |w.grants|)
  {
    var q := p;
    if attempt > 0 {
      q :| 0 <= q < |w.lineage| && w.lineage[q] == presented && q + attempt <= version;
    }
    assert w.lineage[q] == presented && q + (attempt + 1) <= |w.grants|;
  }

  lemma StepKeeps(w: World, a: Action)
    requires Inv(w) && Enabled(w, a)
    ensures Inv(Apply(w, a))
  {
    match a
    case Decide(id, minted) => DecideKeeps(w, id, minted);
    case Swap(id) =>
      if w.session.Some? && w.session.value.current == w.rotations[id].read.current {
        SwapWonKeeps(w, id);
      } else {
        SwapLostKeeps(w, id);
      }
    case _ => SimpleStepKeeps(w, a);
  }

  lemma SimpleStepKeeps(w: World, a: Action)
    requires Inv(w) && Enabled(w, a) && !a.Decide? && !a.Swap?
    ensures Inv(Apply(w, a))
  {
    var later := Apply(w, a);
    HistoryKept(w, later);
    match a
    case Start(id, _) => OthersKept(w, later, id);
    case Read(id) => OthersKept(w, later, id);
    case Delete(id) => OthersKept(w, later, id);
    case _ => AllKept(w, later);
  }

  lemma AllKept(w: World, later: World)
    requires Inv(w) && Extends(w, later) && later.rotations == w.rotations
    ensures forall id :: id in later.rotations ==> RotationOk(later, later.rotations[id])
  {
    forall id | id in w.rotations ensures RotationOk(later, w.rotations[id]) {
      RotationOkLater(w, later, w.rotations[id]);
    }
  }

  lemma {:induction false} RunKeeps(w: World, actions: seq<Action>, end: World)
    requires Inv(w) && Runs(w, actions, end)
    ensures Inv(end)
    decreases |actions|
  {
    if actions != [] {
      StepKeeps(w, actions[0]);
      RunKeeps(Apply(w, actions[0]), actions[1..], end);
    }
  }

  lemma ReachableInv(w: World)
    requires Reachable(w)
    ensures Inv(w)
  {
    var secret, now, actions :| Runs(Initial(secret, now), actions, w);
    InitialInv(secret, now);
    RunKeeps(Initial(secret, now), actions, w);
  }

  // ----- What every run guarantees

  /**
   * No rotation ever runs out of attempts: two lost swaps push the presented secret out of the
   * two that are still accepted, so a third swap is never tried.
   */
  lemma NeverExhausted(w: World, id: nat)
    requires Reachable(w) && id in w.rotations
    ensures w.rotations[id].Ended? ==> w.rotations[id].outcome != Exhausted
    ensures w.rotations[id].Swapping? ==> w.rotations[id].attempt <= 1
  {
    ReachableInv(w);
  }

  /**
   * How a rotation that read the row is decided, in terms of the session's lineage of secrets:
   * accepted for the current secret, or for the one just rotated out within the leeway; any other
   * secret counts as a replay.
   */
  lemma DecidedByLineage(w: World, id: nat)
    requires Reachable(w) && id in w.rotations && w.rotations[id].Judging? && w.rotations[id].seen.Some?
    ensures var r := w.rotations[id];
            var v, seen := r.version, r.seen.value;
            && v <= |w.grants|
            && seen.expiresAt == (if v == 0 then w.createdAt + TTL
                                  else Min(w.grants[v - 1].stamp + TTL, w.createdAt + MAX_AGE))
            && Judge(r.seen, r.presented, w.now) ==
                 if seen.expiresAt <= w.now then Missing
                 else if || r.presented == w.lineage[v]
                         || (v > 0 && r.presented == w.lineage[v - 1] && w.now <= w.grants[v - 1].stamp + LEEWAY)
                      then Accept
                 else Reuse
  {
    ReachableInv(w);
  }

  /** An issued secret older than the previous one is always judged a replay while the session lives. */
  lemma OldSecretIsReplay(w: World, id: nat, p: nat)
    requires Reachable(w) && id in w.rotations && w.rotations[id].Judging? && w.rotations[id].seen.Some?
    requires w.now < w.rotations[id].seen.value.expiresAt
    requires p + 2 <= w.rotations[id].version <= |w.grants| && w.rotations[id].presented == w.lineage[p]
    ensures Judge(w.rotations[id].seen, w.rotations[id].presented, w.now) == Reuse
  {
    ReachableInv(w);
    DecidedByLineage(w, id);
  }

  /**
   * Lineage of secrets: each issued secret earns at most two successors, in consecutive rotations,
   * the second only when decided within the leeway of the rotation that retired it.
   */
  lemma AtMostTwoSuccessors(w: World, i: nat, j: nat)
    requires Reachable(w) && i < j < |w.grants| && w.grants[i].presented == w.grants[j].presented
    ensures j == i + 1
    ensures w.grants[i].presented == w.lineage[i]
    ensures w.grants[j].stamp <= w.grants[i].stamp + LEEWAY
  {
    ReachableInv(w);
    assert EarnedAt(w, i) && EarnedAt(w, j);
  }

  /** Lifetime: every rotation is decided within 7 days of the one before and 30 days of the login. */
  lemma LifetimeBounded(w: World)
    requires Reachable(w)
    ensures w.session.Some? ==>
      && w.session.value.expiresAt <= w.createdAt + MAX_AGE
      && w.session.value.expiresAt <=
           (if w.grants == [] then w.createdAt else w.grants[|w.grants| - 1].stamp) + TTL
    ensures forall k :: 0 <= k < |w.grants| ==> w.grants[k].stamp < w.createdAt + MAX_AGE
    ensures forall k :: 0 < k < |w.grants| ==>
      w.grants[k - 1].stamp <= w.grants[k].stamp < w.grants[k - 1].stamp + TTL
  {
    ReachableInv(w);
    assert GrantsEarned(w);
    forall k | 0 <= k < |w.grants|
      ensures w.grants[k].stamp < w.createdAt + MAX_AGE
      ensures k > 0 ==> w.grants[k - 1].stamp <= w.grants[k].stamp < w.grants[k - 1].stamp + TTL
    {
      assert EarnedAt(w, k);
    }
  }

  /** A session that is gone stays gone: nothing is granted afterwards, whoever was mid-rotation. */
  lemma {:induction false} GoneForGood(w: World, actions: seq<Action>, end: World)
    requires w.session.None? && Runs(w, actions, end)
    ensures end.session.None? && end.grants == w.grants
    decreases |actions|
  {
    if actions != [] {
      GoneForGood(Apply(w, actions[0]), actions[1..], end);
    }
  }

  /** Reuse detection ends the session: once a replay was answered, no later rotation succeeds. */
  lemma ReplayEndsTheSession(w: World, id: nat, actions: seq<Action>, end: World)
    requires Reachable(w) && id in w.rotations && w.rotations[id] == Ended(w.rotations[id].presented, Revoked)
    requires Runs(w, actions, end)
    ensures end.session.None? && end.grants == w.grants
  {
    ReachableInv(w);
    GoneForGood(w, actions, end);
  }

  lemma {:induction false} LengthsBounded(known: set<Secret>) returns (n: nat)
    ensures forall s :: s in known ==> |s| < n
    decreases |known|
  {
    if known == {} {
      n := 0;
    } else {
      var s :| s in known;
      n := LengthsBounded(known - {s});
      n := Max(n, |s| + 1);
    }
  }

  lemma SomeSecretUnseen(known: set<Secret>)
    ensures exists s: Secret :: s !in known
  {
    var n := LengthsBounded(known);
    assert seq(n, _ => '0') !in known;
  }

  // ----- The service, with the other requests acting at each of its awaits

  ghost predicate Leads(w: World, v: World) {
    exists actions :: Runs(w, actions, v)
  }

  lemma {:induction false} RunsAcross(u: World, actions: seq<Action>, v: World, more: seq<Action>, w: World)
    requires Runs(u, actions, v) && Runs(v, more, w)
    ensures Runs(u, actions + more, w)
    decreases |actions|
  {
    if actions == [] {
      assert actions + more == more;
    } else {
      RunsAcross(Apply(u, actions[0]), actions[1..], v, more, w);
      assert (actions + more)[0] == actions[0] && (actions + more)[1..] == actions[1..] + more;
    }
  }

  lemma LeadsAcross(u: World, v: World, w: World)
    requires Leads(u, v) && Leads(v, w)
    ensures Leads(u, w)
  {
    var actions :| Runs(u, actions, v);
    var more :| Runs(v, more, w);
    RunsAcross(u, actions, v, more, w);
  }

  lemma LeadsNext(w: World, a: Action)
    requires Enabled(w, a)
    ensures Leads(w, w) && Leads(w, Apply(w, a))
  {
    assert Runs(w, [], w) && Runs(Apply(w, a), [], Apply(w, a));
    assert [a][1..] == [] && Runs(w, [a], Apply(w, a));
  }

  lemma ReachableOn(w: World, v: World)
    requires Reachable(w) && Leads(w, v)
    ensures Reachable(v)
  {
    var secret, now, actions :| Runs(Initial(secret, now), actions, w);
    var more :| Runs(w, more, v);
    RunsAcross(Initial(secret, now), actions, w, more, v);
  }

  /** A whole rotation of another request, with the current secret. */
  lemma AnotherRotation(w: World, id: nat, secret: Secret) returns (v: World)
    requires Reachable(w) && id in w.rotations && secret !in w.known
    requires w.session.Some? && w.session.value.expiresAt > w.now
    ensures Leads(w, v) && id in v.rotations && v.rotations[id] == w.rotations[id]
    ensures v.now == w.now && v.known == w.known + {secret}
    ensures v.session == Some(Rotated(w.session.value, secret, w.now))
  {
    ReachableInv(w);
    var n := IdsBounded(w.rotations.Keys);
    var row := w.session.value;
    assert w.known + {row.current} == w.known;
    var started := Apply(w, Start(n, row.current));
    var read := Apply(started, Read(n));
    LeadsNext(w, Start(n, row.current));
    LeadsNext(started, Read(n));
    LeadsAcross(w, started, read);
    assert id in w.rotations.Keys && n !in w.rotations.Keys;
    assert read.session == w.session && read.now == w.now && read.known == w.known;
    v := JudgedRotation(read, n, secret);
    LeadsAcross(w, read, v);
  }

  lemma JudgedRotation(w: World, n: nat, secret: Secret) returns (v: World)
    requires w.session.Some? && w.session.value.expiresAt > w.now && secret !in w.known
    requires n in w.rotations && w.rotations[n] == Judging(w.session.value.current, 0, w.session, |w.grants|)
    ensures Leads(w, v) && v.now == w.now && v.known == w.known + {secret}
    ensures v.session == Some(Rotated(w.session.value, secret, w.now))
    ensures forall id :: id in w.rotations && id != n ==> id in v.rotations && v.rotations[id] == w.rotations[id]
  {
    var decided := Apply(w, Decide(n, secret));
    v := Apply(decided, Action.Swap(n));
    LeadsNext(w, Decide(n, secret));
    LeadsNext(decided, Action.Swap(n));
    LeadsAcross(w, decided, v);
  }

  /** What a decision makes of its rotation, and of nothing else a request can see. */
  lemma Decided(w: World, id: nat, minted: Secret)
    requires Reachable(w) && Enabled(w, Decide(id, minted))
    ensures var v, r := Apply(w, Decide(id, minted)), w.rotations[id];
            && v.now == w.now && v.session == w.session && id in v.rotations
            && match Judge(r.seen, r.presented, w.now)
               case Missing => v.rotations[id] == Ended(r.presented, Rejected) && v.known == w.known
               case Reuse => v.rotations[id] == Revoking(r.presented) && v.known == w.known
               case Accept =>
                 && r.attempt <= 1 && v.known == w.known + {minted}
                 && v.rotations[id] == Swapping(r.presented, r.attempt, r.seen.value, r.version, minted, w.now)
  {
    ReachableInv(w);
    if Judge(w.rotations[id].seen, w.rotations[id].presented, w.now) == Accept { DecideAcceptOk(w, id, minted); }
  }

  /** What a swap does: it is won on the row that was read, and lost at most twice. */
  lemma Swapped(w: World, id: nat)
    requires Reachable(w) && Enabled(w, Action.Swap(id))
    ensures var v, r, n := Apply(w, Action.Swap(id)), w.rotations[id], |w.grants|;
            && v.now == w.now && v.known == w.known && id in v.rotations && r.attempt <= 1
            && if w.session.Some? && w.session.value.current == r.read.current then
                 && v.session == Some(Rotated(r.read, r.minted, r.stamp)) && v.lineage == w.lineage + [r.minted]
                 && v.rotations[id] == Ended(r.presented, Granted(r.minted))
                 && (r.presented == w.lineage[n] || (n > 0 && r.presented == w.lineage[n - 1]))
               else v.session == w.session && v.rotations[id] == Reading(r.presented, r.attempt + 1)
  {
    ReachableInv(w);
    var r := w.rotations[id];
    if w.session.Some? && w.session.value.current == r.read.current {
      SwapWonEarned(w, id);
      assert Earned(w, r.presented, r.stamp, r.version);
    }
  }

  /** `world` is the row and the clock with every rotation under way and the history of the session. */
  class SessionService {
    var now: int
    var session: Option<Session>
    var known: set<Secret>
    ghost var world: World

    ghost predicate Valid()
      reads this
    {
      Reachable(world) && now == world.now && session == world.session && known == world.known
    }

    ghost predicate At(id: nat, r: Rotation)
      reads this
    {
      id in world.rotations && world.rotations[id] == r
    }

    constructor Create(secret: Secret, now: int)
      ensures Valid() && world == Initial(secret, now)
      ensures session == Some(Created(secret, now)) && this.now == now
    {
      this.now, session, known, world := now, Some(Created(secret, now)), {secret}, Initial(secret, now);
      new;
      assert Runs(Initial(secret, now), [], world);
    }

    ghost method Do(a: Action)
      requires Reachable(world) && Enabled(world, a)
      modifies this`world
      ensures world == Apply(old(world), a) && Reachable(world) && Leads(old(world), world)
    {
      LeadsNext(world, a);
      ReachableOn(world, Apply(world, a));
      world := Apply(world, a);
    }

    /** Any number of other requests, while time passes: some run in which rotation `id` does not move. */
    method Others(ghost id: nat)
      requires Valid() && id in world.rotations
      modifies this
      ensures Valid() && Leads(old(world), world) && At(id, old(world).rotations[id])
    {
      var steps: nat := *;
      LeadsNext(world, Remove);
      while steps > 0
        invariant Valid() && Leads(old(world), world) && At(id, old(world).rotations[id])
      {
        steps := steps - 1;
        ghost var before := world;
        if * {
          var time :| now <= time;
          Do(Tick(time));
          now := time;
        } else if * {
          Do(Remove);
          session := None;
        } else {
          AnotherRotates(id);
        }
        LeadsAcross(old(world), before, world);
      }
    }

    /** Another request rotates the session, when it can. */
    method AnotherRotates(ghost id: nat)
      requires Valid() && id in world.rotations
      modifies this
      ensures Valid() && Leads(old(world), world) && At(id, old(world).rotations[id])
    {
      var secret: Secret := *;
      LeadsNext(world, Remove);
      if session.None? || session.value.expiresAt <= now || secret in known { return; }
      ghost var later := AnotherRotation(world, id, secret);
      ReachableOn(world, later);
      world := later;
      session := Some(Rotated(session.value, secret, now));
      known := known + {secret};
    }

    /** A secret never seen before. */
    method NewSecret() returns (secret: Secret)
      ensures secret !in known
    {
      SomeSecretUnseen(known);
      secret :| secret !in known;
    }

    /** The read of the row, others acting before it and after it. */
    method ReadRow(ghost id: nat, presented: Secret, ghost attempt: nat)
      returns (seen: Option<Session>, ghost version: nat)
      requires Valid() && At(id, Reading(presented, attempt))
      modifies this
      ensures Valid() && Leads(old(world), world) && At(id, Judging(presented, attempt, seen, version))
    {
      Others(id);
      ghost var asked := world;
      seen, version := session, |world.grants|;
      Do(Read(id));
      LeadsAcross(old(world), asked, world);
      ghost var read := world;
      Others(id);
      LeadsAcross(old(world), read, world);
    }

    /** Reads the row, and judges the presented secret once the read returned. */
    method ReadAndJudge(ghost id: nat, presented: Secret, ghost attempt: nat)
      returns (verdict: Verdict, seen: Option<Session>, secret: Secret, ghost version: nat)
      requires Valid() && At(id, Reading(presented, attempt))
      modifies this
      ensures Valid() && Leads(old(world), world)
      ensures verdict == Judge(seen, presented, now)
      ensures verdict == Missing ==> At(id, Ended(presented, Rejected))
      ensures verdict == Reuse ==> At(id, Revoking(presented))
      ensures verdict == Accept ==>
                attempt <= 1 && At(id, Swapping(presented, attempt, seen.value, version, secret, now))
    {
      seen, version := ReadRow(id, presented, attempt);
      ghost var read := world;
      verdict := Judge(seen, presented, now);
      secret := NewSecret();
      Decided(world, id, secret);
      Do(Decide(id, secret));
      LeadsAcross(old(world), read, world);
      if verdict == Accept { known := known + {secret}; }
    }

    /** Compare-and-swap of the row that was read; no answer when the swap was lost. */
    method Swap(ghost id: nat, presented: Secret, ghost attempt: nat, seen: Session, secret: Secret, ghost version: nat)
      returns (granted: bool)
      requires Valid() && At(id, Swapping(presented, attempt, seen, version, secret, now))
      modifies this
      ensures Valid() && Leads(old(world), world)
      ensures granted ==> At(id, Ended(presented, Granted(secret))) && Answer(presented, Granted(secret))
      ensures !granted ==> attempt <= 1 && At(id, Reading(presented, attempt + 1))
    {
      var stamp := now;
      Others(id);
      ghost var asked := world;
      Swapped(world, id);
      granted := session.Some? && session.value.current == seen.current;
      Do(Action.Swap(id));
      LeadsAcross(old(world), asked, world);
      if granted { session := Some(Rotated(seen, secret, stamp)); }
    }

    /** What an answer says about the session: its secret is the last one issued, or it is gone. */
    ghost predicate Answer(presented: Secret, outcome: Outcome)
      reads this
    {
      var issued := world.lineage;
      && (outcome.Granted? ==>
            && session.Some? && |issued| >= 2
            && session.value.current == outcome.secret == issued[|issued| - 1]
            && (presented == issued[|issued| - 2] || (|issued| >= 3 && presented == issued[|issued| - 3])))
      && (outcome.Revoked? ==> session.None?)
    }

    /**
     * The bounded retry loop, whatever the other requests do meanwhile, is a run that ends rotation
     * `id` with the answer given. It never falls through: by the third read the presented secret is
     * retired.
     */
    method Rotate(ghost id: nat, presented: Secret) returns (outcome: Outcome)
      requires Valid() && id !in world.rotations
      modifies this
      ensures Valid() && Leads(old(world), world) && At(id, Ended(presented, outcome))
      ensures Answer(presented, outcome) && outcome != Exhausted
    {
      Do(Start(id, presented));
      known := known + {presented};
      var attempt := 0;
      while attempt < MAX_ATTEMPTS
        invariant attempt <= 2 && Valid() && Leads(old(world), world) && At(id, Reading(presented, attempt))
      {
        ghost var before := world;
        var answer := Attempt(id, presented, attempt);
        LeadsAcross(old(world), before, world);
        if answer.Some? { return answer.value; }
        attempt := attempt + 1;
      }
      return Exhausted;
    }

    /** One turn of the loop: an outcome, or nothing when the swap was lost. */
    method Attempt(ghost id: nat, presented: Secret, ghost attempt: nat) returns (outcome: Option<Outcome>)
      requires Valid() && At(id, Reading(presented, attempt))
      modifies this
      ensures Valid() && Leads(old(world), world)
      ensures outcome.None? ==> attempt <= 1 && At(id, Reading(presented, attempt + 1))
      ensures outcome.Some? ==> At(id, Ended(presented, outcome.value)) && outcome.value != Exhausted
      ensures outcome.Some? ==> Answer(presented, outcome.value)
    {
      var verdict, seen, secret, version := ReadAndJudge(id, presented, attempt);
      ghost var judged := world;
      if verdict == Missing { return Some(Rejected); }
      if verdict == Reuse {
        Others(id);
        LeadsAcross(old(world), judged, world);
        ghost var asked := world;
        Do(Delete(id));
        LeadsAcross(old(world), asked, world);
        session := None;
        return Some(Revoked);
      }
      var granted := Swap(id, presented, attempt, seen.value, secret, version);
      LeadsAcross(old(world), judged, world);
      return if granted then Some(Granted(secret)) else None;
    }
  }
}
