/** The activity journal, page by page: a cursor names the last row of a page, the next page starts below it. */
module ActivityPagination {
  import opened Prelude
  import opened ActivityCursor

  const MAX_PAGE := 20

  type UserId = nat

  /** Ids are UUIDs: plain text. */
  type ActivityId = s: string | Plain(s)

  /** What orders the journal. A row never changes its time, its id or its user. */
  type RowKey = k: Key | Plain(k.id) witness Key(0, "")

  datatype Activity = Activity(user: UserId, at: int)

  type Table = map<ActivityId, Activity>

  predicate Below(a: Key, b: Key) {
    a.at < b.at || (a.at == b.at && Before(a.id, b.id))
  }

  lemma BelowIsTotal(a: Key, b: Key)
    ensures !Below(a, a)
    ensures a == b || Below(a, b) || Below(b, a)
  {
    BeforeIsTotal(a.id, b.id);
  }

  lemma BelowIsTransitive(a: Key, b: Key, c: Key)
    requires Below(a, b) && Below(b, c)
    ensures Below(a, c)
  {
    if a.at == b.at == c.at { BeforeIsTransitive(a.id, b.id, c.id); }
  }

  ghost predicate Descending(keys: seq<RowKey>) {
    forall i, j :: 0 <= i < j < |keys| ==> Below(keys[j], keys[i])
  }

  ghost function Highest(keys: set<RowKey>): (high: RowKey)
    requires keys != {}
    ensures high in keys && forall k :: k in keys && k != high ==> Below(k, high)
  {
    var some :| some in keys;
    var rest := keys - {some};
    assert forall k :: k in keys ==> k == some || k in rest;
    if rest == {} then some
    else
      var other := Highest(rest);
      BelowIsTotal(some, other);
      assert Below(other, some) ==> forall k :: k in rest && k != other ==> Below(k, some) by {
        if Below(other, some) {
          forall k | k in rest && k != other ensures Below(k, some) { BelowIsTransitive(k, other, some); }
        }
      }
      if Below(some, other) then other else some
  }

  /** `ORDER BY occurred_at DESC, id DESC` */
  ghost function Ordered(keys: set<RowKey>): (s: seq<RowKey>)
    ensures Descending(s) && |s| == |keys| && forall k :: k in s <==> k in keys
  {
    if keys == {} then []
    else
      var high := Highest(keys);
      [high] + Ordered(keys - {high})
  }

  lemma LaterIsLower(s: seq<RowKey>, k: RowKey)
    requires s != [] && Descending(s)
    ensures k in s[1..] <==> k in s && k != s[0]
    ensures k in s[1..] ==> Below(k, s[0])
  {
    assert s == [s[0]] + s[1..];
    BelowIsTotal(s[0], s[0]);
    if k in s[1..] {
      var j :| 0 <= j < |s[1..]| && s[1..][j] == k;
      assert Below(s[j + 1], s[0]);
    }
  }

  /** There is only one descending order. */
  lemma {:induction false} OnlyOrder(s: seq<RowKey>, t: seq<RowKey>)
    requires Descending(s) && Descending(t) && forall k :: k in s <==> k in t
    ensures s == t
    decreases |s|
  {
    assert t != [] ==> t[0] in t;
    if s != [] {
      SameHead(s, t);
      forall k ensures k in s[1..] <==> k in t[1..] {
        LaterIsLower(s, k);
        LaterIsLower(t, k);
      }
      OnlyOrder(s[1..], t[1..]);
      assert s == [s[0]] + s[1..] && t == [t[0]] + t[1..];
    }
  }

  lemma SameHead(s: seq<RowKey>, t: seq<RowKey>)
    requires Descending(s) && Descending(t) && s != [] && forall k :: k in s <==> k in t
    ensures t != [] && s[0] == t[0]
  {
    assert s[0] in t && t[0] in s;
    LaterIsLower(s, t[0]);
    LaterIsLower(t, s[0]);
    if s[0] != t[0] {
      BelowIsTransitive(s[0], t[0], s[0]);
      BelowIsTotal(s[0], s[0]);
    }
  }

  // ----- One page

  /** No next key on the last page. */
  datatype Page = Page(items: seq<RowKey>, next: Option<RowKey>)

  function Take(limit: int): (take: nat)
    ensures 1 <= take <= MAX_PAGE && (1 <= limit <= MAX_PAGE ==> take == limit)
    ensures (limit < 1 ==> take == 1) && (limit > MAX_PAGE ==> take == MAX_PAGE)
  {
    Min(MAX_PAGE, Max(1, limit))
  }

  predicate Under(key: RowKey, before: Option<Key>) {
    before.Some? ==> Below(key, before.value)
  }

  /** The user's rows below a key. */
  function Matching(table: Table, user: UserId, before: Option<Key>): set<RowKey> {
    set id | id in table && table[id].user == user && Under(Key(table[id].at, id), before) :: Key(table[id].at, id)
  }

  /** One row more than the page is fetched, to know whether there is another page. */
  function PageOf(all: seq<RowKey>, take: nat): Page {
    var rows := if |all| > take + 1 then all[..take + 1] else all;
    var hasMore := |rows| > take;
    var page := if hasMore then rows[..take] else rows;
    Page(page, if hasMore && page != [] then Some(page[|page| - 1]) else None)
  }

  ghost function ListBelow(table: Table, user: UserId, before: Option<Key>, limit: int): Page {
    PageOf(Ordered(Matching(table, user, before)), Take(limit))
  }

  /** The last row of a page that is not the last page. */
  function Last(page: Page): RowKey
    requires page.items != []
  {
    page.items[|page.items| - 1]
  }

  /**
   * The page is the top of the keys in descending order: all of them when there is no next page, else
   * `take` of them, the others lying below its last.
   */
  ghost predicate IsTop(page: Page, keys: set<RowKey>, take: nat) {
    && Descending(page.items)
    && (forall k :: k in page.items ==> k in keys)
    && if page.next.None? then |page.items| <= take && forall k :: k in keys ==> k in page.items
       else
         && |page.items| == take > 0 && page.next == Some(Last(page))
         && |keys| > take
         && forall k :: k in keys && k !in page.items ==> Below(k, Last(page))
  }

  lemma PageOfItems(all: seq<RowKey>, take: nat)
    requires take > 0
    ensures var page := PageOf(all, take);
            && |page.items| == Min(|all|, take)
            && (forall j :: 0 <= j < |page.items| ==> page.items[j] == all[j])
            && page.next == if |all| > take then Some(all[take - 1]) else None
  {
  }

  lemma PageOfOrdered(all: seq<RowKey>, keys: set<RowKey>, take: nat)
    requires Descending(all) && |all| == |keys| && forall k :: k in all <==> k in keys
    requires take > 0
    ensures IsTop(PageOf(all, take), keys, take)
  {
    var page := PageOf(all, take);
    PageOfItems(all, take);
    forall k | k in page.items ensures k in keys {
      var j :| 0 <= j < |page.items| && page.items[j] == k;
      assert all[j] in all;
    }
    forall k | k in keys && k !in page.items ensures |all| > take && Below(k, Last(page)) {
      var i :| 0 <= i < |all| && all[i] == k;
      assert forall j :: 0 <= j < |page.items| ==> page.items[j] in page.items;
    }
  }

  lemma ListIsTop(table: Table, user: UserId, before: Option<Key>, limit: int)
    ensures IsTop(ListBelow(table, user, before, limit), Matching(table, user, before), Take(limit))
  {
    var keys := Matching(table, user, before);
    PageOfOrdered(Ordered(keys), keys, Take(limit));
  }

  // ----- Following the cursor while the journal changes

  /** All items of the pages, each read from the table as it is by then. */
  ghost function Walk(tables: seq<Table>, limits: seq<int>, user: UserId, before: Option<Key>): seq<RowKey>
    requires |limits| == |tables|
    decreases |tables|
  {
    if tables == [] then []
    else
      var page := ListBelow(tables[0], user, before, limits[0]);
      page.items + if page.next.None? then [] else Walk(tables[1..], limits[1..], user, page.next)
  }

  /** The walk met its last page. */
  ghost predicate Ends(tables: seq<Table>, limits: seq<int>, user: UserId, before: Option<Key>)
    requires |limits| == |tables|
    decreases |tables|
  {
    tables != [] &&
    var page := ListBelow(tables[0], user, before, limits[0]);
    page.next.None? || Ends(tables[1..], limits[1..], user, page.next)
  }

  lemma MatchingUnder(table: Table, user: UserId, before: Option<Key>)
    ensures forall k :: k in Matching(table, user, before) ==> Under(k, before)
  {
  }

  lemma Continued(a: seq<RowKey>, b: seq<RowKey>, before: Option<Key>)
    requires Descending(a) && Descending(b) && a != []
    requires forall k :: k in a ==> Under(k, before)
    requires forall k :: k in b ==> Below(k, a[|a| - 1])
    ensures Descending(a + b) && forall k :: k in a + b ==> Under(k, before)
  {
    var last := a[|a| - 1];
    assert last in a;
    forall k, i | k in b && 0 <= i < |a| ensures Below(k, a[i]) {
      if i < |a| - 1 { BelowIsTransitive(k, last, a[i]); }
    }
    forall i, j | 0 <= i < j < |a + b| ensures Below((a + b)[j], (a + b)[i]) {
      if i < |a| <= j { assert b[j - |a|] in b; }
    }
    forall k | k in b ensures Under(k, before) {
      if before.Some? { BelowIsTransitive(k, last, before.value); }
    }
  }

  lemma PageDescends(page: Page, keys: set<RowKey>, take: nat, rest: seq<RowKey>, before: Option<Key>)
    requires IsTop(page, keys, take) && forall k :: k in keys ==> Under(k, before)
    requires page.next.Some? && Descending(rest)
    requires forall k :: k in rest ==> Under(k, page.next)
    ensures Descending(page.items + rest) && forall k :: k in page.items + rest ==> Under(k, before)
  {
    Continued(page.items, rest, before);
  }

  /** Newest first, without repetition, all below the cursor the walk started from. */
  lemma {:induction false} WalkDescends(tables: seq<Table>, limits: seq<int>, user: UserId, before: Option<Key>)
    requires |limits| == |tables|
    ensures var items := Walk(tables, limits, user, before);
            Descending(items) && forall k :: k in items ==> Under(k, before)
    decreases |tables|
  {
    if tables != [] {
      var page := ListBelow(tables[0], user, before, limits[0]);
      ListIsTop(tables[0], user, before, limits[0]);
      MatchingUnder(tables[0], user, before);
      if page.next.Some? {
        var rest := Walk(tables[1..], limits[1..], user, page.next);
        WalkDescends(tables[1..], limits[1..], user, page.next);
        PageDescends(page, Matching(tables[0], user, before), Take(limits[0]), rest, before);
        assert Walk(tables, limits, user, before) == page.items + rest;
      }
    }
  }

  /** The row was there when every page was read. */
  ghost predicate Throughout(tables: seq<Table>, user: UserId, key: RowKey) {
    forall i :: 0 <= i < |tables| ==> key.id in tables[i] && tables[i][key.id] == Activity(user, key.at)
  }

  /** Some page was read while the row was there. */
  ghost predicate Once(tables: seq<Table>, user: UserId, key: RowKey) {
    exists i :: 0 <= i < |tables| && key.id in tables[i] && tables[i][key.id] == Activity(user, key.at)
  }

  /** A walk that ends has shown every row that was there throughout, whatever was added or removed meanwhile. */
  lemma {:induction false} WalkMissesNothing(tables: seq<Table>, limits: seq<int>, user: UserId, before: Option<Key>,
                                             key: RowKey)
    requires |limits| == |tables| && Ends(tables, limits, user, before)
    requires Throughout(tables, user, key) && Under(key, before)
    ensures key in Walk(tables, limits, user, before)
    decreases |tables|
  {
    var page := ListBelow(tables[0], user, before, limits[0]);
    ListIsTop(tables[0], user, before, limits[0]);
    assert key in Matching(tables[0], user, before);
    if page.next.Some? && key !in page.items {
      WalkMissesNothing(tables[1..], limits[1..], user, page.next, key);
    }
  }

  /** Only the user's own rows are shown, each from a moment when it was there. */
  lemma {:induction false} WalkInventsNothing(tables: seq<Table>, limits: seq<int>, user: UserId, before: Option<Key>,
                                              key: RowKey)
    requires |limits| == |tables|
    ensures key in Walk(tables, limits, user, before) ==> Once(tables, user, key)
    decreases |tables|
  {
    if key !in Walk(tables, limits, user, before) { return; }
    ListIsTop(tables[0], user, before, limits[0]);
    var page := ListBelow(tables[0], user, before, limits[0]);
    if key in page.items {
      assert key in Matching(tables[0], user, before);
    } else {
      WalkInventsNothing(tables[1..], limits[1..], user, page.next, key);
      var i :| 0 <= i < |tables[1..]| && key.id in tables[1..][i] && tables[1..][i][key.id] == Activity(user, key.at);
      assert tables[i + 1] == tables[1..][i];
    }
  }

  lemma {:induction false} DescendingOnce(items: seq<RowKey>, key: RowKey)
    requires Descending(items)
    ensures multiset(items)[key] == if key in items then 1 else 0
    decreases |items|
  {
    if items != [] {
      var n := |items| - 1;
      DescendingOnce(items[..n], key);
      assert items == items[..n] + [items[n]];
      if key in items[..n] {
        var i :| 0 <= i < n && items[..n][i] == key;
        assert Below(items[n], items[i]);
        BelowIsTotal(key, key);
      }
    }
  }

  // ----- A journal that does not change

  lemma FewerBelow(table: Table, user: UserId, before: Option<Key>, last: RowKey)
    requires last in Matching(table, user, before)
    ensures |Matching(table, user, Some(last))| < |Matching(table, user, before)|
  {
    var here, next := Matching(table, user, before), Matching(table, user, Some(last));
    BelowIsTotal(last, last);
    forall k | k in next ensures k in here - {last} {
      if before.Some? { BelowIsTransitive(k, last, before.value); }
    }
    SubsetSize(next, here - {last});
  }

  lemma {:induction false} StaticWalkEnds(tables: seq<Table>, limits: seq<int>, user: UserId, before: Option<Key>)
    requires |limits| == |tables| != 0 && forall i :: 0 <= i < |tables| ==> tables[i] == tables[0]
    requires |Matching(tables[0], user, before)| <= |tables|
    ensures Ends(tables, limits, user, before)
    decreases |tables|
  {
    var page := ListBelow(tables[0], user, before, limits[0]);
    ListIsTop(tables[0], user, before, limits[0]);
    if page.next.Some? {
      assert Last(page) in page.items;
      FewerBelow(tables[0], user, before, Last(page));
      StaticWalkEnds(tables[1..], limits[1..], user, page.next);
    }
  }

  lemma StaticWalkIsOrdered(tables: seq<Table>, limits: seq<int>, user: UserId)
    requires |limits| == |tables| != 0 && forall i :: 0 <= i < |tables| ==> tables[i] == tables[0]
    requires |Matching(tables[0], user, None)| <= |tables|
    ensures Ends(tables, limits, user, None)
    ensures Walk(tables, limits, user, None) == Ordered(Matching(tables[0], user, None))
  {
    var items, keys := Walk(tables, limits, user, None), Matching(tables[0], user, None);
    StaticWalkEnds(tables, limits, user, None);
    WalkDescends(tables, limits, user, None);
    forall k ensures k in items <==> k in keys {
      if k in keys { WalkMissesNothing(tables, limits, user, None, k); }
      if k in items { WalkInventsNothing(tables, limits, user, None, k); }
    }
    OnlyOrder(items, Ordered(keys));
  }

  // ----- The service: cursors are text

  datatype Answer = Answer(items: seq<RowKey>, nextCursor: Option<string>)

  ghost function List(dates: Dates, table: Table, user: UserId, cursor: Option<string>, limit: int): Answer
    requires Lawful(dates)
  {
    var page := ListBelow(table, user, DecodeCursor(dates, cursor), limit);
    Answer(page.items, if page.next.Some? then Some(EncodeCursor(dates, page.next.value)) else None)
  }

  /** What a client sees that sends back each cursor until there is none. */
  ghost function Follow(dates: Dates, tables: seq<Table>, limits: seq<int>, user: UserId,
                        cursor: Option<string>): seq<RowKey>
    requires |limits| == |tables| && Lawful(dates)
    decreases |tables|
  {
    if tables == [] then []
    else
      var answer := List(dates, tables[0], user, cursor, limits[0]);
      answer.items
      + if answer.nextCursor.None? then [] else Follow(dates, tables[1..], limits[1..], user, answer.nextCursor)
  }

  ghost predicate Finishes(dates: Dates, tables: seq<Table>, limits: seq<int>, user: UserId, cursor: Option<string>)
    requires |limits| == |tables| && Lawful(dates)
    decreases |tables|
  {
    tables != [] &&
    var answer := List(dates, tables[0], user, cursor, limits[0]);
    answer.nextCursor.None? || Finishes(dates, tables[1..], limits[1..], user, answer.nextCursor)
  }

  /** Nothing is lost in the text: following cursors is the walk over keys, from any text at all. */
  lemma {:induction false} FollowIsWalk(dates: Dates, tables: seq<Table>, limits: seq<int>, user: UserId,
                                        cursor: Option<string>)
    requires |limits| == |tables| && Lawful(dates)
    ensures Follow(dates, tables, limits, user, cursor) == Walk(tables, limits, user, DecodeCursor(dates, cursor))
    ensures Finishes(dates, tables, limits, user, cursor) <==> Ends(tables, limits, user, DecodeCursor(dates, cursor))
    decreases |tables|
  {
    if tables != [] {
      var page := ListBelow(tables[0], user, DecodeCursor(dates, cursor), limits[0]);
      if page.next.Some? {
        CursorRoundTrips(dates, page.next.value);
        FollowIsWalk(dates, tables[1..], limits[1..], user, Some(EncodeCursor(dates, page.next.value)));
      }
    }
  }

  /**
   * A client that follows the cursors to the end sees every row that was there throughout exactly
   * once, newest first, whatever was added or removed meanwhile.
   */
  lemma ShownExactlyOnce(dates: Dates, tables: seq<Table>, limits: seq<int>, user: UserId, key: RowKey)
    requires |limits| == |tables| && Lawful(dates)
    requires Finishes(dates, tables, limits, user, None) && Throughout(tables, user, key)
    ensures Descending(Follow(dates, tables, limits, user, None))
    ensures multiset(Follow(dates, tables, limits, user, None))[key] == 1
  {
    FollowIsWalk(dates, tables, limits, user, None);
    WalkDescends(tables, limits, user, None);
    WalkMissesNothing(tables, limits, user, None, key);
    DescendingOnce(Walk(tables, limits, user, None), key);
  }

  /**
   * On a table that does not change, with any page sizes, as many requests as there are rows list the
   * whole journal, newest first.
   */
  lemma StaticWalkListsAll(dates: Dates, tables: seq<Table>, limits: seq<int>, user: UserId)
    requires |limits| == |tables| != 0 && forall i :: 0 <= i < |tables| ==> tables[i] == tables[0]
    requires |Matching(tables[0], user, None)| <= |tables| && Lawful(dates)
    ensures Finishes(dates, tables, limits, user, None)
    ensures Follow(dates, tables, limits, user, None) == Ordered(Matching(tables[0], user, None))
  {
    FollowIsWalk(dates, tables, limits, user, None);
    StaticWalkIsOrdered(tables, limits, user);
  }
}
