/**
 * The tables behind packages: base words, word details shared between packages, and the learning
 * rows that link a detail to a package. Each function is one committed transaction.
 */
module WordTables {
  import opened Prelude
  import opened SpacedRepetition

  type WordId = nat
  type DetailId = nat
  type PackageId = nat
  type JobId = nat

  /** Unique key of a base word. */
  datatype WordKey = WordKey(word: string, subject: string, language: string)

  datatype Content = Content(kind: string, meaning: string, pronunciation: string, synonyms: string,
                             antonyms: string, example: string, grammar: string)

  datatype Detail = Detail(wordId: WordId, content: Content)

  datatype Link = Link(detail: DetailId, package: PackageId)

  datatype Mode = Private | Protected | Public

  datatype Package = Package(owner: nat, name: string, description: string, mode: Mode, active: bool)

  datatype Db = Db(words: map<WordId, WordKey>, details: map<DetailId, Detail>, learning: map<Link, Level>,
                   packages: map<PackageId, Package>, applied: set<JobId>,
                   nextWord: WordId, nextDetail: DetailId, nextPackage: PackageId)

  const EMPTY := Db(map[], map[], map[], map[], {}, 0, 0, 0)

  /** A line of a package's word list. */
  datatype Entry = Entry(key: WordKey, content: Content, level: Level)

  // ----- Integrity

  ghost predicate WordOk(db: Db, w: WordId) {
    w in db.words ==> w < db.nextWord
  }

  ghost predicate KeyUnique(db: Db, v: WordId, w: WordId) {
    v in db.words && w in db.words && db.words[v] == db.words[w] ==> v == w
  }

  ghost predicate DetailOk(db: Db, d: DetailId) {
    d in db.details ==> d < db.nextDetail && db.details[d].wordId in db.words
  }

  ghost predicate PackageOk(db: Db, p: PackageId) {
    p in db.packages ==> p < db.nextPackage
  }

  ghost predicate LinkOk(db: Db, l: Link) {
    l in db.learning ==> l.detail in db.details && l.package in db.packages
  }

  /** Foreign keys, the unique key on base words, and ids never reused. */
  ghost predicate Sound(db: Db) {
    && (forall w :: WordOk(db, w))
    && (forall v, w :: KeyUnique(db, v, w))
    && (forall d :: DetailOk(db, d))
    && (forall p :: PackageOk(db, p))
    && (forall l :: LinkOk(db, l))
  }

  ghost predicate Referenced(db: Db, d: DetailId) {
    exists p :: Link(d, p) in db.learning
  }

  ghost predicate NoGarbage(db: Db) {
    forall d :: d in db.details ==> Referenced(db, d)
  }

  /** What package `p` shows for detail `d`. */
  function Shows(db: Db, p: PackageId, d: DetailId): Option<Entry> {
    if Link(d, p) in db.learning && d in db.details && db.details[d].wordId in db.words then
      Some(Entry(db.words[db.details[d].wordId], db.details[d].content, db.learning[Link(d, p)]))
    else None
  }

  ghost predicate SameList(before: Db, after: Db, p: PackageId) {
    forall d :: Shows(before, p, d) == Shows(after, p, d)
  }

  // ----- Find or create a base word

  ghost function IdOf(db: Db, key: WordKey): Option<WordId> {
    if w :| w in db.words && db.words[w] == key then Some(w) else None
  }

  /** INSERT ... ON DUPLICATE KEY: the existing id, or a new row. */
  ghost function Upsert(db: Db, key: WordKey): (Db, WordId) {
    match IdOf(db, key)
    case Some(w) => (db, w)
    case None => (db.(words := db.words[db.nextWord := key], nextWord := db.nextWord + 1), db.nextWord)
  }

  /** `after` has the base words of `before`, perhaps more, and is otherwise the same. */
  ghost predicate MoreWords(before: Db, after: Db) {
    && after.(words := before.words, nextWord := before.nextWord) == before
    && before.nextWord <= after.nextWord
    && forall w :: w in before.words ==> w in after.words && after.words[w] == before.words[w]
  }

  lemma MoreWordsShow(before: Db, after: Db, p: PackageId, d: DetailId)
    requires Sound(before) && MoreWords(before, after)
    ensures Shows(after, p, d) == Shows(before, p, d)
  {
    assert DetailOk(before, d);
  }

  lemma MoreWordsSound(before: Db, after: Db)
    requires Sound(before) && MoreWords(before, after)
    requires (forall w :: WordOk(after, w)) && (forall v, w :: KeyUnique(after, v, w))
    ensures Sound(after) && (NoGarbage(before) ==> NoGarbage(after))
  {
    forall d ensures DetailOk(after, d) { assert DetailOk(before, d); }
    forall p ensures PackageOk(after, p) { assert PackageOk(before, p); }
    forall l ensures LinkOk(after, l) { assert LinkOk(before, l); }
    if NoGarbage(before) {
      forall d | d in after.details ensures Referenced(after, d) {
        var p :| Link(d, p) in before.learning;
        assert Link(d, p) in after.learning;
      }
    }
  }

  lemma UpsertFinds(db: Db, key: WordKey)
    requires Sound(db)
    ensures var (after, w) := Upsert(db, key);
            && w in after.words && after.words[w] == key
            && MoreWords(db, after) && Sound(after) && (NoGarbage(db) ==> NoGarbage(after))
  {
    var after := Upsert(db, key).0;
    assert WordOk(db, db.nextWord);
    forall w ensures WordOk(after, w) { assert WordOk(db, w); }
    forall v, w ensures KeyUnique(after, v, w) { assert KeyUnique(db, v, w); }
    MoreWordsSound(db, after);
  }

  // ----- Adding entries

  /** A new detail and its learning row. */
  function AddEntry(db: Db, p: PackageId, detail: Detail, level: Level): Db {
    db.(details := db.details[db.nextDetail := detail],
        learning := db.learning[Link(db.nextDetail, p) := level],
        nextDetail := db.nextDetail + 1)
  }

  lemma AddEntrySound(db: Db, p: PackageId, detail: Detail, level: Level)
    requires Sound(db) && p in db.packages && detail.wordId in db.words
    ensures var after := AddEntry(db, p, detail, level);
            Sound(after) && (NoGarbage(db) ==> NoGarbage(after))
  {
    var after := AddEntry(db, p, detail, level);
    forall w ensures WordOk(after, w) { assert WordOk(db, w); }
    forall v, w ensures KeyUnique(after, v, w) { assert KeyUnique(db, v, w); }
    forall d ensures DetailOk(after, d) { assert DetailOk(db, d); }
    forall q ensures PackageOk(after, q) { assert PackageOk(db, q); }
    forall l ensures LinkOk(after, l) { assert LinkOk(db, l); }
    if NoGarbage(db) {
      forall d | d in after.details ensures Referenced(after, d) {
        if d == db.nextDetail {
          assert Link(d, p) in after.learning;
        } else {
          var q :| Link(d, q) in db.learning;
          assert Link(d, q) in after.learning;
        }
      }
    }
  }

  lemma AddEntryShows(db: Db, p: PackageId, detail: Detail, level: Level, q: PackageId, d: DetailId)
    requires Sound(db) && detail.wordId in db.words
    ensures Shows(AddEntry(db, p, detail, level), q, d)
         == if q == p && d == db.nextDetail then Some(Entry(db.words[detail.wordId], detail.content, level))
            else Shows(db, q, d)
  {
    assert LinkOk(db, Link(d, q)) && DetailOk(db, d);
  }

  datatype NewEntry = NewEntry(detail: Detail, level: Level)

  function AddEntries(db: Db, p: PackageId, entries: seq<NewEntry>): Db
    decreases |entries|
  {
    if entries == [] then db
    else
      var n := |entries| - 1;
      AddEntry(AddEntries(db, p, entries[..n]), p, entries[n].detail, entries[n].level)
  }

  ghost predicate WordsExist(db: Db, entries: seq<NewEntry>) {
    forall i :: 0 <= i < |entries| ==> entries[i].detail.wordId in db.words
  }

  lemma {:induction false} AddEntriesSound(db: Db, p: PackageId, entries: seq<NewEntry>)
    requires Sound(db) && (entries != [] ==> p in db.packages) && WordsExist(db, entries)
    ensures var after := AddEntries(db, p, entries);
            && Sound(after) && (NoGarbage(db) ==> NoGarbage(after))
            && after.words == db.words && after.packages == db.packages && after.applied == db.applied
            && after.nextWord == db.nextWord && after.nextPackage == db.nextPackage
            && after.nextDetail == db.nextDetail + |entries|
    decreases |entries|
  {
    if entries != [] {
      var n := |entries| - 1;
      AddEntriesSound(db, p, entries[..n]);
      AddEntrySound(AddEntries(db, p, entries[..n]), p, entries[n].detail, entries[n].level);
    }
  }

  /** The package gains exactly the new entries, in order, on fresh details; nothing else moves. */
  lemma {:induction false} AddEntriesShows(db: Db, p: PackageId, entries: seq<NewEntry>, q: PackageId, d: DetailId)
    requires Sound(db) && (entries != [] ==> p in db.packages) && WordsExist(db, entries)
    ensures Shows(AddEntries(db, p, entries), q, d)
         == if q == p && db.nextDetail <= d < db.nextDetail + |entries| then
              var e := entries[d - db.nextDetail];
              Some(Entry(db.words[e.detail.wordId], e.detail.content, e.level))
            else Shows(db, q, d)
    decreases |entries|
  {
    if entries != [] {
      var n := |entries| - 1;
      AddEntriesSound(db, p, entries[..n]);
      AddEntriesShows(db, p, entries[..n], q, d);
      AddEntryShows(AddEntries(db, p, entries[..n]), p, entries[n].detail, entries[n].level, q, d);
    }
  }

  // ----- addWords

  datatype NewWord = NewWord(key: WordKey, content: Content, level: Option<Level>)

  // ----- The order in which base words are locked

  /** A character of a JSON string literal. */
  function EscapedChar(c: char): string {
    if c == '"' then "\\\""
    else if c == '\\' then "\\\\"
    else if c == '\n' then "\\n"
    else if c == '\r' then "\\r"
    else if c == '\t' then "\\t"
    else if c as int == 8 then "\\b"
    else if c as int == 12 then "\\f"
    else if c < ' ' then "\\u00" + [if c as int < 16 then '0' else '1', HexChar(c as int % 16)]
    else [c]
  }

  function HexChar(n: nat): char
    requires n < 16
  {
    if n < 10 then '0' + n as char else 'a' + (n - 10) as char
  }

  /** The rest of a string literal, its closing quote, and what follows it. */
  function Quoted(s: string, next: string): string
    decreases |s|
  {
    if s == "" then "\"" + next else EscapedChar(s[0]) + Quoted(s[1..], next)
  }

  /** `JSON.stringify([word, subject, language_code])` */
  function KeyText(key: WordKey): string {
    "[\"" + Quoted(key.word, ",\"" + Quoted(key.subject, ",\"" + Quoted(key.language, "]")))
  }

  /** No escaped character is the beginning of another. */
  lemma EscapedCharApart(c: char, d: char, x: string, y: string)
    requires EscapedChar(c) + x == EscapedChar(d) + y
    ensures c == d && x == y
  {
    var a, b := EscapedChar(c) + x, EscapedChar(d) + y;
    assert a[0] == EscapedChar(c)[0] && b[0] == EscapedChar(d)[0];
    if |EscapedChar(c)| > 1 && |EscapedChar(d)| > 1 {
      assert a[1] == EscapedChar(c)[1] && b[1] == EscapedChar(d)[1];
      if a[1] == 'u' {
        assert a[4] == EscapedChar(c)[4] && b[4] == EscapedChar(d)[4];
        assert a[5] == EscapedChar(c)[5] && b[5] == EscapedChar(d)[5];
        HexCharApart(c as int % 16, d as int % 16);
      }
    }
    assert c == d;
    assert x == a[|EscapedChar(c)|..] == b[|EscapedChar(d)|..] == y;
  }

  lemma HexCharApart(m: nat, n: nat)
    requires m < 16 && n < 16 && HexChar(m) == HexChar(n)
    ensures m == n
  {
  }

  lemma QuotedHead(s: string, next: string)
    ensures Quoted(s, next) != "" && (Quoted(s, next)[0] == '"' <==> s == "")
  {
    if s != "" { assert Quoted(s, next)[0] == EscapedChar(s[0])[0]; }
  }

  /** A quoted text ends where its closing quote is, and tells the text. */
  lemma {:induction false} QuotedApart(s: string, t: string, x: string, y: string)
    requires Quoted(s, x) == Quoted(t, y)
    ensures s == t && x == y
    decreases |s|
  {
    QuotedHead(s, x);
    QuotedHead(t, y);
    if s == "" {
      assert x == Quoted(s, x)[1..] && y == Quoted(t, y)[1..];
    } else {
      EscapedCharApart(s[0], t[0], Quoted(s[1..], x), Quoted(t[1..], y));
      QuotedApart(s[1..], t[1..], x, y);
      assert s == [s[0]] + s[1..] && t == [t[0]] + t[1..];
    }
  }

  /** Different base words have different texts, so the order is total. */
  lemma KeyTextTells(k: WordKey, l: WordKey)
    requires KeyText(k) == KeyText(l)
    ensures k == l
  {
    var k3, l3 := Quoted(k.language, "]"), Quoted(l.language, "]");
    var k2, l2 := Quoted(k.subject, ",\"" + k3), Quoted(l.subject, ",\"" + l3);
    var k1, l1 := Quoted(k.word, ",\"" + k2), Quoted(l.word, ",\"" + l2);
    SamePrefix("[\"", k1, l1);
    QuotedApart(k.word, l.word, ",\"" + k2, ",\"" + l2);
    SamePrefix(",\"", k2, l2);
    QuotedApart(k.subject, l.subject, ",\"" + k3, ",\"" + l3);
    SamePrefix(",\"", k3, l3);
    QuotedApart(k.language, l.language, "]", "]");
  }

  lemma SamePrefix(p: string, x: string, y: string)
    requires p + x == p + y
    ensures x == y
  {
    assert x == (p + x)[|p|..] == (p + y)[|p|..] == y;
  }

  ghost predicate InOrder(keys: seq<WordKey>) {
    forall i, j :: 0 <= i < j < |keys| ==> keys[i] != keys[j] && !Before(KeyText(keys[j]), KeyText(keys[i]))
  }

  /** Adds a key in its place, once. */
  function InsertKey(key: WordKey, keys: seq<WordKey>): (r: seq<WordKey>)
    ensures forall k :: k in r <==> k == key || k in keys
    decreases |keys|
  {
    if keys == [] then [key]
    else if keys[0] == key then keys
    else if Before(KeyText(key), KeyText(keys[0])) && key !in keys then [key] + keys
    else
      assert keys == [keys[0]] + keys[1..];
      [keys[0]] + InsertKey(key, keys[1..])
  }

  /** The distinct base words of a list, sorted by their text. */
  function SortedKeys(words: seq<NewWord>): (keys: seq<WordKey>)
    ensures forall key :: key in keys <==> exists i :: 0 <= i < |words| && words[i].key == key
    decreases |words|
  {
    if words == [] then []
    else
      var n := |words| - 1;
      assert words == words[..n] + [words[n]];
      InsertKey(words[n].key, SortedKeys(words[..n]))
  }

  lemma ConsInOrder(key: WordKey, rest: seq<WordKey>)
    requires InOrder(rest)
    requires forall k :: k in rest ==> k != key && !Before(KeyText(k), KeyText(key))
    ensures InOrder([key] + rest)
  {
    var keys := [key] + rest;
    forall i, j | 0 <= i < j < |keys| ensures keys[i] != keys[j] && !Before(KeyText(keys[j]), KeyText(keys[i])) {
      assert keys[j] in rest;
      if i > 0 { assert keys[i] == rest[i - 1] && keys[j] == rest[j - 1]; }
    }
  }

  lemma TailInOrder(keys: seq<WordKey>)
    requires keys != [] && InOrder(keys)
    ensures InOrder(keys[1..])
    ensures forall k :: k in keys[1..] ==> k != keys[0] && !Before(KeyText(k), KeyText(keys[0]))
  {
    forall k | k in keys[1..] ensures k != keys[0] && !Before(KeyText(k), KeyText(keys[0])) {
      var j :| 0 <= j < |keys[1..]| && keys[1..][j] == k;
      assert keys[j + 1] == k;
    }
  }

  lemma {:induction false} InsertInOrder(key: WordKey, keys: seq<WordKey>)
    requires InOrder(keys)
    ensures InOrder(InsertKey(key, keys))
    decreases |keys|
  {
    if keys != [] && keys[0] != key {
      TailInOrder(keys);
      if Before(KeyText(key), KeyText(keys[0])) && key !in keys {
        forall k | k in keys ensures k != key && !Before(KeyText(k), KeyText(key)) {
          NotAfterHead(key, keys, k);
        }
        ConsInOrder(key, keys);
      } else {
        InsertInOrder(key, keys[1..]);
        ConsInOrder(keys[0], InsertKey(key, keys[1..]));
      }
    }
  }

  lemma NotAfterHead(key: WordKey, keys: seq<WordKey>, k: WordKey)
    requires keys != [] && InOrder(keys) && k in keys && Before(KeyText(key), KeyText(keys[0]))
    ensures !Before(KeyText(k), KeyText(key))
  {
    TailInOrder(keys);
    BeforeIsTotal(KeyText(keys[0]), KeyText(keys[0]));
    assert keys == [keys[0]] + keys[1..];
    if Before(KeyText(k), KeyText(key)) {
      BeforeIsTransitive(KeyText(k), KeyText(key), KeyText(keys[0]));
    }
  }

  lemma {:induction false} SortedInOrder(words: seq<NewWord>)
    ensures InOrder(SortedKeys(words))
    decreases |words|
  {
    if words != [] {
      var n := |words| - 1;
      SortedInOrder(words[..n]);
      InsertInOrder(words[n].key, SortedKeys(words[..n]));
    }
  }

  lemma SamePlaces(a: seq<WordKey>, b: seq<WordKey>, i: nat, j: nat, k: nat, l: nat)
    requires InOrder(a) && InOrder(b) && i < |a| && j < |a| && k < |b| && l < |b|
    requires a[i] == b[k] && a[j] == b[l] && a[i] != a[j]
    ensures i < j <==> k < l
  {
    if KeyText(a[i]) == KeyText(a[j]) { KeyTextTells(a[i], a[j]); }
    BeforeIsTotal(KeyText(a[i]), KeyText(a[j]));
  }

  /** Key `x` is upserted before key `y`. */
  ghost predicate Earlier(words: seq<NewWord>, x: WordKey, y: WordKey) {
    exists i, j :: 0 <= i < j < |SortedKeys(words)| && SortedKeys(words)[i] == x && SortedKeys(words)[j] == y
  }

  /** Two imports that share two base words upsert them in the same order, whatever else they hold. */
  lemma SameLockOrder(words: seq<NewWord>, others: seq<NewWord>, x: WordKey, y: WordKey)
    requires x != y
    ensures Earlier(words, x, y) && x in SortedKeys(others) && y in SortedKeys(others) ==> Earlier(others, x, y)
  {
    SortedInOrder(words);
    SortedInOrder(others);
    var a, b := SortedKeys(words), SortedKeys(others);
    if Earlier(words, x, y) && x in b && y in b {
      var i, j :| 0 <= i < j < |a| && a[i] == x && a[j] == y;
      var k :| 0 <= k < |b| && b[k] == x;
      var l :| 0 <= l < |b| && b[l] == y;
      SamePlaces(a, b, i, j, k, l);
    }
  }

  ghost function UpsertKeys(db: Db, keys: seq<WordKey>): Db
    decreases |keys|
  {
    if keys == [] then db
    else Upsert(UpsertKeys(db, keys[..|keys| - 1]), keys[|keys| - 1]).0
  }

  /** Each distinct base word once, in sorted order. */
  ghost function UpsertAll(db: Db, words: seq<NewWord>): Db {
    UpsertKeys(db, SortedKeys(words))
  }

  ghost predicate KeysExist(db: Db, words: seq<NewWord>) {
    forall i :: 0 <= i < |words| ==> IdOf(db, words[i].key).Some?
  }

  lemma {:induction false} UpsertKeysFinds(db: Db, keys: seq<WordKey>)
    requires Sound(db)
    ensures var after := UpsertKeys(db, keys);
            && MoreWords(db, after) && Sound(after) && (NoGarbage(db) ==> NoGarbage(after))
            && forall key :: key in keys ==> IdOf(after, key).Some?
    decreases |keys|
  {
    if keys != [] {
      var n := |keys| - 1;
      var before, after := UpsertKeys(db, keys[..n]), UpsertKeys(db, keys);
      UpsertKeysFinds(db, keys[..n]);
      UpsertFinds(before, keys[n]);
      forall key | key in keys ensures IdOf(after, key).Some? {
        assert key in keys[..n] || key == keys[n] by { assert keys == keys[..n] + [keys[n]]; }
        var w := if key in keys[..n] then IdOf(before, key).value else Upsert(before, keys[n]).1;
        assert w in after.words && after.words[w] == key;
      }
    }
  }

  lemma UpsertAllFinds(db: Db, words: seq<NewWord>)
    requires Sound(db)
    ensures var after := UpsertAll(db, words);
            && MoreWords(db, after) && Sound(after) && (NoGarbage(db) ==> NoGarbage(after))
            && KeysExist(after, words)
  {
    UpsertKeysFinds(db, SortedKeys(words));
  }

  /** The details to create once every base word exists. A missing level is `x`. */
  ghost function Entries(db: Db, words: seq<NewWord>): (entries: seq<NewEntry>)
    requires KeysExist(db, words)
    ensures |entries| == |words|
    ensures forall i :: 0 <= i < |words| ==>
      entries[i] == NewEntry(Detail(IdOf(db, words[i].key).value, words[i].content), words[i].level.GetOr(X))
  {
    seq(|words|, i requires 0 <= i < |words| =>
      NewEntry(Detail(IdOf(db, words[i].key).value, words[i].content), words[i].level.GetOr(X)))
  }

  datatype AddOutcome = Added(count: nat) | AlreadyApplied(count: nat) | RolledBack

  function Record(db: Db, job: Option<JobId>): Db {
    if job.Some? then db.(applied := db.applied + {job.value}) else db
  }

  /** The transaction of `addWords`: a job already recorded saves nothing, a missing package rolls back. */
  ghost function AddWords(db: Db, p: PackageId, words: seq<NewWord>, job: Option<JobId>): (Db, AddOutcome)
    requires Sound(db)
  {
    if job.Some? && job.value in db.applied then (db, AlreadyApplied(|words|))
    else if p !in db.packages && words != [] then (db, RolledBack)
    else
      RecordSound(db, job);
      UpsertAllFinds(Record(db, job), words);
      var keyed := UpsertAll(Record(db, job), words);
      (AddEntries(keyed, p, Entries(keyed, words)), Added(|words|))
  }

  lemma RecordSound(db: Db, job: Option<JobId>)
    requires Sound(db)
    ensures Sound(Record(db, job)) && (NoGarbage(db) ==> NoGarbage(Record(db, job)))
    ensures forall p :: SameList(db, Record(db, job), p)
  {
    var after := Record(db, job);
    forall w ensures WordOk(after, w) { assert WordOk(db, w); }
    forall v, w ensures KeyUnique(after, v, w) { assert KeyUnique(db, v, w); }
    forall d ensures DetailOk(after, d) { assert DetailOk(db, d); }
    forall q ensures PackageOk(after, q) { assert PackageOk(db, q); }
    forall l ensures LinkOk(after, l) { assert LinkOk(db, l); }
    if NoGarbage(db) {
      forall d | d in after.details ensures Referenced(after, d) {
        var q :| Link(d, q) in db.learning;
        assert Link(d, q) in after.learning;
      }
    }
  }

  lemma AddWordsSound(db: Db, p: PackageId, words: seq<NewWord>, job: Option<JobId>)
    requires Sound(db)
    ensures var (after, outcome) := AddWords(db, p, words, job);
            && Sound(after) && (NoGarbage(db) ==> NoGarbage(after))
            && after.applied == (if outcome.Added? then Record(db, job).applied else db.applied)
  {
    if AddWords(db, p, words, job).1.Added? {
      RecordSound(db, job);
      UpsertAllFinds(Record(db, job), words);
      var keyed := UpsertAll(Record(db, job), words);
      AddEntriesSound(keyed, p, Entries(keyed, words));
    }
  }

  /** The base words of the submission are found or created, and no list changes yet. */
  lemma KeyedShows(db: Db, words: seq<NewWord>, job: Option<JobId>, q: PackageId, d: DetailId)
    requires Sound(db)
    ensures var keyed := UpsertAll(Record(db, job), words);
            Sound(keyed) && KeysExist(keyed, words) && keyed.packages == db.packages
            && keyed.nextDetail == db.nextDetail && Shows(keyed, q, d) == Shows(db, q, d)
  {
    RecordSound(db, job);
    assert SameList(db, Record(db, job), q);
    UpsertAllFinds(Record(db, job), words);
    MoreWordsShow(Record(db, job), UpsertAll(Record(db, job), words), q, d);
  }

  /** Each new detail points at the base word that was submitted. */
  lemma EntriesKeyed(db: Db, words: seq<NewWord>)
    requires KeysExist(db, words)
    ensures forall i :: 0 <= i < |words| ==>
      var w := Entries(db, words)[i].detail.wordId; w in db.words && db.words[w] == words[i].key
  {
    forall i | 0 <= i < |words|
      ensures var w := Entries(db, words)[i].detail.wordId; w in db.words && db.words[w] == words[i].key
    {
      assert IdOf(db, words[i].key).Some?;
    }
  }

  lemma EntriesShow(db: Db, p: PackageId, words: seq<NewWord>, q: PackageId, d: DetailId)
    requires Sound(db) && KeysExist(db, words) && (words != [] ==> p in db.packages)
    ensures Shows(AddEntries(db, p, Entries(db, words)), q, d)
         == if q == p && db.nextDetail <= d < db.nextDetail + |words| then
              var w := words[d - db.nextDetail];
              Some(Entry(w.key, w.content, w.level.GetOr(X)))
            else Shows(db, q, d)
  {
    EntriesKeyed(db, words);
    AddEntriesShows(db, p, Entries(db, words), q, d);
  }

  /** The package gains exactly the submitted words, in order; no other list changes. */
  lemma AddWordsShows(db: Db, p: PackageId, words: seq<NewWord>, job: Option<JobId>, q: PackageId, d: DetailId)
    requires Sound(db)
    ensures var (after, outcome) := AddWords(db, p, words, job);
            Shows(after, q, d)
            == if outcome.Added? && q == p && db.nextDetail <= d < db.nextDetail + |words| then
                 var w := words[d - db.nextDetail];
                 Some(Entry(w.key, w.content, w.level.GetOr(X)))
               else Shows(db, q, d)
  {
    if AddWords(db, p, words, job).1.Added? {
      KeyedShows(db, words, job, q, d);
      EntriesShow(UpsertAll(Record(db, job), words), p, words, q, d);
    }
  }
}
