/**
 * The word and package services over the tables: each method runs one request, and runs of their
 * transactions keep the shared store consistent.
 */
module WordStore {
  import opened Prelude
  import opened SpacedRepetition
  import opened WordTables
  import opened WordSharing

  class Store {
    var words: map<WordId, WordKey>
    var details: map<DetailId, Detail>
    var learning: map<Link, Level>
    var packages: map<PackageId, Package>
    var applied: set<JobId>
    var nextWord: WordId
    var nextDetail: DetailId
    var nextPackage: PackageId

    ghost function Tables(): Db
      reads this
    {
      Db(words, details, learning, packages, applied, nextWord, nextDetail, nextPackage)
    }

    constructor ()
      ensures Tables() == EMPTY && Sound(Tables()) && NoGarbage(Tables())
    {
      words, details, learning, packages, applied := map[], map[], map[], map[], {};
      nextWord, nextDetail, nextPackage := 0, 0, 0;
    }

    method UpsertWord(key: WordKey) returns (id: WordId)
      requires Sound(Tables())
      modifies this
      ensures (Tables(), id) == Upsert(old(Tables()), key)
    {
      if w :| w in words && words[w] == key {
        assert forall v :: v in words && words[v] == key ==> KeyUnique(Tables(), v, w);
        id := w;
      } else {
        id := nextWord;
        words, nextWord := words[nextWord := key], nextWord + 1;
      }
    }

    /** Upserts each distinct base word once, in sorted order. */
    method UpsertWords(list: seq<NewWord>) returns (ids: map<WordKey, WordId>)
      requires Sound(Tables())
      modifies this
      ensures Tables() == UpsertAll(old(Tables()), list) && Sound(Tables())
      ensures KeysExist(Tables(), list)
      ensures forall i :: 0 <= i < |list| ==>
        list[i].key in ids && ids[list[i].key] == IdOf(Tables(), list[i].key).value
    {
      ids := UpsertDistinct(SortedKeys(list));
      UpsertAllFinds(old(Tables()), list);
      forall i | 0 <= i < |list| ensures list[i].key in ids && IdOf(Tables(), list[i].key) == Some(ids[list[i].key]) {
        assert list[i].key in SortedKeys(list);
        IdFound(Tables(), list[i].key, ids[list[i].key]);
      }
    }

    method UpsertDistinct(distinct: seq<WordKey>) returns (ids: map<WordKey, WordId>)
      requires Sound(Tables())
      modifies this
      ensures Tables() == UpsertKeys(old(Tables()), distinct) && Sound(Tables())
      ensures forall key :: key in distinct ==> key in ids
      ensures forall key :: key in ids ==> ids[key] in words && words[ids[key]] == key
    {
      ids := map[];
      for i := 0 to |distinct|
        invariant Sound(Tables()) && Tables() == UpsertKeys(old(Tables()), distinct[..i])
        invariant forall key :: key in ids ==> ids[key] in words && words[ids[key]] == key
        invariant forall k :: 0 <= k < i ==> distinct[k] in ids
      {
        assert distinct[..i + 1][..i] == distinct[..i];
        UpsertFinds(Tables(), distinct[i]);
        var id := UpsertWord(distinct[i]);
        ids := ids[distinct[i] := id];
      }
      assert distinct[..|distinct|] == distinct;
    }

    /** A new detail and its learning row. */
    method CreateEntry(p: PackageId, detail: Detail, level: Level)
      modifies this
      ensures Tables() == AddEntry(old(Tables()), p, detail, level)
    {
      details := details[nextDetail := detail];
      learning := learning[Link(nextDetail, p) := level];
      nextDetail := nextDetail + 1;
    }

    /** `addWords` up to its commit. A foreign key on a missing package rolls everything back. */
    method AddWords(p: PackageId, list: seq<NewWord>, job: Option<JobId>) returns (outcome: AddOutcome)
      requires Sound(Tables())
      modifies this
      ensures (Tables(), outcome) == WordTables.AddWords(old(Tables()), p, list, job)
    {
      if job.Some? && job.value in applied { return AlreadyApplied(|list|); }
      if p !in packages && list != [] { return RolledBack; }
      ghost var before := Tables();
      RecordSound(before, job);
      if job.Some? { applied := applied + {job.value}; }
      UpsertAllFinds(Record(before, job), list);
      var ids := UpsertWords(list);
      var successCount := CreateEntries(p, list, ids);
      return Added(successCount);
    }

    method CreateEntries(p: PackageId, list: seq<NewWord>, ids: map<WordKey, WordId>) returns (successCount: nat)
      requires KeysExist(Tables(), list)
      requires forall i :: 0 <= i < |list| ==>
                 list[i].key in ids && ids[list[i].key] == IdOf(Tables(), list[i].key).value
      modifies this
      ensures successCount == |list|
      ensures Tables() == AddEntries(old(Tables()), p, Entries(old(Tables()), list))
    {
      ghost var entries := Entries(Tables(), list);
      successCount := 0;
      for i := 0 to |list|
        invariant successCount == i
        invariant Tables() == AddEntries(old(Tables()), p, entries[..i])
      {
        assert entries[..i + 1][..i] == entries[..i];
        CreateEntry(p, Detail(ids[list[i].key], list[i].content), list[i].level.GetOr(X));
        successCount := successCount + 1;
      }
      assert entries[..|list|] == entries;
    }

    /** The base word an edit points the detail at, when it changes. */
    method KeyWord(seenKey: WordKey, patch: Patch) returns (word: Option<WordId>)
      requires Sound(Tables())
      modifies this
      ensures (Tables(), word) == Keyed(old(Tables()), seenKey, patch)
    {
      if NewKey(patch, seenKey) == seenKey { return None; }
      var id := UpsertWord(NewKey(patch, seenKey));
      return Some(id);
    }

    /** The edit of the details, up to the first statement that fails. */
    method EditRows(p: PackageId, d: DetailId, seen: Detail, seenKey: WordKey, patch: Patch)
      returns (target: Option<DetailId>)
      requires Sound(Tables())
      modifies this
      ensures match EditDetail(old(Tables()), p, d, seen, seenKey, patch)
              case None => target.None?
              case Some((edited, id)) => target == Some(id) && Tables() == edited
    {
      var word := KeyWord(seenKey, patch);
      if !Edits(patch, seenKey) { return Some(d); }
      var refs := set l | l in learning && l.detail == d;
      assert refs == Refs(Tables(), d);
      if |refs| > 1 {
        if Link(d, p) !in learning { return None; }
        var clone, level := nextDetail, learning[Link(d, p)];
        details := details[clone := Edited(seen, word, patch)];
        learning := (learning - {Link(d, p)})[Link(clone, p) := level];
        nextDetail := nextDetail + 1;
        return Some(clone);
      }
      if d !in details { return None; }
      details := details[d := Edited(details[d], word, patch)];
      return Some(d);
    }

    /** The transaction of `updateWord` on the row and base word read before it; nothing when it rolls back. */
    method UpdateTransaction(p: PackageId, d: DetailId, seen: Detail, seenKey: WordKey, patch: Patch)
      returns (target: Option<DetailId>)
      requires Sound(Tables())
      modifies this
      ensures match Update(old(Tables()), p, d, seen, seenKey, patch)
              case None => target.None? && Tables() == old(Tables())
              case Some((after, id)) => target == Some(id) && Tables() == after
    {
      var words0, details0, learning0, packages0, applied0 := words, details, learning, packages, applied;
      var nextWord0, nextDetail0, nextPackage0 := nextWord, nextDetail, nextPackage;
      target := EditRows(p, d, seen, seenKey, patch);
      if target.Some? && patch.level.Some? {
        if Link(target.value, p) in learning {
          learning := learning[Link(target.value, p) := patch.level.value];
        } else {
          target := None;
        }
      }
      if target.None? {
        words, details, learning, packages, applied := words0, details0, learning0, packages0, applied0;
        nextWord, nextDetail, nextPackage := nextWord0, nextDetail0, nextPackage0;
      }
    }

    /** `updateWord` when nothing commits between its read and its transaction. */
    method UpdateWord(p: PackageId, d: DetailId, patch: Patch) returns (target: Option<DetailId>)
      requires Sound(Tables())
      modifies this
      ensures target.None? <==> Link(d, p) !in old(learning)
      ensures target.None? ==> Tables() == old(Tables())
      ensures target.Some? ==>
        && d in old(details) && old(details)[d].wordId in old(words)
        && Update(old(Tables()), p, d, old(details)[d], old(words)[old(details)[d].wordId], patch)
             == Some((Tables(), target.value))
    {
      if Link(d, p) !in learning { return None; }
      assert LinkOk(Tables(), Link(d, p)) && DetailOk(Tables(), d);
      KeyedFinds(Tables(), words[details[d].wordId], patch);
      target := UpdateTransaction(p, d, details[d], words[details[d].wordId], patch);
    }

    method DeleteOrphanDetails(ids: set<DetailId>)
      modifies this`details
      ensures Tables() == DeleteOrphans(old(Tables()), ids)
    {
      var kept := set l | l in learning :: l.detail;
      assert forall d :: d in kept <==> Referenced(Tables(), d) by {
        forall d | Referenced(Tables(), d) ensures d in kept {
          var p :| Link(d, p) in learning;
          assert Link(d, p).detail == d;
        }
        forall d | d in kept ensures Referenced(Tables(), d) {
          var l :| l in learning && l.detail == d;
          assert l == Link(d, l.package);
        }
      }
      details := map d | d in details && (d in ids ==> d in kept) :: details[d];
    }

    method DeleteWord(p: PackageId, d: DetailId) returns (deleted: bool)
      modifies this
      ensures deleted <==> WordSharing.DeleteWord(old(Tables()), p, d).Some?
      ensures Tables() == WordSharing.DeleteWord(old(Tables()), p, d).GetOr(old(Tables()))
    {
      if Link(d, p) !in learning { return false; }
      learning := learning - {Link(d, p)};
      DeleteOrphanDetails({d});
      return true;
    }

    /** The transaction of `deleteAllWords` on the details read before it. */
    method DeleteAllTransaction(p: PackageId, ids: set<DetailId>)
      modifies this
      ensures Tables() == DeleteAll(old(Tables()), p, ids)
    {
      var links := set l | l in learning && l.package == p;
      learning := learning - links;
      DeleteOrphanDetails(ids);
    }

    /** `deleteAllWords` when nothing commits between its read and its transaction; an empty package runs none. */
    method DeleteAllWords(p: PackageId) returns (count: nat)
      requires Sound(Tables())
      modifies this
      ensures count == |DetailsOf(old(Tables()), p)|
      ensures Tables() == DeleteAll(old(Tables()), p, DetailsOf(old(Tables()), p))
    {
      var ids := set l | l in learning && l.package == p :: l.detail;
      if ids == {} {
        NothingToDelete(Tables(), p);
        return 0;
      }
      DeleteAllTransaction(p, ids);
      return |ids|;
    }

    method DeletePackage(p: PackageId) returns (deleted: bool)
      modifies this
      ensures deleted <==> DropPackage(old(Tables()), p).Some?
      ensures Tables() == DropPackage(old(Tables()), p).GetOr(old(Tables()))
    {
      if p !in packages { return false; }
      var ids := set l | l in learning && l.package == p :: l.detail;
      var links := set l | l in learning && l.package == p;
      packages, learning := packages - {p}, learning - links;
      DeleteOrphanDetails(ids);
      return true;
    }

    /** The transaction of `copyPublicPackage` on the details read before it. */
    method CopyTransaction(created: Package, snapshot: seq<Detail>) returns (copy: PackageId)
      modifies this
      ensures Tables() == Copy(old(Tables()), created, snapshot) && copy == old(nextPackage)
    {
      copy := nextPackage;
      packages, nextPackage := packages[nextPackage := created], nextPackage + 1;
      ghost var before, clones := Tables(), Clones(snapshot);
      for i := 0 to |snapshot|
        invariant Tables() == AddEntries(before, copy, clones[..i])
      {
        assert clones[..i + 1][..i] == clones[..i];
        CreateEntry(copy, snapshot[i], X);
      }
      assert clones[..|snapshot|] == clones;
    }

    /** The details a package lists, in some order. */
    method ReadDetails(p: PackageId) returns (ids: seq<DetailId>, snapshot: seq<Detail>)
      requires Sound(Tables())
      ensures ReadOf(Tables(), p, ids, snapshot)
    {
      ids, snapshot := [], [];
      var left := set l | l in learning && l.package == p;
      while left != {}
        invariant left <= LinksOf(Tables(), p) && |ids| == |snapshot|
        invariant forall d :: Link(d, p) in learning <==> d in ids || Link(d, p) in left
        invariant forall i :: 0 <= i < |ids| ==> Link(ids[i], p) !in left
        invariant forall i, j :: 0 <= i < j < |ids| ==> ids[i] != ids[j]
        invariant forall i :: 0 <= i < |ids| ==> ids[i] in details && details[ids[i]] == snapshot[i]
      {
        var l :| l in left;
        assert l == Link(l.detail, p) && LinkOk(Tables(), l);
        ids, snapshot := ids + [l.detail], snapshot + [details[l.detail]];
        left := left - {l};
      }
    }

    /** `copyPublicPackage` when nothing commits between its reads and its transaction. */
    method CopyPublicPackage(p: PackageId, user: nat)
      returns (answer: CopyAnswer, ghost ids: seq<DetailId>, ghost snapshot: seq<Detail>)
      requires Sound(Tables())
      modifies this
      ensures answer == NotFound <==> p !in old(packages)
      ensures answer == NotPublic <==> p in old(packages) && old(packages)[p].mode != Public
      ensures !answer.Copied? ==> Tables() == old(Tables())
      ensures answer.Copied? ==>
                && ReadOf(old(Tables()), p, ids, snapshot)
                && Tables() == Copy(old(Tables()), CopiedPackage(old(packages)[p], user), snapshot)
                && answer.package == old(nextPackage)
    {
      ids, snapshot := [], [];
      if p !in packages { return NotFound, ids, snapshot; }
      if packages[p].mode != Public { return NotPublic, ids, snapshot; }
      var read, rows := ReadDetails(p);
      ids, snapshot := read, rows;
      var copy := CopyTransaction(CopiedPackage(packages[p], user), rows);
      answer := Copied(copy);
    }
  }

  lemma IdFound(db: Db, key: WordKey, id: WordId)
    requires Sound(db) && id in db.words && db.words[id] == key
    ensures IdOf(db, key) == Some(id)
  {
    assert forall v :: v in db.words && db.words[v] == key ==> KeyUnique(db, v, id);
  }

  function DetailsOf(db: Db, p: PackageId): set<DetailId> {
    set l | l in db.learning && l.package == p :: l.detail
  }

  lemma NothingToDelete(db: Db, p: PackageId)
    requires DetailsOf(db, p) == {}
    ensures DeleteAll(db, p, {}) == db
  {
    forall l | l in db.learning ensures l !in LinksOf(db, p) {
      assert l.package == p ==> l.detail in DetailsOf(db, p);
    }
    assert db.learning - LinksOf(db, p) == db.learning;
    assert DeleteAll(db, p, {}).details == db.details;
  }

  datatype CopyAnswer = Copied(package: PackageId) | NotFound | NotPublic

  // ----- Runs of transactions

  /** A committed request, with whatever it read beforehand. */
  datatype Transaction =
    | Create(created: Package)
    | Add(package: PackageId, words: seq<NewWord>, job: Option<JobId>)
    | Edit(package: PackageId, detail: DetailId, seen: Detail, seenKey: WordKey, patch: Patch)
    | Remove(package: PackageId, detail: DetailId)
    | RemoveAll(package: PackageId, ids: set<DetailId>)
    | Drop(package: PackageId)
    | CopyOf(copied: Package, snapshot: seq<Detail>)

  /** The state after a transaction; one that rolls back changes nothing. */
  ghost function Commit(db: Db, t: Transaction): Db
    requires Sound(db)
  {
    match t
    case Create(created) => CreatePackage(db, created)
    case Add(p, words, job) => AddWords(db, p, words, job).0
    case Edit(p, d, seen, seenKey, patch) =>
      (match Update(db, p, d, seen, seenKey, patch) case None => db case Some((after, _)) => after)
    case Remove(p, d) => DeleteWord(db, p, d).GetOr(db)
    case RemoveAll(p, ids) => DeleteAll(db, p, ids)
    case Drop(p) => DropPackage(db, p).GetOr(db)
    case CopyOf(copied, snapshot) => Copy(db, copied, snapshot)
  }

  /** What was read refers to base words that exist. */
  ghost predicate WasRead(db: Db, t: Transaction) {
    match t
    case Edit(_, _, seen, seenKey, _) => SeenOk(db, seen, seenKey)
    case CopyOf(_, snapshot) => forall i :: 0 <= i < |snapshot| ==> snapshot[i].wordId in db.words
    case _ => true
  }

  /** The read of a delete-all was no less than what only its package lists. */
  ghost predicate ReadCovers(db: Db, t: Transaction) {
    t.RemoveAll? ==> Covers(db, t.package, t.ids)
  }

  /** An edit finds its row still in the package, or rolls back, or would change no line. */
  ghost predicate EditSpares(db: Db, t: Transaction) {
    t.Edit? ==>
      || Link(t.detail, t.package) in db.learning
      || Update(db, t.package, t.detail, t.seen, t.seenKey, t.patch).None?
      || ChangesNoLine(db, t.detail, t.seenKey, t.patch)
  }

  /** The one package whose list a transaction may change. */
  function Owner(db: Db, t: Transaction): PackageId {
    match t
    case Create(_) => db.nextPackage
    case CopyOf(_, _) => db.nextPackage
    case Add(p, _, _) => p
    case Edit(p, _, _, _, _) => p
    case Remove(p, _) => p
    case RemoveAll(p, _) => p
    case Drop(p) => p
  }

  lemma CommitKeeps(db: Db, t: Transaction)
    requires Sound(db) && WasRead(db, t)
    ensures Sound(Commit(db, t))
    ensures NoGarbage(db) ==> (NoGarbage(Commit(db, t)) <==> ReadCovers(db, t))
  {
    match t
    case Create(created) => CreatePackageKeeps(db, created);
    case Add(p, words, job) => AddWordsSound(db, p, words, job);
    case Edit(p, d, seen, seenKey, patch) =>
      if Update(db, p, d, seen, seenKey, patch).Some? { UpdateKeeps(db, p, d, seen, seenKey, patch); }
    case Remove(p, d) => if DeleteWord(db, p, d).Some? { DeleteWordKeeps(db, p, d); }
    case RemoveAll(p, ids) => DeleteAllKeeps(db, p, ids);
    case Drop(p) => if DropPackage(db, p).Some? { DropPackageKeeps(db, p); }
    case CopyOf(copied, snapshot) => CopyKeeps(db, copied, snapshot);
  }

  /** A transaction leaves the lists of all other packages alone exactly when it is no stale edit that shows. */
  lemma CommitSparesOthersExactly(db: Db, t: Transaction)
    requires Sound(db) && WasRead(db, t)
    ensures (forall q :: q != Owner(db, t) ==> SameList(db, Commit(db, t), q)) <==> EditSpares(db, t)
  {
    if t.Edit? {
      EditSparesExactly(db, t);
    } else {
      forall q | q != Owner(db, t) ensures SameList(db, Commit(db, t), q) {
        forall e ensures Shows(db, q, e) == Shows(Commit(db, t), q, e) { CommitSparesOthers(db, t, q, e); }
      }
    }
  }

  lemma EditSparesExactly(db: Db, t: Transaction)
    requires Sound(db) && WasRead(db, t) && t.Edit?
    ensures (forall q :: q != t.package ==> SameList(db, Commit(db, t), q)) <==> EditSpares(db, t)
  {
    var update := Update(db, t.package, t.detail, t.seen, t.seenKey, t.patch);
    if update.Some? {
      assert Commit(db, t) == update.value.0;
      UpdateSparesOthersExactly(db, t.package, t.detail, t.seen, t.seenKey, t.patch);
    } else {
      assert Commit(db, t) == db;
    }
  }

  lemma CommitSparesOthers(db: Db, t: Transaction, q: PackageId, e: DetailId)
    requires Sound(db) && WasRead(db, t) && !t.Edit? && q != Owner(db, t)
    ensures Shows(Commit(db, t), q, e) == Shows(db, q, e)
  {
    match t
    case Create(created) => CreatePackageKeeps(db, created); assert SameList(db, CreatePackage(db, created), q);
    case Add(p, words, job) => AddWordsShows(db, p, words, job, q, e);
    case Remove(p, d) => if DeleteWord(db, p, d).Some? { DeleteWordShows(db, p, d, q, e); }
    case RemoveAll(p, ids) => DeleteAllShows(db, p, ids, q, e);
    case Drop(p) => if DropPackage(db, p).Some? { DropPackageShows(db, p, q, e); }
    case CopyOf(copied, snapshot) => CopyShows(db, copied, snapshot, q, e);
  }

  /** `after` has the base words of `before` unchanged, perhaps more. */
  ghost predicate SameWords(before: Db, after: Db) {
    forall w :: w in before.words ==> w in after.words && after.words[w] == before.words[w]
  }

  /** Base words are for ever: what a request read about them stays true. */
  lemma BaseWordsStay(db: Db, t: Transaction)
    requires Sound(db) && WasRead(db, t)
    ensures SameWords(db, Commit(db, t))
  {
    match t
    case Add(p, words, job) => AddKeepsWords(db, p, words, job);
    case Edit(_, _, _, _, _) => EditKeepsWords(db, t);
    case CopyOf(copied, snapshot) => CopyKeepsWords(db, copied, snapshot);
    case _ => RemovalsKeepWords(db, t);
  }

  lemma AddKeepsWords(db: Db, p: PackageId, words: seq<NewWord>, job: Option<JobId>)
    requires Sound(db)
    ensures SameWords(db, AddWords(db, p, words, job).0)
  {
    if AddWords(db, p, words, job).1.Added? {
      RecordSound(db, job);
      UpsertAllFinds(Record(db, job), words);
      var keyed := UpsertAll(Record(db, job), words);
      AddEntriesSound(keyed, p, Entries(keyed, words));
    }
  }

  lemma EditKeepsWords(db: Db, t: Transaction)
    requires Sound(db) && t.Edit?
    ensures SameWords(db, Commit(db, t))
  {
    KeyedFinds(db, t.seenKey, t.patch);
  }

  lemma CopyKeepsWords(db: Db, copied: Package, snapshot: seq<Detail>)
    requires Sound(db) && forall i :: 0 <= i < |snapshot| ==> snapshot[i].wordId in db.words
    ensures Copy(db, copied, snapshot).words == db.words
  {
    CreatePackageKeeps(db, copied);
    AddEntriesSound(CreatePackage(db, copied), db.nextPackage, Clones(snapshot));
  }

  lemma RemovalsKeepWords(db: Db, t: Transaction)
    requires Sound(db) && WasRead(db, t) && !t.Add? && !t.Edit? && !t.CopyOf?
    ensures Commit(db, t).words == db.words
  {
  }

  // ----- Whole runs

  /** What the request read before its transaction, as the tables were then. */
  ghost predicate ReadAt(db: Db, t: Transaction) {
    match t
    case Edit(p, d, seen, seenKey, _) =>
      Link(d, p) in db.learning && d in db.details && db.details[d] == seen && SeenOk(db, seen, seenKey)
    case CopyOf(_, snapshot) => exists p, ids :: ReadOf(db, p, ids, snapshot)
    case RemoveAll(p, ids) => ids == DetailsOf(db, p) && ids != {}
    case _ => true
  }

  /** State `k` is where transaction `i` was read. */
  ghost predicate ReadFrom(states: seq<Db>, log: seq<Transaction>, i: nat, k: nat)
    requires |states| == |log| + 1 && i < |log|
  {
    k <= i && ReadAt(states[k], log[i])
  }

  ghost predicate WasReadBefore(states: seq<Db>, log: seq<Transaction>, i: nat)
    requires |states| == |log| + 1 && i < |log|
  {
    exists k :: ReadFrom(states, log, i, k)
  }

  ghost predicate Committed(before: Db, t: Transaction, after: Db) {
    Sound(before) ==> after == Commit(before, t)
  }

  /**
   * Every state of a run, from any sound tables without garbage, where packages may share details as
   * the old app left them. Each transaction was read at some earlier state.
   */
  ghost predicate Run(states: seq<Db>, log: seq<Transaction>) {
    && |states| == |log| + 1 && Sound(states[0]) && NoGarbage(states[0])
    && (forall i :: 0 <= i < |log| ==> WasReadBefore(states, log, i))
    && (forall i :: 0 <= i < |log| ==> Committed(states[i], log[i], states[i + 1]))
  }

  /** What a request read about base words is true at any later state. */
  lemma ReadLasts(read: Db, db: Db, t: Transaction)
    requires Sound(read) && ReadAt(read, t) && SameWords(read, db)
    ensures WasRead(db, t)
  {
    if t.CopyOf? {
      var p, ids :| ReadOf(read, p, ids, t.snapshot);
      forall i | 0 <= i < |t.snapshot| ensures t.snapshot[i].wordId in db.words { assert DetailOk(read, ids[i]); }
    }
  }

  lemma {:induction false} RunKeeps(states: seq<Db>, log: seq<Transaction>, n: nat)
    requires Run(states, log) && n <= |log|
    ensures forall k :: 0 <= k <= n ==> Sound(states[k]) && SameWords(states[k], states[n])
    ensures n < |log| ==> WasRead(states[n], log[n]) && states[n + 1] == Commit(states[n], log[n])
  {
    if n > 0 {
      RunKeeps(states, log, n - 1);
      var db, t := states[n - 1], log[n - 1];
      CommitKeeps(db, t);
      BaseWordsStay(db, t);
    }
    if n < |log| {
      assert WasReadBefore(states, log, n);
      var k: nat :| ReadFrom(states, log, n, k);
      ReadLasts(states[k], states[n], log[n]);
      assert Committed(states[n], log[n], states[n + 1]);
    }
  }

  /** Every delete-all up to state `n` read all the details only its package links to. */
  ghost predicate DeletesCover(states: seq<Db>, log: seq<Transaction>, n: nat)
    requires |states| == |log| + 1 && n <= |log|
  {
    forall i :: 0 <= i < n ==> ReadCovers(states[i], log[i])
  }

  ghost predicate Clean(states: seq<Db>, n: nat)
    requires n < |states|
  {
    forall k :: 0 <= k <= n ==> NoGarbage(states[k])
  }

  /**
   * Whole runs: no learning row ever dangles, and no detail is ever left unreferenced exactly when
   * every delete-all read all the details only its package links to.
   */
  lemma {:induction false} RunIsSound(states: seq<Db>, log: seq<Transaction>, n: nat)
    requires Run(states, log) && n <= |log|
    ensures Sound(states[n])
    ensures Clean(states, n) <==> DeletesCover(states, log, n)
  {
    RunKeeps(states, log, n);
    if n > 0 {
      RunIsSound(states, log, n - 1);
      RunKeeps(states, log, n - 1);
      CommitKeeps(states[n - 1], log[n - 1]);
      assert Clean(states, n) <==> Clean(states, n - 1) && NoGarbage(states[n]);
      assert DeletesCover(states, log, n)
        <==> DeletesCover(states, log, n - 1) && ReadCovers(states[n - 1], log[n - 1]);
    }
  }

  lemma StepSpares(states: seq<Db>, log: seq<Transaction>, i: nat, q: PackageId)
    requires Run(states, log) && i < |log| && Owner(states[i], log[i]) != q && EditSpares(states[i], log[i])
    ensures SameList(states[i], states[i + 1], q)
  {
    RunKeeps(states, log, i);
    CommitSparesOthersExactly(states[i], log[i]);
  }

  lemma StillSame(a: Db, b: Db, c: Db, q: PackageId)
    requires SameList(a, b, q) && SameList(b, c, q)
    ensures SameList(a, c, q)
  {
    forall d ensures Shows(a, q, d) == Shows(c, q, d) { assert Shows(a, q, d) == Shows(b, q, d); }
  }

  /**
   * Whole runs: between two states a package's list does not move unless a transaction on that package,
   * or a stale edit that shows, comes between them.
   */
  lemma {:induction false} ListsMoveByTheirOwner(states: seq<Db>, log: seq<Transaction>, n: nat, m: nat, q: PackageId)
    requires Run(states, log) && n <= m <= |log|
    requires forall i :: n <= i < m ==> Owner(states[i], log[i]) != q && EditSpares(states[i], log[i])
    ensures SameList(states[n], states[m], q)
    decreases m - n
  {
    if n < m {
      ListsMoveByTheirOwner(states, log, n, m - 1, q);
      StepSpares(states, log, m - 1, q);
      StillSame(states[n], states[m - 1], states[m], q);
    }
  }

  /** Whole runs: a stale edit that shows moves the list of a package that is not its own. */
  lemma StaleEditMoves(states: seq<Db>, log: seq<Transaction>, i: nat) returns (q: PackageId)
    requires Run(states, log) && i < |log| && !EditSpares(states[i], log[i])
    ensures q != Owner(states[i], log[i]) && !SameList(states[i], states[i + 1], q)
  {
    RunKeeps(states, log, i);
    CommitSparesOthersExactly(states[i], log[i]);
    q :| q != Owner(states[i], log[i]) && !SameList(states[i], states[i + 1], q);
  }

  /** Whole runs: a copy lists its source as it was when it was read, on details of its own. */
  lemma CopyListsWhatWasRead(states: seq<Db>, log: seq<Transaction>, i: nat, k: nat, p: PackageId, ids: seq<DetailId>,
                             j: nat)
    requires Run(states, log) && i < |log| && log[i].CopyOf? && k <= i && j < |ids|
    requires ReadOf(states[k], p, ids, log[i].snapshot)
    ensures Shows(states[k], p, ids[j]).Some?
    ensures Shows(states[i + 1], states[i].nextPackage, states[i].nextDetail + j)
         == Some(Shows(states[k], p, ids[j]).value.(level := X))
  {
    RunKeeps(states, log, i);
    assert Sound(states[k]) && SameWords(states[k], states[i]);
    CopyListsTheSource(states[k], states[i], log[i].copied, p, ids, log[i].snapshot, j);
  }

  // ----- A run with a stale edit

  const KEY := WordKey("chat", "animal", "fr")
  const OLD := Content("nom", "cat", "", "", "", "", "")
  const SAME := Patch(None, None, None, None, None, None, None, None, None, None, None)
  const SHARED := Package(1, "Animaux", "", Private, true)

  /** Packages 0 and 1 share detail 0, as the old app's copies do. */
  const BOTH := Db(map[0 := KEY], map[0 := Detail(0, OLD)], map[Link(0, 0) := X, Link(0, 1) := X],
                   map[0 := SHARED, 1 := SHARED], {}, 1, 1, 2)

  const ALONE := BOTH.(learning := map[Link(0, 1) := X])

  const REWRITE := Edit(0, 0, Detail(0, OLD), KEY, SAME.(meaning := Some("dog")))

  lemma SharedTables()
    ensures Sound(BOTH) && NoGarbage(BOTH) && Sound(ALONE) && NoGarbage(ALONE)
  {
    assert Link(0, 1) in BOTH.learning && Link(0, 1) in ALONE.learning;
  }

  lemma RemoveLeavesOther()
    ensures DeleteWord(BOTH, 0, 0) == Some(ALONE)
  {
    var less := Unlink(BOTH, {Link(0, 0)});
    assert less.learning == ALONE.learning;
    assert Link(0, 1) in less.learning;
    assert DeleteOrphans(less, {0}).details == ALONE.details;
  }

  lemma RewriteCommits()
    ensures Update(ALONE, 0, 0, Detail(0, OLD), KEY, REWRITE.patch)
         == Some((Overwrite(ALONE, 0, Detail(0, OLD.(meaning := "dog"))), 0))
  {
    assert Refs(ALONE, 0) == {Link(0, 1)};
  }

  /**
   * Package 0 and package 1 share a detail; an edit in package 0 reads it, the word is removed from
   * package 0, and the edit commits: package 1 shows the new meaning.
   */
  lemma StaleEditHappens() returns (states: seq<Db>, log: seq<Transaction>)
    ensures Run(states, log) && log == [Remove(0, 0), REWRITE]
    ensures Shows(states[1], 1, 0) == Some(Entry(KEY, OLD, X))
    ensures Shows(states[2], 1, 0) == Some(Entry(KEY, OLD.(meaning := "dog"), X))
  {
    SharedTables();
    RemoveLeavesOther();
    RewriteCommits();
    log := [Remove(0, 0), REWRITE];
    states := [BOTH, ALONE, Overwrite(ALONE, 0, Detail(0, OLD.(meaning := "dog")))];
    assert ReadFrom(states, log, 0, 0) && ReadFrom(states, log, 1, 0);
  }
}
