/**
 * Editing, deleting and copying entries whose details may be shared between packages: what each
 * transaction shows afterwards, and which transactions keep the other packages' lists.
 *
 * A transaction may work on rows read before it started: `seen`, `ids` and `snapshot` are what the
 * request read then, whatever committed in between.
 */
module WordSharing {
  import opened Prelude
  import opened SpacedRepetition
  import opened WordTables

  // ----- Deleting details nobody links to

  ghost function DeleteOrphans(db: Db, ids: set<DetailId>): Db {
    db.(details := map d | d in db.details && (d in ids ==> Referenced(db, d)) :: db.details[d])
  }

  lemma OrphansShow(db: Db, ids: set<DetailId>, q: PackageId, e: DetailId)
    ensures Shows(DeleteOrphans(db, ids), q, e) == Shows(db, q, e)
  {
    if Link(e, q) in db.learning { assert Referenced(db, e); }
  }

  lemma OrphansSound(db: Db, ids: set<DetailId>)
    requires Sound(db)
    ensures Sound(DeleteOrphans(db, ids))
  {
    var after := DeleteOrphans(db, ids);
    forall w ensures WordOk(after, w) { assert WordOk(db, w); }
    forall v, w ensures KeyUnique(after, v, w) { assert KeyUnique(db, v, w); }
    forall d ensures DetailOk(after, d) { assert DetailOk(db, d); }
    forall p ensures PackageOk(after, p) { assert PackageOk(db, p); }
    forall l ensures LinkOk(after, l) {
      assert LinkOk(db, l);
      if l in db.learning { assert Link(l.detail, l.package) == l && Referenced(db, l.detail); }
    }
  }

  /** Nothing unreferenced is left exactly when every unreferenced detail was among `ids`. */
  lemma OrphansGarbage(db: Db, ids: set<DetailId>)
    ensures NoGarbage(DeleteOrphans(db, ids)) <==> forall d :: d in db.details && !Referenced(db, d) ==> d in ids
  {
    var after := DeleteOrphans(db, ids);
    assert forall d :: Referenced(after, d) <==> Referenced(db, d);
    if d :| d in db.details && !Referenced(db, d) && d !in ids {
      assert d in after.details;
    }
  }

  // ----- deleteWord, deleteAllWords, deleting a package

  function Unlink(db: Db, links: set<Link>): Db {
    db.(learning := db.learning - links)
  }

  lemma UnlinkSound(db: Db, links: set<Link>)
    requires Sound(db)
    ensures Sound(Unlink(db, links))
  {
    var after := Unlink(db, links);
    forall w ensures WordOk(after, w) { assert WordOk(db, w); }
    forall v, w ensures KeyUnique(after, v, w) { assert KeyUnique(db, v, w); }
    forall d ensures DetailOk(after, d) { assert DetailOk(db, d); }
    forall p ensures PackageOk(after, p) { assert PackageOk(db, p); }
    forall l ensures LinkOk(after, l) { assert LinkOk(db, l); }
  }

  /** A missing row makes the delete fail, and the transaction roll back. */
  ghost function DeleteWord(db: Db, p: PackageId, d: DetailId): Option<Db> {
    if Link(d, p) !in db.learning then None
    else Some(DeleteOrphans(Unlink(db, {Link(d, p)}), {d}))
  }

  lemma DeleteWordShows(db: Db, p: PackageId, d: DetailId, q: PackageId, e: DetailId)
    requires DeleteWord(db, p, d).Some?
    ensures Shows(DeleteWord(db, p, d).value, q, e) == if q == p && e == d then None else Shows(db, q, e)
  {
    OrphansShow(Unlink(db, {Link(d, p)}), {d}, q, e);
  }

  lemma DeleteWordKeeps(db: Db, p: PackageId, d: DetailId)
    requires Sound(db) && DeleteWord(db, p, d).Some?
    ensures Sound(DeleteWord(db, p, d).value)
    ensures NoGarbage(db) ==> NoGarbage(DeleteWord(db, p, d).value)
  {
    var less := Unlink(db, {Link(d, p)});
    UnlinkSound(db, {Link(d, p)});
    OrphansSound(less, {d});
    OrphansGarbage(less, {d});
    if NoGarbage(db) {
      forall e | e in less.details && e != d ensures Referenced(less, e) {
        var q :| Link(e, q) in db.learning;
        assert Link(e, q) in less.learning;
      }
    }
  }

  ghost function LinksOf(db: Db, p: PackageId): set<Link> {
    set l | l in db.learning && l.package == p
  }

  /** `ids` is what the request read before the transaction. */
  ghost function DeleteAll(db: Db, p: PackageId, ids: set<DetailId>): Db {
    DeleteOrphans(Unlink(db, LinksOf(db, p)), ids)
  }

  lemma DeleteAllShows(db: Db, p: PackageId, ids: set<DetailId>, q: PackageId, e: DetailId)
    ensures Shows(DeleteAll(db, p, ids), q, e) == if q == p then None else Shows(db, q, e)
  {
    OrphansShow(Unlink(db, LinksOf(db, p)), ids, q, e);
  }

  /** Every detail only this package links to was among those read. */
  ghost predicate Covers(db: Db, p: PackageId, ids: set<DetailId>) {
    forall d :: Link(d, p) in db.learning ==> d in ids || exists q :: q != p && Link(d, q) in db.learning
  }

  /** A detail added to the package after the read is left behind: garbage exactly when `ids` misses one. */
  lemma DeleteAllKeeps(db: Db, p: PackageId, ids: set<DetailId>)
    requires Sound(db)
    ensures Sound(DeleteAll(db, p, ids))
    ensures NoGarbage(db) ==> (NoGarbage(DeleteAll(db, p, ids)) <==> Covers(db, p, ids))
  {
    var less := Unlink(db, LinksOf(db, p));
    UnlinkSound(db, LinksOf(db, p));
    OrphansSound(less, ids);
    OrphansGarbage(less, ids);
    if NoGarbage(db) {
      forall d | d in db.details
        ensures Referenced(less, d) <==> exists q :: q != p && Link(d, q) in db.learning
      {
        if q :| q != p && Link(d, q) in db.learning { assert Link(d, q) in less.learning; }
      }
      if Covers(db, p, ids) {
        forall d | d in less.details && !Referenced(less, d) ensures d in ids {
          var q :| Link(d, q) in db.learning;
          assert q != p ==> Link(d, q) in less.learning;
        }
      } else {
        var d :| Link(d, p) in db.learning && d !in ids && !exists q :: q != p && Link(d, q) in db.learning;
        assert LinkOk(db, Link(d, p));
      }
    }
  }

  /** Reads its rows inside the transaction, and cascades to the package's learning rows. */
  ghost function DropPackage(db: Db, p: PackageId): Option<Db> {
    if p !in db.packages then None
    else
      var ids := set l | l in db.learning && l.package == p :: l.detail;
      Some(DeleteOrphans(Unlink(db, LinksOf(db, p)).(packages := db.packages - {p}), ids))
  }

  /** The package row goes, and no other. */
  lemma DropPackageRow(db: Db, p: PackageId)
    requires DropPackage(db, p).Some?
    ensures p in db.packages && p !in DropPackage(db, p).value.packages
    ensures forall q :: q != p && q in db.packages ==>
              q in DropPackage(db, p).value.packages && DropPackage(db, p).value.packages[q] == db.packages[q]
    ensures DropPackage(db, p).value.packages.Keys <= db.packages.Keys
  {
  }

  lemma DropPackageShows(db: Db, p: PackageId, q: PackageId, e: DetailId)
    requires DropPackage(db, p).Some?
    ensures Shows(DropPackage(db, p).value, q, e) == if q == p then None else Shows(db, q, e)
  {
    var ids := set l | l in db.learning && l.package == p :: l.detail;
    OrphansShow(Unlink(db, LinksOf(db, p)).(packages := db.packages - {p}), ids, q, e);
  }

  lemma DropPackageKeeps(db: Db, p: PackageId)
    requires Sound(db) && DropPackage(db, p).Some?
    ensures Sound(DropPackage(db, p).value)
    ensures NoGarbage(db) ==> NoGarbage(DropPackage(db, p).value)
  {
    var ids := set l | l in db.learning && l.package == p :: l.detail;
    var less := Unlink(db, LinksOf(db, p)).(packages := db.packages - {p});
    forall w ensures WordOk(less, w) { assert WordOk(db, w); }
    forall v, w ensures KeyUnique(less, v, w) { assert KeyUnique(db, v, w); }
    forall d ensures DetailOk(less, d) { assert DetailOk(db, d); }
    forall q ensures PackageOk(less, q) { assert PackageOk(db, q); }
    forall l ensures LinkOk(less, l) { assert LinkOk(db, l); }
    OrphansSound(less, ids);
    OrphansGarbage(less, ids);
    if NoGarbage(db) {
      forall d | d in less.details && !Referenced(less, d) ensures d in ids {
        var q :| Link(d, q) in db.learning;
        assert q != p ==> Link(d, q) in less.learning;
        assert Link(d, p).detail == d;
      }
    }
  }

  // ----- Creating and copying packages

  function CreatePackage(db: Db, created: Package): Db {
    db.(packages := db.packages[db.nextPackage := created], nextPackage := db.nextPackage + 1)
  }

  /** The row stored for a new package, or a copy, under an id never used before. */
  lemma CreatesItsRow(db: Db, created: Package, snapshot: seq<Detail>)
    requires Sound(db) && forall i :: 0 <= i < |snapshot| ==> snapshot[i].wordId in db.words
    ensures db.nextPackage !in db.packages
    ensures forall after :: after in {CreatePackage(db, created), Copy(db, created, snapshot)} ==>
              && after.packages.Keys == db.packages.Keys + {db.nextPackage}
              && after.packages[db.nextPackage] == created
              && (forall q :: q in db.packages ==> after.packages[q] == db.packages[q])
              && after.nextPackage > db.nextPackage
  {
    assert PackageOk(db, db.nextPackage);
    CreatePackageKeeps(db, created);
    AddEntriesSound(CreatePackage(db, created), db.nextPackage, Clones(snapshot));
  }

  lemma CreatePackageKeeps(db: Db, created: Package)
    requires Sound(db)
    ensures var after := CreatePackage(db, created);
            && Sound(after) && (NoGarbage(db) ==> NoGarbage(after))
            && (forall q :: SameList(db, after, q))
            && forall e :: Shows(db, db.nextPackage, e) == None
  {
    var after := CreatePackage(db, created);
    forall w ensures WordOk(after, w) { assert WordOk(db, w); }
    forall v, w ensures KeyUnique(after, v, w) { assert KeyUnique(db, v, w); }
    forall d ensures DetailOk(after, d) { assert DetailOk(db, d); }
    forall q ensures PackageOk(after, q) { assert PackageOk(db, q); }
    forall l ensures LinkOk(after, l) { assert LinkOk(db, l); }
    if NoGarbage(db) {
      forall d | d in after.details ensures Referenced(after, d) {
        var q :| Link(d, q) in db.learning;
        assert Link(d, q) in after.learning;
      }
    }
    forall e ensures Shows(db, db.nextPackage, e) == None {
      assert LinkOk(db, Link(e, db.nextPackage)) && PackageOk(db, db.nextPackage);
    }
  }

  /** One new entry per row read, at level `x`. */
  function Clones(snapshot: seq<Detail>): (entries: seq<NewEntry>)
    ensures |entries| == |snapshot| && forall i :: 0 <= i < |entries| ==> entries[i] == NewEntry(snapshot[i], X)
  {
    seq(|snapshot|, i requires 0 <= i < |snapshot| => NewEntry(snapshot[i], X))
  }

  /** What the copy of a package is called and whose it is: private and active. */
  function CopiedPackage(source: Package, owner: nat): (copy: Package)
    ensures copy.owner == owner && copy.mode == Private && copy.active
    ensures copy.name == source.name && copy.description == source.description
  {
    Package(owner, source.name, source.description, Private, true)
  }

  /** `snapshot` is the source's details as read before the transaction. */
  function Copy(db: Db, created: Package, snapshot: seq<Detail>): Db {
    AddEntries(CreatePackage(db, created), db.nextPackage, Clones(snapshot))
  }

  lemma CopyKeeps(db: Db, created: Package, snapshot: seq<Detail>)
    requires Sound(db) && forall i :: 0 <= i < |snapshot| ==> snapshot[i].wordId in db.words
    ensures Sound(Copy(db, created, snapshot)) && (NoGarbage(db) ==> NoGarbage(Copy(db, created, snapshot)))
  {
    CreatePackageKeeps(db, created);
    AddEntriesSound(CreatePackage(db, created), db.nextPackage, Clones(snapshot));
  }

  lemma CopyShows(db: Db, created: Package, snapshot: seq<Detail>, q: PackageId, e: DetailId)
    requires Sound(db) && forall i :: 0 <= i < |snapshot| ==> snapshot[i].wordId in db.words
    ensures Shows(Copy(db, created, snapshot), q, e)
         == if q == db.nextPackage then
              if db.nextDetail <= e < db.nextDetail + |snapshot| then
                var detail := snapshot[e - db.nextDetail];
                Some(Entry(db.words[detail.wordId], detail.content, X))
              else None
            else Shows(db, q, e)
  {
    CreatePackageKeeps(db, created);
    AddEntriesShows(CreatePackage(db, created), db.nextPackage, Clones(snapshot), q, e);
    assert SameList(db, CreatePackage(db, created), q);
    assert Shows(db, db.nextPackage, e) == None;
  }

  /** The details a package lists, in the order of the read. */
  ghost predicate ReadOf(db: Db, p: PackageId, ids: seq<DetailId>, snapshot: seq<Detail>) {
    && |ids| == |snapshot|
    && (forall i, j :: 0 <= i < j < |ids| ==> ids[i] != ids[j])
    && (forall d :: d in ids <==> Link(d, p) in db.learning)
    && (forall i :: 0 <= i < |ids| ==> ids[i] in db.details && db.details[ids[i]] == snapshot[i])
  }

  /**
   * A copy lists the source as it was read: detail by detail the same word and content, all at level
   * `x`, on details of its own. What committed between the read and the copy does not matter.
   */
  lemma CopyListsTheSource(read: Db, db: Db, created: Package, p: PackageId, ids: seq<DetailId>, snapshot: seq<Detail>,
                           i: nat)
    requires Sound(read) && ReadOf(read, p, ids, snapshot) && i < |ids|
    requires Sound(db) && forall w :: w in read.words ==> w in db.words && db.words[w] == read.words[w]
    ensures Shows(read, p, ids[i]).Some?
    ensures Shows(Copy(db, created, snapshot), db.nextPackage, db.nextDetail + i)
         == Some(Shows(read, p, ids[i]).value.(level := X))
  {
    assert ids[i] in ids && DetailOk(read, ids[i]);
    forall k | 0 <= k < |snapshot| ensures snapshot[k].wordId in db.words {
      assert DetailOk(read, ids[k]);
    }
    CopyShows(db, created, snapshot, db.nextPackage, db.nextDetail + i);
  }

  // ----- updateWord

  datatype Patch = Patch(word: Option<string>, subject: Option<string>, language: Option<string>,
                         kind: Option<string>, meaning: Option<string>, pronunciation: Option<string>,
                         synonyms: Option<string>, antonyms: Option<string>, example: Option<string>,
                         grammar: Option<string>, level: Option<Level>)

  function NewKey(patch: Patch, seen: WordKey): WordKey {
    WordKey(patch.word.GetOr(seen.word), patch.subject.GetOr(seen.subject), patch.language.GetOr(seen.language))
  }

  predicate PatchesContent(patch: Patch) {
    || patch.kind.Some? || patch.meaning.Some? || patch.pronunciation.Some? || patch.synonyms.Some?
    || patch.antonyms.Some? || patch.example.Some? || patch.grammar.Some?
  }

  function Patched(c: Content, patch: Patch): Content {
    Content(patch.kind.GetOr(c.kind), patch.meaning.GetOr(c.meaning), patch.pronunciation.GetOr(c.pronunciation),
            patch.synonyms.GetOr(c.synonyms), patch.antonyms.GetOr(c.antonyms), patch.example.GetOr(c.example),
            patch.grammar.GetOr(c.grammar))
  }

  predicate Edits(patch: Patch, seenKey: WordKey) {
    NewKey(patch, seenKey) != seenKey || PatchesContent(patch)
  }

  function Refs(db: Db, d: DetailId): set<Link> {
    set l | l in db.learning && l.detail == d
  }

  /** The base word after the edit: found or created when it changed. */
  ghost function Keyed(db: Db, seenKey: WordKey, patch: Patch): (Db, Option<WordId>) {
    if NewKey(patch, seenKey) == seenKey then (db, None)
    else var (after, w) := Upsert(db, NewKey(patch, seenKey)); (after, Some(w))
  }

  function Edited(detail: Detail, word: Option<WordId>, patch: Patch): Detail {
    Detail(word.GetOr(detail.wordId), Patched(detail.content, patch))
  }

  /** A clone of the row that was read, edited, takes the place of `d` in the package. */
  function CloneFor(db: Db, p: PackageId, d: DetailId, detail: Detail): Db
    requires Link(d, p) in db.learning
  {
    db.(details := db.details[db.nextDetail := detail],
        learning := (db.learning - {Link(d, p)})[Link(db.nextDetail, p) := db.learning[Link(d, p)]],
        nextDetail := db.nextDetail + 1)
  }

  function Overwrite(db: Db, d: DetailId, detail: Detail): Db {
    db.(details := db.details[d := detail])
  }

  /** The edit of the details; nothing when a row it needs is missing. */
  ghost function EditDetail(db: Db, p: PackageId, d: DetailId, seen: Detail, seenKey: WordKey, patch: Patch)
    : Option<(Db, DetailId)>
  {
    var (keyed, word) := Keyed(db, seenKey, patch);
    if !Edits(patch, seenKey) then Some((db, d))
    else if |Refs(keyed, d)| > 1 then
      if Link(d, p) !in keyed.learning then None
      else Some((CloneFor(keyed, p, d, Edited(seen, word, patch)), keyed.nextDetail))
    else if d !in keyed.details then None
    else Some((Overwrite(keyed, d, Edited(keyed.details[d], word, patch)), d))
  }

  /** The whole transaction; nothing when it rolls back. */
  ghost function Update(db: Db, p: PackageId, d: DetailId, seen: Detail, seenKey: WordKey, patch: Patch)
    : Option<(Db, DetailId)>
  {
    match EditDetail(db, p, d, seen, seenKey, patch)
    case None => None
    case Some((edited, target)) =>
      if patch.level.None? then Some((edited, target))
      else if Link(target, p) !in edited.learning then None
      else Some((edited.(learning := edited.learning[Link(target, p) := patch.level.value]), target))
  }

  /** The row was read with its base word; base words are never changed or deleted. */
  ghost predicate SeenOk(db: Db, seen: Detail, seenKey: WordKey) {
    seen.wordId in db.words && db.words[seen.wordId] == seenKey
  }

  lemma KeyedFinds(db: Db, seenKey: WordKey, patch: Patch)
    requires Sound(db)
    ensures var (keyed, word) := Keyed(db, seenKey, patch);
            && MoreWords(db, keyed) && Sound(keyed) && (NoGarbage(db) ==> NoGarbage(keyed))
            && (word.Some? ==> word.value in keyed.words && keyed.words[word.value] == NewKey(patch, seenKey))
            && (word.None? ==> NewKey(patch, seenKey) == seenKey)
            && (forall e :: Refs(keyed, e) == Refs(db, e))
  {
    if NewKey(patch, seenKey) != seenKey { UpsertFinds(db, NewKey(patch, seenKey)); }
  }

  /** A detail with at most one reference, linked to `p`, is linked to no other package. */
  lemma SingleRef(db: Db, d: DetailId, p: PackageId, q: PackageId)
    requires |Refs(db, d)| <= 1 && Link(d, p) in db.learning && Link(d, q) in db.learning
    ensures p == q
  {
    assert {Link(d, p), Link(d, q)} <= Refs(db, d);
    if p != q { SubsetSize({Link(d, p), Link(d, q)}, Refs(db, d)); }
  }

  lemma SharedTwice(db: Db, d: DetailId, p: PackageId) returns (q: PackageId)
    requires |Refs(db, d)| > 1
    ensures q != p && Link(d, q) in db.learning
  {
    if Refs(db, d) <= {Link(d, p)} { SubsetSize(Refs(db, d), {Link(d, p)}); }
    var l :| l in Refs(db, d) && l != Link(d, p);
    q := l.package;
    assert l == Link(d, q);
  }

  lemma OverwriteSound(db: Db, d: DetailId, detail: Detail)
    requires Sound(db) && d in db.details && detail.wordId in db.words
    ensures Sound(Overwrite(db, d, detail)) && (NoGarbage(db) ==> NoGarbage(Overwrite(db, d, detail)))
  {
    var after := Overwrite(db, d, detail);
    forall w ensures WordOk(after, w) { assert WordOk(db, w); }
    forall v, w ensures KeyUnique(after, v, w) { assert KeyUnique(db, v, w); }
    forall e ensures DetailOk(after, e) { assert DetailOk(db, e) && DetailOk(db, d); }
    forall p ensures PackageOk(after, p) { assert PackageOk(db, p); }
    forall l ensures LinkOk(after, l) { assert LinkOk(db, l); }
    if NoGarbage(db) {
      forall e | e in after.details ensures Referenced(after, e) {
        var q :| Link(e, q) in db.learning;
        assert Link(e, q) in after.learning;
      }
    }
  }

  lemma CloneSound(db: Db, p: PackageId, d: DetailId, detail: Detail)
    requires Sound(db) && Link(d, p) in db.learning && |Refs(db, d)| > 1 && detail.wordId in db.words
    ensures Sound(CloneFor(db, p, d, detail)) && (NoGarbage(db) ==> NoGarbage(CloneFor(db, p, d, detail)))
  {
    var after := CloneFor(db, p, d, detail);
    forall w ensures WordOk(after, w) { assert WordOk(db, w); }
    forall v, w ensures KeyUnique(after, v, w) { assert KeyUnique(db, v, w); }
    forall e ensures DetailOk(after, e) { assert DetailOk(db, e); }
    forall q ensures PackageOk(after, q) { assert PackageOk(db, q); }
    forall l ensures LinkOk(after, l) { assert LinkOk(db, l) && LinkOk(db, Link(d, p)); }
    if NoGarbage(db) {
      var other := SharedTwice(db, d, p);
      forall e | e in after.details ensures Referenced(after, e) {
        if e == db.nextDetail {
          assert Link(e, p) in after.learning;
        } else {
          var q :| Link(e, q) in db.learning;
          assert Link(e, if e == d then other else q) in after.learning || (q == p && e == d);
          if e == d { assert Link(d, other) in after.learning; }
        }
      }
    }
  }

  lemma SetLevelSound(db: Db, l: Link, level: Level)
    requires Sound(db) && l in db.learning
    ensures var after := db.(learning := db.learning[l := level]);
            Sound(after) && (NoGarbage(db) ==> NoGarbage(after))
  {
    var after := db.(learning := db.learning[l := level]);
    forall w ensures WordOk(after, w) { assert WordOk(db, w); }
    forall v, w ensures KeyUnique(after, v, w) { assert KeyUnique(db, v, w); }
    forall e ensures DetailOk(after, e) { assert DetailOk(db, e); }
    forall q ensures PackageOk(after, q) { assert PackageOk(db, q); }
    forall k ensures LinkOk(after, k) { assert LinkOk(db, k); }
    if NoGarbage(db) {
      forall e | e in after.details ensures Referenced(after, e) {
        var q :| Link(e, q) in db.learning;
        assert Link(e, q) in after.learning;
      }
    }
  }

  /** No edit, however stale its read, breaks a foreign key or leaves an unreferenced detail. */
  lemma UpdateKeeps(db: Db, p: PackageId, d: DetailId, seen: Detail, seenKey: WordKey, patch: Patch)
    requires Sound(db) && SeenOk(db, seen, seenKey) && Update(db, p, d, seen, seenKey, patch).Some?
    ensures var (after, target) := Update(db, p, d, seen, seenKey, patch).value;
            Sound(after) && (NoGarbage(db) ==> NoGarbage(after))
  {
    var (keyed, word) := Keyed(db, seenKey, patch);
    KeyedFinds(db, seenKey, patch);
    var (edited, target) := EditDetail(db, p, d, seen, seenKey, patch).value;
    if Edits(patch, seenKey) {
      if |Refs(keyed, d)| > 1 {
        CloneSound(keyed, p, d, Edited(seen, word, patch));
      } else {
        assert DetailOk(keyed, d);
        OverwriteSound(keyed, d, Edited(keyed.details[d], word, patch));
      }
    }
    if patch.level.Some? { SetLevelSound(edited, Link(target, p), patch.level.value); }
  }

  /** The line a package shows for the edited detail. */
  function PatchedEntry(entry: Entry, seenKey: WordKey, patch: Patch): Entry {
    Entry(if NewKey(patch, seenKey) == seenKey then entry.key else NewKey(patch, seenKey),
          Patched(entry.content, patch), entry.level)
  }

  /**
   * The edit while the package still lists the detail: its own line is patched, on a clone when
   * another package shares the detail, and no other line of any package moves.
   */
  lemma UpdateShows(db: Db, p: PackageId, d: DetailId, seen: Detail, seenKey: WordKey, patch: Patch,
                    q: PackageId, e: DetailId)
    requires Sound(db) && SeenOk(db, seen, seenKey) && Update(db, p, d, seen, seenKey, patch).Some?
    requires Link(d, p) in db.learning
    ensures var (after, target) := Update(db, p, d, seen, seenKey, patch).value;
            var level := patch.level.GetOr(db.learning[Link(d, p)]);
            && (target != d <==> Edits(patch, seenKey) && |Refs(db, d)| > 1)
            && Shows(db, p, d).Some?
            && Shows(after, q, e)
                 == if q == p && e == target then
                      var base := if target == d then Shows(db, p, d).value else Entry(seenKey, seen.content, level);
                      Some(PatchedEntry(base, seenKey, patch).(level := level))
                    else if q == p && e == d then None
                    else Shows(db, q, e)
  {
    var (keyed, word) := Keyed(db, seenKey, patch);
    KeyedFinds(db, seenKey, patch);
    MoreWordsShow(db, keyed, q, e);
    assert LinkOk(db, Link(d, p)) && DetailOk(db, d) && DetailOk(db, db.nextDetail);
    assert LinkOk(db, Link(e, q)) && DetailOk(db, e);
    assert Refs(keyed, d) == Refs(db, d);
    if Edits(patch, seenKey) && |Refs(db, d)| <= 1 && e == d && Link(d, q) in db.learning {
      SingleRef(db, d, p, q);
    }
    if !Edits(patch, seenKey) {
      assert Patched(db.details[d].content, patch) == db.details[d].content;
    }
  }

  /** What a field shows after an edit: what was submitted, else what it showed. */
  predicate Takes<T(==)>(submitted: Option<T>, was: T, shown: T) {
    match submitted
    case None => shown == was
    case Some(value) => shown == value
  }

  /** Each field of the content by itself. */
  predicate TakesContent(patch: Patch, was: Content, shown: Content) {
    && Takes(patch.kind, was.kind, shown.kind) && Takes(patch.meaning, was.meaning, shown.meaning)
    && Takes(patch.pronunciation, was.pronunciation, shown.pronunciation)
    && Takes(patch.synonyms, was.synonyms, shown.synonyms) && Takes(patch.antonyms, was.antonyms, shown.antonyms)
    && Takes(patch.example, was.example, shown.example) && Takes(patch.grammar, was.grammar, shown.grammar)
  }

  predicate TakesKey(patch: Patch, was: WordKey, shown: WordKey) {
    && Takes(patch.word, was.word, shown.word) && Takes(patch.subject, was.subject, shown.subject)
    && Takes(patch.language, was.language, shown.language)
  }

  /**
   * The line of an edited detail, field by field. On a clone the rest is as it was read; otherwise the
   * rest of the content is as it stands, and a submitted key is completed from the key that was read.
   */
  lemma EditShowsFields(db: Db, p: PackageId, d: DetailId, seen: Detail, seenKey: WordKey, patch: Patch)
    requires Sound(db) && SeenOk(db, seen, seenKey) && Update(db, p, d, seen, seenKey, patch).Some?
    requires Link(d, p) in db.learning
    ensures var (after, target) := Update(db, p, d, seen, seenKey, patch).value;
            && Shows(db, p, d).Some? && Shows(after, p, target).Some?
            && var was, shown := Shows(db, p, d).value, Shows(after, p, target).value;
               && TakesContent(patch, if target == d then was.content else seen.content, shown.content)
               && Takes(patch.level, was.level, shown.level)
               && (TakesKey(patch, seenKey, shown.key)
                   || (TakesKey(patch, seenKey, seenKey) && target == d && shown.key == was.key))
  {
    var (after, target) := Update(db, p, d, seen, seenKey, patch).value;
    UpdateShows(db, p, d, seen, seenKey, patch, p, target);
  }

  /** When nobody edited the row since it was read, every field is what was submitted, else what it was. */
  lemma UndisturbedEditShows(db: Db, p: PackageId, d: DetailId, patch: Patch)
    requires Sound(db) && Link(d, p) in db.learning && d in db.details && db.details[d].wordId in db.words
    requires Update(db, p, d, db.details[d], db.words[db.details[d].wordId], patch).Some?
    ensures var (after, target) := Update(db, p, d, db.details[d], db.words[db.details[d].wordId], patch).value;
            && Shows(db, p, d).Some? && Shows(after, p, target).Some?
            && var was, shown := Shows(db, p, d).value, Shows(after, p, target).value;
               && TakesContent(patch, was.content, shown.content) && TakesKey(patch, was.key, shown.key)
               && Takes(patch.level, was.level, shown.level)
  {
    EditShowsFields(db, p, d, db.details[d], db.words[db.details[d].wordId], patch);
  }

  /** The line a stale edit overwrites, field by field. */
  lemma StaleEditShowsFields(db: Db, p: PackageId, d: DetailId, seen: Detail, seenKey: WordKey, patch: Patch)
    returns (q: PackageId)
    requires Sound(db) && Referenced(db, d) && SeenOk(db, seen, seenKey)
    requires Update(db, p, d, seen, seenKey, patch).Some? && Edits(patch, seenKey)
    requires Link(d, p) !in db.learning
    ensures q != p && Shows(db, q, d).Some?
    ensures var after := Update(db, p, d, seen, seenKey, patch).value.0;
            && Shows(after, q, d).Some?
            && var was, shown := Shows(db, q, d).value, Shows(after, q, d).value;
               && TakesContent(patch, was.content, shown.content) && shown.level == was.level
               && (TakesKey(patch, seenKey, shown.key) || (TakesKey(patch, seenKey, seenKey) && shown.key == was.key))
  {
    q := StaleUpdateHitsAnother(db, p, d, seen, seenKey, patch);
  }

  /**
   * The edit when the package stopped listing the detail after the read: a committed edit lands on
   * the one other package that still lists it. A detail no package lists is overwritten unseen.
   */
  lemma StaleUpdateHitsAnother(db: Db, p: PackageId, d: DetailId, seen: Detail, seenKey: WordKey, patch: Patch)
    returns (q: PackageId)
    requires Sound(db) && Referenced(db, d) && SeenOk(db, seen, seenKey)
    requires Update(db, p, d, seen, seenKey, patch).Some? && Edits(patch, seenKey)
    requires Link(d, p) !in db.learning
    ensures var (after, target) := Update(db, p, d, seen, seenKey, patch).value;
            && target == d && q != p && Shows(db, q, d).Some?
            && Shows(after, q, d) == Some(PatchedEntry(Shows(db, q, d).value, seenKey, patch))
            && forall r, e :: r != q || e != d ==> Shows(after, r, e) == Shows(db, r, e)
  {
    var (keyed, word) := Keyed(db, seenKey, patch);
    KeyedFinds(db, seenKey, patch);
    assert Refs(keyed, d) == Refs(db, d) && d in db.details && DetailOk(db, d);
    q :| Link(d, q) in db.learning;
    var (after, target) := Update(db, p, d, seen, seenKey, patch).value;
    assert target == d && patch.level.None?;
    assert after == Overwrite(keyed, d, Edited(keyed.details[d], word, patch));
    MoreWordsShow(db, keyed, q, d);
    forall r, e | r != q || e != d ensures Shows(after, r, e) == Shows(db, r, e) {
      MoreWordsShow(db, keyed, r, e);
      if e == d && Link(d, r) in db.learning { SingleRef(db, d, q, r); }
    }
  }

  /** The edit would leave every line that shows the detail as it is. */
  ghost predicate ChangesNoLine(db: Db, d: DetailId, seenKey: WordKey, patch: Patch) {
    forall q :: Shows(db, q, d).Some? ==> PatchedEntry(Shows(db, q, d).value, seenKey, patch) == Shows(db, q, d).value
  }

  /**
   * Copy on write protects the other packages exactly while the package still lists the detail when
   * the transaction runs, or the edit changes nothing anyway. The row is read before the transaction,
   * so it may be gone.
   */
  lemma UpdateSparesOthersExactly(db: Db, p: PackageId, d: DetailId, seen: Detail, seenKey: WordKey, patch: Patch)
    requires Sound(db) && SeenOk(db, seen, seenKey) && Update(db, p, d, seen, seenKey, patch).Some?
    ensures (forall q :: q != p ==> SameList(db, Update(db, p, d, seen, seenKey, patch).value.0, q))
       <==> Link(d, p) in db.learning || ChangesNoLine(db, d, seenKey, patch)
  {
    var after := Update(db, p, d, seen, seenKey, patch).value.0;
    if Link(d, p) in db.learning {
      forall q | q != p ensures SameList(db, after, q) {
        forall e ensures Shows(db, q, e) == Shows(after, q, e) {
          UpdateShows(db, p, d, seen, seenKey, patch, q, e);
        }
      }
    } else if Edits(patch, seenKey) {
      StaleUpdateExactly(db, p, d, seen, seenKey, patch);
    } else {
      NoEditChangesNothing(db, p, d, seen, seenKey, patch);
    }
  }

  lemma StaleUpdateExactly(db: Db, p: PackageId, d: DetailId, seen: Detail, seenKey: WordKey, patch: Patch)
    requires Sound(db) && SeenOk(db, seen, seenKey)
    requires Update(db, p, d, seen, seenKey, patch).Some? && Edits(patch, seenKey) && Link(d, p) !in db.learning
    ensures (forall q :: q != p ==> SameList(db, Update(db, p, d, seen, seenKey, patch).value.0, q))
       <==> ChangesNoLine(db, d, seenKey, patch)
  {
    var after := Update(db, p, d, seen, seenKey, patch).value.0;
    if !Referenced(db, d) {
      OverwritesUnseen(db, p, d, seen, seenKey, patch);
      return;
    }
    var q := StaleUpdateHitsAnother(db, p, d, seen, seenKey, patch);
    if ChangesNoLine(db, d, seenKey, patch) {
      forall r | r != p ensures SameList(db, after, r) {
        forall e ensures Shows(db, r, e) == Shows(after, r, e) {
          assert r != q || e != d ==> Shows(after, r, e) == Shows(db, r, e);
        }
      }
    } else {
      var r :| Shows(db, r, d).Some? && PatchedEntry(Shows(db, r, d).value, seenKey, patch) != Shows(db, r, d).value;
      OnlyLister(db, p, d, seen, seenKey, patch, q, r);
      assert !SameList(db, after, q) by { assert Shows(db, q, d) != Shows(after, q, d); }
    }
  }

  /** A stale edit of a detail no package lists shows nowhere. */
  lemma OverwritesUnseen(db: Db, p: PackageId, d: DetailId, seen: Detail, seenKey: WordKey, patch: Patch)
    requires Sound(db) && !Referenced(db, d) && Update(db, p, d, seen, seenKey, patch).Some? && Edits(patch, seenKey)
    ensures forall q :: SameList(db, Update(db, p, d, seen, seenKey, patch).value.0, q) && Shows(db, q, d).None?
  {
    var (keyed, word) := Keyed(db, seenKey, patch);
    KeyedFinds(db, seenKey, patch);
    forall q, e ensures Shows(Update(db, p, d, seen, seenKey, patch).value.0, q, e) == Shows(db, q, e) {
      MoreWordsShow(db, keyed, q, e);
    }
  }

  /** A stale edit commits only on a detail a single package lists. */
  lemma OnlyLister(db: Db, p: PackageId, d: DetailId, seen: Detail, seenKey: WordKey, patch: Patch,
                   q: PackageId, r: PackageId)
    requires Sound(db) && Update(db, p, d, seen, seenKey, patch).Some? && Edits(patch, seenKey)
    requires Link(d, p) !in db.learning && Shows(db, q, d).Some? && Shows(db, r, d).Some?
    ensures q == r
  {
    KeyedFinds(db, seenKey, patch);
    assert Refs(Keyed(db, seenKey, patch).0, d) == Refs(db, d);
    SingleRef(db, d, q, r);
  }

  lemma NoEditChangesNothing(db: Db, p: PackageId, d: DetailId, seen: Detail, seenKey: WordKey, patch: Patch)
    requires Update(db, p, d, seen, seenKey, patch).Some? && !Edits(patch, seenKey) && Link(d, p) !in db.learning
    ensures Update(db, p, d, seen, seenKey, patch).value.0 == db && ChangesNoLine(db, d, seenKey, patch)
  {
  }
}
