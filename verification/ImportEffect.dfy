/**
 * The pipeline's abstract save and the transaction on the word tables are the same effect: what the
 * pipeline proves about rows and recorded jobs holds for word details and learning rows.
 */
module ImportEffect {
  import opened Prelude
  import opened SpacedRepetition
  import P = ImportPipeline
  import W = WordTables

  /** The words of a job, read as the word-adding transaction takes them. */
  function Submitted(job: P.Job, read: string -> W.NewWord): (words: seq<W.NewWord>)
    ensures |words| == |job.words| && forall i :: 0 <= i < |words| ==> words[i] == read(job.words[i])
  {
    seq(|job.words|, i requires 0 <= i < |job.words| => read(job.words[i]))
  }

  /** The line a package shows for a submitted word. */
  function Line(word: W.NewWord): W.Entry {
    W.Entry(word.key, word.content, word.level.GetOr(X))
  }

  /** The row is the line its package shows for detail `d`. */
  ghost predicate Shown(row: P.Row, db: W.Db, d: W.DetailId, read: string -> W.NewWord) {
    W.Shows(db, row.packageId, d) == Some(Line(read(row.word)))
  }

  /** Row `i` that the pipeline inserts is the line on the `i`-th new detail. */
  ghost predicate Inserted(rows: seq<P.Row>, db: W.Db, after: W.Db, read: string -> W.NewWord) {
    && after.nextDetail == db.nextDetail + |rows|
    && forall i :: 0 <= i < |rows| ==> Shown(rows[i], after, db.nextDetail + i, read)
  }

  /**
   * A transaction that commits does what the pipeline's save does: it records the same jobs, inserts
   * a learning row for each row of the pipeline and reports every word. It rolls back only for a
   * package that is gone.
   */
  lemma SaveIsTheTransaction(s: P.State, db: W.Db, jobId: P.JobId, job: P.Job, read: string -> W.NewWord)
    requires W.Sound(db) && db.applied == s.applied
    ensures var (after, outcome) := W.AddWords(db, job.packageId, Submitted(job, read), Some(jobId));
            var t := P.Save(s, P.Payload(jobId, job));
            && (outcome.RolledBack? <==> jobId !in s.applied && job.packageId !in db.packages && job.words != [])
            && (outcome.RolledBack? ==> after == db)
            && (!outcome.RolledBack? ==>
                  && outcome.count == |job.words| && after.applied == t.applied
                  && s.rows <= t.rows && Inserted(t.rows[|s.rows|..], db, after, read))
  {
    var words := Submitted(job, read);
    var (after, outcome) := W.AddWords(db, job.packageId, words, Some(jobId));
    var t := P.Save(s, P.Payload(jobId, job));
    W.AddWordsSound(db, job.packageId, words, Some(jobId));
    if outcome.Added? {
      InsertedRows(db, jobId, job, read);
      assert t.rows[|s.rows|..] == P.JobRows(jobId, job);
    }
  }

  lemma InsertedRows(db: W.Db, jobId: P.JobId, job: P.Job, read: string -> W.NewWord)
    requires W.Sound(db) && W.AddWords(db, job.packageId, Submitted(job, read), Some(jobId)).1.Added?
    ensures Inserted(P.JobRows(jobId, job), db,
                     W.AddWords(db, job.packageId, Submitted(job, read), Some(jobId)).0, read)
  {
    var words, rows := Submitted(job, read), P.JobRows(jobId, job);
    var after := W.AddWords(db, job.packageId, words, Some(jobId)).0;
    NewDetails(db, job.packageId, words, jobId);
    forall i | 0 <= i < |rows| ensures Shown(rows[i], after, db.nextDetail + i, read) {
      InsertedRow(db, jobId, job, read, i);
    }
  }

  lemma InsertedRow(db: W.Db, jobId: P.JobId, job: P.Job, read: string -> W.NewWord, i: nat)
    requires W.Sound(db) && W.AddWords(db, job.packageId, Submitted(job, read), Some(jobId)).1.Added?
    requires i < |job.words|
    ensures Shown(P.JobRows(jobId, job)[i],
                  W.AddWords(db, job.packageId, Submitted(job, read), Some(jobId)).0, db.nextDetail + i, read)
  {
    W.AddWordsShows(db, job.packageId, Submitted(job, read), Some(jobId), job.packageId, db.nextDetail + i);
  }

  lemma NewDetails(db: W.Db, p: W.PackageId, words: seq<W.NewWord>, jobId: P.JobId)
    requires W.Sound(db) && W.AddWords(db, p, words, Some(jobId)).1.Added?
    ensures W.AddWords(db, p, words, Some(jobId)).0.nextDetail == db.nextDetail + |words|
  {
    W.RecordSound(db, Some(jobId));
    W.UpsertAllFinds(W.Record(db, Some(jobId)), words);
    var keyed := W.UpsertAll(W.Record(db, Some(jobId)), words);
    W.AddEntriesSound(keyed, p, W.Entries(keyed, words));
  }
}
