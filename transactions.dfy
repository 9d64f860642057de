/**
 * The transaction protocol every writing handler follows on the shared connection:
 * `beginTransaction`, one `INSERT`, `commit`; an error at the insert or the commit is answered
 * after `rollback`. Which step the database refuses is given as `Faults`.
 */
module Transactions {
  import opened Http
  import opened Store

  /** The steps at which the database reports an error for this request. */
  datatype Faults = Faults(begin: bool, lookup: bool, write: bool, commit: bool)

  /** Where a single-insert transaction ends. */
  datatype Status = BeginFailed | WriteFailed | CommitFailed | Committed

  /** The first refused step of begin, insert and commit decides where the transaction ends. */
  function WriteStatus(f: Faults): (s: Status)
    ensures s == Committed <==> !f.begin && !f.write && !f.commit
    ensures s == BeginFailed <==> f.begin
  {
    if f.begin then BeginFailed
    else if f.write then WriteFailed
    else if f.commit then CommitFailed
    else Committed
  }

  /** What a handler answers and the tables it leaves behind. */
  datatype Outcome = Outcome(reply: Reply, tables: Tables)

  /** The tables after a transaction that ended with `s`: the insert applied only on commit. */
  function After(s: Status, t: Tables, ins: Insert): Tables
  {
    if s == Committed then Apply(t, ins) else t
  }

  /**
   * Begin, insert, commit; after a refused insert or commit the transaction is rolled back,
   * so the tables are either the old ones with the rows appended or exactly the old ones.
   */
  method Transact(db: Database, ins: Insert, f: Faults) returns (status: Status)
    requires !db.InTransaction()
    modifies db
    ensures !db.InTransaction()
    ensures status == WriteStatus(f)
    ensures db.Content() == After(status, old(db.Content()), ins)
  {
    var ok := db.Begin(f.begin);
    if !ok {
      return BeginFailed;
    }
    ok := db.Execute(ins, f.write);
    if !ok {
      db.Rollback();
      return WriteFailed;
    }
    ok := db.Commit(f.commit);
    if !ok {
      db.Rollback();
      return CommitFailed;
    }
    return Committed;
  }
}
