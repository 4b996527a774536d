/** The inspections table, reduced to what the job touches: a map from record
    id to record, the working copy an open connection writes to, and the log
    of statements issued on it. */
module RecordStore {
  import opened Checklist

  datatype Option<T> = None | Some(value: T)

  /** A record's primary key. */
  type Id = int

  /** The status literal written next to every computed score. */
  const ScoredStatus: string := "scored"

  /** One inspection record. A score of None is SQL NULL: not yet scored. */
  datatype Record = Record(checklist: Payload, riskScore: Option<int>, status: string)

  /** One row of the pending query, projected to id and checklist. */
  datatype Row = Row(id: Id, checklist: Payload)

  /** The writing statements the job issues, in order. */
  datatype Statement = UpdateScore(id: Id, riskScore: int) | CommitBatch

  /** The ids the pending query selects: those whose score is NULL. */
  function PendingIds(db: map<Id, Record>): set<Id> {
    set id | id in db && db[id].riskScore.None?
  }

  /** The effect of the score update on one id; an id that is not there is not touched. */
  function SetScore(db: map<Id, Record>, id: Id, score: int): map<Id, Record> {
    if id in db then db[id := Record(db[id].checklist, Some(score), ScoredStatus)] else db
  }

  function RowIds(rows: seq<Row>): set<Id> {
    set r | r in rows :: r.id
  }

  predicate DistinctIds(rows: seq<Row>) {
    forall i, j :: 0 <= i < j < |rows| ==> rows[i].id != rows[j].id
  }

  /** What the pending query returns: each pending record exactly once, with its
      checklist, in an order the store chooses. */
  predicate SelectedFrom(rows: seq<Row>, db: map<Id, Record>) {
    && DistinctIds(rows)
    && RowIds(rows) == PendingIds(db)
    && forall r :: r in rows ==> r.id in db && r.checklist == db[r.id].checklist
  }

  lemma SomeMember(s: set<Id>)
    requires s != {}
    ensures exists x :: x in s
  {
    if forall x :: x !in s {
      assert false;
    }
  }

  /** Rows with distinct ids have as many ids as rows. */
  lemma {:induction false} DistinctRowCount(rows: seq<Row>)
    requires DistinctIds(rows)
    ensures |RowIds(rows)| == |rows|
  {
    if rows != [] {
      var rest := rows[1..];
      assert RowIds(rows) == {rows[0].id} + RowIds(rest) by {
        assert rows == [rows[0]] + rest;
      }
      assert rows[0].id !in RowIds(rest) by {
        forall r | r in rest ensures r.id != rows[0].id {
          var j :| 0 <= j < |rest| && rest[j] == r;
          assert rows[j + 1] == r;
        }
      }
      assert DistinctIds(rest) by {
        forall i, j | 0 <= i < j < |rest| ensures rest[i].id != rest[j].id {
          assert rest[i] == rows[i + 1] && rest[j] == rows[j + 1];
        }
      }
      DistinctRowCount(rest);
    }
  }

  /** The table as one connection sees it. */
  class Database {
    /** The durable content of the table. */
    var committed: map<Id, Record>
    /** The content as seen inside the connection's open transaction. */
    var staged: map<Id, Record>
    /** Every writing statement issued so far. */
    ghost var log: seq<Statement>

    constructor (rows: map<Id, Record>)
      ensures committed == rows && staged == rows && log == []
    {
      committed := rows;
      staged := rows;
      log := [];
    }

    /** Opening a connection: its transaction starts from the durable content. */
    method Open()
      modifies this
      ensures staged == committed
      ensures committed == old(committed) && log == old(log)
    {
      staged := committed;
    }

    /** `SELECT id, checklist FROM inspections WHERE risk_score IS NULL`, in no
        particular order. */
    method SelectPending() returns (rows: seq<Row>)
      ensures SelectedFrom(rows, staged)
    {
      var remaining := PendingIds(staged);
      rows := [];
      while remaining != {}
        invariant RowIds(rows) !! remaining
        invariant RowIds(rows) + remaining == PendingIds(staged)
        invariant DistinctIds(rows)
        invariant forall r :: r in rows ==> r.id in staged && r.checklist == staged[r.id].checklist
        decreases remaining
      {
        SomeMember(remaining);
        var id :| id in remaining;
        rows := rows + [Row(id, staged[id].checklist)];
        remaining := remaining - {id};
      }
    }

    /** `UPDATE inspections SET risk_score = ?, status = 'scored' WHERE id = ?`:
        visible inside the transaction, not yet durable. */
    method Update(id: Id, score: int)
      modifies this
      ensures staged == SetScore(old(staged), id, score)
      ensures committed == old(committed)
      ensures log == old(log) + [UpdateScore(id, score)]
    {
      staged := SetScore(staged, id, score);
      log := log + [UpdateScore(id, score)];
    }

    /** Making the transaction's writes durable. */
    method Commit()
      modifies this
      ensures committed == old(staged) && staged == old(staged)
      ensures log == old(log) + [CommitBatch]
    {
      committed := staged;
      log := log + [CommitBatch];
    }

    /** Closing the connection: whatever was not committed is discarded. */
    method Close()
      modifies this
      ensures staged == old(committed)
      ensures committed == old(committed) && log == old(log)
    {
      staged := committed;
    }
  }
}
