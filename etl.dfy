/** The batch job: select the records without a score, score each one, write
    the score and the status back, and commit once. */
module Etl {
  import opened Checklist
  import opened RiskScore
  import opened RecordStore

  /** How a run ends. The job raises on a connection error and returns
      nothing otherwise; `processed` is the count it reports. */
  datatype RunResult = ConnectionFailed | UpToDate | Completed(processed: nat)

  /** A pending record once the job has scored it. */
  function ScoredRecord(weights: seq<Weight>, rec: Record): Record {
    Record(rec.checklist, Some(ScoreWith(weights, rec.checklist)), ScoredStatus)
  }

  /** The table after one complete pass. */
  function EtlPass(weights: seq<Weight>, db: map<Id, Record>): (r: map<Id, Record>)
    ensures r.Keys == db.Keys
    ensures PendingIds(r) == {}
    ensures forall id :: id in db ==> r[id].checklist == db[id].checklist
    ensures forall id :: id in db && db[id].riskScore.Some? ==> r[id] == db[id]
    ensures forall id :: id in PendingIds(db) ==>
      r[id].riskScore == Some(ScoreWith(weights, db[id].checklist)) && r[id].status == ScoredStatus
  {
    map id | id in db :: if db[id].riskScore.None? then ScoredRecord(weights, db[id]) else db[id]
  }

  /** The statements a pass issues for the selected rows, in their order. */
  function UpdatesFor(weights: seq<Weight>, rows: seq<Row>): seq<Statement> {
    if rows == [] then []
    else UpdatesFor(weights, rows[..|rows| - 1]) + [UpdateScore(rows[|rows| - 1].id, ScoreWith(weights, rows[|rows| - 1].checklist))]
  }

  /** Every stored score lies in [0, 10]. */
  predicate ScoresInBand(db: map<Id, Record>) {
    forall id :: id in db && db[id].riskScore.Some? ==> 0 <= db[id].riskScore.value <= MaxRisk
  }

  /** A pass keeps every stored score in [0, 10]. */
  lemma EtlPassKeepsScoresInBand(weights: seq<Weight>, db: map<Id, Record>)
    requires ScoresInBand(db)
    ensures ScoresInBand(EtlPass(weights, db))
  {
  }

  /** A second pass changes nothing. */
  lemma EtlPassIdempotent(weights: seq<Weight>, db: map<Id, Record>)
    ensures EtlPass(weights, EtlPass(weights, db)) == EtlPass(weights, db)
  {
  }

  /** With nothing pending, a pass is the identity. */
  lemma EtlPassWithoutPendingIsIdentity(weights: seq<Weight>, db: map<Id, Record>)
    requires PendingIds(db) == {}
    ensures EtlPass(weights, db) == db
  {
  }

  /** One pending record with the sample checklist ends with score 1.10 and status "scored". */
  lemma SampleRecordIsScored110()
    ensures
      var payload := Decoded(JObject(map[
        "handwashing" := JBool(true), "pests" := JBool(false),
        "waste_disposal" := JBool(true), "stagnant_water" := JBool(false)]));
      EtlPass(RiskWeights, map[1 := Record(payload, None, "pending")])
        == map[1 := Record(payload, Some(110), ScoredStatus)]
  {
  }

  /** Part way through a pass: the ids in `done` are scored, every other record is as it was. */
  predicate ScoredSoFar(weights: seq<Weight>, db0: map<Id, Record>, db: map<Id, Record>, done: set<Id>) {
    && db.Keys == db0.Keys
    && forall id :: id in db0 ==> db[id] == if id in done then ScoredRecord(weights, db0[id]) else db0[id]
  }

  /** Scoring one more pending record extends the done set by its id. */
  lemma ScoreOneMore(weights: seq<Weight>, db0: map<Id, Record>, db: map<Id, Record>, done: set<Id>, id: Id)
    requires ScoredSoFar(weights, db0, db, done)
    requires id in db0 && id !in done
    ensures ScoredSoFar(weights, db0, SetScore(db, id, ScoreWith(weights, db0[id].checklist)), done + {id})
  {
  }

  /** Once every pending record is scored, the table is the one a whole pass gives. */
  lemma AllScoredIsPass(weights: seq<Weight>, db0: map<Id, Record>, db: map<Id, Record>)
    requires ScoredSoFar(weights, db0, db, PendingIds(db0))
    ensures db == EtlPass(weights, db0)
  {
    var pass := EtlPass(weights, db0);
    forall id | id in db0 ensures db[id] == pass[id] {
      if db0[id].riskScore.None? {
        assert id in PendingIds(db0);
      }
    }
  }

  /** The next row of a distinct selection is new, and taking it adds its id. */
  lemma NextRow(rows: seq<Row>, i: nat)
    requires DistinctIds(rows) && i < |rows|
    ensures rows[i].id !in RowIds(rows[..i])
    ensures RowIds(rows[..i + 1]) == RowIds(rows[..i]) + {rows[i].id}
  {
  }

  lemma UpdatesForNext(weights: seq<Weight>, rows: seq<Row>, i: nat)
    requires i < |rows|
    ensures UpdatesFor(weights, rows[..i + 1])
      == UpdatesFor(weights, rows[..i]) + [UpdateScore(rows[i].id, ScoreWith(weights, rows[i].checklist))]
  {
    assert rows[..i + 1][..i] == rows[..i];
  }

  /** The job object: it owns the weight table, fixed when it is built. */
  class SanTrackEtl {
    const riskWeights: seq<Weight> := RiskWeights

    constructor ()
      ensures riskWeights == RiskWeights
    {
    }

    /** Scores one checklist by walking the weight table. */
    method CalculateRiskScore(checklist: Payload) returns (score: int)
      ensures score == ScoreWith(riskWeights, checklist)
      ensures 0 <= score <= MaxRisk
    {
      if !checklist.Decoded? {
        // the text does not decode: maximum risk for bad data
        return MaxRisk;
      }
      var doc := checklist.value;
      var raw := 0;
      var i := 0;
      while i < |riskWeights|
        invariant 0 <= i <= |riskWeights|
        invariant i > 0 ==> doc.JObject?
        invariant doc.JObject? ==> raw == RawSum(riskWeights[..i], doc.fields)
        invariant !doc.JObject? ==> raw == 0
      {
        if !doc.JObject? {
          // the document has no `get`: maximum risk for bad data
          return MaxRisk;
        }
        var (factor, weight) := riskWeights[i];
        var present := Get(doc.fields, factor);
        raw := raw + weight * (if Truthy(present) then 0 else 1);
        RawSumPrefix(riskWeights, i, doc.fields);
        i := i + 1;
      }
      assert riskWeights[..i] == riskWeights;
      score := Normalize(raw);
    }

    /** One run of the job against `store`. `connects` says whether the
        connection can be opened; `selected` is the order the pending query chose. */
    method RunEtl(store: Database, connects: bool) returns (result: RunResult, ghost selected: seq<Row>)
      modifies store
      ensures !connects ==> result == ConnectionFailed && unchanged(store)
      ensures connects ==> store.staged == store.committed
      ensures connects && PendingIds(old(store.committed)) == {} ==>
        && result == UpToDate
        && store.committed == old(store.committed)
        && store.log == old(store.log)
      ensures connects && PendingIds(old(store.committed)) != {} ==>
        && result == Completed(|PendingIds(old(store.committed))|)
        && SelectedFrom(selected, old(store.committed))
        && store.committed == EtlPass(riskWeights, old(store.committed))
        && store.log == old(store.log) + UpdatesFor(riskWeights, selected) + [CommitBatch]
    {
      selected := [];
      if !connects {
        return ConnectionFailed, selected;
      }
      store.Open();
      var db0 := store.committed;
      ghost var log0 := store.log;
      var rows := store.SelectPending();
      selected := rows;
      if |rows| == 0 {
        assert RowIds(rows) == {};
        store.Close();
        return UpToDate, selected;
      }
      var processed := 0;
      var i := 0;
      while i < |rows|
        invariant 0 <= i <= |rows| && processed == i
        invariant store.committed == db0
        invariant ScoredSoFar(riskWeights, db0, store.staged, RowIds(rows[..i]))
        invariant store.log == log0 + UpdatesFor(riskWeights, rows[..i])
      {
        var row := rows[i];
        assert row in rows;
        var score := CalculateRiskScore(row.checklist);
        NextRow(rows, i);
        ScoreOneMore(riskWeights, db0, store.staged, RowIds(rows[..i]), row.id);
        UpdatesForNext(riskWeights, rows, i);
        store.Update(row.id, score);
        processed := processed + 1;
        i := i + 1;
      }
      assert rows[..i] == rows;
      AllScoredIsPass(riskWeights, db0, store.staged);
      store.Commit();
      store.Close();
      DistinctRowCount(rows);
      return Completed(processed), selected;
    }
  }

  /** Running the job twice: the second run finds nothing pending and issues no
      statement, so the log holds only what the first run wrote. */
  method RunTwice(etl: SanTrackEtl, store: Database) returns (first: RunResult, second: RunResult, ghost selected: seq<Row>)
    modifies store
    ensures first == if PendingIds(old(store.committed)) == {} then UpToDate else Completed(|PendingIds(old(store.committed))|)
    ensures second == UpToDate
    ensures store.committed == EtlPass(RiskWeights, old(store.committed))
    ensures store.staged == store.committed
    ensures PendingIds(old(store.committed)) != {} ==> SelectedFrom(selected, old(store.committed))
    ensures store.log == old(store.log) +
      (if PendingIds(old(store.committed)) == {} then [] else UpdatesFor(RiskWeights, selected) + [CommitBatch])
  {
    ghost var db0 := store.committed;
    ghost var secondSelected: seq<Row>;
    first, selected := etl.RunEtl(store, true);
    if PendingIds(db0) == {} {
      EtlPassWithoutPendingIsIdentity(etl.riskWeights, db0);
    }
    second, secondSelected := etl.RunEtl(store, true);
    EtlPassIdempotent(etl.riskWeights, db0);
  }
}
