# SanTrack ETL risk scoring, modelled in Dafny

SanTrack ETL is a batch job over a table of sanitation inspections. Each
inspection has a checklist, a nullable risk score and a status. One run opens
a connection and selects every inspection whose score is NULL. It scores each
such checklist against a fixed four-factor weight table, writes the score and
the status `scored` back to that inspection, and commits once at the end.

The model has four modules:

- `Checklist` (checklist.dfy): the decoded checklist. `JsonValue` is a decoded
  JSON document. `Truthy` is Python truthiness. `Payload` is either a decoded
  document, text that does not decode (`Malformed`), or a NULL column
  (`Missing`). `Get` is `checklist.get(factor, False)`.
- `RiskScore` (risk_score.dfy): the weight table `RiskWeights`
  (handwashing −5, pests 10, waste_disposal 8, stagnant_water 12). The raw sum
  `RawSum` adds the weight of every factor that is not present. `Normalize`
  divides by 20, clamps to [0, 10] and rounds to two decimals. `ScoreWith`
  scores a payload under any table, and `RiskScore` scores it under the fixed
  one. Lemmas cover bounds, exact values, the fail-safe branch, key
  independence and order independence.
- `RecordStore` (record_store.dfy): the inspections table as a `Database`
  object. It has the durable rows `committed`, the open transaction's view
  `staged`, and a ghost `log` of the writing statements issued. Its methods
  are `Open`, `SelectPending`, `Update`, `Commit` and `Close`.
- `Etl` (etl.dfy): the job object `SanTrackEtl`. It holds the weight table,
  its `CalculateRiskScore` loop and its `RunEtl` pass. Beside them are
  `EtlPass`, the table after one pass as a function of the table before, and
  lemmas about it.

Scores are exact integers in hundredths of a point: 1.25 is 125 and the
maximum 10.0 is `MaxRisk` = 1000. The raw sum is an integer and the divisor
is 20, so `round(min(max(raw / 20, 0), 10), 2)` is exactly
`clamp(5 * raw, 0, 1000)` hundredths.

The selection order is not fixed. `SelectPending` picks the pending ids one
by one with no order imposed. So every property of `RunEtl` holds for
every order the store might return.

Non-boolean checklist values are not an error in `calculate_risk_score`
(main.py:46-47): their truthiness decides. `"yes"`, `1` or `[0]` count as
present, and `0`, `""`, `null`, `[]` and `{}` count as absent. Under the fixed
table, only a payload that is not a decoded object scores 10.0.

## Model

| member | source | states |
|---|---|---|
| `RiskScore.ScoreWith` | main.py:40-50 | For any weight table, every payload scores within [0, 1000]. Text that does not decode, or a NULL column, scores exactly 1000. A decoded document that is not an object (a list, string, number, boolean or null) scores 1000 under a non-empty table, where the first `get` raises. Under an empty table the loop asks nothing, so every decoded document scores 0. |
| `RiskScore.Normalize` | main.py:48 | The clamped result lies in [0, 1000]. It is 0 exactly when the raw sum is at most 0, and 1000 exactly when the raw sum is at least 200. Strictly between those, the result is raw / 20 in hundredths (r * 20 == raw * 100). |
| `Etl.SanTrackEtl.CalculateRiskScore` | main.py:40-50 | The loop over the weight table returns exactly `ScoreWith` of the job's table and the payload, so the result is in [0, 1000]. Undecodable text returns at once; a non-object returns the maximum inside the loop, where `get` would raise. |
| `Etl.SanTrackEtl.constructor` | main.py:13-17 | The job's table is the fixed four-entry table. |
| `RiskScore.RiskWeightsTable` | main.py:14-17 | The fixed table `RiskWeights` names exactly the four factors handwashing, pests, waste_disposal and stagnant_water, with no name twice, as dictionary keys are. Its weights sum to 25, its positive weights to 30 and its negative ones to −5. |
| `Checklist.Truthy` | main.py:47 | Definition: Python truthiness of a decoded value, the test `if present`. |
| `Checklist.Get` | main.py:46 | Definition: `checklist.get(factor, False)`; an absent key reads as false. |
| `RiskScore.RawSum` | main.py:44-47 | Definition: the loop's accumulated sum, adding `weight * (0 if present else 1)` for each table entry. |
| `RiskScore.RiskScore` | main.py:40-50 | Definition: `ScoreWith` under the fixed table. |
| `RecordStore.PendingIds` | main.py:60 | Definition: the ids that `WHERE risk_score IS NULL` selects. |
| `RecordStore.SetScore` | main.py:75 | Definition: the effect of one `UPDATE … SET risk_score = ?, status = 'scored' WHERE id = ?`; an id that is absent is untouched. |
| `Etl.UpdatesFor` | main.py:70-79 | Definition: the sequence of update statements a pass issues, one per selected row in selection order, each with that row's score. |
| `RiskScore.RawSumBetween` | main.py:45-47 | For any table and checklist, the raw sum lies between the sum of the negative weights and the sum of the positive weights. |
| `RiskScore.DecodedObjectScoresAtMost150` | main.py:14-17 | Under the fixed weights, any decoded checklist object scores between 0 and 150 (at most 1.50). |
| `RiskScore.MaxRiskIffBadData` | main.py:42-50 | Under the fixed weights, the score is 1000 if and only if the payload is not a decoded object. The maximum arises only from the bad-data branch. |
| `RiskScore.NothingPresentScores125` | main.py:45-48 | A checklist object with none of the four factors present (missing or falsy) scores 125, that is (−5+10+8+12)/20 = 1.25. |
| `RiskScore.EmptyChecklistScores125` | main.py:46 | The empty object scores 125, because a missing key defaults to false. |
| `RiskScore.EverythingPresentScoresZero` | main.py:45-48 | A checklist object with all four factors truthy scores 0. |
| `RiskScore.SampleChecklistScores110` | main.py:45-48 | `{"handwashing":true,"pests":false,"waste_disposal":true,"stagnant_water":false}` scores 110 (raw 22, 1.10). |
| `RiskScore.NothingPresentSumsAllWeights` | main.py:46-47 | For any table, when no factor is present the raw sum is the sum of all weights. |
| `RiskScore.EverythingPresentSumsToZero` | main.py:46-47 | For any table, when every factor is present the raw sum is 0. |
| `RiskScore.RawSumDependsOnlyOnFactors` | main.py:46-47 | Two checklists that agree on whether each factor of the table is present have the same raw sum. |
| `RiskScore.ScoreIgnoresOtherKeys` | main.py:45-46 | Adding or overwriting a key that the table does not name never changes the score. |
| `RiskScore.RawSumOrderIrrelevant` | main.py:45-47 | Two tables that are permutations of each other give the same raw sum for every checklist. |
| `RiskScore.ScoreOrderIrrelevant` | main.py:45 | Two tables that are permutations of each other give the same score for every payload. |
| `RecordStore.DistinctRowCount` | main.py:70-79 | Selected rows with distinct ids are as many as their ids, so the count of processed rows is the number of pending records. |
| `RecordStore.Database.Open` | main.py:29-32 | A new connection's transaction starts from the committed rows. A new connection writes nothing. |
| `RecordStore.Database.SelectPending` | main.py:59-62 | Returns each record with a NULL score exactly once, with its checklist, in some order. No other record is returned. |
| `RecordStore.Database.Update` | main.py:73-77 | Inside the transaction, the given id gets the score and status `scored`. Its checklist is kept and an absent id is untouched. Nothing becomes durable, and one update statement is logged. |
| `RecordStore.Database.Commit` | main.py:81 | The transaction's rows become the committed rows, and one commit is logged. |
| `RecordStore.Database.Close` | main.py:36-38 | Uncommitted writes are discarded. The committed rows are unchanged. |
| `Etl.EtlPass` | main.py:59-79 | After a pass, the set of ids is the same and no record has a NULL score. Every checklist is unchanged, and every record that had a score is unchanged. Every previously pending record has the score of its checklist and status `scored`. |
| `Etl.SanTrackEtl.RunEtl` | main.py:52-84 | If the connection fails, the store is untouched. If nothing is pending, the run returns `UpToDate` with no update and no commit. Otherwise the committed table becomes `EtlPass` of the old one, and the count is the number of pending records. The log gains one update per pending record, in selection order with its score, then exactly one commit. The connection leaves nothing uncommitted. |
| `Etl.EtlPassIdempotent` | main.py:60 | A second pass over the result of a pass changes nothing. |
| `Etl.EtlPassWithoutPendingIsIdentity` | main.py:65-67 | With no pending record, a pass leaves the table as it is. |
| `Etl.EtlPassKeepsScoresInBand` | main.py:71-77 | If every stored score is in [0, 1000] before a pass, every stored score is in [0, 1000] after it. |
| `Etl.SampleRecordIsScored110` | main.py:70-79 | A table holding one pending record with the sample checklist ends with that record scored 110, with status `scored`. |
| `Etl.RunTwice` | main.py:59-67 | Running the job twice: the first run reports `UpToDate` when nothing is pending and otherwise the number of pending records; the second run reports `UpToDate`, and the table ends as one pass leaves it. The log holds only the first run's updates, one for each pending record of the starting table in the first run's selection order, then its one commit; the second run issues no statement. Nothing is left uncommitted. |

## Left out

- `get_connection`: the connection string, the ODBC driver and the error printout are not modelled. A connection that cannot be opened is the `connects` parameter of `RunEtl`, and in that case the store is untouched.
- The SQL text and the pandas and pyodbc calls are not modelled. They become the `SelectPending`, `Update` and `Commit` methods on an in-memory map.
- A query, update or commit that fails part way through a batch is not modelled, and neither is the store's rollback of the updates already issued. In the model these statements always succeed.
- The JSON text grammar is not modelled. A payload is the decoded document, or `Malformed` when decoding fails.
- Numbers in decoded checklists are exact reals. The non-finite values `NaN` and `Infinity`, which Python's decoder accepts and treats as truthy, are not modelled. Neither is rounding of float literals.
- `RiskScore.Normalize`: the score is an exact count of hundredths, not a binary float. The float that `round(x, 2)` returns is the nearest double to that count divided by 100.
- RiskScore.ScoreWith: a raw sum whose quotient by 20 lies beyond the range of a double makes the division raise, and the source then returns 10.0. The model clamps such sums to 0 or 1000 instead. Only a synthetic table with weights near 2^1024 gets there; the fixed table's raw sum stays within −5..30.
- All console and log output is left out. It is operational text with no contract.
- Concurrent runs are not modelled. Two runs could select the same pending record, and a run is single-threaded.
