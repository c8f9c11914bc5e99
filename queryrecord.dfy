/** `cmd/paw/queryrecord.go`: what is recorded for one query, and the same record
    paired with its statistics. Reading and writing these records as JSON is not part
    of this model. */
module QueryRecords {
  import opened Driver
  import opened Collector
  import opened Stats

  /** `QueryRecord`: the query's position in the test file, its text, the samples of
      the measure runs, and one result per collector. */
  datatype QueryRecord = QueryRecord(queryNumber: int, query: string,
                                     executionTimes: seq<ExecutionTime>,
                                     collectorResults: seq<CollectorResult>)

  datatype QueryRecordWithStats = QueryRecordWithStats(record: QueryRecord, stats: Stats)

  /** `QueryRecordPairWithStats`: a record of the left-hand run next to the record of
      the right-hand run for the same query. */
  datatype QueryRecordPair = QueryRecordPair(lhs: QueryRecordWithStats, rhs: QueryRecordWithStats)

  /** The sort key of records: their query number. */
  function Number(r: QueryRecordWithStats): int {
    r.record.queryNumber
  }

  /** The sort key of pairs: the query number of the left-hand record. */
  function PairNumber(p: QueryRecordPair): int {
    p.lhs.record.queryNumber
  }
}
