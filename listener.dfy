/**
 * `JobCompletionNotificationListener.afterJob`: once the job has ended,
 * and only if its status is COMPLETED, query the table and log every row.
 */
module Listener {
  import opened Records

  /** Spring Batch's `BatchStatus`. */
  datatype BatchStatus = Completed | Starting | Started | Stopping | Stopped | Failed | Abandoned | Unknown

  /** The entries `afterJob` logs. */
  datatype LogEntry = JobFinished | Found(id: string, name: string)
  {
    function Text(): string
    {
      match this
      case JobFinished => "!!! JOB FINISHED! Time to verify the results"
      case Found(id, name) => "Found <" + id + ", " + name + "> in the database."
    }
  }

  /** `SELECT id, name FROM customer` mapped with column 1 as id and column 2 as name, one entry per row. */
  function FoundEntries(rows: seq<ResultRow>): seq<LogEntry>
    requires forall i :: 0 <= i < |rows| ==> |rows[i].values| >= 2
  {
    seq(|rows|, i requires 0 <= i < |rows| =>
      var c := Customer(GetString(rows[i], 1), GetString(rows[i], 2));
      Found(c.id, c.name))
  }

  /**
   * The entries logged after a job with final status `status` over the table
   * `table`. The listener only reads the table, so the table is a parameter
   * and not a result.
   */
  function AfterJob(status: BatchStatus, table: seq<Row>): (log: seq<LogEntry>)
    ensures status != Completed ==> log == []
    ensures status == Completed ==> |log| == |table| + 1 && log[0] == JobFinished
    ensures status == Completed ==>
      forall i :: 0 <= i < |table| ==> log[i + 1] == Found(table[i].id, table[i].name)
  {
    if status == Completed then [JobFinished] + FoundEntries(Select(table)) else []
  }

  /** The lines `afterJob` writes for a completed job: the banner, then one sentence per row naming its id and name. */
  lemma AfterJobText(table: seq<Row>, i: nat)
    requires i < |table|
    ensures AfterJob(Completed, table)[0].Text() == "!!! JOB FINISHED! Time to verify the results"
    ensures AfterJob(Completed, table)[i + 1].Text() ==
      "Found <" + table[i].id + ", " + table[i].name + "> in the database."
  {
  }

  /** The pairs the listener logs are the records the store reader maps from the same rows. */
  lemma ListenerSeesMappedRecords(table: seq<Row>, i: nat)
    requires i < |table|
    ensures AfterJob(Completed, table)[i + 1] == Found(StoreRecords(table)[i].id, StoreRecords(table)[i].name)
  {
  }
}
