/**
 * `importUserJob`: step1 loads the XML source into the table, step2 reads
 * the table back into the cache and the CSV file, and the completion
 * listener runs once the job has ended. This module states what one run of
 * the job does, as a function of the state before it.
 */
module Job {
  import opened Wrappers
  import opened Chunking
  import opened Records
  import opened Cache
  import Listener

  /** Where a job run is: `.start(step1).next(step2)`, failing in either step. */
  datatype Phase = NotStarted | Step1 | Step2 | Completed | Failed

  predicate Transition(a: Phase, b: Phase)
  {
    match a
    case NotStarted => b == Step1
    case Step1 => b == Step2 || b == Failed
    case Step2 => b == Completed || b == Failed
    case _ => false
  }

  predicate Terminal(p: Phase)
  {
    p == Completed || p == Failed
  }

  /** A trace of phases that a launch can pass through, from NotStarted to a terminal phase. */
  predicate IsRun(t: seq<Phase>)
  {
    && |t| >= 2
    && t[0] == NotStarted
    && Terminal(t[|t| - 1])
    && forall i :: 0 <= i < |t| - 1 ==> Transition(t[i], t[i + 1])
  }

  /** The `BatchStatus` of a job execution in a given phase. */
  function StatusOf(p: Phase): Listener.BatchStatus
  {
    match p
    case NotStarted => Listener.Starting
    case Step1 => Listener.Started
    case Step2 => Listener.Started
    case Completed => Listener.Completed
    case Failed => Listener.Failed
  }

  /** Everything a run can change: the table, the cache, the CSV file, the log and the run counter. */
  datatype Snapshot = Snapshot(
    table: seq<Row>,
    data: map<string, string>,
    csv: seq<string>,
    log: seq<Listener.LogEntry>,
    runId: nat)

  /** The state after a run and the phases the run passed through. */
  datatype Run = Run(after: Snapshot, trace: seq<Phase>)
  {
    function Last(): Phase
      requires |trace| > 0
    {
      trace[|trace| - 1]
    }
  }

  /** The step2 reader over a table: the mapped rows in table order, with a cursor failure at `failAt`. */
  function Cursor(table: seq<Row>, failAt: Option<nat>): Input<CustomerPojo>
  {
    Input(StoreRecords(table), failAt)
  }

  /** One pull from the cursor: the failure, the record mapped from the next row, or the end of the table. */
  lemma CursorAt(table: seq<Row>, failAt: Option<nat>, k: nat)
    ensures |Select(table)| == |table|
    ensures k < |table| ==> HasIdName(Select(table)[k])
    ensures ReadAt(Cursor(table, failAt), k) ==
      if failAt == Some(k) then ReadError
      else if k < |table| then Item(RowToPojo(Select(table)[k]))
      else End
  {
    if k < |table| {
      StoreRecordAt(table, k);
    }
  }

  /**
   * One launch of the job. `src` is the XML source as the unmarshaller would
   * deliver it and `cursorFailAt` the position at which the step2 cursor
   * fails, if any.
   */
  function Job(s: Snapshot, src: Input<Customer>, cursorFailAt: Option<nat>): (r: Run)
    ensures r.after.runId == s.runId + 1
  {
    var table := s.table + Rows(Delivered(src));
    if Fails(src) then
      Run(Snapshot(table, s.data, s.csv, s.log + Listener.AfterJob(StatusOf(Failed), table), s.runId + 1),
          [NotStarted, Step1, Failed])
    else
      var cur := Cursor(table, cursorFailAt);
      var last := if Fails(cur) then Failed else Completed;
      Run(Snapshot(table, Upsert(s.data, Read(cur)), s.csv + Lines(Delivered(cur)),
                   s.log + Listener.AfterJob(StatusOf(last), table), s.runId + 1),
          [NotStarted, Step1, Step2, last])
  }

  /** The parts of a run, one by one. */
  lemma JobUnfolds(s: Snapshot, src: Input<Customer>, cursorFailAt: Option<nat>)
    ensures var r := Job(s, src, cursorFailAt);
      var table := s.table + Rows(Delivered(src));
      var cur := Cursor(table, cursorFailAt);
      var last := if Fails(src) || Fails(cur) then Failed else Completed;
      && r.after.table == table
      && r.after.data == (if Fails(src) then s.data else Upsert(s.data, Read(cur)))
      && r.after.csv == (if Fails(src) then s.csv else s.csv + Lines(Delivered(cur)))
      && r.after.log == s.log + Listener.AfterJob(StatusOf(last), table)
      && r.after.runId == s.runId + 1
      && r.trace == (if Fails(src) then [NotStarted, Step1, Failed] else [NotStarted, Step1, Step2, last])
  {
  }

  /** The table after a run alone: step1 appends the rows of the delivered items. */
  lemma JobTable(s: Snapshot, src: Input<Customer>, cursorFailAt: Option<nat>)
    ensures Job(s, src, cursorFailAt).after.table == s.table + Rows(Delivered(src))
  {
  }

  /** The log after a run alone: `afterJob` with the status of the last phase, over the final table. */
  lemma JobLog(s: Snapshot, src: Input<Customer>, cursorFailAt: Option<nat>)
    ensures var r := Job(s, src, cursorFailAt);
      && |r.trace| > 0
      && r.after.log == s.log + Listener.AfterJob(StatusOf(r.Last()), r.after.table)
  {
  }

  /** The phases of a run alone, without the rest of its outcome. */
  lemma JobTrace(s: Snapshot, src: Input<Customer>, cursorFailAt: Option<nat>)
    ensures var cur := Cursor(s.table + Rows(Delivered(src)), cursorFailAt);
      Job(s, src, cursorFailAt).trace ==
        if Fails(src) then [NotStarted, Step1, Failed]
        else [NotStarted, Step1, Step2, if Fails(cur) then Failed else Completed]
  {
  }

  /** The two shapes a launch's trace can take both follow the phase machine. */
  lemma TraceShapesAreRuns(step2Failed: bool)
    ensures IsRun([NotStarted, Step1, Failed])
    ensures IsRun([NotStarted, Step1, Step2, if step2Failed then Failed else Completed])
  {
    var t := [NotStarted, Step1, Step2, if step2Failed then Failed else Completed];
    assert Transition(t[0], t[1]) && Transition(t[1], t[2]) && Transition(t[2], t[3]);
  }

  /** Every launch follows the phase machine from NotStarted to Completed or Failed. */
  lemma JobFollowsPhases(s: Snapshot, src: Input<Customer>, cursorFailAt: Option<nat>)
    ensures IsRun(Job(s, src, cursorFailAt).trace)
  {
    JobTrace(s, src, cursorFailAt);
    TraceShapesAreRuns(Fails(Cursor(s.table + Rows(Delivered(src)), cursorFailAt)));
  }

  /** Step2 runs exactly when step1 succeeded; a failed step1 leaves the cache and the CSV file alone. */
  lemma Step2OnlyAfterStep1(s: Snapshot, src: Input<Customer>, cursorFailAt: Option<nat>)
    ensures Step2 in Job(s, src, cursorFailAt).trace <==> !Fails(src)
    ensures Fails(src) ==> Job(s, src, cursorFailAt).after.data == s.data
    ensures Fails(src) ==> Job(s, src, cursorFailAt).after.csv == s.csv
  {
    JobUnfolds(s, src, cursorFailAt);
  }

  /** A run completes exactly when neither reader fails. */
  lemma CompletedIff(s: Snapshot, src: Input<Customer>, cursorFailAt: Option<nat>)
    ensures var r := Job(s, src, cursorFailAt);
      r.Last() == Completed <==> !Fails(src) && !Fails(Cursor(r.after.table, cursorFailAt))
  {
    JobUnfolds(s, src, cursorFailAt);
  }

  /**
   * Step1 appends the completed chunks of the source to the table, one row
   * per item, field for field; the rows already there stay.
   */
  lemma Step1AppendsSource(s: Snapshot, src: Input<Customer>, cursorFailAt: Option<nat>)
    ensures var t := Job(s, src, cursorFailAt).after.table;
      && |t| == |s.table| + |Delivered(src)|
      && t[..|s.table|] == s.table
      && forall i :: 0 <= i < |Delivered(src)| ==>
           t[|s.table| + i] == Row(Delivered(src)[i].id, Delivered(src)[i].name)
  {
    var t := Job(s, src, cursorFailAt).after.table;
    var rows := Rows(Delivered(src));
    JobUnfolds(s, src, cursorFailAt);
    assert t == s.table + rows;
    forall i | 0 <= i < |Delivered(src)|
      ensures t[|s.table| + i] == Row(Delivered(src)[i].id, Delivered(src)[i].name)
    {
      assert t[|s.table| + i] == rows[i];
    }
  }

  /** A run only adds: table rows, CSV lines, log entries and cache keys survive it. */
  lemma AppendOnly(s: Snapshot, src: Input<Customer>, cursorFailAt: Option<nat>)
    ensures var a := Job(s, src, cursorFailAt).after;
      && s.table <= a.table && s.csv <= a.csv && s.log <= a.log
      && s.data.Keys <= a.data.Keys
  {
    var a := Job(s, src, cursorFailAt).after;
    if !Fails(src) {
      UpsertKeys(s.data, Read(Cursor(a.table, cursorFailAt)));
    }
  }

  /**
   * A run in which neither reader throws (a completed one, by `CompletedIff`)
   * wrote one CSV line `id,name` per row of the whole table, in table order,
   * after the lines already in the file.
   */
  lemma CompletedRunWritesEveryRow(s: Snapshot, src: Input<Customer>, cursorFailAt: Option<nat>)
    requires !Fails(src) && !Fails(Cursor(s.table + Rows(Delivered(src)), cursorFailAt))
    ensures var a := Job(s, src, cursorFailAt).after;
      && |a.csv| == |s.csv| + |a.table|
      && a.csv[..|s.csv|] == s.csv
      && forall i :: 0 <= i < |a.table| ==> a.csv[|s.csv| + i] == a.table[i].id + "," + a.table[i].name
  {
    var a := Job(s, src, cursorFailAt).after;
    CompletedRunCache(s, src, cursorFailAt);
    var lines := Lines(StoreRecords(a.table));
    assert |lines| == |a.table| by {
      if |a.table| > 0 {
        LineOfRow(a.table, 0);
      }
    }
    forall i | 0 <= i < |a.table|
      ensures a.csv[|s.csv| + i] == a.table[i].id + "," + a.table[i].name
    {
      LineOfRow(a.table, i);
    }
  }

  /** The ids read back from a table are the table's ids. */
  lemma IdsOfTable(table: seq<Row>)
    ensures Ids(StoreRecords(table)) == set i | 0 <= i < |table| :: table[i].id
  {
    var recs := StoreRecords(table);
    forall k | k in Ids(recs) ensures k in set i | 0 <= i < |table| :: table[i].id {
      var i :| 0 <= i < |recs| && recs[i].id == k;
      StoreRecordAt(table, i);
    }
    forall k | k in set i | 0 <= i < |table| :: table[i].id ensures k in Ids(recs) {
      var i :| 0 <= i < |table| && table[i].id == k;
      StoreRecordAt(table, i);
    }
  }

  /**
   * Mapping every row of a table into a cache: the keys become the old keys
   * plus the table's ids, each id is bound to the name of the last row with
   * that id, and old keys not in the table keep their values.
   */
  lemma {:induction false} CacheOfTable(m: map<string, string>, table: seq<Row>)
    ensures var c := Upsert(m, StoreRecords(table));
      && c.Keys == m.Keys + (set i | 0 <= i < |table| :: table[i].id)
      && (forall i :: 0 <= i < |table| && (forall j :: i < j < |table| ==> table[j].id != table[i].id) ==>
            c[table[i].id] == table[i].name)
      && (forall k :: k in m && (forall j :: 0 <= j < |table| ==> table[j].id != k) ==> c[k] == m[k])
  {
    var recs := StoreRecords(table);
    var c := Upsert(m, recs);
    UpsertKeys(m, recs);
    IdsOfTable(table);
    forall i | 0 <= i < |table| && (forall j :: i < j < |table| ==> table[j].id != table[i].id)
      ensures c[table[i].id] == table[i].name
    {
      UpsertLastWins(m, recs, i);
    }
    forall k | k in m && (forall j :: 0 <= j < |table| ==> table[j].id != k)
      ensures c[k] == m[k]
    {
      UpsertKeepsOthers(m, recs, k);
    }
  }

  /**
   * After a run in which neither reader throws (a completed one, by
   * `CompletedIff`) the cache is the old cache with every row of the final
   * table mapped into it, in order, and the CSV file has one more line per row.
   */
  lemma CompletedRunCache(s: Snapshot, src: Input<Customer>, cursorFailAt: Option<nat>)
    requires !Fails(src) && !Fails(Cursor(s.table + Rows(Delivered(src)), cursorFailAt))
    ensures var a := Job(s, src, cursorFailAt).after;
      && a.data == Upsert(s.data, StoreRecords(a.table))
      && a.csv == s.csv + Lines(StoreRecords(a.table))
  {
    JobUnfolds(s, src, cursorFailAt);
  }

  /**
   * When step2's cursor fails, the rows of the unfinished chunk were mapped
   * (so they reached the cache) but never written to the CSV file.
   */
  lemma FailedStep2Cache(s: Snapshot, src: Input<Customer>, cursorFailAt: Option<nat>)
    requires !Fails(src)
    requires Job(s, src, cursorFailAt).Last() == Failed
    ensures var a := Job(s, src, cursorFailAt).after;
      var cur := Cursor(a.table, cursorFailAt);
      && a.data == Upsert(Upsert(s.data, Delivered(cur)), Read(cur)[|Delivered(cur)|..])
      && a.csv == s.csv + Lines(Delivered(cur))
      && |Read(cur)| - |Delivered(cur)| < ChunkSize
  {
    var a := Job(s, src, cursorFailAt).after;
    var cur := Cursor(a.table, cursorFailAt);
    var r, d := Read(cur), Delivered(cur);
    assert r == d + r[|d|..];
    UpsertAppend(s.data, d, r[|d|..]);
  }

  /** The listener logs only after a completed run, and then reads the final table. */
  lemma LogOnlyWhenCompleted(s: Snapshot, src: Input<Customer>, cursorFailAt: Option<nat>)
    ensures var r := Job(s, src, cursorFailAt);
      && (r.Last() != Completed ==> r.after.log == s.log)
      && (r.Last() == Completed ==> r.after.log == s.log + Listener.AfterJob(Listener.Completed, r.after.table))
  {
    var r := Job(s, src, cursorFailAt);
    JobLog(s, src, cursorFailAt);
    if r.Last() != Completed {
      assert StatusOf(r.Last()) == Listener.Failed;
    }
  }

  /** From an empty table, a run over a well-formed source of N items stores exactly those N rows. */
  lemma FreshRunStoresSource(s: Snapshot, src: Input<Customer>, cursorFailAt: Option<nat>)
    requires s.table == [] && !Fails(src)
    ensures var t := Job(s, src, cursorFailAt).after.table;
      |t| == |src.items| && forall i :: 0 <= i < |t| ==> t[i] == Row(src.items[i].id, src.items[i].name)
  {
    JobTable(s, src, cursorFailAt);
    assert Delivered(src) == src.items;
    assert s.table + Rows(Delivered(src)) == Rows(src.items);
  }

  /** The two-customer scenario: the run completes and loads both customers into the table. */
  lemma AliceAndBobTable()
    ensures var r := Job(Snapshot([], map[], [], [], 0),
                         Input([Customer("1", "Alice"), Customer("2", "Bob")], None), None);
      && r.Last() == Completed
      && r.after.table == [Row("1", "Alice"), Row("2", "Bob")]
      && r.after.log == [Listener.JobFinished, Listener.Found("1", "Alice"), Listener.Found("2", "Bob")]
  {
    var src := Input([Customer("1", "Alice"), Customer("2", "Bob")], None);
    JobUnfolds(Snapshot([], map[], [], [], 0), src, None);
    assert Delivered(src) == src.items;
  }

  /** Reading the two-customer table back: its lines and the cache it fills. */
  lemma AliceAndBobReadBack()
    ensures var recs := StoreRecords([Row("1", "Alice"), Row("2", "Bob")]);
      && Lines(recs) == ["1,Alice", "2,Bob"]
      && Upsert(map[], recs) == map["1" := "Alice", "2" := "Bob"]
  {
    var table := [Row("1", "Alice"), Row("2", "Bob")];
    var recs := [CustomerPojo("1", "Alice"), CustomerPojo("2", "Bob")];
    StoreRecordAt(table, 0);
    StoreRecordAt(table, 1);
    assert StoreRecords(table) == recs;
    assert Line(recs[0]) == "1,Alice" && Line(recs[1]) == "2,Bob";
    assert Lines(recs) == ["1,Alice", "2,Bob"];
    assert recs[..1] == [CustomerPojo("1", "Alice")];
  }

  /** The two-customer scenario: the file gets one line per customer and the cache maps both ids. */
  lemma AliceAndBobOutputs()
    ensures var r := Job(Snapshot([], map[], [], [], 0),
                         Input([Customer("1", "Alice"), Customer("2", "Bob")], None), None);
      && r.after.csv == ["1,Alice", "2,Bob"]
      && r.after.data == map["1" := "Alice", "2" := "Bob"]
  {
    AliceAndBobTable();
    CompletedRunCache(Snapshot([], map[], [], [], 0), Input([Customer("1", "Alice"), Customer("2", "Bob")], None), None);
    AliceAndBobReadBack();
  }

  /** An empty source still completes, writes nothing and logs only the banner. */
  lemma EmptySource(s: Snapshot)
    requires s.table == []
    ensures var r := Job(s, Input([], None), None);
      && r.Last() == Completed && r.after.table == [] && r.after.csv == s.csv
      && r.after.data == s.data && r.after.log == s.log + [Listener.JobFinished]
  {
  }

  /** A malformed second fragment out of three: the job fails and the table is unchanged. */
  lemma MalformedSecondFragment(s: Snapshot, c1: Customer, c2: Customer, c3: Customer)
    ensures var r := Job(s, Input([c1, c2, c3], Some(1)), None);
      && r.Last() == Failed && r.after.table == s.table && r.after.csv == s.csv && r.after.data == s.data
  {
  }
}
