/**
 * `BatchConfiguration` as the state it updates in place: the `customer`
 * table, the static cache `data`, the append-mode file `users.csv`, the
 * listener's log, the run counter of `RunIdIncrementer`, and the phase of
 * the current job execution. Each method is proved against the functions of
 * the Job, Records, Cache and Chunking modules.
 */
module Batch {
  import opened Wrappers
  import opened Chunking
  import opened Records
  import opened Cache
  import opened Job
  import Listener

  /** step2 after a chunk that ends it: the status, the writer calls, the cache and the lines written. */
  lemma Step2Ends(cur: Input<CustomerPojo>, pos: nat, done: seq<CustomerPojo>, writes: seq<seq<CustomerPojo>>,
                  chunk: seq<CustomerPojo>, failed: bool, d0: map<string, string>)
    requires Staged(cur, pos, done, writes) && NextChunk(cur, pos, chunk, failed)
    requires failed || |chunk| == 0
    ensures failed == Fails(cur) && done == Delivered(cur) && writes == Chunks(Delivered(cur))
    ensures Upsert(Upsert(d0, done), chunk) == Upsert(d0, Read(cur))
  {
    AfterChunk(cur, pos, done, writes, chunk, failed);
    UpsertAppend(d0, done, chunk);
    if !failed {
      assert done + chunk == done;
    }
  }

  /** step2 after a chunk that is written: the next boundary, and the cache and file grown by that chunk. */
  lemma Step2Continues(cur: Input<CustomerPojo>, pos: nat, done: seq<CustomerPojo>, writes: seq<seq<CustomerPojo>>,
                       chunk: seq<CustomerPojo>, d0: map<string, string>, c0: seq<string>)
    requires Staged(cur, pos, done, writes) && NextChunk(cur, pos, chunk, false)
    requires |chunk| > 0
    ensures Staged(cur, pos + |chunk|, done + chunk, writes + [chunk])
    ensures Upsert(Upsert(d0, done), chunk) == Upsert(d0, done + chunk)
    ensures (c0 + Lines(done)) + Lines(chunk) == c0 + Lines(done + chunk)
  {
    AfterChunk(cur, pos, done, writes, chunk, false);
    UpsertAppend(d0, done, chunk);
    LinesAppend(done, chunk);
    AppendAssoc(c0, Lines(done), Lines(chunk));
  }

  class BatchConfiguration {
    var table: seq<Row>
    var data: map<string, string>
    var csv: seq<string>
    var log: seq<Listener.LogEntry>
    var runId: nat
    var phase: Phase

    ghost function State(): Snapshot
      reads this
    {
      Snapshot(table, data, csv, log, runId)
    }

    /**
     * The cache starts empty, as its initializer makes it; the table, the file,
     * the log and the run counter start empty on the assumption of a fresh
     * database, an empty `users.csv` and a fresh job repository.
     */
    constructor ()
      ensures State() == Snapshot([], map[], [], [], 0) && phase == NotStarted
    {
      table, data, csv, log, runId, phase := [], map[], [], [], 0, NotStarted;
    }

    /** `display()`: the shared map itself, unchanged. */
    method Display() returns (m: map<string, string>)
      ensures m == data
    {
      m := data;
    }

    /** `JdbcBatchItemWriter.write` for one chunk: bind each item with setValues and run the INSERT. */
    method WriteToTable(items: seq<Customer>)
      modifies this`table
      ensures table == old(table) + Rows(items)
    {
      var ps: Params := map[];
      var i := 0;
      while i < |items|
        invariant 0 <= i <= |items|
        invariant table == old(table) + Rows(items[..i])
      {
        InsertStoresItem(items[i], ps);
        ps := SetValues(items[i], ps);
        table := table + [Insert(ps).value];
        assert Rows(items[..i + 1]) == Rows(items[..i]) + [StoredRow(items[i])];
        i := i + 1;
      }
      assert items[..i] == items;
    }

    /** `UserRowMapper.mapRow`: build the record from the row and put id -> name into the cache. */
    method MapRow(rs: ResultRow, rowNum: nat) returns (c: CustomerPojo)
      requires HasIdName(rs)
      modifies this`data
      ensures c == RowToPojo(rs)
      ensures data == old(data)[c.id := c.name]
    {
      c := CustomerPojo(GetStringByLabel(rs, "id"), GetStringByLabel(rs, "name"));
      data := data[c.id := c.name];
      var shown := Display();
    }

    /** `FlatFileItemWriter.write` for one chunk in append mode: one line per item after the existing lines. */
    method WriteToCsv(items: seq<CustomerPojo>)
      modifies this`csv
      ensures csv == old(csv) + Lines(items)
    {
      var i := 0;
      while i < |items|
        invariant 0 <= i <= |items|
        invariant csv == old(csv) + Lines(items[..i])
      {
        csv := csv + [Line(items[i])];
        assert Lines(items[..i + 1]) == Lines(items[..i]) + [Line(items[i])];
        i := i + 1;
      }
      assert items[..i] == items;
    }

    /** step1: chunks of the XML source into the table until the reader is exhausted or throws. */
    method Step1(src: Input<Customer>) returns (ok: bool, writes: seq<seq<Customer>>)
      modifies this`table
      ensures ok == !Fails(src)
      ensures writes == Chunks(Delivered(src))
      ensures table == old(table) + Rows(Delivered(src))
    {
      ghost var done: seq<Customer> := [];
      var pos := 0;
      writes := [];
      while true
        invariant Staged(src, pos, done, writes)
        invariant table == old(table) + Rows(done)
        decreases |Read(src)| - pos
      {
        var chunk, failed := ReadChunk(src, pos);
        AfterChunk(src, pos, done, writes, chunk, failed);
        if failed || |chunk| == 0 {
          ok := !failed;
          return;
        }
        WriteToTable(chunk);
        RowsAppend(done, chunk);
        AppendAssoc(old(table), Rows(done), Rows(chunk));
        writes := writes + [chunk];
        done := done + chunk;
        pos := pos + |chunk|;
      }
    }

    /**
     * `JdbcCursorItemReader.read` at cursor position `k`: the injected failure,
     * the row mapped by `MapRow` (which also caches it), or end of the table.
     */
    method ReadMapped(cursorFailAt: Option<nat>, k: nat) returns (res: ReadResult<CustomerPojo>)
      modifies this`data
      ensures res == ReadAt(Cursor(table, cursorFailAt), k)
      ensures data == if res.Item? then old(data)[res.item.id := res.item.name] else old(data)
    {
      CursorAt(table, cursorFailAt, k);
      var rows := Select(table);
      if cursorFailAt == Some(k) {
        res := ReadError;
      } else if k < |rows| {
        var c := MapRow(rows[k], k);
        res := Item(c);
      } else {
        res := End;
      }
    }

    /** step2's chunk provider: pull up to ChunkSize rows from the cursor, mapping (and caching) each one. */
    method ReadMappedChunk(cursorFailAt: Option<nat>, pos: nat) returns (chunk: seq<CustomerPojo>, failed: bool)
      requires pos <= |Read(Cursor(table, cursorFailAt))|
      modifies this`data
      ensures NextChunk(Cursor(table, cursorFailAt), pos, chunk, failed)
      ensures data == Upsert(old(data), chunk)
    {
      ghost var cur := Cursor(table, cursorFailAt);
      chunk, failed := [], false;
      var exhausted := false;
      while |chunk| < ChunkSize && !failed && !exhausted
        invariant Pulling(cur, pos, chunk, failed, exhausted)
        invariant data == Upsert(old(data), chunk)
        decreases ChunkSize - |chunk|, !failed && !exhausted
      {
        var res := ReadMapped(cursorFailAt, pos + |chunk|);
        PullStep(cur, pos, chunk, res);
        match res
        case Item(c) =>
          UpsertSnoc(old(data), chunk, c);
          chunk := chunk + [c];
        case End => exhausted := true;
        case ReadError => failed := true;
      }
      PullDone(cur, pos, chunk, failed, exhausted);
    }

    /** step2: chunks of table rows into the CSV file; every row read is first put into the cache. */
    method Step2(cursorFailAt: Option<nat>) returns (ok: bool, writes: seq<seq<CustomerPojo>>)
      modifies this`data, this`csv
      ensures ok == !Fails(Cursor(table, cursorFailAt))
      ensures writes == Chunks(Delivered(Cursor(table, cursorFailAt)))
      ensures data == Upsert(old(data), Read(Cursor(table, cursorFailAt)))
      ensures csv == old(csv) + Lines(Delivered(Cursor(table, cursorFailAt)))
    {
      ghost var cur := Cursor(table, cursorFailAt);
      ghost var done: seq<CustomerPojo> := [];
      var pos := 0;
      writes := [];
      while true
        invariant Staged(cur, pos, done, writes)
        invariant data == Upsert(old(data), done)
        invariant csv == old(csv) + Lines(done)
        decreases |Read(cur)| - pos
      {
        var chunk, failed := ReadMappedChunk(cursorFailAt, pos);
        if failed || |chunk| == 0 {
          Step2Ends(cur, pos, done, writes, chunk, failed, old(data));
          ok := !failed;
          return;
        }
        WriteToCsv(chunk);
        Step2Continues(cur, pos, done, writes, chunk, old(data), old(csv));
        writes := writes + [chunk];
        done := done + chunk;
        pos := pos + |chunk|;
      }
    }

    /**
     * One launch of `importUserJob`: a new run id, step1, step2 only if step1
     * succeeded, then `afterJob` with the final status.
     */
    method ImportUserJob(src: Input<Customer>, cursorFailAt: Option<nat>) returns (trace: seq<Phase>)
      modifies this
      ensures var r := Job.Job(old(State()), src, cursorFailAt);
        && table == r.after.table && data == r.after.data && csv == r.after.csv
        && log == r.after.log && runId == r.after.runId
        && trace == r.trace && phase == r.Last()
    {
      ghost var s0 := State();
      runId := runId + 1;
      phase := Phase.Step1;
      var ok1, loaded := Step1(src);
      var last: Phase;
      if ok1 {
        phase := Phase.Step2;
        var ok2, written := Step2(cursorFailAt);
        last := if ok2 then Completed else Failed;
        trace := [NotStarted, Phase.Step1, Phase.Step2, last];
      } else {
        last := Failed;
        trace := [NotStarted, Phase.Step1, last];
      }
      phase := last;
      log := log + Listener.AfterJob(StatusOf(last), table);
      JobUnfolds(s0, src, cursorFailAt);
    }
  }
}
