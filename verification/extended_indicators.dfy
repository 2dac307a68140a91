/**
 * The batch run of the extended indicators
 * (crypto_trading_bot/analytics/calculate_extended_indicators.py): the
 * timeframe name and id read from whatever record the fetcher gives, one
 * task per instrument and timeframe with an id, the split of a large candle
 * frame into overlapping chunks, and the tally of finished and failed tasks.
 * The indicator service is a parameter; the process pool runs the tasks one
 * after another here.
 */
module ExtendedIndicators {
  import opened Wrappers
  import opened Models
  import opened Text
  import opened DbSchema
  import DataImport
  import GuiDataFetcher

  /** `CHUNK_SIZE`: frames longer than this are processed in chunks. */
  const ChunkSize: nat := 2000000

  /** The rows a chunk after the first reaches back for its indicators' history. */
  const Overlap: nat := 500

  // ---------------------------------------------------------------- timeframe name and id

  /** Python's `str` of a cell. */
  function CellText(c: Cell): string {
    match c
    case TextCell(s) => s
    case IntCell(i) => if i >= 0 then NatToString(i) else "-" + NatToString(-i)
    case NullCell => "None"
  }

  /**
   * `_get_timeframe_name`: the first of `interval_name`, `name`, `code` the
   * record has, as stored; else the text of a tuple's second item; `None`
   * stands for `str()` of any other object, whose text the model does not
   * spell.
   */
  function TimeframeName(tf: Obj): (r: Option<Cell>)
    ensures r.None? <==> (!HasAttr(tf, "interval_name") && !HasAttr(tf, "name") && !HasAttr(tf, "code") &&
                          !(tf.TupleObj? && |tf.items| >= 2))
    ensures HasAttr(tf, "interval_name") ==> r == Some(GetAttr(tf, "interval_name"))
  {
    if HasAttr(tf, "interval_name") then Some(GetAttr(tf, "interval_name"))
    else if HasAttr(tf, "name") then Some(GetAttr(tf, "name"))
    else if HasAttr(tf, "code") then Some(GetAttr(tf, "code"))
    else if tf.TupleObj? && |tf.items| >= 2 then Some(TextCell(CellText(tf.items[1])))
    else None
  }

  /** A `Timeframe` record and the `(id, name)` tuple it was built from give the same name. */
  lemma TimeframeNameAgrees(id: Cell, name: string)
    ensures TimeframeName(TimeframeRecord(id, TextCell(name))) == Some(TextCell(name))
    ensures TimeframeName(TupleObj([id, TextCell(name)])) == Some(TextCell(name))
  {
    assert HasAttr(TimeframeRecord(id, TextCell(name)), "interval_name");
  }

  /**
   * The task's timeframe id: `getattr(tf, "id", None)`, else a tuple's
   * first item; `None` when neither gives one. The first item of an empty
   * tuple raises `IndexError`, which nothing catches.
   */
  function TimeframeId(tf: Obj): (r: Result<Option<Cell>>)
    ensures r.Err? <==> tf.TupleObj? && tf.items == []
    ensures r.Ok? && r.value.Some? ==> r.value.value != NullCell
    ensures tf.RecordObj? ==> r == if GetAttr(tf, "id") == NullCell then Ok(None) else Ok(Some(GetAttr(tf, "id")))
  {
    var attr := GetAttr(tf, "id");
    if attr != NullCell then Ok(Some(attr))
    else if tf.TupleObj? then
      if tf.items == [] then Err("IndexError: tuple index out of range")
      else if tf.items[0] == NullCell then Ok(None)
      else Ok(Some(tf.items[0]))
    else Ok(None)
  }

  // ---------------------------------------------------------------- tasks

  /** `(instrument_id, symbol, timeframe_id, tf_name)`. */
  datatype Task = Task(instrumentId: int, symbol: string, timeframeId: Cell, tfName: Option<Cell>)

  /** A timeframe that yields a task: its id is present. */
  predicate HasTaskId(tf: Obj) {
    TimeframeId(tf).Ok? && TimeframeId(tf).value.Some?
  }

  /** The task of an instrument and a timeframe with an id. */
  function TaskOf(inst: Instrument, tf: Obj): Task
    requires HasTaskId(tf)
  {
    Task(inst.id, inst.symbol, TimeframeId(tf).value.value, TimeframeName(tf))
  }

  /** Some timeframe is an empty tuple, so reading its id raises. */
  predicate HasEmptyTuple(timeframes: seq<Obj>) {
    exists j :: 0 <= j < |timeframes| && timeframes[j].TupleObj? && timeframes[j].items == []
  }

  /** The tasks of one instrument over the first `n` timeframes, skipping those without an id. */
  function TasksFor(inst: Instrument, timeframes: seq<Obj>, n: nat): seq<Task>
    requires n <= |timeframes|
  {
    if n == 0 then []
    else TasksFor(inst, timeframes, n - 1) + (if HasTaskId(timeframes[n - 1]) then [TaskOf(inst, timeframes[n - 1])] else [])
  }

  /** How many of the first `n` timeframes have an id. */
  function WithId(timeframes: seq<Obj>, n: nat): nat
    requires n <= |timeframes|
  {
    if n == 0 then 0 else WithId(timeframes, n - 1) + (if HasTaskId(timeframes[n - 1]) then 1 else 0)
  }

  /** The tasks of the first `m` instruments, instrument by instrument. */
  function AllTasks(instruments: seq<Instrument>, timeframes: seq<Obj>, m: nat): seq<Task>
    requires m <= |instruments|
  {
    if m == 0 then [] else AllTasks(instruments, timeframes, m - 1) + TasksFor(instruments[m - 1], timeframes, |timeframes|)
  }

  /** Every instrument gets one task per timeframe with an id. */
  lemma {:induction false} TasksForLength(inst: Instrument, timeframes: seq<Obj>, n: nat)
    requires n <= |timeframes|
    ensures |TasksFor(inst, timeframes, n)| == WithId(timeframes, n)
  {
    if n > 0 {
      TasksForLength(inst, timeframes, n - 1);
    }
  }

  /** The number of tasks is the number of instruments times the number of timeframes with an id. */
  lemma {:induction false} TasksCount(instruments: seq<Instrument>, timeframes: seq<Obj>, m: nat)
    requires m <= |instruments|
    ensures |AllTasks(instruments, timeframes, m)| == m * WithId(timeframes, |timeframes|)
  {
    if m > 0 {
      TasksCount(instruments, timeframes, m - 1);
      TasksForLength(instruments[m - 1], timeframes, |timeframes|);
      var k := WithId(timeframes, |timeframes|);
      assert m * k == (m - 1) * k + k;
    }
  }

  /** A task of one instrument comes from one of the first `n` timeframes with an id, and each such timeframe gives one. */
  lemma {:induction false} TasksForCover(inst: Instrument, timeframes: seq<Obj>, n: nat, t: Task)
    requires n <= |timeframes|
    ensures t in TasksFor(inst, timeframes, n) <==>
      exists j :: 0 <= j < n && HasTaskId(timeframes[j]) && t == TaskOf(inst, timeframes[j])
  {
    if n > 0 {
      TasksForCover(inst, timeframes, n - 1, t);
    }
  }

  /** A task is in the list iff it pairs one of the first `m` instruments with a timeframe that has an id. */
  lemma {:induction false} TasksCover(instruments: seq<Instrument>, timeframes: seq<Obj>, m: nat, t: Task)
    requires m <= |instruments|
    ensures t in AllTasks(instruments, timeframes, m) <==>
      exists i, j :: 0 <= i < m && 0 <= j < |timeframes| && HasTaskId(timeframes[j]) && t == TaskOf(instruments[i], timeframes[j])
  {
    if m > 0 {
      TasksCover(instruments, timeframes, m - 1, t);
      TasksForCover(instruments[m - 1], timeframes, |timeframes|, t);
    }
  }

  /** The inner loop: one task per timeframe with an id, or the `IndexError` of an empty tuple. */
  method InstrumentTasks(inst: Instrument, timeframes: seq<Obj>) returns (r: Result<seq<Task>>)
    ensures r.Err? <==> HasEmptyTuple(timeframes)
    ensures r.Ok? ==> r.value == TasksFor(inst, timeframes, |timeframes|)
  {
    var tasks := [];
    for j := 0 to |timeframes|
      invariant tasks == TasksFor(inst, timeframes, j)
      invariant !HasEmptyTuple(timeframes[..j])
    {
      var name := TimeframeName(timeframes[j]);
      var id := TimeframeId(timeframes[j]);
      if id.Err? {
        return Err(id.error);
      }
      assert timeframes[..j + 1] == timeframes[..j] + [timeframes[j]];
      if id.value.Some? {
        tasks := tasks + [Task(inst.id, inst.symbol, id.value.value, name)];
      }
    }
    assert timeframes[..|timeframes|] == timeframes;
    r := Ok(tasks);
  }

  /** The task-building loops of `calculate_extended_indicators`. */
  method BuildTasks(instruments: seq<Instrument>, timeframes: seq<Obj>) returns (r: Result<seq<Task>>)
    ensures r.Err? <==> instruments != [] && HasEmptyTuple(timeframes)
    ensures r.Ok? ==> r.value == AllTasks(instruments, timeframes, |instruments|)
  {
    var tasks := [];
    for i := 0 to |instruments|
      invariant tasks == AllTasks(instruments, timeframes, i)
      invariant i > 0 ==> !HasEmptyTuple(timeframes)
    {
      var mine := InstrumentTasks(instruments[i], timeframes);
      if mine.Err? {
        return Err(mine.error);
      }
      tasks := tasks + mine.value;
    }
    r := Ok(tasks);
  }

  // ---------------------------------------------------------------- chunks

  /** `(total + CHUNK_SIZE - 1) // CHUNK_SIZE`. */
  function NumChunks(total: nat): nat {
    (total + ChunkSize - 1) / ChunkSize
  }

  /** `min((i + 1) * CHUNK_SIZE, total)`. */
  function ChunkEnd(i: nat, total: nat): nat {
    if (i + 1) * ChunkSize < total then (i + 1) * ChunkSize else total
  }

  /**
   * Row 0 for the first chunk; otherwise `max(0, start - min(500, start))`
   * with `start = i * CHUNK_SIZE`, where the `max` never bites since the
   * overlap is at most `start`.
   */
  function ChunkStart(i: nat): nat {
    if i == 0 then 0
    else
      var start := i * ChunkSize;
      var overlap := if Overlap < start then Overlap else start;
      start - overlap
  }

  /** The chunk count is the ceiling of `total / CHUNK_SIZE`, and the last chunk ends at `total`. */
  lemma ChunkCount(total: nat)
    requires total > 0
    ensures NumChunks(total) >= 1
    ensures (NumChunks(total) - 1) * ChunkSize < total <= NumChunks(total) * ChunkSize
    ensures ChunkEnd(NumChunks(total) - 1, total) == total
  {
  }

  /**
   * Consecutive chunks leave no gap and overlap by at most 500 rows, every
   * chunk starts at or before its own share of rows, and no chunk is empty.
   */
  lemma ChunksOverlap(i: nat, total: nat)
    requires i < NumChunks(total)
    ensures ChunkStart(i) <= i * ChunkSize < ChunkEnd(i, total)
    ensures i + 1 < NumChunks(total) ==>
      ChunkStart(i + 1) <= ChunkEnd(i, total) && ChunkEnd(i, total) - ChunkStart(i + 1) <= Overlap
  {
  }

  /** Every row of the frame lies in the chunk that holds its own share. */
  lemma ChunksCover(total: nat, row: nat)
    requires row < total
    ensures var i := row / ChunkSize;
      i < NumChunks(total) && ChunkStart(i) <= row < ChunkEnd(i, total)
  {
  }

  // ---------------------------------------------------------------- one task

  /** `(symbol, tf_name, saved_count, success)`. */
  datatype TaskResult = TaskResult(symbol: string, tfName: Option<Cell>, saved: nat, success: bool)

  /** The rows `get_price_data` gives a task: the stored candles, none when the database is down. */
  function RowCount(online: bool, candles: map<CandleKey, Ohlcv>, task: Task): nat {
    if online then |DataImport.CandleSeries(candles, task.instrumentId, task.timeframeId)| else 0
  }

  /**
   * The total saved by the first `k` chunks of a frame of `total` rows;
   * `None` once the service raises on one of them. `service(task, a, b)`
   * is what the indicator service saves for rows `[a, b)` of the task's
   * frame, or `None` when it raises.
   */
  function ChunkedSaved(task: Task, total: nat, service: (Task, nat, nat) -> Option<nat>, k: nat): Option<nat> {
    if k == 0 then Some(0)
    else
      var before := ChunkedSaved(task, total, service, k - 1);
      var saved := service(task, ChunkStart(k - 1), ChunkEnd(k - 1, total));
      if before.None? || saved.None? then None else Some(before.value + saved.value)
  }

  /**
   * `_process_single_task` for a frame of `total` rows: success with 0
   * saved when there are none; the whole frame at once up to
   * `CHUNK_SIZE` rows; otherwise the sum over the chunks. Any raise gives
   * 0 saved and failure.
   */
  function TaskOutcome(task: Task, total: nat, service: (Task, nat, nat) -> Option<nat>): (r: TaskResult)
    ensures r.symbol == task.symbol && r.tfName == task.tfName
    ensures total == 0 ==> r == TaskResult(task.symbol, task.tfName, 0, true)
    ensures !r.success ==> r.saved == 0
    ensures 0 < total <= ChunkSize ==> (r.success <==> service(task, 0, total).Some?)
    ensures total > ChunkSize ==> (r.success <==> ChunkedSaved(task, total, service, NumChunks(total)).Some?)
  {
    var saved :=
      if total == 0 then Some(0)
      else if total > ChunkSize then ChunkedSaved(task, total, service, NumChunks(total))
      else service(task, 0, total);
    if saved.Some? then TaskResult(task.symbol, task.tfName, saved.value, true)
    else TaskResult(task.symbol, task.tfName, 0, false)
  }

  /** For a frame that fits in one chunk, the chunked sum is the single call, so the split is invisible. */
  lemma ChunkingAgreesWhenSmall(task: Task, total: nat, service: (Task, nat, nat) -> Option<nat>)
    requires 0 < total <= ChunkSize
    ensures NumChunks(total) == 1
    ensures ChunkedSaved(task, total, service, 1) == service(task, 0, total)
  {
  }

  /** The chunk loop: sum what the service saves for each chunk; stop at the first raise. */
  method ProcessChunks(task: Task, total: nat, service: (Task, nat, nat) -> Option<nat>) returns (saved: Option<nat>)
    ensures saved == ChunkedSaved(task, total, service, NumChunks(total))
  {
    var savedTotal := 0;
    var numChunks := (total + ChunkSize - 1) / ChunkSize;
    for chunk := 0 to numChunks
      invariant ChunkedSaved(task, total, service, chunk) == Some(savedTotal)
    {
      var startIdx := chunk * ChunkSize;
      var endIdx := if (chunk + 1) * ChunkSize < total then (chunk + 1) * ChunkSize else total;
      var chunkStart := 0;
      if chunk > 0 {
        var overlap := if Overlap < startIdx then Overlap else startIdx;
        chunkStart := if startIdx - overlap < 0 then 0 else startIdx - overlap;
      }
      var s := service(task, chunkStart, endIdx);
      if s.None? {
        MissingChunkStays(task, total, service, chunk + 1, numChunks);
        return None;
      }
      savedTotal := savedTotal + s.value;
    }
    saved := Some(savedTotal);
  }

  /** Once a chunk has raised, the sum over any longer run of chunks is `None` too. */
  lemma {:induction false} MissingChunkStays(task: Task, total: nat, service: (Task, nat, nat) -> Option<nat>, k: nat, n: nat)
    requires k <= n
    requires ChunkedSaved(task, total, service, k).None?
    ensures ChunkedSaved(task, total, service, n).None?
    decreases n - k
  {
    if k < n {
      MissingChunkStays(task, total, service, k + 1, n);
    }
  }

  /** `_process_single_task`: read the task's candles, then process the frame whole or in chunks. */
  method ProcessSingleTask(db: Database, task: Task, service: (Task, nat, nat) -> Option<nat>) returns (r: TaskResult)
    ensures r == TaskOutcome(task, RowCount(db.online, db.candles, task), service)
  {
    var rows := DataImport.GetPriceData(db, task.instrumentId, task.timeframeId);
    if rows == [] {
      return TaskResult(task.symbol, task.tfName, 0, true);
    }
    var totalRows := |rows|;
    var saved;
    if totalRows > ChunkSize {
      saved := ProcessChunks(task, totalRows, service);
    } else {
      saved := service(task, 0, totalRows);
    }
    if saved.None? {
      return TaskResult(task.symbol, task.tfName, 0, false);
    }
    r := TaskResult(task.symbol, task.tfName, saved.value, true);
  }

  // ---------------------------------------------------------------- the run

  /** The worker count: the one given, else the CPU count (4 when unknown or 0) capped at 8. */
  function MaxWorkers(maxWorkers: Option<int>, cpuCount: Option<nat>): (r: int)
    ensures maxWorkers.Some? ==> r == maxWorkers.value
    ensures maxWorkers.None? ==> 1 <= r <= 8
    ensures maxWorkers.None? && (cpuCount.None? || cpuCount.value == 0) ==> r == 4
  {
    if maxWorkers.Some? then maxWorkers.value
    else
      var cpus := if cpuCount.Some? && cpuCount.value != 0 then cpuCount.value else 4;
      if cpus < 8 then cpus else 8
  }

  /** How many of the first `n` tasks succeed against the given candle table. */
  function Succeeded(online: bool, candles: map<CandleKey, Ohlcv>, tasks: seq<Task>,
                     service: (Task, nat, nat) -> Option<nat>, n: nat): (c: nat)
    requires n <= |tasks|
    ensures c <= n
  {
    if n == 0 then 0
    else
      Succeeded(online, candles, tasks, service, n - 1) +
      (if TaskOutcome(tasks[n - 1], RowCount(online, candles, tasks[n - 1]), service).success then 1 else 0)
  }

  /** The tally loop: each task counts as completed or as failed, never both. */
  method RunTasks(db: Database, tasks: seq<Task>, service: (Task, nat, nat) -> Option<nat>)
    returns (completed: nat, failed: nat)
    ensures completed + failed == |tasks|
    ensures completed == Succeeded(db.online, db.candles, tasks, service, |tasks|)
  {
    completed, failed := 0, 0;
    for i := 0 to |tasks|
      invariant completed + failed == i
      invariant completed == Succeeded(db.online, db.candles, tasks, service, i)
    {
      var result := ProcessSingleTask(db, tasks[i], service);
      if result.success {
        completed := completed + 1;
      } else {
        failed := failed + 1;
      }
    }
  }

  /** The `Timeframe` records the fetcher builds from the table listing. */
  function TimeframeRecords(listing: seq<(Cell, Cell)>): (r: seq<Obj>)
    ensures |r| == |listing|
    ensures forall j :: 0 <= j < |r| ==> r[j].RecordObj?
  {
    seq(|listing|, j requires 0 <= j < |listing| => TimeframeRecord(listing[j].0, listing[j].1))
  }

  /**
   * `calculate_extended_indicators`: the worker count, the tasks of every
   * instrument and timeframe the fetcher lists, and the two counters.
   */
  method CalculateExtendedIndicators(db: Database, maxWorkers: Option<int>, cpuCount: Option<nat>,
                                     service: (Task, nat, nat) -> Option<nat>)
    returns (workers: int, tasks: seq<Task>, completed: nat, failed: nat)
    ensures workers == MaxWorkers(maxWorkers, cpuCount)
    ensures tasks == AllTasks(GuiDataFetcher.GetInstruments(db),
      TimeframeRecords(DataImport.TimeframesListing(db.online, db.timeframeColumns, db.timeframes)),
      |GuiDataFetcher.GetInstruments(db)|)
    ensures completed + failed == |tasks|
    ensures completed == Succeeded(db.online, db.candles, tasks, service, |tasks|)
  {
    workers := MaxWorkers(maxWorkers, cpuCount);
    var instruments := GuiDataFetcher.GetInstruments(db);
    var timeframes := GuiDataFetcher.GetTimeframes(db);
    ghost var listing := DataImport.TimeframesListing(db.online, db.timeframeColumns, db.timeframes);
    assert timeframes == TimeframeRecords(listing);
    assert !HasEmptyTuple(timeframes);
    var built := BuildTasks(instruments, timeframes);
    tasks := built.value;
    completed, failed := RunTasks(db, tasks, service);
  }
}
