// The polling worker over the `server_fsm_instances` table: fetch a batch of
// ready rows, route each one, and write the step's outcome back into its row
// (or roll back, leaving the row as it was).

module FsmWorker {
  import opened Common
  import opened FsmEngine

  /** How many rows one poll fetches at most. */
  const BATCH_SIZE := 10

  /** The poll query's WHERE clause: waiting for reservation, and no timer or a timer that has passed. */
  predicate IsReady(row: Instance, now: int)
  {
    row.fsmState == WAITING_FOR_RESERVATION && (row.nextTimerAt.None? || row.nextTimerAt.value <= now)
  }

  /** The rows the poll query selects, in table order. */
  function ReadyRows(rows: seq<Instance>, now: int): (r: seq<Instance>)
    ensures |r| <= |rows|
    ensures forall x :: x in r ==> x in rows && IsReady(x, now)
    ensures forall x :: x in rows && IsReady(x, now) ==> x in r
  {
    if rows == [] then []
    else (if IsReady(rows[0], now) then [rows[0]] else []) + ReadyRows(rows[1..], now)
  }

  lemma {:induction false} ReadyRowsConcat(a: seq<Instance>, b: seq<Instance>, now: int)
    ensures ReadyRows(a + b, now) == ReadyRows(a, now) + ReadyRows(b, now)
  {
    if a == [] {
      assert a + b == b;
    } else {
      assert (a + b)[1..] == a[1..] + b;
      ReadyRowsConcat(a[1..], b, now);
    }
  }

  /** Strictly ascending ids: the table's primary-key order. */
  ghost predicate AscendingIds(rows: seq<Instance>)
  {
    forall i, j :: 0 <= i < j < |rows| ==> rows[i].id < rows[j].id
  }

  /** Filtering keeps the primary-key order. */
  lemma {:induction false} ReadyRowsAscending(rows: seq<Instance>, now: int)
    requires AscendingIds(rows)
    ensures AscendingIds(ReadyRows(rows, now))
  {
    if rows != [] {
      ReadyRowsAscending(rows[1..], now);
      var tail := ReadyRows(rows[1..], now);
      forall x | x in tail ensures rows[0].id < x.id {
        var k :| 0 <= k < |rows[1..]| && rows[1..][k] == x;
        assert rows[k + 1] == x;
      }
    }
  }

  /** `LIMIT n`. */
  function Take(s: seq<Instance>, n: nat): (r: seq<Instance>)
    ensures |r| <= n && |r| <= |s|
    ensures r == s[..|r|]
    ensures |s| <= n ==> r == s
  {
    if |s| <= n then s else s[..n]
  }

  /** A scan that stopped at the end of the table or with a full batch has read exactly
      the LIMIT-ed result. */
  lemma StoppedScanIsLimit(rows: seq<Instance>, i: int, now: int)
    requires 0 <= i <= |rows|
    requires |ReadyRows(rows[..i], now)| <= BATCH_SIZE
    requires i == |rows| || |ReadyRows(rows[..i], now)| == BATCH_SIZE
    ensures ReadyRows(rows[..i], now) == Take(ReadyRows(rows, now), BATCH_SIZE)
  {
    assert rows == rows[..i] + rows[i..];
    ReadyRowsConcat(rows[..i], rows[i..], now);
  }

  /** What the poll returns: at most BATCH_SIZE rows of the table, all ready, in ascending
      id order; and when it returns fewer, it has returned every ready row. */
  lemma FetchedBatchIsReadyAndOrdered(rows: seq<Instance>, now: int)
    requires AscendingIds(rows)
    ensures var batch := Take(ReadyRows(rows, now), BATCH_SIZE);
            && |batch| <= BATCH_SIZE
            && (forall x :: x in batch ==> x in rows && IsReady(x, now))
            && AscendingIds(batch)
            && (|batch| < BATCH_SIZE ==> forall x :: x in rows && IsReady(x, now) ==> x in batch)
  {
    ReadyRowsAscending(rows, now);
    var ready := ReadyRows(rows, now);
    var batch := Take(ready, BATCH_SIZE);
    forall x | x in batch ensures x in ready {
      var k :| 0 <= k < |batch| && batch[k] == x;
      assert ready[k] == x;
    }
  }

  /** `UPDATE server_fsm_instances SET fsm_state, last_error, attempts_count WHERE id = fsmId`. */
  function UpdateRow(rows: seq<Instance>, fsmId: int, state: string, error: Option<string>, attempts: int): (r: seq<Instance>)
    ensures |r| == |rows|
    ensures forall i :: 0 <= i < |rows| && rows[i].id != fsmId ==> r[i] == rows[i]
    ensures forall i :: 0 <= i < |rows| && rows[i].id == fsmId ==>
              r[i] == rows[i].(fsmState := state, lastError := error, attemptsCount := attempts)
  {
    seq(|rows|, i requires 0 <= i < |rows| =>
      if rows[i].id == fsmId then rows[i].(fsmState := state, lastError := error, attemptsCount := attempts)
      else rows[i])
  }

  /** The table after a step outcome for the fetched `row` has been written back: a result is
      stored in the row with the snapshot's id, attempts counted from the snapshot; anything
      else (no handler, an exception) leaves the table as it was. */
  function ApplyOutcome(rows: seq<Instance>, row: Instance, outcome: StepOutcome): seq<Instance>
  {
    match outcome
    case Stepped(res) =>
      UpdateRow(rows, row.id, res.newState, res.lastError, row.attemptsCount + res.attemptsIncrement)
    case _ => rows
  }

  /** `process_fsm_instance`'s routing test. */
  predicate Routed(row: Instance)
  {
    row.processName == ORDER_CREATION && row.fsmState == WAITING_FOR_RESERVATION
  }

  /** The table after `process_fsm_instance(row)`. */
  function Processed(rows: seq<Instance>, actions: OrderCreationActions, row: Instance): seq<Instance>
  {
    if Routed(row) then ApplyOutcome(rows, row, HandleOrderCreationWaiting(actions, row)) else rows
  }

  /** The table after processing a batch, row by row, in order. */
  function ProcessedBatch(rows: seq<Instance>, actions: OrderCreationActions, batch: seq<Instance>): (r: seq<Instance>)
    ensures |r| == |rows|
    ensures forall k :: 0 <= k < |rows| ==> r[k].id == rows[k].id
    decreases |batch|
  {
    if batch == [] then rows
    else ProcessedBatch(Processed(rows, actions, batch[0]), actions, batch[1..])
  }

  lemma {:induction false} ProcessedBatchSnoc(rows: seq<Instance>, actions: OrderCreationActions, batch: seq<Instance>, row: Instance)
    ensures ProcessedBatch(rows, actions, batch + [row])
         == Processed(ProcessedBatch(rows, actions, batch), actions, row)
    decreases |batch|
  {
    if batch == [] {
      assert [row][1..] == [];
    } else {
      assert (batch + [row])[1..] == batch[1..] + [row];
      ProcessedBatchSnoc(Processed(rows, actions, batch[0]), actions, batch[1..], row);
    }
  }

  /** The worker's dispatch agrees with the engine's: processing a row is running the
      engine's step through the shipped registry and writing back its outcome. */
  lemma WorkerAgreesWithEngine(rows: seq<Instance>, actions: OrderCreationActions, row: Instance)
    ensures Processed(rows, actions, row) == ApplyOutcome(rows, row, RunStep(PROCESS_DEFS, actions, row))
  {
    OnlyOrderCreationIsRouted(actions, row);
    if Routed(row) {
      assert RunStep(PROCESS_DEFS, actions, row) == HandleOrderCreationWaiting(actions, row);
    }
  }

  /** A step that produced a result leaves the row with the snapshot's id out of
      WAITING_FOR_RESERVATION, so the next poll does not fetch it. */
  lemma SteppedRowIsNotFetchedAgain(rows: seq<Instance>, actions: OrderCreationActions, row: Instance, now: int)
    requires Routed(row) && HandleOrderCreationWaiting(actions, row).Stepped?
    ensures forall x :: x in ReadyRows(Processed(rows, actions, row), now) ==> x.id != row.id
  {
    var after := Processed(rows, actions, row);
    var res := HandleOrderCreationWaiting(actions, row).result;
    assert after == UpdateRow(rows, row.id, res.newState, res.lastError, row.attemptsCount + 1);
    forall k | 0 <= k < |after| && after[k].id == row.id ensures !IsReady(after[k], now) {
      assert after[k].fsmState == res.newState;
    }
  }

  /** A step whose actions raise rolls back: the row keeps its state and attempts and stays
      ready, so every later poll fetches it again. */
  lemma RaisingRowStaysReady(rows: seq<Instance>, actions: OrderCreationActions, row: Instance, now: int)
    requires Routed(row) && HandleOrderCreationWaiting(actions, row).Raised?
    requires row in rows && IsReady(row, now)
    ensures Processed(rows, actions, row) == rows
    ensures row in ReadyRows(Processed(rows, actions, row), now)
  {
  }

  /** Processing a batch changes no row whose id is not in the batch. */
  lemma {:induction false} BatchTouchesOnlyItsRows(rows: seq<Instance>, actions: OrderCreationActions, batch: seq<Instance>, k: int)
    requires 0 <= k < |rows|
    requires forall b :: b in batch ==> b.id != rows[k].id
    ensures |ProcessedBatch(rows, actions, batch)| == |rows|
    ensures ProcessedBatch(rows, actions, batch)[k] == rows[k]
    decreases |batch|
  {
    if batch != [] {
      var next := Processed(rows, actions, batch[0]);
      assert |next| == |rows| && next[k] == rows[k];
      BatchTouchesOnlyItsRows(next, actions, batch[1..], k);
    }
  }

  /** Every row with id `id` is out of the poll's reach. */
  ghost predicate Retired(rows: seq<Instance>, id: int, now: int)
  {
    forall k :: 0 <= k < |rows| && rows[k].id == id ==> !IsReady(rows[k], now)
  }

  lemma RetiredIsNotFetched(rows: seq<Instance>, id: int, now: int)
    requires Retired(rows, id, now)
    ensures forall x :: x in ReadyRows(rows, now) ==> x.id != id
  {
  }

  /** After one pass over an id-ordered batch, no row of the batch whose step produced a
      result can be fetched again; only rows whose actions raised stay ready. */
  lemma {:induction false} IterationRetiresSteppedRows(rows: seq<Instance>, actions: OrderCreationActions, batch: seq<Instance>, now: int, j: int)
    requires AscendingIds(batch)
    requires 0 <= j < |batch|
    requires Routed(batch[j]) && HandleOrderCreationWaiting(actions, batch[j]).Stepped?
    ensures Retired(ProcessedBatch(rows, actions, batch), batch[j].id, now)
    decreases |batch|
  {
    var next := Processed(rows, actions, batch[0]);
    assert ProcessedBatch(rows, actions, batch) == ProcessedBatch(next, actions, batch[1..]);
    if j > 0 {
      IterationRetiresSteppedRows(next, actions, batch[1..], now, j - 1);
    } else {
      var res := HandleOrderCreationWaiting(actions, batch[0]).result;
      assert next == UpdateRow(rows, batch[0].id, res.newState, res.lastError, batch[0].attemptsCount + 1);
      var final := ProcessedBatch(next, actions, batch[1..]);
      forall k | 0 <= k < |final| && final[k].id == batch[0].id ensures !IsReady(final[k], now) {
        assert next[k].id == batch[0].id;
        assert next[k].fsmState == res.newState;
        forall b | b in batch[1..] ensures b.id != next[k].id {
          var m :| 0 <= m < |batch[1..]| && batch[1..][m] == b;
          assert batch[m + 1] == b;
        }
        BatchTouchesOnlyItsRows(next, actions, batch[1..], k);
      }
    }
  }

  /** The table as the worker sees it. */
  class InstanceTable {
    var rows: seq<Instance>

    ghost predicate Valid()
      reads this
    {
      AscendingIds(rows)
    }

    constructor(initial: seq<Instance>)
      requires AscendingIds(initial)
      ensures Valid() && rows == initial
    {
      rows := initial;
    }

    /** `fetch_ready_instances`: the first BATCH_SIZE ready rows in id order (see
        FetchedBatchIsReadyAndOrdered for what that batch is). */
    method FetchReady(now: int) returns (batch: seq<Instance>)
      ensures batch == Take(ReadyRows(rows, now), BATCH_SIZE)
    {
      batch := [];
      var i := 0;
      while i < |rows| && |batch| < BATCH_SIZE
        invariant 0 <= i <= |rows|
        invariant |batch| <= BATCH_SIZE
        invariant batch == ReadyRows(rows[..i], now)
      {
        ReadyRowsConcat(rows[..i], [rows[i]], now);
        assert rows[..i + 1] == rows[..i] + [rows[i]];
        if IsReady(rows[i], now) {
          batch := batch + [rows[i]];
        }
        i := i + 1;
      }
      StoppedScanIsLimit(rows, i, now);
    }

    /** `handle_order_creation` for the fetched `row`: search cells, create the order, and
        store FAILED or COMPLETED with attempts = snapshot + 1; on an exception, roll back. */
    method HandleOrderCreation(actions: OrderCreationActions, row: Instance)
      requires Valid()
      modifies this
      ensures Valid()
      ensures rows == ApplyOutcome(old(rows), row, HandleOrderCreationWaiting(actions, row))
    {
      var requestId := row.entityId;
      match actions.findCells(requestId)
      case CellSearchRaised(_) =>
        // session.rollback()
      case CellsNotFound(code) =>
        rows := UpdateRow(rows, row.id, FAILED, Some(CodeOr(code, "CELLS_ERROR")), row.attemptsCount + 1);
      case CellsFound(srcId, dstId) =>
        match actions.createOrder(requestId, srcId, dstId)
        case OrderCreationRaised(_) =>
          // session.rollback()
        case OrderNotCreated(code) =>
          rows := UpdateRow(rows, row.id, FAILED, Some(CodeOr(code, "ORDER_ERROR")), row.attemptsCount + 1);
        case OrderCreated(_) =>
          rows := UpdateRow(rows, row.id, COMPLETED, None, row.attemptsCount + 1);
    }

    /** `process_fsm_instance`: only order_creation in WAITING_FOR_RESERVATION has a handler. */
    method ProcessInstance(actions: OrderCreationActions, row: Instance)
      requires Valid()
      modifies this
      ensures Valid()
      ensures rows == Processed(old(rows), actions, row)
      ensures !Routed(row) ==> rows == old(rows)
    {
      if row.processName == ORDER_CREATION && row.fsmState == WAITING_FOR_RESERVATION {
        HandleOrderCreation(actions, row);
      }
    }

    /** One pass of the worker's loop: poll, and either report that it would sleep
        (empty batch) or process every fetched row in order. */
    method RunIteration(actions: OrderCreationActions, now: int) returns (batch: seq<Instance>, idle: bool)
      requires Valid()
      modifies this
      ensures Valid()
      ensures batch == Take(ReadyRows(old(rows), now), BATCH_SIZE)
      ensures idle <==> batch == []
      ensures rows == ProcessedBatch(old(rows), actions, batch)
    {
      batch := FetchReady(now);
      if |batch| == 0 {
        idle := true;  // time.sleep(POLL_INTERVAL_SECONDS)
        return;
      }
      idle := false;
      ghost var before := rows;
      for k := 0 to |batch|
        invariant Valid()
        invariant rows == ProcessedBatch(before, actions, batch[..k])
      {
        ProcessedBatchSnoc(before, actions, batch[..k], batch[k]);
        assert batch[..k + 1] == batch[..k] + [batch[k]];
        ProcessInstance(actions, batch[k]);
      }
      assert batch[..|batch|] == batch;
    }
  }
}
