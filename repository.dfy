/**
 * riverrunner/repository.py: the measurement query's argument handling and
 * time window, and the prediction cache written through a session.
 */
module Repository {
  import opened Wrappers
  import opened Context
  import opened Session

  // ---------------------------------------------------------------------------
  // get_measurements

  datatype QueryError =
    | StartAfterNow     // ValueError('start date cannot be later than today')
    | EndBeforeStart    // ValueError('end date cannot be before start date')
    | UnknownRun        // Exception('run_id does not exist')

  /** The window rows are kept in: `lo <= date_time < hi`; an absent bound
      does not constrain. */
  datatype Window = Window(lo: Option<Time>, hi: Option<Time>)

  predicate InWindow(t: Time, w: Window) {
    (w.lo.None? || w.lo.value <= t) && (w.hi.None? || t < w.hi.value)
  }

  /** The date checks and the reassignment of `end_date`. */
  function NormalizeWindow(start: Option<Time>, end: Option<Time>, now: Time): (r: Result<Window, QueryError>)
    ensures r == Failure(StartAfterNow) <==> start.Some? && start.value > now
    ensures r == Failure(EndBeforeStart) <==>
              start.Some? && start.value <= now && end.Some? && end.value < start.value
    ensures r.Failure? <==> start.Some? && (start.value > now || (end.Some? && end.value < start.value))
    ensures r.Success? && start.Some? ==> r.value == Window(start, Some(now))
    ensures start.None? ==> r == Success(Window(None, end))
  {
    if start.Some? then
      if start.value > now then Failure(StartAfterNow)
      else if end.Some? && end.value < start.value then Failure(EndBeforeStart)
      else Success(Window(start, Some(now)))
    else
      Success(Window(None, end))
  }

  /** The rows of `rows` inside `w`, in store order. */
  function Filter(rows: seq<Measurement>, w: Window): (r: seq<Measurement>)
    ensures |r| <= |rows|
    ensures forall m :: m in r <==> m in rows && InWindow(m.dateTime, w)
  {
    if |rows| == 0 then []
    else
      var rest := Filter(rows[1..], w);
      assert forall m :: m in rows <==> m == rows[0] || m in rows[1..];
      if InWindow(rows[0].dateTime, w) then [rows[0]] + rest else rest
  }

  /** `Repository.get_measurements(run_id, start_date, end_date)` evaluated at
      time `now` against the stored measurements and river runs: the date
      errors come first, in order, then the run check, which runs only for
      `run_id > -1`. */
  function GetMeasurements(db: Db, runId: int, start: Option<Time>, end: Option<Time>, now: Time)
    : (r: Result<seq<Measurement>, QueryError>)
    ensures start.Some? && start.value > now ==> r == Failure(StartAfterNow)
    ensures start.Some? && start.value <= now && end.Some? && end.value < start.value ==> r == Failure(EndBeforeStart)
    ensures NormalizeWindow(start, end, now).Failure? ==> r == Failure(NormalizeWindow(start, end, now).error)
    ensures r == Failure(UnknownRun) <==>
              NormalizeWindow(start, end, now).Success? && runId > -1 && runId !in RunIds(db.runs)
    ensures r.Success? <==>
              NormalizeWindow(start, end, now).Success? && !(runId > -1 && runId !in RunIds(db.runs))
    ensures r.Success? ==> forall m :: m in r.value <==>
              && m in db.measurements
              && (start.None? || start.value <= m.dateTime)
              && (if start.Some? then m.dateTime < now else end.None? || m.dateTime < end.value)
  {
    var w :- NormalizeWindow(start, end, now);
    if runId > -1 && runId !in RunIds(db.runs) then Failure(UnknownRun)
    else Success(Filter(db.measurements, w))
  }

  /** A row whose key no later row has can head a keyed table. */
  lemma MeasurementUniqueCons(m: Measurement, rest: seq<Measurement>)
    requires UniqueMeasurementKeys(rest)
    requires forall q :: q in rest ==> MeasurementKeyOf(q) != MeasurementKeyOf(m)
    ensures UniqueMeasurementKeys([m] + rest)
  {
    forall i, j | 0 <= i < j < |[m] + rest|
      ensures MeasurementKeyOf(([m] + rest)[i]) != MeasurementKeyOf(([m] + rest)[j])
    {
      assert ([m] + rest)[j] == rest[j - 1];
      if i > 0 {
        assert ([m] + rest)[i] == rest[i - 1];
      } else {
        assert rest[j - 1] in rest;
      }
    }
  }

  /** A subsequence of a table with unique keys has unique keys. */
  lemma {:induction false} FilterKeepsKeysUnique(rows: seq<Measurement>, w: Window)
    requires UniqueMeasurementKeys(rows)
    ensures UniqueMeasurementKeys(Filter(rows, w))
  {
    if |rows| > 0 {
      var rest := rows[1..];
      forall i, j | 0 <= i < j < |rest| ensures MeasurementKeyOf(rest[i]) != MeasurementKeyOf(rest[j]) {
        assert rest[i] == rows[i + 1] && rest[j] == rows[j + 1];
      }
      FilterKeepsKeysUnique(rest, w);
      if InWindow(rows[0].dateTime, w) {
        forall q | q in Filter(rest, w) ensures MeasurementKeyOf(q) != MeasurementKeyOf(rows[0]) {
          var k :| 0 <= k < |rest| && rest[k] == q;
          assert rows[k + 1] == q;
        }
        MeasurementUniqueCons(rows[0], Filter(rest, w));
      }
    }
  }

  /** The result of a query on a consistent database is keyed by
      (date_time, metric_id, station_id) and refers to existing metrics and
      stations. */
  lemma GetMeasurementsKeyed(db: Db, runId: int, start: Option<Time>, end: Option<Time>, now: Time)
    requires Valid(db)
    requires GetMeasurements(db, runId, start, end, now).Success?
    ensures MeasurementTableValid(GetMeasurements(db, runId, start, end, now).value,
                                  MetricIds(db.metrics), StationIds(db.stations))
  {
    var w := NormalizeWindow(start, end, now).value;
    FilterKeepsKeysUnique(db.measurements, w);
  }

  /** Without any filter, every row is kept in its stored order. */
  lemma {:induction false} FilterUnbounded(rows: seq<Measurement>)
    ensures Filter(rows, Window(None, None)) == rows
  {
    if |rows| > 0 {
      FilterUnbounded(rows[1..]);
      assert [rows[0]] + rows[1..] == rows;
    }
  }

  /** The documented thirty-day default is not implemented: with neither date
      and no run check, every stored row comes back. */
  lemma NoDefaultWindow(db: Db, now: Time)
    ensures GetMeasurements(db, -1, None, None, now) == Success(db.measurements)
  {
    FilterUnbounded(db.measurements);
  }

  /** A supplied end date later than `now` is replaced by `now`: a row between
      the two is dropped although the caller's window contains it. */
  lemma EndReplacedByNow(db: Db, start: Time, end: Time, now: Time, m: Measurement)
    requires start <= now <= m.dateTime < end
    requires m in db.measurements
    ensures GetMeasurements(db, -1, Some(start), Some(end), now).Success?
    ensures m !in GetMeasurements(db, -1, Some(start), Some(end), now).value
  {
  }

  // ---------------------------------------------------------------------------
  // The prediction cache

  /** The argument of `put_predictions`: a list, or a single value that is
      wrapped into a one-element list. */
  datatype PutArg = One(p: Prediction) | Many(ps: seq<Prediction>)

  function AsList(arg: PutArg): (ps: seq<Prediction>)
    ensures arg.One? ==> ps == [arg.p]
    ensures arg.Many? ==> ps == arg.ps
  {
    match arg
    case One(p) => [p]
    case Many(ps) => ps
  }

  /** `put_predictions` on a session state: add the rows, commit; on failure
      roll back and report False. */
  function PutTx(tx: Tx, runIds: set<int>, ps: seq<Prediction>, fault: bool): (Tx, bool) {
    var (after, ok) := CommitTx(Tx(tx.committed, tx.pending + [AddRows(ps)]), runIds, fault);
    if ok then (after, true) else (RollbackTx(after), false)
  }

  /** `clear_predictions`: a bulk delete, left uncommitted. */
  function ClearTx(tx: Tx): Tx {
    Tx(tx.committed, tx.pending + [ClearRows])
  }

  /** All or nothing: on success every pending statement and the whole batch
      are committed; on failure nothing is, and the pending statements,
      including an earlier uncommitted delete, are discarded. */
  lemma PutTxAllOrNothing(tx: Tx, runIds: set<int>, ps: seq<Prediction>, fault: bool)
    ensures var (t, ok) := PutTx(tx, runIds, ps, fault);
      && t.pending == []
      && (ok <==> !fault && ApplyOps(tx.committed, runIds, tx.pending + [AddRows(ps)]).Some?)
      && (ok ==> t.committed == ApplyOps(tx.committed, runIds, tx.pending + [AddRows(ps)]).value)
      && (!ok ==> t.committed == tx.committed)
  {
  }

  lemma {:induction false} ApplyOpsAppend(rows: seq<Prediction>, runIds: set<int>, ops: seq<Op>, op: Op)
    ensures ApplyOps(rows, runIds, ops + [op]) ==
      match ApplyOps(rows, runIds, ops)
      case None => None
      case Some(r) => ApplyOp(r, runIds, op)
    decreases |ops|
  {
    if |ops| == 0 {
      assert [op][1..] == [];
    } else {
      assert (ops + [op])[1..] == ops[1..] + [op];
      match ApplyOp(rows, runIds, ops[0])
      case None =>
      case Some(r) => ApplyOpsAppend(r, runIds, ops[1..], op);
    }
  }

  /** With nothing pending, a batch is stored exactly when it is insertable
      and the store does not fail, and then it is appended to the table. */
  lemma PutTxFresh(committed: seq<Prediction>, runIds: set<int>, ps: seq<Prediction>, fault: bool)
    ensures var (t, ok) := PutTx(Tx(committed, []), runIds, ps, fault);
      && (ok <==> !fault && Insertable(committed, runIds, ps))
      && t == Tx(if ok then committed + ps else committed, [])
  {
    ApplyOpsAppend(committed, runIds, [], AddRows(ps));
    InsertAllSpec(committed, runIds, ps);
  }

  /** Right after `clear_predictions` the batch replaces the whole table; if it
      fails, the rollback brings the old rows back. */
  lemma PutTxAfterClear(committed: seq<Prediction>, runIds: set<int>, ps: seq<Prediction>, fault: bool)
    ensures var (t, ok) := PutTx(ClearTx(Tx(committed, [])), runIds, ps, fault);
      && (ok <==> !fault && Insertable([], runIds, ps))
      && t == Tx(if ok then ps else committed, [])
  {
    ApplyOpsAppend(committed, runIds, [ClearRows], AddRows(ps));
    assert [ClearRows][1..] == [];
    assert ApplyOps(committed, runIds, [ClearRows]) == Some([]);
    InsertAllSpec([], runIds, ps);
    assert [] + ps == ps;
  }

  /** A query issued after `clear_predictions` sees no rows. */
  lemma ClearedViewEmpty(tx: Tx, runIds: set<int>)
    requires ApplyOps(tx.committed, runIds, tx.pending).Some?
    ensures ApplyOps(tx.committed, runIds, ClearTx(tx).pending) == Some([])
  {
    ApplyOpsAppend(tx.committed, runIds, tx.pending, ClearRows);
  }

  /** A call made on the repository, in the order it was made. */
  datatype Call = ClearCall | PutCall(rows: seq<Prediction>)

  class Repository {
    const session: Session
    /** The cache operations issued through this repository so far. */
    ghost var calls: seq<Call>

    constructor (session: Session)
      ensures this.session == session && calls == []
    {
      this.session := session;
      calls := [];
    }

    method PutPredictions(arg: PutArg, fault: bool) returns (ok: bool)
      requires session.Valid()
      modifies this, session
      ensures session.Valid()
      ensures (session.State(), ok) == PutTx(old(session.State()), session.runIds, AsList(arg), fault)
      ensures calls == old(calls) + [PutCall(AsList(arg))]
    {
      var ps := AsList(arg);
      session.AddAll(ps);
      ok := session.Commit(fault);
      if !ok {
        session.Rollback();
      }
      calls := calls + [PutCall(ps)];
    }

    /** `clear_predictions`; `ok` is false when the delete raises. */
    method ClearPredictions(fault: bool) returns (ok: bool)
      requires session.Valid()
      modifies this, session
      ensures session.Valid()
      ensures ok == !fault
      ensures session.State() == if ok then ClearTx(old(session.State())) else old(session.State())
      ensures calls == old(calls) + [ClearCall]
    {
      ok := session.DeleteAll(fault);
      calls := calls + [ClearCall];
    }
  }
}
