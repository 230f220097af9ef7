/**
 * daily.py: the daily batch job. `compute_predictions` clears the prediction
 * cache, then for every river run asks the forecaster for a series, turns it
 * into prediction rows whose three flow-rate fields are the value rounded to
 * one decimal place, and stores them; a failure for one run is caught and
 * the loop goes on. `daily_run` runs only that step and closes the session.
 */
module Daily {
  import opened Wrappers
  import opened Context
  import opened Session
  import opened Repository

  /** What the forecaster returns for a run: a series of values and its time
      index, read pairwise as Python's `zip` does. */
  datatype Forecast = Forecast(values: seq<real>, index: seq<Time>)

  /** The forecaster, by run id; None when it raises for that run. */
  type Forecaster = int -> Option<Forecast>

  /** The line printed for a run inside the loop. */
  datatype RunLog = Added(runId: int) | Failed(runId: int)

  /** `compute_predictions` falls off its end (None) or returns False. */
  datatype Outcome = ReturnedNone | ReturnedFalse

  /** What happens before the loop: constructing the forecaster may raise, the
      store may refuse the delete that clears the cache (`clearFault`), and
      fetching the run list may raise. */
  datatype Setup = Setup(modelReady: bool, clearFault: bool, runs: Option<seq<RiverRun>>)

  // ---------------------------------------------------------------------------
  // Building the rows

  /** `round(x, 1)`, counted in tenths: the nearest number of tenths, and on a
      tie the even one. */
  function RoundTenths(x: real): (k: Tenths)
    ensures (k as real) - 0.5 <= x * 10.0 <= (k as real) + 0.5
    ensures (x * 10.0 == (k as real) - 0.5 || x * 10.0 == (k as real) + 0.5) ==> k % 2 == 0
  {
    var y := x * 10.0;
    var f := y.Floor;
    var d := y - f as real;
    if d < 0.5 then f
    else if d > 0.5 then f + 1
    else if f % 2 == 0 then f
    else f + 1
  }

  /** A value that already has one decimal place is left as it is. */
  lemma RoundTenthsExact(k: Tenths)
    ensures RoundTenths(k as real / 10.0) == k
  {
    assert k as real / 10.0 * 10.0 == k as real;
    assert (k as real).Floor == k;
  }

  function Min(a: nat, b: nat): nat {
    if a < b then a else b
  }

  /** The rows built for one run from its forecast (`to_add`). */
  function ToAdd(runId: int, f: Forecast): (ps: seq<Prediction>)
    ensures |ps| == Min(|f.values|, |f.index|)
    ensures forall i :: 0 <= i < |ps| ==>
              && ps[i].runId == runId
              && ps[i].timestamp == f.index[i]
              && ps[i].frLb == ps[i].fr == ps[i].frUb == Some(RoundTenths(f.values[i]))
    decreases |f.values|
  {
    if |f.values| == 0 || |f.index| == 0 then []
    else
      var v := Some(RoundTenths(f.values[0]));
      [Prediction(runId, f.index[0], v, v, v)] + ToAdd(runId, Forecast(f.values[1..], f.index[1..]))
  }

  /** A run's rows can be stored in an empty table exactly when the run exists
      and the timestamps they use are distinct. */
  lemma {:induction false} ToAddInsertable(runIds: set<int>, runId: int, f: Forecast)
    ensures var ps := ToAdd(runId, f);
      Insertable([], runIds, ps) <==>
        (|ps| == 0 || runId in runIds) &&
        (forall i, j :: 0 <= i < j < |ps| ==> f.index[i] != f.index[j])
  {
    var ps := ToAdd(runId, f);
    assert Keys(ps) !! Keys([]);
    assert (forall p :: p in ps ==> p.runId in runIds) <==> (|ps| == 0 || runId in runIds) by {
      if |ps| > 0 {
        assert ps[0] in ps;
      }
    }
    assert UniqueKeys(ps) <==> (forall i, j :: 0 <= i < j < |ps| ==> f.index[i] != f.index[j]) by {
      forall i, j | 0 <= i < j < |ps| ensures KeyOf(ps[i]) != KeyOf(ps[j]) <==> f.index[i] != f.index[j] {
      }
    }
  }

  // ---------------------------------------------------------------------------
  // The loop, as a function of the session state

  /** The body of the loop for one run: forecast, build, `put_predictions`.
      The run counts as added whatever `put_predictions` answers. */
  function RunStep(tx: Tx, runIds: set<int>, run: RiverRun, forecast: Forecaster, fault: bool): (Tx, RunLog) {
    match forecast(run.runId)
    case None => (tx, Failed(run.runId))
    case Some(f) => (PutTx(tx, runIds, ToAdd(run.runId, f), fault).0, Added(run.runId))
  }

  /** The first `n` iterations of the loop; `fault(i)` says whether the store
      fails the commit of the i-th run's batch. */
  function Loop(tx: Tx, runIds: set<int>, runs: seq<RiverRun>, n: nat, forecast: Forecaster, fault: nat -> bool)
    : (Tx, seq<RunLog>)
    requires n <= |runs|
  {
    if n == 0 then (tx, [])
    else
      var (t, logs) := Loop(tx, runIds, runs, n - 1, forecast, fault);
      var (t', l) := RunStep(t, runIds, runs[n - 1], forecast, fault(n - 1));
      (t', logs + [l])
  }

  /** `compute_predictions` on a session state. */
  function Compute(tx: Tx, runIds: set<int>, setup: Setup, forecast: Forecaster, fault: nat -> bool)
    : (r: (Tx, Outcome, seq<RunLog>))
    ensures r.1 == ReturnedFalse <==> !setup.modelReady || setup.clearFault || setup.runs.None?
    ensures r.1 == ReturnedFalse ==> r.2 == []
    ensures !setup.modelReady || setup.clearFault ==> r.0 == tx
  {
    if !setup.modelReady || setup.clearFault then (tx, ReturnedFalse, [])
    else
      var cleared := ClearTx(tx);
      match setup.runs
      case None => (cleared, ReturnedFalse, [])
      case Some(runs) =>
        var (t, logs) := Loop(cleared, runIds, runs, |runs|, forecast, fault);
        (t, ReturnedNone, logs)
  }

  /** The repository calls of the loop's first `n` iterations: one put per run
      whose forecast succeeded, in run order. */
  function Puts(runs: seq<RiverRun>, n: nat, forecast: Forecaster): (calls: seq<Call>)
    requires n <= |runs|
    ensures |calls| <= n
    ensures forall c :: c in calls ==> c.PutCall?
  {
    if n == 0 then []
    else
      var rest := Puts(runs, n - 1, forecast);
      match forecast(runs[n - 1].runId)
      case None => rest
      case Some(f) => rest + [PutCall(ToAdd(runs[n - 1].runId, f))]
  }

  /** The indices, among the first `n` runs, of those whose forecast
      succeeded, in increasing order. */
  function OkIndices(runs: seq<RiverRun>, n: nat, forecast: Forecaster): (r: seq<nat>)
    requires n <= |runs|
    ensures forall k :: 0 <= k < |r| ==> r[k] < n && forecast(runs[r[k]].runId).Some?
    ensures forall k, l :: 0 <= k < l < |r| ==> r[k] < r[l]
    ensures forall i :: 0 <= i < n && forecast(runs[i].runId).Some? ==> i in r
  {
    if n == 0 then []
    else
      var rest := OkIndices(runs, n - 1, forecast);
      if forecast(runs[n - 1].runId).Some? then rest + [n - 1] else rest
  }

  /** `c` is the put made for run `i`: the rows built from its forecast. */
  predicate PutFor(runs: seq<RiverRun>, forecast: Forecaster, c: Call, i: nat) {
    i < |runs| && forecast(runs[i].runId).Some? &&
    c == PutCall(ToAdd(runs[i].runId, forecast(runs[i].runId).value))
  }

  /** The k-th put carries the rows built for the k-th run whose forecast
      succeeded. */
  lemma {:induction false} PutsPerSuccess(runs: seq<RiverRun>, n: nat, forecast: Forecaster)
    requires n <= |runs|
    ensures var calls, ix := Puts(runs, n, forecast), OkIndices(runs, n, forecast);
      && |calls| == |ix|
      && forall k :: 0 <= k < |ix| ==> PutFor(runs, forecast, calls[k], ix[k])
  {
    if n > 0 {
      PutsPerSuccess(runs, n - 1, forecast);
    }
  }

  /** Each run is logged on its own: added exactly when its own forecast
      succeeded, so one run's failure has no effect on another's entry. */
  lemma {:induction false} LoopLogs(tx: Tx, runIds: set<int>, runs: seq<RiverRun>, n: nat, forecast: Forecaster, fault: nat -> bool)
    requires n <= |runs|
    ensures var logs := Loop(tx, runIds, runs, n, forecast, fault).1;
      && |logs| == n
      && forall i :: 0 <= i < n ==>
           logs[i] == if forecast(runs[i].runId).Some? then Added(runs[i].runId) else Failed(runs[i].runId)
  {
    if n > 0 {
      LoopLogs(tx, runIds, runs, n - 1, forecast, fault);
    }
  }

  // ---------------------------------------------------------------------------
  // The method

  method ComputePredictions(session: Session, setup: Setup, forecast: Forecaster, fault: nat -> bool)
    returns (outcome: Outcome, logs: seq<RunLog>, ghost calls: seq<Call>)
    requires session.Valid()
    modifies session
    ensures session.Valid()
    ensures (session.State(), outcome, logs) == Compute(old(session.State()), session.runIds, setup, forecast, fault)
    ensures calls == if !setup.modelReady then []
                     else if setup.clearFault || setup.runs.None? then [ClearCall]
                     else [ClearCall] + Puts(setup.runs.value, |setup.runs.value|, forecast)
  {
    logs := [];
    calls := [];
    if !setup.modelReady {
      return ReturnedFalse, logs, calls;
    }
    var repo := new Repository(session);
    var cleared := repo.ClearPredictions(setup.clearFault);
    if !cleared || setup.runs.None? {
      return ReturnedFalse, logs, repo.calls;
    }
    var runs := setup.runs.value;
    ghost var start := session.State();
    var i := 0;
    while i < |runs|
      invariant 0 <= i <= |runs|
      invariant repo.session == session && session.Valid()
      invariant (session.State(), logs) == Loop(start, session.runIds, runs, i, forecast, fault)
      invariant repo.calls == [ClearCall] + Puts(runs, i, forecast)
    {
      var run := runs[i];
      match forecast(run.runId) {
        case None =>
          logs := logs + [Failed(run.runId)];
        case Some(f) =>
          var toAdd := ToAdd(run.runId, f);
          var _ := repo.PutPredictions(Many(toAdd), fault(i));
          logs := logs + [Added(run.runId)];
      }
      i := i + 1;
    }
    outcome, calls := ReturnedNone, repo.calls;
  }

  /** The cache cleared exactly once, before any put. */
  lemma {:induction false} ClearOnceFirst(runs: seq<RiverRun>, forecast: Forecaster)
    ensures var calls := [ClearCall] + Puts(runs, |runs|, forecast);
      calls[0] == ClearCall && forall i :: 0 < i < |calls| ==> calls[i].PutCall?
  {
    var calls := [ClearCall] + Puts(runs, |runs|, forecast);
    forall i | 0 < i < |calls| ensures calls[i].PutCall? {
      assert calls[i] in Puts(runs, |runs|, forecast);
    }
  }

  /** `daily_run`: a new session over the stored table, `compute_predictions`
      (the two observation steps are disabled), then `close`, which discards
      whatever was left uncommitted. */
  function DailyTable(rows: seq<Prediction>, runIds: set<int>, setup: Setup, forecast: Forecaster, fault: nat -> bool)
    : seq<Prediction>
  {
    RollbackTx(Compute(Tx(rows, []), runIds, setup, forecast, fault).0).committed
  }

  method DailyRun(runIds: set<int>, rows: seq<Prediction>, setup: Setup, forecast: Forecaster, fault: nat -> bool)
    returns (table: seq<Prediction>)
    requires PredictionTableValid(rows, runIds)
    ensures PredictionTableValid(table, runIds)
    ensures table == DailyTable(rows, runIds, setup, forecast, fault)
  {
    var session := new Session(runIds, rows);
    var outcome, logs, calls := ComputePredictions(session, setup, forecast, fault);
    session.Close();
    table := session.committed;
  }

  // ---------------------------------------------------------------------------
  // What a cycle leaves in the table

  /** The rows of the runs among the first `n` whose forecast succeeded, in order. */
  function Batch(runs: seq<RiverRun>, n: nat, forecast: Forecaster): seq<Prediction>
    requires n <= |runs|
  {
    if n == 0 then []
    else
      match forecast(runs[n - 1].runId)
      case None => Batch(runs, n - 1, forecast)
      case Some(f) => Batch(runs, n - 1, forecast) + ToAdd(runs[n - 1].runId, f)
  }

  predicate AnyOk(runs: seq<RiverRun>, n: nat, forecast: Forecaster)
    requires n <= |runs|
  {
    exists i :: 0 <= i < n && forecast(runs[i].runId).Some?
  }

  /** `p` is one of the rows built for the i-th run, whose forecast succeeded. */
  predicate BuiltFor(runs: seq<RiverRun>, i: nat, forecast: Forecaster, p: Prediction)
    requires i < |runs|
  {
    forecast(runs[i].runId).Some? && p in ToAdd(runs[i].runId, forecast(runs[i].runId).value)
  }

  lemma BatchStep(runs: seq<RiverRun>, n: nat, forecast: Forecaster, p: Prediction)
    requires 0 < n <= |runs|
    ensures p in Batch(runs, n, forecast) <==> p in Batch(runs, n - 1, forecast) || BuiltFor(runs, n - 1, forecast, p)
  {
  }

  /** A row is in the batch exactly when it was built for a run whose forecast
      succeeded. */
  lemma {:induction false} BatchRows(runs: seq<RiverRun>, n: nat, forecast: Forecaster, p: Prediction)
    requires n <= |runs|
    ensures p in Batch(runs, n, forecast) <==> exists i :: 0 <= i < n && BuiltFor(runs, i, forecast, p)
  {
    if n > 0 {
      BatchRows(runs, n - 1, forecast, p);
      BatchStep(runs, n, forecast, p);
      if BuiltFor(runs, n - 1, forecast, p) {
        assert 0 <= n - 1 < n;
      } else if exists i :: 0 <= i < n && BuiltFor(runs, i, forecast, p) {
        var i :| 0 <= i < n && BuiltFor(runs, i, forecast, p);
        assert i < n - 1;
      }
    }
  }

  lemma {:induction false} NoneOkEmptyBatch(runs: seq<RiverRun>, n: nat, forecast: Forecaster)
    requires n <= |runs| && !AnyOk(runs, n, forecast)
    ensures Batch(runs, n, forecast) == []
  {
    if n > 0 {
      NoneOkEmptyBatch(runs, n - 1, forecast);
    }
  }

  lemma InsertableSplit(runIds: set<int>, a: seq<Prediction>, b: seq<Prediction>)
    requires Insertable([], runIds, a + b)
    ensures Insertable([], runIds, a) && Insertable(a, runIds, b)
  {
    var ab := a + b;
    forall i, j | 0 <= i < j < |a| ensures KeyOf(a[i]) != KeyOf(a[j]) {
      assert ab[i] == a[i] && ab[j] == a[j];
    }
    forall i, j | 0 <= i < j < |b| ensures KeyOf(b[i]) != KeyOf(b[j]) {
      assert ab[|a| + i] == b[i] && ab[|a| + j] == b[j];
    }
    forall p, q | p in a && q in b ensures KeyOf(p) != KeyOf(q) {
      var i :| 0 <= i < |a| && a[i] == p;
      var j :| 0 <= j < |b| && b[j] == q;
      assert ab[i] == p && ab[|a| + j] == q;
    }
    assert forall p :: p in a ==> p in ab;
    assert forall p :: p in b ==> p in ab;
  }

  /** The loop after the clear, when no commit fails and the batches fit
      together: until a forecast succeeds the pending delete is all there is;
      from the first successful put on, the table holds exactly the rows put
      so far. */
  lemma {:induction false} LoopTable(rows: seq<Prediction>, runIds: set<int>, runs: seq<RiverRun>, n: nat,
                                     forecast: Forecaster, fault: nat -> bool)
    requires n <= |runs|
    requires forall i :: 0 <= i < n ==> !fault(i)
    requires Insertable([], runIds, Batch(runs, n, forecast))
    ensures Loop(ClearTx(Tx(rows, [])), runIds, runs, n, forecast, fault).0 ==
      if AnyOk(runs, n, forecast) then Tx(Batch(runs, n, forecast), []) else ClearTx(Tx(rows, []))
  {
    if n > 0 {
      var prev := Batch(runs, n - 1, forecast);
      var t := Loop(ClearTx(Tx(rows, [])), runIds, runs, n - 1, forecast, fault).0;
      var run := runs[n - 1];
      match forecast(run.runId)
      case None =>
        assert Batch(runs, n, forecast) == prev;
        LoopTable(rows, runIds, runs, n - 1, forecast, fault);
        assert AnyOk(runs, n, forecast) == AnyOk(runs, n - 1, forecast) by {
          if AnyOk(runs, n, forecast) {
            var i :| 0 <= i < n && forecast(runs[i].runId).Some?;
            assert i < n - 1;
          }
        }
      case Some(f) =>
        var ps := ToAdd(run.runId, f);
        assert Batch(runs, n, forecast) == prev + ps;
        InsertableSplit(runIds, prev, ps);
        LoopTable(rows, runIds, runs, n - 1, forecast, fault);
        assert AnyOk(runs, n, forecast) by { assert forecast(runs[n - 1].runId).Some?; }
        if AnyOk(runs, n - 1, forecast) {
          PutTxFresh(prev, runIds, ps, false);
        } else {
          NoneOkEmptyBatch(runs, n - 1, forecast);
          assert prev + ps == ps;
          PutTxAfterClear(rows, runIds, ps, false);
        }
    }
  }

  /** What a day's run leaves in the prediction table when the forecaster and
      the run list are available and no commit fails: the rows of every run
      whose forecast succeeded and of no other run; but if no forecast
      succeeded, the old rows, because the uncommitted delete is rolled back
      when the session closes. */
  lemma {:induction false} DailyTableNoFault(rows: seq<Prediction>, runIds: set<int>, runs: seq<RiverRun>,
                          forecast: Forecaster, fault: nat -> bool)
    requires forall i :: 0 <= i < |runs| ==> !fault(i)
    requires Insertable([], runIds, Batch(runs, |runs|, forecast))
    ensures DailyTable(rows, runIds, Setup(true, false, Some(runs)), forecast, fault) ==
      if AnyOk(runs, |runs|, forecast) then Batch(runs, |runs|, forecast) else rows
  {
    LoopTable(rows, runIds, runs, |runs|, forecast, fault);
  }

  /** Running the same day twice with the same forecasts leaves the same table. */
  lemma {:induction false} DailyIdempotent(rows: seq<Prediction>, runIds: set<int>, runs: seq<RiverRun>,
                        forecast: Forecaster, fault: nat -> bool)
    requires forall i :: 0 <= i < |runs| ==> !fault(i)
    requires Insertable([], runIds, Batch(runs, |runs|, forecast))
    ensures var once := DailyTable(rows, runIds, Setup(true, false, Some(runs)), forecast, fault);
      DailyTable(once, runIds, Setup(true, false, Some(runs)), forecast, fault) == once
  {
    var once := DailyTable(rows, runIds, Setup(true, false, Some(runs)), forecast, fault);
    DailyTableNoFault(rows, runIds, runs, forecast, fault);
    DailyTableNoFault(once, runIds, runs, forecast, fault);
  }

  /** When the forecaster cannot be built, the cache cannot be cleared or the
      run list cannot be had, the day leaves the table as it was. */
  lemma DailySetupFailure(rows: seq<Prediction>, runIds: set<int>, setup: Setup, forecast: Forecaster, fault: nat -> bool)
    requires !setup.modelReady || setup.clearFault || setup.runs.None?
    ensures DailyTable(rows, runIds, setup, forecast, fault) == rows
  {
  }
}
