/**
 * The database session the repository works through, restricted to the
 * prediction table: the committed rows, and the statements issued since the
 * last commit or rollback. A bulk `query(Prediction).delete()` and the rows
 * handed to `add_all` stay pending until `commit`; `rollback` and `close`
 * discard them.
 */
module Session {
  import opened Wrappers
  import opened Context

  datatype Op = ClearRows | AddRows(rows: seq<Prediction>)

  /** A session's state as a value: committed rows and pending statements. */
  datatype Tx = Tx(committed: seq<Prediction>, pending: seq<Op>)

  function ApplyOp(rows: seq<Prediction>, runIds: set<int>, op: Op): Option<seq<Prediction>> {
    match op
    case ClearRows => Some([])
    case AddRows(ps) => InsertAll(rows, runIds, ps)
  }

  /** The table the pending statements produce from `rows`, or None when one
      of them violates a key constraint. */
  function ApplyOps(rows: seq<Prediction>, runIds: set<int>, ops: seq<Op>): Option<seq<Prediction>>
    decreases |ops|
  {
    if |ops| == 0 then Some(rows)
    else
      match ApplyOp(rows, runIds, ops[0])
      case None => None
      case Some(rows') => ApplyOps(rows', runIds, ops[1..])
  }

  lemma {:induction false} ApplyOpsValid(rows: seq<Prediction>, runIds: set<int>, ops: seq<Op>)
    requires PredictionTableValid(rows, runIds)
    ensures ApplyOps(rows, runIds, ops).Some? ==> PredictionTableValid(ApplyOps(rows, runIds, ops).value, runIds)
    decreases |ops|
  {
    if |ops| > 0 {
      match ops[0]
      case ClearRows =>
        ApplyOpsValid([], runIds, ops[1..]);
      case AddRows(ps) =>
        InsertAllSpec(rows, runIds, ps);
        var r := InsertAll(rows, runIds, ps);
        if r.Some? {
          assert PredictionTableValid(rows + ps, runIds) by {
            forall i, j | 0 <= i < j < |rows + ps| ensures KeyOf((rows + ps)[i]) != KeyOf((rows + ps)[j]) {
              if j < |rows| {
                assert (rows + ps)[i] == rows[i] && (rows + ps)[j] == rows[j];
              } else if i >= |rows| {
                assert (rows + ps)[i] == ps[i - |rows|] && (rows + ps)[j] == ps[j - |rows|];
              } else {
                assert (rows + ps)[i] == rows[i] && (rows + ps)[j] == ps[j - |rows|];
                assert KeyOf(rows[i]) in Keys(rows) && KeyOf(ps[j - |rows|]) in Keys(ps);
              }
            }
          }
          ApplyOpsValid(rows + ps, runIds, ops[1..]);
        }
    }
  }

  /** COMMIT: the pending statements take effect all together, or the commit
      fails (a key violation, or `fault`: the store failed for a reason
      outside this model) and nothing changes. */
  function CommitTx(tx: Tx, runIds: set<int>, fault: bool): (r: (Tx, bool))
    ensures r.1 <==> !fault && ApplyOps(tx.committed, runIds, tx.pending).Some?
    ensures r.1 ==> r.0 == Tx(ApplyOps(tx.committed, runIds, tx.pending).value, [])
    ensures !r.1 ==> r.0 == tx
  {
    if fault then (tx, false)
    else
      match ApplyOps(tx.committed, runIds, tx.pending)
      case None => (tx, false)
      case Some(rows) => (Tx(rows, []), true)
  }

  function RollbackTx(tx: Tx): Tx {
    Tx(tx.committed, [])
  }

  class Session {
    /** The river-run ids the prediction table's foreign key refers to; the
        core never changes river runs. */
    const runIds: set<int>
    var committed: seq<Prediction>
    var pending: seq<Op>

    ghost predicate Valid()
      reads this
    {
      PredictionTableValid(committed, runIds)
    }

    function State(): Tx
      reads this
    {
      Tx(committed, pending)
    }

    constructor (runIds: set<int>, rows: seq<Prediction>)
      requires PredictionTableValid(rows, runIds)
      ensures Valid()
      ensures this.runIds == runIds && State() == Tx(rows, [])
    {
      this.runIds := runIds;
      committed := rows;
      pending := [];
    }

    method AddAll(ps: seq<Prediction>)
      requires Valid()
      modifies this
      ensures Valid()
      ensures State() == Tx(old(committed), old(pending) + [AddRows(ps)])
    {
      pending := pending + [AddRows(ps)];
    }

    /** `query(Prediction).delete()`; when the store refuses the statement
        (`fault`) it raises and nothing is recorded. */
    method DeleteAll(fault: bool) returns (ok: bool)
      requires Valid()
      modifies this
      ensures Valid()
      ensures ok == !fault
      ensures State() == if ok then Tx(old(committed), old(pending) + [ClearRows]) else old(State())
    {
      ok := !fault;
      if ok {
        pending := pending + [ClearRows];
      }
    }

    method Commit(fault: bool) returns (ok: bool)
      requires Valid()
      modifies this
      ensures Valid()
      ensures (State(), ok) == CommitTx(old(State()), runIds, fault)
    {
      ok := false;
      if !fault {
        var r := ApplyOps(committed, runIds, pending);
        if r.Some? {
          ApplyOpsValid(committed, runIds, pending);
          committed, pending := r.value, [];
          ok := true;
        }
      }
    }

    method Rollback()
      requires Valid()
      modifies this
      ensures Valid()
      ensures State() == RollbackTx(old(State()))
    {
      pending := [];
    }

    /** Closing a session rolls back whatever was not committed. */
    method Close()
      requires Valid()
      modifies this
      ensures Valid()
      ensures State() == RollbackTx(old(State()))
    {
      pending := [];
    }
  }

  /** What the prediction-table tests observe: adding n distinct predictions
      and committing gives n rows; a bulk delete then leaves none. */
  lemma AddCommitDelete(runIds: set<int>, ps: seq<Prediction>)
    requires UniqueKeys(ps) && forall p :: p in ps ==> p.runId in runIds
    ensures CommitTx(Tx([], [AddRows(ps)]), runIds, false).1
    ensures |CommitTx(Tx([], [AddRows(ps)]), runIds, false).0.committed| == |ps|
    ensures ApplyOps(CommitTx(Tx([], [AddRows(ps)]), runIds, false).0.committed, runIds, [ClearRows]) == Some([])
  {
    AddDistinctGivesCount(runIds, ps);
    var rows := InsertAll([], runIds, ps).value;
    assert [AddRows(ps)][1..] == [];
    assert ApplyOp([], runIds, AddRows(ps)) == Some(rows);
    assert ApplyOps([], runIds, [AddRows(ps)]) == ApplyOps(rows, runIds, []) == Some(rows);
  }
}
