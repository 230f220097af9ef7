/**
 * The persisted entities of the river-run database (riverrunner/context.py):
 * their columns, primary and foreign keys, column widths, `__str__` forms,
 * and the prediction table's INSERT and DELETE under its key constraints.
 */
module Context {
  import opened Wrappers
  import opened Text

  /** An instant; only its order matters to the core. */
  type Time = int

  /** A flow rate rounded to one decimal place, counted in tenths. */
  type Tenths = int

  /** A nullable `String(n)` column; `None` is SQL NULL. */
  type Column = Option<string>

  datatype Address = Address(
    latitude: real,
    longitude: real,
    address: Column,
    city: Column,
    county: Column,
    state: Column,
    zip: Column)

  datatype Metric = Metric(
    metricId: int,
    description: Column,
    name: Column,
    units: Column)

  datatype Station = Station(
    stationId: string,
    source: Column,
    name: Column,
    latitude: real,
    longitude: real)

  datatype RiverRun = RiverRun(
    runId: int,
    classRating: Column,
    maxLevel: Option<int>,
    minLevel: Option<int>,
    putInLatitude: real,
    putInLongitude: real,
    distance: Option<real>,
    riverName: Column,
    runName: Column,
    takeOutLatitude: real,
    takeOutLongitude: real)

  datatype Measurement = Measurement(
    dateTime: Time,
    metricId: int,
    stationId: string,
    value: Option<real>)

  datatype Prediction = Prediction(
    runId: int,
    timestamp: Time,
    frLb: Option<Tenths>,
    fr: Option<Tenths>,
    frUb: Option<Tenths>)

  /** The composite primary keys. */
  datatype MeasurementKey = MeasurementKey(dateTime: Time, metricId: int, stationId: string)
  datatype PredictionKey = PredictionKey(runId: int, timestamp: Time)

  function MeasurementKeyOf(m: Measurement): MeasurementKey {
    MeasurementKey(m.dateTime, m.metricId, m.stationId)
  }

  function KeyOf(p: Prediction): PredictionKey {
    PredictionKey(p.runId, p.timestamp)
  }

  // ---------------------------------------------------------------------------
  // Column widths

  predicate Fits(c: Column, width: nat) {
    c.None? || |c.value| <= width
  }

  predicate AddressFits(a: Address) {
    Fits(a.address, 255) && Fits(a.city, 255) && Fits(a.county, 255) && Fits(a.state, 2) && Fits(a.zip, 10)
  }

  predicate MetricFits(m: Metric) {
    Fits(m.description, 255) && Fits(m.name, 255) && Fits(m.units, 31)
  }

  predicate StationFits(s: Station) {
    |s.stationId| <= 31 && Fits(s.source, 4) && Fits(s.name, 255)
  }

  predicate RunFits(r: RiverRun) {
    Fits(r.classRating, 31) && Fits(r.riverName, 255) && Fits(r.runName, 255)
  }

  // ---------------------------------------------------------------------------
  // The database and its key constraints

  datatype Db = Db(
    addresses: seq<Address>,
    metrics: seq<Metric>,
    stations: seq<Station>,
    runs: seq<RiverRun>,
    measurements: seq<Measurement>,
    predictions: seq<Prediction>)

  function RunIds(runs: seq<RiverRun>): set<int> {
    set r | r in runs :: r.runId
  }

  function MetricIds(metrics: seq<Metric>): set<int> {
    set m | m in metrics :: m.metricId
  }

  function StationIds(stations: seq<Station>): set<string> {
    set s | s in stations :: s.stationId
  }

  function Keys(rows: seq<Prediction>): set<PredictionKey> {
    set p | p in rows :: KeyOf(p)
  }

  ghost predicate UniqueKeys(rows: seq<Prediction>) {
    forall i, j :: 0 <= i < j < |rows| ==> KeyOf(rows[i]) != KeyOf(rows[j])
  }

  ghost predicate UniqueMeasurementKeys(rows: seq<Measurement>) {
    forall i, j :: 0 <= i < j < |rows| ==> MeasurementKeyOf(rows[i]) != MeasurementKeyOf(rows[j])
  }

  /** The prediction table's constraints: one row per (run_id, timestamp), and
      every run_id names a river run. */
  ghost predicate PredictionTableValid(rows: seq<Prediction>, runIds: set<int>) {
    UniqueKeys(rows) && forall p :: p in rows ==> p.runId in runIds
  }

  ghost predicate MeasurementTableValid(rows: seq<Measurement>, metricIds: set<int>, stationIds: set<string>) {
    && UniqueMeasurementKeys(rows)
    && (forall m :: m in rows ==> m.metricId in metricIds && m.stationId in stationIds)
  }

  ghost predicate Valid(db: Db) {
    && (forall i, j :: 0 <= i < j < |db.addresses| ==>
          (db.addresses[i].latitude, db.addresses[i].longitude) != (db.addresses[j].latitude, db.addresses[j].longitude))
    && (forall i, j :: 0 <= i < j < |db.metrics| ==> db.metrics[i].metricId != db.metrics[j].metricId)
    && (forall i, j :: 0 <= i < j < |db.stations| ==> db.stations[i].stationId != db.stations[j].stationId)
    && (forall i, j :: 0 <= i < j < |db.runs| ==> db.runs[i].runId != db.runs[j].runId)
    && MeasurementTableValid(db.measurements, MetricIds(db.metrics), StationIds(db.stations))
    && PredictionTableValid(db.predictions, RunIds(db.runs))
    && (forall a :: a in db.addresses ==> AddressFits(a))
    && (forall m :: m in db.metrics ==> MetricFits(m))
    && (forall s :: s in db.stations ==> StationFits(s))
    && (forall r :: r in db.runs ==> RunFits(r))
  }

  // ---------------------------------------------------------------------------
  // The prediction table's INSERT and DELETE

  /** INSERT one row: refused (an integrity error) on a duplicate key or an
      unknown run. */
  function Insert(rows: seq<Prediction>, runIds: set<int>, p: Prediction): (r: Option<seq<Prediction>>)
    ensures r.Some? <==> KeyOf(p) !in Keys(rows) && p.runId in runIds
    ensures r.Some? ==> r.value == rows + [p]
  {
    if KeyOf(p) in Keys(rows) || p.runId !in runIds then None else Some(rows + [p])
  }

  /** INSERT a batch, row by row. */
  function InsertAll(rows: seq<Prediction>, runIds: set<int>, ps: seq<Prediction>): Option<seq<Prediction>>
    decreases |ps|
  {
    if |ps| == 0 then Some(rows)
    else
      match Insert(rows, runIds, ps[0])
      case None => None
      case Some(rows') => InsertAll(rows', runIds, ps[1..])
  }

  /** When a batch can be inserted, stated without reference to the order of insertion. */
  ghost predicate Insertable(rows: seq<Prediction>, runIds: set<int>, ps: seq<Prediction>) {
    && UniqueKeys(ps)
    && (forall p :: p in ps ==> p.runId in runIds)
    && Keys(ps) !! Keys(rows)
  }

  lemma {:induction false} InsertAllSpec(rows: seq<Prediction>, runIds: set<int>, ps: seq<Prediction>)
    ensures InsertAll(rows, runIds, ps).Some? <==> Insertable(rows, runIds, ps)
    ensures InsertAll(rows, runIds, ps).Some? ==> InsertAll(rows, runIds, ps).value == rows + ps
  {
    if Insertable(rows, runIds, ps) {
      InsertAllAccepts(rows, runIds, ps);
    }
    if InsertAll(rows, runIds, ps).Some? {
      InsertAllRefuses(rows, runIds, ps);
    }
  }

  /** An insertable batch goes in, appended in order. */
  lemma {:induction false} InsertAllAccepts(rows: seq<Prediction>, runIds: set<int>, ps: seq<Prediction>)
    requires Insertable(rows, runIds, ps)
    ensures InsertAll(rows, runIds, ps) == Some(rows + ps)
    decreases |ps|
  {
    if |ps| == 0 {
      assert rows + ps == rows;
    } else {
      var p, rest := ps[0], ps[1..];
      assert ps == [p] + rest;
      assert KeyOf(p) in Keys(ps);
      assert Insert(rows, runIds, p) == Some(rows + [p]);
      assert Keys(rows + [p]) == Keys(rows) + {KeyOf(p)};
      forall i, j | 0 <= i < j < |rest| ensures KeyOf(rest[i]) != KeyOf(rest[j]) {
        assert rest[i] == ps[i + 1] && rest[j] == ps[j + 1];
      }
      assert KeyOf(p) !in Keys(rest) by {
        forall q | q in rest ensures KeyOf(q) != KeyOf(p) {
          var j :| 0 <= j < |rest| && rest[j] == q;
          assert ps[j + 1] == q;
        }
      }
      assert Keys(rest) <= Keys(ps) by {
        forall q | q in rest ensures q in ps { }
      }
      InsertAllAccepts(rows + [p], runIds, rest);
      assert (rows + [p]) + rest == rows + ps;
    }
  }

  /** A batch that goes in is insertable. */
  lemma {:induction false} InsertAllRefuses(rows: seq<Prediction>, runIds: set<int>, ps: seq<Prediction>)
    requires InsertAll(rows, runIds, ps).Some?
    ensures Insertable(rows, runIds, ps)
    decreases |ps|
  {
    if |ps| > 0 {
      var p, rest := ps[0], ps[1..];
      assert ps == [p] + rest;
      assert Insert(rows, runIds, p).Some?;
      assert Keys(rows + [p]) == Keys(rows) + {KeyOf(p)};
      InsertAllRefuses(rows + [p], runIds, rest);
      forall i, j | 0 <= i < j < |ps| ensures KeyOf(ps[i]) != KeyOf(ps[j]) {
        if i == 0 {
          assert ps[j] == rest[j - 1];
          assert KeyOf(ps[j]) in Keys(rest);
        } else {
          assert ps[i] == rest[i - 1] && ps[j] == rest[j - 1];
        }
      }
      assert Keys(ps) == {KeyOf(p)} + Keys(rest);
    }
  }

  /** Deleting the one prediction with key `k`, as the single-row removal
      test intends: every other row stays, in order. */
  function Delete(rows: seq<Prediction>, k: PredictionKey): (r: seq<Prediction>)
    ensures |r| <= |rows|
    ensures forall p :: p in r <==> p in rows && KeyOf(p) != k
  {
    if |rows| == 0 then []
    else if KeyOf(rows[0]) == k then Delete(rows[1..], k)
    else [rows[0]] + Delete(rows[1..], k)
  }

  /** The tail of a keyed table is keyed and does not hold its head's key. */
  lemma UniqueTail(rows: seq<Prediction>)
    requires |rows| > 0 && UniqueKeys(rows)
    ensures UniqueKeys(rows[1..])
    ensures KeyOf(rows[0]) !in Keys(rows[1..])
    ensures Keys(rows) == {KeyOf(rows[0])} + Keys(rows[1..])
  {
    var rest := rows[1..];
    assert rows == [rows[0]] + rest;
    forall i, j | 0 <= i < j < |rest| ensures KeyOf(rest[i]) != KeyOf(rest[j]) {
      assert rest[i] == rows[i + 1] && rest[j] == rows[j + 1];
    }
    forall q | q in rest ensures KeyOf(q) != KeyOf(rows[0]) {
      var j :| 0 <= j < |rest| && rest[j] == q;
      assert rows[j + 1] == q;
    }
  }

  /** A row whose key is new can head a keyed table. */
  lemma UniqueCons(p: Prediction, d: seq<Prediction>)
    requires UniqueKeys(d) && KeyOf(p) !in Keys(d)
    ensures UniqueKeys([p] + d)
  {
    forall i, j | 0 <= i < j < |[p] + d| ensures KeyOf(([p] + d)[i]) != KeyOf(([p] + d)[j]) {
      assert ([p] + d)[j] == d[j - 1];
      if i > 0 {
        assert ([p] + d)[i] == d[i - 1];
      } else {
        assert d[j - 1] in d;
      }
    }
  }

  lemma {:induction false} DeleteSpec(rows: seq<Prediction>, k: PredictionKey)
    requires UniqueKeys(rows)
    ensures Keys(Delete(rows, k)) == Keys(rows) - {k}
    ensures UniqueKeys(Delete(rows, k))
    ensures |Delete(rows, k)| == if k in Keys(rows) then |rows| - 1 else |rows|
  {
    var r := Delete(rows, k);
    assert Keys(r) == Keys(rows) - {k} by {
      forall x | x in Keys(rows) - {k} ensures x in Keys(r) {
        var p :| p in rows && KeyOf(p) == x;
        assert p in r;
      }
    }
    if |rows| > 0 {
      var rest := rows[1..];
      UniqueTail(rows);
      DeleteSpec(rest, k);
      if KeyOf(rows[0]) != k {
        UniqueCons(rows[0], Delete(rest, k));
      }
    }
  }

  /** Inserting n predictions with distinct keys for known runs into an empty
      table gives n rows. */
  lemma AddDistinctGivesCount(runIds: set<int>, ps: seq<Prediction>)
    requires UniqueKeys(ps) && forall p :: p in ps ==> p.runId in runIds
    ensures InsertAll([], runIds, ps).Some?
    ensures |InsertAll([], runIds, ps).value| == |ps|
    ensures PredictionTableValid(InsertAll([], runIds, ps).value, runIds)
  {
    InsertAllSpec([], runIds, ps);
    assert [] + ps == ps;
  }

  /** Deleting one of two stored predictions leaves one row. */
  lemma DeleteOneOfTwo(a: Prediction, b: Prediction)
    requires KeyOf(a) != KeyOf(b)
    ensures |Delete([a, b], KeyOf(a))| == 1
    ensures Delete([a, b], KeyOf(a)) == [b]
  {
    assert [a, b][1..] == [b];
    assert [b][1..] == [];
    assert Delete([b], KeyOf(a)) == [b] + Delete([], KeyOf(a));
    assert Delete([a, b], KeyOf(a)) == Delete([b], KeyOf(a));
  }

  // ---------------------------------------------------------------------------
  // Text forms (`__str__`)

  /** `'%s' % x` of a nullable string column. */
  function Show(c: Column): string {
    match c
    case None => "None"
    case Some(s) => s
  }

  /** `Address.__str__`: "address, city, state". */
  function AddressStr(a: Address): (s: string)
    ensures |s| == |Show(a.address)| + |Show(a.city)| + |Show(a.state)| + 4
    ensures s[..|Show(a.address)|] == Show(a.address)
    ensures s[|s| - |Show(a.state)|..] == Show(a.state)
  {
    Show(a.address) + ", " + Show(a.city) + ", " + Show(a.state)
  }

  /** The address field is read back from the text by splitting at the first comma, when it has none. */
  lemma AddressStrSplit(a: Address)
    requires ',' !in Show(a.address)
    ensures SplitFirst(AddressStr(a), ',') == Some((Show(a.address), " " + Show(a.city) + ", " + Show(a.state)))
  {
    assert AddressStr(a) == Show(a.address) + [','] + (" " + Show(a.city) + ", " + Show(a.state));
    SplitFirstJoin(Show(a.address), ',', " " + Show(a.city) + ", " + Show(a.state));
  }

  /** `Metric.__str__`: "metric_id: <id>, name: <name>". */
  function MetricStr(m: Metric): string {
    "metric_id: " + IntToString(m.metricId) + ", name: " + Show(m.name)
  }

  lemma MetricStrRecoversId(m: Metric)
    ensures |MetricStr(m)| > 11 && MetricStr(m)[..11] == "metric_id: "
    ensures SplitFirst(MetricStr(m)[11..], ',') == Some((IntToString(m.metricId), " name: " + Show(m.name)))
    ensures ParseInt(SplitFirst(MetricStr(m)[11..], ',').value.0) == Some(m.metricId)
  {
    var s := MetricStr(m);
    assert s[11..] == IntToString(m.metricId) + [','] + (" name: " + Show(m.name));
    SplitFirstJoin(IntToString(m.metricId), ',', " name: " + Show(m.name));
    ParseIntToString(m.metricId);
  }

  /** `__str__` must return a string: a NULL name makes it raise. */
  function RunStr(r: RiverRun): (s: Option<string>)
    ensures s.Some? <==> r.runName.Some?
    ensures s.Some? ==> s.value == r.runName.value
  {
    r.runName
  }

  function StationStr(st: Station): (s: Option<string>)
    ensures s.Some? <==> st.name.Some?
    ensures s.Some? ==> s.value == st.name.value
  {
    st.name
  }

  /** The metric row a metric id refers to (the `Measurement.metric` relationship). */
  function FindMetric(metrics: seq<Metric>, id: int): (r: Option<Metric>)
    ensures r.Some? ==> r.value in metrics && r.value.metricId == id
    ensures r.None? <==> id !in MetricIds(metrics)
  {
    if |metrics| == 0 then None
    else if metrics[0].metricId == id then Some(metrics[0])
    else
      assert MetricIds(metrics) == {metrics[0].metricId} + MetricIds(metrics[1..]) by {
        assert metrics == [metrics[0]] + metrics[1..];
      }
      FindMetric(metrics[1..], id)
  }

  /** `Measurement.__str__` reaches the metric through the relationship; a
      dangling metric id makes it raise. `fmt` is `str` of a timestamp. */
  function MeasurementStr(m: Measurement, metrics: seq<Metric>, fmt: Time -> string): (s: Option<string>)
    ensures s.Some? <==> m.metricId in MetricIds(metrics)
  {
    match FindMetric(metrics, m.metricId)
    case None => None
    case Some(mt) =>
      Some("station: " + m.stationId + ", datetime: " + fmt(m.dateTime) + ", metric: " + Show(mt.name))
  }

  /** The text names the station, the timestamp and the name of the metric
      the measurement refers to. */
  lemma MeasurementStrText(m: Measurement, metrics: seq<Metric>, fmt: Time -> string)
    requires m.metricId in MetricIds(metrics)
    ensures exists mt :: mt in metrics && mt.metricId == m.metricId &&
              MeasurementStr(m, metrics, fmt) ==
                Some("station: " + m.stationId + ", datetime: " + fmt(m.dateTime) + ", metric: " + Show(mt.name))
  {
    var mt := FindMetric(metrics, m.metricId).value;
    assert mt in metrics && mt.metricId == m.metricId;
  }

  /** `Prediction.__str__` of the table row: "run_id: <id>, <timestamp>, lb: .., fr: .., ub: ..". */
  function PredictionStr(p: Prediction, fmt: Time -> string): string {
    "run_id: " + IntToString(p.runId) + "," + PredictionStrTail(p, fmt)
  }

  /** What follows the run id's comma in `Prediction.__str__`. */
  function PredictionStrTail(p: Prediction, fmt: Time -> string): string {
    " " + fmt(p.timestamp) + ", lb: " + ShowTenths(p.frLb)
    + ", fr: " + ShowTenths(p.fr) + ", ub: " + ShowTenths(p.frUb)
  }

  /** `'%s' % x` of a nullable one-decimal float column. */
  function ShowTenths(c: Option<Tenths>): (s: string)
    ensures c.None? <==> s == "None"
    ensures c.Some? ==> ParseTenths(s) == c
  {
    match c
    case None => "None"
    case Some(k) =>
      TenthsRoundTrip(k);
      assert ParseTenths("None") == None;
      TenthsToString(k)
  }

  /** `__str__` ends with the upper bound: "None" for a NULL one, and
      otherwise text that reads back as the stored value. */
  lemma PredictionStrEndsWithUpperBound(p: Prediction, fmt: Time -> string)
    ensures var s, ub := PredictionStr(p, fmt), ShowTenths(p.frUb);
      && |s| >= |ub| + 6 && s[|s| - |ub| - 6..] == ", ub: " + ub
      && (p.frUb.None? ==> s[|s| - 4..] == "None")
      && (p.frUb.Some? ==> ParseTenths(s[|s| - |ub|..]) == p.frUb)
  {
    var s, ub := PredictionStr(p, fmt), ShowTenths(p.frUb);
    var head := "run_id: " + IntToString(p.runId) + "," + " " + fmt(p.timestamp) + ", lb: " + ShowTenths(p.frLb)
      + ", fr: " + ShowTenths(p.fr);
    var tail := ", ub: " + ub;
    assert s == head + tail;
    assert s[|head|..] == tail;
    assert tail[6..] == ub;
  }

  lemma PredictionStrRecoversRun(p: Prediction, fmt: Time -> string)
    ensures |PredictionStr(p, fmt)| > 8 && PredictionStr(p, fmt)[..8] == "run_id: "
    ensures SplitFirst(PredictionStr(p, fmt)[8..], ',') == Some((IntToString(p.runId), PredictionStrTail(p, fmt)))
    ensures ParseInt(SplitFirst(PredictionStr(p, fmt)[8..], ',').value.0) == Some(p.runId)
  {
    var s := PredictionStr(p, fmt);
    assert s[8..] == IntToString(p.runId) + [','] + PredictionStrTail(p, fmt);
    SplitFirstJoin(IntToString(p.runId), ',', PredictionStrTail(p, fmt));
    ParseIntToString(p.runId);
  }
}
