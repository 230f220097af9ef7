/**
 * riverrunner/models.py: the plain (not persisted) prediction record and its
 * text forms; `as_gvalue` is the row written to a spreadsheet. The
 * constructor stores its five arguments unchanged, so the record is the
 * datatype's constructor. Timestamps are printed by `fmt`, Python's `str` of
 * the timestamp object.
 */
module Models {
  import opened Wrappers
  import opened Text
  import Context

  datatype Prediction = Prediction(
    runId: int,
    timestamp: Context.Time,
    frLb: Context.Tenths,
    fr: Context.Tenths,
    frUb: Context.Tenths)

  /** `__str__`: "run: <id>, <timestamp>, lb: <fr_lb>, fr: <fr>, ub: <fr_ub>". */
  function Str(p: Prediction, fmt: Context.Time -> string): string {
    "run: " + IntToString(p.runId) + "," + StrTail(p, fmt)
  }

  /** What follows the run id's comma in `__str__`. */
  function StrTail(p: Prediction, fmt: Context.Time -> string): string {
    StrMiddle(p, fmt) + ", ub: " + TenthsToString(p.frUb)
  }

  function StrMiddle(p: Prediction, fmt: Context.Time -> string): string {
    " " + fmt(p.timestamp) + ", lb: " + TenthsToString(p.frLb) + ", fr: " + TenthsToString(p.fr)
  }

  /** The run id is read back from `__str__`. */
  lemma StrRecoversRun(p: Prediction, fmt: Context.Time -> string)
    ensures |Str(p, fmt)| > 5 && Str(p, fmt)[..5] == "run: "
    ensures SplitFirst(Str(p, fmt)[5..], ',') == Some((IntToString(p.runId), StrTail(p, fmt)))
    ensures ParseInt(SplitFirst(Str(p, fmt)[5..], ',').value.0) == Some(p.runId)
  {
    var s := Str(p, fmt);
    assert s[5..] == IntToString(p.runId) + [','] + StrTail(p, fmt);
    IntToStringNoChar(p.runId, ',');
    SplitFirstJoin(IntToString(p.runId), ',', StrTail(p, fmt));
    ParseIntToString(p.runId);
  }

  /** `__str__` ends with the upper bound, and the upper bound is read back from it. */
  lemma StrEndsWithUpperBound(p: Prediction, fmt: Context.Time -> string)
    ensures var s, ub := Str(p, fmt), TenthsToString(p.frUb);
      |s| >= |ub| + 6 && s[|s| - |ub| - 6..] == ", ub: " + ub && ParseTenths(s[|s| - |ub|..]) == Some(p.frUb)
  {
    var s, ub := Str(p, fmt), TenthsToString(p.frUb);
    var head, tail := "run: " + IntToString(p.runId) + "," + StrMiddle(p, fmt), ", ub: " + ub;
    assert s == head + tail;
    assert s[|head|..] == tail;
    assert tail[6..] == ub;
    TenthsRoundTrip(p.frUb);
  }

  /** `__repr__`: "<Prediction> <run_id>-<timestamp>". */
  function Repr(p: Prediction, fmt: Context.Time -> string): string {
    "<Prediction> " + IntToString(p.runId) + "-" + fmt(p.timestamp)
  }

  /** For a non-negative run id the first '-' after the prefix separates the
      run id from the timestamp. */
  lemma ReprFields(p: Prediction, fmt: Context.Time -> string)
    requires p.runId >= 0
    ensures |Repr(p, fmt)| > 13 && Repr(p, fmt)[..13] == "<Prediction> "
    ensures SplitFirst(Repr(p, fmt)[13..], '-') == Some((IntToString(p.runId), fmt(p.timestamp)))
    ensures ParseInt(SplitFirst(Repr(p, fmt)[13..], '-').value.0) == Some(p.runId)
  {
    var s := Repr(p, fmt);
    assert s[13..] == IntToString(p.runId) + ['-'] + fmt(p.timestamp);
    NatToStringNoChar(p.runId, '-');
    SplitFirstJoin(IntToString(p.runId), '-', fmt(p.timestamp));
    ParseIntToString(p.runId);
  }

  /** `as_gvalue`: the five fields, each as `str` gives it, in declaration order. */
  function AsGValue(p: Prediction, fmt: Context.Time -> string): (row: seq<string>)
    ensures |row| == 5
    ensures row[0] == IntToString(p.runId) && row[1] == fmt(p.timestamp)
    ensures row[2] == TenthsToString(p.frLb) && row[3] == TenthsToString(p.fr) && row[4] == TenthsToString(p.frUb)
  {
    [IntToString(p.runId), fmt(p.timestamp), TenthsToString(p.frLb), TenthsToString(p.fr), TenthsToString(p.frUb)]
  }

  /** Reads a spreadsheet row back into a record; `parseTime` reads a timestamp. */
  function FromGValue(row: seq<string>, parseTime: string -> Option<Context.Time>): Option<Prediction> {
    if |row| != 5 then None
    else
      match (ParseInt(row[0]), parseTime(row[1]), ParseTenths(row[2]), ParseTenths(row[3]), ParseTenths(row[4]))
      case (Some(id), Some(t), Some(lb), Some(fr), Some(ub)) => Some(Prediction(id, t, lb, fr, ub))
      case _ => None
  }

  /** A row written by `as_gvalue` reads back as the same record, given a
      timestamp parser that inverts the printer. */
  lemma AsGValueRoundTrip(p: Prediction, fmt: Context.Time -> string, parseTime: string -> Option<Context.Time>)
    requires parseTime(fmt(p.timestamp)) == Some(p.timestamp)
    ensures FromGValue(AsGValue(p, fmt), parseTime) == Some(p)
  {
    ParseIntToString(p.runId);
    TenthsRoundTrip(p.frLb);
    TenthsRoundTrip(p.fr);
    TenthsRoundTrip(p.frUb);
  }
}
