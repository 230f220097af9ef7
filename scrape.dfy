/**
 * riverrunner/scrape_usgs_data.py: reading the site ids and parameter codes,
 * asking the USGS instantaneous-values service for one site, parameter and
 * date range, extracting the `{dateTime: value}` map from its JSON answer,
 * and writing one CSV file per parameter code. The network is the `fetch`
 * argument and the file system a map from path to lines.
 */
module Scrape {
  import opened Wrappers
  import opened Text

  const DataDir: string := "data/"
  const SiteIdsPath: string := DataDir + "usgs_site_ids.csv"
  const ParamCodesPath: string := DataDir + "usgs_param_codes.csv"
  const UsgsFormat: string := "json"
  const UsgsSiteStatus: string := "all"

  /** The files: each path's lines, as iterating over an open file yields
      them (with their line terminators). */
  type Files = map<string, seq<string>>

  datatype ScrapeError =
    | FileNotFound(path: string)   // open(path, "r") on a missing file
    | Undecodable                  // response.json() raised; re-raised
    | Malformed                    // a KeyError, IndexError or TypeError in the extraction

  // ---------------------------------------------------------------------------
  // Reading the id files

  /** Python's `str.isspace` for one character. */
  predicate IsSpace(c: char) {
    var n := c as int;
    || (9 <= n <= 13) || (28 <= n <= 32) || n == 0x85 || n == 0xA0 || n == 0x1680
    || (0x2000 <= n <= 0x200A) || n == 0x2028 || n == 0x2029 || n == 0x202F || n == 0x205F || n == 0x3000
  }

  /** The number of whitespace characters `s` starts with. */
  function LeadingSpace(s: string): (n: nat)
    ensures n <= |s|
    ensures forall i :: 0 <= i < n ==> IsSpace(s[i])
    ensures n < |s| ==> !IsSpace(s[n])
  {
    if |s| == 0 || !IsSpace(s[0]) then 0 else 1 + LeadingSpace(s[1..])
  }

  /** The number of whitespace characters `s` ends with. */
  function TrailingSpace(s: string): (n: nat)
    ensures n <= |s|
    ensures forall i :: |s| - n <= i < |s| ==> IsSpace(s[i])
    ensures n < |s| ==> !IsSpace(s[|s| - n - 1])
  {
    if |s| == 0 || !IsSpace(s[|s| - 1]) then 0 else 1 + TrailingSpace(s[..|s| - 1])
  }

  /** `str.strip()`: `s` without its leading and trailing whitespace. */
  function Strip(s: string): (r: string)
    ensures |r| <= |s|
    ensures |r| > 0 ==> !IsSpace(r[0]) && !IsSpace(r[|r| - 1])
    ensures LeadingSpace(s) + |r| <= |s|
    ensures forall i :: 0 <= i < LeadingSpace(s) ==> IsSpace(s[i])
    ensures r == s[LeadingSpace(s)..LeadingSpace(s) + |r|]
    ensures forall i :: LeadingSpace(s) + |r| <= i < |s| ==> IsSpace(s[i])
  {
    var a := LeadingSpace(s);
    if a == |s| then [] else s[a..|s| - TrailingSpace(s)]
  }

  /** Stripping twice is stripping once. */
  lemma StripIdempotent(s: string)
    ensures Strip(Strip(s)) == Strip(s)
  {
    var r := Strip(s);
    if |r| > 0 {
      assert LeadingSpace(r) == 0;
      assert TrailingSpace(r) == 0;
    }
  }

  /** `[line.strip() for line in f]`; a missing file raises. */
  function ReadStripped(fs: Files, path: string): (r: Result<seq<string>, ScrapeError>)
    ensures r.Failure? <==> path !in fs
    ensures r.Failure? ==> r.error == FileNotFound(path)
    ensures r.Success? ==> |r.value| == |fs[path]| && forall i :: 0 <= i < |r.value| ==> r.value[i] == Strip(fs[path][i])
  {
    if path !in fs then Failure(FileNotFound(path))
    else Success(seq(|fs[path]|, i requires 0 <= i < |fs[path]| => Strip(fs[path][i])))
  }

  /** The site ids: the stripped lines of their file, or FileNotFound. */
  function GetSiteIds(fs: Files): (r: Result<seq<string>, ScrapeError>)
    ensures r.Failure? <==> SiteIdsPath !in fs
    ensures r.Failure? ==> r.error == FileNotFound(SiteIdsPath)
    ensures r.Success? ==> |r.value| == |fs[SiteIdsPath]| && forall i :: 0 <= i < |r.value| ==> r.value[i] == Strip(fs[SiteIdsPath][i])
  {
    ReadStripped(fs, SiteIdsPath)
  }

  /** The parameter codes: the stripped lines of their file, or FileNotFound. */
  function GetParamCodes(fs: Files): (r: Result<seq<string>, ScrapeError>)
    ensures r.Failure? <==> ParamCodesPath !in fs
    ensures r.Failure? ==> r.error == FileNotFound(ParamCodesPath)
    ensures r.Success? ==> |r.value| == |fs[ParamCodesPath]| && forall i :: 0 <= i < |r.value| ==> r.value[i] == Strip(fs[ParamCodesPath][i])
  {
    ReadStripped(fs, ParamCodesPath)
  }

  // ---------------------------------------------------------------------------
  // The request and the JSON answer

  /** The query parameters of the request. */
  function Params(site: string, start: string, end: string, code: string): (m: map<string, string>)
    ensures m.Keys == {"format", "sites", "startDT", "endDT", "parameterCd", "siteStatus"}
    ensures m["format"] == "json" && m["siteStatus"] == "all"
    ensures m["sites"] == site && m["startDT"] == start && m["endDT"] == end && m["parameterCd"] == code
  {
    map["format" := UsgsFormat, "sites" := site, "startDT" := start, "endDT" := end,
        "parameterCd" := code, "siteStatus" := UsgsSiteStatus]
  }

  datatype Json =
    | JNull
    | JBool(b: bool)
    | JNumber(n: real)
    | JString(s: string)
    | JArray(items: seq<Json>)
    | JObject(fields: map<string, Json>)

  /** The service: the decoded body of the answer to a query, or None when the
      body is not JSON. */
  type Fetcher = map<string, string> -> Option<Json>

  /** `j[key]` where it succeeds: only on an object holding the key. */
  function Member(j: Json, key: string): Option<Json> {
    if j.JObject? && key in j.fields then Some(j.fields[key]) else None
  }

  /** `j[0]` where it leads anywhere: only on a non-empty array (the first
      character of a string would fail at the next key lookup). */
  function First(j: Json): Option<Json> {
    if j.JArray? && |j.items| > 0 then Some(j.items[0]) else None
  }

  /** `len(j)`, for the values that have one. */
  function Len(j: Json): Option<nat> {
    match j
    case JArray(items) => Some(|items|)
    case JObject(fields) => Some(|fields|)
    case JString(s) => Some(|s|)
    case _ => None
  }

  /** The elements of `j` that the dictionary comprehension can read: those
      of an array; an empty object or string yields none; iterating over
      anything else either fails or yields strings, on which `["dateTime"]`
      fails. */
  function Elements(j: Json): Option<seq<Json>> {
    match j
    case JArray(items) => Some(items)
    case _ => if Len(j) == Some(0) then Some([]) else None
  }

  /** `response_json["value"]["timeSeries"]`, then, when it is not empty, the
      first series' first block of values. */
  function ValuesList(j: Json): (r: Result<seq<Json>, ScrapeError>)
    ensures r.Failure? ==> r.error == Malformed
    ensures r.Success? ==> Member(j, "value").Some? && Member(Member(j, "value").value, "timeSeries").Some?
    ensures (Member(j, "value").Some? && Member(Member(j, "value").value, "timeSeries").Some? &&
             Len(Member(Member(j, "value").value, "timeSeries").value) == Some(0)) ==> r == Success([])
  {
    match Member(j, "value")
    case None => Failure(Malformed)
    case Some(v) =>
      match Member(v, "timeSeries")
      case None => Failure(Malformed)
      case Some(ts) =>
        match Len(ts)
        case None => Failure(Malformed)
        case Some(n) =>
          if n == 0 then Success([])
          else
            match First(ts)
            case None => Failure(Malformed)
            case Some(series) =>
              match Member(series, "values")
              case None => Failure(Malformed)
              case Some(blocks) =>
                match First(blocks)
                case None => Failure(Malformed)
                case Some(block) =>
                  match Member(block, "value")
                  case None => Failure(Malformed)
                  case Some(vl) =>
                    match Elements(vl)
                    case None => Failure(Malformed)
                    case Some(elems) => Success(elems)
  }

  /** `elem[key]` when it is present and a string. */
  function StrMember(elem: Json, key: string): (r: Option<string>)
    ensures r.Some? <==> Member(elem, key).Some? && Member(elem, key).value.JString?
    ensures r.Some? ==> Member(elem, key) == Some(JString(r.value))
  {
    match Member(elem, key)
    case Some(JString(s)) => Some(s)
    case _ => None
  }

  /** An element from which a `(dateTime, value)` pair can be read. */
  predicate Readable(elem: Json) {
    StrMember(elem, "dateTime").Some? && StrMember(elem, "value").Some?
  }

  /** `(elem["dateTime"], elem["value"])` for every element, in order; the
      first element that lacks either key fails the whole comprehension. */
  function Pairs(elems: seq<Json>): (r: Result<seq<(string, string)>, ScrapeError>)
    ensures r.Failure? ==> r.error == Malformed
    ensures r.Success? <==> forall i :: 0 <= i < |elems| ==> Readable(elems[i])
    ensures r.Success? ==> |r.value| == |elems|
    ensures r.Success? ==> forall i :: 0 <= i < |elems| ==>
              r.value[i] == (StrMember(elems[i], "dateTime").value, StrMember(elems[i], "value").value)
  {
    if |elems| == 0 then Success([])
    else
      match (StrMember(elems[0], "dateTime"), StrMember(elems[0], "value"))
      case (Some(dt), Some(v)) =>
        (match Pairs(elems[1..])
         case Failure(e) =>
           assert exists i :: 1 <= i < |elems| && !Readable(elems[i]) by {
             var k :| 0 <= k < |elems[1..]| && !Readable(elems[1..][k]);
             assert elems[1..][k] == elems[k + 1];
           }
           Failure(e)
         case Success(rest) =>
           assert forall i :: 1 <= i < |elems| ==> elems[i] == elems[1..][i - 1];
           Success([(dt, v)] + rest))
      case _ => Failure(Malformed)
  }

  // ---------------------------------------------------------------------------
  // The dictionary, in insertion order

  /** A Python dict: its items in insertion order. */
  type Dict = seq<(string, string)>

  ghost predicate DistinctKeys(d: Dict) {
    forall i, j :: 0 <= i < j < |d| ==> d[i].0 != d[j].0
  }

  function KeySet(d: Dict): set<string> {
    set i | 0 <= i < |d| :: d[i].0
  }

  function Lookup(d: Dict, k: string): (r: Option<string>)
    ensures r.Some? <==> k in KeySet(d)
  {
    if |d| == 0 then None
    else if d[|d| - 1].0 == k then Some(d[|d| - 1].1)
    else
      assert KeySet(d) == KeySet(d[..|d| - 1]) + {d[|d| - 1].0} by {
        forall x | x in KeySet(d) ensures x in KeySet(d[..|d| - 1]) + {d[|d| - 1].0} {
          var i :| 0 <= i < |d| && d[i].0 == x;
          if i < |d| - 1 { assert d[..|d| - 1][i] == d[i]; }
        }
      }
      Lookup(d[..|d| - 1], k)
  }

  /** `d[k] = v`: a new key goes at the end; an existing key keeps its place
      and takes the new value. */
  function Put(d: Dict, k: string, v: string): (r: Dict)
    ensures KeySet(r) == KeySet(d) + {k}
    ensures k !in KeySet(d) ==> r == d + [(k, v)]
    ensures k in KeySet(d) ==>
              |r| == |d| && forall i :: 0 <= i < |d| ==> r[i] == (if d[i].0 == k then (k, v) else d[i])
  {
    if k in KeySet(d) then
      var r := seq(|d|, i requires 0 <= i < |d| => if d[i].0 == k then (k, v) else d[i]);
      assert KeySet(r) == KeySet(d) by {
        forall x | x in KeySet(d) ensures x in KeySet(r) {
          var i :| 0 <= i < |d| && d[i].0 == x;
          assert r[i].0 == x;
        }
      }
      r
    else
      var r := d + [(k, v)];
      assert KeySet(r) == KeySet(d) + {k} by {
        assert r[|d|].0 == k;
        forall x | x in KeySet(d) ensures x in KeySet(r) {
          var i :| 0 <= i < |d| && d[i].0 == x;
          assert r[i].0 == x;
        }
      }
      r
  }

  /** `{dt: v for (dt, v) in pairs}`. */
  function ToDict(pairs: seq<(string, string)>): Dict {
    if |pairs| == 0 then []
    else Put(ToDict(pairs[..|pairs| - 1]), pairs[|pairs| - 1].0, pairs[|pairs| - 1].1)
  }

  lemma PutKeepsDistinct(d: Dict, k: string, v: string)
    requires DistinctKeys(d)
    ensures DistinctKeys(Put(d, k, v))
  {
  }

  /** No key occurs twice in the dictionary. */
  lemma {:induction false} ToDictDistinct(pairs: seq<(string, string)>)
    ensures DistinctKeys(ToDict(pairs))
  {
    if |pairs| > 0 {
      ToDictDistinct(pairs[..|pairs| - 1]);
      PutKeepsDistinct(ToDict(pairs[..|pairs| - 1]), pairs[|pairs| - 1].0, pairs[|pairs| - 1].1);
    }
  }

  /** Replacing the value of the last key leaves the earlier items alone. */
  lemma PutLastKey(d: Dict, v: string)
    requires |d| > 0 && DistinctKeys(d)
    ensures Put(d, d[|d| - 1].0, v) == d[..|d| - 1] + [(d[|d| - 1].0, v)]
  {
    var last := |d| - 1;
    var k := d[last].0;
    assert k in KeySet(d);
    var r := Put(d, k, v);
    forall i | 0 <= i < last ensures r[i] == d[i] {
      assert d[i].0 != d[last].0;
    }
  }

  /** Replacing the value of an earlier key leaves the last item alone. */
  lemma PutEarlierKey(d: Dict, k: string, v: string)
    requires |d| > 0 && d[|d| - 1].0 != k && k in KeySet(d)
    ensures k in KeySet(d[..|d| - 1])
    ensures Put(d, k, v) == Put(d[..|d| - 1], k, v) + [d[|d| - 1]]
  {
    var i :| 0 <= i < |d| && d[i].0 == k;
    assert d[..|d| - 1][i] == d[i];
  }

  /** Looking up in a dictionary with one more item at its end. */
  lemma LookupSnoc(d: Dict, e: (string, string), x: string)
    ensures Lookup(d + [e], x) == if e.0 == x then Some(e.1) else Lookup(d, x)
  {
    assert (d + [e])[..|d|] == d;
  }

  lemma {:induction false} LookupPut(d: Dict, k: string, v: string, x: string)
    requires DistinctKeys(d)
    ensures Lookup(Put(d, k, v), x) == if x == k then Some(v) else Lookup(d, x)
    decreases |d|
  {
    if k !in KeySet(d) {
      LookupSnoc(d, (k, v), x);
    } else {
      var last := |d| - 1;
      var init := d[..last];
      assert d == init + [d[last]];
      LookupSnoc(init, d[last], x);
      if d[last].0 == k {
        PutLastKey(d, v);
        LookupSnoc(init, (k, v), x);
      } else {
        PutEarlierKey(d, k, v);
        LookupPut(init, k, v, x);
        LookupSnoc(Put(init, k, v), d[last], x);
      }
    }
  }

  /** The dictionary holds exactly the keys that occur among the pairs. */
  lemma {:induction false} ToDictKeys(pairs: seq<(string, string)>)
    ensures KeySet(ToDict(pairs)) == set i | 0 <= i < |pairs| :: pairs[i].0
  {
    if |pairs| > 0 {
      var init := pairs[..|pairs| - 1];
      ToDictKeys(init);
      assert forall i :: 0 <= i < |init| ==> init[i] == pairs[i];
      assert (set i | 0 <= i < |pairs| :: pairs[i].0) == (set i | 0 <= i < |init| :: init[i].0) + {pairs[|pairs| - 1].0};
    }
  }

  /** A key maps to the value of its last occurrence: a later element with
      the same dateTime overwrites an earlier one. */
  lemma {:induction false} ToDictLastWins(pairs: seq<(string, string)>, i: nat)
    requires i < |pairs|
    requires forall j :: i < j < |pairs| ==> pairs[j].0 != pairs[i].0
    ensures Lookup(ToDict(pairs), pairs[i].0) == Some(pairs[i].1)
  {
    var init := pairs[..|pairs| - 1];
    var (k, v) := pairs[|pairs| - 1];
    ToDictDistinct(init);
    LookupPut(ToDict(init), k, v, pairs[i].0);
    if i < |pairs| - 1 {
      assert init[i] == pairs[i];
      ToDictLastWins(init, i);
    }
  }

  /** `get_json_data`: query the service and extract the map. */
  function GetJsonData(site: string, start: string, end: string, code: string, fetch: Fetcher)
    : (r: Result<Dict, ScrapeError>)
  {
    match fetch(Params(site, start, end, code))
    case None => Failure(Undecodable)
    case Some(j) =>
      match ValuesList(j)
      case Failure(e) => Failure(e)
      case Success(elems) =>
        match Pairs(elems)
        case Failure(e) => Failure(e)
        case Success(pairs) => Success(ToDict(pairs))
  }

  /** An answer that is not JSON is reported as such (re-raised), and every
      other failure is a malformed answer; a result has one entry per key. */
  lemma GetJsonDataErrors(site: string, start: string, end: string, code: string, fetch: Fetcher)
    ensures var r := GetJsonData(site, start, end, code, fetch);
      && (fetch(Params(site, start, end, code)).None? <==> r == Failure(Undecodable))
      && (fetch(Params(site, start, end, code)).Some? && r.Failure? ==> r.error == Malformed)
      && (r.Success? ==> DistinctKeys(r.value))
  {
    var r := GetJsonData(site, start, end, code, fetch);
    if r.Success? {
      var pairs := Pairs(ValuesList(fetch(Params(site, start, end, code)).value).value).value;
      ToDictDistinct(pairs);
    }
  }

  /** An empty `timeSeries` list yields an empty map. */
  lemma GetJsonDataNoSeries(site: string, start: string, end: string, code: string, fetch: Fetcher, j: Json)
    requires fetch(Params(site, start, end, code)) == Some(j)
    requires Member(j, "value").Some? && Member(Member(j, "value").value, "timeSeries").Some?
    requires Len(Member(Member(j, "value").value, "timeSeries").value) == Some(0)
    ensures GetJsonData(site, start, end, code, fetch) == Success([])
  {
  }

  /** Conversely, a list is only ever read from an empty `timeSeries` or
      from the end of the whole `[0].values[0].value` path: an answer that
      lacks any step of that path fails. */
  lemma ValuesListSuccessChain(j: Json)
    requires ValuesList(j).Success?
    ensures var ts := Member(Member(j, "value").value, "timeSeries").value;
      || Len(ts) == Some(0)
      || (exists series, blocks, block, vl ::
            && First(ts) == Some(series) && Member(series, "values") == Some(blocks)
            && First(blocks) == Some(block) && Member(block, "value") == Some(vl)
            && Elements(vl) == Some(ValuesList(j).value))
  {
    var ts := Member(Member(j, "value").value, "timeSeries").value;
    if Len(ts) != Some(0) {
      var series := First(ts).value;
      var blocks := Member(series, "values").value;
      var block := First(blocks).value;
      var vl := Member(block, "value").value;
      assert Elements(vl) == Some(ValuesList(j).value);
    }
  }

  /** Whatever the answer holds besides `value.timeSeries[0].values[0].value`,
      that list is what is read: other series, other blocks and other keys
      are ignored. */
  lemma ValuesListFirstBlock(j: Json, v: Json, ts: Json, series: Json, blocks: Json, block: Json, items: seq<Json>)
    requires Member(j, "value") == Some(v) && Member(v, "timeSeries") == Some(ts)
    requires First(ts) == Some(series) && Member(series, "values") == Some(blocks)
    requires First(blocks) == Some(block) && Member(block, "value") == Some(JArray(items))
    ensures ValuesList(j) == Success(items)
  {
    assert Len(ts) == Some(|ts.items|) && |ts.items| > 0;
  }

  /** The pairs read from a list of well-formed elements, in order. */
  function ReadPairs(items: seq<Json>): (r: seq<(string, string)>)
    requires forall i :: 0 <= i < |items| ==> Readable(items[i])
    ensures |r| == |items|
    ensures forall i :: 0 <= i < |items| ==>
              Member(items[i], "dateTime") == Some(JString(r[i].0)) && Member(items[i], "value") == Some(JString(r[i].1))
  {
    seq(|items|, i requires 0 <= i < |items| && Readable(items[i]) => (StrMember(items[i], "dateTime").value, StrMember(items[i], "value").value))
  }

  /** An answer whose first block lists well-formed elements gives the map
      from each dateTime to the value of its last element, and no other key. */
  lemma GetJsonDataContent(site: string, start: string, end: string, code: string, fetch: Fetcher,
                           j: Json, items: seq<Json>)
    requires fetch(Params(site, start, end, code)) == Some(j)
    requires ValuesList(j) == Success(items)
    requires forall i :: 0 <= i < |items| ==> Readable(items[i])
    ensures var r := GetJsonData(site, start, end, code, fetch);
      && r == Success(ToDict(ReadPairs(items)))
      && KeySet(r.value) == (set i | 0 <= i < |items| :: ReadPairs(items)[i].0)
      && DistinctKeys(r.value)
  {
    var pairs := ReadPairs(items);
    assert Pairs(items).value == pairs;
    ToDictKeys(pairs);
    ToDictDistinct(pairs);
  }

  /** The value kept for a dateTime is that of the last element carrying it. */
  lemma GetJsonDataLastWins(site: string, start: string, end: string, code: string, fetch: Fetcher,
                            j: Json, items: seq<Json>, i: nat)
    requires fetch(Params(site, start, end, code)) == Some(j)
    requires ValuesList(j) == Success(items)
    requires forall k :: 0 <= k < |items| ==> Readable(items[k])
    requires i < |items|
    requires forall k :: i < k < |items| ==> StrMember(items[k], "dateTime") != StrMember(items[i], "dateTime")
    ensures GetJsonData(site, start, end, code, fetch).Success?
    ensures Lookup(GetJsonData(site, start, end, code, fetch).value, StrMember(items[i], "dateTime").value)
            == StrMember(items[i], "value")
  {
    var pairs := ReadPairs(items);
    assert Pairs(items).value == pairs;
    ToDictLastWins(pairs, i);
  }

  // ---------------------------------------------------------------------------
  // The output files

  function OutPath(code: string): string {
    DataDir + "measurements_" + code + ".csv"
  }

  /** Different codes are written to different files. */
  lemma OutPathInjective(a: string, b: string)
    requires OutPath(a) == OutPath(b)
    ensures a == b
  {
    var pre := DataDir + "measurements_";
    assert OutPath(a) == pre + a + ".csv" && OutPath(b) == pre + b + ".csv";
    assert |a| == |b|;
    assert a == OutPath(a)[|pre|..|pre| + |a|];
    assert b == OutPath(b)[|pre|..|pre| + |b|];
  }

  /** One line of a measurements file: "site,param,dateTime,value\n". */
  function Line(site: string, code: string, dt: string, v: string): string {
    site + "," + code + "," + dt + "," + v + "\n"
  }

  /** Reads a line back into its four fields: split at the first three commas
      and drop the newline. */
  function ParseLine(line: string): Option<(string, string, string, string)> {
    if |line| == 0 || line[|line| - 1] != '\n' then None
    else
      match SplitFirst(line[..|line| - 1], ',')
      case None => None
      case Some((site, rest)) =>
        match SplitFirst(rest, ',')
        case None => None
        case Some((code, rest')) =>
          match SplitFirst(rest', ',')
          case None => None
          case Some((dt, v)) => Some((site, code, dt, v))
  }

  /** A line is read back into the fields it was written from, as long as the
      site, the code and the timestamp hold no comma (the value may). */
  lemma ParseLineRoundTrip(site: string, code: string, dt: string, v: string)
    requires ',' !in site && ',' !in code && ',' !in dt
    ensures ParseLine(Line(site, code, dt, v)) == Some((site, code, dt, v))
  {
    var line := Line(site, code, dt, v);
    var rest2 := dt + [','] + v;
    var rest1 := code + [','] + rest2;
    assert line[..|line| - 1] == site + [','] + rest1;
    SplitFirstJoin(site, ',', rest1);
    SplitFirstJoin(code, ',', rest2);
    SplitFirstJoin(dt, ',', v);
  }

  /** What `get_json_data` answers for each site, for one code and date range. */
  type SiteData = string -> Result<Dict, ScrapeError>

  function Query(start: string, end: string, code: string, fetch: Fetcher): SiteData {
    site => GetJsonData(site, start, end, code, fetch)
  }

  /** The query made for each parameter code. */
  type Queries = string -> SiteData

  function Requests(start: string, end: string, fetch: Fetcher): Queries {
    code => Query(start, end, code, fetch)
  }

  /** The lines written for one site: one per dictionary entry, in order. */
  function EntryLines(site: string, code: string, d: Dict): (lines: seq<string>)
    ensures |lines| == |d|
    ensures forall i :: 0 <= i < |d| ==> lines[i] == Line(site, code, d[i].0, d[i].1)
  {
    if |d| == 0 then []
    else EntryLines(site, code, d[..|d| - 1]) + [Line(site, code, d[|d| - 1].0, d[|d| - 1].1)]
  }

  /** The lines written to one code's file for the first `n` sites, and the
      error that stopped the writing, if any. */
  function SitesLines(sites: seq<string>, n: nat, code: string, data: SiteData)
    : (r: (seq<string>, Option<ScrapeError>))
    requires n <= |sites|
  {
    if n == 0 then ([], None)
    else
      var prev := SitesLines(sites, n - 1, code, data);
      if prev.1.Some? then prev
      else
        match data(sites[n - 1])
        case Failure(e) => (prev.0, Some(e))
        case Success(d) => (prev.0 + EntryLines(sites[n - 1], code, d), None)
  }

  /** What is written to a code's file: its lines, and the error that stopped
      the writing, if any. */
  type CodeFiles = string -> (seq<string>, Option<ScrapeError>)

  function Written(sites: seq<string>, queries: Queries): CodeFiles {
    code => SitesLines(sites, |sites|, code, queries(code))
  }

  /** The first `n` codes: the paths listed, the files, and the error that
      stopped the run, if any. */
  function CodesRun(fs: Files, codes: seq<string>, n: nat, files: CodeFiles)
    : (seq<string>, Files, Option<ScrapeError>)
    requires n <= |codes|
  {
    if n == 0 then ([], fs, None)
    else
      var prev := CodesRun(fs, codes, n - 1, files);
      if prev.2.Some? then prev
      else
        var path := OutPath(codes[n - 1]);
        var written := files(codes[n - 1]);
        (prev.0 + [path], prev.1[path := written.0], written.1)
  }

  /** `scrape_usgs_data(start_date, end_date)`: the list of files written, or
      the error raised; the files as they are afterwards either way. */
  function ScrapeSpec(fs: Files, start: string, end: string, fetch: Fetcher): (Result<seq<string>, ScrapeError>, Files) {
    match GetSiteIds(fs)
    case Failure(e) => (Failure(e), fs)
    case Success(sites) =>
      match GetParamCodes(fs)
      case Failure(e) => (Failure(e), fs)
      case Success(codes) =>
        var (paths, out, err) := CodesRun(fs, codes, |codes|, Written(sites, Requests(start, end, fetch)));
        if err.Some? then (Failure(err.value), out) else (Success(paths), out)
  }

  lemma {:induction false} SitesLinesStuck(sites: seq<string>, m: nat, n: nat, code: string, data: SiteData)
    requires m <= n <= |sites|
    requires SitesLines(sites, m, code, data).1.Some?
    ensures SitesLines(sites, n, code, data) == SitesLines(sites, m, code, data)
    decreases n
  {
    if n > m {
      SitesLinesStuck(sites, m, n - 1, code, data);
    }
  }

  lemma {:induction false} CodesRunStuck(fs: Files, codes: seq<string>, m: nat, n: nat, files: CodeFiles)
    requires m <= n <= |codes|
    requires CodesRun(fs, codes, m, files).2.Some?
    ensures CodesRun(fs, codes, n, files) == CodesRun(fs, codes, m, files)
    decreases n
  {
    if n > m {
      CodesRunStuck(fs, codes, m, n - 1, files);
    }
  }

  /** `line` was built from an entry of the j-th site's map. */
  predicate FromSite(sites: seq<string>, j: nat, code: string, data: SiteData, line: string)
    requires j < |sites|
  {
    data(sites[j]).Success? &&
    exists k :: 0 <= k < |data(sites[j]).value| &&
      line == Line(sites[j], code, data(sites[j]).value[k].0, data(sites[j]).value[k].1)
  }

  /** When no site fails, the file holds a line for an entry exactly when
      the entry is in the map of one of the sites, written with that site and
      this code. */
  lemma {:induction false} SitesLinesContent(sites: seq<string>, n: nat, code: string, data: SiteData, line: string)
    requires n <= |sites|
    requires SitesLines(sites, n, code, data).1.None?
    ensures line in SitesLines(sites, n, code, data).0 <==> exists j :: 0 <= j < n && FromSite(sites, j, code, data, line)
  {
    if n > 0 {
      SitesLinesContent(sites, n - 1, code, data, line);
      var d := data(sites[n - 1]).value;
      var mine := EntryLines(sites[n - 1], code, d);
      assert SitesLines(sites, n, code, data).0 == SitesLines(sites, n - 1, code, data).0 + mine;
      assert line in mine <==> FromSite(sites, n - 1, code, data, line) by {
        if line in mine {
          var k :| 0 <= k < |mine| && mine[k] == line;
          assert line == Line(sites[n - 1], code, d[k].0, d[k].1);
        }
        if FromSite(sites, n - 1, code, data, line) {
          var k :| 0 <= k < |d| && line == Line(sites[n - 1], code, d[k].0, d[k].1);
          assert mine[k] == line;
        }
      }
      if FromSite(sites, n - 1, code, data, line) {
        assert 0 <= n - 1 < n;
      } else if exists j :: 0 <= j < n && FromSite(sites, j, code, data, line) {
        var j :| 0 <= j < n && FromSite(sites, j, code, data, line);
        assert j < n - 1;
      }
    }
  }

  /** One step of the codes loop, spelled out. */
  lemma CodesRunStep(fs: Files, codes: seq<string>, n: nat, files: CodeFiles)
    requires 0 < n <= |codes|
    requires CodesRun(fs, codes, n, files).2.None?
    ensures var prev := CodesRun(fs, codes, n - 1, files);
      var path := OutPath(codes[n - 1]);
      && prev.2.None?
      && CodesRun(fs, codes, n, files) ==
           (prev.0 + [path], prev.1[path := files(codes[n - 1]).0], None)
  {
  }

  /** A successful run lists one path per code, in code order. */
  lemma {:induction false} CodesRunPaths(fs: Files, codes: seq<string>, n: nat, files: CodeFiles)
    requires n <= |codes|
    requires CodesRun(fs, codes, n, files).2.None?
    ensures var paths := CodesRun(fs, codes, n, files).0;
      |paths| == n && forall i :: 0 <= i < n ==> paths[i] == OutPath(codes[i])
  {
    if n > 0 {
      CodesRunStep(fs, codes, n, files);
      CodesRunPaths(fs, codes, n - 1, files);
    }
  }

  /** Each code's file holds what was written for that code (a repeated code
      rewrites its file with the same lines). */
  lemma {:induction false} CodesRunFile(fs: Files, codes: seq<string>, n: nat, i: nat, files: CodeFiles)
    requires i < n <= |codes|
    requires CodesRun(fs, codes, n, files).2.None?
    ensures var out := CodesRun(fs, codes, n, files).1;
      OutPath(codes[i]) in out && out[OutPath(codes[i])] == files(codes[i]).0
  {
    CodesRunStep(fs, codes, n, files);
    if i < n - 1 {
      CodesRunFile(fs, codes, n - 1, i, files);
      if OutPath(codes[i]) == OutPath(codes[n - 1]) {
        OutPathInjective(codes[i], codes[n - 1]);
      }
    }
  }

  /** A file that is not one of the listed paths is left as it was. */
  lemma {:induction false} CodesRunOthers(fs: Files, codes: seq<string>, n: nat, p: string, files: CodeFiles)
    requires n <= |codes|
    requires CodesRun(fs, codes, n, files).2.None?
    requires p in fs && p !in CodesRun(fs, codes, n, files).0
    ensures var out := CodesRun(fs, codes, n, files).1;
      p in out && out[p] == fs[p]
  {
    if n > 0 {
      CodesRunStep(fs, codes, n, files);
      CodesRunOthers(fs, codes, n - 1, p, files);
    }
  }

  /** What `scrape_usgs_data` promises on success: the paths
      "data/measurements_<code>.csv", one per parameter code in file order,
      each file holding one "site,param,dateTime,value" line per map entry of
      every site; no other file changes. */
  lemma ScrapeLayout(fs: Files, start: string, end: string, fetch: Fetcher)
    requires ScrapeSpec(fs, start, end, fetch).0.Success?
    ensures SiteIdsPath in fs && ParamCodesPath in fs
    ensures var (r, out) := ScrapeSpec(fs, start, end, fetch);
      var sites, codes := GetSiteIds(fs).value, GetParamCodes(fs).value;
      && |r.value| == |codes|
      && (forall i :: 0 <= i < |codes| ==> r.value[i] == OutPath(codes[i]))
      && (forall i :: 0 <= i < |codes| ==>
            (OutPath(codes[i]) in out &&
             out[OutPath(codes[i])] == SitesLines(sites, |sites|, codes[i], Query(start, end, codes[i], fetch)).0))
      && (forall p :: p in fs && p !in r.value ==> p in out && out[p] == fs[p])
  {
    var sites, codes := GetSiteIds(fs).value, GetParamCodes(fs).value;
    var files := Written(sites, Requests(start, end, fetch));
    CodesRunPaths(fs, codes, |codes|, files);
    forall i | 0 <= i < |codes|
      ensures var out := CodesRun(fs, codes, |codes|, files).1;
        OutPath(codes[i]) in out &&
        out[OutPath(codes[i])] == SitesLines(sites, |sites|, codes[i], Query(start, end, codes[i], fetch)).0
    {
      CodesRunFile(fs, codes, |codes|, i, files);
    }
    forall p | p in fs && p !in CodesRun(fs, codes, |codes|, files).0
      ensures var out := CodesRun(fs, codes, |codes|, files).1;
        p in out && out[p] == fs[p]
    {
      CodesRunOthers(fs, codes, |codes|, p, files);
    }
  }

  /** One step of the per-site loop while no error has been met. */
  lemma SitesLinesNext(sites: seq<string>, n: nat, code: string, data: SiteData)
    requires n < |sites| && SitesLines(sites, n, code, data).1.None?
    ensures var lines := SitesLines(sites, n, code, data).0;
      SitesLines(sites, n + 1, code, data) ==
        match data(sites[n])
        case Failure(e) => (lines, Some(e))
        case Success(d) => (lines + EntryLines(sites[n], code, d), None)
  {
  }

  /** Writes one line per dictionary entry to the open file, whose lines so far are `f`. */
  method WriteEntries(f: seq<string>, site: string, code: string, d: Dict) returns (f': seq<string>)
    ensures f' == f + EntryLines(site, code, d)
  {
    f' := f;
    var k := 0;
    assert d[..0] == [];
    while k < |d|
      invariant 0 <= k <= |d|
      invariant f' == f + EntryLines(site, code, d[..k])
    {
      f' := f' + [Line(site, code, d[k].0, d[k].1)];
      assert d[..k + 1][..k] == d[..k];
      k := k + 1;
    }
    assert d[..k] == d;
  }

  /** Opens `path` for writing (emptying it) and writes every site's lines
      for `code`, stopping at the first site whose data cannot be had. */
  method WriteCodeFile(out: Files, path: string, sites: seq<string>, code: string, data: SiteData)
    returns (out': Files, err: Option<ScrapeError>)
    ensures var (lines, e) := SitesLines(sites, |sites|, code, data);
      out' == out[path := lines] && err == e
  {
    var f: seq<string> := [];
    var j := 0;
    while j < |sites|
      invariant 0 <= j <= |sites|
      invariant SitesLines(sites, j, code, data) == (f, None)
    {
      var jsonData := data(sites[j]);
      SitesLinesNext(sites, j, code, data);
      if jsonData.Failure? {
        SitesLinesStuck(sites, j + 1, |sites|, code, data);
        return out[path := f], Some(jsonData.error);
      }
      f := WriteEntries(f, sites[j], code, jsonData.value);
      j := j + 1;
    }
    out', err := out[path := f], None;
  }

  /** One step of the per-code loop while no error has been met. */
  lemma CodesRunNext(fs: Files, codes: seq<string>, n: nat, files: CodeFiles,
                     paths: seq<string>, out: Files, out': Files, err: Option<ScrapeError>)
    requires n < |codes| && CodesRun(fs, codes, n, files) == (paths, out, None)
    requires out' == out[OutPath(codes[n]) := files(codes[n]).0] && err == files(codes[n]).1
    ensures CodesRun(fs, codes, n + 1, files) == (paths + [OutPath(codes[n])], out', err)
  {
  }

  /** One parameter code's file: `WriteCodeFile` on the query the code makes. */
  method WriteCode(out: Files, sites: seq<string>, code: string, queries: Queries)
    returns (out': Files, err: Option<ScrapeError>)
    ensures out' == out[OutPath(code) := Written(sites, queries)(code).0]
    ensures err == Written(sites, queries)(code).1
  {
    out', err := WriteCodeFile(out, OutPath(code), sites, code, queries(code));
  }

  /** The loop over the parameter codes, each code's file written from its query. */
  method WriteAll(fs: Files, sites: seq<string>, codes: seq<string>, queries: Queries)
    returns (outFiles: seq<string>, out: Files, err: Option<ScrapeError>)
    ensures (outFiles, out, err) == CodesRun(fs, codes, |codes|, Written(sites, queries))
  {
    ghost var files := Written(sites, queries);
    outFiles, out, err := [], fs, None;
    var i := 0;
    while i < |codes|
      invariant 0 <= i <= |codes|
      invariant CodesRun(fs, codes, i, files) == (outFiles, out, err) && err.None?
    {
      ghost var (prevFiles, prevOut) := (outFiles, out);
      out, err := WriteCode(out, sites, codes[i], queries);
      CodesRunNext(fs, codes, i, files, prevFiles, prevOut, out, err);
      outFiles := outFiles + [OutPath(codes[i])];
      if err.Some? {
        CodesRunStuck(fs, codes, i + 1, |codes|, files);
        return;
      }
      i := i + 1;
    }
  }

  method ScrapeUsgsData(fs: Files, start: string, end: string, fetch: Fetcher)
    returns (r: Result<seq<string>, ScrapeError>, out: Files)
    ensures (r, out) == ScrapeSpec(fs, start, end, fetch)
  {
    var siteIds := GetSiteIds(fs);
    if siteIds.Failure? {
      return Failure(siteIds.error), fs;
    }
    var codes := GetParamCodes(fs);
    if codes.Failure? {
      return Failure(codes.error), fs;
    }
    var outFiles, err;
    outFiles, out, err := WriteAll(fs, siteIds.value, codes.value, Requests(start, end, fetch));
    r := if err.Some? then Failure(err.value) else Success(outFiles);
  }
}
