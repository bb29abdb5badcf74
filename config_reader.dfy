/**
 * The configuration store of config_reader.py: the active worksheet of the
 * workbook is read into a list of records, one per usable row, and three
 * queries run over that list.
 */
module ConfigStore {
  import opened Wrappers
  import opened Values
  import opened Records

  /** The active worksheet: row 1, then every row below it. */
  datatype Sheet = Sheet(firstRow: seq<Value>, rows: seq<seq<Value>>)

  /** The workbook file at the reader's path, as it stands when it is read. */
  datatype Source = Missing | Present(sheet: Sheet)

  /** The headers: the truthy cells of row 1, in column order (blank cells are dropped). */
  function Headers(firstRow: seq<Value>): (h: seq<Value>)
    ensures forall k :: 0 <= k < |h| ==> Truthy(h[k])
    ensures forall v :: v in h <==> v in firstRow && Truthy(v)
    ensures |h| <= |firstRow|
  {
    if firstRow == [] then []
    else
      var init, last := firstRow[..|firstRow| - 1], firstRow[|firstRow| - 1];
      assert firstRow == init + [last];
      Headers(init) + if Truthy(last) then [last] else []
  }

  /**
   * The headers keep column order: the headers of two stretches of row 1
   * side by side are the headers of the first, then those of the second;
   * a single cell gives itself when truthy and nothing otherwise.
   */
  lemma {:induction false} HeadersAppend(a: seq<Value>, b: seq<Value>)
    ensures Headers(a + b) == Headers(a) + Headers(b)
    ensures |b| == 1 ==> Headers(b) == if Truthy(b[0]) then [b[0]] else []
    decreases |b|
  {
    if b == [] {
      assert a + b == a;
    } else {
      var init, last := b[..|b| - 1], b[|b| - 1];
      var tail := if Truthy(last) then [last] else [];
      assert (a + b)[..|a + b| - 1] == a + init && (a + b)[|a + b| - 1] == last;
      assert Headers(a + b) == Headers(a + init) + tail;
      assert Headers(b) == Headers(init) + tail;
      HeadersAppend(a, init);
    }
  }

  /** `any(row)`. */
  predicate AnyTruthy(row: seq<Value>) {
    exists k :: 0 <= k < |row| && Truthy(row[k])
  }

  /**
   * `dict(zip(headers, row))`: one entry per header that has a cell, in the
   * order the headers first occur.
   */
  function RowRecord(headers: seq<Value>, row: seq<Value>): (rec: Record)
    ensures DistinctKeys(rec)
    ensures Keys(rec) == FirstOccurrences(Keys(Zip(headers, row)))
  {
    FromPairs(Zip(headers, row))
  }

  /** A record is kept when `record.get("Country")` and `record.get("Environment")` are truthy. */
  predicate Kept(rec: Record) {
    Truthy(Field(rec, COUNTRY)) && Truthy(Field(rec, ENVIRONMENT))
  }

  /** What one data row adds to the loaded list: nothing, or its record. */
  function RowContribution(headers: seq<Value>, row: seq<Value>): seq<Record> {
    if !AnyTruthy(row) then []
    else if Kept(RowRecord(headers, row)) then [RowRecord(headers, row)]
    else []
  }

  /** The records `_load` collects from the data rows, in row order. */
  function LoadRecords(headers: seq<Value>, rows: seq<seq<Value>>): (recs: seq<Record>)
    ensures |recs| <= |rows|
    ensures forall i :: 0 <= i < |recs| ==> Kept(recs[i]) && DistinctKeys(recs[i])
  {
    if rows == [] then []
    else LoadRecords(headers, rows[..|rows| - 1]) + RowContribution(headers, rows[|rows| - 1])
  }

  /** Rows contribute independently and in order: loading `a + b` is loading `a`, then `b`. */
  lemma {:induction false} LoadRecordsAppend(headers: seq<Value>, a: seq<seq<Value>>, b: seq<seq<Value>>)
    ensures LoadRecords(headers, a + b) == LoadRecords(headers, a) + LoadRecords(headers, b)
  {
    if b == [] {
      assert a + b == a;
    } else {
      var b' := b[..|b| - 1];
      assert (a + b)[..|a + b| - 1] == a + b';
      LoadRecordsAppend(headers, a, b');
    }
  }

  /** A blank row, or a row without a truthy Country or Environment, adds nothing. */
  lemma DroppedRowAddsNothing(headers: seq<Value>, rows: seq<seq<Value>>, row: seq<Value>)
    requires !AnyTruthy(row) || !Kept(RowRecord(headers, row))
    ensures LoadRecords(headers, rows + [row]) == LoadRecords(headers, rows)
  {
    assert (rows + [row])[..|rows|] == rows;
  }

  /** Every loaded record is the record of some non-blank data row. */
  lemma {:induction false} LoadedRecordsComeFromRows(headers: seq<Value>, rows: seq<seq<Value>>, rec: Record)
    requires rec in LoadRecords(headers, rows)
    ensures exists i :: 0 <= i < |rows| && AnyTruthy(rows[i]) && rec == RowRecord(headers, rows[i])
  {
    var init := rows[..|rows| - 1];
    if rec in LoadRecords(headers, init) {
      LoadedRecordsComeFromRows(headers, init, rec);
      var i :| 0 <= i < |init| && AnyTruthy(init[i]) && rec == RowRecord(headers, init[i]);
      assert rows[i] == init[i];
    } else {
      assert rec == RowRecord(headers, rows[|rows| - 1]);
    }
  }

  /** Every non-blank data row whose record has a truthy Country and Environment is loaded. */
  lemma {:induction false} KeptRowsAreLoaded(headers: seq<Value>, rows: seq<seq<Value>>, i: nat)
    requires i < |rows| && AnyTruthy(rows[i]) && Kept(RowRecord(headers, rows[i]))
    ensures RowRecord(headers, rows[i]) in LoadRecords(headers, rows)
  {
    var init := rows[..|rows| - 1];
    if i < |rows| - 1 {
      assert init[i] == rows[i];
      KeptRowsAreLoaded(headers, init, i);
    }
  }

  /**
   * The record of a row pairs header `i` with cell `i` up to the shorter of the
   * two; when a header repeats, the key keeps the value of its last column.
   */
  lemma RowRecordPairsColumns(headers: seq<Value>, row: seq<Value>)
    ensures DistinctKeys(RowRecord(headers, row))
    ensures forall k :: k in Keys(RowRecord(headers, row)) <==>
              exists i :: 0 <= i < |headers| && i < |row| && headers[i] == k
    ensures forall i :: 0 <= i < |headers| && i < |row| && (forall j :: i < j < |headers| && j < |row| ==> headers[j] != headers[i]) ==>
              Get(RowRecord(headers, row), headers[i]) == Some(row[i])
  {
    var ps := Zip(headers, row);
    var rec := RowRecord(headers, row);
    forall k ensures k in Keys(rec) <==> exists i :: 0 <= i < |headers| && i < |row| && headers[i] == k {
      if k in Keys(ps) {
        var i :| 0 <= i < |ps| && Keys(ps)[i] == k;
        assert headers[i] == k;
      }
      if exists i :: 0 <= i < |headers| && i < |row| && headers[i] == k {
        var i :| 0 <= i < |headers| && i < |row| && headers[i] == k;
        assert Keys(ps)[i] == k;
      }
    }
    forall i | 0 <= i < |headers| && i < |row| && (forall j :: i < j < |headers| && j < |row| ==> headers[j] != headers[i])
      ensures Get(rec, headers[i]) == Some(row[i])
    {
      assert ps[i] == (headers[i], row[i]);
      assert forall j :: i < j < |ps| ==> ps[j].0 != ps[i].0;
      GetIsEntry(rec, headers[i], row[i]);
    }
  }

  /** With distinct headers the record is exactly `zip(headers, row)`. */
  lemma RowRecordOfDistinctHeaders(headers: seq<Value>, row: seq<Value>)
    requires forall i, j :: 0 <= i < j < |headers| ==> headers[i] != headers[j]
    ensures RowRecord(headers, row) == Zip(headers, row)
  {
    FromPairsDistinct(Zip(headers, row));
  }

  /** `record["Country"] == country and record["Environment"] == environment`. */
  predicate Matches(rec: Record, country: Value, environment: Value) {
    Field(rec, COUNTRY) == country && Field(rec, ENVIRONMENT) == environment
  }

  /** The first record, in load order, that matches both fields. */
  function FirstMatch(recs: seq<Record>, country: Value, environment: Value): (r: Option<Record>)
    ensures r.None? <==> forall i :: 0 <= i < |recs| ==> !Matches(recs[i], country, environment)
    ensures r.Some? ==> exists i :: 0 <= i < |recs| && recs[i] == r.value && Matches(recs[i], country, environment) &&
                                    forall j :: 0 <= j < i ==> !Matches(recs[j], country, environment)
  {
    if recs == [] then None
    else if Matches(recs[0], country, environment) then Some(recs[0])
    else
      var r := FirstMatch(recs[1..], country, environment);
      if r.Some? then
        var i :| 0 <= i < |recs[1..]| && recs[1..][i] == r.value && Matches(recs[1..][i], country, environment) &&
                 forall j :: 0 <= j < i ==> !Matches(recs[1..][j], country, environment);
        assert recs[i + 1] == r.value;
        r
      else
        r
  }

  /** `[r[key] for r in recs]`. */
  function Column(recs: seq<Record>, key: Value): (col: seq<Value>)
    ensures |col| == |recs|
    ensures forall i :: 0 <= i < |recs| ==> col[i] == Field(recs[i], key)
  {
    seq(|recs|, i requires 0 <= i < |recs| => Field(recs[i], key))
  }

  /** `[r["Environment"] for r in recs if r["Country"] == country]`. */
  function EnvironmentsOf(recs: seq<Record>, country: Value): (envs: seq<Value>)
    ensures forall v :: v in envs <==>
              exists i :: 0 <= i < |recs| && Field(recs[i], COUNTRY) == country && Field(recs[i], ENVIRONMENT) == v
  {
    if recs == [] then []
    else
      var rest := EnvironmentsOf(recs[1..], country);
      var here := if Field(recs[0], COUNTRY) == country then [Field(recs[0], ENVIRONMENT)] else [];
      forall v | exists i :: 0 <= i < |recs| && Field(recs[i], COUNTRY) == country && Field(recs[i], ENVIRONMENT) == v
        ensures v in here + rest
      {
        var i :| 0 <= i < |recs| && Field(recs[i], COUNTRY) == country && Field(recs[i], ENVIRONMENT) == v;
        if i > 0 {
          assert recs[1..][i - 1] == recs[i];
        }
      }
      forall v | v in rest
        ensures exists i :: 0 <= i < |recs| && Field(recs[i], COUNTRY) == country && Field(recs[i], ENVIRONMENT) == v
      {
        var i :| 0 <= i < |recs[1..]| && Field(recs[1..][i], COUNTRY) == country && Field(recs[1..][i], ENVIRONMENT) == v;
        assert recs[i + 1] == recs[1..][i];
      }
      here + rest
  }

  /** The `ConfigReader` object: the workbook path and the records last loaded from it. */
  class ConfigReader {
    const excelPath: string
    var data: seq<Record>

    /** Every stored record has a truthy Country and Environment, so `r["Country"]` never fails. */
    ghost predicate Valid()
      reads this
    {
      forall i :: 0 <= i < |data| ==> Kept(data[i]) && DistinctKeys(data[i])
    }

    /** `__init__` up to the first load: the path is kept and the list starts empty. */
    constructor (excelPath: string)
      ensures this.excelPath == excelPath && data == [] && Valid()
    {
      this.excelPath := excelPath;
      data := [];
    }

    /**
     * `_load`: a missing file fails before anything changes; otherwise the
     * list is rebuilt from the current rows, replacing what was there.
     */
    method Load(src: Source) returns (err: Option<string>)
      modifies this
      ensures src.Missing? ==> err == Some("Config file not found: " + excelPath) && data == old(data)
      ensures src.Present? ==> err == None && data == LoadRecords(Headers(src.sheet.firstRow), src.sheet.rows)
      ensures old(Valid()) || src.Present? ==> Valid()
    {
      if src.Missing? {
        return Some("Config file not found: " + excelPath);
      }
      var rows := src.sheet.rows;
      var headers := Headers(src.sheet.firstRow);
      data := [];
      for i := 0 to |rows|
        invariant data == LoadRecords(headers, rows[..i])
      {
        assert rows[..i + 1][..i] == rows[..i];
        var row := rows[i];
        if !AnyTruthy(row) {
          continue;
        }
        var record := RowRecord(headers, row);
        if Truthy(Field(record, COUNTRY)) && Truthy(Field(record, ENVIRONMENT)) {
          data := data + [record];
        }
      }
      assert rows[..|rows|] == rows;
      return None;
    }

    /** `reload`: the same load again, against the file as it stands now. */
    method Reload(src: Source) returns (err: Option<string>)
      modifies this
      ensures src.Missing? ==> err == Some("Config file not found: " + excelPath) && data == old(data)
      ensures src.Present? ==> err == None && data == LoadRecords(Headers(src.sheet.firstRow), src.sheet.rows)
      ensures old(Valid()) || src.Present? ==> Valid()
    {
      err := Load(src);
    }

    /** `get_countries`: the distinct Country values, ascending. */
    function Countries(): (r: seq<Value>)
      reads this
      ensures StrictlyAscending(r)
      ensures forall v :: v in r <==> exists i :: 0 <= i < |data| && Field(data[i], COUNTRY) == v
      ensures Valid() ==> forall k :: 0 <= k < |r| ==> Truthy(r[k])
    {
      var col := Column(data, COUNTRY);
      assert forall v :: v in col <==> exists i :: 0 <= i < |data| && Field(data[i], COUNTRY) == v;
      var r := SortedDistinct(col);
      assert Valid() ==> forall k :: 0 <= k < |r| ==> Truthy(r[k]) by {
        if Valid() {
          forall k | 0 <= k < |r| ensures Truthy(r[k]) {
            assert r[k] in col;
            var i :| 0 <= i < |data| && Field(data[i], COUNTRY) == r[k];
            assert Kept(data[i]);
          }
        }
      }
      r
    }

    /** `get_environments(country)`: the distinct Environment values of that country, ascending. */
    function Environments(country: Value): (r: seq<Value>)
      reads this
      ensures StrictlyAscending(r)
      ensures forall v :: v in r <==>
                exists i :: 0 <= i < |data| && Field(data[i], COUNTRY) == country && Field(data[i], ENVIRONMENT) == v
      ensures (forall i :: 0 <= i < |data| ==> Field(data[i], COUNTRY) != country) ==> r == []
    {
      var r := SortedDistinct(EnvironmentsOf(data, country));
      FirstIsMember(r);
      r
    }

    /** `get_config(country, environment)`: the first matching record, or `None`. */
    function GetConfig(country: Value, environment: Value): (r: Option<Record>)
      reads this
      ensures r.None? <==> forall i :: 0 <= i < |data| ==> !Matches(data[i], country, environment)
      ensures r.Some? ==> exists i :: 0 <= i < |data| && data[i] == r.value && Matches(data[i], country, environment) &&
                                      forall j :: 0 <= j < i ==> !Matches(data[j], country, environment)
    {
      FirstMatch(data, country, environment)
    }
  }
}
