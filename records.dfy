/**
 * A configuration record: a Python dict from column header to cell value,
 * kept in insertion order, as `dict(zip(headers, row))` builds it.
 */
module Records {
  import opened Wrappers
  import opened Values

  /** The column headers the tool gives a meaning to. */
  const COUNTRY: Value := Str("Country")
  const ENVIRONMENT: Value := Str("Environment")
  const BRANCH_NAME: Value := Str("BRANCH_NAME")

  /** Entries in insertion order; `DistinctKeys` holds of every dict. */
  type Record = seq<(Value, Value)>

  predicate DistinctKeys(r: Record) {
    forall i, j :: 0 <= i < j < |r| ==> r[i].0 != r[j].0
  }

  function Keys(r: Record): (ks: seq<Value>)
    ensures |ks| == |r|
    ensures forall i :: 0 <= i < |r| ==> ks[i] == r[i].0
  {
    seq(|r|, i requires 0 <= i < |r| => r[i].0)
  }

  /** `d.get(k)`: the value stored under `k`, or `None` when `k` is absent. */
  function Get(r: Record, k: Value): Option<Value> {
    if r == [] then None
    else if r[0].0 == k then Some(r[0].1)
    else Get(r[1..], k)
  }

  lemma {:induction false} GetAt(r: Record, i: nat)
    requires DistinctKeys(r) && i < |r|
    ensures Get(r, r[i].0) == Some(r[i].1)
  {
    if i > 0 {
      GetAt(r[1..], i - 1);
    }
  }

  lemma {:induction false} GetAbsent(r: Record, k: Value)
    requires k !in Keys(r)
    ensures Get(r, k) == None
  {
    if r != [] {
      assert Keys(r) == [r[0].0] + Keys(r[1..]);
      GetAbsent(r[1..], k);
    }
  }

  /** For a dict, `d.get(k) == v` exactly when `(k, v)` is one of its entries. */
  lemma GetIsEntry(r: Record, k: Value, v: Value)
    requires DistinctKeys(r)
    ensures Get(r, k) == Some(v) <==> (k, v) in r
  {
    if (k, v) in r {
      var i :| 0 <= i < |r| && r[i] == (k, v);
      GetAt(r, i);
    } else if k in Keys(r) {
      var i :| 0 <= i < |r| && Keys(r)[i] == k;
      GetAt(r, i);
    } else {
      GetAbsent(r, k);
    }
  }

  /** `d[k]` for a key that is present, and `None` otherwise (as `d.get(k)` reads). */
  function Field(r: Record, k: Value): Value {
    Get(r, k).GetOr(Null)
  }

  /** `d[k] = v`: overwrites in place when `k` is present, appends otherwise. */
  function Put(r: Record, k: Value, v: Value): (r': Record)
    requires DistinctKeys(r)
    ensures DistinctKeys(r') && |r| <= |r'|
    ensures (k, v) in r'
    ensures forall i :: 0 <= i < |r| && r[i].0 != k ==> r'[i] == r[i]
    ensures Keys(r') == if k in Keys(r) then Keys(r) else Keys(r) + [k]
  {
    if k in Keys(r) then
      var r' := seq(|r|, i requires 0 <= i < |r| => if r[i].0 == k then (k, v) else r[i]);
      var i :| 0 <= i < |r| && Keys(r)[i] == k;
      assert r'[i] == (k, v);
      assert Keys(r') == Keys(r);
      r'
    else
      assert Keys(r + [(k, v)]) == Keys(r) + [k];
      r + [(k, v)]
  }

  /** Of any two values of `d`, the earlier first occurs in `ks` before the later one occurs at all. */
  predicate InFirstOccurrenceOrder(d: seq<Value>, ks: seq<Value>) {
    forall i, j :: 0 <= i < j < |d| ==> exists p :: 0 <= p < |ks| && ks[p] == d[i] && d[j] !in ks[..p + 1]
  }

  /** Each value of `ks` once, at the place it first occurs. */
  function FirstOccurrences(ks: seq<Value>): (d: seq<Value>)
    ensures forall k :: k in d <==> k in ks
    ensures forall i, j :: 0 <= i < j < |d| ==> d[i] != d[j]
  {
    if ks == [] then []
    else
      var prev := FirstOccurrences(ks[..|ks| - 1]);
      assert ks == ks[..|ks| - 1] + [ks[|ks| - 1]];
      if ks[|ks| - 1] in prev then prev else prev + [ks[|ks| - 1]]
  }

  /** `FirstOccurrences` keeps the values in the order they first occur. */
  lemma {:induction false} FirstOccurrencesOrder(ks: seq<Value>)
    ensures InFirstOccurrenceOrder(FirstOccurrences(ks), ks)
  {
    if ks != [] {
      FirstOccurrencesOrder(ks[..|ks| - 1]);
      FirstOccurrencesStep(ks, FirstOccurrences(ks[..|ks| - 1]), FirstOccurrences(ks));
    }
  }

  lemma FirstOccurrencesStep(ks: seq<Value>, prev: seq<Value>, d: seq<Value>)
    requires ks != [] && (forall k :: k in prev <==> k in ks[..|ks| - 1])
    requires InFirstOccurrenceOrder(prev, ks[..|ks| - 1])
    requires d == if ks[|ks| - 1] in prev then prev else prev + [ks[|ks| - 1]]
    ensures InFirstOccurrenceOrder(d, ks)
  {
    var init, x := ks[..|ks| - 1], ks[|ks| - 1];
    forall i, j | 0 <= i < j < |d|
      ensures exists p :: 0 <= p < |ks| && ks[p] == d[i] && d[j] !in ks[..p + 1]
    {
      if j < |prev| {
        var p :| 0 <= p < |init| && init[p] == prev[i] && prev[j] !in init[..p + 1];
        assert ks[..p + 1] == init[..p + 1];
        assert ks[p] == d[i];
      } else {
        assert d[i] == prev[i] && d[j] == x && x !in init;
        assert prev[i] in prev;
        assert d[i] in init;
        var p :| 0 <= p < |init| && init[p] == d[i];
        assert ks[..p + 1] == init[..p + 1];
        assert ks[p] == d[i];
      }
    }
  }

  /**
   * `dict(pairs)`: one entry per distinct key, in order of first occurrence,
   * holding the value of the key's LAST pair.
   */
  function FromPairs(ps: seq<(Value, Value)>): (r: Record)
    ensures DistinctKeys(r)
    ensures Keys(r) == FirstOccurrences(Keys(ps))
    ensures forall k :: k in Keys(r) <==> k in Keys(ps)
    ensures forall i :: 0 <= i < |ps| && (forall j :: i < j < |ps| ==> ps[j].0 != ps[i].0) ==> ps[i] in r
  {
    if ps == [] then []
    else
      var r := Put(FromPairs(ps[..|ps| - 1]), ps[|ps| - 1].0, ps[|ps| - 1].1);
      FromPairsStep(ps, FromPairs(ps[..|ps| - 1]), r);
      r
  }

  lemma FromPairsStep(ps: seq<(Value, Value)>, prev: Record, r: Record)
    requires ps != [] && DistinctKeys(prev)
    requires forall k :: k in Keys(prev) <==> k in Keys(ps[..|ps| - 1])
    requires forall i :: 0 <= i < |ps| - 1 && (forall j :: i < j < |ps| - 1 ==> ps[j].0 != ps[i].0) ==> ps[i] in prev
    requires Keys(prev) == FirstOccurrences(Keys(ps[..|ps| - 1]))
    requires r == Put(prev, ps[|ps| - 1].0, ps[|ps| - 1].1)
    ensures forall k :: k in Keys(r) <==> k in Keys(ps)
    ensures Keys(r) == FirstOccurrences(Keys(ps))
    ensures forall i :: 0 <= i < |ps| && (forall j :: i < j < |ps| ==> ps[j].0 != ps[i].0) ==> ps[i] in r
  {
    var init, last := ps[..|ps| - 1], ps[|ps| - 1];
    assert Keys(ps) == Keys(init) + [last.0];
    assert Keys(ps)[..|ps| - 1] == Keys(init);
    forall i | 0 <= i < |ps| && (forall j :: i < j < |ps| ==> ps[j].0 != ps[i].0)
      ensures ps[i] in r
    {
      if i < |ps| - 1 {
        assert ps[|ps| - 1].0 != ps[i].0;
        assert ps[i] in prev;
        var m :| 0 <= m < |prev| && prev[m] == ps[i];
        assert r[m] == prev[m];
      }
    }
  }

  /** Without repeated keys `dict(pairs)` keeps every pair, in order. */
  lemma {:induction false} FromPairsDistinct(ps: seq<(Value, Value)>)
    requires DistinctKeys(ps)
    ensures FromPairs(ps) == ps
  {
    if ps != [] {
      var init := ps[..|ps| - 1];
      var last := ps[|ps| - 1];
      FromPairsDistinct(init);
      assert last.0 !in Keys(init);
      assert init + [last] == ps;
    }
  }

  /** `zip(xs, ys)`: pairs up to the shorter length. */
  function Zip(xs: seq<Value>, ys: seq<Value>): (ps: seq<(Value, Value)>)
    ensures |ps| == if |xs| <= |ys| then |xs| else |ys|
    ensures forall i :: 0 <= i < |ps| ==> ps[i] == (xs[i], ys[i])
  {
    seq(if |xs| <= |ys| then |xs| else |ys|, i requires 0 <= i < |xs| && i < |ys| => (xs[i], ys[i]))
  }
}
