/**
 * Spreadsheet cell values as the workbook reader hands them over, with the
 * three Python behaviours the tool relies on: truthiness, `str()` rendering
 * and the ordering that `sorted` applies to a column of values.
 */
module Values {

  /** A cell: empty (`None`), text or a whole number. */
  datatype Value = Null | Str(s: string) | Int(i: int)

  /** Python truthiness: `None`, `""` and `0` are false, everything else true. */
  predicate Truthy(v: Value) {
    match v
    case Null => false
    case Str(s) => s != ""
    case Int(i) => i != 0
  }

  // ---------------------------------------------------------------------------
  // Rendering (`str(v)`, and the `{v}` of an f-string)
  // ---------------------------------------------------------------------------

  predicate IsDigit(c: char) {
    '0' <= c <= '9'
  }

  predicate AllDigits(s: string) {
    forall k :: 0 <= k < |s| ==> IsDigit(s[k])
  }

  function DigitChar(d: nat): (c: char)
    requires d < 10
    ensures IsDigit(c)
  {
    ('0' as int + d) as char
  }

  /** Decimal digits of `n`, most significant first, without leading zeros. */
  function NatToString(n: nat): (r: string)
    ensures r != [] && AllDigits(r)
    ensures |r| > 1 ==> r[0] != '0'
    ensures r[0] == '0' <==> n == 0
    decreases n
  {
    if n < 10 then [DigitChar(n)] else NatToString(n / 10) + [DigitChar(n % 10)]
  }

  /** Reading decimal digits back as a number: the inverse of `NatToString`. */
  function ParseNat(s: string): nat
    requires AllDigits(s)
  {
    if s == [] then 0 else 10 * ParseNat(s[..|s| - 1]) + (s[|s| - 1] as int - '0' as int)
  }

  lemma {:induction false} ParseNatToString(n: nat)
    ensures ParseNat(NatToString(n)) == n
  {
    var s := NatToString(n);
    if n >= 10 {
      assert s[..|s| - 1] == NatToString(n / 10);
      ParseNatToString(n / 10);
    }
  }

  /**
   * `str(i)` for a Python int: a minus sign exactly for negative numbers,
   * then the decimal digits without leading zeros ("0" alone for zero).
   */
  function IntToString(i: int): (r: string)
    ensures r != []
    ensures i >= 0 ==> AllDigits(r) && ParseNat(r) == i && (r[0] == '0' ==> r == "0")
    ensures i < 0 ==> |r| > 1 && r[0] == '-' && AllDigits(r[1..]) && ParseNat(r[1..]) == -i && r[1] != '0'
  {
    if i < 0 then
      ParseNatToString(-i);
      assert ("-" + NatToString(-i))[1..] == NatToString(-i);
      "-" + NatToString(-i)
    else
      ParseNatToString(i);
      NatToString(i)
  }

  /** `str(v)`: text as is, numbers in decimal, `None` as the word "None". */
  function Render(v: Value): string {
    match v
    case Null => "None"
    case Str(s) => s
    case Int(i) => IntToString(i)
  }

  // ---------------------------------------------------------------------------
  // Ordering (`sorted` over a column)
  // ---------------------------------------------------------------------------

  /** Python's `<` on str: lexicographic by code point, a proper prefix first. */
  predicate StrLess(a: string, b: string)
    decreases |a|
  {
    if a == [] then b != []
    else if b == [] then false
    else if a[0] != b[0] then a[0] < b[0]
    else StrLess(a[1..], b[1..])
  }

  lemma {:induction false} StrLessIrreflexive(a: string)
    ensures !StrLess(a, a)
  {
    if a != [] {
      StrLessIrreflexive(a[1..]);
    }
  }

  lemma {:induction false} StrLessTransitive(a: string, b: string, c: string)
    requires StrLess(a, b) && StrLess(b, c)
    ensures StrLess(a, c)
  {
    if a != [] && b != [] && c != [] && a[0] == b[0] && b[0] == c[0] {
      StrLessTransitive(a[1..], b[1..], c[1..]);
    }
  }

  lemma {:induction false} StrLessTotal(a: string, b: string)
    requires a != b
    ensures StrLess(a, b) || StrLess(b, a)
  {
    if a != [] && b != [] && a[0] == b[0] {
      assert a == [a[0]] + a[1..] && b == [b[0]] + b[1..];
      StrLessTotal(a[1..], b[1..]);
    }
  }

  /**
   * The order used to sort a column: numbers by value, text by `StrLess`.
   * Python refuses to compare text with numbers; here numbers come first.
   */
  predicate Less(a: Value, b: Value) {
    match (a, b)
    case (Null, Null) => false
    case (Null, _) => true
    case (Int(x), Int(y)) => x < y
    case (Int(_), Str(_)) => true
    case (Str(s), Str(t)) => StrLess(s, t)
    case _ => false
  }

  lemma LessIrreflexive(a: Value)
    ensures !Less(a, a)
  {
    if a.Str? {
      StrLessIrreflexive(a.s);
    }
  }

  lemma LessTransitive(a: Value, b: Value, c: Value)
    requires Less(a, b) && Less(b, c)
    ensures Less(a, c)
  {
    if a.Str? && b.Str? && c.Str? {
      StrLessTransitive(a.s, b.s, c.s);
    }
  }

  lemma LessTotal(a: Value, b: Value)
    requires a != b
    ensures Less(a, b) || Less(b, a)
  {
    if a.Str? && b.Str? {
      StrLessTotal(a.s, b.s);
    }
  }

  predicate StrictlyAscending(xs: seq<Value>) {
    forall i, j :: 0 <= i < j < |xs| ==> Less(xs[i], xs[j])
  }

  /** Inserts `x` into an ascending list unless it is already there. */
  function Insert(sorted: seq<Value>, x: Value): (r: seq<Value>)
    requires StrictlyAscending(sorted)
    ensures StrictlyAscending(r)
    ensures forall v :: v in r <==> v in sorted || v == x
  {
    if sorted == [] then [x]
    else if x == sorted[0] then sorted
    else if Less(x, sorted[0]) then
      assert forall j :: 0 < j < |sorted| ==> Less(sorted[0], sorted[j]);
      forall j | 0 < j < |sorted| ensures Less(x, sorted[j]) {
        LessTransitive(x, sorted[0], sorted[j]);
      }
      [x] + sorted
    else
      LessTotal(x, sorted[0]);
      var rest := Insert(sorted[1..], x);
      assert forall v :: v in rest ==> Less(sorted[0], v);
      [sorted[0]] + rest
  }

  /** `sorted(set(xs))`: the distinct values of `xs` in ascending order. */
  function SortedDistinct(xs: seq<Value>): (r: seq<Value>)
    ensures StrictlyAscending(r)
    ensures forall v :: v in r <==> v in xs
  {
    if xs == [] then [] else Insert(SortedDistinct(xs[..|xs| - 1]), xs[|xs| - 1])
  }

  lemma FirstIsMember(s: seq<Value>)
    ensures s != [] ==> s[0] in s
  {
  }

  /** An ascending duplicate-free list is determined by its elements. */
  lemma {:induction false} AscendingUnique(a: seq<Value>, b: seq<Value>)
    requires StrictlyAscending(a) && StrictlyAscending(b)
    requires forall v :: v in a <==> v in b
    ensures a == b
  {
    if a == [] && b == [] {
    } else if a == [] || b == [] {
      // the non-empty side has a first element the other side lacks
      FirstIsMember(a);
      FirstIsMember(b);
      assert false;
    } else {
      if a[0] != b[0] {
        assert b[0] in a && a[0] in b;
        var i :| 0 <= i < |a| && a[i] == b[0];
        var j :| 0 <= j < |b| && b[j] == a[0];
        assert Less(a[0], b[0]);
        assert Less(b[0], a[0]);
        LessTransitive(a[0], b[0], a[0]);
        LessIrreflexive(a[0]);
      }
      forall v ensures v in a[1..] <==> v in b[1..] {
        if v in a[1..] {
          var i :| 1 <= i < |a| && a[i] == v;
          assert Less(a[0], v);
          LessIrreflexive(v);
          assert v in b && v != b[0];
        }
        if v in b[1..] {
          var j :| 1 <= j < |b| && b[j] == v;
          assert Less(b[0], v);
          LessIrreflexive(v);
          assert v in a && v != a[0];
        }
      }
      AscendingUnique(a[1..], b[1..]);
      assert a == [a[0]] + a[1..] && b == [b[0]] + b[1..];
    }
  }
}
