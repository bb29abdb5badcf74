/**
 * The Python `str` methods the tool calls: `upper`, `lower`, `strip`,
 * `startswith`, `replace` of one character, `sep.join` and `s * n`.
 */
module Text {

  predicate IsLowerAscii(c: char) {
    'a' <= c <= 'z'
  }

  predicate IsUpperAscii(c: char) {
    'A' <= c <= 'Z'
  }

  /** No ASCII capital letter in `s`. */
  predicate NoUpperAscii(s: string) {
    forall k :: 0 <= k < |s| ==> !IsUpperAscii(s[k])
  }

  lemma NoUpperAsciiAppend(a: string, b: string)
    requires NoUpperAscii(a) && NoUpperAscii(b)
    ensures NoUpperAscii(a + b)
  {
    forall k | 0 <= k < |a + b| ensures !IsUpperAscii((a + b)[k]) {
      if k >= |a| {
        assert (a + b)[k] == b[k - |a|];
      }
    }
  }

  /** `s.upper()` on ASCII letters; every other character is kept. */
  function Upper(s: string): (r: string)
    ensures |r| == |s|
    ensures forall k :: 0 <= k < |r| ==> !IsLowerAscii(r[k])
    ensures forall k :: 0 <= k < |s| && !IsLowerAscii(s[k]) ==> r[k] == s[k]
    ensures forall k :: 0 <= k < |s| && IsLowerAscii(s[k]) ==> r[k] as int == s[k] as int - 32
  {
    if s == [] then []
    else
      var c := s[0];
      [if IsLowerAscii(c) then (c as int - 32) as char else c] + Upper(s[1..])
  }

  /** `s.lower()` on ASCII letters; every other character is kept. */
  function Lower(s: string): (r: string)
    ensures |r| == |s|
    ensures NoUpperAscii(r)
    ensures forall k :: 0 <= k < |s| && !IsUpperAscii(s[k]) ==> r[k] == s[k]
    ensures forall k :: 0 <= k < |s| && IsUpperAscii(s[k]) ==> r[k] as int == s[k] as int + 32
  {
    if s == [] then []
    else
      var c := s[0];
      [if IsUpperAscii(c) then (c as int + 32) as char else c] + Lower(s[1..])
  }

  /** The characters Python's `str.strip()` removes (`str.isspace`). */
  predicate IsSpace(c: char) {
    || '\U{0009}' <= c <= '\U{000D}'
    || '\U{001C}' <= c <= '\U{0020}'
    || c == '\U{0085}' || c == '\U{00A0}' || c == '\U{1680}'
    || '\U{2000}' <= c <= '\U{200A}'
    || c == '\U{2028}' || c == '\U{2029}' || c == '\U{202F}' || c == '\U{205F}' || c == '\U{3000}'
  }

  predicate AllSpace(s: string) {
    forall k :: 0 <= k < |s| ==> IsSpace(s[k])
  }

  /** The number of leading whitespace characters of `s`. */
  function LeadingSpace(s: string): (n: nat)
    ensures n <= |s|
    ensures AllSpace(s[..n])
    ensures n < |s| ==> !IsSpace(s[n])
  {
    if s == [] || !IsSpace(s[0]) then 0
    else
      var n := 1 + LeadingSpace(s[1..]);
      assert s[..n] == [s[0]] + s[1..][..n - 1];
      n
  }

  /** The number of trailing whitespace characters of `s`. */
  function TrailingSpace(s: string): (n: nat)
    ensures n <= |s|
    ensures AllSpace(s[|s| - n..])
    ensures n < |s| ==> !IsSpace(s[|s| - n - 1])
  {
    if s == [] || !IsSpace(s[|s| - 1]) then 0
    else
      var t := s[..|s| - 1];
      var n := 1 + TrailingSpace(t);
      assert s[|s| - n..] == t[|t| - (n - 1)..] + [s[|s| - 1]];
      n
  }

  /** Neither the first nor the last character is whitespace. */
  predicate Trimmed(r: string) {
    r != [] ==> !IsSpace(r[0]) && !IsSpace(r[|r| - 1])
  }

  /**
   * `s.strip()`: `s` is the result surrounded by whitespace, and the result
   * neither starts nor ends with whitespace.
   */
  function Strip(s: string): (r: string)
    ensures exists lead, trail :: AllSpace(lead) && AllSpace(trail) && s == lead + r + trail
    ensures Trimmed(r)
    ensures r == [] <==> AllSpace(s)
  {
    var i := LeadingSpace(s);
    var t := s[i..];
    var j := TrailingSpace(t);
    var r := t[..|t| - j];
    StripShape(s, i, t, j, r);
    r
  }

  lemma StripShape(s: string, i: nat, t: string, j: nat, r: string)
    requires i <= |s| && AllSpace(s[..i]) && (i < |s| ==> !IsSpace(s[i])) && t == s[i..]
    requires j <= |t| && AllSpace(t[|t| - j..]) && (j < |t| ==> !IsSpace(t[|t| - j - 1]))
    requires r == t[..|t| - j]
    ensures s == s[..i] + r + t[|t| - j..]
    ensures exists lead, trail :: AllSpace(lead) && AllSpace(trail) && s == lead + r + trail
    ensures Trimmed(r)
    ensures r == [] <==> AllSpace(s)
  {
    var lead, trail := s[..i], t[|t| - j..];
    assert s == lead + t;
    assert t == r + trail;
    if r != [] {
      assert r[0] == t[0] == s[i];
      assert r[|r| - 1] == t[|t| - j - 1];
    } else {
      assert t == trail;
      assert s == lead;
    }
  }

  /** `s.startswith(prefix)`. */
  predicate StartsWith(s: string, prefix: string) {
    |prefix| <= |s| && s[..|prefix|] == prefix
  }

  /** `s.endswith(suffix)`. */
  predicate EndsWith(s: string, suffix: string) {
    |suffix| <= |s| && s[|s| - |suffix|..] == suffix
  }

  /** `s.replace(from, to)` for single characters. */
  function ReplaceChar(s: string, from: char, to: char): (r: string)
    ensures |r| == |s|
    ensures from != to ==> forall k :: 0 <= k < |r| ==> r[k] != from
    ensures forall k :: 0 <= k < |s| && s[k] != from ==> r[k] == s[k]
    ensures forall k :: 0 <= k < |s| && s[k] == from ==> r[k] == to
  {
    if s == [] then [] else [if s[0] == from then to else s[0]] + ReplaceChar(s[1..], from, to)
  }

  /** Replacing works character by character, so it distributes over concatenation. */
  lemma {:induction false} ReplaceCharAppend(a: string, b: string, from: char, to: char)
    ensures ReplaceChar(a + b, from, to) == ReplaceChar(a, from, to) + ReplaceChar(b, from, to)
  {
    if a == [] {
      assert a + b == b;
    } else {
      assert (a + b)[1..] == a[1..] + b;
      ReplaceCharAppend(a[1..], b, from, to);
    }
  }

  /** Replacing a character that does not occur changes nothing. */
  lemma ReplaceCharAbsent(s: string, from: char, to: char)
    requires from !in s
    ensures ReplaceChar(s, from, to) == s
  {
    var r := ReplaceChar(s, from, to);
    assert forall k :: 0 <= k < |s| ==> s[k] != from;
    assert forall k :: 0 <= k < |s| ==> r[k] == s[k];
  }

  /** `sep.join(parts)`. */
  function Join(sep: string, parts: seq<string>): (r: string)
    ensures parts == [] ==> r == ""
    ensures |parts| == 1 ==> r == parts[0]
  {
    if parts == [] then ""
    else if |parts| == 1 then parts[0]
    else Join(sep, parts[..|parts| - 1]) + sep + parts[|parts| - 1]
  }

  /**
   * Joining a first part onto the others puts exactly one separator
   * between them, whichever end the parts are added at.
   */
  lemma {:induction false} JoinFirst(sep: string, p: string, parts: seq<string>)
    requires parts != []
    ensures Join(sep, [p] + parts) == p + sep + Join(sep, parts)
    decreases |parts|
  {
    var all := [p] + parts;
    if |parts| > 1 {
      var init := parts[..|parts| - 1];
      assert all[..|all| - 1] == [p] + init;
      JoinFirst(sep, p, init);
    } else {
      assert all[..|all| - 1] == [p];
    }
  }

  /** `s * n`: `s` written out `n` times, so position `k` holds `s[k % |s|]`. */
  function Repeat(s: string, n: nat): (r: string)
    ensures |r| == n * |s|
    ensures forall k :: 0 <= k < |r| ==> r[k] == s[k % |s|]
  {
    if n == 0 then ""
    else
      var rest := Repeat(s, n - 1);
      assert n * |s| == (n - 1) * |s| + |s|;
      RepeatStep(s, rest);
      s + rest
  }

  lemma RepeatStep(s: string, rest: string)
    requires s != [] || rest == []
    requires forall k :: 0 <= k < |rest| ==> rest[k] == s[k % |s|]
    ensures forall k :: 0 <= k < |s + rest| ==> (s + rest)[k] == s[k % |s|]
  {
    forall k | 0 <= k < |s + rest| ensures (s + rest)[k] == s[k % |s|] {
      if k >= |s| {
        ModShift(k, |s|);
        assert (s + rest)[k] == rest[k - |s|];
      }
    }
  }

  lemma ModShift(k: int, m: int)
    requires 0 < m <= k
    ensures (k - m) % m == k % m
  {
    var q, r := k / m, k % m;
    var q', r' := (k - m) / m, (k - m) % m;
    assert k == q * m + r && k - m == q' * m + r';
    var d := q - 1 - q';
    assert d * m == r' - r by {
      assert (q - 1) * m == q * m - m;
      assert d * m == (q - 1) * m - q' * m;
    }
  }
}
