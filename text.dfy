/** ASCII models of the JavaScript string operations the task list relies on:
    `String.prototype.trim`, `toLowerCase`, `includes`, and a code-unit
    ordering standing in for `localeCompare`. */
module Text {

  /** The whitespace and line terminators that `trim` strips, restricted to ASCII. */
  predicate IsSpace(c: char) {
    c == ' ' || c == '\t' || c == '\n' || c == '\r' || c == '\U{000B}' || c == '\U{000C}'
  }

  /** A string that `trim` reduces to the empty string (falsy after trimming). */
  predicate IsBlank(s: string) {
    forall i :: 0 <= i < |s| ==> IsSpace(s[i])
  }

  /** Drops the leading whitespace: the result is the longest suffix of `s`
      that does not start with whitespace. */
  function TrimStart(s: string): (r: string)
    ensures |r| <= |s| && r == s[|s| - |r|..]
    ensures IsBlank(s[..|s| - |r|])
    ensures r == [] || !IsSpace(r[0])
    decreases |s|
  {
    if s != [] && IsSpace(s[0]) then
      var r := TrimStart(s[1..]);
      assert s[..|s| - |r|] == [s[0]] + s[1..][..|s| - 1 - |r|];
      r
    else s
  }

  /** Drops the trailing whitespace: the result is the longest prefix of `s`
      that does not end with whitespace. */
  function TrimEnd(s: string): (r: string)
    ensures |r| <= |s| && r == s[..|r|]
    ensures IsBlank(s[|r|..])
    ensures r == [] || !IsSpace(r[|r| - 1])
    decreases |s|
  {
    if s != [] && IsSpace(s[|s| - 1]) then
      var r := TrimEnd(s[..|s| - 1]);
      assert s[|r|..] == s[..|s| - 1][|r|..] + [s[|s| - 1]];
      r
    else s
  }

  /** `s.trim()`: no longer than `s`, and neither starting nor ending with
      whitespace; `TrimSpec` says which slice of `s` it is. */
  function Trim(s: string): (r: string)
    ensures |r| <= |s|
    ensures r == [] || (!IsSpace(r[0]) && !IsSpace(r[|r| - 1]))
  {
    TrimEnd(TrimStart(s))
  }

  /** The trimmed text is a contiguous slice of `s` surrounded in `s` by
      whitespace only. */
  lemma TrimSpec(s: string)
    ensures exists k :: (0 <= k <= |s| - |Trim(s)| && Trim(s) == s[k..k + |Trim(s)|]
                         && IsBlank(s[..k]) && IsBlank(s[k + |Trim(s)|..]))
  {
    var a := TrimStart(s);
    var r := TrimEnd(a);
    var k := |s| - |a|;
    assert a == s[k..];
    assert r == a[..|r|];
    assert r == s[k..k + |r|];
    assert IsBlank(s[..k]);
    assert s[k + |r|..] == a[|r|..];
    assert IsBlank(s[k + |r|..]);
  }

  /** Trimming yields the empty string exactly when the input is blank. */
  lemma {:induction false} TrimEmptyIffBlank(s: string)
    ensures Trim(s) == [] <==> IsBlank(s)
  {
    var a := TrimStart(s);
    if Trim(s) == [] {
      assert IsBlank(a) by { assert a[0..] == a; }
      assert a == [];
      assert s[..|s|] == s;
    }
  }

  /** Trimming an already trimmed string changes nothing. */
  lemma {:induction false} TrimIdempotent(s: string)
    ensures Trim(Trim(s)) == Trim(s)
  {
    var r := Trim(s);
    if r != [] {
      assert TrimStart(r) == r;
      assert TrimEnd(r) == r;
    }
  }

  /** ASCII `toLowerCase` of one character. */
  function LowerChar(c: char): char {
    if 'A' <= c <= 'Z' then (c as int + 32) as char else c
  }

  /** `s.toLowerCase()` on ASCII: each character lowered in place. */
  function ToLower(s: string): (r: string)
    ensures |r| == |s|
    ensures forall i :: 0 <= i < |s| ==> r[i] == LowerChar(s[i])
  {
    if s == [] then [] else [LowerChar(s[0])] + ToLower(s[1..])
  }

  /** Lowering twice is lowering once. */
  lemma ToLowerIdempotent(s: string)
    ensures ToLower(ToLower(s)) == ToLower(s)
  {
  }

  /** `q` occurs in `s` at offset 0. */
  predicate StartsWith(s: string, q: string) {
    |q| <= |s| && s[..|q|] == q
  }

  /** `s.includes(q)`: `q` occurs in `s`, trying each offset from the left. */
  predicate Includes(s: string, q: string)
    decreases |s|
  {
    StartsWith(s, q) || (s != [] && Includes(s[1..], q))
  }

  /** `Includes` holds exactly when some offset of `s` starts with `q`. */
  lemma {:induction false} IncludesIffOccurs(s: string, q: string)
    ensures Includes(s, q) <==> exists i :: 0 <= i <= |s| && StartsWith(s[i..], q)
    decreases |s|
  {
    if s != [] {
      IncludesIffOccurs(s[1..], q);
      if StartsWith(s, q) {
        assert s[0..] == s;
      }
      if exists i :: 0 <= i <= |s| && StartsWith(s[i..], q) {
        var i :| 0 <= i <= |s| && StartsWith(s[i..], q);
        if i > 0 {
          assert s[1..][i - 1..] == s[i..];
        }
      }
      if Includes(s[1..], q) {
        var i :| 0 <= i <= |s| - 1 && StartsWith(s[1..][i..], q);
        assert s[1..][i..] == s[i + 1..];
        assert 0 <= i + 1 <= |s| && StartsWith(s[i + 1..], q);
      }
    } else {
      assert s[0..] == s;
    }
  }

  /** The empty string occurs in every string: an empty search matches everything. */
  lemma EmptyIncluded(s: string)
    ensures Includes(s, "")
  {
  }

  /** Code-unit lexicographic comparison, negative, zero or positive. */
  function LexCompare(a: string, b: string): int
    decreases |a|
  {
    if a == [] && b == [] then 0
    else if a == [] then -1
    else if b == [] then 1
    else if a[0] < b[0] then -1
    else if a[0] > b[0] then 1
    else LexCompare(a[1..], b[1..])
  }

  /** Swapping the arguments of `LexCompare` flips the sign, and it is zero only on equal strings. */
  lemma {:induction false} LexCompareAntisymmetric(a: string, b: string)
    ensures LexCompare(a, b) == -LexCompare(b, a)
    ensures LexCompare(a, b) == 0 <==> a == b
    decreases |a|
  {
    if a != [] && b != [] && a[0] == b[0] {
      LexCompareAntisymmetric(a[1..], b[1..]);
      if a[1..] == b[1..] {
        assert a == [a[0]] + a[1..] && b == [b[0]] + b[1..];
      }
    }
  }
}
