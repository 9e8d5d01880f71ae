/** Edit distance and the similarities built on it (internal/similarity/similarity.go). */
module Levenshtein {

  import opened Utf8

  function Min(a: int, b: int): int { if a < b then a else b }

  function Max(a: int, b: int): int { if a > b then a else b }

  function Init(s: string): string
    requires s != ""
  {
    s[..|s| - 1]
  }

  function Last(s: string): char
    requires s != ""
  {
    s[|s| - 1]
  }

  function Cost(c: char, d: char): nat { if c == d then 0 else 1 }

  /** The edit distance. */
  function Dist(a: string, b: string): nat
    decreases |a| + |b|
  {
    if a == "" then |b|
    else if b == "" then |a|
    else Min(Dist(Init(a), b) + 1, Min(Dist(a, Init(b)) + 1, Dist(Init(a), Init(b)) + Cost(Last(a), Last(b))))
  }

  // ---- what it means ----

  datatype Edit = Keep | Change(c: char) | Insert(c: char) | Delete

  /** A script turns `a` into `b`, working at the end of both. */
  predicate Turns(script: seq<Edit>, a: string, b: string) {
    if script == [] then a == b == ""
    else
      var before := script[..|script| - 1];
      match script[|script| - 1]
      case Keep => a != "" && b != "" && Last(a) == Last(b) && Turns(before, Init(a), Init(b))
      case Change(c) => a != "" && b != "" && Last(b) == c && Turns(before, Init(a), Init(b))
      case Insert(c) => b != "" && Last(b) == c && Turns(before, a, Init(b))
      case Delete => a != "" && Turns(before, Init(a), b)
  }

  function Edits(script: seq<Edit>): nat {
    if script == [] then 0 else Edits(script[..|script| - 1]) + if script[|script| - 1] == Keep then 0 else 1
  }

  /** No script is cheaper than the distance. */
  lemma {:induction false} DistIsLeast(script: seq<Edit>, a: string, b: string)
    requires Turns(script, a, b)
    ensures Dist(a, b) <= Edits(script)
  {
    if script != [] {
      var before := script[..|script| - 1];
      Steps(a, b);
      match script[|script| - 1]
      case Keep => DistIsLeast(before, Init(a), Init(b));
      case Change(c) => DistIsLeast(before, Init(a), Init(b));
      case Insert(c) => DistIsLeast(before, a, Init(b));
      case Delete => DistIsLeast(before, Init(a), b);
    }
  }

  /** A script as cheap as the distance. */
  lemma {:induction false} DistIsReached(a: string, b: string) returns (script: seq<Edit>)
    ensures Turns(script, a, b) && Edits(script) == Dist(a, b)
    decreases |a| + |b|
  {
    if a == "" && b == "" {
      script := [];
    } else if a == "" || (b != "" && Dist(a, b) == Dist(a, Init(b)) + 1) {
      var before := DistIsReached(a, Init(b));
      script := before + [Insert(Last(b))];
      assert script[..|script| - 1] == before;
    } else if b == "" || Dist(a, b) == Dist(Init(a), b) + 1 {
      var before := DistIsReached(Init(a), b);
      script := before + [Delete];
      assert script[..|script| - 1] == before;
    } else {
      var before := DistIsReached(Init(a), Init(b));
      script := before + [if Last(a) == Last(b) then Keep else Change(Last(b))];
      assert script[..|script| - 1] == before;
    }
  }

  /** The three ways to bound a distance by a shorter one. */
  lemma {:induction false} Steps(a: string, b: string)
    ensures a != "" ==> Dist(a, b) <= Dist(Init(a), b) + 1
    ensures b != "" ==> Dist(a, b) <= Dist(a, Init(b)) + 1
    ensures a != "" && b != "" ==> Dist(a, b) <= Dist(Init(a), Init(b)) + Cost(Last(a), Last(b))
  {
    if a != "" && Init(a) == "" { }
  }

  lemma {:induction false} Symmetric(a: string, b: string)
    ensures Dist(a, b) == Dist(b, a)
    decreases |a| + |b|
  {
    if a != "" && b != "" {
      Symmetric(Init(a), b);
      Symmetric(a, Init(b));
      Symmetric(Init(a), Init(b));
    }
  }

  /** At least the difference of the lengths, at most the longer length. */
  lemma {:induction false} Bounds(a: string, b: string)
    ensures |a| - |b| <= Dist(a, b) && |b| - |a| <= Dist(a, b)
    ensures Dist(a, b) <= Max(|a|, |b|)
    decreases |a| + |b|
  {
    if a != "" && b != "" {
      Bounds(Init(a), b);
      Bounds(a, Init(b));
      Bounds(Init(a), Init(b));
    }
  }

  lemma {:induction false} ZeroMeansEqual(a: string, b: string)
    ensures Dist(a, b) == 0 <==> a == b
    decreases |a| + |b|
  {
    if a != "" && b != "" {
      ZeroMeansEqual(Init(a), Init(b));
      assert a == Init(a) + [Last(a)] && b == Init(b) + [Last(b)];
    }
  }

  lemma {:induction false} Triangle(a: string, b: string, c: string)
    ensures Dist(a, c) <= Dist(a, b) + Dist(b, c)
    decreases |a| + |b| + |c|
  {
    if a == "" {
      Bounds(b, c);
    } else if c == "" {
      Bounds(a, b);
    } else if b == "" {
      Bounds(a, c);
    } else {
      Steps(a, c);
      if Dist(a, b) == Dist(Init(a), b) + 1 {
        Triangle(Init(a), b, c);
      } else if Dist(b, c) == Dist(b, Init(c)) + 1 {
        Triangle(a, b, Init(c));
      } else if Dist(a, b) == Dist(a, Init(b)) + 1 {
        if Dist(b, c) == Dist(Init(b), c) + 1 { Triangle(a, Init(b), c); }
        else { Triangle(a, Init(b), Init(c)); }
      } else if Dist(b, c) == Dist(Init(b), c) + 1 {
        Triangle(Init(a), Init(b), c);
      } else {
        Triangle(Init(a), Init(b), Init(c));
      }
    }
  }

  // ---- two rows instead of a table ----

  ghost predicate Row(row: seq<int>, r1: string, r2: string, upto: nat) {
    |row| == |r1| + 1 && upto <= |row| && forall i | 0 <= i < upto :: row[i] == Dist(r1[..i], r2)
  }

  lemma {:induction false} NextCell(r1: string, r2: string, i: nat, j: nat, left: int, above: int, corner: int)
    requires 0 < i <= |r1| && 0 < j <= |r2|
    requires left == Dist(r1[..i - 1], r2[..j]) && above == Dist(r1[..i], r2[..j - 1])
    requires corner == Dist(r1[..i - 1], r2[..j - 1])
    ensures Min(left + 1, Min(above + 1, corner + Cost(r1[i - 1], r2[j - 1]))) == Dist(r1[..i], r2[..j])
  {
    assert Init(r1[..i]) == r1[..i - 1] && Init(r2[..j]) == r2[..j - 1];
  }

  /** levenshteinDistance: two rows over the shorter string, swapped after every character of the longer one. */
  method LevenshteinDistance(str1: string, str2: string) returns (d: int)
    ensures d == Dist(str1, str2)
  {
    if str1 == str2 {
      ZeroMeansEqual(str1, str2);
      return 0;
    }
    var r1, r2 := str1, str2;
    if |r1| == 0 { return |r2|; }
    if |r2| == 0 { return |r1|; }
    Symmetric(str1, str2);
    if |r1| > |r2| { r1, r2 := r2, r1; }
    hide Dist;
    EmptySide();
    var prevRow := new int[|r1| + 1](i => i);
    var currRow := new int[|r1| + 1](i => 0);
    assert Row(prevRow[..], r1, r2[..0], |r1| + 1);
    for j := 1 to |r2| + 1
      invariant prevRow != currRow && fresh(prevRow) && fresh(currRow)
      invariant prevRow.Length == currRow.Length == |r1| + 1
      invariant Row(prevRow[..], r1, r2[..j - 1], |r1| + 1)
    {
      FillRow(prevRow, currRow, r1, r2, j);
      prevRow, currRow := currRow, prevRow;
    }
    assert r1[..|r1|] == r1 && r2[..|r2|] == r2;
    d := prevRow[|r1|];
    assert prevRow[..][|r1|] == prevRow[|r1|];
  }

  lemma EmptySide()
    ensures forall s: string :: Dist(s, "") == |s| && Dist("", s) == |s|
  {
  }

  /** One row from the one above it. */
  method FillRow(prevRow: array<int>, currRow: array<int>, r1: string, r2: string, j: nat)
    requires prevRow != currRow && prevRow.Length == currRow.Length == |r1| + 1 && 0 < j <= |r2|
    requires Row(prevRow[..], r1, r2[..j - 1], |r1| + 1)
    modifies currRow
    ensures Row(currRow[..], r1, r2[..j], |r1| + 1)
  {
    currRow[0] := j;
    assert currRow[0] == Dist(r1[..0], r2[..j]);
    hide Dist;
    for i := 1 to |r1| + 1
      invariant forall k | 0 <= k < i :: currRow[k] == Dist(r1[..k], r2[..j])
    {
      var cost := 0;
      if r1[i - 1] != r2[j - 1] { cost := 1; }
      assert prevRow[..][i] == prevRow[i] && prevRow[..][i - 1] == prevRow[i - 1];
      NextCell(r1, r2, i, j, currRow[i - 1], prevRow[i], prevRow[i - 1]);
      currRow[i] := Min(currRow[i - 1] + 1, Min(prevRow[i] + 1, prevRow[i - 1] + cost));
    }
  }

  // ---- similarities ----

  lemma Divided(d: real, n: real, m: real)
    requires 0.0 <= d <= n <= m && n > 0.0
    ensures 0.0 <= d / m <= d / n <= 1.0
    ensures d / n == 0.0 <==> d == 0.0
  {
    var x, y := d / n, d / m;
    assert x * n == d && y * m == d;
    assert x >= 0.0 && y >= 0.0;
    assert x * (m - n) >= 0.0;
    assert (x - y) * m >= 0.0;
    assert (1.0 - x) * n >= 0.0;
  }

  lemma Quotient(d: nat, n: nat, m: nat)
    requires d <= n <= m && n > 0
    ensures 0.0 <= 1.0 - d as real / n as real <= 1.0 - d as real / m as real <= 1.0
    ensures 1.0 - d as real / n as real == 1.0 <==> d == 0
  {
    Divided(d as real, n as real, n as real);
    Divided(d as real, n as real, m as real);
    Divided(d as real, m as real, m as real);
  }

  /** LevenshteinNorm: between 0 and 1, and 1 for equal strings only. */
  method LevenshteinNorm(str1: string, str2: string) returns (r: real)
    ensures 0.0 <= r <= 1.0
    ensures r == 1.0 <==> str1 == str2
    ensures Max(|str1|, |str2|) > 0 ==> r == 1.0 - Dist(str1, str2) as real / Max(|str1|, |str2|) as real
  {
    ZeroMeansEqual(str1, str2);
    if str1 == str2 { return 1.0; }
    var maxLen := Max(|str1|, |str2|);
    if maxLen == 0 { return 1.0; }
    Bounds(str1, str2);
    Quotient(Dist(str1, str2), maxLen, maxLen);
    var d := LevenshteinDistance(str1, str2);
    r := 1.0 - d as real / maxLen as real;
  }

  lemma {:induction false} BytesAtLeast(s: string)
    ensures Utf8Len(s) >= |s|
  {
    if s != "" { BytesAtLeast(s[..|s| - 1]); }
  }

  /** The edit term of the title score divides by the length in bytes, and is 0 for two empty titles: it stays between
      0 and 1, and is never below the quotient by characters. */
  method TitleEditTerm(base1: string, base2: string) returns (r: real)
    ensures var maxBytes := Max(Utf8Len(base1), Utf8Len(base2));
            r == if maxBytes > 0 then 1.0 - Dist(base1, base2) as real / maxBytes as real else 0.0
    ensures 0.0 <= r <= 1.0
    ensures r == 1.0 ==> base1 == base2
    ensures Max(|base1|, |base2|) > 0 ==> r >= 1.0 - Dist(base1, base2) as real / Max(|base1|, |base2|) as real
  {
    BytesAtLeast(base1);
    BytesAtLeast(base2);
    var maxLength := Max(Utf8Len(base1), Utf8Len(base2));
    r := 0.0;
    if maxLength > 0 {
      Bounds(base1, base2);
      ZeroMeansEqual(base1, base2);
      NotEmpty(base1, base2);
      Quotient(Dist(base1, base2), Max(|base1|, |base2|), maxLength);
      Quotient(Dist(base1, base2), maxLength, maxLength);
      var d := LevenshteinDistance(base1, base2);
      r := 1.0 - d as real / maxLength as real;
    }
  }

  lemma NotEmpty(a: string, b: string)
    requires Max(Utf8Len(a), Utf8Len(b)) > 0
    ensures Max(|a|, |b|) > 0
  {
    if a == "" { assert Utf8Len(a) == 0; }
  }
}
