module Wrappers {
  datatype Option<+T> = None | Some(value: T)
}

/** Go strings are byte strings; a model string is a sequence of code points, and this
    is the number of bytes it takes in UTF-8. */
module Utf8 {
  function CharLen(c: char): (n: nat)
    ensures 1 <= n <= 4
  {
    if c as int < 0x80 then 1 else if c as int < 0x800 then 2 else if c as int < 0x1_0000 then 3 else 4
  }

  function Utf8Len(s: string): nat {
    if s == "" then 0 else Utf8Len(s[..|s| - 1]) + CharLen(s[|s| - 1])
  }
}

/** White space as Go's unicode package sees it, and trimming. */
module Unicode {
  predicate IsSpace(c: char) {
    c in ['\t', '\n', '\U{000B}', '\U{000C}', '\r', ' ', '\U{0085}', '\U{00A0}', '\U{1680}', '\U{2028}', '\U{2029}',
          '\U{202F}', '\U{205F}', '\U{3000}'] || '\U{2000}' <= c <= '\U{200A}'
  }

  predicate Blank(s: string) { forall i | 0 <= i < |s| :: IsSpace(s[i]) }

  /** Length of the leading white space. */
  function Lead(s: string): (n: nat)
    ensures n <= |s| && Blank(s[..n]) && (n < |s| ==> !IsSpace(s[n]))
  {
    if s == "" || !IsSpace(s[0]) then 0 else 1 + Lead(s[1..])
  }

  /** Where the trailing white space starts. */
  function TrailStart(s: string): (n: nat)
    ensures n <= |s| && Blank(s[n..]) && (n > 0 ==> !IsSpace(s[n - 1]))
  {
    if s == "" then 0
    else if !IsSpace(s[|s| - 1]) then |s|
    else
      var t, last := s[..|s| - 1], s[|s| - 1];
      var n := TrailStart(t);
      assert forall i | n <= i < |s| :: if i < |t| then s[i] == t[n..][i - n] else s[i] == last;
      n
  }

  function TrimLeft(s: string): string { s[Lead(s)..] }

  function Trim(s: string): string {
    var t := TrimLeft(s);
    t[..TrailStart(t)]
  }

  predicate Trimmed(s: string) { s == "" || (!IsSpace(s[0]) && !IsSpace(s[|s| - 1])) }

  lemma TrimIs(s: string)
    ensures Trimmed(Trim(s))
    ensures Trim(s) == s <==> Trimmed(s)
    ensures Trim(s) == "" <==> Blank(s)
  {
    var n, t := Lead(s), TrimLeft(s);
    var k := TrailStart(t);
    assert s[..|s|] == s;
    if n < |s| {
      assert t[0] == s[n] && t[0..][0] == t[0];
      assert k > 0 && Trim(s)[0] == t[0] && Trim(s)[|Trim(s)| - 1] == t[k - 1];
      if k < |t| {
        assert t[k..][|t| - k - 1] == s[|s| - 1];
      }
    }
  }

  /** What stands between white space, and neither starts nor ends with it, is what trimming leaves. */
  lemma TrimFinds(s: string, a: nat, b: nat)
    requires a <= b <= |s| && Blank(s[..a]) && Blank(s[b..])
    requires a < b ==> !IsSpace(s[a]) && !IsSpace(s[b - 1])
    ensures Trim(s) == s[a..b]
  {
    hide IsSpace;
    forall i | b <= i < |s| ensures IsSpace(s[i]) { assert s[i] == s[b..][i - b]; }
    forall i | 0 <= i < a ensures IsSpace(s[i]) { assert s[i] == s[..a][i]; }
    if a == b {
      TrimIs(s);
    } else {
      LeadStops(s, a);
      TrailStops(s[a..], b - a);
    }
  }

  lemma LeadStops(s: string, a: nat)
    requires a < |s| && !IsSpace(s[a]) && forall i | 0 <= i < a :: IsSpace(s[i])
    ensures Lead(s) == a
  {
    hide IsSpace;
    forall i | 0 <= i < Lead(s) ensures IsSpace(s[i]) { assert s[..Lead(s)][i] == s[i]; }
  }

  lemma TrailStops(s: string, b: nat)
    requires 0 < b <= |s| && !IsSpace(s[b - 1]) && forall i | b <= i < |s| :: IsSpace(s[i])
    ensures TrailStart(s) == b
  {
    hide IsSpace;
    var n := TrailStart(s);
    forall i | n <= i < |s| ensures IsSpace(s[i]) { assert s[n..][i - n] == s[i]; }
  }
}

module Orders {
  /** The members of a set, one by one, in no particular order. */
  method InAnyOrder<T(==)>(members: set<T>) returns (q: seq<T>)
    ensures forall x :: x in q <==> x in members
    ensures forall j, k | 0 <= j < |q| && 0 <= k < |q| && j != k :: q[j] != q[k]
  {
    var left := members;
    q := [];
    while left != {}
      invariant left <= members
      invariant forall x :: x in q <==> x in members && x !in left
      invariant forall j, k | 0 <= j < |q| && 0 <= k < |q| && j != k :: q[j] != q[k]
      decreases |left|
    {
      var x :| x in left;
      left := left - {x};
      q := q + [x];
    }
  }
}

/** Exact rounding: to the nearest integer, halves away from zero. */
module Rounding {
  function Round(r: real): (n: int)
    ensures n as real - 0.5 <= r <= n as real + 0.5
  {
    if r >= 0.0 then (r + 0.5).Floor else -((0.5 - r).Floor)
  }

  lemma RoundMonotone(a: real, b: real)
    requires a <= b
    ensures Round(a) <= Round(b)
  {
    if a < 0.0 <= b {
      assert Round(a) <= 0 <= Round(b);
    }
  }

  lemma RoundInt(n: int)
    ensures Round(n as real) == n
  {
  }
}
