/** Some members left out, the others in their order. */
module Subsequences {

  predicate Subsequence<T(==)>(part: seq<T>, whole: seq<T>) {
    if part == [] then true
    else if whole == [] then false
    else
      || (part[|part| - 1] == whole[|whole| - 1] && Subsequence(part[..|part| - 1], whole[..|whole| - 1]))
      || Subsequence(part, whole[..|whole| - 1])
  }

  lemma NothingLeft<T>(whole: seq<T>)
    ensures Subsequence([], whole)
  {
  }

  lemma {:induction false} Self<T>(s: seq<T>)
    ensures Subsequence(s, s)
  {
    if s != [] { Self(s[..|s| - 1]); }
  }

  lemma {:induction false} Members<T>(part: seq<T>, whole: seq<T>)
    requires Subsequence(part, whole)
    ensures forall k | 0 <= k < |part| :: part[k] in whole
  {
    if part != [] {
      var front := whole[..|whole| - 1];
      if part[|part| - 1] == whole[|whole| - 1] && Subsequence(part[..|part| - 1], front) {
        Members(part[..|part| - 1], front);
        forall k | 0 <= k < |part| ensures part[k] in whole {
          if k < |part| - 1 { assert part[..|part| - 1][k] in front; }
        }
      } else {
        Members(part, front);
        forall k | 0 <= k < |part| ensures part[k] in whole { assert part[k] in front; }
      }
    }
  }

  lemma {:induction false} Through<T>(a: seq<T>, b: seq<T>, c: seq<T>)
    requires Subsequence(a, b) && Subsequence(b, c)
    ensures Subsequence(a, c)
    decreases |c|
  {
    if a != [] {
      var a', b', c' := a[..|a| - 1], b[..|b| - 1], c[..|c| - 1];
      if b[|b| - 1] == c[|c| - 1] && Subsequence(b', c') {
        if a[|a| - 1] == b[|b| - 1] && Subsequence(a', b') { Through(a', b', c'); } else { Through(a, b', c'); }
      } else {
        Through(a, b, c');
      }
    }
  }

  lemma {:induction false} Append<T>(a: seq<T>, b: seq<T>, rest: seq<T>)
    requires Subsequence(a, b)
    ensures Subsequence(a + rest, b + rest)
  {
    if rest == [] {
      assert a + rest == a && b + rest == b;
    } else {
      var r := rest[..|rest| - 1];
      Append(a, b, r);
      assert (a + rest)[..|a + rest| - 1] == a + r && (b + rest)[..|b + rest| - 1] == b + r;
    }
  }

  lemma {:induction false} More<T>(a: seq<T>, b: seq<T>, more: seq<T>)
    requires Subsequence(a, b)
    ensures Subsequence(a, b + more)
  {
    if more == [] {
      assert b + more == b;
    } else {
      More(a, b, more[..|more| - 1]);
      assert (b + more)[..|b + more| - 1] == b + more[..|more| - 1];
    }
  }

  lemma Suffix<T>(s: seq<T>, n: nat)
    requires n <= |s|
    ensures Subsequence(s[n..], s)
  {
    hide *;
    var front, back := s[..n], s[n..];
    assert front + back == s;
    NothingLeft(front);
    Append([], front, back);
    assert [] + back == back;
  }

  lemma Prefix<T>(a: seq<T>, n: nat, b: seq<T>)
    requires n <= |a| && Subsequence(a, b)
    ensures Subsequence(a[..n], b)
  {
    hide *;
    Self(a[..n]);
    More(a[..n], a[..n], a[n..]);
    assert a[..n] + a[n..] == a;
    Through(a[..n], a, b);
  }

  lemma {:induction false} Behind<T>(first: T, part: seq<T>, whole: seq<T>)
    requires Subsequence(part, whole)
    ensures Subsequence([first] + part, [first] + whole)
    decreases |whole|
  {
    var p, w := [first] + part, [first] + whole;
    if part == [] {
      Self([first]);
      More([first], [first], whole);
      assert p == [first];
    } else {
      var part', whole' := part[..|part| - 1], whole[..|whole| - 1];
      assert p[..|p| - 1] == [first] + part' && w[..|w| - 1] == [first] + whole';
      if part[|part| - 1] == whole[|whole| - 1] && Subsequence(part', whole') {
        Behind(first, part', whole');
      } else {
        Behind(first, part, whole');
      }
    }
  }
}
