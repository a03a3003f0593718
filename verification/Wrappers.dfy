// Small shared datatypes, arithmetic and sequence facts.
module Wrappers {
  datatype Option<+T> = None | Some(value: T)

  datatype Result<+T, +E> = Ok(value: T) | Err(error: E)

  function Min(a: int, b: int): int { if a <= b then a else b }

  function Max(a: int, b: int): int { if a >= b then a else b }

  lemma SliceOfSlice<T>(s: seq<T>, a: nat, b: nat, i: nat, j: nat)
    requires a <= b <= |s| && i <= j <= b - a
    ensures s[a..b][i..j] == s[a + i..a + j]
  {
    forall k | 0 <= k < j - i
      ensures s[a..b][i..j][k] == s[a + i..a + j][k]
    {
      assert s[a..b][i..j][k] == s[a..b][i + k];
    }
  }

  lemma SplitLast<T>(s: seq<T>)
    requires s != []
    ensures s == s[..|s| - 1] + [s[|s| - 1]]
  {
  }

  lemma PrefixGrows<T>(s: seq<T>, n: nat)
    requires n <= |s|
    ensures n < |s| ==> s[..n + 1] == s[..n] + [s[n]] && s[n..][0] == s[n] && s[n..][1..] == s[n + 1..]
    ensures n == |s| ==> s[n..] == []
  {
  }

  lemma SnocEqual<T>(a: seq<T>, b: seq<T>, x: T, y: T)
    ensures a + [x] == b + [y] <==> a == b && x == y
  {
    if a + [x] == b + [y] {
      assert a == (a + [x])[..|a|] && b == (b + [y])[..|b|];
      assert x == (a + [x])[|a|] && y == (b + [y])[|b|];
    }
  }

  lemma SomeMember<T>(s: seq<T>)
    ensures s == [] || s[0] in s
  {
  }
}
