// Readable chunk ids (main.go, `chunkID`).
module ChunkIds {
  const DIGITS: seq<char> := ['0', '1', '2', '3', '4', '5', '6', '7', '8', '9']

  // Decimal notation.
  function Itoa(n: nat): (s: string)
    ensures |s| > 0 && '#' !in s
  {
    if n < 10 then [DIGITS[n]] else Itoa(n / 10) + [DIGITS[n % 10]]
  }

  function ChunkId(messageId: string, i: nat): string { messageId + "#" + Itoa(i) }

  lemma {:induction false} ItoaInjective(a: nat, b: nat)
    requires Itoa(a) == Itoa(b)
    ensures a == b
    decreases a
  {
    var s, t := Itoa(a), Itoa(b);
    assert s[|s| - 1] == DIGITS[a % 10] && t[|t| - 1] == DIGITS[b % 10];
    assert a >= 10 <==> |s| >= 2;
    assert b >= 10 <==> |t| >= 2;
    if a >= 10 {
      assert s[..|s| - 1] == Itoa(a / 10) && t[..|t| - 1] == Itoa(b / 10);
      ItoaInjective(a / 10, b / 10);
    }
  }

  // The number is what follows the last '#'.
  lemma LastHash(p: string, i: nat)
    ensures ChunkId(p, i)[|p|] == '#'
    ensures forall k :: |p| < k < |ChunkId(p, i)| ==> ChunkId(p, i)[k] != '#'
    ensures ChunkId(p, i)[..|p|] == p && ChunkId(p, i)[|p| + 1..] == Itoa(i)
  {
    forall k | |p| < k < |ChunkId(p, i)|
      ensures ChunkId(p, i)[k] != '#'
    {
      assert ChunkId(p, i)[k] == Itoa(i)[k - |p| - 1];
      assert Itoa(i)[k - |p| - 1] in Itoa(i);
    }
  }

  // No two chunks share an id, whatever the message ids contain.
  lemma ChunkIdInjective(p: string, i: nat, q: string, j: nat)
    requires ChunkId(p, i) == ChunkId(q, j)
    ensures p == q && i == j
  {
    LastHash(p, i);
    LastHash(q, j);
    assert |p| == |q|;
    ItoaInjective(i, j);
  }
}
