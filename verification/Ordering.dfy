// The order of strings, and of rows by time and id.
module Ordering {
  // Go and the store compare bytes; on valid UTF-8 that is the order of code points.
  predicate StringLess(a: string, b: string) {
    if a == "" || b == "" then a == "" && b != ""
    else a[0] < b[0] || (a[0] == b[0] && StringLess(a[1..], b[1..]))
  }

  lemma {:induction false} StringLessTrichotomy(a: string, b: string)
    ensures StringLess(a, b) || a == b || StringLess(b, a)
    ensures !(StringLess(a, b) && a == b) && !(StringLess(a, b) && StringLess(b, a))
  {
    if a != "" && b != "" {
      StringLessTrichotomy(a[1..], b[1..]);
      assert a == [a[0]] + a[1..] && b == [b[0]] + b[1..];
    }
  }

  lemma {:induction false} StringLessTransitive(a: string, b: string, c: string)
    requires StringLess(a, b) && StringLess(b, c)
    ensures StringLess(a, c)
  {
    if a != "" && b != "" && c != "" && a[0] == b[0] == c[0] {
      StringLessTransitive(a[1..], b[1..], c[1..]);
    }
  }

  // ----- Sorted strings without repetition -----

  ghost predicate AscendingStrings(s: seq<string>) { forall k, l | 0 <= k < l < |s| :: StringLess(s[k], s[l]) }

  // Puts a string in its place unless it is there already.
  function InsertString(s: seq<string>, x: string): seq<string> {
    if s == [] then [x]
    else if x == s[0] then s
    else if StringLess(x, s[0]) then [x] + s
    else [s[0]] + InsertString(s[1..], x)
  }

  lemma {:induction false} InsertStringKeeps(s: seq<string>, x: string)
    requires AscendingStrings(s)
    ensures AscendingStrings(InsertString(s, x))
    ensures forall y :: y in InsertString(s, x) <==> y in s || y == x
    ensures x in s ==> InsertString(s, x) == s
  {
    if s != [] {
      var head, tail := s[0], s[1..];
      assert s == [head] + tail;
      StringLessTrichotomy(x, head);
      if StringLess(x, head) {
        forall l | 0 <= l < |s|
          ensures StringLess(x, s[l]) && x != s[l]
        {
          if l > 0 { StringLessTransitive(x, head, s[l]); }
          StringLessTrichotomy(x, s[l]);
        }
      } else if x != head {
        InsertStringKeeps(tail, x);
        hide StringLess;
        forall y | y in InsertString(tail, x)
          ensures StringLess(head, y)
        {
          if y != x {
            var k :| 0 <= k < |tail| && tail[k] == y;
            assert StringLess(s[0], s[k + 1]);
          }
        }
      }
    }
  }

  // The non-empty strings of a list, sorted and once each.
  function UniqueStrings(values: seq<string>): seq<string> {
    if values == [] then []
    else
      var before, last := UniqueStrings(values[..|values| - 1]), values[|values| - 1];
      if last == "" then before else InsertString(before, last)
  }

  lemma {:induction false} UniqueStringsAre(values: seq<string>)
    ensures AscendingStrings(UniqueStrings(values))
    ensures forall y :: y in UniqueStrings(values) <==> y in values && y != ""
  {
    if values != [] {
      var n := |values| - 1;
      UniqueStringsAre(values[..n]);
      InsertStringKeeps(UniqueStrings(values[..n]), values[n]);
      assert values == values[..n] + [values[n]];
    }
  }

  // The loop with a set of the strings seen computes it.
  method SortUnique(values: seq<string>) returns (out: seq<string>)
    ensures out == UniqueStrings(values)
  {
    out := [];
    var seen: set<string> := {};
    for i := 0 to |values|
      invariant out == UniqueStrings(values[..i]) && forall y :: y in seen <==> y in out
    {
      assert values[..i + 1][..i] == values[..i];
      UniqueStringsAre(values[..i]);
      InsertStringKeeps(out, values[i]);
      if values[i] == "" || values[i] in seen { continue; }
      seen := seen + {values[i]};
      out := InsertString(out, values[i]);
    }
    assert values[..|values|] == values;
  }
}
