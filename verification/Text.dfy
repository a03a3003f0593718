// The string operations the parsers use, on texts as sequences of runes.
module Text {
  import opened Wrappers

  predicate IsSpace(c: char) {
    || c in {'\t', '\n', '\U{0b}', '\U{0c}', '\r', ' ', '\U{85}', '\U{a0}', '\U{1680}', '\U{2028}', '\U{2029}',
             '\U{202f}', '\U{205f}', '\U{3000}'}
    || '\U{2000}' <= c <= '\U{200a}'
  }

  function TrimLeft(s: string): string {
    if s != [] && IsSpace(s[0]) then TrimLeft(s[1..]) else s
  }

  function TrimRight(s: string): string {
    if s != [] && IsSpace(s[|s| - 1]) then TrimRight(s[..|s| - 1]) else s
  }

  function TrimSpace(s: string): string { TrimRight(TrimLeft(s)) }

  predicate HasPrefix(s: string, prefix: string) { prefix <= s }

  // The length of the leading run of non-space runes.
  function WordLength(s: string): (n: nat)
    ensures n <= |s| && (s != [] && !IsSpace(s[0]) ==> n > 0)
  {
    if s == [] || IsSpace(s[0]) then 0 else 1 + WordLength(s[1..])
  }

  function SpaceLength(s: string): (n: nat)
    ensures n <= |s| && (n < |s| ==> !IsSpace(s[n]))
  {
    if s == [] || !IsSpace(s[0]) then 0 else 1 + SpaceLength(s[1..])
  }

  // The maximal runs of non-space runes.
  function Fields(s: string): seq<string>
    decreases |s|
  {
    var t := s[SpaceLength(s)..];
    if t == [] then [] else [t[..WordLength(t)]] + Fields(t[WordLength(t)..])
  }

  function Join(parts: seq<string>, sep: string): string {
    if parts == [] then []
    else if |parts| == 1 then parts[0]
    else parts[0] + sep + Join(parts[1..], sep)
  }

  // The position of the first occurrence of `sub`.
  function IndexOf(s: string, sub: string): (i: Option<nat>)
    ensures i.Some? ==> i.value + |sub| <= |s|
  {
    if sub <= s then Some(0)
    else if s == [] then None
    else
      var rest := IndexOf(s[1..], sub);
      if rest.None? then None else Some(rest.value + 1)
  }

  function TrimRightOf(s: string, c: char): string {
    if s != [] && s[|s| - 1] == c then TrimRightOf(s[..|s| - 1], c) else s
  }

  function TrimLeftOf(s: string, cs: set<char>): string {
    if s != [] && s[0] in cs then TrimLeftOf(s[1..], cs) else s
  }

  function AfterLastSlash(s: string): string {
    if s == [] || s[|s| - 1] == '/' then "" else AfterLastSlash(s[..|s| - 1]) + [s[|s| - 1]]
  }

  function ValueOr(value: string, fallback: string): string {
    if value != "" then value else fallback
  }

  // The pieces between separators.
  function SplitOn(s: string, sep: char): (pieces: seq<string>)
    ensures pieces != []
  {
    if s == "" then [""]
    else
      var rest := SplitOn(s[1..], sep);
      if s[0] == sep then [""] + rest else [[s[0]] + rest[0]] + rest[1..]
  }

  lemma SplitOnStep(s: string, sep: char)
    requires s != ""
    ensures var rest := SplitOn(s[1..], sep);
      SplitOn(s, sep) == if s[0] == sep then [""] + rest else [[s[0]] + rest[0]] + rest[1..]
  {
  }

  // ---------- What these mean ----------

  // Trimming takes away leading and trailing spaces and nothing else.
  lemma TrimSpaceIs(s: string)
    ensures var t := TrimSpace(s);
      && (t != "" ==> !IsSpace(t[0]) && !IsSpace(t[|t| - 1]))
      && exists a: nat, b: nat ::
        a <= b <= |s| && t == s[a..b] && forall i | 0 <= i < a || b <= i < |s| :: IsSpace(s[i])
  {
    var a := TrimLeftIs(s);
    var b := TrimRightIs(s[a..]);
    var t := TrimSpace(s);
    assert t == s[a..a + b];
    assert forall i | a + b <= i < |s| :: s[i] == s[a..][i - a];
  }

  lemma {:induction false} TrimLeftIs(s: string) returns (a: nat)
    ensures a <= |s| && TrimLeft(s) == s[a..] && (a < |s| ==> !IsSpace(s[a])) && forall i | 0 <= i < a :: IsSpace(s[i])
  {
    a := 0;
    if s != [] && IsSpace(s[0]) {
      a := TrimLeftIs(s[1..]);
      a := a + 1;
      assert forall i | 1 <= i < a :: s[i] == s[1..][i - 1];
    }
  }

  lemma {:induction false} TrimRightIs(s: string) returns (b: nat)
    ensures b <= |s| && TrimRight(s) == s[..b] && (b > 0 ==> !IsSpace(s[b - 1]))
    ensures forall i | b <= i < |s| :: IsSpace(s[i])
  {
    b := |s|;
    if s != [] && IsSpace(s[|s| - 1]) {
      var most := s[..|s| - 1];
      b := TrimRightIs(most);
      assert forall i | b <= i < |most| :: s[i] == most[i];
      assert most[..b] == s[..b];
    }
  }

  lemma TrimTwice(s: string)
    ensures TrimSpace(TrimSpace(s)) == TrimSpace(s)
  {
    TrimSpaceIs(s);
  }

  // What follows the last slash.
  lemma {:induction false} AfterLastSlashIs(s: string)
    ensures var t := AfterLastSlash(s);
            var n := |s| - |t|;
      0 <= n && t == s[n..] && (n > 0 ==> s[n - 1] == '/') && forall i | 0 <= i < |t| :: t[i] != '/'
  {
    if s != [] && s[|s| - 1] != '/' {
      var most := s[..|s| - 1];
      AfterLastSlashIs(most);
      var t := AfterLastSlash(most);
      assert s == most + [s[|s| - 1]];
    }
  }

  predicate At(part: string, s: string, i: nat) { i + |part| <= |s| && s[i..i + |part|] == part }

  // The text occurs in another.
  ghost predicate Occurs(part: string, s: string) { exists i: nat :: At(part, s, i) }

  lemma AtTail(part: string, s: string, i: nat)
    requires s != ""
    ensures At(part, s, i + 1) <==> At(part, s[1..], i)
    ensures At(part, s, 0) <==> part <= s
  {
    if i + 1 + |part| <= |s| { assert s[i + 1..i + 1 + |part|] == s[1..][i..i + |part|]; }
  }

  lemma {:induction false} IndexOfIs(s: string, part: string)
    ensures IndexOf(s, part).Some? <==> Occurs(part, s)
    ensures IndexOf(s, part).Some? ==>
      At(part, s, IndexOf(s, part).value) && forall j: nat | j < IndexOf(s, part).value :: !At(part, s, j)
  {
    if part <= s {
      assert At(part, s, 0);
    } else if s != "" {
      IndexOfIs(s[1..], part);
      AtTail(part, s, 0);
      forall i: nat
        ensures At(part, s, i + 1) <==> At(part, s[1..], i)
      {
        AtTail(part, s, i);
      }
      hide At;
      forall i: nat | At(part, s, i)
        ensures i > 0 && At(part, s[1..], i - 1)
      {
        assert i > 0 ==> (i - 1) + 1 == i;
      }
    }
  }

  predicate Word(w: string) { w != "" && forall i | 0 <= i < |w| :: !IsSpace(w[i]) }

  lemma {:induction false} WordLengthIs(w: string, rest: string)
    requires (forall i | 0 <= i < |w| :: !IsSpace(w[i])) && (rest == "" || IsSpace(rest[0]))
    ensures WordLength(w + rest) == |w|
  {
    if w == "" {
      assert w + rest == rest;
    } else {
      assert (w + rest)[1..] == w[1..] + rest;
      WordLengthIs(w[1..], rest);
    }
  }

  lemma SkipSpace(c: char, s: string)
    requires IsSpace(c)
    ensures Fields([c] + s) == Fields(s)
  {
    assert ([c] + s)[1..] == s;
    assert ([c] + s)[SpaceLength([c] + s)..] == s[SpaceLength(s)..];
  }

  // The words of words joined by spaces are those words.
  lemma {:induction false} FieldsOfJoin(words: seq<string>)
    requires forall k | 0 <= k < |words| :: Word(words[k])
    ensures Fields(Join(words, " ")) == words
  {
    if words != [] {
      var w, rest := words[0], words[1..];
      var s := Join(words, " ");
      var tail := if rest == [] then "" else " " + Join(rest, " ");
      assert s == w + tail by { assert rest == [] ==> w + "" == w; }
      assert s[0] == w[0] && !IsSpace(w[0]);
      WordLengthIs(w, tail);
      assert s[0..] == s && s[..|w|] == w && s[|w|..] == tail;
      FieldsOfJoin(rest);
      if rest == [] {
        assert Fields("") == [];
      } else {
        SkipSpace(' ', Join(rest, " "));
        assert [' '] + Join(rest, " ") == tail;
      }
    }
  }

  lemma {:induction false} FieldsAreWords(s: string)
    ensures forall k | 0 <= k < |Fields(s)| :: Word(Fields(s)[k])
    decreases |s|
  {
    var t := s[SpaceLength(s)..];
    if t != [] {
      WordIsWord(t);
      FieldsAreWords(t[WordLength(t)..]);
    }
  }

  lemma {:induction false} WordIsWord(s: string)
    ensures forall i | 0 <= i < WordLength(s) :: !IsSpace(s[i])
  {
    if s != [] && !IsSpace(s[0]) {
      WordIsWord(s[1..]);
      assert forall i | 1 <= i < WordLength(s) :: s[i] == s[1..][i - 1];
    }
  }

  predicate OneLine(s: string) { forall i | 0 <= i < |s| :: s[i] != '\n' }

  lemma {:induction false} JoinIsOneLine(parts: seq<string>)
    requires forall k | 0 <= k < |parts| :: OneLine(parts[k])
    ensures OneLine(Join(parts, " "))
  {
    if |parts| > 1 { JoinIsOneLine(parts[1..]); }
  }

  // Lines can be told apart once they are joined; the last may go on over several.
  lemma {:induction false} LinesJoinApart(a: seq<string>, b: seq<string>)
    requires |a| == |b| && Join(a, "\n") == Join(b, "\n")
    requires forall k | 0 <= k < |a| - 1 :: OneLine(a[k]) && OneLine(b[k])
    ensures a == b
  {
    if |a| > 1 {
      FirstLine(a[0], b[0], Join(a[1..], "\n"), Join(b[1..], "\n"));
      LinesJoinApart(a[1..], b[1..]);
      assert a == [a[0]] + a[1..] && b == [b[0]] + b[1..];
    }
  }

  function LineLength(s: string): nat { if s == "" || s[0] == '\n' then 0 else 1 + LineLength(s[1..]) }

  lemma {:induction false} LineLengthIs(a: string, x: string)
    requires OneLine(a)
    ensures LineLength(a + "\n" + x) == |a|
  {
    if a == "" {
      assert a + "\n" + x == "\n" + x;
    } else {
      assert (a + "\n" + x)[1..] == a[1..] + "\n" + x;
      LineLengthIs(a[1..], x);
    }
  }

  lemma FirstLine(a: string, b: string, x: string, y: string)
    requires OneLine(a) && OneLine(b) && a + "\n" + x == b + "\n" + y
    ensures a == b && x == y
  {
    var s := a + "\n" + x;
    LineLengthIs(a, x);
    LineLengthIs(b, y);
    assert a == s[..|a|] && b == s[..|b|] && x == s[|a| + 1..] && y == s[|b| + 1..];
  }

  // The last non-empty name, or `start` when there is none.
  ghost predicate LastNamed(names: seq<string>, start: string, value: string) {
    || (value == start && forall i | 0 <= i < |names| :: names[i] == "")
    || exists i | 0 <= i < |names| :: names[i] == value != "" && forall j | i < j < |names| :: names[j] == ""
  }

  lemma LastNamedSnoc(names: seq<string>, start: string, value: string, name: string)
    requires LastNamed(names, start, value)
    ensures LastNamed(names + [name], start, if name != "" then name else value)
  {
    var more := names + [name];
    if name != "" {
      assert more[|names|] == name;
    } else if i :| 0 <= i < |names| && names[i] == value != "" && forall j | i < j < |names| :: names[j] == "" {
      assert more[i] == value;
    }
  }

  lemma OneLastNamed(names: seq<string>, start: string, a: string, b: string)
    requires LastNamed(names, start, a) && LastNamed(names, start, b)
    ensures a == b
  {
    if i :| 0 <= i < |names| && names[i] == a != "" && forall j | i < j < |names| :: names[j] == "" {
      var j :| 0 <= j < |names| && names[j] == b != "" && forall k | j < k < |names| :: names[k] == "";
      assert i == j;
    }
  }

  // The first non-empty name, or `start` when there is none.
  ghost predicate FirstNamed(names: seq<string>, start: string, value: string) {
    || (value == start && forall i | 0 <= i < |names| :: names[i] == "")
    || exists i | 0 <= i < |names| :: names[i] == value != "" && forall j | 0 <= j < i :: names[j] == ""
  }

  lemma FirstNamedSnoc(names: seq<string>, start: string, value: string, name: string)
    requires FirstNamed(names, start, value) && (value == start <==> forall i | 0 <= i < |names| :: names[i] == "")
    ensures FirstNamed(names + [name], start, if value == start && name != "" then name else value)
  {
    var more := names + [name];
    if value == start {
      if name != "" { assert more[|names|] == name; }
    } else {
      var i :| 0 <= i < |names| && names[i] == value != "" && forall j | 0 <= j < i :: names[j] == "";
      assert more[i] == value;
    }
  }

  // The length of a text in bytes.
  function Utf8Length(s: string): nat {
    if s == "" then 0
    else
      (if s[0] < '\U{80}' then 1 else if s[0] < '\U{800}' then 2 else if s[0] < '\U{10000}' then 3 else 4)
        + Utf8Length(s[1..])
  }

  // A rune takes one to four bytes, and just one when it is ASCII.
  lemma {:induction false} Utf8LengthIs(s: string)
    ensures |s| <= Utf8Length(s) <= 4 * |s|
    ensures Utf8Length(s) == |s| <==> forall i | 0 <= i < |s| :: s[i] < '\U{80}'
  {
    if s != "" {
      Utf8LengthIs(s[1..]);
      assert s == [s[0]] + s[1..];
    }
  }
}
