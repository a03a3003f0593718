// The part of SQL that where clauses use: comparisons of columns with literals, AND, OR and
// parentheses. In a literal a doubled quote stands for a quote (section 5.3 of
// ISO/IEC 9075-2); in the dialect the store speaks a backslash also escapes what follows it.
module Sql {
  import opened Wrappers
  import opened Text
  import opened Ordering
  import opened Records
  import opened ChunkIds

  datatype Token = Word(text: string) | Number(n: nat) | Literal(text: string) | Sym(text: string)

  datatype Scanned = Scanned(text: string, rest: string)

  // The literal that a text begins with, after its opening quote.
  function ScanLiteral(s: string, escapes: bool): (r: Option<Scanned>)
    ensures r.Some? ==> |r.value.rest| < |s|
  {
    if s == "" then None
    else if s[0] == '\\' && escapes then
      if |s| == 1 then None else Grown(s[1], ScanLiteral(s[2..], escapes))
    else if s[0] == '\'' then
      if |s| > 1 && s[1] == '\'' then Grown('\'', ScanLiteral(s[2..], escapes)) else Some(Scanned("", s[1..]))
    else Grown(s[0], ScanLiteral(s[1..], escapes))
  }

  function Grown(c: char, r: Option<Scanned>): Option<Scanned> {
    if r.None? then None else Some(Scanned([c] + r.value.text, r.value.rest))
  }

  predicate WordChar(c: char) { 'a' <= c <= 'z' || 'A' <= c <= 'Z' || c == '_' }

  predicate IsDigit(c: char) { '0' <= c <= '9' }

  function WordRun(s: string): (n: nat)
    ensures n <= |s|
  {
    if s == "" || !WordChar(s[0]) then 0 else 1 + WordRun(s[1..])
  }

  function DigitRun(s: string): (n: nat)
    ensures n <= |s| && forall i | 0 <= i < n :: IsDigit(s[i])
  {
    if s == "" || !IsDigit(s[0]) then 0 else 1 + DigitRun(s[1..])
  }

  function Decimal(s: string): nat
    requires forall i | 0 <= i < |s| :: IsDigit(s[i])
  {
    if s == "" then 0 else assert IsDigit(s[|s| - 1]); 10 * Decimal(s[..|s| - 1]) + (s[|s| - 1] as int - '0' as int)
  }

  function Prepend(ts: seq<Token>, r: Option<seq<Token>>): Option<seq<Token>> {
    if r.None? then None else Some(ts + r.value)
  }

  function Lex(s: string): Option<seq<Token>>
    decreases |s|
  {
    if s == "" then Some([])
    else if s[0] == ' ' then Lex(s[1..])
    else if s[0] == '\'' then
      var lit := ScanLiteral(s[1..], true);
      if lit.None? then None else Prepend([Literal(lit.value.text)], Lex(lit.value.rest))
    else if WordChar(s[0]) then
      var n := WordRun(s);
      Prepend([Word(s[..n])], Lex(s[n..]))
    else if IsDigit(s[0]) then
      var n := DigitRun(s);
      Prepend([Number(Decimal(s[..n]))], Lex(s[n..]))
    else if s[0] in {'<', '>'} && |s| > 1 && s[1] == '=' then Prepend([Sym(s[..2])], Lex(s[2..]))
    else if s[0] in {'(', ')', '=', '<', '>'} then Prepend([Sym(s[..1])], Lex(s[1..]))
    else None
  }

  datatype Cell = Chars(text: string) | Int(n: int)

  datatype Expr =
    | Compare(column: string, op: string, value: Cell)
    | And(left: Expr, right: Expr)
    | Or(left: Expr, right: Expr)

  datatype Parsed = Parsed(expr: Expr, rest: seq<Token>)

  predicate Next(ts: seq<Token>, t: Token) { ts != [] && ts[0] == t }

  function ParseOr(ts: seq<Token>): (r: Option<Parsed>)
    ensures r.Some? ==> |r.value.rest| < |ts|
    decreases |ts|, 2
  {
    var left := ParseAnd(ts);
    if left.Some? && Next(left.value.rest, Word("OR")) then
      var right := ParseOr(left.value.rest[1..]);
      if right.None? then None else Some(Parsed(Or(left.value.expr, right.value.expr), right.value.rest))
    else left
  }

  function ParseAnd(ts: seq<Token>): (r: Option<Parsed>)
    ensures r.Some? ==> |r.value.rest| < |ts|
    decreases |ts|, 1
  {
    var left := ParsePrimary(ts);
    if left.Some? && Next(left.value.rest, Word("AND")) then
      var right := ParseAnd(left.value.rest[1..]);
      if right.None? then None else Some(Parsed(And(left.value.expr, right.value.expr), right.value.rest))
    else left
  }

  function ParsePrimary(ts: seq<Token>): (r: Option<Parsed>)
    ensures r.Some? ==> |r.value.rest| < |ts|
    decreases |ts|, 0
  {
    if Next(ts, Sym("(")) then
      var inner := ParseOr(ts[1..]);
      if inner.Some? && Next(inner.value.rest, Sym(")")) then Some(Parsed(inner.value.expr, inner.value.rest[1..]))
        else None
    else if |ts| >= 3 && ts[0].Word? && ts[0].text !in {"AND", "OR"} && ts[1].Sym?
      && ts[1].text in {"=", "<", ">", ">=", "<="} then
      if ts[2].Literal? then Some(Parsed(Compare(ts[0].text, ts[1].text, Chars(ts[2].text)), ts[3..]))
      else if ts[2].Number? then Some(Parsed(Compare(ts[0].text, ts[1].text, Int(ts[2].n)), ts[3..]))
      else None
    else None
  }

  // The string columns that filters may name.
  function Field(m: Metadata, name: string): Option<string> {
    if name == "source" then Some(m.source)
    else if name == "host" then Some(m.host)
    else if name == "container_id" then Some(m.containerId)
    else if name == "container_kind" then Some(m.containerKind)
    else if name == "project" then Some(m.project)
    else if name == "author_id" then Some(m.authorId)
    else if name == "kind" then Some(m.kind)
    else if name == "message_id" then Some(m.messageId)
    else None
  }

  function Column(row: MemoryItem, name: string): Option<Cell> {
    if name == "id" then Some(Chars(row.id))
    else if name == "timestamp" then Some(Int(row.metadata.timestamp))
    else if Field(row.metadata, name).Some? then Some(Chars(Field(row.metadata, name).value))
    else None
  }

  predicate CellLess(a: Cell, b: Cell) {
    match (a, b)
    case (Chars(s), Chars(t)) => StringLess(s, t)
    case (Int(i), Int(j)) => i < j
    case _ => false
  }

  predicate Eval(e: Expr, row: MemoryItem) {
    match e
    case And(l, r) => Eval(l, row) && Eval(r, row)
    case Or(l, r) => Eval(l, row) || Eval(r, row)
    case Compare(column, op, value) =>
      var cell := Column(row, column);
      && cell.Some?
      && ((op in {"=", ">=", "<="} && cell.value == value)
          || (op in {"<", "<="} && CellLess(cell.value, value))
          || (op in {">", ">="} && CellLess(value, cell.value)))
  }

  // Whether a where clause keeps a row; None when it is malformed. No clause keeps every row.
  function Keeps(where: string, row: MemoryItem): Option<bool> {
    if where == "" then Some(true)
    else
      var tokens := Lex(where);
      if tokens.None? then None
      else
        var parsed := ParseOr(tokens.value);
        if parsed.None? || parsed.value.rest != [] then None else Some(Eval(parsed.value.expr, row))
  }

  // ----- Printing -----

  function DoubleAll(s: string, c: char): string {
    if s == "" then "" else (if s[0] == c then [c, c] else [s[0]]) + DoubleAll(s[1..], c)
  }

  function Escaped(v: string): string { DoubleAll(DoubleAll(v, '\\'), '\'') }

  function Quote(v: string): string { "'" + Escaped(v) + "'" }

  lemma EscapedStep(v: string)
    requires v != ""
    ensures Escaped(v) ==
      (if v[0] == '\\' then ['\\', '\\'] else if v[0] == '\'' then ['\'', '\''] else [v[0]]) + Escaped(v[1..])
  {
    var inner := DoubleAll(v[1..], '\\');
    if v[0] == '\\' {
      var all := ['\\', '\\'] + inner;
      assert DoubleAll(v, '\\') == all;
      assert all[1..] == ['\\'] + inner;
      assert (['\\'] + inner)[1..] == inner;
      assert DoubleAll(all, '\'') == ['\\'] + DoubleAll(['\\'] + inner, '\'');
      assert DoubleAll(['\\'] + inner, '\'') == ['\\'] + DoubleAll(inner, '\'');
    } else {
      var all := [v[0]] + inner;
      assert DoubleAll(v, '\\') == all;
      assert all[1..] == inner;
    }
  }

  predicate NoQuoteNext(rest: string) { rest == "" || rest[0] != '\'' }

  lemma ScanStep(c: char, tail: string, escapes: bool)
    ensures c != '\'' && !(c == '\\' && escapes) ==>
      ScanLiteral([c] + tail, escapes) == Grown(c, ScanLiteral(tail, escapes))
    ensures c == '\'' || (c == '\\' && escapes) ==>
      ScanLiteral([c, c] + tail, escapes) == Grown(c, ScanLiteral(tail, escapes))
  {
    assert ([c] + tail)[1..] == tail && ([c, c] + tail)[2..] == tail;
  }

  lemma ScanEnd(rest: string, escapes: bool)
    requires NoQuoteNext(rest)
    ensures ScanLiteral("'" + rest, escapes) == Some(Scanned("", rest))
  {
    assert ("'" + rest)[1..] == rest;
  }

  // A literal's body and what follows it, one rune of the value at a time.
  lemma BodyStep(v: string, rest: string)
    ensures v == "" ==> Escaped(v) + "'" + rest == "'" + rest
    ensures v != "" ==>
      v == [v[0]] + v[1..] &&
      var tail := Escaped(v[1..]) + "'" + rest;
      Escaped(v) + "'" + rest == (if v[0] == '\\' || v[0] == '\'' then [v[0], v[0]] + tail else [v[0]] + tail)
  {
    if v != "" { EscapedStep(v); }
    hide Escaped;
  }

  // A printed literal scans back as its value, whatever the value contains.
  lemma {:induction false} QuoteRoundTrip(v: string, rest: string)
    requires NoQuoteNext(rest)
    ensures ScanLiteral(Escaped(v) + "'" + rest, true) == Some(Scanned(v, rest))
  {
    hide ScanLiteral, Escaped;
    BodyStep(v, rest);
    if v == "" {
      ScanEnd(rest, true);
    } else {
      QuoteRoundTrip(v[1..], rest);
      ScanStep(v[0], Escaped(v[1..]) + "'" + rest, true);
    }
  }

  // Without backslash escapes the literal would mean its value only when the value holds
  // no backslash.
  lemma {:induction false} PlainQuoteIff(v: string, rest: string)
    requires NoQuoteNext(rest)
    ensures var r := ScanLiteral(Escaped(v) + "'" + rest, false);
      r.Some? && r.value.rest == rest && |r.value.text| >= |v| && (r.value.text == v <==> '\\' !in v)
      && (|r.value.text| == |v| ==> '\\' !in v)
  {
    hide ScanLiteral, Escaped;
    BodyStep(v, rest);
    if v == "" {
      ScanEnd(rest, false);
    } else {
      var tail := Escaped(v[1..]) + "'" + rest;
      PlainQuoteIff(v[1..], rest);
      ScanStep(v[0], tail, false);
      if v[0] == '\\' {
        assert [v[0], v[0]] + tail == [v[0]] + ([v[0]] + tail);
        ScanStep(v[0], [v[0]] + tail, false);
      }
    }
  }

  lemma {:induction false} ItoaDigits(n: nat)
    ensures var s := Itoa(n);
      (forall i | 0 <= i < |s| :: IsDigit(s[i])) && Decimal(s) == n
  {
    if n >= 10 {
      ItoaDigits(n / 10);
      assert Itoa(n)[..|Itoa(n)| - 1] == Itoa(n / 10);
    } else {
      assert Itoa(n)[..0] == "";
    }
  }
}
