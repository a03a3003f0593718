// How printed pieces of a where clause read back, token by token.
module SqlReading {
  import opened Wrappers
  import opened Text
  import opened Records
  import opened ChunkIds
  import opened Sql

  // A piece of printed text, the tokens it reads as and the condition those stand for.
  datatype Piece = Piece(sql: string, tokens: seq<Token>, expr: Expr)

  // What may follow a piece.
  predicate Boundary(rest: string) { rest == "" || rest[0] == ' ' || rest[0] == ')' }

  ghost predicate LexesAs(sql: string, tokens: seq<Token>) {
    forall rest: string | Boundary(rest) :: Lex(sql + rest) == Prepend(tokens, Lex(rest))
  }

  ghost predicate ParsesAs(tokens: seq<Token>, expr: Expr) {
    forall rest: seq<Token> :: ParsePrimary(tokens + rest) == Some(Parsed(expr, rest))
  }

  // A primary condition: it reads the same whatever follows.
  ghost predicate Reads(p: Piece) {
    p.sql != "" && p.sql[0] != '=' && LexesAs(p.sql, p.tokens) && ParsesAs(p.tokens, p.expr)
  }

  lemma PrependTwice(a: seq<Token>, b: seq<Token>, r: Option<seq<Token>>)
    ensures Prepend(a, Prepend(b, r)) == Prepend(a + b, r)
  {
    if r.Some? { assert a + (b + r.value) == (a + b) + r.value; }
  }

  lemma LexSpace(rest: string)
    ensures Lex(" " + rest) == Lex(rest)
  {
    assert (" " + rest)[1..] == rest;
  }

  lemma LexSym(c: char, rest: string)
    requires c in {'(', ')', '=', '<', '>'} && (rest == "" || rest[0] != '=')
    ensures Lex([c] + rest) == Prepend([Sym([c])], Lex(rest))
  {
    var s := [c] + rest;
    assert s[1..] == rest && s[..1] == [c];
  }

  lemma LexSymEqual(c: char, rest: string)
    requires c in {'<', '>'}
    ensures Lex([c, '='] + rest) == Prepend([Sym([c, '='])], Lex(rest))
  {
    var s := [c, '='] + rest;
    assert s[2..] == rest && s[..2] == [c, '='];
  }

  lemma {:induction false} WordRunOf(w: string, rest: string)
    requires forall i | 0 <= i < |w| :: WordChar(w[i])
    requires rest == "" || !WordChar(rest[0])
    ensures WordRun(w + rest) == |w|
  {
    if w == "" {
      assert w + rest == rest;
    } else {
      assert (w + rest)[1..] == w[1..] + rest;
      WordRunOf(w[1..], rest);
    }
  }

  lemma {:induction false} DigitRunOf(w: string, rest: string)
    requires forall i | 0 <= i < |w| :: IsDigit(w[i])
    requires rest == "" || !IsDigit(rest[0])
    ensures DigitRun(w + rest) == |w|
  {
    if w == "" {
      assert w + rest == rest;
    } else {
      assert (w + rest)[1..] == w[1..] + rest;
      DigitRunOf(w[1..], rest);
    }
  }

  lemma LexWord(w: string, rest: string)
    requires w != "" && forall i | 0 <= i < |w| :: WordChar(w[i])
    requires rest == "" || !WordChar(rest[0])
    ensures Lex(w + rest) == Prepend([Word(w)], Lex(rest))
  {
    WordRunOf(w, rest);
    var s := w + rest;
    assert s[0] == w[0];
    assert s[..|w|] == w && s[|w|..] == rest;
    hide WordRun;
  }

  lemma LexNumber(n: nat, rest: string)
    requires rest == "" || !IsDigit(rest[0])
    ensures Lex(Itoa(n) + rest) == Prepend([Number(n)], Lex(rest))
  {
    var w := Itoa(n);
    ItoaDigits(n);
    DigitRunOf(w, rest);
    var s := w + rest;
    assert s[0] == w[0] && IsDigit(w[0]);
    assert s[..|w|] == w && s[|w|..] == rest;
    hide DigitRun, Itoa, Decimal;
  }

  lemma LexQuote(v: string, rest: string)
    requires NoQuoteNext(rest)
    ensures Lex(Quote(v) + rest) == Prepend([Literal(v)], Lex(rest))
  {
    var s := Quote(v) + rest;
    assert s == ['\''] + (Escaped(v) + "'" + rest);
    assert s[1..] == Escaped(v) + "'" + rest;
    QuoteRoundTrip(v, rest);
    hide Escaped, ScanLiteral;
  }

  function LiteralText(t: Token): string {
    match t
    case Literal(v) => Quote(v)
    case Number(n) => Itoa(n)
    case _ => ""
  }

  function CellOf(t: Token): Cell {
    match t
    case Number(n) => Int(n)
    case Literal(v) => Chars(v)
    case _ => Chars("")
  }

  predicate IsOp(op: string) { op in {"=", ">", "<", ">="} }

  function Clause(column: string, op: string, t: Token): string { column + " " + op + " " + LiteralText(t) }

  lemma LexLiteral(t: Token, rest: string)
    requires (t.Literal? || t.Number?) && Boundary(rest)
    ensures Lex(LiteralText(t) + rest) == Prepend([t], Lex(rest))
  {
    if t.Literal? { LexQuote(t.text, rest); } else { LexNumber(t.n, rest); }
  }

  lemma LexOp(op: string, rest: string)
    requires IsOp(op) && rest != "" && rest[0] == ' '
    ensures Lex(op + rest) == Prepend([Sym(op)], Lex(rest))
  {
    if op == ">=" { LexSymEqual('>', rest); } else { LexSym(op[0], rest); }
  }

  predicate ColumnName(w: string) {
    w != "" && w !in {"AND", "OR"} && forall i | 0 <= i < |w| :: WordChar(w[i])
  }

  function ClausePiece(column: string, op: string, t: Token): Piece {
    Piece(Clause(column, op, t), [Word(column), Sym(op), t], Compare(column, op, CellOf(t)))
  }

  lemma LexClause(column: string, op: string, t: Token, rest: string)
    requires ColumnName(column) && IsOp(op) && (t.Literal? || t.Number?) && Boundary(rest)
    ensures Lex(Clause(column, op, t) + rest) == Prepend([Word(column), Sym(op), t], Lex(rest))
  {
    hide Lex, Quote, Itoa;
    var end := Lex(rest);
    var l3 := LiteralText(t) + rest;
    var l2 := op + (" " + l3);
    LexLiteral(t, rest);
    LexSpace(l3);
    LexOp(op, " " + l3);
    PrependTwice([Sym(op)], [t], end);
    LexSpace(l2);
    LexWord(column, " " + l2);
    PrependTwice([Word(column)], [Sym(op), t], end);
    assert Clause(column, op, t) + rest == column + (" " + l2);
    assert [Word(column)] + [Sym(op), t] == [Word(column), Sym(op), t];
    assert [Sym(op)] + [t] == [Sym(op), t];
  }

  lemma ClauseReads(column: string, op: string, t: Token)
    requires ColumnName(column) && IsOp(op) && (t.Literal? || t.Number?)
    ensures Reads(ClausePiece(column, op, t))
  {
    var p := ClausePiece(column, op, t);
    forall rest: string | Boundary(rest)
      ensures Lex(p.sql + rest) == Prepend(p.tokens, Lex(rest))
    {
      LexClause(column, op, t, rest);
    }
    forall rest: seq<Token>
      ensures ParsePrimary(p.tokens + rest) == Some(Parsed(p.expr, rest))
    {
      var ts := p.tokens + rest;
      assert ts[0] == Word(column) && ts[1] == Sym(op) && ts[2] == t && ts[3..] == rest;
    }
    hide Lex, ParsePrimary;
    assert p.sql[0] == column[0];
  }

  function Sqls(ps: seq<Piece>): seq<string> { if ps == [] then [] else [ps[0].sql] + Sqls(ps[1..]) }

  function Joined(ps: seq<Piece>): string { Join(Sqls(ps), " AND ") }

  function ChainTokens(ps: seq<Piece>): seq<Token>
    requires ps != []
  {
    if |ps| == 1 then ps[0].tokens else ps[0].tokens + [Word("AND")] + ChainTokens(ps[1..])
  }

  function ChainExpr(ps: seq<Piece>): Expr
    requires ps != []
  {
    if |ps| == 1 then ps[0].expr else And(ps[0].expr, ChainExpr(ps[1..]))
  }

  ghost predicate AllRead(ps: seq<Piece>) { forall i | 0 <= i < |ps| :: Reads(ps[i]) }

  lemma {:induction false} ChainEval(ps: seq<Piece>, row: MemoryItem)
    requires ps != []
    ensures Eval(ChainExpr(ps), row) <==> forall i | 0 <= i < |ps| :: Eval(ps[i].expr, row)
  {
    if |ps| > 1 {
      ChainEval(ps[1..], row);
      assert forall i | 1 <= i < |ps| :: ps[i] == ps[1..][i - 1];
      assert forall i | 0 <= i < |ps| - 1 :: ps[1..][i] == ps[i + 1];
    }
  }

  lemma JoinedStep(ps: seq<Piece>)
    requires ps != []
    ensures Joined(ps) == if |ps| == 1 then ps[0].sql else ps[0].sql + " AND " + Joined(ps[1..])
  {
    assert Sqls(ps)[1..] == Sqls(ps[1..]);
    assert |Sqls(ps[1..])| == 0 <==> |ps| == 1;
  }

  lemma LexAnd(rest: string)
    ensures Lex(" AND " + rest) == Prepend([Word("AND")], Lex(rest))
  {
    assert " AND " + rest == " " + ("AND" + (" " + rest));
    LexSpace(rest);
    LexWord("AND", " " + rest);
    LexSpace("AND" + (" " + rest));
  }

  lemma LexThen(p: Piece, glue: string, glueTokens: seq<Token>, sql: string, tokens: seq<Token>, rest: string)
    requires Reads(p) && glue != "" && glue[0] == ' '
    requires Lex(sql + rest) == Prepend(tokens, Lex(rest))
    requires Lex(glue + (sql + rest)) == Prepend(glueTokens, Lex(sql + rest))
    ensures Lex(p.sql + glue + sql + rest) == Prepend(p.tokens + glueTokens + tokens, Lex(rest))
  {
    hide Lex, ParsesAs;
    var tail := glue + (sql + rest);
    assert Lex(p.sql + tail) == Prepend(p.tokens, Lex(tail));
    PrependTwice(glueTokens, tokens, Lex(rest));
    PrependTwice(p.tokens, glueTokens + tokens, Lex(rest));
    assert p.tokens + (glueTokens + tokens) == p.tokens + glueTokens + tokens;
    assert p.sql + glue + sql + rest == p.sql + tail;
  }

  lemma {:induction false} LexJoined(ps: seq<Piece>, rest: string)
    requires ps != [] && AllRead(ps) && Boundary(rest)
    ensures Lex(Joined(ps) + rest) == Prepend(ChainTokens(ps), Lex(rest))
  {
    hide Lex, Joined, LexesAs;
    JoinedStep(ps);
    if |ps| == 1 {
      LexPiece(ps[0], rest);
    } else {
      LexJoined(ps[1..], rest);
      LexAnd(Joined(ps[1..]) + rest);
      LexThen(ps[0], " AND ", [Word("AND")], Joined(ps[1..]), ChainTokens(ps[1..]), rest);
    }
  }

  lemma LexPiece(p: Piece, rest: string)
    requires Reads(p) && Boundary(rest)
    ensures Lex(p.sql + rest) == Prepend(p.tokens, Lex(rest))
  {
    hide Lex, ParsesAs;
  }

  lemma {:induction false} ParseChain(ps: seq<Piece>, rest: seq<Token>)
    requires ps != [] && AllRead(ps) && !Next(rest, Word("AND"))
    ensures ParseAnd(ChainTokens(ps) + rest) == Some(Parsed(ChainExpr(ps), rest))
  {
    hide ParsePrimary, Lex;
    var p := ps[0];
    assert Reads(p);
    if |ps| > 1 {
      ParseChain(ps[1..], rest);
      var tail := [Word("AND")] + (ChainTokens(ps[1..]) + rest);
      assert ChainTokens(ps) + rest == p.tokens + tail;
      assert ParsePrimary(p.tokens + tail) == Some(Parsed(p.expr, tail));
      assert tail[1..] == ChainTokens(ps[1..]) + rest;
    } else {
      assert ParsePrimary(p.tokens + rest) == Some(Parsed(p.expr, rest));
    }
  }

  // A text in parentheses, once its inside is known to lex and parse.
  function GroupPiece(sql: string, tokens: seq<Token>, expr: Expr): Piece {
    Piece("(" + sql + ")", [Sym("(")] + tokens + [Sym(")")], expr)
  }

  lemma GroupReads(sql: string, tokens: seq<Token>, expr: Expr)
    requires LexesAs(sql, tokens) && sql != "" && sql[0] != '='
    requires forall rest: seq<Token> | Next(rest, Sym(")")) :: ParseOr(tokens + rest) == Some(Parsed(expr, rest))
    ensures Reads(GroupPiece(sql, tokens, expr))
  {
    hide Lex;
    var p := GroupPiece(sql, tokens, expr);
    forall rest: string | Boundary(rest)
      ensures Lex(p.sql + rest) == Prepend(p.tokens, Lex(rest))
    {
      var inner := sql + (")" + rest);
      assert p.sql + rest == ['('] + inner;
      LexSym('(', inner);
      assert Lex(sql + (")" + rest)) == Prepend(tokens, Lex(")" + rest));
      LexSym(')', rest);
      PrependTwice(tokens, [Sym(")")], Lex(rest));
      PrependTwice([Sym("(")], tokens + [Sym(")")], Lex(rest));
      assert [Sym("(")] + (tokens + [Sym(")")]) == p.tokens;
    }
    forall rest: seq<Token>
      ensures ParsePrimary(p.tokens + rest) == Some(Parsed(p.expr, rest))
    {
      var after := [Sym(")")] + rest;
      assert (p.tokens + rest)[0] == Sym("(") && (p.tokens + rest)[1..] == tokens + after;
      assert ParseOr(tokens + after) == Some(Parsed(expr, after));
      assert after[1..] == rest;
      hide ParseOr;
    }
  }

  // Pieces joined by AND, in parentheses.
  function AndPiece(ps: seq<Piece>): Piece
    requires ps != []
  {
    GroupPiece(Joined(ps), ChainTokens(ps), ChainExpr(ps))
  }

  lemma AndReads(ps: seq<Piece>)
    requires ps != [] && AllRead(ps)
    ensures Reads(AndPiece(ps))
  {
    JoinedStep(ps);
    assert Reads(ps[0]);
    forall rest: string | Boundary(rest)
      ensures Lex(Joined(ps) + rest) == Prepend(ChainTokens(ps), Lex(rest))
    {
      LexJoined(ps, rest);
    }
    forall rest: seq<Token> | Next(rest, Sym(")"))
      ensures ParseOr(ChainTokens(ps) + rest) == Some(Parsed(ChainExpr(ps), rest))
    {
      ParseChain(ps, rest);
    }
    hide Lex, ParseOr;
    GroupReads(Joined(ps), ChainTokens(ps), ChainExpr(ps));
  }

  // Two pieces joined by OR, in parentheses.
  function OrPiece(p: Piece, q: Piece): Piece {
    GroupPiece(p.sql + " OR " + q.sql, p.tokens + [Word("OR")] + q.tokens, Or(p.expr, q.expr))
  }

  lemma LexOr(rest: string)
    ensures Lex(" OR " + rest) == Prepend([Word("OR")], Lex(rest))
  {
    assert " OR " + rest == " " + ("OR" + (" " + rest));
    LexSpace(rest);
    LexWord("OR", " " + rest);
    LexSpace("OR" + (" " + rest));
  }

  lemma ParseSingle(p: Piece, rest: seq<Token>)
    requires Reads(p) && !Next(rest, Word("AND"))
    ensures ParseAnd(p.tokens + rest) == Some(Parsed(p.expr, rest))
  {
    hide ParsePrimary, Lex;
    assert ParsePrimary(p.tokens + rest) == Some(Parsed(p.expr, rest));
  }

  lemma LexOrPair(p: Piece, q: Piece, rest: string)
    requires Reads(p) && Reads(q) && Boundary(rest)
    ensures Lex(p.sql + " OR " + q.sql + rest) == Prepend(p.tokens + [Word("OR")] + q.tokens, Lex(rest))
  {
    hide Lex, LexesAs, ParsesAs;
    LexPiece(q, rest);
    LexOr(q.sql + rest);
    LexThen(p, " OR ", [Word("OR")], q.sql, q.tokens, rest);
  }

  lemma OrStep(ts: seq<Token>, left: Expr, right: Expr, after: seq<Token>, rest: seq<Token>)
    requires ParseAnd(ts) == Some(Parsed(left, after)) && Next(after, Word("OR"))
    requires ParseAnd(after[1..]) == Some(Parsed(right, rest)) && !Next(rest, Word("OR"))
    ensures ParseOr(ts) == Some(Parsed(Or(left, right), rest))
  {
    hide ParseAnd;
  }

  lemma Regroup(a: seq<Token>, t: Token, b: seq<Token>, rest: seq<Token>)
    ensures a + [t] + b + rest == a + ([t] + (b + rest)) && ([t] + (b + rest))[1..] == b + rest
  {
    assert a + [t] + b + rest == a + ([t] + (b + rest));
  }

  lemma ParseOrPair(p: Piece, q: Piece, rest: seq<Token>)
    requires Reads(p) && Reads(q) && Next(rest, Sym(")"))
    ensures ParseOr(p.tokens + [Word("OR")] + q.tokens + rest) == Some(Parsed(Or(p.expr, q.expr), rest))
  {
    hide Reads, ParseAnd, ParseOr, ParsePrimary;
    var after := [Word("OR")] + (q.tokens + rest);
    ParseSingle(p, after);
    ParseSingle(q, rest);
    Regroup(p.tokens, Word("OR"), q.tokens, rest);
    OrStep(p.tokens + after, p.expr, q.expr, after, rest);
  }

  lemma OrReads(p: Piece, q: Piece)
    requires Reads(p) && Reads(q)
    ensures Reads(OrPiece(p, q))
  {
    var sql, tokens := p.sql + " OR " + q.sql, p.tokens + [Word("OR")] + q.tokens;
    forall rest: string | Boundary(rest)
      ensures Lex(sql + rest) == Prepend(tokens, Lex(rest))
    {
      LexOrPair(p, q, rest);
    }
    forall rest: seq<Token> | Next(rest, Sym(")"))
      ensures ParseOr(tokens + rest) == Some(Parsed(Or(p.expr, q.expr), rest))
    {
      ParseOrPair(p, q, rest);
    }
    hide Lex, ParseOr;
    GroupReads(sql, tokens, Or(p.expr, q.expr));
  }

  // A whole where clause of pieces joined by AND keeps the rows that all of them keep.
  lemma JoinedKeeps(ps: seq<Piece>, row: MemoryItem)
    requires ps != [] && AllRead(ps)
    ensures Keeps(Joined(ps), row) == Some(forall i | 0 <= i < |ps| :: Eval(ps[i].expr, row))
  {
    LexJoined(ps, "");
    ParseChain(ps, []);
    ChainEval(ps, row);
    JoinedStep(ps);
    assert Reads(ps[0]);
    assert Joined(ps) + "" == Joined(ps);
    assert Lex("") == Some([]);
    assert ChainTokens(ps) + [] == ChainTokens(ps);
    hide Lex, ParseAnd, Eval, Reads;
  }
}
