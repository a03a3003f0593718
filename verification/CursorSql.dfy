// Page cursors as SQL and as a predicate, and the whole where clause of a search
// (lance_sql.go, mem.go and lance.go).
module CursorSql {
  import opened Wrappers
  import opened Text
  import opened Ordering
  import opened Records
  import opened ChunkIds
  import opened Sql
  import opened SqlReading
  import opened FilterSql

  // Rows after the cursor: by id alone without a timestamp, else by timestamp and then id.
  predicate AfterCursor(ts: int, id: string, afterTs: int, afterId: string) {
    if afterTs <= 0 && afterId == "" then true
    else if afterTs <= 0 then StringLess(afterId, id)
    else ts > afterTs || (ts == afterTs && StringLess(afterId, id))
  }

  function Paren(s: string): string { "(" + s + ")" }

  function CursorText(afterTs: int, afterId: string): string {
    if afterTs <= 0 && afterId == "" then ""
    else if afterTs <= 0 then Clause("id", ">", Literal(afterId))
    else if afterId == "" then Clause("timestamp", ">=", Number(afterTs))
    else
      Paren(Clause("timestamp", ">", Number(afterTs)) + " OR "
            + Paren(Clause("timestamp", "=", Number(afterTs)) + " AND " + Clause("id", ">", Literal(afterId))))
  }

  function BeforeText(beforeTs: int): string {
    if beforeTs <= 0 then "" else Clause("timestamp", "<", Number(beforeTs))
  }

  predicate Before(ts: int, beforeTs: int) { beforeTs > 0 ==> ts < beforeTs }

  function NonEmpty(parts: seq<string>): seq<string> {
    if parts == [] then []
    else NonEmpty(parts[..|parts| - 1]) + (if parts[|parts| - 1] != "" then [parts[|parts| - 1]] else [])
  }

  method LanceCombineSql(parts: seq<string>) returns (sql: string)
    ensures sql == Join(NonEmpty(parts), " AND ")
  {
    var nonempty: seq<string> := [];
    for i := 0 to |parts|
      invariant nonempty == NonEmpty(parts[..i])
    {
      assert parts[..i + 1][..i] == parts[..i];
      if parts[i] != "" { nonempty := nonempty + [parts[i]]; }
    }
    assert parts[..|parts|] == parts;
    sql := Join(nonempty, " AND ");
  }

  lemma TimeAndId()
    ensures ColumnName("id") && ColumnName("timestamp")
  {
  }

  // The pieces a cursor prints as: none or one.
  function CursorPieces(afterTs: int, afterId: string): seq<Piece> {
    if afterTs <= 0 && afterId == "" then []
    else if afterTs <= 0 then [ClausePiece("id", ">", Literal(afterId))]
    else if afterId == "" then [ClausePiece("timestamp", ">=", Number(afterTs))]
    else [OrPiece(ClausePiece("timestamp", ">", Number(afterTs)),
                  AndPiece([ClausePiece("timestamp", "=", Number(afterTs)), ClausePiece("id", ">", Literal(afterId))]))]
  }

  lemma PairReads(p: Piece, q: Piece)
    requires Reads(p) && Reads(q)
    ensures Reads(AndPiece([p, q])) && AndPiece([p, q]).sql == Paren(p.sql + " AND " + q.sql)
    ensures AndPiece([p, q]).expr == And(p.expr, q.expr)
  {
    hide Reads;
    assert AllRead([p, q]);
    AndReads([p, q]);
    JoinedStep([p, q]);
    assert [p, q][1..] == [q];
    JoinedStep([q]);
    PairExpr(p, q);
  }

  lemma PairExpr(p: Piece, q: Piece)
    ensures ChainExpr([p, q]) == And(p.expr, q.expr)
  {
    assert [p, q][1..] == [q];
    assert ChainExpr([q]) == q.expr;
  }

  lemma SinglePiece(p: Piece, row: MemoryItem)
    ensures Sqls([p]) == [p.sql] && (AllRead([p]) <==> Reads(p)) && (AllEval(row, [p]) <==> Eval(p.expr, row))
  {
    hide Reads, Eval;
    assert [p][1..] == [] && [p][0] == p;
    assert Sqls([p]) == [p.sql] + Sqls([]);
  }

  lemma SingleText(s: string)
    ensures NonEmpty([s]) == if s == "" then [] else [s]
  {
    assert [s][..0] == [];
  }

  lemma CursorReads(afterTs: int, afterId: string)
    requires !(afterTs <= 0 && afterId == "")
    ensures var ps := CursorPieces(afterTs, afterId);
      |ps| == 1 && Reads(ps[0]) && ps[0].sql == CursorText(afterTs, afterId) && CursorText(afterTs, afterId) != ""
  {
    hide Reads;
    TimeAndId();
    if afterTs <= 0 {
      ClauseReads("id", ">", Literal(afterId));
    } else if afterId == "" {
      ClauseReads("timestamp", ">=", Number(afterTs));
    } else {
      var later, same, next :=
        ClausePiece("timestamp", ">", Number(afterTs)), ClausePiece("timestamp", "=", Number(afterTs)),
        ClausePiece("id", ">", Literal(afterId));
      ClauseReads("timestamp", ">", Number(afterTs));
      ClauseReads("timestamp", "=", Number(afterTs));
      ClauseReads("id", ">", Literal(afterId));
      hide Clause;
      PairReads(same, next);
      hide AndPiece;
      OrReads(later, AndPiece([same, next]));
    }
  }

  lemma CursorEval(afterTs: int, afterId: string, row: MemoryItem)
    requires !(afterTs <= 0 && afterId == "")
    ensures Eval(CursorPieces(afterTs, afterId)[0].expr, row) <==>
      AfterCursor(row.metadata.timestamp, row.id, afterTs, afterId)
      || (afterTs > 0 && afterId == "" && row.metadata.timestamp == afterTs && row.id == "")
  {
    if afterTs > 0 && afterId != "" {
      var later, same, next :=
        ClausePiece("timestamp", ">", Number(afterTs)), ClausePiece("timestamp", "=", Number(afterTs)),
        ClausePiece("id", ">", Literal(afterId));
      PairExpr(same, next);
      TimeEval(afterTs, row);
      IdEval(afterId, row);
      hide StringLess, Column, CellLess, Clause;
      OrEval(later, same, next, row);
    } else if afterTs > 0 {
      TimeEval(afterTs, row);
      assert StringLess("", row.id) <==> row.id != "";
    } else {
      IdEval(afterId, row);
    }
  }

  lemma TimeEval(n: nat, row: MemoryItem)
    ensures var ts := row.metadata.timestamp;
      && (Eval(Compare("timestamp", ">", Int(n)), row) <==> ts > n)
      && (Eval(Compare("timestamp", ">=", Int(n)), row) <==> ts >= n)
      && (Eval(Compare("timestamp", "=", Int(n)), row) <==> ts == n)
  {
  }

  lemma IdEval(id: string, row: MemoryItem)
    ensures Eval(Compare("id", ">", Chars(id)), row) <==> StringLess(id, row.id)
  {
  }

  lemma OrEval(later: Piece, same: Piece, next: Piece, row: MemoryItem)
    ensures ChainExpr([same, next]) == And(same.expr, next.expr)
    ensures Eval(OrPiece(later, AndPiece([same, next])).expr, row) <==>
      Eval(later.expr, row) || (Eval(same.expr, row) && Eval(next.expr, row))
  {
    PairExpr(same, next);
    var both := And(same.expr, next.expr);
    assert OrPiece(later, AndPiece([same, next])).expr == Or(later.expr, both);
    assert Eval(both, row) <==> Eval(same.expr, row) && Eval(next.expr, row);
  }

  lemma CursorStands(afterTs: int, afterId: string, row: MemoryItem)
    ensures var ps := CursorPieces(afterTs, afterId);
      && AllRead(ps) && Sqls(ps) == NonEmpty([CursorText(afterTs, afterId)])
      && (AllEval(row, ps) <==>
          AfterCursor(row.metadata.timestamp, row.id, afterTs, afterId)
          || (afterTs > 0 && afterId == "" && row.metadata.timestamp == afterTs && row.id == ""))
  {
    SingleText(CursorText(afterTs, afterId));
    if !(afterTs <= 0 && afterId == "") {
      CursorReads(afterTs, afterId);
      CursorEval(afterTs, afterId, row);
      var ps := CursorPieces(afterTs, afterId);
      hide CursorPieces, CursorText, NonEmpty, Reads, Eval, AfterCursor;
      SinglePiece(ps[0], row);
      assert ps == [ps[0]];
    }
  }

  lemma CursorNotEmpty(afterTs: int, afterId: string)
    ensures CursorText(afterTs, afterId) == "" <==> afterTs <= 0 && afterId == ""
  {
    if !(afterTs <= 0 && afterId == "") { CursorReads(afterTs, afterId); }
  }

  // A cursor's SQL keeps what the predicate keeps, except that a cursor without an id also
  // keeps a row of that very second without an id.
  lemma CursorAgreesIff(afterTs: int, afterId: string, row: MemoryItem)
    ensures
      (Keeps(CursorText(afterTs, afterId), row) == Some(AfterCursor(row.metadata.timestamp, row.id, afterTs, afterId)))
      <==> !(afterTs > 0 && afterId == "" && row.metadata.timestamp == afterTs && row.id == "")
  {
    var ps := CursorPieces(afterTs, afterId);
    CursorStands(afterTs, afterId, row);
    SingleText(CursorText(afterTs, afterId));
    assert AfterCursor(row.metadata.timestamp, row.id, 0, "");
    hide Reads, Eval, AfterCursor, CursorPieces;
    if CursorText(afterTs, afterId) == "" {
      assert afterTs <= 0 && afterId == "" by { CursorNotEmpty(afterTs, afterId); }
    } else {
      hide CursorText;
      JoinedKeeps(ps, row);
      assert Joined(ps) == CursorText(afterTs, afterId);
    }
  }

  function BeforePieces(beforeTs: int): seq<Piece> {
    if beforeTs <= 0 then [] else [ClausePiece("timestamp", "<", Number(beforeTs))]
  }

  lemma BeforeReads(beforeTs: int, row: MemoryItem)
    ensures var ps := BeforePieces(beforeTs);
      && AllRead(ps) && Sqls(ps) == NonEmpty([BeforeText(beforeTs)])
      && (AllEval(row, ps) <==> Before(row.metadata.timestamp, beforeTs))
  {
    TimeAndId();
    SingleText(BeforeText(beforeTs));
    if beforeTs > 0 {
      ClauseReads("timestamp", "<", Number(beforeTs));
      SinglePiece(BeforePieces(beforeTs)[0], row);
    }
    hide Reads;
  }

  lemma FilterReads(f: Option<Filter>, row: MemoryItem) returns (ps: seq<Piece>)
    requires f.Some? ==> Plain(f.value)
    ensures AllRead(ps) && Sqls(ps) == NonEmpty([Text0(f)]) && (AllEval(row, ps) <==> Matches(row, f))
  {
    ps := [];
    SingleText(Text0(f));
    if f.Some? {
      var p := FilterStands(f.value);
      hide Reads, MemMatch, FilterText, Eval;
      if p.Some? {
        ps := [p.value];
        SinglePiece(p.value, row);
      }
    }
  }

  lemma {:induction false} SqlsConcat(a: seq<Piece>, b: seq<Piece>)
    ensures Sqls(a + b) == Sqls(a) + Sqls(b)
  {
    if a == [] {
      assert a + b == b;
    } else {
      assert (a + b)[1..] == a[1..] + b;
      SqlsConcat(a[1..], b);
    }
  }

  lemma ConcatReads(a: seq<Piece>, b: seq<Piece>, row: MemoryItem)
    requires AllRead(a) && AllRead(b)
    ensures AllRead(a + b) && Sqls(a + b) == Sqls(a) + Sqls(b)
    ensures AllEval(row, a + b) <==> AllEval(row, a) && AllEval(row, b)
  {
    hide Reads, Eval;
    SqlsConcat(a, b);
    var all := a + b;
    assert forall i | 0 <= i < |a| :: all[i] == a[i];
    assert forall i | 0 <= i < |b| :: all[|a| + i] == b[i];
  }

  lemma NonEmptyThree(a: string, b: string, c: string)
    ensures NonEmpty([a, b, c]) == NonEmpty([a]) + NonEmpty([b]) + NonEmpty([c])
  {
    assert [a, b, c][..2] == [a, b] && [a, b][..1] == [a] && [a][..0] == [] && [b][..0] == [] && [c][..0] == [];
  }

  function WhereText(f: Option<Filter>, afterTs: int, afterId: string, beforeTs: int): string {
    Join(NonEmpty([Text0(f), CursorText(afterTs, afterId), BeforeText(beforeTs)]), " AND ")
  }

  // The where clause of a search keeps a row exactly when the in-memory search does.
  lemma WhereMeansSearch(f: Option<Filter>, afterTs: int, afterId: string, beforeTs: int, row: MemoryItem)
    requires f.Some? ==> Plain(f.value)
    requires row.id != ""
    ensures Keeps(WhereText(f, afterTs, afterId, beforeTs), row) ==
      Some(Matches(row, f) && AfterCursor(row.metadata.timestamp, row.id, afterTs, afterId)
           && Before(row.metadata.timestamp, beforeTs))
  {
    hide Reads, Eval, Matches, AfterCursor, Before;
    var fs := FilterReads(f, row);
    var cs, bs := CursorPieces(afterTs, afterId), BeforePieces(beforeTs);
    CursorStands(afterTs, afterId, row);
    BeforeReads(beforeTs, row);
    hide CursorPieces, BeforePieces;
    ConcatReads(fs, cs, row);
    ConcatReads(fs + cs, bs, row);
    NonEmptyThree(Text0(f), CursorText(afterTs, afterId), BeforeText(beforeTs));
    var ps := fs + cs + bs;
    hide CursorText, BeforeText, Text0, NonEmpty;
    assert Joined(ps) == WhereText(f, afterTs, afterId, beforeTs);
    if ps == [] {
      assert Joined(ps) == "";
    } else {
      JoinedKeeps(ps, row);
    }
  }
}
