// Filters, their printed SQL and what they match (lance_sql.go, mem.go and main.go).
module FilterSql {
  import opened Wrappers
  import opened Text
  import opened Ordering
  import opened Records
  import opened ChunkIds
  import opened Sql
  import opened SqlReading

  // A comparison value: absent, a string, or another value, which prints as some text.
  datatype Value = Missing | Str(text: string) | Other(printed: string)

  datatype Comparison = Comparison(field: string, value: Value)

  // The list of parts may be missing or present, and a present one may be empty.
  datatype Filter = NoParts(eq: Option<Comparison>) | WithParts(eq: Option<Comparison>, and: seq<Filter>)

  const FIELDS: set<string> :=
    {"source", "host", "container_id", "container_kind", "project", "author_id", "kind", "message_id"}

  function Printed(v: Value): string {
    match v case Missing => "<nil>" case Str(t) => t case Other(p) => p
  }

  predicate Blank(f: Filter) { f.eq.None? || f.eq.value.field !in FIELDS || f.eq.value.value.Missing? }

  predicate HasParts(f: Filter) { f.WithParts? && f.and != [] }

  // The printed form of a filter, empty when it constrains nothing.
  function FilterText(f: Filter): string {
    if HasParts(f) then
      var parts := PartTexts(f, |f.and|);
      if parts == [] then "" else "(" + Join(parts, " AND ") + ")"
    else if Blank(f) then ""
    else f.eq.value.field + " = " + Quote(Printed(f.eq.value.value))
  }

  // The non-empty printed forms of the first n parts.
  function PartTexts(f: Filter, n: nat): seq<string>
    requires f.WithParts? && n <= |f.and|
    decreases f, n
  {
    if n == 0 then []
    else
      var part := FilterText(f.and[n - 1]);
      PartTexts(f, n - 1) + (if part == "" then [] else [part])
  }

  // Whether the in-memory store's matcher keeps a row.
  predicate MemMatch(row: MemoryItem, f: Filter) {
    if f.WithParts? then forall i | 0 <= i < |f.and| :: MemMatch(row, f.and[i])
    else if f.eq.None? || f.eq.value.field !in FIELDS then true
    else Field(row.metadata, f.eq.value.field).value == (if f.eq.value.value.Str? then f.eq.value.value.text else "")
  }

  predicate Matches(row: MemoryItem, f: Option<Filter>) { f.Some? ==> MemMatch(row, f.value) }

  function Text0(f: Option<Filter>): string { if f.None? then "" else FilterText(f.value) }

  // Every leaf compares a known field with a string, or nothing at all.
  predicate Plain(f: Filter) {
    if HasParts(f) then forall i | 0 <= i < |f.and| :: Plain(f.and[i])
    else if f.NoParts? then
      || f.eq.None? || f.eq.value.field !in FIELDS
      || Printed(f.eq.value.value) == (if f.eq.value.value.Str? then f.eq.value.value.text else "")
    else Blank(f)
  }

  // ----- Meaning of the printed form -----

  // A piece that prints as `sql` and stands for a condition on rows.
  ghost predicate Stands(p: Piece, f: Filter) {
    Reads(p) && p.sql == FilterText(f) && forall row: MemoryItem :: Eval(p.expr, row) <==> MemMatch(row, f)
  }

  ghost predicate PartsStand(ps: seq<Piece>, f: Filter, n: nat)
    requires f.WithParts? && n <= |f.and|
  {
    && Sqls(ps) == PartTexts(f, n) && AllRead(ps)
    && forall row: MemoryItem :: AllEval(row, ps) <==> AllMatch(row, f.and[..n])
  }

  ghost predicate AllEval(row: MemoryItem, ps: seq<Piece>) { forall i | 0 <= i < |ps| :: Eval(ps[i].expr, row) }

  ghost predicate AllMatch(row: MemoryItem, parts: seq<Filter>) {
    forall k | 0 <= k < |parts| :: MemMatch(row, parts[k])
  }

  lemma LeafStands(f: Filter) returns (p: Piece)
    requires !HasParts(f) && !Blank(f) && Plain(f)
    ensures Stands(p, f)
  {
    var c := f.eq.value;
    p := ClausePiece(c.field, "=", Literal(Printed(c.value)));
    FieldsAreColumns(c.field);
    ClauseReads(c.field, "=", Literal(Printed(c.value)));
    hide Reads;
    assert c.field + " " + "=" + " " + Quote(Printed(c.value)) == c.field + " = " + Quote(Printed(c.value));
  }

  lemma FieldsAreColumns(field: string)
    requires field in FIELDS
    ensures ColumnName(field) && field !in {"id", "timestamp"} && forall m: Metadata :: Field(m, field).Some?
  {
  }

  lemma {:induction false} SqlsAppend(ps: seq<Piece>, p: Piece)
    ensures Sqls(ps + [p]) == Sqls(ps) + [p.sql]
  {
    if ps == [] {
      assert [] + [p] == [p];
    } else {
      assert (ps + [p])[1..] == ps[1..] + [p];
      SqlsAppend(ps[1..], p);
    }
  }

  lemma {:induction false} PartsStandUp(f: Filter, n: nat) returns (ps: seq<Piece>)
    requires HasParts(f) && Plain(f) && n <= |f.and|
    ensures PartsStand(ps, f, n)
    decreases f, n
  {
    if n == 0 { return []; }
    var earlier := PartsStandUp(f, n - 1);
    var part := f.and[n - 1];
    var p := FilterStands(part);
    hide Reads, MemMatch, Eval, FilterText, AllEval, AllMatch;
    assert f.and[..n] == f.and[..n - 1] + [part];
    ps := if p.None? then earlier else earlier + [p.value];
    if p.Some? { SqlsAppend(earlier, p.value); }
    hide AllRead;
    forall row: MemoryItem
      ensures AllEval(row, ps) <==> AllMatch(row, f.and[..n])
    {
      if p.Some? { OneMorePart(row, f.and[..n - 1], part, earlier, p.value); }
      else { SnocMatches(row, f.and[..n - 1], part); }
    }
  }

  lemma OneMorePart(row: MemoryItem, parts: seq<Filter>, part: Filter, ps: seq<Piece>, p: Piece)
    requires AllEval(row, ps) <==> AllMatch(row, parts)
    requires Stands(p, part)
    ensures AllEval(row, ps + [p]) <==> AllMatch(row, parts + [part])
  {
    SnocMatches(row, parts, part);
    SnocEval(row, ps, p);
    hide Reads, MemMatch, Eval, FilterText, AllEval, AllMatch;
  }

  lemma SnocEval(row: MemoryItem, ps: seq<Piece>, last: Piece)
    ensures AllEval(row, ps + [last]) <==> AllEval(row, ps) && Eval(last.expr, row)
  {
    hide Eval;
    var all := ps + [last];
    assert all[|ps|] == last && forall k | 0 <= k < |ps| :: all[k] == ps[k];
  }

  // The piece a filter prints as; a filter that prints nothing matches every row.
  lemma {:induction false} FilterStands(f: Filter) returns (p: Option<Piece>)
    requires Plain(f)
    ensures p.Some? <==> FilterText(f) != ""
    ensures p.Some? ==> Stands(p.value, f)
    ensures p.None? ==> forall row: MemoryItem :: MemMatch(row, f)
  {
    if HasParts(f) {
      var ps := PartsStandUp(f, |f.and|);
      PartsGroup(f, ps);
      p := if ps == [] then None else Some(AndPiece(ps));
    } else if Blank(f) {
      p := None;
    } else {
      var leaf := LeafStands(f);
      p := Some(leaf);
    }
  }

  lemma PartsGroup(f: Filter, ps: seq<Piece>)
    requires HasParts(f) && PartsStand(ps, f, |f.and|)
    ensures ps == [] ==> FilterText(f) == "" && forall row: MemoryItem :: MemMatch(row, f)
    ensures ps != [] ==> Stands(AndPiece(ps), f)
  {
    hide Reads, Eval, MemMatch, PartTexts, ChainTokens;
    assert f.and[..|f.and|] == f.and;
    forall row: MemoryItem
      ensures MemMatch(row, f) <==> AllEval(row, ps)
    {
      MatchParts(row, f);
    }
    if ps != [] {
      AndReads(ps);
      forall row: MemoryItem
        ensures Eval(ChainExpr(ps), row) <==> AllEval(row, ps)
      {
        ChainEval(ps, row);
      }
    }
  }

  lemma MatchParts(row: MemoryItem, f: Filter)
    requires HasParts(f)
    ensures MemMatch(row, f) <==> AllMatch(row, f.and)
  {
  }

  // The printed SQL means the filter: on every row it keeps exactly what the matcher keeps.
  lemma PrintedMeansFilter(f: Option<Filter>, row: MemoryItem)
    requires f.Some? ==> Plain(f.value)
    ensures Keeps(Text0(f), row) == Some(Matches(row, f))
  {
    if f.Some? {
      var p := FilterStands(f.value);
      if p.Some? {
        hide Reads, MemMatch, FilterText, Keeps;
        JoinedKeeps([p.value], row);
        JoinedStep([p.value]);
      }
    }
  }

  // The filter that the printed form of a filter means: every value is the text it prints
  // as, what prints nothing compares nothing, and parts hide a comparison.
  function Shown(f: Filter): (r: Filter)
    ensures Plain(r)
  {
    if HasParts(f) then WithParts(None, seq(|f.and|, i requires 0 <= i < |f.and| => Shown(f.and[i])))
    else if Blank(f) then NoParts(None)
    else NoParts(Some(Comparison(f.eq.value.field, Str(Printed(f.eq.value.value)))))
  }

  function ShownOf(f: Option<Filter>): Option<Filter> { if f.None? then None else Some(Shown(f.value)) }

  lemma {:induction false} ShownPrints(f: Filter)
    ensures FilterText(Shown(f)) == FilterText(f)
  {
    if HasParts(f) { ShownParts(f, |f.and|); }
  }

  lemma {:induction false} ShownParts(f: Filter, n: nat)
    requires HasParts(f) && n <= |f.and|
    ensures PartTexts(Shown(f), n) == PartTexts(f, n)
    decreases f, n
  {
    if n > 0 {
      ShownParts(f, n - 1);
      ShownPrints(f.and[n - 1]);
    }
  }

  // Every filter, plain or not, prints what it shows; a plain one shows its own meaning.
  lemma PrintedMeansShown(f: Option<Filter>, row: MemoryItem)
    ensures Keeps(Text0(f), row) == Some(Matches(row, ShownOf(f)))
    ensures (f.Some? ==> Plain(f.value)) ==> (Matches(row, ShownOf(f)) <==> Matches(row, f))
  {
    hide Keeps, MemMatch, FilterText, Plain, Shown;
    if f.Some? { ShownPrints(f.value); }
    PrintedMeansFilter(ShownOf(f), row);
    if f.Some? ==> Plain(f.value) { PrintedMeansFilter(f, row); }
  }

  function RowWith(text: string): MemoryItem {
    MemoryItem(text, [], text,
               Metadata(text, text, text, text, text, text, text, text, text, text, 0, text, text, text, 0, 0))
  }

  // A filter without parts prints its meaning exactly when it is plain: an absent value
  // prints nothing yet matches only empty fields, and an empty list of parts hides a
  // comparison from the matcher only.
  lemma LeafMeansIff(f: Filter)
    requires !HasParts(f)
    ensures Plain(f) <==> forall row: MemoryItem :: Keeps(FilterText(f), row) == Some(MemMatch(row, f))
  {
    if Plain(f) {
      forall row: MemoryItem
        ensures Keeps(FilterText(f), row) == Some(MemMatch(row, f))
      {
        PrintedMeansFilter(Some(f), row);
      }
    } else if Blank(f) {
      var row := RowWith("x");
      FieldsAreColumns(f.eq.value.field);
      assert FilterText(f) == "";
      assert !MemMatch(row, f);
      assert Keeps("", row) == Some(true);
    } else {
      var c := f.eq.value;
      var asText := NoParts(Some(Comparison(c.field, Str(Printed(c.value)))));
      FieldsAreColumns(c.field);
      var same, other := RowWith(Printed(c.value)), RowWith(Printed(c.value) + "x");
      PrintedMeansFilter(Some(asText), same);
      PrintedMeansFilter(Some(asText), other);
      hide Keeps, Quote;
      assert FilterText(asText) == FilterText(f);
      assert |Printed(c.value) + "x"| == |Printed(c.value)| + 1;
      assert MemMatch(same, asText) && !MemMatch(other, asText);
      assert f.WithParts? ==> MemMatch(other, f);
      assert f.NoParts? ==> !MemMatch(same, f);
    }
  }

  // ----- The filter operations -----

  method LanceFilterSql(f: Option<Filter>) returns (sql: string)
    ensures sql == Text0(f)
  {
    if f.None? { return ""; }
    sql := SqlOf(f.value);
  }

  method SqlOf(filter: Filter) returns (sql: string)
    ensures sql == FilterText(filter)
    decreases filter
  {
    if filter.WithParts? && |filter.and| > 0 {
      var parts: seq<string> := [];
      for i := 0 to |filter.and|
        invariant parts == PartTexts(filter, i)
      {
        var part := SqlOf(filter.and[i]);
        if part != "" { parts := parts + [part]; }
      }
      if |parts| == 0 { return ""; }
      return "(" + Join(parts, " AND ") + ")";
    }
    if filter.eq.None? || filter.eq.value.field !in FIELDS || filter.eq.value.value.Missing? { return ""; }
    sql := filter.eq.value.field + " = " + Quote(Printed(filter.eq.value.value));
  }

  function Leaf(field: string, value: string): Filter { NoParts(Some(Comparison(field, Str(value)))) }

  // Whether a row has the given value in a field that filters may name.
  predicate FieldIs(row: MemoryItem, field: string, value: string) {
    field in FIELDS ==> Field(row.metadata, field) == Some(value)
  }

  // A row has every non-empty value of the pairs.
  ghost predicate HasPairs(row: MemoryItem, pairs: seq<(string, string)>) {
    forall i | 0 <= i < |pairs| && pairs[i].1 != "" :: FieldIs(row, pairs[i].0, pairs[i].1)
  }

  // Each name stands for its own part of a row.
  lemma ColumnsAre(row: MemoryItem, field: string, value: string)
    requires value != ""
    ensures var m, keeps := row.metadata, MemMatch(row, Leaf(field, value));
      && (field == "source" ==> (keeps <==> m.source == value)) && (field == "host" ==> (keeps <==> m.host == value))
      && (field == "container_id" ==> (keeps <==> m.containerId == value))
      && (field == "container_kind" ==> (keeps <==> m.containerKind == value))
      && (field == "project" ==> (keeps <==> m.project == value))
      && (field == "author_id" ==> (keeps <==> m.authorId == value))
      && (field == "kind" ==> (keeps <==> m.kind == value))
      && (field == "message_id" ==> (keeps <==> m.messageId == value))
      && (field !in {"source", "host", "container_id", "container_kind", "project", "author_id", "kind",
                     "message_id"} ==>
            keeps)
  {
    LeafMatches(field, value);
  }

  // Requires every non-empty value of the pairs.
  method EqFilters(pairs: seq<(string, string)>) returns (f: Option<Filter>)
    ensures f.Some? ==> Plain(f.value)
    ensures forall row: MemoryItem :: Matches(row, f) <==> HasPairs(row, pairs)
  {
    var parts: seq<Filter> := [];
    for i := 0 to |pairs|
      invariant forall k | 0 <= k < |parts| :: Plain(parts[k])
      invariant forall row: MemoryItem :: AllMatch(row, parts) <==> HasPairs(row, pairs[..i])
    {
      assert pairs[..i + 1] == pairs[..i] + [pairs[i]];
      hide MemMatch, Plain, FieldIs, Leaf, AllMatch, HasPairs;
      ghost var before := parts;
      LeafMatches(pairs[i].0, pairs[i].1);
      if pairs[i].1 != "" { parts := parts + [Leaf(pairs[i].0, pairs[i].1)]; }
      forall row: MemoryItem
        ensures AllMatch(row, parts) <==> HasPairs(row, pairs[..i + 1])
      {
        SnocMatches(row, before, Leaf(pairs[i].0, pairs[i].1));
        SnocPairs(row, pairs[..i], pairs[i]);
      }
    }
    assert pairs[..|pairs|] == pairs;
    f := if |parts| == 0 then None else if |parts| == 1 then Some(parts[0]) else Some(WithParts(None, parts));
    forall row: MemoryItem
      ensures Matches(row, f) <==> AllMatch(row, parts)
    {
    }
  }

  lemma SnocPairs(row: MemoryItem, pairs: seq<(string, string)>, last: (string, string))
    ensures HasPairs(row, pairs + [last]) <==> HasPairs(row, pairs) && (last.1 != "" ==> FieldIs(row, last.0, last.1))
  {
    hide FieldIs;
    var all := pairs + [last];
    assert all[|pairs|] == last && forall k | 0 <= k < |pairs| :: all[k] == pairs[k];
  }

  lemma LeafMatches(field: string, value: string)
    ensures Plain(Leaf(field, value))
    ensures forall row: MemoryItem :: MemMatch(row, Leaf(field, value)) <==> FieldIs(row, field, value)
  {
    if field in FIELDS { FieldsAreColumns(field); }
  }

  lemma SnocMatches(row: MemoryItem, parts: seq<Filter>, last: Filter)
    ensures AllMatch(row, parts + [last]) <==> AllMatch(row, parts) && MemMatch(row, last)
  {
    hide MemMatch;
    var all := parts + [last];
    assert all[|parts|] == last && forall k | 0 <= k < |parts| :: all[k] == parts[k];
  }

  // Adds a condition to a filter: both must hold.
  method AppendFilter(base: Option<Filter>, extra: Filter) returns (f: Filter)
    ensures forall row: MemoryItem :: MemMatch(row, f) <==> Matches(row, base) && MemMatch(row, extra)
    ensures (base.Some? ==> Plain(base.value)) && Plain(extra) ==> Plain(f)
  {
    if base.None? { return extra; }
    ghost var parts := if base.value.WithParts? && |base.value.and| > 0 then base.value.and else [base.value];
    if base.value.WithParts? && |base.value.and| > 0 {
      f := WithParts(None, base.value.and + [extra]);
    } else {
      f := WithParts(None, [base.value, extra]);
    }
    assert f.and == parts + [extra];
    forall row: MemoryItem
      ensures MemMatch(row, f) <==> Matches(row, base) && MemMatch(row, extra)
    {
      SnocMatches(row, parts, extra);
      assert parts == [base.value] ==> parts[0] == base.value;
      assert AllMatch(row, parts) <==> MemMatch(row, base.value);
    }
  }
}
