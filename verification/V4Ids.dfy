// The readable ids of migrated rows (lance_sql.go, `v4MessageID`).
module V4Ids {
  import opened Wrappers
  import opened Text

  function Pieces(path: string): seq<string> { SplitOn(path, '/') }

  predicate IsMessagePath(path: string) { |Pieces(path)| == 5 && Pieces(path)[3] == "message" }

  // The plain path of a /message/ path.
  function PlainPath(path: string): string
    requires IsMessagePath(path)
  {
    var p := Pieces(path);
    p[0] + "/" + p[1] + "/" + p[2] + "/" + p[4]
  }

  function V4MessageId(path: string, v4Id: string): (string, string) {
    if path == "" then (v4Id, "message")
    else if IsMessagePath(path) then (PlainPath(path), "message")
    else if |Pieces(path)| == 5 then (path, Pieces(path)[3])
    else (path, "message")
  }

  predicate Free(s: string) { '/' !in s }

  lemma {:induction false} PiecesAreFree(s: string)
    ensures forall i | 0 <= i < |Pieces(s)| :: Free(Pieces(s)[i])
  {
    if s != "" {
      SplitOnStep(s, '/');
      PiecesAreFree(s[1..]);
      var rest := Pieces(s[1..]);
      hide SplitOn;
      assert s[0] != '/' ==> Free([s[0]] + rest[0]);
    }
  }

  lemma {:induction false} PieceAlone(s: string)
    requires Free(s)
    ensures Pieces(s) == [s]
  {
    if s != "" {
      SplitOnStep(s, '/');
      assert forall c | c in s[1..] :: c in s;
      PieceAlone(s[1..]);
      assert s[0] in s && s == [s[0]] + s[1..];
    }
  }

  lemma {:induction false} PiecesOf(a: string, rest: string)
    requires Free(a)
    ensures Pieces(a + "/" + rest) == [a] + Pieces(rest)
  {
    var s := a + "/" + rest;
    SplitOnStep(s, '/');
    if a == "" {
      assert s[0] == '/' && s[1..] == rest;
    } else {
      assert forall c | c in a[1..] :: c in a;
      assert s[0] == a[0] && s[1..] == a[1..] + "/" + rest;
      PiecesOf(a[1..], rest);
      assert [a[0]] + a[1..] == a;
      assert s[0] in a;
      hide SplitOn;
      assert ([a[1..]] + Pieces(rest))[1..] == Pieces(rest);
    }
  }

  // The pieces of a path determine it.
  lemma {:induction false} PiecesInjective(s: string, t: string)
    requires Pieces(s) == Pieces(t)
    ensures s == t
  {
    if s == "" || t == "" {
      EmptyPieces(s);
      EmptyPieces(t);
    } else {
      FirstPiece(s);
      FirstPiece(t);
      var p, q := Pieces(s[1..]), Pieces(t[1..]);
      hide SplitOn;
      if s[0] == '/' {
        assert p == ([""] + p)[1..] && q == ([""] + q)[1..];
      } else {
        assert Pieces(s)[0] == [s[0]] + p[0] && Pieces(t)[0] == [t[0]] + q[0];
        assert s[0] == ([s[0]] + p[0])[0] && t[0] == ([t[0]] + q[0])[0];
        assert p[0] == ([s[0]] + p[0])[1..] && q[0] == ([t[0]] + q[0])[1..];
        assert p[1..] == ([[s[0]] + p[0]] + p[1..])[1..] && q[1..] == ([[t[0]] + q[0]] + q[1..])[1..];
        assert p == [p[0]] + p[1..] && q == [q[0]] + q[1..];
      }
      PiecesInjective(s[1..], t[1..]);
      assert s == [s[0]] + s[1..] && t == [t[0]] + t[1..];
    }
  }

  lemma FirstPiece(s: string)
    requires s != ""
    ensures Pieces(s)[0] == "" <==> s[0] == '/'
    ensures var rest := Pieces(s[1..]); Pieces(s) == if s[0] == '/' then [""] + rest else [[s[0]] + rest[0]] + rest[1..]
  {
    SplitOnStep(s, '/');
    assert s[0] != '/' ==> |Pieces(s)[0]| > 0;
  }

  lemma EmptyPieces(s: string)
    ensures Pieces(s) == [""] <==> s == ""
  {
    if s != "" {
      SplitOnStep(s, '/');
      assert s[0] == '/' ==> |Pieces(s)| >= 2;
      assert s[0] != '/' ==> |Pieces(s)[0]| > 0;
    }
  }

  lemma PlainPieces(path: string)
    requires IsMessagePath(path)
    ensures var p := Pieces(path); Pieces(PlainPath(path)) == [p[0], p[1], p[2], p[4]]
  {
    var p := Pieces(path);
    PiecesAreFree(path);
    hide SplitOn;
    var tail := p[1] + "/" + (p[2] + "/" + p[4]);
    PieceAlone(p[4]);
    PiecesOf(p[2], p[4]);
    PiecesOf(p[1], p[2] + "/" + p[4]);
    PiecesOf(p[0], tail);
    assert PlainPath(path) == p[0] + "/" + tail;
  }

  // Two paths share an id exactly when one is the plain twin of the other, a /message/ path.
  lemma V4IdsCollide(p: string, q: string, a: string, b: string)
    requires p != "" && q != "" && p != q
    ensures V4MessageId(p, a).0 == V4MessageId(q, b).0 <==>
      (IsMessagePath(p) && PlainPath(p) == q) || (IsMessagePath(q) && PlainPath(q) == p)
  {
    if IsMessagePath(p) { PlainPieces(p); }
    if IsMessagePath(q) { PlainPieces(q); }
    if IsMessagePath(p) && IsMessagePath(q) && PlainPath(p) == PlainPath(q) {
      var u, v := Pieces(p), Pieces(q);
      assert [u[0], u[1], u[2], u[4]][3] == [v[0], v[1], v[2], v[4]][3];
      assert u == v;
      PiecesInjective(p, q);
    }
    hide SplitOn;
  }
}
