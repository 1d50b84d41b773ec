/**
  The part of the object-relational mapper that the generic view relies on,
  with a query read as the finite sequence of rows it would return.
 */
module Orm {

  /** A column value as it comes back from the database. */
  datatype Value = Int(i: int) | Str(s: string) | Null

  /** A mapped attribute `Entity.name`; a joined query can hold columns of several entities. */
  datatype Column = Column(entity: string, name: string)

  type Row = map<Column, Value>

  /** A query, read as the rows it returns, in order. */
  type Query = seq<Row>

  /** A mapped model class: its name and the names of its column attributes. */
  datatype Entity = Entity(name: string, columns: set<string>)

  /** The database behind a session: the rows of each table, by entity name. */
  type Database = map<string, seq<Row>>

  /** `session.query(model)`: every row of the model's table. */
  function QueryAll(db: Database, model: Entity): (q: Query)
    ensures model.name in db ==> q == db[model.name]
    ensures model.name !in db ==> q == []
  {
    if model.name in db then db[model.name] else []
  }

  /** The SQL predicate `col == v` of `query.filter(col == v)`. */
  predicate Matches(row: Row, col: Column, v: Value) {
    col in row && row[col] == v
  }

  /** `query.filter(col == v)`: the rows of `q` on which the predicate holds. */
  function Where(q: Query, col: Column, v: Value): (r: Query)
    ensures |r| <= |q|
    ensures forall row :: row in r <==> row in q && Matches(row, col, v)
  {
    if q == [] then []
    else (if Matches(q[0], col, v) then [q[0]] else []) + Where(q[1..], col, v)
  }

  /** The three outcomes of `query.one()`. */
  datatype Fetched = Exactly(row: Row) | NoRows | ManyRows

  function One(q: Query): (r: Fetched)
    ensures r == NoRows <==> |q| == 0
    ensures r.Exactly? <==> |q| == 1
    ensures r.Exactly? ==> r.row == q[0]
    ensures r == ManyRows <==> |q| >= 2
  {
    if |q| == 0 then NoRows
    else if |q| == 1 then Exactly(q[0])
    else ManyRows
  }

  ghost predicate NoMatch(q: Query, col: Column, v: Value) {
    forall i :: 0 <= i < |q| ==> !Matches(q[i], col, v)
  }

  /** `row` sits at exactly one matching position of `q`, and no other position matches. */
  ghost predicate SoleMatch(q: Query, col: Column, v: Value, row: Row) {
    exists i :: 0 <= i < |q| && q[i] == row && Matches(q[i], col, v) &&
      forall j :: 0 <= j < |q| && j != i ==> !Matches(q[j], col, v)
  }

  ghost predicate SeveralMatch(q: Query, col: Column, v: Value) {
    exists i, j :: 0 <= i < |q| && 0 <= j < |q| && i != j && Matches(q[i], col, v) && Matches(q[j], col, v)
  }

  /** The filtered query is empty exactly when no row of `q` matches. */
  lemma WhereEmpty(q: Query, col: Column, v: Value)
    ensures Where(q, col, v) == [] <==> NoMatch(q, col, v)
  {
    if Where(q, col, v) != [] {
      var row := Where(q, col, v)[0];
      assert row in Where(q, col, v);
      var i :| 0 <= i < |q| && q[i] == row;
      assert Matches(q[i], col, v);
    } else {
      forall i | 0 <= i < |q| ensures !Matches(q[i], col, v) {
        assert q[i] !in Where(q, col, v);
      }
    }
  }

  /** When the head of `q` matches, it is the sole match exactly when the tail has none. */
  lemma SoleMatchHead(q: Query, col: Column, v: Value, row: Row)
    requires q != [] && Matches(q[0], col, v)
    ensures SoleMatch(q, col, v, row) <==> row == q[0] && NoMatch(q[1..], col, v)
  {
    var t := q[1..];
    if SoleMatch(q, col, v, row) {
      var i :| 0 <= i < |q| && q[i] == row && Matches(q[i], col, v) &&
        forall j :: 0 <= j < |q| && j != i ==> !Matches(q[j], col, v);
      assert i == 0;
      forall k | 0 <= k < |t| ensures !Matches(t[k], col, v) {
        assert t[k] == q[k + 1];
      }
    }
    if row == q[0] && NoMatch(t, col, v) {
      forall j | 0 <= j < |q| && j != 0 ensures !Matches(q[j], col, v) {
        assert q[j] == t[j - 1];
      }
      assert SoleMatch(q, col, v, row);
    }
  }

  /** When the head of `q` does not match, the sole match of `q` is the sole match of its tail. */
  lemma SoleMatchTail(q: Query, col: Column, v: Value, row: Row)
    requires q != [] && !Matches(q[0], col, v)
    ensures SoleMatch(q, col, v, row) <==> SoleMatch(q[1..], col, v, row)
  {
    var t := q[1..];
    if SoleMatch(q, col, v, row) {
      var i :| 0 <= i < |q| && q[i] == row && Matches(q[i], col, v) &&
        forall j :: 0 <= j < |q| && j != i ==> !Matches(q[j], col, v);
      assert t[i - 1] == row;
      forall j | 0 <= j < |t| && j != i - 1 ensures !Matches(t[j], col, v) {
        assert t[j] == q[j + 1];
      }
      assert SoleMatch(t, col, v, row);
    }
    if SoleMatch(t, col, v, row) {
      var i :| 0 <= i < |t| && t[i] == row && Matches(t[i], col, v) &&
        forall j :: 0 <= j < |t| && j != i ==> !Matches(t[j], col, v);
      assert q[i + 1] == row;
      forall j | 0 <= j < |q| && j != i + 1 ensures !Matches(q[j], col, v) {
        if j > 0 { assert q[j] == t[j - 1]; }
      }
      assert SoleMatch(q, col, v, row);
    }
  }

  /** The filtered query is the single row `row` exactly when `row` is the sole match in `q`. */
  lemma {:induction false} WhereSole(q: Query, col: Column, v: Value, row: Row)
    ensures Where(q, col, v) == [row] <==> SoleMatch(q, col, v, row)
  {
    if q != [] {
      var t := q[1..];
      if Matches(q[0], col, v) {
        assert Where(q, col, v) == [q[0]] + Where(t, col, v);
        WhereEmpty(t, col, v);
        SoleMatchHead(q, col, v, row);
      } else {
        assert Where(q, col, v) == Where(t, col, v);
        WhereSole(t, col, v, row);
        SoleMatchTail(q, col, v, row);
      }
    }
  }

  /** The filtered query has several rows exactly when two positions of `q` match. */
  lemma WhereSeveral(q: Query, col: Column, v: Value)
    ensures |Where(q, col, v)| >= 2 <==> SeveralMatch(q, col, v)
  {
    var w := Where(q, col, v);
    WhereEmpty(q, col, v);
    if |w| >= 2 {
      var i :| 0 <= i < |q| && Matches(q[i], col, v);
      WhereSole(q, col, v, q[i]);
      assert w != [q[i]];
      var j :| 0 <= j < |q| && j != i && Matches(q[j], col, v);
      assert SeveralMatch(q, col, v);
    }
    if SeveralMatch(q, col, v) {
      var i, j :| 0 <= i < |q| && 0 <= j < |q| && i != j && Matches(q[i], col, v) && Matches(q[j], col, v);
      assert q[i] in w;
      forall k | 0 <= k < |q| && q[k] == w[0] && Matches(q[k], col, v)
        ensures exists m :: 0 <= m < |q| && m != k && Matches(q[m], col, v)
      {
        if k == i { assert Matches(q[j], col, v); } else { assert Matches(q[i], col, v); }
      }
      WhereSole(q, col, v, w[0]);
      assert w != [w[0]];
    }
  }
}
