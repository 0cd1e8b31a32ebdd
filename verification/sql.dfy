/** Parameterised SQL as the toolbox builds it: a statement text whose `?`
    placeholders are bound, in order, to a list of parameters. */
module Sql {
  import opened Text

  datatype Query<P> = Query(sql: string, params: seq<P>)

  /** Every placeholder has exactly one parameter. */
  predicate Balanced<P>(q: Query<P>) {
    Count(q.sql, '?') == |q.params|
  }

  /** A `LIKE` pattern matching any text that contains `kw`. */
  function Like(kw: string): (r: string)
    ensures |r| == |kw| + 2 && r[0] == '%' && r[|r| - 1] == '%' && r[1..|r| - 1] == kw
  {
    "%" + kw + "%"
  }

  /** Appending a clause together with as many parameters as it has
      placeholders keeps the query balanced. */
  lemma AppendBalanced<P>(q: Query<P>, clause: string, ps: seq<P>)
    requires Balanced(q) && Count(clause, '?') == |ps|
    ensures Balanced(Query(q.sql + clause, q.params + ps))
  {
    CountConcat(q.sql, clause, '?');
  }

  /** A clause made of placeholder-free text and one final `?`. */
  lemma OnePlaceholder(text: string)
    requires '?' !in text
    ensures Count(text + "?", '?') == 1
  {
    CountAbsent(text, '?');
    CountConcat(text, "?", '?');
  }

  /** A statement text without placeholders. */
  function Plain<P>(sql: string): (q: Query<P>)
    requires '?' !in sql
    ensures Balanced(q) && q.sql == sql && q.params == []
  {
    CountAbsent(sql, '?');
    Query(sql, [])
  }

  /** `sql += clause` for a clause without placeholders. */
  function AndText<P>(q: Query<P>, clause: string): (r: Query<P>)
    requires Balanced(q) && '?' !in clause
    ensures Balanced(r) && r.sql == q.sql + clause && r.params == q.params
  {
    CountAbsent(clause, '?');
    AppendBalanced(q, clause, []);
    assert q.params + [] == q.params;
    Query(q.sql + clause, q.params)
  }

  /** `sql += clause + "?"` with `p` appended to the parameters. */
  function AndParam<P>(q: Query<P>, clause: string, p: P): (r: Query<P>)
    requires Balanced(q) && '?' !in clause
    ensures Balanced(r) && r.sql == q.sql + (clause + "?") && r.params == q.params + [p]
  {
    OnePlaceholder(clause);
    AppendBalanced(q, clause + "?", [p]);
    Query(q.sql + (clause + "?"), q.params + [p])
  }
}
