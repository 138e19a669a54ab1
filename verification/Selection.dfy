/** SELECT ... ORDER BY ... LIMIT over a finite set of rows. */
module Selection {
  import opened Records

  /** A selected row: the columns that the query sorts by (a NULL sandbox column is 0,
      others are one more than the identifier), then the joined operation. The joined
      columns only break ties that SQL leaves open. */
  datatype Row = Row(expiresAt: int, attempt: nat, sandbox: nat, operation: OperationId, version: nat)

  function Plain(expiresAt: int, attempt: nat, sandbox: nat): Row {
    Row(expiresAt, attempt, sandbox, OperationId(0, 0), 0)
  }

  predicate Before(x: Row, y: Row) {
    if x.expiresAt != y.expiresAt then x.expiresAt < y.expiresAt
    else if x.attempt != y.attempt then x.attempt < y.attempt
    else if x.sandbox != y.sandbox then x.sandbox < y.sandbox
    else if x.operation.batch != y.operation.batch then x.operation.batch < y.operation.batch
    else if x.operation.index != y.operation.index then x.operation.index < y.operation.index
    else x.version <= y.version
  }

  predicate IsFirst(x: Row, rows: set<Row>) {
    x in rows && forall y | y in rows :: Before(x, y)
  }

  lemma {:induction false} FirstExists(rows: set<Row>)
    requires rows != {}
    ensures exists x :: IsFirst(x, rows)
    decreases |rows|
  {
    var x :| x in rows;
    var rest := rows - {x};
    if rest == {} {
      assert rows == {x};
      assert IsFirst(x, rows);
    } else {
      FirstExists(rest);
      var y :| IsFirst(y, rest);
      var z := if Before(x, y) then x else y;
      assert forall w | w in rows :: w == x || w in rest;
      assert IsFirst(z, rows);
    }
  }

  function First(rows: set<Row>): (x: Row)
    requires rows != {}
    ensures IsFirst(x, rows)
  {
    FirstExists(rows);
    var x :| IsFirst(x, rows);
    x
  }

  /** All rows in order. */
  function Ordered(rows: set<Row>): (q: seq<Row>)
    ensures forall x :: x in q <==> x in rows
    ensures |q| == |rows|
    ensures forall i, j | 0 <= i < j < |q| :: q[i] != q[j] && Before(q[i], q[j])
    decreases |rows|
  {
    if rows == {} then [] else
      var x := First(rows);
      [x] + Ordered(rows - {x})
  }

  function Select(rows: set<Row>, limit: nat): (q: seq<Row>)
    ensures forall i | 0 <= i < |q| :: q[i] in rows
    ensures forall i, j | 0 <= i < j < |q| :: q[i] != q[j]
    ensures |q| == if |rows| <= limit then |rows| else limit
    ensures |rows| <= limit ==> forall x | x in rows :: x in q
    ensures forall i, x | 0 <= i < |q| && x in rows && x !in q :: Before(q[i], x)
  {
    var q := Ordered(rows);
    if |q| <= limit then q else q[..limit]
  }

  lemma SelectIsOrdered(rows: set<Row>, limit: nat)
    ensures forall i, j | 0 <= i < j < |Select(rows, limit)| :: Before(Select(rows, limit)[i], Select(rows, limit)[j])
  {
  }
}
