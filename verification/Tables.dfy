/** Rows that belong to a batch and carry a position in it, and what ORDER BY position gives back. */
module Tables {
  const MICROSECOND := 1_000 // nanoseconds: what a timestamptz and an interval resolve
  const INT4_MAX := 0x7FFF_FFFF

  datatype Row<T> = Row(batchId: string, position: nat, body: T)

  /** UNIQUE (batch_id, position). */
  predicate UniquePositions<T(==)>(rows: set<Row<T>>) {
    forall p, q :: p in rows && q in rows && p.batchId == q.batchId && p.position == q.position ==> p == q
  }

  /** A batch's rows come in position order, whatever lies between them. */
  ghost predicate InOrder<T>(s: seq<Row<T>>) {
    forall i, j :: 0 <= i < j < |s| ==> s[i].batchId == s[j].batchId ==> s[i].position < s[j].position
  }

  /** A query's answer: the table's matching rows, each once, in order. */
  ghost predicate CursorOver<T>(s: seq<Row<T>>, rows: set<Row<T>>) {
    InOrder(s) && (forall r :: r in s ==> r in rows) && (forall r :: r in rows ==> r in s)
  }

  lemma {:induction false} FirstExists<T>(rows: set<Row<T>>) returns (first: Row<T>)
    requires rows != {}
    ensures first in rows && forall r :: r in rows ==> first.position <= r.position
    decreases |rows|
  {
    first :| first in rows;
    if rows != {first} {
      var rest := rows - {first};
      assert rows == rest + {first};
      var least := FirstExists(rest);
      if least.position < first.position {
        first := least;
      }
    }
  }

  /** The ordered cursor over a table's matching rows. */
  method OrderByPosition<T(==)>(rows: set<Row<T>>) returns (s: seq<Row<T>>)
    requires UniquePositions(rows)
    ensures CursorOver(s, rows)
  {
    s := [];
    var left := rows;
    while left != {}
      invariant left <= rows && InOrder(s)
      invariant forall r :: r in s <==> r in rows - left
      invariant forall r, q :: r in s && q in left ==> r.position <= q.position
      decreases left
    {
      ghost var least := FirstExists(left);
      var first :| first in left && forall r :: r in left ==> first.position <= r.position;
      s := s + [first];
      left := left - {first};
    }
  }

  /** The bodies of one batch's rows, in the order they come. */
  function BodiesOf<T>(s: seq<Row<T>>, id: string): seq<T> {
    if s == [] then []
    else
      var last := s[|s| - 1];
      BodiesOf(s[..|s| - 1], id) + (if last.batchId == id then [last.body] else [])
  }

  /** The next row of a batch is the one after those already read. */
  lemma NextPosition<T>(s: seq<Row<T>>, id: string, list: seq<T>, n: nat, m: nat)
    requires InOrder(s) && n < |s| && m <= |list| && s[n].batchId == id
    requires forall k :: 0 <= k < |list| ==> Row(id, k, list[k]) in s
    requires forall k :: 0 <= k < m ==> Row(id, k, list[k]) in s[..n]
    requires forall j :: 0 <= j < n && s[j].batchId == id ==> s[j].position < m
    requires s[n].position < |list|
    ensures s[n].position == m
  {
    if m > 0 {
      assert Row(id, m - 1, list[m - 1]) in s[..n];
      var i :| 0 <= i < n && s[..n][i] == Row(id, m - 1, list[m - 1]);
      assert s[i] == Row(id, m - 1, list[m - 1]);
    }
    assert Row(id, m, list[m]) in s;
    var j :| 0 <= j < |s| && s[j] == Row(id, m, list[m]);
    assert j >= n;
  }

  ghost predicate WrittenFrom<T>(s: seq<Row<T>>, id: string, list: seq<T>) {
    && (forall j :: 0 <= j < |s| && s[j].batchId == id ==> s[j].position < |list| && s[j].body == list[s[j].position])
    && (forall k :: 0 <= k < |list| ==> Row(id, k, list[k]) in s)
  }

  /** The first m bodies of the list have been read, and nothing else of that batch. */
  ghost predicate ReadSoFar<T>(s: seq<Row<T>>, id: string, list: seq<T>, m: nat) {
    && m <= |list| && BodiesOf(s, id) == list[..m]
    && (forall k :: 0 <= k < m ==> Row(id, k, list[k]) in s)
    && (forall j :: 0 <= j < |s| && s[j].batchId == id ==> s[j].position < m)
  }

  lemma ReadOneMore<T>(s: seq<Row<T>>, row: Row<T>, id: string, list: seq<T>, m: nat)
    requires ReadSoFar(s, id, list, m) && (row.batchId == id ==> m < |list| && row == Row(id, m, list[m]))
    ensures ReadSoFar(s + [row], id, list, if row.batchId == id then m + 1 else m)
  {
    assert (s + [row])[..|s|] == s;
    if row.batchId == id {
      assert list[..m + 1] == list[..m] + [list[m]];
    }
  }

  lemma {:induction false} RegroupedUpTo<T>(s: seq<Row<T>>, id: string, list: seq<T>, n: nat) returns (m: nat)
    requires InOrder(s) && WrittenFrom(s, id, list) && n <= |s|
    ensures ReadSoFar(s[..n], id, list, m)
  {
    if n == 0 {
      m := 0;
    } else {
      m := RegroupedUpTo(s, id, list, n - 1);
      assert s[..n] == s[..n - 1] + [s[n - 1]];
      if s[n - 1].batchId == id {
        NextPosition(s, id, list, n - 1, m);
      }
      ReadOneMore(s[..n - 1], s[n - 1], id, list, m);
      m := if s[n - 1].batchId == id then m + 1 else m;
    }
  }

  /** Reading a batch's rows in position order gives back the list they were written from. */
  lemma Regrouped<T>(s: seq<Row<T>>, id: string, list: seq<T>)
    requires InOrder(s) && WrittenFrom(s, id, list)
    ensures BodiesOf(s, id) == list
  {
    var m := RegroupedUpTo(s, id, list, |s|);
    assert s[..|s|] == s;
    if list != [] {
      assert Row(id, |list| - 1, list[|list| - 1]) in s;
    }
    assert list[..m] == list;
  }
}
