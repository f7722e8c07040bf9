/**
  Row-set summaries (scripts/g3-forward-adoption-readonly-witness.py, row_digest and rowset): the digest of a
  table does not depend on the order in which its rows are read and, as far as the hash tells its inputs
  apart, determines the rows.
*/
module RowSets {
  import opened Options
  import opened RowEncoding
  import opened StableSort
  import Lexicographic

  type Row = seq<SqlValue>

  type Hash = Bytes -> Bytes

  /** "G3_ROW_R1" and "G3_ROWSET_R1", each with a closing zero byte. */
  const ROW_DOMAIN: Bytes := [71, 51, 95, 82, 79, 87, 95, 82, 49, 0]
  const ROWSET_DOMAIN: Bytes := [71, 51, 95, 82, 79, 87, 83, 69, 84, 95, 82, 49, 0]

  const ROW_BOUND: nat := 250000

  function RowInput(row: Row): Bytes { ROW_DOMAIN + Framed(row) }

  function RowDigest(hash: Hash, row: Row): Bytes { hash(RowInput(row)) }

  function Digests(hash: Hash, rows: seq<Row>): (digests: seq<Bytes>)
    ensures |digests| == |rows| && forall i :: 0 <= i < |rows| ==> digests[i] == RowDigest(hash, rows[i])
  {
    if rows == [] then [] else [RowDigest(hash, rows[0])] + Digests(hash, rows[1..])
  }

  predicate Below(a: Byte, b: Byte) { a < b }

  /** The order of `bytes` objects. */
  predicate LexLe(a: Bytes, b: Bytes) { Lexicographic.Le(Below, a, b) }

  function Concat(items: seq<Bytes>): Bytes { if items == [] then [] else items[0] + Concat(items[1..]) }

  function RowSetInput(hash: Hash, rows: seq<Row>): Bytes { ROWSET_DOMAIN + Concat(Sort(LexLe, Digests(hash, rows))) }

  datatype Summary = Summary(columns: seq<string>, rowCount: nat, rowSet: Bytes)

  predicate Summarizable(rows: seq<Row>) { |rows| <= ROW_BOUND && forall row :: row in rows ==> Encodable(row) }

  /** None is a raised error: too many rows, or a field too long to frame. */
  function SummaryOf(hash: Hash, columns: seq<string>, rows: seq<Row>): Option<Summary> {
    if Summarizable(rows) then Some(Summary(columns, |rows|, hash(RowSetInput(hash, rows)))) else None
  }

  method RowSet(hash: Hash, columns: seq<string>, rows: seq<Row>) returns (r: Option<Summary>)
    ensures r == SummaryOf(hash, columns, rows)
    ensures r.None?
            <==> |rows| > 250000
                 || exists row, v :: row in rows && v in row
                                     && !((v.Real? ==> |v.ieee| == 8) && |Typed(v)| < 18446744073709551616)
  {
    CapacityIs();
    var items: seq<Bytes> := [];
    for i := 0 to |rows|
      invariant |items| == i <= ROW_BOUND
      invariant forall k :: 0 <= k < i ==> Encodable(rows[k]) && items[k] == RowDigest(hash, rows[k])
    {
      if !Encodable(rows[i]) {
        assert rows[i] in rows;
        return None;
      }
      items := items + [RowDigest(hash, rows[i])];
      if |items| > ROW_BOUND { return None; }
    }
    assert items == Digests(hash, rows);
    var fed := Updates(Sort(LexLe, items));
    r := Some(Summary(columns, |rows|, hash(fed)));
  }

  /** The `update` calls after the domain, item by item. */
  method Updates(items: seq<Bytes>) returns (fed: Bytes)
    ensures fed == ROWSET_DOMAIN + Concat(items)
  {
    var data: Bytes := [];
    for i := 0 to |items|
      invariant data + Concat(items[i..]) == Concat(items)
    {
      assert data + (items[i] + Concat(items[i + 1..])) == (data + items[i]) + Concat(items[i + 1..]);
      assert items[i..][0] == items[i] && items[i..][1..] == items[i + 1..];
      data := data + items[i];
    }
    assert items[|items|..] == [];
    fed := ROWSET_DOMAIN + data;
  }

  // ---------------------------------------------------------------- sorting byte strings

  lemma LexIsOrder()
    ensures TotalPreorder(LexLe) && Antisymmetric(LexLe)
  {
    forall a, b ensures LexLe(a, b) || LexLe(b, a) { Lexicographic.Total(Below, a, b); }
    forall a, b, c | LexLe(a, b) && LexLe(b, c) ensures LexLe(a, c) { Lexicographic.Transitive(Below, a, b, c); }
    forall a, b | LexLe(a, b) && LexLe(b, a) ensures a == b { Lexicographic.Antisymmetry(Below, a, b); }
  }

  /** The domain, then the digests by rising bytes. */
  lemma RowSetInputMeans(hash: Hash, rows: seq<Row>) returns (digests: seq<Bytes>)
    ensures RowSetInput(hash, rows) == [71, 51, 95, 82, 79, 87, 83, 69, 84, 95, 82, 49, 0] + Concat(digests)
    ensures multiset(digests) == multiset(Digests(hash, rows))
    ensures forall i, j :: 0 <= i < j < |digests| ==> digests[i] == digests[j] || RisesAt(digests[i], digests[j])
  {
    digests := Sort(LexLe, Digests(hash, rows));
    LexIsOrder();
    SortSorted(LexLe, Digests(hash, rows));
    forall i, j | 0 <= i < j < |digests| && digests[i] != digests[j] ensures RisesAt(digests[i], digests[j]) {
      assert LexLe(digests[i], digests[j]);
      var k := Lexicographic.FirstDifference(Below, digests[i], digests[j]);
      assert Rises(digests[i], digests[j], k);
    }
  }

  ghost predicate RisesAt(a: Bytes, b: Bytes) { exists k :: 0 <= k < |b| && Rises(a, b, k) }

  predicate Rises(a: Bytes, b: Bytes, k: nat)
    requires k < |b|
  {
    k <= |a| && a[..k] == b[..k] && (k == |a| || a[k] < b[k])
  }

  /** A row is hashed after its own domain. */
  lemma RowInputMeans(row: Row)
    ensures RowInput(row) == [71, 51, 95, 82, 79, 87, 95, 82, 49, 0] + Framed(row)
  {}

  // ---------------------------------------------------------------- order does not matter

  lemma HeadTakenOut(a: seq<Row>, b: seq<Row>) returns (k: nat)
    requires a != [] && multiset(a) == multiset(b)
    ensures k < |b| && b[k] == a[0] && b == b[..k] + [a[0]] + b[k + 1..]
    ensures multiset(a[1..]) == multiset(b[..k] + b[k + 1..])
  {
    assert a[0] in multiset(b);
    k :| 0 <= k < |b| && b[k] == a[0];
    assert a == [a[0]] + a[1..] && b == b[..k] + [b[k]] + b[k + 1..];
    assert multiset(a[1..]) == multiset(a) - multiset{a[0]};
    assert multiset(b[..k] + b[k + 1..]) == multiset(b) - multiset{a[0]};
  }

  lemma {:induction false} DigestsForgetOrder(hash: Hash, a: seq<Row>, b: seq<Row>)
    requires multiset(a) == multiset(b)
    ensures multiset(Digests(hash, a)) == multiset(Digests(hash, b))
    decreases |a|
  {
    if a == [] {
      assert |b| == |multiset(b)| == 0;
    } else {
      var k := HeadTakenOut(a, b);
      DigestsForgetOrder(hash, a[1..], b[..k] + b[k + 1..]);
      DigestsSplit(hash, b[..k], b[k + 1..]);
      DigestsMove(hash, a[0], b[..k], b[k + 1..]);
    }
  }

  lemma DigestsMove(hash: Hash, row: Row, before: seq<Row>, after: seq<Row>)
    ensures Digests(hash, before + [row] + after)
            == Digests(hash, before) + [RowDigest(hash, row)] + Digests(hash, after)
  {}

  lemma DigestsSplit(hash: Hash, a: seq<Row>, b: seq<Row>)
    ensures Digests(hash, a + b) == Digests(hash, a) + Digests(hash, b)
  {}

  /** Whatever the hash: reading the rows in another order gives the same summary. */
  lemma ReadOrderIrrelevant(hash: Hash, columns: seq<string>, a: seq<Row>, b: seq<Row>)
    requires multiset(a) == multiset(b)
    ensures SummaryOf(hash, columns, a) == SummaryOf(hash, columns, b)
  {
    DigestsForgetOrder(hash, a, b);
    LexIsOrder();
    SortForgetsOrder(LexLe, Digests(hash, a), Digests(hash, b));
    SameMembers(a, b);
    assert |a| == |multiset(a)| == |multiset(b)| == |b|;
  }

  // ---------------------------------------------------------------- equal digests mean equal rows

  /** The hash tells these inputs apart. */
  ghost predicate CollisionFree(hash: Hash, inputs: set<Bytes>) {
    forall x, y :: x in inputs && y in inputs && hash(x) == hash(y) ==> x == y
  }

  /** All that is hashed to summarize a table. */
  ghost function Hashed(hash: Hash, rows: seq<Row>): set<Bytes> {
    (set row | row in rows :: RowInput(row)) + {RowSetInput(hash, rows)}
  }

  ghost predicate SameLength(items: seq<Bytes>, n: nat) { forall i :: i in items ==> |i| == n }

  lemma HeadLength(items: seq<Bytes>, n: nat)
    requires items != [] && SameLength(items, n)
    ensures |Concat(items)| >= n
  {
    assert items[0] in items;
  }

  lemma {:induction false} ConcatInjective(a: seq<Bytes>, b: seq<Bytes>, n: nat)
    requires n > 0 && SameLength(a, n) && SameLength(b, n) && Concat(a) == Concat(b)
    ensures a == b
  {
    if a == [] {
      if b != [] { HeadLength(b, n); }
    } else {
      assert a[0] in a;
      if b != [] {
        assert b[0] in b;
        assert Concat(a)[..n] == a[0] && Concat(b)[..n] == b[0];
        assert Concat(a)[n..] == Concat(a[1..]) && Concat(b)[n..] == Concat(b[1..]);
        ConcatInjective(a[1..], b[1..], n);
        assert a == [a[0]] + a[1..] && b == [b[0]] + b[1..];
      }
    }
  }

  /** Distinct rows keep distinct digests, so a row occurs as often as its digest. */
  lemma {:induction false} CountKept(hash: Hash, rows: seq<Row>, row: Row)
    requires forall r :: r in rows && RowDigest(hash, r) == RowDigest(hash, row) ==> r == row
    ensures multiset(Digests(hash, rows))[RowDigest(hash, row)] == multiset(rows)[row]
  {
    if rows != [] {
      assert rows == [rows[0]] + rows[1..];
      assert Digests(hash, rows) == [RowDigest(hash, rows[0])] + Digests(hash, rows[1..]);
      CountKept(hash, rows[1..], row);
    }
  }

  /** Within collision-free inputs, digests decide equality of rows. */
  lemma DigestPinsRow(hash: Hash, inputs: set<Bytes>, a: Row, b: Row)
    requires CollisionFree(hash, inputs) && RowInput(a) in inputs && RowInput(b) in inputs
    requires Encodable(a) && Encodable(b) && RowDigest(hash, a) == RowDigest(hash, b)
    ensures a == b
  {
    assert RowInput(a) == RowInput(b);
    assert Framed(a) == RowInput(a)[|ROW_DOMAIN|..] && Framed(b) == RowInput(b)[|ROW_DOMAIN|..];
    FramedInjective(a, b);
  }

  lemma DigestsPinRows(hash: Hash, inputs: set<Bytes>, a: seq<Row>, b: seq<Row>)
    requires CollisionFree(hash, inputs) && Summarizable(a) && Summarizable(b)
    requires forall row :: row in a || row in b ==> RowInput(row) in inputs
    requires multiset(Digests(hash, a)) == multiset(Digests(hash, b))
    ensures multiset(a) == multiset(b)
  {
    forall row ensures multiset(a)[row] == multiset(b)[row] {
      if row in a || row in b {
        forall r | r in a + b && RowDigest(hash, r) == RowDigest(hash, row) ensures r == row {
          DigestPinsRow(hash, inputs, r, row);
        }
        assert forall r :: r in a || r in b ==> r in a + b;
        CountKept(hash, a, row);
        CountKept(hash, b, row);
      }
    }
  }

  lemma DigestLengths(hash: Hash, rows: seq<Row>)
    requires forall x :: |hash(x)| == 32
    ensures SameLength(Sort(LexLe, Digests(hash, rows)), 32)
  {
    var digests := Digests(hash, rows);
    SameMembers(digests, Sort(LexLe, digests));
    assert forall d :: d in digests ==> |d| == 32;
  }

  /**
    Two summaries agree exactly when the tables have the same columns and hold the same rows equally often,
    in whatever order they were read.
  */
  lemma SummaryDecidesTable(hash: Hash, columnsA: seq<string>, a: seq<Row>, columnsB: seq<string>, b: seq<Row>)
    requires forall x :: |hash(x)| == 32
    requires CollisionFree(hash, Hashed(hash, a) + Hashed(hash, b))
    requires Summarizable(a) && Summarizable(b)
    ensures SummaryOf(hash, columnsA, a) == SummaryOf(hash, columnsB, b)
            <==> columnsA == columnsB && multiset(a) == multiset(b)
  {
    if SummaryOf(hash, columnsA, a) == SummaryOf(hash, columnsB, b) {
      var inputs := Hashed(hash, a) + Hashed(hash, b);
      var sortedA, sortedB := Sort(LexLe, Digests(hash, a)), Sort(LexLe, Digests(hash, b));
      assert RowSetInput(hash, a) in inputs && RowSetInput(hash, b) in inputs;
      assert RowSetInput(hash, a) == RowSetInput(hash, b);
      assert Concat(sortedA) == RowSetInput(hash, a)[|ROWSET_DOMAIN|..];
      assert Concat(sortedB) == RowSetInput(hash, b)[|ROWSET_DOMAIN|..];
      DigestLengths(hash, a);
      DigestLengths(hash, b);
      ConcatInjective(sortedA, sortedB, 32);
      DigestsPinRows(hash, inputs, a, b);
    } else if multiset(a) == multiset(b) {
      ReadOrderIrrelevant(hash, columnsA, a, b);
    }
  }
}
