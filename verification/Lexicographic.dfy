/** The order in which Python compares strings and `bytes`. */
module Lexicographic {

  ghost predicate StrictOrder<T(!new)>(lt: (T, T) -> bool) {
    && (forall x, y :: lt(x, y) || lt(y, x) || x == y)
    && (forall x, y :: !(lt(x, y) && lt(y, x)))
    && (forall x, y, z :: lt(x, y) && lt(y, z) ==> lt(x, z))
  }

  predicate Le<T(==)>(lt: (T, T) -> bool, a: seq<T>, b: seq<T>) {
    a == [] || (b != [] && (lt(a[0], b[0]) || (a[0] == b[0] && Le(lt, a[1..], b[1..]))))
  }

  lemma {:induction false} Total<T(!new)>(lt: (T, T) -> bool, a: seq<T>, b: seq<T>)
    requires StrictOrder(lt)
    ensures Le(lt, a, b) || Le(lt, b, a)
    decreases |a|
  {
    if a != [] && b != [] { Total(lt, a[1..], b[1..]); }
  }

  lemma {:induction false} Transitive<T(!new)>(lt: (T, T) -> bool, a: seq<T>, b: seq<T>, c: seq<T>)
    requires StrictOrder(lt) && Le(lt, a, b) && Le(lt, b, c)
    ensures Le(lt, a, c)
    decreases |a|
  {
    if a != [] && a[0] == b[0] == c[0] { Transitive(lt, a[1..], b[1..], c[1..]); }
  }

  lemma {:induction false} Antisymmetry<T(!new)>(lt: (T, T) -> bool, a: seq<T>, b: seq<T>)
    requires StrictOrder(lt) && Le(lt, a, b) && Le(lt, b, a)
    ensures a == b
    decreases |a|
  {
    if a != [] {
      Antisymmetry(lt, a[1..], b[1..]);
      assert a == [a[0]] + a[1..] && b == [b[0]] + b[1..];
    }
  }

  /** Of two different sequences in order the first ends first, or is below where they first differ. */
  lemma {:induction false} FirstDifference<T(!new)>(lt: (T, T) -> bool, a: seq<T>, b: seq<T>) returns (k: nat)
    requires StrictOrder(lt) && Le(lt, a, b) && a != b
    ensures k < |b| && k <= |a| && a[..k] == b[..k] && (k == |a| || lt(a[k], b[k]))
    decreases |a|
  {
    if a == [] || a[0] != b[0] {
      k := 0;
    } else {
      assert a == [a[0]] + a[1..] && b == [b[0]] + b[1..];
      assert a[1..] != b[1..];
      var m := FirstDifference(lt, a[1..], b[1..]);
      k := m + 1;
      assert a[..k] == [a[0]] + a[1..][..m] && b[..k] == [b[0]] + b[1..][..m];
    }
  }
}
