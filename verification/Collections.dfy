/** Small facts about finite sets and sequences shared by the protocol models. */
module Collections {

  datatype Option<+T> = None | Some(value: T)

  predicate NoDup<T(==)>(q: seq<T>) {
    forall i, j :: 0 <= i < j < |q| ==> q[i] != q[j]
  }

  /** The first index whose element satisfies p, or the length if there is none. */
  function IndexWhere<T>(rows: seq<T>, p: T -> bool): (i: nat)
    ensures i <= |rows| && (i < |rows| ==> p(rows[i])) && forall j :: 0 <= j < i ==> !p(rows[j])
  {
    if rows == [] || p(rows[0]) then 0 else 1 + IndexWhere(rows[1..], p)
  }

  lemma {:induction false} SubsetSize<T>(a: set<T>, b: set<T>)
    requires a <= b
    ensures |a| <= |b|
  {
    if a != {} {
      var x :| x in a;
      SubsetSize(a - {x}, b - {x});
    }
  }

  /** The sequence without its first occurrence of x. */
  function Without<T(==)>(q: seq<T>, x: T): (r: seq<T>)
    ensures x !in q ==> r == q
    ensures x in q ==> |r| == |q| - 1
    ensures forall y :: y in r ==> y in q
    ensures forall y :: y in q && y != x ==> y in r
  {
    if q == [] then []
    else if q[0] == x then q[1..]
    else [q[0]] + Without(q[1..], x)
  }

  lemma {:induction false} WithoutNoDup<T>(q: seq<T>, x: T)
    requires NoDup(q)
    ensures NoDup(Without(q, x)) && x !in Without(q, x)
  {
    if q != [] {
      var tail := q[1..];
      assert NoDup(tail) && q[0] !in tail;
      if q[0] != x {
        WithoutNoDup(tail, x);
      }
    }
  }
}
