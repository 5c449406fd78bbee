/** Cardinality facts about finite sets and sequences. */
module SetFacts {

  lemma {:induction false} SubsetSize<T>(s: set<T>, t: set<T>)
    requires s <= t
    ensures |s| <= |t|
    decreases t
  {
    if s != {} {
      var x :| x in s;
      SubsetSize(s - {x}, t - {x});
    }
  }

  lemma {:induction false} SeqCovers<T>(s: set<T>, q: seq<T>)
    requires forall x :: x in s ==> x in q
    ensures |s| <= |q|
    decreases |q|
  {
    if s != {} {
      var x :| x in s;
      var i :| 0 <= i < |q| && q[i] == x;
      var q' := q[..i] + q[i + 1..];
      forall y | y in s - {x} ensures y in q' {
        var j :| 0 <= j < |q| && q[j] == y;
        assert q' [if j < i then j else j - 1] == y;
      }
      SeqCovers(s - {x}, q');
    }
  }

  lemma NothingShared<T(!new)>(a: set<T>, b: set<T>)
    requires forall x :: x in a ==> x !in b
    ensures a !! b
  {
  }
}
