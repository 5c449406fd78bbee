/**
  The intrusive priority queue of shared/queue.h, as a sequence of element numbers.

  The list is kept in increasing order of the field named at insertion.  `queue_add` scans from
  the front for the first element whose key is not smaller than the new one, `queue_out` removes
  the last element, `queue_out_bot` the first, and `queue_del` unlinks a given element.  The keys
  live in the records the list runs through, so they are passed as a table indexed by element.
*/
module OrderedQueue {

  /** Every element of `q` is an index of the key table. */
  predicate Indexes(q: seq<int>, keys: seq<int>) {
    forall i :: 0 <= i < |q| ==> 0 <= q[i] < |keys|
  }

  ghost predicate NoDup(q: seq<int>) {
    forall i, j :: 0 <= i < j < |q| ==> q[i] != q[j]
  }

  /** Increasing order of the keys, which is what `queue_add` maintains. */
  ghost predicate Sorted(q: seq<int>, keys: seq<int>) {
    && Indexes(q, keys)
    && forall i, j :: 0 <= i < j < |q| ==> keys[q[i]] <= keys[q[j]]
  }

  /** The place where `queue_add` stops scanning for key `k`. */
  function Position(q: seq<int>, keys: seq<int>, k: int): (i: nat)
    requires Indexes(q, keys)
    ensures i <= |q|
    ensures forall j :: 0 <= j < i ==> keys[q[j]] < k
    ensures i < |q| ==> k <= keys[q[i]]
  {
    if q == [] || k <= keys[q[0]] then 0 else 1 + Position(q[1..], keys, k)
  }

  /** `queue_add` */
  function Add(q: seq<int>, keys: seq<int>, e: int): (r: seq<int>)
    requires Indexes(q, keys) && 0 <= e < |keys|
    ensures Indexes(r, keys) && |r| == |q| + 1
  {
    var i := Position(q, keys, keys[e]);
    q[..i] + [e] + q[i..]
  }

  /** `queue_del`; a no-op when the element is not in the list. */
  function Remove(q: seq<int>, e: int): (r: seq<int>)
    ensures |r| <= |q|
    ensures e in q ==> |r| == |q| - 1
    ensures e !in q ==> r == q
  {
    if q == [] then [] else if q[0] == e then q[1..] else [q[0]] + Remove(q[1..], e)
  }

  lemma AddMembers(q: seq<int>, keys: seq<int>, e: int)
    requires Indexes(q, keys) && 0 <= e < |keys|
    ensures forall x :: x in Add(q, keys, e) <==> x == e || x in q
    ensures NoDup(q) && e !in q ==> NoDup(Add(q, keys, e))
  {
    hide Position; hide Sorted;
    InsertMembers(q, e, Position(q, keys, keys[e]));
  }

  lemma InsertMembers(q: seq<int>, e: int, i: nat)
    requires i <= |q|
    ensures var r := q[..i] + [e] + q[i..];
      (forall x :: x in r <==> x == e || x in q) && (NoDup(q) && e !in q ==> NoDup(r))
  {
    var r := q[..i] + [e] + q[i..];
    assert q == q[..i] + q[i..];
    if NoDup(q) && e !in q {
      forall j, k | 0 <= j < k < |r| ensures r[j] != r[k] {
        assert r[j] == if j < i then q[j] else if j == i then e else q[j - 1];
        assert r[k] == if k < i then q[k] else if k == i then e else q[k - 1];
      }
    }
  }

  lemma AddSorted(q: seq<int>, keys: seq<int>, e: int)
    requires Sorted(q, keys) && 0 <= e < |keys|
    ensures Sorted(Add(q, keys, e), keys)
  {
  }

  lemma AddSortedIff(q: seq<int>, keys: seq<int>, e: int)
    requires Indexes(q, keys) && 0 <= e < |keys|
    ensures Sorted(Add(q, keys, e), keys) <==> Sorted(q, keys)
  {
    var i, r := Position(q, keys, keys[e]), Add(q, keys, e);
    if Sorted(r, keys) {
      forall j | 0 <= j < |q| ensures q[j] == r[if j < i then j else j + 1] {
      }
    } else if Sorted(q, keys) {
      AddSorted(q, keys, e);
    }
  }

  /** First in, first out among equal keys: the newcomer leaves after every element of its own
      key, since those all stand between it and the end of the list. */
  lemma AddIsFifo(q: seq<int>, keys: seq<int>, e: int, j: nat)
    requires Sorted(q, keys) && 0 <= e < |keys| && j < |q| && keys[q[j]] == keys[e]
    ensures var i := Position(q, keys, keys[e]); i <= j && Add(q, keys, e)[i] == e && Add(q, keys, e)[j + 1] == q[j]
  {
  }

  lemma {:induction false} RemoveMembers(q: seq<int>, e: int)
    requires NoDup(q)
    ensures NoDup(Remove(q, e))
    ensures forall x :: x in Remove(q, e) <==> x in q && x != e
    ensures forall i :: 0 <= i < |Remove(q, e)| ==> Remove(q, e)[i] in q
  {
    if q != [] {
      hide Remove;
      RemoveStep(q, e);
      ConsMembers(q);
      if q[0] == e {
        assert forall x :: x in q[1..] ==> x != e;
      } else {
        RemoveMembers(q[1..], e);
        ConsNoDup(q[0], Remove(q[1..], e));
      }
    }
  }

  lemma RemoveStep(q: seq<int>, e: int)
    requires q != []
    ensures Remove(q, e) == if q[0] == e then q[1..] else [q[0]] + Remove(q[1..], e)
  {
  }

  lemma ConsMembers(q: seq<int>)
    requires q != []
    ensures forall x :: x in q <==> x == q[0] || x in q[1..]
    ensures NoDup(q) ==> NoDup(q[1..]) && q[0] !in q[1..]
  {
    assert q == [q[0]] + q[1..];
  }

  lemma ConsNoDup(x: int, q: seq<int>)
    ensures forall y :: y in [x] + q <==> y == x || y in q
    ensures NoDup(q) && x !in q ==> NoDup([x] + q)
  {
  }

  lemma {:induction false} RemoveIn(q: seq<int>, e: int)
    ensures forall i :: 0 <= i < |Remove(q, e)| ==> Remove(q, e)[i] in q
  {
    if q != [] && q[0] != e {
      RemoveIn(q[1..], e);
    }
  }

  /** Order depends only on the keys of the members. */
  lemma SortedFrame(q: seq<int>, keys: seq<int>, keys': seq<int>)
    requires Sorted(q, keys) && |keys'| == |keys|
    requires forall i :: 0 <= i < |q| ==> keys'[q[i]] == keys[q[i]]
    ensures Sorted(q, keys')
  {
  }

  lemma {:induction false} RemoveMiddle(a: seq<int>, e: int, b: seq<int>)
    requires e !in a
    ensures Remove(a + [e] + b, e) == a + b
  {
    hide Remove;
    var q := a + [e] + b;
    RemoveStep(q, e);
    if a == [] {
      assert q[1..] == b && a + b == b;
    } else {
      MiddleTail(a, e, b);
      RemoveMiddle(a[1..], e, b);
    }
  }

  lemma MiddleTail(a: seq<int>, e: int, b: seq<int>)
    requires a != []
    ensures (a + [e] + b)[0] == a[0] && (a + [e] + b)[1..] == a[1..] + [e] + b
    ensures a + b == [a[0]] + (a[1..] + b)
  {
  }

  lemma RemoveAt(q: seq<int>, e: int, i: nat)
    requires i < |q| && q[i] == e && e !in q[..i]
    ensures Remove(q, e) == q[..i] + q[i + 1..]
  {
    RemoveMiddle(q[..i], e, q[i + 1..]);
    assert q == q[..i] + [e] + q[i + 1..];
  }

  /** The element at place j after the one at place i has left. */
  lemma WithoutAt(q: seq<int>, i: nat, j: nat)
    requires i < |q| && j < |q| - 1
    ensures (q[..i] + q[i + 1..])[j] == q[if j < i then j else j + 1]
  {
  }

  /** The first place of an element. */
  lemma {:induction false} FirstAt(q: seq<int>, e: int) returns (i: nat)
    requires e in q
    ensures i < |q| && q[i] == e && e !in q[..i]
  {
    if q[0] == e {
      i := 0;
    } else {
      i := FirstAt(q[1..], e);
      i := i + 1;
      assert q[..i] == [q[0]] + q[1..][..i - 1];
    }
  }

  lemma RemoveSorted(q: seq<int>, keys: seq<int>, e: int)
    requires Sorted(q, keys)
    ensures Sorted(Remove(q, e), keys)
  {
    hide Remove;
    if e in q {
      var i := FirstAt(q, e);
      RemoveAt(q, e, i);
      var r := q[..i] + q[i + 1..];
      forall j | 0 <= j < |r| ensures r[j] == q[if j < i then j else j + 1] {
        WithoutAt(q, i, j);
      }
    }
  }

  /** Adding to a queue and removing again gives the queue back. */
  lemma AddThenRemove(q: seq<int>, keys: seq<int>, e: int)
    requires Indexes(q, keys) && 0 <= e < |keys| && e !in q
    ensures Remove(Add(q, keys, e), e) == q
  {
    var i := Position(q, keys, keys[e]);
    RemoveMiddle(q[..i], e, q[i..]);
    assert q == q[..i] + q[i..];
  }
}
