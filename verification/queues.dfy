// Sequences seen as queues: the abstract values of the kernel's linked lists.
module Queues {

  // A node's priority, a signed 16-bit number.
  type Prio = p: int | -0x8000 <= p <= 0x7FFF

  // s with x placed before position i.
  function InsertAt<T>(s: seq<T>, i: nat, x: T): (r: seq<T>)
    requires i <= |s|
    ensures |r| == |s| + 1 && r[i] == x
  {
    s[..i] + [x] + s[i..]
  }

  // s without the element at position i.
  function RemoveAt<T>(s: seq<T>, i: nat): (r: seq<T>)
    requires i < |s|
    ensures |r| == |s| - 1
  {
    s[..i] + s[i + 1..]
  }

  // The first position whose key is below k: every earlier key is at least k.
  function Slot(keys: seq<int>, k: int): (i: nat)
    ensures i <= |keys|
    ensures forall j :: 0 <= j < i ==> keys[j] >= k
    ensures i < |keys| ==> keys[i] < k
  {
    if keys == [] || keys[0] < k then 0
    else
      var i := Slot(keys[1..], k);
      assert forall j :: 0 <= j < i ==> keys[j + 1] == keys[1..][j];
      i + 1
  }

  ghost predicate NoDup<T>(s: seq<T>) {
    forall i, j :: 0 <= i < j < |s| ==> s[i] != s[j]
  }

  // Where x first occurs in s.
  function IndexOf<T(==)>(s: seq<T>, x: T): (i: nat)
    requires x in s
    ensures i < |s| && s[i] == x
    ensures forall j :: 0 <= j < i ==> s[j] != x
  {
    if s[0] == x then 0 else 1 + IndexOf(s[1..], x)
  }

  // s without its first occurrence of x (s itself when x does not occur).
  function Without<T(==)>(s: seq<T>, x: T): (r: seq<T>)
  {
    if x in s then RemoveAt(s, IndexOf(s, x)) else s
  }

  lemma RemoveAtIndex<T>(s: seq<T>, i: nat, j: nat)
    requires i < |s| && j < |s| - 1
    ensures RemoveAt(s, i)[j] == s[if j < i then j else j + 1]
  {}

  lemma RemoveAtNoDup<T>(s: seq<T>, i: nat)
    requires NoDup(s) && i < |s|
    ensures NoDup(RemoveAt(s, i)) && s[i] !in RemoveAt(s, i)
  {
    var r := RemoveAt(s, i);
    forall j, k | 0 <= j < k < |r| ensures r[j] != r[k] {
      RemoveAtIndex(s, i, j);
      RemoveAtIndex(s, i, k);
    }
    forall j | 0 <= j < |r| ensures r[j] != s[i] {
      RemoveAtIndex(s, i, j);
    }
  }

  lemma RemoveAtMembers<T>(s: seq<T>, i: nat, y: T)
    requires i < |s| && y != s[i]
    ensures y in RemoveAt(s, i) <==> y in s
  {
    if y in s {
      var k := IndexOf(s, y);
      RemoveAtIndex(s, i, if k < i then k else k - 1);
    }
  }

  lemma WithoutIsExact<T>(s: seq<T>, x: T)
    requires NoDup(s)
    ensures NoDup(Without(s, x)) && x !in Without(s, x)
    ensures forall y :: y != x ==> (y in Without(s, x) <==> y in s)
  {
    if x in s {
      var i := IndexOf(s, x);
      RemoveAtNoDup(s, i);
      forall y | y != x ensures y in Without(s, x) <==> y in s {
        RemoveAtMembers(s, i, y);
      }
    }
  }

  lemma InsertAtIsExact<T>(s: seq<T>, i: nat, x: T)
    requires i <= |s| && NoDup(s) && x !in s
    ensures NoDup(InsertAt(s, i, x))
    ensures forall y :: y in InsertAt(s, i, x) <==> y == x || y in s
  {
    var r := InsertAt(s, i, x);
    assert forall j :: 0 <= j < |r| ==> r[j] == (if j < i then s[j] else if j == i then x else s[j - 1]);
    forall y | y in s ensures y in r {
      var k := IndexOf(s, y);
      assert r[if k < i then k else k + 1] == y;
    }
  }

  // -- Queues by key, first come first served among equal keys --

  // What decides a queued element's place: its key and the stamp of its insertion.
  datatype Rank = Rank(key: int, stamp: nat)

  ghost predicate Before(a: Rank, b: Rank) {
    a.key > b.key || (a.key == b.key && a.stamp < b.stamp)
  }

  ghost predicate Sorted(rs: seq<Rank>) {
    forall i, j :: 0 <= i < j < |rs| ==> Before(rs[i], rs[j])
  }

  function KeysOf(rs: seq<Rank>): (ks: seq<int>)
    ensures |ks| == |rs| && forall i :: 0 <= i < |rs| ==> ks[i] == rs[i].key
  {
    seq(|rs|, i requires 0 <= i < |rs| => rs[i].key)
  }

  // In a sorted queue everything from the slot on has a smaller key.
  lemma SlotSplits(rs: seq<Rank>, k: int, i: nat)
    requires Sorted(rs) && i < |rs|
    ensures i < Slot(KeysOf(rs), k) <==> rs[i].key >= k
  {
    var n := Slot(KeysOf(rs), k);
    if i < n {
      assert KeysOf(rs)[i] >= k;
    } else if n < i {
      assert KeysOf(rs)[n] < k && Before(rs[n], rs[i]);
    }
  }

  // Inserting at the slot with a fresh stamp keeps the order.
  lemma SortedInsert(rs: seq<Rank>, r: Rank)
    requires Sorted(rs) && forall i :: 0 <= i < |rs| ==> rs[i].stamp < r.stamp
    ensures Sorted(InsertAt(rs, Slot(KeysOf(rs), r.key), r))
  {
    var n := Slot(KeysOf(rs), r.key);
    var s := InsertAt(rs, n, r);
    forall i, j | 0 <= i < j < |s| ensures Before(s[i], s[j]) {
      if j == n {
        SlotSplits(rs, r.key, i);
      } else if i == n {
        SlotSplits(rs, r.key, j - 1);
      } else {
        assert Before(rs[if i < n then i else i - 1], rs[if j < n then j else j - 1]);
      }
    }
  }

  lemma SortedRemove(rs: seq<Rank>, n: nat)
    requires Sorted(rs) && n < |rs|
    ensures Sorted(RemoveAt(rs, n))
  {
    var s := RemoveAt(rs, n);
    forall i, j | 0 <= i < j < |s| ensures Before(s[i], s[j]) {
      assert Before(rs[if i < n then i else i + 1], rs[if j < n then j else j + 1]);
    }
  }

  // Changing one rank keeps the order exactly when its neighbours still bracket it.
  lemma SortedUpdate(rs: seq<Rank>, n: nat, r: Rank)
    requires Sorted(rs) && n < |rs|
    ensures Sorted(rs[n := r]) <==>
      (n > 0 ==> Before(rs[n - 1], r)) && (n + 1 < |rs| ==> Before(r, rs[n + 1]))
  {
    var s := rs[n := r];
    if n > 0 && !Before(rs[n - 1], r) { assert !Before(s[n - 1], s[n]); }
    if n + 1 < |rs| && !Before(r, rs[n + 1]) { assert !Before(s[n], s[n + 1]); }
    if (n > 0 ==> Before(rs[n - 1], r)) && (n + 1 < |rs| ==> Before(r, rs[n + 1])) {
      forall i, j | 0 <= i < j < |s| ensures Before(s[i], s[j]) {
        assert i != n && j != n ==> Before(rs[i], rs[j]);
        if j == n && i < n - 1 { assert Before(rs[i], rs[n - 1]); }
        if i == n && n + 1 < j { assert Before(rs[n + 1], rs[j]); }
      }
    }
  }

  // -- Priorities alone --

  ghost predicate Descending(ks: seq<int>) {
    forall i, j :: 0 <= i < j < |ks| ==> ks[i] >= ks[j]
  }

  lemma DescendingSplits(ks: seq<int>, k: int, i: nat)
    requires Descending(ks) && i < |ks|
    ensures i < Slot(ks, k) <==> ks[i] >= k
  {
    var n := Slot(ks, k);
    if n < i { assert ks[n] >= ks[i]; }
  }

  lemma DescendingInsert(ks: seq<int>, k: int)
    requires Descending(ks)
    ensures Descending(InsertAt(ks, Slot(ks, k), k))
  {
    var n := Slot(ks, k);
    var s := InsertAt(ks, n, k);
    forall i, j | 0 <= i < j < |s| ensures s[i] >= s[j] {
      if j == n {
        DescendingSplits(ks, k, i);
      } else if i == n {
        DescendingSplits(ks, k, j - 1);
      } else {
        assert s[i] == ks[if i < n then i else i - 1] && s[j] == ks[if j < n then j else j - 1];
      }
    }
  }

  // Changing one key keeps the order exactly when it still lies between its neighbours.
  lemma DescendingUpdate(ks: seq<int>, n: nat, k: int)
    requires Descending(ks) && n < |ks|
    ensures Descending(ks[n := k]) <==>
      (n > 0 ==> ks[n - 1] >= k) && (n + 1 < |ks| ==> k >= ks[n + 1])
  {
    var s := ks[n := k];
    if n > 0 && !(ks[n - 1] >= k) { assert !(s[n - 1] >= s[n]); }
    if n + 1 < |ks| && !(k >= ks[n + 1]) { assert !(s[n] >= s[n + 1]); }
    if (n > 0 ==> ks[n - 1] >= k) && (n + 1 < |ks| ==> k >= ks[n + 1]) {
      forall i, j | 0 <= i < j < |s| ensures s[i] >= s[j] {
        assert i != n && j != n ==> ks[i] >= ks[j];
        if j == n && i < n - 1 { assert ks[i] >= ks[n - 1]; }
        if i == n && n + 1 < j { assert ks[n + 1] >= ks[j]; }
      }
    }
  }
}
