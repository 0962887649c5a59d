/** The commit index of a leader: sort the indices its peers hold, largest first, and take
    the element at position n / 2. */
module Median {

  predicate Descending(s: seq<nat>) {
    |s| < 2 || (s[0] >= s[1] && Descending(s[1..]))
  }

  function Insert(x: nat, s: seq<nat>): (r: seq<nat>)
    ensures |r| == |s| + 1
  {
    if s == [] || x >= s[0] then [x] + s else [s[0]] + Insert(x, s[1..])
  }

  function SortDescending(s: seq<nat>): (r: seq<nat>)
    ensures |r| == |s|
  {
    if s == [] then [] else Insert(s[0], SortDescending(s[1..]))
  }

  lemma {:induction false} InsertSorts(x: nat, s: seq<nat>)
    requires Descending(s)
    ensures Descending(Insert(x, s))
    ensures Insert(x, s)[0] == if s != [] && s[0] > x then s[0] else x
  {
    if s != [] && x < s[0] {
      InsertSorts(x, s[1..]);
      assert Insert(x, s)[1..] == Insert(x, s[1..]);
    } else {
      assert ([x] + s)[1..] == s;
    }
  }

  lemma {:induction false} InsertPermutes(x: nat, s: seq<nat>)
    ensures multiset(Insert(x, s)) == multiset(s) + multiset{x}
  {
    if s != [] && x < s[0] {
      InsertPermutes(x, s[1..]);
      assert s == [s[0]] + s[1..];
    }
  }

  // SortDescending sorts: the result is descending and a permutation of its argument.
  lemma {:induction false} SortSorts(s: seq<nat>)
    ensures Descending(SortDescending(s)) && multiset(SortDescending(s)) == multiset(s)
  {
    if s != [] {
      SortSorts(s[1..]);
      InsertSorts(s[0], SortDescending(s[1..]));
      InsertPermutes(s[0], SortDescending(s[1..]));
      assert s == [s[0]] + s[1..];
    }
  }

  function MedianOf(s: seq<nat>): nat
    requires s != []
  {
    SortDescending(s)[|s| / 2]
  }

  // How many elements are at least v.
  function CountAtLeast(s: seq<nat>, v: nat): nat {
    if s == [] then 0 else (if s[0] >= v then 1 else 0) + CountAtLeast(s[1..], v)
  }

  lemma {:induction false} CountInsert(x: nat, s: seq<nat>, v: nat)
    ensures CountAtLeast(Insert(x, s), v) == CountAtLeast([x] + s, v)
  {
    if s != [] && x < s[0] {
      CountInsert(x, s[1..], v);
      assert Insert(x, s)[1..] == Insert(x, s[1..]);
      assert ([x] + s[1..])[1..] == s[1..];
      assert ([x] + s)[1..] == s;
    }
  }

  lemma {:induction false} CountSorted(s: seq<nat>, v: nat)
    ensures CountAtLeast(SortDescending(s), v) == CountAtLeast(s, v)
  {
    if s != [] {
      CountSorted(s[1..], v);
      CountInsert(s[0], SortDescending(s[1..]), v);
      assert ([s[0]] + SortDescending(s[1..]))[1..] == SortDescending(s[1..]);
    }
  }

  lemma {:induction false} CountSplit(a: seq<nat>, b: seq<nat>, v: nat)
    ensures CountAtLeast(a + b, v) == CountAtLeast(a, v) + CountAtLeast(b, v)
  {
    if a == [] {
      assert a + b == b;
    } else {
      assert (a + b)[1..] == a[1..] + b;
      CountSplit(a[1..], b, v);
    }
  }

  // In a descending sequence the elements that are at least v come first.
  lemma {:induction false} CountDescending(s: seq<nat>, v: nat, i: nat)
    requires Descending(s) && i < |s|
    ensures s[i] >= v <==> CountAtLeast(s, v) >= i + 1
    decreases i
  {
    if s[0] < v {
      CountNone(s, v);
      HeadIsGreatest(s, i);
    } else if i > 0 {
      CountDescending(s[1..], v, i - 1);
    }
  }

  lemma {:induction false} HeadIsGreatest(s: seq<nat>, i: nat)
    requires Descending(s) && i < |s|
    ensures s[0] >= s[i]
  {
    if i > 0 {
      HeadIsGreatest(s[1..], i - 1);
    }
  }

  lemma {:induction false} CountNone(s: seq<nat>, v: nat)
    requires Descending(s) && s != [] && s[0] < v
    ensures CountAtLeast(s, v) == 0
  {
    if |s| > 1 { CountNone(s[1..], v); }
  }

  // The element at n / 2 is the greatest index that a strict majority holds: at any v, a strict
  // majority is at v or beyond exactly when the median is.
  lemma MedianIsMajority(s: seq<nat>, v: nat)
    requires s != []
    ensures MedianOf(s) >= v <==> 2 * CountAtLeast(s, v) > |s|
  {
    var r := SortDescending(s);
    SortSorts(s);
    CountSorted(s, v);
    CountDescending(r, v, |r| / 2);
  }

  // The servers behind the count, as a set.
  ghost function HoldersOf(s: seq<nat>, v: nat): (q: set<nat>) {
    set i: nat | i < |s| && s[i] >= v
  }

  lemma {:induction false} HoldersCount(s: seq<nat>, v: nat)
    ensures |HoldersOf(s, v)| == CountAtLeast(s, v)
    decreases |s|
  {
    if s == [] {
      assert HoldersOf(s, v) == {};
    } else {
      var m := |s| - 1;
      HoldersCount(s[..m], v);
      CountSplit(s[..m], [s[m]], v);
      assert s == s[..m] + [s[m]];
      if s[m] >= v {
        assert HoldersOf(s, v) == HoldersOf(s[..m], v) + {m};
      } else {
        assert HoldersOf(s, v) == HoldersOf(s[..m], v);
      }
    }
  }
}
