/** `Array.prototype.sort` with the comparator `(a, b) => key(a) - key(b)`:
    a stable ascending sort by an integer key. */
module StableSort {
  import opened Seqs

  predicate SortedBy<T>(s: seq<T>, key: T -> int) {
    forall i, j :: 0 <= i < j < |s| ==> key(s[i]) <= key(s[j])
  }

  /** The predicate "has key `k`". */
  function HasKey<T>(key: T -> int, k: int): T -> bool {
    x => key(x) == k
  }

  /** Places `x` in front of the first element whose key is not smaller. */
  function Insert<T>(x: T, s: seq<T>, key: T -> int): (r: seq<T>)
    ensures |r| == |s| + 1
    ensures r[0] == x || (s != [] && r[0] == s[0])
    ensures multiset(r) == multiset(s) + multiset{x}
    decreases |s|
  {
    if s == [] then [x]
    else if key(x) <= key(s[0]) then [x] + s
    else
      var t := Insert(x, s[1..], key);
      assert s == [s[0]] + s[1..];
      [s[0]] + t
  }

  lemma {:induction false} InsertKeepsSorted<T>(x: T, s: seq<T>, key: T -> int)
    requires SortedBy(s, key)
    ensures SortedBy(Insert(x, s, key), key)
    decreases |s|
  {
    if s != [] && key(x) > key(s[0]) {
      InsertKeepsSorted(x, s[1..], key);
      var t := Insert(x, s[1..], key);
      assert key(s[0]) <= key(t[0]);
      var r := [s[0]] + t;
      forall i, j | 0 <= i < j < |r| ensures key(r[i]) <= key(r[j]) {
        if i > 0 {
          assert r[i] == t[i - 1] && r[j] == t[j - 1];
        } else {
          assert key(t[0]) <= key(t[j - 1]) || j == 1;
        }
      }
    }
  }

  /** One step of InsertWithKey: an element of smaller key than `x` that stays
      in front of it does not disturb `x`'s place among its equals. */
  lemma PassSmaller<T>(x: T, y: T, rest: seq<T>, t: seq<T>, key: T -> int, k: int)
    requires key(y) < key(x)
    requires Filter(t, HasKey(key, k)) == (if key(x) == k then [x] else []) + Filter(rest, HasKey(key, k))
    ensures Filter([y] + t, HasKey(key, k)) == (if key(x) == k then [x] else []) + Filter([y] + rest, HasKey(key, k))
  {
    var p := HasKey(key, k);
    FilterConcat([y], t, p);
    FilterConcat([y], rest, p);
    FilterSingleton(y, p);
    if key(x) == k {
      assert Filter([y], p) == [];
      assert [] + Filter(t, p) == Filter(t, p);
      assert [] + Filter(rest, p) == Filter(rest, p);
    } else {
      assert [] + Filter(rest, p) == Filter(rest, p);
    }
  }

  /** `InsertWithKey` where `x` goes to the front. */
  lemma InsertAtFrontWithKey<T>(x: T, s: seq<T>, key: T -> int, k: int)
    requires s == [] || key(x) <= key(s[0])
    ensures Filter(Insert(x, s, key), HasKey(key, k)) ==
      (if key(x) == k then [x] else []) + Filter(s, HasKey(key, k))
  {
    var p := HasKey(key, k);
    assert Insert(x, s, key) == [x] + s;
    FilterSingleton(x, p);
    FilterConcat([x], s, p);
  }

  /** Inserting `x` adds it in front of every element of the same key. */
  lemma {:induction false} InsertWithKey<T>(x: T, s: seq<T>, key: T -> int, k: int)
    ensures Filter(Insert(x, s, key), HasKey(key, k)) ==
      (if key(x) == k then [x] else []) + Filter(s, HasKey(key, k))
    decreases |s|
  {
    if s == [] || key(x) <= key(s[0]) {
      InsertAtFrontWithKey(x, s, key, k);
    } else {
      InsertWithKey(x, s[1..], key, k);
      assert Insert(x, s, key) == [s[0]] + Insert(x, s[1..], key);
      PassSmaller(x, s[0], s[1..], Insert(x, s[1..], key), key, k);
      assert s == [s[0]] + s[1..];
    }
  }

  /** The stable sort: ascending by key, a permutation of the input, and for
      every key the elements with that key in their input order. */
  function SortBy<T>(s: seq<T>, key: T -> int): (r: seq<T>)
    ensures SortedBy(r, key)
    ensures multiset(r) == multiset(s)
    ensures |r| == |s|
    ensures forall k :: Filter(r, HasKey(key, k)) == Filter(s, HasKey(key, k))
    decreases |s|
  {
    if s == [] then []
    else
      var t := SortBy(s[1..], key);
      InsertKeepsSorted(s[0], t, key);
      assert s == [s[0]] + s[1..];
      var r := Insert(s[0], t, key);
      forall k ensures Filter(r, HasKey(key, k)) == Filter(s, HasKey(key, k)) {
        InsertWithKey(s[0], t, key, k);
        FilterConcat([s[0]], s[1..], HasKey(key, k));
      }
      r
  }

  /** An input already in key order comes out unchanged. */
  lemma {:induction false} SortByKeepsSortedInput<T>(s: seq<T>, key: T -> int)
    requires SortedBy(s, key)
    ensures SortBy(s, key) == s
    decreases |s|
  {
    if s != [] {
      SortByKeepsSortedInput(s[1..], key);
      assert s == [s[0]] + s[1..];
    }
  }
}
