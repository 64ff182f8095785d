/** The two array operations the ledgers rely on, on sequences: JavaScript's
    `Array.prototype.sort` with a comparator that subtracts date keys (a stable
    sort since ECMAScript 2019), and `splice(index, 1)`. */
module Ordering {

  /** Ascending by key; entries with equal keys may come in any order. */
  predicate SortedBy<T>(s: seq<T>, key: T -> int)
  {
    forall i, j :: 0 <= i < j < |s| ==> key(s[i]) <= key(s[j])
  }

  /** Insert `x` after the last entry whose key is at most `x`'s, scanning from
      the end: one step of a stable insertion sort. */
  function InsertBy<T>(s: seq<T>, x: T, key: T -> int): (r: seq<T>)
    ensures |r| == |s| + 1
    decreases |s|
  {
    if s == [] || key(s[|s| - 1]) <= key(x) then s + [x]
    else
      var init := s[..|s| - 1];
      assert s == init + [s[|s| - 1]];
      InsertBy(init, x, key) + [s[|s| - 1]]
  }

  /** Stable sort by key: insertion sort, each entry inserted after every entry
      before it with a key at most its own. */
  function SortBy<T>(s: seq<T>, key: T -> int): (r: seq<T>)
    ensures |r| == |s|
    decreases |s|
  {
    if s == [] then []
    else
      var init := s[..|s| - 1];
      assert s == init + [s[|s| - 1]];
      InsertBy(SortBy(init, key), s[|s| - 1], key)
  }

  /** Inserting adds exactly the one entry. */
  lemma {:induction false} InsertByPermutes<T>(s: seq<T>, x: T, key: T -> int)
    ensures multiset(InsertBy(s, x, key)) == multiset(s) + multiset{x}
    decreases |s|
  {
    if s != [] && key(s[|s| - 1]) > key(x) {
      var init := s[..|s| - 1];
      assert s == init + [s[|s| - 1]];
      InsertByPermutes(init, x, key);
    }
  }

  /** Sorting rearranges the entries and does nothing else. */
  lemma {:induction false} SortByPermutes<T>(s: seq<T>, key: T -> int)
    ensures multiset(SortBy(s, key)) == multiset(s)
    decreases |s|
  {
    if s != [] {
      var init := s[..|s| - 1];
      assert s == init + [s[|s| - 1]];
      SortByPermutes(init, key);
      InsertByPermutes(SortBy(init, key), s[|s| - 1], key);
    }
  }

  /** The number of entries whose key is at most `k`. */
  function CountAtMost<T>(s: seq<T>, k: int, key: T -> int): (n: nat)
    ensures n <= |s|
  {
    if s == [] then 0
    else CountAtMost(s[..|s| - 1], k, key) + (if key(s[|s| - 1]) <= k then 1 else 0)
  }

  lemma {:induction false} SortedPrefix<T>(s: seq<T>, n: nat, key: T -> int)
    requires SortedBy(s, key) && n <= |s|
    ensures SortedBy(s[..n], key)
  {
  }

  lemma {:induction false} CountAtMostSorted<T>(s: seq<T>, k: int, key: T -> int)
    requires SortedBy(s, key)
    ensures forall i :: 0 <= i < CountAtMost(s, k, key) ==> key(s[i]) <= k
    ensures forall i :: CountAtMost(s, k, key) <= i < |s| ==> k < key(s[i])
    decreases |s|
  {
    if s != [] {
      var init := s[..|s| - 1];
      SortedPrefix(s, |s| - 1, key);
      CountAtMostSorted(init, k, key);
      if key(s[|s| - 1]) <= k {
        assert CountAtMost(init, k, key) == |init|;
      }
    }
  }

  /** Placing `x` between a prefix of keys at most its own and a suffix of keys
      above it keeps a sorted sequence sorted. */
  lemma PlacedSorted<T>(s: seq<T>, x: T, k: nat, key: T -> int)
    requires SortedBy(s, key) && k <= |s|
    requires forall i :: 0 <= i < k ==> key(s[i]) <= key(x)
    requires forall i :: k <= i < |s| ==> key(x) < key(s[i])
    ensures SortedBy(s[..k] + [x] + s[k..], key)
  {
    var r := s[..k] + [x] + s[k..];
    forall i, j | 0 <= i < j < |r| ensures key(r[i]) <= key(r[j]) {
      var i' := if i < k then i else i - 1;
      var j' := if j < k then j else j - 1;
      if i != k && j != k {
        assert r[i] == s[i'] && r[j] == s[j'];
      } else if i == k {
        assert r[j] == s[j'];
      } else {
        assert r[i] == s[i'];
      }
    }
  }

  /** On a sorted sequence the insertion step places `x` right after every entry
      whose key is at most `x`'s, so earlier entries with the same key as `x`
      stay before it. */
  lemma {:induction false} InsertByPlacement<T>(s: seq<T>, x: T, key: T -> int)
    requires SortedBy(s, key)
    ensures var k := CountAtMost(s, key(x), key);
            InsertBy(s, x, key) == s[..k] + [x] + s[k..]
    decreases |s|
  {
    var k := CountAtMost(s, key(x), key);
    if s == [] {
    } else if key(s[|s| - 1]) <= key(x) {
      CountAtMostSorted(s, key(x), key);
      assert k == |s|;
      assert s[..k] + [x] + s[k..] == s + [x];
    } else {
      var init, last := s[..|s| - 1], s[|s| - 1];
      SortedPrefix(s, |s| - 1, key);
      InsertByPlacement(init, x, key);
      assert CountAtMost(init, key(x), key) == k;
      var left, right := init[..k], init[k..];
      assert left == s[..k];
      assert right + [last] == s[k..];
      calc {
        InsertBy(s, x, key);
        InsertBy(init, x, key) + [last];
        (left + [x] + right) + [last];
        left + [x] + (right + [last]);
      }
    }
  }

  /** The insertion step keeps a sorted sequence sorted. */
  lemma InsertBySorted<T>(s: seq<T>, x: T, key: T -> int)
    requires SortedBy(s, key)
    ensures SortedBy(InsertBy(s, x, key), key)
  {
    CountAtMostSorted(s, key(x), key);
    InsertByPlacement(s, x, key);
    PlacedSorted(s, x, CountAtMost(s, key(x), key), key);
  }

  /** The sort always yields a sorted sequence. */
  lemma {:induction false} SortBySorted<T>(s: seq<T>, key: T -> int)
    ensures SortedBy(SortBy(s, key), key)
    decreases |s|
  {
    if s != [] {
      SortBySorted(s[..|s| - 1], key);
      InsertBySorted(SortBy(s[..|s| - 1], key), s[|s| - 1], key);
    }
  }

  /** Sorting an already sorted sequence changes nothing. */
  lemma {:induction false} SortByOfSorted<T>(s: seq<T>, key: T -> int)
    requires SortedBy(s, key)
    ensures SortBy(s, key) == s
    decreases |s|
  {
    if s != [] {
      var init, last := s[..|s| - 1], s[|s| - 1];
      assert s == init + [last];
      SortedPrefix(s, |s| - 1, key);
      SortByOfSorted(init, key);
      assert SortBy(s, key) == InsertBy(init, last, key);
      if init != [] {
        assert key(s[|s| - 2]) <= key(s[|s| - 1]);
        assert init[|init| - 1] == s[|s| - 2];
      }
      assert InsertBy(init, last, key) == init + [last];
    }
  }

  /** A property of every entry and of `x` holds of every entry of `s + [x]`. */
  lemma AppendKeeps<T>(s: seq<T>, x: T, p: T -> bool)
    requires forall i :: 0 <= i < |s| ==> p(s[i])
    requires p(x)
    ensures forall i :: 0 <= i < |s + [x]| ==> p((s + [x])[i])
  {
    forall i | 0 <= i < |s + [x]| ensures p((s + [x])[i]) {
      if i < |s| {
        assert (s + [x])[i] == s[i];
      }
    }
  }

  /** Sorting only rearranges: a property every entry has, every entry of the
      sorted sequence has. */
  lemma SortByKeeps<T>(s: seq<T>, key: T -> int, p: T -> bool)
    requires forall i :: 0 <= i < |s| ==> p(s[i])
    ensures forall i :: 0 <= i < |SortBy(s, key)| ==> p(SortBy(s, key)[i])
  {
    var r := SortBy(s, key);
    SortByPermutes(s, key);
    forall i | 0 <= i < |r| ensures p(r[i]) {
      assert r[i] in multiset(s);
      var j :| 0 <= j < |s| && s[j] == r[i];
    }
  }

  /** Pushing onto a sorted sequence and sorting is the insertion step. */
  lemma SortByAppend<T>(s: seq<T>, x: T, key: T -> int)
    requires SortedBy(s, key)
    ensures SortBy(s + [x], key) == InsertBy(s, x, key)
  {
    assert (s + [x])[..|s|] == s;
    SortByOfSorted(s, key);
  }

  /** An entry keyed before every entry of `s` is inserted at the front. */
  lemma {:induction false} InsertByFront<T>(s: seq<T>, x: T, key: T -> int)
    requires forall i :: 0 <= i < |s| ==> key(x) < key(s[i])
    ensures InsertBy(s, x, key) == [x] + s
    decreases |s|
  {
    if s != [] {
      var init := s[..|s| - 1];
      InsertByFront(init, x, key);
      assert s == init + [s[|s| - 1]];
    }
  }

  /** What pushing `x` and sorting yields: one entry more, sorted, and, when the
      sequence was sorted before, `x` placed after every entry whose key is at
      most its own and before every other, the rest in their old order. */
  lemma PushThenSort<T>(s: seq<T>, x: T, key: T -> int)
    ensures |SortBy(s + [x], key)| == |s| + 1
    ensures SortedBy(SortBy(s + [x], key), key)
    ensures SortedBy(s, key) ==>
              var k := CountAtMost(s, key(x), key);
              SortBy(s + [x], key) == s[..k] + [x] + s[k..]
  {
    SortBySorted(s + [x], key);
    if SortedBy(s, key) {
      SortByAppend(s, x, key);
      InsertByPlacement(s, x, key);
    }
  }

  /** A key-ordered sequence holding exactly three entries with distinct keys
      holds them in key order. */
  lemma OrderedThree<T>(t: seq<T>, a: T, x: T, b: T, key: T -> int)
    requires SortedBy(t, key) && multiset(t) == multiset{a, x, b}
    requires key(a) < key(x) < key(b)
    ensures t == [a, x, b]
  {
    assert |t| == 3 by { assert |multiset(t)| == 3; }
    assert t[0] in multiset(t) && t[1] in multiset(t) && t[2] in multiset(t);
    assert a in multiset(t) && x in multiset(t) && b in multiset(t);
    var ia :| 0 <= ia < 3 && t[ia] == a;
    var ib :| 0 <= ib < 3 && t[ib] == b;
    var ix :| 0 <= ix < 3 && t[ix] == x;
    assert key(t[0]) <= key(t[ia]) && key(t[ib]) <= key(t[2]);
  }

  /** Three entries with distinct keys come out in key order, whatever order
      they go in. */
  lemma SortThree<T>(s: seq<T>, a: T, x: T, b: T, key: T -> int)
    requires multiset(s) == multiset{a, x, b}
    requires key(a) < key(x) < key(b)
    ensures SortBy(s, key) == [a, x, b]
  {
    SortByPermutes(s, key);
    SortBySorted(s, key);
    OrderedThree(SortBy(s, key), a, x, b, key);
  }

  /** The index at which `splice(index, ...)` starts: a negative index counts
      from the end, and the result is clamped to the sequence. */
  function SpliceStart(len: nat, index: int): (k: nat)
    ensures k <= len
    ensures 0 <= index <= len ==> k == index
  {
    if index < 0 then (if len + index < 0 then 0 else len + index)
    else if index > len then len
    else index
  }

  /** `s.splice(index, 1)`: drop the one entry at the start position, if there is
      one there. */
  function SpliceOne<T>(s: seq<T>, index: int): (r: seq<T>)
    ensures SpliceStart(|s|, index) < |s| ==> |r| == |s| - 1
    ensures SpliceStart(|s|, index) == |s| ==> r == s
  {
    var k := SpliceStart(|s|, index);
    if k < |s| then s[..k] + s[k + 1..] else s
  }

  /** Deleting by a valid index removes exactly that entry; the others keep their
      values and their order. */
  lemma SpliceOneAt<T>(s: seq<T>, i: int)
    requires 0 <= i < |s|
    ensures |SpliceOne(s, i)| == |s| - 1
    ensures forall j :: 0 <= j < i ==> SpliceOne(s, i)[j] == s[j]
    ensures forall j :: i <= j < |s| - 1 ==> SpliceOne(s, i)[j] == s[j + 1]
    ensures multiset(SpliceOne(s, i)) + multiset{s[i]} == multiset(s)
  {
    assert s == s[..i] + [s[i]] + s[i + 1..];
  }

  /** Deleting never unsorts. */
  lemma SpliceOneSorted<T>(s: seq<T>, index: int, key: T -> int)
    requires SortedBy(s, key)
    ensures SortedBy(SpliceOne(s, index), key)
  {
    var k := SpliceStart(|s|, index);
    if k < |s| {
      var r := SpliceOne(s, index);
      forall i, j | 0 <= i < j < |r| ensures key(r[i]) <= key(r[j]) {
        var i' := if i < k then i else i + 1;
        var j' := if j < k then j else j + 1;
        assert r[i] == s[i'] && r[j] == s[j'];
      }
    }
  }
}
