/** Python's `list.sort(key=..., reverse=True)` on string keys: a stable sort
    into non-increasing key order, modelled as insertion sort. */
module Sorting {
  import opened Text

  /** No element is followed by one with a greater key. */
  predicate SortedDesc<T>(s: seq<T>, key: T -> string) {
    forall i, j | 0 <= i < j < |s| :: !StrLt(key(s[i]), key(s[j]))
  }

  /** The elements whose key is `k`, in order. */
  function KeyClass<T>(s: seq<T>, key: T -> string, k: string): seq<T> {
    if s == [] then []
    else (if key(s[0]) == k then [s[0]] else []) + KeyClass(s[1..], key, k)
  }

  /** Places `x` before the first element whose key is not greater than its
      own, so `x` precedes every element of `s` with an equal key. */
  function Insert<T>(x: T, s: seq<T>, key: T -> string): seq<T> {
    if s == [] || !StrLt(key(x), key(s[0])) then [x] + s
    else [s[0]] + Insert(x, s[1..], key)
  }

  /** Sorts by descending key; earlier elements come first among equal keys. */
  function SortDesc<T>(s: seq<T>, key: T -> string): seq<T> {
    if s == [] then [] else Insert(s[0], SortDesc(s[1..], key), key)
  }

  lemma {:induction false} InsertPermutes<T>(x: T, s: seq<T>, key: T -> string)
    ensures multiset(Insert(x, s, key)) == multiset{x} + multiset(s)
  {
    if s != [] && StrLt(key(x), key(s[0])) {
      InsertPermutes(x, s[1..], key);
      assert s == [s[0]] + s[1..];
    }
  }

  lemma {:induction false} InsertSorted<T>(x: T, s: seq<T>, key: T -> string)
    requires SortedDesc(s, key)
    ensures SortedDesc(Insert(x, s, key), key)
  {
    var r := Insert(x, s, key);
    if s == [] {
    } else if !StrLt(key(x), key(s[0])) {
      forall j | 1 <= j < |r|
        ensures !StrLt(key(r[0]), key(r[j]))
      {
        if j > 1 {
          StrLeTransitive(key(x), key(s[0]), key(s[j - 1]));
        }
      }
    } else {
      InsertSorted(x, s[1..], key);
      InsertPermutes(x, s[1..], key);
      var tail := Insert(x, s[1..], key);
      forall j | 0 <= j < |tail|
        ensures !StrLt(key(s[0]), key(tail[j]))
      {
        assert tail[j] in multiset(tail);
        if tail[j] == x {
          StrLtTotal(key(x), key(s[0]));
          if StrLt(key(s[0]), key(x)) {
            StrLtTransitive(key(x), key(s[0]), key(x));
            StrLtIrreflexive(key(x));
          }
        } else {
          assert tail[j] in multiset(s[1..]);
          var k :| 0 <= k < |s[1..]| && s[1..][k] == tail[j];
          assert s[k + 1] == tail[j];
        }
      }
    }
  }

  /** Inserting `x` does not disturb the relative order of any key class. */
  lemma {:induction false} InsertStable<T>(x: T, s: seq<T>, key: T -> string, k: string)
    ensures KeyClass(Insert(x, s, key), key, k) == (if key(x) == k then [x] else []) + KeyClass(s, key, k)
  {
    var head := if key(x) == k then [x] else [];
    if s == [] || !StrLt(key(x), key(s[0])) {
      var r := [x] + s;
      assert r[1..] == s;
      assert KeyClass(r, key, k) == head + KeyClass(s, key, k);
    } else {
      var tail := Insert(x, s[1..], key);
      var r := [s[0]] + tail;
      assert r[1..] == tail;
      var first := if key(s[0]) == k then [s[0]] else [];
      assert KeyClass(r, key, k) == first + KeyClass(tail, key, k);
      InsertStable(x, s[1..], key, k);
      assert KeyClass(s, key, k) == first + KeyClass(s[1..], key, k);
      if key(x) == k {
        StrLtIrreflexive(key(x));
        assert first == [];
      }
    }
  }

  /** The result is a permutation of the input. */
  lemma {:induction false} SortPermutes<T>(s: seq<T>, key: T -> string)
    ensures multiset(SortDesc(s, key)) == multiset(s)
  {
    if s != [] {
      SortPermutes(s[1..], key);
      InsertPermutes(s[0], SortDesc(s[1..], key), key);
      assert s == [s[0]] + s[1..];
    }
  }

  /** The result is in non-increasing key order. */
  lemma {:induction false} SortSorted<T>(s: seq<T>, key: T -> string)
    ensures SortedDesc(SortDesc(s, key), key)
  {
    if s != [] {
      SortSorted(s[1..], key);
      InsertSorted(s[0], SortDesc(s[1..], key), key);
    }
  }

  /** Stability: the elements sharing any one key keep their input order. */
  lemma {:induction false} SortStable<T>(s: seq<T>, key: T -> string, k: string)
    ensures KeyClass(SortDesc(s, key), key, k) == KeyClass(s, key, k)
  {
    if s != [] {
      SortStable(s[1..], key, k);
      InsertStable(s[0], SortDesc(s[1..], key), key, k);
    }
  }
}
