/** List comprehensions as the scripts write them: filters, projections, and
    loops whose body may raise part-way through. */
module Seqs {
  import opened Options

  /** `a` is `b` with some elements dropped, the rest in their original order. */
  predicate IsSubseq<T(==)>(a: seq<T>, b: seq<T>)
    decreases |b|
  {
    if a == [] then true
    else if b == [] then false
    else (a[0] == b[0] && IsSubseq(a[1..], b[1..])) || IsSubseq(a, b[1..])
  }

  /** `[x for x in s if p(x)]`. */
  function Filter<T(!new)>(s: seq<T>, p: T -> bool): (r: seq<T>)
    ensures |r| <= |s|
    ensures forall x :: x in r <==> x in s && p(x)
    ensures IsSubseq(r, s)
  {
    if s == [] then []
    else if p(s[0]) then [s[0]] + Filter(s[1..], p)
    else Filter(s[1..], p)
  }

  /** `[f(x) for x in s]`. */
  function Map<T, U>(s: seq<T>, f: T -> U): (r: seq<U>)
    ensures |r| == |s|
    ensures forall i | 0 <= i < |s| :: r[i] == f(s[i])
  {
    if s == [] then [] else [f(s[0])] + Map(s[1..], f)
  }

  /** What one iteration of a loop body does with its element. */
  datatype Step<+U> = Raise | Skip | Emit(value: U)

  /** A loop that appends `f(x).value` for every `x` on which the body emits,
      and stops the whole script at the first element on which it raises. */
  function Collect<T, U>(s: seq<T>, f: T -> Step<U>): (r: Option<seq<U>>)
    ensures r.Some? <==> forall i | 0 <= i < |s| :: !f(s[i]).Raise?
    ensures r.Some? ==> |r.value| <= |s|
  {
    if s == [] then Some([])
    else match f(s[0])
      case Raise => None
      case Skip => Collect(s[1..], f)
      case Emit(y) =>
        match Collect(s[1..], f)
        case None => None
        case Some(rest) => Some([y] + rest)
  }

  /** A loop whose body raises, skips on `!keep`, and otherwise emits `g(x)`,
      computes `[g(x) for x in s if keep(x)]` whenever nothing raises. */
  lemma {:induction false} CollectIsFilterMap<T(!new), U>(s: seq<T>, f: T -> Step<U>, keep: T -> bool, g: T -> U)
    requires forall x | x in s :: f(x).Raise? || f(x) == (if keep(x) then Emit(g(x)) else Skip)
    ensures Collect(s, f).Some? ==> Collect(s, f).value == Map(Filter(s, keep), g)
  {
    if s != [] {
      assert forall x | x in s[1..] :: x in s;
      CollectIsFilterMap(s[1..], f, keep, g);
    }
  }

  /** The filtering special case: the body emits the element itself. */
  lemma {:induction false} CollectIsFilter<T(!new)>(s: seq<T>, f: T -> Step<T>, keep: T -> bool)
    requires forall x | x in s :: f(x).Raise? || f(x) == (if keep(x) then Emit(x) else Skip)
    ensures Collect(s, f).Some? ==> Collect(s, f).value == Filter(s, keep)
  {
    if s != [] {
      assert forall x | x in s[1..] :: x in s;
      CollectIsFilter(s[1..], f, keep);
    }
  }

  /** Keeping everything keeps the sequence unchanged. */
  lemma {:induction false} FilterAll<T(!new)>(s: seq<T>, p: T -> bool)
    requires forall x | x in s :: p(x)
    ensures Filter(s, p) == s
  {
    if s != [] {
      assert forall x | x in s[1..] :: x in s;
      FilterAll(s[1..], p);
    }
  }

  /** Nothing is kept exactly when no element passes. */
  lemma FilterEmpty<T(!new)>(s: seq<T>, p: T -> bool)
    ensures Filter(s, p) == [] <==> forall i | 0 <= i < |s| :: !p(s[i])
  {
    if Filter(s, p) == [] {
      forall i | 0 <= i < |s|
        ensures !p(s[i])
      {
        assert s[i] in s;
      }
    } else {
      assert Filter(s, p)[0] in Filter(s, p);
    }
  }

  /** Filtering a second time with the same test changes nothing. */
  lemma FilterIdempotent<T(!new)>(s: seq<T>, p: T -> bool)
    ensures Filter(Filter(s, p), p) == Filter(s, p)
  {
    FilterAll(Filter(s, p), p);
  }

  /** Filters compose: filtering by `p` and then by `q` keeps what passes
      both, which is filtering once by any `both` that is their conjunction. */
  lemma {:induction false} FilterFilter<T(!new)>(s: seq<T>, p: T -> bool, q: T -> bool, both: T -> bool)
    requires forall x | x in s :: both(x) == (p(x) && q(x))
    ensures Filter(Filter(s, p), q) == Filter(s, both)
  {
    if s != [] {
      assert forall x | x in s[1..] :: x in s;
      FilterFilter(s[1..], p, q, both);
    }
  }

  /** A subsequence of a subsequence is a subsequence: chains the order
      preservation of two successive filters. */
  lemma {:induction false} IsSubseqTransitive<T>(a: seq<T>, b: seq<T>, c: seq<T>)
    requires IsSubseq(a, b) && IsSubseq(b, c)
    ensures IsSubseq(a, c)
    decreases |c|
  {
    if a != [] && c != [] {
      if b[0] == c[0] && IsSubseq(b[1..], c[1..]) {
        if a[0] == b[0] && IsSubseq(a[1..], b[1..]) {
          IsSubseqTransitive(a[1..], b[1..], c[1..]);
        } else {
          IsSubseqTransitive(a, b[1..], c[1..]);
        }
      } else {
        IsSubseqTransitive(a, b, c[1..]);
      }
    }
  }
}
