/** Option and Result values used in place of the source's nulls and exceptions. */
module Common {

  datatype Option<+T> = None | Some(value: T)

  datatype Result<+T, +E> = Success(value: T) | Failure(error: E)

  /** The integers 0 <= k < n shifted by lo: lo, lo + 1, ..., lo + n - 1. */
  function Range(lo: int, n: nat): seq<int>
  {
    seq(n, k => lo + k)
  }

  /** No element occurs twice: every element has multiplicity at most one. */
  ghost predicate NoDuplicates(s: seq<int>)
  {
    forall x :: multiset(s)[x] <= 1
  }

  lemma {:induction false} RangeNoDuplicates(lo: int, n: nat)
    ensures NoDuplicates(Range(lo, n))
    ensures forall x :: x in multiset(Range(lo, n)) <==> lo <= x < lo + n
  {
    if n > 0 {
      RangeNoDuplicates(lo, n - 1);
      assert Range(lo, n) == Range(lo, n - 1) + [lo + n - 1];
      assert multiset(Range(lo, n)) == multiset(Range(lo, n - 1)) + multiset{lo + n - 1};
    }
  }

  /** Splitting a range into two consecutive ranges. */
  lemma {:induction false} RangeAppend(lo: int, n: nat, m: nat)
    ensures Range(lo, n) + Range(lo + n, m) == Range(lo, n + m)
  {
    if m > 0 {
      RangeAppend(lo, n, m - 1);
      assert Range(lo, n + m) == Range(lo, n + m - 1) + [lo + n + m - 1];
      assert Range(lo + n, m) == Range(lo + n, m - 1) + [lo + n + m - 1];
    }
  }

  lemma ConcatAssociative<T>(a: seq<T>, b: seq<T>, c: seq<T>)
    ensures (a + b) + c == a + (b + c)
  {
  }

  /** The empty sequence is a unit of concatenation. */
  lemma ConcatEmpty<T>(a: seq<T>)
    ensures a + [] == a && [] + a == a
  {
  }

  /** A non-empty sequence is its initial part followed by its last element. */
  lemma InitLast<T>(s: seq<T>)
    requires |s| > 0
    ensures s == s[..|s| - 1] + [s[|s| - 1]]
  {
  }

  /** Two adjacent slices from the start make one prefix. */
  lemma PrefixJoin<T>(s: seq<T>, lo: int, hi: int)
    requires 0 <= lo <= hi <= |s|
    ensures s[..lo] + s[lo..hi] == s[..hi]
  {
  }

  /** A prefix of a prefix is a prefix. */
  lemma PrefixOfPrefix<T>(s: seq<T>, i: int, j: int)
    requires 0 <= i <= j <= |s|
    ensures s[..j][..i] == s[..i]
  {
  }

  /** Extending a range by its next integer. */
  lemma RangeSnoc(lo: int, n: nat)
    ensures Range(lo, n) + [lo + n] == Range(lo, n + 1)
  {
  }

  /** The short ranges a flower's layout uses, written out. */
  lemma SmallRanges(lo: int)
    ensures Range(lo, 4) == [lo, lo + 1, lo + 2, lo + 3]
    ensures Range(lo, 5) == [lo, lo + 1, lo + 2, lo + 3, lo + 4]
  {
  }

  /** A slice of a range is a range. */
  lemma RangeSlice(lo: int, n: nat, a: nat, b: nat)
    requires a <= b <= n
    ensures Range(lo, n)[a..b] == Range(lo + a, b - a)
  {
  }
}
