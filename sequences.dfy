/** Order of entries in a list whose kinds have fixed positions. */
module Sequences {

  /** The ranks strictly increase along `s`. */
  predicate Ascending<T>(s: seq<T>, rank: T -> int)
  {
    forall i, j :: 0 <= i < j < |s| ==> rank(s[i]) < rank(s[j])
  }

  predicate RanksWithin<T>(s: seq<T>, rank: T -> int, lo: int, hi: int)
  {
    forall i :: 0 <= i < |s| ==> lo <= rank(s[i]) <= hi
  }

  /** Two ascending runs whose rank ranges are in order make one ascending run. */
  lemma AscendingConcat<T>(a: seq<T>, b: seq<T>, rank: T -> int, lo: int, mid: int, hi: int)
    requires Ascending(a, rank) && RanksWithin(a, rank, lo, mid)
    requires Ascending(b, rank) && RanksWithin(b, rank, mid + 1, hi)
    requires lo <= mid < hi
    ensures Ascending(a + b, rank) && RanksWithin(a + b, rank, lo, hi)
  {
    var c := a + b;
    forall i, j | 0 <= i < j < |c| ensures rank(c[i]) < rank(c[j]) {
      if j < |a| {
        assert c[i] == a[i] && c[j] == a[j];
      } else if i < |a| {
        assert c[i] == a[i] && c[j] == b[j - |a|];
      } else {
        assert c[i] == b[i - |a|] && c[j] == b[j - |a|];
      }
    }
    forall i | 0 <= i < |c| ensures lo <= rank(c[i]) <= hi {
      if i < |a| {
        assert c[i] == a[i];
      } else {
        assert c[i] == b[i - |a|];
      }
    }
  }

  lemma AppendAssoc<T>(a: seq<T>, b: seq<T>, c: seq<T>)
    ensures (a + b) + c == a + (b + c)
  {
  }
}
