/**
 * Sequence helpers that mirror the JavaScript array operations the stores use:
 * `filter` keeps the elements a predicate accepts, in their original order.
 */
module Seqs {

  /** The elements of `s` that `keep` accepts, in order (Array.prototype.filter). */
  function Filter<T>(s: seq<T>, keep: T -> bool): (r: seq<T>)
    ensures |r| <= |s|
    ensures forall x :: x in r ==> x in s && keep(x)
    ensures forall x :: x in s && keep(x) ==> x in r
    decreases |s|
  {
    if s == [] then []
    else if keep(s[0]) then [s[0]] + Filter(s[1..], keep)
    else Filter(s[1..], keep)
  }

  /** Filtering a concatenation filters each part and keeps the parts in order. */
  lemma {:induction false} FilterAppend<T>(a: seq<T>, b: seq<T>, keep: T -> bool)
    ensures Filter(a + b, keep) == Filter(a, keep) + Filter(b, keep)
    decreases |a|
  {
    if a == [] {
      assert a + b == b;
    } else {
      assert (a + b)[0] == a[0];
      assert (a + b)[1..] == a[1..] + b;
      FilterAppend(a[1..], b, keep);
    }
  }

  /** The filter returns its input unchanged exactly when every element is kept. */
  lemma {:induction false} FilterKeepsAll<T>(s: seq<T>, keep: T -> bool)
    ensures (forall x :: x in s ==> keep(x)) <==> Filter(s, keep) == s
    ensures (forall x :: x in s ==> keep(x)) <==> |Filter(s, keep)| == |s|
    decreases |s|
  {
    if s != [] {
      FilterKeepsAll(s[1..], keep);
      if keep(s[0]) {
        assert s == [s[0]] + s[1..];
        if |Filter(s, keep)| == |s| {
          forall x | x in s ensures keep(x) {
            if x != s[0] { assert x in s[1..]; }
          }
        }
      } else {
        assert s[0] in s;
      }
    }
  }

  /** Nothing survives a filter that rejects every element. */
  lemma {:induction false} FilterDropsAll<T>(s: seq<T>, keep: T -> bool)
    requires forall x :: x in s ==> !keep(x)
    ensures Filter(s, keep) == []
    decreases |s|
  {
    if s != [] {
      assert s[0] in s;
      forall x | x in s[1..] ensures !keep(x) { assert x in s; }
      FilterDropsAll(s[1..], keep);
    }
  }
}
