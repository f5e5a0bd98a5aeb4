/** Order-preserving selection over sequences, the shape of every `Array.prototype.filter`
    call in the handlers, and the subsequence relation that describes its result. */
module Seqs {

  /** `sub` is what is left of `s` after deleting zero or more elements, in their original order. */
  predicate IsSubsequence<T(==)>(sub: seq<T>, s: seq<T>)
    decreases |s|
  {
    if sub == [] then true
    else if s == [] then false
    else (sub[0] == s[0] && IsSubsequence(sub[1..], s[1..])) || IsSubsequence(sub, s[1..])
  }

  /** Every sequence is a subsequence of itself. */
  lemma {:induction false} SubsequenceRefl<T>(s: seq<T>)
    ensures IsSubsequence(s, s)
  {
    if s != [] {
      SubsequenceRefl(s[1..]);
    }
  }

  /** `s.filter(keep)`: the elements of `s` that satisfy `keep`, in order. With SelectCounts the
      contract pins the result down completely (see SelectUnique). */
  function Select<T(==)>(s: seq<T>, keep: T -> bool): (r: seq<T>)
    ensures IsSubsequence(r, s)
    ensures forall x | x in r :: keep(x)
  {
    if s == [] then []
    else
      var rest := Select(s[1..], keep);
      if keep(s[0]) then
        var r := [s[0]] + rest;
        assert r[1..] == rest;
        r
      else
        rest
  }

  /** Select keeps every occurrence of every element it keeps, and adds none. */
  lemma {:induction false} SelectCounts<T>(s: seq<T>, keep: T -> bool)
    ensures forall x | x in s && keep(x) :: multiset(Select(s, keep))[x] == multiset(s)[x]
    ensures multiset(Select(s, keep)) <= multiset(s)
  {
    if s != [] {
      SelectCounts(s[1..], keep);
      assert s == [s[0]] + s[1..];
      if keep(s[0]) {
        assert Select(s, keep) == [s[0]] + Select(s[1..], keep);
      }
    }
  }

  /** When no element satisfies `keep`, nothing is selected. */
  lemma {:induction false} SelectNone<T>(s: seq<T>, keep: T -> bool)
    requires forall x | x in s :: !keep(x)
    ensures Select(s, keep) == []
  {
    if s != [] {
      assert s[0] in s;
      forall x | x in s[1..] ensures !keep(x) { assert x in s; }
      SelectNone(s[1..], keep);
    }
  }

  /** A subsequence never holds an element more often than the sequence it comes from. */
  lemma {:induction false} SubsequenceMultiset<T>(sub: seq<T>, s: seq<T>)
    requires IsSubsequence(sub, s)
    ensures multiset(sub) <= multiset(s)
    decreases |s|
  {
    if sub != [] {
      assert s == [s[0]] + s[1..];
      if sub[0] == s[0] && IsSubsequence(sub[1..], s[1..]) {
        SubsequenceMultiset(sub[1..], s[1..]);
        assert sub == [sub[0]] + sub[1..];
      } else {
        SubsequenceMultiset(sub, s[1..]);
      }
    }
  }

  /** The contract of Select determines its result: any subsequence that keeps only elements
      satisfying `keep`, and every occurrence of those, is Select's result. */
  lemma {:induction false} SelectUnique<T>(s: seq<T>, keep: T -> bool, r: seq<T>)
    requires IsSubsequence(r, s)
    requires forall x | x in r :: keep(x)
    requires forall x | x in s && keep(x) :: multiset(r)[x] == multiset(s)[x]
    ensures r == Select(s, keep)
    decreases |s|
  {
    if s == [] {
      assert r == [];
    } else {
      var h, t := s[0], s[1..];
      assert s == [h] + t;
      if keep(h) {
        assert multiset(r)[h] == multiset(s)[h] > 0;
        assert r != [];
        if r[0] == h && IsSubsequence(r[1..], t) {
          assert r == [h] + r[1..];
          forall x | x in r[1..] ensures keep(x) { assert x in r; }
          forall x | x in t && keep(x) ensures multiset(r[1..])[x] == multiset(t)[x] {
            assert multiset(r) == multiset{h} + multiset(r[1..]);
          }
          SelectUnique(t, keep, r[1..]);
        } else {
          SubsequenceMultiset(r, t);
          assert false;
        }
      } else {
        if r != [] && r[0] == h {
          assert false;
        }
        assert IsSubsequence(r, t);
        forall x | x in t && keep(x) ensures multiset(r)[x] == multiset(t)[x] {
          assert x != h;
        }
        SelectUnique(t, keep, r);
      }
    }
  }

  /** Filtering with a condition every element meets returns the sequence unchanged. */
  lemma {:induction false} SelectAll<T>(s: seq<T>, keep: T -> bool)
    requires forall x | x in s :: keep(x)
    ensures Select(s, keep) == s
  {
    if s != [] {
      assert s[0] in s;
      forall x | x in s[1..] ensures keep(x) { assert x in s; }
      SelectAll(s[1..], keep);
      assert s == [s[0]] + s[1..];
    }
  }

  /** `s` back to front. */
  function Reversed<T>(s: seq<T>): (r: seq<T>)
    ensures |r| == |s|
    ensures forall i | 0 <= i < |s| :: r[i] == s[|s| - 1 - i]
    ensures multiset(r) == multiset(s)
  {
    if s == [] then []
    else
      assert s == [s[0]] + s[1..];
      Reversed(s[1..]) + [s[0]]
  }
}
