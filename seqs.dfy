/**
 * Sequence operations the front end borrows from JavaScript and Angular:
 * `Array.prototype.filter`, the order-preserving subsequence relation it
 * establishes, and `FormArray.removeAt`.
 */
module Seqs {

  /** The elements of `s` that satisfy `p`, in their original order (`s.filter(p)`). */
  function Filter<T>(s: seq<T>, p: T -> bool): (r: seq<T>)
    ensures |r| <= |s|
    ensures forall x :: x in r ==> x in s && p(x)
  {
    if s == [] then []
    else (if p(s[0]) then [s[0]] else []) + Filter(s[1..], p)
  }

  /** `xs` can be obtained from `ys` by deleting elements, keeping the order of the rest. */
  ghost predicate IsSubsequence<T>(xs: seq<T>, ys: seq<T>)
    decreases |ys|
  {
    xs == [] ||
    (ys != [] &&
     ((xs[0] == ys[0] && IsSubsequence(xs[1..], ys[1..])) || IsSubsequence(xs, ys[1..])))
  }

  /** An element is kept by the filter exactly when it occurs in the input and passes the test. */
  lemma {:induction false} FilterMembers<T>(s: seq<T>, p: T -> bool, x: T)
    ensures x in Filter(s, p) <==> x in s && p(x)
  {
    if s != [] {
      FilterMembers(s[1..], p, x);
      assert s == [s[0]] + s[1..];
    }
  }

  /** Every element that passes is kept as many times as it occurs; the others not at all. */
  lemma {:induction false} FilterCount<T>(s: seq<T>, p: T -> bool, x: T)
    ensures multiset(Filter(s, p))[x] == if p(x) then multiset(s)[x] else 0
  {
    if s != [] {
      FilterCount(s[1..], p, x);
      assert s == [s[0]] + s[1..];
      assert multiset(s) == multiset([s[0]]) + multiset(s[1..]);
    }
  }

  /** The filter keeps the relative order of what it keeps. */
  lemma {:induction false} FilterIsSubsequence<T>(s: seq<T>, p: T -> bool)
    ensures IsSubsequence(Filter(s, p), s)
  {
    if s != [] {
      FilterIsSubsequence(s[1..], p);
      var rest := Filter(s[1..], p);
      if p(s[0]) {
        assert Filter(s, p) == [s[0]] + rest;
        assert ([s[0]] + rest)[1..] == rest;
      } else {
        assert Filter(s, p) == rest;
      }
    }
  }

  /** A test that every element passes keeps the whole sequence. */
  lemma {:induction false} FilterAll<T>(s: seq<T>, p: T -> bool)
    requires forall i :: 0 <= i < |s| ==> p(s[i])
    ensures Filter(s, p) == s
  {
    if s != [] {
      FilterAll(s[1..], p);
      assert s == [s[0]] + s[1..];
    }
  }

  /** A test that no element passes keeps nothing. */
  lemma {:induction false} FilterNone<T>(s: seq<T>, p: T -> bool)
    requires forall i :: 0 <= i < |s| ==> !p(s[i])
    ensures Filter(s, p) == []
  {
    if s != [] {
      FilterNone(s[1..], p);
    }
  }

  /** Two filters in a row keep what passes both tests, in the original order. */
  lemma {:induction false} FilterFusion<T>(s: seq<T>, p: T -> bool, q: T -> bool, both: T -> bool)
    requires forall x :: both(x) == (p(x) && q(x))
    ensures Filter(Filter(s, p), q) == Filter(s, both)
  {
    if s != [] {
      FilterFusion(s[1..], p, q, both);
      var rest := Filter(s[1..], p);
      if p(s[0]) {
        assert Filter(s, p) == [s[0]] + rest;
        assert ([s[0]] + rest)[1..] == rest;
      } else {
        assert Filter(s, p) == rest;
      }
    }
  }

  /** `k` is the position of the first element of `s` that passes `p`. */
  ghost predicate IsFirstMatch<T>(s: seq<T>, p: T -> bool, k: int)
  {
    0 <= k < |s| && p(s[k]) && forall j :: 0 <= j < k ==> !p(s[j])
  }

  /**
   * `s.filter(p)[0]` exists exactly when some element passes, and it is then
   * the element at the first passing position.
   */
  lemma {:induction false} FilterHead<T>(s: seq<T>, p: T -> bool)
    ensures Filter(s, p) != [] <==> exists k :: 0 <= k < |s| && p(s[k])
    ensures Filter(s, p) != [] ==> exists k :: IsFirstMatch(s, p, k) && Filter(s, p)[0] == s[k]
  {
    if s != [] {
      FilterHead(s[1..], p);
      if p(s[0]) {
        assert IsFirstMatch(s, p, 0);
      } else if Filter(s[1..], p) != [] {
        var k :| IsFirstMatch(s[1..], p, k) && Filter(s[1..], p)[0] == s[1..][k];
        assert IsFirstMatch(s, p, k + 1);
      } else {
        forall k | 0 <= k < |s| ensures !p(s[k]) {
          if k > 0 {
            assert s[k] == s[1..][k - 1];
          }
        }
      }
    }
  }

  /**
   * The position `FormArray.removeAt(index)` deletes in a list of length `n`:
   * a negative index counts from the end and is then clamped at 0; a result
   * of `n` or more means nothing is deleted (`splice` past the end).
   */
  function RemovalPosition(index: int, n: nat): (at: nat)
    ensures 0 <= index ==> at == index
    ensures index < 0 && 0 <= index + n ==> at == index + n
    ensures index + n < 0 ==> at == 0
  {
    var adjusted := if index < 0 then index + n else index;
    if adjusted < 0 then 0 else adjusted
  }

  /** `FormArray.removeAt(index)` on the list of controls `s`. */
  function RemoveAt<T>(s: seq<T>, index: int): (r: seq<T>)
    ensures |r| == if RemovalPosition(index, |s|) < |s| then |s| - 1 else |s|
  {
    var at := RemovalPosition(index, |s|);
    if at < |s| then s[..at] + s[at + 1..] else s
  }

  /**
   * Removing position `i` of a list deletes exactly that element: one element
   * fewer, the ones before it in place, the ones after it shifted down by one.
   */
  lemma RemoveAtInRange<T>(s: seq<T>, i: int)
    requires 0 <= i < |s|
    ensures |RemoveAt(s, i)| == |s| - 1
    ensures forall j :: 0 <= j < i ==> RemoveAt(s, i)[j] == s[j]
    ensures forall j :: i <= j < |s| - 1 ==> RemoveAt(s, i)[j] == s[j + 1]
    ensures multiset(RemoveAt(s, i)) + multiset{s[i]} == multiset(s)
  {
    assert s == s[..i] + [s[i]] + s[i + 1..];
  }

  lemma {:induction false} SubsequenceReflexive<T>(s: seq<T>)
    ensures IsSubsequence(s, s)
  {
    if s != [] {
      SubsequenceReflexive(s[1..]);
    }
  }

  /** Dropping one element leaves the others in their relative order. */
  lemma {:induction false} DropOneIsSubsequence<T>(s: seq<T>, i: nat)
    requires i < |s|
    ensures IsSubsequence(s[..i] + s[i + 1..], s)
  {
    var r := s[..i] + s[i + 1..];
    if i == 0 {
      assert r == s[1..];
      SubsequenceReflexive(s[1..]);
    } else {
      DropOneIsSubsequence(s[1..], i - 1);
      assert r[0] == s[0];
      assert r[1..] == s[1..][..i - 1] + s[1..][i..];
    }
  }

  /** Whatever index it is given, `removeAt` keeps the remaining controls in their order. */
  lemma RemoveAtIsSubsequence<T>(s: seq<T>, index: int)
    ensures IsSubsequence(RemoveAt(s, index), s)
    ensures forall x :: x in RemoveAt(s, index) ==> x in s
  {
    var at := RemovalPosition(index, |s|);
    if at < |s| {
      DropOneIsSubsequence(s, at);
    } else {
      SubsequenceReflexive(s);
    }
  }

  /** An index at or past the end removes nothing. */
  lemma RemoveAtPastEnd<T>(s: seq<T>, i: int)
    requires i >= |s|
    ensures RemoveAt(s, i) == s
  {
  }
}
