/**
 * The bounded FIFO lists the trackers keep: `lst.append(x)` followed by
 * `lst.pop(0)` when the list has grown past its limit.
 */
module Bounded {
  /** The last `n` elements of `s` (all of `s` when it is shorter). */
  function Last<T>(s: seq<T>, n: nat): (r: seq<T>)
    ensures |r| == if |s| < n then |s| else n
  {
    if |s| <= n then s else s[|s| - n..]
  }

  /** `lst.append(x); if len(lst) > limit: lst.pop(0)` */
  function PushBounded<T>(lst: seq<T>, x: T, limit: nat): seq<T> {
    var grown := lst + [x];
    if |grown| > limit then grown[1..] else grown
  }

  /**
   * One append-then-trim keeps the newest element last, drops at most the
   * oldest one, and never lets a list that was within the limit exceed it.
   */
  lemma PushBoundedShape<T>(lst: seq<T>, x: T, limit: nat)
    requires limit >= 1
    ensures var r := PushBounded(lst, x, limit);
      && |r| == (if |lst| + 1 > limit then |lst| else |lst| + 1)
      && r[|r| - 1] == x
      && r[..|r| - 1] == lst[|lst| + 1 - |r|..]
      && (|lst| <= limit ==> |r| <= limit)
      && (|lst| < limit ==> r == lst + [x])
  {
  }

  /** Pushing each element of `xs` in turn. */
  function PushAll<T>(lst: seq<T>, xs: seq<T>, limit: nat): seq<T>
    decreases |xs|
  {
    if xs == [] then lst else PushAll(PushBounded(lst, xs[0], limit), xs[1..], limit)
  }

  lemma LastOfSuffix<T>(a: seq<T>, b: seq<T>, n: nat)
    ensures Last(Last(a, n) + b, n) == Last(a + b, n)
  {
    var l := Last(a, n);
    assert l == a[|a| - |l|..];
    var left := Last(l + b, n);
    var right := Last(a + b, n);
    assert |left| == |right|;
    forall i | 0 <= i < |left| ensures left[i] == right[i] {
      assert left[i] == (l + b)[|l + b| - |left| + i];
      assert right[i] == (a + b)[|a + b| - |right| + i];
    }
  }

  /**
   * A list that starts within its limit always holds exactly the newest
   * `limit` elements of everything pushed, oldest first.
   */
  lemma {:induction false} PushAllKeepsNewest<T>(lst: seq<T>, xs: seq<T>, limit: nat)
    requires |lst| <= limit
    ensures PushAll(lst, xs, limit) == Last(lst + xs, limit)
    decreases |xs|
  {
    if xs == [] {
      assert lst + xs == lst;
    } else {
      var next := PushBounded(lst, xs[0], limit);
      assert next == Last(lst + [xs[0]], limit);
      PushAllKeepsNewest(next, xs[1..], limit);
      LastOfSuffix(lst + [xs[0]], xs[1..], limit);
      assert lst + [xs[0]] + xs[1..] == lst + xs;
    }
  }

  /** Pushing onto the newest `limit` elements keeps the newest `limit` of the longer history. */
  lemma PushOntoLast<T>(a: seq<T>, x: T, limit: nat)
    ensures PushBounded(Last(a, limit), x, limit) == Last(a + [x], limit)
  {
    var l := Last(a, limit);
    assert PushBounded(l, x, limit) == Last(l + [x], limit);
    LastOfSuffix(a, [x], limit);
  }

  /** A prefix one longer is the prefix with the next element appended. */
  lemma PrefixSnoc<T>(s: seq<T>, i: nat)
    requires i < |s|
    ensures s[..i + 1] == s[..i] + [s[i]]
  {
  }

  lemma AppendAssociates<T>(a: seq<T>, b: seq<T>, c: seq<T>)
    ensures (a + b) + c == a + (b + c)
  {
  }
}
