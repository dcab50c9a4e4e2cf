/** Sequence operations that stand for the JavaScript array operations the games use:
    `splice(i, 1)`, `filter`, and a `forEach` that updates every element in place. */
module Seqs {

  /** The sequence `s` after `splice(i, 1)`: the element at `i` is removed and the ones
      after it shift down by one; an index at or past the end removes nothing. */
  function RemoveAt<T>(s: seq<T>, i: nat): (r: seq<T>)
    ensures i < |s| ==> |r| == |s| - 1
    ensures i < |s| ==> forall k :: 0 <= k < i ==> r[k] == s[k]
    ensures i < |s| ==> forall k :: i <= k < |r| ==> r[k] == s[k + 1]
    ensures |s| <= i ==> r == s
  {
    if i < |s| then s[..i] + s[i + 1..] else s
  }

  /** `a` is obtained from `b` by deleting elements: what is left keeps its order and
      nothing is added. */
  predicate IsSubseq<T(==)>(a: seq<T>, b: seq<T>)
    decreases |b|
  {
    a == [] || (b != [] && ((a[0] == b[0] && IsSubseq(a[1..], b[1..])) || IsSubseq(a, b[1..])))
  }

  lemma {:induction false} SubseqRefl<T>(a: seq<T>)
    ensures IsSubseq(a, a)
    decreases |a|
  {
    if a != [] {
      SubseqRefl(a[1..]);
    }
  }

  /** Deleting elements never makes a sequence longer and never brings in a new element. */
  lemma {:induction false} SubseqBounds<T>(a: seq<T>, b: seq<T>)
    requires IsSubseq(a, b)
    ensures |a| <= |b|
    ensures forall x :: x in a ==> x in b
    decreases |b|
  {
    if a != [] {
      if a[0] == b[0] && IsSubseq(a[1..], b[1..]) {
        SubseqBounds(a[1..], b[1..]);
        assert forall x :: x in a ==> x == a[0] || x in a[1..];
      } else {
        SubseqBounds(a, b[1..]);
      }
    }
  }

  /** Two rounds of deletion are one round of deletion. */
  lemma {:induction false} SubseqTrans<T>(a: seq<T>, b: seq<T>, c: seq<T>)
    requires IsSubseq(a, b) && IsSubseq(b, c)
    ensures IsSubseq(a, c)
    decreases |c|
  {
    if a == [] {
    } else if b[0] == c[0] && IsSubseq(b[1..], c[1..]) {
      if a[0] == b[0] && IsSubseq(a[1..], b[1..]) {
        SubseqTrans(a[1..], b[1..], c[1..]);
      } else {
        SubseqTrans(a, b[1..], c[1..]);
      }
    } else {
      SubseqTrans(a, b, c[1..]);
    }
  }

  /** `splice(i, 1)` only deletes. */
  lemma {:induction false} RemoveAtIsSubseq<T>(s: seq<T>, i: nat)
    ensures IsSubseq(RemoveAt(s, i), s)
    decreases i
  {
    if |s| <= i {
      SubseqRefl(s);
    } else if i == 0 {
      assert RemoveAt(s, 0) == s[1..];
      SubseqRefl(s[1..]);
    } else {
      var r := RemoveAt(s, i);
      assert r[0] == s[0];
      assert r[1..] == RemoveAt(s[1..], i - 1);
      RemoveAtIsSubseq(s[1..], i - 1);
    }
  }

  /** A `splice(i, 1)` applied to a sequence that is already a deletion of `orig` leaves a
      deletion of `orig`. */
  lemma RemoveAtKeepsSubseq<T>(s: seq<T>, i: nat, orig: seq<T>)
    requires IsSubseq(s, orig)
    ensures IsSubseq(RemoveAt(s, i), orig)
  {
    RemoveAtIsSubseq(s, i);
    SubseqTrans(RemoveAt(s, i), s, orig);
  }

  /** `Array.prototype.filter`: the elements that satisfy `p`, in their original order. */
  function Filter<T(==)>(s: seq<T>, p: T -> bool): (r: seq<T>)
    ensures |r| <= |s|
    ensures forall i :: 0 <= i < |r| ==> p(r[i])
  {
    if s == [] then []
    else if p(s[0]) then [s[0]] + Filter(s[1..], p)
    else Filter(s[1..], p)
  }

  /** What `filter` keeps, it keeps in order, and it adds nothing. */
  lemma {:induction false} FilterIsSubseq<T>(s: seq<T>, p: T -> bool)
    ensures IsSubseq(Filter(s, p), s)
  {
    if s != [] {
      FilterIsSubseq(s[1..], p);
      if p(s[0]) {
        assert Filter(s, p)[0] == s[0] && Filter(s, p)[1..] == Filter(s[1..], p);
      }
    }
  }

  /** `filter` keeps every element that satisfies `p`, and brings in nothing new. */
  lemma {:induction false} FilterKeeps<T>(s: seq<T>, p: T -> bool)
    ensures forall x :: x in Filter(s, p) <==> x in s && p(x)
  {
    if s != [] {
      FilterKeeps(s[1..], p);
      assert forall x :: x in s <==> x == s[0] || x in s[1..];
    }
  }

  /** Every element of `s` with `f` applied to it, in place. */
  function Map<T, U>(s: seq<T>, f: T -> U): seq<U>
  {
    seq(|s|, i requires 0 <= i < |s| => f(s[i]))
  }

  /** `forEach(x => ...)` whose callback updates each element in place: index by index,
      every element is replaced by `f` of itself. */
  method ForEach<T>(s: seq<T>, f: T -> T) returns (r: seq<T>)
    ensures r == Map(s, f)
  {
    r := s;
    var i := 0;
    while i < |r|
      invariant 0 <= i <= |r| == |s|
      invariant forall k :: 0 <= k < i ==> r[k] == f(s[k])
      invariant forall k :: i <= k < |r| ==> r[k] == s[k]
    {
      r := r[i := f(r[i])];
      i := i + 1;
    }
  }

  /** How many times `filter` keeps each value: all of its occurrences when it satisfies
      `p`, none otherwise. Duplicates are kept, not merged. */
  lemma {:induction false} FilterCount<T>(s: seq<T>, p: T -> bool)
    ensures forall x :: multiset(Filter(s, p))[x] == if p(x) then multiset(s)[x] else 0
  {
    if s != [] {
      FilterCount(s[1..], p);
      assert s == [s[0]] + s[1..];
      if p(s[0]) {
        assert Filter(s, p) == [s[0]] + Filter(s[1..], p);
      }
    }
  }

  /** Deleting elements never raises how often a value occurs. */
  lemma {:induction false} SubseqMultiset<T>(a: seq<T>, b: seq<T>)
    requires IsSubseq(a, b)
    ensures multiset(a) <= multiset(b)
    decreases |b|
  {
    if a != [] {
      assert b == [b[0]] + b[1..];
      if a[0] == b[0] && IsSubseq(a[1..], b[1..]) {
        SubseqMultiset(a[1..], b[1..]);
        assert a == [a[0]] + a[1..];
      } else {
        SubseqMultiset(a, b[1..]);
      }
    }
  }

  /** `splice(i, 1)` takes away exactly one occurrence of the element at `i`. */
  lemma RemoveAtMultiset<T>(s: seq<T>, i: nat)
    requires i < |s|
    ensures multiset(RemoveAt(s, i)) + multiset{s[i]} == multiset(s)
  {
    assert s == s[..i] + [s[i]] + s[i + 1..];
  }

  /** The elements that survive a `forEach` over `s` whose callback splices out the element
      at the current index whenever `hit` holds of it. After a splice the next element
      slides into the current index and is passed over without being looked at, so a hit
      on `s[0]` removes it, keeps `s[1]` unvisited and goes on at `s[2]`. */
  function WalkKept<T>(s: seq<T>, hit: T -> bool): seq<T>
  {
    if s == [] then []
    else if !hit(s[0]) then [s[0]] + WalkKept(s[1..], hit)
    else if |s| == 1 then []
    else [s[1]] + WalkKept(s[2..], hit)
  }

  /** The elements that the same walk splices out, in the order it removes them. */
  function WalkRemoved<T>(s: seq<T>, hit: T -> bool): seq<T>
  {
    if s == [] then []
    else if !hit(s[0]) then WalkRemoved(s[1..], hit)
    else if |s| == 1 then [s[0]]
    else [s[0]] + WalkRemoved(s[2..], hit)
  }

  /** The walk splits `s`: what it keeps and what it removes are, together, exactly the
      elements of `s`. */
  lemma {:induction false} WalkPartition<T>(s: seq<T>, hit: T -> bool)
    ensures multiset(WalkKept(s, hit)) + multiset(WalkRemoved(s, hit)) == multiset(s)
    decreases |s|
  {
    if s == [] {
    } else if !hit(s[0]) {
      WalkPartition(s[1..], hit);
      WalkPartitionMiss(s, hit);
    } else if |s| == 1 {
      assert WalkKept(s, hit) == [] && WalkRemoved(s, hit) == s;
    } else {
      WalkPartition(s[2..], hit);
      WalkPartitionHit(s, hit);
    }
  }

  lemma WalkPartitionMiss<T>(s: seq<T>, hit: T -> bool)
    requires s != [] && !hit(s[0])
    requires multiset(WalkKept(s[1..], hit)) + multiset(WalkRemoved(s[1..], hit)) == multiset(s[1..])
    ensures multiset(WalkKept(s, hit)) + multiset(WalkRemoved(s, hit)) == multiset(s)
  {
    var rest := s[1..];
    var k := WalkKept(rest, hit);
    assert WalkKept(s, hit) == [s[0]] + k;
    assert multiset([s[0]] + k) == multiset{s[0]} + multiset(k);
    assert WalkRemoved(s, hit) == WalkRemoved(rest, hit);
    MultisetCons(s);
  }

  lemma WalkPartitionHit<T>(s: seq<T>, hit: T -> bool)
    requires |s| >= 2 && hit(s[0])
    requires multiset(WalkKept(s[2..], hit)) + multiset(WalkRemoved(s[2..], hit)) == multiset(s[2..])
    ensures multiset(WalkKept(s, hit)) + multiset(WalkRemoved(s, hit)) == multiset(s)
  {
    var rest := s[2..];
    var k := WalkKept(rest, hit);
    var r := WalkRemoved(rest, hit);
    assert WalkKept(s, hit) == [s[1]] + k;
    assert multiset([s[1]] + k) == multiset{s[1]} + multiset(k);
    assert WalkRemoved(s, hit) == [s[0]] + r;
    assert multiset([s[0]] + r) == multiset{s[0]} + multiset(r);
    MultisetCons(s);
    MultisetCons(s[1..]);
    assert s[1..][1..] == rest;
  }

  lemma MultisetCons<T>(s: seq<T>)
    requires s != []
    ensures multiset(s) == multiset{s[0]} + multiset(s[1..])
  {
    assert s == [s[0]] + s[1..];
  }

  /** Every element is either kept or removed. */
  lemma WalkLength<T>(s: seq<T>, hit: T -> bool)
    ensures |WalkKept(s, hit)| + |WalkRemoved(s, hit)| == |s|
  {
    WalkPartition(s, hit);
    assert |multiset(WalkKept(s, hit)) + multiset(WalkRemoved(s, hit))| == |multiset(s)|;
  }

  /** What the walk keeps stays in its original order. */
  lemma {:induction false} WalkKeptSubseq<T>(s: seq<T>, hit: T -> bool)
    ensures IsSubseq(WalkKept(s, hit), s)
    decreases |s|
  {
    var k := WalkKept(s, hit);
    if s == [] {
    } else if !hit(s[0]) {
      WalkKeptSubseq(s[1..], hit);
      assert k[0] == s[0] && k[1..] == WalkKept(s[1..], hit);
    } else if |s| == 1 {
    } else {
      WalkKeptSubseq(s[2..], hit);
      assert k[0] == s[1] && k[1..] == WalkKept(s[2..], hit);
      assert s[1..][1..] == s[2..];
      assert IsSubseq(k, s[1..]);
    }
  }

  /** The walk removes only elements that `hit`. */
  lemma {:induction false} WalkRemovedHit<T>(s: seq<T>, hit: T -> bool)
    ensures forall x :: x in WalkRemoved(s, hit) ==> hit(x)
    decreases |s|
  {
    if s == [] {
    } else if !hit(s[0]) {
      WalkRemovedHit(s[1..], hit);
    } else if |s| > 1 {
      WalkRemovedHit(s[2..], hit);
    }
  }

  /** An element that `hit` does not hold of is never removed: all of its occurrences
      survive. */
  lemma WalkKeepsMisses<T>(s: seq<T>, hit: T -> bool)
    ensures forall x :: !hit(x) ==> multiset(WalkKept(s, hit))[x] == multiset(s)[x]
  {
    WalkPartition(s, hit);
    WalkRemovedHit(s, hit);
  }

  /** If `hit` holds of some element, the walk removes something: the first such element
      is reached, since nothing before it was spliced. */
  lemma {:induction false} WalkRemovesSomeHit<T>(s: seq<T>, hit: T -> bool, x: T)
    requires x in s && hit(x)
    ensures |WalkRemoved(s, hit)| > 0
    decreases |s|
  {
    if !hit(s[0]) {
      assert x in s[1..];
      WalkRemovesSomeHit(s[1..], hit, x);
    }
  }

  /** A walk over a list holding some element that hits ends with a shorter list. */
  lemma WalkShrinks<T>(s: seq<T>, hit: T -> bool, x: T)
    requires x in s && hit(x)
    ensures |WalkKept(s, hit)| < |s|
  {
    WalkRemovesSomeHit(s, hit, x);
    WalkLength(s, hit);
  }

  /** What a walk stopped at index `i` has already passed over, and what it has still to
      visit; a splice of the last element leaves the index one past the end. */
  function Visited<T>(s: seq<T>, i: nat): seq<T>
  {
    if i <= |s| then s[..i] else s
  }

  function Pending<T>(s: seq<T>, i: nat): seq<T>
  {
    if i <= |s| then s[i..] else []
  }

  /** One step of the index loop agrees with the walk: visiting index `i` (and splicing it
      out on a hit) changes neither the eventual survivors nor the removals still to come,
      except for the one element removed now. */
  lemma WalkStep<T>(s: seq<T>, i: nat, hit: T -> bool)
    requires i < |s|
    ensures var t := if hit(s[i]) then RemoveAt(s, i) else s;
      && Visited(s, i) + WalkKept(Pending(s, i), hit) == Visited(t, i + 1) + WalkKept(Pending(t, i + 1), hit)
      && WalkRemoved(Pending(s, i), hit)
         == (if hit(s[i]) then [s[i]] else []) + WalkRemoved(Pending(t, i + 1), hit)
  {
    if !hit(s[i]) {
      WalkStepMiss(s, i, hit);
    } else if i + 1 < |s| {
      WalkStepHit(s, i, hit);
    } else {
      WalkStepHitLast(s, i, hit);
    }
  }

  lemma WalkStepMiss<T>(s: seq<T>, i: nat, hit: T -> bool)
    requires i < |s| && !hit(s[i])
    ensures Visited(s, i) + WalkKept(Pending(s, i), hit) == Visited(s, i + 1) + WalkKept(Pending(s, i + 1), hit)
    ensures WalkRemoved(Pending(s, i), hit) == WalkRemoved(Pending(s, i + 1), hit)
  {
    var p := s[i..];
    assert p[0] == s[i] && p[1..] == s[i + 1..];
    assert WalkKept(p, hit) == [s[i]] + WalkKept(s[i + 1..], hit);
    assert s[..i + 1] == s[..i] + [s[i]];
  }

  lemma WalkStepHit<T>(s: seq<T>, i: nat, hit: T -> bool)
    requires i + 1 < |s| && hit(s[i])
    ensures Visited(s, i) + WalkKept(Pending(s, i), hit)
         == Visited(RemoveAt(s, i), i + 1) + WalkKept(Pending(RemoveAt(s, i), i + 1), hit)
    ensures WalkRemoved(Pending(s, i), hit) == [s[i]] + WalkRemoved(Pending(RemoveAt(s, i), i + 1), hit)
  {
    var p := s[i..];
    var t := RemoveAt(s, i);
    assert p[0] == s[i] && p[1] == s[i + 1] && p[2..] == s[i + 2..];
    assert t[i + 1..] == s[i + 2..];
    assert t[..i + 1] == s[..i] + [s[i + 1]];
    var k := WalkKept(s[i + 2..], hit);
    assert WalkKept(p, hit) == [s[i + 1]] + k;
    assert s[..i] + ([s[i + 1]] + k) == (s[..i] + [s[i + 1]]) + k;
  }

  lemma WalkStepHitLast<T>(s: seq<T>, i: nat, hit: T -> bool)
    requires i + 1 == |s| && hit(s[i])
    ensures Visited(s, i) + WalkKept(Pending(s, i), hit)
         == Visited(RemoveAt(s, i), i + 1) + WalkKept(Pending(RemoveAt(s, i), i + 1), hit)
    ensures WalkRemoved(Pending(s, i), hit) == [s[i]] + WalkRemoved(Pending(RemoveAt(s, i), i + 1), hit)
  {
    assert s[i..] == [s[i]];
    assert RemoveAt(s, i) == s[..i];
  }

  /** A walk that has passed the end has nothing left to do. */
  lemma WalkDone<T>(s: seq<T>, i: nat, hit: T -> bool)
    requires i >= |s|
    ensures Visited(s, i) + WalkKept(Pending(s, i), hit) == s
    ensures WalkRemoved(Pending(s, i), hit) == []
  {
    assert Pending(s, i) == [];
  }

  lemma AppendAssoc<T>(a: seq<T>, b: seq<T>, c: seq<T>)
    ensures (a + b) + c == a + (b + c)
  {
  }

  /** The state of an index loop that walks `s0` with the splice-while-walking rule: the
      list is now `s`, the index `i`, and `removed` have been spliced out so far. The walk
      of what is left finishes the walk of `s0`. */
  ghost predicate WalkAt<T>(s0: seq<T>, hit: T -> bool, s: seq<T>, i: nat, removed: seq<T>)
  {
    && WalkKept(s0, hit) == Visited(s, i) + WalkKept(Pending(s, i), hit)
    && WalkRemoved(s0, hit) == removed + WalkRemoved(Pending(s, i), hit)
  }

  lemma WalkAtStart<T>(s0: seq<T>, hit: T -> bool)
    ensures WalkAt(s0, hit, s0, 0, [])
  {
    assert Visited(s0, 0) == [] && Pending(s0, 0) == s0;
  }

  /** Visiting index `i`, splicing it out on a hit, keeps the loop on the walk. */
  lemma WalkAtStep<T>(s0: seq<T>, hit: T -> bool, s: seq<T>, i: nat, removed: seq<T>)
    requires WalkAt(s0, hit, s, i, removed) && i < |s|
    ensures hit(s[i]) ==> WalkAt(s0, hit, RemoveAt(s, i), i + 1, removed + [s[i]])
    ensures !hit(s[i]) ==> WalkAt(s0, hit, s, i + 1, removed)
  {
    WalkStep(s, i, hit);
    var t := if hit(s[i]) then RemoveAt(s, i) else s;
    if hit(s[i]) {
      assert removed + ([s[i]] + WalkRemoved(Pending(t, i + 1), hit))
          == (removed + [s[i]]) + WalkRemoved(Pending(t, i + 1), hit);
    } else {
      assert [] + WalkRemoved(Pending(t, i + 1), hit) == WalkRemoved(Pending(t, i + 1), hit);
    }
  }

  /** Once the index has passed the end, the list is the walk's survivors and `removed`
      its removals. */
  lemma WalkAtEnd<T>(s0: seq<T>, hit: T -> bool, s: seq<T>, i: nat, removed: seq<T>)
    requires WalkAt(s0, hit, s, i, removed) && i >= |s|
    ensures s == WalkKept(s0, hit) && removed == WalkRemoved(s0, hit)
  {
    WalkDone(s, i, hit);
    assert removed + [] == removed;
  }
}
