/** Generic helpers shared by the three stages of the migration: an Option
    type, an order-preserving filter (the shape of Python's list
    comprehensions, `filter(None, ...)` and `re.sub` with a character class),
    and the subsequence relation used to state that a filter keeps order. */
module Common {

  datatype Option<+T> = None | Some(value: T)

  /** `t` can be obtained from `s` by deleting elements, keeping the rest in order. */
  predicate IsSubseq<T(==)>(t: seq<T>, s: seq<T>)
    decreases |s|
  {
    t == [] ||
    (s != [] && ((t[0] == s[0] && IsSubseq(t[1..], s[1..])) || IsSubseq(t, s[1..])))
  }

  /** The elements of `xs` satisfying `keep`, in their original order. */
  function Filter<T>(xs: seq<T>, keep: T -> bool): (r: seq<T>)
    ensures |r| <= |xs|
    ensures forall i :: 0 <= i < |r| ==> keep(r[i])
  {
    if xs == [] then []
    else (if keep(xs[0]) then [xs[0]] else []) + Filter(xs[1..], keep)
  }

  /** The filter's output holds exactly the input's elements that satisfy `keep`. */
  lemma {:induction false} FilterMembers<T>(xs: seq<T>, keep: T -> bool)
    ensures forall i :: 0 <= i < |Filter(xs, keep)| ==> Filter(xs, keep)[i] in xs
    ensures forall i :: 0 <= i < |xs| && keep(xs[i]) ==> xs[i] in Filter(xs, keep)
  {
    if xs != [] {
      FilterMembers(xs[1..], keep);
      var r := Filter(xs, keep);
      var rest := Filter(xs[1..], keep);
      assert r == (if keep(xs[0]) then [xs[0]] else []) + rest;
      forall i | 0 <= i < |xs| && keep(xs[i]) ensures xs[i] in r {
        if i > 0 {
          assert xs[i] == xs[1..][i - 1];
        }
      }
    }
  }

  lemma FilterCons<T>(x: T, xs: seq<T>, keep: T -> bool)
    ensures Filter([x] + xs, keep) == (if keep(x) then [x] else []) + Filter(xs, keep)
  {
    assert ([x] + xs)[1..] == xs;
  }

  lemma {:induction false} FilterIsSubseq<T>(xs: seq<T>, keep: T -> bool)
    ensures IsSubseq(Filter(xs, keep), xs)
  {
    if xs != [] {
      FilterIsSubseq(xs[1..], keep);
      var r := Filter(xs, keep);
      if keep(xs[0]) {
        assert r[0] == xs[0] && r[1..] == Filter(xs[1..], keep);
      } else {
        assert r == Filter(xs[1..], keep);
      }
    }
  }

  /** Filter keeps everything it may: any order-preserving selection of
      elements that all satisfy `keep` is also a selection of the filter's output. */
  lemma {:induction false} FilterIsLargest<T>(t: seq<T>, xs: seq<T>, keep: T -> bool)
    requires IsSubseq(t, xs)
    requires forall x :: x in t ==> keep(x)
    ensures IsSubseq(t, Filter(xs, keep))
  {
    if t != [] {
      var r := Filter(xs, keep);
      var rest := Filter(xs[1..], keep);
      if t[0] == xs[0] && IsSubseq(t[1..], xs[1..]) {
        assert t[0] in t;
        FilterIsLargest(t[1..], xs[1..], keep);
        assert r == [xs[0]] + rest;
        assert r[0] == t[0] && r[1..] == rest;
      } else {
        FilterIsLargest(t, xs[1..], keep);
        if keep(xs[0]) {
          assert r == [xs[0]] + rest && r[1..] == rest;
        } else {
          assert r == rest;
        }
      }
    }
  }

  lemma {:induction false} FilterKeepsAll<T>(xs: seq<T>, keep: T -> bool)
    requires forall x :: x in xs ==> keep(x)
    ensures Filter(xs, keep) == xs
  {
    if xs != [] {
      assert xs[0] in xs;
      assert forall x :: x in xs[1..] ==> x in xs;
      FilterKeepsAll(xs[1..], keep);
      assert [xs[0]] + xs[1..] == xs;
    }
  }

  lemma FilterIdempotent<T>(xs: seq<T>, keep: T -> bool)
    ensures Filter(Filter(xs, keep), keep) == Filter(xs, keep)
  {
    FilterKeepsAll(Filter(xs, keep), keep);
  }

  /** Filtering by a predicate and by its negation splits the input: every
      occurrence lands in exactly one of the two outputs. */
  lemma {:induction false} FilterPartition<T>(xs: seq<T>, p: T -> bool, q: T -> bool)
    requires forall x :: q(x) == !p(x)
    ensures multiset(Filter(xs, p)) + multiset(Filter(xs, q)) == multiset(xs)
    ensures |Filter(xs, p)| + |Filter(xs, q)| == |xs|
  {
    if xs != [] {
      FilterPartition(xs[1..], p, q);
      assert xs == [xs[0]] + xs[1..];
      assert multiset(xs) == multiset{xs[0]} + multiset(xs[1..]);
    }
  }

  /** The blocks `block(xs[i], done + i + 1)` one after another: the
      concatenation of per-element outputs that carry a running count. */
  function Blocks<A, T>(xs: seq<A>, block: (A, nat) -> seq<T>, done: nat): seq<T>
  {
    if xs == [] then [] else block(xs[0], done + 1) + Blocks(xs[1..], block, done + 1)
  }

  /** The blocks split around any element: the blocks before it, its own
      block numbered `done + k + 1`, then the blocks after it. */
  lemma {:induction false} BlocksSplit<A, T>(xs: seq<A>, block: (A, nat) -> seq<T>, done: nat, k: nat)
    requires k < |xs|
    ensures Blocks(xs, block, done)
            == Blocks(xs[..k], block, done) + block(xs[k], done + k + 1) + Blocks(xs[k + 1..], block, done + k + 1)
  {
    if k == 0 {
      assert xs[..0] == [] && xs[1..] == xs[k + 1..];
    } else {
      var tail := xs[1..];
      BlocksSplit(tail, block, done + 1, k - 1);
      assert tail[..k - 1] == xs[..k][1..] && tail[k - 1] == xs[k] && tail[k..] == xs[k + 1..];
    }
  }

  /** Blocks of a fixed width `b` add up to `|xs| * b` elements. */
  lemma {:induction false} BlocksLength<A, T>(xs: seq<A>, block: (A, nat) -> seq<T>, done: nat, b: nat)
    requires forall x, n :: |block(x, n)| == b
    ensures |Blocks(xs, block, done)| == Times(|xs|, b)
  {
    if xs != [] {
      BlocksLength(xs[1..], block, done + 1, b);
    }
  }

  /** With blocks of a fixed width `b`, the block of the k-th element is the
      slice [Times(k, b), Times(k, b) + b) of the whole. */
  lemma BlockSlice<A, T>(xs: seq<A>, block: (A, nat) -> seq<T>, done: nat, b: nat, k: nat)
    requires forall x, n :: |block(x, n)| == b
    requires k < |xs|
    ensures |Blocks(xs, block, done)| == Times(|xs|, b)
    ensures Times(k, b) + b <= |Blocks(xs, block, done)|
    ensures Blocks(xs, block, done)[Times(k, b) .. Times(k, b) + b] == block(xs[k], done + k + 1)
  {
    BlocksSplit(xs, block, done, k);
    BlocksLength(xs, block, done, b);
    BlocksLength(xs[..k], block, done, b);
    assert |xs[..k]| == k;
    TimesStep(k, |xs|, b);
    var pre := Blocks(xs[..k], block, done);
    var mid := block(xs[k], done + k + 1);
    var post := Blocks(xs[k + 1..], block, done + k + 1);
    assert (pre + mid + post)[|pre| .. |pre| + |mid|] == mid;
  }

  /** The width of `k` blocks of width `b`, counted block by block. */
  function Times(k: nat, b: nat): nat
  {
    if k == 0 then 0 else b + Times(k - 1, b)
  }

  /** Times is the product `k * b`. */
  lemma {:induction false} TimesIsProduct(k: nat, b: nat)
    ensures Times(k, b) == k * b
  {
    if k > 0 {
      TimesIsProduct(k - 1, b);
    }
  }

  /** An earlier block ends no later than a later one starts. */
  lemma {:induction false} TimesStep(x: nat, y: nat, b: nat)
    requires x < y
    ensures Times(x, b) + b <= Times(y, b)
  {
    if x + 1 < y {
      TimesStep(x, y - 1, b);
    }
  }

  /** The blocks from the i-th element on. */
  lemma BlocksFrom<A, T>(xs: seq<A>, block: (A, nat) -> seq<T>, i: nat)
    requires i < |xs|
    ensures Blocks(xs[i..], block, i) == block(xs[i], i + 1) + Blocks(xs[i + 1..], block, i + 1)
  {
    assert xs[i..][1..] == xs[i + 1..];
  }

  /** Concatenation regrouped, at a type that hides the elements. */
  lemma Regroup3<T>(a: seq<T>, b: seq<T>, c: seq<T>)
    ensures a + b + c == a + (b + c)
  {
  }
}
