/**
 * The collection operations the stores and list pages are built from:
 * JavaScript's `Array.prototype.filter`, a `map` that rewrites only the items
 * with a given key, and the order-preserving subsequence relation that every
 * filter result stands in to its input.
 */
module Seqs {

  /** `s.filter(p)`: the items satisfying `p`, in their original order. */
  function Filter<T>(s: seq<T>, p: T -> bool): (r: seq<T>)
    ensures |r| <= |s|
    ensures forall i :: 0 <= i < |r| ==> p(r[i])
  {
    if s == [] then []
    else (if p(s[0]) then [s[0]] else []) + Filter(s[1..], p)
  }

  /**
   * `r` can be obtained from `s` by deleting items: the items of `r` occur in
   * `s` in the same relative order.
   */
  predicate IsSubsequence<T(==)>(r: seq<T>, s: seq<T>)
    decreases |s|
  {
    if r == [] then true
    else if s == [] then false
    else (r[0] == s[0] && IsSubsequence(r[1..], s[1..])) || IsSubsequence(r, s[1..])
  }

  /** Every sequence is a subsequence of itself. */
  lemma {:induction false} SubsequenceRefl<T>(s: seq<T>)
    ensures IsSubsequence(s, s)
    decreases |s|
  {
    if s != [] {
      SubsequenceRefl(s[1..]);
    }
  }

  /** An item is in a filter result exactly when it is in the input and satisfies the predicate. */
  lemma {:induction false} FilterMembers<T>(s: seq<T>, p: T -> bool)
    ensures forall x :: x in Filter(s, p) <==> x in s && p(x)
  {
    if s != [] {
      FilterMembers(s[1..], p);
      assert s == [s[0]] + s[1..];
    }
  }

  /**
   * Filtering keeps every copy: an item satisfying the predicate occurs in
   * the result as often as in the input, any other item not at all.
   */
  lemma {:induction false} FilterMultiset<T>(s: seq<T>, p: T -> bool)
    ensures forall x :: multiset(Filter(s, p))[x] == if p(x) then multiset(s)[x] else 0
  {
    if s != [] {
      FilterMultiset(s[1..], p);
      assert s == [s[0]] + s[1..];
      FilterCons(s[0], s[1..], p);
    }
  }

  /**
   * A filter whose predicate agrees with `q` on every item of the input keeps
   * exactly the items satisfying `q`, each with all its copies.
   */
  lemma FilterAgreesWith<T>(s: seq<T>, p: T -> bool, q: T -> bool)
    requires forall x :: x in s ==> (p(x) <==> q(x))
    ensures forall x :: x in Filter(s, p) <==> x in s && q(x)
    ensures forall x :: multiset(Filter(s, p))[x] == if q(x) then multiset(s)[x] else 0
  {
    FilterMembers(s, p);
    FilterMultiset(s, p);
  }

  /** Filtering a list with one more item in front. */
  lemma FilterCons<T>(x: T, s: seq<T>, p: T -> bool)
    ensures Filter([x] + s, p) == (if p(x) then [x] else []) + Filter(s, p)
  {
    assert ([x] + s)[1..] == s;
  }

  /** Filtering never reorders: its result is a subsequence of its input. */
  lemma {:induction false} FilterIsSubsequence<T>(s: seq<T>, p: T -> bool)
    ensures IsSubsequence(Filter(s, p), s)
  {
    if s != [] {
      FilterIsSubsequence(s[1..], p);
      if !p(s[0]) {
        assert Filter(s, p) == Filter(s[1..], p);
      } else {
        var r := Filter(s, p);
        assert r[0] == s[0] && r[1..] == Filter(s[1..], p);
      }
    }
  }

  /** Filtering by a predicate no item satisfies leaves nothing. */
  lemma {:induction false} FilterDropsAll<T>(s: seq<T>, p: T -> bool)
    requires forall j :: 0 <= j < |s| ==> !p(s[j])
    ensures Filter(s, p) == []
  {
    if s != [] {
      FilterDropsAll(s[1..], p);
    }
  }

  /** When no two positions both satisfy the predicate, the filter keeps at most one item. */
  lemma {:induction false} FilterAtMostOne<T>(s: seq<T>, p: T -> bool)
    requires forall i, j :: 0 <= i < j < |s| && p(s[i]) ==> !p(s[j])
    ensures |Filter(s, p)| <= 1
  {
    if s != [] {
      if p(s[0]) {
        forall j | 0 <= j < |s[1..]|
          ensures !p(s[1..][j])
        {
          assert s[1..][j] == s[j + 1];
        }
        FilterDropsAll(s[1..], p);
      } else {
        FilterAtMostOne(s[1..], p);
      }
    }
  }

  /** No item occurs twice. */
  predicate Distinct<T(==)>(s: seq<T>)
  {
    forall i, j :: 0 <= i < j < |s| ==> s[i] != s[j]
  }

  /** Filtering a list without repetitions gives a list without repetitions. */
  lemma {:induction false} FilterDistinct<T>(s: seq<T>, p: T -> bool)
    requires Distinct(s)
    ensures Distinct(Filter(s, p))
  {
    if s != [] {
      var t := s[1..];
      forall i, j | 0 <= i < j < |t|
        ensures t[i] != t[j]
      {
        assert t[i] == s[i + 1] && t[j] == s[j + 1];
      }
      FilterDistinct(t, p);
      if p(s[0]) {
        forall k | 0 <= k < |t|
          ensures t[k] != s[0]
        {
          assert t[k] == s[k + 1];
        }
        assert multiset(t)[s[0]] == 0;
        FilterMultiset(t, p);
        var rest := Filter(t, p);
        assert s[0] !in multiset(rest);
        var r := Filter(s, p);
        assert r == [s[0]] + rest;
        forall i, j | 0 <= i < j < |r|
          ensures r[i] != r[j]
        {
          assert r[j] == rest[j - 1];
          if i == 0 {
            assert rest[j - 1] in multiset(rest);
          } else {
            assert r[i] == rest[i - 1];
          }
        }
      }
    }
  }

  /** Filtering by a predicate every item satisfies changes nothing. */
  lemma {:induction false} FilterKeepsAll<T>(s: seq<T>, p: T -> bool)
    requires forall x :: x in s ==> p(x)
    ensures Filter(s, p) == s
  {
    if s != [] {
      FilterKeepsAll(s[1..], p);
    }
  }

  /** Two predicates that agree on the items of `s` filter `s` alike. */
  lemma {:induction false} FilterAgree<T>(s: seq<T>, p: T -> bool, q: T -> bool)
    requires forall x :: x in s ==> p(x) == q(x)
    ensures Filter(s, p) == Filter(s, q)
  {
    if s != [] {
      FilterAgree(s[1..], p, q);
    }
  }

  /** Filtering by `p` then by `q` is filtering once by their conjunction `r`. */
  lemma {:induction false} FilterFilter<T>(s: seq<T>, p: T -> bool, q: T -> bool, r: T -> bool)
    requires forall x :: x in s ==> r(x) == (p(x) && q(x))
    ensures Filter(Filter(s, p), q) == Filter(s, r)
  {
    if s != [] {
      FilterFilter(s[1..], p, q, r);
      if p(s[0]) {
        assert Filter(s, p) == [s[0]] + Filter(s[1..], p);
        assert Filter(s, p)[1..] == Filter(s[1..], p);
      } else {
        assert Filter(s, p) == Filter(s[1..], p);
      }
    }
  }

  /** A filter result is a fixed point of the same filter. */
  lemma FilterIdempotent<T>(s: seq<T>, p: T -> bool)
    ensures Filter(Filter(s, p), p) == Filter(s, p)
  {
    FilterKeepsAll(Filter(s, p), p);
  }

  /** Filtering distributes over concatenation. */
  lemma {:induction false} FilterAppend<T>(a: seq<T>, b: seq<T>, p: T -> bool)
    ensures Filter(a + b, p) == Filter(a, p) + Filter(b, p)
  {
    if |a| == 0 {
      assert a + b == b;
    } else {
      var x, rest := a[0], a[1..];
      assert a == [x] + rest;
      FilterAppend(rest, b, p);
      assert a + b == [x] + (rest + b);
      FilterCons(x, rest + b, p);
      FilterCons(x, rest, p);
    }
  }

  /**
   * One stage of a chain of conditional filters, as in
   * `if (active) filtered = filtered.filter(step)`: when `clause` is the
   * stage's effect on one item (`!active || step(x)`), the chain so far
   * (`before`) followed by this stage is one filter by `after`.
   */
  lemma FilterStage<T>(s: seq<T>, before: T -> bool, active: bool, step: T -> bool, after: T -> bool)
    requires forall x :: x in s ==> after(x) == (before(x) && (!active || step(x)))
    ensures (if active then Filter(Filter(s, before), step) else Filter(s, before)) == Filter(s, after)
  {
    if active {
      FilterFilter(s, before, step, after);
    } else {
      FilterAgree(s, before, after);
    }
  }

  /**
   * `s.map(x => key(x) === id ? f(x) : x)`: every item whose key is `id` is
   * replaced by `f` of it, every other item stays, and positions are kept.
   */
  function UpdateWhere<T>(s: seq<T>, key: T -> string, id: string, f: T -> T): (r: seq<T>)
    ensures |r| == |s|
    ensures forall i :: 0 <= i < |s| ==> r[i] == (if key(s[i]) == id then f(s[i]) else s[i])
  {
    if s == [] then []
    else [if key(s[0]) == id then f(s[0]) else s[0]] + UpdateWhere(s[1..], key, id, f)
  }

  /** The number of items satisfying `p`. */
  function Count<T>(s: seq<T>, p: T -> bool): (n: nat)
    ensures n <= |s|
    ensures n == 0 ==> forall i :: 0 <= i < |s| ==> !p(s[i])
  {
    FilterMembers(s, p);
    |Filter(s, p)|
  }

  // ---------------------------------------------------------------------
  // Chains of conditional filters
  // ---------------------------------------------------------------------

  /**
   * One `if (active) filtered = filtered.filter(test)` of a filter handler:
   * the stage applies only when its filter field is set.
   */
  datatype Stage<!T> = Stage(active: bool, test: T -> bool)

  /** `x` survives every stage of the chain. */
  predicate PassesAll<T>(stages: seq<Stage<T>>, x: T)
  {
    forall k :: 0 <= k < |stages| ==> !stages[k].active || stages[k].test(x)
  }

  function Survivor<T>(stages: seq<Stage<T>>): T -> bool
  {
    (x: T) => PassesAll(stages, x)
  }

  /** Before any stage, the chain keeps the whole input. */
  lemma ChainStart<T>(s: seq<T>)
    ensures Filter(s, Survivor<T>([])) == s
  {
    FilterKeepsAll(s, Survivor<T>([]));
  }

  /** Running one more stage after a chain is running the longer chain. */
  lemma ChainStep<T>(s: seq<T>, stages: seq<Stage<T>>, st: Stage<T>)
    ensures (if st.active then Filter(Filter(s, Survivor(stages)), st.test) else Filter(s, Survivor(stages)))
      == Filter(s, Survivor(stages + [st]))
  {
    forall x | x in s
      ensures PassesAll(stages + [st], x) == (PassesAll(stages, x) && (!st.active || st.test(x)))
    {
      var longer := stages + [st];
      assert longer[|stages|] == st;
      assert forall k :: 0 <= k < |stages| ==> longer[k] == stages[k];
    }
    FilterStage(s, Survivor(stages), st.active, st.test, Survivor(stages + [st]));
  }

  /**
   * `if (active) filtered = filtered.filter(test)`: one stage of a filter
   * handler, applied to the list the earlier stages `done` left.
   */
  method Narrow<T>(ghost s: seq<T>, ghost done: seq<Stage<T>>, filtered: seq<T>, st: Stage<T>)
    returns (r: seq<T>)
    requires filtered == Filter(s, Survivor(done))
    ensures r == Filter(s, Survivor(done + [st]))
  {
    r := filtered;
    if st.active {
      r := Filter(r, st.test);
    }
    ChainStep(s, done, st);
  }

  /** A chain with no active stage keeps everything. */
  lemma ChainInactive<T>(s: seq<T>, stages: seq<Stage<T>>)
    requires forall k :: 0 <= k < |stages| ==> !stages[k].active
    ensures Filter(s, Survivor(stages)) == s
  {
    FilterKeepsAll(s, Survivor(stages));
  }

  /** An item satisfying `p` makes the count positive. */
  lemma CountPositive<T>(s: seq<T>, p: T -> bool, x: T)
    requires x in s && p(x)
    ensures Count(s, p) >= 1
  {
    FilterMembers(s, p);
    assert x in Filter(s, p);
  }
}
