/** Vocabulary shared by every part of the model. */
module Basics {
  /** A value that may be missing: a nil pointer, a zero time, an absent map entry. */
  datatype Option<+T> = None | Some(value: T)

  /** A Go (value, error) pair. */
  datatype Result<+T, +E> = Success(value: T) | Failure(error: E)

  /** How many elements satisfy p. */
  ghost function Count<T>(s: seq<T>, p: T -> bool): nat {
    if s == [] then 0 else Count(s[..|s| - 1], p) + (if p(s[|s| - 1]) then 1 else 0)
  }

  lemma {:induction false} CountUpdate<T>(s: seq<T>, p: T -> bool, i: nat, x: T)
    requires i < |s|
    ensures Count(s[i := x], p) == Count(s, p) - (if p(s[i]) then 1 else 0) + (if p(x) then 1 else 0)
  {
    var n := |s| - 1;
    var t := s[i := x];
    if i == n {
      assert t[..n] == s[..n];
    } else {
      assert t[..n] == s[..n][i := x];
      CountUpdate(s[..n], p, i, x);
    }
  }

  lemma {:induction false} CountZero<T>(s: seq<T>, p: T -> bool)
    ensures Count(s, p) == 0 <==> forall i | 0 <= i < |s| :: !p(s[i])
  {
    if s != [] {
      var n := |s| - 1;
      CountZero(s[..n], p);
      assert forall i | 0 <= i < n :: s[..n][i] == s[i];
    }
  }

  /** The sum of a weight over a sequence. */
  ghost function Sum<T>(s: seq<T>, w: T -> nat): nat {
    if s == [] then 0 else Sum(s[..|s| - 1], w) + w(s[|s| - 1])
  }

  lemma {:induction false} SumUpdate<T>(s: seq<T>, w: T -> nat, i: nat, x: T)
    requires i < |s|
    ensures Sum(s[i := x], w) == Sum(s, w) - w(s[i]) + w(x)
  {
    var n := |s| - 1;
    var t := s[i := x];
    if i == n {
      assert t[..n] == s[..n];
    } else {
      assert t[..n] == s[..n][i := x];
      SumUpdate(s[..n], w, i, x);
    }
  }

  /** The elements that satisfy p, in order. */
  function Filter<T>(s: seq<T>, p: T -> bool): seq<T> {
    if s == [] then [] else Filter(s[..|s| - 1], p) + (if p(s[|s| - 1]) then [s[|s| - 1]] else [])
  }

  lemma {:induction false} FilterIn<T>(s: seq<T>, p: T -> bool, x: T)
    ensures x in Filter(s, p) <==> x in s && p(x)
  {
    if s != [] {
      var n := |s| - 1;
      FilterIn(s[..n], p, x);
      assert s == s[..n] + [s[n]];
    }
  }

  /** Filtering keeps exactly the elements wanted, each as often as it was there. */
  lemma {:induction false} FilterCounts<T>(s: seq<T>, p: T -> bool, x: T)
    ensures multiset(Filter(s, p))[x] == if p(x) then multiset(s)[x] else 0
  {
    if s != [] {
      var n := |s| - 1;
      FilterCounts(s[..n], p, x);
      assert s == s[..n] + [s[n]];
    }
  }

  lemma {:induction false} FilterSame<T>(s: seq<T>, p: T -> bool, q: T -> bool)
    requires forall i | 0 <= i < |s| :: p(s[i]) == q(s[i])
    ensures Filter(s, p) == Filter(s, q)
  {
    if s != [] {
      FilterSame(s[..|s| - 1], p, q);
    }
  }

  lemma {:induction false} FilterNone<T>(s: seq<T>, p: T -> bool)
    requires forall i | 0 <= i < |s| :: !p(s[i])
    ensures Filter(s, p) == []
  {
    if s != [] {
      FilterNone(s[..|s| - 1], p);
    }
  }

  lemma {:induction false} FilterAll<T>(s: seq<T>, p: T -> bool)
    requires forall i | 0 <= i < |s| :: p(s[i])
    ensures Filter(s, p) == s
  {
    if s != [] {
      FilterAll(s[..|s| - 1], p);
    }
  }

  ghost function Both<T>(p: T -> bool, q: T -> bool): T -> bool { (x: T) => p(x) && q(x) }

  lemma {:induction false} FilterTwice<T>(s: seq<T>, p: T -> bool, q: T -> bool)
    ensures Filter(Filter(s, p), q) == Filter(s, Both(p, q))
  {
    if s != [] {
      var n := |s| - 1;
      FilterTwice(s[..n], p, q);
      if p(s[n]) {
        assert Filter(s, p)[..|Filter(s, p)| - 1] == Filter(s[..n], p);
      } else {
        assert Filter(s, p) == Filter(s[..n], p);
      }
    }
  }

  lemma {:induction false} FilterConcat<T>(s: seq<T>, t: seq<T>, p: T -> bool)
    ensures Filter(s + t, p) == Filter(s, p) + Filter(t, p)
  {
    if t == [] {
      assert s + t == s;
    } else {
      var n := |t| - 1;
      assert (s + t)[..|s + t| - 1] == s + t[..n];
      FilterConcat(s, t[..n], p);
    }
  }

  /** If nothing that satisfies q precedes anything that satisfies p, filtering
      by either gives those of p followed by those of q. */
  lemma {:induction false} FilterSplit<T>(s: seq<T>, p: T -> bool, q: T -> bool, both: T -> bool)
    requires forall i | 0 <= i < |s| :: both(s[i]) == (p(s[i]) || q(s[i]))
    requires forall i, j | 0 <= i <= j < |s| :: !(q(s[i]) && p(s[j]))
    ensures Filter(s, both) == Filter(s, p) + Filter(s, q)
  {
    if s != [] {
      var n := |s| - 1;
      FilterSplit(s[..n], p, q, both);
      if p(s[n]) {
        FilterNone(s[..n], q);
      }
    }
  }

  ghost function AnyOf<T>(ps: seq<T -> bool>): T -> bool { (x: T) => exists k :: 0 <= k < |ps| && ps[k](x) }

  function FilterEach<T>(s: seq<T>, ps: seq<T -> bool>): seq<T> {
    if ps == [] then [] else FilterEach(s, ps[..|ps| - 1]) + Filter(s, ps[|ps| - 1])
  }

  /** Filtering by one predicate after the other gives the elements in their
      own order, if those of an earlier predicate all come before those of a later one. */
  lemma {:induction false} FilterEachInOrder<T>(s: seq<T>, ps: seq<T -> bool>)
    requires forall k, l, i, j | 0 <= k < l < |ps| && 0 <= i <= j < |s| :: !(ps[l](s[i]) && ps[k](s[j]))
    ensures FilterEach(s, ps) == Filter(s, AnyOf(ps))
  {
    if ps == [] {
      FilterNone(s, AnyOf(ps));
    } else {
      var n := |ps| - 1;
      FilterEachInOrder(s, ps[..n]);
      forall i | 0 <= i < |s|
        ensures AnyOf(ps)(s[i]) == (AnyOf(ps[..n])(s[i]) || ps[n](s[i]))
      {
        AnyOfLast(ps, s[i]);
      }
      forall i, j | 0 <= i <= j < |s|
        ensures !(ps[n](s[i]) && AnyOf(ps[..n])(s[j]))
      {
        assert forall k | 0 <= k < n :: ps[..n][k] == ps[k];
      }
      FilterSplit(s, AnyOf(ps[..n]), ps[n], AnyOf(ps));
    }
  }

  lemma AnyOfLast<T>(ps: seq<T -> bool>, x: T)
    requires ps != []
    ensures AnyOf(ps)(x) == (AnyOf(ps[..|ps| - 1])(x) || ps[|ps| - 1](x))
  {
    var n := |ps| - 1;
    assert forall k | 0 <= k < n :: ps[..n][k] == ps[k];
    if AnyOf(ps)(x) && !ps[n](x) {
      var k :| 0 <= k < |ps| && ps[k](x);
      assert ps[..n][k](x);
    }
  }

  ghost predicate AtMostOne<T>(x: T, ps: seq<T -> bool>) {
    forall k, l | 0 <= k < l < |ps| :: !(ps[k](x) && ps[l](x))
  }

  lemma {:induction false} FilterEachLast<T>(s: seq<T>, ps: seq<T -> bool>)
    requires s != [] && AtMostOne(s[|s| - 1], ps)
    ensures var n := |s| - 1;
      multiset(FilterEach(s, ps)) ==
        multiset(FilterEach(s[..n], ps)) + (if AnyOf(ps)(s[n]) then multiset{s[n]} else multiset{})
  {
    var n := |s| - 1;
    if ps != [] {
      var m := |ps| - 1;
      assert forall k | 0 <= k < m :: ps[..m][k] == ps[k];
      FilterEachLast(s, ps[..m]);
      AnyOfLast(ps, s[n]);
    }
  }

  /** If every element satisfies exactly one predicate, filtering by each keeps every element exactly once. */
  lemma {:induction false} FilterEachPermutes<T>(s: seq<T>, ps: seq<T -> bool>)
    requires forall x | x in s :: AnyOf(ps)(x) && AtMostOne(x, ps)
    ensures multiset(FilterEach(s, ps)) == multiset(s)
  {
    if s == [] {
      FilterEachNone<T>(ps);
    } else {
      var n := |s| - 1;
      MultisetLast(s);
      FilterEachPermutes(s[..n], ps);
      FilterEachLast(s, ps);
    }
  }

  lemma MultisetLast<T>(s: seq<T>)
    requires s != []
    ensures s[|s| - 1] in s && forall x :: x in s[..|s| - 1] ==> x in s
    ensures multiset(s) == multiset(s[..|s| - 1]) + multiset{s[|s| - 1]}
  {
    assert s == s[..|s| - 1] + [s[|s| - 1]];
  }

  lemma {:induction false} FilterEachNone<T>(ps: seq<T -> bool>)
    ensures FilterEach([], ps) == []
  {
    if ps != [] {
      FilterEachNone(ps[..|ps| - 1]);
    }
  }

  /** What opening one container after the other yields. */
  function Gather<K, T>(keys: seq<K>, open: K -> seq<T>): seq<T> {
    if keys == [] then [] else Gather(keys[..|keys| - 1], open) + open(keys[|keys| - 1])
  }

  /** The same elements as often, and in the same order where `ordered` says so. */
  ghost predicate Follows<T>(walk: seq<T>, s: seq<T>, ordered: bool) {
    multiset(walk) == multiset(s) && (ordered ==> walk == s)
  }

  lemma FollowsBoth<T>(v: seq<T>, w: seq<T>, s: seq<T>, t: seq<T>, ordered: bool)
    requires Follows(v, s, ordered) && Follows(w, t, ordered)
    ensures Follows(v + w, s + t, ordered)
  {
  }

  /** If each container holds what its test selects, together they hold what the
      tests select one after the other. */
  lemma {:induction false} GatherFollows<K, T>(
    keys: seq<K>, open: K -> seq<T>, s: seq<T>, tests: seq<T -> bool>, ordered: bool)
    requires |tests| == |keys|
    requires forall k | 0 <= k < |keys| :: Follows(open(keys[k]), Filter(s, tests[k]), ordered)
    ensures Follows(Gather(keys, open), FilterEach(s, tests), ordered)
  {
    if keys != [] {
      var n := |keys| - 1;
      GatherFollows(keys[..n], open, s, tests[..n], ordered);
      FollowsBoth(Gather(keys[..n], open), open(keys[n]), FilterEach(s, tests[..n]), Filter(s, tests[n]), ordered);
    }
  }

  /** The integers from y down to low that satisfy keep. */
  function Down(y: int, low: int, keep: int -> bool): seq<int>
    decreases y - low
  {
    if y < low then [] else (if keep(y) then [y] else []) + Down(y - 1, low, keep)
  }

  lemma {:induction false} DownIs(y: int, low: int, keep: int -> bool, x: int)
    ensures x in Down(y, low, keep) <==> low <= x <= y && keep(x)
    decreases y - low
  {
    if y >= low {
      DownIs(y - 1, low, keep, x);
    }
  }

  predicate Descending(s: seq<int>) { forall i, j | 0 <= i < j < |s| :: s[i] > s[j] }

  lemma {:induction false} DownDescends(y: int, low: int, keep: int -> bool)
    ensures Descending(Down(y, low, keep))
    decreases y - low
  {
    if y >= low {
      var later := Down(y - 1, low, keep);
      DownDescends(y - 1, low, keep);
      forall i | 0 <= i < |later|
        ensures later[i] < y
      {
        DownIs(y - 1, low, keep, later[i]);
      }
    }
  }
}
