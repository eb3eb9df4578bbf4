/** The pieces of Django's query interface the layer app uses, stated over
    in-memory tables (sequences of rows): nullable columns, `filter(...)`,
    `get(...)` with its two exceptions, and pandas' `Index.unique()`. */
module Query {

  /** A nullable column or an optional argument (`None` in Python). */
  datatype Option<T> = None | Some(value: T)

  /** `if x:` on an optional string: present and not empty. */
  predicate Given(f: Option<string>) {
    f.Some? && f.value != ""
  }

  /** `r` keeps some of the elements of `s`, in the order they have in `s`. */
  ghost predicate IsSubsequence<T>(r: seq<T>, s: seq<T>) {
    r == [] ||
    (s != [] &&
     ((r[|r| - 1] == s[|s| - 1] && IsSubsequence(r[..|r| - 1], s[..|s| - 1])) ||
      IsSubsequence(r, s[..|s| - 1])))
  }

  /** `queryset.filter(p)`: the rows satisfying `p`, in table order. */
  function Where<T(!new)>(s: seq<T>, p: T -> bool): (r: seq<T>)
    ensures forall x :: x in r <==> x in s && p(x)
    ensures |r| <= |s|
  {
    if s == [] then []
    else
      var init := s[..|s| - 1];
      var last := s[|s| - 1];
      assert s == init + [last];
      if p(last) then Where(init, p) + [last] else Where(init, p)
  }

  /** A filter keeps each row at most as often as the table has it. */
  lemma {:induction false} WhereSubMultiset<T(!new)>(s: seq<T>, p: T -> bool)
    ensures multiset(Where(s, p)) <= multiset(s)
  {
    if s != [] {
      var init := s[..|s| - 1];
      WhereSubMultiset(init, p);
      assert s == init + [s[|s| - 1]];
    }
  }

  /** A filter keeps the order of the rows it keeps. */
  lemma {:induction false} WhereSubsequence<T(!new)>(s: seq<T>, p: T -> bool)
    ensures IsSubsequence(Where(s, p), s)
  {
    if s != [] {
      var init := s[..|s| - 1];
      WhereSubsequence(init, p);
      var r := Where(s, p);
      if r != Where(init, p) {
        assert r[..|r| - 1] == Where(init, p);
      }
    }
  }

  /** Filtering twice is filtering by both conditions. */
  lemma {:induction false} WhereWhere<T(!new)>(s: seq<T>, p: T -> bool, q: T -> bool, pq: T -> bool)
    requires forall x :: pq(x) == (p(x) && q(x))
    ensures Where(Where(s, p), q) == Where(s, pq)
  {
    if s != [] {
      WhereWhere(s[..|s| - 1], p, q, pq);
    }
  }

  /** Outcome of `Model.objects.get(...)`: the one matching row, or the
      `DoesNotExist` / `MultipleObjectsReturned` exception. */
  datatype Lookup = NotFound | Found(id: nat) | Multiple

  /** Index of the first occurrence of `x` in `s`. */
  function FirstIndex<T(==)>(s: seq<T>, x: T): (k: nat)
    requires x in s
    ensures k < |s| && s[k] == x
    ensures forall j :: 0 <= j < k ==> s[j] != x
  {
    if s[0] == x then 0 else 1 + FirstIndex(s[1..], x)
  }

  lemma {:induction false} FirstIndexOfPrefix<T>(s: seq<T>, n: nat, x: T)
    requires n <= |s| && x in s[..n]
    ensures FirstIndex(s, x) == FirstIndex(s[..n], x)
  {
    var k := FirstIndex(s[..n], x);
    var f := FirstIndex(s, x);
    assert s[k] == x;
    assert f <= k;
    assert s[..n][f] == x;
  }

  /** `Index.unique()`: every value once, in the order of first appearance. */
  function Distinct<T(==,!new)>(s: seq<T>): (r: seq<T>)
    ensures forall x :: x in r <==> x in s
    ensures forall i, j :: 0 <= i < j < |r| ==> r[i] != r[j]
    ensures forall i, j :: 0 <= i < j < |r| ==> FirstIndex(s, r[i]) < FirstIndex(s, r[j])
  {
    if s == [] then []
    else
      var front := s[..|s| - 1];
      var d := Distinct(front);
      var last := s[|s| - 1];
      forall x | x in d ensures FirstIndex(s, x) == FirstIndex(front, x) {
        FirstIndexOfPrefix(s, |s| - 1, x);
      }
      assert s == front + [last];
      if last in d then d
      else
        assert FirstIndex(s, last) == |s| - 1;
        d + [last]
  }

  /** A loop over the first `n` of `rows` that applies `step` to each in
      order and ends at the first state that is `stopped`. */
  function Run<S, R>(s: S, rows: seq<R>, n: nat, stopped: S -> bool, step: (S, R) -> S): S
    requires n <= |rows|
  {
    if n == 0 then s
    else
      var front := Run(s, rows, n - 1, stopped, step);
      if stopped(front) then front else step(front, rows[n - 1])
  }

  /** Once stopped, later rows are not read. */
  lemma {:induction false} RunStops<S, R>(s: S, rows: seq<R>, n: nat, m: nat, stopped: S -> bool, step: (S, R) -> S)
    requires n <= m <= |rows| && stopped(Run(s, rows, n, stopped, step))
    ensures Run(s, rows, m, stopped, step) == Run(s, rows, n, stopped, step)
  {
    if m > n {
      RunStops(s, rows, n, m - 1, stopped, step);
    }
  }

  /** A property of the state that every step keeps holds after the run. */
  lemma {:induction false} RunKeeps<S, R>(s: S, rows: seq<R>, n: nat, stopped: S -> bool, step: (S, R) -> S,
                                          inv: S -> bool)
    requires n <= |rows| && inv(s)
    requires forall k, x :: 0 <= k < |rows| && inv(x) && !stopped(x) ==> inv(step(x, rows[k]))
    ensures inv(Run(s, rows, n, stopped, step))
  {
    if n > 0 {
      RunKeeps(s, rows, n - 1, stopped, step, inv);
    }
  }

  /** A part of the state that no step shrinks, only extends, grows along
      the run. */
  lemma {:induction false} RunGrows<S, R, T>(s: S, rows: seq<R>, m: nat, n: nat, stopped: S -> bool, step: (S, R) -> S,
                                             part: S -> seq<T>)
    requires m <= n <= |rows|
    requires forall k, x :: 0 <= k < |rows| && !stopped(x) ==> part(x) <= part(step(x, rows[k]))
    ensures part(Run(s, rows, m, stopped, step)) <= part(Run(s, rows, n, stopped, step))
  {
    if m < n {
      RunGrows(s, rows, m, n - 1, stopped, step, part);
    }
  }

  /** A property of the first `k` rows and the state after them, which each
      step carries from `k` to `k + 1`, holds after a run that did not stop. */
  lemma {:induction false} RunInduct<S, R>(s: S, rows: seq<R>, n: nat, stopped: S -> bool, step: (S, R) -> S,
                                           inv: (nat, S) -> bool)
    requires n <= |rows| && inv(0, s)
    requires forall k, x :: 0 <= k < |rows| && inv(k, x) && !stopped(x) ==> inv(k + 1, step(x, rows[k]))
    ensures !stopped(Run(s, rows, n, stopped, step)) ==> inv(n, Run(s, rows, n, stopped, step))
  {
    if n > 0 {
      RunInduct(s, rows, n - 1, stopped, step, inv);
    }
  }

  // ---- sorted(..., key=...) ----

  ghost predicate Total<T(!new)>(before: (T, T) -> bool) {
    forall a, b :: before(a, b) || before(b, a)
  }

  ghost predicate Transitive<T(!new)>(before: (T, T) -> bool) {
    forall a, b, c :: before(a, b) && before(b, c) ==> before(a, c)
  }

  ghost predicate SortedBy<T>(s: seq<T>, before: (T, T) -> bool) {
    forall i, j :: 0 <= i < j < |s| ==> before(s[i], s[j])
  }

  /** `x` placed before the first element of the sorted `s` it comes at or
      before, so that equal keys keep their order. */
  function InsertBy<T(!new)>(x: T, s: seq<T>, before: (T, T) -> bool): (r: seq<T>)
    requires Total(before) && Transitive(before) && SortedBy(s, before)
    ensures SortedBy(r, before)
    ensures multiset(r) == multiset(s) + multiset{x} && |r| == |s| + 1
  {
    if s == [] || before(x, s[0]) then
      [x] + s
    else
      var rest := InsertBy(x, s[1..], before);
      assert s == [s[0]] + s[1..];
      assert forall k :: 0 <= k < |rest| ==> before(s[0], rest[k]) by {
        forall k | 0 <= k < |rest| ensures before(s[0], rest[k]) {
          assert rest[k] in multiset(rest);
          if rest[k] != x {
            assert rest[k] in multiset(s[1..]);
          }
        }
      }
      [s[0]] + rest
  }

  /** Python's `sorted(s, key=...)` for the order `before`: a stable
      insertion sort. */
  function SortBy<T(!new)>(s: seq<T>, before: (T, T) -> bool): (r: seq<T>)
    requires Total(before) && Transitive(before)
    ensures SortedBy(r, before)
    ensures multiset(r) == multiset(s) && |r| == |s|
  {
    if s == [] then []
    else
      assert s == [s[0]] + s[1..];
      InsertBy(s[0], SortBy(s[1..], before), before)
  }
}
