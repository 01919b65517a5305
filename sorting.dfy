/** Array.prototype.sort with a comparator, as the stable sort ECMAScript
    requires: `le(a, b)` stands for `compare(a, b) <= 0`. */
module Sorting {
  import opened Seqs

  ghost predicate Total<T(!new)>(le: (T, T) -> bool) {
    forall a, b :: le(a, b) || le(b, a)
  }

  ghost predicate Transitive<T(!new)>(le: (T, T) -> bool) {
    forall a, b, c :: le(a, b) && le(b, c) ==> le(a, c)
  }

  predicate Sorted<T>(s: seq<T>, le: (T, T) -> bool) {
    forall i, j :: 0 <= i < j < |s| ==> le(s[i], s[j])
  }

  /** Places x before the first element it does not come after. */
  function Insert<T>(x: T, s: seq<T>, le: (T, T) -> bool): (r: seq<T>)
    ensures multiset(r) == multiset(s) + multiset{x}
  {
    if s == [] then [x]
    else if le(x, s[0]) then [x] + s
    else
      assert s == [s[0]] + s[1..];
      [s[0]] + Insert(x, s[1..], le)
  }

  function Sort<T>(s: seq<T>, le: (T, T) -> bool): (r: seq<T>)
    ensures multiset(r) == multiset(s)
  {
    if s == [] then []
    else
      assert s == [s[0]] + s[1..];
      Insert(s[0], Sort(s[1..], le), le)
  }

  lemma {:induction false} InsertSorted<T(!new)>(x: T, s: seq<T>, le: (T, T) -> bool)
    requires Total(le) && Transitive(le)
    requires Sorted(s, le)
    ensures Sorted(Insert(x, s, le), le)
  {
    if s != [] && !le(x, s[0]) {
      var rest := Insert(x, s[1..], le);
      InsertSorted(x, s[1..], le);
      assert le(s[0], x);
      forall k | 0 <= k < |rest| ensures le(s[0], rest[k]) {
        assert rest[k] in multiset(rest);
        if rest[k] != x {
          assert rest[k] in multiset(s[1..]);
          var m :| 0 <= m < |s[1..]| && s[1..][m] == rest[k];
          assert s[m + 1] == rest[k];
        }
      }
    }
  }

  /** Under a total preorder the sort returns a sorted permutation of its input. */
  lemma {:induction false} SortSorted<T(!new)>(s: seq<T>, le: (T, T) -> bool)
    requires Total(le) && Transitive(le)
    ensures Sorted(Sort(s, le), le)
  {
    if s != [] {
      SortSorted(s[1..], le);
      InsertSorted(s[0], Sort(s[1..], le), le);
    }
  }

  // ---- stability ----

  /** Inserting a kept element that comes no later than any other kept element puts it
      in front of all of them. */
  lemma {:induction false} InsertFilterKept<T(!new)>(x: T, t: seq<T>, le: (T, T) -> bool, q: T -> bool)
    requires q(x) && forall y :: q(y) ==> le(x, y)
    ensures Filter(Insert(x, t, le), q) == [x] + Filter(t, q)
  {
    if t == [] {
      assert Insert(x, t, le) == [x];
    } else if le(x, t[0]) {
      var c := [x] + t;
      assert c[1..] == t;
    } else {
      var rest := Insert(x, t[1..], le);
      InsertFilterKept(x, t[1..], le, q);
      assert !q(t[0]);
      var c := [t[0]] + rest;
      assert c[1..] == rest;
      assert Filter(t, q) == Filter(t[1..], q);
    }
  }

  /** Inserting an element that is not kept leaves the kept ones as they were. */
  lemma {:induction false} InsertFilterDropped<T(!new)>(x: T, t: seq<T>, le: (T, T) -> bool, q: T -> bool)
    requires !q(x)
    ensures Filter(Insert(x, t, le), q) == Filter(t, q)
  {
    if t != [] && !le(x, t[0]) {
      InsertFilterDropped(x, t[1..], le, q);
      assert Insert(x, t, le) == [t[0]] + Insert(x, t[1..], le);
      assert ([t[0]] + Insert(x, t[1..], le))[1..] == Insert(x, t[1..], le);
    }
  }

  /** Stability: the elements of any class whose members all compare equal to one
      another come out in the order they went in. */
  lemma {:induction false} SortStable<T(!new)>(s: seq<T>, le: (T, T) -> bool, q: T -> bool)
    requires forall x, y :: q(x) && q(y) ==> le(x, y)
    ensures Filter(Sort(s, le), q) == Filter(s, q)
  {
    if s != [] {
      SortStable(s[1..], le, q);
      if q(s[0]) {
        InsertFilterKept(s[0], Sort(s[1..], le), le, q);
      } else {
        InsertFilterDropped(s[0], Sort(s[1..], le), le, q);
      }
    }
  }
}
