/** The `ORDER BY` clauses of the server's queries: enumerating a finite
    set of rows in key order. SQL leaves the order of rows with equal keys
    open, and so does this model: any enumeration in key order may come out. */
module Ordering {
  import opened Text

  /** `a` may come before `b` in an ascending (`ORDER BY k ASC`) or
      descending (`ORDER BY k DESC`) enumeration. */
  predicate InOrder(a: int, b: int, descending: bool)
  {
    if descending then a >= b else a <= b
  }

  predicate Distinct<T(==)>(s: seq<T>)
  {
    forall i, j :: 0 <= i < j < |s| ==> s[i] != s[j]
  }

  /** `s` lists every row id of `ids` once, in key order. */
  ghost predicate EnumeratesByKey(s: seq<nat>, ids: set<nat>, key: map<nat, int>, descending: bool)
    requires ids <= key.Keys
  {
    Distinct(s) && (set x | x in s) == ids &&
    forall i, j :: 0 <= i < j < |s| ==> InOrder(key[s[i]], key[s[j]], descending)
  }

  /** A non-empty finite set has a row that may come first. */
  lemma {:induction false} FirstByKeyExists(ids: set<nat>, key: map<nat, int>, descending: bool)
    requires ids != {} && ids <= key.Keys
    ensures exists m :: m in ids && forall x :: x in ids ==> InOrder(key[m], key[x], descending)
    decreases |ids|
  {
    var y :| y in ids;
    var rest := ids - {y};
    assert ids == rest + {y};
    if rest == {} {
      assert ids == {y};
    } else {
      FirstByKeyExists(rest, key, descending);
      var m :| m in rest && forall x :: x in rest ==> InOrder(key[m], key[x], descending);
      if InOrder(key[m], key[y], descending) {
        assert forall x :: x in ids ==> InOrder(key[m], key[x], descending);
      } else {
        assert forall x :: x in ids ==> InOrder(key[y], key[x], descending);
      }
    }
  }

  /** Loop state of `OrderByKey`: `s` enumerates in key order the rows of
      `ids` already taken, and every row still `left` may follow them. */
  ghost predicate TakenByKey(s: seq<nat>, left: set<nat>, ids: set<nat>, key: map<nat, int>, descending: bool)
    requires ids <= key.Keys
  {
    left <= ids &&
    (forall i :: 0 <= i < |s| ==> s[i] in ids && s[i] !in left) &&
    Distinct(s) && (set x | x in s) == ids - left &&
    (forall i, j :: 0 <= i < j < |s| ==> InOrder(key[s[i]], key[s[j]], descending)) &&
    (forall i, x :: 0 <= i < |s| && x in left ==> InOrder(key[s[i]], key[x], descending))
  }

  lemma TakeFirstByKey(s: seq<nat>, left: set<nat>, ids: set<nat>, key: map<nat, int>, descending: bool, m: nat)
    requires ids <= key.Keys
    requires TakenByKey(s, left, ids, key, descending)
    requires m in left && forall x :: x in left ==> InOrder(key[m], key[x], descending)
    ensures TakenByKey(s + [m], left - {m}, ids, key, descending)
  {
    assert (set x | x in s + [m]) == (set x | x in s) + {m};
    assert ids - (left - {m}) == (ids - left) + {m};
  }

  /** Enumerates `ids` in the order of `key` by repeatedly taking a row
      that may come first among those left. */
  method OrderByKey(ids: set<nat>, key: map<nat, int>, descending: bool) returns (s: seq<nat>)
    requires ids <= key.Keys
    ensures EnumeratesByKey(s, ids, key, descending)
  {
    s := [];
    var left := ids;
    while left != {}
      invariant TakenByKey(s, left, ids, key, descending)
      decreases |left|
    {
      FirstByKeyExists(left, key, descending);
      var m :| m in left && forall x :: x in left ==> InOrder(key[m], key[x], descending);
      TakeFirstByKey(s, left, ids, key, descending, m);
      s := s + [m];
      left := left - {m};
    }
  }

  /** `s` lists every date of `dates` once, earliest first. */
  ghost predicate EnumeratesAscending(s: seq<string>, dates: set<string>)
  {
    (set d | d in s) == dates &&
    forall i, j :: 0 <= i < j < |s| ==> Before(s[i], s[j])
  }

  lemma {:induction false} EarliestExists(dates: set<string>)
    requires dates != {}
    ensures exists m :: m in dates && forall d :: d in dates && d != m ==> Before(m, d)
    decreases |dates|
  {
    var y :| y in dates;
    var rest := dates - {y};
    if rest == {} {
      assert dates == {y};
    } else {
      EarliestExists(rest);
      var m :| m in rest && forall d :: d in rest && d != m ==> Before(m, d);
      BeforeTotal(m, y);
      if Before(m, y) {
        forall d | d in dates && d != m
          ensures Before(m, d)
        {
        }
      } else {
        forall d | d in dates && d != y
          ensures Before(y, d)
        {
          assert d in rest;
          if d != m {
            BeforeTransitive(y, m, d);
          }
        }
      }
    }
  }

  /** Loop state of `OrderDates`. */
  ghost predicate TakenAscending(s: seq<string>, left: set<string>, dates: set<string>)
  {
    left <= dates &&
    (set d | d in s) == dates - left &&
    (forall i, j :: 0 <= i < j < |s| ==> Before(s[i], s[j])) &&
    (forall i, d :: 0 <= i < |s| && d in left ==> Before(s[i], d))
  }

  lemma TakeEarliest(s: seq<string>, left: set<string>, dates: set<string>, m: string)
    requires TakenAscending(s, left, dates)
    requires m in left && forall d :: d in left && d != m ==> Before(m, d)
    ensures TakenAscending(s + [m], left - {m}, dates)
  {
    assert (set d | d in s + [m]) == (set d | d in s) + {m};
  }

  /** Enumerates `dates` earliest first (`ORDER BY date ASC` on a table
      whose key is the date). */
  method OrderDates(dates: set<string>) returns (s: seq<string>)
    ensures EnumeratesAscending(s, dates)
    ensures Distinct(s) && |s| == |dates|
  {
    s := [];
    var left := dates;
    while left != {}
      invariant TakenAscending(s, left, dates)
      decreases |left|
    {
      EarliestExists(left);
      var m :| m in left && forall d :: d in left && d != m ==> Before(m, d);
      TakeEarliest(s, left, dates, m);
      s := s + [m];
      left := left - {m};
    }
    DistinctOfAscending(s);
    DistinctCardinality(s);
  }

  lemma DistinctOfAscending(s: seq<string>)
    requires forall i, j :: 0 <= i < j < |s| ==> Before(s[i], s[j])
    ensures Distinct(s)
  {
    forall i, j | 0 <= i < j < |s|
      ensures s[i] != s[j]
    {
      BeforeIrreflexive(s[i]);
    }
  }

  /** A sequence without repetitions has as many elements as its set. */
  lemma {:induction false} DistinctCardinality<T>(s: seq<T>)
    requires Distinct(s)
    ensures |set x | x in s| == |s|
    decreases |s|
  {
    if |s| > 0 {
      var t := s[..|s| - 1];
      DistinctCardinality(t);
      assert (set x | x in s) == (set x | x in t) + {s[|s| - 1]};
      assert s[|s| - 1] !in t;
    }
  }
}
