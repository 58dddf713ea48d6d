/** A stable insertion sort by a key, which stands for the sorts of the standard library. */
module Sorting {

  /** Put an element behind every one whose key is not greater. */
  function InsertBy<T>(s: seq<T>, x: T, key: T -> int): seq<T> {
    if |s| == 0 || key(s[|s| - 1]) <= key(x) then s + [x]
    else InsertBy(s[..|s| - 1], x, key) + [s[|s| - 1]]
  }

  function SortBy<T>(s: seq<T>, key: T -> int): seq<T> {
    if |s| == 0 then [] else InsertBy(SortBy(s[..|s| - 1], key), s[|s| - 1], key)
  }

  predicate SortedBy<T>(s: seq<T>, key: T -> int) {
    forall i, j :: 0 <= i < j < |s| ==> key(s[i]) <= key(s[j])
  }

  lemma {:induction false} InsertKeeps<T>(s: seq<T>, x: T, key: T -> int)
    ensures |InsertBy(s, x, key)| == |s| + 1
    ensures multiset(InsertBy(s, x, key)) == multiset(s) + multiset{x}
    ensures forall y :: y in InsertBy(s, x, key) <==> y == x || y in s
  {
    var n := |s|;
    if n > 0 {
      assert s == s[..n - 1] + [s[n - 1]];
      InsertKeeps(s[..n - 1], x, key);
    }
  }

  lemma SortedPush<T>(s: seq<T>, x: T, key: T -> int)
    requires SortedBy(s, key) && forall y :: y in s ==> key(y) <= key(x)
    ensures SortedBy(s + [x], key)
  {
  }

  lemma {:induction false} InsertSorts<T>(s: seq<T>, x: T, key: T -> int)
    requires SortedBy(s, key)
    ensures SortedBy(InsertBy(s, x, key), key)
  {
    var n := |s|;
    if n > 0 && key(s[n - 1]) > key(x) {
      var init, last := s[..n - 1], s[n - 1];
      var r := InsertBy(init, x, key);
      InsertSorts(init, x, key);
      InsertKeeps(init, x, key);
      forall y | y in r ensures key(y) <= key(last) {
        assert y in multiset(r) && multiset(r) == multiset(init) + multiset{x};
        if y in multiset(init) {
          var i :| 0 <= i < n - 1 && init[i] == y;
        }
      }
      SortedPush(r, last, key);
    } else {
      forall y | y in s ensures key(y) <= key(x) {
        var i :| 0 <= i < n && s[i] == y;
      }
      SortedPush(s, x, key);
    }
  }

  lemma {:induction false} SortExact<T>(s: seq<T>, key: T -> int)
    ensures SortedBy(SortBy(s, key), key) && multiset(SortBy(s, key)) == multiset(s)
  {
    var n := |s|;
    if n > 0 {
      assert s == s[..n - 1] + [s[n - 1]];
      SortExact(s[..n - 1], key);
      InsertSorts(SortBy(s[..n - 1], key), s[n - 1], key);
      InsertKeeps(SortBy(s[..n - 1], key), s[n - 1], key);
    }
  }

  /** Two places with one value count twice. */
  lemma CountsTwice<T>(s: seq<T>, i: nat, j: nat)
    requires i < j < |s| && s[i] == s[j]
    ensures multiset(s)[s[i]] >= 2
  {
    assert s == s[..j] + s[j..];
    assert s[..j][i] == s[i] && s[j..][0] == s[i];
    assert s[i] in multiset(s[..j]) && s[i] in multiset(s[j..]);
  }

  /** A rearrangement of a list without repetitions has none. */
  lemma {:induction false} CountsOnce<T>(s: seq<T>, x: T)
    requires forall i, j :: 0 <= i < j < |s| ==> s[i] != s[j]
    ensures multiset(s)[x] <= 1
  {
    var n := |s|;
    if n > 0 {
      assert s == s[..n - 1] + [s[n - 1]];
      CountsOnce(s[..n - 1], x);
      if x in multiset(s[..n - 1]) {
        var i :| 0 <= i < n - 1 && s[i] == x;
      }
    }
  }
}
