/**
 * Python's ordering of `str` values (code point by code point, a proper prefix first),
 * and the "sorted set of strings" and `', '.join(...)` idioms built on it.
 */
module Strings {

  /** `a < b` on Python strings. */
  predicate Less(a: string, b: string)
  {
    if |a| == 0 then |b| > 0
    else if |b| == 0 then false
    else if a[0] < b[0] then true
    else a[0] == b[0] && Less(a[1..], b[1..])
  }

  lemma {:induction false} LessIrreflexive(a: string)
    ensures !Less(a, a)
  {
    if |a| > 0 {
      LessIrreflexive(a[1..]);
    }
  }

  lemma {:induction false} LessTransitive(a: string, b: string, c: string)
    requires Less(a, b) && Less(b, c)
    ensures Less(a, c)
  {
    if |a| > 0 && |b| > 0 && |c| > 0 && a[0] == b[0] == c[0] {
      LessTransitive(a[1..], b[1..], c[1..]);
    }
  }

  lemma {:induction false} LessTotal(a: string, b: string)
    requires a != b
    ensures Less(a, b) || Less(b, a)
  {
    if |a| > 0 && |b| > 0 && a[0] == b[0] {
      assert a == [a[0]] + a[1..] && b == [b[0]] + b[1..];
      LessTotal(a[1..], b[1..]);
    }
  }

  lemma {:induction false} LessAsymmetric(a: string, b: string)
    requires Less(a, b)
    ensures !Less(b, a)
  {
    if |a| > 0 && |b| > 0 && a[0] == b[0] {
      LessAsymmetric(a[1..], b[1..]);
    }
  }

  /** Strictly increasing in Python's string order, hence free of duplicates. */
  ghost predicate StrictlySorted(s: seq<string>)
  {
    forall i, j :: 0 <= i < j < |s| ==> Less(s[i], s[j])
  }

  /** Inserts `x` into a sorted sequence before the first larger item, unless it is already there. */
  function InsertUnique(x: string, s: seq<string>): seq<string>
  {
    if |s| == 0 then [x]
    else if x == s[0] then s
    else if Less(x, s[0]) then [x] + s
    else [s[0]] + InsertUnique(x, s[1..])
  }

  lemma {:induction false} InsertUniqueMembers(x: string, s: seq<string>)
    ensures forall y :: y in InsertUnique(x, s) <==> y == x || y in s
  {
    if |s| > 0 && x != s[0] && !Less(x, s[0]) {
      InsertUniqueMembers(x, s[1..]);
      assert s == [s[0]] + s[1..];
    }
  }

  lemma {:induction false} InsertUniqueSorted(x: string, s: seq<string>)
    requires StrictlySorted(s)
    ensures StrictlySorted(InsertUnique(x, s))
  {
    if |s| == 0 {
    } else if x == s[0] {
    } else if Less(x, s[0]) {
      forall j | 0 < j < |s| ensures Less(x, s[j]) { LessTransitive(x, s[0], s[j]); }
    } else {
      LessTotal(x, s[0]);
      InsertUniqueSorted(x, s[1..]);
      InsertUniqueMembers(x, s[1..]);
      var rest := InsertUnique(x, s[1..]);
      forall k | 0 <= k < |rest| ensures Less(s[0], rest[k]) {
        assert rest[k] in rest;
        if rest[k] != x {
          var m :| 0 <= m < |s[1..]| && s[1..][m] == rest[k];
          assert s[1..][m] == s[m + 1];
        }
      }
    }
  }

  /** `sorted(set(items))`: the distinct items in increasing order. */
  function SortedDistinct(items: seq<string>): seq<string>
  {
    if |items| == 0 then []
    else InsertUnique(items[|items| - 1], SortedDistinct(items[..|items| - 1]))
  }

  /** The result is strictly increasing, so each item appears once. */
  lemma {:induction false} SortedDistinctSorted(items: seq<string>)
    ensures StrictlySorted(SortedDistinct(items))
  {
    if |items| > 0 {
      var init := items[..|items| - 1];
      SortedDistinctSorted(init);
      InsertUniqueSorted(items[|items| - 1], SortedDistinct(init));
    }
  }

  /** The result holds exactly the items. */
  lemma {:induction false} SortedDistinctMembers(items: seq<string>)
    ensures forall y :: y in SortedDistinct(items) <==> y in items
  {
    if |items| > 0 {
      var init := items[..|items| - 1];
      SortedDistinctMembers(init);
      InsertUniqueMembers(items[|items| - 1], SortedDistinct(init));
      assert items == init + [items[|items| - 1]];
    }
  }

  /** `sep.join(parts)`. */
  function Join(parts: seq<string>, sep: string): string
  {
    if |parts| == 0 then ""
    else if |parts| == 1 then parts[0]
    else parts[0] + sep + Join(parts[1..], sep)
  }
}
