/** Python's order on strings and sorting by a string key. */
module LexicalOrder {

  predicate Leq(a: string, b: string) {
    a == "" || (b != "" && (a[0] < b[0] || (a[0] == b[0] && Leq(a[1..], b[1..]))))
  }

  predicate Less(a: string, b: string) {
    a != b && Leq(a, b)
  }

  /** The first position in which the two differ, or the length of the shorter. */
  function AgreeUpTo(a: string, b: string): (k: nat)
    ensures k <= |a| && k <= |b| && a[..k] == b[..k]
    ensures k < |a| && k < |b| ==> a[k] != b[k]
  {
    if a == "" || b == "" || a[0] != b[0] then 0 else 1 + AgreeUpTo(a[1..], b[1..])
  }

  /** a precedes b if and only if it is a proper prefix of b, or has the smaller character where they first differ. */
  lemma {:induction false} LessIff(a: string, b: string)
    ensures var k := AgreeUpTo(a, b);
      Less(a, b) <==> (k == |a| && k < |b|) || (k < |a| && k < |b| && a[k] < b[k])
  {
    if a != "" && b != "" && a[0] == b[0] {
      LessIff(a[1..], b[1..]);
      assert a == [a[0]] + a[1..] && b == [b[0]] + b[1..];
    }
  }

  lemma {:induction false} LeqTotal(a: string, b: string)
    ensures Leq(a, b) || Leq(b, a)
  {
    if a != "" && b != "" && a[0] == b[0] {
      LeqTotal(a[1..], b[1..]);
    }
  }

  lemma {:induction false} LeqAntisymmetric(a: string, b: string)
    requires Leq(a, b) && Leq(b, a)
    ensures a == b
  {
    if a != "" {
      LeqAntisymmetric(a[1..], b[1..]);
      assert a == [a[0]] + a[1..] && b == [b[0]] + b[1..];
    }
  }

  lemma {:induction false} LeqTransitive(a: string, b: string, c: string)
    requires Leq(a, b) && Leq(b, c)
    ensures Leq(a, c)
  {
    if a != "" && a[0] == b[0] && b[0] == c[0] {
      LeqTransitive(a[1..], b[1..], c[1..]);
    }
  }

  /** Strictly increasing keys. */
  ghost predicate Increasing<T>(s: seq<T>, key: T -> string) {
    forall i, j :: 0 <= i < j < |s| ==> Less(key(s[i]), key(s[j]))
  }

  ghost predicate DistinctKeys<T>(s: seq<T>, key: T -> string) {
    forall i, j :: 0 <= i < j < |s| ==> key(s[i]) != key(s[j])
  }

  ghost predicate SameMembers<T(!new)>(s: seq<T>, t: seq<T>) {
    forall x :: x in s <==> x in t
  }

  function Insert<T>(x: T, s: seq<T>, key: T -> string): seq<T> {
    if s == [] || Less(key(x), key(s[0])) then [x] + s else [s[0]] + Insert(x, s[1..], key)
  }

  /** sorted(s, key=key): equal keys keep their order. */
  function Sort<T>(s: seq<T>, key: T -> string): seq<T> {
    if s == [] then [] else Insert(s[|s| - 1], Sort(s[..|s| - 1], key), key)
  }

  lemma {:induction false} InsertMembers<T(!new)>(x: T, s: seq<T>, key: T -> string)
    ensures forall y :: y in Insert(x, s, key) <==> y == x || y in s
    ensures |Insert(x, s, key)| == |s| + 1
  {
    if s != [] && !Less(key(x), key(s[0])) {
      InsertMembers(x, s[1..], key);
    }
  }

  lemma InsertHead<T(!new)>(x: T, s: seq<T>, key: T -> string, y: T)
    requires Increasing(s, key) && s != [] && Less(key(x), key(s[0])) && y in s
    ensures Less(key(x), key(y))
  {
    var k :| 0 <= k < |s| && s[k] == y;
    if k > 0 {
      LeqTransitive(key(x), key(s[0]), key(y));
      if key(x) == key(y) {
        LeqAntisymmetric(key(s[0]), key(y));
      }
    }
  }

  lemma {:induction false} InsertIncreasing<T(!new)>(x: T, s: seq<T>, key: T -> string)
    requires Increasing(s, key) && forall y <- s :: key(y) != key(x)
    ensures Increasing(Insert(x, s, key), key)
  {
    if s != [] {
      assert s[0] in s;
      if Less(key(x), key(s[0])) {
        forall y | y in s
          ensures Less(key(x), key(y))
        {
          InsertHead(x, s, key, y);
        }
      } else {
        var rest := Insert(x, s[1..], key);
        LeqTotal(key(x), key(s[0]));
        InsertIncreasing(x, s[1..], key);
        InsertMembers(x, s[1..], key);
        forall j | 0 <= j < |rest|
          ensures Less(key(s[0]), key(rest[j]))
        {
          assert rest[j] in rest;
          if rest[j] != x {
            var k :| 0 <= k < |s[1..]| && s[1..][k] == rest[j];
            assert s[k + 1] == rest[j];
          }
        }
      }
    }
  }

  lemma {:induction false} SortMembers<T(!new)>(s: seq<T>, key: T -> string)
    ensures SameMembers(Sort(s, key), s)
  {
    if s != [] {
      var front, last := s[..|s| - 1], s[|s| - 1];
      SortMembers(front, key);
      InsertMembers(last, Sort(front, key), key);
      assert s == front + [last];
    }
  }

  lemma {:induction false} SortIncreasing<T(!new)>(s: seq<T>, key: T -> string)
    requires DistinctKeys(s, key)
    ensures Increasing(Sort(s, key), key)
  {
    if s != [] {
      var front, last := s[..|s| - 1], s[|s| - 1];
      SortIncreasing(front, key);
      SortMembers(front, key);
      forall y | y in Sort(front, key)
        ensures key(y) != key(last)
      {
        var k :| 0 <= k < |front| && front[k] == y;
        assert s[k] == y;
      }
      InsertIncreasing(last, Sort(front, key), key);
    }
  }

  lemma LeastIsFirst<T(!new)>(s: seq<T>, t: seq<T>, key: T -> string)
    requires Increasing(s, key) && Increasing(t, key) && SameMembers(s, t) && s != [] && t != []
    ensures s[0] == t[0]
  {
    assert s[0] in t && t[0] in s;
    var i :| 0 <= i < |t| && t[i] == s[0];
    var j :| 0 <= j < |s| && s[j] == t[0];
    if i > 0 && j > 0 {
      LeqAntisymmetric(key(s[0]), key(t[0]));
      assert false;
    }
  }

  lemma SameMembersEmpty<T(!new)>(s: seq<T>, t: seq<T>)
    requires SameMembers(s, t)
    ensures s == [] <==> t == []
  {
    if s != [] {
      assert s[0] in s;
    }
    if t != [] {
      assert t[0] in t;
    }
  }

  /** A strictly increasing sequence is determined by its members. */
  lemma {:induction false} IncreasingUnique<T(!new)>(s: seq<T>, t: seq<T>, key: T -> string)
    requires Increasing(s, key) && Increasing(t, key) && SameMembers(s, t)
    ensures s == t
  {
    SameMembersEmpty(s, t);
    if s != [] {
      assert s[0] in t;
      LeastIsFirst(s, t, key);
      forall x
        ensures x in s[1..] <==> x in t[1..]
      {
        assert x in s <==> x in t;
        assert s == [s[0]] + s[1..] && t == [t[0]] + t[1..];
        assert x in s[1..] ==> key(x) != key(s[0]);
        assert x in t[1..] ==> key(x) != key(t[0]);
      }
      IncreasingUnique(s[1..], t[1..], key);
      assert s == [s[0]] + s[1..] && t == [t[0]] + t[1..];
    }
  }

  /** Sorting forgets the order, as long as no two keys are equal. */
  lemma SortForgetsOrder<T(!new)>(s: seq<T>, t: seq<T>, key: T -> string)
    requires DistinctKeys(s, key) && DistinctKeys(t, key) && SameMembers(s, t)
    ensures Sort(s, key) == Sort(t, key)
  {
    SortMembers(s, key);
    SortMembers(t, key);
    SortIncreasing(s, key);
    SortIncreasing(t, key);
    IncreasingUnique(Sort(s, key), Sort(t, key), key);
  }
}
