/** Sorting by a string key, with no promise about elements whose keys agree. */
module Sorting {
  import opened Strings

  ghost predicate SortedBy<T>(s: seq<T>, key: T -> string) {
    forall i, j :: 0 <= i < j < |s| ==> !Below(key(s[j]), key(s[i]))
  }

  /** `r` is an answer the library's sort may give. */
  ghost predicate Sorts<T>(r: seq<T>, s: seq<T>, key: T -> string) {
    multiset(r) == multiset(s) && SortedBy(r, key)
  }

  /** Elements with the same key are the same element. */
  ghost predicate Distinguishes<T(!new)>(key: T -> string, s: seq<T>) {
    forall x, y :: x in s && y in s && key(x) == key(y) ==> x == y
  }

  function InsertBy<T>(s: seq<T>, x: T, key: T -> string): seq<T> {
    if s == [] then [x] else if Below(key(s[0]), key(x)) then [s[0]] + InsertBy(s[1..], x, key) else [x] + s
  }

  lemma {:induction false} InsertByMembers<T>(s: seq<T>, x: T, key: T -> string)
    ensures multiset(InsertBy(s, x, key)) == multiset(s) + multiset{x}
  {
    if s != [] {
      assert s == [s[0]] + s[1..];
      InsertByMembers(s[1..], x, key);
    }
  }

  lemma {:induction false} InsertBySorted<T>(s: seq<T>, x: T, key: T -> string)
    requires SortedBy(s, key)
    ensures SortedBy(InsertBy(s, x, key), key)
  {
    if s != [] {
      Total(key(s[0]), key(x));
      if Below(key(s[0]), key(x)) {
        var t := InsertBy(s[1..], x, key);
        InsertBySorted(s[1..], x, key);
        InsertByMembers(s[1..], x, key);
        forall j | 0 <= j < |t| ensures !Below(key(t[j]), key(s[0])) {
          assert t[j] in multiset(t);
          assert t[j] == x || t[j] in s[1..];
        }
      } else {
        forall j | 0 <= j < |s| ensures !Below(key(s[j]), key(x)) {
          if j > 0 {
            Total(key(s[0]), key(s[j]));
            if Below(key(s[j]), key(x)) && Below(key(s[0]), key(s[j])) {
              Transitive(key(s[0]), key(s[j]), key(x));
            }
          }
        }
      }
    }
  }

  lemma {:induction false} SortExists<T>(s: seq<T>, key: T -> string) returns (r: seq<T>)
    ensures Sorts(r, s, key)
  {
    if s == [] {
      r := [];
    } else {
      var t := SortExists(s[1..], key);
      r := InsertBy(t, s[0], key);
      InsertBySorted(t, s[0], key);
      InsertByMembers(t, s[0], key);
      assert s == [s[0]] + s[1..];
    }
  }

  /** The library's sort: its caller learns only that the answer is sorted. */
  method SortSlice<T>(s: seq<T>, key: T -> string) returns (r: seq<T>)
    ensures Sorts(r, s, key)
  {
    r := [];
    var i := 0;
    while i < |s|
      invariant 0 <= i <= |s| && Sorts(r, s[..i], key)
    {
      assert s[..i + 1] == s[..i] + [s[i]];
      InsertBySorted(r, s[i], key);
      InsertByMembers(r, s[i], key);
      r := InsertBy(r, s[i], key);
      i := i + 1;
    }
    assert s[..i] == s;
  }

  ghost predicate Distinct<T(!new)>(s: seq<T>) { forall i, j :: 0 <= i < j < |s| ==> s[i] != s[j] }

  lemma {:induction false} CountOfDistinct<T(!new)>(s: seq<T>, x: T)
    requires Distinct(s)
    ensures multiset(s)[x] <= 1
  {
    if s != [] {
      CountOfDistinct(s[1..], x);
      assert s == [s[0]] + s[1..];
      assert s[0] !in s[1..];
      assert s[0] !in multiset(s[1..]);
    }
  }

  lemma {:induction false} CountOfRepeated<T>(s: seq<T>, i: nat, j: nat)
    requires i < j < |s| && s[i] == s[j]
    ensures multiset(s)[s[i]] >= 2
  {
    RemoveOne(s, j);
    var rest := s[..j] + s[j + 1..];
    assert rest[i] == s[i];
    assert s[i] in multiset(rest);
  }

  lemma {:induction false} SortingKeepsDistinct<T(!new)>(r: seq<T>, s: seq<T>, key: T -> string)
    requires Sorts(r, s, key) && Distinct(s)
    ensures Distinct(r)
  {
    forall i, j | 0 <= i < j < |r| ensures r[i] != r[j] {
      if r[i] == r[j] {
        CountOfRepeated(r, i, j);
        CountOfDistinct(s, r[i]);
      }
    }
  }

  /** If the key tells the elements apart, the answer depends only on which
      elements there are. */
  lemma {:induction false} SortIsUnique<T(!new)>(a: seq<T>, b: seq<T>, key: T -> string)
    requires SortedBy(a, key) && SortedBy(b, key) && multiset(a) == multiset(b) && Distinguishes(key, a)
    ensures a == b
  {
    SameLength(a, b);
    if a != [] {
      HeadsAgree(a, b, key);
      TailsAgree(a, b);
      TailKeeps(a, key);
      TailKeeps(b, key);
      SortIsUnique(a[1..], b[1..], key);
      assert a == [a[0]] + a[1..] && b == [b[0]] + b[1..];
    }
  }

  lemma {:induction false} SameLength<T>(a: seq<T>, b: seq<T>)
    requires multiset(a) == multiset(b)
    ensures |a| == |b|
  {
    assert |multiset(a)| == |a| && |multiset(b)| == |b|;
  }

  lemma {:induction false} TailKeeps<T(!new)>(a: seq<T>, key: T -> string)
    requires a != [] && SortedBy(a, key)
    ensures SortedBy(a[1..], key) && (Distinguishes(key, a) ==> Distinguishes(key, a[1..]))
  {
    assert forall x :: x in a[1..] ==> x in a;
  }

  lemma {:induction false} HeadsAgree<T(!new)>(a: seq<T>, b: seq<T>, key: T -> string)
    requires SortedBy(a, key) && SortedBy(b, key) && multiset(a) == multiset(b) && Distinguishes(key, a)
    requires a != [] && b != []
    ensures a[0] == b[0]
  {
    assert b[0] in multiset(b) && a[0] in multiset(a);
    var i :| 0 <= i < |a| && a[i] == b[0];
    var j :| 0 <= j < |b| && b[j] == a[0];
    Total(key(a[0]), key(b[0]));
    assert key(a[0]) == key(b[0]);
  }

  /** If it does not, the sort may answer in more than one way. */
  lemma {:induction false} SortIsAmbiguous<T(!new)>(s: seq<T>, key: T -> string, x: T, y: T) returns (a: seq<T>, b: seq<T>)
    requires x in s && y in s && x != y && key(x) == key(y)
    ensures Sorts(a, s, key) && Sorts(b, s, key) && a != b
  {
    a := SortExists(s, key);
    assert x in multiset(s) && y in multiset(s);
    assert x in multiset(a) && y in multiset(a);
    var i :| 0 <= i < |a| && a[i] == x;
    var j :| 0 <= j < |a| && a[j] == y;
    b := a[i := y][j := x];
    SwapKeepsOrder(a, i, j, key);
  }

  lemma {:induction false} SwapKeepsOrder<T>(a: seq<T>, i: nat, j: nat, key: T -> string)
    requires SortedBy(a, key) && i < |a| && j < |a| && key(a[i]) == key(a[j])
    ensures SortedBy(a[i := a[j]][j := a[i]], key) && multiset(a[i := a[j]][j := a[i]]) == multiset(a)
  {
    var b := a[i := a[j]][j := a[i]];
    assert forall k :: 0 <= k < |a| ==> key(b[k]) == key(a[k]);
  }

  // ---------------------------------------------------------------- mapping

  function Mapped<T, U>(s: seq<T>, f: T -> U): (r: seq<U>)
    ensures |r| == |s| && forall i :: 0 <= i < |s| ==> r[i] == f(s[i])
  {
    if s == [] then [] else [f(s[0])] + Mapped(s[1..], f)
  }

  lemma {:induction false} RemoveOne<T>(s: seq<T>, i: nat)
    requires i < |s|
    ensures multiset(s) == multiset(s[..i] + s[i + 1..]) + multiset{s[i]}
  {
    assert s == s[..i] + [s[i]] + s[i + 1..];
  }

  lemma {:induction false} MappedRemove<T, U>(s: seq<T>, i: nat, f: T -> U)
    requires i < |s|
    ensures multiset(Mapped(s, f)) == multiset(Mapped(s[..i] + s[i + 1..], f)) + multiset{f(s[i])}
  {
    RemoveOne(Mapped(s, f), i);
    assert Mapped(s[..i] + s[i + 1..], f) == Mapped(s, f)[..i] + Mapped(s, f)[i + 1..];
  }

  lemma {:induction false} SameRest<T>(a: seq<T>, b: seq<T>, j: nat)
    requires multiset(a) == multiset(b) && a != [] && j < |b| && b[j] == a[0]
    ensures multiset(a[1..]) == multiset(b[..j] + b[j + 1..])
  {
    RemoveOne(a, 0);
    RemoveOne(b, j);
    assert a[..0] + a[1..] == a[1..];
    var rest, rest' := multiset(a[1..]), multiset(b[..j] + b[j + 1..]);
    assert rest == (rest + multiset{a[0]}) - multiset{a[0]};
    assert rest' == (rest' + multiset{a[0]}) - multiset{a[0]};
  }

  lemma {:induction false} TailsAgree<T>(a: seq<T>, b: seq<T>)
    requires multiset(a) == multiset(b) && a != [] && b != [] && a[0] == b[0]
    ensures multiset(a[1..]) == multiset(b[1..])
  {
    SameRest(a, b, 0);
    assert b[..0] + b[1..] == b[1..];
  }

  /** Mapping commutes with permuting. */
  lemma {:induction false} MappedPermutes<T, U>(a: seq<T>, b: seq<T>, f: T -> U)
    requires multiset(a) == multiset(b)
    ensures multiset(Mapped(a, f)) == multiset(Mapped(b, f))
    decreases |a|
  {
    if a == [] {
      assert |multiset(b)| == |b| == 0;
    } else {
      assert a[0] in multiset(a);
      assert a[0] in multiset(b);
      var j :| 0 <= j < |b| && b[j] == a[0];
      SameRest(a, b, j);
      var rest := b[..j] + b[j + 1..];
      MappedPermutes(a[1..], rest, f);
      MappedRemove(a, 0, f);
      assert a[..0] + a[1..] == a[1..];
      MappedRemove(b, j, f);
    }
  }
}
