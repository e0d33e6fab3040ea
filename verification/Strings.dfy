/** Strings in the order the source sorts them, and the sorted duplicate-free
    lists it builds from them. */
module Strings {

  predicate Below(a: string, b: string) {
    if a == [] then b != []
    else if b == [] then false
    else a[0] < b[0] || (a[0] == b[0] && Below(a[1..], b[1..]))
  }

  lemma {:induction false} Total(a: string, b: string)
    ensures Below(a, b) || a == b || Below(b, a)
    ensures !(Below(a, b) && Below(b, a)) && !Below(a, a)
  {
    if a != [] && b != [] && a[0] == b[0] {
      Total(a[1..], b[1..]);
      assert a == [a[0]] + a[1..] && b == [b[0]] + b[1..];
    }
    Irreflexive(a);
  }

  lemma {:induction false} Irreflexive(a: string)
    ensures !Below(a, a)
  {
    if a != [] { Irreflexive(a[1..]); }
  }

  lemma {:induction false} Transitive(a: string, b: string, c: string)
    requires Below(a, b) && Below(b, c)
    ensures Below(a, c)
  {
    if a != [] && b != [] && c != [] && a[0] == b[0] && b[0] == c[0] {
      Transitive(a[1..], b[1..], c[1..]);
    }
  }

  ghost predicate Ascending(s: seq<string>) {
    forall i, j :: 0 <= i < j < |s| ==> Below(s[i], s[j])
  }

  ghost predicate NotDescending(s: seq<string>) {
    forall i, j :: 0 <= i < j < |s| ==> !Below(s[j], s[i])
  }

  function Members(s: seq<string>): set<string> { set x | x in s }

  /** Inserts x before the first element that is not below it. */
  function Inserted(s: seq<string>, x: string): seq<string> {
    if s == [] then [x]
    else if Below(s[0], x) then [s[0]] + Inserted(s[1..], x)
    else [x] + s
  }

  /** The library's sort. */
  function Sorted(s: seq<string>): seq<string> {
    if s == [] then [] else Inserted(Sorted(s[1..]), s[0])
  }

  lemma {:induction false} InsertedIsSorted(s: seq<string>, x: string)
    requires NotDescending(s)
    ensures NotDescending(Inserted(s, x)) && Members(Inserted(s, x)) == Members(s) + {x}
    ensures |Inserted(s, x)| == |s| + 1
  {
    if s != [] {
      var r := Inserted(s, x);
      assert s == [s[0]] + s[1..];
      if Below(s[0], x) {
        InsertedIsSorted(s[1..], x);
        var t := Inserted(s[1..], x);
        assert Members(r) == {s[0]} + Members(t);
        forall j | 0 < j < |r| ensures !Below(r[j], r[0]) {
          assert r[j] == t[j - 1] && t[j - 1] in Members(t);
          assert r[j] == x || r[j] in s[1..];
          Total(s[0], x);
        }
      } else {
        forall j | 0 < j < |r| ensures !Below(r[j], r[0]) {
          assert r[j] == s[j - 1];
          if Below(s[j - 1], x) {
            Total(s[0], s[j - 1]);
            if Below(s[0], s[j - 1]) { Transitive(s[0], s[j - 1], x); }
          }
        }
      }
    }
  }

  lemma {:induction false} SortedIsSorted(s: seq<string>)
    ensures NotDescending(Sorted(s)) && Members(Sorted(s)) == Members(s) && |Sorted(s)| == |s|
  {
    if s != [] {
      SortedIsSorted(s[1..]);
      InsertedIsSorted(Sorted(s[1..]), s[0]);
      assert s == [s[0]] + s[1..];
    }
  }

  /** Ascending lists are determined by their members. */
  lemma {:induction false} AscendingIsUnique(s: seq<string>, t: seq<string>)
    requires Ascending(s) && Ascending(t) && Members(s) == Members(t)
    ensures s == t
  {
    assert t != [] ==> t[0] in Members(t);
    if s != [] {
      assert s[0] in Members(s);
      var i :| 0 <= i < |t| && t[i] == s[0];
      assert t[0] in Members(s);
      var j :| 0 <= j < |s| && s[j] == t[0];
      Total(s[0], t[0]);
      assert s[0] == t[0];
      assert s == [s[0]] + s[1..] && t == [t[0]] + t[1..];
      forall x ensures x in Members(s[1..]) <==> x in Members(t[1..]) {
        if x in Members(s[1..]) {
          var k :| 0 <= k < |s[1..]| && s[1..][k] == x;
          assert s[k + 1] == x && Below(s[0], x);
          Irreflexive(x);
          assert x in Members(t);
        }
        if x in Members(t[1..]) {
          var k :| 0 <= k < |t[1..]| && t[1..][k] == x;
          assert t[k + 1] == x && Below(t[0], x);
          Irreflexive(x);
          assert x in Members(s);
        }
      }
      AscendingIsUnique(s[1..], t[1..]);
    }
  }

  ghost predicate IsSortedUnique(r: seq<string>, values: seq<string>) {
    Ascending(r) && Members(r) == Members(values)
  }

  /** Moves the distinct values of a sorted array to its front. */
  method Squeeze(a: array<string>, ghost sorted: seq<string>) returns (write: nat)
    requires a.Length > 0 && a[..] == sorted && NotDescending(sorted)
    modifies a
    ensures write <= a.Length && Squeezed(sorted, |sorted|, a[..write])
  {
    ghost var kept := [sorted[0]];
    assert sorted[..1] == kept;
    write := 1;
    var read := 1;
    while read < a.Length
      invariant 1 <= write <= read <= a.Length
      invariant a[read..] == sorted[read..]
      invariant a[..write] == kept
      invariant Squeezed(sorted, read, kept)
    {
      SqueezeOne(sorted, read, kept);
      var value := a[read];
      assert value == a[read..][0] == sorted[read];
      assert a[write - 1] == a[..write][write - 1];
      var repeated := value == a[write - 1];
      assert a[read + 1..] == a[read..][1..];
      if !repeated {
        Overwrite(a, write, value);
        kept := kept + [value];
        write := write + 1;
      }
      read := read + 1;
      assert a[read..] == sorted[read..];
    }
    assert sorted[..|sorted|] == sorted;
  }

  method Overwrite(a: array<string>, write: nat, value: string)
    requires write < a.Length
    modifies a
    ensures a[..write + 1] == old(a[..write]) + [value] && a[write + 1..] == old(a[write + 1..])
  {
    a[write] := value;
  }

  /** Sorts a copy and squeezes duplicates out of it in place. */
  method SortedUniqueStrings(values: seq<string>) returns (result: seq<string>)
    ensures IsSortedUnique(result, values)
  {
    SortedIsSorted(values);
    var sorted := Sorted(values);
    var n := |sorted|;
    if n < 2 {
      return sorted;
    }
    var a := new string[n](i requires 0 <= i < n => sorted[i]);
    assert a[..] == sorted;
    var write := Squeeze(a, sorted);
    assert sorted[..n] == sorted;
    return a[..write];
  }

  /** What in-place squeezing has kept of the first `read` sorted values. */
  ghost predicate Squeezed(sorted: seq<string>, read: nat, kept: seq<string>)
    requires read <= |sorted|
  {
    Ascending(kept) && Members(kept) == Members(sorted[..read]) && read > 0 && kept != [] && kept[|kept| - 1] == sorted[read - 1]
  }

  lemma {:induction false} SqueezeOne(sorted: seq<string>, read: nat, kept: seq<string>)
    requires NotDescending(sorted) && read < |sorted| && Squeezed(sorted, read, kept)
    ensures Squeezed(sorted, read + 1, if sorted[read] == kept[|kept| - 1] then kept else kept + [sorted[read]])
  {
    var x := sorted[read];
    assert sorted[..read + 1] == sorted[..read] + [x];
    assert Members(sorted[..read + 1]) == Members(sorted[..read]) + {x};
    if x == sorted[read - 1] {
      assert x == kept[|kept| - 1] && x in Members(kept);
    } else {
      Total(sorted[read - 1], x);
      forall i | 0 <= i < |kept| ensures Below(kept[i], x) {
        if i < |kept| - 1 { Transitive(kept[i], sorted[read - 1], x); }
      }
      assert Members(kept + [x]) == Members(kept) + {x};
    }
  }

  /** The list a multiset of values is reduced to: order and repetition do not matter. */
  ghost function SortedUnique(values: seq<string>): (r: seq<string>)
    ensures IsSortedUnique(r, values)
  {
    SortedUniqueExists(values);
    var r :| IsSortedUnique(r, values);
    r
  }

  lemma {:induction false} SortedUniqueExists(values: seq<string>)
    ensures exists r :: IsSortedUnique(r, values)
  {
    SortedIsSorted(values);
    var sorted := Sorted(values);
    if sorted == [] {
      assert IsSortedUnique([], values);
    } else {
      SqueezeExists(sorted, |sorted|);
      assert sorted[..|sorted|] == sorted;
      var r :| Squeezed(sorted, |sorted|, r);
      assert IsSortedUnique(r, values);
    }
  }

  lemma {:induction false} SqueezeExists(sorted: seq<string>, n: nat)
    requires NotDescending(sorted) && 0 < n <= |sorted|
    ensures exists r :: Squeezed(sorted, n, r)
  {
    if n == 1 {
      assert sorted[..1] == [sorted[0]];
      assert Squeezed(sorted, 1, [sorted[0]]);
    } else {
      SqueezeExists(sorted, n - 1);
      var r :| Squeezed(sorted, n - 1, r);
      SqueezeOne(sorted, n - 1, r);
    }
  }

  /** Permuting or repeating values changes nothing. */
  lemma {:induction false} OnlyMembersMatter(a: seq<string>, b: seq<string>)
    requires Members(a) == Members(b)
    ensures SortedUnique(a) == SortedUnique(b)
  {
    AscendingIsUnique(SortedUnique(a), SortedUnique(b));
  }

  lemma {:induction false} SortedUniqueIs(r: seq<string>, values: seq<string>)
    requires IsSortedUnique(r, values)
    ensures r == SortedUnique(values)
  {
    AscendingIsUnique(r, SortedUnique(values));
  }
}
