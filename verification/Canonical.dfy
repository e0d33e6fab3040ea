/** The scheduling fingerprint of a pod: what it forgets, what it keeps, and
    the one spelling it does not settle. */
module Canonical {
  import opened Wrappers
  import opened Strings
  import opened Sorting

  datatype Expression = Expression(key: string, operator: string, values: seq<string>)

  /** A requirement whose values are sorted and distinct. */
  datatype Canon = Canon(key: string, operator: string, values: seq<string>)

  datatype Term = Term(expressions: seq<Expression>, fields: seq<Expression>)

  datatype CanonTerm = CanonTerm(requirements: seq<Canon>, fields: seq<Canon>)

  datatype Toleration = Toleration(key: string, operator: string, value: string, effect: string, seconds: Option<int>)

  datatype Pod = Pod(selector: map<string, string>, affinity: Option<seq<Term>>, tolerations: seq<Toleration>, opaqueParts: seq<string>)

  datatype Model = Model(selector: seq<Canon>, affinity: Option<seq<CanonTerm>>, tolerations: seq<Toleration>, opaqueParts: seq<string>)

  /** Digests of canonical values, taken to be injective. */
  datatype Digests = Digests(term: CanonTerm -> string, toleration: Toleration -> string, model: Model -> string)

  ghost predicate Injective(d: Digests) {
    && (forall a, b :: d.term(a) == d.term(b) ==> a == b)
    && (forall a, b :: d.toleration(a) == d.toleration(b) ==> a == b)
    && (forall a, b :: d.model(a) == d.model(b) ==> a == b)
  }

  ghost function CanonOf(e: Expression): Canon { Canon(e.key, e.operator, SortedUnique(e.values)) }

  /** Reordering or repeating an expression's values changes nothing, and
      nothing else about it is forgotten. */
  lemma {:induction false} ValuesAreASet(a: Expression, b: Expression)
    ensures CanonOf(a) == CanonOf(b) <==> a.key == b.key && a.operator == b.operator && Members(a.values) == Members(b.values)
  {
    if Members(a.values) == Members(b.values) {
      OnlyMembersMatter(a.values, b.values);
    }
  }

  /** An omitted operator means Equal. */
  function CanonToleration(t: Toleration): Toleration {
    if t.operator == "" then t.(operator := "Equal") else t
  }

  // ---------------------------------------------------------------- the sort key

  const NUL: string := [0 as char]

  function Join(values: seq<string>): string {
    if values == [] then "" else if |values| == 1 then values[0] else values[0] + NUL + Join(values[1..])
  }

  /** The key requirements are sorted by. */
  function SortKey(c: Canon): string { c.key + NUL + c.operator + NUL + Join(c.values) }

  predicate NulFree(s: string) { forall i :: 0 <= i < |s| ==> s[i] != NUL[0] }

  predicate Plain(c: Canon) { NulFree(c.key) && NulFree(c.operator) && forall v :: v in c.values ==> NulFree(v) }

  lemma {:induction false} FirstPart(a: string, x: string, b: string, y: string)
    requires NulFree(a) && NulFree(b) && a + NUL + x == b + NUL + y
    ensures a == b && x == y
  {
    var s, t := a + NUL + x, b + NUL + y;
    assert s[|a|] == NUL[0] && t[|b|] == NUL[0];
    assert |a| == |b|;
    assert s[..|a|] == a && t[..|b|] == b;
    assert s[|a| + 1..] == x && t[|b| + 1..] == y;
  }

  lemma {:induction false} JoinedHasNul(values: seq<string>)
    requires |values| >= 2
    ensures !NulFree(Join(values))
  {
    assert Join(values)[|values[0]|] == NUL[0];
  }

  lemma {:induction false} JoinIsInjective(a: seq<string>, b: seq<string>)
    requires a != [] && b != [] && Join(a) == Join(b)
    requires (forall v :: v in a ==> NulFree(v)) && (forall v :: v in b ==> NulFree(v))
    ensures a == b
  {
    assert a[0] in a && b[0] in b;
    if |a| == 1 && |b| == 1 {
    } else if |a| == 1 {
      JoinedHasNul(b);
    } else if |b| == 1 {
      JoinedHasNul(a);
    } else {
      FirstPart(a[0], Join(a[1..]), b[0], Join(b[1..]));
      assert forall v :: v in a[1..] ==> v in a;
      assert forall v :: v in b[1..] ==> v in b;
      JoinIsInjective(a[1..], b[1..]);
      assert a == [a[0]] + a[1..] && b == [b[0]] + b[1..];
    }
  }

  lemma {:induction false} EmptyJoin(values: seq<string>)
    requires Join(values) == ""
    ensures values == [] || values == [""]
  {
    assert |values| >= 2 ==> |Join(values)| > 0;
  }

  /** No values, or only the empty one: joined, they look the same. */
  predicate Confusable(x: Canon, y: Canon) {
    x.key == y.key && x.operator == y.operator && ((x.values == [] && y.values == [""]) || (x.values == [""] && y.values == []))
  }

  /** The sort key tells requirements apart except for exactly that pair. */
  lemma {:induction false} KeysCollideExactly(x: Canon, y: Canon)
    requires Plain(x) && Plain(y)
    ensures (SortKey(x) == SortKey(y) && x != y) <==> Confusable(x, y)
  {
    if SortKey(x) == SortKey(y) {
      assert SortKey(x) == x.key + NUL + (x.operator + NUL + Join(x.values));
      assert SortKey(y) == y.key + NUL + (y.operator + NUL + Join(y.values));
      FirstPart(x.key, x.operator + NUL + Join(x.values), y.key, y.operator + NUL + Join(y.values));
      FirstPart(x.operator, Join(x.values), y.operator, Join(y.values));
      if x.values == [] {
        EmptyJoin(y.values);
      } else if y.values == [] {
        EmptyJoin(x.values);
      } else {
        JoinIsInjective(x.values, y.values);
      }
    }
  }

  // ---------------------------------------------------------------- canonical form

  ghost function Canons(es: seq<Expression>): seq<Canon> { Mapped(es, CanonOf) }

  ghost predicate IsCanonTerm(t: Term, c: CanonTerm) {
    Sorts(c.requirements, Canons(t.expressions), SortKey) && Sorts(c.fields, Canons(t.fields), SortKey)
  }

  ghost predicate AreCanonTerms(ts: seq<Term>, cs: seq<CanonTerm>) {
    |cs| == |ts| && forall i :: 0 <= i < |ts| ==> IsCanonTerm(ts[i], cs[i])
  }

  /** The selector is a map: one requirement per key, sorted. */
  ghost predicate IsSelector(s: seq<Canon>, selector: map<string, string>) {
    && (forall c :: c in s <==> c.key in selector && c == Canon(c.key, "In", [selector[c.key]]))
    && (forall i, j :: 0 <= i < j < |s| ==> s[i] != s[j])
    && SortedBy(s, SortKey)
  }

  /** m is a canonical form the program may produce for the pod. */
  ghost predicate IsCanonical(p: Pod, m: Model, d: Digests) {
    && IsSelector(m.selector, p.selector)
    && (p.affinity.None? <==> m.affinity.None?)
    && (p.affinity.Some? ==> exists cs :: AreCanonTerms(p.affinity.value, cs) && Sorts(m.affinity.value, cs, d.term))
    && Sorts(m.tolerations, Mapped(p.tolerations, CanonToleration), d.toleration)
    && m.opaqueParts == SortedUnique(p.opaqueParts)
  }

  // ---------------------------------------------------------------- content

  /** What the form is made of, before anything is sorted. */
  datatype TermContent = TermContent(requirements: multiset<Canon>, fields: multiset<Canon>)

  datatype Content = Content(
    selector: map<string, string>, affinity: Option<multiset<TermContent>>, tolerations: multiset<Toleration>, opaqueParts: set<string>)

  ghost function TermContentOf(t: Term): TermContent {
    TermContent(multiset(Canons(t.expressions)), multiset(Canons(t.fields)))
  }

  ghost function ContentOf(p: Pod): Content {
    Content(p.selector,
            if p.affinity.Some? then Some(multiset(Mapped(p.affinity.value, TermContentOf))) else None,
            multiset(Mapped(p.tolerations, CanonToleration)),
            Members(p.opaqueParts))
  }

  ghost predicate PlainSelector(selector: map<string, string>) {
    forall k :: k in selector ==> NulFree(k) && NulFree(selector[k])
  }

  /** Within one list no two requirements share a sort key without being equal. */
  ghost predicate Settled(t: Term) {
    Distinguishes(SortKey, Canons(t.expressions)) && Distinguishes(SortKey, Canons(t.fields))
  }

  ghost predicate AllSettled(p: Pod) {
    p.affinity.Some? ==> forall t :: t in p.affinity.value ==> Settled(t)
  }

  /** The condition in the pod's own terms: no confusable pair. */
  lemma {:induction false} SettledMeans(es: seq<Expression>)
    requires forall c :: c in Canons(es) ==> Plain(c)
    ensures Distinguishes(SortKey, Canons(es)) <==> forall x, y :: x in Canons(es) && y in Canons(es) ==> !Confusable(x, y)
  {
    forall x, y | x in Canons(es) && y in Canons(es)
      ensures (SortKey(x) == SortKey(y) && x != y) <==> Confusable(x, y)
    {
      KeysCollideExactly(x, y);
    }
  }

  // ---------------------------------------------------------------- same content, same form

  /** The sorted list of a bag, if the bag determines it. */
  ghost function Arranged(bag: multiset<Canon>): seq<Canon> {
    if r :| multiset(r) == bag && SortedBy(r, SortKey) then r else []
  }

  lemma {:induction false} ArrangedIs(r: seq<Canon>, cs: seq<Canon>)
    requires Sorts(r, cs, SortKey) && Distinguishes(SortKey, cs)
    ensures r == Arranged(multiset(cs))
  {
    var a := Arranged(multiset(cs));
    assert multiset(a) == multiset(cs) && SortedBy(a, SortKey);
    assert forall x :: x in r <==> x in multiset(r);
    assert forall x :: x in cs <==> x in multiset(cs);
    SortIsUnique(r, a, SortKey);
  }

  ghost function ArrangedTerm(m: TermContent): CanonTerm { CanonTerm(Arranged(m.requirements), Arranged(m.fields)) }

  lemma {:induction false} TermsArrange(ts: seq<Term>, cs: seq<CanonTerm>)
    requires AreCanonTerms(ts, cs) && forall t :: t in ts ==> Settled(t)
    ensures cs == Mapped(Mapped(ts, TermContentOf), ArrangedTerm)
  {
    forall i | 0 <= i < |ts| ensures cs[i] == ArrangedTerm(TermContentOf(ts[i])) {
      assert ts[i] in ts;
      ArrangedIs(cs[i].requirements, Canons(ts[i].expressions));
      ArrangedIs(cs[i].fields, Canons(ts[i].fields));
    }
  }

  lemma {:induction false} SameAffinity(ps: seq<Term>, qs: seq<Term>, a: seq<CanonTerm>, b: seq<CanonTerm>, d: Digests)
    requires Injective(d)
    requires multiset(Mapped(ps, TermContentOf)) == multiset(Mapped(qs, TermContentOf))
    requires (forall t :: t in ps ==> Settled(t)) && (forall t :: t in qs ==> Settled(t))
    requires exists cs :: AreCanonTerms(ps, cs) && Sorts(a, cs, d.term)
    requires exists cs :: AreCanonTerms(qs, cs) && Sorts(b, cs, d.term)
    ensures a == b
  {
    var cs :| AreCanonTerms(ps, cs) && Sorts(a, cs, d.term);
    var es :| AreCanonTerms(qs, es) && Sorts(b, es, d.term);
    TermsArrange(ps, cs);
    TermsArrange(qs, es);
    MappedPermutes(Mapped(ps, TermContentOf), Mapped(qs, TermContentOf), ArrangedTerm);
    SortIsUnique(a, b, d.term);
  }

  lemma {:induction false} SameBag(a: seq<Canon>, b: seq<Canon>)
    requires (forall x :: x in a <==> x in b)
    requires (forall i, j :: 0 <= i < j < |a| ==> a[i] != a[j]) && (forall i, j :: 0 <= i < j < |b| ==> b[i] != b[j])
    ensures multiset(a) == multiset(b)
  {
    forall x ensures multiset(a)[x] == multiset(b)[x] {
      OnceAtMost(a, x);
      OnceAtMost(b, x);
    }
  }

  lemma {:induction false} OnceAtMost(a: seq<Canon>, x: Canon)
    requires forall i, j :: 0 <= i < j < |a| ==> a[i] != a[j]
    ensures multiset(a)[x] == if x in a then 1 else 0
  {
    if a != [] {
      OnceAtMost(a[1..], x);
      assert a == [a[0]] + a[1..];
      assert a[0] !in a[1..];
    }
  }

  lemma {:induction false} SameSelector(a: seq<Canon>, b: seq<Canon>, selector: map<string, string>)
    requires IsSelector(a, selector) && IsSelector(b, selector) && PlainSelector(selector)
    ensures a == b
  {
    SameBag(a, b);
    forall x, y | x in a && y in a && SortKey(x) == SortKey(y) ensures x == y {
      KeysCollideExactly(x, y);
    }
    SortIsUnique(a, b, SortKey);
  }

  /** Canonicalisation is order-blind: pods of the same content have the same
      canonical form. */
  lemma {:induction false} SameContentSameForm(p: Pod, q: Pod, m: Model, n: Model, d: Digests)
    requires Injective(d) && PlainSelector(p.selector)
    requires ContentOf(p) == ContentOf(q) && AllSettled(p) && AllSettled(q)
    requires IsCanonical(p, m, d) && IsCanonical(q, n, d)
    ensures m == n
  {
    SameSelector(m.selector, n.selector, p.selector);
    OnlyMembersMatter(p.opaqueParts, q.opaqueParts);
    SortIsUnique(m.tolerations, n.tolerations, d.toleration);
    if p.affinity.Some? {
      SameAffinity(p.affinity.value, q.affinity.value, m.affinity.value, n.affinity.value, d);
    }
  }

  // ---------------------------------------------------------------- same form, same content

  function BagOf(c: CanonTerm): TermContent { TermContent(multiset(c.requirements), multiset(c.fields)) }

  lemma {:induction false} TermsKeepContent(ts: seq<Term>, cs: seq<CanonTerm>)
    requires AreCanonTerms(ts, cs)
    ensures Mapped(ts, TermContentOf) == Mapped(cs, BagOf)
  {
    forall i | 0 <= i < |ts| ensures TermContentOf(ts[i]) == BagOf(cs[i]) {
      assert IsCanonTerm(ts[i], cs[i]);
    }
  }

  lemma {:induction false} SelectorIsKept(s: seq<Canon>, a: map<string, string>, b: map<string, string>)
    requires IsSelector(s, a) && IsSelector(s, b)
    ensures a == b
  {
    forall k ensures (k in a <==> k in b) && (k in a && k in b ==> a[k] == b[k]) {
      if k in a { assert Canon(k, "In", [a[k]]) in s; }
      if k in b { assert Canon(k, "In", [b[k]]) in s; }
    }
  }

  lemma {:induction false} OpaqueIsKept(a: seq<string>, b: seq<string>)
    requires SortedUnique(a) == SortedUnique(b)
    ensures Members(a) == Members(b)
  {
  }

  lemma {:induction false} AffinityIsKept(ps: seq<Term>, qs: seq<Term>, a: seq<CanonTerm>, d: Digests)
    requires exists cs :: AreCanonTerms(ps, cs) && Sorts(a, cs, d.term)
    requires exists cs :: AreCanonTerms(qs, cs) && Sorts(a, cs, d.term)
    ensures multiset(Mapped(ps, TermContentOf)) == multiset(Mapped(qs, TermContentOf))
  {
    var cs :| AreCanonTerms(ps, cs) && Sorts(a, cs, d.term);
    var es :| AreCanonTerms(qs, es) && Sorts(a, es, d.term);
    TermsKeepContent(ps, cs);
    TermsKeepContent(qs, es);
    MappedPermutes(cs, es, BagOf);
  }

  /** And nothing else is forgotten: pods with the same canonical form have the same content. */
  lemma {:induction false} SameFormSameContent(p: Pod, q: Pod, m: Model, d: Digests)
    requires IsCanonical(p, m, d) && IsCanonical(q, m, d)
    ensures ContentOf(p) == ContentOf(q)
  {
    SelectorIsKept(m.selector, p.selector, q.selector);
    OpaqueIsKept(p.opaqueParts, q.opaqueParts);
    if p.affinity.Some? {
      AffinityIsKept(p.affinity.value, q.affinity.value, m.affinity.value, d);
    }
  }

  // ---------------------------------------------------------------- where it fails

  /** A term with two distinct requirements of one sort key has two canonical
      forms, between which the sort is free to choose. */
  lemma {:induction false} UnsettledTermsHaveTwoForms(t: Term) returns (a: CanonTerm, b: CanonTerm)
    requires !Distinguishes(SortKey, Canons(t.expressions))
    ensures IsCanonTerm(t, a) && IsCanonTerm(t, b) && a != b
  {
    var x, y :| x in Canons(t.expressions) && y in Canons(t.expressions) && SortKey(x) == SortKey(y) && x != y;
    var r, s := SortIsAmbiguous(Canons(t.expressions), SortKey, x, y);
    var fields := SortExists(Canons(t.fields), SortKey);
    a, b := CanonTerm(r, fields), CanonTerm(s, fields);
  }

  lemma {:induction false} UnsettledFieldsHaveTwoForms(t: Term) returns (a: CanonTerm, b: CanonTerm)
    requires !Distinguishes(SortKey, Canons(t.fields))
    ensures IsCanonTerm(t, a) && IsCanonTerm(t, b) && a != b
  {
    var x, y :| x in Canons(t.fields) && y in Canons(t.fields) && SortKey(x) == SortKey(y) && x != y;
    var r, s := SortIsAmbiguous(Canons(t.fields), SortKey, x, y);
    var requirements := SortExists(Canons(t.expressions), SortKey);
    a, b := CanonTerm(requirements, r), CanonTerm(requirements, s);
  }

  lemma {:induction false} TwoFormsUnlessSettled(t: Term) returns (a: CanonTerm, b: CanonTerm)
    requires !Settled(t)
    ensures IsCanonTerm(t, a) && IsCanonTerm(t, b) && a != b
  {
    if !Distinguishes(SortKey, Canons(t.expressions)) {
      a, b := UnsettledTermsHaveTwoForms(t);
    } else {
      a, b := UnsettledFieldsHaveTwoForms(t);
    }
  }

  lemma {:induction false} SettledTermsHaveOneForm(t: Term, a: CanonTerm, b: CanonTerm)
    requires Settled(t) && IsCanonTerm(t, a) && IsCanonTerm(t, b)
    ensures a == b
  {
    ArrangedIs(a.requirements, Canons(t.expressions));
    ArrangedIs(b.requirements, Canons(t.expressions));
    ArrangedIs(a.fields, Canons(t.fields));
    ArrangedIs(b.fields, Canons(t.fields));
  }

  /** So a term's canonical form is determined exactly when it is settled. */
  lemma {:induction false} FormIsDeterminedIffSettled(t: Term)
    ensures Settled(t) <==> forall a, b :: IsCanonTerm(t, a) && IsCanonTerm(t, b) ==> a == b
  {
    if Settled(t) {
      forall a, b | IsCanonTerm(t, a) && IsCanonTerm(t, b) ensures a == b {
        SettledTermsHaveOneForm(t, a, b);
      }
    } else {
      var a, b := TwoFormsUnlessSettled(t);
    }
  }
}
