/** The fingerprint as the program computes it, and for which pods it depends on
    nothing but what they mean. */
module Fingerprints {
  import opened Wrappers
  import opened Strings
  import opened Sorting
  import opened Canonical
  import opened PodMeaning

  // ---------------------------------------------------------------- computing it

  /** One list of requirements: values made a sorted set, then sorted by key. */
  method CanonicalRequirements(es: seq<Expression>) returns (cs: seq<Canon>)
    ensures Sorts(cs, Canons(es), SortKey)
  {
    ghost var all := Canons(es);
    var raw: seq<Canon> := [];
    var i := 0;
    while i < |es|
      invariant 0 <= i <= |es| && raw == all[..i]
    {
      var values := SortedUniqueStrings(es[i].values);
      SortedUniqueIs(values, es[i].values);
      raw := raw + [Canon(es[i].key, es[i].operator, values)];
      assert all[..i + 1] == all[..i] + [all[i]];
      i := i + 1;
    }
    assert all[..i] == all;
    cs := SortSlice(raw, SortKey);
  }

  lemma {:induction false} OneMoreForm(ts: seq<Term>, i: nat, cs: seq<CanonTerm>, c: CanonTerm)
    requires i < |ts| && AreCanonTerms(ts[..i], cs) && IsCanonTerm(ts[i], c)
    ensures AreCanonTerms(ts[..i + 1], cs + [c])
  {
    assert forall j :: 0 <= j < i ==> ts[..i + 1][j] == ts[..i][j];
  }

  method CanonicalTerms(ts: seq<Term>) returns (cs: seq<CanonTerm>)
    ensures AreCanonTerms(ts, cs)
  {
    cs := [];
    var i := 0;
    while i < |ts|
      invariant 0 <= i <= |ts| && AreCanonTerms(ts[..i], cs)
    {
      var requirements := CanonicalRequirements(ts[i].expressions);
      var fields := CanonicalRequirements(ts[i].fields);
      OneMoreForm(ts, i, cs, CanonTerm(requirements, fields));
      cs := cs + [CanonTerm(requirements, fields)];
      i := i + 1;
    }
    assert ts[..i] == ts;
  }

  /** The keys of a map, in whatever order it yields them. */
  method KeysOf(selector: map<string, string>) returns (keys: seq<string>)
    ensures Distinct(keys) && forall k :: k in keys <==> k in selector
  {
    keys := [];
    var left := selector.Keys;
    while left != {}
      invariant left <= selector.Keys && Distinct(keys) && forall k :: k in keys <==> k in selector && k !in left
      decreases left
    {
      var k :| k in left;
      keys, left := keys + [k], left - {k};
    }
  }

  method CanonicalSelector(selector: map<string, string>) returns (s: seq<Canon>)
    ensures IsSelector(s, selector)
  {
    var unordered := KeysOf(selector);
    var keys := SortSlice(unordered, (k: string) => k);
    SortingKeepsDistinct(keys, unordered, (k: string) => k);
    SameElements(keys, unordered);
    var raw: seq<Canon> := [];
    var i := 0;
    while i < |keys|
      invariant 0 <= i <= |keys| && |raw| == i
      invariant forall j :: 0 <= j < i ==> keys[j] in selector && raw[j] == Canon(keys[j], "In", [selector[keys[j]]])
    {
      assert keys[i] in keys;
      var values := SortedUniqueStrings([selector[keys[i]]]);
      OneValue(values, selector[keys[i]]);
      raw := raw + [Canon(keys[i], "In", values)];
      i := i + 1;
    }
    s := SortSlice(raw, SortKey);
    SelectorIsSorted(s, raw, keys, selector);
  }

  lemma {:induction false} OneValue(r: seq<string>, value: string)
    requires IsSortedUnique(r, [value])
    ensures r == [value]
  {
    SortedUniqueIs(r, [value]);
    SortedUniqueIs([value], [value]);
  }

  lemma {:induction false} SameElements<T>(a: seq<T>, b: seq<T>)
    requires multiset(a) == multiset(b)
    ensures forall x :: x in a <==> x in b
  {
    forall x ensures x in a <==> x in b {
      assert x in a <==> x in multiset(a);
      assert x in b <==> x in multiset(b);
    }
  }

  lemma {:induction false} SelectorIsSorted(s: seq<Canon>, raw: seq<Canon>, keys: seq<string>, selector: map<string, string>)
    requires Distinct(keys) && (forall k :: k in keys <==> k in selector) && |raw| == |keys| && Sorts(s, raw, SortKey)
    requires forall j :: 0 <= j < |keys| ==> keys[j] in selector && raw[j] == Canon(keys[j], "In", [selector[keys[j]]])
    ensures IsSelector(s, selector)
  {
    assert Distinct(raw);
    SortingKeepsDistinct(s, raw, SortKey);
    SameElements(s, raw);
    forall c ensures c in s <==> c.key in selector && c == Canon(c.key, "In", [selector[c.key]]) {
      if c.key in selector && c == Canon(c.key, "In", [selector[c.key]]) {
        var j :| 0 <= j < |keys| && keys[j] == c.key;
        assert raw[j] == c;
      }
    }
  }

  method CanonicalTolerations(ts: seq<Toleration>, d: Digests) returns (cs: seq<Toleration>)
    ensures Sorts(cs, Mapped(ts, CanonToleration), d.toleration)
  {
    ghost var all := Mapped(ts, CanonToleration);
    var spelled: seq<Toleration> := [];
    var i := 0;
    while i < |ts|
      invariant 0 <= i <= |ts| && spelled == all[..i]
    {
      spelled := spelled + [CanonToleration(ts[i])];
      assert all[..i + 1] == all[..i] + [all[i]];
      i := i + 1;
    }
    assert all[..i] == all;
    cs := SortSlice(spelled, d.toleration);
  }

  /** The scheduling model of a pod. */
  method SchedulingModel(p: Pod, d: Digests) returns (m: Model)
    ensures IsCanonical(p, m, d)
  {
    var selector := CanonicalSelector(p.selector);
    var affinity: Option<seq<CanonTerm>> := None;
    if p.affinity.Some? {
      var terms := CanonicalTerms(p.affinity.value);
      var sorted := SortSlice(terms, d.term);
      affinity := Some(sorted);
    }
    var tolerations := CanonicalTolerations(p.tolerations, d);
    var parts := SortedUniqueStrings(p.opaqueParts);
    SortedUniqueIs(parts, p.opaqueParts);
    m := Model(selector, affinity, tolerations, parts);
  }

  // ---------------------------------------------------------------- every pod has a form

  lemma {:induction false} SelectorFormExists(selector: map<string, string>) returns (s: seq<Canon>)
    ensures IsSelector(s, selector)
  {
    var keys := KeyListExists(selector.Keys);
    var raw := seq(|keys|, i requires 0 <= i < |keys| && keys[i] in selector => Canon(keys[i], "In", [selector[keys[i]]]));
    s := SortExists(raw, SortKey);
    SelectorIsSorted(s, raw, keys, selector);
  }

  lemma {:induction false} KeyListExists(keys: set<string>) returns (list: seq<string>)
    ensures Distinct(list) && forall k :: k in list <==> k in keys
    decreases keys
  {
    list := [];
    if keys != {} {
      var k :| k in keys;
      list := KeyListExists(keys - {k});
      list := list + [k];
    }
  }

  lemma {:induction false} TermFormsExist(ts: seq<Term>) returns (cs: seq<CanonTerm>)
    ensures AreCanonTerms(ts, cs)
  {
    cs := [];
    if ts != [] {
      var init, last := ts[..|ts| - 1], ts[|ts| - 1];
      cs := TermFormsExist(init);
      var requirements := SortExists(Canons(last.expressions), SortKey);
      var fields := SortExists(Canons(last.fields), SortKey);
      cs := cs + [CanonTerm(requirements, fields)];
    }
  }

  /** A form with these forms of its terms. */
  lemma {:induction false} FormWithTerms(p: Pod, cs: seq<CanonTerm>, d: Digests) returns (m: Model)
    requires p.affinity.Some? ==> AreCanonTerms(p.affinity.value, cs)
    ensures IsCanonical(p, m, d) && (m.affinity.Some? ==> multiset(m.affinity.value) == multiset(cs))
  {
    var selector := SelectorFormExists(p.selector);
    var tolerations := SortExists(Mapped(p.tolerations, CanonToleration), d.toleration);
    var affinity: Option<seq<CanonTerm>> := None;
    if p.affinity.Some? {
      var sorted := SortExists(cs, d.term);
      affinity := Some(sorted);
    }
    m := Model(selector, affinity, tolerations, SortedUnique(p.opaqueParts));
  }

  // ---------------------------------------------------------------- when it is the only one

  /** No two expressions of one list that the sort key confuses: the same key
      and operator, once without values and once with only the empty one. */
  predicate Clash(e: Expression, f: Expression) {
    e.key == f.key && e.operator == f.operator && e.values == [] && f.values != [] && forall v :: v in f.values ==> v == ""
  }

  predicate Clashing(es: seq<Expression>) {
    exists i, j :: 0 <= i < |es| && 0 <= j < |es| && Clash(es[i], es[j])
  }

  predicate PlainExpression(e: Expression) { NulFree(e.key) && NulFree(e.operator) && forall v :: v in e.values ==> NulFree(v) }

  predicate PlainTerm(t: Term) {
    (forall e :: e in t.expressions ==> PlainExpression(e)) && (forall e :: e in t.fields ==> PlainExpression(e))
  }

  ghost predicate PlainPod(p: Pod) {
    PlainSelector(p.selector) && (p.affinity.Some? ==> forall t :: t in p.affinity.value ==> PlainTerm(t))
  }

  predicate ClashFree(p: Pod) {
    p.affinity.Some? ==> forall t :: t in p.affinity.value ==> !Clashing(t.expressions) && !Clashing(t.fields)
  }

  lemma {:induction false} CanonIsPlain(e: Expression)
    requires PlainExpression(e)
    ensures Plain(CanonOf(e))
  {
    forall v | v in CanonOf(e).values ensures NulFree(v) {
      assert v in Members(SortedUnique(e.values)) && v in Members(e.values);
    }
  }

  lemma {:induction false} ClashIsConfusable(e: Expression, f: Expression)
    ensures Clash(e, f) || Clash(f, e) <==> Confusable(CanonOf(e), CanonOf(f))
  {
    EmptyValues(e.values);
    EmptyValues(f.values);
  }

  lemma {:induction false} EmptyValues(values: seq<string>)
    ensures SortedUnique(values) == [] <==> values == []
    ensures SortedUnique(values) == [""] <==> values != [] && forall v :: v in values ==> v == ""
  {
    var r := SortedUnique(values);
    assert Members(r) == Members(values);
    if values != [] { assert values[0] in Members(values); }
    if r != [] { assert r[0] in Members(r); }
    if values != [] && forall v :: v in values ==> v == "" {
      assert Members([""]) == Members(values);
      SortedUniqueIs([""], values);
    }
    if r == [""] {
      forall v | v in values ensures v == "" {
        assert v in Members(values) && v in Members(r);
      }
    }
  }

  lemma {:induction false} SettledIffNoClash(es: seq<Expression>)
    requires forall e :: e in es ==> PlainExpression(e)
    ensures Distinguishes(SortKey, Canons(es)) <==> !Clashing(es)
  {
    var cs := Canons(es);
    forall c | c in cs ensures Plain(c) {
      var i :| 0 <= i < |cs| && cs[i] == c;
      CanonIsPlain(es[i]);
    }
    SettledMeans(es);
    if i, j :| 0 <= i < |es| && 0 <= j < |es| && Clash(es[i], es[j]) {
      ClashIsConfusable(es[i], es[j]);
      assert cs[i] in cs && cs[j] in cs;
    }
    if !Clashing(es) {
      forall x, y | x in cs && y in cs ensures !Confusable(x, y) {
        var i :| 0 <= i < |cs| && cs[i] == x;
        var j :| 0 <= j < |cs| && cs[j] == y;
        ClashIsConfusable(es[i], es[j]);
      }
    }
  }

  lemma {:induction false} SettledIffClashFree(p: Pod)
    requires PlainPod(p)
    ensures AllSettled(p) <==> ClashFree(p)
  {
    if p.affinity.Some? {
      forall t | t in p.affinity.value ensures Settled(t) <==> !Clashing(t.expressions) && !Clashing(t.fields) {
        SettledIffNoClash(t.expressions);
        SettledIffNoClash(t.fields);
      }
    }
  }

  lemma {:induction false} SettledTermIsContent(s: Term, t: Term)
    requires TermContentOf(s) == TermContentOf(t) && Settled(s)
    ensures Settled(t)
  {
    SameElements(Canons(s.expressions), Canons(t.expressions));
    SameElements(Canons(s.fields), Canons(t.fields));
  }

  lemma {:induction false} MappedElement<T, U>(a: seq<T>, b: seq<T>, f: T -> U, i: nat) returns (j: nat)
    requires multiset(Mapped(a, f)) == multiset(Mapped(b, f)) && i < |b|
    ensures j < |a| && f(a[j]) == f(b[i])
  {
    var u := Mapped(b, f)[i];
    assert u in multiset(Mapped(b, f));
    assert u in multiset(Mapped(a, f));
    j :| 0 <= j < |a| && Mapped(a, f)[j] == u;
  }

  /** Whether its lists are settled is part of what a pod means. */
  lemma {:induction false} SettledIsMeaning(p: Pod, q: Pod)
    requires MeaningOf(p) == MeaningOf(q) && AllSettled(p)
    ensures AllSettled(q)
  {
    MeaningIsContent(p, q);
    if q.affinity.Some? {
      var ps, qs := p.affinity.value, q.affinity.value;
      forall t | t in qs ensures Settled(t) {
        var i :| 0 <= i < |qs| && qs[i] == t;
        var j := MappedElement(ps, qs, TermContentOf, i);
        assert ps[j] in ps;
        SettledTermIsContent(ps[j], t);
      }
    }
  }

  lemma {:induction false} OtherForm(ts: seq<Term>, cs: seq<CanonTerm>, i: nat, a: CanonTerm)
    requires AreCanonTerms(ts, cs) && i < |ts| && IsCanonTerm(ts[i], a)
    ensures AreCanonTerms(ts, cs[i := a])
  {
  }

  lemma {:induction false} UnsettledPodsHaveTwoForms(p: Pod, d: Digests) returns (m: Model, n: Model)
    requires !AllSettled(p)
    ensures IsCanonical(p, m, d) && IsCanonical(p, n, d) && m != n
  {
    var ts := p.affinity.value;
    var i :| 0 <= i < |ts| && !Settled(ts[i]);
    var a, b := TwoFormsUnlessSettled(ts[i]);
    var cs := TermFormsExist(ts);
    OtherForm(ts, cs, i, a);
    OtherForm(ts, cs, i, b);
    m := FormWithTerms(p, cs[i := a], d);
    n := FormWithTerms(p, cs[i := b], d);
    OneChanged(cs, i, a, b);
  }

  lemma {:induction false} OneChanged<T>(s: seq<T>, i: nat, a: T, b: T)
    requires i < |s| && a != b
    ensures multiset(s[i := a]) != multiset(s[i := b])
  {
    var rest := s[..i] + s[i + 1..];
    RemoveOne(s[i := a], i);
    RemoveOne(s[i := b], i);
    assert s[i := a][..i] + s[i := a][i + 1..] == rest && s[i := b][..i] + s[i := b][i + 1..] == rest;
    assert multiset(s[i := a])[a] == multiset(rest)[a] + 1 && multiset(s[i := b])[a] == multiset(rest)[a];
  }

  /** The form is order-blind: it is the form of every pod that means the same. */
  ghost predicate OrderBlind(p: Pod, d: Digests) {
    forall q, m, n :: MeaningOf(q) == MeaningOf(p) && IsCanonical(p, m, d) && IsCanonical(q, n, d) ==> m == n
  }

  /** A pod's fingerprint depends on nothing but what the pod means if and only
      if none of its lists has a clash. */
  lemma {:induction false} OrderBlindIffClashFree(p: Pod, d: Digests)
    requires Injective(d) && PlainPod(p)
    ensures OrderBlind(p, d) <==> ClashFree(p)
  {
    SettledIffClashFree(p);
    if AllSettled(p) {
      forall q, m, n | MeaningOf(q) == MeaningOf(p) && IsCanonical(p, m, d) && IsCanonical(q, n, d) ensures m == n {
        SettledIsMeaning(p, q);
        SameMeaningSameForm(p, q, m, n, d);
      }
    } else {
      var m, n := UnsettledPodsHaveTwoForms(p, d);
    }
  }

  // ---------------------------------------------------------------- admitted pods

  /** What the API server admits: label names and values, which have no NUL, and
      as many values as the operator takes. */
  predicate Admitted(e: Expression) {
    && PlainExpression(e)
    && match e.operator
       case "In" => e.values != []
       case "NotIn" => e.values != []
       case "Exists" => e.values == []
       case "DoesNotExist" => e.values == []
       case "Gt" => |e.values| == 1
       case "Lt" => |e.values| == 1
       case _ => false
  }

  ghost predicate AdmittedPod(p: Pod) {
    && PlainSelector(p.selector)
    && (p.affinity.Some? ==> forall t :: t in p.affinity.value ==>
          (forall e :: e in t.expressions ==> Admitted(e)) && (forall e :: e in t.fields ==> Admitted(e)))
  }

  lemma {:induction false} AdmittedNeverClash(es: seq<Expression>)
    requires forall e :: e in es ==> Admitted(e)
    ensures !Clashing(es)
  {
    forall i, j | 0 <= i < |es| && 0 <= j < |es| ensures !Clash(es[i], es[j]) {
      assert Admitted(es[i]) && Admitted(es[j]);
    }
  }

  /** Every pod a cluster can hold has an order-blind fingerprint. */
  lemma {:induction false} AdmittedPodsAreOrderBlind(p: Pod, d: Digests)
    requires Injective(d) && AdmittedPod(p)
    ensures OrderBlind(p, d)
  {
    if p.affinity.Some? {
      forall t | t in p.affinity.value ensures !Clashing(t.expressions) && !Clashing(t.fields) && PlainTerm(t) {
        AdmittedNeverClash(t.expressions);
        AdmittedNeverClash(t.fields);
      }
    }
    OrderBlindIffClashFree(p, d);
  }

  // ---------------------------------------------------------------- tolerations

  /** Spelling an omitted operator out changes nothing. */
  lemma {:induction false} EqualMayBeOmitted(p: Pod, q: Pod, i: nat, m: Model, n: Model, d: Digests)
    requires Injective(d) && AdmittedPod(p) && i < |p.tolerations| && p.tolerations[i].operator == ""
    requires q == p.(tolerations := p.tolerations[i := p.tolerations[i].(operator := "Equal")])
    requires IsCanonical(p, m, d) && IsCanonical(q, n, d)
    ensures m == n
  {
    assert Mapped(p.tolerations, GrantOf) == Mapped(q.tolerations, GrantOf);
    assert MeaningOf(p) == MeaningOf(q);
    AdmittedPodsAreOrderBlind(p, d);
  }

  /** Nothing else about a toleration is changed: each one of the form is one of
      the pod's, and each one of the pod's is there. */
  predicate Keeps(kept: Toleration, given: Toleration) {
    && kept.key == given.key && kept.value == given.value && kept.effect == given.effect && kept.seconds == given.seconds
    && (given.operator != "" ==> kept.operator == given.operator)
    && (given.operator == "" ==> kept.operator == "Equal")
  }

  lemma {:induction false} TolerationsAreKept(p: Pod, m: Model, d: Digests)
    requires IsCanonical(p, m, d)
    ensures |m.tolerations| == |p.tolerations|
    ensures forall t :: t in m.tolerations ==> exists g :: g in p.tolerations && Keeps(t, g)
    ensures forall g :: g in p.tolerations ==> exists t :: t in m.tolerations && Keeps(t, g)
  {
    var spelled := Mapped(p.tolerations, CanonToleration);
    SameLength(m.tolerations, spelled);
    SameElements(m.tolerations, spelled);
    forall t | t in m.tolerations ensures exists g :: g in p.tolerations && Keeps(t, g) {
      assert t in spelled;
      var i :| 0 <= i < |spelled| && spelled[i] == t;
      assert p.tolerations[i] in p.tolerations && Keeps(t, p.tolerations[i]);
    }
    forall g | g in p.tolerations ensures exists t :: t in m.tolerations && Keeps(t, g) {
      var i :| 0 <= i < |p.tolerations| && p.tolerations[i] == g;
      assert spelled[i] in spelled && Keeps(spelled[i], g);
    }
  }

  // ---------------------------------------------------------------- pods no cluster admits

  lemma {:induction false} TwoOfOneKey(x: Canon, y: Canon)
    requires Confusable(x, y)
    ensures SortKey(x) == SortKey(y) && x != y && SortedBy([x, y], SortKey)
  {
    assert Join([]) == Join([""]);
    Irreflexive(SortKey(x));
  }

  /** A pod of one term with two expressions that clash, sorted as they stand. */
  lemma {:induction false} FormAsGiven(e: Expression, f: Expression, d: Digests) returns (p: Pod, m: Model)
    requires Clash(e, f) || Clash(f, e)
    ensures p == Pod(map[], Some([Term([e, f], [])]), [], [])
    ensures IsCanonical(p, m, d) && m.affinity == Some([CanonTerm([CanonOf(e), CanonOf(f)], [])])
  {
    var t, c := Term([e, f], []), CanonTerm([CanonOf(e), CanonOf(f)], []);
    p := Pod(map[], Some([t]), [], []);
    ClashIsConfusable(e, f);
    TwoOfOneKey(CanonOf(e), CanonOf(f));
    assert Canons([e, f]) == c.requirements && Canons([]) == [];
    assert IsCanonTerm(t, c);
    m := FormWithTerms(p, [c], d);
    OneElement(m.affinity.value, c);
  }

  lemma {:induction false} OneElement<T>(s: seq<T>, x: T)
    requires multiset(s) == multiset([x])
    ensures s == [x]
  {
    SameLength(s, [x]);
    assert s[0] in multiset(s);
  }

  lemma {:induction false} SwappedMeansTheSame(p: Pod, q: Pod, e: Expression, f: Expression)
    requires p == Pod(map[], Some([Term([e, f], [])]), [], []) && q == Pod(map[], Some([Term([f, e], [])]), [], [])
    ensures MeaningOf(p) == MeaningOf(q)
  {
    assert Mapped([e, f], AskOf) == [AskOf(e), AskOf(f)] && Mapped([f, e], AskOf) == [AskOf(f), AskOf(e)];
    assert multiset([AskOf(e), AskOf(f)]) == multiset([AskOf(f), AskOf(e)]);
    var s, t := Term([e, f], []), Term([f, e], []);
    assert Mapped([s], TermMeaningOf) == [TermMeaningOf(s)] && Mapped([t], TermMeaningOf) == [TermMeaningOf(t)];
  }

  /** The function itself, given what no cluster admits, is not: two orders of
      one term, two forms. */
  lemma {:induction false} ClashDependsOnOrder(e: Expression, f: Expression, d: Digests) returns (p: Pod, q: Pod, m: Model, n: Model)
    requires Clash(e, f)
    ensures p == Pod(map[], Some([Term([e, f], [])]), [], []) && q == Pod(map[], Some([Term([f, e], [])]), [], [])
    ensures MeaningOf(p) == MeaningOf(q) && IsCanonical(p, m, d) && IsCanonical(q, n, d) && m != n
  {
    p, m := FormAsGiven(e, f, d);
    q, n := FormAsGiven(f, e, d);
    SwappedMeansTheSame(p, q, e, f);
    ClashIsConfusable(e, f);
    assert m.affinity.value[0].requirements[0] != n.affinity.value[0].requirements[0];
  }

  /** One key and operator, without values and with the empty one. */
  lemma {:induction false} EmptyValuesAreConfusable(d: Digests) returns (p: Pod, q: Pod, m: Model, n: Model)
    ensures MeaningOf(p) == MeaningOf(q) && IsCanonical(p, m, d) && IsCanonical(q, n, d) && m != n
    ensures p.affinity == Some([Term([Expression("zone", "In", []), Expression("zone", "In", [""])], [])])
    ensures q.affinity == Some([Term([Expression("zone", "In", [""]), Expression("zone", "In", [])], [])])
  {
    p, q, m, n := ClashDependsOnOrder(Expression("zone", "In", []), Expression("zone", "In", [""]), d);
  }
}
