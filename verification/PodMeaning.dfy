/** What the scheduling constraints of a pod say, independently of how the
    fingerprint is computed, and that the canonical form keeps exactly that. */
module PodMeaning {
  import opened Wrappers
  import opened Strings
  import opened Sorting
  import opened Canonical

  /** What one expression asks of a label: its values count as a set. */
  datatype Ask = Ask(key: string, operator: string, values: set<string>)

  function AskOf(e: Expression): Ask { Ask(e.key, e.operator, Members(e.values)) }

  datatype TermMeaning = TermMeaning(expressions: multiset<Ask>, fields: multiset<Ask>)

  ghost function TermMeaningOf(t: Term): TermMeaning {
    TermMeaning(multiset(Mapped(t.expressions, AskOf)), multiset(Mapped(t.fields, AskOf)))
  }

  /** The scheduler reads an omitted operator as Equal. */
  datatype Comparison = Equals | Other(operator: string)

  datatype Grant = Grant(key: string, comparison: Comparison, value: string, effect: string, seconds: Option<int>)

  function GrantOf(t: Toleration): Grant {
    Grant(t.key, if t.operator in {"", "Equal"} then Equals else Other(t.operator), t.value, t.effect, t.seconds)
  }

  datatype Meaning = Meaning(
    selector: map<string, string>, affinity: Option<multiset<TermMeaning>>, grants: multiset<Grant>, opaqueParts: set<string>)

  ghost function MeaningOf(p: Pod): Meaning {
    Meaning(p.selector,
            if p.affinity.Some? then Some(multiset(Mapped(p.affinity.value, TermMeaningOf))) else None,
            multiset(Mapped(p.tolerations, GrantOf)),
            Members(p.opaqueParts))
  }

  // ---------------------------------------------------------------- meaning and content

  ghost function Listed(values: set<string>): seq<string> {
    if s :| Members(s) == values && SortedUnique(s) == s then s else []
  }

  lemma {:induction false} ListedIs(values: seq<string>)
    ensures Listed(Members(values)) == SortedUnique(values)
  {
    var r := SortedUnique(values);
    SortedUniqueIs(r, r);
    assert Members(r) == Members(values) && SortedUnique(r) == r;
    var l := Listed(Members(values));
    OnlyMembersMatter(l, r);
  }

  ghost function CanonOfAsk(a: Ask): Canon { Canon(a.key, a.operator, Listed(a.values)) }

  function AskOfCanon(c: Canon): Ask { Ask(c.key, c.operator, Members(c.values)) }

  lemma {:induction false} AskOrCanon(e: Expression)
    ensures CanonOfAsk(AskOf(e)) == CanonOf(e) && AskOfCanon(CanonOf(e)) == AskOf(e)
  {
    ListedIs(e.values);
  }

  /** Two ways of reading the same things, each of which can be computed from
      the other, agree on what is the same. */
  ghost predicate Translates<T, U, V>(s: seq<T>, f: T -> U, g: T -> V, over: U -> V) {
    forall i :: 0 <= i < |s| ==> over(f(s[i])) == g(s[i])
  }

  lemma {:induction false} MappedTwice<T, U, V>(s: seq<T>, f: T -> U, g: T -> V, over: U -> V)
    requires Translates(s, f, g, over)
    ensures Mapped(Mapped(s, f), over) == Mapped(s, g)
  {
  }

  lemma {:induction false} ReadEitherWay<T, U, V>(a: seq<T>, b: seq<T>, f: T -> U, g: T -> V, over: U -> V)
    requires Translates(a, f, g, over) && Translates(b, f, g, over)
    requires multiset(Mapped(a, f)) == multiset(Mapped(b, f))
    ensures multiset(Mapped(a, g)) == multiset(Mapped(b, g))
  {
    MappedTwice(a, f, g, over);
    MappedTwice(b, f, g, over);
    MappedPermutes(Mapped(a, f), Mapped(b, f), over);
  }

  lemma {:induction false} ListsAgree(a: seq<Expression>, b: seq<Expression>)
    ensures multiset(Mapped(a, AskOf)) == multiset(Mapped(b, AskOf)) <==> multiset(Canons(a)) == multiset(Canons(b))
  {
    forall e ensures CanonOfAsk(AskOf(e)) == CanonOf(e) && AskOfCanon(CanonOf(e)) == AskOf(e) {
      AskOrCanon(e);
    }
    if multiset(Mapped(a, AskOf)) == multiset(Mapped(b, AskOf)) {
      ReadEitherWay(a, b, AskOf, CanonOf, CanonOfAsk);
    }
    if multiset(Canons(a)) == multiset(Canons(b)) {
      ReadEitherWay(a, b, CanonOf, AskOf, AskOfCanon);
    }
  }

  lemma {:induction false} TermsAgree(s: Term, t: Term)
    ensures TermMeaningOf(s) == TermMeaningOf(t) <==> TermContentOf(s) == TermContentOf(t)
  {
    ListsAgree(s.expressions, t.expressions);
    ListsAgree(s.fields, t.fields);
  }

  /** Some term that means this, and some term of this content. */
  ghost function Meant(m: TermMeaning): (t: Term)
    requires exists t :: TermMeaningOf(t) == m
    ensures TermMeaningOf(t) == m
  {
    var t :| TermMeaningOf(t) == m; t
  }

  ghost function Made(c: TermContent): (t: Term)
    requires exists t :: TermContentOf(t) == c
    ensures TermContentOf(t) == c
  {
    var t :| TermContentOf(t) == c; t
  }

  ghost function ContentOfMeaning(m: TermMeaning): TermContent {
    if exists t :: TermMeaningOf(t) == m then TermContentOf(Meant(m)) else TermContent(multiset{}, multiset{})
  }

  ghost function MeaningOfContent(c: TermContent): TermMeaning {
    if exists t :: TermContentOf(t) == c then TermMeaningOf(Made(c)) else TermMeaning(multiset{}, multiset{})
  }

  lemma {:induction false} TermEitherWay(t: Term)
    ensures ContentOfMeaning(TermMeaningOf(t)) == TermContentOf(t) && MeaningOfContent(TermContentOf(t)) == TermMeaningOf(t)
  {
    TermsAgree(Meant(TermMeaningOf(t)), t);
    TermsAgree(Made(TermContentOf(t)), t);
  }

  lemma {:induction false} TermsTranslate(ts: seq<Term>)
    ensures Translates(ts, TermMeaningOf, TermContentOf, ContentOfMeaning)
    ensures Translates(ts, TermContentOf, TermMeaningOf, MeaningOfContent)
  {
    forall i | 0 <= i < |ts|
      ensures ContentOfMeaning(TermMeaningOf(ts[i])) == TermContentOf(ts[i]) && MeaningOfContent(TermContentOf(ts[i])) == TermMeaningOf(ts[i])
    {
      TermEitherWay(ts[i]);
    }
  }

  lemma {:induction false} AffinitiesAgree(ps: seq<Term>, qs: seq<Term>)
    ensures multiset(Mapped(ps, TermMeaningOf)) == multiset(Mapped(qs, TermMeaningOf)) <==>
            multiset(Mapped(ps, TermContentOf)) == multiset(Mapped(qs, TermContentOf))
  {
    TermsTranslate(ps);
    TermsTranslate(qs);
    if multiset(Mapped(ps, TermMeaningOf)) == multiset(Mapped(qs, TermMeaningOf)) {
      ReadEitherWay(ps, qs, TermMeaningOf, TermContentOf, ContentOfMeaning);
    }
    if multiset(Mapped(ps, TermContentOf)) == multiset(Mapped(qs, TermContentOf)) {
      ReadEitherWay(ps, qs, TermContentOf, TermMeaningOf, MeaningOfContent);
    }
  }

  function TolerationOfGrant(g: Grant): Toleration {
    Toleration(g.key, if g.comparison.Equals? then "Equal" else g.comparison.operator, g.value, g.effect, g.seconds)
  }

  lemma {:induction false} TolerationsAgree(a: seq<Toleration>, b: seq<Toleration>)
    ensures multiset(Mapped(a, GrantOf)) == multiset(Mapped(b, GrantOf)) <==>
            multiset(Mapped(a, CanonToleration)) == multiset(Mapped(b, CanonToleration))
  {
    if multiset(Mapped(a, GrantOf)) == multiset(Mapped(b, GrantOf)) {
      ReadEitherWay(a, b, GrantOf, CanonToleration, TolerationOfGrant);
    }
    if multiset(Mapped(a, CanonToleration)) == multiset(Mapped(b, CanonToleration)) {
      ReadEitherWay(a, b, CanonToleration, GrantOf, GrantOf);
    }
  }

  /** The form is made of exactly what the pod says. */
  lemma {:induction false} MeaningIsContent(p: Pod, q: Pod)
    ensures MeaningOf(p) == MeaningOf(q) <==> ContentOf(p) == ContentOf(q)
  {
    TolerationsAgree(p.tolerations, q.tolerations);
    if p.affinity.Some? && q.affinity.Some? {
      AffinitiesAgree(p.affinity.value, q.affinity.value);
    }
  }

  /** Pods that mean the same, in whatever order and with Equal spelled out or
      not, have the same canonical form. */
  lemma {:induction false} SameMeaningSameForm(p: Pod, q: Pod, m: Model, n: Model, d: Digests)
    requires Injective(d) && PlainSelector(p.selector)
    requires MeaningOf(p) == MeaningOf(q) && AllSettled(p) && AllSettled(q)
    requires IsCanonical(p, m, d) && IsCanonical(q, n, d)
    ensures m == n
  {
    MeaningIsContent(p, q);
    SameContentSameForm(p, q, m, n, d);
  }

  /** And nothing else is forgotten: pods with the same canonical form mean the same. */
  lemma {:induction false} SameFormSameMeaning(p: Pod, q: Pod, m: Model, d: Digests)
    requires IsCanonical(p, m, d) && IsCanonical(q, m, d)
    ensures MeaningOf(p) == MeaningOf(q)
  {
    SameFormSameContent(p, q, m, d);
    MeaningIsContent(p, q);
  }
}
