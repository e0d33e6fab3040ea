/** Judging a pod's node selectors against a node pool in three values.
    Evidence of incompatibility is a proof: no node the pool can provision
    matches. */
module Selectors {
  import opened Wrappers
  import opened Strings
  import opened Requirements

  const NODE_POOL_LABEL := "karpenter.sh/nodepool"
  const HOSTNAME_LABEL := "kubernetes.io/hostname"
  const EVIDENCE_LIMIT: nat := 10

  const PROVIDER_PREFIXES: seq<string> := [
    "kubernetes.io/", "node.kubernetes.io/", "topology.kubernetes.io/", "karpenter.sh/", "karpenter.k8s.aws/",
    "eks.amazonaws.com/", "karpenter.azure.com/", "cloud.google.com/", "topology.gke.io/", "topology.ebs.csi.aws.com/",
    "topology.disk.csi.azure.com/"]

  /** Labels a provider may put on a node without the pool declaring them. */
  predicate IsProviderLabel(key: string) {
    exists i :: 0 <= i < |PROVIDER_PREFIXES| && PROVIDER_PREFIXES[i] <= key
  }

  datatype PoolRequirement = PoolRequirement(requirement: Requirement, minValues: Option<int>)

  datatype Pool = Pool(name: string, templateLabels: map<string, string>, requirements: seq<PoolRequirement>)

  /** A required affinity term; `unknown` names its parts that are not judged. */
  datatype Term = Term(requirements: seq<Requirement>, unknown: seq<string>, empty: bool)

  datatype Pod = Pod(nodeSelector: seq<Requirement>, terms: seq<Term>, hasRequiredAffinity: bool, requiredEmpty: bool)

  function OfKey(rs: seq<Requirement>, key: string): (s: seq<Requirement>)
    ensures forall r :: r in s <==> r in rs && r.key == key
  {
    if rs == [] then []
    else (if rs[0].key == key then [rs[0]] else []) + OfKey(rs[1..], key)
  }

  function Declared(requirements: seq<PoolRequirement>): seq<Requirement> {
    seq(|requirements|, i requires 0 <= i < |requirements| => requirements[i].requirement)
  }

  /** Everything the pool says about one label. */
  function PoolFor(pool: Pool, key: string): seq<Requirement> {
    (if key == NODE_POOL_LABEL then [Requirement(key, In, [pool.name])] else [])
    + (if key in pool.templateLabels then [Requirement(key, In, [pool.templateLabels[key]])] else [])
    + OfKey(Declared(pool.requirements), key)
  }

  /** The pool's name, its template labels and its requirements each have their
      say about a label, and nothing else has. */
  lemma {:induction false} PoolSays(pool: Pool, key: string, r: Requirement)
    ensures r in PoolFor(pool, key) <==>
            || (key == NODE_POOL_LABEL && r == Requirement(key, In, [pool.name]))
            || (key in pool.templateLabels && r == Requirement(key, In, [pool.templateLabels[key]]))
            || (r.key == key && exists p :: p in pool.requirements && p.requirement == r)
  {
    var declared := Declared(pool.requirements);
    if p :| p in pool.requirements && p.requirement == r {
      var i :| 0 <= i < |pool.requirements| && pool.requirements[i] == p;
      assert declared[i] == r;
    }
    if r in declared {
      var i :| 0 <= i < |declared| && declared[i] == r;
      assert pool.requirements[i] in pool.requirements;
    }
  }

  predicate IsFixed(pool: Pool, key: string) { key == NODE_POOL_LABEL || key in pool.templateLabels }

  predicate BoundsValues(rs: seq<Requirement>) { exists r :: r in rs && r.operator.In? && r.values != [] }

  predicate SomePresent(rs: seq<Requirement>) { exists r :: r in rs && NeedsPresent(r) }

  // ---------------------------------------------------------------- nodes

  type Node = map<string, string>

  function Get(node: Node, key: string): Label { if key in node then Some(node[key]) else None }

  /** What a requirement means; `other` stands for whatever the ones that are
      not understood may mean. */
  predicate Meets(node: Label, r: Requirement, other: (Label, Requirement) -> bool) {
    if Understood(r) then Satisfies(node, r) else other(node, r)
  }

  predicate MeetsAll(node: Label, rs: seq<Requirement>, other: (Label, Requirement) -> bool) {
    forall r :: r in rs ==> Meets(node, r, other)
  }

  ghost predicate TermMatches(node: Node, pod: Pod, term: Term, other: (Label, Requirement) -> bool) {
    !term.empty && forall r :: r in pod.nodeSelector + term.requirements ==> Meets(Get(node, r.key), r, other)
  }

  ghost predicate PodMatches(node: Node, pod: Pod, other: (Label, Requirement) -> bool) {
    && (forall r :: r in pod.nodeSelector ==> Meets(Get(node, r.key), r, other))
    && (pod.hasRequiredAffinity ==> exists t :: t in pod.terms && TermMatches(node, pod, t, other))
  }

  /** A pool puts only declared or provider labels on its nodes. */
  predicate Undeclared(pool: Pool, key: string) { !IsProviderLabel(key) && !SomePresent(PoolFor(pool, key)) }

  ghost predicate HostnameIsFresh(node: Node, rs: seq<Requirement>) {
    HOSTNAME_LABEL in node && forall r :: r in rs && r.key == HOSTNAME_LABEL ==> node[HOSTNAME_LABEL] !in r.values
  }

  /** A node the pool can provision for this pod: it obeys the pool's
      requirements, carries no undeclared custom label, and has a hostname
      nobody can have named. */
  ghost predicate Provisionable(node: Node, pool: Pool, pod: Pod, other: (Label, Requirement) -> bool) {
    && (forall key :: MeetsAll(Get(node, key), PoolFor(pool, key), other))
    && (forall key :: key in node ==> !Undeclared(pool, key))
    && HostnameIsFresh(node, pod.nodeSelector)
    && (forall t :: t in pod.terms ==> HostnameIsFresh(node, t.requirements))
  }

  // ---------------------------------------------------------------- evidence

  datatype Evidence = NoTerms | EmptyTerm | Contradiction(key: string) | PinnedHostname | AbsentHostname | UndeclaredLabel(key: string)

  /** Counts everything and keeps the first few. */
  datatype Collection = Collection(values: seq<Evidence>, total: nat)

  function First(s: seq<Evidence>): seq<Evidence> { if |s| > EVIDENCE_LIMIT then s[..EVIDENCE_LIMIT] else s }

  function Collected(all: seq<Evidence>): Collection { Collection(First(all), |all|) }

  function Add(c: Collection, e: Evidence): Collection {
    Collection(if |c.values| >= EVIDENCE_LIMIT then c.values else c.values + [e], c.total + 1)
  }

  function Merge(c: Collection, other: Collection): Collection {
    if |c.values| >= EVIDENCE_LIMIT then Collection(c.values, c.total + other.total)
    else
      var remaining := EVIDENCE_LIMIT - |c.values|;
      Collection(c.values + (if |other.values| > remaining then other.values[..remaining] else other.values), c.total + other.total)
  }

  /** Adding and merging capped collections never loses a count, and keeps
      exactly the first of all the evidence seen. */
  lemma {:induction false} AddCollects(all: seq<Evidence>, e: Evidence)
    ensures Add(Collected(all), e) == Collected(all + [e])
  {
    assert |all| >= EVIDENCE_LIMIT ==> First(all + [e]) == First(all);
  }

  lemma {:induction false} MergeCollects(all: seq<Evidence>, more: seq<Evidence>)
    ensures Merge(Collected(all), Collected(more)) == Collected(all + more)
  {
    var merged := Merge(Collected(all), Collected(more)).values;
    if |all| >= EVIDENCE_LIMIT {
      assert First(all + more) == First(all);
    } else {
      assert First(all + more) == merged;
    }
  }

  // ---------------------------------------------------------------- one label

  datatype Judgement = Passes | Unclear(reason: string) | Impossible(evidence: Evidence)

  /** The decision procedure's answer, as Requirements proves it. */
  ghost function Answer(rs: seq<Requirement>): Verdict {
    if Declined(rs) then Unsupported else if Satisfiable(rs) then Feasible else Infeasible
  }

  predicate Pins(rs: seq<Requirement>) { exists r :: r in rs && r.operator.In? }

  predicate WantsAbsent(rs: seq<Requirement>) { exists r :: r in rs && r.operator.DoesNotExist? }

  function JudgeBy(answer: Verdict, key: string, podFor: seq<Requirement>, poolFor: seq<Requirement>, isFixed: bool): Judgement {
    match answer
    case Unsupported => Unclear("nodeSelector.operator." + key)
    case Infeasible => Impossible(Contradiction(key))
    case Feasible =>
      if key == HOSTNAME_LABEL then
        if Pins(podFor) then Impossible(PinnedHostname) else if WantsAbsent(podFor) then Impossible(AbsentHostname) else Passes
      else if SomePresent(podFor) && !SomePresent(poolFor) then
        if IsProviderLabel(key) then Unclear("providerOfferings." + key) else Impossible(UndeclaredLabel(key))
      else if IsProviderLabel(key) && !isFixed && !BoundsValues(poolFor) then Unclear("providerOfferings." + key)
      else Passes
  }

  ghost function Judge(key: string, podFor: seq<Requirement>, pool: Pool): Judgement {
    JudgeBy(Answer(podFor + PoolFor(pool, key)), key, podFor, PoolFor(pool, key), IsFixed(pool, key))
  }

  /** A label rules the pool out: what is asked of it cannot be met at all; or a
      hostname is named, or forbidden; or it must be present and is a custom
      label that the pool never declares. */
  ghost predicate Ruled(key: string, rs: seq<Requirement>, pool: Pool) {
    var podFor := OfKey(rs, key);
    var all := podFor + PoolFor(pool, key);
    && !Declined(all)
    && (|| !Satisfiable(all)
        || (key == HOSTNAME_LABEL && exists r :: r in podFor && (r.operator.In? || r.operator.DoesNotExist?))
        || (key != HOSTNAME_LABEL && Undeclared(pool, key) && exists r :: r in podFor && NeedsPresent(r)))
  }

  /** A label leaves the question open: its requirements are not understood
      together, or it is a provider's and the pool lists no values for it. */
  ghost predicate LeftOpen(key: string, rs: seq<Requirement>, pool: Pool) {
    var all := OfKey(rs, key) + PoolFor(pool, key);
    || Declined(all)
    || (Satisfiable(all) && key != HOSTNAME_LABEL && IsProviderLabel(key) &&
        forall r :: r in PoolFor(pool, key) ==> !r.operator.In? || r.values == [])
  }

  ghost function QuestionAbout(key: string, rs: seq<Requirement>, pool: Pool): string {
    if Declined(OfKey(rs, key) + PoolFor(pool, key)) then "nodeSelector.operator." + key else "providerOfferings." + key
  }

  /** Which evidence a label is: a contradiction before anything else. */
  ghost predicate EvidenceAbout(e: Evidence, key: string, rs: seq<Requirement>, pool: Pool) {
    var podFor := OfKey(rs, key);
    var all := podFor + PoolFor(pool, key);
    match e
    case Contradiction(k) => k == key && !Declined(all) && !Satisfiable(all)
    case PinnedHostname => key == HOSTNAME_LABEL && !Declined(all) && Satisfiable(all) && exists r :: r in podFor && r.operator.In?
    case AbsentHostname =>
      && key == HOSTNAME_LABEL && !Declined(all) && Satisfiable(all)
      && (exists r :: r in podFor && r.operator.DoesNotExist?) && forall r :: r in podFor ==> !r.operator.In?
    case UndeclaredLabel(k) =>
      && k == key && key != HOSTNAME_LABEL && !Declined(all) && Satisfiable(all)
      && Undeclared(pool, key) && exists r :: r in podFor && NeedsPresent(r)
    case NoTerms => false
    case EmptyTerm => false
  }

  /** A label the pool fixes, or lists values for, is one it makes present. */
  lemma {:induction false} FixedIsListed(pool: Pool, key: string)
    ensures IsFixed(pool, key) ==> BoundsValues(PoolFor(pool, key))
    ensures BoundsValues(PoolFor(pool, key)) ==> SomePresent(PoolFor(pool, key))
  {
    var poolFor := PoolFor(pool, key);
    if key == NODE_POOL_LABEL {
      assert Requirement(key, In, [pool.name]) in poolFor;
    } else if key in pool.templateLabels {
      assert Requirement(key, In, [pool.templateLabels[key]]) in poolFor;
    }
  }

  /** The judgement of a label says neither more nor less than that. */
  lemma {:induction false} JudgementMeans(key: string, rs: seq<Requirement>, pool: Pool)
    ensures Judge(key, OfKey(rs, key), pool).Impossible? <==> Ruled(key, rs, pool)
    ensures Judge(key, OfKey(rs, key), pool).Unclear? <==> LeftOpen(key, rs, pool)
    ensures var j := Judge(key, OfKey(rs, key), pool); j.Unclear? ==> j.reason == QuestionAbout(key, rs, pool)
  {
    FixedIsListed(pool, key);
  }

  lemma {:induction false} EvidenceMeans(key: string, rs: seq<Requirement>, pool: Pool, e: Evidence)
    ensures Judge(key, OfKey(rs, key), pool) == Impossible(e) <==> EvidenceAbout(e, key, rs, pool)
  {
    FixedIsListed(pool, key);
  }

  /** Evidence about one label: no provisionable node meets the pod's
      requirements on it. */
  lemma {:induction false} KeyEvidenceIsProof(key: string, podFor: seq<Requirement>, pool: Pool, node: Node, other: (Label, Requirement) -> bool)
    requires Judge(key, podFor, pool).Impossible?
    requires MeetsAll(Get(node, key), PoolFor(pool, key), other)
    requires key in node ==> !Undeclared(pool, key)
    requires forall r :: r in podFor ==> r.key == key
    requires key == HOSTNAME_LABEL ==> HostnameIsFresh(node, podFor)
    ensures !MeetsAll(Get(node, key), podFor, other)
  {
    var poolFor := PoolFor(pool, key);
    var all := podFor + poolFor;
    var at := Get(node, key);
    if Answer(all).Infeasible? {
      assert !SatisfiesAll(at, all);
      var r :| r in all && !Satisfies(at, r);
      assert !Meets(at, r, other);
      assert r in podFor;
    } else if key == HOSTNAME_LABEL {
      var r :| r in podFor && (r.operator.In? || (!Pins(podFor) && r.operator.DoesNotExist?));
      assert r in all;
      assert !Meets(at, r, other);
    } else {
      var r :| r in podFor && NeedsPresent(r);
      assert r in all;
      assert !Meets(at, r, other);
    }
  }

  /** A label that passes has a value the pod and the pool agree on, which is
      none if the pool does not declare the label. */
  lemma {:induction false} PassingKeyHasAValue(key: string, podFor: seq<Requirement>, pool: Pool) returns (at: Label)
    requires Judge(key, podFor, pool).Passes?
    ensures AllUnderstood(podFor + PoolFor(pool, key)) && SatisfiesAll(at, podFor + PoolFor(pool, key))
    ensures at.Some? ==> key == HOSTNAME_LABEL || !Undeclared(pool, key)
  {
    var all := podFor + PoolFor(pool, key);
    assert Answer(all).Feasible?;
    if key != HOSTNAME_LABEL && !SomePresent(PoolFor(pool, key)) {
      at := None;
      forall r | r in all ensures Satisfies(None, r) {
        assert Understood(r) && !NeedsPresent(r);
      }
    } else {
      at :| SatisfiesAll(at, all);
    }
  }

  // ---------------------------------------------------------------- one term

  /** The judgement of a list of labels, in order. */
  ghost function EvidenceOf(keys: seq<string>, rs: seq<Requirement>, pool: Pool): seq<Evidence> {
    if keys == [] then []
    else
      var j := Judge(keys[|keys| - 1], OfKey(rs, keys[|keys| - 1]), pool);
      EvidenceOf(keys[..|keys| - 1], rs, pool) + if j.Impossible? then [j.evidence] else []
  }

  ghost function UnclearOf(keys: seq<string>, rs: seq<Requirement>, pool: Pool): seq<string> {
    if keys == [] then []
    else
      var j := Judge(keys[|keys| - 1], OfKey(rs, keys[|keys| - 1]), pool);
      UnclearOf(keys[..|keys| - 1], rs, pool) + if j.Unclear? then [j.reason] else []
  }

  function Keys(rs: seq<Requirement>): seq<string> { seq(|rs|, i requires 0 <= i < |rs| => rs[i].key) }

  method JudgeKey(key: string, rs: seq<Requirement>, pool: Pool) returns (j: Judgement)
    ensures j == Judge(key, OfKey(rs, key), pool)
  {
    var podFor := OfKey(rs, key);
    var poolFor := PoolFor(pool, key);
    var answer := Decide(podFor + poolFor);
    assert answer == Answer(podFor + poolFor);
    j := JudgeBy(answer, key, podFor, poolFor, IsFixed(pool, key));
  }

  lemma {:induction false} OneMoreKey(keys: seq<string>, i: nat, rs: seq<Requirement>, pool: Pool, j: Judgement)
    requires i < |keys| && j == Judge(keys[i], OfKey(rs, keys[i]), pool)
    ensures EvidenceOf(keys[..i + 1], rs, pool) == EvidenceOf(keys[..i], rs, pool) + (if j.Impossible? then [j.evidence] else [])
    ensures UnclearOf(keys[..i + 1], rs, pool) == UnclearOf(keys[..i], rs, pool) + (if j.Unclear? then [j.reason] else [])
  {
    assert keys[..i + 1][..i] == keys[..i];
  }

  method EvaluateTerm(rs: seq<Requirement>, pool: Pool) returns (evidence: Collection, unknown: seq<string>)
    ensures evidence == Collected(EvidenceOf(SortedUnique(Keys(rs)), rs, pool))
    ensures unknown == UnclearOf(SortedUnique(Keys(rs)), rs, pool)
  {
    var keys := SortedUniqueStrings(Keys(rs));
    SortedUniqueIs(keys, Keys(rs));
    evidence, unknown := Collection([], 0), [];
    ghost var all: seq<Evidence> := [];
    var i := 0;
    while i < |keys|
      invariant 0 <= i <= |keys|
      invariant all == EvidenceOf(keys[..i], rs, pool) && evidence == Collected(all)
      invariant unknown == UnclearOf(keys[..i], rs, pool)
    {
      var j := JudgeKey(keys[i], rs, pool);
      OneMoreKey(keys, i, rs, pool, j);
      i := i + 1;
      match j {
        case Passes =>
          assert UnclearOf(keys[..i], rs, pool) == unknown;
        case Unclear(reason) => unknown := unknown + [reason];
        case Impossible(e) =>
          AddCollects(all, e);
          all := all + [e];
          evidence := Add(evidence, e);
          assert UnclearOf(keys[..i], rs, pool) == unknown;
      }
    }
    assert keys[..i] == keys;
  }

  lemma {:induction false} SomeImpossible(keys: seq<string>, rs: seq<Requirement>, pool: Pool)
    ensures EvidenceOf(keys, rs, pool) != [] <==> exists key :: key in keys && Judge(key, OfKey(rs, key), pool).Impossible?
  {
    if keys != [] {
      var init, last := keys[..|keys| - 1], keys[|keys| - 1];
      SomeImpossible(init, rs, pool);
      assert last in keys;
      assert forall key :: key in keys <==> key in init || key == last;
    }
  }

  lemma {:induction false} SomeUnclear(keys: seq<string>, rs: seq<Requirement>, pool: Pool)
    ensures UnclearOf(keys, rs, pool) != [] <==> exists key :: key in keys && Judge(key, OfKey(rs, key), pool).Unclear?
  {
    if keys != [] {
      var init, last := keys[..|keys| - 1], keys[|keys| - 1];
      SomeUnclear(init, rs, pool);
      assert last in keys;
      assert forall key :: key in keys <==> key in init || key == last;
    }
  }

  lemma {:induction false} KeysAreThese(rs: seq<Requirement>, key: string)
    ensures key in SortedUnique(Keys(rs)) <==> exists r :: r in rs && r.key == key
  {
    var keys := Keys(rs);
    assert key in SortedUnique(keys) <==> key in Members(keys);
    if key in keys {
      var i :| 0 <= i < |keys| && keys[i] == key;
      assert rs[i] in rs && rs[i].key == key;
    }
    if r :| r in rs && r.key == key {
      var i :| 0 <= i < |rs| && rs[i] == r;
      assert keys[i] == key;
    }
  }

  /** The evidence and the open questions of a whole term. */
  ghost function TermEvidence(pod: Pod, term: Term, pool: Pool): seq<Evidence> {
    var rs := pod.nodeSelector + term.requirements;
    EvidenceOf(SortedUnique(Keys(rs)), rs, pool) + if term.empty then [EmptyTerm] else []
  }

  ghost function TermUnknown(pod: Pod, term: Term, pool: Pool): seq<string> {
    var rs := pod.nodeSelector + term.requirements;
    UnclearOf(SortedUnique(Keys(rs)), rs, pool) + term.unknown
  }

  ghost predicate TermRuled(pod: Pod, term: Term, pool: Pool) {
    var rs := pod.nodeSelector + term.requirements;
    term.empty || exists r :: r in rs && Ruled(r.key, rs, pool)
  }

  ghost predicate TermOpen(pod: Pod, term: Term, pool: Pool) {
    var rs := pod.nodeSelector + term.requirements;
    term.unknown != [] || exists r :: r in rs && LeftOpen(r.key, rs, pool)
  }

  ghost predicate TermAsks(pod: Pod, term: Term, pool: Pool, question: string) {
    var rs := pod.nodeSelector + term.requirements;
    question in term.unknown || exists r :: r in rs && LeftOpen(r.key, rs, pool) && question == QuestionAbout(r.key, rs, pool)
  }

  ghost predicate TermSupports(pod: Pod, term: Term, pool: Pool, e: Evidence) {
    var rs := pod.nodeSelector + term.requirements;
    (e == EmptyTerm && term.empty) || exists r :: r in rs && EvidenceAbout(e, r.key, rs, pool)
  }

  lemma {:induction false} EvidenceElements(keys: seq<string>, rs: seq<Requirement>, pool: Pool, e: Evidence)
    ensures e in EvidenceOf(keys, rs, pool) <==> exists key :: key in keys && EvidenceAbout(e, key, rs, pool)
  {
    if keys != [] {
      var init, last := keys[..|keys| - 1], keys[|keys| - 1];
      EvidenceElements(init, rs, pool, e);
      EvidenceMeans(last, rs, pool, e);
      assert last in keys;
      assert forall key :: key in keys <==> key in init || key == last;
    }
  }

  lemma {:induction false} UnclearElements(keys: seq<string>, rs: seq<Requirement>, pool: Pool, question: string)
    ensures question in UnclearOf(keys, rs, pool) <==>
            exists key :: key in keys && LeftOpen(key, rs, pool) && question == QuestionAbout(key, rs, pool)
  {
    if keys != [] {
      var init, last := keys[..|keys| - 1], keys[|keys| - 1];
      UnclearElements(init, rs, pool, question);
      JudgementMeans(last, rs, pool);
      assert last in keys;
      assert forall key :: key in keys <==> key in init || key == last;
    }
  }

  /** A term's evidence is what its labels support, and its open questions are
      theirs and its own. */
  lemma {:induction false} TermElements(pod: Pod, term: Term, pool: Pool)
    ensures forall e :: e in TermEvidence(pod, term, pool) <==> TermSupports(pod, term, pool, e)
    ensures forall q :: q in TermUnknown(pod, term, pool) <==> TermAsks(pod, term, pool, q)
  {
    var rs := pod.nodeSelector + term.requirements;
    var keys := SortedUnique(Keys(rs));
    forall key ensures key in keys <==> exists r :: r in rs && r.key == key {
      KeysAreThese(rs, key);
    }
    forall e ensures e in EvidenceOf(keys, rs, pool) <==> exists r :: r in rs && EvidenceAbout(e, r.key, rs, pool) {
      EvidenceElements(keys, rs, pool, e);
      if r :| r in rs && EvidenceAbout(e, r.key, rs, pool) { assert r.key in keys; }
    }
    forall q ensures q in UnclearOf(keys, rs, pool) <==> exists r :: r in rs && LeftOpen(r.key, rs, pool) && q == QuestionAbout(r.key, rs, pool) {
      UnclearElements(keys, rs, pool, q);
      if r :| r in rs && LeftOpen(r.key, rs, pool) && q == QuestionAbout(r.key, rs, pool) { assert r.key in keys; }
    }
  }

  lemma {:induction false} TermMeans(pod: Pod, term: Term, pool: Pool)
    ensures TermEvidence(pod, term, pool) != [] <==> TermRuled(pod, term, pool)
    ensures TermUnknown(pod, term, pool) != [] <==> TermOpen(pod, term, pool)
  {
    var rs := pod.nodeSelector + term.requirements;
    var keys := SortedUnique(Keys(rs));
    SomeImpossible(keys, rs, pool);
    SomeUnclear(keys, rs, pool);
    forall r | r in rs
      ensures r.key in keys
      ensures Judge(r.key, OfKey(rs, r.key), pool).Impossible? <==> Ruled(r.key, rs, pool)
      ensures Judge(r.key, OfKey(rs, r.key), pool).Unclear? <==> LeftOpen(r.key, rs, pool)
    {
      KeysAreThese(rs, r.key);
      JudgementMeans(r.key, rs, pool);
    }
    forall key | key in keys ensures exists r :: r in rs && r.key == key {
      KeysAreThese(rs, key);
    }
  }

  /** How many labels of the term rule the pool out, and whether it is empty. */
  ghost function RulingKeys(rs: seq<Requirement>, pool: Pool): set<string> {
    set r | r in rs && Ruled(r.key, rs, pool) :: r.key
  }

  ghost function RulingCount(pod: Pod, term: Term, pool: Pool): nat {
    |RulingKeys(pod.nodeSelector + term.requirements, pool)| + if term.empty then 1 else 0
  }

  ghost function Among(keys: seq<string>, p: string -> bool): set<string> { set key | key in keys && p(key) }

  lemma {:induction false} AmongMore(keys: seq<string>, p: string -> bool)
    requires keys != [] && keys[|keys| - 1] !in keys[..|keys| - 1]
    ensures var (init, last) := (keys[..|keys| - 1], keys[|keys| - 1]);
            |Among(keys, p)| == |Among(init, p)| + if p(last) then 1 else 0
  {
    var init, last := keys[..|keys| - 1], keys[|keys| - 1];
    assert forall key :: key in keys <==> key in init || key == last;
    assert Among(keys, p) == Among(init, p) + if p(last) then {last} else {};
  }

  lemma {:induction false} EvidencePerKey(keys: seq<string>, rs: seq<Requirement>, pool: Pool, p: string -> bool)
    requires Ascending(keys) && forall key :: p(key) <==> Ruled(key, rs, pool)
    ensures |EvidenceOf(keys, rs, pool)| == |Among(keys, p)|
  {
    if keys == [] {
    } else {
      var init, last := keys[..|keys| - 1], keys[|keys| - 1];
      EvidencePerKey(init, rs, pool, p);
      JudgementMeans(last, rs, pool);
      LastIsNew(keys);
      AmongMore(keys, p);
    }
  }

  lemma {:induction false} LastIsNew(keys: seq<string>)
    requires Ascending(keys) && keys != []
    ensures keys[|keys| - 1] !in keys[..|keys| - 1]
  {
    Irreflexive(keys[|keys| - 1]);
  }

  /** One piece of evidence per label. */
  lemma {:induction false} TermCounts(pod: Pod, term: Term, pool: Pool)
    ensures |TermEvidence(pod, term, pool)| == RulingCount(pod, term, pool)
  {
    var rs := pod.nodeSelector + term.requirements;
    var keys := SortedUnique(Keys(rs));
    var p := (key: string) => Ruled(key, rs, pool);
    EvidencePerKey(keys, rs, pool, p);
    forall key ensures key in keys <==> exists r :: r in rs && r.key == key {
      KeysAreThese(rs, key);
    }
    assert Among(keys, p) == RulingKeys(rs, pool);
  }

  lemma {:induction false} TermEvidenceIsProof(pod: Pod, term: Term, pool: Pool, node: Node, other: (Label, Requirement) -> bool)
    requires TermEvidence(pod, term, pool) != []
    requires Provisionable(node, pool, pod, other) && HostnameIsFresh(node, term.requirements)
    ensures !TermMatches(node, pod, term, other)
  {
    var rs := pod.nodeSelector + term.requirements;
    if !term.empty {
      var keys := SortedUnique(Keys(rs));
      SomeImpossible(keys, rs, pool);
      var key :| key in keys && Judge(key, OfKey(rs, key), pool).Impossible?;
      KeyEvidenceIsProof(key, OfKey(rs, key), pool, node, other);
      var r :| r in OfKey(rs, key) && !Meets(Get(node, key), r, other);
      assert r in rs && r.key == key;
    }
  }

  /** A label assignment over the pod's keys that meets everything both sides ask. */
  ghost predicate Agreed(assignment: map<string, Label>, pod: Pod, term: Term, pool: Pool) {
    var rs := pod.nodeSelector + term.requirements;
    && !term.empty
    && (forall r :: r in rs ==> r.key in assignment)
    && (forall key :: key in assignment ==>
          && AllUnderstood(OfKey(rs, key) + PoolFor(pool, key))
          && SatisfiesAll(assignment[key], OfKey(rs, key) + PoolFor(pool, key))
          && (assignment[key].Some? ==> key == HOSTNAME_LABEL || !Undeclared(pool, key)))
  }

  lemma {:induction false} AssignKeys(keys: seq<string>, rs: seq<Requirement>, pool: Pool) returns (assignment: map<string, Label>)
    requires forall key :: key in keys ==> Judge(key, OfKey(rs, key), pool).Passes?
    ensures assignment.Keys == Members(keys)
    ensures forall key :: key in assignment ==>
              && AllUnderstood(OfKey(rs, key) + PoolFor(pool, key))
              && SatisfiesAll(assignment[key], OfKey(rs, key) + PoolFor(pool, key))
              && (assignment[key].Some? ==> key == HOSTNAME_LABEL || !Undeclared(pool, key))
  {
    if keys == [] {
      assignment := map[];
    } else {
      var rest := AssignKeys(keys[1..], rs, pool);
      var at := PassingKeyHasAValue(keys[0], OfKey(rs, keys[0]), pool);
      assignment := rest[keys[0] := at];
      assert Members(keys) == {keys[0]} + Members(keys[1..]);
    }
  }

  lemma {:induction false} SilentTermAgrees(pod: Pod, term: Term, pool: Pool) returns (assignment: map<string, Label>)
    requires TermEvidence(pod, term, pool) == [] && TermUnknown(pod, term, pool) == []
    ensures Agreed(assignment, pod, term, pool)
  {
    var rs := pod.nodeSelector + term.requirements;
    var keys := SortedUnique(Keys(rs));
    SomeImpossible(keys, rs, pool);
    SomeUnclear(keys, rs, pool);
    forall key | key in keys ensures Judge(key, OfKey(rs, key), pool).Passes? {
      var j := Judge(key, OfKey(rs, key), pool);
      assert !j.Impossible? && !j.Unclear?;
    }
    assignment := AssignKeys(keys, rs, pool);
    forall r | r in rs ensures r.key in assignment {
      KeysAreThese(rs, r.key);
    }
  }

  // ---------------------------------------------------------------- the pool

  const NO_AFFINITY := Term([], [], false)

  function Terms(pod: Pod): seq<Term> { if pod.hasRequiredAffinity then pod.terms else [NO_AFFINITY] }

  predicate PodNames(pod: Pod, key: string) {
    (exists r :: r in pod.nodeSelector && r.key == key) ||
    exists t :: t in pod.terms && exists r :: r in t.requirements && r.key == key
  }

  /** Whether a minimum number of values is already met by the pool's own list. */
  ghost predicate MinimumIsMet(pod: Pod, pool: Pool, p: PoolRequirement) {
    p.minValues.None? ||
    ((forall r :: r in pod.nodeSelector ==> r.key != p.requirement.key) &&
     (forall t, r :: t in pod.terms && r in t.requirements ==> r.key != p.requirement.key) &&
     |OfKey(Declared(pool.requirements), p.requirement.key)| == 1 &&
     p.requirement.operator.In? && |SortedUnique(p.requirement.values)| >= p.minValues.value)
  }

  function MinimumName(p: PoolRequirement): string { "nodePool.requirements." + p.requirement.key + ".minValues" }

  /** What stays open whatever the terms say. */
  ghost function BaseUnknownOf(pod: Pod, pool: Pool, requirements: seq<PoolRequirement>): seq<string> {
    if requirements == [] then []
    else
      var init, last := requirements[..|requirements| - 1], requirements[|requirements| - 1];
      BaseUnknownOf(pod, pool, init) + if MinimumIsMet(pod, pool, last) then [] else [MinimumName(last)]
  }

  method BaseUnknown(pod: Pod, pool: Pool) returns (unknown: seq<string>)
    ensures unknown == BaseUnknownOf(pod, pool, pool.requirements)
  {
    unknown := [];
    var i := 0;
    while i < |pool.requirements|
      invariant 0 <= i <= |pool.requirements|
      invariant unknown == BaseUnknownOf(pod, pool, pool.requirements[..i])
    {
      var p := pool.requirements[i];
      assert pool.requirements[..i + 1][..i] == pool.requirements[..i];
      if p.minValues.Some? {
        var values := SortedUniqueStrings(p.requirement.values);
        SortedUniqueIs(values, p.requirement.values);
        if !(!PodNames(pod, p.requirement.key) && |OfKey(Declared(pool.requirements), p.requirement.key)| == 1 &&
             p.requirement.operator.In? && |values| >= p.minValues.value) {
          unknown := unknown + [MinimumName(p)];
        }
      }
      i := i + 1;
    }
    assert pool.requirements[..i] == pool.requirements;
  }

  lemma {:induction false} NothingOpenMeans(pod: Pod, pool: Pool, requirements: seq<PoolRequirement>)
    ensures BaseUnknownOf(pod, pool, requirements) == [] <==> forall p :: p in requirements ==> MinimumIsMet(pod, pool, p)
  {
    if requirements != [] {
      var init, last := requirements[..|requirements| - 1], requirements[|requirements| - 1];
      NothingOpenMeans(pod, pool, init);
      assert forall p :: p in requirements <==> p in init || p == last;
    }
  }

  /** Required affinity without terms is flagged as such. */
  predicate WellFormed(pod: Pod) { pod.requiredEmpty <==> pod.hasRequiredAffinity && pod.terms == [] }

  /** No node the pool can provision matches the pod, whatever the requirements
      that are not understood may mean. */
  ghost predicate Incompatible(pod: Pod, pool: Pool) {
    forall node: Node, other: (Label, Requirement) -> bool :: Provisionable(node, pool, pod, other) ==> !PodMatches(node, pod, other)
  }

  /** Some term's labels can be chosen so that the pod and the pool both get
      what they ask. */
  ghost predicate Agreeable(pod: Pod, pool: Pool) {
    exists t, assignment :: t in Terms(pod) && Agreed(assignment, pod, t, pool)
  }

  /** Evidence is a proof of incompatibility. */
  lemma {:induction false} EvidenceIsProof(pod: Pod, pool: Pool, node: Node, other: (Label, Requirement) -> bool)
    requires WellFormed(pod)
    requires pod.requiredEmpty || forall t :: t in Terms(pod) ==> TermEvidence(pod, t, pool) != []
    requires Provisionable(node, pool, pod, other)
    ensures !PodMatches(node, pod, other)
  {
    if pod.hasRequiredAffinity {
      forall t | t in pod.terms ensures !TermMatches(node, pod, t, other) {
        TermEvidenceIsProof(pod, t, pool, node, other);
      }
    } else {
      assert NO_AFFINITY in Terms(pod);
      TermEvidenceIsProof(pod, NO_AFFINITY, pool, node, other);
    }
  }

  lemma {:induction false} ProvenIncompatible(pod: Pod, pool: Pool)
    requires WellFormed(pod)
    requires pod.requiredEmpty || forall t :: t in Terms(pod) ==> TermEvidence(pod, t, pool) != []
    ensures Incompatible(pod, pool)
  {
    forall node, other | Provisionable(node, pool, pod, other) ensures !PodMatches(node, pod, other) {
      EvidenceIsProof(pod, pool, node, other);
    }
  }

  /** Neither evidence nor an open question about some term. */
  lemma {:induction false} SilenceIsAgreement(pod: Pod, pool: Pool) returns (t: Term, assignment: map<string, Label>)
    requires exists t :: t in Terms(pod) && TermEvidence(pod, t, pool) == [] && TermUnknown(pod, t, pool) == []
    ensures t in Terms(pod) && Agreed(assignment, pod, t, pool)
  {
    t :| t in Terms(pod) && TermEvidence(pod, t, pool) == [] && TermUnknown(pod, t, pool) == [];
    assignment := SilentTermAgrees(pod, t, pool);
  }

  // ---------------------------------------------------------------- the evaluation

  method JudgeTerm(pod: Pod, t: Term, pool: Pool) returns (found: Collection, asked: seq<string>)
    ensures found == Collected(TermEvidence(pod, t, pool)) && asked == TermUnknown(pod, t, pool)
  {
    var rs := pod.nodeSelector + t.requirements;
    found, asked := EvaluateTerm(rs, pool);
    asked := asked + t.unknown;
    if t.empty {
      AddCollects(EvidenceOf(SortedUnique(Keys(rs)), rs, pool), EmptyTerm);
      found := Add(found, EmptyTerm);
    }
  }

  /** What a list of terms adds up to: all evidence, all open questions of the
      terms without evidence, and whether some term has neither. */
  ghost function TermsEvidence(pod: Pod, terms: seq<Term>, pool: Pool): seq<Evidence> {
    if terms == [] then [] else TermsEvidence(pod, terms[..|terms| - 1], pool) + TermEvidence(pod, terms[|terms| - 1], pool)
  }

  ghost function TermsUnknown(pod: Pod, terms: seq<Term>, pool: Pool): seq<string> {
    if terms == [] then []
    else TermsUnknown(pod, terms[..|terms| - 1], pool) +
         if TermEvidence(pod, terms[|terms| - 1], pool) == [] then TermUnknown(pod, terms[|terms| - 1], pool) else []
  }

  ghost predicate SomeSilent(pod: Pod, terms: seq<Term>, pool: Pool) {
    terms != [] &&
    (SomeSilent(pod, terms[..|terms| - 1], pool) ||
     (TermEvidence(pod, terms[|terms| - 1], pool) == [] && TermUnknown(pod, terms[|terms| - 1], pool) == []))
  }

  /** The loop over the terms, the first `n` of which have been judged. */
  datatype Tally = Tally(evidence: Collection, unknown: seq<string>, compatible: bool)

  ghost function Tallied(pod: Pod, terms: seq<Term>, pool: Pool): Tally {
    Tally(Collected(TermsEvidence(pod, terms, pool)), TermsUnknown(pod, terms, pool), SomeSilent(pod, terms, pool))
  }

  function Counted(t: Tally, found: Collection, asked: seq<string>): Tally {
    if found.total > 0 then t.(evidence := Merge(t.evidence, found))
    else if asked != [] then t.(unknown := t.unknown + asked)
    else t.(compatible := true)
  }

  lemma {:induction false} OneMoreTerm(pod: Pod, terms: seq<Term>, i: nat, pool: Pool, found: Collection, asked: seq<string>)
    requires i < |terms|
    requires found == Collected(TermEvidence(pod, terms[i], pool)) && asked == TermUnknown(pod, terms[i], pool)
    ensures Tallied(pod, terms[..i + 1], pool) == Counted(Tallied(pod, terms[..i], pool), found, asked)
  {
    assert terms[..i + 1][..i] == terms[..i];
    MergeCollects(TermsEvidence(pod, terms[..i], pool), TermEvidence(pod, terms[i], pool));
  }

  method EvaluateTerms(pod: Pod, terms: seq<Term>, pool: Pool) returns (tally: Tally)
    ensures tally == Tallied(pod, terms, pool)
  {
    tally := Tally(Collection([], 0), [], false);
    var i := 0;
    while i < |terms|
      invariant 0 <= i <= |terms| && tally == Tallied(pod, terms[..i], pool)
    {
      var found, asked := JudgeTerm(pod, terms[i], pool);
      OneMoreTerm(pod, terms, i, pool, found, asked);
      tally := Counted(tally, found, asked);
      i := i + 1;
    }
    assert terms[..i] == terms;
  }

  lemma {:induction false} SilentOne(pod: Pod, terms: seq<Term>, pool: Pool) returns (t: Term)
    requires SomeSilent(pod, terms, pool)
    ensures t in terms && TermEvidence(pod, t, pool) == [] && TermUnknown(pod, t, pool) == []
  {
    if SomeSilent(pod, terms[..|terms| - 1], pool) {
      t := SilentOne(pod, terms[..|terms| - 1], pool);
    } else {
      t := terms[|terms| - 1];
    }
  }

  /** If no term is silent or unclear, every term has evidence. */
  lemma {:induction false} OnlyEvidence(pod: Pod, terms: seq<Term>, pool: Pool, t: Term)
    requires !SomeSilent(pod, terms, pool) && TermsUnknown(pod, terms, pool) == [] && t in terms
    ensures TermEvidence(pod, t, pool) != [] && TermsEvidence(pod, terms, pool) != []
  {
    var init, last := terms[..|terms| - 1], terms[|terms| - 1];
    if t != last {
      assert t in init;
      OnlyEvidence(pod, init, pool, t);
    }
  }

  /** What the evaluation returns. */
  ghost predicate Evaluated(pod: Pod, pool: Pool, evidence: Collection, unknown: seq<string>) {
    var base := BaseUnknownOf(pod, pool, pool.requirements);
    var tally := Tallied(pod, Terms(pod), pool);
    if pod.requiredEmpty then evidence == Collected([NoTerms]) && unknown == base
    else if tally.compatible then evidence == Collected([]) && unknown == base
    else if tally.unknown != [] then evidence == Collected([]) && unknown == base + tally.unknown
    else evidence == tally.evidence && unknown == base
  }

  /** Every term rules the pool out. */
  ghost predicate AllRuled(pod: Pod, pool: Pool) { forall t :: t in Terms(pod) ==> TermRuled(pod, t, pool) }

  /** No term is without doubt, and some term is not ruled out. */
  ghost predicate InDoubt(pod: Pod, pool: Pool) {
    !AllRuled(pod, pool) && forall t :: t in Terms(pod) ==> TermRuled(pod, t, pool) || TermOpen(pod, t, pool)
  }

  ghost function Rulings(pod: Pod, terms: seq<Term>, pool: Pool): nat {
    if terms == [] then 0 else Rulings(pod, terms[..|terms| - 1], pool) + RulingCount(pod, terms[|terms| - 1], pool)
  }

  lemma {:induction false} BaseElements(pod: Pod, pool: Pool, requirements: seq<PoolRequirement>, question: string)
    ensures question in BaseUnknownOf(pod, pool, requirements) <==>
            exists p :: p in requirements && !MinimumIsMet(pod, pool, p) && question == MinimumName(p)
  {
    if requirements != [] {
      var init, last := requirements[..|requirements| - 1], requirements[|requirements| - 1];
      BaseElements(pod, pool, init, question);
      assert forall p :: p in requirements <==> p in init || p == last;
    }
  }

  lemma {:induction false} SilentMeans(pod: Pod, terms: seq<Term>, pool: Pool)
    ensures SomeSilent(pod, terms, pool) <==> exists t :: t in terms && !TermRuled(pod, t, pool) && !TermOpen(pod, t, pool)
  {
    if terms != [] {
      var init, last := terms[..|terms| - 1], terms[|terms| - 1];
      SilentMeans(pod, init, pool);
      TermMeans(pod, last, pool);
      assert forall t :: t in terms <==> t in init || t == last;
    }
  }

  lemma {:induction false} AskedMeans(pod: Pod, terms: seq<Term>, pool: Pool, question: string)
    ensures question in TermsUnknown(pod, terms, pool) <==>
            exists t :: t in terms && !TermRuled(pod, t, pool) && TermAsks(pod, t, pool, question)
  {
    if terms != [] {
      var init, last := terms[..|terms| - 1], terms[|terms| - 1];
      AskedMeans(pod, init, pool, question);
      TermMeans(pod, last, pool);
      TermElements(pod, last, pool);
      assert forall t :: t in terms <==> t in init || t == last;
    }
  }

  lemma {:induction false} SomethingAsked(pod: Pod, terms: seq<Term>, pool: Pool)
    ensures TermsUnknown(pod, terms, pool) != [] <==> exists t :: t in terms && !TermRuled(pod, t, pool) && TermOpen(pod, t, pool)
  {
    if terms != [] {
      var init, last := terms[..|terms| - 1], terms[|terms| - 1];
      SomethingAsked(pod, init, pool);
      TermMeans(pod, last, pool);
      assert forall t :: t in terms <==> t in init || t == last;
    }
  }

  lemma {:induction false} SupportedMeans(pod: Pod, terms: seq<Term>, pool: Pool, e: Evidence)
    ensures e in TermsEvidence(pod, terms, pool) <==> exists t :: t in terms && TermSupports(pod, t, pool, e)
  {
    if terms != [] {
      var init, last := terms[..|terms| - 1], terms[|terms| - 1];
      SupportedMeans(pod, init, pool, e);
      TermElements(pod, last, pool);
      assert forall t :: t in terms <==> t in init || t == last;
    }
  }

  lemma {:induction false} RulingsCount(pod: Pod, terms: seq<Term>, pool: Pool)
    ensures |TermsEvidence(pod, terms, pool)| == Rulings(pod, terms, pool)
  {
    if terms != [] {
      RulingsCount(pod, terms[..|terms| - 1], pool);
      TermCounts(pod, terms[|terms| - 1], pool);
    }
  }

  lemma {:induction false} TermsDecide(pod: Pod, pool: Pool)
    ensures var terms := Terms(pod);
            && (SomeSilent(pod, terms, pool) <==> !AllRuled(pod, pool) && !InDoubt(pod, pool))
            && (!SomeSilent(pod, terms, pool) && TermsUnknown(pod, terms, pool) != [] <==> InDoubt(pod, pool))
  {
    SilentMeans(pod, Terms(pod), pool);
    SomethingAsked(pod, Terms(pod), pool);
  }

  /** Evidence is reported exactly when every term rules the pool out, one piece
      per label that does. */
  lemma {:induction false} EvidenceIsComplete(pod: Pod, pool: Pool, evidence: Collection, unknown: seq<string>)
    requires WellFormed(pod) && Evaluated(pod, pool, evidence, unknown)
    ensures evidence.total > 0 <==> AllRuled(pod, pool)
    ensures evidence.total == if pod.requiredEmpty then 1 else if AllRuled(pod, pool) then Rulings(pod, Terms(pod), pool) else 0
  {
    TermsDecide(pod, pool);
    RulingsCount(pod, Terms(pod), pool);
    if !pod.requiredEmpty && AllRuled(pod, pool) {
      EvidenceIsIncompatible(pod, pool);
    }
  }

  lemma {:induction false} FirstAreSome(all: seq<Evidence>)
    ensures forall e :: e in First(all) ==> e in all
    ensures |First(all)| == if |all| > EVIDENCE_LIMIT then EVIDENCE_LIMIT else |all|
  {
  }

  /** And each piece shown is well founded. */
  lemma {:induction false} EvidenceIsFounded(pod: Pod, pool: Pool, evidence: Collection, unknown: seq<string>)
    requires WellFormed(pod) && Evaluated(pod, pool, evidence, unknown)
    ensures |evidence.values| == if evidence.total > 10 then 10 else evidence.total
    ensures forall e :: e in evidence.values ==>
              if pod.requiredEmpty then e == NoTerms else exists t :: t in Terms(pod) && TermSupports(pod, t, pool, e)
  {
    var all := TermsEvidence(pod, Terms(pod), pool);
    FirstAreSome(all);
    forall e | e in all ensures exists t :: t in Terms(pod) && TermSupports(pod, t, pool, e) {
      SupportedMeans(pod, Terms(pod), pool, e);
    }
  }

  /** What is reported as unknown, and when. */
  lemma {:induction false} QuestionsAreThese(pod: Pod, pool: Pool, evidence: Collection, unknown: seq<string>, question: string)
    requires WellFormed(pod) && Evaluated(pod, pool, evidence, unknown)
    ensures question in unknown <==>
            || (exists p :: p in pool.requirements && !MinimumIsMet(pod, pool, p) && question == MinimumName(p))
            || (InDoubt(pod, pool) && exists t :: t in Terms(pod) && !TermRuled(pod, t, pool) && TermAsks(pod, t, pool, question))
  {
    TermsDecide(pod, pool);
    BaseElements(pod, pool, pool.requirements, question);
    AskedMeans(pod, Terms(pod), pool, question);
  }

  method Evaluate(pod: Pod, pool: Pool) returns (evidence: Collection, unknown: seq<string>)
    requires WellFormed(pod)
    ensures evidence.total > 0 ==> Incompatible(pod, pool)
    ensures evidence.total == 0 && unknown == [] ==> Agreeable(pod, pool)
    ensures Evaluated(pod, pool, evidence, unknown)
  {
    var base := BaseUnknown(pod, pool);
    if pod.requiredEmpty {
      ProvenIncompatible(pod, pool);
      AddCollects([], NoTerms);
      return Add(Collection([], 0), NoTerms), base;
    }
    var tally := EvaluateTerms(pod, Terms(pod), pool);
    if tally.compatible {
      SilentIsAgreeable(pod, pool);
      return Collection([], 0), base;
    }
    if tally.unknown != [] {
      return Collection([], 0), base + tally.unknown;
    }
    EvidenceIsIncompatible(pod, pool);
    return tally.evidence, base;
  }

  lemma {:induction false} SilentIsAgreeable(pod: Pod, pool: Pool)
    requires SomeSilent(pod, Terms(pod), pool)
    ensures Agreeable(pod, pool)
  {
    var silent := SilentOne(pod, Terms(pod), pool);
    var t, assignment := SilenceIsAgreement(pod, pool);
  }

  lemma {:induction false} EvidenceIsIncompatible(pod: Pod, pool: Pool)
    requires WellFormed(pod) && !pod.requiredEmpty
    requires !SomeSilent(pod, Terms(pod), pool) && TermsUnknown(pod, Terms(pod), pool) == []
    ensures Incompatible(pod, pool) && TermsEvidence(pod, Terms(pod), pool) != []
  {
    forall t | t in Terms(pod) ensures TermEvidence(pod, t, pool) != [] {
      OnlyEvidence(pod, Terms(pod), pool, t);
    }
    ProvenIncompatible(pod, pool);
    assert Terms(pod)[0] in Terms(pod);
    OnlyEvidence(pod, Terms(pod), pool, Terms(pod)[0]);
  }
}
