/** Grouping unscheduled pods by what they ask for. */
module DemandGroups {
  import opened Wrappers
  import opened Sorting
  import opened Strings
  import C = Canonical
  import F = Fingerprints
  import M = PodMeaning

  type Resources = map<string, int>

  /** A pod as grouping sees it; `scheduling` is what its fingerprint is made of. */
  datatype Pod = Pod(
    name: string, namespace: string, uid: string, owner: string, requests: Resources, scheduling: C.Pod,
    nodeName: string, terminal: bool, deleting: bool, daemonSet: bool)

  predicate Eligible(p: Pod) { p.nodeName == "" && !p.terminal && !p.deleting && !p.daemonSet }

  function PodKey(p: Pod): string { p.namespace + C.NUL + p.name + C.NUL + p.uid }

  datatype Identity = Identity(namespace: string, owner: string, requests: Resources, signature: string)

  function IdentityOf(p: Pod, m: C.Model, d: C.Digests): Identity { Identity(p.namespace, p.owner, p.requests, d.model(m)) }

  /** The digest that keys the groups, taken to be injective. */
  ghost predicate Injective(digest: Identity -> string) { forall a, b :: digest(a) == digest(b) ==> a == b }

  /** The group the program may put the pod into. */
  ghost predicate KeyedBy(p: Pod, key: string, d: C.Digests, digest: Identity -> string) {
    exists m :: C.IsCanonical(p.scheduling, m, d) && key == digest(IdentityOf(p, m, d))
  }

  datatype Group = Group(requests: Resources, pods: seq<Pod>)

  function Amount(r: Resources, name: string): int { if name in r then r[name] else 0 }

  function Total(pods: seq<Pod>, name: string): int {
    if pods == [] then 0 else Total(pods[..|pods| - 1], name) + Amount(pods[|pods| - 1].requests, name)
  }

  function EligibleOnes(pods: seq<Pod>): seq<Pod> {
    if pods == [] then []
    else EligibleOnes(pods[..|pods| - 1]) + if Eligible(pods[|pods| - 1]) then [pods[|pods| - 1]] else []
  }

  /** The members of one group, in the order they were read. */
  function MembersOf(pods: seq<Pod>, keys: seq<string>, key: string): seq<Pod>
    requires |keys| == |pods|
  {
    if pods == [] then []
    else
      var n := |pods| - 1;
      MembersOf(pods[..n], keys[..n], key) + if keys[n] == key then [pods[n]] else []
  }

  /** The groups of the pods read so far. */
  ghost predicate Grouped(groups: map<string, Group>, pods: seq<Pod>, keys: seq<string>) {
    && |keys| == |pods|
    && (forall key :: key in groups ==> groups[key].pods != [] && groups[key].pods == MembersOf(pods, keys, key)
                                        && groups[key].requests == groups[key].pods[0].requests)
    && (forall key :: key !in groups ==> MembersOf(pods, keys, key) == [])
  }

  /** What grouping has to deliver: the eligible pods in the order of their
      names, each under a key of its own, and the groups of those keys. */
  ghost predicate Built(groups: map<string, Group>, ordered: seq<Pod>, keys: seq<string>,
                        pods: seq<Pod>, d: C.Digests, digest: Identity -> string) {
    && Sorts(ordered, EligibleOnes(pods), PodKey)
    && Grouped(groups, ordered, keys)
    && forall i :: 0 <= i < |keys| ==> KeyedBy(ordered[i], keys[i], d, digest)
  }

  // ---------------------------------------------------------------- building

  method OrderedPods(pods: seq<Pod>) returns (ordered: seq<Pod>)
    ensures Sorts(ordered, EligibleOnes(pods), PodKey)
  {
    var eligible: seq<Pod> := [];
    var i := 0;
    while i < |pods|
      invariant 0 <= i <= |pods| && eligible == EligibleOnes(pods[..i])
    {
      assert pods[..i + 1][..i] == pods[..i];
      if Eligible(pods[i]) {
        eligible := eligible + [pods[i]];
      }
      i := i + 1;
    }
    assert pods[..i] == pods;
    ordered := SortSlice(eligible, PodKey);
  }

  lemma {:induction false} MembersGrow(pods: seq<Pod>, keys: seq<string>, p: Pod, k: string, key: string)
    requires |keys| == |pods|
    ensures MembersOf(pods + [p], keys + [k], key) == MembersOf(pods, keys, key) + if k == key then [p] else []
  {
    assert (pods + [p])[..|pods|] == pods && (keys + [k])[..|keys|] == keys;
  }

  lemma {:induction false} GroupedMore(groups: map<string, Group>, pods: seq<Pod>, keys: seq<string>, p: Pod, k: string)
    requires Grouped(groups, pods, keys)
    ensures var g := if k in groups then groups[k] else Group(p.requests, []);
            Grouped(groups[k := g.(pods := g.pods + [p])], pods + [p], keys + [k])
  {
    forall key ensures MembersOf(pods + [p], keys + [k], key) == MembersOf(pods, keys, key) + if k == key then [p] else [] {
      MembersGrow(pods, keys, p, k, key);
    }
  }

  /** The groups of the first `i` of the sorted pods. */
  ghost predicate Building(groups: map<string, Group>, sorted: seq<Pod>, i: nat, keys: seq<string>, d: C.Digests, digest: Identity -> string)
    requires i <= |sorted|
  {
    Grouped(groups, sorted[..i], keys) && forall j :: 0 <= j < |keys| ==> KeyedBy(sorted[j], keys[j], d, digest)
  }

  lemma {:induction false} OnePlaced(groups: map<string, Group>, sorted: seq<Pod>, i: nat, keys: seq<string>, k: string, d: C.Digests, digest: Identity -> string)
    requires i < |sorted| && Building(groups, sorted, i, keys, d, digest) && KeyedBy(sorted[i], k, d, digest)
    ensures var g := if k in groups then groups[k] else Group(sorted[i].requests, []);
            Building(groups[k := g.(pods := g.pods + [sorted[i]])], sorted, i + 1, keys + [k], d, digest)
  {
    GroupedMore(groups, sorted[..i], keys, sorted[i], k);
    assert sorted[..i + 1] == sorted[..i] + [sorted[i]];
  }

  lemma {:induction false} AllPlaced(groups: map<string, Group>, sorted: seq<Pod>, keys: seq<string>, pods: seq<Pod>, d: C.Digests, digest: Identity -> string)
    requires Building(groups, sorted, |sorted|, keys, d, digest) && Sorts(sorted, EligibleOnes(pods), PodKey)
    ensures Built(groups, sorted, keys, pods, d, digest)
  {
    assert sorted[..|sorted|] == sorted;
  }

  /** Puts a pod into the group of its key. */
  method Place(groups: map<string, Group>, pod: Pod, key: string) returns (placed: map<string, Group>)
    ensures var g := if key in groups then groups[key] else Group(pod.requests, []);
            placed == groups[key := g.(pods := g.pods + [pod])]
  {
    placed := groups;
    if key !in placed {
      placed := placed[key := Group(pod.requests, [])];
    }
    placed := placed[key := placed[key].(pods := placed[key].pods + [pod])];
  }

  method BuildGroups(pods: seq<Pod>, d: C.Digests, digest: Identity -> string)
    returns (groups: map<string, Group>, ghost ordered: seq<Pod>, ghost keys: seq<string>)
    ensures Built(groups, ordered, keys, pods, d, digest)
  {
    var sorted := OrderedPods(pods);
    groups, ordered, keys := map[], sorted, [];
    var i := 0;
    while i < |sorted|
      invariant 0 <= i <= |sorted| && Building(groups, sorted, i, keys, d, digest)
    {
      var model := F.SchedulingModel(sorted[i].scheduling, d);
      var key := digest(IdentityOf(sorted[i], model, d));
      assert KeyedBy(sorted[i], key, d, digest);
      OnePlaced(groups, sorted, i, keys, key, d, digest);
      groups := Place(groups, sorted[i], key);
      keys := keys + [key];
      i := i + 1;
    }
    AllPlaced(groups, sorted, keys, pods, d, digest);
  }

  // ---------------------------------------------------------------- their order

  /** The first parts of two keys decide, and then the rest. */
  lemma {:induction false} FirstPartDecides(a: string, x: string, b: string, y: string)
    requires C.NulFree(a) && C.NulFree(b)
    ensures Below(a + C.NUL + x, b + C.NUL + y) <==> Below(a, b) || (a == b && Below(x, y))
  {
    var s, t := a + C.NUL + x, b + C.NUL + y;
    if a == [] || b == [] {
      assert s[0] == (if a == [] then C.NUL[0] else a[0]) && t[0] == (if b == [] then C.NUL[0] else b[0]);
      assert a == [] ==> s[1..] == x;
      assert b == [] ==> t[1..] == y;
    } else {
      assert s[1..] == a[1..] + C.NUL + x && t[1..] == b[1..] + C.NUL + y;
      FirstPartDecides(a[1..], x, b[1..], y);
      assert a == [a[0]] + a[1..] && b == [b[0]] + b[1..];
    }
  }

  /** By namespace, name and UID. */
  predicate Earlier(p: Pod, q: Pod) {
    || Below(p.namespace, q.namespace)
    || (p.namespace == q.namespace && Below(p.name, q.name))
    || (p.namespace == q.namespace && p.name == q.name && Below(p.uid, q.uid))
  }

  predicate PlainNames(p: Pod) { C.NulFree(p.namespace) && C.NulFree(p.name) }

  /** Pods are read by namespace, name and UID. */
  lemma {:induction false} ReadInOrder(ordered: seq<Pod>, pods: seq<Pod>)
    requires Sorts(ordered, EligibleOnes(pods), PodKey) && forall p :: p in ordered ==> PlainNames(p)
    ensures forall i, j :: 0 <= i < j < |ordered| ==> !Earlier(ordered[j], ordered[i])
  {
    forall i, j | 0 <= i < j < |ordered| ensures !Earlier(ordered[j], ordered[i]) {
      var p, q := ordered[j], ordered[i];
      assert p in ordered && q in ordered && PlainNames(p) && PlainNames(q);
      assert PodKey(p) == p.namespace + C.NUL + (p.name + C.NUL + p.uid) && PodKey(q) == q.namespace + C.NUL + (q.name + C.NUL + q.uid);
      FirstPartDecides(p.namespace, p.name + C.NUL + p.uid, q.namespace, q.name + C.NUL + q.uid);
      FirstPartDecides(p.name, p.uid, q.name, q.uid);
    }
  }

  // ---------------------------------------------------------------- a partition

  /** A member of a group was read under its key, and conversely. */
  lemma {:induction false} MembersAre(pods: seq<Pod>, keys: seq<string>, key: string, p: Pod)
    requires |keys| == |pods|
    ensures p in MembersOf(pods, keys, key) <==> exists i :: 0 <= i < |pods| && pods[i] == p && keys[i] == key
  {
    if pods != [] {
      var n := |pods| - 1;
      MembersAre(pods[..n], keys[..n], key, p);
      if i :| 0 <= i < |pods| && pods[i] == p && keys[i] == key {
        assert i < n ==> pods[..n][i] == p && keys[..n][i] == key;
      }
    }
  }

  lemma {:induction false} EligibleOnesAre(pods: seq<Pod>, p: Pod)
    ensures multiset(EligibleOnes(pods))[p] == if Eligible(p) then multiset(pods)[p] else 0
  {
    if pods != [] {
      EligibleOnesAre(pods[..|pods| - 1], p);
      assert pods == pods[..|pods| - 1] + [pods[|pods| - 1]];
    }
  }

  /** Pods that mean the same, whatever the order they say it in. */
  ghost predicate Alike(p: Pod, q: Pod) {
    p.namespace == q.namespace && p.owner == q.owner && p.requests == q.requests &&
    M.MeaningOf(p.scheduling) == M.MeaningOf(q.scheduling)
  }

  ghost predicate Sound(d: C.Digests, digest: Identity -> string) { C.Injective(d) && Injective(digest) }

  /** Two pods a cluster can hold get the same key if and only if they are alike:
      permuted or spelled differently, they still land in one group. */
  lemma {:induction false} SameKeyIffAlike(p: Pod, q: Pod, k: string, l: string, d: C.Digests, digest: Identity -> string)
    requires Sound(d, digest) && F.AdmittedPod(p.scheduling) && KeyedBy(p, k, d, digest) && KeyedBy(q, l, d, digest)
    ensures k == l <==> Alike(p, q)
  {
    var m :| C.IsCanonical(p.scheduling, m, d) && k == digest(IdentityOf(p, m, d));
    var n :| C.IsCanonical(q.scheduling, n, d) && l == digest(IdentityOf(q, n, d));
    if k == l {
      M.SameFormSameMeaning(p.scheduling, q.scheduling, m, d);
    }
    if Alike(p, q) {
      F.AdmittedPodsAreOrderBlind(p.scheduling, d);
      assert m == n;
    }
  }

  /** Whatever pods are given, those in one group are alike. */
  lemma {:induction false} GroupMatesAreAlike(p: Pod, q: Pod, key: string, d: C.Digests, digest: Identity -> string)
    requires Sound(d, digest) && KeyedBy(p, key, d, digest) && KeyedBy(q, key, d, digest)
    ensures Alike(p, q)
  {
    var m :| C.IsCanonical(p.scheduling, m, d) && key == digest(IdentityOf(p, m, d));
    var n :| C.IsCanonical(q.scheduling, n, d) && key == digest(IdentityOf(q, n, d));
    M.SameFormSameMeaning(p.scheduling, q.scheduling, m, d);
  }

  /** So two pods that differ in whether Equal is spelled out share a group. */
  lemma {:induction false} EqualMayBeOmitted(p: Pod, q: Pod, i: nat, k: string, l: string, d: C.Digests, digest: Identity -> string)
    requires Sound(d, digest) && F.AdmittedPod(p.scheduling) && KeyedBy(p, k, d, digest) && KeyedBy(q, l, d, digest)
    requires var ts := p.scheduling.tolerations;
             i < |ts| && ts[i].operator == "" && q == p.(scheduling := p.scheduling.(tolerations := ts[i := ts[i].(operator := "Equal")]))
    ensures k == l
  {
    var m :| C.IsCanonical(p.scheduling, m, d) && k == digest(IdentityOf(p, m, d));
    var n :| C.IsCanonical(q.scheduling, n, d) && l == digest(IdentityOf(q, n, d));
    F.EqualMayBeOmitted(p.scheduling, q.scheduling, i, m, n, d);
  }

  lemma {:induction false} CountOfLast(pods: seq<Pod>, p: Pod)
    requires pods != []
    ensures var n := |pods| - 1; multiset(pods)[p] == multiset(pods[..n])[p] + if pods[n] == p then 1 else 0
  {
    assert pods == pods[..|pods| - 1] + [pods[|pods| - 1]];
  }

  lemma {:induction false} ReadOnce(ordered: seq<Pod>, keys: seq<string>, key: string, p: Pod)
    requires |keys| == |ordered| && forall i :: 0 <= i < |ordered| && ordered[i] == p ==> keys[i] == key
    ensures multiset(MembersOf(ordered, keys, key))[p] == multiset(ordered)[p]
  {
    if ordered != [] {
      var n := |ordered| - 1;
      var (init, heads) := (ordered[..n], keys[..n]);
      assert forall i :: 0 <= i < n ==> init[i] == ordered[i] && heads[i] == keys[i];
      ReadOnce(init, heads, key, p);
      CountOfLast(ordered, p);
    }
  }

  /** Grouping partitions the eligible pods: each is in one group, as often as it
      was read, with the pods that are alike and with no other; ineligible pods
      are in none. */
  lemma {:induction false} GroupsPartitionEligiblePods(groups: map<string, Group>, ordered: seq<Pod>, keys: seq<string>,
                                                       pods: seq<Pod>, d: C.Digests, digest: Identity -> string, p: Pod)
    returns (key: string)
    requires Sound(d, digest) && Built(groups, ordered, keys, pods, d, digest)
    requires p in pods && F.AdmittedPod(p.scheduling) && p.nodeName == "" && !p.terminal && !p.deleting && !p.daemonSet
    ensures key in groups && multiset(groups[key].pods)[p] == multiset(pods)[p]
    ensures forall q :: q in groups[key].pods <==>
              q in pods && Alike(p, q) && q.nodeName == "" && !q.terminal && !q.deleting && !q.daemonSet
    ensures forall other :: other in groups && p in groups[other].pods ==> other == key
  {
    var i := PositionOf(ordered, pods, p);
    key := keys[i];
    MembersAre(ordered, keys, key, p);
    assert ordered[i] == p && keys[i] == key;
    EligibleOnesAre(pods, p);
    forall j | 0 <= j < |ordered| && ordered[j] == p ensures keys[j] == key {
      SameKeyIffAlike(p, p, key, keys[j], d, digest);
    }
    ReadOnce(ordered, keys, key, p);
    forall q ensures q in groups[key].pods <==> q in pods && Eligible(q) && Alike(p, q) {
      MatesAre(groups, ordered, keys, pods, d, digest, p, i, q);
    }
    forall other | other in groups && p in groups[other].pods ensures other == key {
      MembersAre(ordered, keys, other, p);
    }
  }

  lemma {:induction false} PositionOf(ordered: seq<Pod>, pods: seq<Pod>, p: Pod) returns (i: nat)
    requires Sorts(ordered, EligibleOnes(pods), PodKey) && p in pods && Eligible(p)
    ensures i < |ordered| && ordered[i] == p
  {
    EligibleOnesAre(pods, p);
    assert p in multiset(pods);
    assert p in multiset(ordered);
    i :| 0 <= i < |ordered| && ordered[i] == p;
  }

  lemma {:induction false} MatesAre(groups: map<string, Group>, ordered: seq<Pod>, keys: seq<string>, pods: seq<Pod>,
                                    d: C.Digests, digest: Identity -> string, p: Pod, i: nat, q: Pod)
    requires Sound(d, digest) && Built(groups, ordered, keys, pods, d, digest)
    requires i < |ordered| && ordered[i] == p && F.AdmittedPod(p.scheduling) && keys[i] in groups
    ensures q in groups[keys[i]].pods <==> q in pods && Eligible(q) && Alike(p, q)
  {
    MembersAre(ordered, keys, keys[i], q);
    EligibleOnesAre(pods, q);
    if q in groups[keys[i]].pods {
      var j :| 0 <= j < |ordered| && ordered[j] == q && keys[j] == keys[i];
      SameKeyIffAlike(p, q, keys[i], keys[j], d, digest);
      assert q in multiset(ordered);
      assert q in multiset(pods);
    } else if q in pods && Eligible(q) && Alike(p, q) {
      var j := PositionOf(ordered, pods, q);
      SameKeyIffAlike(p, q, keys[i], keys[j], d, digest);
    }
  }

  // ---------------------------------------------------------------- aggregates

  lemma {:induction false} UniformTotal(pods: seq<Pod>, r: Resources, name: string)
    requires forall p :: p in pods ==> p.requests == r
    ensures Total(pods, name) == |pods| * Amount(r, name)
  {
    if pods != [] {
      var init, last := pods[..|pods| - 1], pods[|pods| - 1];
      assert pods == init + [last];
      assert last in pods && forall p :: p in init ==> p in pods;
      UniformTotal(init, r, name);
      OneMore(|init|, Amount(r, name));
    }
  }

  lemma {:induction false} OneMore(n: nat, amount: int)
    ensures n * amount + amount == (n + 1) * amount
  {
  }

  /** A group's aggregate, one member's requests times the number of members, is
      the sum over its members. */
  lemma {:induction false} AggregateIsTheSum(groups: map<string, Group>, ordered: seq<Pod>, keys: seq<string>,
                                             pods: seq<Pod>, d: C.Digests, digest: Identity -> string, key: string, name: string)
    requires Sound(d, digest) && Built(groups, ordered, keys, pods, d, digest) && key in groups
    ensures Amount(groups[key].requests, name) * |groups[key].pods| == Total(groups[key].pods, name)
  {
    var g := groups[key];
    forall p | p in g.pods ensures p.requests == g.requests {
      GroupKey(ordered, keys, key, d, digest, p);
      GroupKey(ordered, keys, key, d, digest, g.pods[0]);
      GroupMatesAreAlike(p, g.pods[0], key, d, digest);
    }
    UniformTotal(g.pods, g.requests, name);
  }

  lemma {:induction false} GroupKey(ordered: seq<Pod>, keys: seq<string>, key: string, d: C.Digests, digest: Identity -> string, p: Pod)
    requires |keys| == |ordered| && p in MembersOf(ordered, keys, key)
    requires forall i :: 0 <= i < |keys| ==> KeyedBy(ordered[i], keys[i], d, digest)
    ensures KeyedBy(p, key, d, digest)
  {
    MembersAre(ordered, keys, key, p);
  }
}
