/** Why a group of pods is not scheduled: the group's state, and the reasons
    kept while reading the pods one after another. Only ten reasons keep their
    message, chosen online; they are the ten that sorting everything first
    would have given. */
module SchedulerReasons {
  import opened Wrappers
  import opened Strings

  /** A distinct reason. Its message is identified by a digest, taken to be
      injective. */
  datatype Key = Key(source: string, code: string, message: string)

  datatype Aggregate = Aggregate(count: nat, firstSeen: int)

  datatype Arrival = Arrival(key: Key, firstSeen: int)

  const REASON_LIMIT: nat := 10

  // ---------------------------------------------------------------- the order

  predicate Less(a: Key, b: Key) {
    if a.code != b.code then Below(a.code, b.code) else Below(a.message, b.message)
  }

  predicate SamePair(a: Key, b: Key) { a.code == b.code && a.message == b.message }

  lemma {:induction false} LessIsWeakOrder(a: Key, b: Key, c: Key)
    ensures !Less(a, a) && !(Less(a, b) && Less(b, a))
    ensures Less(a, b) && Less(b, c) ==> Less(a, c)
    ensures Less(a, c) ==> Less(a, b) || Less(b, c)
    ensures !Less(a, b) && !Less(b, a) ==> SamePair(a, b)
  {
    Total(a.code, b.code);
    Total(a.message, b.message);
    Total(b.code, c.code);
    Total(b.message, c.message);
    Total(a.message, a.message);
    if Below(a.code, b.code) && Below(b.code, c.code) { Transitive(a.code, b.code, c.code); }
    if Below(a.message, b.message) && Below(b.message, c.message) { Transitive(a.message, b.message, c.message); }
    if Below(c.code, b.code) && Below(b.code, a.code) { Transitive(c.code, b.code, a.code); }
    if Below(c.message, b.message) && Below(b.message, a.message) { Transitive(c.message, b.message, a.message); }
    Total(a.code, c.code);
    Total(a.message, c.message);
  }

  // ---------------------------------------------------------------- the stream

  function KeysOf(stream: seq<Arrival>): set<Key> { set a | a in stream :: a.key }

  function CountOf(stream: seq<Arrival>, key: Key): nat {
    if stream == [] then 0
    else CountOf(stream[..|stream| - 1], key) + if stream[|stream| - 1].key == key then 1 else 0
  }

  /** The earliest first-seen time among the arrivals of a reason. */
  ghost predicate IsEarliest(stream: seq<Arrival>, key: Key, t: int) {
    && (exists i :: 0 <= i < |stream| && stream[i].key == key && stream[i].firstSeen == t)
    && (forall i :: 0 <= i < |stream| && stream[i].key == key ==> t <= stream[i].firstSeen)
  }

  // ---------------------------------------------------------------- the smallest

  ghost predicate AllDistinct(s: seq<Key>) { forall i, j :: 0 <= i < j < |s| ==> s[i] != s[j] }

  function Min(a: nat, b: nat): nat { if a < b then a else b }

  /** `kept` holds the smallest of the keys, as many as the limit allows. */
  ghost predicate Smallest(kept: seq<Key>, keys: set<Key>) {
    && AllDistinct(kept)
    && (forall r :: r in kept ==> r in keys)
    && |kept| == Min(REASON_LIMIT, |keys|)
    && (forall k, r :: k in keys && k !in kept && r in kept ==> !Less(k, r))
  }

  lemma {:induction false} DistinctSize(s: seq<Key>)
    requires AllDistinct(s)
    ensures |set k | k in s| == |s|
  {
    if s != [] {
      var init, last := s[..|s| - 1], s[|s| - 1];
      DistinctSize(init);
      assert last !in init;
      assert (set k | k in s) == (set k | k in init) + {last};
    }
  }

  lemma {:induction false} KeptAreAll(kept: seq<Key>, keys: set<Key>)
    requires AllDistinct(kept) && (forall r :: r in kept ==> r in keys) && |kept| == |keys|
    ensures forall k :: k in keys ==> k in kept
  {
    DistinctSize(kept);
    var ks := set k | k in kept;
    assert keys == ks + (keys - ks);
    assert |keys - ks| == 0;
  }

  lemma {:induction false} RoomForOne(kept: seq<Key>, keys: set<Key>, key: Key)
    requires Smallest(kept, keys) && key !in keys && |kept| < REASON_LIMIT
    ensures Smallest(kept + [key], keys + {key})
  {
    KeptAreAll(kept, keys);
  }

  ghost predicate IsWorst(kept: seq<Key>, worst: nat) {
    worst < |kept| && forall i :: 0 <= i < |kept| ==> !Less(kept[worst], kept[i])
  }

  lemma {:induction false} ReplaceWorst(kept: seq<Key>, keys: set<Key>, key: Key, worst: nat)
    requires Smallest(kept, keys) && key !in keys && |kept| == REASON_LIMIT && IsWorst(kept, worst)
    requires Less(key, kept[worst])
    ensures Smallest(kept[worst := key], keys + {key})
  {
    var kept', w := kept[worst := key], kept[worst];
    assert kept'[worst] == key && w in kept;
    forall k, r | k in keys + {key} && k !in kept' && r in kept' ensures !Less(k, r) {
      LessIsWeakOrder(k, key, w);
      LessIsWeakOrder(key, w, w);
      var i :| 0 <= i < |kept'| && kept'[i] == r;
      assert i != worst ==> r == kept[i] && r in kept;
      OutsideStaysOutside(kept, worst, key, k);
    }
  }

  lemma {:induction false} OutsideStaysOutside(kept: seq<Key>, worst: nat, key: Key, k: Key)
    requires worst < |kept| && k !in kept[worst := key]
    ensures k != key && (k == kept[worst] || k !in kept)
  {
    assert kept[worst := key][worst] == key;
    assert forall i :: 0 <= i < |kept| && i != worst ==> kept[worst := key][i] == kept[i];
  }

  lemma {:induction false} KeepAsIs(kept: seq<Key>, keys: set<Key>, key: Key, worst: nat)
    requires Smallest(kept, keys) && key !in keys && |kept| == REASON_LIMIT && IsWorst(kept, worst)
    requires !Less(key, kept[worst])
    ensures Smallest(kept, keys + {key})
  {
    forall r | r in kept ensures !Less(key, r) {
      var i :| 0 <= i < |kept| && kept[i] == r;
      LessIsWeakOrder(key, kept[worst], r);
    }
  }

  // ---------------------------------------------------------------- the table

  class ReasonTable {
    var reasons: map<Key, Aggregate>
    var retained: seq<Key>

    /** The table after reading `stream`: counts and first-seen times cover all
        of it, retained or not. */
    ghost predicate Covers(stream: seq<Arrival>)
      reads this
    {
      Totals(reasons, stream) && Smallest(retained, reasons.Keys)
    }

    constructor ()
      ensures Covers([])
    {
      reasons, retained := map[], [];
    }

    method FindWorst() returns (worst: nat)
      requires retained != []
      ensures IsWorst(retained, worst)
    {
      worst := 0;
      var i := 1;
      LessIsWeakOrder(retained[0], retained[0], retained[0]);
      while i < |retained|
        invariant 1 <= i <= |retained| && worst < i
        invariant forall j :: 0 <= j < i ==> !Less(retained[worst], retained[j])
      {
        if Less(retained[worst], retained[i]) {
          forall j | 0 <= j < i + 1 ensures !Less(retained[i], retained[j]) {
            LessIsWeakOrder(retained[i], retained[worst], retained[j]);
            LessIsWeakOrder(retained[i], retained[j], retained[worst]);
            LessIsWeakOrder(retained[worst], retained[i], retained[j]);
          }
          worst := i;
        }
        i := i + 1;
      }
    }

    /** Admits a reason never seen before if it is among the smallest so far. */
    method Admit(key: Key, ghost keys: set<Key>)
      requires Smallest(retained, keys) && key !in keys
      modifies this`retained
      ensures Smallest(retained, keys + {key})
    {
      if |retained| < REASON_LIMIT {
        RoomForOne(retained, keys, key);
        retained := retained + [key];
      } else {
        var worst := FindWorst();
        if Less(key, retained[worst]) {
          ReplaceWorst(retained, keys, key, worst);
          retained := retained[worst := key];
        } else {
          KeepAsIs(retained, keys, key, worst);
        }
      }
    }

    method AdmitIfNew(key: Key)
      requires Smallest(retained, reasons.Keys)
      modifies this`retained
      ensures Smallest(retained, reasons.Keys + {key})
    {
      if key !in reasons {
        Admit(key, reasons.Keys);
      } else {
        assert reasons.Keys + {key} == reasons.Keys;
      }
    }

    /** A reason that was not retained, or no longer is, is still counted but
        never admitted again. */
    method AddReason(a: Arrival, ghost stream: seq<Arrival>)
      requires Covers(stream)
      modifies this
      ensures Covers(stream + [a])
    {
      NotedCovers(reasons, stream, a);
      AdmitIfNew(a.key);
      Count(a);
    }

    method Count(a: Arrival)
      modifies this`reasons
      ensures reasons == Noted(old(reasons), a)
    {
      if a.key !in reasons {
        reasons := reasons[a.key := Aggregate(0, a.firstSeen)];
      }
      var r := reasons[a.key];
      r := r.(count := r.count + 1);
      if a.firstSeen < r.firstSeen {
        r := r.(firstSeen := a.firstSeen);
      }
      reasons := reasons[a.key := r];
    }
  }

  function Noted(reasons: map<Key, Aggregate>, a: Arrival): map<Key, Aggregate> {
    var r := if a.key in reasons then reasons[a.key] else Aggregate(0, a.firstSeen);
    reasons[a.key := Aggregate(r.count + 1, if a.firstSeen < r.firstSeen then a.firstSeen else r.firstSeen)]
  }

  ghost predicate Totals(reasons: map<Key, Aggregate>, stream: seq<Arrival>) {
    && reasons.Keys == KeysOf(stream)
    && (forall k :: k in reasons ==> reasons[k].count == CountOf(stream, k) && IsEarliest(stream, k, reasons[k].firstSeen))
  }

  lemma {:induction false} NotedCovers(reasons: map<Key, Aggregate>, stream: seq<Arrival>, a: Arrival)
    requires Totals(reasons, stream)
    ensures Totals(Noted(reasons, a), stream + [a]) && Noted(reasons, a).Keys == reasons.Keys + {a.key}
  {
    KeysOfMore(stream, a);
    var noted := Noted(reasons, a);
    forall k | k in noted ensures noted[k].count == CountOf(stream + [a], k) && IsEarliest(stream + [a], k, noted[k].firstSeen) {
      OneMore(stream, a, k, if k in reasons then reasons[k].firstSeen else a.firstSeen);
    }
  }

  lemma {:induction false} KeysOfMore(stream: seq<Arrival>, a: Arrival)
    ensures KeysOf(stream + [a]) == KeysOf(stream) + {a.key}
  {
    assert forall b :: b in stream + [a] <==> b in stream || b == a;
    assert a in stream + [a];
  }

  lemma {:induction false} CountOfAbsent(stream: seq<Arrival>, k: Key)
    requires k !in KeysOf(stream)
    ensures CountOf(stream, k) == 0
  {
    if stream != [] {
      assert stream[|stream| - 1] in stream;
      assert forall b :: b in stream[..|stream| - 1] ==> b in stream;
      CountOfAbsent(stream[..|stream| - 1], k);
    }
  }

  lemma {:induction false} OneMore(stream: seq<Arrival>, a: Arrival, k: Key, t: int)
    requires k in KeysOf(stream) ==> IsEarliest(stream, k, t)
    requires k !in KeysOf(stream) ==> k == a.key && t == a.firstSeen
    ensures CountOf(stream + [a], k) == CountOf(stream, k) + if a.key == k then 1 else 0
    ensures k !in KeysOf(stream) ==> CountOf(stream, k) == 0
    ensures IsEarliest(stream + [a], k, if a.key == k && a.firstSeen < t then a.firstSeen else t)
  {
    var more := stream + [a];
    assert more[..|more| - 1] == stream;
    assert more[|stream|] == a;
    if k in KeysOf(stream) {
      var i :| 0 <= i < |stream| && stream[i].key == k && stream[i].firstSeen == t;
      assert more[i].key == k && more[i].firstSeen == t;
    } else {
      CountOfAbsent(stream, k);
      assert forall i :: 0 <= i < |stream| ==> stream[i] in stream && stream[i].key != k;
    }
  }

  // ---------------------------------------------------------------- sorting first

  /** Sorting all the reasons, by code and then by message. */
  ghost predicate SortedReasons(s: seq<Key>, keys: set<Key>) {
    && AllDistinct(s) && (set k | k in s) == keys
    && forall i, j :: 0 <= i < j < |s| ==>
         Below(s[i].code, s[j].code) || (s[i].code == s[j].code && !Below(s[j].message, s[i].message))
  }

  lemma {:induction false} SortedMeansNotLess(s: seq<Key>, keys: set<Key>)
    requires SortedReasons(s, keys)
    ensures forall i, j :: 0 <= i < j < |s| ==> !Less(s[j], s[i])
  {
    forall i, j | 0 <= i < j < |s| ensures !Less(s[j], s[i]) {
      Total(s[i].code, s[j].code);
    }
  }

  lemma {:induction false} SortThenTakeIsSmallest(s: seq<Key>, keys: set<Key>)
    requires SortedReasons(s, keys)
    ensures Smallest(s[..Min(REASON_LIMIT, |s|)], keys)
  {
    DistinctSize(s);
    SortedMeansNotLess(s, keys);
    var n := Min(REASON_LIMIT, |s|);
    forall k, r | k in keys && k !in s[..n] && r in s[..n] ensures !Less(k, r) {
      assert k in s && s == s[..n] + s[n..];
      var j :| 0 <= j < |s| - n && s[n..][j] == k;
      var i :| 0 <= i < n && s[..n][i] == r;
      assert !Less(s[n + j], s[i]);
    }
  }

  function WithPair(kept: seq<Key>, p: Key): set<Key> { set k | k in kept && SamePair(k, p) }

  function WithPairIn(s: set<Key>, p: Key): set<Key> { set k | k in s && SamePair(k, p) }

  /** Whatever one choice of the smallest has and another has not, they tie. */
  lemma {:induction false} DifferencesTie(a: seq<Key>, b: seq<Key>, keys: set<Key>, x: Key, y: Key)
    requires Smallest(a, keys) && Smallest(b, keys)
    requires x in a && x !in b && y in b && y !in a
    ensures SamePair(x, y)
  {
    LessIsWeakOrder(x, y, y);
  }

  lemma {:induction false} SplitSizes(s: set<Key>, t: set<Key>)
    ensures |s| == |s - t| + |s * t| && |t| == |t - s| + |s * t|
  {
    assert s == (s - t) + s * t && t == (t - s) + s * t;
  }

  lemma {:induction false} SameSizes(a: seq<Key>, b: seq<Key>, keys: set<Key>)
    requires Smallest(a, keys) && Smallest(b, keys)
    ensures var sa, sb := set k | k in a, set k | k in b; |sa - sb| == |sb - sa|
  {
    DistinctSize(a);
    DistinctSize(b);
    SplitSizes(set k | k in a, set k | k in b);
  }

  lemma {:induction false} PairsSplit(s: set<Key>, both: set<Key>, p: Key)
    requires both <= s && forall x, y :: x in s - both && y in s - both ==> SamePair(x, y)
    ensures |WithPairIn(s, p)| == |WithPairIn(both, p)| + if exists x :: x in s - both && SamePair(x, p) then |s - both| else 0
  {
    var only := s - both;
    if x :| x in only && SamePair(x, p) {
      assert WithPairIn(s, p) == WithPairIn(both, p) + only;
    } else {
      assert WithPairIn(s, p) == WithPairIn(both, p);
    }
  }

  /** The retained pairs of code and message, with how often each occurs, do not
      depend on how the smallest were found. */
  lemma {:induction false} SmallestAreUnique(a: seq<Key>, b: seq<Key>, keys: set<Key>, p: Key)
    requires Smallest(a, keys) && Smallest(b, keys)
    ensures |WithPair(a, p)| == |WithPair(b, p)|
  {
    var sa, sb := set k | k in a, set k | k in b;
    var both := sa * sb;
    SameSizes(a, b, keys);
    assert sa - both == sa - sb && sb - both == sb - sa;
    forall x, y | x in sa - sb && y in sb - sa ensures SamePair(x, y) {
      DifferencesTie(a, b, keys, x, y);
    }
    if sb - sa == {} {
      assert sa - sb == {};
    } else {
      var y :| y in sb - sa;
      var x :| x in sa - sb;
      assert forall k :: k in sa - sb ==> SamePair(k, y);
      assert forall k :: k in sb - sa ==> SamePair(x, k);
    }
    PairsSplit(sa, both, p);
    PairsSplit(sb, both, p);
    assert WithPair(a, p) == WithPairIn(sa, p) && WithPair(b, p) == WithPairIn(sb, p);
  }

  /** Online retention refines sort-then-take, whatever the order of arrival. */
  lemma {:induction false} OnlineIsSortThenTake(table: ReasonTable, stream: seq<Arrival>, sorted: seq<Key>, p: Key)
    requires table.Covers(stream) && SortedReasons(sorted, KeysOf(stream))
    ensures |WithPair(table.retained, p)| == |WithPair(if |sorted| > 10 then sorted[..10] else sorted, p)|
    ensures forall k :: k in table.retained ==>
              table.reasons[k].count == CountOf(stream, k) && IsEarliest(stream, k, table.reasons[k].firstSeen)
  {
    SortThenTakeIsSmallest(sorted, KeysOf(stream));
    SmallestAreUnique(table.retained, sorted[..Min(REASON_LIMIT, |sorted|)], KeysOf(stream), p);
    assert sorted[..|sorted|] == sorted;
  }

  // ---------------------------------------------------------------- pods

  datatype ReasonClass = CapacityReason | VolumeBinding | OtherReason

  datatype Parsed = Parsed(code: string, kind: ReasonClass, raw: string)

  /** A PodScheduled condition; other conditions are not looked at. `isFalse`
      says that its status is False. */
  datatype Condition = Condition(isFalse: bool, reason: string, message: string, firstSeen: int)

  datatype Pod = Pod(gates: seq<string>, conditions: seq<Condition>)

  datatype DemandState = Blocked | Held | Unknown | AwaitingCapacity | WaitingForScheduler

  const GATES_SOURCE := "pod.spec.schedulingGates"
  const CONDITION_SOURCE := "pod.status.conditions.PodScheduled"
  const GATED := "SchedulingGated"
  const UNSCHEDULABLE := "Unschedulable"

  function StateOfParsed(parsed: seq<Parsed>): DemandState {
    if exists p :: p in parsed && p.kind.VolumeBinding? then Blocked
    else if exists p :: p in parsed && p.kind.OtherReason? then Unknown
    else if parsed != [] then AwaitingCapacity
    else Unknown
  }

  /** What one condition says about the group. */
  function ConditionState(c: Condition, parse: string -> seq<Parsed>): DemandState {
    if !c.isFalse then Unknown
    else if c.reason == GATED then Held
    else if c.reason != UNSCHEDULABLE then Unknown
    else StateOfParsed(parse(c.message))
  }

  function ParsedArrivals(parsed: seq<Parsed>, firstSeen: int): seq<Arrival> {
    seq(|parsed|, i requires 0 <= i < |parsed| => Arrival(Key(CONDITION_SOURCE, parsed[i].code, parsed[i].raw), firstSeen))
  }

  function ConditionArrivals(c: Condition, parse: string -> seq<Parsed>): seq<Arrival> {
    if !c.isFalse then []
    else if c.reason != UNSCHEDULABLE && c.reason != GATED then
      [Arrival(Key(CONDITION_SOURCE, if c.reason == "" then "PodScheduledFalse" else c.reason, c.message), c.firstSeen)]
    else if c.reason == GATED || parse(c.message) == [] then [Arrival(Key(CONDITION_SOURCE, c.reason, c.message), c.firstSeen)]
    else ParsedArrivals(parse(c.message), c.firstSeen)
  }

  function Joined(names: seq<string>): string {
    if names == [] then "" else if |names| == 1 then names[0] else names[0] + ", " + Joined(names[1..])
  }

  function GateArrival(pod: Pod, observedAt: int): Arrival {
    Arrival(Key(GATES_SOURCE, GATED, Joined(Sorted(pod.gates))), observedAt)
  }

  function ConditionsArrivals(cs: seq<Condition>, parse: string -> seq<Parsed>): seq<Arrival> {
    if cs == [] then [] else ConditionsArrivals(cs[..|cs| - 1], parse) + ConditionArrivals(cs[|cs| - 1], parse)
  }

  function PodArrivals(pod: Pod, observedAt: int, parse: string -> seq<Parsed>): seq<Arrival> {
    if pod.gates != [] then [GateArrival(pod, observedAt)] else ConditionsArrivals(pod.conditions, parse)
  }

  function Stream(pods: seq<Pod>, observedAt: int, parse: string -> seq<Parsed>): seq<Arrival> {
    if pods == [] then []
    else Stream(pods[..|pods| - 1], observedAt, parse) + PodArrivals(pods[|pods| - 1], observedAt, parse)
  }

  /** Some pod says the group is in this state. */
  ghost predicate Signals(pods: seq<Pod>, parse: string -> seq<Parsed>, state: DemandState) {
    exists pod :: pod in pods && PodSignals(pod, parse, state)
  }

  ghost predicate PodSignals(pod: Pod, parse: string -> seq<Parsed>, state: DemandState) {
    if pod.gates != [] then state.Held?
    else exists c :: c in pod.conditions && ConditionState(c, parse) == state
  }

  // ---------------------------------------------------------------- what the pods say

  predicate Unscheduled(c: Condition) { c.isFalse && c.reason == UNSCHEDULABLE }

  /** An ungated pod waits for a volume. */
  ghost predicate SaysBlocked(pod: Pod, parse: string -> seq<Parsed>) {
    pod.gates == [] && exists c, p :: c in pod.conditions && Unscheduled(c) && p in parse(c.message) && p.kind.VolumeBinding?
  }

  /** A pod is gated, or says it is. */
  ghost predicate SaysHeld(pod: Pod) {
    pod.gates != [] || exists c :: c in pod.conditions && c.isFalse && c.reason == GATED
  }

  /** An ungated pod's condition is not that it could not be scheduled, or it
      gives no reason, or one that is neither capacity nor a volume. */
  ghost predicate SaysUnknown(pod: Pod, parse: string -> seq<Parsed>) {
    pod.gates == [] && exists c :: c in pod.conditions && Unexplained(c, parse)
  }

  ghost predicate Unexplained(c: Condition, parse: string -> seq<Parsed>) {
    || !c.isFalse
    || c.reason !in {GATED, UNSCHEDULABLE}
    || (c.reason == UNSCHEDULABLE && parse(c.message) == [])
    || (c.reason == UNSCHEDULABLE && (exists p :: p in parse(c.message) && p.kind.OtherReason?)
        && forall p :: p in parse(c.message) ==> !p.kind.VolumeBinding?)
  }

  /** An ungated pod could not be scheduled for want of capacity alone. */
  ghost predicate SaysAwaiting(pod: Pod, parse: string -> seq<Parsed>) {
    pod.gates == [] && exists c :: c in pod.conditions && Unscheduled(c) && parse(c.message) != [] &&
                                   forall p :: p in parse(c.message) ==> p.kind.CapacityReason?
  }

  lemma {:induction false} ConditionMeans(c: Condition, parse: string -> seq<Parsed>)
    ensures ConditionState(c, parse).Blocked? <==> Unscheduled(c) && exists p :: p in parse(c.message) && p.kind.VolumeBinding?
    ensures ConditionState(c, parse).Held? <==> c.isFalse && c.reason == GATED
    ensures ConditionState(c, parse).Unknown? <==> Unexplained(c, parse)
    ensures ConditionState(c, parse).AwaitingCapacity? <==>
            Unscheduled(c) && parse(c.message) != [] && forall p :: p in parse(c.message) ==> p.kind.CapacityReason?
  {
    assert parse(c.message) != [] ==> parse(c.message)[0] in parse(c.message);
    assert forall p :: p in parse(c.message) ==> p.kind.VolumeBinding? || p.kind.OtherReason? || p.kind.CapacityReason?;
  }

  lemma {:induction false} PodSays(pod: Pod, parse: string -> seq<Parsed>)
    ensures PodSignals(pod, parse, Blocked) <==> SaysBlocked(pod, parse)
    ensures PodSignals(pod, parse, Held) <==> SaysHeld(pod)
    ensures PodSignals(pod, parse, Unknown) <==> SaysUnknown(pod, parse)
    ensures PodSignals(pod, parse, AwaitingCapacity) <==> SaysAwaiting(pod, parse)
  {
    forall c | c in pod.conditions
      ensures ConditionState(c, parse).Blocked? <==> Unscheduled(c) && exists p :: p in parse(c.message) && p.kind.VolumeBinding?
      ensures ConditionState(c, parse).Held? <==> c.isFalse && c.reason == GATED
      ensures ConditionState(c, parse).Unknown? <==> Unexplained(c, parse)
      ensures ConditionState(c, parse).AwaitingCapacity? <==>
              Unscheduled(c) && parse(c.message) != [] && forall p :: p in parse(c.message) ==> p.kind.CapacityReason?
    {
      ConditionMeans(c, parse);
    }
  }

  lemma {:induction false} PodsSay(pods: seq<Pod>, parse: string -> seq<Parsed>)
    ensures Signals(pods, parse, Blocked) <==> exists pod :: pod in pods && SaysBlocked(pod, parse)
    ensures Signals(pods, parse, Held) <==> exists pod :: pod in pods && SaysHeld(pod)
    ensures Signals(pods, parse, Unknown) <==> exists pod :: pod in pods && SaysUnknown(pod, parse)
    ensures Signals(pods, parse, AwaitingCapacity) <==> exists pod :: pod in pods && SaysAwaiting(pod, parse)
  {
    forall pod | pod in pods
      ensures PodSignals(pod, parse, Blocked) <==> SaysBlocked(pod, parse)
      ensures PodSignals(pod, parse, Held) <==> SaysHeld(pod)
      ensures PodSignals(pod, parse, Unknown) <==> SaysUnknown(pod, parse)
      ensures PodSignals(pod, parse, AwaitingCapacity) <==> SaysAwaiting(pod, parse)
    {
      PodSays(pod, parse);
    }
  }

  // ---------------------------------------------------------------- which reasons are read

  /** A condition's reasons: those its message parses into, or else its message
      under its own reason. */
  predicate Gives(c: Condition, parse: string -> seq<Parsed>, a: Arrival) {
    && c.isFalse && a.key.source == CONDITION_SOURCE && a.firstSeen == c.firstSeen
    && if c.reason == UNSCHEDULABLE && parse(c.message) != [] then
         exists p :: p in parse(c.message) && a.key.code == p.code && a.key.message == p.raw
       else a.key.code == (if c.reason == "" then "PodScheduledFalse" else c.reason) && a.key.message == c.message
  }

  predicate Reports(pod: Pod, observedAt: int, parse: string -> seq<Parsed>, a: Arrival) {
    if pod.gates != [] then a == Arrival(Key(GATES_SOURCE, GATED, Joined(Sorted(pod.gates))), observedAt)
    else exists c :: c in pod.conditions && Gives(c, parse, a)
  }

  lemma {:induction false} ConditionGives(c: Condition, parse: string -> seq<Parsed>, a: Arrival)
    ensures a in ConditionArrivals(c, parse) <==> Gives(c, parse, a)
  {
    var parsed := parse(c.message);
    if Unscheduled(c) && parsed != [] {
      if p :| p in parsed && a.key.code == p.code && a.key.message == p.raw {
        var i :| 0 <= i < |parsed| && parsed[i] == p;
        assert Gives(c, parse, a) ==> ParsedArrivals(parsed, c.firstSeen)[i] == a;
      }
    }
  }

  lemma {:induction false} ConditionsGive(cs: seq<Condition>, parse: string -> seq<Parsed>, a: Arrival)
    ensures a in ConditionsArrivals(cs, parse) <==> exists c :: c in cs && Gives(c, parse, a)
  {
    if cs != [] {
      var init, last := cs[..|cs| - 1], cs[|cs| - 1];
      ConditionsGive(init, parse, a);
      ConditionGives(last, parse, a);
      assert forall c :: c in cs <==> c in init || c == last;
    }
  }

  lemma {:induction false} PodGives(pod: Pod, observedAt: int, parse: string -> seq<Parsed>, a: Arrival)
    ensures a in PodArrivals(pod, observedAt, parse) <==> Reports(pod, observedAt, parse, a)
  {
    ConditionsGive(pod.conditions, parse, a);
  }

  predicate AnyReports(pods: seq<Pod>, observedAt: int, parse: string -> seq<Parsed>, a: Arrival) {
    exists pod :: pod in pods && Reports(pod, observedAt, parse, a)
  }

  lemma {:induction false} AnyReportsMore(pods: seq<Pod>, observedAt: int, parse: string -> seq<Parsed>, a: Arrival)
    requires pods != []
    ensures AnyReports(pods, observedAt, parse, a) <==>
            AnyReports(pods[..|pods| - 1], observedAt, parse, a) || Reports(pods[|pods| - 1], observedAt, parse, a)
  {
    assert forall pod :: pod in pods <==> pod in pods[..|pods| - 1] || pod == pods[|pods| - 1];
  }

  /** The stream of reasons holds what the pods report and nothing else. */
  lemma {:induction false} ReasonsAreReported(pods: seq<Pod>, observedAt: int, parse: string -> seq<Parsed>, a: Arrival)
    ensures a in Stream(pods, observedAt, parse) <==> AnyReports(pods, observedAt, parse, a)
  {
    if pods != [] {
      ReasonsAreReported(pods[..|pods| - 1], observedAt, parse, a);
      PodGives(pods[|pods| - 1], observedAt, parse, a);
      AnyReportsMore(pods, observedAt, parse, a);
    }
  }

  /** How many reasons a condition gives, and a pod, and the pods. */
  function Given(c: Condition, parse: string -> seq<Parsed>): nat {
    if !c.isFalse then 0 else if Unscheduled(c) && parse(c.message) != [] then |parse(c.message)| else 1
  }

  function GivenBy(cs: seq<Condition>, parse: string -> seq<Parsed>): nat {
    if cs == [] then 0 else GivenBy(cs[..|cs| - 1], parse) + Given(cs[|cs| - 1], parse)
  }

  function Reported(pods: seq<Pod>, parse: string -> seq<Parsed>): nat {
    if pods == [] then 0
    else
      var last := pods[|pods| - 1];
      Reported(pods[..|pods| - 1], parse) + if last.gates != [] then 1 else GivenBy(last.conditions, parse)
  }

  lemma {:induction false} ConditionsGiveEach(cs: seq<Condition>, parse: string -> seq<Parsed>)
    ensures |ConditionsArrivals(cs, parse)| == GivenBy(cs, parse)
  {
    if cs != [] {
      ConditionsGiveEach(cs[..|cs| - 1], parse);
    }
  }

  /** And each of them once. */
  lemma {:induction false} ReasonsAreReadOnce(pods: seq<Pod>, observedAt: int, parse: string -> seq<Parsed>)
    ensures |Stream(pods, observedAt, parse)| == Reported(pods, parse)
  {
    if pods != [] {
      ReasonsAreReadOnce(pods[..|pods| - 1], observedAt, parse);
      ConditionsGiveEach(pods[|pods| - 1].conditions, parse);
    }
  }

  // ---------------------------------------------------------------- the group

  /** The flags gathered so far. */
  datatype Flags = Flags(blocked: bool, held: bool, unknown: bool, awaiting: bool) {
    function With(state: DemandState): Flags {
      Flags(blocked || state.Blocked?, held || state.Held?, unknown || state.Unknown?, awaiting || state.AwaitingCapacity?)
    }

    function Or(other: Flags): Flags {
      Flags(blocked || other.blocked, held || other.held, unknown || other.unknown, awaiting || other.awaiting)
    }
  }

  ghost function PodFlags(pod: Pod, parse: string -> seq<Parsed>): Flags {
    Flags(PodSignals(pod, parse, Blocked), PodSignals(pod, parse, Held), PodSignals(pod, parse, Unknown), PodSignals(pod, parse, AwaitingCapacity))
  }

  ghost function GroupFlags(pods: seq<Pod>, parse: string -> seq<Parsed>): Flags {
    Flags(Signals(pods, parse, Blocked), Signals(pods, parse, Held), Signals(pods, parse, Unknown), Signals(pods, parse, AwaitingCapacity))
  }

  method AddAll(table: ReasonTable, arrivals: seq<Arrival>, ghost stream: seq<Arrival>)
    requires table.Covers(stream)
    modifies table
    ensures table.Covers(stream + arrivals)
  {
    var i := 0;
    assert stream + arrivals[..0] == stream;
    while i < |arrivals|
      invariant 0 <= i <= |arrivals| && table.Covers(stream + arrivals[..i])
    {
      table.AddReason(arrivals[i], stream + arrivals[..i]);
      assert stream + arrivals[..i + 1] == stream + arrivals[..i] + [arrivals[i]];
      i := i + 1;
    }
    assert arrivals[..i] == arrivals;
  }

  lemma {:induction false} ArrivalsOfNext(cs: seq<Condition>, i: nat, parse: string -> seq<Parsed>, stream: seq<Arrival>)
    requires i < |cs|
    ensures stream + ConditionsArrivals(cs[..i], parse) + ConditionArrivals(cs[i], parse) == stream + ConditionsArrivals(cs[..i + 1], parse)
  {
    assert cs[..i + 1][..i] == cs[..i];
  }

  lemma {:induction false} FlagsOfNext(cs: seq<Condition>, i: nat, parse: string -> seq<Parsed>)
    requires i < |cs|
    ensures PodFlags(Pod([], cs[..i + 1]), parse) == PodFlags(Pod([], cs[..i]), parse).With(ConditionState(cs[i], parse))
  {
    assert cs[..i] + [cs[i]] == cs[..i + 1];
    OneMoreCondition(cs[..i], cs[i], parse);
  }

  method ReadConditions(table: ReasonTable, cs: seq<Condition>, parse: string -> seq<Parsed>, ghost stream: seq<Arrival>) returns (saw: Flags)
    requires table.Covers(stream)
    modifies table
    ensures table.Covers(stream + ConditionsArrivals(cs, parse))
    ensures saw == PodFlags(Pod([], cs), parse)
  {
    saw := Flags(false, false, false, false);
    ghost var seen := stream;
    var i := 0;
    assert stream + ConditionsArrivals(cs[..0], parse) == stream;
    while i < |cs|
      invariant 0 <= i <= |cs|
      invariant seen == stream + ConditionsArrivals(cs[..i], parse) && table.Covers(seen)
      invariant saw == PodFlags(Pod([], cs[..i]), parse)
    {
      ArrivalsOfNext(cs, i, parse, stream);
      FlagsOfNext(cs, i, parse);
      AddAll(table, ConditionArrivals(cs[i], parse), seen);
      seen := seen + ConditionArrivals(cs[i], parse);
      saw := saw.With(ConditionState(cs[i], parse));
      i := i + 1;
    }
    assert cs[..i] == cs;
  }

  lemma {:induction false} OneMoreCondition(cs: seq<Condition>, c: Condition, parse: string -> seq<Parsed>)
    ensures PodFlags(Pod([], cs + [c]), parse) == PodFlags(Pod([], cs), parse).With(ConditionState(c, parse))
  {
    assert forall d :: d in cs + [c] <==> d in cs || d == c;
  }

  lemma {:induction false} OneMorePod(pods: seq<Pod>, pod: Pod, parse: string -> seq<Parsed>)
    ensures GroupFlags(pods + [pod], parse) == GroupFlags(pods, parse).Or(PodFlags(pod, parse))
  {
    assert forall q :: q in pods + [pod] <==> q in pods || q == pod;
  }

  /** The group's state by precedence, and its reasons. */
  method Populate(pods: seq<Pod>, observedAt: int, parse: string -> seq<Parsed>) returns (state: DemandState, table: ReasonTable)
    ensures fresh(table) && table.Covers(Stream(pods, observedAt, parse))
    ensures state ==
            if exists pod :: pod in pods && SaysBlocked(pod, parse) then Blocked
            else if exists pod :: pod in pods && SaysHeld(pod) then Held
            else if exists pod :: pod in pods && SaysUnknown(pod, parse) then Unknown
            else if exists pod :: pod in pods && SaysAwaiting(pod, parse) then AwaitingCapacity
            else WaitingForScheduler
  {
    table := new ReasonTable();
    var saw := Flags(false, false, false, false);
    var i := 0;
    while i < |pods|
      invariant 0 <= i <= |pods| && fresh(table)
      invariant table.Covers(Stream(pods[..i], observedAt, parse))
      invariant saw == GroupFlags(pods[..i], parse)
    {
      var pod := pods[i];
      ghost var stream := Stream(pods[..i], observedAt, parse);
      assert pods[..i + 1][..i] == pods[..i] && pods[..i] + [pod] == pods[..i + 1];
      OneMorePod(pods[..i], pod, parse);
      var signal: Flags;
      if pod.gates != [] {
        signal := Flags(false, true, false, false);
        AddAll(table, [GateArrival(pod, observedAt)], stream);
      } else {
        signal := ReadConditions(table, pod.conditions, parse, stream);
        assert pod == Pod([], pod.conditions);
      }
      saw := saw.Or(signal);
      i := i + 1;
    }
    assert pods[..i] == pods;
    PodsSay(pods, parse);
    state := if saw.blocked then Blocked else if saw.held then Held else if saw.unknown then Unknown
             else if saw.awaiting then AwaitingCapacity else WaitingForScheduler;
  }
}
