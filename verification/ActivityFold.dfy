/** Folding a stream of cluster events into capacity episodes.

    How an event is classified is a parameter; what is modelled is which episode
    it belongs to, what it does to that episode, and what the episode ends as. */
module ActivityFold {
  import opened Wrappers
  import opened Strings

  datatype ActivityType = Provision | LaunchFailure | RegistrationFailure | InitializationFailure
    | Disruption | Interruption | Termination | ConfigChange

  /** What a single event says. */
  datatype Signal = Observed | Open | Blocked | Completed | Failed

  datatype State = Is(signal: Signal) | Ended

  datatype Classification = Classification(kind: ActivityType, signal: Signal, reason: string)

  const DELETED := "nodeclaim_deleted"
  const DELETED_CAUSE_UNKNOWN := "nodeclaim_deleted_cause_unknown"

  datatype Event = Event(
    timestamp: int, num: int, id: string, uid: string, resource: string, blankName: bool,
    createdAt: Option<int>, correlationID: string)

  /** What an event is about: a UID, or a resource whose UID is not known. */
  datatype Identity = ByUid(uid: string) | ByResource(resource: string)

  /** A correlation id and an event id are not told apart. */
  datatype AttemptID = ByName(name: string) | BySequence(num: int) | ByTime(timestamp: int)

  /** One episode per claim for the provisioning family, one per attempt otherwise. */
  datatype EpisodeKey = ProvisionOf(identity: Identity) | AttemptOf(kind: ActivityType, identity: Identity, attempt: AttemptID)

  datatype Record = Record(
    kind: ActivityType, state: State, startedAt: int, maxSeq: int, terminalAt: Option<int>, terminalReason: string, evidence: nat)

  // ---------------------------------------------------------------- identity

  /** The known UIDs of resources: those whose events never disagree. */
  ghost predicate KnownUids(events: seq<Event>, uids: map<string, string>) {
    && (forall r :: r in uids ==> Mentions(events, r, uids[r]))
    && (forall r, u :: Mentions(events, r, u) ==> (r in uids <==> forall v :: Mentions(events, r, v) ==> v == u))
  }

  ghost predicate Mentions(events: seq<Event>, resource: string, uid: string) {
    uid != "" && exists i :: 0 <= i < |events| && events[i].resource == resource && events[i].uid == uid
  }

  /** The first pass: one UID per resource, and the resources with several. */
  ghost predicate Scanned(events: seq<Event>, uids: map<string, string>, ambiguous: set<string>) {
    && (forall r :: r in uids ==> Mentions(events, r, uids[r]))
    && (forall r, u :: Mentions(events, r, u) ==> r in uids && (u != uids[r] ==> r in ambiguous))
    && (forall r :: r in ambiguous ==> r in uids && exists v :: Mentions(events, r, v) && v != uids[r])
  }

  lemma {:induction false} MentionsMore(events: seq<Event>, e: Event, resource: string, uid: string)
    ensures Mentions(events + [e], resource, uid) <==>
            Mentions(events, resource, uid) || (uid != "" && e.resource == resource && e.uid == uid)
  {
    var more := events + [e];
    assert more[|events|] == e;
    if i :| 0 <= i < |events| && events[i].resource == resource && events[i].uid == uid {
      assert more[i].resource == resource && more[i].uid == uid;
    }
  }

  lemma {:induction false} ScannedMore(events: seq<Event>, e: Event, uids: map<string, string>, ambiguous: set<string>)
    requires Scanned(events, uids, ambiguous)
    ensures e.uid == "" ==> Scanned(events + [e], uids, ambiguous)
    ensures e.uid != "" && e.resource in uids && uids[e.resource] != e.uid ==> Scanned(events + [e], uids, ambiguous + {e.resource})
    ensures e.uid != "" && (e.resource in uids ==> uids[e.resource] == e.uid) ==> Scanned(events + [e], uids[e.resource := e.uid], ambiguous)
  {
    forall r, u ensures Mentions(events + [e], r, u) <==> Mentions(events, r, u) || (u != "" && e.resource == r && e.uid == u) {
      MentionsMore(events, e, r, u);
    }
    forall r | r in ambiguous ensures exists v :: Mentions(events + [e], r, v) && v != uids[r] {
      var v :| Mentions(events, r, v) && v != uids[r];
      assert Mentions(events + [e], r, v);
    }
    if e.uid != "" {
      assert Mentions(events + [e], e.resource, e.uid);
    }
  }

  method CollectUids(events: seq<Event>) returns (known: map<string, string>)
    ensures KnownUids(events, known)
  {
    var uids: map<string, string> := map[];
    var ambiguous: set<string> := {};
    var i := 0;
    while i < |events|
      invariant 0 <= i <= |events| && Scanned(events[..i], uids, ambiguous)
    {
      var e := events[i];
      assert events[..i + 1] == events[..i] + [e];
      ScannedMore(events[..i], e, uids, ambiguous);
      i := i + 1;
      if e.uid != "" {
        if e.resource in uids && uids[e.resource] != e.uid {
          ambiguous := ambiguous + {e.resource};
        } else {
          uids := uids[e.resource := e.uid];
        }
      }
    }
    assert events[..i] == events;
    known := uids - ambiguous;
  }

  /** The events settle which UIDs are known. */
  lemma {:induction false} KnownUidsAreDetermined(events: seq<Event>, a: map<string, string>, b: map<string, string>)
    requires KnownUids(events, a) && KnownUids(events, b)
    ensures a == b
  {
    forall r ensures (r in a <==> r in b) && (r in a && r in b ==> a[r] == b[r]) {
      if r in a { assert Mentions(events, r, a[r]); }
      if r in b { assert Mentions(events, r, b[r]); }
    }
  }

  function UidOf(e: Event, uids: map<string, string>): string {
    if e.uid != "" then e.uid else if e.resource in uids then uids[e.resource] else ""
  }

  function IdentityOf(e: Event, uids: map<string, string>): Identity {
    if UidOf(e, uids) != "" then ByUid(UidOf(e, uids)) else ByResource(e.resource)
  }

  // ---------------------------------------------------------------- episodes

  predicate AttemptScoped(c: Classification) {
    c.signal.Blocked? || !(c.kind.Provision? || c.kind.LaunchFailure? || c.kind.RegistrationFailure? || c.kind.InitializationFailure?)
  }

  function Attempt(e: Event): AttemptID {
    if e.correlationID != "" then ByName(e.correlationID)
    else if e.id != "" then ByName(e.id)
    else if e.num > 0 then BySequence(e.num)
    else ByTime(e.timestamp)
  }

  function KeyOf(e: Event, c: Classification, uids: map<string, string>): EpisodeKey {
    if AttemptScoped(c) then AttemptOf(c.kind, IdentityOf(e, uids), Attempt(e)) else ProvisionOf(IdentityOf(e, uids))
  }

  function StartOf(e: Event, c: Classification): (start: int)
    ensures start <= e.timestamp
  {
    if !AttemptScoped(c) && e.createdAt.Some? && e.createdAt.value < e.timestamp then e.createdAt.value else e.timestamp
  }

  function Rank(s: State): nat {
    match s
    case Is(Failed) => 6
    case Is(Blocked) => 5
    case Is(Completed) => 4
    case Ended => 3
    case Is(Open) => 2
    case Is(Observed) => 1
  }

  predicate Terminal(s: Signal) { s.Completed? || s.Failed? }

  function NewRecord(e: Event, c: Classification): Record {
    Record(c.kind, Is(c.signal), StartOf(e, c), 0, None, "", 0)
  }

  /** What an event does to its own episode. */
  function Fed(r: Record, e: Event, c: Classification): Record {
    var r1 := if StartOf(e, c) < r.startedAt then r.(startedAt := StartOf(e, c)) else r;
    var r2 :=
      if Terminal(c.signal) then
        if r1.terminalAt.Some? && r1.state == Is(Completed) && c.signal.Failed? then r1
        else r1.(state := Is(c.signal), kind := c.kind, terminalAt := Some(e.timestamp), terminalReason := c.reason)
      else if Rank(Is(c.signal)) > Rank(r1.state) then r1.(state := Is(c.signal), kind := c.kind)
      else r1;
    r2.(maxSeq := if e.num > r2.maxSeq then e.num else r2.maxSeq, evidence := r2.evidence + 1)
  }

  /** A deleted claim ends its provisioning if nothing terminal was seen. The
      episode keeps its own sequence position. */
  function EndedBy(r: Record, e: Event): Record {
    if r.terminalAt.Some? then r
    else r.(state := Ended, kind := Provision, terminalAt := Some(e.timestamp), terminalReason := DELETED_CAUSE_UNKNOWN,
            evidence := r.evidence + 1)
  }

  type Records = map<EpisodeKey, Record>

  function Step(records: Records, e: Event, classify: Event -> Option<Classification>, uids: map<string, string>): Records {
    if e.blankName || classify(e).None? then records
    else
      var c := classify(e).value;
      var key := KeyOf(e, c, uids);
      var fed := records[key := Fed(if key in records then records[key] else NewRecord(e, c), e, c)];
      var provision := ProvisionOf(IdentityOf(e, uids));
      if c.reason == DELETED && provision in fed then fed[provision := EndedBy(fed[provision], e)] else fed
  }

  function Folded(events: seq<Event>, classify: Event -> Option<Classification>, uids: map<string, string>): Records {
    if events == [] then map[]
    else Step(Folded(events[..|events| - 1], classify, uids), events[|events| - 1], classify, uids)
  }

  // ---------------------------------------------------------------- ordering

  predicate Before(a: Event, b: Event) {
    if a.timestamp != b.timestamp then a.timestamp < b.timestamp
    else if a.num != b.num then a.num < b.num
    else Below(a.id, b.id)
  }

  function InsertedEvent(s: seq<Event>, x: Event): seq<Event> {
    if s == [] then [x] else if Before(s[0], x) then [s[0]] + InsertedEvent(s[1..], x) else [x] + s
  }

  function Ordered(s: seq<Event>): seq<Event> {
    if s == [] then [] else InsertedEvent(Ordered(s[1..]), s[0])
  }

  /** By time, events of one time by sequence number, and those of one number by id. */
  ghost predicate Chronological(s: seq<Event>) {
    forall i, j :: 0 <= i < j < |s| ==> NotAfter(s[i], s[j])
  }

  predicate NotAfter(a: Event, b: Event) {
    a.timestamp < b.timestamp ||
    (a.timestamp == b.timestamp && (a.num < b.num || (a.num == b.num && !Below(b.id, a.id))))
  }

  lemma {:induction false} NotAfterIsTotal(a: Event, b: Event, c: Event)
    ensures Before(a, b) ==> NotAfter(a, b)
    ensures !Before(a, b) ==> NotAfter(b, a)
    ensures NotAfter(a, b) && NotAfter(b, c) ==> NotAfter(a, c)
  {
    Total(a.id, b.id);
    Total(b.id, c.id);
    Total(a.id, c.id);
    if Below(c.id, a.id) && Below(a.id, b.id) { Transitive(c.id, a.id, b.id); }
    if Below(b.id, c.id) && Below(c.id, a.id) { Transitive(b.id, c.id, a.id); }
  }

  lemma {:induction false} InsertedMembers(s: seq<Event>, x: Event)
    ensures multiset(InsertedEvent(s, x)) == multiset(s) + multiset{x}
  {
    if s != [] {
      assert s == [s[0]] + s[1..];
      InsertedMembers(s[1..], x);
    }
  }

  lemma {:induction false} InsertedInOrder(s: seq<Event>, x: Event)
    requires Chronological(s)
    ensures Chronological(InsertedEvent(s, x))
  {
    var r := InsertedEvent(s, x);
    if s == [] {
    } else if Before(s[0], x) {
      var rest := InsertedEvent(s[1..], x);
      InsertedInOrder(s[1..], x);
      InsertedMembers(s[1..], x);
      forall j | 0 <= j < |rest| ensures NotAfter(s[0], rest[j]) {
        assert rest[j] in multiset(rest);
        assert rest[j] == x || rest[j] in s[1..];
        NotAfterIsTotal(s[0], x, x);
      }
    } else {
      forall j | 0 <= j < |s| ensures NotAfter(x, s[j]) {
        NotAfterIsTotal(s[0], x, x);
        assert NotAfter(x, s[0]) && (j > 0 ==> NotAfter(s[0], s[j]));
        NotAfterIsTotal(x, s[0], s[j]);
      }
    }
  }

  lemma {:induction false} OrderedInTime(s: seq<Event>)
    ensures Chronological(Ordered(s)) && multiset(Ordered(s)) == multiset(s)
  {
    if s != [] {
      OrderedInTime(s[1..]);
      InsertedInOrder(Ordered(s[1..]), s[0]);
      InsertedMembers(Ordered(s[1..]), s[0]);
      assert s == [s[0]] + s[1..];
    }
  }

  method Fold(records: Records, e: Event, classify: Event -> Option<Classification>, uids: map<string, string>) returns (folded: Records)
    ensures folded == Step(records, e, classify, uids)
  {
    folded := records;
    if e.blankName {
      return;
    }
    var classified := classify(e);
    if classified.None? {
      return;
    }
    var c := classified.value;
    var key := KeyOf(e, c, uids);
    var record := if key in folded then folded[key] else NewRecord(e, c);
    folded := folded[key := Fed(record, e, c)];
    if c.reason == DELETED {
      var provision := ProvisionOf(IdentityOf(e, uids));
      if provision in folded {
        folded := folded[provision := EndedBy(folded[provision], e)];
      }
    }
  }

  method FoldAll(ordered: seq<Event>, classify: Event -> Option<Classification>, uids: map<string, string>) returns (records: Records)
    ensures records == Folded(ordered, classify, uids)
  {
    records := map[];
    var i := 0;
    while i < |ordered|
      invariant 0 <= i <= |ordered| && records == Folded(ordered[..i], classify, uids)
    {
      FoldedMore(ordered, i, classify, uids);
      records := Fold(records, ordered[i], classify, uids);
      i := i + 1;
    }
    assert ordered[..i] == ordered;
  }

  lemma {:induction false} FoldedMore(events: seq<Event>, i: nat, classify: Event -> Option<Classification>, uids: map<string, string>)
    requires i < |events|
    ensures Folded(events[..i + 1], classify, uids) == Step(Folded(events[..i], classify, uids), events[i], classify, uids)
  {
    assert events[..i + 1][..i] == events[..i];
  }

  lemma {:induction false} MentionedEither(a: seq<Event>, b: seq<Event>, resource: string, uid: string)
    requires multiset(a) == multiset(b) && Mentions(a, resource, uid)
    ensures Mentions(b, resource, uid)
  {
    var i :| 0 <= i < |a| && a[i].resource == resource && a[i].uid == uid;
    assert a[i] in multiset(b);
    var j :| 0 <= j < |b| && b[j] == a[i];
  }

  lemma {:induction false} KnownInAnyOrder(a: seq<Event>, b: seq<Event>, uids: map<string, string>)
    requires multiset(a) == multiset(b) && KnownUids(a, uids)
    ensures KnownUids(b, uids)
  {
    forall r, u ensures Mentions(a, r, u) <==> Mentions(b, r, u) {
      if Mentions(a, r, u) { MentionedEither(a, b, r, u); }
      if Mentions(b, r, u) { MentionedEither(b, a, r, u); }
    }
  }

  /** Folds the events in time order into episodes. */
  method BuildActivityRecords(events: seq<Event>, classify: Event -> Option<Classification>)
    returns (records: Records, ghost ordered: seq<Event>, ghost uids: map<string, string>)
    ensures multiset(ordered) == multiset(events) && Chronological(ordered) && KnownUids(events, uids)
    ensures records == Folded(ordered, classify, uids)
  {
    var sorted := Ordered(events);
    OrderedInTime(events);
    var known := CollectUids(sorted);
    KnownInAnyOrder(sorted, events, known);
    records := FoldAll(sorted, classify, known);
    ordered, uids := sorted, known;
  }

  // ---------------------------------------------------------------- one episode

  /** A deletion is reported as a termination. */
  ghost predicate Sensible(classify: Event -> Option<Classification>) {
    forall e :: classify(e).Some? && classify(e).value.reason == DELETED ==> classify(e).value.kind.Termination?
  }

  predicate Feeds(e: Event, k: EpisodeKey, classify: Event -> Option<Classification>, uids: map<string, string>) {
    !e.blankName && classify(e).Some? && KeyOf(e, classify(e).value, uids) == k
  }

  predicate Deletes(e: Event, k: EpisodeKey, classify: Event -> Option<Classification>, uids: map<string, string>) {
    !e.blankName && classify(e).Some? && classify(e).value.reason == DELETED && ProvisionOf(IdentityOf(e, uids)) == k
  }

  ghost predicate Known(events: seq<Event>, k: EpisodeKey, classify: Event -> Option<Classification>, uids: map<string, string>) {
    exists i :: 0 <= i < |events| && Feeds(events[i], k, classify, uids)
  }

  lemma {:induction false} KnownMore(init: seq<Event>, e: Event, k: EpisodeKey, classify: Event -> Option<Classification>, uids: map<string, string>)
    ensures Known(init + [e], k, classify, uids) <==> Known(init, k, classify, uids) || Feeds(e, k, classify, uids)
  {
    var more := init + [e];
    assert more[|init|] == e;
    if i :| 0 <= i < |init| && Feeds(init[i], k, classify, uids) {
      assert Feeds(more[i], k, classify, uids);
    }
    if i :| 0 <= i < |more| && Feeds(more[i], k, classify, uids) {
      assert i < |init| ==> Feeds(init[i], k, classify, uids);
    }
  }

  /** What one event does to one provisioning episode. */
  function Touched(r: Option<Record>, e: Event, k: EpisodeKey, classify: Event -> Option<Classification>, uids: map<string, string>): Option<Record> {
    if Feeds(e, k, classify, uids) then
      var c := classify(e).value;
      Some(Fed(if r.Some? then r.value else NewRecord(e, c), e, c))
    else if Deletes(e, k, classify, uids) && r.Some? then Some(EndedBy(r.value, e))
    else r
  }

  function At(records: Records, k: EpisodeKey): Option<Record> { if k in records then Some(records[k]) else None }

  lemma {:induction false} StepTouches(records: Records, e: Event, k: EpisodeKey, classify: Event -> Option<Classification>, uids: map<string, string>)
    requires k.ProvisionOf? && Sensible(classify)
    ensures At(Step(records, e, classify, uids), k) == Touched(At(records, k), e, k, classify, uids)
  {
  }

  // ---------------------------------------------------------------- durations

  /** No event was after `now`, and the episode does not end before it starts. */
  predicate TimelyRecord(r: Record, now: int) {
    r.startedAt <= now && (r.terminalAt.Some? ==> r.startedAt <= r.terminalAt.value <= now)
  }

  ghost predicate Timely(records: Records, now: int) {
    forall k :: k in records ==> TimelyRecord(records[k], now)
  }

  lemma {:induction false} RecordsStayTimely(r: Record, e: Event, c: Classification, now: int)
    requires TimelyRecord(r, now) && now <= e.timestamp
    ensures TimelyRecord(Fed(r, e, c), e.timestamp) && TimelyRecord(EndedBy(r, e), e.timestamp) && TimelyRecord(r, e.timestamp)
  {
  }

  lemma {:induction false} StepIsTimely(records: Records, e: Event, classify: Event -> Option<Classification>, uids: map<string, string>, now: int)
    requires Timely(records, now) && now <= e.timestamp
    ensures Timely(Step(records, e, classify, uids), e.timestamp)
  {
    if !e.blankName && classify(e).Some? {
      var c := classify(e).value;
      var key := KeyOf(e, c, uids);
      var r := if key in records then records[key] else NewRecord(e, c);
      RecordsStayTimely(r, e, c, if key in records then now else e.timestamp);
      var fed := records[key := Fed(r, e, c)];
      forall k | k in fed ensures TimelyRecord(fed[k], e.timestamp) && TimelyRecord(EndedBy(fed[k], e), e.timestamp) {
        if k == key {
          RecordsStayTimely(fed[k], e, c, e.timestamp);
        } else {
          RecordsStayTimely(fed[k], e, c, now);
        }
      }
    } else {
      forall k | k in records ensures TimelyRecord(records[k], e.timestamp) {
        assert TimelyRecord(records[k], now);
      }
    }
  }

  /** A duration is never negative, so clamping it changes nothing. */
  lemma {:induction false} DurationsAreNotNegative(events: seq<Event>, classify: Event -> Option<Classification>, uids: map<string, string>)
    requires Chronological(events)
    ensures events != [] ==> Timely(Folded(events, classify, uids), events[|events| - 1].timestamp)
    decreases |events|
  {
    if events != [] {
      var init, last := events[..|events| - 1], events[|events| - 1];
      DurationsAreNotNegative(init, classify, uids);
      if init != [] {
        StepIsTimely(Folded(init, classify, uids), last, classify, uids, init[|init| - 1].timestamp);
      } else {
        assert Folded(init, classify, uids) == map[];
        StepIsTimely(map[], last, classify, uids, last.timestamp);
      }
    }
  }

  // ---------------------------------------------------------------- positions

  /** An episode's position is that of one of its own events. */
  ghost predicate PositionedAt(r: Option<Record>, seen: seq<Event>, k: EpisodeKey, classify: Event -> Option<Classification>, uids: map<string, string>) {
    && (r.Some? <==> Known(seen, k, classify, uids))
    && (r.Some? && r.value.maxSeq > 0 ==> exists i :: 0 <= i < |seen| && Feeds(seen[i], k, classify, uids) && seen[i].num == r.value.maxSeq)
    && (r.Some? ==> forall i :: 0 <= i < |seen| && Feeds(seen[i], k, classify, uids) ==> seen[i].num <= r.value.maxSeq)
  }

  /** An event moves the position of the episode it feeds, and of no other. */
  lemma {:induction false} StepPositions(records: Records, e: Event, k: EpisodeKey, classify: Event -> Option<Classification>, uids: map<string, string>)
    ensures k in Step(records, e, classify, uids) <==> k in records || Feeds(e, k, classify, uids)
    ensures k in Step(records, e, classify, uids) ==>
              var before := if k in records then records[k].maxSeq else 0;
              Step(records, e, classify, uids)[k].maxSeq == if Feeds(e, k, classify, uids) && e.num > before then e.num else before
  {
  }

  lemma {:induction false} PositionedMore(records: Records, seen: seq<Event>, e: Event, k: EpisodeKey, classify: Event -> Option<Classification>, uids: map<string, string>)
    requires PositionedAt(At(records, k), seen, k, classify, uids)
    ensures PositionedAt(At(Step(records, e, classify, uids), k), seen + [e], k, classify, uids)
  {
    StepPositions(records, e, k, classify, uids);
    KnownMore(seen, e, k, classify, uids);
    var more, records' := seen + [e], Step(records, e, classify, uids);
    assert more[|seen|] == e && forall i :: 0 <= i < |seen| ==> more[i] == seen[i];
    if k in records' && records'[k].maxSeq > 0 {
      if k in records && records[k].maxSeq == records'[k].maxSeq {
        var i :| 0 <= i < |seen| && Feeds(seen[i], k, classify, uids) && seen[i].num == records[k].maxSeq;
        assert Feeds(more[i], k, classify, uids);
      } else {
        assert Feeds(more[|seen|], k, classify, uids);
      }
    }
  }

  lemma {:induction false} FoldIsPositioned(events: seq<Event>, k: EpisodeKey, classify: Event -> Option<Classification>, uids: map<string, string>)
    ensures PositionedAt(At(Folded(events, classify, uids), k), events, k, classify, uids)
  {
    if events != [] {
      var init, last := events[..|events| - 1], events[|events| - 1];
      FoldIsPositioned(init, k, classify, uids);
      PositionedMore(Folded(init, classify, uids), init, last, k, classify, uids);
      assert init + [last] == events;
    }
  }

  /** Distinct positive sequence numbers give distinct positions, so a page
      boundary never falls between two episodes that share one. */
  lemma {:induction false} PositionsAreDistinct(events: seq<Event>, classify: Event -> Option<Classification>, uids: map<string, string>, a: EpisodeKey, b: EpisodeKey)
    requires forall i :: 0 <= i < |events| ==> events[i].num > 0
    requires forall i, j :: 0 <= i < j < |events| ==> events[i].num != events[j].num
    requires a in Folded(events, classify, uids) && b in Folded(events, classify, uids) && a != b
    ensures Folded(events, classify, uids)[a].maxSeq != Folded(events, classify, uids)[b].maxSeq
  {
    var records := Folded(events, classify, uids);
    FoldIsPositioned(events, a, classify, uids);
    FoldIsPositioned(events, b, classify, uids);
    var p :| 0 <= p < |events| && Feeds(events[p], a, classify, uids);
    var q :| 0 <= q < |events| && Feeds(events[q], b, classify, uids);
    var i :| 0 <= i < |events| && Feeds(events[i], a, classify, uids) && events[i].num == records[a].maxSeq;
    var j :| 0 <= j < |events| && Feeds(events[j], b, classify, uids) && events[j].num == records[b].maxSeq;
    assert i != j;
  }
}
