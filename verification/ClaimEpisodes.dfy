/** What the fold makes of a node claim, said of its events alone: which events
    share an episode, and how a claim's provisioning began and ended. */
module ClaimEpisodes {
  import opened Wrappers
  import opened ActivityFold

  // ---------------------------------------------------------------- which events share an episode

  /** The event's own UID, or the one known for its resource. */
  predicate Bears(e: Event, uid: string, uids: map<string, string>) {
    uid != "" && (e.uid == uid || (e.uid == "" && e.resource in uids && uids[e.resource] == uid))
  }

  ghost predicate About(e: Event, id: Identity, uids: map<string, string>) {
    match id
    case ByUid(uid) => Bears(e, uid, uids)
    case ByResource(resource) => e.resource == resource && forall uid :: !Bears(e, uid, uids)
  }

  ghost predicate SameSubject(a: Event, b: Event, uids: map<string, string>) {
    exists id :: About(a, id, uids) && About(b, id, uids)
  }

  /** A stage of a claim's way to a ready node. What keeps a pool from even
      starting one is blocked, and belongs to no claim. */
  predicate OfLifecycle(c: Classification) {
    c.kind in {Provision, LaunchFailure, RegistrationFailure, InitializationFailure} && c.signal != Blocked
  }

  predicate Named(e: Event, name: string) {
    name != "" && (e.correlationID == name || (e.correlationID == "" && e.id == name))
  }

  predicate Nameless(e: Event) { e.correlationID == "" && e.id == "" }

  ghost predicate SameAttempt(a: Event, b: Event) {
    || (exists name :: Named(a, name) && Named(b, name))
    || (Nameless(a) && Nameless(b) && if a.num > 0 then b.num == a.num else b.num <= 0 && b.timestamp == a.timestamp)
  }

  lemma {:induction false} AboutIsIdentity(e: Event, id: Identity, uids: map<string, string>)
    ensures About(e, id, uids) <==> IdentityOf(e, uids) == id
  {
    var known := UidOf(e, uids);
    if known != "" {
      assert Bears(e, known, uids);
    }
  }

  lemma {:induction false} SubjectsAreIdentities(a: Event, b: Event, uids: map<string, string>)
    ensures SameSubject(a, b, uids) <==> IdentityOf(a, uids) == IdentityOf(b, uids)
  {
    AboutIsIdentity(a, IdentityOf(a, uids), uids);
    AboutIsIdentity(b, IdentityOf(a, uids), uids);
    if id :| About(a, id, uids) && About(b, id, uids) {
      AboutIsIdentity(a, id, uids);
      AboutIsIdentity(b, id, uids);
    }
  }

  lemma {:induction false} AttemptsAreSame(a: Event, b: Event)
    ensures SameAttempt(a, b) <==> Attempt(a) == Attempt(b)
  {
    var name := if a.correlationID != "" then a.correlationID else a.id;
    if !Nameless(a) {
      assert Named(a, name);
      assert Named(b, name) ==> SameAttempt(a, b);
    }
  }

  /** All the stages a claim goes through, and all the ways they fail, are one
      episode per claim. */
  lemma {:induction false} StagesShareAnEpisode(a: Event, ca: Classification, b: Event, cb: Classification, uids: map<string, string>)
    requires OfLifecycle(ca) && OfLifecycle(cb)
    ensures KeyOf(a, ca, uids) == KeyOf(b, cb, uids) <==> SameSubject(a, b, uids)
  {
    SubjectsAreIdentities(a, b, uids);
  }

  /** Everything else is an episode per kind, subject and attempt, apart from
      every claim's provisioning. */
  lemma {:induction false} OccurrencesStandAlone(a: Event, ca: Classification, b: Event, cb: Classification, uids: map<string, string>)
    requires !OfLifecycle(ca)
    ensures KeyOf(a, ca, uids) == KeyOf(b, cb, uids) <==>
            !OfLifecycle(cb) && ca.kind == cb.kind && SameSubject(a, b, uids) && SameAttempt(a, b)
  {
    SubjectsAreIdentities(a, b, uids);
    AttemptsAreSame(a, b);
  }

  /** What an event may do to the state of its episode: a result stands, but a
      failure after a completion does not undo it; anything else only moves the
      episode on, and a blocked attempt hides everything short of a failure. */
  lemma {:induction false} EventMoves(r: Record, e: Event, c: Classification)
    ensures match c.signal
            case Completed => Fed(r, e, c).state == Is(Completed)
            case Failed => Fed(r, e, c).state == if r.terminalAt.Some? && r.state == Is(Completed) then r.state else Is(Failed)
            case Blocked => Fed(r, e, c).state == if r.state == Is(Failed) then r.state else Is(Blocked)
            case Open => Fed(r, e, c).state == if r.state == Is(Observed) then Is(Open) else r.state
            case Observed => Fed(r, e, c).state == r.state
    ensures Fed(r, e, c).terminalAt == r.terminalAt || Fed(r, e, c).terminalAt == Some(e.timestamp)
  {
  }

  // ---------------------------------------------------------------- one claim

  ghost predicate Told(events: seq<Event>, i: int, id: Identity, classify: Event -> Option<Classification>, uids: map<string, string>) {
    0 <= i < |events| && !events[i].blankName && classify(events[i]).Some? && OfLifecycle(classify(events[i]).value) && About(events[i], id, uids)
  }

  ghost predicate ToldOf(events: seq<Event>, i: int, s: Signal, id: Identity, classify: Event -> Option<Classification>, uids: map<string, string>) {
    Told(events, i, id, classify, uids) && classify(events[i]).value.signal == s
  }

  ghost predicate LastToldOf(events: seq<Event>, i: int, s: Signal, id: Identity, classify: Event -> Option<Classification>, uids: map<string, string>) {
    ToldOf(events, i, s, id, classify, uids) && forall j :: j > i ==> !ToldOf(events, j, s, id, classify, uids)
  }

  ghost predicate FirstToldOf(events: seq<Event>, i: int, s: Signal, id: Identity, classify: Event -> Option<Classification>, uids: map<string, string>) {
    ToldOf(events, i, s, id, classify, uids) && forall j :: j < i ==> !ToldOf(events, j, s, id, classify, uids)
  }

  /** The claim is deleted after something was told of it. */
  ghost predicate DeletedAt(events: seq<Event>, j: int, id: Identity, classify: Event -> Option<Classification>, uids: map<string, string>) {
    && 0 <= j < |events| && !events[j].blankName && classify(events[j]).Some? && classify(events[j]).value.reason == DELETED
    && About(events[j], id, uids) && exists i :: i < j && Told(events, i, id, classify, uids)
  }

  ghost predicate FirstDeletedAt(events: seq<Event>, j: int, id: Identity, classify: Event -> Option<Classification>, uids: map<string, string>) {
    DeletedAt(events, j, id, classify, uids) && forall i :: i < j ==> !DeletedAt(events, i, id, classify, uids)
  }

  /** The record took its state, kind, end and reason from this event. */
  predicate EndedWith(r: Record, e: Event, s: Signal, c: Classification) {
    r.state == Is(s) && r.kind == c.kind && r.terminalAt == Some(e.timestamp) && r.terminalReason == c.reason
  }

  ghost predicate Known(events: seq<Event>, id: Identity, classify: Event -> Option<Classification>, uids: map<string, string>) {
    exists i :: Told(events, i, id, classify, uids)
  }

  ghost predicate Saw(events: seq<Event>, s: Signal, id: Identity, classify: Event -> Option<Classification>, uids: map<string, string>) {
    exists i :: ToldOf(events, i, s, id, classify, uids)
  }

  ghost predicate Deleted(events: seq<Event>, id: Identity, classify: Event -> Option<Classification>, uids: map<string, string>) {
    exists j :: DeletedAt(events, j, id, classify, uids)
  }

  ghost predicate EndsWithLast(r: Record, events: seq<Event>, s: Signal, id: Identity, classify: Event -> Option<Classification>, uids: map<string, string>) {
    exists i :: LastToldOf(events, i, s, id, classify, uids) && EndedWith(r, events[i], s, classify(events[i]).value)
  }

  ghost predicate EndsWithDeletion(r: Record, events: seq<Event>, id: Identity, classify: Event -> Option<Classification>, uids: map<string, string>) {
    && r.state == Ended && r.kind == Provision && r.terminalReason == DELETED_CAUSE_UNKNOWN
    && exists j :: FirstDeletedAt(events, j, id, classify, uids) && r.terminalAt == Some(events[j].timestamp)
  }

  /** Still in progress, on the word of the first event to say so. */
  ghost predicate GoesOn(r: Record, events: seq<Event>, s: Signal, id: Identity, classify: Event -> Option<Classification>, uids: map<string, string>) {
    && r.state == Is(s) && r.terminalAt == None && r.terminalReason == ""
    && exists i :: FirstToldOf(events, i, s, id, classify, uids) && r.kind == classify(events[i]).value.kind
  }

  /** How the provisioning of a claim ends: with the last completion if there
      was one, else with the last failure of any stage, else with the deletion;
      otherwise it is still going on. */
  ghost predicate Ends(r: Record, events: seq<Event>, id: Identity, classify: Event -> Option<Classification>, uids: map<string, string>) {
    if Saw(events, Completed, id, classify, uids) then EndsWithLast(r, events, Completed, id, classify, uids)
    else if Saw(events, Failed, id, classify, uids) then EndsWithLast(r, events, Failed, id, classify, uids)
    else if Deleted(events, id, classify, uids) then EndsWithDeletion(r, events, id, classify, uids)
    else GoesOn(r, events, if Saw(events, Open, id, classify, uids) then Open else Observed, id, classify, uids)
  }

  lemma {:induction false} EarlierStay(init: seq<Event>, e: Event, id: Identity, classify: Event -> Option<Classification>, uids: map<string, string>)
    ensures forall i :: i < |init| ==> (Told(init + [e], i, id, classify, uids) <==> Told(init, i, id, classify, uids))
    ensures forall i, s :: i < |init| ==> (ToldOf(init + [e], i, s, id, classify, uids) <==> ToldOf(init, i, s, id, classify, uids))
    ensures forall i :: i < |init| ==> (DeletedAt(init + [e], i, id, classify, uids) <==> DeletedAt(init, i, id, classify, uids))
  {
    assert forall i :: 0 <= i < |init| ==> (init + [e])[i] == init[i];
  }

  /** The claim's record before and after one more event. */
  lemma {:induction false} OneMoreEvent(records: Records, init: seq<Event>, e: Event, id: Identity,
                                        classify: Event -> Option<Classification>, uids: map<string, string>)
    requires Sensible(classify)
    requires At(records, ProvisionOf(id)).Some? <==> Known(init, id, classify, uids)
    ensures var (r, n, more) := (At(records, ProvisionOf(id)), |init|, init + [e]);
            At(Step(records, e, classify, uids), ProvisionOf(id)) ==
            if Told(more, n, id, classify, uids) then
              Some(Fed(if r.Some? then r.value else NewRecord(e, classify(e).value), e, classify(e).value))
            else if r.Some? && DeletedAt(more, n, id, classify, uids) then Some(EndedBy(r.value, e))
            else r
  {
    var more := init + [e];
    assert more[|init|] == e;
    AboutIsIdentity(e, id, uids);
    EarlierStay(init, e, id, classify, uids);
    StepTouches(records, e, ProvisionOf(id), classify, uids);
    assert Told(more, |init|, id, classify, uids) <==> Feeds(e, ProvisionOf(id), classify, uids);
    if Deletes(e, ProvisionOf(id), classify, uids) && At(records, ProvisionOf(id)).Some? {
      var i :| Told(init, i, id, classify, uids);
      assert Told(more, i, id, classify, uids);
    }
  }

  /** One more event, as far as one signal is concerned. */
  lemma {:induction false} SignalMore(init: seq<Event>, e: Event, s: Signal, id: Identity, classify: Event -> Option<Classification>, uids: map<string, string>)
    ensures var (n, more) := (|init|, init + [e]);
            && (Saw(more, s, id, classify, uids) <==> Saw(init, s, id, classify, uids) || ToldOf(more, n, s, id, classify, uids))
            && (ToldOf(more, n, s, id, classify, uids) ==> LastToldOf(more, n, s, id, classify, uids))
            && (ToldOf(more, n, s, id, classify, uids) && !Saw(init, s, id, classify, uids) ==> FirstToldOf(more, n, s, id, classify, uids))
            && (forall i :: FirstToldOf(init, i, s, id, classify, uids) ==> FirstToldOf(more, i, s, id, classify, uids))
            && (!ToldOf(more, n, s, id, classify, uids) ==>
                  forall i :: LastToldOf(init, i, s, id, classify, uids) ==> LastToldOf(more, i, s, id, classify, uids))
  {
    EarlierStay(init, e, id, classify, uids);
    var more := init + [e];
    if i :| ToldOf(init, i, s, id, classify, uids) { assert ToldOf(more, i, s, id, classify, uids); }
    if i :| ToldOf(more, i, s, id, classify, uids) {
      assert i < |init| ==> ToldOf(init, i, s, id, classify, uids);
    }
    forall i | LastToldOf(init, i, s, id, classify, uids) && !ToldOf(more, |init|, s, id, classify, uids)
      ensures LastToldOf(more, i, s, id, classify, uids)
    {
      forall j | j > i ensures !ToldOf(more, j, s, id, classify, uids) {
        assert j < |init| ==> !ToldOf(init, j, s, id, classify, uids);
      }
    }
  }

  lemma {:induction false} DeletionMore(init: seq<Event>, e: Event, id: Identity, classify: Event -> Option<Classification>, uids: map<string, string>)
    ensures var (n, more) := (|init|, init + [e]);
            && (Deleted(more, id, classify, uids) <==> Deleted(init, id, classify, uids) || DeletedAt(more, n, id, classify, uids))
            && (DeletedAt(more, n, id, classify, uids) && !Deleted(init, id, classify, uids) ==> FirstDeletedAt(more, n, id, classify, uids))
            && (forall j :: FirstDeletedAt(init, j, id, classify, uids) ==> FirstDeletedAt(more, j, id, classify, uids))
  {
    EarlierStay(init, e, id, classify, uids);
    var more := init + [e];
    if i :| DeletedAt(init, i, id, classify, uids) { assert DeletedAt(more, i, id, classify, uids); }
    if i :| DeletedAt(more, i, id, classify, uids) {
      assert i < |init| ==> DeletedAt(init, i, id, classify, uids);
    }
  }

  lemma {:induction false} KnownMore(init: seq<Event>, e: Event, id: Identity, classify: Event -> Option<Classification>, uids: map<string, string>)
    ensures Known(init + [e], id, classify, uids) <==> Known(init, id, classify, uids) || Told(init + [e], |init|, id, classify, uids)
  {
    EarlierStay(init, e, id, classify, uids);
    var more := init + [e];
    if i :| Told(init, i, id, classify, uids) { assert Told(more, i, id, classify, uids); }
    if i :| Told(more, i, id, classify, uids) {
      assert i < |init| ==> Told(init, i, id, classify, uids);
    }
  }

  /** An end that the next event does not replace is still the end. */
  lemma {:induction false} EndStays(r: Record, init: seq<Event>, e: Event, s: Signal, id: Identity, classify: Event -> Option<Classification>, uids: map<string, string>)
    requires EndsWithLast(r, init, s, id, classify, uids) && !ToldOf(init + [e], |init|, s, id, classify, uids)
    ensures EndsWithLast(r, init + [e], s, id, classify, uids)
  {
    SignalMore(init, e, s, id, classify, uids);
    var i :| LastToldOf(init, i, s, id, classify, uids) && EndedWith(r, init[i], s, classify(init[i]).value);
    assert (init + [e])[i] == init[i] && LastToldOf(init + [e], i, s, id, classify, uids);
  }

  lemma {:induction false} EndIsLatest(r: Record, init: seq<Event>, e: Event, s: Signal, id: Identity, classify: Event -> Option<Classification>, uids: map<string, string>)
    requires ToldOf(init + [e], |init|, s, id, classify, uids) && EndedWith(r, e, s, classify(e).value)
    ensures EndsWithLast(r, init + [e], s, id, classify, uids)
  {
    SignalMore(init, e, s, id, classify, uids);
    assert (init + [e])[|init|] == e;
  }

  lemma {:induction false} ProgressStays(r: Record, q: Record, init: seq<Event>, e: Event, s: Signal, id: Identity, classify: Event -> Option<Classification>, uids: map<string, string>)
    requires GoesOn(r, init, s, id, classify, uids)
    requires q.state == r.state && q.kind == r.kind && q.terminalAt == r.terminalAt && q.terminalReason == r.terminalReason
    ensures GoesOn(q, init + [e], s, id, classify, uids)
  {
    SignalMore(init, e, s, id, classify, uids);
    var i :| FirstToldOf(init, i, s, id, classify, uids) && r.kind == classify(init[i]).value.kind;
    assert (init + [e])[i] == init[i] && FirstToldOf(init + [e], i, s, id, classify, uids);
  }

  /** The first word of a claim, or one more, that it is on its way. */
  lemma {:induction false} StillGoesOn(r: Option<Record>, init: seq<Event>, e: Event, id: Identity, classify: Event -> Option<Classification>, uids: map<string, string>)
    requires Told(init + [e], |init|, id, classify, uids) && !Terminal(classify(e).value.signal)
    requires r.Some? <==> Known(init, id, classify, uids)
    requires r.Some? ==> GoesOn(r.value, init, if Saw(init, Open, id, classify, uids) then Open else Observed, id, classify, uids)
    ensures var c := classify(e).value;
            GoesOn(Fed(if r.Some? then r.value else NewRecord(e, c), e, c), init + [e],
                   if Saw(init + [e], Open, id, classify, uids) then Open else Observed, id, classify, uids)
  {
    var more, c := init + [e], classify(e).value;
    assert more[|init|] == e;
    SignalMore(init, e, Open, id, classify, uids);
    SignalMore(init, e, Observed, id, classify, uids);
    if r.None? {
      NothingKnown(init, id, classify, uids);
      assert FirstToldOf(more, |init|, c.signal, id, classify, uids);
    } else if c.signal.Open? && r.value.state == Is(Observed) {
      assert FirstToldOf(more, |init|, Open, id, classify, uids);
    } else {
      ProgressStays(r.value, Fed(r.value, e, c), init, e, if Saw(init, Open, id, classify, uids) then Open else Observed, id, classify, uids);
    }
  }

  /** The first stage told of a claim. */
  lemma {:induction false} FirstTelling(init: seq<Event>, e: Event, id: Identity, classify: Event -> Option<Classification>, uids: map<string, string>)
    requires Told(init + [e], |init|, id, classify, uids) && Sensible(classify) && !Known(init, id, classify, uids)
    ensures Ends(Fed(NewRecord(e, classify(e).value), e, classify(e).value), init + [e], id, classify, uids)
  {
    var more, c := init + [e], classify(e).value;
    var after := Fed(NewRecord(e, c), e, c);
    assert more[|init|] == e;
    NothingKnown(init, id, classify, uids);
    SignalMore(init, e, Completed, id, classify, uids);
    SignalMore(init, e, Failed, id, classify, uids);
    DeletionMore(init, e, id, classify, uids);
    if Terminal(c.signal) {
      EndIsLatest(after, init, e, c.signal, id, classify, uids);
    } else {
      StillGoesOn(None, init, e, id, classify, uids);
    }
  }

  /** A result told of it. */
  lemma {:induction false} ResultEnds(r: Record, init: seq<Event>, e: Event, id: Identity, classify: Event -> Option<Classification>, uids: map<string, string>)
    requires Told(init + [e], |init|, id, classify, uids) && Terminal(classify(e).value.signal) && Ends(r, init, id, classify, uids)
    ensures Ends(Fed(r, e, classify(e).value), init + [e], id, classify, uids)
  {
    var c := classify(e).value;
    var after := Fed(r, e, c);
    assert (init + [e])[|init|] == e;
    SignalMore(init, e, Completed, id, classify, uids);
    SignalMore(init, e, Failed, id, classify, uids);
    if c.signal.Failed? && Saw(init, Completed, id, classify, uids) {
      EndStays(after, init, e, Completed, id, classify, uids);
    } else {
      EndIsLatest(after, init, e, c.signal, id, classify, uids);
    }
  }

  /** Some other stage. */
  lemma {:induction false} StageEnds(r: Record, init: seq<Event>, e: Event, id: Identity, classify: Event -> Option<Classification>, uids: map<string, string>)
    requires Told(init + [e], |init|, id, classify, uids) && Sensible(classify) && !Terminal(classify(e).value.signal)
    requires Known(init, id, classify, uids) && Ends(r, init, id, classify, uids)
    ensures Ends(Fed(r, e, classify(e).value), init + [e], id, classify, uids)
  {
    var after := Fed(r, e, classify(e).value);
    assert (init + [e])[|init|] == e;
    SignalMore(init, e, Completed, id, classify, uids);
    SignalMore(init, e, Failed, id, classify, uids);
    DeletionMore(init, e, id, classify, uids);
    if Saw(init, Completed, id, classify, uids) {
      EndStays(after, init, e, Completed, id, classify, uids);
    } else if Saw(init, Failed, id, classify, uids) {
      EndStays(after, init, e, Failed, id, classify, uids);
    } else if Deleted(init, id, classify, uids) {
      DeletionStays(after, init, e, id, classify, uids);
    } else {
      StillGoesOn(Some(r), init, e, id, classify, uids);
    }
  }

  lemma {:induction false} TellingEnds(r: Option<Record>, init: seq<Event>, e: Event, id: Identity, classify: Event -> Option<Classification>, uids: map<string, string>)
    requires Told(init + [e], |init|, id, classify, uids) && Sensible(classify)
    requires r.Some? <==> Known(init, id, classify, uids)
    requires r.Some? ==> Ends(r.value, init, id, classify, uids)
    ensures var c := classify(e).value;
            Ends(Fed(if r.Some? then r.value else NewRecord(e, c), e, c), init + [e], id, classify, uids)
  {
    if r.None? {
      FirstTelling(init, e, id, classify, uids);
    } else if Terminal(classify(e).value.signal) {
      ResultEnds(r.value, init, e, id, classify, uids);
    } else {
      StageEnds(r.value, init, e, id, classify, uids);
    }
  }

  lemma {:induction false} NothingKnown(events: seq<Event>, id: Identity, classify: Event -> Option<Classification>, uids: map<string, string>)
    requires !Known(events, id, classify, uids)
    ensures forall s :: !Saw(events, s, id, classify, uids)
    ensures !Deleted(events, id, classify, uids)
  {
    assert forall i, s :: ToldOf(events, i, s, id, classify, uids) ==> Told(events, i, id, classify, uids);
  }

  lemma {:induction false} DeletionStays(r: Record, init: seq<Event>, e: Event, id: Identity, classify: Event -> Option<Classification>, uids: map<string, string>)
    requires EndsWithDeletion(r, init, id, classify, uids)
    ensures EndsWithDeletion(r, init + [e], id, classify, uids)
  {
    DeletionMore(init, e, id, classify, uids);
    var j :| FirstDeletedAt(init, j, id, classify, uids) && r.terminalAt == Some(init[j].timestamp);
    assert (init + [e])[j] == init[j];
  }

  /** Any other event, the claim's deletion included. */
  lemma {:induction false} OtherwiseEnds(r: Record, init: seq<Event>, e: Event, id: Identity, classify: Event -> Option<Classification>, uids: map<string, string>)
    requires !Told(init + [e], |init|, id, classify, uids) && Ends(r, init, id, classify, uids)
    ensures Ends(if DeletedAt(init + [e], |init|, id, classify, uids) then EndedBy(r, e) else r, init + [e], id, classify, uids)
  {
    var more := init + [e];
    assert more[|init|] == e;
    SignalMore(init, e, Completed, id, classify, uids);
    SignalMore(init, e, Failed, id, classify, uids);
    SignalMore(init, e, Open, id, classify, uids);
    DeletionMore(init, e, id, classify, uids);
    if Saw(init, Completed, id, classify, uids) {
      EndStays(r, init, e, Completed, id, classify, uids);
    } else if Saw(init, Failed, id, classify, uids) {
      EndStays(r, init, e, Failed, id, classify, uids);
    } else if Deleted(init, id, classify, uids) {
      DeletionStays(r, init, e, id, classify, uids);
    } else if !DeletedAt(more, |init|, id, classify, uids) {
      ProgressStays(r, r, init, e, if Saw(init, Open, id, classify, uids) then Open else Observed, id, classify, uids);
    }
  }

  /** The fold in closed form: a claim has a provisioning episode exactly when a
      stage was told of it, and the episode ends as its events say. */
  lemma {:induction false} ClaimOutcome(events: seq<Event>, id: Identity, classify: Event -> Option<Classification>, uids: map<string, string>)
    requires Sensible(classify)
    ensures var r := At(Folded(events, classify, uids), ProvisionOf(id));
            && (r.Some? <==> Known(events, id, classify, uids))
            && (r.Some? ==> Ends(r.value, events, id, classify, uids))
  {
    if events == [] {
    } else {
      var init, e := events[..|events| - 1], events[|events| - 1];
      var records := Folded(init, classify, uids);
      var r := At(records, ProvisionOf(id));
      ClaimOutcome(init, id, classify, uids);
      OneMoreEvent(records, init, e, id, classify, uids);
      KnownMore(init, e, id, classify, uids);
      assert init + [e] == events;
      if Told(events, |init|, id, classify, uids) {
        TellingEnds(r, init, e, id, classify, uids);
      } else if r.Some? {
        OtherwiseEnds(r.value, init, e, id, classify, uids);
      }
    }
  }

  // ---------------------------------------------------------------- when it began, and what was noted

  /** It began when its earliest event says that the claim was created, or
      happened if that was before. */
  ghost predicate Begins(r: Record, events: seq<Event>, id: Identity, classify: Event -> Option<Classification>, uids: map<string, string>) {
    && (forall i :: Told(events, i, id, classify, uids) ==>
          r.startedAt <= events[i].timestamp && (events[i].createdAt.Some? ==> r.startedAt <= events[i].createdAt.value))
    && exists i :: Told(events, i, id, classify, uids) && (r.startedAt == events[i].timestamp || events[i].createdAt == Some(r.startedAt))
  }

  lemma {:induction false} FirstBeginning(init: seq<Event>, e: Event, id: Identity, classify: Event -> Option<Classification>, uids: map<string, string>)
    requires !Known(init, id, classify, uids) && Told(init + [e], |init|, id, classify, uids)
    ensures Begins(Fed(NewRecord(e, classify(e).value), e, classify(e).value), init + [e], id, classify, uids)
  {
    EarlierStay(init, e, id, classify, uids);
    assert (init + [e])[|init|] == e;
  }

  lemma {:induction false} BeginningMore(r: Record, init: seq<Event>, e: Event, id: Identity, classify: Event -> Option<Classification>, uids: map<string, string>)
    requires Begins(r, init, id, classify, uids)
    ensures Told(init + [e], |init|, id, classify, uids) ==> Begins(Fed(r, e, classify(e).value), init + [e], id, classify, uids)
    ensures !Told(init + [e], |init|, id, classify, uids) ==> Begins(r, init + [e], id, classify, uids)
  {
    var more, n := init + [e], |init|;
    EarlierStay(init, e, id, classify, uids);
    assert more[n] == e && forall i :: 0 <= i < n ==> more[i] == init[i];
    var i :| Told(init, i, id, classify, uids) && (r.startedAt == init[i].timestamp || init[i].createdAt == Some(r.startedAt));
    assert Told(more, i, id, classify, uids);
    assert forall i :: Told(more, i, id, classify, uids) ==> i == n || Told(init, i, id, classify, uids);
  }

  lemma {:induction false} DeletionBegins(r: Record, events: seq<Event>, e: Event, id: Identity, classify: Event -> Option<Classification>, uids: map<string, string>)
    requires Begins(r, events, id, classify, uids)
    ensures Begins(EndedBy(r, e), events, id, classify, uids)
  {
  }

  lemma {:induction false} ClaimStart(events: seq<Event>, id: Identity, classify: Event -> Option<Classification>, uids: map<string, string>)
    requires Sensible(classify) && Known(events, id, classify, uids)
    ensures var r := At(Folded(events, classify, uids), ProvisionOf(id));
            r.Some? && Begins(r.value, events, id, classify, uids)
  {
    var init, e := events[..|events| - 1], events[|events| - 1];
    var records := Folded(init, classify, uids);
    ClaimOutcome(init, id, classify, uids);
    OneMoreEvent(records, init, e, id, classify, uids);
    KnownMore(init, e, id, classify, uids);
    assert init + [e] == events;
    if Known(init, id, classify, uids) {
      var r := At(records, ProvisionOf(id)).value;
      ClaimStart(init, id, classify, uids);
      BeginningMore(r, init, e, id, classify, uids);
      if !Told(events, |init|, id, classify, uids) { DeletionBegins(r, events, e, id, classify, uids); }
    } else {
      FirstBeginning(init, e, id, classify, uids);
    }
  }

  ghost function Tellings(events: seq<Event>, id: Identity, classify: Event -> Option<Classification>, uids: map<string, string>): nat {
    if events == [] then 0
    else Tellings(events[..|events| - 1], id, classify, uids) + if Told(events, |events| - 1, id, classify, uids) then 1 else 0
  }

  /** It was deleted while still in progress. */
  ghost predicate CutShort(events: seq<Event>, id: Identity, classify: Event -> Option<Classification>, uids: map<string, string>) {
    exists j :: DeletedAt(events, j, id, classify, uids) && NotOver(events, j, id, classify, uids)
  }

  ghost predicate NotOver(events: seq<Event>, j: int, id: Identity, classify: Event -> Option<Classification>, uids: map<string, string>) {
    forall i :: i < j ==> !ToldOf(events, i, Completed, id, classify, uids) && !ToldOf(events, i, Failed, id, classify, uids)
  }

  lemma {:induction false} CutShortMore(init: seq<Event>, e: Event, id: Identity, classify: Event -> Option<Classification>, uids: map<string, string>)
    ensures var (n, more) := (|init|, init + [e]);
            CutShort(more, id, classify, uids) <==>
            CutShort(init, id, classify, uids) ||
            (DeletedAt(more, n, id, classify, uids) && !Saw(init, Completed, id, classify, uids) && !Saw(init, Failed, id, classify, uids))
  {
    var more, n := init + [e], |init|;
    EarlierStay(init, e, id, classify, uids);
    forall j | j <= n ensures NotOver(more, j, id, classify, uids) <==> NotOver(init, j, id, classify, uids) {
      assert forall i, s :: i < j ==> (ToldOf(more, i, s, id, classify, uids) <==> ToldOf(init, i, s, id, classify, uids));
    }
    assert NotOver(init, n, id, classify, uids) <==> !Saw(init, Completed, id, classify, uids) && !Saw(init, Failed, id, classify, uids);
    if j :| DeletedAt(init, j, id, classify, uids) && NotOver(init, j, id, classify, uids) {
      assert DeletedAt(more, j, id, classify, uids) && NotOver(more, j, id, classify, uids);
    }
    if j :| DeletedAt(more, j, id, classify, uids) && NotOver(more, j, id, classify, uids) {
      assert j < n ==> DeletedAt(init, j, id, classify, uids);
    }
  }

  /** A first deletion with nothing over before it. */
  lemma {:induction false} UnfinishedDeletion(events: seq<Event>, id: Identity, classify: Event -> Option<Classification>, uids: map<string, string>)
    requires Deleted(events, id, classify, uids) && !Saw(events, Completed, id, classify, uids) && !Saw(events, Failed, id, classify, uids)
    ensures CutShort(events, id, classify, uids)
  {
    var j :| DeletedAt(events, j, id, classify, uids);
    assert NotOver(events, j, id, classify, uids);
  }

  /** Whether a deletion cuts it short, seen from its record. */
  lemma {:induction false} DeletionCuts(r: Record, init: seq<Event>, e: Event, id: Identity, classify: Event -> Option<Classification>, uids: map<string, string>)
    requires Ends(r, init, id, classify, uids) && DeletedAt(init + [e], |init|, id, classify, uids)
    ensures r.terminalAt.None? <==> CutShort(init + [e], id, classify, uids) && !CutShort(init, id, classify, uids)
    ensures CutShort(init, id, classify, uids) ==> CutShort(init + [e], id, classify, uids)
  {
    CutShortMore(init, e, id, classify, uids);
    if Deleted(init, id, classify, uids) && !Saw(init, Completed, id, classify, uids) && !Saw(init, Failed, id, classify, uids) {
      UnfinishedDeletion(init, id, classify, uids);
    }
  }

  lemma {:induction false} TellingsMore(init: seq<Event>, e: Event, id: Identity, classify: Event -> Option<Classification>, uids: map<string, string>)
    ensures Tellings(init + [e], id, classify, uids) ==
            Tellings(init, id, classify, uids) + if Told(init + [e], |init|, id, classify, uids) then 1 else 0
  {
    assert (init + [e])[..|init|] == init;
  }

  ghost function Noted(events: seq<Event>, id: Identity, classify: Event -> Option<Classification>, uids: map<string, string>): nat {
    Tellings(events, id, classify, uids) + if CutShort(events, id, classify, uids) then 1 else 0
  }

  lemma {:induction false} NotedMore(init: seq<Event>, e: Event, id: Identity, classify: Event -> Option<Classification>, uids: map<string, string>)
    ensures !Told(init + [e], |init|, id, classify, uids) && !DeletedAt(init + [e], |init|, id, classify, uids) ==>
              Noted(init + [e], id, classify, uids) == Noted(init, id, classify, uids)
    ensures Sensible(classify) && Told(init + [e], |init|, id, classify, uids) ==>
              Noted(init + [e], id, classify, uids) == Noted(init, id, classify, uids) + 1
  {
    TellingsMore(init, e, id, classify, uids);
    CutShortMore(init, e, id, classify, uids);
    assert (init + [e])[|init|] == e;
  }

  lemma {:induction false} DeletionNotes(r: Record, init: seq<Event>, e: Event, id: Identity, classify: Event -> Option<Classification>, uids: map<string, string>)
    requires Sensible(classify) && DeletedAt(init + [e], |init|, id, classify, uids)
    requires Ends(r, init, id, classify, uids) && r.evidence == Noted(init, id, classify, uids)
    ensures EndedBy(r, e).evidence == Noted(init + [e], id, classify, uids)
  {
    assert (init + [e])[|init|] == e;
    TellingsMore(init, e, id, classify, uids);
    DeletionCuts(r, init, e, id, classify, uids);
  }

  ghost predicate Accounted(r: Option<Record>, events: seq<Event>, id: Identity, classify: Event -> Option<Classification>, uids: map<string, string>) {
    (if r.Some? then r.value.evidence else 0) == Noted(events, id, classify, uids)
  }

  lemma {:induction false} AccountMore(r: Option<Record>, init: seq<Event>, e: Event, id: Identity, classify: Event -> Option<Classification>, uids: map<string, string>)
    requires Sensible(classify) && (r.Some? <==> Known(init, id, classify, uids)) && Accounted(r, init, id, classify, uids)
    requires r.Some? ==> Ends(r.value, init, id, classify, uids)
    ensures var (n, more) := (|init|, init + [e]);
            if Told(more, n, id, classify, uids) then
              var c := classify(e).value;
              Accounted(Some(Fed(if r.Some? then r.value else NewRecord(e, c), e, c)), more, id, classify, uids)
            else if r.Some? && DeletedAt(more, n, id, classify, uids) then Accounted(Some(EndedBy(r.value, e)), more, id, classify, uids)
            else Accounted(r, more, id, classify, uids)
  {
    NotedMore(init, e, id, classify, uids);
    if DeletedAt(init + [e], |init|, id, classify, uids) {
      if r.Some? {
        DeletionNotes(r.value, init, e, id, classify, uids);
      } else {
        UnknownIsNotDeleted(init, e, id, classify, uids);
      }
    }
  }

  lemma {:induction false} UnknownIsNotDeleted(init: seq<Event>, e: Event, id: Identity, classify: Event -> Option<Classification>, uids: map<string, string>)
    requires !Known(init, id, classify, uids)
    ensures !DeletedAt(init + [e], |init|, id, classify, uids)
  {
    EarlierStay(init, e, id, classify, uids);
  }

  /** Its evidence is one piece per event told of it, and one for a deletion
      that cut it short. */
  lemma {:induction false} ClaimEvidence(events: seq<Event>, id: Identity, classify: Event -> Option<Classification>, uids: map<string, string>)
    requires Sensible(classify)
    ensures var r := At(Folded(events, classify, uids), ProvisionOf(id));
            (if r.Some? then r.value.evidence else 0) ==
            Tellings(events, id, classify, uids) + if CutShort(events, id, classify, uids) then 1 else 0
  {
    if events == [] {
    } else {
      var init, e := events[..|events| - 1], events[|events| - 1];
      var records := Folded(init, classify, uids);
      ClaimEvidence(init, id, classify, uids);
      ClaimOutcome(init, id, classify, uids);
      assert Accounted(At(records, ProvisionOf(id)), init, id, classify, uids);
      OneMoreEvent(records, init, e, id, classify, uids);
      AccountMore(At(records, ProvisionOf(id)), init, e, id, classify, uids);
      assert init + [e] == events;
    }
  }
}
