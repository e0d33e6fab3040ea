/** Deciding whether an apply turn changed the cluster, from the results of the
    write tools it called and from nothing else. */
module ApplyOutcome {
  import opened Wrappers
  import opened RunEvents
  import opened ToolNames

  datatype Json = Null | Bool(value: bool) | Text(text: string) | Number(digits: string) | List(items: seq<Json>) | Object(fields: map<string, Json>)

  datatype GitOpsInput = GitOpsInput(action: string, tool: string, dryRun: Option<bool>)

  /** The standard library's decoding, taken as given. A decoder of a result
      yields None for text that is not a JSON object. */
  datatype Decoding = Decoding(
    result: string -> Option<map<string, Json>>,
    gitOps: string -> Option<GitOpsInput>,
    dryRun: string -> Option<bool>,
    fold: string -> string,   // trimmed and lower-cased
    blank: string -> bool)

  datatype MutationStep = MutationStep(tool: string, summary: string, result: string, done: bool, isError: Option<bool>, truncated: bool)

  const NEW_STEP := MutationStep("", "", "", false, None, false)

  datatype Tracker = Tracker(steps: map<string, MutationStep>, anonymous: bool)

  const NEW_TRACKER := Tracker(map[], false)

  predicate Concerns(e: StreamEvent, id: string) { e.StepEvent? && e.step.Some? && e.step.value.id == id }

  predicate WriteCall(e: StreamEvent, id: string) { Concerns(e, id) && IsWrite(e.step.value.tool) }

  function Merged(s: MutationStep, step: StepInfo): MutationStep {
    if step.status == "running" then s.(tool := Normalize(step.tool), summary := step.summary)
    else if step.status == "done" then
      s.(done := true, isError := step.isError, result := step.result, truncated := step.truncated,
         tool := if step.tool != "" then Normalize(step.tool) else s.tool,
         summary := if step.summary != "" then step.summary else s.summary)
    else s
  }

  function Observed(t: Tracker, e: StreamEvent): Tracker {
    if !(e.StepEvent? && e.step.Some?) then t
    else
      var step := e.step.value;
      if step.id !in t.steps && !IsWrite(step.tool) then t
      else if step.id == "" then t.(anonymous := true)
      else t.(steps := t.steps[step.id := Merged(if step.id in t.steps then t.steps[step.id] else NEW_STEP, step)])
  }

  function ObservedAll(events: seq<StreamEvent>): Tracker {
    if events == [] then NEW_TRACKER
    else Observed(ObservedAll(events[..|events| - 1]), events[|events| - 1])
  }

  // ---------------------------------------------------------------- evidence

  datatype MutationEvidence = EvidenceUnknown | EvidenceNone | EvidenceConfirmed

  predicate Flag(fields: map<string, Json>, name: string) { name in fields && fields[name] == Bool(true) }

  predicate ResultIsDryRun(fields: map<string, Json>) {
    || Flag(fields, "dry_run")
    || ("resources" in fields && fields["resources"].List? &&
        exists r :: r in fields["resources"].items && r.Object? && Flag(r.fields, "dry_run"))
  }

  function StatusOf(d: Decoding, fields: map<string, Json>): string {
    d.fold(if "status" in fields && fields["status"].Text? then fields["status"].text else "")
  }

  function Evidence(d: Decoding, s: MutationStep): MutationEvidence {
    if !s.done || s.isError != Some(false) || s.truncated then EvidenceUnknown
    else match d.result(s.result)
      case None => EvidenceUnknown
      case Some(fields) =>
        if StatusOf(d, fields) != "ok" then EvidenceUnknown
        else if ResultIsDryRun(fields) || Flag(fields, "noChange") then EvidenceNone
        else if s.tool == "manage_gitops" then
          (match d.gitOps(s.summary)
           case None => EvidenceUnknown
           case Some(input) =>
             if d.blank(input.action) || d.blank(input.tool) then EvidenceUnknown
             else if input.dryRun == Some(true) then EvidenceNone
             else EvidenceConfirmed)
        else if s.tool == "apply_resource" && d.dryRun(s.summary) == Some(true) then EvidenceNone
        else EvidenceConfirmed
  }

  // What a call's row says, in the producer's terms.

  predicate EndedCleanly(s: MutationStep) { s.done && s.isError == Some(false) && !s.truncated }

  predicate SaysOk(d: Decoding, s: MutationStep) {
    d.result(s.result).Some? &&
    var fields := d.result(s.result).value;
    d.fold(if "status" in fields && fields["status"].Text? then fields["status"].text else "") == "ok"
  }

  /** The result says that it was a dry run or that nothing changed. */
  predicate ResultSaysHarmless(d: Decoding, s: MutationStep) {
    d.result(s.result).Some? &&
    var fields := d.result(s.result).value;
    || ("dry_run" in fields && fields["dry_run"] == Bool(true))
    || ("noChange" in fields && fields["noChange"] == Bool(true))
    || ("resources" in fields && fields["resources"].List? &&
        exists r :: r in fields["resources"].items && r.Object? && "dry_run" in r.fields && r.fields["dry_run"] == Bool(true))
  }

  predicate ReadableInput(d: Decoding, s: MutationStep) {
    s.tool == "manage_gitops" ==>
      d.gitOps(s.summary).Some? && !d.blank(d.gitOps(s.summary).value.action) && !d.blank(d.gitOps(s.summary).value.tool)
  }

  /** The call was asked to change nothing. */
  predicate AskedHarmless(d: Decoding, s: MutationStep) {
    || (s.tool == "manage_gitops" && ReadableInput(d, s) && d.gitOps(s.summary).value.dryRun == Some(true))
    || (s.tool == "apply_resource" && d.dryRun(s.summary) == Some(true))
  }

  /** The call ended well and provably changed nothing. */
  predicate Harmless(d: Decoding, s: MutationStep) {
    EndedCleanly(s) && SaysOk(d, s) && (ResultSaysHarmless(d, s) || AskedHarmless(d, s))
  }

  /** The call ended well and provably changed something. */
  predicate Mutated(d: Decoding, s: MutationStep) {
    EndedCleanly(s) && SaysOk(d, s) && !ResultSaysHarmless(d, s) && !AskedHarmless(d, s) && ReadableInput(d, s)
  }

  lemma {:induction false} EvidenceMeans(d: Decoding, s: MutationStep)
    ensures Evidence(d, s).EvidenceNone? <==> Harmless(d, s)
    ensures Evidence(d, s).EvidenceConfirmed? <==> Mutated(d, s)
  {
    if d.result(s.result).Some? {
      var fields := d.result(s.result).value;
      assert ResultSaysHarmless(d, s) <==> ResultIsDryRun(fields) || Flag(fields, "noChange");
      assert SaysOk(d, s) <==> StatusOf(d, fields) == "ok";
    }
  }

  predicate AnyUnknown(d: Decoding, t: Tracker) {
    t.anonymous || exists id :: id in t.steps && Evidence(d, t.steps[id]).EvidenceUnknown?
  }

  predicate AnyConfirmed(d: Decoding, t: Tracker) {
    exists id :: id in t.steps && Evidence(d, t.steps[id]).EvidenceConfirmed?
  }

  function OutcomeOf(d: Decoding, t: Tracker, fullLocal: bool): Outcome {
    if fullLocal || AnyUnknown(d, t) then Unknown
    else if AnyConfirmed(d, t) then Confirmed
    else Failed
  }

  class ApplyMutationTracker {
    var steps: map<string, MutationStep>
    var anonymousStarted: bool

    constructor ()
      ensures View() == NEW_TRACKER
    {
      steps := map[];
      anonymousStarted := false;
    }

    ghost function View(): Tracker
      reads this
    {
      Tracker(steps, anonymousStarted)
    }

    method Observe(e: StreamEvent)
      modifies this
      ensures View() == Observed(old(View()), e)
    {
      if !e.StepEvent? || e.step.None? {
        return;
      }
      var step := e.step.value;
      var tracked := step.id in steps;
      if !tracked && !IsWrite(step.tool) {
        return;
      }
      if step.id == "" {
        anonymousStarted := true;
        return;
      }
      var state := if tracked then steps[step.id] else NEW_STEP;
      if step.status == "running" {
        state := state.(tool := Normalize(step.tool), summary := step.summary);
      } else if step.status == "done" {
        state := state.(done := true, isError := step.isError, result := step.result, truncated := step.truncated);
        if step.tool != "" {
          state := state.(tool := Normalize(step.tool));
        }
        if step.summary != "" {
          state := state.(summary := step.summary);
        }
      }
      steps := steps[step.id := state];
    }

    /** Weighs the steps in whatever order the map yields them. */
    method Decide(d: Decoding, fullLocal: bool) returns (outcome: Outcome)
      ensures outcome == OutcomeOf(d, View(), fullLocal)
    {
      if fullLocal {
        return Unknown;
      }
      var confirmed: nat := 0;
      var unknown := anonymousStarted;
      var left := steps.Keys;
      while left != {}
        invariant left <= steps.Keys
        invariant unknown <==> anonymousStarted ||
                               exists id :: id in steps && id !in left && Evidence(d, steps[id]).EvidenceUnknown?
        invariant confirmed > 0 <==> exists id :: id in steps && id !in left && Evidence(d, steps[id]).EvidenceConfirmed?
        decreases left
      {
        var id :| id in left;
        ghost var before := left;
        left := left - {id};
        match Evidence(d, steps[id]) {
          case EvidenceUnknown => unknown := true;
          case EvidenceNone =>
          case EvidenceConfirmed => confirmed := confirmed + 1;
        }
        assert forall k :: k in steps && k !in left <==> k in steps && (k !in before || k == id);
      }
      if unknown {
        return Unknown;
      }
      if confirmed > 0 {
        return Confirmed;
      }
      return Failed;
    }
  }

  // ---------------------------------------------------------------- interleaving

  /** The events that concern one call. */
  function Project(events: seq<StreamEvent>, id: string): seq<StreamEvent> {
    if events == [] then []
    else
      var init := Project(events[..|events| - 1], id);
      if Concerns(events[|events| - 1], id) then init + [events[|events| - 1]] else init
  }

  /** What a tracker knows about one call; for the empty id, whether one was seen. */
  predicate Agree(t: Tracker, u: Tracker, id: string) {
    if id == "" then t.anonymous == u.anonymous
    else (id in t.steps <==> id in u.steps) && (id in t.steps ==> t.steps[id] == u.steps[id])
  }

  lemma {:induction false} NeverTracksTheEmptyId(events: seq<StreamEvent>)
    ensures "" !in ObservedAll(events).steps
  {
    if events != [] { NeverTracksTheEmptyId(events[..|events| - 1]); }
  }

  lemma {:induction false} OneCallAtATime(events: seq<StreamEvent>, id: string)
    ensures Agree(ObservedAll(events), ObservedAll(Project(events, id)), id)
  {
    if events != [] {
      var init, last := events[..|events| - 1], events[|events| - 1];
      OneCallAtATime(init, id);
      NeverTracksTheEmptyId(init);
      NeverTracksTheEmptyId(Project(init, id));
      if Concerns(last, id) {
        var p := Project(init, id) + [last];
        assert p[..|p| - 1] == Project(init, id) && p[|p| - 1] == last;
        assert ObservedAll(p) == Observed(ObservedAll(Project(init, id)), last);
      }
    }
  }

  /** The outcome depends only on each call's own events, never on how the calls
      interleave. */
  lemma {:induction false} InterleavingDoesNotMatter(a: seq<StreamEvent>, b: seq<StreamEvent>, d: Decoding, fullLocal: bool)
    requires forall id :: Project(a, id) == Project(b, id)
    ensures OutcomeOf(d, ObservedAll(a), fullLocal) == OutcomeOf(d, ObservedAll(b), fullLocal)
  {
    var t, u := ObservedAll(a), ObservedAll(b);
    forall id ensures Agree(t, u, id) {
      OneCallAtATime(a, id);
      OneCallAtATime(b, id);
    }
    NeverTracksTheEmptyId(a);
    NeverTracksTheEmptyId(b);
    assert Agree(t, u, "");
    assert t.steps == u.steps by {
      forall id ensures (id in t.steps <==> id in u.steps) && (id in t.steps ==> t.steps[id] == u.steps[id]) {
        assert Agree(t, u, id);
      }
    }
  }

  // ---------------------------------------------------------------- honesty

  ghost predicate WriteSeen(events: seq<StreamEvent>, id: string) {
    exists i :: 0 <= i < |events| && WriteCall(events[i], id)
  }

  lemma {:induction false} WriteSeenExtends(events: seq<StreamEvent>, id: string)
    requires events != []
    ensures WriteSeen(events, id) <==> WriteSeen(events[..|events| - 1], id) || WriteCall(events[|events| - 1], id)
  {
    var init := events[..|events| - 1];
    if i :| 0 <= i < |init| && WriteCall(init[i], id) {
      assert WriteCall(events[i], id);
    }
    if i :| 0 <= i < |events| && WriteCall(events[i], id) {
      assert i < |init| ==> WriteCall(init[i], id);
    }
  }

  /** A call is tracked exactly when one of its events names a write tool. */
  lemma {:induction false} TrackedIffWriteSeen(events: seq<StreamEvent>, id: string)
    requires id != ""
    ensures id in ObservedAll(events).steps <==> WriteSeen(events, id)
  {
    if events != [] {
      TrackedIffWriteSeen(events[..|events| - 1], id);
      WriteSeenExtends(events, id);
    }
  }

  lemma {:induction false} AnonymousIffWriteSeen(events: seq<StreamEvent>)
    ensures ObservedAll(events).anonymous <==> WriteSeen(events, "")
  {
    if events != [] {
      AnonymousIffWriteSeen(events[..|events| - 1]);
      NeverTracksTheEmptyId(events[..|events| - 1]);
      WriteSeenExtends(events, "");
    }
  }

  /** A call's terminal row. */
  predicate Reports(e: StreamEvent, id: string, s: MutationStep) {
    Concerns(e, id) && e.step.value.status == "done" &&
    e.step.value.result == s.result && e.step.value.isError == s.isError && e.step.value.truncated == s.truncated
  }

  /** A step counts as done only on the word of a terminal row of that call. */
  lemma {:induction false} DoneWasReported(events: seq<StreamEvent>, id: string)
    requires id in ObservedAll(events).steps && ObservedAll(events).steps[id].done
    ensures exists i :: 0 <= i < |events| && Reports(events[i], id, ObservedAll(events).steps[id])
  {
    var init, last := events[..|events| - 1], events[|events| - 1];
    if Concerns(last, id) && last.step.value.status == "done" {
      NeverTracksTheEmptyId(events);
      assert Reports(last, id, ObservedAll(events).steps[id]);
    } else {
      DoneWasReported(init, id);
      var i :| 0 <= i < |init| && Reports(init[i], id, ObservedAll(init).steps[id]);
      assert Reports(events[i], id, ObservedAll(events).steps[id]);
    }
  }

  /** Confirmed means exactly: a trusted profile, no anonymous write, every write
      call known to have changed something or to have changed nothing, and at
      least one of them a change. */
  lemma {:induction false} ConfirmedMeans(events: seq<StreamEvent>, d: Decoding, fullLocal: bool)
    ensures var t := ObservedAll(events);
            OutcomeOf(d, t, fullLocal).Confirmed? <==>
              && !fullLocal
              && !WriteSeen(events, "")
              && (forall id :: id in t.steps ==> Mutated(d, t.steps[id]) || Harmless(d, t.steps[id]))
              && (exists id :: id in t.steps && Mutated(d, t.steps[id]))
  {
    AnonymousIffWriteSeen(events);
    StepsMean(ObservedAll(events), d);
  }

  /** Failed means exactly that every write call is known to have changed nothing. */
  lemma {:induction false} FailedMeans(events: seq<StreamEvent>, d: Decoding, fullLocal: bool)
    ensures var t := ObservedAll(events);
            OutcomeOf(d, t, fullLocal).Failed? <==>
              !fullLocal && !WriteSeen(events, "") && forall id :: id in t.steps ==> Harmless(d, t.steps[id])
  {
    AnonymousIffWriteSeen(events);
    StepsMean(ObservedAll(events), d);
  }

  lemma {:induction false} StepsMean(t: Tracker, d: Decoding)
    ensures forall id :: id in t.steps ==> (Evidence(d, t.steps[id]).EvidenceNone? <==> Harmless(d, t.steps[id]))
    ensures forall id :: id in t.steps ==> (Evidence(d, t.steps[id]).EvidenceConfirmed? <==> Mutated(d, t.steps[id]))
  {
    forall id | id in t.steps
      ensures Evidence(d, t.steps[id]).EvidenceNone? <==> Harmless(d, t.steps[id])
      ensures Evidence(d, t.steps[id]).EvidenceConfirmed? <==> Mutated(d, t.steps[id])
    {
      EvidenceMeans(d, t.steps[id]);
    }
  }

  /** One write call without a clean terminal row forces an unknown outcome. */
  lemma {:induction false} UnfinishedWriteForcesUnknown(events: seq<StreamEvent>, i: nat, d: Decoding, fullLocal: bool)
    requires i < |events| && events[i].StepEvent? && events[i].step.Some? && IsWrite(events[i].step.value.tool)
    requires forall j :: 0 <= j < |events| && Concerns(events[j], events[i].step.value.id) ==>
               var s := events[j].step.value; s.status != "done" || s.isError != Some(false) || s.truncated
    ensures OutcomeOf(d, ObservedAll(events), fullLocal).Unknown?
  {
    var id := events[i].step.value.id;
    assert WriteCall(events[i], id);
    if id == "" {
      AnonymousIffWriteSeen(events);
    } else {
      TrackedIffWriteSeen(events, id);
      var t := ObservedAll(events);
      if t.steps[id].done {
        DoneWasReported(events, id);
      }
      assert Evidence(d, t.steps[id]).EvidenceUnknown?;
    }
  }

  /** A failed outcome means no mutation can have landed: every write call ended
      with a clean row that its producer declared a dry run or a no-op. */
  lemma {:induction false} FailedMeansNothingLanded(events: seq<StreamEvent>, d: Decoding, fullLocal: bool, i: nat)
    requires OutcomeOf(d, ObservedAll(events), fullLocal).Failed?
    requires i < |events| && events[i].StepEvent? && events[i].step.Some? && IsWrite(events[i].step.value.tool)
    ensures var id := events[i].step.value.id;
            && id in ObservedAll(events).steps
            && Harmless(d, ObservedAll(events).steps[id])
            && exists j :: 0 <= j < |events| && Concerns(events[j], id) && events[j].step.value.status == "done"
                           && events[j].step.value.isError == Some(false) && !events[j].step.value.truncated
  {
    var id := events[i].step.value.id;
    assert WriteCall(events[i], id);
    AnonymousIffWriteSeen(events);
    TrackedIffWriteSeen(events, id);
    FailedMeans(events, d, fullLocal);
    DoneWasReported(events, id);
    var j :| 0 <= j < |events| && Reports(events[j], id, ObservedAll(events).steps[id]);
    assert Concerns(events[j], id);
  }
}
