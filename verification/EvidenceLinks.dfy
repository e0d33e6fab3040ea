/** Which tool results a verdict may cite.

    While a turn streams, the validator marks a result whose payload is exactly
    one that Radar issued. When the turn ends, a two-pass match table over the
    run's whole log decides which references stand. */
module EvidenceLinks {
  import opened Wrappers
  import opened RunEvents
  import opened ToolNames

  // ---------------------------------------------------------------- references

  predicate ScopeChar(c: char) { 'a' <= c <= 'z' || '2' <= c <= '7' }

  predicate ValidScope(scope: string) {
    26 <= |scope| <= 128 && forall i :: 0 <= i < |scope| ==> ScopeChar(scope[i])
  }

  function RefPrefix(scope: string): string { "ev_" + scope + "_" }

  const MAX_TOOL_PAYLOAD: nat := 96 * 1024

  /** Cuts a long payload and says whether it did. */
  function CapPayload(s: string): (c: (string, bool))
    ensures !c.1 ==> c.0 == s
    ensures c.1 <==> |s| > MAX_TOOL_PAYLOAD
    ensures c.1 ==> s[..MAX_TOOL_PAYLOAD] < c.0
  {
    if |s| > MAX_TOOL_PAYLOAD then (s[..MAX_TOOL_PAYLOAD] + "\n\U{2026}", true) else (s, false)
  }

  // ---------------------------------------------------------------- the stream validator

  /** What reaches the validator: an event, the payload its producer saw, and the
      records of the turn's scope at that moment, if the scope is active. */
  datatype Arrival = Arrival(event: StreamEvent, producer: Option<string>, records: Option<map<string, string>>)

  function Unmarked(e: StreamEvent): StreamEvent {
    if e.StepEvent? && e.step.Some? then StepEvent(Some(e.step.value.(radarEvidence := false))) else e
  }

  predicate Marked(e: StreamEvent, ref: string) {
    e.StepEvent? && e.step.Some? && e.step.value.radarEvidence && e.step.value.evidenceRef == ref
  }

  predicate Proven(a: Arrival, scope: string, claimed: set<string>) {
    a.event.StepEvent? && a.event.step.Some? && a.producer.Some? && a.records.Some? &&
    var step := a.event.step.value;
    && scope != "" && step.status == "done" && step.evidenceRef != ""
    && CapPayload(a.producer.value) == (step.result, step.truncated)
    && step.evidenceRef !in claimed
    && step.evidenceRef in a.records.value && a.records.value[step.evidenceRef] == a.producer.value
  }

  function Validated(a: Arrival, scope: string, claimed: set<string>): (StreamEvent, set<string>) {
    if Proven(a, scope, claimed)
    then (StepEvent(Some(a.event.step.value.(radarEvidence := true))), claimed + {a.event.step.value.evidenceRef})
    else (Unmarked(a.event), claimed)
  }

  class EvidenceValidator {
    const scope: string
    var claimed: set<string>

    constructor (scope: string)
      ensures this.scope == scope && claimed == {}
    {
      this.scope := scope;
      claimed := {};
    }

    method Validate(a: Arrival) returns (e: StreamEvent)
      modifies this
      ensures (e, claimed) == Validated(a, scope, old(claimed))
    {
      e := a.event;
      if !e.StepEvent? || e.step.None? {
        return;
      }
      var step := e.step.value.(radarEvidence := false);
      e := StepEvent(Some(step));
      if scope == "" || step.status != "done" || step.evidenceRef == "" || a.producer.None? {
        return;
      }
      var (retained, truncated) := CapPayload(a.producer.value);
      if retained != step.result || truncated != step.truncated {
        return;
      }
      if step.evidenceRef in claimed {
        return;
      }
      if a.records.None? || step.evidenceRef !in a.records.value || a.records.value[step.evidenceRef] != a.producer.value {
        return;
      }
      claimed := claimed + {step.evidenceRef};
      e := StepEvent(Some(step.(radarEvidence := true)));
    }
  }

  /** A whole turn's stream, and the references it claimed. */
  function ValidatedAll(arrivals: seq<Arrival>, scope: string): (v: (seq<StreamEvent>, set<string>))
    ensures |v.0| == |arrivals|
  {
    if arrivals == [] then ([], {})
    else
      var (events, claimed) := ValidatedAll(arrivals[..|arrivals| - 1], scope);
      var (e, claimed') := Validated(arrivals[|arrivals| - 1], scope, claimed);
      (events + [e], claimed')
  }

  /** A marked event is one that was proven on arrival. */
  lemma {:induction false} MarkedWasProven(arrivals: seq<Arrival>, scope: string, i: nat, ref: string)
    requires i < |arrivals| && Marked(ValidatedAll(arrivals, scope).0[i], ref)
    ensures Proven(arrivals[i], scope, ValidatedAll(arrivals[..i], scope).1)
    ensures ref == arrivals[i].event.step.value.evidenceRef && ref in ValidatedAll(arrivals[..i + 1], scope).1
    ensures ValidatedAll(arrivals, scope).0[i] == StepEvent(Some(arrivals[i].event.step.value.(radarEvidence := true)))
  {
    var init := arrivals[..|arrivals| - 1];
    if i == |arrivals| - 1 {
      assert arrivals[..i] == init && arrivals[..i + 1] == arrivals;
    } else {
      MarkedWasProven(init, scope, i, ref);
      assert init[..i] == arrivals[..i] && init[..i + 1] == arrivals[..i + 1];
    }
  }

  lemma {:induction false} ClaimsGrow(arrivals: seq<Arrival>, scope: string, i: nat)
    requires i <= |arrivals|
    ensures ValidatedAll(arrivals[..i], scope).1 <= ValidatedAll(arrivals, scope).1
  {
    if i == |arrivals| {
      assert arrivals[..i] == arrivals;
    } else {
      var init := arrivals[..|arrivals| - 1];
      ClaimsGrow(init, scope, i);
      assert init[..i] == arrivals[..i];
    }
  }

  /** Each reference is marked at most once per turn, whatever the agent replays. */
  lemma {:induction false} MarkedAtMostOnce(arrivals: seq<Arrival>, scope: string, i: nat, j: nat, ref: string)
    requires i < j < |arrivals|
    requires Marked(ValidatedAll(arrivals, scope).0[i], ref)
    ensures !Marked(ValidatedAll(arrivals, scope).0[j], ref)
  {
    MarkedWasProven(arrivals, scope, i, ref);
    ClaimsGrow(arrivals[..j], scope, i + 1);
    assert arrivals[..j][..i + 1] == arrivals[..i + 1];
    if Marked(ValidatedAll(arrivals, scope).0[j], ref) {
      MarkedWasProven(arrivals, scope, j, ref);
    }
  }

  /** Within a scope, records are only ever added. */
  predicate Grows(arrivals: seq<Arrival>, final: map<string, string>) {
    forall i :: 0 <= i < |arrivals| && arrivals[i].records.Some? ==>
      forall ref :: ref in arrivals[i].records.value ==> ref in final && final[ref] == arrivals[i].records.value[ref]
  }

  /** What the validator marked and did not cut is what the closing snapshot
      still vouches for. */
  lemma {:induction false} MarkedIsStillIssued(arrivals: seq<Arrival>, scope: string, final: map<string, string>, i: nat, ref: string)
    requires Grows(arrivals, final)
    requires i < |arrivals| && Marked(ValidatedAll(arrivals, scope).0[i], ref)
    ensures ref in final && CapPayload(final[ref]).0 == ValidatedAll(arrivals, scope).0[i].step.value.result
    ensures !ValidatedAll(arrivals, scope).0[i].step.value.truncated ==>
              final[ref] == ValidatedAll(arrivals, scope).0[i].step.value.result
  {
    MarkedWasProven(arrivals, scope, i, ref);
  }

  // ---------------------------------------------------------------- the match table

  /** What the turn that just ended brings to the binding. */
  datatype Closing = Closing(scope: string, issued: map<string, string>, blank: string -> bool)

  predicate StepAt(log: seq<RunEvent>, i: int) {
    0 <= i < |log| && log[i].event.StepEvent? && log[i].event.step.Some?
  }

  /** How many turns begin among the first k events. */
  function Turns(log: seq<RunEvent>, k: nat): nat
    requires k <= |log|
  {
    if k == 0 then 0 else Turns(log, k - 1) + if log[k - 1].event.Turn? then 1 else 0
  }

  /** The number of the turn position i belongs to. */
  function TurnOf(log: seq<RunEvent>, i: nat): nat
    requires i < |log|
  {
    Turns(log, i + 1)
  }

  lemma {:induction false} TurnsGrow(log: seq<RunEvent>, i: nat, j: nat)
    requires i <= j <= |log|
    ensures Turns(log, i) <= Turns(log, j)
    ensures Turns(log, i) == Turns(log, j) <==> forall k :: i <= k < j ==> !log[k].event.Turn?
  {
    if i < j {
      TurnsGrow(log, i, j - 1);
    }
  }

  /** Two events belong to one turn if and only if none begins in between. */
  lemma {:induction false} SameTurnIff(log: seq<RunEvent>, i: nat, j: nat)
    requires i <= j < |log|
    ensures TurnOf(log, i) == TurnOf(log, j) <==> forall k :: i < k <= j ==> !log[k].event.Turn?
  {
    TurnsGrow(log, i + 1, j + 1);
  }

  /** Where the last turn's own events begin; past the end when there is no turn. */
  function TurnStart(log: seq<RunEvent>, n: nat): (s: nat)
    requires n <= |log|
    ensures s <= n || s == |log|
    ensures forall i :: s <= i + 1 <= n && i >= 0 && i + 1 > s ==> !log[i].event.Turn?
    ensures (s == 0 ==> n == 0 && |log| == 0) && (s < |log| ==> s > 0 && log[s - 1].event.Turn?)
  {
    if n == 0 then |log|
    else if log[n - 1].event.Turn? then n
    else TurnStart(log, n - 1)
  }

  /** Position j gives the call `id` of turn t a tool name. */
  predicate Names(log: seq<RunEvent>, j: int, t: nat, id: string) {
    StepAt(log, j) && TurnOf(log, j) == t && id != "" && log[j].event.step.value.id == id && log[j].event.step.value.tool != ""
  }

  function NameAt(log: seq<RunEvent>, j: nat): string
    requires StepAt(log, j)
  {
    Normalize(log[j].event.step.value.tool)
  }

  /** The call has one consistent tool identity in its turn, and it only reads. */
  ghost predicate ReadsOnly(log: seq<RunEvent>, t: nat, id: string) {
    && (exists j :: Names(log, j, t, id) && IsReadOnly(NameAt(log, j)))
    && (forall j, k :: Names(log, j, t, id) && Names(log, k, t, id) ==> NameAt(log, j) == NameAt(log, k))
  }

  predicate Carries(log: seq<RunEvent>, i: int, ref: string) {
    StepAt(log, i) && ref != "" && log[i].event.step.value.evidenceRef == ref
  }

  /** In the turn that just ended a reference stands on the payload issued for
      it; in an earlier turn it must be foreign to the closing scope. */
  predicate Authenticated(log: seq<RunEvent>, i: nat, ref: string, c: Closing)
    requires StepAt(log, i)
  {
    if i >= TurnStart(log, |log|)
    then ValidScope(c.scope) && RefPrefix(c.scope) <= ref && ref in c.issued && c.issued[ref] == log[i].event.step.value.result
    else !ValidScope(c.scope) || !(RefPrefix(c.scope) <= ref)
  }

  /** A complete, successful, untruncated result that Radar itself marked. */
  predicate Clean(step: StepInfo, c: Closing) {
    step.radarEvidence && step.id != "" && step.status == "done" && step.isError == Some(false) && !step.truncated && !c.blank(step.result)
  }

  ghost predicate Qualifies(log: seq<RunEvent>, i: nat, ref: string, c: Closing)
    requires StepAt(log, i)
  {
    var step := log[i].event.step.value;
    Clean(step, c) && ReadsOnly(log, TurnOf(log, i), step.id) && Authenticated(log, i, ref, c)
  }

  /** The declarative meaning: one event of the whole log carries the reference,
      and that event qualifies. */
  ghost predicate Stands(log: seq<RunEvent>, ref: string, c: Closing) {
    exists i :: Carries(log, i, ref) && Qualifies(log, i, ref, c) && forall j :: Carries(log, j, ref) ==> j == i
  }

  /** What a link vouches for: a marked, complete, successful and uncut result,
      of a call that nothing in its turn names otherwise than as one reading
      tool; issued in the closing scope with this very payload if no turn began
      after it, and not claiming to be of that scope otherwise. */
  lemma {:induction false} LinkVouchesFor(log: seq<RunEvent>, ref: string, c: Closing, i: nat)
    requires Stands(log, ref, c) && Carries(log, i, ref)
    ensures var step := log[i].event.step.value;
            && step.radarEvidence && step.status == "done" && step.isError == Some(false) && !step.truncated && !c.blank(step.result)
            && (exists j :: Names(log, j, TurnOf(log, i), step.id) && Normalize(Normalize(log[j].event.step.value.tool)) in READ_ONLY_TOOLS)
            && (forall j, k :: Names(log, j, TurnOf(log, i), step.id) && Names(log, k, TurnOf(log, i), step.id) ==>
                  Normalize(log[j].event.step.value.tool) == Normalize(log[k].event.step.value.tool))
    ensures Turns(log, |log|) > 0 && (forall k :: i <= k < |log| ==> !log[k].event.Turn?) ==>
              ref in c.issued && c.issued[ref] == log[i].event.step.value.result && "ev_" + c.scope + "_" <= ref
    ensures (exists k :: i <= k < |log| && log[k].event.Turn?) && ValidScope(c.scope) ==> !("ev_" + c.scope + "_" <= ref)
  {
    assert Qualifies(log, i, ref, c);
    var id, t := log[i].event.step.value.id, TurnOf(log, i);
    forall j, k | Names(log, j, t, id) && Names(log, k, t, id)
      ensures Normalize(log[j].event.step.value.tool) == Normalize(log[k].event.step.value.tool)
    {
      assert NameAt(log, j) == NameAt(log, k);
    }
    StartIsAfterLastTurn(log, i);
  }

  /** The last turn's events are those after which no turn begins. */
  lemma {:induction false} StartIsAfterLastTurn(log: seq<RunEvent>, i: nat)
    requires i < |log|
    ensures i >= TurnStart(log, |log|) <==> Turns(log, |log|) > 0 && forall k :: i <= k < |log| ==> !log[k].event.Turn?
  {
    StartWithoutTurns(log, |log|);
    var s := TurnStart(log, |log|);
    if i >= s {
      assert log[s - 1].event.Turn?;
      TurnsGrow(log, 0, |log|);
    } else if s < |log| {
      assert log[s - 1].event.Turn?;
    }
  }

  lemma {:induction false} StartWithoutTurns(log: seq<RunEvent>, n: nat)
    requires n <= |log|
    ensures TurnStart(log, n) == |log| ==> Turns(log, n) == 0 || (n == |log| && n > 0 && log[n - 1].event.Turn?)
  {
    if n > 0 && !log[n - 1].event.Turn? {
      StartWithoutTurns(log, n - 1);
    }
  }

  datatype Identity = Identity(name: string, conflicts: bool)

  datatype Match = Match(count: nat, valid: bool) {
    predicate Linked() { count == 1 && valid }
  }

  type Tools = map<(nat, string), Identity>

  /** The first pass, up to position k, for one call. */
  ghost predicate Identified(log: seq<RunEvent>, tools: Tools, k: nat, t: nat, id: string) {
    && ((t, id) in tools <==> exists j :: 0 <= j < k && Names(log, j, t, id))
    && ((t, id) in tools ==>
          && (exists j :: 0 <= j < k && Names(log, j, t, id) && NameAt(log, j) == tools[(t, id)].name)
          && (!tools[(t, id)].conflicts <==>
                forall j :: 0 <= j < k && Names(log, j, t, id) ==> NameAt(log, j) == tools[(t, id)].name))
  }

  ghost predicate IdentifiedUpTo(log: seq<RunEvent>, tools: Tools, k: nat) {
    forall t: nat, id: string :: Identified(log, tools, k, t, id)
  }

  function Noted(tools: Tools, key: (nat, string), name: string): Tools {
    tools[key := if key !in tools then Identity(name, false)
                 else if tools[key].name != name then tools[key].(conflicts := true) else tools[key]]
  }

  lemma {:induction false} IdentifiedSkipOne(log: seq<RunEvent>, tools: Tools, k: nat, t: nat, id: string)
    requires k < |log| && Identified(log, tools, k, t, id) && !Names(log, k, t, id)
    ensures Identified(log, tools, k + 1, t, id)
  {
    assert forall j :: 0 <= j < k + 1 && Names(log, j, t, id) <==> 0 <= j < k && Names(log, j, t, id);
  }

  lemma {:induction false} IdentifiedSkip(log: seq<RunEvent>, tools: Tools, k: nat)
    requires k < |log| && IdentifiedUpTo(log, tools, k)
    requires forall t: nat, id :: !Names(log, k, t, id)
    ensures IdentifiedUpTo(log, tools, k + 1)
  {
    var next := k + 1;
    forall t: nat, id: string ensures Identified(log, tools, next, t, id) {
      assert Identified(log, tools, k, t, id);
      IdentifiedSkipOne(log, tools, k, t, id);
    }
  }

  lemma {:induction false} IdentifiedName(log: seq<RunEvent>, tools: Tools, k: nat, key: (nat, string))
    requires k < |log| && IdentifiedUpTo(log, tools, k) && Names(log, k, key.0, key.1)
    ensures IdentifiedUpTo(log, Noted(tools, key, NameAt(log, k)), k + 1)
  {
    var tools' := Noted(tools, key, NameAt(log, k));
    var next := k + 1;
    forall t: nat, id: string ensures Identified(log, tools', next, t, id) {
      assert Identified(log, tools, k, t, id);
      if (t, id) == key {
        assert Names(log, k, t, id);
        if key in tools {
          var j :| 0 <= j < k && Names(log, j, t, id) && NameAt(log, j) == tools[key].name;
          assert tools'[key].name == tools[key].name;
        }
      } else {
        assert !Names(log, k, t, id);
      }
    }
  }

  method IdentifyTools(log: seq<RunEvent>) returns (tools: Tools, turnOf: seq<nat>)
    ensures IdentifiedUpTo(log, tools, |log|)
    ensures |turnOf| == |log| && forall i :: 0 <= i < |log| ==> turnOf[i] == TurnOf(log, i)
  {
    tools, turnOf := map[], [];
    var turn: nat := 0;
    var i := 0;
    while i < |log|
      invariant 0 <= i <= |log| && |turnOf| == i
      invariant turn == Turns(log, i)
      invariant forall j :: 0 <= j < i ==> turnOf[j] == TurnOf(log, j)
      invariant IdentifiedUpTo(log, tools, i)
    {
      if log[i].event.Turn? {
        turn := turn + 1;
      }
      turnOf := turnOf + [turn];
      if log[i].event.StepEvent? && log[i].event.step.Some? && log[i].event.step.value.id != "" && log[i].event.step.value.tool != "" {
        var step := log[i].event.step.value;
        var key, name := (turn, step.id), Normalize(step.tool);
        IdentifiedName(log, tools, i, key);
        if key !in tools {
          tools := tools[key := Identity(name, false)];
        } else if tools[key].name != name {
          tools := tools[key := tools[key].(conflicts := true)];
        }
        assert tools == Noted(tools, key, name);
      } else {
        IdentifiedSkip(log, tools, i);
      }
      i := i + 1;
    }
  }

  lemma {:induction false} IdentityDecides(log: seq<RunEvent>, tools: Tools, t: nat, id: string)
    requires IdentifiedUpTo(log, tools, |log|)
    ensures ReadsOnly(log, t, id) <==>
            (t, id) in tools && !tools[(t, id)].conflicts && IsReadOnly(tools[(t, id)].name)
  {
    assert Identified(log, tools, |log|, t, id);
    if (t, id) in tools {
      var j :| 0 <= j < |log| && Names(log, j, t, id) && NameAt(log, j) == tools[(t, id)].name;
      if ReadsOnly(log, t, id) {
        assert forall k :: 0 <= k < |log| && Names(log, k, t, id) ==> NameAt(log, k) == NameAt(log, j);
      }
    } else {
      assert forall j :: Names(log, j, t, id) ==> 0 <= j < |log|;
    }
  }

  /** The second pass, up to position k. */
  ghost predicate MatchedUpTo(log: seq<RunEvent>, matches: map<string, Match>, k: nat, c: Closing) {
    forall ref ::
      && (ref !in matches ==> forall i :: 0 <= i < k ==> !Carries(log, i, ref))
      && (ref in matches ==>
            && matches[ref].count > 0
            && (matches[ref].count == 1 ==>
                  exists i :: OnlyCarrier(log, i, ref, k) && (matches[ref].valid <==> Qualifies(log, i, ref, c)))
            && (matches[ref].count > 1 ==> Repeated(log, ref, k)))
  }

  ghost predicate OnlyCarrier(log: seq<RunEvent>, i: int, ref: string, k: nat) {
    0 <= i < k && Carries(log, i, ref) && forall j :: 0 <= j < k && Carries(log, j, ref) ==> j == i
  }

  ghost predicate Repeated(log: seq<RunEvent>, ref: string, k: nat) {
    exists i, j :: 0 <= i < j < k && Carries(log, i, ref) && Carries(log, j, ref)
  }

  lemma {:induction false} MatchedSkip(log: seq<RunEvent>, matches: map<string, Match>, k: nat, c: Closing)
    requires k < |log| && MatchedUpTo(log, matches, k, c)
    requires forall ref :: !Carries(log, k, ref)
    ensures MatchedUpTo(log, matches, k + 1, c)
  {
    forall ref | ref in matches && matches[ref].count == 1
      ensures exists i :: OnlyCarrier(log, i, ref, k + 1) && (matches[ref].valid <==> Qualifies(log, i, ref, c))
    {
      var i :| OnlyCarrier(log, i, ref, k) && (matches[ref].valid <==> Qualifies(log, i, ref, c));
      assert OnlyCarrier(log, i, ref, k + 1);
    }
  }

  lemma {:induction false} MatchedCarrier(log: seq<RunEvent>, matches: map<string, Match>, k: nat, c: Closing, ref: string, valid: bool)
    requires k < |log| && MatchedUpTo(log, matches, k, c) && Carries(log, k, ref)
    requires ref !in matches ==> (valid <==> Qualifies(log, k, ref, c))
    ensures MatchedUpTo(log, matches[ref := if ref in matches then Match(matches[ref].count + 1, false) else Match(1, valid)], k + 1, c)
  {
    if ref in matches {
      if matches[ref].count == 1 {
        var i :| OnlyCarrier(log, i, ref, k);
        assert Carries(log, i, ref) && Carries(log, k, ref);
      }
      assert Repeated(log, ref, k + 1);
    } else {
      assert OnlyCarrier(log, k, ref, k + 1);
    }
    forall other | other in matches && other != ref && matches[other].count == 1
      ensures exists i :: OnlyCarrier(log, i, other, k + 1) && (matches[other].valid <==> Qualifies(log, i, other, c))
    {
      var i :| OnlyCarrier(log, i, other, k) && (matches[other].valid <==> Qualifies(log, i, other, c));
      assert OnlyCarrier(log, i, other, k + 1);
    }
  }

  method FindTurnStart(log: seq<RunEvent>) returns (s: nat)
    ensures s == TurnStart(log, |log|)
  {
    var i := |log|;
    while i > 0
      invariant 0 <= i <= |log|
      invariant TurnStart(log, i) == TurnStart(log, |log|)
    {
      i := i - 1;
      if log[i].event.Turn? {
        return i + 1;
      }
    }
    return |log|;
  }

  /** The match table, and its meaning: a reference is linked exactly when it stands. */
  method MatchEvidence(log: seq<RunEvent>, c: Closing) returns (matches: map<string, Match>)
    ensures forall ref :: (ref in matches && matches[ref].Linked()) <==> Stands(log, ref, c)
  {
    var turnStart := FindTurnStart(log);
    var scopeValid := ValidScope(c.scope);
    var prefix := RefPrefix(c.scope);
    var tools, turnOf := IdentifyTools(log);
    matches := map[];
    var i := 0;
    while i < |log|
      invariant 0 <= i <= |log|
      invariant MatchedUpTo(log, matches, i, c)
    {
      if !(log[i].event.StepEvent? && log[i].event.step.Some? && log[i].event.step.value.evidenceRef != "") {
        MatchedSkip(log, matches, i, c);
      } else {
        var step := log[i].event.step.value;
        var ref := step.evidenceRef;
        var count := (if ref in matches then matches[ref].count else 0) + 1;
        var key := (turnOf[i], step.id);
        var authenticated :=
          if i >= turnStart
          then scopeValid && prefix <= ref && ref in c.issued && step.result == c.issued[ref]
          else !scopeValid || !(prefix <= ref);
        var valid := count == 1 && authenticated && step.radarEvidence && step.id != "" &&
                     key in tools && !tools[key].conflicts && IsReadOnly(tools[key].name) &&
                     step.status == "done" && step.isError == Some(false) && !step.truncated && !c.blank(step.result);
        IdentityDecides(log, tools, turnOf[i], step.id);
        MatchedCarrier(log, matches, i, c, ref, valid);
        matches := matches[ref := Match(count, valid)];
      }
      i := i + 1;
    }
    forall ref ensures (ref in matches && matches[ref].Linked()) <==> Stands(log, ref, c) {
      TableMeans(log, matches, ref, c);
    }
  }

  lemma {:induction false} TableMeans(log: seq<RunEvent>, matches: map<string, Match>, ref: string, c: Closing)
    requires MatchedUpTo(log, matches, |log|, c)
    ensures (ref in matches && matches[ref].Linked()) <==> Stands(log, ref, c)
  {
    if ref in matches && matches[ref].count == 1 {
      var i :| OnlyCarrier(log, i, ref, |log|) && (matches[ref].valid <==> Qualifies(log, i, ref, c));
      assert forall j :: Carries(log, j, ref) ==> j == i;
    } else if ref in matches {
      var i, j :| 0 <= i < j < |log| && Carries(log, i, ref) && Carries(log, j, ref);
    } else {
      assert forall i :: Carries(log, i, ref) ==> 0 <= i < |log|;
    }
  }

  // ---------------------------------------------------------------- both together

  /** Position i of the log is what the validator let through as arrival k of
      the turn that just ended. */
  predicate Streamed(log: seq<RunEvent>, i: nat, arrivals: seq<Arrival>, scope: string, k: nat) {
    TurnStart(log, |log|) <= i < |log| && k < |arrivals| && log[i].event == ValidatedAll(arrivals, scope).0[k]
  }

  lemma {:induction false} OneMark(arrivals: seq<Arrival>, scope: string, j: nat, k: nat, ref: string)
    requires j < |arrivals| && k < |arrivals|
    requires Marked(ValidatedAll(arrivals, scope).0[j], ref) && Marked(ValidatedAll(arrivals, scope).0[k], ref)
    ensures j == k
  {
    if j < k {
      MarkedAtMostOnce(arrivals, scope, j, k, ref);
    } else if k < j {
      MarkedAtMostOnce(arrivals, scope, k, j, ref);
    }
  }

  /** In the turn that just ended a reference can only stand on a result that
      the validator marked while the turn ran, and there is just one such. */
  lemma {:induction false} CurrentLinksWereMarked(log: seq<RunEvent>, i: nat, arrivals: seq<Arrival>, c: Closing, k: nat, ref: string)
    requires Streamed(log, i, arrivals, c.scope, k)
    requires Carries(log, i, ref) && Qualifies(log, i, ref, c)
    ensures Proven(arrivals[k], c.scope, ValidatedAll(arrivals[..k], c.scope).1)
    ensures ref in c.issued && arrivals[k].producer == Some(c.issued[ref])
    ensures forall j :: 0 <= j < |arrivals| && Marked(ValidatedAll(arrivals, c.scope).0[j], ref) ==> j == k
  {
    var streamed := ValidatedAll(arrivals, c.scope).0;
    assert Marked(streamed[k], ref);
    MarkedWasProven(arrivals, c.scope, k, ref);
    forall j | 0 <= j < |arrivals| && Marked(streamed[j], ref) ensures j == k {
      OneMark(arrivals, c.scope, j, k, ref);
    }
  }

  /** And a marked, uncut, successful read result of that turn does stand, if no
      other event of the log carries its reference. */
  lemma {:induction false} MarkedResultsStand(log: seq<RunEvent>, i: nat, arrivals: seq<Arrival>, c: Closing, k: nat, ref: string)
    requires Streamed(log, i, arrivals, c.scope, k) && Grows(arrivals, c.issued)
    requires Carries(log, i, ref) && Marked(log[i].event, ref) && forall j :: Carries(log, j, ref) ==> j == i
    requires ValidScope(c.scope) && RefPrefix(c.scope) <= ref
    requires Clean(log[i].event.step.value, c) && ReadsOnly(log, TurnOf(log, i), log[i].event.step.value.id)
    ensures Stands(log, ref, c)
  {
    MarkedIsStillIssued(arrivals, c.scope, c.issued, k, ref);
    assert Authenticated(log, i, ref, c);
    assert Qualifies(log, i, ref, c);
  }
}
