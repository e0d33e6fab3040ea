/** What is tracked of a write call is the last word on it. */
module LastWord {
  import opened Wrappers
  import opened RunEvents
  import opened ToolNames
  import opened ApplyOutcome

  /** What a row of a call may settle: its result, the tool it runs, its input. */
  datatype Matter = Result | Tool | Input

  /** A terminal row has a result; a running one says which tool runs on what
      input, and a terminal one may say so again. */
  predicate Settles(row: StepInfo, matter: Matter) {
    match matter
    case Result => row.status == "done"
    case Tool => row.status == "running" || (row.status == "done" && row.tool != "")
    case Input => row.status == "running" || (row.status == "done" && row.summary != "")
  }

  /** A row of a call, from the first that names a write tool on. */
  ghost predicate Row(events: seq<StreamEvent>, i: int, id: string) {
    0 <= i < |events| && Concerns(events[i], id) && exists j :: 0 <= j <= i && WriteCall(events[j], id)
  }

  ghost predicate RowOn(events: seq<StreamEvent>, i: int, id: string, matter: Matter) {
    Row(events, i, id) && Settles(events[i].step.value, matter)
  }

  ghost predicate LastOn(events: seq<StreamEvent>, i: int, id: string, matter: Matter) {
    RowOn(events, i, id, matter) && forall j :: j > i ==> !RowOn(events, j, id, matter)
  }

  predicate AgreesOn(s: MutationStep, row: StepInfo, matter: Matter) {
    match matter
    case Result => s.done && s.result == row.result && s.isError == row.isError && s.truncated == row.truncated
    case Tool => s.tool == Normalize(row.tool)
    case Input => s.summary == row.summary
  }

  /** Nothing was said of it. */
  predicate BlankOn(s: MutationStep, matter: Matter) {
    match matter
    case Result => !s.done && s.result == "" && s.isError == None && !s.truncated
    case Tool => s.tool == ""
    case Input => s.summary == ""
  }

  /** A step as the last row of its call on this matter has it. */
  ghost predicate HasLastWord(s: MutationStep, events: seq<StreamEvent>, id: string, matter: Matter) {
    if exists i :: RowOn(events, i, id, matter)
    then exists i :: LastOn(events, i, id, matter) && AgreesOn(s, events[i].step.value, matter)
    else BlankOn(s, matter)
  }

  lemma {:induction false} RowsStay(init: seq<StreamEvent>, e: StreamEvent, id: string)
    ensures forall i :: i < |init| ==> (Row(init + [e], i, id) <==> Row(init, i, id))
    ensures Row(init + [e], |init|, id) <==> Concerns(e, id) && (WriteSeen(init, id) || WriteCall(e, id))
  {
    var more := init + [e];
    assert more[|init|] == e && forall i :: 0 <= i < |init| ==> more[i] == init[i];
    if i :| 0 <= i < |init| && WriteCall(init[i], id) { assert WriteCall(more[i], id); }
  }

  lemma {:induction false} RowsOnStay(init: seq<StreamEvent>, e: StreamEvent, id: string, matter: Matter)
    ensures forall i :: i < |init| ==> (RowOn(init + [e], i, id, matter) <==> RowOn(init, i, id, matter))
  {
    RowsStay(init, e, id);
    assert forall i :: 0 <= i < |init| ==> (init + [e])[i] == init[i];
  }

  /** An event that does not settle the matter leaves its last row the last. */
  lemma {:induction false} LastStaysLast(init: seq<StreamEvent>, e: StreamEvent, id: string, matter: Matter)
    requires !RowOn(init + [e], |init|, id, matter)
    ensures forall i :: RowOn(init + [e], i, id, matter) <==> RowOn(init, i, id, matter)
    ensures forall i :: LastOn(init, i, id, matter) ==> LastOn(init + [e], i, id, matter) && (init + [e])[i] == init[i]
  {
    RowsOnStay(init, e, id, matter);
    forall i ensures RowOn(init + [e], i, id, matter) <==> RowOn(init, i, id, matter) {
      if i >= |init| {
        assert !RowOn(init, i, id, matter);
        assert i == |init| || !RowOn(init + [e], i, id, matter);
      }
    }
  }

  lemma {:induction false} EarlierWordStands(s: MutationStep, init: seq<StreamEvent>, e: StreamEvent, id: string, matter: Matter)
    requires HasLastWord(s, init, id, matter) && !RowOn(init + [e], |init|, id, matter)
    ensures HasLastWord(s, init + [e], id, matter)
  {
    LastStaysLast(init, e, id, matter);
    if k :| LastOn(init, k, id, matter) && AgreesOn(s, init[k].step.value, matter) {
      assert LastOn(init + [e], k, id, matter);
    }
  }

  lemma {:induction false} NewWordCounts(s: MutationStep, init: seq<StreamEvent>, e: StreamEvent, id: string, matter: Matter)
    requires RowOn(init + [e], |init|, id, matter) && AgreesOn(s, e.step.value, matter)
    ensures HasLastWord(s, init + [e], id, matter)
  {
    assert (init + [e])[|init|] == e && LastOn(init + [e], |init|, id, matter);
  }

  lemma {:induction false} MergingSettles(s: MutationStep, row: StepInfo, matter: Matter)
    ensures Settles(row, matter) ==> AgreesOn(Merged(s, row), row, matter)
    ensures !Settles(row, matter) ==> forall r :: AgreesOn(s, r, matter) ==> AgreesOn(Merged(s, row), r, matter)
    ensures !Settles(row, matter) && BlankOn(s, matter) ==> BlankOn(Merged(s, row), matter)
  {
  }

  lemma {:induction false} NextRowDecides(s: MutationStep, init: seq<StreamEvent>, e: StreamEvent, id: string, matter: Matter)
    requires HasLastWord(s, init, id, matter) && Row(init + [e], |init|, id)
    ensures HasLastWord(Merged(s, e.step.value), init + [e], id, matter)
  {
    assert (init + [e])[|init|] == e;
    MergingSettles(s, e.step.value, matter);
    if Settles(e.step.value, matter) {
      NewWordCounts(Merged(s, e.step.value), init, e, id, matter);
    } else {
      assert HasLastWord(Merged(s, e.step.value), init, id, matter);
      EarlierWordStands(Merged(s, e.step.value), init, e, id, matter);
    }
  }

  lemma {:induction false} NoWordYet(events: seq<StreamEvent>, id: string, matter: Matter)
    requires !WriteSeen(events, id)
    ensures HasLastWord(NEW_STEP, events, id, matter)
  {
    assert forall i :: !Row(events, i, id);
  }

  /** One more event, as far as one call is concerned. */
  lemma {:induction false} OneCallFurther(init: seq<StreamEvent>, e: StreamEvent, id: string)
    requires id != ""
    ensures var (t, u, row) := (ObservedAll(init), ObservedAll(init + [e]), Row(init + [e], |init|, id));
            && (id in u.steps <==> id in t.steps || row)
            && (id in u.steps ==>
                  u.steps[id] == var was := if id in t.steps then t.steps[id] else NEW_STEP; if row then Merged(was, e.step.value) else was)
  {
    assert (init + [e])[..|init|] == init;
    RowsStay(init, e, id);
    TrackedIffWriteSeen(init, id);
  }

  /** What is tracked of a call is the last word on it: its last result, the last
      tool it was said to run and the last input. */
  lemma {:induction false} TrackedIsTheLastWord(events: seq<StreamEvent>, id: string, matter: Matter)
    requires id in ObservedAll(events).steps
    ensures HasLastWord(ObservedAll(events).steps[id], events, id, matter)
  {
    var init, e := events[..|events| - 1], events[|events| - 1];
    assert init + [e] == events;
    NeverTracksTheEmptyId(events);
    OneCallFurther(init, e, id);
    var t := ObservedAll(init);
    if id in t.steps {
      TrackedIsTheLastWord(init, id, matter);
    } else {
      TrackedIffWriteSeen(init, id);
      NoWordYet(init, id, matter);
    }
    var was := if id in t.steps then t.steps[id] else NEW_STEP;
    if Row(events, |init|, id) {
      NextRowDecides(was, init, e, id, matter);
    } else {
      EarlierWordStands(was, init, e, id, matter);
    }
  }
}
