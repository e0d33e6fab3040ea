/** Deciding whether a conjunction of label requirements can be met at all. */
module Requirements {
  import opened Wrappers
  import opened Int64
  import opened Strings

  datatype Operator = In | NotIn | Exists | DoesNotExist | Gt | Lt | OtherOperator

  datatype Requirement = Requirement(key: string, operator: Operator, values: seq<string>)

  /** A node's value for one label: absent, or some string. */
  type Label = Option<string>

  function Bound(r: Requirement): Option<int64> {
    if r.values != [] && forall v :: v in r.values ==> v == r.values[0] then ParseInt(r.values[0]) else None
  }

  /** A requirement the decision procedure understands. */
  predicate Understood(r: Requirement) {
    match r.operator
    case In => r.values != []
    case NotIn => r.values != []
    case Exists => r.values == []
    case DoesNotExist => r.values == []
    case Gt => Bound(r).Some?
    case Lt => Bound(r).Some?
    case OtherOperator => false
  }

  predicate NeedsPresent(r: Requirement) { r.operator.In? || r.operator.Exists? || r.operator.Gt? || r.operator.Lt? }

  predicate Bounds(r: Requirement) { r.operator.Gt? || r.operator.Lt? }

  predicate Lists(r: Requirement) { r.operator.In? }

  predicate Excludes(r: Requirement) { r.operator.NotIn? }

  predicate Forbids(r: Requirement) { r.operator.DoesNotExist? }

  /** What the requirement means for a node. */
  predicate Satisfies(node: Label, r: Requirement)
    requires Understood(r)
  {
    match r.operator
    case In => node.Some? && node.value in r.values
    case NotIn => node.None? || node.value !in r.values
    case Exists => node.Some?
    case DoesNotExist => node.None?
    case Gt => node.Some? && ParseInt(node.value).Some? && ParseInt(node.value).value > Bound(r).value
    case Lt => node.Some? && ParseInt(node.value).Some? && ParseInt(node.value).value < Bound(r).value
  }

  ghost predicate AllUnderstood(rs: seq<Requirement>) {
    forall r :: r in rs ==> Understood(r)
  }

  ghost predicate SatisfiesAll(node: Label, rs: seq<Requirement>)
    requires AllUnderstood(rs)
  {
    forall r :: r in rs ==> Satisfies(node, r)
  }

  /** Some node could meet the requirements. */
  ghost predicate Satisfiable(rs: seq<Requirement>)
    requires AllUnderstood(rs)
  {
    exists node :: SatisfiesAll(node, rs)
  }

  ghost predicate Lacks(rs: seq<Requirement>, p: Requirement -> bool) { forall r :: r in rs ==> !p(r) }

  /** Where the procedure declines to answer: something it does not understand,
      or excluded values together with numeric bounds on a label that must be
      present and has no list of values. */
  ghost predicate Declined(rs: seq<Requirement>) {
    || !AllUnderstood(rs)
    || (!Lacks(rs, Bounds) && !Lacks(rs, Excludes) && Lacks(rs, Lists) && Lacks(rs, Forbids))
  }

  // ---------------------------------------------------------------- what the loop gathers

  datatype Gathered = Gathered(
    absentAllowed: bool, presentAllowed: bool, finite: Option<set<string>>, excluded: set<string>,
    greaterThan: Option<int64>, lessThan: Option<int64>)

  const NOTHING := Gathered(true, true, None, {}, None, None)

  predicate NumericAllowed(value: string, greaterThan: Option<int64>, lessThan: Option<int64>) {
    (greaterThan.None? && lessThan.None?) ||
    (ParseInt(value).Some? &&
     (greaterThan.Some? ==> ParseInt(value).value > greaterThan.value) &&
     (lessThan.Some? ==> ParseInt(value).value < lessThan.value))
  }

  predicate Allows(g: Gathered, node: Label) {
    match node
    case None => g.absentAllowed
    case Some(v) =>
      g.presentAllowed && (g.finite.Some? ==> v in g.finite.value) && v !in g.excluded && NumericAllowed(v, g.greaterThan, g.lessThan)
  }

  /** One requirement, reduced to its sorted distinct values, is taken in. */
  function Gather(g: Gathered, r: Requirement, values: seq<string>): Option<Gathered> {
    match r.operator
    case In =>
      if values == [] then None
      else Some(g.(absentAllowed := false,
                   finite := Some(if g.finite.Some? then g.finite.value * Members(values) else Members(values))))
    case NotIn => if values == [] then None else Some(g.(excluded := g.excluded + Members(values)))
    case Exists => if values != [] then None else Some(g.(absentAllowed := false))
    case DoesNotExist => if values != [] then None else Some(g.(presentAllowed := false))
    case Gt =>
      if |values| != 1 || ParseInt(values[0]).None? then None
      else
        var v := ParseInt(values[0]).value;
        Some(g.(absentAllowed := false,
                greaterThan := if g.greaterThan.None? || v > g.greaterThan.value then Some(v) else g.greaterThan))
    case Lt =>
      if |values| != 1 || ParseInt(values[0]).None? then None
      else
        var v := ParseInt(values[0]).value;
        Some(g.(absentAllowed := false,
                lessThan := if g.lessThan.None? || v < g.lessThan.value then Some(v) else g.lessThan))
    case OtherOperator => None
  }

  lemma {:induction false} UniqueValues(r: Requirement, values: seq<string>)
    requires IsSortedUnique(values, r.values)
    ensures values == [] <==> r.values == []
    ensures (|values| == 1 && ParseInt(values[0]).Some?) <==> Bound(r).Some?
    ensures Bound(r).Some? ==> ParseInt(values[0]) == Bound(r)
  {
    assert forall v :: v in r.values <==> v in Members(values);
    if values != [] {
      assert values[0] in Members(values);
    }
    if r.values != [] {
      assert r.values[0] in r.values;
      if |values| == 1 {
        assert forall v :: v in r.values ==> v == values[0];
      } else if forall v :: v in r.values ==> v == r.values[0] {
        assert values[0] in Members(values) && values[1] in Members(values);
        assert Below(values[0], values[1]);
        Irreflexive(values[0]);
      }
    }
  }

  lemma {:induction false} GatherIsExact(g: Gathered, r: Requirement, values: seq<string>, node: Label)
    requires IsSortedUnique(values, r.values)
    ensures Gather(g, r, values).Some? <==> Understood(r)
    ensures Understood(r) ==> (Allows(Gather(g, r, values).value, node) <==> Allows(g, node) && Satisfies(node, r))
  {
    UniqueValues(r, values);
    assert forall v :: v in Members(values) <==> v in r.values;
  }

  /** Absence is allowed exactly while nothing asks for presence; the other
      marks record which operators have been seen. */
  ghost predicate Records(g: Gathered, rs: seq<Requirement>) {
    && (g.absentAllowed <==> Lacks(rs, NeedsPresent))
    && (g.presentAllowed <==> Lacks(rs, Forbids))
    && (g.finite.None? <==> Lacks(rs, Lists))
    && (g.excluded == {} <==> Lacks(rs, Excludes))
    && ((g.greaterThan.None? && g.lessThan.None?) <==> Lacks(rs, Bounds))
  }

  lemma {:induction false} LacksExtends(rs: seq<Requirement>, r: Requirement, p: Requirement -> bool)
    ensures Lacks(rs + [r], p) <==> Lacks(rs, p) && !p(r)
  {
    assert forall q :: q in rs + [r] <==> q in rs || q == r;
  }

  lemma {:induction false} GatherRecords(g: Gathered, rs: seq<Requirement>, r: Requirement, values: seq<string>)
    requires Records(g, rs) && IsSortedUnique(values, r.values) && Gather(g, r, values).Some?
    ensures Records(Gather(g, r, values).value, rs + [r])
  {
    LacksExtends(rs, r, NeedsPresent);
    LacksExtends(rs, r, Forbids);
    LacksExtends(rs, r, Lists);
    LacksExtends(rs, r, Excludes);
    LacksExtends(rs, r, Bounds);
    if r.operator.NotIn? {
      assert values[0] in Members(values);
    }
  }

  // ---------------------------------------------------------------- witnesses

  ghost predicate AllShorter(s: set<string>, n: nat) { forall x :: x in s ==> |x| < n }

  lemma {:induction false} LongerThanAll(s: set<string>)
    ensures exists n: nat :: AllShorter(s, n)
  {
    if s == {} {
      assert AllShorter(s, 0);
    } else {
      var a :| a in s;
      LongerThanAll(s - {a});
      var m: nat :| AllShorter(s - {a}, m);
      var n := if |a| < m then m else |a| + 1;
      assert forall x :: x in s ==> x == a || x in s - {a};
      assert AllShorter(s, n);
    }
  }

  /** Some string is in none of finitely many. */
  lemma {:induction false} FreshString(s: set<string>) returns (x: string)
    ensures x !in s
  {
    LongerThanAll(s);
    var n: nat :| AllShorter(s, n);
    x := seq(n, _ => 'a');
  }

  lemma {:induction false} IntegerBetween(greaterThan: Option<int64>, lessThan: Option<int64>) returns (n: int64)
    requires greaterThan.Some? ==> greaterThan.value as int < MAX
    requires lessThan.Some? ==> lessThan.value as int > MIN
    requires greaterThan.Some? && lessThan.Some? ==> greaterThan.value + 1 < lessThan.value
    ensures (greaterThan.Some? ==> n > greaterThan.value) && (lessThan.Some? ==> n < lessThan.value)
  {
    n := if greaterThan.Some? then greaterThan.value + 1 else if lessThan.Some? then lessThan.value - 1 else 0;
  }

  // ---------------------------------------------------------------- the procedure

  datatype Verdict = Feasible | Infeasible | Unsupported

  method Decide(rs: seq<Requirement>) returns (verdict: Verdict)
    ensures verdict.Unsupported? <==> Declined(rs)
    ensures !verdict.Unsupported? ==> (verdict.Feasible? <==> Satisfiable(rs))
  {
    var g := NOTHING;
    var i := 0;
    while i < |rs|
      invariant 0 <= i <= |rs|
      invariant AllUnderstood(rs[..i]) && Records(g, rs[..i])
      invariant forall node :: Allows(g, node) <==> SatisfiesAll(node, rs[..i])
    {
      assert rs[..i + 1] == rs[..i] + [rs[i]];
      var values := SortedUniqueStrings(rs[i].values);
      TakeIn(g, rs[..i], rs[i], values);
      var next := Gather(g, rs[i], values);
      if next.None? {
        assert rs[i] in rs && !Understood(rs[i]);
        return Unsupported;
      }
      g := next.value;
      i := i + 1;
    }
    assert rs[..i] == rs;
    verdict := Conclude(g);
    ConclusionMeans(g, rs, verdict);
  }

  lemma {:induction false} TakeIn(g: Gathered, rs: seq<Requirement>, r: Requirement, values: seq<string>)
    requires AllUnderstood(rs) && Records(g, rs) && forall node :: Allows(g, node) <==> SatisfiesAll(node, rs)
    requires IsSortedUnique(values, r.values)
    ensures Gather(g, r, values).Some? <==> Understood(r)
    ensures Understood(r) ==>
              AllUnderstood(rs + [r]) && Records(Gather(g, r, values).value, rs + [r]) &&
              forall node :: Allows(Gather(g, r, values).value, node) <==> SatisfiesAll(node, rs + [r])
  {
    GatherIsExact(g, r, values, None);
    if Understood(r) {
      GatherRecords(g, rs, r, values);
      assert forall q :: q in rs + [r] <==> q in rs || q == r;
      forall node ensures Allows(Gather(g, r, values).value, node) <==> SatisfiesAll(node, rs + [r]) {
        GatherIsExact(g, r, values, node);
      }
    }
  }

  /** The answer the gathered facts give; `g.greaterThan + 1` cannot overflow. */
  method Conclude(g: Gathered) returns (verdict: Verdict)
    ensures verdict.Unsupported? <==>
            !g.absentAllowed && g.presentAllowed && g.finite.None? && g.excluded != {} && (g.greaterThan.Some? || g.lessThan.Some?)
    ensures verdict.Feasible? ==> exists node :: Allows(g, node)
    ensures verdict.Infeasible? ==> forall node :: !Allows(g, node)
  {
    if g.absentAllowed {
      assert Allows(g, None);
      return Feasible;
    }
    if !g.presentAllowed {
      return Infeasible;
    }
    if g.finite.Some? {
      var left := g.finite.value;
      while left != {}
        invariant left <= g.finite.value
        invariant forall v :: v in g.finite.value && v !in left ==> !Allows(g, Some(v))
        decreases left
      {
        var v :| v in left;
        left := left - {v};
        if v !in g.excluded && NumericAllowed(v, g.greaterThan, g.lessThan) {
          assert Allows(g, Some(v));
          return Feasible;
        }
      }
      return Infeasible;
    }
    if g.excluded != {} && (g.greaterThan.Some? || g.lessThan.Some?) {
      return Unsupported;
    }
    if g.greaterThan.Some? && g.greaterThan.value as int == MAX {
      return Infeasible;
    }
    if g.lessThan.Some? && g.lessThan.value as int == MIN {
      return Infeasible;
    }
    if g.greaterThan.Some? && g.lessThan.Some? && g.greaterThan.value + 1 >= g.lessThan.value {
      return Infeasible;
    }
    UnlistedIsFeasible(g);
    return Feasible;
  }

  lemma {:induction false} UnlistedIsFeasible(g: Gathered)
    requires g.presentAllowed && g.finite.None? && (g.excluded == {} || (g.greaterThan.None? && g.lessThan.None?))
    requires g.greaterThan.Some? ==> g.greaterThan.value as int < MAX
    requires g.lessThan.Some? ==> g.lessThan.value as int > MIN
    requires g.greaterThan.Some? && g.lessThan.Some? ==> g.greaterThan.value + 1 < g.lessThan.value
    ensures exists node :: Allows(g, node)
  {
    if g.excluded == {} {
      var n := IntegerBetween(g.greaterThan, g.lessThan);
      ParsePrinted(n);
      assert Allows(g, Some(Print(n)));
    } else {
      var x := FreshString(g.excluded);
      assert Allows(g, Some(x));
    }
  }

  lemma {:induction false} ConclusionMeans(g: Gathered, rs: seq<Requirement>, verdict: Verdict)
    requires AllUnderstood(rs) && Records(g, rs) && forall node :: Allows(g, node) <==> SatisfiesAll(node, rs)
    requires verdict.Unsupported? <==>
             !g.absentAllowed && g.presentAllowed && g.finite.None? && g.excluded != {} && (g.greaterThan.Some? || g.lessThan.Some?)
    requires verdict.Feasible? ==> exists node :: Allows(g, node)
    requires verdict.Infeasible? ==> forall node :: !Allows(g, node)
    ensures verdict.Unsupported? <==> Declined(rs)
    ensures !verdict.Unsupported? ==> (verdict.Feasible? <==> Satisfiable(rs))
  {
    if verdict.Feasible? {
      var node :| Allows(g, node);
      assert SatisfiesAll(node, rs);
    }
    assert g.greaterThan.Some? || g.lessThan.Some? ==> !g.absentAllowed;
  }
}
