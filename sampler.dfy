/** The recipe-driven powder sampler. For every vial of the recipe it zeroes
    the closed balance, places the vial, and for every material sets the
    target and tolerances, fetches the powder, tares, waits for the operator
    to dispense by hand and puts the powder back; then it returns the vial.
    What it asks of the devices depends only on the recipe, so it is first
    described as a Plan: the device calls in order, and the exception the
    recipe itself raises, if any. A device can still fail part way. */
module Sampler {
  import opened PyJson
  import opened Devices

  /** Device calls in order, then the exception the recipe raises after them
      (None when the recipe is processed to the end). */
  datatype Plan = Plan(steps: seq<Call>, error: Option<PyError>)

  /** Sequencing: the second part only runs if the first raised nothing. */
  function Then(first: Plan, next: Plan): (r: Plan)
    ensures first.error.Some? ==> r == first
    ensures first.error.None? ==> r.steps == first.steps + next.steps && r.error == next.error
  {
    if first.error.Some? then first else Plan(first.steps + next.steps, next.error)
  }

  /** The tolerance a material asks for. */
  datatype Tolerance =
    | Percent(pct: Json)
    | Absolute(upper: Json, lower: Json, unit: Json)

  /** The tolerance execute takes from a material: `tol_pct`, else the
      nested `tolerance.pct`, when that is not null; otherwise absolute limits
      from `tol_upper`/`tol_lower`/`tol_unit`, each falling back to the nested
      field and then to 0.0, 0.0 and "mg". The nested lookup of `pct` runs
      even when `tol_pct` is present, so a `tolerance` that is not an object
      raises AttributeError. */
  function ExecTolerance(mat: map<string, Json>): (r: Result<Tolerance>)
    ensures var nested := Lookup(mat, "tolerance", JDict(map[]));
            (r.Err? <==> !nested.JDict?) && (r.Err? ==> r.error == AttributeError)
    ensures r.Ok? && "tol_pct" in mat && mat["tol_pct"] != JNull ==> r.value == Percent(mat["tol_pct"])
    ensures r.Ok? && "tol_pct" !in mat ==>
              var nested := Lookup(mat, "tolerance", JDict(map[])).fields;
              ("pct" in nested && nested["pct"] != JNull ==> r.value == Percent(nested["pct"]))
    ensures r.Ok? && r.value.Percent? ==> r.value.pct != JNull
    ensures r.Ok? && r.value.Absolute? ==>
              var nested := Lookup(mat, "tolerance", JDict(map[])).fields;
              r.value.upper == Lookup(mat, "tol_upper", Lookup(nested, "upper", JFloat(0.0)))
              && r.value.lower == Lookup(mat, "tol_lower", Lookup(nested, "lower", JFloat(0.0)))
              && r.value.unit == Lookup(mat, "tol_unit", Lookup(nested, "unit", JStr("mg")))
              && Lookup(mat, "tol_pct", Lookup(nested, "pct", JNull)) == JNull
  {
    var nested := Lookup(mat, "tolerance", JDict(map[]));
    match GetMethod(nested, "pct", JNull)
    case Err(e) => Err(e)
    case Ok(nestedPct) =>
      var pct := Lookup(mat, "tol_pct", nestedPct);
      if pct != JNull then Ok(Percent(pct))
      else
        var upper := Lookup(mat, "tol_upper", Lookup(nested.fields, "upper", JFloat(0.0)));
        var lower := Lookup(mat, "tol_lower", Lookup(nested.fields, "lower", JFloat(0.0)));
        var unit := Lookup(mat, "tol_unit", Lookup(nested.fields, "unit", JStr("mg")));
        Ok(Absolute(upper, lower, unit))
  }

  /** Setting both tolerance limits: each value goes through float() before
      either limit is sent; a percentage is sent for both limits with unit
      "%". */
  function TolerancePlan(mat: map<string, Json>, conv: Conversions): Plan
  {
    match ExecTolerance(mat)
    case Err(e) => Plan([], Some(e))
    case Ok(Percent(p)) =>
      (match FloatOf(conv, p)
       case Err(e) => Plan([], Some(e))
       case Ok(v) => Plan([SetUpper(v, JStr("%")), SetLower(v, JStr("%"))], None))
    case Ok(Absolute(u, l, unit)) =>
      (match FloatOf(conv, u)
       case Err(e) => Plan([], Some(e))
       case Ok(uv) =>
         match FloatOf(conv, l)
         case Err(e) => Plan([], Some(e))
         case Ok(lv) => Plan([SetUpper(uv, unit), SetLower(lv, unit)], None))
  }

  /** Fetching the powder, taring, the operator's dispensing and returning
      the powder. */
  function PowderPlan(name: Json): Plan
  {
    Plan([Run(RetrievePowder(name)), Tare, AwaitOperator, Run(ReturnPowder(name))], None)
  }

  /** A material whose name and target were read: the target in mg, the
      tolerances, then the powder. */
  function DosingPlan(name: Json, target: real, mat: map<string, Json>, conv: Conversions): Plan
  {
    Then(Plan([SetTarget(target, JStr("mg"))], None), Then(TolerancePlan(mat, conv), PowderPlan(name)))
  }

  /** One material: `mat["name"]`, then a required numeric `target_mg`, then
      the target (in mg), the tolerances, fetching the powder, taring, the
      operator's dispensing and returning the powder. */
  function MaterialPlan(mat: Json, conv: Conversions): Plan
  {
    match Subscript(mat, "name")
    case Err(e) => Plan([], Some(e))
    case Ok(name) =>
      if "target_mg" !in mat.fields then Plan([], Some(ValueError))
      else
        match FloatOf(conv, mat.fields["target_mg"])
        case Err(e) => Plan([], Some(e))
        case Ok(target) => DosingPlan(name, target, mat.fields, conv)
  }

  /** The materials of one vial, in order, up to the first that raises. */
  function MaterialsPlan(items: seq<Json>, n: nat, conv: Conversions): Plan
    requires n <= |items|
  {
    if n == 0 then Plan([], None)
    else Then(MaterialsPlan(items, n - 1, conv), MaterialPlan(items[n - 1], conv))
  }

  /** The slot a vial is placed from: int() of its "slot", by default its
      1-based position; a vial that is not an object has no get(). */
  function SlotOf(vial: Json, position: nat, conv: Conversions): (r: Result<int>)
    ensures !vial.JDict? ==> r == Err(AttributeError)
    ensures vial.JDict? && "slot" !in vial.fields ==> r == Ok(position)
    ensures vial.JDict? && "slot" in vial.fields && IsInt(vial.fields["slot"]) ==> r.Ok?
    ensures vial.JDict? && "slot" in vial.fields ==> r == IntOf(conv, vial.fields["slot"])
  {
    match GetMethod(vial, "slot", JInt(position))
    case Err(e) => Err(e)
    case Ok(v) => IntOf(conv, v)
  }

  /** Before the materials: close the doors and zero, open them, place the
      vial from its slot and close them again. */
  function PlacementPlan(slot: int): Plan
  {
    Plan([CloseDoor, Zero, OpenDoor, Run(RetrieveVial(slot)), CloseDoor], None)
  }

  /** After the materials: open the doors and return the vial to its slot. */
  function ReturnPlan(slot: int): Plan
  {
    Plan([OpenDoor, Run(ReturnVial(slot))], None)
  }

  /** The materials of a vial object: its "materials", by default none; a
      string there is iterated character by character, which raises
      TypeError on the first subscript, and anything else that cannot be
      iterated raises TypeError. */
  function VialMaterials(vial: map<string, Json>, conv: Conversions): Plan
  {
    match LoopOver(Lookup(vial, "materials", JList([])), TypeError)
    case Err(e) => Plan([], Some(e))
    case Ok(items) => MaterialsPlan(items, |items|, conv)
  }

  /** One vial: its placement, the materials, then its return. */
  function VialPlan(vial: Json, position: nat, conv: Conversions): Plan
  {
    match SlotOf(vial, position, conv)
    case Err(e) => Plan([], Some(e))
    case Ok(slot) => Then(PlacementPlan(slot), Then(VialMaterials(vial.fields, conv), ReturnPlan(slot)))
  }

  /** The vials, in order and numbered from 1, up to the first that raises. */
  function VialsPlan(items: seq<Json>, n: nat, conv: Conversions): Plan
    requires n <= |items|
  {
    if n == 0 then Plan([], None)
    else Then(VialsPlan(items, n - 1, conv), VialPlan(items[n - 1], n, conv))
  }

  /** Everything between connecting the robot and disconnecting it. */
  function ExecutionPlan(vials: Json, conv: Conversions): Plan
  {
    match LoopOver(vials, AttributeError)
    case Err(e) => Plan([], Some(e))
    case Ok(items) => VialsPlan(items, |items|, conv)
  }

  /** The plan of the first n materials depends only on those n. */
  lemma {:induction false} MaterialsPlanPrefix(a: seq<Json>, b: seq<Json>, n: nat, conv: Conversions)
    requires n <= |a| && n <= |b| && a[..n] == b[..n]
    ensures MaterialsPlan(a, n, conv) == MaterialsPlan(b, n, conv)
  {
    if n > 0 {
      assert a[..n - 1] == a[..n][..n - 1] && b[..n - 1] == b[..n][..n - 1];
      assert a[n - 1] == a[..n][n - 1] && b[n - 1] == b[..n][n - 1];
      MaterialsPlanPrefix(a, b, n - 1, conv);
    }
  }

  /** The plan of the first n vials depends only on those n. */
  lemma {:induction false} VialsPlanPrefix(a: seq<Json>, b: seq<Json>, n: nat, conv: Conversions)
    requires n <= |a| && n <= |b| && a[..n] == b[..n]
    ensures VialsPlan(a, n, conv) == VialsPlan(b, n, conv)
  {
    if n > 0 {
      assert a[..n - 1] == a[..n][..n - 1] && b[..n - 1] == b[..n][..n - 1];
      assert a[n - 1] == a[..n][n - 1] && b[n - 1] == b[..n][n - 1];
      VialsPlanPrefix(a, b, n - 1, conv);
    }
  }

  /** All the materials: those before the last, then the last. */
  lemma MaterialsPlanLast(items: seq<Json>, conv: Conversions)
    requires items != []
    ensures var init := items[..|items| - 1];
            MaterialsPlan(items, |items|, conv) == Then(MaterialsPlan(init, |init|, conv), MaterialPlan(items[|items| - 1], conv))
  {
    MaterialsPlanPrefix(items, items[..|items| - 1], |items| - 1, conv);
  }

  /** All the vials: those before the last, then the last. */
  lemma VialsPlanLast(items: seq<Json>, conv: Conversions)
    requires items != []
    ensures var init := items[..|items| - 1];
            VialsPlan(items, |items|, conv) == Then(VialsPlan(init, |init|, conv), VialPlan(items[|items| - 1], |items|, conv))
  {
    VialsPlanPrefix(items, items[..|items| - 1], |items| - 1, conv);
  }

  // -----------------------------------------------------------------------
  // Running a plan on devices that may fail

  /** The device calls that can raise: an A10 setting the balance does not
      acknowledge, and the end of console input while waiting. */
  predicate DeviceFault(call: Call, error: PyError)
  {
    ((call.SetTarget? || call.SetUpper? || call.SetLower?) && error == RuntimeError)
    || (call == AwaitOperator && error == EOFError)
  }

  /** The first k calls of the plan were made, and the run ended with c:
      normally only after the whole plan when the recipe raises nothing;
      with the recipe's own exception after the whole plan; or early, with
      the exception of the last call made. */
  predicate RanTo(plan: Plan, k: nat, c: Completion)
  {
    k <= |plan.steps|
    && (c == Returned ==> k == |plan.steps| && plan.error.None?)
    && (c.Raised? ==>
          (k == |plan.steps| && plan.error == Some(c.error))
          || (0 < k && DeviceFault(plan.steps[k - 1], c.error)))
    && (k < |plan.steps| ==> 0 < k && c.Raised? && DeviceFault(plan.steps[k - 1], c.error))
  }

  /** The calls log went from `before` to `after` by running the plan up to
      its k-th call, ending with c. */
  predicate Performed(plan: Plan, k: nat, c: Completion, before: seq<Call>, after: seq<Call>)
  {
    RanTo(plan, k, c) && after == before + plan.steps[..k]
  }

  lemma PerformedRaised(first: Plan, next: Plan, k: nat, c: Completion, before: seq<Call>, after: seq<Call>)
    requires Performed(first, k, c, before, after) && c.Raised?
    ensures Performed(Then(first, next), k, c, before, after)
  {
    if first.error.None? {
      var both := Then(first, next);
      assert both.steps[..|first.steps|] == first.steps;
      assert both.steps[..k] == first.steps[..k];
    }
  }

  lemma PerformedThen(first: Plan, next: Plan, k: nat, c: Completion,
                      before: seq<Call>, middle: seq<Call>, after: seq<Call>)
    requires Performed(first, |first.steps|, Returned, before, middle)
    requires Performed(next, k, c, middle, after)
    ensures Performed(Then(first, next), |first.steps| + k, c, before, after)
  {
    var both := Then(first, next);
    if 0 < k {
      assert both.steps[|first.steps| + k - 1] == next.steps[k - 1];
    }
    assert both.steps[..|first.steps| + k] == first.steps + next.steps[..k];
    assert first.steps[..|first.steps|] == first.steps;
  }

  /** The plans of the first n items, in order up to the first that raises. */
  function Sequence(planOf: Json -> Plan, items: seq<Json>, n: nat): Plan
    requires n <= |items|
  {
    if n == 0 then Plan([], None) else Then(Sequence(planOf, items, n - 1), planOf(items[n - 1]))
  }

  /** A run of the first n items that raised is a run of the first m. */
  lemma {:induction false} SequenceRaisedEarly(planOf: Json -> Plan, items: seq<Json>, n: nat, m: nat,
                                               k: nat, c: Completion, before: seq<Call>, after: seq<Call>)
    requires n <= m <= |items| && c.Raised?
    requires Performed(Sequence(planOf, items, n), k, c, before, after)
    ensures Performed(Sequence(planOf, items, m), k, c, before, after)
    decreases m
  {
    if n < m {
      SequenceRaisedEarly(planOf, items, n, m - 1, k, c, before, after);
      PerformedRaised(Sequence(planOf, items, m - 1), planOf(items[m - 1]), k, c, before, after);
    }
  }

  /** With MaterialPlan as the plan of one material, the sequence is
      MaterialsPlan. */
  lemma {:induction false} SequenceMaterials(planOf: Json -> Plan, items: seq<Json>, n: nat, conv: Conversions)
    requires n <= |items|
    requires forall m {:trigger MaterialPlan(m, conv)} :: planOf(m) == MaterialPlan(m, conv)
    ensures Sequence(planOf, items, n) == MaterialsPlan(items, n, conv)
  {
    if n > 0 {
      SequenceMaterials(planOf, items, n - 1, conv);
      assert MaterialPlan(items[n - 1], conv) == planOf(items[n - 1]);
    }
  }

  /** The plans of the first n items, each numbered by its 1-based
      position, in order up to the first that raises. */
  function Numbered(planOf: (Json, nat) -> Plan, items: seq<Json>, n: nat): Plan
    requires n <= |items|
  {
    if n == 0 then Plan([], None) else Then(Numbered(planOf, items, n - 1), planOf(items[n - 1], n))
  }

  /** A run of the first n items that raised is a run of the first m. */
  lemma {:induction false} NumberedRaisedEarly(planOf: (Json, nat) -> Plan, items: seq<Json>, n: nat, m: nat,
                                               k: nat, c: Completion, before: seq<Call>, after: seq<Call>)
    requires n <= m <= |items| && c.Raised?
    requires Performed(Numbered(planOf, items, n), k, c, before, after)
    ensures Performed(Numbered(planOf, items, m), k, c, before, after)
    decreases m
  {
    if n < m {
      NumberedRaisedEarly(planOf, items, n, m - 1, k, c, before, after);
      PerformedRaised(Numbered(planOf, items, m - 1), planOf(items[m - 1], m), k, c, before, after);
    }
  }

  /** With VialPlan as the plan of one vial, the numbered sequence is
      VialsPlan. */
  lemma {:induction false} NumberedVials(planOf: (Json, nat) -> Plan, items: seq<Json>, n: nat, conv: Conversions)
    requires n <= |items|
    requires forall v, p {:trigger VialPlan(v, p, conv)} :: planOf(v, p) == VialPlan(v, p, conv)
    ensures Numbered(planOf, items, n) == VialsPlan(items, n, conv)
  {
    if n > 0 {
      NumberedVials(planOf, items, n - 1, conv);
      assert VialPlan(items[n - 1], n, conv) == planOf(items[n - 1], n);
    }
  }

  /** Running the next part after a first part that ran to the end without
      raising: either the next part raised, and so did the whole, or the
      whole ran to the end without raising. */
  lemma PerformedStep(done: Plan, next: Plan, k: nat, c: Completion,
                      before: seq<Call>, middle: seq<Call>, after: seq<Call>)
    requires done.error.None? && middle == before + done.steps
    requires Performed(next, k, c, middle, after)
    ensures c.Raised? ==> Performed(Then(done, next), |done.steps| + k, c, before, after)
    ensures !c.Raised? ==> Then(done, next).error.None? && after == before + Then(done, next).steps
  {
    assert done.steps[..|done.steps|] == done.steps;
    PerformedThen(done, next, k, c, before, middle, after);
    if !c.Raised? {
      assert next.steps[..k] == next.steps;
    }
  }

  /** A run to the end of a plan that raises nothing. */
  lemma PerformedAll(plan: Plan, before: seq<Call>, after: seq<Call>)
    requires plan.error.None? && after == before + plan.steps
    ensures Performed(plan, |plan.steps|, Returned, before, after)
  {
    assert plan.steps[..|plan.steps|] == plan.steps;
  }

  /** The sampler: a robot and a balance on the same bench, and the vials of
      the recipe last loaded. */
  class AutomatedSampler {
    const robot: UR
    const scale: WM
    var vials: Json

    predicate SharedBench()
    {
      robot.bench == scale.bench
    }

    /** A sampler starts with no vials. */
    constructor (ur: UR, wm: WM)
      requires ur.bench == wm.bench
      ensures robot == ur && scale == wm && vials == JList([]) && SharedBench()
    {
      robot := ur;
      scale := wm;
      vials := JList([]);
    }

    /** load_recipe, given the parsed JSON: the recipe's "vials", by default
        an empty list; a recipe that is not an object has no get(). */
    method LoadRecipe(data: Json) returns (c: Completion)
      modifies this
      ensures data.JDict? ==> c == Returned && vials == Lookup(data.fields, "vials", JList([]))
      ensures !data.JDict? ==> c == Raised(AttributeError) && vials == old(vials)
    {
      var got := GetMethod(data, "vials", JList([]));
      if got.Err? {
        return Raised(got.error);
      }
      vials := got.value;
      return Returned;
    }

    /** Both tolerance settings of one material. */
    method SetTolerances(mat: map<string, Json>, conv: Conversions) returns (c: Completion, ghost k: nat)
      requires SharedBench()
      modifies robot.bench
      ensures Performed(TolerancePlan(mat, conv), k, c, old(robot.bench.calls), robot.bench.calls)
    {
      var bench := robot.bench;
      var tolerance := ExecTolerance(mat);
      if tolerance.Err? {
        return Raised(tolerance.error), 0;
      }
      var upperValue, upperUnit, lowerValue, lowerUnit;
      match tolerance.value {
        case Percent(p) =>
          var pct := FloatOf(conv, p);
          if pct.Err? {
            return Raised(pct.error), 0;
          }
          upperValue, upperUnit, lowerValue, lowerUnit := pct.value, JStr("%"), pct.value, JStr("%");
        case Absolute(u, l, unit) =>
          var upper := FloatOf(conv, u);
          if upper.Err? {
            return Raised(upper.error), 0;
          }
          var lower := FloatOf(conv, l);
          if lower.Err? {
            return Raised(lower.error), 0;
          }
          upperValue, upperUnit, lowerValue, lowerUnit := upper.value, unit, lower.value, unit;
      }
      assert TolerancePlan(mat, conv) == Plan([SetUpper(upperValue, upperUnit), SetLower(lowerValue, lowerUnit)], None);
      var r := scale.SetToleranceUpper(upperValue, upperUnit);
      if r.Err? {
        return Raised(r.error), 1;
      }
      r := scale.SetToleranceLower(lowerValue, lowerUnit);
      if r.Err? {
        return Raised(r.error), 2;
      }
      return Returned, 2;
    }

    /** Fetching, taring, dispensing and returning one powder. */
    method HandlePowder(name: Json) returns (c: Completion, ghost k: nat)
      requires SharedBench() && robot.connected
      modifies robot.bench
      ensures Performed(PowderPlan(name), k, c, old(robot.bench.calls), robot.bench.calls)
    {
      var bench := robot.bench;
      var _ := robot.RunProgram(RetrievePowder(name));
      var _ := scale.Tare();
      c := WaitForContinue(bench);
      if c.Raised? {
        return c, 3;
      }
      var _ := robot.RunProgram(ReturnPowder(name));
      return Returned, 4;
    }

    /** The body of the materials loop for one material. */
    method DispenseMaterial(mat: Json, conv: Conversions, ghost planOf: Json -> Plan)
        returns (c: Completion, ghost k: nat)
      requires SharedBench() && robot.connected
      requires forall m {:trigger MaterialPlan(m, conv)} :: planOf(m) == MaterialPlan(m, conv)
      modifies robot.bench
      ensures Performed(planOf(mat), k, c, old(robot.bench.calls), robot.bench.calls)
    {
      var bench := robot.bench;
      ghost var calls0 := bench.calls;
      ghost var plan := MaterialPlan(mat, conv);
      var name := Subscript(mat, "name");
      if name.Err? {
        return Raised(name.error), 0;
      }
      if "target_mg" !in mat.fields {
        return Raised(ValueError), 0;
      }
      var target := FloatOf(conv, mat.fields["target_mg"]);
      if target.Err? {
        return Raised(target.error), 0;
      }
      c, k := Dose(name.value, target.value, mat.fields, conv);
    }

    /** A material whose name and target were read. */
    method Dose(name: Json, target: real, mat: map<string, Json>, conv: Conversions)
        returns (c: Completion, ghost k: nat)
      requires SharedBench() && robot.connected
      modifies robot.bench
      ensures Performed(DosingPlan(name, target, mat, conv), k, c, old(robot.bench.calls), robot.bench.calls)
    {
      var bench := robot.bench;
      ghost var calls0 := bench.calls;
      ghost var setTarget := Plan([SetTarget(target, JStr("mg"))], None);
      ghost var tolerances := TolerancePlan(mat, conv);
      ghost var powder := PowderPlan(name);
      ghost var rest := Then(tolerances, powder);
      var r := scale.SetTargetWeight(target, JStr("mg"));
      if r.Err? {
        PerformedRaised(setTarget, rest, 1, Raised(r.error), calls0, bench.calls);
        return Raised(r.error), 1;
      }
      ghost var calls1 := bench.calls;
      assert Performed(setTarget, 1, Returned, calls0, calls1);
      ghost var k1;
      c, k1 := SetTolerances(mat, conv);
      if c.Raised? {
        PerformedRaised(tolerances, powder, k1, c, calls1, bench.calls);
        PerformedThen(setTarget, rest, k1, c, calls0, calls1, bench.calls);
        return c, 1 + k1;
      }
      ghost var calls2 := bench.calls;
      ghost var k2;
      c, k2 := HandlePowder(name);
      PerformedThen(tolerances, powder, k2, c, calls1, calls2, bench.calls);
      PerformedThen(setTarget, rest, k1 + k2, c, calls0, calls1, bench.calls);
      return c, 1 + k1 + k2;
    }

    /** The steps before the materials loop. */
    method PlaceVial(slot: int)
      requires SharedBench() && robot.connected
      modifies robot.bench
      ensures Performed(PlacementPlan(slot), 5, Returned, old(robot.bench.calls), robot.bench.calls)
    {
      var _ := scale.CloseDoor();
      var _ := scale.Zero();
      var _ := scale.OpenDoor();
      var _ := robot.RunProgram(RetrieveVial(slot));
      var _ := scale.CloseDoor();
    }

    /** The steps after the materials loop. */
    method ReturnVialTo(slot: int)
      requires SharedBench() && robot.connected
      modifies robot.bench
      ensures Performed(ReturnPlan(slot), 2, Returned, old(robot.bench.calls), robot.bench.calls)
    {
      var _ := scale.OpenDoor();
      var _ := robot.RunProgram(ReturnVial(slot));
    }

    /** The materials loop of one vial. */
    method DispenseMaterials(items: seq<Json>, conv: Conversions, ghost planOf: Json -> Plan)
        returns (c: Completion, ghost k: nat)
      requires SharedBench() && robot.connected
      requires forall m {:trigger MaterialPlan(m, conv)} :: planOf(m) == MaterialPlan(m, conv)
      modifies robot.bench
      ensures Performed(Sequence(planOf, items, |items|), k, c, old(robot.bench.calls), robot.bench.calls)
    {
      var bench := robot.bench;
      ghost var calls0 := bench.calls;
      var i := 0;
      while i < |items|
        invariant i <= |items|
        invariant Sequence(planOf, items, i).error.None?
        invariant bench.calls == calls0 + Sequence(planOf, items, i).steps
      {
        ghost var middle := bench.calls;
        ghost var km;
        c, km := DispenseMaterial(items[i], conv, planOf);
        PerformedStep(Sequence(planOf, items, i), planOf(items[i]), km, c, calls0, middle, bench.calls);
        if c.Raised? {
          SequenceRaisedEarly(planOf, items, i + 1, |items|, |Sequence(planOf, items, i).steps| + km, c, calls0, bench.calls);
          return c, |Sequence(planOf, items, i).steps| + km;
        }
        i := i + 1;
      }
      PerformedAll(Sequence(planOf, items, i), calls0, bench.calls);
      return Returned, |Sequence(planOf, items, i).steps|;
    }

    /** The body of the vials loop for one vial at 1-based `position`. */
    method ProcessVial(vial: Json, position: nat, conv: Conversions, ghost planOf: (Json, nat) -> Plan)
        returns (c: Completion, ghost k: nat)
      requires SharedBench() && robot.connected
      requires forall v, p {:trigger VialPlan(v, p, conv)} :: planOf(v, p) == VialPlan(v, p, conv)
      modifies robot.bench
      ensures Performed(planOf(vial, position), k, c, old(robot.bench.calls), robot.bench.calls)
    {
      var bench := robot.bench;
      ghost var calls0 := bench.calls;
      ghost var plan := VialPlan(vial, position, conv);
      var slot := SlotOf(vial, position, conv);
      if slot.Err? {
        return Raised(slot.error), 0;
      }
      ghost var rest := Then(VialMaterials(vial.fields, conv), ReturnPlan(slot.value));
      PlaceVial(slot.value);
      ghost var calls1 := bench.calls;
      ghost var kr;
      c, kr := Attend(vial.fields, slot.value, conv);
      PerformedThen(PlacementPlan(slot.value), rest, kr, c, calls0, calls1, bench.calls);
      return c, 5 + kr;
    }

    /** A placed vial: its materials, then its return to `slot`. */
    method Attend(vial: map<string, Json>, slot: int, conv: Conversions) returns (c: Completion, ghost k: nat)
      requires SharedBench() && robot.connected
      modifies robot.bench
      ensures Performed(Then(VialMaterials(vial, conv), ReturnPlan(slot)), k, c, old(robot.bench.calls), robot.bench.calls)
    {
      var bench := robot.bench;
      ghost var calls0 := bench.calls;
      ghost var materials := VialMaterials(vial, conv);
      var items := LoopOver(Lookup(vial, "materials", JList([])), TypeError);
      if items.Err? {
        PerformedRaised(materials, ReturnPlan(slot), 0, Raised(items.error), calls0, calls0);
        return Raised(items.error), 0;
      }
      ghost var km;
      ghost var materialOf := m => MaterialPlan(m, conv);
      c, km := DispenseMaterials(items.value, conv, materialOf);
      SequenceMaterials(materialOf, items.value, |items.value|, conv);
      if c.Raised? {
        PerformedRaised(materials, ReturnPlan(slot), km, c, calls0, bench.calls);
        return c, km;
      }
      ghost var calls1 := bench.calls;
      ReturnVialTo(slot);
      PerformedThen(materials, ReturnPlan(slot), 2, Returned, calls0, calls1, bench.calls);
      return Returned, km + 2;
    }

    /** The vials loop, numbering the vials from 1. */
    method ProcessVials(items: seq<Json>, conv: Conversions, ghost planOf: (Json, nat) -> Plan)
        returns (c: Completion, ghost k: nat)
      requires SharedBench() && robot.connected
      requires forall v, p {:trigger VialPlan(v, p, conv)} :: planOf(v, p) == VialPlan(v, p, conv)
      modifies robot.bench
      ensures Performed(Numbered(planOf, items, |items|), k, c, old(robot.bench.calls), robot.bench.calls)
    {
      var bench := robot.bench;
      ghost var calls0 := bench.calls;
      var i := 0;
      while i < |items|
        invariant i <= |items|
        invariant Numbered(planOf, items, i).error.None?
        invariant bench.calls == calls0 + Numbered(planOf, items, i).steps
      {
        ghost var middle := bench.calls;
        ghost var kv;
        c, kv := ProcessVial(items[i], i + 1, conv, planOf);
        PerformedStep(Numbered(planOf, items, i), planOf(items[i], i + 1), kv, c, calls0, middle, bench.calls);
        if c.Raised? {
          NumberedRaisedEarly(planOf, items, i + 1, |items|, |Numbered(planOf, items, i).steps| + kv, c, calls0, bench.calls);
          return c, |Numbered(planOf, items, i).steps| + kv;
        }
        i := i + 1;
      }
      PerformedAll(Numbered(planOf, items, i), calls0, bench.calls);
      return Returned, |Numbered(planOf, items, i).steps|;
    }

    /** execute: connect the robot (a failed connection raises before
        anything else and is not followed by a disconnect), run the vials of
        the loaded recipe, and disconnect however the run ended. */
    method Execute(conv: Conversions) returns (c: Completion, ghost k: nat)
      requires SharedBench()
      modifies robot, robot.bench
      ensures !robot.ConnectSucceeds() ==>
                c == Raised(RuntimeError) && robot.bench.calls == old(robot.bench.calls) + [Call.Connect]
      ensures robot.ConnectSucceeds() ==>
                var plan := ExecutionPlan(vials, conv);
                RanTo(plan, k, c) && !robot.connected
                && robot.bench.calls == old(robot.bench.calls) + [Call.Connect] + plan.steps[..k] + [Call.Disconnect]
    {
      var bench := robot.bench;
      c := robot.Connect();
      if c.Raised? {
        return c, 0;
      }
      ghost var calls1 := bench.calls;
      var items := LoopOver(vials, AttributeError);
      if items.Err? {
        c, k := Raised(items.error), 0;
      } else {
        ghost var planOf := (v: Json, p: nat) => VialPlan(v, p, conv);
        c, k := ProcessVials(items.value, conv, planOf);
        NumberedVials(planOf, items.value, |items.value|, conv);
      }
      robot.Disconnect();
    }
  }
}
