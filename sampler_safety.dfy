/** What the sampler's command order guarantees at the bench, stated over the
    plans: zeroing happens with the doors closed and the pan empty, a vial is
    placed and taken back only through open doors, taring and the operator's
    dispensing happen while a powder is out over a placed vial, every powder
    goes back before its vial does, and the vial goes back to the slot it was
    taken from. */
module SamplerSafety {
  import opened PyJson
  import opened Devices
  import opened Sampler

  datatype Doors = Unknown | Open | Closed

  /** The bench as far as the commands can tell: the doors, the slot of the
      vial on the balance, and the powder the robot has out. */
  datatype Station = Station(doors: Doors, vial: Option<int>, powder: Option<Json>)

  /** Nothing on the balance and no powder out. */
  predicate Idle(s: Station)
  {
    s.vial.None? && s.powder.None?
  }

  /** One command from station s, or None when the command is unsafe there. */
  function Step(s: Station, call: Call): Option<Station>
  {
    match call
    case CloseDoor => Some(s.(doors := Closed))
    case OpenDoor => Some(s.(doors := Open))
    case Zero => if s.doors == Closed && s.vial.None? then Some(s) else None
    case Run(RetrieveVial(slot)) =>
      if s.doors == Open && Idle(s) then Some(s.(vial := Some(slot))) else None
    case Run(ReturnVial(slot)) =>
      if s.doors == Open && s.vial == Some(slot) && s.powder.None? then Some(s.(vial := None)) else None
    case Run(RetrievePowder(name)) =>
      if s.vial.Some? && s.powder.None? then Some(s.(powder := Some(name))) else None
    case Run(ReturnPowder(name)) =>
      if s.powder == Some(name) then Some(s.(powder := None)) else None
    case Tare => if s.vial.Some? && s.powder.Some? then Some(s) else None
    case AwaitOperator => if s.vial.Some? && s.powder.Some? then Some(s) else None
    case SetTarget(_, _) => if s.vial.Some? && s.powder.None? then Some(s) else None
    case SetUpper(_, _) => if s.vial.Some? && s.powder.None? then Some(s) else None
    case SetLower(_, _) => if s.vial.Some? && s.powder.None? then Some(s) else None
    case _ => Some(s)
  }

  /** The commands in order from station s, or None at the first unsafe one. */
  function Walk(s: Station, steps: seq<Call>): Option<Station>
    decreases |steps|
  {
    if steps == [] then Some(s)
    else
      match Step(s, steps[0])
      case None => None
      case Some(t) => Walk(t, steps[1..])
  }

  /** The commands lead safely from s to t. */
  predicate Reaches(s: Station, steps: seq<Call>, t: Station)
  {
    Walk(s, steps).Some? && Walk(s, steps).value == t
  }

  lemma {:induction false} WalkAppend(s: Station, a: seq<Call>, b: seq<Call>)
    ensures Walk(s, a + b).Some? <==> Walk(s, a).Some? && Walk(Walk(s, a).value, b).Some?
    ensures Walk(s, a + b).Some? ==> Walk(s, a + b).value == Walk(Walk(s, a).value, b).value
    decreases |a|
  {
    if a != [] {
      assert (a + b)[0] == a[0] && (a + b)[1..] == a[1..] + b;
      match Step(s, a[0])
      case None =>
      case Some(t) => WalkAppend(t, a[1..], b);
    } else {
      assert a + b == b;
    }
  }

  /** A safe walk is safe on every prefix. */
  lemma WalkPrefix(s: Station, steps: seq<Call>, k: nat)
    requires k <= |steps| && Walk(s, steps).Some?
    ensures Walk(s, steps[..k]).Some?
  {
    assert steps == steps[..k] + steps[k..];
    WalkAppend(s, steps[..k], steps[k..]);
  }

  /** Where a safe walk ends after the operator's dispensing or a register
      write: a vial is on the balance, with its powder out after the
      dispensing and back after a register write. */
  lemma WalkLast(s: Station, steps: seq<Call>)
    requires steps != [] && Walk(s, steps).Some?
    ensures var last := steps[|steps| - 1];
            var t := Walk(s, steps).value;
            (last == AwaitOperator ==> t.vial.Some? && t.powder.Some?)
            && (last.SetTarget? || last.SetUpper? || last.SetLower? ==> t.vial.Some? && t.powder.None?)
  {
    var n := |steps|;
    assert steps == steps[..n - 1] + [steps[n - 1]];
    WalkAppend(s, steps[..n - 1], [steps[n - 1]]);
  }

  lemma ReachesAppend(s: Station, a: seq<Call>, m: Station, b: seq<Call>, t: Station)
    requires Reaches(s, a, m) && Reaches(m, b, t)
    ensures Reaches(s, a + b, t)
  {
    WalkAppend(s, a, b);
  }

  /** Setting the tolerances touches nothing at the bench. */
  lemma ToleranceDiscipline(mat: map<string, Json>, conv: Conversions, s: Station)
    requires s.vial.Some? && s.powder.None?
    ensures Reaches(s, TolerancePlan(mat, conv).steps, s)
  {
    var steps := TolerancePlan(mat, conv).steps;
    if steps != [] {
      assert |steps| == 2 && steps[0].SetUpper? && steps[1].SetLower?;
      assert steps[1..][1..] == [];
      assert Reaches(s, steps[1..], s);
    }
  }

  /** Fetching, taring, dispensing and returning a powder puts it back. */
  lemma PowderDiscipline(name: Json, s: Station)
    requires s.vial.Some? && s.powder.None?
    ensures Reaches(s, PowderPlan(name).steps, s)
  {
    var held := s.(powder := Some(name));
    assert Reaches(held, [Run(ReturnPowder(name))], s);
    assert Reaches(held, [AwaitOperator, Run(ReturnPowder(name))], s);
    assert Reaches(held, [Tare, AwaitOperator, Run(ReturnPowder(name))], s);
  }

  /** A material, however far its recipe entry lets it get, leaves the station
      as it found it: its powder is back and its vial still on the balance. */
  lemma MaterialDiscipline(mat: Json, conv: Conversions, s: Station)
    requires s.vial.Some? && s.powder.None?
    ensures Reaches(s, MaterialPlan(mat, conv).steps, s)
  {
    match Subscript(mat, "name")
    case Err(_) =>
    case Ok(name) =>
      if "target_mg" in mat.fields {
        match FloatOf(conv, mat.fields["target_mg"])
        case Err(_) =>
        case Ok(target) =>
          var tolerances := TolerancePlan(mat.fields, conv);
          var powder := PowderPlan(name);
          var rest := Then(tolerances, powder);
          assert MaterialPlan(mat, conv) == Then(Plan([SetTarget(target, JStr("mg"))], None), rest);
          ToleranceDiscipline(mat.fields, conv, s);
          PowderDiscipline(name, s);
          if tolerances.error.None? {
            ReachesAppend(s, tolerances.steps, s, powder.steps, s);
          }
          assert Reaches(s, [SetTarget(target, JStr("mg"))], s);
          ReachesAppend(s, [SetTarget(target, JStr("mg"))], s, rest.steps, s);
      }
  }

  lemma {:induction false} MaterialsDiscipline(items: seq<Json>, n: nat, conv: Conversions, s: Station)
    requires n <= |items| && s.vial.Some? && s.powder.None?
    ensures Reaches(s, MaterialsPlan(items, n, conv).steps, s)
  {
    if n > 0 {
      var init := MaterialsPlan(items, n - 1, conv);
      MaterialsDiscipline(items, n - 1, conv, s);
      if init.error.None? {
        MaterialDiscipline(items[n - 1], conv, s);
        ReachesAppend(s, init.steps, s, MaterialPlan(items[n - 1], conv).steps, s);
      }
    }
  }

  /** Placing a vial from an idle station leaves it on the balance behind
      closed doors. */
  lemma PlacementDiscipline(slot: int, s: Station)
    requires Idle(s)
    ensures Reaches(s, PlacementPlan(slot).steps, Station(Closed, Some(slot), None))
  {
    var placed := Station(Closed, Some(slot), None);
    var open := s.(doors := Open);
    assert Reaches(open.(vial := Some(slot)), [CloseDoor], placed);
    assert Reaches(open, [Run(RetrieveVial(slot)), CloseDoor], placed);
    assert Reaches(s.(doors := Closed), [OpenDoor, Run(RetrieveVial(slot)), CloseDoor], placed);
    assert Reaches(s, [CloseDoor, Zero], s.(doors := Closed));
    ReachesAppend(s, [CloseDoor, Zero], s.(doors := Closed), [OpenDoor, Run(RetrieveVial(slot)), CloseDoor], placed);
    assert PlacementPlan(slot).steps == [CloseDoor, Zero] + [OpenDoor, Run(RetrieveVial(slot)), CloseDoor];
  }

  /** Returning the vial from behind closed doors leaves the station idle. */
  lemma ReturnDiscipline(slot: int)
    ensures Reaches(Station(Closed, Some(slot), None), ReturnPlan(slot).steps, Station(Open, None, None))
  {
    assert Reaches(Station(Open, Some(slot), None), [Run(ReturnVial(slot))], Station(Open, None, None));
  }

  /** A vial, from an idle station: every command is safe and no powder is
      left out; when the vial's recipe raises nothing, the vial is back in
      its slot. */
  lemma VialDiscipline(vial: Json, position: nat, conv: Conversions, s: Station)
    requires Idle(s)
    ensures var plan := VialPlan(vial, position, conv);
            var w := Walk(s, plan.steps);
            w.Some? && w.value.powder.None? && (plan.error.None? ==> Idle(w.value))
  {
    var slot := SlotOf(vial, position, conv);
    if slot.Ok? {
      var items := LoopOver(Lookup(vial.fields, "materials", JList([])), TypeError);
      var materials := VialMaterials(vial.fields, conv);
      var head := PlacementPlan(slot.value);
      var tail := ReturnPlan(slot.value);
      assert VialPlan(vial, position, conv) == Then(head, Then(materials, tail));
      var placed := Station(Closed, Some(slot.value), None);
      PlacementDiscipline(slot.value, s);
      if items.Ok? {
        MaterialsDiscipline(items.value, |items.value|, conv, placed);
      }
      ReachesAppend(s, head.steps, placed, materials.steps, placed);
      if materials.error.None? {
        ReturnDiscipline(slot.value);
        ReachesAppend(placed, materials.steps, placed, tail.steps, Station(Open, None, None));
        ReachesAppend(s, head.steps, placed, materials.steps + tail.steps, Station(Open, None, None));
      }
    }
  }

  lemma {:induction false} VialsDiscipline(items: seq<Json>, n: nat, conv: Conversions, s: Station)
    requires n <= |items| && Idle(s)
    ensures var plan := VialsPlan(items, n, conv);
            var w := Walk(s, plan.steps);
            w.Some? && w.value.powder.None? && (plan.error.None? ==> Idle(w.value))
  {
    if n > 0 {
      var init := VialsPlan(items, n - 1, conv);
      VialsDiscipline(items, n - 1, conv, s);
      if init.error.None? {
        var mid := Walk(s, init.steps).value;
        VialDiscipline(items[n - 1], n, conv, mid);
        WalkAppend(s, init.steps, VialPlan(items[n - 1], n, conv).steps);
      }
    }
  }

  /** The whole run of a recipe, from a bench whose doors are in any state
      with nothing on the balance: no unsafe command, no powder left out, and
      the last vial back in its slot unless the recipe raised. */
  lemma ExecutionDiscipline(vials: Json, conv: Conversions, doors: Doors)
    ensures var plan := ExecutionPlan(vials, conv);
            var w := Walk(Station(doors, None, None), plan.steps);
            w.Some? && w.value.powder.None? && (plan.error.None? ==> Idle(w.value))
  {
    var items := LoopOver(vials, AttributeError);
    if items.Ok? {
      VialsDiscipline(items.value, |items.value|, conv, Station(doors, None, None));
    }
  }

  /** An exception the recipe itself causes, as opposed to a device's. */
  predicate RecipeError(e: PyError)
  {
    e != RuntimeError && e != EOFError
  }

  /** A material raises only what its recipe entry causes. */
  lemma MaterialRaises(mat: Json, conv: Conversions)
    ensures var plan := MaterialPlan(mat, conv);
            plan.error.Some? ==> RecipeError(plan.error.value)
  {
    match Subscript(mat, "name")
    case Err(_) =>
    case Ok(name) =>
      if "target_mg" in mat.fields {
        match FloatOf(conv, mat.fields["target_mg"])
        case Err(_) =>
        case Ok(target) =>
          var tolerances := TolerancePlan(mat.fields, conv);
          assert MaterialPlan(mat, conv).error == (if tolerances.error.Some? then tolerances.error else None);
      }
  }

  /** The materials raise only what their recipe entries cause. */
  lemma {:induction false} MaterialsRaise(items: seq<Json>, n: nat, conv: Conversions)
    requires n <= |items|
    ensures var plan := MaterialsPlan(items, n, conv);
            plan.error.Some? ==> RecipeError(plan.error.value)
  {
    if n > 0 {
      MaterialsRaise(items, n - 1, conv);
      MaterialRaises(items[n - 1], conv);
    }
  }

  /** A vial raises only what its recipe entry causes. */
  lemma VialRaises(vial: Json, position: nat, conv: Conversions)
    ensures var plan := VialPlan(vial, position, conv);
            plan.error.Some? ==> RecipeError(plan.error.value)
  {
    var slot := SlotOf(vial, position, conv);
    if slot.Ok? {
      var items := LoopOver(Lookup(vial.fields, "materials", JList([])), TypeError);
      if items.Ok? {
        MaterialsRaise(items.value, |items.value|, conv);
      }
    }
  }

  /** The vials raise only what their recipe entries cause. */
  lemma {:induction false} VialsRaise(items: seq<Json>, n: nat, conv: Conversions)
    requires n <= |items|
    ensures var plan := VialsPlan(items, n, conv);
            plan.error.Some? ==> RecipeError(plan.error.value)
  {
    if n > 0 {
      VialsRaise(items, n - 1, conv);
      VialRaises(items[n - 1], n, conv);
    }
  }

  /** A run of execute as far as it got, k calls and ending with c: every call
      made was safe; a powder is out at the end exactly when the end of
      console input cut the operator's dispensing short; a run a device
      ended leaves a vial on the balance; and a run that returned leaves the
      last vial back in its slot. */
  lemma RunDiscipline(vials: Json, conv: Conversions, doors: Doors, k: nat, c: Completion)
    requires RanTo(ExecutionPlan(vials, conv), k, c)
    ensures var plan := ExecutionPlan(vials, conv);
            var w := Walk(Station(doors, None, None), plan.steps[..k]);
            w.Some?
            && (w.value.powder.Some? <==> c == Raised(EOFError))
            && (k < |plan.steps| || (c.Raised? && !RecipeError(c.error)) ==> w.value.vial.Some?)
            && (c == Returned ==> Idle(w.value))
  {
    var plan := ExecutionPlan(vials, conv);
    var start := Station(doors, None, None);
    ExecutionDiscipline(vials, conv, doors);
    WalkPrefix(start, plan.steps, k);
    var items := LoopOver(vials, AttributeError);
    if items.Ok? {
      VialsRaise(items.value, |items.value|, conv);
    }
    if 0 < k {
      WalkLast(start, plan.steps[..k]);
    }
    if k == |plan.steps| {
      assert plan.steps[..k] == plan.steps;
    }
  }
}
