/** The recipe checks of the sampler's web front end: a validator that lists
    what is wrong with a parsed recipe, and a summary with one row per
    material. Both read the same JSON the sampler executes, and a recipe the
    validator accepts is one the sampler runs to the end. */
module RecipeCheck {
  import opened PyJson
  import opened Sampler

  /** What the validator reports. The positions are 1-based, as in its
      messages; `tag` is the material's name when that is truthy and "?"
      otherwise. The message texts themselves are not modelled. */
  datatype Issue =
    | VialsNotNonEmptyList
    | VialNotObject(vial: nat)
    | MaterialsNotNonEmptyList(vial: nat)
    | SlotNotInt(vial: nat)
    | MaterialNotObject(vial: nat, material: nat)
    | NameNotString(vial: nat, material: nat)
    | TargetMissing(vial: nat, material: nat, tag: Json)
    | TargetNotNumeric(vial: nat, material: nat, tag: Json)
    | NoTolerance(vial: nat, material: nat, tag: Json)
    | PctNotNumeric(vial: nat, material: nat, tag: Json)
    | AbsIncomplete(vial: nat, material: nat, tag: Json)
    | AbsNotNumeric(vial: nat, material: nat, tag: Json)
    | UnitNotString(vial: nat, material: nat, tag: Json)

  /** The validator's answer: whether the recipe is acceptable, and why not. */
  datatype Validation = Validation(ok: bool, errors: seq<Issue>)

  /** `mat.get("tolerance", {})`. */
  function Nested(mat: map<string, Json>): Json
  {
    Lookup(mat, "tolerance", JDict(map[]))
  }

  /** `key in d` holds and `d[key]` is a non-empty list. */
  predicate NonEmptyList(d: map<string, Json>, key: string)
  {
    key in d && d[key].JList? && d[key].items != []
  }

  /** _material_has_pct: a top-level `tol_pct`, or `pct` in the nested
      tolerance; the second test is Python's `in`, which raises TypeError on
      a nested value that is not a container. */
  function MaterialHasPct(mat: map<string, Json>): (r: Result<bool>)
    ensures "tol_pct" in mat ==> r == Ok(true)
    ensures Nested(mat).JDict? ==> r == Ok("tol_pct" in mat || "pct" in Nested(mat).fields)
    ensures r.Err? ==> r.error == TypeError && "tol_pct" !in mat
  {
    if "tol_pct" in mat then Ok(true) else Contains(Nested(mat), "pct")
  }

  /** _material_has_abs: both limits at the top level, or both in the nested
      tolerance. */
  function MaterialHasAbs(mat: map<string, Json>): (r: Result<bool>)
    ensures "tol_upper" in mat && "tol_lower" in mat ==> r == Ok(true)
    ensures Nested(mat).JDict? ==>
              r == Ok(("tol_upper" in mat && "tol_lower" in mat)
                      || ("upper" in Nested(mat).fields && "lower" in Nested(mat).fields))
    ensures r.Err? ==> r.error == TypeError
  {
    if "tol_upper" in mat && "tol_lower" in mat then Ok(true)
    else
      match Contains(Nested(mat), "upper")
      case Err(e) => Err(e)
      case Ok(hasUpper) => if hasUpper then Contains(Nested(mat), "lower") else Ok(false)
  }

  // -----------------------------------------------------------------------
  // The validator

  /** The percentage check: the value execute would read must go through
      float(). Reading it calls get() on the nested tolerance even when
      `tol_pct` is present, outside the try. */
  function PctIssues(mat: map<string, Json>, vi: nat, mi: nat, tag: Json, conv: Conversions): Result<seq<Issue>>
  {
    match GetMethod(Nested(mat), "pct", JNull)
    case Err(e) => Err(e)
    case Ok(nestedPct) =>
      var pct := Lookup(mat, "tol_pct", nestedPct);
      Ok(if FloatOf(conv, pct).Err? then [PctNotNumeric(vi, mi, tag)] else [])
  }

  /** The absolute-limits check: both limits present (top level first) and
      numeric, and the unit, by default "mg", a string. */
  function AbsIssues(mat: map<string, Json>, vi: nat, mi: nat, tag: Json, conv: Conversions): Result<seq<Issue>>
  {
    var nested := Nested(mat);
    match GetMethod(nested, "upper", JNull)
    case Err(e) => Err(e)
    case Ok(nestedUpper) =>
      var upper := Lookup(mat, "tol_upper", nestedUpper);
      var lower := Lookup(mat, "tol_lower", Lookup(nested.fields, "lower", JNull));
      var limits :=
        if upper == JNull || lower == JNull then [AbsIncomplete(vi, mi, tag)]
        else if FloatOf(conv, upper).Err? || FloatOf(conv, lower).Err? then [AbsNotNumeric(vi, mi, tag)]
        else [];
      var unit := Lookup(mat, "tol_unit", Lookup(nested.fields, "unit", JStr("mg")));
      Ok(limits + if unit.JStr? then [] else [UnitNotString(vi, mi, tag)])
  }

  /** How the messages about a material name it: its name when that is
      truthy, "?" otherwise. */
  function Tag(m: map<string, Json>): Json
  {
    var name := Lookup(m, "name", JNull);
    if Truthy(name) then name else JStr("?")
  }

  /** The name check: `name` must be a non-empty string. */
  function NameIssues(m: map<string, Json>, vi: nat, mi: nat): seq<Issue>
  {
    var name := Lookup(m, "name", JNull);
    if !Truthy(name) || !name.JStr? then [NameNotString(vi, mi)] else []
  }

  /** The target check: `target_mg` must be present, and go through float(). */
  function TargetIssues(m: map<string, Json>, vi: nat, mi: nat, conv: Conversions): seq<Issue>
  {
    if "target_mg" !in m then [TargetMissing(vi, mi, Tag(m))]
    else if FloatOf(conv, m["target_mg"]).Err? then [TargetNotNumeric(vi, mi, Tag(m))]
    else []
  }

  /** The tolerance checks: one of the two forms must be given, and the ones
      given are checked. */
  function ToleranceIssues(m: map<string, Json>, vi: nat, mi: nat, conv: Conversions): Result<seq<Issue>>
  {
    match MaterialHasPct(m)
    case Err(e) => Err(e)
    case Ok(hasPct) =>
      match MaterialHasAbs(m)
      case Err(e) => Err(e)
      case Ok(hasAbs) =>
        if !(hasPct || hasAbs) then Ok([NoTolerance(vi, mi, Tag(m))])
        else
          match (if hasPct then PctIssues(m, vi, mi, Tag(m), conv) else Ok([]))
          case Err(e) => Err(e)
          case Ok(pctIssues) =>
            match (if hasAbs then AbsIssues(m, vi, mi, Tag(m), conv) else Ok([]))
            case Err(e) => Err(e)
            case Ok(absIssues) => Ok(pctIssues + absIssues)
  }

  /** The checks of material `mi` of vial `vi`, in the order they run; an
      exception that escapes the validator is an Err. */
  function MaterialIssues(mat: Json, vi: nat, mi: nat, conv: Conversions): Result<seq<Issue>>
  {
    if !mat.JDict? then Ok([MaterialNotObject(vi, mi)])
    else
      match ToleranceIssues(mat.fields, vi, mi, conv)
      case Err(e) => Err(e)
      case Ok(toleranceIssues) =>
        Ok(NameIssues(mat.fields, vi, mi) + TargetIssues(mat.fields, vi, mi, conv) + toleranceIssues)
  }

  /** The materials of vial `vi`, numbered from 1. */
  function MaterialsIssues(items: seq<Json>, vi: nat, conv: Conversions): Result<seq<Issue>>
    decreases |items|
  {
    if items == [] then Ok([])
    else
      match MaterialsIssues(items[..|items| - 1], vi, conv)
      case Err(e) => Err(e)
      case Ok(before) =>
        match MaterialIssues(items[|items| - 1], vi, |items|, conv)
        case Err(e) => Err(e)
        case Ok(last) => Ok(before + last)
  }

  /** The checks of vial `vi`: one issue and nothing more for a vial that
      is not an object or has no non-empty materials list; otherwise the
      slot check, then its materials. */
  function VialIssues(vial: Json, vi: nat, conv: Conversions): Result<seq<Issue>>
  {
    if !vial.JDict? then Ok([VialNotObject(vi)])
    else if !NonEmptyList(vial.fields, "materials") then Ok([MaterialsNotNonEmptyList(vi)])
    else
      var slotIssues := if "slot" in vial.fields && !IsInt(vial.fields["slot"]) then [SlotNotInt(vi)] else [];
      match MaterialsIssues(vial.fields["materials"].items, vi, conv)
      case Err(e) => Err(e)
      case Ok(materialIssues) => Ok(slotIssues + materialIssues)
  }

  /** The vials, numbered from 1. */
  function VialsIssues(items: seq<Json>, conv: Conversions): Result<seq<Issue>>
    decreases |items|
  {
    if items == [] then Ok([])
    else
      match VialsIssues(items[..|items| - 1], conv)
      case Err(e) => Err(e)
      case Ok(before) =>
        match VialIssues(items[|items| - 1], |items|, conv)
        case Err(e) => Err(e)
        case Ok(last) => Ok(before + last)
  }

  /** validate_recipe's list of errors: a missing, non-list or empty "vials"
      is the only error reported; otherwise the issues of every vial. */
  function RecipeIssues(data: Json, conv: Conversions): Result<seq<Issue>>
  {
    match Contains(data, "vials")
    case Err(e) => Err(e)
    case Ok(present) =>
      if !present then Ok([VialsNotNonEmptyList])
      else
        match Subscript(data, "vials")
        case Err(e) => Err(e)
        case Ok(vials) =>
          if !vials.JList? || vials.items == [] then Ok([VialsNotNonEmptyList])
          else VialsIssues(vials.items, conv)
  }

  /** The inner loop of validate_recipe, over the materials of vial `vi`. */
  method CheckMaterials(mats: seq<Json>, vi: nat, conv: Conversions) returns (r: Result<seq<Issue>>)
    ensures r == MaterialsIssues(mats, vi, conv)
  {
    var found: seq<Issue> := [];
    var mi := 0;
    while mi < |mats|
      invariant mi <= |mats|
      invariant MaterialsIssues(mats[..mi], vi, conv) == Ok(found)
    {
      assert mats[..mi + 1][..mi] == mats[..mi];
      var matIssues := MaterialIssues(mats[mi], vi, mi + 1, conv);
      if matIssues.Err? {
        MaterialsErrStays(mats, mi + 1, vi, conv);
        assert mats[..|mats|] == mats;
        return Err(matIssues.error);
      }
      found := found + matIssues.value;
      mi := mi + 1;
    }
    assert mats[..mi] == mats;
    return Ok(found);
  }

  /** The outer loop of validate_recipe, over the vials. */
  method CheckVials(items: seq<Json>, conv: Conversions) returns (r: Result<seq<Issue>>)
    ensures r == VialsIssues(items, conv)
  {
    var errors: seq<Issue> := [];
    var vi := 0;
    while vi < |items|
      invariant vi <= |items|
      invariant VialsIssues(items[..vi], conv) == Ok(errors)
    {
      var vial := items[vi];
      assert items[..vi + 1][..vi] == items[..vi];
      if !vial.JDict? {
        errors := errors + [VialNotObject(vi + 1)];
      } else if !NonEmptyList(vial.fields, "materials") {
        errors := errors + [MaterialsNotNonEmptyList(vi + 1)];
      } else {
        var slotIssues: seq<Issue> := [];
        if "slot" in vial.fields && !IsInt(vial.fields["slot"]) {
          slotIssues := [SlotNotInt(vi + 1)];
        }
        var found := CheckMaterials(vial.fields["materials"].items, vi + 1, conv);
        if found.Err? {
          VialsErrStays(items, vi + 1, conv);
          assert items[..|items|] == items;
          return Err(found.error);
        }
        errors := errors + (slotIssues + found.value);
      }
      vi := vi + 1;
    }
    assert items[..vi] == items;
    return Ok(errors);
  }

  /** validate_recipe: the issues of a recipe, and a flag that says none
      were found. */
  method ValidateRecipe(data: Json, conv: Conversions) returns (r: Result<Validation>)
    ensures RecipeIssues(data, conv).Err? ==> r == Err(RecipeIssues(data, conv).error)
    ensures RecipeIssues(data, conv).Ok? ==>
              r.Ok? && r.value.errors == RecipeIssues(data, conv).value && (r.value.ok <==> r.value.errors == [])
  {
    var present := Contains(data, "vials");
    if present.Err? {
      return Err(present.error);
    }
    if !present.value {
      return Ok(Validation(false, [VialsNotNonEmptyList]));
    }
    var vials := Subscript(data, "vials");
    if vials.Err? {
      return Err(vials.error);
    }
    if !vials.value.JList? || vials.value.items == [] {
      return Ok(Validation(false, [VialsNotNonEmptyList]));
    }
    var errors := CheckVials(vials.value.items, conv);
    if errors.Err? {
      return Err(errors.error);
    }
    return Ok(Validation(errors.value == [], errors.value));
  }

  /** An exception among the first n materials escapes whatever follows. */
  lemma {:induction false} MaterialsErrStays(items: seq<Json>, n: nat, vi: nat, conv: Conversions)
    requires n <= |items| && MaterialsIssues(items[..n], vi, conv).Err?
    ensures MaterialsIssues(items[..|items|], vi, conv) == MaterialsIssues(items[..n], vi, conv)
    decreases |items|
  {
    if n < |items| {
      assert items[..|items| - 1][..n] == items[..n];
      assert items[..|items|][..|items| - 1] == items[..|items| - 1];
      assert items[..|items| - 1][..|items| - 1] == items[..|items| - 1];
      MaterialsErrStays(items[..|items| - 1], n, vi, conv);
    }
  }

  /** An exception among the first n vials escapes whatever follows. */
  lemma {:induction false} VialsErrStays(items: seq<Json>, n: nat, conv: Conversions)
    requires n <= |items| && VialsIssues(items[..n], conv).Err?
    ensures VialsIssues(items[..|items|], conv) == VialsIssues(items[..n], conv)
    decreases |items|
  {
    if n < |items| {
      assert items[..|items| - 1][..n] == items[..n];
      assert items[..|items|][..|items| - 1] == items[..|items| - 1];
      assert items[..|items| - 1][..|items| - 1] == items[..|items| - 1];
      VialsErrStays(items[..|items| - 1], n, conv);
    }
  }

  // -----------------------------------------------------------------------
  // The summary

  /** One summary row: the vial's slot, the material's name and target as
      given (None when absent), and its tolerance. */
  datatype Row = Row(slot: Json, material: Json, target: Json, tolerance: Tolerance)

  /** The row of one material: the percentage form when _material_has_pct
      would say so (even with a null value), otherwise the limits with
      defaults 0.0, 0.0 and "mg". Every access is a get(), so a material or
      a nested tolerance that is not an object raises AttributeError. */
  function MaterialRow(mat: Json, slot: Json): (r: Result<Row>)
    ensures r.Ok? ==> mat.JDict? && Nested(mat.fields).JDict?
    ensures r.Ok? ==> r.value.slot == slot && r.value.material == Lookup(mat.fields, "name", JNull)
                      && r.value.target == Lookup(mat.fields, "target_mg", JNull)
    ensures r.Ok? ==> (r.value.tolerance.Percent? <==> MaterialHasPct(mat.fields) == Ok(true))
    ensures r.Ok? && r.value.tolerance.Percent? ==>
              r.value.tolerance.pct == Lookup(mat.fields, "tol_pct", Lookup(Nested(mat.fields).fields, "pct", JNull))
    ensures r.Ok? && r.value.tolerance.Absolute? ==>
              var nested := Nested(mat.fields).fields;
              r.value.tolerance.upper == Lookup(mat.fields, "tol_upper", Lookup(nested, "upper", JFloat(0.0)))
              && r.value.tolerance.lower == Lookup(mat.fields, "tol_lower", Lookup(nested, "lower", JFloat(0.0)))
              && r.value.tolerance.unit == Lookup(mat.fields, "tol_unit", Lookup(nested, "unit", JStr("mg")))
  {
    if !mat.JDict? then Err(AttributeError)
    else
      var m := mat.fields;
      var nested := Nested(m);
      var name := Lookup(m, "name", JNull);
      var target := Lookup(m, "target_mg", JNull);
      match MaterialHasPct(m)
      case Err(e) => Err(e)
      case Ok(hasPct) =>
        if hasPct then
          match GetMethod(nested, "pct", JNull)
          case Err(e) => Err(e)
          case Ok(nestedPct) => Ok(Row(slot, name, target, Percent(Lookup(m, "tol_pct", nestedPct))))
        else
          match GetMethod(nested, "upper", JFloat(0.0))
          case Err(e) => Err(e)
          case Ok(nestedUpper) =>
            var upper := Lookup(m, "tol_upper", nestedUpper);
            var lower := Lookup(m, "tol_lower", Lookup(nested.fields, "lower", JFloat(0.0)));
            var unit := Lookup(m, "tol_unit", Lookup(nested.fields, "unit", JStr("mg")));
            Ok(Row(slot, name, target, Absolute(upper, lower, unit)))
  }

  /** The rows of a vial's materials, one per material in order, all with
      the vial's slot. */
  function MaterialRows(items: seq<Json>, slot: Json): (r: Result<seq<Row>>)
    ensures r.Ok? ==> |r.value| == |items| && forall k :: 0 <= k < |r.value| ==> r.value[k].slot == slot
    ensures r.Ok? ==> forall k :: 0 <= k < |items| ==> MaterialRow(items[k], slot) == Ok(r.value[k])
    decreases |items|
  {
    if items == [] then Ok([])
    else
      match MaterialRows(items[..|items| - 1], slot)
      case Err(e) => Err(e)
      case Ok(before) =>
        match MaterialRow(items[|items| - 1], slot)
        case Err(e) => Err(e)
        case Ok(last) => Ok(before + [last])
  }

  /** The rows of vial `vi`: its slot is `vial.get("slot", vi)`, and its
      materials `vial.get("materials", [])`. */
  function VialRows(vial: Json, vi: nat): (r: Result<seq<Row>>)
    ensures r.Ok? ==> vial.JDict?
    ensures r.Ok? ==> forall k :: 0 <= k < |r.value| ==> r.value[k].slot == Lookup(vial.fields, "slot", JInt(vi))
  {
    match GetMethod(vial, "slot", JInt(vi))
    case Err(e) => Err(e)
    case Ok(slot) =>
      match LoopOver(Lookup(vial.fields, "materials", JList([])), AttributeError)
      case Err(e) => Err(e)
      case Ok(items) => MaterialRows(items, slot)
  }

  /** The rows of the vials, numbered from 1. */
  function VialsRows(items: seq<Json>): Result<seq<Row>>
    decreases |items|
  {
    if items == [] then Ok([])
    else
      match VialsRows(items[..|items| - 1])
      case Err(e) => Err(e)
      case Ok(before) =>
        match VialRows(items[|items| - 1], |items|)
        case Err(e) => Err(e)
        case Ok(last) => Ok(before + last)
  }

  /** summarize_recipe's rows: those of `data.get("vials", [])`. */
  function Summary(data: Json): Result<seq<Row>>
  {
    match GetMethod(data, "vials", JList([]))
    case Err(e) => Err(e)
    case Ok(vials) =>
      match LoopOver(vials, AttributeError)
      case Err(e) => Err(e)
      case Ok(items) => VialsRows(items)
  }

  /** An exception among the first n materials' rows escapes the rest. */
  lemma {:induction false} MaterialRowsErrStays(items: seq<Json>, n: nat, slot: Json)
    requires n <= |items| && MaterialRows(items[..n], slot).Err?
    ensures MaterialRows(items, slot) == MaterialRows(items[..n], slot)
    decreases |items|
  {
    if n < |items| {
      assert items[..|items| - 1][..n] == items[..n];
      MaterialRowsErrStays(items[..|items| - 1], n, slot);
    } else {
      assert items[..n] == items;
    }
  }

  /** An exception among the first n vials' rows escapes the rest. */
  lemma {:induction false} VialsRowsErrStays(items: seq<Json>, n: nat)
    requires n <= |items| && VialsRows(items[..n]).Err?
    ensures VialsRows(items) == VialsRows(items[..n])
    decreases |items|
  {
    if n < |items| {
      assert items[..|items| - 1][..n] == items[..n];
      VialsRowsErrStays(items[..|items| - 1], n);
    } else {
      assert items[..n] == items;
    }
  }

  /** The inner loop of summarize_recipe, for vial `vi`. */
  method SummarizeVial(vial: Json, vi: nat) returns (r: Result<seq<Row>>)
    ensures r == VialRows(vial, vi)
  {
    var slot := GetMethod(vial, "slot", JInt(vi));
    if slot.Err? {
      return Err(slot.error);
    }
    var items := LoopOver(Lookup(vial.fields, "materials", JList([])), AttributeError);
    if items.Err? {
      return Err(items.error);
    }
    var mats := items.value;
    var rows: seq<Row> := [];
    var mi := 0;
    while mi < |mats|
      invariant mi <= |mats|
      invariant MaterialRows(mats[..mi], slot.value) == Ok(rows)
    {
      assert mats[..mi + 1][..mi] == mats[..mi];
      var row := MaterialRow(mats[mi], slot.value);
      if row.Err? {
        MaterialRowsErrStays(mats, mi + 1, slot.value);
        return Err(row.error);
      }
      rows := rows + [row.value];
      mi := mi + 1;
    }
    assert mats[..mi] == mats;
    return Ok(rows);
  }

  /** summarize_recipe. */
  method SummarizeRecipe(data: Json) returns (r: Result<seq<Row>>)
    ensures r == Summary(data)
  {
    var vials := GetMethod(data, "vials", JList([]));
    if vials.Err? {
      return Err(vials.error);
    }
    var items := LoopOver(vials.value, AttributeError);
    if items.Err? {
      return Err(items.error);
    }
    var all := items.value;
    var rows: seq<Row> := [];
    var vi := 0;
    while vi < |all|
      invariant vi <= |all|
      invariant VialsRows(all[..vi]) == Ok(rows)
    {
      assert all[..vi + 1][..vi] == all[..vi];
      var vialRows := SummarizeVial(all[vi], vi + 1);
      if vialRows.Err? {
        VialsRowsErrStays(all, vi + 1);
        return Err(vialRows.error);
      }
      rows := rows + vialRows.value;
      vi := vi + 1;
    }
    assert all[..vi] == all;
    return Ok(rows);
  }

  // -----------------------------------------------------------------------
  // What the checks promise about execution

  /** A material the validator accepts runs to the end of its steps, and
      its summary row shows the tolerance execute sets. */
  lemma ValidMaterialRuns(mat: Json, vi: nat, mi: nat, conv: Conversions, slot: Json)
    requires MaterialIssues(mat, vi, mi, conv) == Ok([])
    ensures MaterialPlan(mat, conv).error.None?
    ensures ExecTolerance(mat.fields).Ok?
    ensures MaterialRow(mat, slot).Ok? && MaterialRow(mat, slot).value.tolerance == ExecTolerance(mat.fields).value
  {
    var m := mat.fields;
    var nested := Nested(m);
    var hasPct := MaterialHasPct(m).value;
    var hasAbs := MaterialHasAbs(m).value;
    var tag := if Truthy(Lookup(m, "name", JNull)) then Lookup(m, "name", JNull) else JStr("?");
    assert hasPct || hasAbs;
    if hasPct {
      assert PctIssues(m, vi, mi, tag, conv) == Ok([]);
    } else {
      assert AbsIssues(m, vi, mi, tag, conv) == Ok([]);
    }
    assert nested.JDict?;
    var pct := Lookup(m, "tol_pct", Lookup(nested.fields, "pct", JNull));
    var tolerance := ExecTolerance(m).value;
    if hasPct {
      assert FloatOf(conv, pct).Ok?;
      assert tolerance == Percent(pct);
    } else {
      assert pct == JNull;
      assert AbsIssues(m, vi, mi, tag, conv) == Ok([]);
      var upper := Lookup(m, "tol_upper", Lookup(nested.fields, "upper", JNull));
      var lower := Lookup(m, "tol_lower", Lookup(nested.fields, "lower", JNull));
      assert upper != JNull && lower != JNull;
      assert tolerance.upper == upper && tolerance.lower == lower;
    }
  }

  lemma {:induction false} ValidMaterialsRun(items: seq<Json>, vi: nat, conv: Conversions, slot: Json)
    requires MaterialsIssues(items, vi, conv) == Ok([])
    ensures MaterialsPlan(items, |items|, conv).error.None?
    ensures MaterialRows(items, slot).Ok?
    decreases |items|
  {
    if items != [] {
      var init := items[..|items| - 1];
      MaterialsPlanLast(items, conv);
      var before := MaterialsIssues(init, vi, conv);
      var last := MaterialIssues(items[|items| - 1], vi, |items|, conv);
      assert before.Ok? && last.Ok? && before.value + last.value == [];
      assert before.value == [] && last.value == [];
      ValidMaterialsRun(init, vi, conv, slot);
      ValidMaterialRuns(items[|items| - 1], vi, |items|, conv, slot);
    }
  }

  /** A vial the validator accepts runs to the end and can be summarised. */
  lemma ValidVialRuns(vial: Json, vi: nat, conv: Conversions)
    requires VialIssues(vial, vi, conv) == Ok([])
    ensures VialPlan(vial, vi, conv).error.None?
    ensures VialRows(vial, vi).Ok?
  {
    var items := vial.fields["materials"].items;
    var slotIssues := if "slot" in vial.fields && !IsInt(vial.fields["slot"]) then [SlotNotInt(vi)] else [];
    assert MaterialsIssues(items, vi, conv).Ok?;
    assert slotIssues + MaterialsIssues(items, vi, conv).value == [];
    assert MaterialsIssues(items, vi, conv) == Ok([]);
    ValidMaterialsRun(items, vi, conv, Lookup(vial.fields, "slot", JInt(vi)));
    assert SlotOf(vial, vi, conv).Ok?;
  }

  lemma {:induction false} ValidVialsRun(items: seq<Json>, conv: Conversions)
    requires VialsIssues(items, conv) == Ok([])
    ensures VialsPlan(items, |items|, conv).error.None?
    ensures VialsRows(items).Ok?
    decreases |items|
  {
    if items != [] {
      var init := items[..|items| - 1];
      VialsPlanLast(items, conv);
      var before := VialsIssues(init, conv);
      var last := VialIssues(items[|items| - 1], |items|, conv);
      assert before.Ok? && last.Ok? && before.value + last.value == [];
      assert before.value == [] && last.value == [];
      ValidVialsRun(init, conv);
      ValidVialRuns(items[|items| - 1], |items|, conv);
    }
  }

  /** A recipe the validator accepts is one whose vials load_recipe keeps,
      execute runs to the end (unless a device fails), and summarize_recipe
      summarises without raising. */
  lemma ValidatedRecipeRuns(data: Json, conv: Conversions)
    requires RecipeIssues(data, conv) == Ok([])
    ensures data.JDict? && "vials" in data.fields
    ensures ExecutionPlan(Lookup(data.fields, "vials", JList([])), conv).error.None?
    ensures Summary(data).Ok?
  {
    assert data.JDict?;
    ValidVialsRun(data.fields["vials"].items, conv);
  }

  /** For a material the validator accepts, the summary shows the
      tolerance execute sets; for other materials the two can differ: a
      null `tol_pct` is summarised as a percentage while execute falls back
      to the limits. */
  lemma SummaryMayDifferFromExecution()
    ensures var mat := JDict(map["tol_pct" := JNull]);
            MaterialRow(mat, JInt(1)).Ok? && ExecTolerance(mat.fields).Ok?
            && MaterialRow(mat, JInt(1)).value.tolerance != ExecTolerance(mat.fields).value
  {
    var mat := JDict(map["tol_pct" := JNull]);
    assert MaterialHasPct(mat.fields) == Ok(true);
    assert Nested(mat.fields) == JDict(map[]);
  }

  /** A vial that is not an object is reported with its 1-based position,
      and the vials after it are still checked. */
  lemma {:induction false} BadVialReported(items: seq<Json>, i: nat, conv: Conversions)
    requires i < |items| && !items[i].JDict? && VialsIssues(items, conv).Ok?
    ensures VialNotObject(i + 1) in VialsIssues(items, conv).value
    decreases |items|
  {
    if i < |items| - 1 {
      BadVialReported(items[..|items| - 1], i, conv);
    }
  }

  /** The tolerance checks report only tolerance issues, and report a
      missing tolerance exactly when neither form is given. */
  lemma ToleranceIssuesKinds(m: map<string, Json>, vi: nat, mi: nat, conv: Conversions)
    requires ToleranceIssues(m, vi, mi, conv).Ok?
    ensures forall x: Issue :: x in ToleranceIssues(m, vi, mi, conv).value ==>
              x.NoTolerance? || x.PctNotNumeric? || x.AbsIncomplete? || x.AbsNotNumeric? || x.UnitNotString?
    ensures NoTolerance(vi, mi, Tag(m)) in ToleranceIssues(m, vi, mi, conv).value
            <==> MaterialHasPct(m) == Ok(false) && MaterialHasAbs(m) == Ok(false)
  {
    var hasPct := MaterialHasPct(m).value;
    var hasAbs := MaterialHasAbs(m).value;
    if hasPct || hasAbs {
      var pctIssues := if hasPct then PctIssues(m, vi, mi, Tag(m), conv).value else [];
      var absIssues := if hasAbs then AbsIssues(m, vi, mi, Tag(m), conv).value else [];
      assert ToleranceIssues(m, vi, mi, conv).value == pctIssues + absIssues;
    }
  }

  /** What the checks of one object material report: a name that is not a
      non-empty string; a missing `target_mg` and a non-numeric one as two
      different issues; and the absence of both tolerance forms. */
  lemma MaterialReported(mat: Json, vi: nat, mi: nat, conv: Conversions)
    requires mat.JDict? && MaterialIssues(mat, vi, mi, conv).Ok?
    ensures var m := mat.fields;
            var name := Lookup(m, "name", JNull);
            var issues := MaterialIssues(mat, vi, mi, conv).value;
            (NameNotString(vi, mi) in issues <==> !(Truthy(name) && name.JStr?))
            && (TargetMissing(vi, mi, Tag(m)) in issues <==> "target_mg" !in m)
            && (TargetNotNumeric(vi, mi, Tag(m)) in issues
                <==> "target_mg" in m && FloatOf(conv, m["target_mg"]).Err?)
            && (NoTolerance(vi, mi, Tag(m)) in issues
                <==> MaterialHasPct(m) == Ok(false) && MaterialHasAbs(m) == Ok(false))
  {
    var m := mat.fields;
    ToleranceIssuesKinds(m, vi, mi, conv);
    var tolerance := ToleranceIssues(m, vi, mi, conv).value;
    assert MaterialIssues(mat, vi, mi, conv).value == NameIssues(m, vi, mi) + TargetIssues(m, vi, mi, conv) + tolerance;
  }

  /** An issue about a material rather than a vial or the whole recipe. */
  predicate MaterialLevel(x: Issue)
  {
    !x.VialsNotNonEmptyList? && !x.VialNotObject? && !x.MaterialsNotNonEmptyList? && !x.SlotNotInt?
  }

  lemma MaterialIssuesAreMaterialLevel(mat: Json, vi: nat, mi: nat, conv: Conversions)
    requires MaterialIssues(mat, vi, mi, conv).Ok?
    ensures forall x :: x in MaterialIssues(mat, vi, mi, conv).value ==> MaterialLevel(x)
  {
    if mat.JDict? {
      ToleranceIssuesKinds(mat.fields, vi, mi, conv);
    }
  }

  /** The checks of a vial's materials report nothing about vials. */
  lemma {:induction false} MaterialsIssuesAreMaterialLevel(items: seq<Json>, vi: nat, conv: Conversions)
    requires MaterialsIssues(items, vi, conv).Ok?
    ensures forall x :: x in MaterialsIssues(items, vi, conv).value ==> MaterialLevel(x)
    decreases |items|
  {
    if items != [] {
      MaterialsIssuesAreMaterialLevel(items[..|items| - 1], vi, conv);
      MaterialIssuesAreMaterialLevel(items[|items| - 1], vi, |items|, conv);
    }
  }

  /** A vial with a non-empty materials list is reported for its slot exactly
      when a slot is given that is not an integer. */
  lemma SlotReported(vial: Json, vi: nat, conv: Conversions)
    requires vial.JDict? && NonEmptyList(vial.fields, "materials") && VialIssues(vial, vi, conv).Ok?
    ensures SlotNotInt(vi) in VialIssues(vial, vi, conv).value
            <==> "slot" in vial.fields && !IsInt(vial.fields["slot"])
  {
    MaterialsIssuesAreMaterialLevel(vial.fields["materials"].items, vi, conv);
  }

  /** A missing, non-list or empty "vials" is the only error. */
  lemma MissingVialsOnlyError(data: Json, conv: Conversions)
    requires data.JDict? && !NonEmptyList(data.fields, "vials")
    ensures RecipeIssues(data, conv) == Ok([VialsNotNonEmptyList])
  {
  }
}
