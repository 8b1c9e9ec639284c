/**
 * The vent form (src/components/VentForm.tsx): the default vent type a
 * structure model implies, the default sizes per vent type, the chain of
 * filters that picks the drives offered for a vent, how the selected drive
 * is reconciled with that list, the field updates of `handleChange` with the
 * insect-screen syncing they carry, `handleVentTypeChange`, the combined-type
 * check and the payload `handleSubmit` builds. Loading drives from the
 * database is a parameter (the rows it returned).
 */
module VentForm {
  import opened JsText
  import opened JsValue

  const VentTypes := ["Continental Roof", "Gothic Roof", "Insulator Roof", "Oxnard Vent", "Pad Vent", "Solar Light Roof", "Wall Vent"]

  const Configurations := ["Single", "Double"]

  const DefaultVentSizes: map<string, seq<real>> := map[
    "Solar Light Roof" := [54.0],
    "Insulator Roof" := [48.0],
    "Gothic Roof" := [48.0],
    "Continental Roof" := [48.0],
    "Wall Vent Single" := [36.0, 42.0, 48.0],
    "Wall Vent Double" := [36.0, 42.0, 48.0]]

  const ValidCombinedTypes := [
    "Continental Roof Single", "Continental Roof Double",
    "Gothic Roof Single", "Gothic Roof Double",
    "Insulator Roof Single", "Insulator Roof Double",
    "Oxnard Vent Single", "Oxnard Vent Double",
    "Pad Vent Single", "Pad Vent Double",
    "Solar Light Roof Single", "Solar Light Roof Double",
    "Wall Vent Single", "Wall Vent Double"]

  /** `toUpperCase` on ASCII letters. */
  function UpperChar(c: char): char
  {
    if 'a' <= c <= 'z' then (c as int - 32) as char else c
  }

  function ToUpper(s: string): (r: string)
    ensures |r| == |s|
    ensures forall i :: 0 <= i < |s| ==> r[i] == UpperChar(s[i])
  {
    seq(|s|, i requires 0 <= i < |s| => UpperChar(s[i]))
  }

  /** `getVentTypeFromModel(model)`: the roof vent a structure series carries,
      matched case-insensitively on the model's first two letters. */
  function VentTypeFromModel(model: string): (t: string)
    ensures t in DefaultVentSizes
    ensures t in VentTypes
  {
    var m := ToUpper(model);
    if StartsWith(m, "SL") then "Solar Light Roof"
    else if StartsWith(m, "IN") then "Insulator Roof"
    else if StartsWith(m, "NS") then "Gothic Roof"
    else "Continental Roof"
  }

  /** The series prefixes, in either case, pick their vent type; every other
      model gets the Continental roof vent. */
  lemma VentTypeOfSeries(model: string)
    ensures |model| >= 2 && UpperChar(model[0]) == 'S' && UpperChar(model[1]) == 'L' ==> VentTypeFromModel(model) == "Solar Light Roof"
    ensures |model| >= 2 && UpperChar(model[0]) == 'I' && UpperChar(model[1]) == 'N' ==> VentTypeFromModel(model) == "Insulator Roof"
    ensures |model| >= 2 && UpperChar(model[0]) == 'N' && UpperChar(model[1]) == 'S' ==> VentTypeFromModel(model) == "Gothic Roof"
    ensures |model| < 2 ==> VentTypeFromModel(model) == "Continental Roof"
    ensures (|model| >= 2 && !(UpperChar(model[0]) == 'S' && UpperChar(model[1]) == 'L') && !(UpperChar(model[0]) == 'I' && UpperChar(model[1]) == 'N')
             && !(UpperChar(model[0]) == 'N' && UpperChar(model[1]) == 'S')) ==> VentTypeFromModel(model) == "Continental Roof"
  {
    var m := ToUpper(model);
    if |model| >= 2 {
      assert m[..2] == [UpperChar(model[0]), UpperChar(model[1])];
    }
  }

  /** `getDefaultVentSize(ventType)`: the first default size; the source
      faults on a type without defaults, so the type must have them. */
  function DefaultVentSize(ventType: string): (size: real)
    requires ventType in DefaultVentSizes
    ensures size in DefaultVentSizes[ventType]
  {
    DefaultVentSizes[ventType][0]
  }

  /** A drive row as the database returns it: a missing size or structure list is `None`. */
  datatype RawDrive = RawDrive(driveId: string, driveType: string, ventType: string, ventSize: Option<real>, compatible: Option<seq<string>>)

  datatype Drive = Drive(driveId: string, driveType: string, ventType: string, ventSize: real, compatible: seq<string>)

  /** The typed drive: `vent_size || 160`, `compatible_structures || []`. */
  function TypedDrive(d: RawDrive): (r: Drive)
    ensures r.driveId == d.driveId && r.ventType == d.ventType
    ensures d.ventSize.Some? && d.ventSize.value != 0.0 ==> r.ventSize == d.ventSize.value
    ensures d.ventSize.None? || d.ventSize.value == 0.0 ==> r.ventSize == 160.0
    ensures r.driveType == d.driveType
    ensures d.compatible.Some? ==> r.compatible == d.compatible.value
    ensures d.compatible.None? ==> r.compatible == []
  {
    Drive(d.driveId, d.driveType, d.ventType,
      if d.ventSize.Some? && d.ventSize.value != 0.0 then d.ventSize.value else 160.0,
      if d.compatible.Some? then d.compatible.value else [])
  }

  function TypedDrives(ds: seq<RawDrive>): (r: seq<Drive>)
    ensures |r| == |ds|
    ensures forall i :: 0 <= i < |ds| ==> r[i] == TypedDrive(ds[i])
  {
    seq(|ds|, i requires 0 <= i < |ds| => TypedDrive(ds[i]))
  }

  /** The vent length the length filter compares against: none when the
      length is falsy or does not parse. */
  function LengthLimit(ventLength: Value): (r: Option<real>)
    ensures !Truthy(ventLength) ==> r.None?
    ensures ventLength.Num? && ventLength.x != 0.0 ==> r == Some(ventLength.x)
  {
    if !Truthy(ventLength) then None
    else match ventLength
      case Num(x) => Some(x)
      case Str(s) => (var p := ParseFloat(s); if p.Num? then Some(p.x) else None)
      case _ => None
  }

  predicate FitsStructure(d: Drive, model: string)
  {
    exists i :: 0 <= i < |d.compatible| && StartsWith(model, d.compatible[i])
  }

  /** The three conditions a drive must meet to be offered. */
  predicate Offered(d: Drive, ventType: Value, model: string, limit: Option<real>)
  {
    && Str(d.ventType) == ventType
    && (model == [] || FitsStructure(d, model))
    && (limit.None? || d.ventSize >= limit.value)
  }

  /** Step 1: `drive.vent_type === formData.vent_type` (strict equality, so
      only a string vent type can match). */
  function ByVentType(ds: seq<Drive>, ventType: Value): seq<Drive>
  {
    if ds == [] then []
    else (if Str(ds[0].ventType) == ventType then [ds[0]] else []) + ByVentType(ds[1..], ventType)
  }

  /** Step 2: no filter without a structure model, else a compatible code prefixes the model. */
  function ByStructure(ds: seq<Drive>, model: string): seq<Drive>
  {
    if ds == [] then []
    else (if model == [] || FitsStructure(ds[0], model) then [ds[0]] else []) + ByStructure(ds[1..], model)
  }

  /** Step 3: no filter without a usable length, else the drive's size covers it. */
  function ByLength(ds: seq<Drive>, limit: Option<real>): seq<Drive>
  {
    if ds == [] then []
    else (if limit.None? || ds[0].ventSize >= limit.value then [ds[0]] else []) + ByLength(ds[1..], limit)
  }

  /** The drives offered for the form. */
  function OfferedDrives(all: seq<RawDrive>, ventType: Value, model: string, ventLength: Value): seq<Drive>
  {
    ByLength(ByStructure(ByVentType(TypedDrives(all), ventType), model), LengthLimit(ventLength))
  }

  /** Filtering by all three conditions at once. */
  function KeepOffered(ds: seq<Drive>, ventType: Value, model: string, limit: Option<real>): (r: seq<Drive>)
    ensures IsSubsequence(r, ds)
    ensures forall i :: 0 <= i < |r| ==> Offered(r[i], ventType, model, limit)
    ensures forall d :: d in ds && Offered(d, ventType, model, limit) ==> d in r
  {
    if ds == [] then []
    else
      var rest := KeepOffered(ds[1..], ventType, model, limit);
      if Offered(ds[0], ventType, model, limit) then
        assert ([ds[0]] + rest)[1..] == rest;
        [ds[0]] + rest
      else
        SubsequenceSkip(rest, ds);
        rest
  }

  /** The three filters in a row keep exactly the drives meeting all three
      conditions, in their original order. */
  lemma {:induction false} FilterChain(ds: seq<Drive>, ventType: Value, model: string, limit: Option<real>)
    ensures ByLength(ByStructure(ByVentType(ds, ventType), model), limit) == KeepOffered(ds, ventType, model, limit)
  {
    if ds != [] {
      FilterChain(ds[1..], ventType, model, limit);
      var head := if Str(ds[0].ventType) == ventType then [ds[0]] else [];
      ByStructureConcat(head, ByVentType(ds[1..], ventType), model);
      var head2 := if head != [] && (model == [] || FitsStructure(ds[0], model)) then [ds[0]] else [];
      assert ByStructure(head, model) == head2;
      ByLengthConcat(head2, ByStructure(ByVentType(ds[1..], ventType), model), limit);
    }
  }

  lemma {:induction false} ByStructureConcat(a: seq<Drive>, b: seq<Drive>, model: string)
    ensures ByStructure(a + b, model) == ByStructure(a, model) + ByStructure(b, model)
  {
    if a != [] {
      assert (a + b)[1..] == a[1..] + b;
      ByStructureConcat(a[1..], b, model);
      var head := if model == [] || FitsStructure(a[0], model) then [a[0]] else [];
      assert (a + b)[0] == a[0];
      assert ByStructure(a + b, model) == head + ByStructure(a[1..] + b, model);
      assert ByStructure(a, model) == head + ByStructure(a[1..], model);
      assert head + (ByStructure(a[1..], model) + ByStructure(b, model)) == (head + ByStructure(a[1..], model)) + ByStructure(b, model);
    } else {
      assert a + b == b;
    }
  }

  lemma {:induction false} ByLengthConcat(a: seq<Drive>, b: seq<Drive>, limit: Option<real>)
    ensures ByLength(a + b, limit) == ByLength(a, limit) + ByLength(b, limit)
  {
    if a != [] {
      assert (a + b)[1..] == a[1..] + b;
      ByLengthConcat(a[1..], b, limit);
      var head := if limit.None? || a[0].ventSize >= limit.value then [a[0]] else [];
      assert (a + b)[0] == a[0];
      assert ByLength(a + b, limit) == head + ByLength(a[1..] + b, limit);
      assert ByLength(a, limit) == head + ByLength(a[1..], limit);
      assert head + (ByLength(a[1..], limit) + ByLength(b, limit)) == (head + ByLength(a[1..], limit)) + ByLength(b, limit);
    } else {
      assert a + b == b;
    }
  }

  /** The offered drives are an order-preserving selection of all drives, each
      meeting the vent-type, structure and length conditions, none left out. */
  lemma OfferedDrivesSpec(all: seq<RawDrive>, ventType: Value, model: string, ventLength: Value)
    ensures var r := OfferedDrives(all, ventType, model, ventLength);
      && IsSubsequence(r, TypedDrives(all))
      && (forall i :: 0 <= i < |r| ==> Offered(r[i], ventType, model, LengthLimit(ventLength)))
      && (forall d :: d in TypedDrives(all) && Offered(d, ventType, model, LengthLimit(ventLength)) ==> d in r)
  {
    FilterChain(TypedDrives(all), ventType, model, LengthLimit(ventLength));
  }

  function DriveIds(ds: seq<Drive>): (ids: seq<string>)
    ensures |ids| == |ds|
    ensures forall i :: 0 <= i < |ds| ==> ids[i] == ds[i].driveId
  {
    seq(|ds|, i requires 0 <= i < |ds| => ds[i].driveId)
  }

  /** A selection is truthy when it is a non-empty id. */
  predicate Chosen(sel: Option<string>)
  {
    sel.Some? && sel.value != []
  }

  /** The selection after the drives are loaded: an empty selection takes the
      first drive, a selection no longer offered takes the first drive or none. */
  function Reconcile(sel: Option<string>, drives: seq<Drive>): Option<string>
  {
    if drives != [] && !Chosen(sel) then Some(drives[0].driveId)
    else if Chosen(sel) && sel.value !in DriveIds(drives) then
      (if drives != [] then Some(drives[0].driveId) else None)
    else sel
  }

  /** After reconciliation a non-empty list holds the selection, which is the
      previous one when that is still offered; a chosen drive that is no
      longer offered from an empty list leaves nothing selected. */
  lemma ReconcileSpec(sel: Option<string>, drives: seq<Drive>)
    ensures drives != [] ==> Reconcile(sel, drives).Some? && Reconcile(sel, drives).value in DriveIds(drives)
    ensures Chosen(sel) && sel.value in DriveIds(drives) ==> Reconcile(sel, drives) == sel
    ensures drives != [] && !(Chosen(sel) && sel.value in DriveIds(drives)) ==> Reconcile(sel, drives) == Some(drives[0].driveId)
    ensures drives == [] && Chosen(sel) ==> Reconcile(sel, drives) == None
    ensures drives == [] && !Chosen(sel) ==> Reconcile(sel, drives) == sel
  {
    if drives != [] {
      assert DriveIds(drives)[0] == drives[0].driveId;
    }
  }

  /** `getCombinedVentType()` */
  function CombinedVentType(ventType: string, config: string): (r: Option<string>)
    ensures r.Some? <==> ventType + " " + config in ValidCombinedTypes
    ensures r.Some? ==> r.value == ventType + " " + config
  {
    var combined := ventType + " " + config;
    if combined in ValidCombinedTypes then Some(combined) else None
  }

  /** Every vent type the form offers, built single or double, is a valid combination. */
  lemma AllCombinationsValid(i: int, j: int)
    requires 0 <= i < |VentTypes| && 0 <= j < |Configurations|
    ensures CombinedVentType(VentTypes[i], Configurations[j]).Some?
  {
    assert Configurations[j] in {"Single", "Double"};
    if i < 2 {
      FirstCombinations(i);
    } else if i < 4 {
      SecondCombinations(i);
    } else if i < 6 {
      ThirdCombinations(i);
    } else {
      LastCombinations(i);
    }
  }

  lemma FirstCombinations(i: int)
    requires 0 <= i <= 1
    ensures CombinedVentType(VentTypes[i], "Single").Some? && CombinedVentType(VentTypes[i], "Double").Some?
  {
    if i == 0 {
      assert VentTypes[i] == "Continental Roof";
      BothConfigurations("Continental Roof", 0);
    } else {
      assert VentTypes[i] == "Gothic Roof";
      BothConfigurations("Gothic Roof", 2);
    }
  }

  lemma SecondCombinations(i: int)
    requires 2 <= i <= 3
    ensures CombinedVentType(VentTypes[i], "Single").Some? && CombinedVentType(VentTypes[i], "Double").Some?
  {
    if i == 2 {
      assert VentTypes[i] == "Insulator Roof";
      BothConfigurations("Insulator Roof", 4);
    } else {
      assert VentTypes[i] == "Oxnard Vent";
      BothConfigurations("Oxnard Vent", 6);
    }
  }

  lemma ThirdCombinations(i: int)
    requires 4 <= i <= 5
    ensures CombinedVentType(VentTypes[i], "Single").Some? && CombinedVentType(VentTypes[i], "Double").Some?
  {
    if i == 4 {
      assert VentTypes[i] == "Pad Vent";
      BothConfigurations("Pad Vent", 8);
    } else {
      assert VentTypes[i] == "Solar Light Roof";
      BothConfigurations("Solar Light Roof", 10);
    }
  }

  lemma LastCombinations(i: int)
    requires 6 <= i <= 6
    ensures CombinedVentType(VentTypes[i], "Single").Some? && CombinedVentType(VentTypes[i], "Double").Some?
  {
    assert VentTypes[i] == "Wall Vent";
    BothConfigurations("Wall Vent", 12);
  }

  lemma BothConfigurations(t: string, k: int)
    requires 0 <= k < |ValidCombinedTypes| - 1
    requires ValidCombinedTypes[k] == t + " Single" && ValidCombinedTypes[k + 1] == t + " Double"
    ensures CombinedVentType(t, "Single").Some? && CombinedVentType(t, "Double").Some?
  {
    assert t + " " + "Single" == t + " Single";
    assert t + " " + "Double" == t + " Double";
  }

  /** The screen a `vent_insect_screen` value holds: its first element. */
  function ScreenOf(v: Value): Option<Record>
  {
    match v
    case Objs(os) => if os != [] then Some(os[0]) else None
    case _ => None
  }

  /** The insect screen the form holds. */
  function Screen(form: Record): Option<Record>
  {
    ScreenOf(Get(form, "vent_insect_screen"))
  }

  /** The new `vent_insect_screen` an input change sets, if it sets one:
      editing the quantity or length updates an existing screen; choosing a
      screen type creates the screen from the vent's quantity and length and
      the old width (or 0), choosing '' removes it; editing the width updates
      an existing screen. */
  function ScreenChange(prev: Record, e: InputEvent): Option<Value>
  {
    var screen := Screen(prev);
    if (e.name == "vent_quantity" || e.name == "vent_length") && screen.Some? then
      var s := screen.value;
      var q := if e.name == "vent_quantity" then ParseFloat(e.value) else Get(s, "quantity");
      var l := if e.name == "vent_length" then ParseFloat(e.value) else Get(s, "length");
      Some(Objs([s["quantity" := q]["length" := l]]))
    else if e.name == "insect_screen_type" then
      if e.value != [] then
        var width := if screen.Some? then Or(Get(screen.value, "width"), Num(0.0)) else Num(0.0);
        Some(Objs([map["type" := Str(e.value), "quantity" := Get(prev, "vent_quantity"),
                       "length" := Get(prev, "vent_length"), "width" := width]]))
      else Some(Undefined)
    else if e.name == "insect_screen_width" && screen.Some? then
      Some(Objs([screen.value["width" := ParseFloat(e.value)]]))
    else None
  }

  /** `handleChange`: the field takes the input (number inputs `'' -> 0`,
      else `parseFloat`), then the screen changes as `ScreenChange` says. */
  function ChangeVentForm(prev: Record, e: InputEvent): Record
  {
    var data := Set(prev, e.name, if e.isNumber then ParseFloatUnlessEmpty(e.value) else Str(e.value));
    match ScreenChange(prev, e)
    case None => data
    case Some(v) => Set(data, "vent_insect_screen", v)
  }

  /** Only the named field and the insect screen can change. */
  lemma ChangeTouchesNamedField(prev: Record, e: InputEvent, k: string)
    requires k != e.name && k != "vent_insect_screen"
    ensures Get(ChangeVentForm(prev, e), k) == Get(prev, k)
  {
  }

  /** The named field takes the converted input. */
  lemma ChangeStoresInput(prev: Record, e: InputEvent)
    requires e.name != "vent_insect_screen"
    ensures Get(ChangeVentForm(prev, e), e.name) == (if e.isNumber then ParseFloatUnlessEmpty(e.value) else Str(e.value))
  {
  }

  /** The screen after a change is the one `ScreenChange` sets, else the old one. */
  lemma ScreenAfterChange(prev: Record, e: InputEvent)
    requires e.name != "vent_insect_screen"
    ensures ScreenChange(prev, e).Some? ==> Screen(ChangeVentForm(prev, e)) == ScreenOf(ScreenChange(prev, e).value)
    ensures ScreenChange(prev, e).None? ==> Screen(ChangeVentForm(prev, e)) == Screen(prev)
  {
  }

  /** Choosing a screen type makes a screen of the vent's quantity and length
      that keeps the old width; choosing none removes the screen. */
  lemma ChooseScreenType(prev: Record, e: InputEvent)
    requires e.name == "insect_screen_type"
    ensures e.value == [] ==> Screen(ChangeVentForm(prev, e)).None?
    ensures e.value != [] ==> Screen(ChangeVentForm(prev, e)).Some?
    ensures e.value != [] ==>
      var s := Screen(ChangeVentForm(prev, e)).value;
      && Get(s, "type") == Str(e.value)
      && Get(s, "quantity") == Get(prev, "vent_quantity")
      && Get(s, "length") == Get(prev, "vent_length")
      && Get(s, "width") == (if Screen(prev).Some? && Truthy(Get(Screen(prev).value, "width")) then Get(Screen(prev).value, "width") else Num(0.0))
  {
    ScreenAfterChange(prev, e);
    if e.value != [] {
      var width := if Screen(prev).Some? then Or(Get(Screen(prev).value, "width"), Num(0.0)) else Num(0.0);
      var s := map["type" := Str(e.value), "quantity" := Get(prev, "vent_quantity"),
                   "length" := Get(prev, "vent_length"), "width" := width];
      assert ScreenChange(prev, e) == Some(Objs([s]));
      assert ScreenOf(Objs([s])) == Some(s);
      NewScreenFields(Str(e.value), Get(prev, "vent_quantity"), Get(prev, "vent_length"), width);
    } else {
      assert ScreenChange(prev, e) == Some(Undefined);
    }
  }

  /** Editing the quantity updates the screen's quantity and leaves its type
      and width as they were; without a screen none is made. */
  lemma QuantityEditSyncsScreen(prev: Record, e: InputEvent)
    requires e.name == "vent_quantity"
    ensures Screen(prev).None? ==> Screen(ChangeVentForm(prev, e)).None?
    ensures Screen(prev).Some? ==>
      var s := Screen(ChangeVentForm(prev, e));
      && s.Some?
      && Get(s.value, "quantity") == ParseFloat(e.value)
      && Get(s.value, "type") == Get(Screen(prev).value, "type")
      && Get(s.value, "width") == Get(Screen(prev).value, "width")
  {
    ScreenAfterChange(prev, e);
    if Screen(prev).Some? {
      var s := Screen(prev).value;
      var s1 := s["quantity" := ParseFloat(e.value)]["length" := Get(s, "length")];
      assert ScreenChange(prev, e) == Some(Objs([s1]));
      assert ScreenOf(Objs([s1])) == Some(s1);
      ScreenFieldsUpdate(s, ParseFloat(e.value), Get(s, "length"));
    } else {
      assert ScreenChange(prev, e).None?;
    }
  }

  lemma NewScreenFields(t: Value, q: Value, l: Value, w: Value)
    ensures var s := map["type" := t, "quantity" := q, "length" := l, "width" := w];
      Get(s, "type") == t && Get(s, "quantity") == q && Get(s, "length") == l && Get(s, "width") == w
  {
  }

  lemma ScreenFieldsUpdate(s: Record, q: Value, l: Value)
    ensures var s1 := s["quantity" := q]["length" := l];
      Get(s1, "quantity") == q && Get(s1, "length") == l && Get(s1, "type") == Get(s, "type") && Get(s1, "width") == Get(s, "width")
  {
  }

  /** What `handleVentTypeChange` leads to. */
  datatype TypeChange = TypeChange(form: Record, sizes: seq<real>) | Fault

  /** `handleVentTypeChange` as written: the sizes are looked up by the bare
      vent type and their first element read, which faults for a type
      without defaults. */
  function VentTypeChangeAsWritten(prev: Record, newType: string): (r: TypeChange)
    ensures r.Fault? <==> newType !in DefaultVentSizes
  {
    if newType !in DefaultVentSizes then Fault
    else
      var sizes := DefaultVentSizes[newType];
      TypeChange(Set(Set(prev, "vent_type", Str(newType)), "vent_size", Num(sizes[0])), sizes)
  }

  /** Three of the seven vent types the select offers, and its empty option,
      have no default sizes, so choosing them faults. */
  lemma OfferedTypesFault(prev: Record)
    ensures "Oxnard Vent" in VentTypes && VentTypeChangeAsWritten(prev, "Oxnard Vent").Fault?
    ensures "Pad Vent" in VentTypes && VentTypeChangeAsWritten(prev, "Pad Vent").Fault?
    ensures "Wall Vent" in VentTypes && VentTypeChangeAsWritten(prev, "Wall Vent").Fault?
    ensures VentTypeChangeAsWritten(prev, "").Fault?
  {
    assert VentTypes[3] == "Oxnard Vent" && VentTypes[4] == "Pad Vent" && VentTypes[6] == "Wall Vent";
    NoDefaultSizes("Oxnard Vent");
    NoDefaultSizes("Pad Vent");
    NoDefaultSizes("Wall Vent");
    NoDefaultSizes("");
  }

  lemma NoDefaultSizes(t: string)
    requires t == "Oxnard Vent" || t == "Pad Vent" || t == "Wall Vent" || t == ""
    ensures t !in DefaultVentSizes
  {
  }

  /** The sizes for a vent type: its own defaults, else those of the type with
      the form's configuration (how the wall-vent sizes are keyed), else none. */
  function SizesFor(ventType: string, config: string): seq<real>
  {
    if ventType in DefaultVentSizes then DefaultVentSizes[ventType]
    else if ventType + " " + config in DefaultVentSizes then DefaultVentSizes[ventType + " " + config]
    else []
  }

  /** `handleVentTypeChange` as evidently intended: the type always changes;
      the size becomes the first default size when the type has one and
      otherwise stays as it was. */
  function VentTypeChange(prev: Record, newType: string): (r: TypeChange)
    ensures r.TypeChange?
    ensures Get(r.form, "vent_type") == Str(newType)
    ensures r.sizes != [] ==> Get(r.form, "vent_size") == Num(r.sizes[0])
    ensures r.sizes == [] ==> Get(r.form, "vent_size") == Get(prev, "vent_size")
    ensures forall k :: k != "vent_type" && k != "vent_size" ==> Get(r.form, k) == Get(prev, k)
  {
    var config := match Get(prev, "single_double") case Str(c) => c case _ => "";
    var sizes := SizesFor(newType, config);
    var typed := Set(prev, "vent_type", Str(newType));
    TypeChange(if sizes != [] then Set(typed, "vent_size", Num(sizes[0])) else typed, sizes)
  }

  /** Where the written handler works it agrees with the corrected one. */
  lemma VentTypeChangeAgrees(prev: Record, newType: string)
    requires newType in DefaultVentSizes
    ensures VentTypeChange(prev, newType) == VentTypeChangeAsWritten(prev, newType)
  {
  }

  /** A wall vent gets the wall-vent sizes of its configuration. */
  lemma WallVentSizes(prev: Record)
    requires Get(prev, "single_double") == Str("Single")
    ensures VentTypeChange(prev, "Wall Vent").sizes == [36.0, 42.0, 48.0]
    ensures Get(VentTypeChange(prev, "Wall Vent").form, "vent_size") == Num(36.0)
  {
    assert "Wall Vent" !in DefaultVentSizes;
    assert "Wall Vent" + " " + "Single" == "Wall Vent Single";
  }

  /** `handleSubmit`'s in-place fix-up of the screen: a falsy width becomes 0,
      quantity and length are the vent's. */
  function SyncScreen(form: Record): Record
  {
    match Screen(form)
    case None => form
    case Some(s) =>
      var os := Get(form, "vent_insect_screen").objs;
      var w := if Truthy(Get(s, "width")) then s else Set(s, "width", Num(0.0));
      var s1 := Set(Set(w, "quantity", Get(form, "vent_quantity")), "length", Get(form, "vent_length"));
      Set(form, "vent_insect_screen", Objs([s1] + os[1..]))
  }

  function DriveIdValue(sel: Option<string>): Value
  {
    if sel.Some? then Str(sel.value) else Null
  }

  /** The payload `handleSubmit` hands over: `{ ...formData, drive_id: selectedDriveId }`. */
  function SubmitPayload(form: Record, sel: Option<string>): Record
  {
    Set(SyncScreen(form), "drive_id", DriveIdValue(sel))
  }

  /** The submitted screen has the vent's quantity and length and a truthy or
      zero width, and the payload carries the selected drive; everything
      else is the form's. */
  lemma SubmitPayloadSpec(form: Record, sel: Option<string>)
    ensures Get(SubmitPayload(form, sel), "drive_id") == DriveIdValue(sel)
    ensures Screen(form).Some? ==>
      var s := Screen(SubmitPayload(form, sel));
      && s.Some?
      && Get(s.value, "quantity") == Get(form, "vent_quantity")
      && Get(s.value, "length") == Get(form, "vent_length")
      && (Truthy(Get(s.value, "width")) || Get(s.value, "width") == Num(0.0))
    ensures Screen(form).None? ==> Screen(SubmitPayload(form, sel)).None?
    ensures forall k :: k != "drive_id" && k != "vent_insect_screen" ==> Get(SubmitPayload(form, sel), k) == Get(form, k)
  {
  }

  /** The initial form without a vent to edit. */
  function DefaultVentData(model: Option<string>, length: real): (r: Record)
    ensures Get(r, "vent_type").Str? && Get(r, "vent_type").s in DefaultVentSizes
    ensures Get(r, "vent_length") == Num(if length != 0.0 then length else 1.0)
  {
    var t := if model.Some? then VentTypeFromModel(model.value) else "Continental Roof";
    map["vent_type" := Str(t), "single_double" := Str("Single"), "vent_size" := Num(DefaultVentSize(t)),
        "vent_quantity" := Num(1.0), "vent_length" := Num(if length != 0.0 then length else 1.0),
        "ati_house" := Str("Yes"), "notes" := Str(""), "drive_id" := Undefined, "vent_insect_screen" := Undefined]
  }

  /** How the `[vent]` effect reads a stored quantity or length:
      `typeof v === 'string' ? parseInt(v) : v`, then `|| 1`. The result is
      always truthy. */
  function StoredCount(v: Value): (r: Value)
    ensures Truthy(r)
    ensures v.Str? && Truthy(ParseInt(v.s)) ==> r == ParseInt(v.s)
    ensures !v.Str? && Truthy(v) ==> r == v
    ensures (if v.Str? then !Truthy(ParseInt(v.s)) else !Truthy(v)) ==> r == Num(1.0)
  {
    Or(if v.Str? then ParseInt(v.s) else v, Num(1.0))
  }

  /** A quantity stored as the text of a non-zero whole number is read as
      that number. */
  lemma StoredTextCount(ds: string)
    requires ds != [] && AllDigits(ds) && DigitsValue(ds) != 0.0
    ensures StoredCount(Str(ds)) == Num(DigitsValue(ds))
  {
    ParseIntDigits(ds, []);
    assert ds + [] == ds;
  }

  /** `screens?.map(screen => ({ ...screen, quantity: q, length: l }))`: every
      stored screen takes the given quantity and length; a missing list
      stays undefined. (The field holds a list of screens or nothing.) */
  function SyncedScreens(screens: Value, q: Value, l: Value): (r: Value)
    ensures !screens.Objs? ==> r == Undefined
    ensures screens.Objs? ==> r.Objs? && |r.objs| == |screens.objs|
    ensures screens.Objs? ==> forall i :: 0 <= i < |r.objs| ==>
      && Get(r.objs[i], "quantity") == q && Get(r.objs[i], "length") == l
      && forall k :: k != "quantity" && k != "length" ==> Get(r.objs[i], k) == Get(screens.objs[i], k)
  {
    match screens
    case Objs(os) => Objs(seq(|os|, i requires 0 <= i < |os| => Set(Set(os[i], "quantity", q), "length", l)))
    case _ => Undefined
  }

  /** The form the `[vent]` effect builds for a vent being edited:
      `{ ...defaultVentData, ...vent, vent_quantity, vent_length, drive_id,
      vent_insect_screen }`. */
  function EditedVentData(vent: Record, defaults: Record): Record
  {
    var q := StoredCount(Get(vent, "vent_quantity"));
    var l := StoredCount(Get(vent, "vent_length"));
    var spread := defaults + vent;
    Set(Set(Set(Set(spread, "vent_quantity", q), "vent_length", l), "drive_id", Get(vent, "drive_id")),
        "vent_insect_screen", SyncedScreens(Get(vent, "vent_insect_screen"), q, l))
  }

  /** Editing a vent: its quantity and length are read as numbers (1 when
      unreadable or zero) and copied into every screen it has; its drive
      is kept; every other field is the vent's, or the default where the
      vent has none. */
  lemma EditedVentDataSpec(vent: Record, defaults: Record)
    ensures var r := EditedVentData(vent, defaults);
      && Get(r, "vent_quantity") == StoredCount(Get(vent, "vent_quantity"))
      && Get(r, "vent_length") == StoredCount(Get(vent, "vent_length"))
      && Truthy(Get(r, "vent_quantity")) && Truthy(Get(r, "vent_length"))
      && Get(r, "drive_id") == Get(vent, "drive_id")
    ensures var r := EditedVentData(vent, defaults);
      forall k :: k != "vent_quantity" && k != "vent_length" && k != "drive_id" && k != "vent_insect_screen" ==>
        Get(r, k) == (if k in vent then vent[k] else Get(defaults, k))
    ensures var r := EditedVentData(vent, defaults); var stored := Get(vent, "vent_insect_screen");
      && (!stored.Objs? ==> Get(r, "vent_insect_screen") == Undefined)
      && (stored.Objs? ==>
        var ss := Get(r, "vent_insect_screen");
        && ss.Objs? && |ss.objs| == |stored.objs|
        && forall i :: 0 <= i < |ss.objs| ==>
          Get(ss.objs[i], "quantity") == Get(r, "vent_quantity") && Get(ss.objs[i], "length") == Get(r, "vent_length"))
  {
  }

  /** `vent?.drive_id || null`: the stored drive, when it has one. */
  function StoredDrive(vent: Option<Record>): (sel: Option<string>)
    ensures sel.Some? <==> vent.Some? && Get(vent.value, "drive_id").Str? && Get(vent.value, "drive_id").s != ""
    ensures sel.Some? ==> Get(vent.value, "drive_id") == Str(sel.value)
  {
    if vent.Some? && Get(vent.value, "drive_id").Str? && Get(vent.value, "drive_id").s != "" then
      Some(Get(vent.value, "drive_id").s)
    else None
  }

  /** `DEFAULT_VENT_SIZES[type]`, undefined for a type without an entry. */
  function SizesOf(ventType: Value): (r: Option<seq<real>>)
    ensures r.Some? <==> ventType.Str? && ventType.s in DefaultVentSizes
    ensures r.Some? ==> r.value == DefaultVentSizes[ventType.s]
  {
    if ventType.Str? && ventType.s in DefaultVentSizes then Some(DefaultVentSizes[ventType.s]) else None
  }

  /** The form's state. */
  class VentFormState {
    var formData: Record
    var availableSizes: Option<seq<real>>
    var availableDrives: seq<Drive>
    var selectedDriveId: Option<string>

    /** The form's initial state (`useState`): the vent being edited, or
        for a new vent the defaults, whose type the structure's model picks;
        the sizes of the form's type; the vent's drive selected. The
        `[vent]` effect that then runs on mount is `VentChanged`. */
    constructor (vent: Option<Record>, model: Option<string>, length: real)
      ensures formData == (if vent.Some? then vent.value else DefaultVentData(model, length))
      ensures availableSizes == SizesOf(Get(formData, "vent_type"))
      ensures vent.None? ==>
        (availableSizes.Some? && availableSizes.value != [] && Get(formData, "vent_size") == Num(availableSizes.value[0]))
      ensures availableDrives == [] && selectedDriveId == StoredDrive(vent)
    {
      var form := if vent.Some? then vent.value else DefaultVentData(model, length);
      formData := form;
      availableSizes := SizesOf(Get(form, "vent_type"));
      availableDrives := [];
      selectedDriveId := StoredDrive(vent);
    }

    /** The `[vent]` effect, on mount and whenever the vent changes: for a
        vent being edited, the form is rebuilt from it over the defaults,
        and the sizes are its type's when the type has an entry. */
    method VentChanged(vent: Option<Record>, model: Option<string>, length: real)
      modifies this
      ensures vent.None? ==> formData == old(formData) && availableSizes == old(availableSizes)
      ensures vent.Some? ==> formData == EditedVentData(vent.value, DefaultVentData(model, length))
      ensures vent.Some? && SizesOf(Get(vent.value, "vent_type")).Some? ==> availableSizes == SizesOf(Get(vent.value, "vent_type"))
      ensures vent.Some? && SizesOf(Get(vent.value, "vent_type")).None? ==> availableSizes == old(availableSizes)
      ensures availableDrives == old(availableDrives) && selectedDriveId == old(selectedDriveId)
    {
      if vent.Some? {
        formData := EditedVentData(vent.value, DefaultVentData(model, length));
        if SizesOf(Get(vent.value, "vent_type")).Some? {
          availableSizes := SizesOf(Get(vent.value, "vent_type"));
        }
      }
    }

    method HandleChange(e: InputEvent)
      modifies this
      ensures formData == ChangeVentForm(old(formData), e)
      ensures availableSizes == old(availableSizes) && availableDrives == old(availableDrives)
      ensures selectedDriveId == old(selectedDriveId)
    {
      formData := ChangeVentForm(formData, e);
    }

    /** `handleVentTypeChange` as evidently intended (see `VentTypeChange`). */
    method HandleVentTypeChange(newType: string)
      modifies this
      ensures var r := VentTypeChange(old(formData), newType);
        formData == r.form && availableSizes == Some(r.sizes)
      ensures availableDrives == old(availableDrives) && selectedDriveId == old(selectedDriveId)
    {
      var r := VentTypeChange(formData, newType);
      formData := r.form;
      availableSizes := Some(r.sizes);
    }

    /** The drive-loading effect, which runs when the form has a vent type,
        on the rows the database returned (`None` when the query failed),
        followed by the effect that copies a selection found among the
        offered drives into the form. */
    method LoadDrives(rows: Option<seq<RawDrive>>, model: string)
      modifies this
      ensures !Truthy(Get(old(formData), "vent_type")) || rows.None? ==>
        formData == old(formData) && availableDrives == old(availableDrives) && selectedDriveId == old(selectedDriveId)
      ensures Truthy(Get(old(formData), "vent_type")) && rows.Some? ==>
        && availableDrives == OfferedDrives(rows.value, Get(old(formData), "vent_type"), model, Get(old(formData), "vent_length"))
        && selectedDriveId == Reconcile(old(selectedDriveId), availableDrives)
      ensures Truthy(Get(old(formData), "vent_type")) && rows.Some? && availableDrives != [] ==>
        selectedDriveId.Some? && selectedDriveId.value in DriveIds(availableDrives) && Get(formData, "drive_id") == Str(selectedDriveId.value)
      ensures selectedDriveId == None && old(selectedDriveId) != None ==> Get(formData, "drive_id") == Undefined
      ensures forall k :: k != "drive_id" ==> Get(formData, k) == Get(old(formData), k)
      ensures availableSizes == old(availableSizes)
    {
      if !Truthy(Get(formData, "vent_type")) || rows.None? {
        return;
      }
      var drives := OfferedDrives(rows.value, Get(formData, "vent_type"), model, Get(formData, "vent_length"));
      availableDrives := drives;
      ReconcileSpec(selectedDriveId, drives);
      var sel := Reconcile(selectedDriveId, drives);
      if drives != [] && !Chosen(selectedDriveId) {
        formData := Set(formData, "drive_id", Str(drives[0].driveId));
      } else if Chosen(selectedDriveId) && selectedDriveId.value !in DriveIds(drives) {
        formData := Set(formData, "drive_id", if drives != [] then Str(drives[0].driveId) else Undefined);
      }
      selectedDriveId := sel;
      if Chosen(selectedDriveId) && selectedDriveId.value in DriveIds(availableDrives) {
        formData := Set(formData, "drive_id", Str(selectedDriveId.value));
      }
    }

    /** `handleSubmit`: fixes up the screen in the form and hands over the payload. */
    method HandleSubmit() returns (payload: Record)
      modifies this
      ensures formData == SyncScreen(old(formData))
      ensures payload == SubmitPayload(old(formData), selectedDriveId)
      ensures selectedDriveId == old(selectedDriveId) && availableDrives == old(availableDrives)
      ensures availableSizes == old(availableSizes)
    {
      formData := SyncScreen(formData);
      payload := Set(formData, "drive_id", DriveIdValue(selectedDriveId));
    }
  }
}
