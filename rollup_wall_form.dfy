/**
 * The roll-up wall form (src/components/RollupWallForm.tsx): the height
 * options per wall location and structure type, the effects that snap the
 * wall and frame heights onto those options and clear the drive when the
 * drive type changes, the field updates of `handleChange` and the
 * validation `handleSubmit` performs. Loading the drives is a parameter
 * (the rows the database returned).
 */
module RollupWallForm {
  import opened JsValue

  /** `getFrameHeightOptions(type)` */
  function FrameHeightOptions(wallType: Value): seq<real>
  {
    if wallType == Str("Guttered") then [8.0, 10.0, 12.0, 14.0] else [0.8, 3.5, 4.5, 5.0, 6.0]
  }

  /** `getHeightOptions(wallLocation, type)` */
  function HeightOptions(location: Value, wallType: Value): seq<real>
  {
    if location == Str("Sidewall") then
      if wallType == Str("Guttered") then [8.0, 10.0, 12.0, 14.0]
      else if wallType == Str("Quonset") then [0.8, 3.5, 4.5, 5.0, 6.0]
      else []
    else []
  }

  /** Only a sidewall of a guttered or Quonset house has height options, and
      they are the frame heights of that type; an endwall has none. */
  lemma HeightOptionsSpec(location: Value, wallType: Value)
    ensures HeightOptions(location, wallType) != [] <==>
      location == Str("Sidewall") && (wallType == Str("Guttered") || wallType == Str("Quonset"))
    ensures HeightOptions(location, wallType) != [] ==> HeightOptions(location, wallType) == FrameHeightOptions(wallType)
    ensures FrameHeightOptions(wallType) != []
  {
  }

  /** `options.includes(v)`: strict equality, so only a number can match. */
  predicate Includes(opts: seq<real>, v: Value)
  {
    v.Num? && v.x in opts
  }

  /** A value moved onto the options: the first option when there are
      options and the value is not one of them, else the value itself. */
  function Snap(v: Value, opts: seq<real>): (r: Value)
    ensures opts == [] ==> r == v
    ensures opts != [] ==> Includes(opts, r)
    ensures Includes(opts, v) ==> r == v
    ensures r != v ==> r == Num(opts[0])
  {
    if opts != [] && !Includes(opts, v) then Num(opts[0]) else v
  }

  lemma SnapIdempotent(v: Value, opts: seq<real>)
    ensures Snap(Snap(v, opts), opts) == Snap(v, opts)
  {
  }

  /** The wall-height effect: on a sidewall the height is snapped onto the options. */
  function ResetWallHeight(form: Record): Record
  {
    if Get(form, "wall_location") == Str("Sidewall") then
      var opts := HeightOptions(Get(form, "wall_location"), Get(form, "type"));
      if opts != [] && !Includes(opts, Get(form, "wall_height")) then Set(form, "wall_height", Num(opts[0])) else form
    else form
  }

  /** The frame-height effect: on an endwall the frame height is snapped onto the frame options. */
  function ResetFrameHeight(form: Record): Record
  {
    if Get(form, "wall_location") == Str("Endwall") then
      var opts := FrameHeightOptions(Get(form, "type"));
      if opts != [] && !Includes(opts, Get(form, "frame_height")) then Set(form, "frame_height", Num(opts[0])) else form
    else form
  }

  /** The wall-height effect changes only the height, which becomes the
      snapped height on a sidewall and stays as it was elsewhere. */
  lemma ResetWallHeightSpec(form: Record)
    ensures forall k :: k != "wall_height" ==> Get(ResetWallHeight(form), k) == Get(form, k)
    ensures Get(form, "wall_location") == Str("Sidewall") ==>
      Get(ResetWallHeight(form), "wall_height") == Snap(Get(form, "wall_height"), HeightOptions(Get(form, "wall_location"), Get(form, "type")))
    ensures Get(form, "wall_location") != Str("Sidewall") ==> ResetWallHeight(form) == form
  {
  }

  /** The frame-height effect changes only the frame height, which on an
      endwall becomes one of the frame options. */
  lemma ResetFrameHeightSpec(form: Record)
    ensures forall k :: k != "frame_height" ==> Get(ResetFrameHeight(form), k) == Get(form, k)
    ensures Get(form, "wall_location") == Str("Endwall") ==>
      Get(ResetFrameHeight(form), "frame_height") == Snap(Get(form, "frame_height"), FrameHeightOptions(Get(form, "type")))
      && Includes(FrameHeightOptions(Get(form, "type")), Get(ResetFrameHeight(form), "frame_height"))
    ensures Get(form, "wall_location") != Str("Endwall") ==> ResetFrameHeight(form) == form
  {
    HeightOptionsSpec(Get(form, "wall_location"), Get(form, "type"));
  }

  /** Running the height effects a second time changes nothing. */
  lemma ResetsIdempotent(form: Record)
    ensures ResetWallHeight(ResetWallHeight(form)) == ResetWallHeight(form)
    ensures ResetFrameHeight(ResetFrameHeight(form)) == ResetFrameHeight(form)
  {
    ResetWallHeightSpec(form);
    ResetFrameHeightSpec(form);
  }

  /** The drive-type effect: the drive and motor are cleared. */
  function ClearDrive(form: Record): (r: Record)
    ensures Get(r, "drive_id") == Str("") && Get(r, "motor_model") == Str("")
    ensures forall k :: k != "drive_id" && k != "motor_model" ==> Get(r, k) == Get(form, k)
  {
    Set(Set(form, "drive_id", Str("")), "motor_model", Str(""))
  }

  /** The value `handleChange` stores: number inputs `'' -> 0`, else `Number(value)`. */
  function RollupInput(e: InputEvent): (v: Value)
    ensures e.isNumber ==> v.Num? || v.NaN?
    ensures !e.isNumber ==> v == Str(e.value)
  {
    if e.isNumber then (if e.value == [] then Num(0.0) else NumberOf(e.value)) else Str(e.value)
  }

  /** `handleChange` */
  function ChangeRollupForm(prev: Record, e: InputEvent): (r: Record)
    ensures Get(r, e.name) == RollupInput(e)
    ensures forall k :: k != e.name ==> Get(r, k) == Get(prev, k)
  {
    Set(prev, e.name, RollupInput(e))
  }

  /** The effects a state change triggers, in their declaration order: each
      runs when one of its dependencies changed. */
  function RunEffects(before: Record, after: Record): Record
  {
    var locationOrType := Get(after, "wall_location") != Get(before, "wall_location") || Get(after, "type") != Get(before, "type");
    var f1 := if locationOrType then ResetWallHeight(after) else after;
    var f2 := if Get(after, "type") != Get(before, "type") then ResetFrameHeight(f1) else f1;
    if Get(after, "drive_type") != Get(before, "drive_type") then ClearDrive(f2) else f2
  }

  /** The fields of the form and their defaults (listed with the fields the
      effects read last). */
  const RollupDefaults: map<string, Value> := map[
    "drive_id" := Str(""),
    "quantity" := Num(1.0),
    "houses_wide_per_system" := Num(1.0),
    "house_width" := Num(0.0),
    "frame_height" := Num(0.0),
    "ns30" := Str("No"),
    "spacing" := Str("6'"),
    "wall_length" := Num(0.0),
    "motor_model" := Str(""),
    "gearbox_pocket" := Num(0.0),
    "simu_winch" := Num(0.0),
    "ridder_mount_guttered" := Num(0.0),
    "ridder_mount_quonset" := Num(0.0),
    "notes" := Str(""),
    "drive_type" := Str("Manual"),
    "wall_height" := Num(0.0),
    "type" := Str("Guttered"),
    "wall_location" := Str("Sidewall")]

  /** The form as first rendered: each field of the wall, or its default
      when the wall is absent or the field falsy (`wall?.field || default`). */
  function InitialRollupForm(wall: Option<Record>): Record
  {
    map k | k in RollupDefaults :: FieldOr(wall, k, RollupDefaults[k])
  }

  /** The form after the mount effects, which all run once. */
  function MountedRollupForm(wall: Option<Record>): Record
  {
    ClearDrive(ResetFrameHeight(ResetWallHeight(InitialRollupForm(wall))))
  }

  lemma InitialRollupFields(wall: Option<Record>)
    ensures Get(InitialRollupForm(wall), "wall_location") == FieldOr(wall, "wall_location", Str("Sidewall"))
    ensures Get(InitialRollupForm(wall), "type") == FieldOr(wall, "type", Str("Guttered"))
    ensures Get(InitialRollupForm(wall), "wall_height") == FieldOr(wall, "wall_height", Num(0.0))
    ensures Get(InitialRollupForm(wall), "drive_type") == FieldOr(wall, "drive_type", Str("Manual"))
  {
    assert RollupDefaults["wall_location"] == Str("Sidewall");
    assert RollupDefaults["type"] == Str("Guttered");
    assert RollupDefaults["wall_height"] == Num(0.0);
    assert RollupDefaults["drive_type"] == Str("Manual");
  }

  /** An edited wall keeps its location and type but, because the
      drive-type effect also runs on mount, loses its drive and motor. */
  lemma MountedRollupFormSpec(wall: Option<Record>)
    ensures Get(MountedRollupForm(wall), "wall_location") == FieldOr(wall, "wall_location", Str("Sidewall"))
    ensures Get(MountedRollupForm(wall), "type") == FieldOr(wall, "type", Str("Guttered"))
    ensures Get(MountedRollupForm(wall), "drive_id") == Str("") && Get(MountedRollupForm(wall), "motor_model") == Str("")
  {
    var f0 := InitialRollupForm(wall);
    InitialRollupFields(wall);
    ResetWallHeightSpec(f0);
    ResetFrameHeightSpec(ResetWallHeight(f0));
  }

  /** A new wall starts as a guttered sidewall 8 feet high with a manual drive. */
  lemma NewRollupWall()
    ensures Get(MountedRollupForm(None), "wall_location") == Str("Sidewall")
    ensures Get(MountedRollupForm(None), "type") == Str("Guttered")
    ensures Get(MountedRollupForm(None), "wall_height") == Num(8.0)
    ensures Get(MountedRollupForm(None), "drive_type") == Str("Manual")
  {
    var f0 := InitialRollupForm(None);
    InitialRollupFields(None);
    assert Get(f0, "wall_location") == Str("Sidewall") && Get(f0, "type") == Str("Guttered");
    assert HeightOptions(Str("Sidewall"), Str("Guttered")) == [8.0, 10.0, 12.0, 14.0];
    ResetWallHeightSpec(f0);
    var f1 := ResetWallHeight(f0);
    assert Get(f1, "wall_height") == Num(8.0);
    ResetFrameHeightSpec(f1);
    var f2 := ResetFrameHeight(f1);
    assert Get(f2, "wall_height") == Num(8.0) && Get(f2, "drive_type") == Str("Manual");
    MountedRollupFormSpec(None);
  }

  /** What `handleSubmit` does with the form. */
  datatype Submission = Rejected(message: string) | Accepted(payload: Record)

  const HeightMessage := "Wall height must be a number between 1 and 14 feet"

  /** `handleSubmit`: the wall height must convert to a number in (0, 14];
      the payload carries it as a number and a null drive for an empty one. */
  function SubmitRollup(form: Record): Submission
  {
    var h := NumberOfValue(Get(form, "wall_height"));
    if h.NaN? || h.x <= 0.0 || h.x > 14.0 then Rejected(HeightMessage)
    else Accepted(Set(Set(form, "wall_height", h), "drive_id", Or(Get(form, "drive_id"), Null)))
  }

  /** A form is accepted exactly when its height is a number in (0, 14]; the
      payload then has that numeric height, the drive or null, and every
      other field of the form. */
  lemma SubmitRollupSpec(form: Record)
    ensures var h := NumberOfValue(Get(form, "wall_height"));
      SubmitRollup(form).Accepted? <==> h.Num? && 0.0 < h.x <= 14.0
    ensures SubmitRollup(form).Rejected? ==> SubmitRollup(form).message == HeightMessage
    ensures SubmitRollup(form).Accepted? ==>
      var p := SubmitRollup(form).payload;
      && Get(p, "wall_height") == NumberOfValue(Get(form, "wall_height"))
      && (Truthy(Get(form, "drive_id")) ==> Get(p, "drive_id") == Get(form, "drive_id"))
      && (!Truthy(Get(form, "drive_id")) ==> Get(p, "drive_id") == Null)
      && (forall k :: k != "wall_height" && k != "drive_id" ==> Get(p, k) == Get(form, k))
  {
  }

  /** Every height option of a sidewall passes validation. */
  lemma SidewallOptionsValid(form: Record)
    requires Get(form, "wall_location") == Str("Sidewall")
    requires Includes(HeightOptions(Get(form, "wall_location"), Get(form, "type")), Get(form, "wall_height"))
    ensures SubmitRollup(form).Accepted?
  {
    var opts := HeightOptions(Get(form, "wall_location"), Get(form, "type"));
    assert forall x :: x in opts ==> 0.0 < x <= 14.0;
  }

  /** The form's state. */
  class RollupWallFormState {
    var formData: Record
    var availableDrives: seq<Record>
    var error: Option<string>
    var loading: bool

    constructor (wall: Option<Record>)
      ensures formData == MountedRollupForm(wall)
      ensures availableDrives == [] && error == None && !loading
    {
      formData := MountedRollupForm(wall);
      availableDrives := [];
      error := None;
      loading := false;
    }

    /** `handleChange` followed by the effects whose dependencies it changed. */
    method HandleChange(e: InputEvent)
      modifies this
      ensures formData == RunEffects(old(formData), ChangeRollupForm(old(formData), e))
      ensures availableDrives == old(availableDrives) && error == old(error) && loading == old(loading)
    {
      formData := RunEffects(formData, ChangeRollupForm(formData, e));
    }

    /** `loadDrives` on the query's result: the rows, or nothing on an error. */
    method LoadDrives(rows: Option<seq<Record>>)
      modifies this
      ensures rows.Some? ==> availableDrives == rows.value
      ensures rows.None? ==> availableDrives == old(availableDrives)
      ensures formData == old(formData) && error == old(error) && loading == old(loading)
    {
      if rows.Some? {
        availableDrives := rows.value;
      }
    }

    /** `handleSubmit`: the payload handed to the parent, or none with the error shown. */
    method HandleSubmit() returns (submitted: Option<Record>)
      modifies this
      ensures SubmitRollup(formData).Accepted? ==> submitted == Some(SubmitRollup(formData).payload) && error == None
      ensures SubmitRollup(formData).Rejected? ==> submitted == None && error == Some(HeightMessage)
      ensures formData == old(formData) && availableDrives == old(availableDrives) && !loading
    {
      loading := true;
      error := None;
      match SubmitRollup(formData)
      case Rejected(msg) =>
        error := Some(msg);
        loading := false;
        submitted := None;
      case Accepted(payload) =>
        submitted := Some(payload);
        loading := false;
    }
  }

  /** After a change of location or type on a sidewall with options, the
      height is one of those options. */
  lemma ChangeKeepsSidewallHeightValid(prev: Record, e: InputEvent)
    requires e.name == "wall_location" || e.name == "type"
    requires Get(ChangeRollupForm(prev, e), e.name) != Get(prev, e.name)
    ensures var after := RunEffects(prev, ChangeRollupForm(prev, e));
      var opts := HeightOptions(Get(after, "wall_location"), Get(after, "type"));
      Get(after, "wall_location") == Str("Sidewall") && opts != [] ==> Includes(opts, Get(after, "wall_height"))
  {
    var changed := ChangeRollupForm(prev, e);
    ResetWallHeightSpec(changed);
    ResetFrameHeightSpec(ResetWallHeight(changed));
  }
}
