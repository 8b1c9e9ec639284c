/**
 * The drop wall form (src/components/DropWallForm.tsx): the wall-height
 * options per structure type, the initial form, the effect that sets the
 * height when the type changes, `handleChange` and `handleSubmit`.
 */
module DropWallForm {
  import opened JsValue

  /** `getWallHeightOptions(type)` */
  function WallHeightOptions(wallType: Value): (opts: seq<real>)
    ensures opts != []
  {
    if wallType == Str("Guttered") then [8.0, 10.0, 12.0] else [0.8, 3.5, 4.5, 5.0, 6.0]
  }

  /** The fields of the form and their defaults (listed with the fields the
      type effect reads last). */
  const DropDefaults: map<string, Value> := map[
    "wall_location" := Str("Sidewall"),
    "wall_length" := Num(0.0),
    "drive_type" := Str("Manual"),
    "motor_model" := Str(""),
    "ns30" := Str("No"),
    "spacing" := Str("4"),
    "ati_house" := Str("No"),
    "quantity" := Num(1.0),
    "braking_winch_with_mount" := Num(0.0),
    "additional_corner_pockets" := Num(0.0),
    "notes" := Str(""),
    "wall_height" := Num(0.0),
    "type" := Str("Guttered")]

  /** The form as first rendered: each field of the wall, or its default
      when the wall is absent or the field falsy. */
  function InitialDropForm(wall: Option<Record>): (r: Record)
    ensures r.Keys == DropDefaults.Keys
  {
    map k | k in DropDefaults :: FieldOr(wall, k, DropDefaults[k])
  }

  lemma InitialDropFields(wall: Option<Record>)
    ensures Get(InitialDropForm(wall), "type") == FieldOr(wall, "type", Str("Guttered"))
    ensures Get(InitialDropForm(wall), "wall_height") == FieldOr(wall, "wall_height", Num(0.0))
  {
    assert DropDefaults["type"] == Str("Guttered");
    assert DropDefaults["wall_height"] == Num(0.0);
  }

  /** The type effect as written: whenever it runs, on mount too, the height
      becomes the first option of the type. */
  function TypeChangeEffect(form: Record): (r: Record)
    ensures Get(r, "wall_height") == Num(WallHeightOptions(Get(form, "type"))[0])
    ensures forall k :: k != "wall_height" ==> Get(r, k) == Get(form, k)
  {
    Set(form, "wall_height", Num(WallHeightOptions(Get(form, "type"))[0]))
  }

  /** The form after mounting as written: the type effect also runs on mount. */
  function MountedDropFormAsWritten(wall: Option<Record>): Record
  {
    TypeChangeEffect(InitialDropForm(wall))
  }

  /** An edited guttered wall stored 10 feet high opens showing 8 feet: the
      mount run of the type effect overwrites a height that is one of the
      type's own options. */
  lemma EditedHeightOverwritten(wall: Record)
    requires Get(wall, "type") == Str("Guttered") && Get(wall, "wall_height") == Num(10.0)
    ensures 10.0 in WallHeightOptions(Str("Guttered"))
    ensures Get(MountedDropFormAsWritten(Some(wall)), "wall_height") == Num(8.0)
  {
    InitialDropFields(Some(wall));
  }

  /** The height a type change leaves: a height among the type's options is
      kept, any other becomes the first option. */
  function HeightForType(height: Value, wallType: Value): (r: Value)
    ensures r.Num? && r.x in WallHeightOptions(wallType)
    ensures height.Num? && height.x in WallHeightOptions(wallType) ==> r == height
    ensures !(height.Num? && height.x in WallHeightOptions(wallType)) ==> r == Num(WallHeightOptions(wallType)[0])
  {
    var opts := WallHeightOptions(wallType);
    if height.Num? && height.x in opts then height else Num(opts[0])
  }

  /** The mount run of the type effect as evidently intended: the height is
      brought onto the type's options without discarding a height that
      already is one. */
  function MountEffect(form: Record): (r: Record)
    ensures forall k :: k != "wall_height" ==> Get(r, k) == Get(form, k)
  {
    Set(form, "wall_height", HeightForType(Get(form, "wall_height"), Get(form, "type")))
  }

  function MountedDropForm(wall: Option<Record>): Record
  {
    MountEffect(InitialDropForm(wall))
  }

  /** After mounting, the height is one of the type's options, and an edited
      wall's stored height is kept whenever it already is one. */
  lemma MountedDropFormSpec(wall: Option<Record>)
    ensures var f := MountedDropForm(wall);
      var h := Get(f, "wall_height");
      h.Num? && h.x in WallHeightOptions(Get(f, "type"))
    ensures var stored := FieldOr(wall, "wall_height", Num(0.0));
      var t := FieldOr(wall, "type", Str("Guttered"));
      stored.Num? && stored.x in WallHeightOptions(t) ==> Get(MountedDropForm(wall), "wall_height") == stored
  {
    InitialDropFields(wall);
  }

  /** The corrected effect agrees with the written one whenever the form's
      height is not already a valid option, as on a new wall. */
  lemma MountEffectAgrees(form: Record)
    requires !(Get(form, "wall_height").Num? && Get(form, "wall_height").x in WallHeightOptions(Get(form, "type")))
    ensures MountEffect(form) == TypeChangeEffect(form)
  {
  }

  /** A new wall opens as a guttered wall 8 feet high. */
  lemma NewDropWall()
    ensures Get(MountedDropForm(None), "type") == Str("Guttered")
    ensures Get(MountedDropForm(None), "wall_height") == Num(8.0)
  {
    InitialDropFields(None);
  }

  /** `handleChange` */
  function ChangeDropForm(prev: Record, e: InputEvent): (r: Record)
    ensures Get(r, e.name) == NumberOrText(e)
    ensures forall k :: k != e.name ==> Get(r, k) == Get(prev, k)
  {
    Set(prev, e.name, NumberOrText(e))
  }

  /** The form's state. */
  class DropWallFormState {
    var formData: Record
    var error: Option<string>
    var loading: bool

    constructor (wall: Option<Record>)
      ensures formData == MountedDropForm(wall)
      ensures error == None && !loading
    {
      formData := MountedDropForm(wall);
      error := None;
      loading := false;
    }

    /** `handleChange`, followed by the type effect when the type changed. */
    method HandleChange(e: InputEvent)
      modifies this
      ensures var changed := ChangeDropForm(old(formData), e);
        formData == if Get(changed, "type") != Get(old(formData), "type") then TypeChangeEffect(changed) else changed
      ensures error == old(error) && loading == old(loading)
    {
      var changed := ChangeDropForm(formData, e);
      if Get(changed, "type") != Get(formData, "type") {
        formData := TypeChangeEffect(changed);
      } else {
        formData := changed;
      }
    }

    /** `handleSubmit` hands the form over unchanged. */
    method HandleSubmit() returns (submitted: Record)
      modifies this
      ensures submitted == formData && formData == old(formData)
      ensures error == None && !loading
    {
      loading := true;
      error := None;
      submitted := formData;
      loading := false;
    }
  }
}
