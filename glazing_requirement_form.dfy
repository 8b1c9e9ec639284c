/**
 * The glazing requirement form
 * (src/components/settings/GlazingRequirementForm.tsx): its initial
 * state, the prefill from the item being edited, how inputs are stored,
 * and the save as an update or an insert. The database answer is a
 * parameter.
 */
module GlazingRequirementForm {
  import opened JsValue
  import opened Database
  import PanelForm = GlazingPanelRequirementForm

  /** `MATERIAL_OPTIONS` */
  const MaterialOptions := ["PC8", "PC80%", "GR7", "CPC", "Poly"]

  /** The thirteen fields of a requirement the form edits. */
  const RequirementFields: set<string> := {
    "model", "width", "eave_height", "length", "section", "bay", "vent_type",
    "material_type", "area_sq_ft", "linear_ft", "panel_count", "panel_length", "notes"}

  /** The form before any item is loaded. */
  const InitialRequirementForm: Record := map[
    "model" := Str(""),
    "width" := Num(0.0),
    "eave_height" := Num(0.0),
    "length" := Num(0.0),
    "section" := Str(""),
    "material_type" := Str("PC8"),
    "bay" := Null,
    "vent_type" := Null,
    "area_sq_ft" := Null,
    "linear_ft" := Null,
    "panel_count" := Null,
    "panel_length" := Null,
    "notes" := Null]

  /** A new requirement starts as PC8 with zero dimensions and every
      optional field null. */
  lemma InitialRequirementFormSpec()
    ensures InitialRequirementForm.Keys == RequirementFields
    ensures InitialRequirementForm["material_type"] == Str("PC8")
    ensures forall k :: k in {"width", "eave_height", "length"} ==> InitialRequirementForm[k] == Num(0.0)
    ensures forall k :: k in {"bay", "vent_type", "area_sq_ft", "linear_ft", "panel_count", "panel_length", "notes"} ==> InitialRequirementForm[k] == Null
  {
  }

  /** The prefill effect: with an item, exactly its thirteen fields (not its
      id); without one, the form stays as it is. */
  function Prefill(form: Record, item: Option<Record>): (r: Record)
    ensures item.Some? ==> r.Keys == RequirementFields
    ensures item.Some? ==> forall k :: k in RequirementFields ==> r[k] == Get(item.value, k)
    ensures item.None? ==> r == form
  {
    if item.Some? then map k | k in RequirementFields :: Get(item.value, k) else form
  }

  /** The value `handleChange` stores: a number input '' is null, otherwise
      `Number(value)`; a text input stores the text, '' included. */
  function InputValue(e: InputEvent): (v: Value)
    ensures e.isNumber && e.value == "" ==> v == Null
    ensures e.isNumber && e.value != "" ==> v == NumberOf(e.value)
    ensures !e.isNumber ==> v == Str(e.value)
  {
    if !e.isNumber then Str(e.value)
    else if e.value == "" then Null
    else NumberOf(e.value)
  }

  /** A cleared text input is stored as '' here but as null on the panel
      requirement form. */
  lemma ClearedTextDiffers(name: string)
    ensures InputValue(InputEvent(name, "", false)) == Str("")
    ensures PanelForm.InputValue(InputEvent(name, "", false)) == Null
  {
  }

  /** An item whose id is 0 is updated by this form but inserted by the
      panel requirement form. */
  lemma ZeroIdWritesDiffer(item: Record, data: Record)
    requires Get(item, "id") == Num(0.0)
    ensures UpdateOrInsert(Some(item), "id", data) == Update("id", Num(0.0), data)
    ensures PanelForm.ChooseWrite(Some(item), data) == Insert(data)
  {
  }

  /** The form's state. */
  class GlazingRequirementFormState {
    var formData: Record
    var loading: bool
    var error: Option<string>

    /** Mounting starts from the initial form and runs the prefill effect. */
    constructor (item: Option<Record>)
      ensures formData == Prefill(InitialRequirementForm, item) && !loading && error == None
    {
      formData := Prefill(InitialRequirementForm, item);
      loading := false;
      error := None;
    }

    /** The prefill effect, run again when the item changes. */
    method ItemChanged(item: Option<Record>)
      modifies this
      ensures formData == Prefill(old(formData), item)
      ensures loading == old(loading) && error == old(error)
    {
      formData := Prefill(formData, item);
    }

    /** `handleChange` */
    method HandleChange(e: InputEvent)
      modifies this
      ensures formData == Set(old(formData), e.name, InputValue(e))
      ensures loading == old(loading) && error == old(error)
    {
      formData := Set(formData, e.name, InputValue(e));
    }

    /** `handleSubmit`: sends the form as it stands and calls `onSubmit`
        (`done`) on success, or shows the error. */
    method Submit(item: Option<Record>, failure: Option<string>) returns (write: Write, done: bool)
      modifies this
      ensures write == UpdateOrInsert(item, "id", old(formData))
      ensures done <==> failure.None?
      ensures error == failure && !loading && formData == old(formData)
    {
      loading := true;
      error := None;
      write := UpdateOrInsert(item, "id", formData);
      done := failure.None?;
      if failure.Some? {
        error := failure;
      }
      loading := false;
    }
  }
}
