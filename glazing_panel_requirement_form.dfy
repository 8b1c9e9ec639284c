/**
 * The glazing panel requirement form
 * (src/components/settings/GlazingPanelRequirementForm.tsx): the eight
 * fields it edits, the prefill from the item being edited, how inputs are
 * stored, the record a save sends and whether it is an update or an insert.
 * The database answer is a parameter.
 */
module GlazingPanelRequirementForm {
  import opened JsValue
  import opened Database

  /** The eight fields of a requirement the form edits. */
  const PanelFields: set<string> := {"model", "width", "eave_height", "section", "vent_type", "bay", "material_type", "panel_length"}

  /** The form of a new requirement. */
  const BlankPanelForm: Record := map[
    "model" := Str(""),
    "width" := Num(0.0),
    "eave_height" := Num(0.0),
    "section" := Str(""),
    "material_type" := Str(""),
    "panel_length" := Str(""),
    "vent_type" := Null,
    "bay" := Null]

  /** The prefill effect: with an item, its eight fields and nothing else
      (not its id); without one, the blank form. */
  function PrefillForm(item: Option<Record>): (r: Record)
    ensures r.Keys == PanelFields
    ensures item.Some? ==> forall k :: k in PanelFields ==> r[k] == Get(item.value, k)
    ensures item.None? ==> r == BlankPanelForm
  {
    if item.Some? then map k | k in PanelFields :: Get(item.value, k) else BlankPanelForm
  }

  /** The value `handleChange` stores: '' is null for every input, a number
      input stores `Number(value)` and a text input the text. */
  function InputValue(e: InputEvent): (v: Value)
    ensures e.value == "" ==> v == Null
    ensures e.value != "" && e.isNumber ==> v == NumberOf(e.value)
    ensures e.value != "" && !e.isNumber ==> v == Str(e.value)
  {
    if e.value == "" then Null
    else if e.isNumber then NumberOf(e.value)
    else Str(e.value)
  }

  /** The defaults a save fills in for falsy fields. */
  const SubmitDefaults: Record := map[
    "model" := Str(""),
    "width" := Num(0.0),
    "eave_height" := Num(0.0),
    "section" := Str(""),
    "material_type" := Str(""),
    "panel_length" := Str("")]

  /** `dataToSubmit`: the eight fields, the six required ones with their
      defaults for falsy values, vent type and bay as they are. */
  function DataToSubmit(form: Record): (r: Record)
    ensures r.Keys == PanelFields
  {
    map k | k in PanelFields :: if k in SubmitDefaults then Or(Get(form, k), SubmitDefaults[k]) else Get(form, k)
  }

  /** Falsy text becomes '', falsy numbers 0; vent type and bay pass
      through, even when null. */
  lemma DataToSubmitSpec(form: Record)
    ensures Get(DataToSubmit(form), "model") == Or(Get(form, "model"), Str(""))
    ensures Get(DataToSubmit(form), "width") == Or(Get(form, "width"), Num(0.0))
    ensures Get(DataToSubmit(form), "eave_height") == Or(Get(form, "eave_height"), Num(0.0))
    ensures Get(DataToSubmit(form), "vent_type") == Get(form, "vent_type")
    ensures Get(DataToSubmit(form), "bay") == Get(form, "bay")
  {
    assert "vent_type" !in SubmitDefaults && "bay" !in SubmitDefaults;
  }

  lemma DataToSubmitTexts(form: Record)
    ensures Get(DataToSubmit(form), "section") == Or(Get(form, "section"), Str(""))
    ensures Get(DataToSubmit(form), "material_type") == Or(Get(form, "material_type"), Str(""))
    ensures Get(DataToSubmit(form), "panel_length") == Or(Get(form, "panel_length"), Str(""))
  {
  }

  /** Opening an item and saving it unchanged sends the item's own eight
      fields back whenever its required fields are truthy. */
  lemma PrefillThenSubmit(item: Record)
    requires forall k :: k in SubmitDefaults ==> Truthy(Get(item, k))
    ensures forall k :: k in PanelFields ==> DataToSubmit(PrefillForm(Some(item)))[k] == Get(item, k)
  {
  }

  /** The blank form is sent as it is. */
  lemma BlankSubmit()
    ensures DataToSubmit(PrefillForm(None)) == BlankPanelForm
  {
    var r := DataToSubmit(BlankPanelForm);
    assert r.Keys == BlankPanelForm.Keys;
    forall k | k in r.Keys
      ensures r[k] == BlankPanelForm[k]
    {
    }
  }

  /** `item && item.id`: an update of the item's row only when its id is
      truthy; an item with id 0 or none is inserted. */
  function ChooseWrite(item: Option<Record>, data: Record): (w: Write)
    ensures w.Update? <==> item.Some? && Truthy(Get(item.value, "id"))
    ensures w.Update? ==> w == Update("id", Get(item.value, "id"), data)
    ensures w.Insert? ==> w.data == data
  {
    if item.Some? && Truthy(Get(item.value, "id")) then Update("id", Get(item.value, "id"), data) else Insert(data)
  }

  /** The form's state. */
  class GlazingPanelRequirementFormState {
    var formData: Record
    var loading: bool
    var error: Option<string>

    /** Mounting runs the prefill effect for the item. */
    constructor (item: Option<Record>)
      ensures formData == PrefillForm(item) && !loading && error == None
    {
      formData := PrefillForm(item);
      loading := false;
      error := None;
    }

    /** The prefill effect, run again when the item changes. */
    method ItemChanged(item: Option<Record>)
      modifies this
      ensures formData == PrefillForm(item)
      ensures loading == old(loading) && error == old(error)
    {
      formData := PrefillForm(item);
    }

    /** `handleChange` */
    method HandleChange(e: InputEvent)
      modifies this
      ensures formData == Set(old(formData), e.name, InputValue(e))
      ensures loading == old(loading) && error == old(error)
    {
      formData := Set(formData, e.name, InputValue(e));
    }

    /** `handleSubmit`: sends the payload and calls `onSubmit` (`done`) on
        success, or shows the error. */
    method Submit(item: Option<Record>, failure: Option<string>) returns (write: Write, done: bool)
      modifies this
      ensures write == ChooseWrite(item, DataToSubmit(old(formData)))
      ensures done <==> failure.None?
      ensures error == failure && !loading && formData == old(formData)
    {
      loading := true;
      error := None;
      write := ChooseWrite(item, DataToSubmit(formData));
      done := failure.None?;
      if failure.Some? {
        error := failure;
      }
      loading := false;
    }
  }
}
