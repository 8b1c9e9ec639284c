/**
 * The structure settings form (src/components/settings/StructureForm.tsx):
 * the form it starts from, the defaults a save fills in, the choice between
 * an update and an insert, and `handleChange`. The database answer is a
 * parameter.
 */
module StructureForm {
  import opened JsValue
  import opened Database

  /** `MODELS` */
  const Models := [
    "SL12", "SL13", "SL18", "SL24", "SL30", "SL36", "SL42", "SL43", "SL48", "SL50",
    "IN18", "IN21", "IN24", "IN27", "IN30", "IN35", "IN36",
    "CT30", "CT33", "CT40", "CT42", "NS30", "NS24",
    "TH30", "TH35", "TH42",
    "CF16", "CF20",
    "SH20", "SH24"]

  /** `GLAZING_TYPES` */
  const GlazingTypes := ["CPC", "PC8", "Poly"]

  /** The form of a new structure. */
  const DefaultStructureForm: Record := map[
    "model" := Str("SL36"),
    "width" := Num(30.0),
    "spacing" := Num(12.0),
    "eave_height" := Num(12.0),
    "load_rating" := Str("20 PSF"),
    "roof_glazing" := Str("PC8"),
    "elevation" := Str("Standard"),
    "zones" := Num(1.0),
    "gutter_partitions" := Num(0.0),
    "gable_partitions" := Num(0.0)]

  /** `structure || {...}`: the structure being edited, or a new one. */
  function InitialForm(structure: Option<Record>): (r: Record)
    ensures structure.Some? ==> r == structure.value
    ensures structure.None? ==> r == DefaultStructureForm
  {
    if structure.Some? then structure.value else DefaultStructureForm
  }

  /** A new structure is an SL36, 30 wide with 12 foot bays and eaves,
      rated 20 PSF, PC8 roof, Standard elevation, one zone, no partitions. */
  lemma NewStructureDefaults()
    ensures Get(InitialForm(None), "model") == Str("SL36") && Get(InitialForm(None), "width") == Num(30.0)
    ensures Get(InitialForm(None), "zones") == Num(1.0) && Get(InitialForm(None), "elevation") == Str("Standard")
  {
  }

  /** The defaults a save fills in for falsy fields. */
  const SaveDefaults: Record := map[
    "elevation" := Str("Standard"),
    "zones" := Num(1.0),
    "gutter_partitions" := Num(0.0),
    "gable_partitions" := Num(0.0)]

  /** The record a save sends: the form with the four defaulted fields. */
  function SavePayload(form: Record): (r: Record)
    ensures r.Keys == form.Keys + SaveDefaults.Keys
  {
    map k | k in form.Keys + SaveDefaults.Keys :: if k in SaveDefaults then Or(Get(form, k), SaveDefaults[k]) else form[k]
  }

  /** A falsy elevation is saved as Standard, falsy zones (0 included) as
      one zone, falsy partitions as 0; every other field as it stands. */
  lemma SavePayloadSpec(form: Record)
    ensures Get(SavePayload(form), "elevation") == Or(Get(form, "elevation"), Str("Standard"))
    ensures Get(SavePayload(form), "zones") == Or(Get(form, "zones"), Num(1.0))
    ensures Get(SavePayload(form), "gutter_partitions") == Or(Get(form, "gutter_partitions"), Num(0.0))
    ensures Get(SavePayload(form), "gable_partitions") == Or(Get(form, "gable_partitions"), Num(0.0))
    ensures forall k :: k !in SaveDefaults ==> Get(SavePayload(form), k) == Get(form, k)
  {
  }

  /** A structure cannot be saved with zero zones: it becomes one zone. */
  lemma ZeroZonesSavedAsOne(form: Record)
    requires Get(form, "zones") == Num(0.0)
    ensures Get(SavePayload(form), "zones") == Num(1.0)
  {
    SavePayloadSpec(form);
  }

  /** Saving what a save sent sends it again unchanged. */
  lemma SavePayloadIdempotent(form: Record)
    ensures SavePayload(SavePayload(form)) == SavePayload(form)
  {
    var once := SavePayload(form);
    forall k | k in once.Keys
      ensures SavePayload(once)[k] == once[k]
    {
    }
  }

  /** The form's state. */
  class StructureFormState {
    var formData: Record
    var loading: bool
    var error: Option<string>

    constructor (structure: Option<Record>)
      ensures formData == InitialForm(structure) && !loading && error == None
    {
      formData := InitialForm(structure);
      loading := false;
      error := None;
    }

    /** `handleChange`: `Number(value)` for number inputs, else the text. */
    method HandleChange(e: InputEvent)
      modifies this
      ensures formData == Set(old(formData), e.name, NumberOrText(e))
      ensures loading == old(loading) && error == old(error)
    {
      formData := Set(formData, e.name, NumberOrText(e));
    }

    /** `handleSubmit`: the same defaulted record on update and on insert;
        `onSubmit` (`done`) on success, otherwise the error is shown. */
    method Submit(structure: Option<Record>, failure: Option<string>) returns (write: Write, done: bool)
      modifies this
      ensures write == UpdateOrInsert(structure, "structure_id", SavePayload(old(formData)))
      ensures done <==> failure.None?
      ensures error == failure && !loading && formData == old(formData)
    {
      loading := true;
      error := None;
      write := UpdateOrInsert(structure, "structure_id", SavePayload(formData));
      done := failure.None?;
      if failure.Some? {
        error := failure;
      }
      loading := false;
    }
  }
}
