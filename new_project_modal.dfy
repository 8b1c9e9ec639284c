/**
 * The new project dialog (src/components/NewProjectModal.tsx): the form it
 * starts from, choosing a structure template, the entry a submit inserts,
 * `handleChange` and when the submit button is enabled. The structures
 * list, the signed-in user and the database answer are parameters.
 */
module NewProjectModal {
  import opened JsValue
  import opened Database

  /** `GLAZING_TYPES` */
  const GlazingTypes := ["CPC", "PC8", "Poly"]

  /** The form the dialog opens with. */
  const InitialProjectForm: Record := map[
    "project_name" := Str(""),
    "description" := Str(""),
    "structural_upgrades" := Str(""),
    "elevation" := Str(""),
    "width_ft" := Num(30.0),
    "length_ft" := Num(0.0),
    "eave_height" := Num(14.0),
    "zones" := Num(0.0),
    "ranges" := Num(1.0),
    "houses" := Num(1.0),
    "gutter_partitions" := Num(0.0),
    "gable_partitions" := Num(0.0),
    "roof_glazing" := Str("PC8"),
    "covering_roof" := Str("PC8"),
    "covering_sidewalls" := Str("PC8"),
    "covering_endwalls" := Str("PC8"),
    "covering_gables" := Str("PC8")]

  const NoTemplateMessage := "Please select a structure template"

  /** `structures.find(s => s.structure_id === id)`: the first structure
      with that id. */
  function FindStructure(structures: seq<Record>, id: string): (r: Option<Record>)
    ensures r.None? <==> forall i :: 0 <= i < |structures| ==> Get(structures[i], "structure_id") != Str(id)
    ensures r.Some? ==> Get(r.value, "structure_id") == Str(id)
    ensures r.Some? ==> exists i :: 0 <= i < |structures| && structures[i] == r.value && (forall j :: 0 <= j < i ==> Get(structures[j], "structure_id") != Str(id))
  {
    if structures == [] then None
    else if Get(structures[0], "structure_id") == Str(id) then Some(structures[0])
    else
      var r := FindStructure(structures[1..], id);
      if r.Some? then
        var i :| 0 <= i < |structures[1..]| && structures[1..][i] == r.value && (forall j :: 0 <= j < i ==> Get(structures[1..][j], "structure_id") != Str(id));
        assert structures[i + 1] == r.value;
        assert forall j :: 0 <= j < i + 1 ==> Get(structures[j], "structure_id") != Str(id) by {
          forall j | 0 <= j < i + 1 ensures Get(structures[j], "structure_id") != Str(id) {
            if j > 0 {
              assert structures[j] == structures[1..][j - 1];
            }
          }
        }
        r
      else
        assert forall i :: 0 <= i < |structures| ==> Get(structures[i], "structure_id") != Str(id) by {
          forall i | 0 <= i < |structures| ensures Get(structures[i], "structure_id") != Str(id) {
            if i > 0 {
              assert structures[i] == structures[1..][i - 1];
            }
          }
        }
        r
  }

  /** The template prefill: width, eave height and roof glazing from the
      template, everything else as it was. */
  function ApplyTemplate(form: Record, template: Record): (r: Record)
    ensures Get(r, "width_ft") == Get(template, "width")
    ensures Get(r, "eave_height") == Get(template, "eave_height")
    ensures Get(r, "roof_glazing") == Get(template, "roof_glazing")
    ensures forall k :: k != "width_ft" && k != "eave_height" && k != "roof_glazing" ==> Get(r, k) == Get(form, k)
  {
    Set(Set(Set(form, "width_ft", Get(template, "width")), "eave_height", Get(template, "eave_height")), "roof_glazing", Get(template, "roof_glazing"))
  }

  /** `{ user_id, ...formData, structure_id }`: the form's fields, the
      user's id unless the form has its own, and always the template's id. */
  function Entry(userId: Value, form: Record, template: Record): (r: Record)
    ensures r.Keys == form.Keys + {"user_id", "structure_id"}
    ensures r["structure_id"] == Get(template, "structure_id")
    ensures "user_id" !in form ==> r["user_id"] == userId
    ensures forall k :: k in form && k != "structure_id" ==> r[k] == form[k]
  {
    (map["user_id" := userId] + form)["structure_id" := Get(template, "structure_id")]
  }

  /** The dialog's state. */
  class NewProjectModalState {
    var loading: bool
    var error: Option<string>
    var structures: seq<Record>
    var selectedStructure: Option<Record>
    var formData: Record

    constructor ()
      ensures !loading && error == None && structures == [] && selectedStructure == None
      ensures formData == InitialProjectForm
    {
      loading := false;
      error := None;
      structures := [];
      selectedStructure := None;
      formData := InitialProjectForm;
    }

    /** `loadStructures`, run on mount. */
    method LoadStructures(answer: Fetch)
      modifies this
      ensures answer.Fetched? ==> structures == RowsOr(answer.data) && error == old(error)
      ensures answer.FetchFailed? ==> structures == old(structures) && error == Some(answer.message)
      ensures loading == old(loading) && selectedStructure == old(selectedStructure) && formData == old(formData)
    {
      match answer {
        case Fetched(data) => structures := RowsOr(data);
        case FetchFailed(message) => error := Some(message);
      }
    }

    /** `handleStructureSelect`: an id no structure has changes nothing;
        otherwise that structure becomes the template and fills the form. */
    method SelectStructure(id: string)
      modifies this
      ensures FindStructure(structures, id).None? ==> selectedStructure == old(selectedStructure) && formData == old(formData)
      ensures FindStructure(structures, id).Some? ==>
        selectedStructure == FindStructure(structures, id) && formData == ApplyTemplate(old(formData), selectedStructure.value)
      ensures structures == old(structures) && loading == old(loading) && error == old(error)
    {
      var structure := FindStructure(structures, id);
      if structure.Some? {
        selectedStructure := structure;
        formData := ApplyTemplate(formData, structure.value);
      }
    }

    /** `handleChange`: `Number(value)` for number inputs, else the text. */
    method HandleChange(e: InputEvent)
      modifies this
      ensures formData == Set(old(formData), e.name, NumberOrText(e))
      ensures structures == old(structures) && loading == old(loading) && error == old(error)
      ensures selectedStructure == old(selectedStructure)
    {
      formData := Set(formData, e.name, NumberOrText(e));
    }

    /** The submit button is disabled while saving or without a template. */
    predicate SubmitDisabled()
      reads this
    {
      loading || selectedStructure.None?
    }

    /** `handleSubmit`: without a template nothing is inserted and the
        error says to select one; otherwise the entry is inserted, and on
        success `onSuccess` and `onClose` run (`done`). */
    method Submit(userId: Value, failure: Option<string>) returns (insert: Option<Write>, done: bool)
      modifies this
      ensures old(selectedStructure).None? ==> insert == None && !done && error == Some(NoTemplateMessage)
      ensures old(selectedStructure).Some? ==> insert == Some(Insert(Entry(userId, old(formData), old(selectedStructure).value)))
      ensures old(selectedStructure).Some? ==> (done <==> failure.None?) && error == failure
      ensures !loading
      ensures structures == old(structures) && selectedStructure == old(selectedStructure) && formData == old(formData)
    {
      loading := true;
      error := None;
      if selectedStructure.None? {
        error := Some(NoTemplateMessage);
        loading := false;
        return None, false;
      }
      insert := Some(Insert(Entry(userId, formData, selectedStructure.value)));
      done := failure.None?;
      if failure.Some? {
        error := failure;
      }
      loading := false;
    }
  }
}
