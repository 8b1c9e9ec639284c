/**
 * The polycarbonate glazing companies settings tab
 * (src/components/settings/PolyGlazingTab.tsx): the numeric clean-up a
 * save applies, the available-widths input, the numeric inputs, and the
 * form's reset. The database and the confirmation dialog are parameters.
 */
module PolyGlazingTab {
  import opened JsText
  import opened JsValue
  import opened Database

  /** The form of a new company: the initial form, the New button's and
      the one a save leaves. */
  const DefaultCompanyForm: Record := map[
    "company_name" := Str(""),
    "type" := Str(""),
    "light_transmittance" := Num(0.0),
    "light_diffusion" := Num(0.0),
    "widths_available" := Strs([]),
    "price_400lbs_less" := Num(0.0),
    "price_401_2000lbs" := Num(0.0),
    "price_2000lbs_plus" := Num(0.0)]

  /** The fields a save converts to numbers. */
  const NumericFields: set<string> := {"light_transmittance", "light_diffusion", "price_400lbs_less", "price_401_2000lbs", "price_2000lbs_plus"}

  /** `Number(x) || 0` */
  function NumberOrZero(v: Value): (r: Value)
    ensures r.Num?
    ensures v.Num? ==> r == v
    ensures v.Undefined? || v.NaN? ==> r == Num(0.0)
  {
    OrZero(NumberOfValue(v))
  }

  /** `numericData`: the form with each numeric field converted. */
  function NumericData(form: Record): (r: Record)
    ensures r.Keys == form.Keys + NumericFields
  {
    map k | k in form.Keys + NumericFields :: if k in NumericFields then NumberOrZero(Get(form, k)) else form[k]
  }

  /** A save sends every numeric field as a number (0 for a missing or
      unreadable one, the number itself for a number), and every other
      field as it stands. */
  lemma NumericDataSpec(form: Record)
    ensures forall k :: k in NumericFields ==> Get(NumericData(form), k).Num?
    ensures forall k :: k in NumericFields && Get(form, k).Num? ==> Get(NumericData(form), k) == Get(form, k)
    ensures forall k :: k in NumericFields && (Get(form, k).Undefined? || Get(form, k).NaN?) ==> Get(NumericData(form), k) == Num(0.0)
    ensures forall k :: k !in NumericFields ==> Get(NumericData(form), k) == Get(form, k)
  {
  }

  /** Converting twice changes nothing more. */
  lemma NumericDataIdempotent(form: Record)
    ensures NumericData(NumericData(form)) == NumericData(form)
  {
    var once := NumericData(form);
    NumericDataSpec(form);
    assert NumericData(once).Keys == once.Keys;
    forall k | k in once.Keys
      ensures NumericData(once)[k] == once[k]
    {
      if k in NumericFields {
        assert Get(once, k).Num?;
      }
    }
  }

  /** The new company form is already clean. */
  lemma DefaultFormNumeric()
    ensures NumericData(DefaultCompanyForm) == DefaultCompanyForm
  {
    assert NumericFields <= DefaultCompanyForm.Keys;
    forall k | k in DefaultCompanyForm.Keys
      ensures NumericData(DefaultCompanyForm)[k] == DefaultCompanyForm[k]
    {
    }
  }

  /** The available-widths input: every comma-separated piece, trimmed,
      with nothing dropped. */
  function WidthsInput(value: string): (r: seq<string>)
    ensures |r| == |SplitOn(value, ',')| == Count(value, ',') + 1
    ensures forall i :: 0 <= i < |r| ==> r[i] == Trim(SplitOn(value, ',')[i])
  {
    SplitCount(value, ',');
    TrimAll(SplitOn(value, ','))
  }

  /** An empty input is one empty width, not none. */
  lemma EmptyWidthsInput()
    ensures WidthsInput("") == [""]
  {
    assert Count("", ',') == 0;
    assert SplitOn("", ',')[0] == "";
    assert Trim("") == "";
  }

  /** The input shows `widths_available.join(', ')`; reading it back gives
      the list again when it is not empty and each width is trimmed and
      free of commas. An empty list comes back as `['']`. */
  lemma WidthsRoundTrip(ws: seq<string>)
    requires ws != []
    requires forall i :: 0 <= i < |ws| ==> Trim(ws[i]) == ws[i] && ',' !in ws[i]
    ensures WidthsInput(JoinCommaSpace(ws)) == ws
    ensures WidthsInput(JoinCommaSpace([])) == [""]
  {
    SplitTrimJoin(ws);
    EmptyWidthsInput();
  }

  /** The tab's state. */
  class PolyGlazingTabState {
    var companies: seq<Record>
    var loading: bool
    var error: Option<string>
    var showForm: bool
    var editingCompany: Option<Record>
    var formData: Record

    constructor ()
      ensures companies == [] && loading && error == None && !showForm && editingCompany == None
      ensures formData == DefaultCompanyForm
    {
      companies := [];
      loading := true;
      error := None;
      showForm := false;
      editingCompany := None;
      formData := DefaultCompanyForm;
    }

    /** `loadCompanies` */
    method Load(answer: Fetch)
      modifies this
      ensures answer.Fetched? ==> companies == RowsOr(answer.data) && error == old(error)
      ensures answer.FetchFailed? ==> companies == old(companies) && error == Some(answer.message)
      ensures !loading
      ensures showForm == old(showForm) && editingCompany == old(editingCompany) && formData == old(formData)
    {
      match answer {
        case Fetched(data) => companies := RowsOr(data);
        case FetchFailed(message) => error := Some(message);
      }
      loading := false;
    }

    /** `handleSubmit`: the converted form is sent as an update of the
        company being edited or as an insert; after a save the form is
        closed and reset to the New button's defaults. */
    method Submit(failure: Option<string>, reload: Fetch) returns (write: Write)
      modifies this
      ensures old(editingCompany).Some? ==> write == Update("company_id", Get(old(editingCompany).value, "company_id"), NumericData(old(formData)))
      ensures old(editingCompany).None? ==> write == Insert(NumericData(old(formData)))
      ensures failure.Some? ==> error == failure && companies == old(companies) && loading == old(loading)
      ensures failure.Some? ==> showForm == old(showForm) && editingCompany == old(editingCompany) && formData == old(formData)
      ensures failure.None? && reload.Fetched? ==> companies == RowsOr(reload.data) && error == None
      ensures failure.None? && reload.FetchFailed? ==> companies == old(companies) && error == Some(reload.message)
      ensures failure.None? ==> !showForm && editingCompany == None && formData == DefaultCompanyForm && !loading
    {
      error := None;
      var numericData := NumericData(formData);
      if editingCompany.Some? {
        write := Update("company_id", Get(editingCompany.value, "company_id"), numericData);
      } else {
        write := Insert(numericData);
      }
      if failure.Some? {
        error := failure;
        return;
      }
      Load(reload);
      showForm := false;
      editingCompany := None;
      formData := DefaultCompanyForm;
    }

    /** `handleDelete`: nothing happens unless the user confirms. */
    method Delete(companyId: string, confirmed: bool, failure: Option<string>, reload: Fetch) returns (deleted: Option<string>)
      modifies this
      ensures deleted.Some? <==> confirmed
      ensures deleted.Some? ==> deleted.value == companyId
      ensures !confirmed ==> companies == old(companies) && error == old(error) && loading == old(loading)
      ensures confirmed && failure.Some? ==> error == failure && companies == old(companies) && loading == old(loading)
      ensures confirmed && failure.None? && reload.Fetched? ==> companies == RowsOr(reload.data) && error == old(error)
      ensures confirmed && failure.None? && reload.FetchFailed? ==> companies == old(companies) && error == Some(reload.message)
      ensures confirmed && failure.None? ==> !loading
      ensures showForm == old(showForm) && editingCompany == old(editingCompany) && formData == old(formData)
    {
      if !confirmed {
        return None;
      }
      deleted := Some(companyId);
      if failure.Some? {
        error := failure;
      } else {
        Load(reload);
      }
    }

    /** `handleEdit`: the company is copied into the form. */
    method Edit(company: Record)
      modifies this
      ensures editingCompany == Some(company) && formData == company && showForm
      ensures companies == old(companies) && loading == old(loading) && error == old(error)
    {
      editingCompany := Some(company);
      formData := company;
      showForm := true;
    }

    /** The New Poly button. */
    method New()
      modifies this
      ensures editingCompany == None && formData == DefaultCompanyForm && showForm
      ensures companies == old(companies) && loading == old(loading) && error == old(error)
    {
      editingCompany := None;
      formData := DefaultCompanyForm;
      showForm := true;
    }

    /** The close and Cancel buttons. */
    method Cancel()
      modifies this
      ensures editingCompany == None && !showForm
      ensures companies == old(companies) && loading == old(loading) && error == old(error) && formData == old(formData)
    {
      showForm := false;
      editingCompany := None;
    }

    /** The company name and type inputs store the text. */
    method ChangeText(field: string, value: string)
      requires field == "company_name" || field == "type"
      modifies this
      ensures formData == Set(old(formData), field, Str(value))
      ensures companies == old(companies) && loading == old(loading) && error == old(error)
      ensures showForm == old(showForm) && editingCompany == old(editingCompany)
    {
      formData := Set(formData, field, Str(value));
    }

    /** The numeric inputs: 0 for an empty input, else `parseFloat`. */
    method ChangeNumber(field: string, value: string)
      requires field in NumericFields
      modifies this
      ensures formData == Set(old(formData), field, ParseFloatUnlessEmpty(value))
      ensures companies == old(companies) && loading == old(loading) && error == old(error)
      ensures showForm == old(showForm) && editingCompany == old(editingCompany)
    {
      formData := Set(formData, field, ParseFloatUnlessEmpty(value));
    }

    /** The available widths input. */
    method ChangeWidths(value: string)
      modifies this
      ensures formData == Set(old(formData), "widths_available", Strs(WidthsInput(value)))
      ensures companies == old(companies) && loading == old(loading) && error == old(error)
      ensures showForm == old(showForm) && editingCompany == old(editingCompany)
    {
      formData := Set(formData, "widths_available", Strs(WidthsInput(value)));
    }
  }
}
