/**
 * The PC8 glazing companies settings tab
 * (src/components/settings/PC8GlazingTab.tsx): the company form, how its
 * inputs are read (the widths as a comma-separated list of strings), the
 * two form resets, and the load, save, delete and edit handlers. The
 * database answers are parameters.
 */
module PC8GlazingTab {
  import opened JsText
  import opened JsValue
  import opened Database

  /** `GLAZING_TYPES` */
  const GlazingTypes := ["PC8", "CPC"]

  /** The form the New button opens (and the initial form). */
  const NewCompanyForm: Record := map[
    "company_name" := Str(""),
    "product" := Str(""),
    "type" := Str("PC8"),
    "light_transmittance" := Num(0.0),
    "light_diffusion" := Num(0.0),
    "price_0_5000" := Num(0.0),
    "price_5000_20000" := Num(0.0),
    "price_20000_plus" := Num(0.0),
    "width_size" := Strs([])]

  /** The form after a successful save, with the price keys it is written
      with. */
  const SavedCompanyForm: Record := map[
    "company_name" := Str(""),
    "product" := Str(""),
    "type" := Str("PC8"),
    "light_transmittance" := Num(0.0),
    "light_diffusion" := Num(0.0),
    "price_0_5000" := Num(0.0),
    "price_5000_10000" := Num(0.0),
    "price_10000_50000" := Num(0.0),
    "price_50000_plus" := Num(0.0)]

  /** The save reset leaves out the widths and two of the company's price
      fields, and sets three price keys the company record does not have. */
  lemma SavedResetKeys()
    ensures "width_size" in NewCompanyForm && "width_size" !in SavedCompanyForm
    ensures "price_5000_20000" in NewCompanyForm && "price_5000_20000" !in SavedCompanyForm
    ensures "price_20000_plus" in NewCompanyForm && "price_20000_plus" !in SavedCompanyForm
    ensures "price_5000_10000" in SavedCompanyForm && "price_5000_10000" !in NewCompanyForm
  {
  }

  /** The width input: '' is no widths; otherwise the comma-separated
      pieces, trimmed, without the empty ones, still as text. */
  function ParseWidths(input: string): (r: seq<string>)
    ensures input == "" ==> r == []
    ensures forall i :: 0 <= i < |r| ==> r[i] != ""
  {
    if input == "" then [] else DropEmpty(TrimAll(SplitOn(input, ',')))
  }

  /** Each width is a trimmed piece of the input, and each piece that is
      not blank is a width. */
  lemma ParseWidthsSpec(input: string)
    requires input != ""
    ensures forall w :: w in ParseWidths(input) <==> w in TrimAll(SplitOn(input, ',')) && w != ""
  {
  }

  /** The form shows the widths as `width_size.join(', ')`; reading that
      text back gives the same widths, when each is non-empty, trimmed and
      free of commas. */
  lemma WidthsRoundTrip(ws: seq<string>)
    requires forall i :: 0 <= i < |ws| ==> ws[i] != "" && Trim(ws[i]) == ws[i] && ',' !in ws[i]
    ensures ParseWidths(JoinCommaSpace(ws)) == ws
  {
    if ws != [] {
      JoinCommaSpaceNonEmpty(ws);
      SplitTrimJoin(ws);
      DropEmptyKeeps(ws);
    }
  }

  /** Light transmittance is read with `parseFloat(v) || 0`, diffusion and
      prices with `v ? parseFloat(v) : 0`. The second stores NaN exactly for
      non-empty text `parseFloat` cannot read; wherever it stores a number
      the two readers agree. */
  lemma NumberReadersAgree(v: string)
    ensures ParseFloatUnlessEmpty(v).NaN? <==> v != [] && ParseFloat(v).NaN?
    ensures !ParseFloatUnlessEmpty(v).NaN? ==> ParseFloatOrZero(v) == ParseFloatUnlessEmpty(v)
  {
  }

  /** The fields read with `v ? parseFloat(v) : 0`. */
  const UnlessEmptyFields := ["light_diffusion", "price_0_5000", "price_5000_20000", "price_20000_plus"]

  /** The tab's state. */
  class PC8GlazingTabState {
    var companies: seq<Record>
    var loading: bool
    var error: Option<string>
    var showForm: bool
    var editingCompany: Option<Record>
    var formData: Record

    constructor ()
      ensures companies == [] && loading && error == None && !showForm && editingCompany == None
      ensures formData == NewCompanyForm
    {
      companies := [];
      loading := true;
      error := None;
      showForm := false;
      editingCompany := None;
      formData := NewCompanyForm;
    }

    /** `loadCompanies` */
    method Load(answer: Fetch)
      modifies this
      ensures answer.Fetched? ==> companies == RowsOr(answer.data) && error == old(error)
      ensures answer.FetchFailed? ==> companies == old(companies) && error == Some(answer.message)
      ensures !loading
      ensures showForm == old(showForm) && editingCompany == old(editingCompany) && formData == old(formData)
    {
      match answer {
        case Fetched(data) => companies := RowsOr(data);
        case FetchFailed(message) => error := Some(message);
      }
      loading := false;
    }

    /** `handleSubmit`: updates the company being edited, or inserts the
        form. A failed write keeps the form open with the error shown; a
        successful one reloads, closes the form and resets it. */
    method Submit(failure: Option<string>, reload: Fetch) returns (write: Write)
      modifies this
      ensures old(editingCompany).Some? ==> write == Update("company_id", Get(old(editingCompany).value, "company_id"), old(formData))
      ensures old(editingCompany).None? ==> write == Insert(old(formData))
      ensures failure.Some? ==> error == failure && companies == old(companies) && loading == old(loading)
      ensures failure.Some? ==> showForm == old(showForm) && editingCompany == old(editingCompany) && formData == old(formData)
      ensures failure.None? && reload.Fetched? ==> companies == RowsOr(reload.data) && error == None
      ensures failure.None? && reload.FetchFailed? ==> companies == old(companies) && error == Some(reload.message)
      ensures failure.None? ==> !showForm && editingCompany == None && formData == SavedCompanyForm && !loading
    {
      error := None;
      if editingCompany.Some? {
        write := Update("company_id", Get(editingCompany.value, "company_id"), formData);
      } else {
        write := Insert(formData);
      }
      if failure.Some? {
        error := failure;
        return;
      }
      Load(reload);
      showForm := false;
      editingCompany := None;
      formData := SavedCompanyForm;
    }

    /** `handleDelete` */
    method Delete(confirmed: bool, failure: Option<string>, reload: Fetch)
      modifies this
      ensures !confirmed ==> companies == old(companies) && error == old(error) && loading == old(loading)
      ensures confirmed && failure.Some? ==> companies == old(companies) && error == failure && loading == old(loading)
      ensures confirmed && failure.None? && reload.Fetched? ==> companies == RowsOr(reload.data) && error == old(error)
      ensures confirmed && failure.None? && reload.FetchFailed? ==> companies == old(companies) && error == Some(reload.message)
      ensures confirmed && failure.None? ==> !loading
      ensures showForm == old(showForm) && editingCompany == old(editingCompany) && formData == old(formData)
    {
      if !confirmed {
        return;
      }
      if failure.Some? {
        error := failure;
        return;
      }
      Load(reload);
    }

    /** `handleEdit`: the whole company is copied into the form. */
    method Edit(company: Record)
      modifies this
      ensures editingCompany == Some(company) && formData == company && showForm
      ensures companies == old(companies) && loading == old(loading) && error == old(error)
    {
      editingCompany := Some(company);
      formData := company;
      showForm := true;
    }

    /** The New button. */
    method New()
      modifies this
      ensures editingCompany == None && formData == NewCompanyForm && showForm
      ensures companies == old(companies) && loading == old(loading) && error == old(error)
    {
      editingCompany := None;
      formData := NewCompanyForm;
      showForm := true;
    }

    /** The close and Cancel buttons. */
    method Cancel()
      modifies this
      ensures editingCompany == None && !showForm
      ensures companies == old(companies) && loading == old(loading) && error == old(error) && formData == old(formData)
    {
      showForm := false;
      editingCompany := None;
    }

    /** The name, product and type inputs store the text. */
    method ChangeText(field: string, value: string)
      requires field == "company_name" || field == "product" || field == "type"
      modifies this
      ensures formData == Set(old(formData), field, Str(value))
      ensures companies == old(companies) && loading == old(loading) && error == old(error)
      ensures showForm == old(showForm) && editingCompany == old(editingCompany)
    {
      formData := Set(formData, field, Str(value));
    }

    /** The light transmittance input. */
    method ChangeTransmittance(value: string)
      modifies this
      ensures formData == Set(old(formData), "light_transmittance", ParseFloatOrZero(value))
      ensures companies == old(companies) && loading == old(loading) && error == old(error)
      ensures showForm == old(showForm) && editingCompany == old(editingCompany)
    {
      formData := Set(formData, "light_transmittance", ParseFloatOrZero(value));
    }

    /** The diffusion and price inputs. */
    method ChangeNumber(field: string, value: string)
      requires field in UnlessEmptyFields
      modifies this
      ensures formData == Set(old(formData), field, ParseFloatUnlessEmpty(value))
      ensures companies == old(companies) && loading == old(loading) && error == old(error)
      ensures showForm == old(showForm) && editingCompany == old(editingCompany)
    {
      formData := Set(formData, field, ParseFloatUnlessEmpty(value));
    }

    /** The width input. */
    method ChangeWidths(input: string)
      modifies this
      ensures formData == Set(old(formData), "width_size", Strs(ParseWidths(input)))
      ensures companies == old(companies) && loading == old(loading) && error == old(error)
      ensures showForm == old(showForm) && editingCompany == old(editingCompany)
    {
      formData := Set(formData, "width_size", Strs(ParseWidths(input)));
    }
  }
}
