/**
 * The glazing panel requirements settings tab
 * (src/components/settings/GlazingPanelRequirementsTab.tsx). It pages,
 * sorts and filters like the glazing requirements tab, whose ranges, sort
 * rule, page count and option de-duplication it shares; it differs in its
 * filters, in dropping falsy option values, in the clamped footer and in
 * when the Next button is disabled.
 */
module GlazingPanelRequirementsTab {
  import opened JsText
  import opened JsValue
  import Tab = GlazingRequirementsTab

  /** The filter selects, '' meaning "all". */
  datatype Filters = Filters(model: string, section: string, materialType: string, ventType: string)

  datatype FilterKey = Model | Section | MaterialType | VentType

  const NoFilters := Filters("", "", "", "")

  /** `{ ...prev, [key]: value }` */
  function SetFilter(f: Filters, key: FilterKey, value: string): (r: Filters)
    ensures key == Model ==> r == f.(model := value)
    ensures key == Section ==> r == f.(section := value)
    ensures key == MaterialType ==> r == f.(materialType := value)
    ensures key == VentType ==> r == f.(ventType := value)
  {
    match key
    case Model => f.(model := value)
    case Section => f.(section := value)
    case MaterialType => f.(materialType := value)
    case VentType => f.(ventType := value)
  }

  /** The `eq` conditions the filters add, in the order they are added. */
  function Conditions(f: Filters): (r: seq<Tab.Condition>)
    ensures |r| <= 4
    ensures f == NoFilters ==> r == []
  {
    (if f.model != "" then [Tab.Eq("model", Str(f.model))] else [])
    + (if f.section != "" then [Tab.Eq("section", Str(f.section))] else [])
    + (if f.materialType != "" then [Tab.Eq("material_type", Str(f.materialType))] else [])
    + (if f.ventType != "" then [Tab.Eq("vent_type", Str(f.ventType))] else [])
  }

  lemma ModelCondition(f: Filters)
    ensures Tab.Eq("model", Str(f.model)) in Conditions(f) <==> f.model != ""
  {
    assert "model" != "section" && "model" != "material_type" && "model" != "vent_type";
  }

  lemma SectionCondition(f: Filters)
    ensures Tab.Eq("section", Str(f.section)) in Conditions(f) <==> f.section != ""
  {
    assert "section" != "model" && "section" != "material_type" && "section" != "vent_type";
  }

  lemma MaterialTypeCondition(f: Filters)
    ensures Tab.Eq("material_type", Str(f.materialType)) in Conditions(f) <==> f.materialType != ""
  {
    assert "material_type" != "model" && "material_type" != "section" && "material_type" != "vent_type";
  }

  lemma VentTypeCondition(f: Filters)
    ensures Tab.Eq("vent_type", Str(f.ventType)) in Conditions(f) <==> f.ventType != ""
  {
    assert "vent_type" != "model" && "vent_type" != "section" && "vent_type" != "material_type";
  }

  function QueryFor(f: Filters, sortColumn: string, dir: Tab.Direction, page: int, pageSize: int): (q: Tab.Query)
    ensures q.ascending <==> dir == Tab.Asc
    ensures q.range.to - q.range.from + 1 == pageSize
  {
    Tab.Query(Conditions(f), sortColumn, dir == Tab.Asc, Tab.RangeFor(page, pageSize))
  }

  /** `.filter(Boolean)` */
  function TruthyOnly(vs: seq<Value>): (r: seq<Value>)
    ensures forall i :: 0 <= i < |r| ==> Truthy(r[i])
    ensures forall v :: v in r <==> v in vs && Truthy(v)
    ensures IsSubsequence(r, vs)
  {
    if vs == [] then []
    else
      var rest := TruthyOnly(vs[1..]);
      if Truthy(vs[0]) then
        assert ([vs[0]] + rest)[1..] == rest;
        [vs[0]] + rest
      else
        SubsequenceSkip(rest, vs);
        rest
  }

  /** `Array.from(new Set(column.filter(Boolean)))` */
  function OptionValues(column: seq<Value>): (r: seq<Value>)
    ensures Distinct(r)
    ensures forall v :: v in r <==> v in column && Truthy(v)
    ensures forall i :: 0 <= i < |r| ==> Truthy(r[i])
  {
    Tab.UniqueMembers(TruthyOnly(column));
    Tab.UniqueDistinct(TruthyOnly(column));
    Tab.Unique(TruthyOnly(column))
  }

  /** The options keep the order in which the values first occur. */
  lemma OptionValuesOrder(column: seq<Value>)
    ensures var r := OptionValues(column);
      forall i, j :: 0 <= i < j < |r| ==> IndexOf(TruthyOnly(column), r[i]) < IndexOf(TruthyOnly(column), r[j])
  {
    Tab.UniqueFirstOccurrence(TruthyOnly(column));
  }

  /** The options a column gives, or the old list when its query returned
      no data. */
  function OptionsFrom(old_: seq<Value>, column: Option<seq<Value>>): (r: seq<Value>)
    ensures column.None? ==> r == old_
    ensures column.Some? ==> r == OptionValues(column.value)
  {
    if column.Some? then OptionValues(column.value) else old_
  }

  datatype Options = Options(models: seq<Value>, sections: seq<Value>, materialTypes: seq<Value>, ventTypes: seq<Value>)

  /** "Showing start to end of total entries", both clamped to the total. */
  function Footer(page: int, size: int, total: nat): (r: (int, int))
    ensures r.0 <= total && r.1 <= total
  {
    var start := (page - 1) * size + 1;
    var end := page * size;
    (if start < total then start else total, if end < total then end else total)
  }

  /** With no rows the footer reads "Showing 0 to 0 of 0"; on a page that
      holds rows it counts from the page's first row to its last existing
      one. */
  lemma FooterSpec(page: int, size: int, total: nat)
    requires size > 0 && page >= 1
    ensures total == 0 ==> Footer(page, size, total) == (0, 0)
    ensures (page - 1) * size < total ==>
      var r := Footer(page, size, total);
      1 <= r.0 <= r.1 <= total && r.1 - r.0 + 1 <= size
      && r.0 - 1 == Tab.RangeFor(page, size).from
  {
    assert (page - 1) * size >= 0;
    assert page * size == (page - 1) * size + size;
  }

  /** The Next button as written: disabled only when the page equals the
      page count, and otherwise `Math.min(pageCount, page + 1)`. */
  function NextAsWritten(page: int, total: nat, size: int): int
    requires size > 0
  {
    if page == Tab.PageCount(total, size) then page
    else Tab.NextPage(page, total, size)
  }

  /** With no rows the page count is 0, so on page 1 Next is enabled and
      moves to page 0, which asks for the rows -size to -1. */
  lemma NextOnEmptyListing(size: int)
    requires size > 0
    ensures Tab.PageCount(0, size) == 0
    ensures NextAsWritten(1, 0, size) == 0
    ensures Tab.RangeFor(NextAsWritten(1, 0, size), size) == Tab.Range(-size, -1)
  {
  }

  /** Next as evidently intended, the way the glazing requirements tab has
      it: disabled on and after the last page. */
  function Next(page: int, total: nat, size: int): (r: int)
    requires size > 0
    ensures page >= Tab.PageCount(total, size) ==> r == page
    ensures page < Tab.PageCount(total, size) ==> r == page + 1 && r <= Tab.PageCount(total, size)
  {
    if page >= Tab.PageCount(total, size) then page else Tab.NextPage(page, total, size)
  }

  /** The corrected button never leaves the pages from 1 on, and agrees with
      the written one on every page up to the last. */
  lemma NextAgrees(page: int, total: nat, size: int)
    requires size > 0 && 1 <= page
    ensures Next(page, total, size) >= 1
    ensures page <= Tab.PageCount(total, size) ==> Next(page, total, size) == NextAsWritten(page, total, size)
  {
  }

  /** The tab's state. */
  class GlazingPanelRequirementsTabState {
    var rows: seq<Record>
    var loading: bool
    var error: Option<string>
    var showForm: bool
    var editingItem: Option<Record>
    var filters: Filters
    var page: int
    var pageSize: int
    var totalCount: nat
    var sortColumn: string
    var sortDirection: Tab.Direction
    var options: Options

    predicate Valid()
      reads this
    {
      page >= 1 && pageSize in Tab.PageSizeOptions
    }

    constructor ()
      ensures Valid()
      ensures rows == [] && loading && error == None && !showForm && editingItem == None
      ensures filters == NoFilters && page == 1 && pageSize == 10 && totalCount == 0
      ensures sortColumn == "id" && sortDirection == Tab.Asc
      ensures options == Options([], [], [], [])
    {
      rows := [];
      loading := true;
      error := None;
      showForm := false;
      editingItem := None;
      filters := NoFilters;
      page := 1;
      pageSize := 10;
      totalCount := 0;
      sortColumn := "id";
      sortDirection := Tab.Asc;
      options := Options([], [], [], []);
    }

    /** `loadGlazingPanelRequirements` */
    method Load(answer: Tab.Answer) returns (q: Tab.Query)
      modifies this
      ensures q == QueryFor(filters, sortColumn, sortDirection, page, pageSize)
      ensures !loading
      ensures answer.Loaded? ==> rows == (if answer.data.Some? then answer.data.value else [])
      ensures answer.Loaded? ==> totalCount == (if answer.count.Some? then answer.count.value else 0)
      ensures answer.Loaded? ==> error == old(error)
      ensures answer.Failed? ==> rows == old(rows) && totalCount == old(totalCount) && error == Some(answer.message)
      ensures filters == old(filters) && page == old(page) && pageSize == old(pageSize)
      ensures sortColumn == old(sortColumn) && sortDirection == old(sortDirection)
      ensures options == old(options) && showForm == old(showForm) && editingItem == old(editingItem)
    {
      loading := true;
      q := QueryFor(filters, sortColumn, sortDirection, page, pageSize);
      match answer {
        case Loaded(data, count) =>
          rows := if data.Some? then data.value else [];
          totalCount := if count.Some? then count.value else 0;
        case Failed(message) =>
          error := Some(message);
      }
      loading := false;
    }

    /** `loadFilterOptions` */
    method LoadFilterOptions(models: Option<seq<Value>>, sections: Option<seq<Value>>, materialTypes: Option<seq<Value>>, ventTypes: Option<seq<Value>>)
      modifies this
      ensures options == Options(OptionsFrom(old(options).models, models), OptionsFrom(old(options).sections, sections),
        OptionsFrom(old(options).materialTypes, materialTypes), OptionsFrom(old(options).ventTypes, ventTypes))
      ensures rows == old(rows) && loading == old(loading) && error == old(error)
      ensures filters == old(filters) && page == old(page) && pageSize == old(pageSize) && totalCount == old(totalCount)
      ensures sortColumn == old(sortColumn) && sortDirection == old(sortDirection)
      ensures showForm == old(showForm) && editingItem == old(editingItem)
    {
      options := Options(OptionsFrom(options.models, models), OptionsFrom(options.sections, sections),
        OptionsFrom(options.materialTypes, materialTypes), OptionsFrom(options.ventTypes, ventTypes));
    }

    /** `handleFilterChange` */
    method HandleFilterChange(key: FilterKey, value: string)
      requires Valid()
      modifies this
      ensures Valid()
      ensures filters == SetFilter(old(filters), key, value) && page == 1
      ensures pageSize == old(pageSize) && totalCount == old(totalCount)
      ensures sortColumn == old(sortColumn) && sortDirection == old(sortDirection)
      ensures rows == old(rows) && loading == old(loading) && error == old(error) && options == old(options)
      ensures showForm == old(showForm) && editingItem == old(editingItem)
    {
      filters := SetFilter(filters, key, value);
      page := 1;
    }

    /** `handleSort` */
    method HandleSort(column: string)
      requires Valid()
      modifies this
      ensures Valid()
      ensures (sortColumn, sortDirection) == Tab.SortAfter(old(sortColumn), old(sortDirection), column)
      ensures filters == old(filters) && page == old(page) && pageSize == old(pageSize) && totalCount == old(totalCount)
      ensures rows == old(rows) && loading == old(loading) && error == old(error) && options == old(options)
      ensures showForm == old(showForm) && editingItem == old(editingItem)
    {
      if sortColumn == column {
        sortDirection := if sortDirection == Tab.Asc then Tab.Desc else Tab.Asc;
      } else {
        sortColumn := column;
        sortDirection := Tab.Asc;
      }
    }

    /** The page size select: one of the offered sizes, back to page 1. */
    method ChangePageSize(size: int)
      requires Valid() && size in Tab.PageSizeOptions
      modifies this
      ensures Valid()
      ensures pageSize == size && page == 1
      ensures filters == old(filters) && totalCount == old(totalCount)
      ensures sortColumn == old(sortColumn) && sortDirection == old(sortDirection)
      ensures rows == old(rows) && loading == old(loading) && error == old(error) && options == old(options)
      ensures showForm == old(showForm) && editingItem == old(editingItem)
    {
      pageSize := size;
      page := 1;
    }

    /** The Previous button; disabled on page 1. */
    method Previous()
      requires Valid()
      modifies this
      ensures Valid()
      ensures old(page) == 1 ==> page == 1
      ensures old(page) > 1 ==> page == old(page) - 1
      ensures filters == old(filters) && pageSize == old(pageSize) && totalCount == old(totalCount)
      ensures sortColumn == old(sortColumn) && sortDirection == old(sortDirection)
      ensures rows == old(rows) && loading == old(loading) && error == old(error) && options == old(options)
      ensures showForm == old(showForm) && editingItem == old(editingItem)
    {
      if page != 1 {
        page := Tab.PrevPage(page);
      }
    }

    /** The Next button, with the corrected disabling, so the page stays at
        1 or above. */
    method NextClick()
      requires Valid()
      modifies this
      ensures Valid()
      ensures page == Next(old(page), totalCount, pageSize)
      ensures filters == old(filters) && pageSize == old(pageSize) && totalCount == old(totalCount)
      ensures sortColumn == old(sortColumn) && sortDirection == old(sortDirection)
      ensures rows == old(rows) && loading == old(loading) && error == old(error) && options == old(options)
      ensures showForm == old(showForm) && editingItem == old(editingItem)
    {
      page := Next(page, totalCount, pageSize);
    }

    /** "Add" (`item == None`) or a row's edit button. */
    method OpenForm(item: Option<Record>)
      requires Valid()
      modifies this
      ensures Valid()
      ensures showForm && editingItem == item
      ensures filters == old(filters) && page == old(page) && pageSize == old(pageSize) && totalCount == old(totalCount)
      ensures sortColumn == old(sortColumn) && sortDirection == old(sortDirection)
      ensures rows == old(rows) && loading == old(loading) && error == old(error) && options == old(options)
    {
      editingItem := item;
      showForm := true;
    }

    /** The form's submit and cancel callbacks both close it (submit also
        reloads, which is a `Load`). */
    method CloseForm()
      requires Valid()
      modifies this
      ensures Valid()
      ensures !showForm && editingItem == None
      ensures filters == old(filters) && page == old(page) && pageSize == old(pageSize) && totalCount == old(totalCount)
      ensures sortColumn == old(sortColumn) && sortDirection == old(sortDirection)
      ensures rows == old(rows) && loading == old(loading) && error == old(error) && options == old(options)
    {
      showForm := false;
      editingItem := None;
    }

    /** `handleDelete`: nothing without confirmation; a failed delete shows
        its message; a successful one asks for a reload. */
    method Delete(confirmed: bool, failure: Option<string>) returns (reload: bool)
      requires Valid()
      modifies this
      ensures Valid()
      ensures reload <==> confirmed && failure.None?
      ensures confirmed && failure.Some? ==> error == Some(failure.value)
      ensures !(confirmed && failure.Some?) ==> error == old(error)
      ensures filters == old(filters) && page == old(page) && pageSize == old(pageSize) && totalCount == old(totalCount)
      ensures sortColumn == old(sortColumn) && sortDirection == old(sortDirection)
      ensures rows == old(rows) && loading == old(loading) && options == old(options)
      ensures showForm == old(showForm) && editingItem == old(editingItem)
    {
      if !confirmed {
        return false;
      }
      if failure.Some? {
        error := Some(failure.value);
        return false;
      }
      reload := true;
    }
  }
}
