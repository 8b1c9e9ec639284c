/**
 * The glazing requirements settings tab
 * (src/components/settings/GlazingRequirementsTab.tsx): the query it sends
 * (filters, sort order, the requested slice of rows), the filter options
 * built from a column's values, the sort and filter handlers, the page size
 * select, the previous and next buttons and the footer. The database is a
 * parameter: each load receives the answer the query returned.
 */
module GlazingRequirementsTab {
  import opened JsText
  import opened JsValue

  /** `pageSizeOptions` */
  const PageSizeOptions: seq<int> := [5, 10, 25, 50, 100]

  datatype Direction = Asc | Desc

  /** `query.range(from, to)`: the rows `from` to `to`, both included. */
  datatype Range = Range(from: int, to: int)

  predicate InRange(i: int, r: Range)
  {
    r.from <= i <= r.to
  }

  /** The slice of rows page `page` asks for. It holds exactly `pageSize`
      rows, and the next page starts right after it. */
  function RangeFor(page: int, pageSize: int): (r: Range)
    ensures r.to - r.from + 1 == pageSize
    ensures r.from == (page - 1) * pageSize
  {
    Range((page - 1) * pageSize, page * pageSize - 1)
  }

  /** Each page starts right after the one before it ends. */
  lemma RangesAdjacent(page: int, pageSize: int)
    ensures RangeFor(page + 1, pageSize).from == RangeFor(page, pageSize).to + 1
  {
  }

  /** Two different pages never ask for the same row. */
  lemma RangesDisjoint(p: int, q: int, pageSize: int, i: int)
    requires pageSize > 0 && p != q
    ensures !(InRange(i, RangeFor(p, pageSize)) && InRange(i, RangeFor(q, pageSize)))
  {
    if p < q {
      PageStartsGrow(p, q, pageSize);
    } else {
      PageStartsGrow(q, p, pageSize);
    }
  }

  lemma PageStartsGrow(p: int, q: int, pageSize: int)
    requires pageSize > 0 && p < q
    ensures RangeFor(q, pageSize).from > RangeFor(p, pageSize).to
  {
    assert (q - 1) * pageSize - p * pageSize == (q - 1 - p) * pageSize;
    assert (q - 1 - p) * pageSize >= 0;
  }

  /** Every row from index 0 on is asked for by page `i / pageSize + 1`. */
  lemma RowOnItsPage(i: nat, pageSize: int)
    requires pageSize > 0
    ensures i / pageSize + 1 >= 1
    ensures InRange(i, RangeFor(i / pageSize + 1, pageSize))
  {
    var q := i / pageSize;
    assert i == q * pageSize + i % pageSize;
    assert (q + 1) * pageSize == q * pageSize + pageSize;
  }

  /** The filter selects, '' meaning "all". */
  datatype Filters = Filters(model: string, section: string, width: string, eaveHeight: string)

  datatype FilterKey = Model | Section | Width | EaveHeight

  const NoFilters := Filters("", "", "", "")

  /** `{ ...prev, [key]: value }` */
  function SetFilter(f: Filters, key: FilterKey, value: string): (r: Filters)
    ensures key == Model ==> r == f.(model := value)
    ensures key == Section ==> r == f.(section := value)
    ensures key == Width ==> r == f.(width := value)
    ensures key == EaveHeight ==> r == f.(eaveHeight := value)
  {
    match key
    case Model => f.(model := value)
    case Section => f.(section := value)
    case Width => f.(width := value)
    case EaveHeight => f.(eaveHeight := value)
  }

  /** One `query.eq(column, value)`. */
  datatype Condition = Eq(column: string, value: Value)

  /** One filter's condition: present exactly when the filter is set. */
  function Cond(isSet: bool, column: string, value: Value): (r: seq<Condition>)
    ensures |r| <= 1
  {
    if isSet then [Eq(column, value)] else []
  }

  /** The `eq` conditions the filters add, in the order they are added;
      the width and eave height filters go through `parseInt`. */
  function Conditions(f: Filters): (r: seq<Condition>)
    ensures |r| <= 4
    ensures f == NoFilters ==> r == []
  {
    ConditionsWith(f, ParseInt(f.width), ParseInt(f.eaveHeight))
  }

  /** The conditions with the parsed width `w` and eave height `e`. */
  function ConditionsWith(f: Filters, w: Value, e: Value): (r: seq<Condition>)
    ensures |r| <= 4
    ensures f == NoFilters ==> r == []
  {
    Cond(f.model != "", "model", Str(f.model))
    + Cond(f.section != "", "section", Str(f.section))
    + Cond(f.width != "", "width", w)
    + Cond(f.eaveHeight != "", "eave_height", e)
  }

  /** A condition is in the list exactly when it is one a set filter adds. */
  lemma InConditionsWith(x: Condition, f: Filters, w: Value, e: Value)
    ensures x in ConditionsWith(f, w, e) <==>
      || (f.model != "" && x == Eq("model", Str(f.model)))
      || (f.section != "" && x == Eq("section", Str(f.section)))
      || (f.width != "" && x == Eq("width", w))
      || (f.eaveHeight != "" && x == Eq("eave_height", e))
  {
    var m, sc, wd, ev := Cond(f.model != "", "model", Str(f.model)), Cond(f.section != "", "section", Str(f.section)), Cond(f.width != "", "width", w), Cond(f.eaveHeight != "", "eave_height", e);
    assert ConditionsWith(f, w, e) == ((m + sc) + wd) + ev;
    assert x in ConditionsWith(f, w, e) <==> x in m || x in sc || x in wd || x in ev;
  }

  /** Each filter's condition is in the list exactly when the filter is set. */
  lemma ConditionsWithIn(f: Filters, w: Value, e: Value)
    ensures Eq("model", Str(f.model)) in ConditionsWith(f, w, e) <==> f.model != ""
    ensures Eq("section", Str(f.section)) in ConditionsWith(f, w, e) <==> f.section != ""
    ensures Eq("width", w) in ConditionsWith(f, w, e) <==> f.width != ""
    ensures Eq("eave_height", e) in ConditionsWith(f, w, e) <==> f.eaveHeight != ""
  {
    assert "model" != "section" && "model" != "width" && "model" != "eave_height";
    assert "section" != "width" && "section" != "eave_height" && "width" != "eave_height";
    InConditionsWith(Eq("model", Str(f.model)), f, w, e);
    InConditionsWith(Eq("section", Str(f.section)), f, w, e);
    InConditionsWith(Eq("width", w), f, w, e);
    InConditionsWith(Eq("eave_height", e), f, w, e);
  }

  /** The model filter adds its condition exactly when it is not ''. */
  lemma ModelCondition(f: Filters)
    ensures Eq("model", Str(f.model)) in Conditions(f) <==> f.model != ""
  {
    ConditionsWithIn(f, ParseInt(f.width), ParseInt(f.eaveHeight));
  }

  lemma SectionCondition(f: Filters)
    ensures Eq("section", Str(f.section)) in Conditions(f) <==> f.section != ""
  {
    ConditionsWithIn(f, ParseInt(f.width), ParseInt(f.eaveHeight));
  }

  /** The width filter goes through `parseInt`. */
  lemma WidthCondition(f: Filters)
    ensures Eq("width", ParseInt(f.width)) in Conditions(f) <==> f.width != ""
  {
    ConditionsWithIn(f, ParseInt(f.width), ParseInt(f.eaveHeight));
  }

  /** The eave height filter goes through `parseInt`. */
  lemma EaveHeightCondition(f: Filters)
    ensures Eq("eave_height", ParseInt(f.eaveHeight)) in Conditions(f) <==> f.eaveHeight != ""
  {
    ConditionsWithIn(f, ParseInt(f.width), ParseInt(f.eaveHeight));
  }

  /** The query a load sends: its conditions, its order and its slice. */
  datatype Query = Query(conditions: seq<Condition>, orderColumn: string, ascending: bool, range: Range)

  function QueryFor(f: Filters, sortColumn: string, dir: Direction, page: int, pageSize: int): (q: Query)
    ensures q.ascending <==> dir == Asc
    ensures q.range.to - q.range.from + 1 == pageSize
  {
    Query(Conditions(f), sortColumn, dir == Asc, RangeFor(page, pageSize))
  }

  /** `Array.from(new Set(xs))`: each value once, where it first occurs. */
  function Unique<T(==)>(xs: seq<T>): seq<T>
  {
    if xs == [] then []
    else
      var u := Unique(xs[..|xs| - 1]);
      if xs[|xs| - 1] in u then u else u + [xs[|xs| - 1]]
  }

  /** The options hold the same values as the column. */
  lemma {:induction false} UniqueMembers<T>(xs: seq<T>)
    ensures forall x :: x in Unique(xs) <==> x in xs
  {
    if xs != [] {
      var init := xs[..|xs| - 1];
      UniqueMembers(init);
      assert xs == init + [xs[|xs| - 1]];
    }
  }

  lemma UniqueMember<T>(xs: seq<T>, y: T)
    requires y in Unique(xs)
    ensures y in xs
  {
    UniqueMembers(xs);
  }

  /** No option appears twice. */
  lemma {:induction false} UniqueDistinct<T>(xs: seq<T>)
    ensures Distinct(Unique(xs))
  {
    if xs != [] {
      UniqueDistinct(xs[..|xs| - 1]);
    }
  }

  /** The first occurrence of a value that occurs in a prefix lies in it. */
  lemma IndexOfPrefix<T>(xs: seq<T>, ys: seq<T>, x: T)
    requires x in xs
    ensures IndexOf(xs + ys, x) == IndexOf(xs, x)
  {
    assert (xs + ys)[IndexOf(xs, x)] == x;
  }

  /** The options come in the order of the values' first occurrences. */
  lemma {:induction false} UniqueFirstOccurrence<T>(xs: seq<T>)
    ensures forall i, j :: 0 <= i < j < |Unique(xs)| ==> IndexOf(xs, Unique(xs)[i]) < IndexOf(xs, Unique(xs)[j])
  {
    if xs != [] {
      var init := xs[..|xs| - 1];
      var last := xs[|xs| - 1];
      var u := Unique(init);
      UniqueFirstOccurrence(init);
      UniqueMembers(init);
      assert xs == init + [last];
      forall y: T | y in u ensures IndexOf(xs, y) == IndexOf(init, y) {
        UniqueMember(init, y);
        IndexOfPrefix(init, [last], y);
      }
      if last !in u {
        var w := Unique(xs);
        assert w == u + [last];
        forall i, j | 0 <= i < j < |w| ensures IndexOf(xs, w[i]) < IndexOf(xs, w[j]) {
          assert w[i] in u;
          if j < |u| {
            assert w[j] in u;
          }
        }
      }
    }
  }

  /** A column without repeats is its own option list. */
  lemma {:induction false} UniqueOfDistinct<T>(xs: seq<T>)
    requires Distinct(xs)
    ensures Unique(xs) == xs
  {
    if xs != [] {
      var init := xs[..|xs| - 1];
      UniqueOfDistinct(init);
      assert xs[|xs| - 1] !in init by {
        forall i | 0 <= i < |init| ensures init[i] != xs[|xs| - 1] {
          assert init[i] == xs[i];
        }
      }
    }
  }

  /** The sort after a click on a column header: the same column flips the
      direction, another column is sorted ascending. */
  function SortAfter(sortColumn: string, dir: Direction, column: string): (r: (string, Direction))
    ensures r.0 == column
    ensures column != sortColumn ==> r.1 == Asc
    ensures column == sortColumn ==> r.1 != dir
  {
    if sortColumn == column then (sortColumn, if dir == Asc then Desc else Asc)
    else (column, Asc)
  }

  /** Two clicks on the same column restore its sort. */
  lemma SortTwice(sortColumn: string, dir: Direction, column: string)
    ensures var once := SortAfter(sortColumn, dir, column);
      var twice := SortAfter(once.0, once.1, column);
      column == sortColumn ==> twice == (sortColumn, dir)
    ensures var once := SortAfter(sortColumn, dir, column);
      SortAfter(once.0, once.1, column) == (column, Desc)
      || SortAfter(once.0, once.1, column) == (column, Asc)
  {
  }

  /** `Math.ceil(total / size)` for a count and a positive page size: the
      number of pages the rows fill. */
  function PageCount(total: nat, size: int): (n: nat)
    requires size > 0
    ensures n * size >= total
    ensures n > 0 ==> (n - 1) * size < total
    ensures n == 0 <==> total == 0
  {
    var n := (total + size - 1) / size;
    assert total + size - 1 == n * size + (total + size - 1) % size;
    assert (n - 1) * size == n * size - size;
    n
  }

  /** `Math.max(1, page - 1)` */
  function PrevPage(page: int): (r: int)
    ensures r >= 1
    ensures page > 1 ==> r == page - 1
  {
    if page - 1 > 1 then page - 1 else 1
  }

  /** The Next button is disabled on and after the last page. */
  predicate NextDisabled(page: int, total: nat, size: int)
    requires size > 0
  {
    page >= PageCount(total, size)
  }

  /** `Math.min(Math.ceil(total / size), page + 1)` */
  function NextPage(page: int, total: nat, size: int): (r: int)
    requires size > 0
    ensures r <= PageCount(total, size)
    ensures r <= page + 1
  {
    var last := PageCount(total, size);
    if last < page + 1 then last else page + 1
  }

  /** A click on an enabled Next moves exactly one page on, and never past
      the last page. */
  lemma NextStaysOnPages(page: int, total: nat, size: int)
    requires size > 0 && page >= 1 && !NextDisabled(page, total, size)
    ensures NextPage(page, total, size) == page + 1
    ensures 1 <= NextPage(page, total, size) <= PageCount(total, size)
  {
  }

  /** "Showing start to end of total entries". */
  function Footer(page: int, size: int, total: nat): (r: (int, int))
    ensures r.1 <= total
  {
    ((page - 1) * size + 1, if page * size < total then page * size else total)
  }

  /** On a page that holds rows, the footer counts from the first row the
      page asks for to the last one that exists, at most a page's worth. */
  lemma FooterSpec(page: int, size: int, total: nat)
    requires size > 0 && page >= 1 && (page - 1) * size < total
    ensures var r := Footer(page, size, total);
      && 1 <= r.0 <= r.1 <= total
      && r.1 - r.0 + 1 <= size
      && r.0 - 1 == RangeFor(page, size).from
      && r.1 - 1 == if RangeFor(page, size).to < total - 1 then RangeFor(page, size).to else total - 1
  {
    assert (page - 1) * size >= 0;
  }

  /** With no rows the footer reads "Showing 1 to 0 of 0". */
  lemma FooterEmpty(size: int)
    requires size > 0
    ensures Footer(1, size, 0) == (1, 0)
  {
  }

  /** What a load receives: the rows and count (each possibly null), or the
      error's message. */
  datatype Answer = Loaded(data: Option<seq<Record>>, count: Option<nat>) | Failed(message: string)

  /** The four filter option lists. */
  datatype Options = Options(models: seq<Value>, sections: seq<Value>, widths: seq<Value>, eaveHeights: seq<Value>)

  /** The option list a column's values give, or the old list when the
      column query returned no data. */
  function OptionsFrom(old_: seq<Value>, column: Option<seq<Value>>): (r: seq<Value>)
    ensures column.None? ==> r == old_
    ensures column.Some? ==> Distinct(r) && forall x :: x in r <==> x in column.value
  {
    if column.Some? then
      UniqueMembers(column.value);
      UniqueDistinct(column.value);
      Unique(column.value)
    else old_
  }

  /** The tab's state. */
  class GlazingRequirementsTabState {
    var rows: seq<Record>
    var loading: bool
    var error: Option<string>
    var showForm: bool
    var editingItem: Option<Record>
    var filters: Filters
    var page: int
    var pageSize: int
    var totalCount: nat
    var sortColumn: string
    var sortDirection: Direction
    var options: Options

    /** The page and its size stay valid under every handler. */
    predicate Valid()
      reads this
    {
      page >= 1 && pageSize in PageSizeOptions
    }

    constructor ()
      ensures Valid()
      ensures rows == [] && loading && error == None && !showForm && editingItem == None
      ensures filters == NoFilters && page == 1 && pageSize == 10 && totalCount == 0
      ensures sortColumn == "id" && sortDirection == Asc
      ensures options == Options([], [], [], [])
    {
      rows := [];
      loading := true;
      error := None;
      showForm := false;
      editingItem := None;
      filters := NoFilters;
      page := 1;
      pageSize := 10;
      totalCount := 0;
      sortColumn := "id";
      sortDirection := Asc;
      options := Options([], [], [], []);
    }

    /** `loadGlazingRequirements`: sends the query the state describes and
        takes the rows (`data || []`) and count (`count || 0`) it answers,
        or shows the error and keeps the old rows. */
    method Load(answer: Answer) returns (q: Query)
      modifies this
      ensures q == QueryFor(filters, sortColumn, sortDirection, page, pageSize)
      ensures !loading
      ensures answer.Loaded? ==> rows == (if answer.data.Some? then answer.data.value else [])
      ensures answer.Loaded? ==> totalCount == (if answer.count.Some? then answer.count.value else 0)
      ensures answer.Loaded? ==> error == old(error)
      ensures answer.Failed? ==> rows == old(rows) && totalCount == old(totalCount) && error == Some(answer.message)
      ensures filters == old(filters) && page == old(page) && pageSize == old(pageSize)
      ensures sortColumn == old(sortColumn) && sortDirection == old(sortDirection)
      ensures options == old(options) && showForm == old(showForm) && editingItem == old(editingItem)
    {
      q := QueryFor(filters, sortColumn, sortDirection, page, pageSize);
      loading := true;
      match answer {
        case Loaded(data, count) =>
          rows := if data.Some? then data.value else [];
          totalCount := if count.Some? then count.value else 0;
        case Failed(message) =>
          error := Some(message);
      }
      loading := false;
    }

    /** `loadFilterOptions`: each list is rebuilt from its column when that
        column's query returned data. */
    method LoadFilterOptions(models: Option<seq<Value>>, sections: Option<seq<Value>>, widths: Option<seq<Value>>, eaveHeights: Option<seq<Value>>)
      modifies this
      ensures options == Options(OptionsFrom(old(options).models, models), OptionsFrom(old(options).sections, sections),
        OptionsFrom(old(options).widths, widths), OptionsFrom(old(options).eaveHeights, eaveHeights))
      ensures rows == old(rows) && loading == old(loading) && error == old(error)
      ensures filters == old(filters) && page == old(page) && pageSize == old(pageSize) && totalCount == old(totalCount)
      ensures sortColumn == old(sortColumn) && sortDirection == old(sortDirection)
      ensures showForm == old(showForm) && editingItem == old(editingItem)
    {
      options := Options(OptionsFrom(options.models, models), OptionsFrom(options.sections, sections),
        OptionsFrom(options.widths, widths), OptionsFrom(options.eaveHeights, eaveHeights));
    }

    /** `handleFilterChange`: only the given filter changes, and the view
        returns to the first page. */
    method HandleFilterChange(key: FilterKey, value: string)
      requires Valid()
      modifies this
      ensures Valid()
      ensures filters == SetFilter(old(filters), key, value) && page == 1
      ensures pageSize == old(pageSize) && totalCount == old(totalCount)
      ensures sortColumn == old(sortColumn) && sortDirection == old(sortDirection)
      ensures rows == old(rows) && loading == old(loading) && error == old(error) && options == old(options)
      ensures showForm == old(showForm) && editingItem == old(editingItem)
    {
      filters := SetFilter(filters, key, value);
      page := 1;
    }

    /** `handleSort` */
    method HandleSort(column: string)
      requires Valid()
      modifies this
      ensures Valid()
      ensures (sortColumn, sortDirection) == SortAfter(old(sortColumn), old(sortDirection), column)
      ensures filters == old(filters) && page == old(page) && pageSize == old(pageSize) && totalCount == old(totalCount)
      ensures rows == old(rows) && loading == old(loading) && error == old(error) && options == old(options)
      ensures showForm == old(showForm) && editingItem == old(editingItem)
    {
      if sortColumn == column {
        sortDirection := if sortDirection == Asc then Desc else Asc;
      } else {
        sortColumn := column;
        sortDirection := Asc;
      }
    }

    /** The page size select: one of the offered sizes, back to page 1. */
    method ChangePageSize(size: int)
      requires Valid() && size in PageSizeOptions
      modifies this
      ensures Valid()
      ensures pageSize == size && page == 1
      ensures filters == old(filters) && totalCount == old(totalCount)
      ensures sortColumn == old(sortColumn) && sortDirection == old(sortDirection)
      ensures rows == old(rows) && loading == old(loading) && error == old(error) && options == old(options)
      ensures showForm == old(showForm) && editingItem == old(editingItem)
    {
      pageSize := size;
      page := 1;
    }

    /** The Previous button; disabled on page 1. */
    method Previous()
      requires Valid()
      modifies this
      ensures Valid()
      ensures old(page) == 1 ==> page == 1
      ensures old(page) > 1 ==> page == old(page) - 1
      ensures filters == old(filters) && pageSize == old(pageSize) && totalCount == old(totalCount)
      ensures sortColumn == old(sortColumn) && sortDirection == old(sortDirection)
      ensures rows == old(rows) && loading == old(loading) && error == old(error) && options == old(options)
      ensures showForm == old(showForm) && editingItem == old(editingItem)
    {
      if page != 1 {
        page := PrevPage(page);
      }
    }

    /** The Next button; disabled on and after the last page, so the page
        never drops below 1. */
    method Next()
      requires Valid()
      modifies this
      ensures Valid()
      ensures NextDisabled(old(page), totalCount, pageSize) ==> page == old(page)
      ensures !NextDisabled(old(page), totalCount, pageSize) ==> page == old(page) + 1 && page <= PageCount(totalCount, pageSize)
      ensures filters == old(filters) && pageSize == old(pageSize) && totalCount == old(totalCount)
      ensures sortColumn == old(sortColumn) && sortDirection == old(sortDirection)
      ensures rows == old(rows) && loading == old(loading) && error == old(error) && options == old(options)
      ensures showForm == old(showForm) && editingItem == old(editingItem)
    {
      if !NextDisabled(page, totalCount, pageSize) {
        page := NextPage(page, totalCount, pageSize);
      }
    }

    /** "Add New Requirement" (`item == None`) or a row's edit button. */
    method OpenForm(item: Option<Record>)
      requires Valid()
      modifies this
      ensures Valid()
      ensures showForm && editingItem == item
      ensures filters == old(filters) && page == old(page) && pageSize == old(pageSize) && totalCount == old(totalCount)
      ensures sortColumn == old(sortColumn) && sortDirection == old(sortDirection)
      ensures rows == old(rows) && loading == old(loading) && error == old(error) && options == old(options)
    {
      editingItem := item;
      showForm := true;
    }

    /** The form's submit and cancel callbacks both close it (submit also
        reloads, which is a `Load`). */
    method CloseForm()
      requires Valid()
      modifies this
      ensures Valid()
      ensures !showForm && editingItem == None
      ensures filters == old(filters) && page == old(page) && pageSize == old(pageSize) && totalCount == old(totalCount)
      ensures sortColumn == old(sortColumn) && sortDirection == old(sortDirection)
      ensures rows == old(rows) && loading == old(loading) && error == old(error) && options == old(options)
    {
      showForm := false;
      editingItem := None;
    }

    /** `handleDelete`: nothing without confirmation; a failed delete shows
        its message; a successful one asks for a reload. */
    method Delete(confirmed: bool, failure: Option<string>) returns (reload: bool)
      requires Valid()
      modifies this
      ensures Valid()
      ensures reload <==> confirmed && failure.None?
      ensures confirmed && failure.Some? ==> error == Some(failure.value)
      ensures !(confirmed && failure.Some?) ==> error == old(error)
      ensures filters == old(filters) && page == old(page) && pageSize == old(pageSize) && totalCount == old(totalCount)
      ensures sortColumn == old(sortColumn) && sortDirection == old(sortDirection)
      ensures rows == old(rows) && loading == old(loading) && options == old(options)
      ensures showForm == old(showForm) && editingItem == old(editingItem)
    {
      if !confirmed {
        return false;
      }
      if failure.Some? {
        error := Some(failure.value);
        return false;
      }
      reload := true;
    }
  }
}
