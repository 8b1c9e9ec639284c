/**
 * The glazing wizard (src/components/GlazingWizard.tsx): the model name
 * the requirements are looked up under, the aggregation of the returned
 * requirement rows into one line per glazing section in a fixed order, and
 * the per-section material change. The query itself is a parameter (the
 * rows it returned, or none on an error).
 */
module GlazingWizard {
  import opened JsText
  import opened JsValue

  /** `SECTION_ORDER` */
  const SectionOrder := ["roof", "roof_vent", "sidewall", "endwall", "gable", "gutter_partition", "gable_partition", "rollup_wall", "drop_wall"]

  /** `MODEL_MAP[model] || model`: the one abbreviation the table maps. */
  function NormalizeModel(model: string): string
  {
    if model == "SL18" then "Solar Light" else model
  }

  /** SL18 is looked up as Solar Light, every other model as itself, and a
      normalized name needs no further normalizing. */
  lemma NormalizeModelSpec(model: string)
    ensures model == "SL18" ==> NormalizeModel(model) == "Solar Light"
    ensures model != "SL18" ==> NormalizeModel(model) == model
    ensures NormalizeModel(NormalizeModel(model)) == NormalizeModel(model)
  {
    assert "Solar Light" != "SL18";
  }

  /** A requirement row: its section, material and area (`None` for null). */
  datatype Row = Row(section: string, materialType: string, area: Option<real>)

  /** One line of the wizard. */
  datatype Section = Section(section: string, material: string, area: real, unit: string, price: real, total: real, editable: bool)

  /** `rows.filter(row => row.section === section)` */
  function RowsIn(rows: seq<Row>, section: string): (r: seq<Row>)
    ensures |r| <= |rows|
    ensures forall i :: 0 <= i < |r| ==> r[i].section == section
    ensures forall i :: 0 <= i < |rows| && rows[i].section == section ==> rows[i] in r
    ensures IsSubsequence(r, rows)
  {
    if rows == [] then []
    else
      var rest := RowsIn(rows[1..], section);
      if rows[0].section == section then
        assert ([rows[0]] + rest)[1..] == rest;
        [rows[0]] + rest
      else
        SubsequenceSkip(rest, rows);
        rest
  }

  /** `r.area_sq_ft || 0` */
  function AreaOf(row: Row): real
  {
    if row.area.Some? then row.area.value else 0.0
  }

  /** `rows.reduce((sum, r) => sum + (r.area_sq_ft || 0), 0)`, summed from the left. */
  function AreaSum(rows: seq<Row>): real
  {
    if rows == [] then 0.0 else AreaSum(rows[..|rows| - 1]) + AreaOf(rows[|rows| - 1])
  }

  /** The sum splits over a concatenation, so rows can be summed in any grouping. */
  lemma {:induction false} AreaSumConcat(a: seq<Row>, b: seq<Row>)
    ensures AreaSum(a + b) == AreaSum(a) + AreaSum(b)
  {
    if b == [] {
      assert a + b == a;
    } else {
      assert (a + b)[..|a + b| - 1] == a + b[..|b| - 1];
      AreaSumConcat(a, b[..|b| - 1]);
    }
  }

  /** Rows without an area count as nothing. */
  lemma {:induction false} AreaSumNonNegative(rows: seq<Row>)
    requires forall i :: 0 <= i < |rows| ==> rows[i].area.None? || rows[i].area.value >= 0.0
    ensures AreaSum(rows) >= 0.0
  {
    if rows != [] {
      AreaSumNonNegative(rows[..|rows| - 1]);
    }
  }

  /** The line for a section with rows: first row's material, summed area, unpriced. */
  function SectionOf(name: string, rows: seq<Row>): Section
    requires rows != []
  {
    Section(name, rows[0].materialType, AreaSum(rows), "sq_ft", 0.0, 0.0, true)
  }

  /** `order.map(...)` followed by the filter that drops sections without rows. */
  function AggregateOver(order: seq<string>, rows: seq<Row>): seq<Section>
  {
    if order == [] then []
    else
      var rs := RowsIn(rows, order[0]);
      (if rs == [] then [] else [SectionOf(order[0], rs)]) + AggregateOver(order[1..], rows)
  }

  function Aggregate(rows: seq<Row>): seq<Section>
  {
    AggregateOver(SectionOrder, rows)
  }

  function Names(secs: seq<Section>): (names: seq<string>)
    ensures |names| == |secs|
    ensures forall i :: 0 <= i < |secs| ==> names[i] == secs[i].section
  {
    seq(|secs|, i requires 0 <= i < |secs| => secs[i].section)
  }

  /** The aggregated sections follow the order. */
  lemma {:induction false} AggregateOverOrder(order: seq<string>, rows: seq<Row>)
    ensures IsSubsequence(Names(AggregateOver(order, rows)), order)
  {
    if order != [] {
      var rest := AggregateOver(order[1..], rows);
      AggregateOverOrder(order[1..], rows);
      var rs := RowsIn(rows, order[0]);
      var r := AggregateOver(order, rows);
      if rs == [] {
        assert r == rest;
        SubsequenceSkip(Names(rest), order);
      } else {
        assert r == [SectionOf(order[0], rs)] + rest;
        assert Names(r)[1..] == Names(rest);
      }
    }
  }

  /** Each aggregated section is the line built from that section's rows. */
  lemma {:induction false} AggregateOverLines(order: seq<string>, rows: seq<Row>)
    ensures forall i :: 0 <= i < |AggregateOver(order, rows)| ==>
      var s := AggregateOver(order, rows)[i];
      RowsIn(rows, s.section) != [] && s == SectionOf(s.section, RowsIn(rows, s.section))
  {
    if order != [] {
      AggregateOverLines(order[1..], rows);
      var rs := RowsIn(rows, order[0]);
      var rest := AggregateOver(order[1..], rows);
      var r := AggregateOver(order, rows);
      assert r == (if rs == [] then [] else [SectionOf(order[0], rs)]) + rest;
      forall i | 0 <= i < |r| ensures RowsIn(rows, r[i].section) != [] && r[i] == SectionOf(r[i].section, RowsIn(rows, r[i].section)) {
        if rs != [] && i > 0 {
          assert r[i] == rest[i - 1];
        } else if rs == [] {
          assert r[i] == rest[i];
        }
      }
    }
  }

  /** Every section of the order that has rows is aggregated. */
  lemma {:induction false} AggregateOverComplete(order: seq<string>, rows: seq<Row>)
    ensures forall s :: s in order && RowsIn(rows, s) != [] ==> s in Names(AggregateOver(order, rows))
  {
    if order != [] {
      AggregateOverComplete(order[1..], rows);
      var rs := RowsIn(rows, order[0]);
      var rest := AggregateOver(order[1..], rows);
      var r := AggregateOver(order, rows);
      if rs == [] {
        assert r == rest;
      } else {
        assert r == [SectionOf(order[0], rs)] + rest;
        assert Names(r)[0] == order[0];
        forall s | s in order && RowsIn(rows, s) != [] ensures s in Names(r) {
          if s != order[0] {
            assert s in Names(rest);
            var k :| 0 <= k < |rest| && Names(rest)[k] == s;
            assert Names(r)[k + 1] == s;
          }
        }
      }
    }
  }

  lemma SectionOrderDistinct()
    ensures Distinct(SectionOrder)
  {
  }

  /** The wizard lists each section of `SECTION_ORDER` that has rows exactly
      once, in that order, and no other section. */
  lemma AggregateSpec(rows: seq<Row>)
    ensures IsSubsequence(Names(Aggregate(rows)), SectionOrder)
    ensures Distinct(Names(Aggregate(rows)))
    ensures forall s :: s in Names(Aggregate(rows)) <==> s in SectionOrder && RowsIn(rows, s) != []
  {
    AggregateOverOrder(SectionOrder, rows);
    AggregateOverLines(SectionOrder, rows);
    AggregateOverComplete(SectionOrder, rows);
    SectionOrderDistinct();
    SubsequenceDistinct(Names(Aggregate(rows)), SectionOrder);
    SubsequenceMembers(Names(Aggregate(rows)), SectionOrder);
    var r := Aggregate(rows);
    forall s | s in Names(r) ensures RowsIn(rows, s) != [] {
      var k :| 0 <= k < |r| && Names(r)[k] == s;
    }
  }

  /** A section's line: the first matching row's material, the area summed
      over its rows, unit square feet, price and total 0, editable. */
  lemma AggregatedLine(rows: seq<Row>, i: int)
    requires 0 <= i < |Aggregate(rows)|
    ensures var s := Aggregate(rows)[i];
      var rs := RowsIn(rows, s.section);
      && rs != []
      && s.material == rs[0].materialType
      && s.area == AreaSum(rs)
      && s.unit == "sq_ft" && s.price == 0.0 && s.total == 0.0 && s.editable
  {
    AggregateOverLines(SectionOrder, rows);
  }

  /** `handleMaterialChange(idx, newMaterial)` */
  function ChangeMaterial(secs: seq<Section>, idx: int, material: string): seq<Section>
  {
    seq(|secs|, i requires 0 <= i < |secs| => if i == idx then secs[i].(material := material) else secs[i])
  }

  /** Only the material of line `idx` changes; an index outside the list changes nothing. */
  lemma ChangeMaterialSpec(secs: seq<Section>, idx: int, material: string)
    ensures |ChangeMaterial(secs, idx, material)| == |secs|
    ensures forall i :: 0 <= i < |secs| && i != idx ==> ChangeMaterial(secs, idx, material)[i] == secs[i]
    ensures 0 <= idx < |secs| ==> ChangeMaterial(secs, idx, material)[idx].material == material
    ensures 0 <= idx < |secs| ==>
      var s := ChangeMaterial(secs, idx, material)[idx];
      s.section == secs[idx].section && s.area == secs[idx].area && s.unit == secs[idx].unit && s.price == secs[idx].price
    ensures !(0 <= idx < |secs|) ==> ChangeMaterial(secs, idx, material) == secs
  {
  }

  /** Choosing the old material again restores the list. */
  lemma ChangeMaterialUndo(secs: seq<Section>, idx: int, material: string)
    requires 0 <= idx < |secs|
    ensures ChangeMaterial(ChangeMaterial(secs, idx, material), idx, secs[idx].material) == secs
  {
  }

  /** The parameters the requirements are queried with. */
  datatype Query = Query(model: string, width: real, eaveHeight: real, length: real)

  /** The wizard's state. */
  class GlazingWizardState {
    var sections: seq<Section>
    var loading: bool

    constructor ()
      ensures sections == [] && loading
    {
      sections := [];
      loading := true;
    }

    /** The fetch effect: it runs only when model, width, eave height and
        length are all truthy, queries under the normalized model, and shows
        no sections on a query error (`answer == None`). */
    method FetchRequirements(model: string, width: real, eaveHeight: real, length: real, answer: Option<seq<Row>>)
      returns (query: Option<Query>)
      modifies this
      ensures query.Some? <==> model != [] && width != 0.0 && eaveHeight != 0.0 && length != 0.0
      ensures query.Some? ==> query.value == Query(NormalizeModel(model), width, eaveHeight, length) && !loading
      ensures query.Some? && answer.None? ==> sections == []
      ensures query.Some? && answer.Some? ==> sections == Aggregate(answer.value)
      ensures query.None? ==> sections == old(sections) && loading == old(loading)
    {
      if model == [] || width == 0.0 || eaveHeight == 0.0 || length == 0.0 {
        return None;
      }
      loading := true;
      query := Some(Query(NormalizeModel(model), width, eaveHeight, length));
      if answer.None? {
        sections := [];
        loading := false;
        return;
      }
      sections := Aggregate(answer.value);
      loading := false;
    }

    method HandleMaterialChange(idx: int, material: string)
      modifies this
      ensures sections == ChangeMaterial(old(sections), idx, material)
      ensures loading == old(loading)
    {
      sections := ChangeMaterial(sections, idx, material);
    }
  }
}
