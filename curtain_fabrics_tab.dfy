/**
 * The curtain fabrics settings tab
 * (src/components/settings/CurtainFabricsTab.tsx): the fabric form, how
 * its inputs are read (numbers through `parseFloat(v) || 0`, the widths as
 * a comma-separated list of numbers), the two form resets, and the load,
 * save, delete and edit handlers. The database answers are parameters.
 */
module CurtainFabricsTab {
  import opened JsText
  import opened JsValue
  import opened Database

  /** `FABRIC_TYPES` */
  const FabricTypes := ["Shade", "Blackout", "Insect Screen"]

  /** The form the New button opens (and the initial form). */
  const NewFabricForm: Record := map[
    "fabric_name" := Str(""),
    "energy_savings" := Num(0.0),
    "shade_percentage" := Num(0.0),
    "ventilation_reduction" := Num(0.0),
    "price_0_5000" := Num(0.0),
    "price_5000_20000" := Num(0.0),
    "price_20000_plus" := Num(0.0),
    "width_size" := Nums([]),
    "fabric_type" := Str("Shade")]

  /** The form after a successful save. */
  const SavedFabricForm: Record := map[
    "fabric_name" := Str(""),
    "energy_savings" := Num(0.0),
    "shade_percentage" := Num(0.0),
    "ventilation_reduction" := Num(0.0),
    "price_0_5000" := Num(0.0),
    "price_5000_20000" := Num(0.0),
    "price_20000_plus" := Num(0.0),
    "width_size" := Num(0.0),
    "fabric_type" := Str("Insect Screen")]

  /** The fields read with `parseFloat(value) || 0`. */
  const NumberFields := ["shade_percentage", "energy_savings", "ventilation_reduction", "price_0_5000", "price_5000_20000", "price_20000_plus"]

  /** `.map(v => parseFloat(v))` */
  function Readings(pieces: seq<string>): (r: seq<Value>)
    ensures |r| == |pieces|
    ensures forall i :: 0 <= i < |r| ==> r[i] == ParseFloat(pieces[i])
  {
    seq(|pieces|, i requires 0 <= i < |pieces| => ParseFloat(pieces[i]))
  }

  /** `.map(num => isNaN(num) ? null : num).filter(v => v !== null)`: the
      readings that are numbers. */
  function Numbers(vs: seq<Value>): (r: seq<real>)
    ensures |r| <= |vs|
  {
    if vs == [] then []
    else (if vs[0].Num? then [vs[0].x] else []) + Numbers(vs[1..])
  }

  /** The numbers of `a + b` are those of `a` followed by those of `b`, so
      the order of the pieces is kept. */
  lemma {:induction false} NumbersConcat(a: seq<Value>, b: seq<Value>)
    ensures Numbers(a + b) == Numbers(a) + Numbers(b)
  {
    if a == [] {
      assert a + b == b;
    } else {
      assert (a + b)[0] == a[0];
      assert (a + b)[1..] == a[1..] + b;
      NumbersConcat(a[1..], b);
    }
  }

  /** Every number kept is a reading, and every reading that is a number is
      kept. */
  lemma {:induction false} NumbersMembers(vs: seq<Value>)
    ensures forall x :: x in Numbers(vs) <==> Num(x) in vs
  {
    if vs != [] {
      NumbersMembers(vs[1..]);
      assert vs == [vs[0]] + vs[1..];
    }
  }

  /** The width input: '' is no widths; otherwise the comma-separated
      pieces, trimmed, without the empty ones, read as numbers with those
      that are not numbers dropped. */
  function ParseWidths(input: string): seq<real>
  {
    if input == "" then [] else Numbers(Readings(DropEmpty(TrimAll(SplitOn(input, ',')))))
  }

  /** '' gives no widths, and there are never more widths than pieces. */
  lemma ParseWidthsCount(input: string)
    ensures input == "" ==> ParseWidths(input) == []
    ensures |ParseWidths(input)| <= Count(input, ',') + 1
  {
    SplitCount(input, ',');
    var ps := TrimAll(SplitOn(input, ','));
    SubsequenceLength(DropEmpty(ps), ps);
  }

  /** Each width is the reading of a non-empty trimmed piece. */
  lemma ParseWidthsFromPieces(input: string)
    ensures var ps := TrimAll(SplitOn(input, ','));
      forall x :: x in ParseWidths(input) ==> exists p :: p in ps && p != "" && ParseFloat(p) == Num(x)
  {
    var ps := TrimAll(SplitOn(input, ','));
    var kept := DropEmpty(ps);
    var rs := Readings(kept);
    NumbersMembers(rs);
    if input != "" {
      forall x | x in ParseWidths(input) ensures exists p :: p in ps && p != "" && ParseFloat(p) == Num(x) {
        assert Num(x) in rs;
        var j :| 0 <= j < |rs| && rs[j] == Num(x);
        assert kept[j] in kept;
      }
    }
  }

  /** Every piece that reads as a number gives a width. */
  lemma ParseWidthsComplete(input: string)
    ensures var ps := TrimAll(SplitOn(input, ','));
      input != "" ==> forall p :: p in ps && ParseFloat(p).Num? ==> ParseFloat(p).x in ParseWidths(input)
  {
    var ps := TrimAll(SplitOn(input, ','));
    var kept := DropEmpty(ps);
    var rs := Readings(kept);
    NumbersMembers(rs);
    if input != "" {
      forall p | p in ps && ParseFloat(p).Num? ensures ParseFloat(p).x in ParseWidths(input) {
        assert p in kept;
        var j :| 0 <= j < |kept| && kept[j] == p;
        assert rs[j] == ParseFloat(p);
      }
    }
  }

  /** The tab's state. */
  class CurtainFabricsTabState {
    var fabrics: seq<Record>
    var loading: bool
    var error: Option<string>
    var showForm: bool
    var editingFabric: Option<Record>
    var formData: Record

    constructor ()
      ensures fabrics == [] && loading && error == None && !showForm && editingFabric == None
      ensures formData == NewFabricForm
    {
      fabrics := [];
      loading := true;
      error := None;
      showForm := false;
      editingFabric := None;
      formData := NewFabricForm;
    }

    /** `loadFabrics` */
    method Load(answer: Fetch)
      modifies this
      ensures answer.Fetched? ==> fabrics == RowsOr(answer.data) && error == old(error)
      ensures answer.FetchFailed? ==> fabrics == old(fabrics) && error == Some(answer.message)
      ensures !loading
      ensures showForm == old(showForm) && editingFabric == old(editingFabric) && formData == old(formData)
    {
      match answer {
        case Fetched(data) => fabrics := RowsOr(data);
        case FetchFailed(message) => error := Some(message);
      }
      loading := false;
    }

    /** `handleSubmit`: updates the fabric being edited, or inserts the
        form. A failed write keeps the form open with the error shown; a
        successful one reloads, closes the form and resets it. */
    method Submit(failure: Option<string>, reload: Fetch) returns (write: Write)
      modifies this
      ensures old(editingFabric).Some? ==> write == Update("fabric_id", Get(old(editingFabric).value, "fabric_id"), old(formData))
      ensures old(editingFabric).None? ==> write == Insert(old(formData))
      ensures failure.Some? ==> error == failure && fabrics == old(fabrics) && loading == old(loading)
      ensures failure.Some? ==> showForm == old(showForm) && editingFabric == old(editingFabric) && formData == old(formData)
      ensures failure.None? && reload.Fetched? ==> fabrics == RowsOr(reload.data) && error == None
      ensures failure.None? && reload.FetchFailed? ==> fabrics == old(fabrics) && error == Some(reload.message)
      ensures failure.None? ==> !showForm && editingFabric == None && formData == SavedFabricForm && !loading
    {
      error := None;
      if editingFabric.Some? {
        write := Update("fabric_id", Get(editingFabric.value, "fabric_id"), formData);
      } else {
        write := Insert(formData);
      }
      if failure.Some? {
        error := failure;
        return;
      }
      Load(reload);
      showForm := false;
      editingFabric := None;
      formData := SavedFabricForm;
    }

    /** `handleDelete`: nothing unless confirmed; then the delete, whose
        error is shown, or a reload. */
    method Delete(confirmed: bool, failure: Option<string>, reload: Fetch)
      modifies this
      ensures !confirmed ==> fabrics == old(fabrics) && error == old(error) && loading == old(loading)
      ensures confirmed && failure.Some? ==> fabrics == old(fabrics) && error == failure && loading == old(loading)
      ensures confirmed && failure.None? && reload.Fetched? ==> fabrics == RowsOr(reload.data) && error == old(error)
      ensures confirmed && failure.None? && reload.FetchFailed? ==> fabrics == old(fabrics) && error == Some(reload.message)
      ensures confirmed && failure.None? ==> !loading
      ensures showForm == old(showForm) && editingFabric == old(editingFabric) && formData == old(formData)
    {
      if !confirmed {
        return;
      }
      if failure.Some? {
        error := failure;
        return;
      }
      Load(reload);
    }

    /** `handleEdit`: the whole fabric is copied into the form. */
    method Edit(fabric: Record)
      modifies this
      ensures editingFabric == Some(fabric) && formData == fabric && showForm
      ensures fabrics == old(fabrics) && loading == old(loading) && error == old(error)
    {
      editingFabric := Some(fabric);
      formData := fabric;
      showForm := true;
    }

    /** The New button. */
    method New()
      modifies this
      ensures editingFabric == None && formData == NewFabricForm && showForm
      ensures fabrics == old(fabrics) && loading == old(loading) && error == old(error)
    {
      editingFabric := None;
      formData := NewFabricForm;
      showForm := true;
    }

    /** The close and Cancel buttons. */
    method Cancel()
      modifies this
      ensures editingFabric == None && !showForm
      ensures fabrics == old(fabrics) && loading == old(loading) && error == old(error) && formData == old(formData)
    {
      showForm := false;
      editingFabric := None;
    }

    /** The name and type inputs store the text. */
    method ChangeText(field: string, value: string)
      requires field == "fabric_name" || field == "fabric_type"
      modifies this
      ensures formData == Set(old(formData), field, Str(value))
      ensures fabrics == old(fabrics) && loading == old(loading) && error == old(error)
      ensures showForm == old(showForm) && editingFabric == old(editingFabric)
    {
      formData := Set(formData, field, Str(value));
    }

    /** The percentage and price inputs. */
    method ChangeNumber(field: string, value: string)
      requires field in NumberFields
      modifies this
      ensures formData == Set(old(formData), field, ParseFloatOrZero(value))
      ensures fabrics == old(fabrics) && loading == old(loading) && error == old(error)
      ensures showForm == old(showForm) && editingFabric == old(editingFabric)
    {
      formData := Set(formData, field, ParseFloatOrZero(value));
    }

    /** The width input. */
    method ChangeWidths(input: string)
      modifies this
      ensures formData == Set(old(formData), "width_size", Nums(ParseWidths(input)))
      ensures fabrics == old(fabrics) && loading == old(loading) && error == old(error)
      ensures showForm == old(showForm) && editingFabric == old(editingFabric)
    {
      formData := Set(formData, "width_size", Nums(ParseWidths(input)));
    }
  }
}
