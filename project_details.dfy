/**
 * The quoting rules and local list state of the project page
 * (src/components/ProjectDetails.tsx): the curtain-fabric price tier for an
 * area, the A/B/C/D bay counts, the stocked fabric width a vent's insect
 * screen is cut from, the insect-screen row written with a vent, and the
 * add / update / delete operations on the page's vent and wall lists.
 * Database calls are parameters: a successful call hands over what the
 * server returned, a failed one leaves the lists alone and records an error.
 */
module ProjectDetails {
  import opened JsText
  import opened JsValue
  import Database

  datatype CurtainFabric = CurtainFabric(
    fabricName: string,
    price0To5000: real,
    price5000To20000: real,
    price20000Plus: real,
    widthSize: seq<real>)

  /** `getCurtainFabricPrice(fabric, area)`: the price of the tier the area
      falls in; no price without a fabric or for an area that is not positive. */
  function CurtainFabricPrice(fabric: Option<CurtainFabric>, area: real): (p: Option<real>)
    ensures p.Some? <==> fabric.Some? && area > 0.0
    ensures p.Some? && area <= 5000.0 ==> p.value == fabric.value.price0To5000
    ensures p.Some? && 5000.0 < area <= 20000.0 ==> p.value == fabric.value.price5000To20000
    ensures p.Some? && area > 20000.0 ==> p.value == fabric.value.price20000Plus
  {
    if fabric.None? then None
    else if area > 0.0 && area <= 5000.0 then Some(fabric.value.price0To5000)
    else if area > 5000.0 && area <= 20000.0 then Some(fabric.value.price5000To20000)
    else if area > 20000.0 then Some(fabric.value.price20000Plus)
    else None
  }

  /** The price tier an area falls in: 0 up to 5000, 1 up to 20000, 2 above. */
  function Tier(area: real): (t: nat)
    ensures t <= 2
  {
    if area <= 5000.0 then 0 else if area <= 20000.0 then 1 else 2
  }

  /** The fabric's price for a tier. */
  function TierPrice(fabric: CurtainFabric, t: nat): real
  {
    if t == 0 then fabric.price0To5000
    else if t == 1 then fabric.price5000To20000
    else fabric.price20000Plus
  }

  /** A positive area is priced at its tier's price. */
  lemma PriceByTier(fabric: CurtainFabric, area: real)
    requires area > 0.0
    ensures CurtainFabricPrice(Some(fabric), area) == Some(TierPrice(fabric, Tier(area)))
  {
  }

  /** A larger area never falls in an earlier tier. */
  lemma PriceTierMonotone(a: real, b: real)
    requires 0.0 < a <= b
    ensures Tier(a) <= Tier(b)
  {
  }

  /** `structure.houses || 1` */
  function Houses(houses: Option<real>): (h: real)
    ensures houses.Some? && houses.value != 0.0 ==> h == houses.value
    ensures houses.None? || houses.value == 0.0 ==> h == 1.0
  {
    if houses.Some? && houses.value != 0.0 then houses.value else 1.0
  }

  const ABays := 2

  /** `Math.floor(length_ft / 12) - 2`: the whole 12-foot bays of the length
      less the two A bays. */
  function BBays(lengthFt: real): (b: int)
    ensures 12.0 * ((b + 2) as real) <= lengthFt < 12.0 * ((b + 3) as real)
  {
    (lengthFt / 12.0).Floor - 2
  }

  /** `2 * ((houses || 1) - 1)`: two C bays for each house after the first. */
  function CBays(houses: Option<real>): (c: real)
    ensures houses.None? || houses.value == 0.0 || houses.value == 1.0 ==> c == 0.0
    ensures houses.Some? && houses.value > 1.0 ==> c > 0.0
  {
    2.0 * (Houses(houses) - 1.0)
  }

  /** `(Math.floor(length_ft / 12) - 2) * ((houses || 1) - 1)`: the B bays
      repeated in each house after the first, one D bay per two C bays. */
  function DBays(lengthFt: real, houses: Option<real>): (d: real)
    ensures 2.0 * d == (BBays(lengthFt) as real) * CBays(houses)
  {
    (BBays(lengthFt) as real) * (Houses(houses) - 1.0)
  }

  /** The four bay counts add up to one 12-foot bay per 12 feet of length in
      every house: A and B cover the first house, C and D each further one. */
  lemma BaysPerHouse(lengthFt: real, houses: Option<real>)
    ensures (ABays + BBays(lengthFt)) as real + CBays(houses) + DBays(lengthFt, houses)
            == ((lengthFt / 12.0).Floor as real) * Houses(houses)
    ensures Houses(houses) == 1.0 ==> CBays(houses) == 0.0 && DBays(lengthFt, houses) == 0.0
  {
    var f := (lengthFt / 12.0).Floor as real;
    var h := Houses(houses);
    assert (BBays(lengthFt) as real) == f - 2.0;
    calc {
      2.0 + (f - 2.0) + 2.0 * (h - 1.0) + (f - 2.0) * (h - 1.0);
      f + (2.0 + f - 2.0) * (h - 1.0);
      f * h;
    }
  }

  predicate Ascending(s: seq<real>)
  {
    forall i, j :: 0 <= i < j < |s| ==> s[i] <= s[j]
  }

  function InsertAscending(x: real, s: seq<real>): (r: seq<real>)
    requires Ascending(s)
    ensures multiset(r) == multiset(s) + multiset{x}
    ensures Ascending(r)
  {
    if s == [] || x <= s[0] then [x] + s
    else
      var rest := InsertAscending(x, s[1..]);
      assert s == [s[0]] + s[1..];
      HeadBelowAll(s[0], x, s[1..], rest);
      [s[0]] + rest
  }

  /** A value at most every element of an ascending list goes in front of it. */
  lemma HeadBelowAll(h: real, x: real, t: seq<real>, rest: seq<real>)
    requires h <= x && Ascending(rest)
    requires forall i :: 0 <= i < |t| ==> h <= t[i]
    requires multiset(rest) == multiset(t) + multiset{x}
    ensures Ascending([h] + rest)
  {
    forall k | 0 <= k < |rest|
      ensures h <= rest[k]
    {
      assert rest[k] in multiset(rest);
      if rest[k] != x {
        assert rest[k] in multiset(t);
        assert rest[k] in t;
      }
    }
  }

  /** `[...widths].sort((a, b) => a - b)`: ascending, the same widths. */
  function SortAscending(s: seq<real>): (r: seq<real>)
    ensures multiset(r) == multiset(s)
    ensures Ascending(r)
  {
    if s == [] then []
    else
      assert s == [s[0]] + s[1..];
      InsertAscending(s[0], SortAscending(s[1..]))
  }

  /** `sorted.find(w => w >= x)` as an index, -1 when no width fits. */
  function FirstAtLeast(s: seq<real>, x: real): (i: int)
    ensures -1 <= i < |s|
    ensures i < 0 ==> forall j :: 0 <= j < |s| ==> s[j] < x
    ensures i >= 0 ==> s[i] >= x && forall j :: 0 <= j < i ==> s[j] < x
  {
    if s == [] then -1
    else if s[0] >= x then 0
    else
      var k := FirstAtLeast(s[1..], x);
      if k < 0 then -1 else k + 1
  }

  /** `sorted.find(w => w >= x) || sorted[0]`: a found width of 0 is falsy
      and also falls back to the smallest width. */
  function ChooseWidth(ws: seq<real>, x: real): real
    requires ws != []
  {
    var sorted := SortAscending(ws);
    var i := FirstAtLeast(sorted, x);
    if i >= 0 && sorted[i] != 0.0 then sorted[i] else sorted[0]
  }

  /** `w` is the smallest width that is at least `x`. */
  predicate IsLeastFit(ws: seq<real>, x: real, w: real)
  {
    w in ws && w >= x && forall v :: v in ws && v >= x ==> w <= v
  }

  predicate IsSmallest(ws: seq<real>, w: real)
  {
    w in ws && forall v :: v in ws ==> w <= v
  }

  ghost predicate HasNonzeroFit(ws: seq<real>, x: real)
  {
    exists w :: IsLeastFit(ws, x, w) && w != 0.0
  }

  /** Sorting keeps exactly the stocked widths. */
  lemma SortedMembers(ws: seq<real>)
    ensures forall v :: v in ws <==> v in SortAscending(ws)
  {
    var sorted := SortAscending(ws);
    forall v
      ensures v in ws <==> v in sorted
    {
      assert v in ws <==> v in multiset(ws);
      assert v in sorted <==> v in multiset(sorted);
    }
  }

  /** In an ascending list the first element at least `x` is the least of them. */
  lemma FirstFitIsLeast(sorted: seq<real>, x: real, i: int)
    requires Ascending(sorted) && 0 <= i < |sorted|
    requires sorted[i] >= x && forall j :: 0 <= j < i ==> sorted[j] < x
    ensures forall v :: v in sorted && v >= x ==> sorted[i] <= v
  {
    forall v | v in sorted && v >= x
      ensures sorted[i] <= v
    {
      var k :| 0 <= k < |sorted| && sorted[k] == v;
      if k < i {
        assert sorted[k] < x;
      }
    }
  }

  lemma FirstIsSmallest(sorted: seq<real>)
    requires Ascending(sorted) && sorted != []
    ensures forall v :: v in sorted ==> sorted[0] <= v
  {
    forall v | v in sorted
      ensures sorted[0] <= v
    {
      var k :| 0 <= k < |sorted| && sorted[k] == v;
      if k > 0 {
        assert sorted[0] <= sorted[k];
      }
    }
  }

  /** Two least fits are the same width. */
  lemma LeastFitUnique(ws: seq<real>, x: real, a: real, b: real)
    requires IsLeastFit(ws, x, a) && IsLeastFit(ws, x, b)
    ensures a == b
  {
  }

  /** The chosen width is the smallest stocked width that fits the screen;
      when none fits (or the fitting one is 0), it is the smallest stocked width. */
  lemma ChooseWidthIsLeastFit(ws: seq<real>, x: real)
    requires ws != []
    ensures HasNonzeroFit(ws, x) ==> IsLeastFit(ws, x, ChooseWidth(ws, x))
    ensures !HasNonzeroFit(ws, x) ==> IsSmallest(ws, ChooseWidth(ws, x))
  {
    var sorted := SortAscending(ws);
    var i := FirstAtLeast(sorted, x);
    SortedMembers(ws);
    if i >= 0 {
      FirstFitIsLeast(sorted, x, i);
      assert sorted[i] in sorted;
      assert IsLeastFit(ws, x, sorted[i]);
      if sorted[i] == 0.0 {
        forall w | IsLeastFit(ws, x, w)
          ensures w == 0.0
        {
          LeastFitUnique(ws, x, w, sorted[i]);
        }
      }
    } else {
      assert forall v :: v in ws ==> v < x;
    }
    if !(i >= 0 && sorted[i] != 0.0) {
      FirstIsSmallest(sorted);
      assert sorted[0] in sorted;
    }
  }

  /** The width used for a vent's screen: 0 without a known fabric or stocked widths. */
  function ChosenFabricWidth(fabric: Option<CurtainFabric>, screenWidth: real): real
  {
    if fabric.None? || fabric.value.widthSize == [] then 0.0
    else ChooseWidth(fabric.value.widthSize, screenWidth)
  }

  /** The screen price: the tier price of chosen width x screen length x vent quantity. */
  function ScreenPrice(fabric: Option<CurtainFabric>, screenWidth: real, screenLength: real, ventQuantity: real): Option<real>
  {
    CurtainFabricPrice(fabric, ChosenFabricWidth(fabric, screenWidth) * screenLength * ventQuantity)
  }

  /** No price for a vent's screen without the fabric named on it or
      without stocked widths. */
  lemma ScreenPriceWithoutWidths(fabric: Option<CurtainFabric>, screenWidth: real, screenLength: real, ventQuantity: real)
    requires fabric.None? || fabric.value.widthSize == []
    ensures ScreenPrice(fabric, screenWidth, screenLength, ventQuantity) == None
  {
  }

  /** A vent's screen is priced at the tier of the area covered by the least
      stocked width that fits it, over the screen's length and the vent quantity. */
  lemma ScreenPriceOfLeastFit(fabric: CurtainFabric, screenWidth: real, screenLength: real, ventQuantity: real, w: real)
    requires IsLeastFit(fabric.widthSize, screenWidth, w) && w != 0.0
    ensures ScreenPrice(Some(fabric), screenWidth, screenLength, ventQuantity) == CurtainFabricPrice(Some(fabric), w * screenLength * ventQuantity)
  {
    ChooseWidthIsLeastFit(fabric.widthSize, screenWidth);
    LeastFitUnique(fabric.widthSize, screenWidth, w, ChooseWidth(fabric.widthSize, screenWidth));
  }

  /** When no stocked width fits, the screen is priced by the smallest one. */
  lemma ScreenPriceOfSmallest(fabric: CurtainFabric, screenWidth: real, screenLength: real, ventQuantity: real, w: real)
    requires !HasNonzeroFit(fabric.widthSize, screenWidth) && IsSmallest(fabric.widthSize, w)
    ensures ScreenPrice(Some(fabric), screenWidth, screenLength, ventQuantity) == CurtainFabricPrice(Some(fabric), w * screenLength * ventQuantity)
  {
    var ws := fabric.widthSize;
    ChooseWidthIsLeastFit(ws, screenWidth);
    var chosen := ChooseWidth(ws, screenWidth);
    assert IsSmallest(ws, chosen);
    assert chosen <= w && w <= chosen;
    assert ChosenFabricWidth(Some(fabric), screenWidth) == w;
  }

  /** The insect screen a vent form submits. A missing slitting fee is `None`. */
  datatype ScreenInput = ScreenInput(kind: string, width: real, slittingFee: Option<real>)

  /** The vent payload the vent form submits to the page's add and update
      handlers. */
  datatype VentPayload = VentPayload(
    ventType: string,
    singleDouble: string,
    ventSize: real,
    ventQuantity: real,
    ventLength: real,
    atiHouse: string,
    notes: string,
    driveId: Value,
    screen: Option<ScreenInput>)

  datatype ScreenRow = ScreenRow(kind: string, quantity: real, length: real, width: real, notes: string, slittingFee: real)

  const DefaultSlittingFee := 0.22

  /** The `vent_insect_screen` fields both vent handlers send when the payload
      carries a screen. */
  function ScreenData(p: VentPayload): (r: Option<ScreenRow>)
    ensures r.Some? <==> p.screen.Some?
    ensures r.Some? ==> r.value.length == p.ventLength && r.value.kind == p.screen.value.kind
    ensures r.Some? ==> r.value.width == p.screen.value.width && r.value.notes == p.notes
    ensures r.Some? ==> r.value.slittingFee != 0.0
  {
    match p.screen
    case None => None
    case Some(s) =>
      var multiplier := if p.singleDouble == "Double" then 2.0 else 1.0;
      var fee := if s.slittingFee.Some? && s.slittingFee.value != 0.0 then s.slittingFee.value else DefaultSlittingFee;
      Some(ScreenRow(s.kind, p.ventQuantity * multiplier, p.ventLength, s.width, p.notes, fee))
  }

  /** A double vent needs twice the screens of the same vent built single, and
      a single vent one screen per vent. */
  lemma DoubleScreenQuantity(p: VentPayload)
    requires p.screen.Some?
    ensures ScreenData(p.(singleDouble := "Double")).value.quantity
            == 2.0 * ScreenData(p.(singleDouble := "Single")).value.quantity
    ensures ScreenData(p.(singleDouble := "Single")).value.quantity == p.ventQuantity
  {
  }

  /** A slitting fee that is set is kept; a missing or zero one becomes 0.22. */
  lemma SlittingFeeDefault(p: VentPayload)
    requires p.screen.Some?
    ensures p.screen.value.slittingFee.Some? && p.screen.value.slittingFee.value != 0.0
            ==> ScreenData(p).value.slittingFee == p.screen.value.slittingFee.value
    ensures p.screen.value.slittingFee.None? ==> ScreenData(p).value.slittingFee == DefaultSlittingFee
  {
  }

  /** The screen row as the columns written to `vent_insect_screen`. */
  function ScreenFields(row: ScreenRow): Record
  {
    map["type" := Str(row.kind), "quantity" := Num(row.quantity), "length" := Num(row.length),
        "width" := Num(row.width), "notes" := Str(row.notes), "slitting_fee" := Num(row.slittingFee)]
  }

  /** The vent columns `handleAddVent` inserts (with the structure id). */
  function VentColumns(p: VentPayload): Record
  {
    map["vent_type" := Str(p.ventType), "single_double" := Str(p.singleDouble), "vent_size" := Num(p.ventSize),
        "vent_quantity" := Num(p.ventQuantity), "vent_length" := Num(p.ventLength), "ati_house" := Str(p.atiHouse),
        "notes" := Str(p.notes), "drive_id" := p.driveId]
  }

  /** The vent columns `handleUpdateVent` sends as written: those of the
      insert without `drive_id`. */
  function VentUpdateColumnsAsWritten(p: VentPayload): Record
  {
    map["vent_type" := Str(p.ventType), "single_double" := Str(p.singleDouble), "vent_size" := Num(p.ventSize),
        "vent_quantity" := Num(p.ventQuantity), "vent_length" := Num(p.ventLength), "ati_house" := Str(p.atiHouse),
        "notes" := Str(p.notes)]
  }

  /** Editing a vent's drive has no effect on the update written: two
      payloads that differ only in the drive send the same columns, and the
      drive column is not among them. */
  lemma DriveChangeDropped(p: VentPayload, drive: Value)
    ensures "drive_id" !in VentUpdateColumnsAsWritten(p)
    ensures VentUpdateColumnsAsWritten(p.(driveId := drive)) == VentUpdateColumnsAsWritten(p)
  {
  }

  /** The vent columns an update evidently should send, the same as the
      insert's: they carry the chosen drive and otherwise agree with the
      update as written. */
  lemma VentColumnsCarryDrive(p: VentPayload)
    ensures "drive_id" in VentColumns(p) && VentColumns(p)["drive_id"] == p.driveId
    ensures VentColumns(p) - {"drive_id"} == VentUpdateColumnsAsWritten(p)
  {
  }

  /** The error a vent save ends with: the first failing step's message
      (the vent write, then the screen write when there is a screen, then the
      reload), or none. */
  function VentSaveError(ventFailure: Option<string>, hasScreen: bool, screenFailure: Option<string>, reload: Database.Fetch): (e: Option<string>)
    ensures e.None? <==> ventFailure.None? && (!hasScreen || screenFailure.None?) && reload.Fetched?
    ensures ventFailure.Some? ==> e == ventFailure
    ensures ventFailure.None? && hasScreen && screenFailure.Some? ==> e == screenFailure
    ensures ventFailure.None? && (!hasScreen || screenFailure.None?) && reload.FetchFailed? ==> e == Some(reload.message)
  {
    if ventFailure.Some? then ventFailure
    else if hasScreen && screenFailure.Some? then screenFailure
    else if reload.FetchFailed? then Some(reload.message)
    else None
  }

  /** `list.map(w => w[key] === id ? { ...w, ...data } : w)` */
  function MergeWhere(ws: seq<Record>, key: string, id: Value, data: Record): (r: seq<Record>)
    ensures |r| == |ws|
  {
    seq(|ws|, i requires 0 <= i < |ws| => if Get(ws[i], key) == id then ws[i] + data else ws[i])
  }

  /** Merging only touches the element with the id; the others stay as they were. */
  lemma MergeWhereTouchesOnlyId(ws: seq<Record>, key: string, id: Value, data: Record, i: int)
    requires 0 <= i < |ws|
    ensures Get(ws[i], key) != id ==> MergeWhere(ws, key, id, data)[i] == ws[i]
    ensures Get(ws[i], key) == id ==>
      forall k :: Get(MergeWhere(ws, key, id, data)[i], k) == (if k in data then data[k] else Get(ws[i], k))
  {
  }

  /** How many elements of the list carry the id under the key. */
  function Matching(ws: seq<Record>, key: string, id: Value): (n: nat)
    ensures n <= |ws|
  {
    if ws == [] then 0
    else (if Get(ws[0], key) == id then 1 else 0) + Matching(ws[1..], key, id)
  }

  /** `list.filter(w => w[key] !== id)` */
  function RemoveWhere(ws: seq<Record>, key: string, id: Value): (r: seq<Record>)
    ensures forall i :: 0 <= i < |r| ==> Get(r[i], key) != id
    ensures forall w :: w in r ==> w in ws
    ensures forall w :: w in ws && Get(w, key) != id ==> w in r
    ensures |r| == |ws| - Matching(ws, key, id)
    ensures IsSubsequence(r, ws)
  {
    if ws == [] then []
    else
      var rest := RemoveWhere(ws[1..], key, id);
      if Get(ws[0], key) == id then
        SubsequenceSkip(rest, ws);
        rest
      else
        assert ([ws[0]] + rest)[1..] == rest;
        [ws[0]] + rest
  }

  /** Deleting removes exactly the elements with the id, keeping the order of
      the rest: a list without the id is returned whole. */
  lemma {:induction false} RemoveWhereAbsent(ws: seq<Record>, key: string, id: Value)
    requires forall i :: 0 <= i < |ws| ==> Get(ws[i], key) != id
    ensures RemoveWhere(ws, key, id) == ws
  {
    if ws != [] {
      RemoveWhereAbsent(ws[1..], key, id);
    }
  }

  /** The structure the page shows and edits: the structure's row with the
      user's entry spread over it, less the entry's own `structure_id`. */
  function CombinedStructure(structureRow: Record, userEntry: Record): (r: Record)
    ensures Get(r, "structure_id") == Get(structureRow, "structure_id")
    ensures forall k :: k != "structure_id" ==> Get(r, k) == (if k in userEntry then userEntry[k] else Get(structureRow, k))
  {
    structureRow + (userEntry - {"structure_id"})
  }

  /** The project page's local state. */
  class ProjectPage {
    var vents: seq<Record>
    var rollupWalls: seq<Record>
    var dropWalls: seq<Record>
    var editedStructure: Option<Record>
    var error: Option<string>
    var loading: bool

    /** The page before anything has loaded. */
    constructor ()
      ensures vents == [] && rollupWalls == [] && dropWalls == []
      ensures editedStructure == None && error == None && loading
    {
      vents, rollupWalls, dropWalls := [], [], [];
      editedStructure, error, loading := None, None, true;
    }

    /** `fetchStructure`: the user's entry, then its structure, then the
        vents, roll-up walls and drop walls, each step only after the one
        before succeeded. Once both structure rows are in, the combined
        structure is the one being edited; each list takes its rows
        (`data || []`); the first failure's message is shown. Loading ends
        either way. */
    method FetchStructure(userEntry: Database.Single, structureRow: Database.Single,
                          ventAnswer: Database.Fetch, wallAnswer: Database.Fetch, dropWallAnswer: Database.Fetch)
      modifies this
      ensures !loading
      ensures userEntry.SingleFailed? ==>
        error == Some(userEntry.message) && editedStructure == old(editedStructure)
        && vents == old(vents) && rollupWalls == old(rollupWalls) && dropWalls == old(dropWalls)
      ensures userEntry.Found? && structureRow.SingleFailed? ==>
        error == Some(structureRow.message) && editedStructure == old(editedStructure)
        && vents == old(vents) && rollupWalls == old(rollupWalls) && dropWalls == old(dropWalls)
      ensures userEntry.Found? && structureRow.Found? ==>
        editedStructure == Some(CombinedStructure(structureRow.row, userEntry.row))
      ensures userEntry.Found? && structureRow.Found? && ventAnswer.FetchFailed? ==>
        error == Some(ventAnswer.message) && vents == old(vents) && rollupWalls == old(rollupWalls) && dropWalls == old(dropWalls)
      ensures userEntry.Found? && structureRow.Found? && ventAnswer.Fetched? ==> vents == Database.RowsOr(ventAnswer.data)
      ensures userEntry.Found? && structureRow.Found? && ventAnswer.Fetched? && wallAnswer.FetchFailed? ==>
        error == Some(wallAnswer.message) && rollupWalls == old(rollupWalls) && dropWalls == old(dropWalls)
      ensures userEntry.Found? && structureRow.Found? && ventAnswer.Fetched? && wallAnswer.Fetched? ==>
        rollupWalls == Database.RowsOr(wallAnswer.data)
      ensures userEntry.Found? && structureRow.Found? && ventAnswer.Fetched? && wallAnswer.Fetched? && dropWallAnswer.FetchFailed? ==>
        error == Some(dropWallAnswer.message) && dropWalls == old(dropWalls)
      ensures userEntry.Found? && structureRow.Found? && ventAnswer.Fetched? && wallAnswer.Fetched? && dropWallAnswer.Fetched? ==>
        dropWalls == Database.RowsOr(dropWallAnswer.data) && error == old(error)
    {
      loading := false;
      if userEntry.SingleFailed? {
        error := Some(userEntry.message);
        return;
      }
      if structureRow.SingleFailed? {
        error := Some(structureRow.message);
        return;
      }
      editedStructure := Some(CombinedStructure(structureRow.row, userEntry.row));
      if ventAnswer.FetchFailed? {
        error := Some(ventAnswer.message);
        return;
      }
      vents := Database.RowsOr(ventAnswer.data);
      if wallAnswer.FetchFailed? {
        error := Some(wallAnswer.message);
        return;
      }
      rollupWalls := Database.RowsOr(wallAnswer.data);
      if dropWallAnswer.FetchFailed? {
        error := Some(dropWallAnswer.message);
        return;
      }
      dropWalls := Database.RowsOr(dropWallAnswer.data);
    }

    /** `handleInputChange`: nothing without an edited structure; otherwise
        only the named field changes. */
    method HandleInputChange(e: InputEvent)
      modifies this
      ensures old(editedStructure).None? ==> editedStructure == None
      ensures old(editedStructure).Some? ==> editedStructure == Some(Set(old(editedStructure).value, e.name, NumberOrText(e)))
      ensures vents == old(vents) && rollupWalls == old(rollupWalls) && dropWalls == old(dropWalls) && error == old(error)
      ensures loading == old(loading)
    {
      if editedStructure.Some? {
        editedStructure := Some(Set(editedStructure.value, e.name, NumberOrText(e)));
      }
    }

    /** `handleAddRollupWall`: the wall is inserted with the structure id,
        and the row the server returns goes at the end. A failed insert
        shows its message (`failure`). */
    method AddRollupWall(structureId: Value, wallData: Record, failure: Option<string>, inserted: Record) returns (write: Database.Write)
      modifies this
      ensures write == Database.Insert(Set(wallData, "structure_id", structureId))
      ensures failure.None? ==> rollupWalls == old(rollupWalls) + [inserted] && error == old(error)
      ensures failure.Some? ==> rollupWalls == old(rollupWalls) && error == failure
      ensures vents == old(vents) && dropWalls == old(dropWalls) && editedStructure == old(editedStructure) && loading == old(loading)
    {
      write := Database.Insert(Set(wallData, "structure_id", structureId));
      if failure.None? {
        rollupWalls := rollupWalls + [inserted];
      } else {
        error := failure;
      }
    }

    /** `handleUpdateRollupWall`: the new data is merged into the wall with the id. */
    method UpdateRollupWall(wallId: Value, wallData: Record, failure: Option<string>) returns (write: Database.Write)
      modifies this
      ensures write == Database.Update("rollup_wall_id", wallId, wallData)
      ensures failure.None? ==> rollupWalls == MergeWhere(old(rollupWalls), "rollup_wall_id", wallId, wallData) && error == old(error)
      ensures failure.Some? ==> rollupWalls == old(rollupWalls) && error == failure
      ensures vents == old(vents) && dropWalls == old(dropWalls) && editedStructure == old(editedStructure) && loading == old(loading)
    {
      write := Database.Update("rollup_wall_id", wallId, wallData);
      if failure.None? {
        rollupWalls := MergeWhere(rollupWalls, "rollup_wall_id", wallId, wallData);
      } else {
        error := failure;
      }
    }

    /** `handleDeleteRollupWall`: nothing unless confirmed; then the walls with the id go. */
    method DeleteRollupWall(wallId: Value, confirmed: bool, failure: Option<string>)
      modifies this
      ensures confirmed && failure.None? ==> rollupWalls == RemoveWhere(old(rollupWalls), "rollup_wall_id", wallId) && error == old(error)
      ensures !confirmed ==> rollupWalls == old(rollupWalls) && error == old(error)
      ensures confirmed && failure.Some? ==> rollupWalls == old(rollupWalls) && error == failure
      ensures vents == old(vents) && dropWalls == old(dropWalls) && editedStructure == old(editedStructure) && loading == old(loading)
    {
      if confirmed {
        if failure.None? {
          rollupWalls := RemoveWhere(rollupWalls, "rollup_wall_id", wallId);
        } else {
          error := failure;
        }
      }
    }

    /** `handleAddDropWall` */
    method AddDropWall(structureId: Value, wallData: Record, failure: Option<string>, inserted: Record) returns (write: Database.Write)
      modifies this
      ensures write == Database.Insert(Set(wallData, "structure_id", structureId))
      ensures failure.None? ==> dropWalls == old(dropWalls) + [inserted] && error == old(error)
      ensures failure.Some? ==> dropWalls == old(dropWalls) && error == failure
      ensures vents == old(vents) && rollupWalls == old(rollupWalls) && editedStructure == old(editedStructure) && loading == old(loading)
    {
      write := Database.Insert(Set(wallData, "structure_id", structureId));
      if failure.None? {
        dropWalls := dropWalls + [inserted];
      } else {
        error := failure;
      }
    }

    /** `handleUpdateDropWall` */
    method UpdateDropWall(wallId: Value, wallData: Record, failure: Option<string>) returns (write: Database.Write)
      modifies this
      ensures write == Database.Update("drop_wall_id", wallId, wallData)
      ensures failure.None? ==> dropWalls == MergeWhere(old(dropWalls), "drop_wall_id", wallId, wallData) && error == old(error)
      ensures failure.Some? ==> dropWalls == old(dropWalls) && error == failure
      ensures vents == old(vents) && rollupWalls == old(rollupWalls) && editedStructure == old(editedStructure) && loading == old(loading)
    {
      write := Database.Update("drop_wall_id", wallId, wallData);
      if failure.None? {
        dropWalls := MergeWhere(dropWalls, "drop_wall_id", wallId, wallData);
      } else {
        error := failure;
      }
    }

    /** `handleDeleteDropWall` */
    method DeleteDropWall(wallId: Value, confirmed: bool, failure: Option<string>)
      modifies this
      ensures confirmed && failure.None? ==> dropWalls == RemoveWhere(old(dropWalls), "drop_wall_id", wallId) && error == old(error)
      ensures !confirmed ==> dropWalls == old(dropWalls) && error == old(error)
      ensures confirmed && failure.Some? ==> dropWalls == old(dropWalls) && error == failure
      ensures vents == old(vents) && rollupWalls == old(rollupWalls) && editedStructure == old(editedStructure) && loading == old(loading)
    {
      if confirmed {
        if failure.None? {
          dropWalls := RemoveWhere(dropWalls, "drop_wall_id", wallId);
        } else {
          error := failure;
        }
      }
    }

    /** `handleDeleteVent` */
    method DeleteVent(ventId: Value, confirmed: bool, failure: Option<string>)
      modifies this
      ensures confirmed && failure.None? ==> vents == RemoveWhere(old(vents), "vent_id", ventId) && error == old(error)
      ensures !confirmed ==> vents == old(vents) && error == old(error)
      ensures confirmed && failure.Some? ==> vents == old(vents) && error == failure
      ensures rollupWalls == old(rollupWalls) && dropWalls == old(dropWalls) && editedStructure == old(editedStructure) && loading == old(loading)
    {
      if confirmed {
        if failure.None? {
          vents := RemoveWhere(vents, "vent_id", ventId);
        } else {
          error := failure;
        }
      }
    }

    /** `handleAddVent`: the vent is inserted; only once that succeeded is
        its screen, if any, inserted under the new vent's id; then the
        vents are reloaded (`data || []`). The first failing step's message
        is shown and the list kept. */
    method AddVent(structureId: Value, payload: VentPayload, ventFailure: Option<string>, newVentId: Value,
                   screenFailure: Option<string>, reload: Database.Fetch)
      returns (ventWrite: Database.Write, screenWrite: Option<Database.Write>)
      modifies this
      ensures ventWrite == Database.Insert(Set(VentColumns(payload), "structure_id", structureId))
      ensures screenWrite.Some? <==> ventFailure.None? && payload.screen.Some?
      ensures screenWrite.Some? ==> screenWrite.value == Database.Insert(Set(ScreenFields(ScreenData(payload).value), "vent_id", newVentId))
      ensures error == VentSaveError(ventFailure, payload.screen.Some?, screenFailure, reload)
      ensures error.None? ==> vents == Database.RowsOr(reload.data)
      ensures error.Some? ==> vents == old(vents)
      ensures rollupWalls == old(rollupWalls) && dropWalls == old(dropWalls) && editedStructure == old(editedStructure) && loading == old(loading)
    {
      error := None;
      ventWrite := Database.Insert(Set(VentColumns(payload), "structure_id", structureId));
      screenWrite := None;
      if ventFailure.Some? {
        error := ventFailure;
        return;
      }
      if payload.screen.Some? {
        screenWrite := Some(Database.Insert(Set(ScreenFields(ScreenData(payload).value), "vent_id", newVentId)));
        if screenFailure.Some? {
          error := screenFailure;
          return;
        }
      }
      match reload
      case FetchFailed(message) => error := Some(message);
      case Fetched(data) => vents := Database.RowsOr(data);
    }

    /** `handleUpdateVent`: the vent row with the id is updated; only once
        that succeeded is the screen row with the vent's id updated, when the
        payload has a screen; then the vents are reloaded. The vent update
        carries the chosen drive (see `DriveChangeDropped` for the handler as
        written). */
    method UpdateVent(ventId: Value, payload: VentPayload, ventFailure: Option<string>,
                      screenFailure: Option<string>, reload: Database.Fetch)
      returns (ventWrite: Database.Write, screenWrite: Option<Database.Write>)
      modifies this
      ensures ventWrite == Database.Update("vent_id", ventId, VentColumns(payload))
      ensures screenWrite.Some? <==> ventFailure.None? && payload.screen.Some?
      ensures screenWrite.Some? ==> screenWrite.value == Database.Update("vent_id", ventId, ScreenFields(ScreenData(payload).value))
      ensures error == VentSaveError(ventFailure, payload.screen.Some?, screenFailure, reload)
      ensures error.None? ==> vents == Database.RowsOr(reload.data)
      ensures error.Some? ==> vents == old(vents)
      ensures rollupWalls == old(rollupWalls) && dropWalls == old(dropWalls) && editedStructure == old(editedStructure) && loading == old(loading)
    {
      error := None;
      ventWrite := Database.Update("vent_id", ventId, VentColumns(payload));
      screenWrite := None;
      if ventFailure.Some? {
        error := ventFailure;
        return;
      }
      if payload.screen.Some? {
        screenWrite := Some(Database.Update("vent_id", ventId, ScreenFields(ScreenData(payload).value)));
        if screenFailure.Some? {
          error := screenFailure;
          return;
        }
      }
      match reload
      case FetchFailed(message) => error := Some(message);
      case Fetched(data) => vents := Database.RowsOr(data);
    }
  }
}
