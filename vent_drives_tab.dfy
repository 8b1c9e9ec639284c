/**
 * The vent drives settings tab (src/components/settings/VentDrivesTab.tsx):
 * the defaults filled in when drives are loaded, the five-field record a
 * save sends, how the length and compatible-structure inputs are read, and
 * the two-step delete with its confirmation dialog. The database and the
 * session check are parameters.
 */
module VentDrivesTab {
  import opened JsText
  import opened JsValue
  import opened Database

  /** `VENT_TYPES` */
  const VentTypes := ["Continental Roof", "Gothic Roof", "Insulator Roof", "Oxnard Vent", "Pad Vent", "Solar Light Roof", "Wall Vent"]

  /** `DRIVE_TYPES` */
  const DriveTypes := ["Motorized", "Manual"]

  /** The form a new drive starts from: the initial form, the New button's
      and the one a save leaves. */
  const DefaultDriveForm: Record := map[
    "drive_type" := Str("Motorized"),
    "vent_type" := Str("Continental Roof"),
    "motor_specifications" := Str(""),
    "compatible_structures" := Strs([]),
    "vent_size" := Num(160.0)]

  /** A loaded drive: a falsy size becomes 160 feet and missing compatible
      structures become the empty list. */
  function LoadedDrive(d: Record): (r: Record)
    ensures forall k :: k != "vent_size" && k != "compatible_structures" ==> Get(r, k) == Get(d, k)
  {
    var sized := Set(d, "vent_size", Or(Get(d, "vent_size"), Num(160.0)));
    Set(sized, "compatible_structures", Or(Get(d, "compatible_structures"), Strs([])))
  }

  lemma LoadedDriveSpec(d: Record)
    ensures Truthy(Get(d, "vent_size")) ==> Get(LoadedDrive(d), "vent_size") == Get(d, "vent_size")
    ensures !Truthy(Get(d, "vent_size")) ==> Get(LoadedDrive(d), "vent_size") == Num(160.0)
    ensures Truthy(Get(d, "compatible_structures")) ==> Get(LoadedDrive(d), "compatible_structures") == Get(d, "compatible_structures")
    ensures !Truthy(Get(d, "compatible_structures")) ==> Get(LoadedDrive(d), "compatible_structures") == Strs([])
  {
    assert "vent_size" != "compatible_structures";
  }

  /** `(data || []).map(...)` */
  function LoadedDrives(data: Option<seq<Record>>): (r: seq<Record>)
    ensures |r| == |RowsOr(data)|
    ensures forall i :: 0 <= i < |r| ==> r[i] == LoadedDrive(RowsOr(data)[i])
  {
    var rows := RowsOr(data);
    seq(|rows|, i requires 0 <= i < |rows| => LoadedDrive(rows[i]))
  }

  /** The defaults a save fills in for falsy fields. */
  const SubmitDefaults: Record := map[
    "drive_type" := Str("Motorized"),
    "vent_type" := Str("Continental Roof"),
    "motor_specifications" := Str(""),
    "compatible_structures" := Strs([]),
    "vent_size" := Num(0.0)]

  /** `baseData`: the five fields a save sends, each the form's value or,
      when that is falsy, its default. */
  function SubmitPayload(form: Record): (r: Record)
    ensures r.Keys == SubmitDefaults.Keys
  {
    map k | k in SubmitDefaults :: Or(Get(form, k), SubmitDefaults[k])
  }

  /** A save sends exactly the five fields, never the id or the creation
      time. */
  lemma SubmitPayloadKeys(form: Record)
    ensures SubmitPayload(form).Keys == {"drive_type", "vent_type", "motor_specifications", "compatible_structures", "vent_size"}
    ensures "drive_id" !in SubmitPayload(form) && "created_at" !in SubmitPayload(form)
  {
  }

  /** A falsy size is sent as 0, falsy structures as none and a falsy drive
      type as Motorized; truthy values are sent as they are. */
  lemma SubmitPayloadSpec(form: Record)
    ensures Get(SubmitPayload(form), "vent_size") == Or(Get(form, "vent_size"), Num(0.0))
    ensures Get(SubmitPayload(form), "compatible_structures") == Or(Get(form, "compatible_structures"), Strs([]))
    ensures Get(SubmitPayload(form), "drive_type") == Or(Get(form, "drive_type"), Str("Motorized"))
  {
  }

  /** The other two defaults. */
  lemma SubmitPayloadTexts(form: Record)
    ensures Get(SubmitPayload(form), "vent_type") == Or(Get(form, "vent_type"), Str("Continental Roof"))
    ensures Get(SubmitPayload(form), "motor_specifications") == Or(Get(form, "motor_specifications"), Str(""))
  {
  }

  /** A drive stored without a size is shown as 160 feet, but a form whose
      size was cleared saves 0. */
  lemma SizeDefaultsDiffer(d: Record, form: Record)
    requires !Truthy(Get(d, "vent_size")) && !Truthy(Get(form, "vent_size"))
    ensures Get(LoadedDrive(d), "vent_size") == Num(160.0)
    ensures Get(SubmitPayload(form), "vent_size") == Num(0.0)
  {
    LoadedDriveSpec(d);
    SubmitPayloadSpec(form);
  }

  /** The maximum length input: '' clears the size, anything else is
      `Number(val)`. */
  function SizeInput(val: string): (r: Value)
    ensures val == "" ==> r == Undefined
    ensures val != "" ==> r.Num? || r.NaN?
  {
    if val == "" then Undefined else NumberOf(val)
  }

  /** The compatible-structures input: '' is no structures; otherwise every
      comma-separated piece, trimmed, empty pieces kept. */
  function StructuresInput(value: string): (r: seq<string>)
    ensures value == "" ==> r == []
  {
    if value == "" then [] else TrimAll(SplitOn(value, ','))
  }

  /** Outside '', there is one structure more than there are commas, and
      each is the trimmed piece between commas. */
  lemma StructuresInputSpec(value: string)
    requires value != ""
    ensures |StructuresInput(value)| == Count(value, ',') + 1
    ensures forall i :: 0 <= i < |StructuresInput(value)| ==> StructuresInput(value)[i] == Trim(SplitOn(value, ',')[i])
  {
    SplitCount(value, ',');
  }

  /** The input shows `compatible_structures.join(', ')`; reading it back
      gives the same list when each name is trimmed and free of commas
      (the one list it cannot give back is `['']`, shown as ''). */
  lemma StructuresRoundTrip(xs: seq<string>)
    requires xs != [""]
    requires forall i :: 0 <= i < |xs| ==> Trim(xs[i]) == xs[i] && ',' !in xs[i]
    ensures StructuresInput(JoinCommaSpace(xs)) == xs
  {
    if xs != [] {
      assert JoinCommaSpace(xs) != "" by {
        if |xs| > 1 {
          assert JoinCommaSpace(xs) == xs[0] + ", " + JoinCommaSpace(xs[1..]);
        }
      }
      SplitTrimJoin(xs);
    }
  }

  /** What `supabase.auth.getSession()` answered. */
  datatype Session = AuthFailed(message: string) | SignedOut | SignedIn

  const SignedOutMessage := "You must be logged in to delete items"

  /** The tab's state. */
  class VentDrivesTabState {
    var drives: seq<Record>
    var loading: bool
    var error: Option<string>
    var showForm: bool
    var editingDrive: Option<Record>
    var formData: Record
    var showDeleteConfirm: bool
    var pendingDeleteId: Option<string>

    constructor ()
      ensures drives == [] && loading && error == None && !showForm && editingDrive == None
      ensures formData == DefaultDriveForm && !showDeleteConfirm && pendingDeleteId == None
    {
      drives := [];
      loading := true;
      error := None;
      showForm := false;
      editingDrive := None;
      formData := DefaultDriveForm;
      showDeleteConfirm := false;
      pendingDeleteId := None;
    }

    /** `loadDrives` */
    method Load(answer: Fetch)
      modifies this
      ensures answer.Fetched? ==> drives == LoadedDrives(answer.data) && error == old(error)
      ensures answer.FetchFailed? ==> drives == old(drives) && error == Some(answer.message)
      ensures !loading
      ensures showForm == old(showForm) && editingDrive == old(editingDrive) && formData == old(formData)
      ensures showDeleteConfirm == old(showDeleteConfirm) && pendingDeleteId == old(pendingDeleteId)
    {
      match answer {
        case Fetched(data) => drives := LoadedDrives(data);
        case FetchFailed(message) => error := Some(message);
      }
      loading := false;
    }

    /** `handleSubmit`: sends the five-field record as an update of the
        drive being edited or as an insert. */
    method Submit(failure: Option<string>, reload: Fetch) returns (write: Write)
      modifies this
      ensures old(editingDrive).Some? ==> write == Update("drive_id", Get(old(editingDrive).value, "drive_id"), SubmitPayload(old(formData)))
      ensures old(editingDrive).None? ==> write == Insert(SubmitPayload(old(formData)))
      ensures failure.Some? ==> error == failure && drives == old(drives) && loading == old(loading)
      ensures failure.Some? ==> showForm == old(showForm) && editingDrive == old(editingDrive) && formData == old(formData)
      ensures failure.None? && reload.Fetched? ==> drives == LoadedDrives(reload.data) && error == None
      ensures failure.None? && reload.FetchFailed? ==> drives == old(drives) && error == Some(reload.message)
      ensures failure.None? ==> !showForm && editingDrive == None && formData == DefaultDriveForm && !loading
      ensures showDeleteConfirm == old(showDeleteConfirm) && pendingDeleteId == old(pendingDeleteId)
    {
      error := None;
      var payload := SubmitPayload(formData);
      if editingDrive.Some? {
        write := Update("drive_id", Get(editingDrive.value, "drive_id"), payload);
      } else {
        write := Insert(payload);
      }
      if failure.Some? {
        error := failure;
        return;
      }
      Load(reload);
      showForm := false;
      editingDrive := None;
      formData := DefaultDriveForm;
    }

    /** `handleDelete`: only asks for confirmation. */
    method AskDelete(driveId: string)
      modifies this
      ensures pendingDeleteId == Some(driveId) && showDeleteConfirm
      ensures drives == old(drives) && loading == old(loading) && error == old(error)
      ensures showForm == old(showForm) && editingDrive == old(editingDrive) && formData == old(formData)
    {
      pendingDeleteId := Some(driveId);
      showDeleteConfirm := true;
    }

    /** `cancelDelete` */
    method CancelDelete()
      modifies this
      ensures pendingDeleteId == None && !showDeleteConfirm
      ensures drives == old(drives) && loading == old(loading) && error == old(error)
      ensures showForm == old(showForm) && editingDrive == old(editingDrive) && formData == old(formData)
    {
      showDeleteConfirm := false;
      pendingDeleteId := None;
    }

    /** `confirmDelete`: with no pending id (null or '') nothing happens.
        Otherwise the session is checked, the delete is sent only when
        signed in (`deleted`), its error or the reload follows, and in every
        case the dialog closes and the pending id is cleared. */
    method ConfirmDelete(session: Session, failure: Option<string>, reload: Fetch) returns (deleted: Option<string>)
      modifies this
      ensures old(pendingDeleteId).None? || old(pendingDeleteId) == Some("") ==>
        deleted == None && pendingDeleteId == old(pendingDeleteId) && showDeleteConfirm == old(showDeleteConfirm)
        && drives == old(drives) && error == old(error) && loading == old(loading)
      ensures old(pendingDeleteId).Some? && old(pendingDeleteId) != Some("") ==> pendingDeleteId == None && !showDeleteConfirm
      ensures deleted.Some? <==> old(pendingDeleteId).Some? && old(pendingDeleteId) != Some("") && session.SignedIn?
      ensures deleted.Some? ==> deleted == old(pendingDeleteId)
      ensures old(pendingDeleteId).Some? && old(pendingDeleteId) != Some("") && session.AuthFailed? ==>
        error == Some("Authentication error: " + session.message) && drives == old(drives)
      ensures old(pendingDeleteId).Some? && old(pendingDeleteId) != Some("") && session.SignedOut? ==>
        error == Some(SignedOutMessage) && drives == old(drives)
      ensures deleted.Some? && failure.Some? ==> error == Some("Failed to delete: " + failure.value) && drives == old(drives)
      ensures deleted.Some? && failure.None? && reload.Fetched? ==> drives == LoadedDrives(reload.data) && error == old(error)
      ensures deleted.Some? && failure.None? && reload.FetchFailed? ==> drives == old(drives) && error == Some(reload.message)
      ensures deleted.Some? && failure.None? ==> !loading
      ensures !(deleted.Some? && failure.None?) ==> loading == old(loading)
      ensures showForm == old(showForm) && editingDrive == old(editingDrive) && formData == old(formData)
    {
      deleted := None;
      if pendingDeleteId.None? || pendingDeleteId.value == "" {
        return;
      }
      match session {
        case AuthFailed(message) =>
          error := Some("Authentication error: " + message);
        case SignedOut =>
          error := Some(SignedOutMessage);
        case SignedIn =>
          deleted := pendingDeleteId;
          if failure.Some? {
            error := Some("Failed to delete: " + failure.value);
          } else {
            Load(reload);
          }
      }
      showDeleteConfirm := false;
      pendingDeleteId := None;
    }

    /** `handleEdit`: the whole drive is copied into the form. */
    method Edit(drive: Record)
      modifies this
      ensures editingDrive == Some(drive) && formData == drive && showForm
      ensures drives == old(drives) && loading == old(loading) && error == old(error)
      ensures showDeleteConfirm == old(showDeleteConfirm) && pendingDeleteId == old(pendingDeleteId)
    {
      editingDrive := Some(drive);
      formData := drive;
      showForm := true;
    }

    /** The New button. */
    method New()
      modifies this
      ensures editingDrive == None && formData == DefaultDriveForm && showForm
      ensures drives == old(drives) && loading == old(loading) && error == old(error)
      ensures showDeleteConfirm == old(showDeleteConfirm) && pendingDeleteId == old(pendingDeleteId)
    {
      editingDrive := None;
      formData := DefaultDriveForm;
      showForm := true;
    }

    /** The close and Cancel buttons. */
    method Cancel()
      modifies this
      ensures editingDrive == None && !showForm
      ensures drives == old(drives) && loading == old(loading) && error == old(error) && formData == old(formData)
      ensures showDeleteConfirm == old(showDeleteConfirm) && pendingDeleteId == old(pendingDeleteId)
    {
      showForm := false;
      editingDrive := None;
    }

    /** The drive type, vent type and motor inputs store the text. */
    method ChangeText(field: string, value: string)
      requires field == "drive_type" || field == "vent_type" || field == "motor_specifications"
      modifies this
      ensures formData == Set(old(formData), field, Str(value))
      ensures drives == old(drives) && loading == old(loading) && error == old(error)
      ensures showForm == old(showForm) && editingDrive == old(editingDrive)
      ensures showDeleteConfirm == old(showDeleteConfirm) && pendingDeleteId == old(pendingDeleteId)
    {
      formData := Set(formData, field, Str(value));
    }

    /** The maximum length input. */
    method ChangeSize(val: string)
      modifies this
      ensures formData == Set(old(formData), "vent_size", SizeInput(val))
      ensures drives == old(drives) && loading == old(loading) && error == old(error)
      ensures showForm == old(showForm) && editingDrive == old(editingDrive)
      ensures showDeleteConfirm == old(showDeleteConfirm) && pendingDeleteId == old(pendingDeleteId)
    {
      formData := Set(formData, "vent_size", SizeInput(val));
    }

    /** The compatible structures input. */
    method ChangeStructures(value: string)
      modifies this
      ensures formData == Set(old(formData), "compatible_structures", Strs(StructuresInput(value)))
      ensures drives == old(drives) && loading == old(loading) && error == old(error)
      ensures showForm == old(showForm) && editingDrive == old(editingDrive)
      ensures showDeleteConfirm == old(showDeleteConfirm) && pendingDeleteId == old(pendingDeleteId)
    {
      formData := Set(formData, "compatible_structures", Strs(StructuresInput(value)));
    }
  }
}
