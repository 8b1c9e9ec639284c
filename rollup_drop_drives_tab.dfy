/**
 * The roll-up and drop wall drives settings tab
 * (src/components/settings/RollupDropDrivesTab.tsx): the form a new drive
 * starts from, the save that sends the form as it stands, the delete behind
 * a confirmation, editing, and the length and compatible-structure inputs,
 * which are read as on the vent drives tab. The database and the browser's
 * confirmation dialog are parameters.
 */
module RollupDropDrivesTab {
  import opened JsValue
  import opened Database
  import VentDrivesTab

  /** `WALL_TYPES` */
  const WallTypes := ["Roll-up Wall", "Drop Wall"]

  /** `DRIVE_TYPES` */
  const DriveTypes := ["Motorized", "Manual"]

  /** The form of a new drive: the initial form, the New button's and the
      one a save leaves. */
  const DefaultDriveForm: Record := map[
    "drive_type" := Str("Motorized"),
    "wall_type" := Str("Roll-up Wall"),
    "motor_model" := Str(""),
    "max_length" := Num(0.0),
    "compatible_structures" := Strs([])]

  /** The tab's state. */
  class RollupDropDrivesTabState {
    var drives: seq<Record>
    var loading: bool
    var error: Option<string>
    var showForm: bool
    var editingDrive: Option<Record>
    var formData: Record

    constructor ()
      ensures drives == [] && loading && error == None && !showForm && editingDrive == None
      ensures formData == DefaultDriveForm
    {
      drives := [];
      loading := true;
      error := None;
      showForm := false;
      editingDrive := None;
      formData := DefaultDriveForm;
    }

    /** `loadDrives`: the rows as they come (none for a null answer). */
    method Load(answer: Fetch)
      modifies this
      ensures answer.Fetched? ==> drives == RowsOr(answer.data) && error == old(error)
      ensures answer.FetchFailed? ==> drives == old(drives) && error == Some(answer.message)
      ensures !loading
      ensures showForm == old(showForm) && editingDrive == old(editingDrive) && formData == old(formData)
    {
      match answer {
        case Fetched(data) => drives := RowsOr(data);
        case FetchFailed(message) => error := Some(message);
      }
      loading := false;
    }

    /** `handleSubmit`: the form is sent as it stands, as an update of the
        drive being edited or as an insert; after a save the form is closed
        and reset to the New button's defaults. */
    method Submit(failure: Option<string>, reload: Fetch) returns (write: Write)
      modifies this
      ensures old(editingDrive).Some? ==> write == Update("drive_id", Get(old(editingDrive).value, "drive_id"), old(formData))
      ensures old(editingDrive).None? ==> write == Insert(old(formData))
      ensures failure.Some? ==> error == failure && drives == old(drives) && loading == old(loading)
      ensures failure.Some? ==> showForm == old(showForm) && editingDrive == old(editingDrive) && formData == old(formData)
      ensures failure.None? && reload.Fetched? ==> drives == RowsOr(reload.data) && error == None
      ensures failure.None? && reload.FetchFailed? ==> drives == old(drives) && error == Some(reload.message)
      ensures failure.None? ==> !showForm && editingDrive == None && formData == DefaultDriveForm && !loading
    {
      error := None;
      if editingDrive.Some? {
        write := Update("drive_id", Get(editingDrive.value, "drive_id"), formData);
      } else {
        write := Insert(formData);
      }
      if failure.Some? {
        error := failure;
        return;
      }
      Load(reload);
      showForm := false;
      editingDrive := None;
      formData := DefaultDriveForm;
    }

    /** `handleDelete`: nothing happens unless the user confirms; then the
        drive is deleted (`deleted`) and the list reloaded, or the error shown. */
    method Delete(driveId: string, confirmed: bool, failure: Option<string>, reload: Fetch) returns (deleted: Option<string>)
      modifies this
      ensures deleted.Some? <==> confirmed
      ensures deleted.Some? ==> deleted.value == driveId
      ensures !confirmed ==> drives == old(drives) && error == old(error) && loading == old(loading)
      ensures confirmed && failure.Some? ==> error == failure && drives == old(drives) && loading == old(loading)
      ensures confirmed && failure.None? && reload.Fetched? ==> drives == RowsOr(reload.data) && error == old(error)
      ensures confirmed && failure.None? && reload.FetchFailed? ==> drives == old(drives) && error == Some(reload.message)
      ensures confirmed && failure.None? ==> !loading
      ensures showForm == old(showForm) && editingDrive == old(editingDrive) && formData == old(formData)
    {
      if !confirmed {
        return None;
      }
      deleted := Some(driveId);
      if failure.Some? {
        error := failure;
      } else {
        Load(reload);
      }
    }

    /** `handleEdit`: the drive is copied into the form unchanged. */
    method Edit(drive: Record)
      modifies this
      ensures editingDrive == Some(drive) && formData == drive && showForm
      ensures drives == old(drives) && loading == old(loading) && error == old(error)
    {
      editingDrive := Some(drive);
      formData := drive;
      showForm := true;
    }

    /** The New Drive button. */
    method New()
      modifies this
      ensures editingDrive == None && formData == DefaultDriveForm && showForm
      ensures drives == old(drives) && loading == old(loading) && error == old(error)
    {
      editingDrive := None;
      formData := DefaultDriveForm;
      showForm := true;
    }

    /** The close and Cancel buttons. */
    method Cancel()
      modifies this
      ensures editingDrive == None && !showForm
      ensures drives == old(drives) && loading == old(loading) && error == old(error) && formData == old(formData)
    {
      showForm := false;
      editingDrive := None;
    }

    /** The drive type, wall type and motor model inputs store the text. */
    method ChangeText(field: string, value: string)
      requires field == "drive_type" || field == "wall_type" || field == "motor_model"
      modifies this
      ensures formData == Set(old(formData), field, Str(value))
      ensures drives == old(drives) && loading == old(loading) && error == old(error)
      ensures showForm == old(showForm) && editingDrive == old(editingDrive)
    {
      formData := Set(formData, field, Str(value));
    }

    /** The maximum length input: '' clears it, anything else is `Number(val)`. */
    method ChangeLength(val: string)
      modifies this
      ensures formData == Set(old(formData), "max_length", VentDrivesTab.SizeInput(val))
      ensures drives == old(drives) && loading == old(loading) && error == old(error)
      ensures showForm == old(showForm) && editingDrive == old(editingDrive)
    {
      formData := Set(formData, "max_length", VentDrivesTab.SizeInput(val));
    }

    /** The compatible structures input: '' is none, otherwise every trimmed
        comma-separated piece. */
    method ChangeStructures(value: string)
      modifies this
      ensures formData == Set(old(formData), "compatible_structures", Strs(VentDrivesTab.StructuresInput(value)))
      ensures drives == old(drives) && loading == old(loading) && error == old(error)
      ensures showForm == old(showForm) && editingDrive == old(editingDrive)
    {
      formData := Set(formData, "compatible_structures", Strs(VentDrivesTab.StructuresInput(value)));
    }
  }
}
