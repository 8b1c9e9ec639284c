/**
 * What the settings tabs receive from the database client
 * (`supabase.from(...)`): the queries themselves are not modelled, only
 * their answers, which the tabs' operations take as parameters, and the
 * writes the tabs send.
 */
module Database {
  import opened JsValue

  /** What a select returned: its rows (`data`, possibly null) or the
      message of its error. */
  datatype Fetch = Fetched(data: Option<seq<Record>>) | FetchFailed(message: string)

  /** What a `.single()` select returned: its one row, or the message of
      its error (which is also what a missing row gives). */
  datatype Single = Found(row: Record) | SingleFailed(message: string)

  /** `data || []` */
  function RowsOr(data: Option<seq<Record>>): seq<Record>
  {
    if data.Some? then data.value else []
  }

  /** The write a save sends: an update of the row whose `keyColumn` holds
      `id`, or an insert. */
  datatype Write = Update(keyColumn: string, id: Value, data: Record) | Insert(data: Record)

  /** The save of a form that edits `existing` when there is one: an update
      of its row, found by the key column's value, and otherwise an insert,
      of the same data either way. Any existing row counts, even one whose
      key is falsy. */
  function UpdateOrInsert(existing: Option<Record>, keyColumn: string, data: Record): (w: Write)
    ensures w.Update? <==> existing.Some?
    ensures w.Update? ==> w == Update(keyColumn, Get(existing.value, keyColumn), data)
    ensures w.Insert? ==> w.data == data
  {
    if existing.Some? then Update(keyColumn, Get(existing.value, keyColumn), data) else Insert(data)
  }
}
