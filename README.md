# greenhouse-builder rules, modelled in Dafny

greenhouse-builder is a React and Supabase application for quoting
greenhouse structures. Around the UI and the database calls sit many small
rules, and this project models them and proves properties about them:

- **CSV scripts.** The export serialiser, the quote-aware import parser and
  its batched upsert loop, the schema migration of an export, and the text
  rewrite of the generated database types.
- **Quoting rules on the project page.** Curtain fabric price tiers, bay
  counts, the fabric width rounding and the local vent and wall lists.
- **Form state machines.** The vent, roll-up wall, drop wall, structure,
  new-project and glazing-requirement forms.
- **Table logic of the settings tabs.** Paging, sorting, filters and
  de-duplicated filter options, plus the glazing wizard's per-section
  aggregation.
- **Settings-tab parsers.** Comma-separated width and structure lists,
  numeric coercion, default filling and the confirm-before-delete flow.

Every stateful React component is a `class` whose fields are its `useState`
variables; each handler is a method that states the whole new state. The
values a handler computes come from pure functions, and the lemmas about
those functions carry the properties. A function that only computes a
value has no row of its own in the table below when lemmas or handlers
state its properties; their rows cite its source lines, and the list
after the table names, for each such function, the members that specify it. JavaScript objects are
`map<string, Value>` (module `JsValue`), with JavaScript truthiness, `||`,
`Number()` and `parseFloat` written out. The CSV scripts keep object key
order, because `Object.keys` gives the CSV header, so there a row is an
ordered list of fields (module `CsvRecords`). Everything the code awaits
from Supabase is a parameter: `Database.Fetch`, a failure message, or the
answer of the session check. The same goes for the file system and
`window.confirm`.

Modules, one per source file, plus three shared ones (`JsText` for string
built-ins, `JsValue` for JavaScript values, `Database` for query answers):
`CsvRecords`, `CsvExport`, `CsvImport`, `CsvRoundTrip`, `SchemaMigration`,
`TypeRewrite`, `ProjectDetails`, `VentForm`, `RollupWallForm`,
`DropWallForm`, `GlazingWizard`, `GlazingRequirementsTab`,
`GlazingPanelRequirementsTab`, `CurtainFabricsTab`, `PC8GlazingTab`,
`VentDrivesTab`, `RollupDropDrivesTab`, `PolyGlazingTab`,
`GlazingPanelRequirementForm`, `GlazingRequirementForm`, `StructureForm`,
`NewProjectModal`.

## Model

| member | source | states |
|---|---|---|
| JsText.SplitOn | scripts/modify-glazing-requirements-schema.js:43 | `split(sep)` yields at least one piece |
| JsText.SplitCount | scripts/modify-glazing-requirements-schema.js:83 | a split has one piece more than the text has separators |
| JsText.SplitPiecesFree | scripts/modify-glazing-requirements-schema.js:83 | no piece of a split contains the separator |
| JsText.JoinSplit | scripts/modify-glazing-requirements-schema.js:90 | joining the pieces of a split with the same separator gives the text back |
| JsText.SplitJoin | scripts/export-glazing-requirements.js:37 | splitting a join of separator-free pieces gives the pieces back |
| JsText.IndexOf | scripts/modify-glazing-requirements-schema.js:54 | `indexOf` is -1 exactly when the element is absent, otherwise the position of its first occurrence |
| JsText.Trim | scripts/import-glazing-requirements.js:35 | `trim()` leaves no whitespace at either end |
| JsText.TrimSpec | scripts/import-glazing-requirements.js:35 | `trim()` cuts a whitespace-only prefix and a whitespace-only suffix off and keeps the middle of the text as it stands |
| JsText.TrimNoEdgeSpace | scripts/import-glazing-requirements.js:35 | a text without whitespace at either end is its own trim |
| JsText.BlankIffTrimmedEmpty | scripts/import-glazing-requirements.js:35 | `line.trim() === ''` holds exactly when the line is all whitespace |
| JsText.TrimAll | src/components/settings/VentDrivesTab.tsx:339 | `map(v => v.trim())` trims every piece, in order |
| JsText.DropEmpty | src/components/settings/CurtainFabricsTab.tsx:276 | `filter(v => v !== '')` keeps exactly the non-empty strings, in order |
| JsText.DropEmptyKeeps | src/components/settings/PC8GlazingTab.tsx:250-252 | filtering a list without empty strings changes nothing |
| JsText.JoinCommaSpaceSpaced | src/components/settings/PC8GlazingTab.tsx:245 | a `join(', ')` is a comma join of the pieces after the first with a leading space |
| JsText.SplitTrimJoin | src/components/settings/VentDrivesTab.tsx:335-340 | splitting a `join(', ')` at commas and trimming each piece gives back a non-empty list of trimmed, comma-free strings |
| Database.UpdateOrInsert | src/components/settings/GlazingRequirementForm.tsx:96-110 | an update by the key column's value exactly when there is an existing row, even one with a falsy id, otherwise an insert, of the same data |
| JsValue.Or | src/components/settings/VentDrivesTab.tsx:81-85 | `a \|\| b` is `a` when it is truthy, else `b` |
| JsValue.NumberOf | src/components/settings/StructureForm.tsx:90 | `Number(s)` is a number or NaN, and blank text is 0 |
| JsValue.NumberOfValue | src/components/settings/PolyGlazingTab.tsx:62 | `Number(v)` on any value is a number or NaN |
| JsValue.NumberOrText | src/components/settings/StructureForm.tsx:86-92 | a number input stores a number or NaN (0 when empty), any other input its text |
| JsValue.ParseFloat | src/components/settings/PolyGlazingTab.tsx:219 | `parseFloat(s)` is a number or NaN, and '' gives NaN |
| JsValue.OrZero | src/components/settings/PolyGlazingTab.tsx:62 | `x \|\| 0` on a converted number maps NaN to 0 and keeps a number |
| JsValue.ParseFloatOrZero | src/components/settings/PC8GlazingTab.tsx:230 | `parseFloat(s) \|\| 0` is always a number: 0 where `parseFloat` gives NaN, otherwise its value |
| JsValue.ParseFloatUnlessEmpty | src/components/settings/PC8GlazingTab.tsx:267 | `s ? parseFloat(s) : 0` is 0 for '' and otherwise what `parseFloat` reads, NaN included |
| JsValue.Set | src/components/settings/StructureForm.tsx:88-91 | `{ ...m, [key]: v }` sets the key and leaves every other property unchanged |
| JsValue.ParseInt | src/components/settings/GlazingRequirementsTab.tsx:73 | `parseInt` gives a whole number or NaN, and NaN for '' |
| JsValue.SignedDigits | src/components/settings/GlazingRequirementsTab.tsx:73 | a signed digit run gives a whole number or NaN |
| JsValue.DigitsAgree | src/components/settings/GlazingRequirementsTab.tsx:73 | `parseInt` and `Number` read a digit run as the same number |
| JsValue.LeadingDigitsConcat | src/components/settings/GlazingRequirementsTab.tsx:73 | the digit run of digits followed by a non-digit is the digits |
| JsValue.ParseIntDigits | src/components/settings/GlazingRequirementsTab.tsx:73 | a digit run parses to its value whatever follows it |
| CsvRecords.Canonical | scripts/import-glazing-requirements.js:71 | the number a decimal literal denotes has one canonical form |
| CsvRecords.ToDecimal | scripts/import-glazing-requirements.js:71 | `Number` on numeric text gives a canonical number, and empty text gives 0 |
| CsvRecords.Find | scripts/export-glazing-requirements.js:42 | the position of the first field with a key, or -1 when none has it |
| CsvRecords.Lookup | scripts/export-glazing-requirements.js:42 | `obj[key]` on a missing key is undefined |
| CsvRecords.Put | scripts/import-glazing-requirements.js:74 | `obj[header] = value` keeps an existing key's position and appends a new key, and the key then reads the value |
| CsvRecords.PutOther | scripts/import-glazing-requirements.js:74 | writing one key leaves every other key unchanged |
| CsvRecords.LookupDistinct | scripts/export-glazing-requirements.js:40-51 | with distinct keys, each field is what its key reads |
| CsvRecords.CanonicalOfText | scripts/export-glazing-requirements.js:51 | a canonical number's printed text reads back as the same number |
| CsvExport.CellTexts | scripts/export-glazing-requirements.js:40-51 | a data line has one cell per header |
| CsvExport.RowLines | scripts/export-glazing-requirements.js:39-53 | one data line per row |
| CsvExport.ConvertToCsv | scripts/export-glazing-requirements.js:31-56 | no rows export as the empty text |
| CsvExport.CellTextNoBreak | scripts/export-glazing-requirements.js:42-51 | a cell without a line break in its text exports without one |
| CsvExport.ExportLines | scripts/export-glazing-requirements.js:36-55 | the export is the header line (the first row's keys) followed by one line per row, in order |
| CsvImport.SplitQuotedLine | scripts/import-glazing-requirements.js:37-54 | the character loop computes the line's values as the scan function defines them |
| CsvImport.StripQuotes | scripts/import-glazing-requirements.js:63-65 | a value without double quotes is left unchanged |
| CsvImport.ImportValueCases | scripts/import-glazing-requirements.js:60-72 | a missing value is undefined and an empty one null; the six text columns never hold numbers; numeric text elsewhere becomes its canonical number |
| CsvImport.BuildObject | scripts/import-glazing-requirements.js:57-75 | the `forEach` loop builds the object the record function defines |
| CsvImport.LineRecords | scripts/import-glazing-requirements.js:35 | a data line yields at most one record |
| CsvImport.ParseDataLine | scripts/import-glazing-requirements.js:35-78 | one line's filter and map step computes its records |
| CsvImport.ParseCsv | scripts/import-glazing-requirements.js:31-79 | `parseCSV` computes the records the specification function defines |
| CsvImport.RecordsFollowLines | scripts/import-glazing-requirements.js:35 | each non-blank data line gives exactly one record, in line order |
| CsvImport.RecordFields | scripts/import-glazing-requirements.js:58-75 | with distinct headers, a record's keys are exactly the headers, in order, each holding its column's converted value |
| CsvImport.ValueCount | scripts/import-glazing-requirements.js:41-54 | a line gives one value more than it has commas outside quotes |
| CsvImport.ScanCount | scripts/import-glazing-requirements.js:41-54 | from any position, the scan adds one value more than the unquoted commas that remain |
| CsvImport.EscapedQuoteKept | scripts/import-glazing-requirements.js:44-50 | a backslash-escaped quote is kept in the value, backslash included |
| CsvImport.QuoteDropped | scripts/import-glazing-requirements.js:44-45 | an unescaped quote flips quoted mode and is dropped |
| CsvImport.Batch | scripts/import-glazing-requirements.js:140 | a batch holds at most 50 records and at least one, and only the last one can be short |
| CsvImport.Batches | scripts/import-glazing-requirements.js:139-140 | the loop cuts the requested number of batches |
| CsvImport.BatchesAt | scripts/import-glazing-requirements.js:139-140 | batch k starts at record 50·k |
| CsvImport.BatchesFlatten | scripts/import-glazing-requirements.js:139-140 | the first n batches together are a prefix of the records, so nothing is skipped, repeated or reordered |
| CsvImport.BatchesCover | scripts/import-glazing-requirements.js:139-157 | the batches the loop cuts hold every record, in order |
| CsvImport.BatchSizes | scripts/import-glazing-requirements.js:135-140 | every batch holds 1 to 50 records, and all but the last exactly 50 |
| CsvImport.ImportBatches | scripts/import-glazing-requirements.js:135-159 | the loop cuts exactly enough batches, and successCount + errorCount equals the number of records |
| CsvRoundTrip.NumRoundTrip | scripts/import-glazing-requirements.js:68-72 | an exported number is imported as the same number |
| CsvRoundTrip.CellRoundTrip | scripts/import-glazing-requirements.js:60-72 | importing an exported cell gives the cell back |
| CsvRoundTrip.ScanJoin | scripts/import-glazing-requirements.js:41-54 | a line of exported cells scans back into their value texts |
| CsvRoundTrip.SplitRowLine | scripts/export-glazing-requirements.js:39-52 | an exported data line splits back into its cells' value texts and is never blank |
| CsvRoundTrip.RowRoundTrip | scripts/import-glazing-requirements.js:57-77 | importing an exported data line gives the row back |
| CsvRoundTrip.ExportImportRoundTrip | scripts/export-glazing-requirements.js:31-56 | `parseCSV(convertToCSV(rows))` gives back `rows` under the stated conditions, nulls included |
| SchemaMigration.Candidates | scripts/modify-glazing-requirements-schema.js:19-21 | the candidates are export-named files only |
| SchemaMigration.CandidatesExact | scripts/modify-glazing-requirements-schema.js:19-21 | a file is a candidate exactly when it is listed and has an export name |
| SchemaMigration.NewestIsFirstMaximum | scripts/modify-glazing-requirements-schema.js:29-35 | the file picked has the greatest mtime, and every file listed before it is strictly older |
| SchemaMigration.FindMostRecentExport | scripts/modify-glazing-requirements-schema.js:14-36 | the search fails exactly when there is no export file, and otherwise returns the newest one |
| SchemaMigration.ModifiedNameIsCandidate | scripts/modify-glazing-requirements-schema.js:95-98 | the file the script writes has an export name itself, so a later run picks it up |
| SchemaMigration.RemoveAtKeepsOrder | scripts/modify-glazing-requirements-schema.js:87 | `splice(i, 1)` drops exactly element i, and the others keep their order |
| SchemaMigration.KeepOthersRemoves | scripts/modify-glazing-requirements-schema.js:78 | filtering out index i is the same as splicing it out |
| SchemaMigration.RenameFirstPanelCount | scripts/modify-glazing-requirements-schema.js:55-71 | only the first `panel_count` header is renamed to `panel_width` |
| SchemaMigration.ModifySchema | scripts/modify-glazing-requirements-schema.js:38-101 | the loop writes the text the specification function defines |
| SchemaMigration.TransformLine | scripts/modify-glazing-requirements-schema.js:80-91 | a blank line pushes nothing, any other line its row without the `length` field |
| SchemaMigration.RowIntact | scripts/modify-glazing-requirements-schema.js:86-90 | with no `length` column, or a line too short to reach it, the row passes unchanged |
| SchemaMigration.RowWithoutLength | scripts/modify-glazing-requirements-schema.js:83-90 | when the `length` index falls inside the line, exactly that field is removed |
| SchemaMigration.DataRowsCount | scripts/modify-glazing-requirements-schema.js:80-91 | one output row per non-blank data line |
| SchemaMigration.ModifiedLines | scripts/modify-glazing-requirements-schema.js:43-101 | the output is the new header line followed by one row per non-blank data line |
| TypeRewrite.SpaceRun | scripts/update-supabase-types.js:31 | `\s+` takes the whole whitespace run |
| TypeRewrite.RemoveSpacedNoMatch | scripts/update-supabase-types.js:31-32 | text in which the pattern never matches is unchanged |
| TypeRewrite.RemoveSpacedMatch | scripts/update-supabase-types.js:31-32 | a whitespace run followed by the field declaration is deleted, run and all |
| TypeRewrite.ReplaceAllNoMatch | scripts/update-supabase-types.js:35-36 | text without the pattern is unchanged by the renaming |
| TypeRewrite.ReplaceAllMatch | scripts/update-supabase-types.js:35-36 | each occurrence of `panel_count` is renamed and the rest rewritten after it |
| TypeRewrite.KeepWord | scripts/update-supabase-types.js:31 | a word without whitespace is kept whole |
| TypeRewrite.KeepSpaces | scripts/update-supabase-types.js:31 | a whitespace run not followed by the declaration is kept |
| TypeRewrite.OnlyFirstPass | scripts/update-supabase-types.js:22-39 | text without `?` or `c` is changed by the first deletion only |
| TypeRewrite.MergeFirstPass | scripts/update-supabase-types.js:31 | deleting a declaration can join the text around it into a new one |
| TypeRewrite.NotIdempotent | scripts/update-supabase-types.js:22-39 | a second run of the rewrite can change its own output, so the rewrite is not idempotent |
| ProjectDetails.CurtainFabricPrice | src/components/ProjectDetails.tsx:55-61 | a price exists exactly when there is a fabric and the area is positive, and it is the price of the tier the area falls in |
| ProjectDetails.PriceByTier | src/components/ProjectDetails.tsx:57-59 | a positive area is priced at the price of its tier: up to 5000, up to 20000, or above |
| ProjectDetails.PriceTierMonotone | src/components/ProjectDetails.tsx:57-59 | a larger area never falls in an earlier tier |
| ProjectDetails.Houses | src/components/ProjectDetails.tsx:822 | a missing or zero house count counts as one house |
| ProjectDetails.BBays | src/components/ProjectDetails.tsx:818 | the B bays are the whole 12-foot bays of the length less the two A bays |
| ProjectDetails.CBays | src/components/ProjectDetails.tsx:822 | a missing, zero or single house has no C bays, and more than one house has some |
| ProjectDetails.DBays | src/components/ProjectDetails.tsx:826 | one D bay per B bay in each house after the first, half as many as B bays times C bays |
| ProjectDetails.BaysPerHouse | src/components/ProjectDetails.tsx:810-826 | A, B, C and D bays together are one bay per 12 feet of length in every house; a single house has no C or D bays |
| ProjectDetails.InsertAscending | src/components/ProjectDetails.tsx:1027 | inserting into an ascending list keeps it ascending and adds exactly the one value |
| ProjectDetails.HeadBelowAll | src/components/ProjectDetails.tsx:1027 | a value no larger than any element can head an ascending list |
| ProjectDetails.SortAscending | src/components/ProjectDetails.tsx:1027 | the numeric sort returns the same widths, ascending |
| ProjectDetails.FirstAtLeast | src/components/ProjectDetails.tsx:1028 | `find` returns the first width at least the screen width, or nothing when every width is smaller |
| ProjectDetails.SortedMembers | src/components/ProjectDetails.tsx:1027 | sorting keeps exactly the stocked widths |
| ProjectDetails.FirstFitIsLeast | src/components/ProjectDetails.tsx:1028 | in an ascending list the first fitting width is the least fitting width |
| ProjectDetails.FirstIsSmallest | src/components/ProjectDetails.tsx:1028 | the first element of an ascending list is the smallest |
| ProjectDetails.LeastFitUnique | src/components/ProjectDetails.tsx:1028 | the least fitting width is unique |
| ProjectDetails.ChooseWidthIsLeastFit | src/components/ProjectDetails.tsx:1025-1029 | the fabric width chosen for a screen is the smallest stocked width that fits it, or the smallest stocked width when none (non-zero) fits |
| ProjectDetails.ScreenPriceWithoutWidths | src/components/ProjectDetails.tsx:1024-1031 | a screen whose fabric is unknown or has no stocked widths has no price |
| ProjectDetails.ScreenPriceOfLeastFit | src/components/ProjectDetails.tsx:1024-1031 | a screen is priced at the tier of least fitting width x screen length x vent quantity |
| ProjectDetails.ScreenPriceOfSmallest | src/components/ProjectDetails.tsx:1024-1031 | when no stocked width fits, the smallest width takes the fitting width's place in the priced area |
| ProjectDetails.ScreenData | src/components/ProjectDetails.tsx:303-315 | a screen row is sent exactly when the payload has a screen; it takes the vent's length and notes and the screen's type and width, and its slitting fee is never zero |
| ProjectDetails.DoubleScreenQuantity | src/components/ProjectDetails.tsx:305-309 | a double vent gets twice the screens of the same vent built single, and a single vent one per vent |
| ProjectDetails.SlittingFeeDefault | src/components/ProjectDetails.tsx:313 | a set slitting fee is kept, a missing one becomes 0.22 |
| ProjectDetails.DriveChangeDropped | src/components/ProjectDetails.tsx:366-377 | the vent update as written has no `drive_id` column, so a drive chosen while editing changes nothing it sends |
| ProjectDetails.VentColumnsCarryDrive | src/components/ProjectDetails.tsx:286-297 | the vent columns the insert sends carry the chosen drive and otherwise are the update's columns |
| ProjectDetails.VentSaveError | src/components/ProjectDetails.tsx:298-356 | a vent save ends without error exactly when the vent write, the screen write (when there is a screen) and the reload all succeed; otherwise with the first failing step's message |
| ProjectDetails.MergeWhere | src/components/ProjectDetails.tsx:475-477 | the merged list has the same length as the old one |
| ProjectDetails.MergeWhereTouchesOnlyId | src/components/ProjectDetails.tsx:475-477 | only walls with the id change, and in them the new data wins over the old fields |
| ProjectDetails.RemoveWhere | src/components/ProjectDetails.tsx:444 | after deleting, no element has the id, every element without it is kept, and the result is an ordered selection of the list exactly as long as the list less the elements with the id, so duplicates without the id are kept too |
| ProjectDetails.RemoveWhereAbsent | src/components/ProjectDetails.tsx:495 | deleting an id that is not in the list returns the list whole |
| ProjectDetails.CombinedStructure | src/components/ProjectDetails.tsx:108-113 | the structure row's own `structure_id`, and for every other field the user's entry where it has one, else the structure row |
| ProjectDetails.ProjectPage.constructor | src/components/ProjectDetails.tsx:63-76 | the page starts loading, with empty lists, no error and no structure being edited |
| ProjectDetails.ProjectPage.FetchStructure | src/components/ProjectDetails.tsx:89-170 | the user's entry, the structure, the vents, the roll-up walls and the drop walls load in turn; once both rows are in, the combined structure is edited; each list takes its rows (none for a null answer); the first failure's message is shown and stops the rest; loading ends either way |
| ProjectDetails.ProjectPage.HandleInputChange | src/components/ProjectDetails.tsx:270-277 | without an edited structure nothing changes; otherwise only the named field, as a number for number inputs |
| ProjectDetails.ProjectPage.AddRollupWall | src/components/ProjectDetails.tsx:450-464 | the wall is inserted with the structure id; on success the returned row is appended, on failure the list is kept and the failure message shown |
| ProjectDetails.ProjectPage.UpdateRollupWall | src/components/ProjectDetails.tsx:466-483 | the wall's row is updated by its id; on success the data is merged into the wall with the id, on failure the list is kept and the failure message shown |
| ProjectDetails.ProjectPage.DeleteRollupWall | src/components/ProjectDetails.tsx:485-499 | unconfirmed, nothing changes; confirmed, the walls with the id go or the error is set |
| ProjectDetails.ProjectPage.AddDropWall | src/components/ProjectDetails.tsx:501-515 | the wall is inserted with the structure id; on success the returned row is appended, on failure the list is kept and the failure message shown |
| ProjectDetails.ProjectPage.UpdateDropWall | src/components/ProjectDetails.tsx:517-534 | the wall's row is updated by its id; on success the data is merged into the wall with the id, on failure the list is kept and the failure message shown |
| ProjectDetails.ProjectPage.DeleteDropWall | src/components/ProjectDetails.tsx:536-550 | unconfirmed, nothing changes; confirmed, the walls with the id go or the error is set |
| ProjectDetails.ProjectPage.DeleteVent | src/components/ProjectDetails.tsx:434-448 | unconfirmed, nothing changes; confirmed, the vents with the id go or the error is set |
| ProjectDetails.ProjectPage.AddVent | src/components/ProjectDetails.tsx:279-357 | the vent is inserted with the structure id and its drive; the screen row is inserted under the new vent's id exactly when the vent insert succeeded and there is a screen; without error the list is the reloaded vents (none for a null answer), otherwise it is kept and the first failure shown |
| ProjectDetails.ProjectPage.UpdateVent | src/components/ProjectDetails.tsx:359-432 | the vent row with the id is updated, drive included; the screen row with the vent's id is updated exactly when the vent update succeeded and there is a screen; without error the list is the reloaded vents, otherwise it is kept and the first failure shown |
| VentForm.ToUpper | src/components/VentForm.tsx:90 | upper-casing keeps the length and maps each character |
| VentForm.VentTypeFromModel | src/components/VentForm.tsx:89-96 | the vent type a model implies is always one of the offered types and has default sizes |
| VentForm.VentTypeOfSeries | src/components/VentForm.tsx:89-96 | SL, IN and NS models, in either case, get the Solar Light, Insulator and Gothic roof vents; every other model, including one shorter than two letters, gets the Continental |
| VentForm.DefaultVentSize | src/components/VentForm.tsx:98-100 | the default size is one of the type's default sizes |
| VentForm.TypedDrive | src/components/VentForm.tsx:198-214 | a drive keeps its id, drive type and vent type; a missing or zero size becomes 160, otherwise the size is kept; a present structure list is kept and a missing one becomes empty |
| VentForm.TypedDrives | src/components/VentForm.tsx:198 | every row is typed, in order |
| VentForm.LengthLimit | src/components/VentForm.tsx:250-267 | a falsy vent length sets no limit, a non-zero number is the limit |
| VentForm.KeepOffered | src/components/VentForm.tsx:222-280 | the drives kept are an ordered selection of the input, each offered, none offered left out |
| VentForm.FilterChain | src/components/VentForm.tsx:222-280 | the three filters in a row keep exactly the drives meeting all three conditions |
| VentForm.ByStructureConcat | src/components/VentForm.tsx:231-245 | the structure filter splits over concatenation |
| VentForm.ByLengthConcat | src/components/VentForm.tsx:249-280 | the length filter splits over concatenation |
| VentForm.OfferedDrivesSpec | src/components/VentForm.tsx:198-284 | the drives offered are the typed drives of matching vent type, compatible with the model and long enough, in database order |
| VentForm.DriveIds | src/components/VentForm.tsx:296 | the ids of the drives, in order |
| VentForm.ReconcileSpec | src/components/VentForm.tsx:288-315 | after loading, a non-empty list always holds the selection, which is the old one when still offered and the first drive otherwise; an empty list clears a chosen drive |
| VentForm.CombinedVentType | src/components/VentForm.tsx:414-421 | the combined type exists exactly when `type config` is a listed combination |
| VentForm.AllCombinationsValid | src/components/VentForm.tsx:50-86 | every offered vent type, single or double, is a valid combination |
| VentForm.FirstCombinations | src/components/VentForm.tsx:71-86 | the first two vent types combine with both configurations |
| VentForm.SecondCombinations | src/components/VentForm.tsx:71-86 | the third and fourth vent types combine with both configurations |
| VentForm.ThirdCombinations | src/components/VentForm.tsx:71-86 | the fifth and sixth vent types combine with both configurations |
| VentForm.LastCombinations | src/components/VentForm.tsx:71-86 | the wall vent combines with both configurations |
| VentForm.BothConfigurations | src/components/VentForm.tsx:71-86 | a type listed single then double combines with both |
| VentForm.ChangeTouchesNamedField | src/components/VentForm.tsx:350-398 | a change touches only the named field and the insect screen |
| VentForm.ChangeStoresInput | src/components/VentForm.tsx:356-360 | the named field takes the converted input |
| VentForm.ScreenAfterChange | src/components/VentForm.tsx:363-395 | the screen after a change is the one the change sets, or the old one |
| VentForm.ChooseScreenType | src/components/VentForm.tsx:375-386 | choosing a screen type makes a screen of the vent's quantity and length keeping the old width (or 0); choosing none removes it |
| VentForm.QuantityEditSyncsScreen | src/components/VentForm.tsx:363-372 | editing the quantity updates an existing screen's quantity only and never creates a screen |
| VentForm.NewScreenFields | src/components/VentForm.tsx:377-382 | a new screen holds the four fields it is built from |
| VentForm.ScreenFieldsUpdate | src/components/VentForm.tsx:366-370 | updating quantity and length keeps the screen's type and width |
| VentForm.VentTypeChangeAsWritten | src/components/VentForm.tsx:401-411 | the handler as written faults exactly for a type without default sizes |
| VentForm.OfferedTypesFault | src/components/VentForm.tsx:50-69 | the Oxnard, pad and wall vents and the empty option are offered but fault |
| VentForm.NoDefaultSizes | src/components/VentForm.tsx:61-69 | those four types have no default sizes |
| VentForm.VentTypeChange | src/components/VentForm.tsx:401-411 | the type always changes; the size becomes the first default when there is one and is kept otherwise; nothing else changes |
| VentForm.VentTypeChangeAgrees | src/components/VentForm.tsx:401-411 | where the written handler works, the corrected one gives the same result |
| VentForm.WallVentSizes | src/components/VentForm.tsx:61-69 | a single wall vent gets the single wall-vent sizes |
| VentForm.SubmitPayloadSpec | src/components/VentForm.tsx:423-445 | the payload carries the selected drive, a screen with the vent's quantity and length and a truthy or zero width, and the rest of the form |
| VentForm.DefaultVentData | src/components/VentForm.tsx:102-114 | a new vent's type has default sizes and its length is the structure's, or 1 |
| VentForm.StoredCount | src/components/VentForm.tsx:132-139 | a stored quantity or length is always truthy: a text reads as its `parseInt` when that is truthy, a truthy number is kept, anything else is 1 |
| VentForm.StoredTextCount | src/components/VentForm.tsx:132-138 | a non-zero digit text is read as its number |
| VentForm.SyncedScreens | src/components/VentForm.tsx:141-145 | every screen takes the vent's quantity and length and keeps its other fields; a missing screen list stays missing |
| VentForm.EditedVentDataSpec | src/components/VentForm.tsx:130-146 | an edited vent's form: quantity and length read as stored counts, the stored drive, every other field from the vent or else the defaults, and the screens synced |
| VentForm.StoredDrive | src/components/VentForm.tsx:119 | a drive is selected exactly when the vent has a non-empty `drive_id` |
| VentForm.SizesOf | src/components/VentForm.tsx:148-150 | the sizes of a vent type that has default sizes, none otherwise |
| VentForm.VentFormState.constructor | src/components/VentForm.tsx:102-119 | the form is the vent or, for a new one, the defaults at the first default size of its type; the sizes are those of the form's type; no drives; the stored drive is selected |
| VentForm.VentFormState.VentChanged | src/components/VentForm.tsx:130-151 | with a vent, the form becomes its edited form, the sizes follow its type when the type has default sizes and stay otherwise; without one nothing changes |
| VentForm.VentFormState.HandleChange | src/components/VentForm.tsx:350-398 | the form becomes the changed form; sizes, drives and selection stay |
| VentForm.VentFormState.HandleVentTypeChange | src/components/VentForm.tsx:401-411 | the form and sizes the corrected type change gives |
| VentForm.VentFormState.LoadDrives | src/components/VentForm.tsx:175-347 | with a vent type and rows, the drives are the offered ones and the selection is reconciled and copied to the form; otherwise nothing changes; only `drive_id` of the form changes |
| VentForm.VentFormState.HandleSubmit | src/components/VentForm.tsx:423-445 | the screen is fixed up in place and the payload handed over |
| RollupWallForm.HeightOptionsSpec | src/components/RollupWallForm.tsx:58-74 | only a sidewall of a guttered or Quonset house has height options, which are that type's frame heights; frame options are never empty |
| RollupWallForm.Snap | src/components/RollupWallForm.tsx:84-89 | a snapped value is one of the options (when there are any), a value already among them is kept, any other becomes the first option |
| RollupWallForm.SnapIdempotent | src/components/RollupWallForm.tsx:84-89 | snapping twice is snapping once |
| RollupWallForm.ResetWallHeightSpec | src/components/RollupWallForm.tsx:81-92 | the wall-height effect changes only the height, and only on a sidewall |
| RollupWallForm.ResetFrameHeightSpec | src/components/RollupWallForm.tsx:94-104 | the frame-height effect changes only the frame height, and only on an endwall, onto a frame option |
| RollupWallForm.ResetsIdempotent | src/components/RollupWallForm.tsx:81-104 | running a height effect again changes nothing |
| RollupWallForm.ClearDrive | src/components/RollupWallForm.tsx:106-113 | the drive-type effect empties the drive and motor and nothing else |
| RollupWallForm.RollupInput | src/components/RollupWallForm.tsx:161-167 | a number input gives a number or NaN, a text input its text |
| RollupWallForm.ChangeRollupForm | src/components/RollupWallForm.tsx:161-167 | only the named field changes, to the converted input |
| RollupWallForm.InitialRollupFields | src/components/RollupWallForm.tsx:33-53 | each field starts as the wall's or its default |
| RollupWallForm.MountedRollupFormSpec | src/components/RollupWallForm.tsx:33-113 | an edited wall keeps location and type but the mount run of the drive-type effect clears its drive and motor |
| RollupWallForm.NewRollupWall | src/components/RollupWallForm.tsx:33-104 | a new wall is a guttered sidewall 8 feet high with a manual drive |
| RollupWallForm.SubmitRollupSpec | src/components/RollupWallForm.tsx:132-159 | accepted exactly when the height converts to a number in (0, 14]; the payload has that number and the drive or null; a rejection carries the height message |
| RollupWallForm.SidewallOptionsValid | src/components/RollupWallForm.tsx:65-74 | every sidewall height option passes validation |
| RollupWallForm.ChangeKeepsSidewallHeightValid | src/components/RollupWallForm.tsx:81-92 | after a change of location or type, a sidewall with options has a height among them |
| RollupWallForm.RollupWallFormState.constructor | src/components/RollupWallForm.tsx:33-56 | the form is the mounted form, with no drives, no error, not loading |
| RollupWallForm.RollupWallFormState.HandleChange | src/components/RollupWallForm.tsx:161-167 | the change followed by the effects whose dependencies it changed |
| RollupWallForm.RollupWallFormState.LoadDrives | src/components/RollupWallForm.tsx:115-130 | the drives become the rows returned, or stay on an error |
| RollupWallForm.RollupWallFormState.HandleSubmit | src/components/RollupWallForm.tsx:132-159 | an accepted form is handed over with no error; a rejected one shows the height message |
| DropWallForm.WallHeightOptions | src/components/DropWallForm.tsx:46-51 | every type has at least one height option |
| DropWallForm.InitialDropForm | src/components/DropWallForm.tsx:27-41 | the form has exactly the listed fields |
| DropWallForm.InitialDropFields | src/components/DropWallForm.tsx:27-41 | type and height start as the wall's or Guttered and 0 |
| DropWallForm.TypeChangeEffect | src/components/DropWallForm.tsx:54-60 | the height becomes the type's first option and nothing else changes |
| DropWallForm.EditedHeightOverwritten | src/components/DropWallForm.tsx:54-60 | a guttered wall stored 10 feet high, a valid option, opens showing 8 feet |
| DropWallForm.HeightForType | src/components/DropWallForm.tsx:54-60 | the height is always a type option, a valid height is kept, any other becomes the first option |
| DropWallForm.MountEffect | src/components/DropWallForm.tsx:54-60 | only the height changes |
| DropWallForm.MountedDropFormSpec | src/components/DropWallForm.tsx:27-60 | after mounting the height is a type option, and a stored valid height is kept |
| DropWallForm.MountEffectAgrees | src/components/DropWallForm.tsx:54-60 | the corrected effect agrees with the written one when the height is not already valid |
| DropWallForm.NewDropWall | src/components/DropWallForm.tsx:27-60 | a new wall opens guttered and 8 feet high |
| DropWallForm.ChangeDropForm | src/components/DropWallForm.tsx:76-82 | only the named field changes, to the converted input |
| DropWallForm.DropWallFormState.constructor | src/components/DropWallForm.tsx:27-44 | the form is the mounted form, with no error, not loading |
| DropWallForm.DropWallFormState.HandleChange | src/components/DropWallForm.tsx:54-82 | the change, followed by the type effect when the type changed |
| DropWallForm.DropWallFormState.HandleSubmit | src/components/DropWallForm.tsx:62-69 | the form is handed over unchanged, with no error |
| GlazingWizard.NormalizeModelSpec | src/components/GlazingWizard.tsx:64-68 | SL18 is looked up as Solar Light, every other model as itself, and normalizing twice is normalizing once |
| GlazingWizard.RowsIn | src/components/GlazingWizard.tsx:105 | the rows of a section are an ordered selection of the rows, all of that section, none of it left out |
| GlazingWizard.AreaSumConcat | src/components/GlazingWizard.tsx:110 | the summed area splits over a concatenation |
| GlazingWizard.AreaSumNonNegative | src/components/GlazingWizard.tsx:110 | rows with no area count as nothing, so non-negative areas sum to a non-negative area |
| GlazingWizard.Names | src/components/GlazingWizard.tsx:104-116 | the section names of the lines, in order |
| GlazingWizard.AggregateOverOrder | src/components/GlazingWizard.tsx:104-116 | the lines follow the section order |
| GlazingWizard.AggregateOverLines | src/components/GlazingWizard.tsx:104-116 | each line is built from its section's rows, which are not empty |
| GlazingWizard.AggregateOverComplete | src/components/GlazingWizard.tsx:104-116 | every section of the order that has rows gets a line |
| GlazingWizard.SectionOrderDistinct | src/components/GlazingWizard.tsx:91-101 | no section appears twice in the order |
| GlazingWizard.AggregateSpec | src/components/GlazingWizard.tsx:91-116 | the wizard lists each section of the order with rows exactly once, in that order, and nothing else |
| GlazingWizard.AggregatedLine | src/components/GlazingWizard.tsx:106-114 | a line has the first row's material, the summed area, unit square feet, price and total 0, and is editable |
| GlazingWizard.ChangeMaterialSpec | src/components/GlazingWizard.tsx:125-132 | only line idx changes, only in its material; an index outside the list changes nothing |
| GlazingWizard.ChangeMaterialUndo | src/components/GlazingWizard.tsx:125-132 | choosing the old material again restores the lines |
| GlazingWizard.GlazingWizardState.constructor | src/components/GlazingWizard.tsx:60-61 | no sections, loading |
| GlazingWizard.GlazingWizardState.FetchRequirements | src/components/GlazingWizard.tsx:70-123 | the query runs exactly when model, width, eave height and length are truthy, under the normalized model; its rows become the aggregated lines, an error no lines |
| GlazingWizard.GlazingWizardState.HandleMaterialChange | src/components/GlazingWizard.tsx:125-132 | the lines after the material change |
| GlazingRequirementsTab.RangeFor | src/components/settings/GlazingRequirementsTab.tsx:83 | a page asks for exactly page-size rows, starting at (page - 1) x size |
| GlazingRequirementsTab.RangesAdjacent | src/components/settings/GlazingRequirementsTab.tsx:83 | each page starts right after the previous one ends |
| GlazingRequirementsTab.RangesDisjoint | src/components/settings/GlazingRequirementsTab.tsx:83 | two different pages never ask for the same row |
| GlazingRequirementsTab.PageStartsGrow | src/components/settings/GlazingRequirementsTab.tsx:83 | a later page starts after an earlier one ends |
| GlazingRequirementsTab.RowOnItsPage | src/components/settings/GlazingRequirementsTab.tsx:83 | every row is asked for by page i / size + 1 |
| GlazingRequirementsTab.SetFilter | src/components/settings/GlazingRequirementsTab.tsx:153-156 | only the given filter changes |
| GlazingRequirementsTab.Conditions | src/components/settings/GlazingRequirementsTab.tsx:66-77 | at most four conditions, none without filters |
| GlazingRequirementsTab.ConditionsWith | src/components/settings/GlazingRequirementsTab.tsx:66-77 | for any width and eave-height values read, at most four conditions, none without filters |
| GlazingRequirementsTab.InConditionsWith | src/components/settings/GlazingRequirementsTab.tsx:66-77 | a condition is sent exactly when it is the model, section, width or eave-height equality of a filter that is set |
| GlazingRequirementsTab.ConditionsWithIn | src/components/settings/GlazingRequirementsTab.tsx:66-77 | each filter's equality is sent exactly when that filter is set |
| GlazingRequirementsTab.ModelCondition | src/components/settings/GlazingRequirementsTab.tsx:66-68 | the model condition is added exactly when the model filter is set |
| GlazingRequirementsTab.SectionCondition | src/components/settings/GlazingRequirementsTab.tsx:69-71 | the section condition is added exactly when the section filter is set |
| GlazingRequirementsTab.WidthCondition | src/components/settings/GlazingRequirementsTab.tsx:72-74 | the width condition, through `parseInt`, is added exactly when the width filter is set |
| GlazingRequirementsTab.EaveHeightCondition | src/components/settings/GlazingRequirementsTab.tsx:75-77 | the eave-height condition, through `parseInt`, is added exactly when that filter is set |
| GlazingRequirementsTab.QueryFor | src/components/settings/GlazingRequirementsTab.tsx:61-83 | the query sorts ascending exactly for the ascending direction and asks for one page of rows |
| GlazingRequirementsTab.UniqueMembers | src/components/settings/GlazingRequirementsTab.tsx:129-144 | the options hold exactly the column's values |
| GlazingRequirementsTab.UniqueMember | src/components/settings/GlazingRequirementsTab.tsx:129-144 | every option is a column value |
| GlazingRequirementsTab.UniqueDistinct | src/components/settings/GlazingRequirementsTab.tsx:129-144 | no option appears twice |
| GlazingRequirementsTab.IndexOfPrefix | src/components/settings/GlazingRequirementsTab.tsx:129-144 | the first occurrence of a value in a prefix is found in the prefix |
| GlazingRequirementsTab.UniqueFirstOccurrence | src/components/settings/GlazingRequirementsTab.tsx:129-144 | options come in the order of first occurrence |
| GlazingRequirementsTab.UniqueOfDistinct | src/components/settings/GlazingRequirementsTab.tsx:129-144 | a column without repeats is its own option list |
| GlazingRequirementsTab.SortAfter | src/components/settings/GlazingRequirementsTab.tsx:159-168 | the clicked column becomes the sort; the same column flips direction, another sorts ascending |
| GlazingRequirementsTab.SortTwice | src/components/settings/GlazingRequirementsTab.tsx:159-168 | two clicks on the sorted column restore its sort |
| GlazingRequirementsTab.PageCount | src/components/settings/GlazingRequirementsTab.tsx:470 | the pages hold all the rows with the last one non-empty; none exactly when there are no rows |
| GlazingRequirementsTab.PrevPage | src/components/settings/GlazingRequirementsTab.tsx:463 | the previous page is at least 1 and one less when not on page 1 |
| GlazingRequirementsTab.NextPage | src/components/settings/GlazingRequirementsTab.tsx:473 | the next page is at most one on and never past the page count |
| GlazingRequirementsTab.NextStaysOnPages | src/components/settings/GlazingRequirementsTab.tsx:473-474 | an enabled Next moves exactly one page on and stays within the pages |
| GlazingRequirementsTab.Footer | src/components/settings/GlazingRequirementsTab.tsx:444 | the footer never counts past the total |
| GlazingRequirementsTab.FooterSpec | src/components/settings/GlazingRequirementsTab.tsx:444 | on a page with rows, the footer runs from the first row the page asks for to its last existing row |
| GlazingRequirementsTab.FooterEmpty | src/components/settings/GlazingRequirementsTab.tsx:444 | with no rows the footer reads "Showing 1 to 0 of 0" |
| GlazingRequirementsTab.OptionsFrom | src/components/settings/GlazingRequirementsTab.tsx:128-146 | a returned column gives its distinct values; a missing one keeps the old list |
| GlazingRequirementsTab.GlazingRequirementsTabState.constructor | src/components/settings/GlazingRequirementsTab.tsx:20-48 | the initial state: no rows, loading, no filters, page 1 of size 10, sorted by id ascending |
| GlazingRequirementsTab.GlazingRequirementsTabState.Load | src/components/settings/GlazingRequirementsTab.tsx:57-99 | the query the state describes is sent; its rows and count (or empty and 0) are shown, or the error with the old rows |
| GlazingRequirementsTab.GlazingRequirementsTabState.LoadFilterOptions | src/components/settings/GlazingRequirementsTab.tsx:101-150 | each option list is rebuilt from its column when that column returned data |
| GlazingRequirementsTab.GlazingRequirementsTabState.HandleFilterChange | src/components/settings/GlazingRequirementsTab.tsx:153-156 | only the filter changes, and the view returns to page 1 |
| GlazingRequirementsTab.GlazingRequirementsTabState.HandleSort | src/components/settings/GlazingRequirementsTab.tsx:159-168 | the sort after the click and nothing else |
| GlazingRequirementsTab.GlazingRequirementsTabState.ChangePageSize | src/components/settings/GlazingRequirementsTab.tsx:448-451 | the new size and page 1 |
| GlazingRequirementsTab.GlazingRequirementsTabState.Previous | src/components/settings/GlazingRequirementsTab.tsx:463-464 | one page back, never below 1 |
| GlazingRequirementsTab.GlazingRequirementsTabState.Next | src/components/settings/GlazingRequirementsTab.tsx:473-474 | one page on when enabled, never past the last page |
| GlazingRequirementsTab.GlazingRequirementsTabState.OpenForm | src/components/settings/GlazingRequirementsTab.tsx:184-188 | the form opens on the item or a new one |
| GlazingRequirementsTab.GlazingRequirementsTabState.CloseForm | src/components/settings/GlazingRequirementsTab.tsx:489-497 | the form closes with nothing being edited |
| GlazingRequirementsTab.GlazingRequirementsTabState.Delete | src/components/settings/GlazingRequirementsTab.tsx:504-522 | a reload is asked exactly for a confirmed successful delete; a failed one shows its message |
| GlazingPanelRequirementsTab.SetFilter | src/components/settings/GlazingPanelRequirementsTab.tsx:100-103 | only the given filter changes |
| GlazingPanelRequirementsTab.Conditions | src/components/settings/GlazingPanelRequirementsTab.tsx:61-64 | at most four conditions, none without filters |
| GlazingPanelRequirementsTab.ModelCondition | src/components/settings/GlazingPanelRequirementsTab.tsx:61 | the model condition is added exactly when the model filter is set |
| GlazingPanelRequirementsTab.SectionCondition | src/components/settings/GlazingPanelRequirementsTab.tsx:62 | the section condition is added exactly when the section filter is set |
| GlazingPanelRequirementsTab.MaterialTypeCondition | src/components/settings/GlazingPanelRequirementsTab.tsx:63 | the material condition is added exactly when the material filter is set |
| GlazingPanelRequirementsTab.VentTypeCondition | src/components/settings/GlazingPanelRequirementsTab.tsx:64 | the vent-type condition is added exactly when the vent-type filter is set |
| GlazingPanelRequirementsTab.QueryFor | src/components/settings/GlazingPanelRequirementsTab.tsx:58-67 | the query sorts ascending exactly for the ascending direction and asks for one page of rows |
| GlazingPanelRequirementsTab.TruthyOnly | src/components/settings/GlazingPanelRequirementsTab.tsx:90 | `filter(Boolean)` keeps, in order, exactly the truthy values |
| GlazingPanelRequirementsTab.OptionValues | src/components/settings/GlazingPanelRequirementsTab.tsx:90-93 | the options are the column's truthy values, each once |
| GlazingPanelRequirementsTab.OptionValuesOrder | src/components/settings/GlazingPanelRequirementsTab.tsx:90-93 | options come in the order of first occurrence |
| GlazingPanelRequirementsTab.OptionsFrom | src/components/settings/GlazingPanelRequirementsTab.tsx:90-93 | a returned column gives its options; a missing one keeps the old list |
| GlazingPanelRequirementsTab.Footer | src/components/settings/GlazingPanelRequirementsTab.tsx:251 | both footer numbers are clamped to the total |
| GlazingPanelRequirementsTab.FooterSpec | src/components/settings/GlazingPanelRequirementsTab.tsx:251 | with no rows the footer reads "Showing 0 to 0 of 0"; on a page with rows it starts at the page's first row |
| GlazingPanelRequirementsTab.NextOnEmptyListing | src/components/settings/GlazingPanelRequirementsTab.tsx:260 | with no rows, Next on page 1 is enabled and moves to page 0, which asks for the rows -size to -1 |
| GlazingPanelRequirementsTab.Next | src/components/settings/GlazingPanelRequirementsTab.tsx:260 | the corrected Next stays put on or after the last page and otherwise moves one page on, never past the last |
| GlazingPanelRequirementsTab.NextAgrees | src/components/settings/GlazingPanelRequirementsTab.tsx:260 | the corrected Next never goes below page 1 and agrees with the written one up to the last page |
| GlazingPanelRequirementsTab.GlazingPanelRequirementsTabState.constructor | src/components/settings/GlazingPanelRequirementsTab.tsx:20-47 | the initial state: no rows, loading, no filters, page 1 of size 10, sorted by id ascending |
| GlazingPanelRequirementsTab.GlazingPanelRequirementsTabState.Load | src/components/settings/GlazingPanelRequirementsTab.tsx:54-81 | the query the state describes is sent; its rows and count (or empty and 0) are shown, or the error with the old rows |
| GlazingPanelRequirementsTab.GlazingPanelRequirementsTabState.LoadFilterOptions | src/components/settings/GlazingPanelRequirementsTab.tsx:83-97 | each option list is rebuilt from its column when that column returned data |
| GlazingPanelRequirementsTab.GlazingPanelRequirementsTabState.HandleFilterChange | src/components/settings/GlazingPanelRequirementsTab.tsx:100-103 | only the filter changes, and the view returns to page 1 |
| GlazingPanelRequirementsTab.GlazingPanelRequirementsTabState.HandleSort | src/components/settings/GlazingPanelRequirementsTab.tsx:105-112 | the sort after the click and nothing else |
| GlazingPanelRequirementsTab.GlazingPanelRequirementsTabState.ChangePageSize | src/components/settings/GlazingPanelRequirementsTab.tsx:253 | the new size and page 1 |
| GlazingPanelRequirementsTab.GlazingPanelRequirementsTabState.Previous | src/components/settings/GlazingPanelRequirementsTab.tsx:258 | one page back, never below 1 |
| GlazingPanelRequirementsTab.GlazingPanelRequirementsTabState.NextClick | src/components/settings/GlazingPanelRequirementsTab.tsx:260 | the page the corrected Next gives |
| GlazingPanelRequirementsTab.GlazingPanelRequirementsTabState.OpenForm | src/components/settings/GlazingPanelRequirementsTab.tsx:151 | the form opens on the item or a new one |
| GlazingPanelRequirementsTab.GlazingPanelRequirementsTabState.CloseForm | src/components/settings/GlazingPanelRequirementsTab.tsx:174-175 | the form closes with nothing being edited |
| GlazingPanelRequirementsTab.GlazingPanelRequirementsTabState.Delete | src/components/settings/GlazingPanelRequirementsTab.tsx:114-124 | a reload is asked exactly for a confirmed successful delete; a failed one shows its message |
| CurtainFabricsTab.Readings | src/components/settings/CurtainFabricsTab.tsx:277-280 | each piece is read with `parseFloat`, in order |
| CurtainFabricsTab.Numbers | src/components/settings/CurtainFabricsTab.tsx:279-281 | dropping the NaN readings never adds widths |
| CurtainFabricsTab.NumbersConcat | src/components/settings/CurtainFabricsTab.tsx:279-281 | the numbers kept keep the order of the pieces |
| CurtainFabricsTab.NumbersMembers | src/components/settings/CurtainFabricsTab.tsx:279-281 | a number is kept exactly when it is a reading |
| CurtainFabricsTab.ParseWidthsCount | src/components/settings/CurtainFabricsTab.tsx:274 | '' gives no widths, and there are never more widths than comma-separated pieces |
| CurtainFabricsTab.ParseWidthsFromPieces | src/components/settings/CurtainFabricsTab.tsx:274-281 | each width is the reading of a non-empty trimmed piece |
| CurtainFabricsTab.ParseWidthsComplete | src/components/settings/CurtainFabricsTab.tsx:274-281 | every piece that reads as a number gives a width |
| JsText.SubsequenceLength | src/components/settings/CurtainFabricsTab.tsx:276 | a filtered list is no longer than the list |
| CurtainFabricsTab.CurtainFabricsTabState.constructor | src/components/settings/CurtainFabricsTab.tsx:26-41 | no fabrics, loading, the New form |
| CurtainFabricsTab.CurtainFabricsTabState.Load | src/components/settings/CurtainFabricsTab.tsx:47-61 | the rows returned, or the old list with the error |
| CurtainFabricsTab.CurtainFabricsTabState.Submit | src/components/settings/CurtainFabricsTab.tsx:63-100 | the fabric being edited is updated, else the form inserted; a failure keeps the form open with the error; a success reloads, closes and resets the form |
| CurtainFabricsTab.CurtainFabricsTabState.Delete | src/components/settings/CurtainFabricsTab.tsx:102-118 | unconfirmed, nothing; confirmed, the delete's error or a reload |
| CurtainFabricsTab.CurtainFabricsTabState.Edit | src/components/settings/CurtainFabricsTab.tsx:120-124 | the whole fabric is copied into the open form |
| CurtainFabricsTab.CurtainFabricsTabState.New | src/components/settings/CurtainFabricsTab.tsx:137-152 | the New form opens with nothing being edited |
| CurtainFabricsTab.CurtainFabricsTabState.Cancel | src/components/settings/CurtainFabricsTab.tsx:339-342 | the form closes with nothing being edited |
| CurtainFabricsTab.CurtainFabricsTabState.ChangeText | src/components/settings/CurtainFabricsTab.tsx:193-205 | the name or type field takes the text |
| CurtainFabricsTab.CurtainFabricsTabState.ChangeNumber | src/components/settings/CurtainFabricsTab.tsx:222-327 | a number field takes `parseFloat(value)`, or 0 when that is NaN or 0 |
| CurtainFabricsTab.CurtainFabricsTabState.ChangeWidths | src/components/settings/CurtainFabricsTab.tsx:270-283 | the widths become the parsed list |
| PC8GlazingTab.SavedResetKeys | src/components/settings/PC8GlazingTab.tsx:82-92 | the save reset drops the widths and two of the company's price fields and sets a price key the company record does not have |
| PC8GlazingTab.ParseWidths | src/components/settings/PC8GlazingTab.tsx:250-252 | '' gives no widths and no width is empty |
| PC8GlazingTab.ParseWidthsSpec | src/components/settings/PC8GlazingTab.tsx:250-252 | the widths are exactly the non-blank trimmed pieces |
| PC8GlazingTab.WidthsRoundTrip | src/components/settings/PC8GlazingTab.tsx:245-252 | reading back the displayed, comma-joined widths gives the same widths |
| PC8GlazingTab.NumberReadersAgree | src/components/settings/PC8GlazingTab.tsx:230-313 | the diffusion and price inputs store NaN exactly for non-empty unreadable text, and otherwise the same number the transmittance input stores |
| PC8GlazingTab.PC8GlazingTabState.constructor | src/components/settings/PC8GlazingTab.tsx:22-41 | no companies, loading, the New form |
| PC8GlazingTab.PC8GlazingTabState.Load | src/components/settings/PC8GlazingTab.tsx:43-57 | the rows returned, or the old list with the error |
| PC8GlazingTab.PC8GlazingTabState.Submit | src/components/settings/PC8GlazingTab.tsx:59-96 | the company being edited is updated, else the form inserted; a failure keeps the form open with the error; a success reloads, closes and resets the form |
| PC8GlazingTab.PC8GlazingTabState.Delete | src/components/settings/PC8GlazingTab.tsx:98-114 | unconfirmed, nothing; confirmed, the delete's error or a reload |
| PC8GlazingTab.PC8GlazingTabState.Edit | src/components/settings/PC8GlazingTab.tsx:116-120 | the whole company is copied into the open form |
| PC8GlazingTab.PC8GlazingTabState.New | src/components/settings/PC8GlazingTab.tsx:134-148 | the New form opens with nothing being edited |
| PC8GlazingTab.PC8GlazingTabState.Cancel | src/components/settings/PC8GlazingTab.tsx:325-328 | the form closes with nothing being edited |
| PC8GlazingTab.PC8GlazingTabState.ChangeText | src/components/settings/PC8GlazingTab.tsx:189-213 | the name, product or type field takes the text |
| PC8GlazingTab.PC8GlazingTabState.ChangeTransmittance | src/components/settings/PC8GlazingTab.tsx:230 | the transmittance takes `parseFloat(value)`, or 0 when that is NaN or 0 |
| PC8GlazingTab.PC8GlazingTabState.ChangeNumber | src/components/settings/PC8GlazingTab.tsx:267-313 | a diffusion or price field takes 0 for '' and `parseFloat(value)` otherwise |
| PC8GlazingTab.PC8GlazingTabState.ChangeWidths | src/components/settings/PC8GlazingTab.tsx:246-256 | the widths become the parsed list |
| VentDrivesTab.LoadedDrive | src/components/settings/VentDrivesTab.tsx:57-61 | loading changes only the size and the compatible structures |
| VentDrivesTab.LoadedDriveSpec | src/components/settings/VentDrivesTab.tsx:57-61 | a falsy size is shown as 160 feet and missing structures as none; truthy values are kept |
| VentDrivesTab.LoadedDrives | src/components/settings/VentDrivesTab.tsx:57-61 | every returned row is loaded, in order, and a null answer gives no drives |
| VentDrivesTab.SubmitPayload | src/components/settings/VentDrivesTab.tsx:80-86 | a save sends exactly the five listed fields |
| VentDrivesTab.SubmitPayloadKeys | src/components/settings/VentDrivesTab.tsx:80-91 | the record sent holds the five fields and never the id or the creation time |
| VentDrivesTab.SubmitPayloadSpec | src/components/settings/VentDrivesTab.tsx:80-86 | a falsy size is sent as 0, falsy structures as none and a falsy drive type as Motorized; truthy values as they are |
| VentDrivesTab.SubmitPayloadTexts | src/components/settings/VentDrivesTab.tsx:80-86 | a falsy vent type is sent as Continental Roof and falsy motor details as '' |
| VentDrivesTab.SizeDefaultsDiffer | src/components/settings/VentDrivesTab.tsx:59 | a drive stored without a size shows 160 feet, but a form whose size was cleared saves 0 |
| VentDrivesTab.SizeInput | src/components/settings/VentDrivesTab.tsx:301-306 | '' clears the size, anything else is a number or NaN |
| VentDrivesTab.StructuresInput | src/components/settings/VentDrivesTab.tsx:335-340 | '' gives no structures |
| VentDrivesTab.StructuresInputSpec | src/components/settings/VentDrivesTab.tsx:335-340 | outside '', there is one structure more than there are commas, each the trimmed piece between them |
| VentDrivesTab.StructuresRoundTrip | src/components/settings/VentDrivesTab.tsx:333-340 | reading back the displayed, comma-joined list gives the same list for trimmed, comma-free names |
| VentDrivesTab.VentDrivesTabState.constructor | src/components/settings/VentDrivesTab.tsx:28-41 | no drives, loading, the default form, no pending delete |
| VentDrivesTab.VentDrivesTabState.Load | src/components/settings/VentDrivesTab.tsx:47-69 | the returned rows with their defaults, or the old list with the error |
| VentDrivesTab.VentDrivesTabState.Submit | src/components/settings/VentDrivesTab.tsx:71-133 | the five-field record is sent as an update of the drive being edited or an insert; a success reloads, closes and resets the form |
| VentDrivesTab.VentDrivesTabState.AskDelete | src/components/settings/VentDrivesTab.tsx:135-138 | the drive is remembered and the dialog shown |
| VentDrivesTab.VentDrivesTabState.CancelDelete | src/components/settings/VentDrivesTab.tsx:174-177 | the dialog hides and the pending id is cleared |
| VentDrivesTab.VentDrivesTabState.ConfirmDelete | src/components/settings/VentDrivesTab.tsx:140-172 | with no pending id nothing happens; otherwise the delete is sent exactly when signed in, the auth, sign-in or delete error is shown or the list reloaded, and the dialog always closes |
| VentDrivesTab.VentDrivesTabState.Edit | src/components/settings/VentDrivesTab.tsx:179-183 | the whole drive is copied into the open form |
| VentDrivesTab.VentDrivesTabState.New | src/components/settings/VentDrivesTab.tsx:220-230 | the default form opens with nothing being edited |
| VentDrivesTab.VentDrivesTabState.Cancel | src/components/settings/VentDrivesTab.tsx:251-254 | the form closes with nothing being edited |
| VentDrivesTab.VentDrivesTabState.ChangeText | src/components/settings/VentDrivesTab.tsx:269-322 | the drive type, vent type or motor field takes the text |
| VentDrivesTab.VentDrivesTabState.ChangeSize | src/components/settings/VentDrivesTab.tsx:301-306 | the size takes the read input |
| VentDrivesTab.VentDrivesTabState.ChangeStructures | src/components/settings/VentDrivesTab.tsx:335-340 | the structures take the read list |
| RollupDropDrivesTab.RollupDropDrivesTabState.constructor | src/components/settings/RollupDropDrivesTab.tsx:19-30 | no drives, loading, the default form |
| RollupDropDrivesTab.RollupDropDrivesTabState.Load | src/components/settings/RollupDropDrivesTab.tsx:36-50 | the rows as they come, or the old list with the error |
| RollupDropDrivesTab.RollupDropDrivesTabState.Submit | src/components/settings/RollupDropDrivesTab.tsx:52-84 | the form is sent as it stands, as an update of the drive being edited or an insert; a success reloads, closes and resets the form |
| RollupDropDrivesTab.RollupDropDrivesTabState.Delete | src/components/settings/RollupDropDrivesTab.tsx:86-103 | the delete is sent exactly when confirmed, for that drive; then the list reloads or the error shows |
| RollupDropDrivesTab.RollupDropDrivesTabState.Edit | src/components/settings/RollupDropDrivesTab.tsx:105-109 | the drive is copied unchanged into the open form |
| RollupDropDrivesTab.RollupDropDrivesTabState.New | src/components/settings/RollupDropDrivesTab.tsx:123-134 | the default form opens with nothing being edited |
| RollupDropDrivesTab.RollupDropDrivesTabState.Cancel | src/components/settings/RollupDropDrivesTab.tsx:155-158 | the form closes with nothing being edited |
| RollupDropDrivesTab.RollupDropDrivesTabState.ChangeText | src/components/settings/RollupDropDrivesTab.tsx:173-224 | the drive type, wall type or motor field takes the text |
| RollupDropDrivesTab.RollupDropDrivesTabState.ChangeLength | src/components/settings/RollupDropDrivesTab.tsx:203-209 | '' clears the maximum length, anything else is read as a number |
| RollupDropDrivesTab.RollupDropDrivesTabState.ChangeStructures | src/components/settings/RollupDropDrivesTab.tsx:237-242 | the structures take the trimmed comma-separated pieces, none for '' |
| PolyGlazingTab.NumberOrZero | src/components/settings/PolyGlazingTab.tsx:62 | always a number: the number itself, or 0 for a missing or unreadable value |
| PolyGlazingTab.NumericData | src/components/settings/PolyGlazingTab.tsx:60-67 | the record sent has the form's fields and the five numeric ones |
| PolyGlazingTab.NumericDataSpec | src/components/settings/PolyGlazingTab.tsx:60-67 | every numeric field is sent as a number (0 when missing or unreadable), every other field as it stands |
| PolyGlazingTab.NumericDataIdempotent | src/components/settings/PolyGlazingTab.tsx:60-67 | converting twice changes nothing more |
| PolyGlazingTab.DefaultFormNumeric | src/components/settings/PolyGlazingTab.tsx:24-33 | the new company form is already clean |
| PolyGlazingTab.WidthsInput | src/components/settings/PolyGlazingTab.tsx:251-254 | one width more than there are commas, each the trimmed piece between them |
| PolyGlazingTab.EmptyWidthsInput | src/components/settings/PolyGlazingTab.tsx:253 | an empty input is one empty width, not none |
| PolyGlazingTab.WidthsRoundTrip | src/components/settings/PolyGlazingTab.tsx:249-254 | reading back the displayed, comma-joined widths gives the same non-empty list; an empty list comes back as one empty width |
| PolyGlazingTab.PolyGlazingTabState.constructor | src/components/settings/PolyGlazingTab.tsx:19-33 | no companies, loading, the default form |
| PolyGlazingTab.PolyGlazingTabState.Load | src/components/settings/PolyGlazingTab.tsx:39-53 | the rows as they come, or the old list with the error |
| PolyGlazingTab.PolyGlazingTabState.Submit | src/components/settings/PolyGlazingTab.tsx:55-101 | the converted form is sent as an update of the company being edited or an insert; a success reloads, closes and resets the form |
| PolyGlazingTab.PolyGlazingTabState.Delete | src/components/settings/PolyGlazingTab.tsx:103-119 | the delete is sent exactly when confirmed, for that company; then the list reloads or the error shows |
| PolyGlazingTab.PolyGlazingTabState.Edit | src/components/settings/PolyGlazingTab.tsx:121-125 | the company is copied into the open form |
| PolyGlazingTab.PolyGlazingTabState.New | src/components/settings/PolyGlazingTab.tsx:139-153 | the default form opens with nothing being edited |
| PolyGlazingTab.PolyGlazingTabState.Cancel | src/components/settings/PolyGlazingTab.tsx:174-177 | the form closes with nothing being edited |
| PolyGlazingTab.PolyGlazingTabState.ChangeText | src/components/settings/PolyGlazingTab.tsx:193-206 | the name or type field takes the text |
| PolyGlazingTab.PolyGlazingTabState.ChangeNumber | src/components/settings/PolyGlazingTab.tsx:219-298 | a numeric field takes 0 for '' and `parseFloat(value)` otherwise |
| PolyGlazingTab.PolyGlazingTabState.ChangeWidths | src/components/settings/PolyGlazingTab.tsx:251-254 | the widths take the read list |
| GlazingPanelRequirementForm.PrefillForm | src/components/settings/GlazingPanelRequirementForm.tsx:43-67 | with an item, the form holds exactly its eight fields (not its id); without one, the blank form |
| GlazingPanelRequirementForm.InputValue | src/components/settings/GlazingPanelRequirementForm.tsx:70-79 | '' is stored as null for every input, a number input as `Number(value)`, a text input as its text |
| GlazingPanelRequirementForm.DataToSubmit | src/components/settings/GlazingPanelRequirementForm.tsx:87-96 | the record sent holds exactly the eight fields |
| GlazingPanelRequirementForm.DataToSubmitSpec | src/components/settings/GlazingPanelRequirementForm.tsx:87-96 | falsy model, width and eave height become '', 0 and 0; vent type and bay pass through, null included |
| GlazingPanelRequirementForm.DataToSubmitTexts | src/components/settings/GlazingPanelRequirementForm.tsx:91-93 | falsy section, material and panel length become '' |
| GlazingPanelRequirementForm.PrefillThenSubmit | src/components/settings/GlazingPanelRequirementForm.tsx:43-96 | opening an item and saving it unchanged sends back its eight fields when its required fields are truthy |
| GlazingPanelRequirementForm.BlankSubmit | src/components/settings/GlazingPanelRequirementForm.tsx:28-37 | the blank form is sent as it is |
| GlazingPanelRequirementForm.ChooseWrite | src/components/settings/GlazingPanelRequirementForm.tsx:99-110 | an update of the item's row exactly when there is an item with a truthy id, otherwise an insert, of the same data |
| GlazingPanelRequirementForm.GlazingPanelRequirementFormState.constructor | src/components/settings/GlazingPanelRequirementForm.tsx:29-67 | mounting prefills the form from the item |
| GlazingPanelRequirementForm.GlazingPanelRequirementFormState.ItemChanged | src/components/settings/GlazingPanelRequirementForm.tsx:43-67 | the form is prefilled from the new item |
| GlazingPanelRequirementForm.GlazingPanelRequirementFormState.HandleChange | src/components/settings/GlazingPanelRequirementForm.tsx:70-79 | only the named field changes, to the stored input |
| GlazingPanelRequirementForm.GlazingPanelRequirementFormState.Submit | src/components/settings/GlazingPanelRequirementForm.tsx:81-118 | the chosen write of the submitted record; `onSubmit` exactly on success, otherwise the error |
| GlazingRequirementForm.InitialRequirementFormSpec | src/components/settings/GlazingRequirementForm.tsx:35-50 | a new requirement has the thirteen fields, is PC8 with zero dimensions and every optional field null |
| GlazingRequirementForm.Prefill | src/components/settings/GlazingRequirementForm.tsx:56-74 | with an item, the form holds exactly its thirteen fields (not its id); without one, it stays |
| GlazingRequirementForm.InputValue | src/components/settings/GlazingRequirementForm.tsx:77-87 | a cleared number input is null, another number input `Number(value)`, a text input its text, '' included |
| GlazingRequirementForm.ClearedTextDiffers | src/components/settings/GlazingRequirementForm.tsx:84-86 | a cleared text input is stored as '' here but as null on the panel requirement form |
| GlazingRequirementForm.ZeroIdWritesDiffer | src/components/settings/GlazingRequirementForm.tsx:96 | an item with id 0 is updated by this form but inserted by the panel requirement form |
| GlazingRequirementForm.GlazingRequirementFormState.constructor | src/components/settings/GlazingRequirementForm.tsx:35-74 | the initial form, prefilled from the item |
| GlazingRequirementForm.GlazingRequirementFormState.ItemChanged | src/components/settings/GlazingRequirementForm.tsx:56-74 | the form is prefilled from the new item |
| GlazingRequirementForm.GlazingRequirementFormState.HandleChange | src/components/settings/GlazingRequirementForm.tsx:77-87 | only the named field changes, to the stored input |
| GlazingRequirementForm.GlazingRequirementFormState.Submit | src/components/settings/GlazingRequirementForm.tsx:90-121 | the chosen write of the form as it stands; `onSubmit` exactly on success, otherwise the error |
| StructureForm.InitialForm | src/components/settings/StructureForm.tsx:30-43 | the structure being edited, or the new-structure form |
| StructureForm.NewStructureDefaults | src/components/settings/StructureForm.tsx:31-43 | a new structure is an SL36, 30 feet wide, with one zone and Standard elevation |
| StructureForm.SavePayload | src/components/settings/StructureForm.tsx:52-60 | the record saved has the form's fields and the four defaulted ones |
| StructureForm.SavePayloadSpec | src/components/settings/StructureForm.tsx:52-73 | falsy elevation, zones and partitions are saved as Standard, 1 and 0; every other field as it stands |
| StructureForm.ZeroZonesSavedAsOne | src/components/settings/StructureForm.tsx:57 | a structure with zero zones is saved with one |
| StructureForm.SavePayloadIdempotent | src/components/settings/StructureForm.tsx:52-73 | saving what a save sent sends it again unchanged |
| StructureForm.StructureFormState.constructor | src/components/settings/StructureForm.tsx:27-43 | the initial form, no error, not loading |
| StructureForm.StructureFormState.HandleChange | src/components/settings/StructureForm.tsx:86-92 | only the named field changes, as a number for number inputs |
| StructureForm.StructureFormState.Submit | src/components/settings/StructureForm.tsx:45-84 | an update of the structure's row exactly when a structure was given, otherwise an insert, of the same defaulted record; `onSubmit` exactly on success, otherwise the error |
| NewProjectModal.FindStructure | src/components/NewProjectModal.tsx:92 | the first structure with the id, or none exactly when no structure has it |
| NewProjectModal.ApplyTemplate | src/components/NewProjectModal.tsx:96-101 | width, eave height and roof glazing come from the template, every other field stays |
| NewProjectModal.Entry | src/components/NewProjectModal.tsx:75-79 | the entry has the form's fields, the user's id unless the form has its own, and always the template's id |
| NewProjectModal.NewProjectModalState.constructor | src/components/NewProjectModal.tsx:19-43 | not loading, no error, no structures, no template, the initial form |
| NewProjectModal.NewProjectModalState.LoadStructures | src/components/NewProjectModal.tsx:45-61 | the structures returned, or the old list with the error |
| NewProjectModal.NewProjectModalState.SelectStructure | src/components/NewProjectModal.tsx:91-103 | an unknown id changes nothing; otherwise that structure is the template and fills the form |
| NewProjectModal.NewProjectModalState.HandleChange | src/components/NewProjectModal.tsx:105-111 | only the named field changes, as a number for number inputs |
| NewProjectModal.NewProjectModalState.Submit | src/components/NewProjectModal.tsx:63-89 | without a template nothing is inserted and the error asks for one; otherwise the entry is inserted and `onSuccess` runs exactly on success |

Functions without a row of their own, each with the members whose rows state its properties:

- `TypeRewrite.UpdateTypes` (scripts/update-supabase-types.js:22-39): `TypeRewrite.OnlyFirstPass`, `TypeRewrite.NotIdempotent`.
- `TypeRewrite.RemoveSpaced` (scripts/update-supabase-types.js:31-32): `TypeRewrite.RemoveSpacedNoMatch`, `TypeRewrite.RemoveSpacedMatch`, `TypeRewrite.KeepWord`, `TypeRewrite.KeepSpaces`.
- `TypeRewrite.ReplaceAll` (scripts/update-supabase-types.js:35-36): `TypeRewrite.ReplaceAllNoMatch`, `TypeRewrite.ReplaceAllMatch`.
- `SchemaMigration.ModifiedCsv`: `SchemaMigration.ModifySchema`, `SchemaMigration.ModifiedLines`.
- `SchemaMigration.Newest`: `SchemaMigration.NewestIsFirstMaximum`, `SchemaMigration.FindMostRecentExport`.
- `SchemaMigration.DataRow`: `SchemaMigration.TransformLine`, `SchemaMigration.RowIntact`.
- `SchemaMigration.RemoveAt` and `SchemaMigration.KeepOthers`: `SchemaMigration.RemoveAtKeepsOrder`, `SchemaMigration.KeepOthersRemoves`.
- `Database.RowsOr` (`data || []`, src/components/ProjectDetails.tsx:352): `ProjectDetails.ProjectPage.AddVent`, `ProjectDetails.ProjectPage.UpdateVent` and the `Load` handlers of the settings tabs.
- `CsvImport.ParseCsvSpec`: `CsvImport.ParseCsv`.
- `CsvImport.ImportValue`: `CsvImport.ImportValueCases`.
- `CsvImport.SplitLine` and `CsvImport.Scan`: `CsvImport.SplitQuotedLine`, `CsvImport.ValueCount`, `CsvImport.ScanCount`, `CsvImport.EscapedQuoteKept`, `CsvImport.QuoteDropped`.
- `CsvExport.CellText` and `CsvExport.RowLine`: `CsvExport.CellTextNoBreak`, `CsvExport.RowLines`, `CsvRoundTrip.SplitRowLine`.
- `JsText.JoinCommaSpace`: `JsText.JoinCommaSpaceSpaced`, `JsText.SplitTrimJoin`.
- `ProjectDetails.ChooseWidth`: `ProjectDetails.ChooseWidthIsLeastFit`.
- `ProjectDetails.ScreenPrice`: `ProjectDetails.ScreenPriceWithoutWidths`, `ProjectDetails.ScreenPriceOfLeastFit`, `ProjectDetails.ScreenPriceOfSmallest`.
- `ProjectDetails.ScreenFields`, `ProjectDetails.VentColumns` and `ProjectDetails.VentUpdateColumnsAsWritten`: `ProjectDetails.VentColumnsCarryDrive`, `ProjectDetails.DriveChangeDropped`, `ProjectDetails.ProjectPage.AddVent`, `ProjectDetails.ProjectPage.UpdateVent`.
- `VentForm.ChangeVentForm` and `VentForm.ScreenChange`: `VentForm.ChangeTouchesNamedField`, `VentForm.ChangeStoresInput`, `VentForm.ScreenAfterChange`, `VentForm.ChooseScreenType`, `VentForm.QuantityEditSyncsScreen`.
- `VentForm.Reconcile`: `VentForm.ReconcileSpec`.
- `ProjectDetails.Tier` and `ProjectDetails.TierPrice` (src/components/ProjectDetails.tsx:57-59): `ProjectDetails.PriceByTier`, `ProjectDetails.PriceTierMonotone`.
- `ProjectDetails.Matching` (src/components/ProjectDetails.tsx:444): `ProjectDetails.RemoveWhere`.
- `GlazingRequirementsTab.Cond` (src/components/settings/GlazingRequirementsTab.tsx:66-77): `GlazingRequirementsTab.InConditionsWith`, `GlazingRequirementsTab.ConditionsWithIn`.
- `VentForm.EditedVentData`: `VentForm.EditedVentDataSpec`, `VentForm.VentFormState.VentChanged`.
- `VentForm.SubmitPayload`, `VentForm.SyncScreen` and `VentForm.DriveIdValue`: `VentForm.SubmitPayloadSpec`, `VentForm.VentFormState.HandleSubmit`.
- `VentForm.OfferedDrives`, `VentForm.ByVentType`, `VentForm.ByStructure` and `VentForm.ByLength`: `VentForm.OfferedDrivesSpec`, `VentForm.FilterChain`, `VentForm.ByStructureConcat`, `VentForm.ByLengthConcat`.
- `VentForm.SizesFor`: `VentForm.VentTypeChange`, `VentForm.WallVentSizes`.
- `RollupWallForm.SubmitRollup`: `RollupWallForm.SubmitRollupSpec`, `RollupWallForm.SidewallOptionsValid`.
- `RollupWallForm.RunEffects`: `RollupWallForm.RollupWallFormState.HandleChange`, `RollupWallForm.ChangeKeepsSidewallHeightValid`.
- `RollupWallForm.MountedRollupForm` and `RollupWallForm.InitialRollupForm`: `RollupWallForm.MountedRollupFormSpec`, `RollupWallForm.NewRollupWall`, `RollupWallForm.InitialRollupFields`.
- `RollupWallForm.ResetWallHeight` and `RollupWallForm.ResetFrameHeight`: `RollupWallForm.ResetWallHeightSpec`, `RollupWallForm.ResetFrameHeightSpec`, `RollupWallForm.ResetsIdempotent`.
- `RollupWallForm.HeightOptions` and `RollupWallForm.FrameHeightOptions`: `RollupWallForm.HeightOptionsSpec`.
- `DropWallForm.MountedDropFormAsWritten`: `DropWallForm.EditedHeightOverwritten`; `DropWallForm.MountedDropForm`: `DropWallForm.MountedDropFormSpec`, `DropWallForm.NewDropWall`.
- `GlazingPanelRequirementsTab.NextAsWritten`: `GlazingPanelRequirementsTab.NextOnEmptyListing`, `GlazingPanelRequirementsTab.NextAgrees`.
- `GlazingWizard.Aggregate` and `GlazingWizard.AggregateOver`: `GlazingWizard.AggregateSpec`, `GlazingWizard.AggregatedLine`, `GlazingWizard.AggregateOverOrder`, `GlazingWizard.AggregateOverLines`, `GlazingWizard.AggregateOverComplete`.
- `GlazingWizard.ChangeMaterial`: `GlazingWizard.ChangeMaterialSpec`, `GlazingWizard.ChangeMaterialUndo`.
- `GlazingWizard.AreaSum`: `GlazingWizard.AreaSumConcat`, `GlazingWizard.AreaSumNonNegative`.
- `GlazingWizard.NormalizeModel`: `GlazingWizard.NormalizeModelSpec`.
- `GlazingRequirementsTab.Unique`: `GlazingRequirementsTab.UniqueMembers`, `GlazingRequirementsTab.UniqueDistinct`, `GlazingRequirementsTab.UniqueFirstOccurrence`, `GlazingRequirementsTab.UniqueOfDistinct`.
- `GlazingRequirementsTab.NextDisabled`: `GlazingRequirementsTab.GlazingRequirementsTabState.Next`.
- `CurtainFabricsTab.ParseWidths`: `CurtainFabricsTab.ParseWidthsCount`, `CurtainFabricsTab.ParseWidthsFromPieces`, `CurtainFabricsTab.ParseWidthsComplete`.
- `NewProjectModal.NewProjectModalState.SubmitDisabled` (src/components/NewProjectModal.tsx:436): the button is disabled exactly in the no-template case that `NewProjectModal.NewProjectModalState.Submit` rejects, and while loading.

## Left out

- Database queries, authentication and remote procedure calls are not modelled. Each operation takes the database's answer as a parameter: the rows a select returned, whether a write succeeded, or its error message.
- The file system, `readline`, `process.env`, `process.exit` and console output of the four scripts are not modelled. The directory listing and file modification times are inputs. Reading, backing up and writing files, and the export's timestamped file name, are left out.
- `window.confirm` is a `confirmed` parameter. Every handler that can fail takes the message it would show as a parameter (`failure`, or the message inside a failed `Database.Fetch`). Which text that is (`err.message`, a fixed fallback such as 'An error occurred while creating the vent', or `error.message` of the answer) is not modelled. Console logging is left out.
- JavaScript numbers are mathematical reals. IEEE rounding, `NaN` arithmetic, `Infinity` and `toFixed` display are not modelled.
- JsValue.NumberOf: reads only decimal literals `[+-]digits[.digits]`, after trimming. JavaScript's `Number` also reads exponent ("1e3"), hexadecimal ("0x1A"), `Infinity`, leading-dot (".5") and trailing-dot ("1.") forms as numbers; here each of them is not a number.
- JsValue.ParseFloat: reads the longest prefix of the form `[+-]digits[.digits]` and stops at an exponent or a hexadecimal letter, so "1e3" is 1 here and 1000 in JavaScript. A text starting with a dot (".5") or with `Infinity` is not a number here, where JavaScript's `parseFloat` gives 0.5 or `Infinity`.
- Number-to-string conversion is not modelled. The round trip of a width list shown in an input and read back is therefore not stated for CurtainFabricsTab.
- JSX rendering, CSS, and UI-only state are not modelled. This covers modal and form visibility, the `isEditing`, `isSaving` and `isDeleting` flags, the share modal, and the project page's drive and fabric lookup tables.
- React scheduling is not modelled. Each handler or effect runs atomically on the state it starts from, and effect interleavings and stale closures are not captured.
- ProjectDetails' fabric load (`fetchFabrics`) and its structure save, cancel and delete handlers (src/components/ProjectDetails.tsx:172-268) are database round trips with no rule of their own. The structure load (`fetchStructure`) and `handleInputChange` are modelled.
- VentForm.ToUpper: upper-cases the ASCII letters a-z only. JavaScript's `toUpperCase` (src/components/VentForm.tsx:90) is Unicode-aware: it also maps letters such as 'é', can lengthen the text ('ß' becomes 'SS'), and maps the long s 'ſ' and the dotless 'ı' to 'S' and 'I', so a model beginning "ſl" would get the Solar Light vent in the source and the Continental here.
- JsValue.ParseInt: reads decimal digits only. JavaScript's `parseInt` without a radix (src/components/settings/GlazingRequirementsTab.tsx:73, 76) reads a `0x` or `0X` prefix as hexadecimal, so a width filter of "0x1A" is 26 in the source and 0 here.
- CsvRecords.Put: keeps keys in insertion order. JavaScript objects list integer-like keys ("0", "12") first, in ascending order, before the other keys in insertion order, so a CSV header that is an integer-like text would move to the front of `Object.keys` on export (scripts/import-glazing-requirements.js:74, scripts/export-glazing-requirements.js:36). Headers that are not integer-like keep the order modelled.
- ProjectDetails.ProjectPage.UpdateVent: the screen write is the update by `vent_id` that the handler sends. There is no screen table in the model, so it does not state that a screen added while editing a vent that had none is never stored (the update matches no row), nor that removing the screen leaves its row in place.
- SchemaMigration.FindMostRecentExport: the in-place stable sort is stated by its result, the first newest candidate. The order it leaves the array in is not modelled.
- TypeRewrite: the rewrite is not idempotent. `TypeRewrite.NotIdempotent` exhibits text from which the first deletion assembles a new `length` field that a second run would remove. No idempotence is claimed.
- src/lib/supabase.ts (`getPanelLength`), scripts/check-table.js, scripts/create_excel_templates.py and src/components/ShareProjectModal.tsx are not part of this model.
- Type declaration files (src/types/) are not modelled. Their record shapes appear as the datatypes and maps above.

## Findings

| source | as written | input that shows it | evidently intended | confidence | as-written member | corrected member |
|---|---|---|---|---|---|---|
| src/components/VentForm.tsx:401-411 | `handleVentTypeChange` reads `DEFAULT_VENT_SIZES[newType][0]`, but 'Oxnard Vent', 'Pad Vent' and 'Wall Vent' are offered vent types without an entry there | choosing vent type "Oxnard Vent" | a type without its own entry takes the sizes listed for it with its configuration (such as 'Wall Vent Single'), and otherwise keeps the current size, instead of faulting | not executed | VentForm.VentTypeChangeAsWritten, VentForm.OfferedTypesFault | VentForm.VentTypeChange, VentForm.VentTypeChangeAgrees |
| src/components/DropWallForm.tsx:54-60 | the type effect also runs on mount and resets the height to the type's first option | editing a Guttered drop wall stored 10 feet high opens it showing 8 feet | the mount keeps a stored height that is already one of the type's options | not executed | DropWallForm.MountedDropFormAsWritten, DropWallForm.EditedHeightOverwritten | DropWallForm.MountedDropForm, DropWallForm.MountedDropFormSpec |
| src/components/settings/GlazingPanelRequirementsTab.tsx:260 | Next is disabled only when `page === ceil(totalCount / pageSize)` | totalCount 0 on page 1: the page count is 0, so Next stays enabled and moves to page 0, which asks for rows -pageSize to -1 | Next is disabled on and after the last page, so the page never drops below 1 | not executed | GlazingPanelRequirementsTab.NextAsWritten, GlazingPanelRequirementsTab.NextOnEmptyListing | GlazingPanelRequirementsTab.Next, GlazingPanelRequirementsTab.NextAgrees |
| src/components/ProjectDetails.tsx:366-377 | `handleUpdateVent` updates the vent's seven descriptive columns but not `drive_id`, which `handleAddVent` inserts (src/components/ProjectDetails.tsx:286-297) | editing a vent and choosing another drive in the form: the update sent is the same as with the old drive, so the vent keeps its old drive | the update carries `drive_id` like the insert | not executed | ProjectDetails.VentUpdateColumnsAsWritten, ProjectDetails.DriveChangeDropped | ProjectDetails.VentColumns, ProjectDetails.VentColumnsCarryDrive |
