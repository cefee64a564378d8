# Sell-out SharePoint loader, modelled in Dafny

The system reads a customer's sell-out spreadsheets from a SharePoint document
library and appends them to a SQL Server table. For each customer, a YAML schema
names the expected columns, a SQL column name for each (`sql_field`) and a type
tag for each (`type`). One run does the following:

1. It loads that schema into a `CustomerConfig`.
2. It lists the folder and keeps the files whose list-item `Status` is unset or `"Error"`.
3. It downloads each kept file into a pandas frame of text cells.
4. It validates each frame with `validate_excel_file`:
   - the missing-column check, where an empty frame takes precedence;
   - coercion of each column in `dtypes_mapping` order, stopping at the first failure;
   - renaming and projection onto `columns_mapping`'s targets;
   - a `customer_code` column.
5. It appends the validated frame to the configured table.
6. It patches the file's list item to `"Cargado"`, or to `"Error"` with a description.

The model has six modules, in the source's own structure:

| file | module | models |
|---|---|---|
| `wrappers.dfy` | `Wrappers` | `Option` and `Result` |
| `dicts.dfy` | `Dicts` | Python dicts as ordered sequences of entries with unique keys |
| `frames.dfy` | `Frames` | a DataFrame as a value: labelled columns of cells over `rows` rows; `df.empty`; `rename`, `df[labels]` and constant-column assignment |
| `settings.dfy` | `Settings` | `CustomerConfig.load_from_yaml` from the parsed document on; `ExcelFileMetadata` as the class `ExcelFile`, whose `df` is reassigned in place |
| `sp_utilities.dfy` | `SpUtilities` | file selection; the download outcome; the status request body and the patch log; `validate_excel_file` with its coercion loop |
| `main_loop.dfy` | `Orchestrator` | the loop of `main`: validate, append, except, finally; the whole run |

External effects become parameters:
- the download of a drive item is a function `fetch` from item id to an outcome (request failed, not a workbook, or a workbook with its sheet count and first sheet);
- whether a text cell parses under a type tag is a predicate `canParse`;
- the database append is a function `rejects` from table and frame to the error it raises, if any;
- the status patches are recorded, in order, in a `StatusLog`.

The loop of `main` is modelled twice. The first is the imperative method
`Orchestrator.ProcessFiles`, over the `ExcelFile` objects, with the local
`error_description`. The second is the specification fold `Orchestrator.RunFiles`
over each file's outcome. The method is proved to produce exactly the fold's
patches, appends and final frames. The lemmas about the run are proved about the fold.

## Model

| member | source | states |
|---|---|---|
| `Settings.FieldOf` | src/config/settings.py:37-38 | The comprehension `{col: d[field]}` succeeds exactly when every column entry has the field. It keeps the document's key order, and entry i's value is `columns[i][field]`. Otherwise it raises KeyError(field). |
| `Settings.LoadFromYaml` | src/config/settings.py:31-40 | A config is built exactly when every key it reads is present; otherwise the KeyError is returned. The identifiers are copied from `source` (drive id from `library_id`) and `target.table`, and the customer code is the one requested. `expected_columns` is the key set of `columns`. Both maps have the same key sequence as `columns`, with `sql_field` and `type` as values. So the three views share one key set. |
| `Settings.ExcelFile.constructor` | src/config/settings.py:87-93 | A record carries its id, name, list item and status, and no frame until download. |
| `Frames.AssignConstant` | src/utils/sp_utilities.py:289 | `df[name] = value`: the row count is kept. Every column carrying the label is filled with the constant; when none does, one is appended at the end. The other columns are untouched, and well-formedness is kept. |
| `Frames.LabelledExact` | src/utils/sp_utilities.py:287 | The columns one label selects are exactly the frame's columns that carry that label: each selected column is one of them, and none of them is left out. |
| `Frames.LabelledAppend` | src/utils/sp_utilities.py:287 | Selecting by one label keeps frame order and repeated labels: over two runs of columns it gives the first run's matches followed by the second's. |
| `Frames.SelectColumnsSound` | src/utils/sp_utilities.py:287 | `df[labels]` yields only columns of the frame, each carrying a requested label. |
| `Frames.SelectExact` | src/utils/sp_utilities.py:287 | Over distinct labels, all of them present, `df[labels]` has exactly those labels in that order. |
| `Frames.RenameUnique` | src/utils/sp_utilities.py:286 | Renaming keeps labels distinct when the map is injective and no unmapped column already carries a target. |
| `Frames.SelectRenameKeepsRows` | src/utils/sp_utilities.py:286-287 | Renaming and projecting keep the index and well-formedness. Every output column is a column of the input, under its renamed label (a requested one), with its cells unchanged. |
| `SpUtilities.Selected` | src/utils/sp_utilities.py:204-208 | Every selected file is a listed file whose status is None or "Error", every such listed file is selected, and no more files than were listed. |
| `SpUtilities.SelectedAppend` | src/utils/sp_utilities.py:204-208 | Selection preserves listing order: selecting from a concatenation concatenates the selections. |
| `SpUtilities.SelectUnprocessed` | src/utils/sp_utilities.py:202-208 | The filtering loop builds exactly the selection. |
| `SpUtilities.DownloadAll` | src/utils/sp_utilities.py:224-226 | The gather gives every selected record its downloaded frame. |
| `SpUtilities.GetUnprocessedFilesContent` | src/utils/sp_utilities.py:196-228 | It returns None exactly when no file qualifies, and then touches no record. Otherwise it returns the selected records in listing order, each holding its downloaded frame; records not selected keep their frame. |
| `SpUtilities.Materialise` | src/utils/sp_utilities.py:175-189 | A failed request, an unreadable workbook, a workbook of more than one sheet or a failed sheet read all give the empty frame. A single-sheet workbook gives its first sheet as read (the empty frame when that read failed). |
| `SpUtilities.GetFileContentIntoDf` | src/utils/sp_utilities.py:165-193 | It returns the same record, whose frame is now the downloaded frame; nothing else changes. |
| `SpUtilities.RequestBody` | src/utils/sp_utilities.py:233-248 | The Status is the given status. ErrorDescription is non-empty exactly when the given description is truthy, and is then that description. |
| `SpUtilities.StatusLog.UpdateListItemStatus` | src/utils/sp_utilities.py:231-250 | One patch, with that body, is sent to the given site, list and item after all earlier ones. |
| `SpUtilities.ErrorMessage` | src/utils/sp_utilities.py:263-283 | Every validation error has a non-empty message, so the description it yields is truthy. |
| `SpUtilities.CoerceColumn` | src/utils/sp_utilities.py:268-280 | int, float and date fail exactly when some cell of the column does not parse. Otherwise every cell of the column becomes that type, parsed from its own text. str always succeeds, and every cell of the column becomes a string of its own text. Any other tag leaves the frame as it was. Other columns and all texts are unchanged. |
| `SpUtilities.CoerceAll` | src/utils/sp_utilities.py:268-283 | The coercion loop keeps every label and text, and a failure names a column of `dtypes_mapping`. When each label is listed once, a success leaves every column as `CoercedColumn` describes it, column by column. A listed int, float or date column holds cells parsed from their own text under that tag. A listed str column holds its texts as strings. A column of any other tag, or one not listed, is unchanged. |
| `SpUtilities.CoerceStep` | src/utils/sp_utilities.py:268-280 | One coercion step followed by the remaining entries gives each column what the column-by-column description over all entries gives it. |
| `SpUtilities.CoerceSucceedsIff` | src/utils/sp_utilities.py:268-283 | Coercion succeeds exactly when every entry of `dtypes_mapping` converts on the downloaded frame. |
| `SpUtilities.CoerceFailFast` | src/utils/sp_utilities.py:268-283 | When entry k is the first that does not convert, coercion fails naming that column, whatever follows. |
| `SpUtilities.ValidateExcelFile` | src/utils/sp_utilities.py:255-291 | The validation of the record's frame, with its loop. EmptyExcelSheet is raised exactly when a column is missing and the frame is empty. MissingColumns is raised exactly when a column is missing and the frame is not empty, naming the file and exactly the missing set. A conversion error names the file and comes only after the missing check passed. A success is `Validate`'s frame, whose columns and cells `ValidatedColumnsExact` and `ValidatedCarriesSheet` describe. |
| `SpUtilities.ValidateSucceedsIff` | src/utils/sp_utilities.py:258-283 | Validation succeeds exactly when no expected column is missing and every typed column converts. |
| `SpUtilities.MissingPrecedesCoercion` | src/utils/sp_utilities.py:258-265 | With a column missing, the outcome does not depend on any cell parse, so no column is coerced. It is EmptyExcelSheet for an empty frame and otherwise MissingColumns with the missing set. |
| `SpUtilities.ValidateReportsFirstInconvertible` | src/utils/sp_utilities.py:268-283 | With every expected column present, the error names the first column in `dtypes_mapping` order that does not convert. |
| `SpUtilities.TargetsPresent` | src/utils/sp_utilities.py:286 | After the rename, every target of `columns_mapping` labels some column. |
| `SpUtilities.NormalisedLabels` | src/utils/sp_utilities.py:286-289 | The renamed, projected and stamped frame keeps the row count and well-formedness. It contains every target and a `customer_code` column filled with the customer code, and no other label. |
| `SpUtilities.ValidatedShape` | src/utils/sp_utilities.py:286-291 | A validated frame has the input's rows. Its `customer_code` column holds the customer code on every row. Only targets and `customer_code` label it, and every target does. It is empty exactly when the sheet had no rows. |
| `SpUtilities.ValidatedColumnsExact` | src/utils/sp_utilities.py:286-289 | Suppose the sheet has distinct labels, the rename map is injective, no unmapped column carries a target, and no target is `customer_code`. Then the validated columns are exactly the targets in mapping order, followed by `customer_code`. Target p's column holds the coerced cells of the sheet column whose label maps to it. |
| `SpUtilities.NormalisedExact` | src/utils/sp_utilities.py:286-289 | Under the same conditions on the coerced frame, rename, projection and stamp give the targets in mapping order, then `customer_code`. Target p's column holds the cells of the column whose label maps to it. |
| `SpUtilities.ValidatedCarriesSheet` | src/utils/sp_utilities.py:268-289 | A validated frame carries the sheet's data. Every column except `customer_code` is a sheet column under its renamed label, holding that column's cells as the coercion loop converted them. |
| `SpUtilities.ValidateExample` | src/utils/sp_utilities.py:255-291 | The one-row sheet {A: "1", B: "2024-01-02"}, under the schema {A: int as colA, B: date as colB} for customer C001, validates to exactly three columns. colA holds the integer parsed from "1", colB the date parsed from "2024-01-02", and `customer_code` (the stamp's name at src/utils/sp_utilities.py:289) holds "C001". |
| `SpUtilities.RejectedDownloadStaysEmpty` | src/utils/sp_utilities.py:258-263 | After a failed or multi-sheet download, validation reports an empty sheet whenever any column is expected, and never yields rows. |
| `Orchestrator.Engine.ToSql` | src/main.py:32-35 | The append commits the frame to the named table exactly when the database does not reject it, and raises the rejection otherwise. |
| `Orchestrator.ValidateAndLoad` | src/main.py:29-35 | The try block: when validation succeeds, the record's frame becomes the validated frame before the append, and keeps it even when the append raises. When validation raises, the frame is left as it was. An exception comes from validation or from the append. Only a successful append is committed. |
| `Orchestrator.ProcessFile` | src/main.py:29-59 | One iteration. After an exception the frame is empty and `error_description` holds the exception's text. A non-empty frame is patched "Cargado". An empty one is patched "Error" with `error_description`, or the run aborts when `error_description` is still unbound. |
| `Orchestrator.ProcessFiles` | src/main.py:27-59 | The loop sends exactly the patches of the specification fold and commits exactly its appends. It leaves each handled record with the fold's final frame and each unhandled record untouched, and it aborts exactly when the fold does. |
| `Orchestrator.Run` | src/main.py:20-59 | A missing schema key ends the run with that KeyError before any file is touched: no patch, no append, and every record keeps its frame. Records that are not selected always keep their frame. A selected record ends with the fold's final frame when the loop reached it, and otherwise with its downloaded frame. No eligible file ends it with "None is not iterable". Otherwise it downloads the selection and runs the loop on it, with the fold's patches, appends and outcome. |
| `Orchestrator.RunFilesInvariant` | src/main.py:27-52 | Files are handled in order until an abort. A completed run patched every file. An aborted run handled one file more than it patched. `error_description` is the text of the last exception so far. The appends are the frames that were loaded. |
| `Orchestrator.RunFilesGrows` | src/main.py:27-59 | Handling more files only extends the frames, appends and patches recorded, and nothing is done after an abort. |
| `Orchestrator.PatchOfFile` | src/main.py:37-59 | File i's patch goes to the configured site and list and to file i's item. It is "Cargado" without a description when its final frame is non-empty. It is "Error" with its own exception's text when it raised. It is "Error" with the last earlier exception's text when it loaded an empty frame. |
| `Orchestrator.EveryFilePatchedOnce` | src/main.py:27-59 | A completed run sends exactly one patch per file, in file order. The status is "Cargado" exactly when the final frame is non-empty, and then there is no description; otherwise it is "Error". |
| `Orchestrator.AbortCause` | src/main.py:45-52 | An aborted run stopped at a file loaded with an empty frame while no earlier file had raised. That file and all later ones get no patch. |
| `Orchestrator.AbortsIff` | src/main.py:45-52 | A run aborts exactly when some file loads an empty frame before any file raised. |
| `Orchestrator.AppendsAreLoadedFrames` | src/main.py:30-35 | A completed run appends, in file order, the frame of every file whose load succeeded, and nothing else. |
| `Orchestrator.CommittedAreValidated` | src/main.py:30-35 | Every appended frame goes to the configured table and is the validated frame of one of the files. |
| `Orchestrator.HeaderOnlySheetLoadsEmpty` | src/main.py:30-45 | A sheet with every expected column but no rows passes validation with an empty frame, so it reaches the "Error" branch without an exception. |
| `Orchestrator.StaleDescriptionExample` | src/main.py:40-52 | Take a file that raised "boom", followed by a file loaded with an empty frame. Both are patched "Error" with "boom". |
| `Orchestrator.UnboundDescriptionExample` | src/main.py:45-52 | Take a file loaded with an empty frame, followed by a file that raises. The run aborts and neither file is patched. |
| `Orchestrator.FixedReportsEveryFile` | src/main.py:27-59 | With `error_description` reset for each file, the loop never aborts. Every file gets, in order, the patch its own outcome calls for, and the appends are the loaded frames. |
| `Orchestrator.FixAgreesWithoutEmptyLoads` | src/main.py:27-59 | When no file loads an empty frame, the corrected loop sends, stores and appends exactly what the loop as written does. |
| `Orchestrator.NoFilesToProcessAborts` | src/main.py:27 | With no eligible file the run ends with "None is not iterable"; an empty list would have finished. |
| `Orchestrator.FixedRunCompletes` | src/main.py:23-27 | When no file qualifies, the corrected run treats it as an empty batch. It always completes, with one patch per selected file. |

## Left out

- Graph client construction, the folder and list queries and their `odata_next_link` paging are network I/O. The folder listing is an input sequence of `ExcelFile` records.
- The `fields.patch` request itself is network I/O. It is recorded in `StatusLog`, and a failing patch is not modelled.
- Excel decoding by pandas/openpyxl is a foreign library. `fetch` gives the sheet count and the first sheet as text cells.
- `Materialise`: read_excel's header handling, blank cells and duplicate-header renaming are not modelled; the first sheet is taken as given.
- The int, float and date parsers (`astype(int)`, `astype(float)`, `pd.to_datetime`) are abstracted into the predicate `canParse`. A coerced cell records its tag and source text, not the parsed value. Floating point and date semantics are out of scope.
- `asyncio.gather` runs the downloads concurrently. They are modelled one after the other, in list order; each touches only its own record.
- `create_db_engine` and the body of `to_sql` are database I/O. The append is the outcome function `rejects`.
- `Orchestrator.Engine.ToSql`: whether an append is rejected depends only on the table name and the frame, not on earlier appends. With `if_exists='append'`, the first append creates the table, and later frames may then be rejected because of that history (a schema or key clash). The model does not capture that history. The equality of `Orchestrator.ProcessFiles` with the fold relies on this simplification.
- `Config.load_from_env`, the YAML file open and `yaml.safe_load` are environment and file I/O. The model starts from the parsed document.
- Every `print` is console output with no effect on the result.
- `SpUtilities.ErrorMessage`: the Python rendering of the missing-column set and the pandas error text appended to a conversion error are not modelled. Only the fixed parts of the messages, which are never empty, are.
- `SpUtilities.ValidateExcelFile`: the in-place assignment of coerced columns onto the record's own frame is computed on a local value. The record's frame is not changed by the method. `main` replaces that frame on every path before reading it again, so the loop's outcome is the same.
- The validation lemmas require `Settings.ConfigValid`, which `Settings.LoadFromYaml` proves for every config it builds. `SpUtilities.Validate` itself has no such precondition.
- src/utils/exceptions.py only declares exception classes. They are variants of `ValidationError`, plus the `Abort` reasons of a run.

## Findings

The imperative model (`Orchestrator.ProcessFiles`, `Orchestrator.Run`) follows the
code as written. The corrected definitions state what the code evidently intends and are proved about separately.

| source | as written | input that shows it | evidently intended | confidence | as-written member | corrected member |
|---|---|---|---|---|---|---|
| src/main.py:45-52 | `error_description` is assigned only in the except block and never reset. The finally block reads it whenever the final frame is empty, and a validated frame with no rows is empty without any exception. | A sheet with every expected column but no rows. As the first file handled, it raises UnboundLocalError: the run stops, and it and every later file keep their old status. After a file that failed, it is patched "Error" with that other file's message. | Reset the description for each file. The empty file is then reported "Error" with its own (empty) description, and the loop goes on. | high; not executed | Orchestrator.UnboundDescriptionExample | Orchestrator.FixedReportsEveryFile |
| src/utils/sp_utilities.py:221 | When no file in the folder is eligible, `get_unprocessed_files_content` returns None, and `main` iterates over the result at src/main.py:27. | A folder whose files are all "Cargado": the run ends with TypeError ('NoneType' object is not iterable) instead of finishing with nothing to do. | Return an empty list, so the run completes without patches. | medium; not executed | Orchestrator.NoFilesToProcessAborts | Orchestrator.FixedRunCompletes |
