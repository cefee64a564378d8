/** The pipeline steps of src/utils/sp_utilities.py: picking the files to process,
    downloading each into a frame, the status patch body, and the schema-driven
    validation that normalises a frame for the database table. */
module SpUtilities {

  import opened Wrappers
  import opened Dicts
  import opened Frames
  import opened Settings

  // ---------------------------------------------------------------------------
  // Candidate selection

  /** A file is (re)processed when its status is unset or "Error". */
  predicate Eligible(status: Option<string>) {
    status == None || status == Some("Error")
  }

  /** The files kept by the selection loop, in listing order. */
  function Selected(files: seq<ExcelFile>): (r: seq<ExcelFile>)
    ensures forall i :: 0 <= i < |r| ==> r[i] in files && Eligible(r[i].status)
    ensures forall i :: 0 <= i < |files| && Eligible(files[i].status) ==> files[i] in r
    ensures |r| <= |files|
  {
    if files == [] then []
    else
      var rest := Selected(files[1..]);
      assert forall i :: 1 <= i < |files| ==> files[i] == files[1..][i - 1];
      (if Eligible(files[0].status) then [files[0]] else []) + rest
  }

  /** Selection keeps order: selecting from a concatenation concatenates the selections. */
  lemma {:induction false} SelectedAppend(a: seq<ExcelFile>, b: seq<ExcelFile>)
    ensures Selected(a + b) == Selected(a) + Selected(b)
  {
    if a == [] {
      assert a + b == b;
    } else {
      var head := if Eligible(a[0].status) then [a[0]] else [];
      assert (a + b)[0] == a[0];
      assert (a + b)[1..] == a[1..] + b;
      SelectedAppend(a[1..], b);
      calc {
        Selected(a + b);
        head + Selected(a[1..] + b);
        head + (Selected(a[1..]) + Selected(b));
        (head + Selected(a[1..])) + Selected(b);
        Selected(a) + Selected(b);
      }
    }
  }

  // ---------------------------------------------------------------------------
  // Download into a frame

  /** What fetching and opening a file's bytes gives: the Graph request fails, the bytes
      are not a workbook, or a workbook with its sheet count and the frame read_excel
      gives for its first sheet with every cell as text (None when that read raises). */
  datatype Fetched =
    | FetchFailed(reason: string)
    | Unreadable(reason: string)
    | Workbook(sheetCount: nat, firstSheet: Option<Table>)

  /** The frame get_file_content_into_df stores: the first sheet of a single-sheet
      workbook, and an empty frame on every failure, the multi-sheet rejection included. */
  function Materialise(content: Fetched): (t: Table)
    ensures !content.Workbook? ==> t == EmptyFrame
    ensures content.Workbook? && content.sheetCount > 1 ==> t == EmptyFrame
    ensures content.Workbook? && content.sheetCount <= 1 ==>
              t == (if content.firstSheet.Some? then content.firstSheet.value else EmptyFrame)
  {
    match content
    case FetchFailed(_) => EmptyFrame
    case Unreadable(_) => EmptyFrame
    case Workbook(sheetCount, firstSheet) =>
      if sheetCount > 1 then EmptyFrame
      else
        match firstSheet
        case None => EmptyFrame
        case Some(sheet) => sheet
  }

  /** get_file_content_into_df: stores the downloaded frame on the record and returns
      the same record; `fetch` gives the outcome of downloading a drive item by id. */
  method GetFileContentIntoDf(file: ExcelFile, fetch: string -> Fetched) returns (r: ExcelFile)
    modifies file
    ensures r == file
    ensures file.df == Some(Materialise(fetch(file.id)))
  {
    var content := fetch(file.id);
    match content {
      case FetchFailed(_) =>
        file.df := Some(EmptyFrame);
      case Unreadable(_) =>
        file.df := Some(EmptyFrame);
      case Workbook(sheetCount, firstSheet) =>
        if sheetCount > 1 {
          // ExcelSheetsError, caught by the handler
          file.df := Some(EmptyFrame);
        } else if firstSheet.None? {
          file.df := Some(EmptyFrame);
        } else {
          file.df := firstSheet;
        }
    }
    r := file;
  }

  /** The selection loop of get_unprocessed_files_content: the files whose status makes
      them eligible, in listing order. */
  method SelectUnprocessed(listing: seq<ExcelFile>) returns (toProcess: seq<ExcelFile>)
    ensures toProcess == Selected(listing)
  {
    toProcess := [];
    var i := 0;
    while i < |listing|
      invariant 0 <= i <= |listing|
      invariant toProcess == Selected(listing[..i])
    {
      SelectedAppend(listing[..i], [listing[i]]);
      assert listing[..i + 1] == listing[..i] + [listing[i]];
      if Eligible(listing[i].status) {
        toProcess := toProcess + [listing[i]];
      }
      i := i + 1;
    }
    assert listing[..i] == listing;
  }

  /** The asyncio.gather of get_unprocessed_files_content, run here one file after the
      other in list order: every file gets its downloaded frame, nothing else changes. */
  method DownloadAll(files: seq<ExcelFile>, fetch: string -> Fetched)
    modifies set f | f in files
    ensures forall f :: f in files ==> f.df == Some(Materialise(fetch(f.id)))
  {
    var j := 0;
    while j < |files|
      invariant 0 <= j <= |files|
      invariant forall f :: f in files[..j] ==> f.df == Some(Materialise(fetch(f.id)))
    {
      var done := GetFileContentIntoDf(files[j], fetch);
      assert files[..j + 1] == files[..j] + [files[j]];
      j := j + 1;
    }
    assert files[..j] == files;
  }

  /** get_unprocessed_files_content over an already-listed folder: keeps the eligible
      files in listing order, returns None (fetching nothing) when there are none, and
      otherwise downloads every kept file, returning them in the same order. */
  method GetUnprocessedFilesContent(listing: seq<ExcelFile>, fetch: string -> Fetched)
    returns (r: Option<seq<ExcelFile>>)
    modifies set f | f in listing
    ensures r.None? <==> Selected(listing) == []
    ensures r.Some? ==> r.value == Selected(listing)
    ensures forall f :: f in listing ==>
              f.df == (if f in Selected(listing) then Some(Materialise(fetch(f.id))) else old(f.df))
  {
    var toProcess := SelectUnprocessed(listing);
    if toProcess == [] {
      return None;
    }
    DownloadAll(toProcess, fetch);
    r := Some(toProcess);
  }

  // ---------------------------------------------------------------------------
  // Status write-back

  /** The FieldValueSet patched onto the list item. */
  datatype FieldValueSet = FieldValueSet(status: string, errorDescription: string)

  /** One recorded call of the list-item patch. */
  datatype Patch = Patch(siteId: string, listId: string, listItemId: string, body: FieldValueSet)

  /** Python truthiness of an optional string. */
  predicate Truthy(s: Option<string>) {
    s.Some? && s.value != ""
  }

  /** The request body of update_list_item_status: the status as given, and the error
      description when it is truthy, "" otherwise. */
  function RequestBody(status: string, errorDescription: Option<string>): (body: FieldValueSet)
    ensures body.status == status
    ensures body.errorDescription != "" <==> Truthy(errorDescription)
    ensures Truthy(errorDescription) ==> body.errorDescription == errorDescription.value
  {
    if Truthy(errorDescription) then FieldValueSet(status, errorDescription.value)
    else FieldValueSet(status, "")
  }

  /** The list-item patches sent through the Graph client, in the order they were sent. */
  class StatusLog {
    var events: seq<Patch>

    constructor ()
      ensures events == []
    {
      events := [];
    }

    /** update_list_item_status: the patch is recorded instead of sent. */
    method UpdateListItemStatus(siteId: string, listId: string, listItemId: string,
                                status: string, errorDescription: Option<string>)
      modifies this
      ensures events == old(events) + [Patch(siteId, listId, listItemId, RequestBody(status, errorDescription))]
    {
      events := events + [Patch(siteId, listId, listItemId, RequestBody(status, errorDescription))];
    }
  }

  // ---------------------------------------------------------------------------
  // Validation

  /** The exceptions validate_excel_file raises. */
  datatype ValidationError =
    | EmptyExcelSheet
    | MissingColumns(fileName: string, missing: set<string>)
    | ColumnConversion(fileName: string, column: string)

  /** str(e) for each validation error (the rendering of the missing set and the pandas
      cause appended to a conversion error are not modelled). */
  function ErrorMessage(e: ValidationError): (m: string)
    ensures m != ""
  {
    match e
    case EmptyExcelSheet =>
      "El archivo está vacío o contiene múltiples hojas por lo que no se pudo procesar."
    case MissingColumns(fileName, _) =>
      "El archivo " + fileName + " no se pudo procesar, ya que no se encuentran las siguientes columnas: \n "
    case ColumnConversion(fileName, column) =>
      "El archivo " + fileName + " no se pudo procesar, debido a un error al intentar convertir la columna " + column + ".\n "
  }

  /** The type tags whose coercion parses every cell and can fail. */
  predicate Converting(tag: string) {
    tag == "int" || tag == "float" || tag == "date"
  }

  /** Every cell of every column labelled `name` parses as `tag`; `canParse` stands for
      astype(int), astype(float) and pd.to_datetime(errors='raise') on one cell. */
  predicate Convertible(t: Table, name: string, tag: string, canParse: (string, string) -> bool) {
    forall i, k :: 0 <= i < |t.columns| && t.columns[i].name == name && 0 <= k < |t.columns[i].cells| ==>
      canParse(tag, t.columns[i].cells[k].s)
  }

  /** A dtypes_mapping entry whose coercion succeeds on t. */
  predicate Passes(t: Table, entry: (string, string), canParse: (string, string) -> bool) {
    !Converting(entry.1) || Convertible(t, entry.0, entry.1, canParse)
  }

  /** Same labels, same index, same number of cells and the same source text in every cell. */
  predicate SameText(t: Table, u: Table) {
    && t.rows == u.rows
    && |t.columns| == |u.columns|
    && (forall i :: 0 <= i < |t.columns| ==>
          && t.columns[i].name == u.columns[i].name
          && |t.columns[i].cells| == |u.columns[i].cells|)
    && (forall i, k :: 0 <= i < |t.columns| && 0 <= k < |t.columns[i].cells| ==>
          t.columns[i].cells[k].s == u.columns[i].cells[k].s)
  }

  /** df[name] = f applied to each cell of df[name] */
  function Recast(t: Table, name: string, f: Cell -> Cell): Table {
    Table(seq(|t.columns|, i requires 0 <= i < |t.columns| =>
                if t.columns[i].name == name
                then Column(name, seq(|t.columns[i].cells|, k requires 0 <= k < |t.columns[i].cells| =>
                                        f(t.columns[i].cells[k])))
                else t.columns[i]),
          t.rows)
  }

  /** One step of the coercion loop: int, float and date parse every cell of the column
      and fail as a whole; str keeps the text; any other tag leaves the frame untouched. */
  function CoerceColumn(t: Table, name: string, tag: string, canParse: (string, string) -> bool): (r: Option<Table>)
    ensures r.None? <==> Converting(tag) && !Convertible(t, name, tag, canParse)
    ensures r.Some? ==> SameText(t, r.value)
    ensures r.Some? ==> forall i :: 0 <= i < |t.columns| && t.columns[i].name != name ==>
              r.value.columns[i] == t.columns[i]
    ensures r.Some? && Converting(tag) ==>
              forall i, k ::
                0 <= i < |r.value.columns| && r.value.columns[i].name == name &&
                0 <= k < |r.value.columns[i].cells| ==>
                  r.value.columns[i].cells[k] == Parsed(tag, t.columns[i].cells[k].s)
    ensures r.Some? && tag == "str" ==>
              forall i, k ::
                0 <= i < |r.value.columns| && r.value.columns[i].name == name &&
                0 <= k < |r.value.columns[i].cells| ==>
                  r.value.columns[i].cells[k] == Text(t.columns[i].cells[k].s)
    ensures !Converting(tag) && tag != "str" ==> r == Some(t)
  {
    if Converting(tag) then
      if Convertible(t, name, tag, canParse) then Some(Recast(t, name, (c: Cell) => Parsed(tag, c.s))) else None
    else if tag == "str" then Some(Recast(t, name, (c: Cell) => Text(c.s)))
    else Some(t)
  }

  lemma SameTextTransitive(t: Table, u: Table, v: Table)
    requires SameText(t, u) && SameText(u, v)
    ensures SameText(t, v)
  {}

  /** Convertibility looks only at labels and cell text. */
  lemma PassesAgree(t: Table, u: Table, entry: (string, string), canParse: (string, string) -> bool)
    requires SameText(t, u)
    ensures Passes(t, entry, canParse) <==> Passes(u, entry, canParse)
  {}

  /** Frames with the same text agree on labels and shape. */
  lemma SameTextAgrees(t: Table, u: Table)
    requires SameText(t, u)
    ensures Names(t) == Names(u) && NameSet(t) == NameSet(u)
    ensures WellFormed(t) <==> WellFormed(u)
    ensures UniqueLabels(t.columns) <==> UniqueLabels(u.columns)
  {
    forall x | x in NameSet(u) ensures x in NameSet(t) {
      var i :| 0 <= i < |u.columns| && u.columns[i].name == x;
      assert t.columns[i].name == x;
    }
  }

  /** A cell once coerced under `tag`: int, float and date parse its text, str keeps the
      text as a string, any other tag leaves it as it was. */
  function CoerceCell(tag: string, c: Cell): Cell {
    if Converting(tag) then Parsed(tag, c.s)
    else if tag == "str" then Text(c.s)
    else c
  }

  /** A column once the whole coercion loop has run, column by column: a label with an
      entry in dtypes_mapping has every cell coerced under that entry's tag; any other
      column is kept. */
  function CoercedColumn(c: Column, dtypes: Dict<string>): Column {
    match Get(dtypes, c.name)
    case None => c
    case Some(tag) => Column(c.name, seq(|c.cells|, k requires 0 <= k < |c.cells| => CoerceCell(tag, c.cells[k])))
  }

  /** The coercion loop over dtypes_mapping in its iteration order, stopping at the
      first column that fails and naming it. With each label listed once, a success
      leaves every column as coerced by its own entry (CoercedColumn). */
  function CoerceAll(t: Table, dtypes: Dict<string>, canParse: (string, string) -> bool): (r: Result<Table, string>)
    ensures r.Success? ==> SameText(t, r.value)
    ensures r.Success? && UniqueKeys(dtypes) ==>
              forall i :: 0 <= i < |t.columns| ==> r.value.columns[i] == CoercedColumn(t.columns[i], dtypes)
    ensures r.Failure? ==> r.error in Keys(dtypes)
    decreases |dtypes|
  {
    if dtypes == [] then
      assert forall i :: 0 <= i < |t.columns| ==> CoercedColumn(t.columns[i], dtypes) == t.columns[i];
      Success(t)
    else
      match CoerceColumn(t, dtypes[0].0, dtypes[0].1, canParse)
      case None => Failure(dtypes[0].0)
      case Some(next) =>
        var r := CoerceAll(next, dtypes[1..], canParse);
        assert r.Failure? ==> r.error in Keys(dtypes) by {
          if r.Failure? {
            var i :| 0 <= i < |dtypes[1..]| && dtypes[1..][i].0 == r.error;
            assert dtypes[i + 1].0 == r.error;
          }
        }
        if r.Success? then
          SameTextTransitive(t, next, r.value);
          if UniqueKeys(dtypes) then CoerceStep(t, dtypes, canParse, next); r else r
        else r
  }

  /** One step of the coercion loop agrees with the column-by-column description: what
      the remaining entries make of the coerced frame is what all entries make of the
      original one. */
  lemma CoerceStep(t: Table, dtypes: Dict<string>, canParse: (string, string) -> bool, next: Table)
    requires dtypes != [] && UniqueKeys(dtypes)
    requires CoerceColumn(t, dtypes[0].0, dtypes[0].1, canParse) == Some(next)
    ensures UniqueKeys(dtypes[1..])
    ensures forall i :: 0 <= i < |t.columns| ==>
              CoercedColumn(next.columns[i], dtypes[1..]) == CoercedColumn(t.columns[i], dtypes)
  {
    var (name, tag) := dtypes[0];
    var rest := dtypes[1..];
    assert UniqueKeys(rest) by {
      forall a, b | 0 <= a < b < |rest| ensures rest[a].0 != rest[b].0 {
        assert dtypes[a + 1].0 != dtypes[b + 1].0;
      }
    }
    forall i | 0 <= i < |t.columns|
      ensures CoercedColumn(next.columns[i], rest) == CoercedColumn(t.columns[i], dtypes)
    {
      var c := t.columns[i];
      if c.name == name {
        assert name !in Keys(rest) by {
          forall j | 0 <= j < |rest| ensures rest[j].0 != name {
            assert dtypes[j + 1].0 != dtypes[0].0;
          }
        }
        GetAbsent(rest, name);
        assert next.columns[i].cells == seq(|c.cells|, k requires 0 <= k < |c.cells| => CoerceCell(tag, c.cells[k]));
      } else {
        assert next.columns[i] == c;
      }
    }
  }

  /** Coercion succeeds exactly when every entry's column converts. */
  lemma {:induction false} CoerceSucceedsIff(t: Table, dtypes: Dict<string>, canParse: (string, string) -> bool)
    ensures CoerceAll(t, dtypes, canParse).Success? <==>
              forall k :: 0 <= k < |dtypes| ==> Passes(t, dtypes[k], canParse)
    decreases |dtypes|
  {
    if dtypes != [] {
      var entry := dtypes[0];
      match CoerceColumn(t, entry.0, entry.1, canParse)
      case None =>
      case Some(next) =>
        CoerceSucceedsIff(next, dtypes[1..], canParse);
        forall k | 1 <= k < |dtypes|
          ensures Passes(t, dtypes[k], canParse) <==> Passes(next, dtypes[1..][k - 1], canParse)
        {
          assert dtypes[k] == dtypes[1..][k - 1];
          PassesAgree(t, next, dtypes[k], canParse);
        }
    }
  }

  /** Fail-fast: when entry k is the first whose column does not convert, coercion fails
      naming that column, whatever the entries after it. */
  lemma {:induction false} CoerceFailFast(t: Table, dtypes: Dict<string>, canParse: (string, string) -> bool, k: nat)
    requires k < |dtypes| && !Passes(t, dtypes[k], canParse)
    requires forall j :: 0 <= j < k ==> Passes(t, dtypes[j], canParse)
    ensures CoerceAll(t, dtypes, canParse) == Failure(dtypes[k].0)
    decreases k
  {
    if k > 0 {
      assert Passes(t, dtypes[0], canParse);
      var next := CoerceColumn(t, dtypes[0].0, dtypes[0].1, canParse).value;
      var rest := dtypes[1..];
      forall j | 0 <= j < k - 1 ensures Passes(next, rest[j], canParse) {
        assert rest[j] == dtypes[j + 1];
        PassesAgree(t, next, rest[j], canParse);
      }
      assert rest[k - 1] == dtypes[k];
      PassesAgree(t, next, rest[k - 1], canParse);
      CoerceFailFast(next, rest, canParse, k - 1);
    }
  }

  /** The renaming, projection and customer_code stamp applied to a coerced frame. */
  function Normalise(typed: Table, cfg: CustomerConfig): Table {
    AssignConstant(Select(Rename(typed, cfg.columnsMapping), Values(cfg.columnsMapping)),
                   "customer_code", cfg.customerCode)
  }

  /** validate_excel_file: the missing-column check (an empty frame reported as such),
      then the fail-fast coercion, then rename, projection and stamp. */
  function Validate(t: Table, fileName: string, cfg: CustomerConfig, canParse: (string, string) -> bool)
    : Result<Table, ValidationError>
  {
    var missing := cfg.expectedColumns - NameSet(t);
    if missing != {} then
      if IsEmpty(t) then Failure(EmptyExcelSheet) else Failure(MissingColumns(fileName, missing))
    else
      match CoerceAll(t, cfg.dtypesMapping, canParse)
      case Failure(column) => Failure(ColumnConversion(fileName, column))
      case Success(typed) => Success(Normalise(typed, cfg))
  }

  /** validate_excel_file on the record's frame, with its coercion loop. */
  method ValidateExcelFile(file: ExcelFile, cfg: CustomerConfig, canParse: (string, string) -> bool)
    returns (r: Result<Table, ValidationError>)
    requires file.df.Some?
    ensures r == Validate(file.df.value, file.name, cfg, canParse)
    ensures r == Failure(EmptyExcelSheet) <==>
              !(cfg.expectedColumns <= NameSet(file.df.value)) && IsEmpty(file.df.value)
    ensures r.Failure? && r.error.MissingColumns? <==>
              !(cfg.expectedColumns <= NameSet(file.df.value)) && !IsEmpty(file.df.value)
    ensures r.Failure? && r.error.MissingColumns? ==>
              r.error == MissingColumns(file.name, cfg.expectedColumns - NameSet(file.df.value))
    ensures r.Failure? && r.error.ColumnConversion? ==>
              cfg.expectedColumns <= NameSet(file.df.value) && r.error.fileName == file.name &&
              r.error.column in Keys(cfg.dtypesMapping)
  {
    var df := file.df.value;
    var missing := cfg.expectedColumns - NameSet(df);
    if missing != {} {
      if IsEmpty(df) {
        return Failure(EmptyExcelSheet);
      }
      return Failure(MissingColumns(file.name, missing));
    }
    assert cfg.expectedColumns <= NameSet(file.df.value) by {
      forall x | x in cfg.expectedColumns ensures x in NameSet(df) {
        assert x !in missing;
      }
    }
    var i := 0;
    while i < |cfg.dtypesMapping|
      invariant 0 <= i <= |cfg.dtypesMapping|
      invariant CoerceAll(file.df.value, cfg.dtypesMapping, canParse) ==
                CoerceAll(df, cfg.dtypesMapping[i..], canParse)
    {
      var (column, dtype) := cfg.dtypesMapping[i];
      assert cfg.dtypesMapping[i..][1..] == cfg.dtypesMapping[i + 1..];
      var coerced := CoerceColumn(df, column, dtype, canParse);
      if coerced.None? {
        return Failure(ColumnConversion(file.name, column));
      }
      df := coerced.value;
      i := i + 1;
    }
    return Success(Normalise(df, cfg));
  }

  // ---------------------------------------------------------------------------
  // Properties of validation

  /** Validation succeeds exactly when no expected column is missing and every column of
      dtypes_mapping converts. */
  lemma ValidateSucceedsIff(t: Table, fileName: string, cfg: CustomerConfig, canParse: (string, string) -> bool)
    ensures Validate(t, fileName, cfg, canParse).Success? <==>
              cfg.expectedColumns <= NameSet(t) &&
              forall k :: 0 <= k < |cfg.dtypesMapping| ==> Passes(t, cfg.dtypesMapping[k], canParse)
  {
    if cfg.expectedColumns <= NameSet(t) {
      assert cfg.expectedColumns - NameSet(t) == {};
      CoerceSucceedsIff(t, cfg.dtypesMapping, canParse);
    } else {
      var x :| x in cfg.expectedColumns && x !in NameSet(t);
      assert x in cfg.expectedColumns - NameSet(t);
    }
  }

  /** The missing-column check comes first: when a column is missing the outcome does not
      depend on how cells parse, that is, no column was coerced. */
  lemma MissingPrecedesCoercion(t: Table, fileName: string, cfg: CustomerConfig,
                                p: (string, string) -> bool, q: (string, string) -> bool)
    requires !(cfg.expectedColumns <= NameSet(t))
    ensures Validate(t, fileName, cfg, p) == Validate(t, fileName, cfg, q)
    ensures Validate(t, fileName, cfg, p) ==
              if IsEmpty(t) then Failure(EmptyExcelSheet)
              else Failure(MissingColumns(fileName, cfg.expectedColumns - NameSet(t)))
  {
    var x :| x in cfg.expectedColumns && x !in NameSet(t);
    assert x in cfg.expectedColumns - NameSet(t);
  }

  /** With every expected column present, the error reported is the conversion error of
      the first column, in dtypes_mapping order, that does not convert. */
  lemma ValidateReportsFirstInconvertible(t: Table, fileName: string, cfg: CustomerConfig,
                                          canParse: (string, string) -> bool, k: nat)
    requires cfg.expectedColumns <= NameSet(t)
    requires k < |cfg.dtypesMapping| && !Passes(t, cfg.dtypesMapping[k], canParse)
    requires forall j :: 0 <= j < k ==> Passes(t, cfg.dtypesMapping[j], canParse)
    ensures Validate(t, fileName, cfg, canParse) == Failure(ColumnConversion(fileName, cfg.dtypesMapping[k].0))
  {
    CoerceFailFast(t, cfg.dtypesMapping, canParse, k);
    assert cfg.expectedColumns - NameSet(t) == {};
  }

  /** Every target label of the rename map is carried by some column once the expected
      columns are present and renamed. */
  lemma TargetsPresent(typed: Table, cfg: CustomerConfig)
    requires ConfigValid(cfg) && cfg.expectedColumns <= NameSet(typed)
    ensures forall v :: v in Values(cfg.columnsMapping) ==>
              exists i :: 0 <= i < |typed.columns| && Rename(typed, cfg.columnsMapping).columns[i].name == v
  {
    var m := cfg.columnsMapping;
    forall v | v in Values(m)
      ensures exists i :: 0 <= i < |typed.columns| && Rename(typed, m).columns[i].name == v
    {
      var p :| 0 <= p < |m| && Values(m)[p] == v;
      assert m[p].0 in Keys(m);
      var i :| 0 <= i < |typed.columns| && typed.columns[i].name == m[p].0;
      GetAt(m, p);
      assert Rename(typed, m).columns[i].name == v;
    }
  }

  /** The labels of a normalised frame: the rename map's targets, each present, and the
      customer_code column, filled with the customer code on every row. */
  lemma NormalisedLabels(typed: Table, cfg: CustomerConfig)
    requires ConfigValid(cfg) && cfg.expectedColumns <= NameSet(typed)
    ensures var out := Normalise(typed, cfg);
      && out.rows == typed.rows
      && (WellFormed(typed) ==> WellFormed(out))
      && "customer_code" in NameSet(out)
      && (forall i :: 0 <= i < |out.columns| && out.columns[i].name == "customer_code" ==>
            out.columns[i].cells == Filled(cfg.customerCode, typed.rows))
      && (forall i :: 0 <= i < |out.columns| ==>
            out.columns[i].name == "customer_code" || out.columns[i].name in Values(cfg.columnsMapping))
      && (forall v :: v in Values(cfg.columnsMapping) ==> v in NameSet(out))
  {
    SelectRenameKeepsRows(typed, cfg.columnsMapping, Values(cfg.columnsMapping));
    NormalisedNamesAllowed(typed, cfg);
    NormalisedTargetsPresent(typed, cfg);
  }

  /** Every label of a normalised frame is a target of the rename map or customer_code. */
  lemma NormalisedNamesAllowed(typed: Table, cfg: CustomerConfig)
    ensures var out := Normalise(typed, cfg);
      forall i :: 0 <= i < |out.columns| ==>
        out.columns[i].name == "customer_code" || out.columns[i].name in Values(cfg.columnsMapping)
  {
    var m := cfg.columnsMapping;
    var ren := Rename(typed, m);
    var sel := Select(ren, Values(m));
    var out := AssignConstant(sel, "customer_code", cfg.customerCode);
    SelectColumnsSound(ren.columns, Values(m));
    forall i | 0 <= i < |out.columns|
      ensures out.columns[i].name == "customer_code" || out.columns[i].name in Values(m)
    {
      if out.columns[i].name != "customer_code" {
        assert Names(out)[i] == out.columns[i].name;
        assert i < |sel.columns| && Names(sel)[i] == Names(out)[i];
        assert sel.columns[i] in SelectColumns(ren.columns, Values(m));
      }
    }
  }

  /** Every target of the rename map labels a column of the normalised frame. */
  lemma NormalisedTargetsPresent(typed: Table, cfg: CustomerConfig)
    requires ConfigValid(cfg) && cfg.expectedColumns <= NameSet(typed)
    ensures forall v :: v in Values(cfg.columnsMapping) ==> v in NameSet(Normalise(typed, cfg))
  {
    var m := cfg.columnsMapping;
    var ren := Rename(typed, m);
    var sel := Select(ren, Values(m));
    var out := AssignConstant(sel, "customer_code", cfg.customerCode);
    TargetsPresent(typed, cfg);
    forall v | v in Values(m) ensures v in NameSet(out) {
      SelectKeepsPresent(ren.columns, Values(m), v);
      var c :| c in sel.columns && c.name == v;
      var i :| 0 <= i < |sel.columns| && sel.columns[i] == c;
      if v != "customer_code" {
        assert out.columns[i] == c;
      }
    }
  }

  /** What a successful validation gives: the same index, a customer_code column equal to
      the customer code on every row, only target labels besides it, every target label
      present, and a frame that is empty exactly when the input had no rows. */
  lemma ValidatedShape(t: Table, fileName: string, cfg: CustomerConfig, canParse: (string, string) -> bool)
    requires ConfigValid(cfg)
    requires Validate(t, fileName, cfg, canParse).Success?
    ensures var out := Validate(t, fileName, cfg, canParse).value;
      && out.rows == t.rows
      && (WellFormed(t) ==> WellFormed(out))
      && (forall i :: 0 <= i < |out.columns| && out.columns[i].name == "customer_code" ==>
            out.columns[i].cells == Filled(cfg.customerCode, t.rows))
      && (forall i :: 0 <= i < |out.columns| ==>
            out.columns[i].name == "customer_code" || out.columns[i].name in Values(cfg.columnsMapping))
      && (forall v :: v in Values(cfg.columnsMapping) ==> v in NameSet(out))
      && (IsEmpty(out) <==> t.rows == 0)
  {
    ValidateSucceedsIff(t, fileName, cfg, canParse);
    assert cfg.expectedColumns - NameSet(t) == {};
    var typed := CoerceAll(t, cfg.dtypesMapping, canParse).value;
    SameTextAgrees(t, typed);
    NormalisedLabels(typed, cfg);
    var out := Normalise(typed, cfg);
    assert "customer_code" in NameSet(out);
  }

  /** With distinct source labels, an injective rename map, no unmapped column already
      carrying a target label and no target named customer_code, the validated frame has
      exactly the targets in rename-map order followed by customer_code. */
  lemma ValidatedColumnsExact(t: Table, fileName: string, cfg: CustomerConfig, canParse: (string, string) -> bool)
    requires ConfigValid(cfg)
    requires Validate(t, fileName, cfg, canParse).Success?
    requires UniqueLabels(t.columns)
    requires forall i, j :: 0 <= i < j < |cfg.columnsMapping| ==> cfg.columnsMapping[i].1 != cfg.columnsMapping[j].1
    requires forall i :: 0 <= i < |t.columns| && t.columns[i].name !in cfg.expectedColumns ==>
               t.columns[i].name !in Values(cfg.columnsMapping)
    requires "customer_code" !in Values(cfg.columnsMapping)
    ensures Names(Validate(t, fileName, cfg, canParse).value) == Values(cfg.columnsMapping) + ["customer_code"]
    ensures forall p, j :: 0 <= p < |cfg.columnsMapping| && 0 <= j < |t.columns| &&
                           t.columns[j].name == cfg.columnsMapping[p].0 ==>
              Validate(t, fileName, cfg, canParse).value.columns[p] ==
                Column(cfg.columnsMapping[p].1, CoercedColumn(t.columns[j], cfg.dtypesMapping).cells)
  {
    ValidateSucceedsIff(t, fileName, cfg, canParse);
    assert cfg.expectedColumns - NameSet(t) == {};
    var typed := CoerceAll(t, cfg.dtypesMapping, canParse).value;
    SameTextAgrees(t, typed);
    assert forall i :: 0 <= i < |typed.columns| ==> typed.columns[i].name == t.columns[i].name;
    NormalisedExact(typed, cfg);
  }

  /** The renaming, projection and stamp of ValidatedColumnsExact, on the coerced frame:
      target p's column is the column whose label maps to it, under the target label. */
  lemma NormalisedExact(typed: Table, cfg: CustomerConfig)
    requires ConfigValid(cfg) && cfg.expectedColumns <= NameSet(typed)
    requires UniqueLabels(typed.columns)
    requires forall i, j :: 0 <= i < j < |cfg.columnsMapping| ==> cfg.columnsMapping[i].1 != cfg.columnsMapping[j].1
    requires forall i :: 0 <= i < |typed.columns| && typed.columns[i].name !in cfg.expectedColumns ==>
               typed.columns[i].name !in Values(cfg.columnsMapping)
    requires "customer_code" !in Values(cfg.columnsMapping)
    ensures Names(Normalise(typed, cfg)) == Values(cfg.columnsMapping) + ["customer_code"]
    ensures forall p, j :: 0 <= p < |cfg.columnsMapping| && 0 <= j < |typed.columns| &&
                           typed.columns[j].name == cfg.columnsMapping[p].0 ==>
              Normalise(typed, cfg).columns[p] == Column(cfg.columnsMapping[p].1, typed.columns[j].cells)
  {
    var m := cfg.columnsMapping;
    RenameUnique(typed, m);
    var ren := Rename(typed, m);
    TargetsPresent(typed, cfg);
    forall v | v in Values(m) ensures v in NameSet(ren) {
      var i :| 0 <= i < |typed.columns| && ren.columns[i].name == v;
    }
    SelectExact(ren, Values(m));
    SelectColumnsExact(ren.columns, Values(m));
    var sel := Select(ren, Values(m));
    assert "customer_code" !in NameSet(sel) by {
      forall i | 0 <= i < |sel.columns| ensures sel.columns[i].name != "customer_code" {
        assert Names(sel)[i] == sel.columns[i].name;
      }
    }
    var out := AssignConstant(sel, "customer_code", cfg.customerCode);
    forall p, j | 0 <= p < |m| && 0 <= j < |typed.columns| && typed.columns[j].name == m[p].0
      ensures out.columns[p] == Column(m[p].1, typed.columns[j].cells)
    {
      GetAt(m, p);
      assert ren.columns[j].name == Values(m)[p];
      assert sel.columns[p] == ren.columns[j];
      assert m[p].1 in Values(m);
    }
  }

  /** The validated frame carries the sheet's data: apart from customer_code, every
      column is a column of the sheet under its renamed label, holding that column's
      cells as the coercion loop converted them. */
  lemma ValidatedCarriesSheet(t: Table, fileName: string, cfg: CustomerConfig, canParse: (string, string) -> bool)
    requires ConfigValid(cfg)
    requires Validate(t, fileName, cfg, canParse).Success?
    ensures forall c :: c in Validate(t, fileName, cfg, canParse).value.columns && c.name != "customer_code" ==>
              exists j :: 0 <= j < |t.columns| &&
                          c.name == Relabel(t.columns[j].name, cfg.columnsMapping) &&
                          c.cells == CoercedColumn(t.columns[j], cfg.dtypesMapping).cells
  {
    ValidateSucceedsIff(t, fileName, cfg, canParse);
    assert cfg.expectedColumns - NameSet(t) == {};
    var m := cfg.columnsMapping;
    var typed := CoerceAll(t, cfg.dtypesMapping, canParse).value;
    var sel := Select(Rename(typed, m), Values(m));
    var out := AssignConstant(sel, "customer_code", cfg.customerCode);
    SelectRenameKeepsRows(typed, m, Values(m));
    forall c | c in out.columns && c.name != "customer_code"
      ensures exists j :: 0 <= j < |t.columns| &&
                          c.name == Relabel(t.columns[j].name, m) &&
                          c.cells == CoercedColumn(t.columns[j], cfg.dtypesMapping).cells
    {
      var i :| 0 <= i < |out.columns| && out.columns[i] == c;
      assert Names(out)[i] == c.name;
      assert i < |sel.columns| && sel.columns[i].name == c.name;
      assert sel.columns[i] in sel.columns;
      var j :| 0 <= j < |typed.columns| && c.cells == typed.columns[j].cells &&
               c.name == Relabel(typed.columns[j].name, m);
      assert typed.columns[j] == CoercedColumn(t.columns[j], cfg.dtypesMapping);
    }
  }

  /** The schema {A: int as colA, B: date as colB} of customer C001. */
  const ExampleConfig: CustomerConfig :=
    CustomerConfig("C001", "sell_out", "site", "list", "drive", "folder", {"A", "B"},
                   [("A", "colA"), ("B", "colB")], [("A", "int"), ("B", "date")])

  /** A one-row sheet {A: "1", B: "2024-01-02"} read as text. */
  const ExampleSheet: Table := Table([Column("A", [Text("1")]), Column("B", [Text("2024-01-02")])], 1)

  /** The example schema is a valid config over the example sheet's labels. */
  lemma ExampleConfigValid()
    ensures ConfigValid(ExampleConfig) && NameSet(ExampleSheet) == {"A", "B"}
    ensures Values(ExampleConfig.columnsMapping) == ["colA", "colB"]
    ensures Get(ExampleConfig.dtypesMapping, "A") == Some("int")
    ensures Get(ExampleConfig.dtypesMapping, "B") == Some("date")
    ensures UniqueLabels(ExampleSheet.columns)
    ensures forall i, j :: 0 <= i < j < |ExampleConfig.columnsMapping| ==>
              ExampleConfig.columnsMapping[i].1 != ExampleConfig.columnsMapping[j].1
    ensures forall i :: 0 <= i < |ExampleSheet.columns| ==> ExampleSheet.columns[i].name in ExampleConfig.expectedColumns
    ensures "customer_code" !in Values(ExampleConfig.columnsMapping)
  {
    assert ExampleSheet.columns[0].name == "A" && ExampleSheet.columns[1].name == "B";
    var m, d := ExampleConfig.columnsMapping, ExampleConfig.dtypesMapping;
    assert m[0].0 == "A" && m[1].0 == "B" && d[0].0 == "A" && d[1].0 == "B";
  }

  /** The example sheet passes validation when its two cells parse. */
  lemma ExampleValidates(canParse: (string, string) -> bool)
    requires canParse("int", "1") && canParse("date", "2024-01-02")
    ensures Validate(ExampleSheet, "ventas.xlsx", ExampleConfig, canParse).Success?
  {
    ExampleConfigValid();
    var d := ExampleConfig.dtypesMapping;
    assert Passes(ExampleSheet, d[0], canParse);
    assert Passes(ExampleSheet, d[1], canParse);
    ValidateSucceedsIff(ExampleSheet, "ventas.xlsx", ExampleConfig, canParse);
  }

  /** The round trip of a one-row sheet {A: "1", B: "2024-01-02"} under the schema
      {A: int as colA, B: date as colB}: colA holds the parsed integer, colB the parsed
      date, and customer_code the customer's code. */
  lemma ValidateExample(sheet: Table, cfg: CustomerConfig, canParse: (string, string) -> bool)
    requires sheet == ExampleSheet && cfg == ExampleConfig
    requires canParse("int", "1") && canParse("date", "2024-01-02")
    ensures Validate(sheet, "ventas.xlsx", cfg, canParse) ==
              Success(Table([Column("colA", [Parsed("int", "1")]),
                             Column("colB", [Parsed("date", "2024-01-02")]),
                             Column("customer_code", [Text("C001")])], 1))
  {
    ExampleShape(sheet, cfg, canParse);
    ExampleCells(sheet, cfg, canParse);
    ThreeColumns(Validate(sheet, "ventas.xlsx", cfg, canParse).value);
  }

  /** A frame of three columns is the frame listing them. */
  lemma ThreeColumns(t: Table)
    requires |t.columns| == 3
    ensures t == Table([t.columns[0], t.columns[1], t.columns[2]], t.rows)
  {
    assert t.columns == [t.columns[0], t.columns[1], t.columns[2]];
  }

  /** The example's validated frame: one row, three columns, the last the customer_code stamp. */
  lemma ExampleShape(sheet: Table, cfg: CustomerConfig, canParse: (string, string) -> bool)
    requires sheet == ExampleSheet && cfg == ExampleConfig
    requires canParse("int", "1") && canParse("date", "2024-01-02")
    ensures Validate(sheet, "ventas.xlsx", cfg, canParse).Success?
    ensures var out := Validate(sheet, "ventas.xlsx", cfg, canParse).value;
      && out.rows == 1 && |out.columns| == 3
      && out.columns[2] == Column("customer_code", [Text("C001")])
  {
    ExampleNames(sheet, cfg, canParse);
    var out := Validate(sheet, "ventas.xlsx", cfg, canParse).value;
    assert out.columns[2].name == Names(out)[2];
    ExampleConfigValid();
    ValidatedShape(sheet, "ventas.xlsx", cfg, canParse);
    assert Filled("C001", 1) == [Text("C001")];
  }

  /** The example's validated labels. */
  lemma ExampleNames(sheet: Table, cfg: CustomerConfig, canParse: (string, string) -> bool)
    requires sheet == ExampleSheet && cfg == ExampleConfig
    requires canParse("int", "1") && canParse("date", "2024-01-02")
    ensures Validate(sheet, "ventas.xlsx", cfg, canParse).Success?
    ensures Names(Validate(sheet, "ventas.xlsx", cfg, canParse).value) == ["colA", "colB", "customer_code"]
  {
    ExampleConfigValid();
    ExampleValidates(canParse);
    ValidatedColumnsExact(sheet, "ventas.xlsx", cfg, canParse);
  }

  /** The example's two target columns and their coerced cells. */
  lemma ExampleCells(sheet: Table, cfg: CustomerConfig, canParse: (string, string) -> bool)
    requires sheet == ExampleSheet && cfg == ExampleConfig
    requires canParse("int", "1") && canParse("date", "2024-01-02")
    ensures Validate(sheet, "ventas.xlsx", cfg, canParse).Success?
    ensures var out := Validate(sheet, "ventas.xlsx", cfg, canParse).value;
      && |out.columns| >= 2
      && out.columns[0] == Column("colA", [Parsed("int", "1")])
      && out.columns[1] == Column("colB", [Parsed("date", "2024-01-02")])
  {
    ExampleConfigValid();
    ExampleValidates(canParse);
    ValidatedColumnsExact(sheet, "ventas.xlsx", cfg, canParse);
    assert sheet.columns[0].name == cfg.columnsMapping[0].0;
    assert sheet.columns[1].name == cfg.columnsMapping[1].0;
    var a := CoercedColumn(sheet.columns[0], cfg.dtypesMapping);
    var b := CoercedColumn(sheet.columns[1], cfg.dtypesMapping);
    assert a.cells == [Parsed("int", "1")];
    assert b.cells == [Parsed("date", "2024-01-02")];
  }

  /** A download that failed or was rejected for having several sheets never yields a
      non-empty validated frame: validation reports an empty sheet whenever any column is
      expected, and otherwise gives a frame with no rows. */
  lemma RejectedDownloadStaysEmpty(content: Fetched, fileName: string, cfg: CustomerConfig,
                                   canParse: (string, string) -> bool)
    requires ConfigValid(cfg)
    requires !content.Workbook? || content.sheetCount > 1
    ensures cfg.expectedColumns != {} ==>
              Validate(Materialise(content), fileName, cfg, canParse) == Failure(EmptyExcelSheet)
    ensures Validate(Materialise(content), fileName, cfg, canParse).Success? ==>
              IsEmpty(Validate(Materialise(content), fileName, cfg, canParse).value)
  {
    assert NameSet(EmptyFrame) == {};
    if Validate(EmptyFrame, fileName, cfg, canParse).Success? {
      ValidatedShape(EmptyFrame, fileName, cfg, canParse);
    }
  }
}
