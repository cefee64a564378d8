/** The per-customer schema and the file record (src/config/settings.py). */
module Settings {

  import opened Wrappers
  import opened Dicts
  import opened Frames

  /** A parsed `{customer_code}.yaml`. A section that is absent is None; each entry of
      `columns` is the mapping of fields (`sql_field`, `type`) under a column name. */
  datatype Document = Document(
    source: Option<map<string, string>>,
    target: Option<map<string, string>>,
    columns: Option<Dict<map<string, string>>>)

  /** The document is a YAML mapping, so its column names are unique. */
  predicate WellFormedDocument(doc: Document) {
    doc.columns.Some? ==> UniqueKeys(doc.columns.value)
  }

  /** The KeyError raised by a lookup of an absent section or key. */
  datatype LoadError = KeyError(key: string)

  datatype CustomerConfig = CustomerConfig(
    customerCode: string,
    table: string,
    siteId: string,
    listId: string,
    driveId: string,
    folderId: string,
    expectedColumns: set<string>,
    columnsMapping: Dict<string>,
    dtypesMapping: Dict<string>)

  /** The three column views share one key set. */
  predicate ConfigValid(cfg: CustomerConfig) {
    && UniqueKeys(cfg.columnsMapping)
    && UniqueKeys(cfg.dtypesMapping)
    && Keys(cfg.columnsMapping) == cfg.expectedColumns
    && Keys(cfg.dtypesMapping) == cfg.expectedColumns
  }

  /** customer_data[section][key] */
  function Lookup(section: Option<map<string, string>>, sectionName: string, key: string): Result<string, LoadError> {
    if section.None? then Failure(KeyError(sectionName))
    else if key !in section.value then Failure(KeyError(key))
    else Success(section.value[key])
  }

  /** {col: d[field] for col, d in columns.items()}: one entry per column, in document
      order, or the KeyError of the first entry that lacks the field. */
  function FieldOf(columns: Dict<map<string, string>>, field: string): (r: Result<Dict<string>, LoadError>)
    ensures r.Success? <==> forall i :: 0 <= i < |columns| ==> field in columns[i].1
    ensures r.Success? ==> KeySeq(r.value) == KeySeq(columns)
    ensures r.Success? ==> forall i :: 0 <= i < |columns| ==> r.value[i].1 == columns[i].1[field]
    ensures r.Failure? ==> r.error == KeyError(field)
  {
    if columns == [] then Success([])
    else if field !in columns[0].1 then Failure(KeyError(field))
    else
      match FieldOf(columns[1..], field)
      case Failure(e) => Failure(e)
      case Success(rest) =>
        var out := [(columns[0].0, columns[0].1[field])] + rest;
        assert |rest| == |KeySeq(rest)| == |KeySeq(columns[1..])| == |columns| - 1;
        assert forall i :: 1 <= i < |columns| ==> columns[i] == columns[1..][i - 1] && out[i] == rest[i - 1];
        forall i | 0 <= i < |columns| ensures KeySeq(out)[i] == KeySeq(columns)[i] {
          if i > 0 {
            assert KeySeq(rest)[i - 1] == KeySeq(columns[1..])[i - 1];
          }
        }
        Success(out)
  }

  /** Every key load_from_yaml reads is present. */
  predicate HasRequiredKeys(doc: Document) {
    && doc.source.Some?
    && "site_id" in doc.source.value
    && "library_id" in doc.source.value
    && "folder_id" in doc.source.value
    && "list_id" in doc.source.value
    && doc.target.Some?
    && "table" in doc.target.value
    && doc.columns.Some?
    && forall i :: 0 <= i < |doc.columns.value| ==>
         "sql_field" in doc.columns.value[i].1 && "type" in doc.columns.value[i].1
  }

  /** CustomerConfig.load_from_yaml, from the parsed document on: the location
      identifiers are copied, and the expected set, the rename map and the type map
      are three views of the `columns` section. */
  function LoadFromYaml(customerCode: string, doc: Document): (r: Result<CustomerConfig, LoadError>)
    requires WellFormedDocument(doc)
    ensures r.Success? <==> HasRequiredKeys(doc)
    ensures r.Success? ==> ConfigValid(r.value)
    ensures r.Success? ==>
              && r.value.customerCode == customerCode
              && r.value.siteId == doc.source.value["site_id"]
              && r.value.driveId == doc.source.value["library_id"]
              && r.value.folderId == doc.source.value["folder_id"]
              && r.value.listId == doc.source.value["list_id"]
              && r.value.table == doc.target.value["table"]
    ensures r.Success? ==>
              && r.value.expectedColumns == Keys(doc.columns.value)
              && KeySeq(r.value.columnsMapping) == KeySeq(doc.columns.value)
              && KeySeq(r.value.dtypesMapping) == KeySeq(doc.columns.value)
    ensures r.Success? ==> forall i :: 0 <= i < |doc.columns.value| ==>
              && r.value.columnsMapping[i].1 == doc.columns.value[i].1["sql_field"]
              && r.value.dtypesMapping[i].1 == doc.columns.value[i].1["type"]
  {
    var siteId :- Lookup(doc.source, "source", "site_id");
    var driveId :- Lookup(doc.source, "source", "library_id");
    var folderId :- Lookup(doc.source, "source", "folder_id");
    var listId :- Lookup(doc.source, "source", "list_id");
    var table :- Lookup(doc.target, "target", "table");
    var columns :- if doc.columns.None? then Failure(KeyError("columns")) else Success(doc.columns.value);
    var columnsMapping :- FieldOf(columns, "sql_field");
    var dtypesMapping :- FieldOf(columns, "type");
    SameKeys(columnsMapping, columns);
    SameKeys(dtypesMapping, columns);
    Success(CustomerConfig(customerCode, table, siteId, listId, driveId, folderId,
                           Keys(columns), columnsMapping, dtypesMapping))
  }

  /** ExcelFileMetadata: a drive item of the folder, its list item and its status;
      `df` is None until the download fills it in. Only `df` is ever reassigned. */
  class ExcelFile {
    const id: string
    const name: string
    const listItemId: string
    const status: Option<string>
    var df: Option<Table>

    constructor (id: string, name: string, listItemId: string, status: Option<string>)
      ensures this.id == id && this.name == name
      ensures this.listItemId == listItemId && this.status == status
      ensures df == None
    {
      this.id := id;
      this.name := name;
      this.listItemId := listItemId;
      this.status := status;
      df := None;
    }
  }
}
