/**
 * The metadata endpoints (backend/app/endpoints/meta.py): the database
 * listing with ids derived from file names, the table listing, and the
 * column listing with its dtype-to-type mapping.
 *
 * The directory listing, the existence test, the SQLite table list and the
 * pandas dtypes are inputs; `None` stands for the call raising, which the
 * handlers turn into a 500.
 */
module Meta {
  import opened Common
  import opened Text

  /** One entry of `{"databases": [...]}`. */
  datatype DbEntry = DbEntry(id: string, name: string)

  /** One entry of `{"columns": [...]}`. */
  datatype MetaColumn = MetaColumn(name: string, colType: string)

  /** The id of a database file: every "db_" removed, then every ".db" removed. */
  function DatabaseId(fileName: string): string
  {
    ReplaceAll(ReplaceAll(fileName, "db_", ""), ".db", "")
  }

  /** A file the listing keeps. */
  predicate IsDatabaseFile(f: string)
  {
    EndsWith(f, ".db")
  }

  /** `list_databases`: the `.db` files in listing order, each with its id and verbatim name. */
  function ListDatabases(listing: Option<seq<string>>): (r: Result<seq<DbEntry>, int>)
    ensures r.Err? <==> listing.None?
    ensures r.Err? ==> r.error == 500
    ensures r.Ok? ==> |r.value| == |Filter(listing.value, IsDatabaseFile)|
    ensures r.Ok? ==> forall i :: 0 <= i < |r.value| ==>
      && r.value[i].name == Filter(listing.value, IsDatabaseFile)[i]
      && r.value[i].id == DatabaseId(r.value[i].name)
      && IsDatabaseFile(r.value[i].name)
      && r.value[i].name in listing.value
  {
    match listing
    case None => Err(500)
    case Some(files) =>
      var dbs := Filter(files, IsDatabaseFile);
      Ok(seq(|dbs|, i requires 0 <= i < |dbs| => DbEntry(DatabaseId(dbs[i]), dbs[i])))
  }

  /** The listing keeps a file exactly when its name ends with ".db", and keeps the listing's order. */
  lemma ListingKeepsOrder(a: seq<string>, b: seq<string>)
    ensures Filter(a + b, IsDatabaseFile) == Filter(a, IsDatabaseFile) + Filter(b, IsDatabaseFile)
  {
    FilterConcat(a, b, IsDatabaseFile);
  }

  /** A generated name "db_<hash>.db" whose hash has no '_' and no '.' has that hash as its id. */
  lemma {:induction false} HashedNameId(h: string)
    requires '_' !in h && '.' !in h
    ensures DatabaseId("db_" + h + ".db") == h
  {
    assert "db_" + h + ".db" == "db_" + (h + ".db");
    ReplaceAllLeadingMatch("db_", h + ".db", "");
    assert '_' !in h + ".db";
    ReplaceAllWithoutChar(h + ".db", "db_", "", '_');
    assert ReplaceAll("db_" + h + ".db", "db_", "") == h + ".db";
    ReplaceAllFreePrefix(h, ".db", ".db", "");
    ReplaceAllLeadingMatch(".db", "", "");
    assert ".db" + "" == ".db";
    assert ReplaceAll("", ".db", "") == "";
  }

  /** `list_tables`: 404 for a database that does not exist, else the tables SQLite reports. */
  function ListTables(exists_: bool, tables: Option<seq<string>>): (r: Result<seq<string>, int>)
    ensures !exists_ <==> r == Err(404)
    ensures exists_ && tables.None? <==> r == Err(500)
    ensures r.Ok? ==> Some(r.value) == tables
  {
    if !exists_ then Err(404)
    else match tables
      case None => Err(500)
      case Some(t) => Ok(t)
  }

  /** The type label of a pandas dtype name. */
  function DtypeLabel(dtype: string): (kind: string)
    ensures kind == "numeric" || kind == "categorical"
    ensures kind == "numeric" <==> StartsWith(dtype, "int") || StartsWith(dtype, "float")
  {
    if StartsWith(dtype, "int") || StartsWith(dtype, "float") then "numeric" else "categorical"
  }

  /** The prefix test also catches pandas' "interval" dtype, which is reported as numeric. */
  lemma IntervalDtypeIsNumeric()
    ensures DtypeLabel("interval[int64, right]") == "numeric"
    ensures DtypeLabel("int64") == "numeric" && DtypeLabel("float64") == "numeric"
    ensures DtypeLabel("object") == "categorical" && DtypeLabel("bool") == "categorical"
  {
    assert "interval[int64, right]"[..3] == "int";
    assert "int64"[..3] == "int";
    assert "float64"[..5] == "float";
    assert "object"[..3][0] == 'o' && "object"[..5][0] == 'o';
    assert "bool"[..3][0] == 'b';
  }

  /**
   * `list_columns`: 404 for a database that does not exist; otherwise one
   * entry per dataframe column, in order, with its dtype mapped to a label.
   * `frame` is the `(column, dtype)` list of the first hundred rows, or `None`
   * when the SQL read raised.
   */
  method ListColumns(exists_: bool, frame: Option<seq<(string, string)>>) returns (r: Result<seq<MetaColumn>, int>)
    ensures !exists_ <==> r == Err(404)
    ensures exists_ && frame.None? <==> r == Err(500)
    ensures r.Ok? ==> frame.Some? && |r.value| == |frame.value|
    ensures r.Ok? ==> forall i :: 0 <= i < |r.value| ==>
      r.value[i] == MetaColumn(frame.value[i].0, DtypeLabel(frame.value[i].1))
  {
    if !exists_ {
      return Err(404);
    }
    if frame.None? {
      return Err(500);
    }
    var df := frame.value;
    var columns: seq<MetaColumn> := [];
    for i := 0 to |df|
      invariant |columns| == i
      invariant forall k :: 0 <= k < i ==> columns[k] == MetaColumn(df[k].0, DtypeLabel(df[k].1))
    {
      var colType := if StartsWith(df[i].1, "int") || StartsWith(df[i].1, "float") then "numeric" else "categorical";
      columns := columns + [MetaColumn(df[i].0, colType)];
    }
    r := Ok(columns);
  }
}
