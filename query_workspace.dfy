/**
 * The analyst workspace page (frontend/src/pages/QueryWorkspace.jsx): the
 * dataset list built from the metadata endpoints, the shaping of a composed
 * query into the backend's request body, the client-side budget decrement,
 * and the upload handler's de-duplicated prepend.
 *
 * Every backend call is an input: the listing, the tables and columns of the
 * chosen database, and the query's result (`None` when the call throws).
 * Formatted strings (accuracy, value, query id, timestamps) are not modelled.
 */
module QueryWorkspace {
  import opened Common
  import opened Text
  import opened QueryDraft
  import opened QuerySchema
  import Meta

  /** The operation name sent for a query type: anything but average and sum is sent as COUNT. */
  function MapOperation(queryType: string): (op: QueryOperation)
    ensures op == Average <==> queryType == "average"
    ensures op == Sum <==> queryType == "sum"
    ensures op == Count <==> queryType != "average" && queryType != "sum"
  {
    if queryType == "average" then Average else if queryType == "sum" then Sum else Count
  }

  /** A histogram request reaches the backend as a COUNT. */
  lemma HistogramIsSentAsCount()
    ensures MapOperation("histogram") == Count
    ensures ParseOperation(OperationValue(MapOperation("histogram"))) == Some(Count)
  {
  }

  /**
   * The map the `reduce` builds, filter by filter from the left: a row with a
   * non-empty column writes `column -> value`, a later row overwriting an
   * earlier one; the operator is never read.
   */
  function Collected(filters: seq<FilterEntry>): map<string, string>
  {
    if filters == [] then map[]
    else
      var acc := Collected(filters[..|filters| - 1]);
      var f := filters[|filters| - 1];
      if f.column != "" then acc[f.column := f.value] else acc
  }

  /** The `filters` field of the request: `null` for no rows, else the collected map. */
  function Flattened(filters: seq<FilterEntry>): Option<map<string, string>>
  {
    if filters == [] then None else Some(Collected(filters))
  }

  /** The keys of the collected map are exactly the non-empty columns of the rows. */
  lemma {:induction false} CollectedKeys(filters: seq<FilterEntry>, k: string)
    ensures k in Collected(filters) <==> k != "" && exists i :: 0 <= i < |filters| && filters[i].column == k
    decreases |filters|
  {
    if filters != [] {
      var init := filters[..|filters| - 1];
      CollectedKeys(init, k);
      if k != "" && (exists i :: 0 <= i < |init| && init[i].column == k) {
        var i :| 0 <= i < |init| && init[i].column == k;
        assert filters[i].column == k;
      }
      if exists i :: 0 <= i < |filters| && filters[i].column == k {
        var i :| 0 <= i < |filters| && filters[i].column == k;
        if i < |init| {
          assert init[i].column == k;
        }
      }
    }
  }

  /** A column's value in the collected map is the value of its LAST row. */
  lemma {:induction false} CollectedLastWins(filters: seq<FilterEntry>, i: int)
    requires 0 <= i < |filters| && filters[i].column != ""
    requires forall j :: i < j < |filters| ==> filters[j].column != filters[i].column
    ensures filters[i].column in Collected(filters)
    ensures Collected(filters)[filters[i].column] == filters[i].value
    decreases |filters|
  {
    if i < |filters| - 1 {
      var init := filters[..|filters| - 1];
      assert init[i] == filters[i];
      CollectedLastWins(init, i);
    }
  }

  /** The operators of the rows never influence the request. */
  lemma {:induction false} OperatorsAreDropped(a: seq<FilterEntry>, b: seq<FilterEntry>)
    requires |a| == |b|
    requires forall i :: 0 <= i < |a| ==> a[i].column == b[i].column && a[i].value == b[i].value
    ensures Flattened(a) == Flattened(b)
    ensures Collected(a) == Collected(b)
    decreases |a|
  {
    if a != [] {
      OperatorsAreDropped(a[..|a| - 1], b[..|b| - 1]);
    }
  }

  /** The `reduce` over the rows, with its accumulator updated in place. */
  method FlattenFilters(filters: seq<FilterEntry>) returns (payload: Option<map<string, string>>)
    ensures payload == Flattened(filters)
  {
    if |filters| == 0 {
      return None;
    }
    var acc: map<string, string> := map[];
    for i := 0 to |filters|
      invariant acc == Collected(filters[..i])
    {
      var f := filters[i];
      assert filters[..i + 1][..i] == filters[..i];
      if f.column != "" {
        acc := acc[f.column := f.value];
      }
    }
    assert filters[..|filters|] == filters;
    payload := Some(acc);
  }

  /** `Math.max(0, remaining - epsilon)`. */
  function ClampedRemaining(remaining: real, epsilon: real): (r: real)
    ensures r >= 0.0
    ensures r >= remaining - epsilon
    ensures r == 0.0 || r == remaining - epsilon
  {
    if remaining - epsilon > 0.0 then remaining - epsilon else 0.0
  }

  /** For a non-negative epsilon the budget never grows, and a fitting epsilon is subtracted exactly. */
  lemma ClampedRemainingDecreases(remaining: real, epsilon: real)
    requires epsilon >= 0.0 && remaining >= 0.0
    ensures ClampedRemaining(remaining, epsilon) <= remaining
    ensures epsilon <= remaining ==> ClampedRemaining(remaining, epsilon) == remaining - epsilon
    ensures epsilon >= remaining ==> ClampedRemaining(remaining, epsilon) == 0.0
  {
  }

  /** The schema a dataset carries. */
  datatype TableSchema = TableSchema(tableName: string, columns: seq<Column>)

  /** A dataset entry of the page's list; `table` is `undefined` for a database without tables. */
  datatype Dataset = Dataset(
    id: string,
    name: string,
    schema: TableSchema,
    databaseName: string,
    table: Option<string>,
    epsilonRemaining: real,
    epsilonTotal: real)

  /** The budget every dataset starts with. */
  const InitialBudget: real := 5.0

  /** JavaScript truthiness of an optional string. */
  predicate Truthy(s: Option<string>)
  {
    s.Some? && s.value != ""
  }

  /** `cols.map(...)`: numeric columns become "Numeric", all others "Categorical"; all are queryable. */
  function MapColumns(cols: seq<Meta.MetaColumn>): (columns: seq<Column>)
    ensures |columns| == |cols|
    ensures forall i :: 0 <= i < |cols| ==> columns[i].name == cols[i].name && columns[i].queryable
    ensures forall i :: 0 <= i < |cols| ==> (columns[i].colType == "Numeric" <==> cols[i].colType == "numeric")
    ensures forall i :: 0 <= i < |cols| ==> (columns[i].colType == "Numeric" || columns[i].colType == "Categorical")
  {
    seq(|cols|, i requires 0 <= i < |cols| =>
      Column(cols[i].name, if cols[i].colType == "numeric" then "Numeric" else "Categorical", true))
  }

  /**
   * The dataset object built for database `dbName` from its table list and
   * the columns of its first table; without a (truthy) first table the schema
   * is named "data" and has no columns.
   */
  function BuildDataset(id: string, dbName: string, tables: seq<string>, cols: seq<Meta.MetaColumn>): (d: Dataset)
    ensures d.id == id && d.name == dbName && d.databaseName == dbName
    ensures d.table == (if tables == [] then None else Some(tables[0]))
    ensures d.epsilonRemaining == InitialBudget && d.epsilonTotal == InitialBudget
    ensures Truthy(d.table) ==> d.schema == TableSchema(tables[0], MapColumns(cols))
    ensures !Truthy(d.table) ==> d.schema == TableSchema("data", [])
  {
    var tableName := if tables == [] then None else Some(tables[0]);
    var schema := if Truthy(tableName) then TableSchema(tableName.value, MapColumns(cols)) else TableSchema("data", []);
    Dataset(id, dbName, schema, dbName, tableName, InitialBudget, InitialBudget)
  }

  /**
   * The replies needed to build a dataset arrived: the tables call answered,
   * and the columns call, made only for a truthy first table, answered too.
   * A `None` reply is a call that threw.
   */
  predicate Answered(tables: Option<seq<string>>, cols: Option<seq<Meta.MetaColumn>>)
  {
    tables.Some? && (tables.value == [] || tables.value[0] == "" || cols.Some?)
  }

  /** The column reply, or no columns when the call was not made. */
  function ColumnsOf(cols: Option<seq<Meta.MetaColumn>>): (r: seq<Meta.MetaColumn>)
    ensures cols.Some? ==> r == cols.value
    ensures cols.None? ==> r == []
  {
    if cols.Some? then cols.value else []
  }

  /** The id the upload handler derives: the FIRST "db_" removed, then the FIRST ".db". */
  function UploadedId(dbName: string): string
  {
    ReplaceFirst(ReplaceFirst(dbName, "db_", ""), ".db", "")
  }

  /** For a generated name "db_<hash>.db" the page and the backend derive the same id. */
  lemma UploadedIdMatchesBackend(h: string)
    requires '_' !in h && '.' !in h
    ensures UploadedId("db_" + h + ".db") == h == Meta.DatabaseId("db_" + h + ".db")
  {
    Meta.HashedNameId(h);
    var name := "db_" + h + ".db";
    assert StartsWith(name, "db_");
    OccursAtStart(name, "db_");
    assert ReplaceFirst(name, "db_", "") == h + ".db";
    var t := h + ".db";
    assert OccursAt(t, ".db", |h|);
    forall j | 0 <= j < |h| ensures !OccursAt(t, ".db", j) {
      assert t[j] == h[j];
    }
    assert IndexOf(t, ".db") == |h|;
    assert t[..|h|] == h;
  }

  /** When "db_" occurs twice the page's id and the backend's id differ. */
  lemma UploadedIdDivergesFromBackend()
    ensures UploadedId("db_db_1.db") == "db_1"
    ensures Meta.DatabaseId("db_db_1.db") == "1"
  {
    UploadedIdOfDoublePrefix();
    BackendIdOfDoublePrefix();
  }

  /** The page removes only the first "db_". */
  lemma UploadedIdOfDoublePrefix()
    ensures UploadedId("db_db_1.db") == "db_1"
  {
    DropFirstPrefixOfDoublePrefix();
    DropSuffixOfSingleId();
  }

  /** The first `replace` rewrites the leading "db_" and keeps the second one. */
  lemma DropFirstPrefixOfDoublePrefix()
    ensures ReplaceFirst("db_db_1.db", "db_", "") == "db_1.db"
  {
    var name := "db_db_1.db";
    assert name[..3] == "db_";
    OccursAtStart(name, "db_");
    assert IndexOf(name, "db_") == 0;
    assert name[3..] == "db_1.db";
  }

  /** The second `replace` rewrites the ".db" at index 4. */
  lemma DropSuffixOfSingleId()
    ensures ReplaceFirst("db_1.db", ".db", "") == "db_1"
  {
    var t := "db_1.db";
    assert t[4..7] == ".db";
    assert OccursAt(t, ".db", 4);
    forall j | 0 <= j < 4 ensures !OccursAt(t, ".db", j) {
      assert t[j] != '.';
      assert t[j..j + 3][0] == t[j];
    }
    IndexOfFirst(t, ".db", 4);
    assert t[..4] + "" + t[7..] == "db_1";
  }

  /** The backend removes every "db_". */
  lemma BackendIdOfDoublePrefix()
    ensures Meta.DatabaseId("db_db_1.db") == "1"
  {
    ReplaceAllLeadingMatch("db_", "db_1.db", "");
    assert "db_" + "db_1.db" == "db_db_1.db";
    ReplaceAllLeadingMatch("db_", "1.db", "");
    assert "db_" + "1.db" == "db_1.db";
    ReplaceAllWithoutChar("1.db", "db_", "", '_');
    assert ReplaceAll("db_db_1.db", "db_", "") == "1.db";
    ReplaceAllFreePrefix("1", ".db", ".db", "");
    ReplaceAllLeadingMatch(".db", "", "");
    assert ".db" + "" == ".db" && "1" + ".db" == "1.db";
  }

  /** No two datasets of the list share a database name. */
  predicate DistinctDatabases(ds: seq<Dataset>)
  {
    forall i, j :: 0 <= i < j < |ds| ==> ds[i].databaseName != ds[j].databaseName
  }

  /** `[d, ...prev.filter(x => x.databaseName !== d.databaseName)]`. */
  function Adopted(prev: seq<Dataset>, d: Dataset): seq<Dataset>
  {
    [d] + Filter(prev, (x: Dataset) => x.databaseName != d.databaseName)
  }

  /**
   * The new dataset comes first, no other entry has its database name, every
   * other dataset is kept in its order, and distinct names stay distinct.
   */
  lemma AdoptedSpec(prev: seq<Dataset>, d: Dataset)
    ensures var r := Adopted(prev, d);
      && r[0] == d
      && (forall i :: 1 <= i < |r| ==> r[i].databaseName != d.databaseName)
      && (forall x :: x in prev && x.databaseName != d.databaseName ==> x in r)
      && (forall x :: x in r ==> x == d || x in prev)
      && |r| <= |prev| + 1
      && (DistinctDatabases(prev) ==> DistinctDatabases(r))
  {
    var rest := Filter(prev, (x: Dataset) => x.databaseName != d.databaseName);
    var r := Adopted(prev, d);
    forall i | 1 <= i < |r| ensures r[i].databaseName != d.databaseName {
      assert r[i] == rest[i - 1] && rest[i - 1] in rest;
    }
    if DistinctDatabases(prev) {
      FilterKeepsDistinct(prev, d.databaseName);
    }
  }

  /** Dropping the entries of one database keeps the remaining names distinct. */
  lemma {:induction false} FilterKeepsDistinct(prev: seq<Dataset>, name: string)
    requires DistinctDatabases(prev)
    ensures DistinctDatabases(Filter(prev, (x: Dataset) => x.databaseName != name))
    decreases |prev|
  {
    if prev != [] {
      FilterKeepsDistinct(prev[1..], name);
      var tail := Filter(prev[1..], (x: Dataset) => x.databaseName != name);
      forall x | x in tail ensures x.databaseName != prev[0].databaseName {
        assert x in prev[1..];
        var k :| 0 <= k < |prev[1..]| && prev[1..][k] == x;
        assert prev[k + 1] == x;
      }
    }
  }

  /** The budget update as written: the FIRST dataset is charged and becomes the whole list. */
  function ChargedAsWritten(prev: seq<Dataset>, epsilon: real): (r: seq<Dataset>)
    ensures prev == [] ==> r == []
    ensures prev != [] ==> |r| == 1 && r[0] == prev[0].(epsilonRemaining := ClampedRemaining(prev[0].epsilonRemaining, epsilon))
  {
    if prev == [] then [] else [prev[0].(epsilonRemaining := ClampedRemaining(prev[0].epsilonRemaining, epsilon))]
  }

  /**
   * With two datasets and the second one selected, the query charges the first
   * one and the selected dataset disappears from the list.
   */
  lemma ChargedAsWrittenLosesSelected(a: Dataset, b: Dataset)
    requires a.databaseName != b.databaseName && a.epsilonRemaining == 5.0 && b.epsilonRemaining == 5.0
    ensures var r := ChargedAsWritten([a, b], 1.0);
      |r| == 1 && r[0].databaseName == a.databaseName && r[0].epsilonRemaining == 4.0
      && forall x :: x in r ==> x.databaseName != b.databaseName
  {
  }

  /** The evidently intended update: the selected dataset is charged and every other entry is kept. */
  function ChargeSelected(prev: seq<Dataset>, selected: Dataset, epsilon: real): (r: seq<Dataset>)
    ensures |r| == |prev|
    ensures forall i :: 0 <= i < |prev| ==>
      r[i] == if prev[i].databaseName == selected.databaseName
              then prev[i].(epsilonRemaining := ClampedRemaining(prev[i].epsilonRemaining, epsilon))
              else prev[i]
  {
    seq(|prev|, i requires 0 <= i < |prev| =>
      if prev[i].databaseName == selected.databaseName
      then prev[i].(epsilonRemaining := ClampedRemaining(prev[i].epsilonRemaining, epsilon))
      else prev[i])
  }

  /** The intended update keeps the list's names, never raises a budget, and charges the selected dataset. */
  lemma ChargeSelectedSpec(prev: seq<Dataset>, selected: Dataset, epsilon: real)
    requires epsilon >= 0.0 && forall i :: 0 <= i < |prev| ==> prev[i].epsilonRemaining >= 0.0
    ensures var r := ChargeSelected(prev, selected, epsilon);
      && (forall i :: 0 <= i < |prev| ==> r[i].databaseName == prev[i].databaseName)
      && (forall i :: 0 <= i < |prev| ==> r[i].epsilonRemaining <= prev[i].epsilonRemaining)
      && (DistinctDatabases(prev) <==> DistinctDatabases(r))
      && (forall i :: 0 <= i < |prev| && prev[i].databaseName == selected.databaseName && epsilon <= prev[i].epsilonRemaining ==>
            r[i].epsilonRemaining == prev[i].epsilonRemaining - epsilon)
  {
  }

  /** The body the page posts to the query endpoint. */
  datatype QueryRequest = QueryRequest(
    operation: QueryOperation,
    column: string,
    table: string,
    epsilon: real,
    filters: Option<map<string, string>>,
    databaseName: string,
    epsilonBudget: real)

  /** `selectedDataset.table || selectedTable || selectedDataset.schema.tableName || 'patients'`. */
  function ChooseTable(d: Dataset, selectedTable: Option<string>): (t: string)
    ensures t != ""
    ensures Truthy(d.table) ==> t == d.table.value
    ensures !Truthy(d.table) && Truthy(selectedTable) ==> t == selectedTable.value
    ensures !Truthy(d.table) && !Truthy(selectedTable) ==>
      t == (if d.schema.tableName != "" then d.schema.tableName else "patients")
  {
    if Truthy(d.table) then d.table.value
    else if Truthy(selectedTable) then selectedTable.value
    else if d.schema.tableName != "" then d.schema.tableName
    else "patients"
  }

  /** The request body as the endpoint's schema reads it (`database_name` is not a declared field). */
  function AsRawQuery(req: QueryRequest): RawQuery
  {
    RawQuery(Some(OperationValue(req.operation)), Some(req.column), Some(req.table), Some(req.epsilon),
             Some(req.epsilonBudget), req.filters)
  }

  /**
   * A request passes the endpoint's schema exactly when epsilon and the
   * remaining budget are positive; an exhausted dataset (budget clamped to 0)
   * is therefore rejected with a field error, and an accepted request reads
   * back as itself.
   */
  lemma RequestValidation(req: QueryRequest)
    ensures ParseQuery(AsRawQuery(req)).Ok? <==> req.epsilon > 0.0 && req.epsilonBudget > 0.0
    ensures req.epsilonBudget == 0.0 ==> BudgetNotPositive in ParseQuery(AsRawQuery(req)).error
    ensures ParseQuery(AsRawQuery(req)).Ok? ==>
      ParseQuery(AsRawQuery(req)).value
        == DifferentialPrivacyQuery(req.operation, req.column, req.table, req.epsilon, Some(req.epsilonBudget), req.filters)
  {
    OperationRoundTrip(req.operation);
  }

  /** What the page shows after a query, without its formatted strings. */
  datatype ResultSummary = ResultSummary(title: string, value: real, epsilonSpent: real, remainingBudget: real)

  /** One entry of the page's query history. */
  datatype HistoryEntry = HistoryEntry(title: string, epsilon: real)

  /** The result label for an operation and a column. */
  function ResultLabel(op: QueryOperation, column: string): (s: string)
    ensures op == Count ==> s == "Count"
    ensures op != Count ==> EndsWith(s, column)
  {
    match op
    case Average => "Average " + column
    case Sum => "Sum of " + column
    case Count => "Count"
  }

  /** The page's state. */
  class Workspace {
    var datasets: seq<Dataset>
    var selectedDataset: Option<Dataset>
    var result: Option<ResultSummary>
    var queryHistory: seq<HistoryEntry>
    var selectedTable: Option<string>

    ghost predicate Valid()
      reads this
    {
      DistinctDatabases(datasets)
    }

    /** The initial state: nothing loaded, nothing selected. */
    constructor ()
      ensures Valid()
      ensures datasets == [] && selectedDataset == None && result == None && queryHistory == [] && selectedTable == None
    {
      datasets, selectedDataset, result, queryHistory, selectedTable := [], None, None, [], None;
    }

    /**
     * The load effect. A `None` reply is a call that threw, which the catch
     * turns into an empty list. An empty listing also clears the selection.
     * The selected table is set as soon as the tables arrive, before the
     * columns are fetched. Otherwise the first database becomes the only,
     * selected dataset.
     */
    method Load(databases: Option<seq<Meta.DbEntry>>, tables: Option<seq<string>>, cols: Option<seq<Meta.MetaColumn>>)
      modifies this
      ensures Valid()
      ensures result == old(result) && queryHistory == old(queryHistory)
      ensures databases.None? ==> datasets == [] && selectedDataset == old(selectedDataset) && selectedTable == old(selectedTable)
      ensures databases == Some([]) ==> datasets == [] && selectedDataset == None && selectedTable == old(selectedTable)
      ensures databases.Some? && databases.value != [] && tables.None? ==>
        datasets == [] && selectedDataset == old(selectedDataset) && selectedTable == old(selectedTable)
      ensures databases.Some? && databases.value != [] && tables.Some? && !Answered(tables, cols) ==>
        datasets == [] && selectedDataset == old(selectedDataset) && selectedTable == Some(tables.value[0])
      ensures databases.Some? && databases.value != [] && Answered(tables, cols) ==>
        var d := BuildDataset(databases.value[0].id, databases.value[0].name, tables.value, ColumnsOf(cols));
        datasets == [d] && selectedDataset == Some(d) && selectedTable == (if Truthy(d.table) then d.table else None)
    {
      if databases.None? {
        datasets := [];
        return;
      }
      var dbs := databases.value;
      if |dbs| == 0 {
        datasets := [];
        selectedDataset := None;
        return;
      }
      if tables.None? {
        datasets := [];
        return;
      }
      var tableName := if tables.value == [] then None else Some(tables.value[0]);
      selectedTable := if Truthy(tableName) then tableName else None;
      if Truthy(tableName) && cols.None? {
        datasets := [];
        return;
      }
      var d := BuildDataset(dbs[0].id, dbs[0].name, tables.value, ColumnsOf(cols));
      datasets := [d];
      selectedDataset := Some(d);
    }

    /**
     * `handleExecuteQuery`. Without a selected dataset nothing is sent and
     * nothing changes. Otherwise the request is sent; when it throws
     * (`response == None`) nothing changes; when it answers, the FIRST
     * dataset is charged and becomes the whole list and the selection, the
     * result is replaced and one history entry is appended.
     */
    method HandleExecuteQuery(query: ComposedQuery, response: Option<real>) returns (sent: Option<QueryRequest>)
      requires Valid()
      modifies this
      ensures Valid()
      ensures sent.None? <==> old(selectedDataset).None?
      ensures sent.Some? ==> var d := old(selectedDataset).value;
        sent.value == QueryRequest(MapOperation(query.queryType), query.column, ChooseTable(d, selectedTable),
                                   query.epsilon, Flattened(query.filters), d.databaseName, d.epsilonRemaining)
      ensures selectedTable == old(selectedTable)
      ensures sent.None? || response.None? ==>
        datasets == old(datasets) && selectedDataset == old(selectedDataset)
        && result == old(result) && queryHistory == old(queryHistory)
      ensures sent.Some? && response.Some? ==>
        var op := MapOperation(query.queryType);
        && datasets == ChargedAsWritten(old(datasets), query.epsilon)
        && selectedDataset == (if old(datasets) == [] then old(selectedDataset) else Some(datasets[0]))
        && result == Some(ResultSummary(ResultLabel(op, query.column), response.value, query.epsilon,
                                        ClampedRemaining(old(selectedDataset).value.epsilonRemaining, query.epsilon)))
        && queryHistory == old(queryHistory) + [HistoryEntry(ResultLabel(op, query.column), query.epsilon)]
    {
      if selectedDataset.None? {
        return None;
      }
      var selected := selectedDataset.value;
      var operation := MapOperation(query.queryType);
      var filtersPayload := FlattenFilters(query.filters);
      sent := Some(QueryRequest(operation, query.column, ChooseTable(selected, selectedTable), query.epsilon,
                                filtersPayload, selected.databaseName, selected.epsilonRemaining));
      if response.None? {
        return;
      }
      var title := ResultLabel(operation, query.column);
      var summary := ResultSummary(title, response.value, query.epsilon,
                                   ClampedRemaining(selected.epsilonRemaining, query.epsilon));
      if |datasets| > 0 {
        var d := datasets[0].(epsilonRemaining := ClampedRemaining(datasets[0].epsilonRemaining, query.epsilon));
        selectedDataset := Some(d);
        datasets := [d];
      }
      result := Some(summary);
      queryHistory := queryHistory + [HistoryEntry(title, query.epsilon)];
    }

    /** Prepend `d`, drop any other entry of its database, and select it. */
    method Adopt(d: Dataset)
      requires Valid()
      modifies this
      ensures Valid()
      ensures datasets == Adopted(old(datasets), d) && selectedDataset == Some(d)
      ensures selectedTable == (if Truthy(d.table) then d.table else None)
      ensures result == old(result) && queryHistory == old(queryHistory)
    {
      AdoptedSpec(datasets, d);
      datasets := Adopted(datasets, d);
      selectedDataset := Some(d);
      selectedTable := if Truthy(d.table) then d.table else None;
    }

    /**
     * The upload handler after a successful upload. With a (truthy) database
     * name in the reply, that database is adopted with the id derived from
     * its name; otherwise the LAST database of a fresh listing is adopted with
     * the listing's id; with an empty listing nothing changes. `tables` and
     * `cols` are the replies for whichever database is adopted. A call that
     * throws (`None`) is caught and changes nothing.
     */
    method HandleUpload(uploaded: Option<string>, listing: Option<seq<Meta.DbEntry>>,
                        tables: Option<seq<string>>, cols: Option<seq<Meta.MetaColumn>>)
      requires Valid()
      modifies this
      ensures Valid()
      ensures result == old(result) && queryHistory == old(queryHistory)
      ensures Truthy(uploaded) && Answered(tables, cols) ==>
        var d := BuildDataset(UploadedId(uploaded.value), uploaded.value, tables.value, ColumnsOf(cols));
        datasets == Adopted(old(datasets), d) && selectedDataset == Some(d)
        && selectedTable == (if Truthy(d.table) then d.table else None)
      ensures !Truthy(uploaded) && listing.Some? && listing.value != [] && Answered(tables, cols) ==>
        var last := listing.value[|listing.value| - 1];
        var d := BuildDataset(last.id, last.name, tables.value, ColumnsOf(cols));
        datasets == Adopted(old(datasets), d) && selectedDataset == Some(d)
        && selectedTable == (if Truthy(d.table) then d.table else None)
      ensures (if Truthy(uploaded) then !Answered(tables, cols)
               else listing.None? || listing.value == [] || !Answered(tables, cols)) ==>
        datasets == old(datasets) && selectedDataset == old(selectedDataset) && selectedTable == old(selectedTable)
    {
      if Truthy(uploaded) {
        if Answered(tables, cols) {
          var dbName := uploaded.value;
          Adopt(BuildDataset(UploadedId(dbName), dbName, tables.value, ColumnsOf(cols)));
        }
      } else if listing.Some? && |listing.value| > 0 && Answered(tables, cols) {
        var last := listing.value[|listing.value| - 1];
        Adopt(BuildDataset(last.id, last.name, tables.value, ColumnsOf(cols)));
      }
    }
  }
}
