/**
 * The rules of the analyst's query builder
 * (frontend/src/components/analyst/QueryBuilder.jsx): which columns each
 * query type may target, the name-based guess that a column is binary, the
 * filter operators a column allows, and the execute guard.
 */
module QueryBuilder {
  import opened Common
  import opened Text
  import opened QueryDraft

  /** Index of the first column called `name`, or -1 (`Array.prototype.find`). */
  function FindColumn(columns: seq<Column>, name: string): (k: int)
    ensures -1 <= k < |columns|
    ensures k >= 0 ==> columns[k].name == name && forall j :: 0 <= j < k ==> columns[j].name != name
    ensures k == -1 <==> forall j :: 0 <= j < |columns| ==> columns[j].name != name
  {
    if columns == [] then -1
    else if columns[0].name == name then 0
    else
      var k := FindColumn(columns[1..], name);
      if k < 0 then -1 else k + 1
  }

  /**
   * `getColumnType`: the type of the first column with that name. A missing
   * schema, no such column, or an empty type string (falsy) all give `null`.
   */
  function GetColumnType(schema: Option<seq<Column>>, name: string): (t: Option<string>)
    ensures t.Some? ==> t.value != ""
    ensures t.Some? <==> (schema.Some? && FindColumn(schema.value, name) >= 0
                          && schema.value[FindColumn(schema.value, name)].colType != "")
    ensures t.Some? ==> exists j :: 0 <= j < |schema.value| && schema.value[j].name == name
                                    && schema.value[j].colType == t.value
  {
    if schema.None? then None
    else
      var k := FindColumn(schema.value, name);
      if k < 0 || schema.value[k].colType == "" then None else Some(schema.value[k].colType)
  }

  /**
   * `isBinaryColumn`: a non-empty name whose lower-case form contains "has",
   * "is", "flag" or "binary", or ends with "_bool" or "_bin".
   */
  function IsBinaryColumn(name: string): (b: bool)
    ensures b <==> (name != [] && (
                      || (exists i :: OccursAt(ToLower(name), "has", i))
                      || (exists i :: OccursAt(ToLower(name), "is", i))
                      || (exists i :: OccursAt(ToLower(name), "flag", i))
                      || (exists i :: OccursAt(ToLower(name), "binary", i))
                      || EndsWith(ToLower(name), "_bool")
                      || EndsWith(ToLower(name), "_bin")))
  {
    if name == [] then false
    else
      var lower := ToLower(name);
      Contains(lower, "has") || Contains(lower, "is") || Contains(lower, "flag")
      || Contains(lower, "binary") || EndsWith(lower, "_bool") || EndsWith(lower, "_bin")
  }

  /** The marker "is" matches inside ordinary words: "Diagnosis" is taken for a binary column. */
  lemma DiagnosisLooksBinary()
    ensures IsBinaryColumn("Diagnosis")
  {
    var lower := ToLower("Diagnosis");
    assert lower[7] == 'i' && lower[8] == 's';
    assert lower[7..9] == "is";
    assert OccursAt(lower, "is", 7);
  }

  /** The empty name is never binary. */
  lemma EmptyNameNotBinary()
    ensures !IsBinaryColumn("")
  {
  }

  /** The six comparison operators, in the order the builder lists them. */
  const AllOperators: seq<string> := ["=", "!=", ">", ">=", "<", "<="]

  /** `getAllowedOperators`: categorical or binary-named: `=`, `!=`; numeric: all six; otherwise `=`. */
  function GetAllowedOperators(schema: Option<seq<Column>>, name: string): (ops: seq<string>)
    ensures GetColumnType(schema, name) == Some("Categorical") || IsBinaryColumn(name) ==> ops == AllOperators[..2]
    ensures (!(GetColumnType(schema, name) == Some("Categorical") || IsBinaryColumn(name))
             && GetColumnType(schema, name) == Some("Numeric")) ==> ops == AllOperators
    ensures (!(GetColumnType(schema, name) == Some("Categorical") || IsBinaryColumn(name))
             && GetColumnType(schema, name) != Some("Numeric")) ==> ops == AllOperators[..1]
  {
    var colType := GetColumnType(schema, name);
    if colType == Some("Categorical") || IsBinaryColumn(name) then ["=", "!="]
    else if colType == Some("Numeric") then ["=", "!=", ">", ">=", "<", "<="]
    else ["="]
  }

  /** Every allowlist is a prefix of the six operators of length 1, 2 or 6, so "=" is always allowed. */
  lemma AllowedOperatorsArePrefix(schema: Option<seq<Column>>, name: string)
    ensures var ops := GetAllowedOperators(schema, name);
      (|ops| == 1 || |ops| == 2 || |ops| == 6) && ops == AllOperators[..|ops|] && "=" in ops
  {
    var ops := GetAllowedOperators(schema, name);
    assert ops[0] == "=";
  }

  /** A binary-looking name caps even a numeric column at `=` and `!=`. */
  lemma BinaryNameOverridesNumeric(schema: Option<seq<Column>>, name: string)
    requires GetColumnType(schema, name) == Some("Numeric") && IsBinaryColumn(name)
    ensures GetAllowedOperators(schema, name) == ["=", "!="]
  {
  }

  /** Columns an average or a sum may target: numeric or integer ones. */
  predicate IsMeasure(c: Column)
  {
    c.colType == "Numeric" || c.colType == "Integer"
  }

  /** Whether the builder offers column `c` for `queryType`. */
  predicate Offers(queryType: string, c: Column)
  {
    c.queryable && (queryType == "average" || queryType == "sum" ==> IsMeasure(c))
  }

  /** `getColumnsForQueryType` over the queryable columns of the schema. */
  function GetColumnsForQueryType(queryType: string, columns: seq<Column>): (offered: seq<Column>)
    ensures forall c :: c in offered <==> c in columns && Offers(queryType, c)
    ensures offered == Filter(columns, c => Offers(queryType, c))
  {
    var queryable := Filter(columns, (c: Column) => c.queryable);
    var r := if queryType == "count" then queryable
             else if queryType == "average" || queryType == "sum" then Filter(queryable, IsMeasure)
             else queryable;
    FilterTwice(columns, queryType);
    r
  }

  /** Filtering the queryable columns again by type is the single filter by `Offers`. */
  lemma {:induction false} FilterTwice(columns: seq<Column>, queryType: string)
    ensures queryType == "average" || queryType == "sum" ==>
      Filter(Filter(columns, (c: Column) => c.queryable), IsMeasure) == Filter(columns, c => Offers(queryType, c))
    ensures !(queryType == "average" || queryType == "sum") ==>
      Filter(columns, (c: Column) => c.queryable) == Filter(columns, c => Offers(queryType, c))
    decreases |columns|
  {
    if columns != [] {
      FilterTwice(columns[1..], queryType);
    }
  }

  /** The builder offers, in schema order, a subsequence of the queryable columns. */
  lemma OfferedAreQueryable(queryType: string, columns: seq<Column>)
    ensures var queryable := Filter(columns, (c: Column) => c.queryable);
      GetColumnsForQueryType(queryType, columns) == Filter(queryable, c => Offers(queryType, c))
  {
    FilterFilter(columns, queryType);
  }

  /** Filtering by queryable first does not change what `Offers` keeps. */
  lemma {:induction false} FilterFilter(columns: seq<Column>, queryType: string)
    ensures Filter(Filter(columns, (c: Column) => c.queryable), c => Offers(queryType, c))
         == Filter(columns, c => Offers(queryType, c))
    decreases |columns|
  {
    if columns != [] {
      FilterFilter(columns[1..], queryType);
    }
  }

  /** The state of one builder: query type, chosen column, filters and epsilon. */
  class Builder {
    var queryType: string
    var selectedColumn: string
    var epsilon: real
    const filters: FilterList

    /** The initial state: `'average'`, no column, no filters, epsilon 0.5. */
    constructor ()
      ensures queryType == "average" && selectedColumn == "" && epsilon == 0.5
      ensures fresh(filters) && filters.Valid() && filters.Contents() == []
    {
      queryType, selectedColumn, epsilon := "average", "", 0.5;
      filters := new FilterList();
    }

    /** The query-type selector: a new type also clears the chosen column. */
    method SetQueryType(t: string)
      modifies this
      ensures queryType == t && selectedColumn == "" && epsilon == old(epsilon)
    {
      queryType := t;
      selectedColumn := "";
    }

    /** The column selector. */
    method SelectColumn(name: string)
      modifies this
      ensures selectedColumn == name && queryType == old(queryType) && epsilon == old(epsilon)
    {
      selectedColumn := name;
    }

    /** The epsilon slider. */
    method SetEpsilon(e: real)
      modifies this
      ensures epsilon == e && queryType == old(queryType) && selectedColumn == old(selectedColumn)
    {
      epsilon := e;
    }

    /** `canExecute`: a column is chosen and epsilon fits the remaining budget. */
    predicate CanExecute(remainingBudget: real)
      reads this
    {
      selectedColumn != "" && epsilon <= remainingBudget
    }

    /**
     * `handleExecute`: without a column nothing is sent; otherwise the current
     * type, column, filter contents and epsilon. The budget is not checked here.
     */
    method HandleExecute() returns (sent: Option<ComposedQuery>)
      ensures sent.None? <==> selectedColumn == ""
      ensures sent.Some? ==> sent.value == ComposedQuery(queryType, selectedColumn, filters.Contents(), epsilon)
    {
      if selectedColumn == "" {
        sent := None;
      } else {
        sent := Some(ComposedQuery(queryType, selectedColumn, filters.Contents(), epsilon));
      }
    }

    /** An enabled button always sends; a larger remaining budget never disables it. */
    lemma CanExecuteSends(remainingBudget: real, larger: real)
      requires CanExecute(remainingBudget) && remainingBudget <= larger
      ensures selectedColumn != "" && CanExecute(larger)
    {
    }
  }
}
