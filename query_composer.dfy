/**
 * The second query-building component
 * (frontend/src/components/analyst/QueryComposer.jsx): it adds a histogram
 * query type restricted to categorical columns, a "clear all filters" action,
 * and an execute handler with no guard of its own.
 */
module QueryComposer {
  import opened Common
  import opened QueryDraft
  import QueryBuilder

  /** Whether the composer offers column `c` for `queryType`. */
  predicate Offers(queryType: string, c: Column)
  {
    && c.queryable
    && (queryType == "average" || queryType == "sum" ==> QueryBuilder.IsMeasure(c))
    && (queryType == "histogram" ==> c.colType == "Categorical")
  }

  /** `getColumnsForQueryType`, with the histogram branch. */
  function GetColumnsForQueryType(queryType: string, columns: seq<Column>): (offered: seq<Column>)
    ensures forall c :: c in offered <==> c in columns && Offers(queryType, c)
    ensures offered == Filter(columns, c => Offers(queryType, c))
  {
    var queryable := Filter(columns, (c: Column) => c.queryable);
    var r := if queryType == "count" then queryable
             else if queryType == "average" || queryType == "sum" then Filter(queryable, QueryBuilder.IsMeasure)
             else if queryType == "histogram" then Filter(queryable, (c: Column) => c.colType == "Categorical")
             else queryable;
    FilterTwice(columns, queryType);
    r
  }

  /** Each branch's second filter over the queryable columns is the single filter by `Offers`. */
  lemma {:induction false} FilterTwice(columns: seq<Column>, queryType: string)
    ensures queryType == "average" || queryType == "sum" ==>
      Filter(Filter(columns, (c: Column) => c.queryable), QueryBuilder.IsMeasure) == Filter(columns, c => Offers(queryType, c))
    ensures queryType == "histogram" ==>
      Filter(Filter(columns, (c: Column) => c.queryable), (c: Column) => c.colType == "Categorical")
        == Filter(columns, c => Offers(queryType, c))
    ensures queryType != "average" && queryType != "sum" && queryType != "histogram" ==>
      Filter(columns, (c: Column) => c.queryable) == Filter(columns, c => Offers(queryType, c))
    decreases |columns|
  {
    if columns != [] {
      FilterTwice(columns[1..], queryType);
    }
  }

  /**
   * The composer and the builder agree on every query type except
   * "histogram", where the composer keeps only categorical columns.
   */
  lemma {:induction false} AgreesWithBuilderExceptHistogram(queryType: string, columns: seq<Column>)
    ensures queryType != "histogram" ==>
      GetColumnsForQueryType(queryType, columns) == QueryBuilder.GetColumnsForQueryType(queryType, columns)
    ensures queryType == "histogram" ==>
      GetColumnsForQueryType(queryType, columns)
        == Filter(QueryBuilder.GetColumnsForQueryType(queryType, columns), (c: Column) => c.colType == "Categorical")
    decreases |columns|
  {
    if columns != [] {
      AgreesWithBuilderExceptHistogram(queryType, columns[1..]);
    }
  }

  /** The state of one composer: query type, chosen column, filters and epsilon. */
  class Composer {
    var queryType: string
    var selectedColumn: string
    var epsilon: real
    const filters: FilterList

    /** The initial state: `'count'`, no column, no filters, epsilon 0.5. */
    constructor ()
      ensures queryType == "count" && selectedColumn == "" && epsilon == 0.5
      ensures fresh(filters) && filters.Valid() && filters.Contents() == []
    {
      queryType, selectedColumn, epsilon := "count", "", 0.5;
      filters := new FilterList();
    }

    /** The query-type selector: a new type also clears the chosen column. */
    method SetQueryType(t: string)
      modifies this
      ensures queryType == t && selectedColumn == "" && epsilon == old(epsilon)
    {
      queryType := t;
      selectedColumn := "";
    }

    /** The column selector. */
    method SelectColumn(name: string)
      modifies this
      ensures selectedColumn == name && queryType == old(queryType) && epsilon == old(epsilon)
    {
      selectedColumn := name;
    }

    /** The epsilon slider. */
    method SetEpsilon(e: real)
      modifies this
      ensures epsilon == e && queryType == old(queryType) && selectedColumn == old(selectedColumn)
    {
      epsilon := e;
    }

    /** `canExecute`: a column is chosen and epsilon fits the remaining budget. */
    predicate CanExecute(remainingBudget: real)
      reads this
    {
      selectedColumn != "" && epsilon <= remainingBudget
    }

    /**
     * `handleExecute`: sends the current type, column, filter contents and
     * epsilon unconditionally; only the disabled button stands between an
     * empty column and the workspace.
     */
    method HandleExecute() returns (sent: ComposedQuery)
      ensures sent.queryType == queryType && sent.column == selectedColumn
      ensures sent.filters == filters.Contents() && sent.epsilon == epsilon
    {
      sent := ComposedQuery(queryType, selectedColumn, filters.Contents(), epsilon);
    }
  }
}
