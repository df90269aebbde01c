/**
 * The request and response shapes of the query endpoint
 * (backend/app/schemas/query.py), and the field validation that the schema
 * library applies to a request body before the handler sees it.
 */
module QuerySchema {
  import opened Common

  /** `QueryOperation`: exactly three kinds; there is no histogram. */
  datatype QueryOperation = Sum | Average | Count

  /** The wire value of each operation. */
  function OperationValue(op: QueryOperation): (s: string)
    ensures |s| > 0
  {
    match op
    case Sum => "SUM"
    case Average => "AVERAGE"
    case Count => "COUNT"
  }

  /** Reading an operation from its wire value. */
  function ParseOperation(s: string): (r: Option<QueryOperation>)
    ensures r.Some? ==> OperationValue(r.value) == s
    ensures r.None? <==> forall op: QueryOperation :: OperationValue(op) != s
  {
    if s == "SUM" then Some(Sum)
    else if s == "AVERAGE" then Some(Average)
    else if s == "COUNT" then Some(Count)
    else None
  }

  /** Every operation reads back from its wire value, and "HISTOGRAM" is not an operation. */
  lemma OperationRoundTrip(op: QueryOperation)
    ensures ParseOperation(OperationValue(op)) == Some(op)
    ensures ParseOperation("HISTOGRAM") == None
  {
  }

  /** `DifferentialPrivacyQuery`; `filters` is a column-to-value map with no operator. */
  datatype DifferentialPrivacyQuery = DifferentialPrivacyQuery(
    operation: QueryOperation,
    column: string,
    table: string,
    epsilon: real,
    epsilonBudget: Option<real>,
    filters: Option<map<string, string>>)

  /** The field constraints: `epsilon > 0`, and `epsilon_budget > 0` when present. */
  predicate ValidQuery(q: DifferentialPrivacyQuery)
  {
    q.epsilon > 0.0 && (q.epsilonBudget.Some? ==> q.epsilonBudget.value > 0.0)
  }

  /** `QueryResponse` without its formatted `message` text. */
  datatype QueryResponse = QueryResponse(
    result: real,
    operation: QueryOperation,
    column: string,
    table: string,
    epsilon: real,
    noiseAdded: real)

  /** A request body as decoded from JSON; absent keys (and JSON nulls) are `None`. */
  datatype RawQuery = RawQuery(
    operation: Option<string>,
    column: Option<string>,
    table: Option<string>,
    epsilon: Option<real>,
    epsilonBudget: Option<real>,
    filters: Option<map<string, string>>)

  /** The field errors the schema reports (status 422). */
  datatype FieldError =
    | BadOperation
    | MissingColumn
    | MissingTable
    | MissingEpsilon
    | EpsilonNotPositive
    | BudgetNotPositive

  /** Every failing field of a raw body; the schema reports all of them at once. */
  function FieldErrors(raw: RawQuery): (errs: set<FieldError>)
    ensures BadOperation in errs <==> raw.operation.None? || ParseOperation(raw.operation.value).None?
    ensures MissingColumn in errs <==> raw.column.None?
    ensures MissingTable in errs <==> raw.table.None?
    ensures MissingEpsilon in errs <==> raw.epsilon.None?
    ensures EpsilonNotPositive in errs <==> raw.epsilon.Some? && raw.epsilon.value <= 0.0
    ensures BudgetNotPositive in errs <==> raw.epsilonBudget.Some? && raw.epsilonBudget.value <= 0.0
  {
    (if raw.operation.None? || ParseOperation(raw.operation.value).None? then {BadOperation} else {})
    + (if raw.column.None? then {MissingColumn} else {})
    + (if raw.table.None? then {MissingTable} else {})
    + (if raw.epsilon.None? then {MissingEpsilon} else {})
    + (if raw.epsilon.Some? && raw.epsilon.value <= 0.0 then {EpsilonNotPositive} else {})
    + (if raw.epsilonBudget.Some? && raw.epsilonBudget.value <= 0.0 then {BudgetNotPositive} else {})
  }

  /** Validation of a raw body into a `DifferentialPrivacyQuery`. */
  function ParseQuery(raw: RawQuery): (r: Result<DifferentialPrivacyQuery, set<FieldError>>)
    ensures r.Ok? <==> FieldErrors(raw) == {}
    ensures r.Err? ==> r.error == FieldErrors(raw) && r.error != {}
    ensures r.Ok? ==> ValidQuery(r.value)
    ensures r.Ok? ==> (Some(r.value.column) == raw.column && Some(r.value.table) == raw.table
      && Some(r.value.epsilon) == raw.epsilon && r.value.epsilonBudget == raw.epsilonBudget
      && r.value.filters == raw.filters && raw.operation == Some(OperationValue(r.value.operation)))
  {
    var errs := FieldErrors(raw);
    if errs != {} then Err(errs)
    else
      assert BadOperation !in errs;
      Ok(DifferentialPrivacyQuery(
        ParseOperation(raw.operation.value).value,
        raw.column.value, raw.table.value, raw.epsilon.value,
        raw.epsilonBudget, raw.filters))
  }
}
