/**
 * The decision logic of `execute_differential_privacy_query`
 * (backend/app/endpoints/query.py): the epsilon range check, the comparison
 * with the request's own `epsilon_budget`, the `database_name` lookup, the
 * keyword call into the service, and the conversion of every exception into a
 * RETURNED (not raised) error object with status 500.
 *
 * The handler keeps no state: it is a function of the request, whether the
 * parsed request exposes `database_name`, and the service's noise draw.
 * Opening the database session is not modelled.
 */
module QueryEndpoint {
  import opened Common
  import opened QuerySchema
  import PrivacyService

  /** Why the handler did not produce a response. */
  datatype Reason =
    | EpsilonOutOfRange                 // "Epsilon must be between 0 and 10"
    | EpsilonOverBudget                 // "Epsilon must be less than or equal to epsilon budget"
    | MissingDatabaseName               // "database_name must be provided in the request body"
    | UnexpectedKeyword(name: string)   // TypeError raised by the keyword call
    | ServiceFailure(error: PrivacyService.ServiceError)

  /** What the client receives. */
  datatype Outcome =
    | Success(response: QueryResponse)
    | Raised(status: int, reason: Reason)     // an HTTPException raised out of the handler
    | Returned(status: int, reason: Reason)   // an HTTPException object returned as the body

  /** Python truthiness of an optional float: `None` and `0.0` are false. */
  predicate Truthy(x: Option<real>)
  {
    x.Some? && x.value != 0.0
  }

  /** The two guards, in source order: the range check first, then the budget comparison. */
  function Admit(q: DifferentialPrivacyQuery): (r: Option<Reason>)
    ensures r == None <==> PrivacyService.ValidateEpsilon(q.epsilon)
                           && !(Truthy(q.epsilonBudget) && q.epsilon > q.epsilonBudget.value)
    ensures r.Some? ==> r.value == EpsilonOutOfRange || r.value == EpsilonOverBudget
    ensures !PrivacyService.ValidateEpsilon(q.epsilon) ==> r == Some(EpsilonOutOfRange)
  {
    if !PrivacyService.ValidateEpsilon(q.epsilon) then Some(EpsilonOutOfRange)
    else if Truthy(q.epsilonBudget) && q.epsilon > q.epsilonBudget.value then Some(EpsilonOverBudget)
    else None
  }

  /** The parameter names of `execute_private_query`. */
  const ServiceParameters: set<string> := {"operation", "column", "table", "epsilon", "filters"}

  /** The keywords the handler passes, in call order (including `db`). */
  const HandlerKeywords: seq<string> := ["operation", "column", "table", "epsilon", "db", "filters"]

  /** Python's keyword binding: the first keyword that names no parameter, if any. */
  function FirstUnexpected(keywords: seq<string>, params: set<string>): (r: Option<string>)
    ensures r.None? <==> forall i :: 0 <= i < |keywords| ==> keywords[i] in params
    ensures r.Some? ==> r.value !in params && r.value in keywords
  {
    if keywords == [] then None
    else if keywords[0] !in params then Some(keywords[0])
    else FirstUnexpected(keywords[1..], params)
  }

  /** Calling the service with the given keywords: a TypeError, or the service's own result. */
  function CallService(keywords: seq<string>, q: DifferentialPrivacyQuery, unitDraw: real): (r: Result<(real, real), Reason>)
    ensures FirstUnexpected(keywords, ServiceParameters).Some? ==>
      r == Err(UnexpectedKeyword(FirstUnexpected(keywords, ServiceParameters).value))
  {
    match FirstUnexpected(keywords, ServiceParameters)
    case Some(k) => Err(UnexpectedKeyword(k))
    case None =>
      match PrivacyService.ExecutePrivateQuery(q.operation, q.column, q.table, q.epsilon, q.filters, unitDraw)
      case Ok(pair) => Ok(pair)
      case Err(e) => Err(ServiceFailure(e))
  }

  /** The response assembled from the request and the service's pair. */
  function Respond(q: DifferentialPrivacyQuery, pair: (real, real)): QueryResponse
  {
    QueryResponse(pair.0, q.operation, q.column, q.table, q.epsilon, pair.1)
  }

  /**
   * The handler as written: every exception of the try block, the two 400s
   * included, is caught and an `HTTPException(500)` is returned.
   */
  function HandleQueryAsWritten(q: DifferentialPrivacyQuery, hasDatabaseName: bool, unitDraw: real): (o: Outcome)
    ensures o.Returned? ==> o.status == 500
    ensures Admit(q).Some? ==> o == Returned(500, Admit(q).value)
  {
    match Admit(q)
    case Some(reason) => Returned(500, reason)
    case None =>
      if !hasDatabaseName then Returned(500, MissingDatabaseName)
      else
        match CallService(HandlerKeywords, q, unitDraw)
        case Err(reason) => Returned(500, reason)
        case Ok(pair) => Success(Respond(q, pair))
  }

  /** As written, no request ever succeeds: the `db` keyword always raises a TypeError. */
  lemma {:induction false} AsWrittenNeverSucceeds(q: DifferentialPrivacyQuery, hasDatabaseName: bool, unitDraw: real)
    ensures HandleQueryAsWritten(q, hasDatabaseName, unitDraw).Returned?
    ensures HandleQueryAsWritten(q, hasDatabaseName, unitDraw).status == 500
    ensures Admit(q).None? && hasDatabaseName ==>
      HandleQueryAsWritten(q, hasDatabaseName, unitDraw).reason == UnexpectedKeyword("db")
  {
    assert HandlerKeywords[4] == "db" && "db" !in ServiceParameters;
    assert FirstUnexpected(HandlerKeywords, ServiceParameters) == Some("db") by {
      assert HandlerKeywords[1..][1..][1..][1..] == ["db", "filters"];
    }
  }

  /** As written, an out-of-range epsilon yields a returned 500, not a 400. */
  lemma OutOfRangeEpsilonAsWritten()
    ensures HandleQueryAsWritten(DifferentialPrivacyQuery(Count, "age", "patients", 11.0, None, None), true, 0.0)
         == Returned(500, EpsilonOutOfRange)
  {
  }

  /** The keywords without `db`: the call the service's signature accepts. */
  const CorrectedKeywords: seq<string> := ["operation", "column", "table", "epsilon", "filters"]

  /**
   * The handler as evidently intended: the guards raise their 400s, the
   * service is called with the keywords it declares, and only an unexpected
   * service failure becomes a raised 500.
   */
  function HandleQuery(q: DifferentialPrivacyQuery, hasDatabaseName: bool, unitDraw: real): (o: Outcome)
  {
    match Admit(q)
    case Some(reason) => Raised(400, reason)
    case None =>
      if !hasDatabaseName then Raised(400, MissingDatabaseName)
      else
        match CallService(CorrectedKeywords, q, unitDraw)
        case Err(reason) => Raised(500, reason)
        case Ok(pair) => Success(Respond(q, pair))
  }

  /**
   * The intended handler: rejections are 400s in guard order; an admitted
   * request with a database name always succeeds, echoes the request and
   * carries the stub aggregate plus noise scaled by the table's sensitivity.
   */
  lemma {:induction false} HandleQuerySpec(q: DifferentialPrivacyQuery, hasDatabaseName: bool, unitDraw: real)
    ensures var o := HandleQuery(q, hasDatabaseName, unitDraw);
      && (!PrivacyService.ValidateEpsilon(q.epsilon) ==> o == Raised(400, EpsilonOutOfRange))
      && ((PrivacyService.ValidateEpsilon(q.epsilon) && Truthy(q.epsilonBudget) && q.epsilon > q.epsilonBudget.value)
          ==> o == Raised(400, EpsilonOverBudget))
      && (Admit(q).None? && !hasDatabaseName ==> o == Raised(400, MissingDatabaseName))
      && (o.Success? <==> Admit(q).None? && hasDatabaseName)
      && (o.Success? ==>
            && o.response.operation == q.operation && o.response.column == q.column
            && o.response.table == q.table && o.response.epsilon == q.epsilon
            && o.response.result - o.response.noiseAdded == PrivacyService.TrueResult(q.operation)
            && o.response.noiseAdded * q.epsilon == PrivacyService.SensitivityTable[q.operation] * unitDraw)
  {
    assert FirstUnexpected(CorrectedKeywords, ServiceParameters) == None by {
      forall i | 0 <= i < |CorrectedKeywords| ensures CorrectedKeywords[i] in ServiceParameters {
      }
    }
  }

  /** Without a budget in the request, only the range check applies. */
  lemma MissingBudgetSkipsComparison(q: DifferentialPrivacyQuery)
    requires q.epsilonBudget.None?
    ensures Admit(q).None? <==> 0.0 < q.epsilon <= PrivacyService.MaxEpsilon
  {
  }

  /** For a request that passed schema validation, a truthy budget is simply a present one. */
  lemma ValidBudgetIsTruthy(q: DifferentialPrivacyQuery)
    requires ValidQuery(q)
    ensures Truthy(q.epsilonBudget) <==> q.epsilonBudget.Some?
  {
  }
}
