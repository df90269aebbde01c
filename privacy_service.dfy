/**
 * The server-side Laplace mechanism (backend/app/services/differential_privacy.py):
 * a fixed sensitivity per operation, noise scaled by sensitivity / epsilon and
 * added to a stubbed true aggregate, and the epsilon range check.
 *
 * `np.random.laplace(0, scale)` draws `scale` times a standard Laplace sample;
 * that standard sample is the parameter `unitDraw`. Python's float division
 * raises on a zero divisor, and numpy raises `ValueError` for a negative scale:
 * those are the two error paths here.
 */
module PrivacyService {
  import opened Common
  import opened QuerySchema

  /** The `self.sensitivity` table set in `__init__`. */
  const SensitivityTable: map<QueryOperation, real> := map[Count := 1.0, Sum := 1.0, Average := 1.0]

  /** The largest epsilon `validate_epsilon` admits. */
  const MaxEpsilon: real := 10.0

  /** The exceptions the service can raise. */
  datatype ServiceError = ZeroDivision | NegativeScale

  /** Every operation has an entry, and every entry is 1.0. */
  lemma SensitivityTableIsUniform(op: QueryOperation)
    ensures op in SensitivityTable && SensitivityTable[op] == 1.0
  {
  }

  /**
   * `add_laplace_noise(true_value, epsilon, sensitivity)`: the pair
   * `(noisy_result, noise)` with `noise = (sensitivity / epsilon) * unitDraw`.
   */
  function AddLaplaceNoise(trueValue: real, epsilon: real, sensitivity: real, unitDraw: real): (r: Result<(real, real), ServiceError>)
    ensures r == Err(ZeroDivision) <==> epsilon == 0.0
    ensures r == Err(NegativeScale) <==> epsilon != 0.0 && sensitivity / epsilon < 0.0
    ensures r.Ok? ==> epsilon != 0.0 && sensitivity / epsilon >= 0.0
    ensures r.Ok? ==> r.value.0 - r.value.1 == trueValue
    ensures r.Ok? ==> r.value.1 * epsilon == sensitivity * unitDraw
  {
    if epsilon == 0.0 then Err(ZeroDivision)
    else
      var scale := sensitivity / epsilon;
      if scale < 0.0 then Err(NegativeScale)
      else
        var noise := scale * unitDraw;
        var noisy := trueValue + noise;
        Ok((noisy, noise))
  }

  /** `_get_true_result`: the stubbed aggregate per operation. */
  function TrueResult(op: QueryOperation): (v: real)
    ensures v >= 0.0
  {
    match op
    case Count => 1000.0
    case Sum => 50000.0
    case Average => 50.0
  }

  /** `execute_private_query`: the stub aggregate perturbed with the table's sensitivity. */
  function ExecutePrivateQuery(op: QueryOperation, column: string, table: string, epsilon: real,
                               filters: Option<map<string, string>>, unitDraw: real): (r: Result<(real, real), ServiceError>)
    ensures r == Err(ZeroDivision) <==> epsilon == 0.0
    ensures r == Err(NegativeScale) <==> epsilon < 0.0
    ensures r.Ok? <==> epsilon > 0.0
    ensures r.Ok? ==> r.value.0 - r.value.1 == TrueResult(op)
    ensures r.Ok? ==> r.value.1 * epsilon == SensitivityTable[op] * unitDraw
  {
    var trueResult := TrueResult(op);
    var sensitivity := SensitivityTable[op];
    AddLaplaceNoise(trueResult, epsilon, sensitivity, unitDraw)
  }

  /** The stub never looks at the column, the table or the filters. */
  lemma ResultIgnoresColumnTableFilters(op: QueryOperation, c1: string, t1: string, f1: Option<map<string, string>>,
                                        c2: string, t2: string, f2: Option<map<string, string>>, epsilon: real, unitDraw: real)
    ensures ExecutePrivateQuery(op, c1, t1, epsilon, f1, unitDraw) == ExecutePrivateQuery(op, c2, t2, epsilon, f2, unitDraw)
  {
  }

  /** `validate_epsilon`. */
  predicate ValidateEpsilon(epsilon: real)
  {
    epsilon > 0.0 && epsilon <= MaxEpsilon
  }

  /** An admitted epsilon never triggers either error. */
  lemma AdmittedEpsilonRuns(op: QueryOperation, column: string, table: string, epsilon: real,
                            filters: Option<map<string, string>>, unitDraw: real)
    requires ValidateEpsilon(epsilon)
    ensures ExecutePrivateQuery(op, column, table, epsilon, filters, unitDraw).Ok?
  {
  }
}
