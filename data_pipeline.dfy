/**
 * The ingestion pipeline (backend/app/core/data_p.py): clean a table, derive
 * its schema, and drop the columns the schema calls sensitive.
 *
 * A table is a sequence of rows of cells, with the column names and one
 * "numeric dtype" flag per column as pandas inferred them when the CSV was
 * read. Reading the CSV, writing `schema.json` and saving to SQLite are left
 * out; the flags stand for `is_numeric_dtype`.
 */
module DataPipeline {
  import opened Common
  import opened Text

  /** One cell of a table: pandas' missing value, a number or a string. */
  datatype Cell = Missing | Num(number: real) | Str(text: string)

  /** A row of a table. */
  type Row = seq<Cell>

  /** A table: column names, a numeric-dtype flag per column, and the rows. */
  datatype Frame = Frame(columns: seq<string>, numeric: seq<bool>, rows: seq<Row>)

  /** Every row has one cell per column, and every column has its flag. */
  predicate WellFormed(df: Frame)
  {
    && |df.numeric| == |df.columns|
    && forall row :: row in df.rows ==> |row| == |df.columns|
  }

  /** No element occurs twice. */
  predicate Distinct<T(==)>(s: seq<T>)
  {
    forall i, j :: 0 <= i < j < |s| ==> s[i] != s[j]
  }

  // ---------------------------------------------------------------------
  // Row cleaning: dropna(how='all') and drop_duplicates()

  /** A row with at least one cell present; `dropna(how='all')` keeps exactly these. */
  predicate HasValue(row: Row)
  {
    exists k :: 0 <= k < |row| && row[k] != Missing
  }

  /** `drop_duplicates()`: the first occurrence of each row, in order. */
  function DropDuplicates(rows: seq<Row>): (r: seq<Row>)
    ensures forall x :: x in r <==> x in rows
    ensures Distinct(r)
    ensures |r| <= |rows|
    decreases |rows|
  {
    if rows == [] then []
    else
      var init, last := rows[..|rows| - 1], rows[|rows| - 1];
      assert forall x :: x in rows <==> x in init || x == last;
      var kept := DropDuplicates(init);
      if last in init then kept else kept + [last]
  }

  /** The position of the first occurrence of `x` in `rows`, or `|rows|` when there is none. */
  function FirstIndex(rows: seq<Row>, x: Row): (i: nat)
    ensures i <= |rows|
    ensures i < |rows| <==> x in rows
    ensures i < |rows| ==> rows[i] == x
    ensures forall j :: 0 <= j < i ==> rows[j] != x
    decreases |rows|
  {
    if rows == [] then 0
    else if rows[0] == x then 0
    else 1 + FirstIndex(rows[1..], x)
  }

  /** Appending a row does not move the first occurrence of a row already present. */
  lemma FirstIndexOfAppend(init: seq<Row>, y: Row, x: Row)
    requires x in init
    ensures FirstIndex(init + [y], x) == FirstIndex(init, x)
  {
    var i := FirstIndex(init, x);
    assert (init + [y])[i] == x;
    assert forall j :: 0 <= j < i ==> (init + [y])[j] == init[j];
  }

  /**
   * `drop_duplicates()` keeps each row's first occurrence: the kept rows appear
   * in the order in which they first occur in the input.
   */
  lemma {:induction false} DropDuplicatesInOrder(rows: seq<Row>)
    ensures forall k, l :: 0 <= k < l < |DropDuplicates(rows)| ==>
      FirstIndex(rows, DropDuplicates(rows)[k]) < FirstIndex(rows, DropDuplicates(rows)[l])
    decreases |rows|
  {
    if rows != [] {
      var init, last := rows[..|rows| - 1], rows[|rows| - 1];
      assert rows == init + [last];
      var kept := DropDuplicates(init);
      DropDuplicatesInOrder(init);
      forall x | x in kept ensures FirstIndex(rows, x) == FirstIndex(init, x) {
        FirstIndexOfAppend(init, last, x);
      }
      if last !in init {
        assert FirstIndex(rows, last) == |init|;
      }
    }
  }

  /** A table without repeated rows is left as it is. */
  lemma {:induction false} DropDuplicatesOfDistinct(rows: seq<Row>)
    requires Distinct(rows)
    ensures DropDuplicates(rows) == rows
    decreases |rows|
  {
    if rows != [] {
      var init := rows[..|rows| - 1];
      assert Distinct(init);
      DropDuplicatesOfDistinct(init);
      assert rows[|rows| - 1] !in init;
      assert init + [rows[|rows| - 1]] == rows;
    }
  }

  /** Removing duplicates twice is removing them once. */
  lemma DropDuplicatesIdempotent(rows: seq<Row>)
    ensures DropDuplicates(DropDuplicates(rows)) == DropDuplicates(rows)
  {
    DropDuplicatesOfDistinct(DropDuplicates(rows));
  }

  /** The rows after `dropna(how='all')` and then `drop_duplicates()`. */
  function Cleaned(rows: seq<Row>): (r: seq<Row>)
    ensures forall x :: x in r <==> x in rows && HasValue(x)
    ensures Distinct(r)
  {
    DropDuplicates(Filter(rows, HasValue))
  }

  /** The cleaned rows follow the order of first occurrence among the rows that have a value. */
  lemma CleanedInOrder(rows: seq<Row>)
    ensures forall k, l :: 0 <= k < l < |Cleaned(rows)| ==>
      FirstIndex(Filter(rows, HasValue), Cleaned(rows)[k]) < FirstIndex(Filter(rows, HasValue), Cleaned(rows)[l])
  {
    DropDuplicatesInOrder(Filter(rows, HasValue));
  }

  // ---------------------------------------------------------------------
  // Column names

  /** `c.strip().lower().replace(" ", "_")`. */
  function NormalizeName(c: string): string
  {
    ReplaceAll(ToLower(Strip(c)), " ", "_")
  }

  /** The column list after renaming. */
  function NormalizedColumns(columns: seq<string>): (r: seq<string>)
    ensures |r| == |columns|
    ensures forall i :: 0 <= i < |columns| ==> r[i] == NormalizeName(columns[i])
  {
    seq(|columns|, i requires 0 <= i < |columns| => NormalizeName(columns[i]))
  }

  /** Replacing a one-character pattern rewrites each occurrence of that character and nothing else. */
  lemma {:induction false} ReplaceCharPointwise(s: string, a: char, b: char)
    ensures |ReplaceAll(s, [a], [b])| == |s|
    ensures forall k :: 0 <= k < |s| ==>
      ReplaceAll(s, [a], [b])[k] == (if s[k] == a then b else s[k])
    decreases |s|
  {
    if s != [] {
      ReplaceCharPointwise(s[1..], a, b);
      var rest := ReplaceAll(s[1..], [a], [b]);
      var head := if s[0] == a then b else s[0];
      assert StartsWith(s, [a]) <==> s[0] == a;
      assert ReplaceAll(s, [a], [b]) == [head] + rest;
    }
  }

  /** Stripping leaves no whitespace at either end. */
  lemma StripEnds(s: string)
    ensures Strip(s) != [] ==> !IsPythonSpace(Strip(s)[0]) && !IsPythonSpace(Strip(s)[|Strip(s)| - 1])
  {
    var t := StripLeft(s);
    if Strip(s) != [] {
      assert Strip(s)[0] == t[0];
    }
  }

  /**
   * A normalised name is the stripped name, lowercased, with each space
   * turned into '_': it holds no space and has no whitespace at either end.
   */
  lemma NormalizeNameSpec(c: string)
    ensures |NormalizeName(c)| == |Strip(c)|
    ensures forall k :: 0 <= k < |Strip(c)| ==>
      NormalizeName(c)[k] == (if Strip(c)[k] == ' ' then '_' else LowerChar(Strip(c)[k]))
    ensures ' ' !in NormalizeName(c)
    ensures NormalizeName(c) != [] ==>
      !IsPythonSpace(NormalizeName(c)[0]) && !IsPythonSpace(NormalizeName(c)[|NormalizeName(c)| - 1])
  {
    NormalizeNamePointwise(c);
    NormalizedHasNoSpace(c);
    NormalizedEnds(c);
  }

  /** The space is the one character a normalised name never holds. */
  lemma NormalizedHasNoSpace(c: string)
    ensures ' ' !in NormalizeName(c)
  {
    var t, v := Strip(c), NormalizeName(c);
    NormalizeNamePointwise(c);
    forall k | 0 <= k < |v| ensures v[k] != ' ' {
      LowerCharKeepsSpace(t[k]);
    }
  }

  /** A normalised name neither starts nor ends with whitespace. */
  lemma NormalizedEnds(c: string)
    ensures NormalizeName(c) != [] ==>
      !IsPythonSpace(NormalizeName(c)[0]) && !IsPythonSpace(NormalizeName(c)[|NormalizeName(c)| - 1])
  {
    var t, v := Strip(c), NormalizeName(c);
    NormalizeNamePointwise(c);
    StripEnds(c);
    if v != [] {
      var first, last := t[0], t[|t| - 1];
      assert first != ' ' && last != ' ';
      LowerCharKeepsSpace(first);
      LowerCharKeepsSpace(last);
      assert v[0] == LowerChar(first);
      assert v[|v| - 1] == LowerChar(last);
    }
  }

  /** Lowercasing turns no character into whitespace and no whitespace into anything else. */
  lemma LowerCharKeepsSpace(c: char)
    ensures LowerChar(c) == ' ' <==> c == ' '
    ensures IsPythonSpace(LowerChar(c)) <==> IsPythonSpace(c)
  {
  }

  /** Each character of a normalised name comes from the same place of the stripped name. */
  lemma NormalizeNamePointwise(c: string)
    ensures |NormalizeName(c)| == |Strip(c)|
    ensures forall k :: 0 <= k < |Strip(c)| ==>
      NormalizeName(c)[k] == (if Strip(c)[k] == ' ' then '_' else LowerChar(Strip(c)[k]))
  {
    var u := ToLower(Strip(c));
    ReplaceCharPointwise(u, ' ', '_');
    assert NormalizeName(c) == ReplaceAll(u, [' '], ['_']);
  }

  /** Lowercasing a character twice is lowercasing it once. */
  lemma LowerCharIdempotent(c: char)
    ensures LowerChar(LowerChar(c)) == LowerChar(c)
  {
  }

  /** Renaming a column twice gives the same name as renaming it once. */
  lemma NormalizeNameIdempotent(c: string)
    ensures NormalizeName(NormalizeName(c)) == NormalizeName(c)
  {
    var v := NormalizeName(c);
    NormalizedIsStripped(c);
    NormalizedIsLower(c);
    NormalizeNameSpec(c);
    ReplaceAllWithoutChar(v, " ", "_", ' ');
  }

  /** A normalised name has nothing to strip. */
  lemma NormalizedIsStripped(c: string)
    ensures Strip(NormalizeName(c)) == NormalizeName(c)
  {
    var v := NormalizeName(c);
    NormalizeNameSpec(c);
    assert StripLeft(v) == v;
    assert StripRight(v) == v;
  }

  /** A normalised name has no upper-case letter. */
  lemma NormalizedIsLower(c: string)
    ensures ToLower(NormalizeName(c)) == NormalizeName(c)
  {
    var v := NormalizeName(c);
    NormalizeNameSpec(c);
    forall k | 0 <= k < |v| ensures LowerChar(v[k]) == v[k] {
      LowerCharIdempotent(Strip(c)[k]);
    }
  }

  // ---------------------------------------------------------------------
  // Missing values

  /** `fillna`: -1 in a numeric column, "UNKNOWN" elsewhere; present values stay. */
  function FillCell(c: Cell, numeric: bool): (r: Cell)
    ensures r != Missing
    ensures c != Missing ==> r == c
    ensures c == Missing && numeric ==> r == Num(-1.0)
    ensures c == Missing && !numeric ==> r == Str("UNKNOWN")
  {
    if c != Missing then c else if numeric then Num(-1.0) else Str("UNKNOWN")
  }

  /** Every cell of every row filled by its column's rule. */
  function Filled(rows: seq<Row>, numeric: seq<bool>): (r: seq<Row>)
    requires forall row :: row in rows ==> |row| == |numeric|
    ensures |r| == |rows|
    ensures forall i :: 0 <= i < |rows| ==> |r[i]| == |numeric|
    ensures forall i, k :: 0 <= i < |rows| && 0 <= k < |numeric| ==> r[i][k] == FillCell(rows[i][k], numeric[k])
  {
    seq(|rows|, i requires 0 <= i < |rows| =>
      seq(|numeric|, k requires 0 <= k < |numeric| => FillCell(rows[i][k], numeric[k])))
  }

  /** `df[col] = df[col].fillna(...)` for the column at index `j` of every row. */
  function FillColumn(rows: seq<Row>, j: nat, numeric: bool): (r: seq<Row>)
    requires forall i :: 0 <= i < |rows| ==> j < |rows[i]|
    ensures |r| == |rows|
    ensures forall i :: 0 <= i < |rows| ==> r[i] == rows[i][j := FillCell(rows[i][j], numeric)]
  {
    seq(|rows|, i requires 0 <= i < |rows| => rows[i][j := FillCell(rows[i][j], numeric)])
  }

  /** The rows of `base` with the columns before `j` filled and the others as they were. */
  ghost predicate FilledBefore(rows: seq<Row>, base: seq<Row>, numeric: seq<bool>, j: nat)
    requires j <= |numeric|
  {
    && |rows| == |base|
    && (forall i :: 0 <= i < |rows| ==> |rows[i]| == |numeric| && |base[i]| == |numeric|)
    && (forall i, k :: 0 <= i < |rows| && 0 <= k < j ==> rows[i][k] == FillCell(base[i][k], numeric[k]))
    && (forall i, k :: 0 <= i < |rows| && j <= k < |numeric| ==> rows[i][k] == base[i][k])
  }

  /** Filling the column at `j` extends the filled prefix by one column. */
  lemma FillColumnStep(rows: seq<Row>, base: seq<Row>, numeric: seq<bool>, j: nat)
    requires j < |numeric| && FilledBefore(rows, base, numeric, j)
    ensures FilledBefore(FillColumn(rows, j, numeric[j]), base, numeric, j + 1)
  {
    var next := FillColumn(rows, j, numeric[j]);
    forall i | 0 <= i < |next| ensures next[i] == rows[i][j := FillCell(base[i][j], numeric[j])] {
      assert rows[i][j] == base[i][j];
    }
  }

  /** Once every column is filled, the rows are `Filled(base)`. */
  lemma FilledBeforeAll(rows: seq<Row>, base: seq<Row>, numeric: seq<bool>)
    requires FilledBefore(rows, base, numeric, |numeric|)
    ensures rows == Filled(base, numeric)
  {
    var filled := Filled(base, numeric);
    forall i | 0 <= i < |rows| ensures rows[i] == filled[i] {
      assert forall k :: 0 <= k < |numeric| ==> rows[i][k] == filled[i][k];
    }
  }

  /** Another column carries the same name as column `k`. */
  predicate Repeated(columns: seq<string>, k: int)
    requires 0 <= k < |columns|
  {
    exists j :: 0 <= j < |columns| && j != k && columns[j] == columns[k]
  }

  /**
   * The rule the fill applies to each column. `df[col]` of a repeated name is
   * a DataFrame, which `is_numeric_dtype` does not call numeric, so every
   * column of that name is filled with "UNKNOWN".
   */
  function FillRules(columns: seq<string>, numeric: seq<bool>): (r: seq<bool>)
    requires |numeric| == |columns|
    ensures |r| == |numeric|
    ensures forall k :: 0 <= k < |r| ==> (r[k] <==> numeric[k] && !Repeated(columns, k))
  {
    seq(|numeric|, k requires 0 <= k < |numeric| => numeric[k] && !Repeated(columns, k))
  }

  /** Column `k` of some row is missing. */
  predicate HasMissing(rows: seq<Row>, k: int)
  {
    exists i :: 0 <= i < |rows| && 0 <= k < |rows[i]| && rows[i][k] == Missing
  }

  /**
   * The dtype flags after the fill: a numeric column stays numeric unless
   * "UNKNOWN" was written into it, which happens only to a repeated name
   * with a missing cell.
   */
  function FilledDtypes(columns: seq<string>, numeric: seq<bool>, rows: seq<Row>): (r: seq<bool>)
    requires |numeric| == |columns|
    ensures |r| == |numeric|
    ensures forall k :: 0 <= k < |r| ==>
      (r[k] <==> numeric[k] && (!Repeated(columns, k) || !HasMissing(rows, k)))
  {
    seq(|numeric|, k requires 0 <= k < |numeric| =>
      numeric[k] && (!Repeated(columns, k) || !HasMissing(rows, k)))
  }

  /** With distinct names the fill follows the dtype flags, and they stay as they were. */
  lemma DistinctNamesKeepFlags(columns: seq<string>, numeric: seq<bool>, rows: seq<Row>)
    requires |numeric| == |columns| && Distinct(columns)
    ensures FillRules(columns, numeric) == numeric
    ensures FilledDtypes(columns, numeric, rows) == numeric
  {
    forall k | 0 <= k < |columns| ensures !Repeated(columns, k) {
      forall j | 0 <= j < |columns| && j != k ensures columns[j] != columns[k] {
        if j < k { assert columns[j] != columns[k]; } else { assert columns[k] != columns[j]; }
      }
    }
  }

  /** Two numeric columns renamed to "age" are both filled as text columns. */
  lemma RepeatedNameFilledAsText()
    ensures FillRules(["age", "age"], [true, true]) == [false, false]
    ensures FillRules(["age", "weight"], [true, true]) == [true, true]
  {
    assert Repeated(["age", "age"], 0) by { assert ["age", "age"][1] == "age"; }
    assert Repeated(["age", "age"], 1) by { assert ["age", "age"][0] == "age"; }
    assert !Repeated(["age", "weight"], 0);
    assert !Repeated(["age", "weight"], 1);
  }

  /**
   * `preprocess_data`: drop the rows with no value, drop repeated rows,
   * rename the columns, then fill each column's missing cells in place,
   * column by column.
   */
  method Preprocess(df: Frame) returns (out: Frame)
    requires WellFormed(df)
    ensures WellFormed(out)
    ensures out.columns == NormalizedColumns(df.columns)
    ensures out.rows == Filled(Cleaned(df.rows), FillRules(out.columns, df.numeric))
    ensures out.numeric == FilledDtypes(out.columns, df.numeric, Cleaned(df.rows))
    ensures forall i, k :: 0 <= i < |out.rows| && 0 <= k < |out.columns| ==> out.rows[i][k] != Missing
  {
    var columns := NormalizedColumns(df.columns);
    var rules := FillRules(columns, df.numeric);
    var base := Cleaned(df.rows);
    var rows := base;
    for j := 0 to |rules|
      invariant FilledBefore(rows, base, rules, j)
    {
      FillColumnStep(rows, base, rules, j);
      rows := FillColumn(rows, j, rules[j]);
    }
    FilledBeforeAll(rows, base, rules);
    out := Frame(columns, FilledDtypes(columns, df.numeric, base), rows);
  }

  // ---------------------------------------------------------------------
  // Schema

  /** The three column labels. */
  datatype Label = Numeric | Categorical | Sensitive

  /** The distinct present values of column `k`: what `nunique()` counts. */
  function DistinctCount(rows: seq<Row>, k: nat): nat
  {
    |set i | 0 <= i < |rows| && k < |rows[i]| && rows[i][k] != Missing :: rows[i][k]|
  }

  /** The largest number of distinct values a categorical column may have. */
  const CategoricalLimit: nat := 50

  /** The label of one column: numeric dtype first, then the distinct-value count. */
  function ColumnLabel(numeric: bool, distinct: nat): (l: Label)
    ensures l == Numeric <==> numeric
    ensures l == Categorical <==> !numeric && distinct <= CategoricalLimit
    ensures l == Sensitive <==> !numeric && distinct > CategoricalLimit
  {
    if numeric then Numeric else if distinct <= CategoricalLimit then Categorical else Sensitive
  }

  /** The column names of a schema, in insertion order. */
  function Keys(schema: seq<(string, Label)>): (r: seq<string>)
    ensures |r| == |schema|
    ensures forall k :: 0 <= k < |schema| ==> r[k] == schema[k].0
  {
    seq(|schema|, k requires 0 <= k < |schema| => schema[k].0)
  }

  /**
   * `detect_schema`: one entry per column, in column order, with the label
   * of its dtype and distinct-value count.
   */
  method DetectSchema(df: Frame) returns (schema: seq<(string, Label)>)
    requires WellFormed(df) && Distinct(df.columns)
    ensures Keys(schema) == df.columns
    ensures forall k :: 0 <= k < |schema| ==>
      schema[k].1 == ColumnLabel(df.numeric[k], DistinctCount(df.rows, k))
  {
    schema := [];
    for k := 0 to |df.columns|
      invariant |schema| == k
      invariant forall m :: 0 <= m < k ==>
        schema[m] == (df.columns[m], ColumnLabel(df.numeric[m], DistinctCount(df.rows, m)))
    {
      var l: Label;
      if df.numeric[k] {
        l := Numeric;
      } else if DistinctCount(df.rows, k) <= CategoricalLimit {
        l := Categorical;
      } else {
        l := Sensitive;
      }
      schema := schema + [(df.columns[k], l)];
    }
  }

  // ---------------------------------------------------------------------
  // Removing sensitive columns

  /** Some entry of the schema names `c` with a label other than sensitive. */
  predicate KeptBy(schema: seq<(string, Label)>, c: string)
  {
    exists i :: 0 <= i < |schema| && schema[i].0 == c && schema[i].1 != Sensitive
  }

  /** The names the schema does not label sensitive, in schema order. */
  function SafeColumns(schema: seq<(string, Label)>): (safe: seq<string>)
    ensures |safe| <= |schema|
    ensures forall c :: c in safe <==> KeptBy(schema, c)
    decreases |schema|
  {
    if schema == [] then []
    else
      var rest := SafeColumns(schema[1..]);
      assert forall i :: 0 < i < |schema| ==> schema[i] == schema[1..][i - 1];
      if schema[0].1 != Sensitive then [schema[0].0] + rest else rest
  }

  /** The kept names of two schema pieces follow each other: schema order is kept. */
  lemma {:induction false} SafeColumnsConcat(a: seq<(string, Label)>, b: seq<(string, Label)>)
    ensures SafeColumns(a + b) == SafeColumns(a) + SafeColumns(b)
    decreases |a|
  {
    if a == [] {
      assert a + b == b;
    } else {
      assert (a + b)[0] == a[0];
      assert (a + b)[1..] == a[1..] + b;
      SafeColumnsConcat(a[1..], b);
    }
  }

  /** The position of a column name: the first one, the only one when names are distinct. */
  function ColumnIndex(columns: seq<string>, c: string): (i: nat)
    requires c in columns
    ensures i < |columns| && columns[i] == c
    ensures forall j :: 0 <= j < i ==> columns[j] != c
  {
    if columns[0] == c then 0 else 1 + ColumnIndex(columns[1..], c)
  }

  /**
   * `filter_sensitive`: `df[safe_cols]`. A kept name that is not a column of
   * the table raises KeyError (`None`); otherwise the table restricted to
   * the kept columns, in schema order.
   */
  function FilterSensitive(df: Frame, schema: seq<(string, Label)>): (r: Option<Frame>)
    requires WellFormed(df) && Distinct(df.columns)
    ensures r.None? <==> exists c :: c in SafeColumns(schema) && c !in df.columns
    ensures r.Some? ==> WellFormed(r.value) && r.value.columns == SafeColumns(schema)
    ensures r.Some? ==> |r.value.rows| == |df.rows|
    ensures r.Some? ==> forall k :: 0 <= k < |r.value.columns| ==>
      var src := ColumnIndex(df.columns, r.value.columns[k]);
      && r.value.numeric[k] == df.numeric[src]
      && forall i :: 0 <= i < |df.rows| ==> r.value.rows[i][k] == df.rows[i][src]
  {
    var safe := SafeColumns(schema);
    if exists c :: c in safe && c !in df.columns then None
    else
      var idx := seq(|safe|, k requires 0 <= k < |safe| => ColumnIndex(df.columns, safe[k]));
      Some(Frame(safe,
                 seq(|safe|, k requires 0 <= k < |safe| => df.numeric[idx[k]]),
                 seq(|df.rows|, i requires 0 <= i < |df.rows| =>
                   seq(|safe|, k requires 0 <= k < |safe| => df.rows[i][idx[k]]))))
  }

  /**
   * The preprocessed table when the renamed columns are distinct: renamed
   * columns, the cleaned rows with every missing cell filled, the dtypes
   * of the input.
   */
  function Prepared(raw: Frame): (f: Frame)
    requires WellFormed(raw)
    ensures WellFormed(f)
    ensures f.columns == NormalizedColumns(raw.columns) && f.numeric == raw.numeric
  {
    Frame(NormalizedColumns(raw.columns), raw.numeric, Filled(Cleaned(raw.rows), raw.numeric))
  }

  /**
   * `run_pipeline` after the CSV is read: preprocess, detect the schema,
   * remove the sensitive columns. When the renamed columns are distinct the
   * removal cannot raise; the returned table has no missing cell and no
   * column the schema calls sensitive, while the returned schema still
   * lists every column, sensitive ones included.
   */
  method RunPipeline(raw: Frame) returns (df: Frame, schema: seq<(string, Label)>)
    requires WellFormed(raw) && Distinct(NormalizedColumns(raw.columns))
    ensures Keys(schema) == NormalizedColumns(raw.columns)
    ensures |schema| == |raw.numeric|
    ensures forall k :: 0 <= k < |schema| ==>
      schema[k].1 == ColumnLabel(raw.numeric[k], DistinctCount(Prepared(raw).rows, k))
    ensures FilterSensitive(Prepared(raw), schema) == Some(df)
    ensures WellFormed(df)
    ensures df.columns == SafeColumns(schema)
    ensures forall k :: 0 <= k < |schema| && schema[k].1 == Sensitive ==> schema[k].0 !in df.columns
    ensures forall c :: c in df.columns ==> exists k :: 0 <= k < |schema| && schema[k].0 == c && schema[k].1 != Sensitive
    ensures forall i, k :: 0 <= i < |df.rows| && 0 <= k < |df.columns| ==> df.rows[i][k] != Missing
  {
    var clean := Preprocess(raw);
    DistinctNamesKeepFlags(clean.columns, raw.numeric, Cleaned(raw.rows));
    assert clean == Prepared(raw);
    schema := DetectSchema(clean);
    var kept := FilterSensitive(clean, schema);
    SafeColumnsAreColumns(schema, clean.columns);
    df := kept.value;
    forall k | 0 <= k < |schema| && schema[k].1 == Sensitive ensures schema[k].0 !in df.columns {
      SensitiveColumnRemoved(schema, k);
    }
    forall i, k | 0 <= i < |df.rows| && 0 <= k < |df.columns| ensures df.rows[i][k] != Missing {
      var src := ColumnIndex(clean.columns, df.columns[k]);
      assert df.rows[i][k] == clean.rows[i][src];
    }
  }

  /** Every kept name of a schema built from the columns is one of the columns. */
  lemma SafeColumnsAreColumns(schema: seq<(string, Label)>, columns: seq<string>)
    requires Keys(schema) == columns
    ensures forall c :: c in SafeColumns(schema) ==> c in columns
  {
    forall c | c in SafeColumns(schema) ensures c in columns {
      var i :| 0 <= i < |schema| && schema[i].0 == c && schema[i].1 != Sensitive;
      assert columns[i] == c;
    }
  }

  /** A name whose every entry is labelled sensitive is not kept. */
  lemma {:induction false} OnlySensitiveNotKept(schema: seq<(string, Label)>, c: string)
    requires forall i :: 0 <= i < |schema| && schema[i].0 == c ==> schema[i].1 == Sensitive
    ensures c !in SafeColumns(schema)
    decreases |schema|
  {
    if schema != [] {
      assert forall i :: 0 <= i < |schema[1..]| ==> schema[1..][i] == schema[i + 1];
      OnlySensitiveNotKept(schema[1..], c);
    }
  }

  /** One sensitive entry: its name is the only entry with that name, so it is not kept. */
  lemma SensitiveColumnRemoved(schema: seq<(string, Label)>, k: int)
    requires Distinct(Keys(schema)) && 0 <= k < |schema| && schema[k].1 == Sensitive
    ensures schema[k].0 !in SafeColumns(schema)
  {
    OnlyEntryOfItsName(schema, k);
    OnlySensitiveNotKept(schema, schema[k].0);
  }

  /** With distinct names, no other entry shares the name of entry `k`. */
  lemma OnlyEntryOfItsName(schema: seq<(string, Label)>, k: int)
    requires Distinct(Keys(schema)) && 0 <= k < |schema|
    ensures forall i :: 0 <= i < |schema| && schema[i].0 == schema[k].0 ==> i == k
  {
    var keys := Keys(schema);
    forall i | 0 <= i < |schema| && schema[i].0 == schema[k].0 ensures i == k {
      assert keys[i] == keys[k];
    }
  }
}
