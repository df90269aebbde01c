/**
 * What the two query-building components share: the schema column the
 * workspace hands them, the filter rows the analyst edits, and the query they
 * pass to `onExecuteQuery`
 * (frontend/src/components/analyst/QueryBuilder.jsx and QueryComposer.jsx).
 *
 * A filter row is an object that `updateFilter` changes IN PLACE: the copy
 * `[...filters]` is shallow, so `newFilters[index][field] = value` writes into
 * the very object the previous state also holds. Rows are therefore a class,
 * and the list of rows is a sequence of references that `setFilters` replaces.
 */
module QueryDraft {

  /** A schema column as the components see it: name, type label, queryable flag. */
  datatype Column = Column(name: string, colType: string, queryable: bool)

  /** The contents of one filter row. */
  datatype FilterEntry = FilterEntry(column: string, operator: string, value: string)

  /** The row a fresh "add filter" creates: no column, operator "=", no value. */
  const DefaultFilter: FilterEntry := FilterEntry("", "=", "")

  /** The three fields `updateFilter` can name. */
  datatype FilterField = ColumnField | OperatorField | ValueField

  /** `filter[field] = value` on the contents of a row. */
  function WithField(f: FilterEntry, field: FilterField, v: string): (g: FilterEntry)
    ensures field == ColumnField ==> g.column == v && g.operator == f.operator && g.value == f.value
    ensures field == OperatorField ==> g.operator == v && g.column == f.column && g.value == f.value
    ensures field == ValueField ==> g.value == v && g.column == f.column && g.operator == f.operator
  {
    match field
    case ColumnField => f.(column := v)
    case OperatorField => f.(operator := v)
    case ValueField => f.(value := v)
  }

  /** Writing a field twice keeps only the second write. */
  lemma WithFieldOverwrites(f: FilterEntry, field: FilterField, v: string, w: string)
    ensures WithField(WithField(f, field, v), field, w) == WithField(f, field, w)
  {
  }

  /** A filter row: one mutable object per row on screen. */
  class FilterRow {
    var column: string
    var operator: string
    var value: string

    /** The object literal `{ column, operator, value }`. */
    constructor (f: FilterEntry)
      ensures Contents() == f
    {
      column, operator, value := f.column, f.operator, f.value;
    }

    /** The row's current contents. */
    function Contents(): FilterEntry
      reads this
    {
      FilterEntry(column, operator, value)
    }

    /** `row[field] = v`. */
    method Set(field: FilterField, v: string)
      modifies this
      ensures Contents() == WithField(old(Contents()), field, v)
    {
      match field
      case ColumnField => column := v;
      case OperatorField => operator := v;
      case ValueField => value := v;
    }
  }

  /** The contents of a list of rows, read at the current state. */
  function Snapshot(rows: seq<FilterRow>): (s: seq<FilterEntry>)
    reads rows
    ensures |s| == |rows|
    ensures forall i :: 0 <= i < |rows| ==> s[i] == rows[i].Contents()
  {
    if rows == [] then [] else [rows[0].Contents()] + Snapshot(rows[1..])
  }

  /** `filters.filter((_, i) => i !== index)`: drop position `index`, if there is one. */
  function RemoveAt<T>(s: seq<T>, index: int): (r: seq<T>)
    ensures 0 <= index < |s| ==> |r| == |s| - 1
    ensures 0 <= index < |s| ==> forall i :: 0 <= i < index ==> r[i] == s[i]
    ensures 0 <= index < |s| ==> forall i :: index <= i < |r| ==> r[i] == s[i + 1]
    ensures !(0 <= index < |s|) ==> r == s
  {
    if 0 <= index < |s| then s[..index] + s[index + 1..] else s
  }

  /** Removing a position and putting the element back restores the list. */
  lemma RemoveAtInverse<T>(s: seq<T>, index: int)
    requires 0 <= index < |s|
    ensures RemoveAt(s, index)[..index] + [s[index]] + RemoveAt(s, index)[index..] == s
  {
    assert s[..index] + [s[index]] + s[index + 1..] == s;
  }

  /**
   * The `filters` state of a query-building component: a list of distinct row
   * objects (every row was created by its own `addFilter`).
   */
  class FilterList {
    var rows: seq<FilterRow>

    ghost predicate Valid()
      reads this
    {
      forall i, j :: 0 <= i < j < |rows| ==> rows[i] != rows[j]
    }

    /** The rows' contents. */
    function Contents(): seq<FilterEntry>
      reads this, rows
    {
      Snapshot(rows)
    }

    /** `useState([])`. */
    constructor ()
      ensures Valid() && Contents() == []
    {
      rows := [];
    }

    /** `addFilter`: append a fresh default row; the existing rows are untouched. */
    method Add()
      requires Valid()
      modifies this
      ensures Valid()
      ensures |rows| == |old(rows)| + 1 && rows[..|old(rows)|] == old(rows) && fresh(rows[|rows| - 1])
      ensures Contents() == old(Contents()) + [DefaultFilter]
    {
      var row := new FilterRow(DefaultFilter);
      rows := rows + [row];
    }

    /**
     * `updateFilter(index, field, v)`: the row at `index` is changed in place
     * and the list keeps the same rows. An index with no row makes the
     * assignment throw a TypeError before `setFilters` runs: nothing changes.
     */
    method Update(index: int, field: FilterField, v: string) returns (thrown: bool)
      requires Valid()
      modifies rows
      ensures Valid() && rows == old(rows)
      ensures thrown <==> !(0 <= index < |rows|)
      ensures thrown ==> Contents() == old(Contents())
      ensures !thrown ==> Contents() == old(Contents())[index := WithField(old(Contents())[index], field, v)]
    {
      if 0 <= index < |rows| {
        rows[index].Set(field, v);
        thrown := false;
      } else {
        thrown := true;
      }
    }

    /** `removeFilter(index)`: every row except the one at `index`, in order. */
    method Remove(index: int)
      requires Valid()
      modifies this
      ensures Valid()
      ensures rows == RemoveAt(old(rows), index)
      ensures Contents() == RemoveAt(old(Contents()), index)
    {
      rows := RemoveAt(rows, index);
    }

    /** `setFilters([])`. */
    method Clear()
      modifies this
      ensures Valid() && Contents() == []
    {
      rows := [];
    }
  }

  /** The object a component passes to `onExecuteQuery`. */
  datatype ComposedQuery = ComposedQuery(queryType: string, column: string, filters: seq<FilterEntry>, epsilon: real)
}
