/** The column-schema descriptor of one record type: how many columns it has,
    and for each column its name, its attribute format and its numeric ID,
    kept in three index-aligned arrays; plus the lookups from a column name or
    a column ID to the column's position. */
module PartialRelations {
  import opened Cssm
  import opened Values

  /** The lookup both `GetColumnNumber` overloads perform: the position of the
      first column whose key equals `key`, or `DlInvalidFieldName` when no
      column does. */
  function FindColumn<K(==)>(columns: seq<K>, key: K): (r: Result<nat>)
    ensures r.Ok? ==> r.value < |columns| && columns[r.value] == key
    ensures r.Ok? ==> forall j :: 0 <= j < r.value ==> columns[j] != key
    ensures r.Err? <==> key !in columns
    ensures r.Err? ==> r.error == DlInvalidFieldName
    decreases |columns|
  {
    if |columns| == 0 then Err(DlInvalidFieldName)
    else if columns[0] == key then Ok(0)
    else match FindColumn(columns[1..], key)
      case Ok(k) => Ok(k + 1)
      case Err(e) => Err(e)
  }

  /** No key occurs twice. */
  predicate Distinct<K(==)>(columns: seq<K>)
  {
    forall i, j :: 0 <= i < j < |columns| ==> columns[i] != columns[j]
  }

  /** The first-match property determines the lookup's answer: a scan that stops
      at the first equal key returns exactly what `FindColumn` returns. */
  lemma FindColumnIsFirstMatch<K>(columns: seq<K>, key: K, k: nat)
    requires k < |columns| && columns[k] == key
    requires forall j :: 0 <= j < k ==> columns[j] != key
    ensures FindColumn(columns, key) == Ok(k)
  {
  }

  /** With distinct keys, looking up the key stored at position `i` gives `i`. */
  lemma FindColumnOfDistinct<K>(columns: seq<K>, i: nat)
    requires Distinct(columns) && i < |columns|
    ensures FindColumn(columns, columns[i]) == Ok(i)
  {
  }

  /** With duplicate keys, both positions of a duplicated pair get the same
      answer, which is no later than the earlier of the two positions: the
      later column is never found. */
  lemma FindColumnShadowsLater<K>(columns: seq<K>, i: nat, j: nat)
    requires i < j < |columns| && columns[i] == columns[j]
    ensures FindColumn(columns, columns[j]) == FindColumn(columns, columns[i])
    ensures FindColumn(columns, columns[j]).Ok?
    ensures FindColumn(columns, columns[j]).value <= i
  {
  }

  class PartialRelation {
    /** The record type handed to the `Relation` base. */
    const recordType: RecordType
    /** `mNumberOfColumns`: fixed at construction, never changed afterwards. */
    const numberOfColumns: int32
    /** `mColumnNames`: null until `SetColumnNames` has run. */
    var columnNames: array?<StringValue>
    /** `mColumnFormat`: null until `SetColumnFormats` has run. */
    var columnFormats: array?<AttributeFormat>
    /** `mColumnIDs`: not set by the constructor; null here until `SetColumnIDs` has run. */
    var columnIds: array?<uint32>

    /** Each array that has been allocated holds one entry per column. */
    ghost predicate Valid()
      reads this
    {
      (columnNames != null ==> columnNames.Length == numberOfColumns as int) &&
      (columnFormats != null ==> columnFormats.Length == numberOfColumns as int) &&
      (columnIds != null ==> columnIds.Length == numberOfColumns as int)
    }

    /** The stored column names, in column order (empty before they are set). */
    ghost function Names(): seq<string>
      reads this, columnNames
    {
      if columnNames == null then [] else Texts(columnNames[..])
    }

    /** The stored attribute formats, in column order (empty before they are set). */
    ghost function Formats(): seq<AttributeFormat>
      reads this, columnFormats
    {
      if columnFormats == null then [] else columnFormats[..]
    }

    /** The stored column IDs, in column order (empty before they are set). */
    ghost function Ids(): seq<uint32>
      reads this, columnIds
    {
      if columnIds == null then [] else columnIds[..]
    }

    /** All three setters have run: the descriptor is ready to be queried. */
    ghost predicate Populated()
      reads this
    {
      columnNames != null && columnFormats != null && columnIds != null
    }

    constructor (recordType: RecordType, numberOfColumns: int32)
      ensures this.recordType == recordType
      ensures this.numberOfColumns == numberOfColumns
      ensures columnNames == null && columnFormats == null && columnIds == null
      ensures Valid()
    {
      this.recordType := recordType;
      this.numberOfColumns := numberOfColumns;
      columnNames := null;
      columnFormats := null;
      columnIds := null;
    }

    /** Allocates the name array and wraps the i-th name into slot i. */
    method SetColumnNames(names: seq<string>)
      requires Valid()
      requires numberOfColumns >= 1 && |names| == numberOfColumns as int
      modifies this
      ensures Valid() && fresh(columnNames)
      ensures columnNames != null && columnNames.Length == numberOfColumns as int
      ensures forall i :: 0 <= i < |names| ==> columnNames[i] == StringValue(names[i])
      ensures Names() == names
      ensures columnFormats == old(columnFormats) && columnIds == old(columnIds)
      ensures Formats() == old(Formats()) && Ids() == old(Ids())
    {
      var a := new StringValue[numberOfColumns as int];
      a[0] := StringValue(names[0]);
      var i: int32 := 1;
      while i < numberOfColumns
        modifies a
        invariant 1 <= i <= numberOfColumns
        invariant forall j :: 0 <= j < i as int ==> a[j] == StringValue(names[j])
      {
        a[i] := StringValue(names[i]);
        i := i + 1;
      }
      columnNames := a;
    }

    /** Allocates the format array and stores the i-th format into slot i. */
    method SetColumnFormats(formats: seq<AttributeFormat>)
      requires Valid()
      requires numberOfColumns >= 1 && |formats| == numberOfColumns as int
      modifies this
      ensures Valid() && fresh(columnFormats)
      ensures columnFormats != null && columnFormats.Length == numberOfColumns as int
      ensures Formats() == formats
      ensures columnNames == old(columnNames) && columnIds == old(columnIds)
      ensures Names() == old(Names()) && Ids() == old(Ids())
    {
      var a := new AttributeFormat[numberOfColumns as int];
      a[0] := formats[0];
      var i: int32 := 1;
      while i < numberOfColumns
        modifies a
        invariant 1 <= i <= numberOfColumns
        invariant forall j :: 0 <= j < i as int ==> a[j] == formats[j]
      {
        a[i] := formats[i];
        i := i + 1;
      }
      columnFormats := a;
    }

    /** Allocates the ID array and stores the i-th ID into slot i. */
    method SetColumnIDs(ids: seq<uint32>)
      requires Valid()
      requires numberOfColumns >= 1 && |ids| == numberOfColumns as int
      modifies this
      ensures Valid() && fresh(columnIds)
      ensures columnIds != null && columnIds.Length == numberOfColumns as int
      ensures Ids() == ids
      ensures columnNames == old(columnNames) && columnFormats == old(columnFormats)
      ensures Names() == old(Names()) && Formats() == old(Formats())
    {
      var a := new uint32[numberOfColumns as int];
      a[0] := ids[0];
      var i: int32 := 1;
      while i < numberOfColumns
        modifies a
        invariant 1 <= i <= numberOfColumns
        invariant forall j :: 0 <= j < i as int ==> a[j] == ids[j]
      {
        a[i] := ids[i];
        i := i + 1;
      }
      columnIds := a;
    }

    /** The column names as one row: a tuple of `numberOfColumns` values, in the
        order in which they were set. The names need to be set only when there
        is at least one column; without columns the row is empty. */
    method GetColumnNames() returns (row: seq<StringValue>)
      requires Valid()
      requires numberOfColumns > 0 ==> columnNames != null
      ensures |row| == if numberOfColumns < 0 then 0 else numberOfColumns as int
      ensures columnNames != null ==> forall i :: 0 <= i < |row| ==> row[i] == columnNames[i]
      ensures Texts(row) == Names()
    {
      if columnNames == null {
        row := [];
      } else {
        row := columnNames[..numberOfColumns];
      }
    }

    /** The column count given to the constructor. */
    method GetNumberOfColumns() returns (n: int32)
      ensures n == numberOfColumns
    {
      n := numberOfColumns;
    }

    /** The stored ID array itself (not a copy). */
    method GetColumnIDs() returns (ids: array?<uint32>)
      ensures ids == columnIds
    {
      ids := columnIds;
    }

    /** The position of the first column named `columnName`, or
        `DlInvalidFieldName` when no column has that name. The names are read
        only for positions below the count, so they need to be set only when
        there is at least one column. */
    method GetColumnNumber(columnName: string) returns (r: Result<nat>)
      requires Valid()
      requires numberOfColumns > 0 ==> columnNames != null
      ensures r == FindColumn(Names(), columnName)
      ensures r.Ok? ==> r.value < numberOfColumns as int
    {
      var i: int32 := 0;
      while i < numberOfColumns
        invariant 0 <= i && (i <= numberOfColumns || i == 0)
        invariant forall j :: 0 <= j < i as int ==> Names()[j] != columnName
      {
        var s := columnNames[i];
        if s.RawValue() == columnName {
          return Ok(i as nat);
        }
        i := i + 1;
      }
      r := Err(DlInvalidFieldName);
    }

    /** The position of the first column whose ID is `columnId`, or
        `DlInvalidFieldName` when no column has that ID. */
    method GetColumnNumberById(columnId: uint32) returns (r: Result<nat>)
      requires Valid()
      requires numberOfColumns > 0 ==> columnIds != null
      ensures r == FindColumn(Ids(), columnId)
      ensures r.Ok? ==> r.value < numberOfColumns as int
    {
      var i: int32 := 0;
      while i < numberOfColumns
        invariant 0 <= i && (i <= numberOfColumns || i == 0)
        invariant forall j :: 0 <= j < i as int ==> Ids()[j] != columnId
      {
        if columnIds[i] == columnId {
          return Ok(i as nat);
        }
        i := i + 1;
      }
      r := Err(DlInvalidFieldName);
    }
  }

  /** The three arrays stay index-aligned: once names and IDs are set and each
      is free of duplicates, the name and the ID stored at position `i` both
      resolve to `i`, so they describe the same column. */
  lemma ColumnsAligned(rel: PartialRelation, i: nat)
    requires rel.Valid() && rel.Populated()
    requires Distinct(rel.Names()) && Distinct(rel.Ids())
    requires i < rel.numberOfColumns as int
    ensures |rel.Names()| == |rel.Formats()| == |rel.Ids()| == rel.numberOfColumns as int
    ensures FindColumn(rel.Names(), rel.Names()[i]) == Ok(i)
    ensures FindColumn(rel.Ids(), rel.Ids()[i]) == Ok(i)
  {
  }

  /** A descriptor set up as its users do: construct, then run the three setters. */
  method ThreeColumnScenario(t: RecordType, f0: AttributeFormat, f1: AttributeFormat, f2: AttributeFormat)
  {
    var rel := new PartialRelation(t, 3);
    rel.SetColumnNames(["a", "b", "c"]);
    rel.SetColumnIDs([1, 2, 3]);
    rel.SetColumnFormats([f0, f1, f2]);
    assert rel.Populated();

    var n := rel.GetNumberOfColumns();
    assert n == 3;

    var r := rel.GetColumnNumber("b");
    assert r == Ok(1);
    r := rel.GetColumnNumberById(2);
    assert r == Ok(1);
    r := rel.GetColumnNumber("z");
    assert r == Err(DlInvalidFieldName);

    var ids := rel.GetColumnIDs();
    assert ids != null && ids[..] == [1, 2, 3];
    var row := rel.GetColumnNames();
    assert Texts(row) == ["a", "b", "c"];
  }

  /** With duplicate IDs the lookup answers the first column carrying the ID. */
  method DuplicateIdScenario(t: RecordType)
  {
    var rel := new PartialRelation(t, 3);
    rel.SetColumnIDs([1, 1, 2]);
    var r := rel.GetColumnNumberById(1);
    assert r == Ok(0);
  }
}
