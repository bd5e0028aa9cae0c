/** The pure shaping steps of the database layer: turning the inspector's
    table listing into the schema description, and turning driver records
    into plain rows. The inspector, the engine and the connection are
    parameters. */
module NeonDb {
  import opened Wrappers
  import opened Dicts
  import opened Values

  /** One entry of `inspector.get_columns(table)`: `typeText` is `str(column['type'])`
      and `primaryKey` is `None` when the entry has no `primary_key` key. */
  datatype InspectedColumn =
    InspectedColumn(name: string, typeText: string, nullable: bool, primaryKey: Option<bool>)

  /** The record `get_schema` builds for one column. */
  datatype ColumnDescription =
    ColumnDescription(name: string, typeName: string, nullable: bool, primaryKey: bool)

  /** Table name to its columns, in the order the inspector lists them. */
  type Schema = Dict<seq<ColumnDescription>>

  function DescribeColumn(c: InspectedColumn): (d: ColumnDescription)
    ensures d.name == c.name && d.typeName == c.typeText && d.nullable == c.nullable
    ensures d.primaryKey <==> c.primaryKey == Some(true)
  {
    ColumnDescription(c.name, c.typeText, c.nullable, c.primaryKey.GetOr(false))
  }

  function DescribeTable(columns: seq<InspectedColumn>): (r: seq<ColumnDescription>)
    ensures |r| == |columns|
    ensures forall i :: 0 <= i < |columns| ==> r[i] == DescribeColumn(columns[i])
  {
    seq(|columns|, i requires 0 <= i < |columns| => DescribeColumn(columns[i]))
  }

  predicate NoDuplicates(names: seq<string>) {
    forall i, j :: 0 <= i < j < |names| ==> names[i] != names[j]
  }

  /** `get_schema()`: `tableNames` is `inspector.get_table_names(schema='public')`
      and `columnsOf` is `inspector.get_columns(_, schema='public')`. */
  method GetSchema(tableNames: seq<string>, columnsOf: string -> seq<InspectedColumn>)
    returns (schema: Schema)
    ensures forall t :: t in Keys(schema) <==> t in tableNames
    ensures forall t :: t in tableNames ==> Get(schema, t) == Some(DescribeTable(columnsOf(t)))
    ensures NoDuplicates(tableNames) ==> Keys(schema) == tableNames
  {
    schema := [];
    var i := 0;
    while i < |tableNames|
      invariant 0 <= i <= |tableNames|
      invariant forall t :: t in Keys(schema) <==> t in tableNames[..i]
      invariant forall t :: t in tableNames[..i] ==> Get(schema, t) == Some(DescribeTable(columnsOf(t)))
      invariant NoDuplicates(tableNames) ==> Keys(schema) == tableNames[..i]
    {
      var tableName := tableNames[i];
      var inspected := columnsOf(tableName);
      var columns: seq<ColumnDescription> := [];
      var j := 0;
      while j < |inspected|
        invariant 0 <= j <= |inspected|
        invariant columns == DescribeTable(inspected[..j])
      {
        columns := columns + [DescribeColumn(inspected[j])];
        j := j + 1;
      }
      assert inspected[..j] == inspected;
      schema := Put(schema, tableName, columns);
      assert tableNames[..i + 1] == tableNames[..i] + [tableName];
      i := i + 1;
    }
    assert tableNames[..i] == tableNames;
  }

  /** A cell as `execute_query` passes it on: objects with `.hex` become their
      `str()`, every other value is kept. */
  function NormalizeValue(v: Value): (r: Value)
    ensures !HasHex(r)
    ensures HasHex(v) ==> r.Str? && Display(r) == Display(v)
    ensures !HasHex(v) ==> r == v
  {
    match v
    case Uuid(t) => Str(t)
    case Bytes(t) => Str(t)
    case Float(t) => Str(t)
    case _ => v
  }

  /** A row with every cell normalized: same keys in the same order, no value with
      `.hex` left, each such value replaced by a string that prints the same, every
      other value kept. */
  function NormalizeRow(row: Dict<Value>): (r: Dict<Value>)
    ensures Keys(r) == Keys(row)
    ensures forall i :: 0 <= i < |row| ==> !HasHex(r[i].1) && Display(r[i].1) == Display(row[i].1)
    ensures forall i :: 0 <= i < |row| && !HasHex(row[i].1) ==> r[i].1 == row[i].1
  {
    seq(|row|, i requires 0 <= i < |row| => (row[i].0, NormalizeValue(row[i].1)))
  }

  /** Looking a column up in the converted row finds the normalized cell. */
  lemma NormalizeRowGet(row: Dict<Value>, k: string)
    ensures Get(NormalizeRow(row), k) ==
      match Get(row, k) case None => None case Some(v) => Some(NormalizeValue(v))
  {
    var r := NormalizeRow(row);
    if k in Keys(row) {
      var i :| 0 <= i < |row| && Keys(row)[i] == k;
      assert r[i].0 == k;
    }
  }

  /** Converting a converted row changes nothing. */
  lemma NormalizeRowIdempotent(row: Dict<Value>)
    ensures NormalizeRow(NormalizeRow(row)) == NormalizeRow(row)
  {
  }

  /** Every record converted, in order. */
  function NormalizeRows(records: seq<Dict<Value>>): (rows: seq<Dict<Value>>)
    ensures |rows| == |records|
    ensures forall i :: 0 <= i < |records| ==> |rows[i]| == |records[i]| && Keys(rows[i]) == Keys(records[i])
    ensures forall i, j :: 0 <= i < |records| && 0 <= j < |records[i]| ==>
      !HasHex(rows[i][j].1) && Display(rows[i][j].1) == Display(records[i][j].1)
  {
    seq(|records|, i requires 0 <= i < |records| => NormalizeRow(records[i]))
  }

  /** The row-conversion loop of `execute_query(query)`: `records` are the rows of
      `result.mappings()`. */
  method ConvertRecords(records: seq<Dict<Value>>) returns (rows: seq<Dict<Value>>)
    ensures |rows| == |records|
    ensures forall i :: 0 <= i < |records| ==> rows[i] == NormalizeRow(records[i])
    ensures rows == NormalizeRows(records)
  {
    rows := [];
    var i := 0;
    while i < |records|
      invariant 0 <= i <= |records|
      invariant |rows| == i
      invariant forall m :: 0 <= m < i ==> rows[m] == NormalizeRow(records[m])
    {
      var row := records[i];
      var rowDict: Dict<Value> := [];
      var j := 0;
      while j < |row|
        invariant 0 <= j <= |row|
        invariant |rowDict| == j
        invariant forall m :: 0 <= m < j ==> rowDict[m] == (row[m].0, NormalizeValue(row[m].1))
      {
        var (key, value) := row[j];
        if HasHex(value) {
          value := Str(Display(value).value);
        }
        rowDict := Put(rowDict, key, value);
        j := j + 1;
      }
      rows := rows + [rowDict];
      i := i + 1;
    }
  }
}
