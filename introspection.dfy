/** Introspection of django_snowflake (django_snowflake/introspection.py):
    the type table, the classification of a described column, and the
    mapping of `DESCRIBE TABLE`, `SHOW TERSE TABLES` and `SHOW TERSE VIEWS`
    rows. A row is a sequence of cells; a cell is None for SQL NULL. */
module Introspection {
  import opened Common
  import opened FieldKinds
  import opened TypeParsers

  type Cell = Option<string>
  type Row = seq<Cell>

  /** `data_types_reverse` (introspection.py:35-44). */
  const ReverseTypes: map<string, FieldKind> := map[
    "BINARY" := BinaryField,
    "BOOLEAN" := BooleanField,
    "DATE" := DateField,
    "FLOAT" := FloatField,
    "NUMBER" := BigIntegerField,
    "TIME" := TimeField,
    "TIMESTAMP_NTZ" := DateTimeField,
    "VARCHAR" := CharField
  ]

  /** Django's `FieldInfo` with the added `pk` (introspection.py:8). */
  datatype FieldInfo = FieldInfo(
    name: Cell, typeCode: string, displaySize: Option<nat>, internalSize: Option<nat>,
    precision: Option<nat>, scale: Option<nat>, nullOk: bool, default: Cell,
    collation: Option<string>, pk: bool)

  /** The number of cells of a `DESCRIBE TABLE` row. */
  const DescribeWidth: nat := 11

  /** One `DESCRIBE TABLE` row as a `FieldInfo` (introspection.py:76-89): the
      row is unpacked into exactly eleven names, and the type is parsed. */
  function DescribeField(row: Row): Result<FieldInfo>
  {
    if |row| < DescribeWidth then
      Err("ValueError: not enough values to unpack (expected 11, got " + NatToString(|row|) + ")")
    else if |row| > DescribeWidth then
      Err("ValueError: too many values to unpack (expected 11)")
    else if row[1].None? then
      Err("AttributeError: 'NoneType' object has no attribute 'split'")
    else
      var dataType := row[1].value;
      var (precision, scale) := PrecisionAndScale(dataType);
      Ok(FieldInfo(row[0], GetDataType(dataType), None, FieldSize(dataType, true),
                   precision, scale, row[3] == Some("Y"), row[4], None, row[5] == Some("Y")))
  }

  /** What a described column reports: its size is the end-anchored parse of
      its type and goes to `internal_size`; `display_size` and the collation
      are never filled in; the name is not converted. */
  lemma DescribeFieldSpec(row: Row)
    ensures DescribeField(row).Ok? <==> |row| == DescribeWidth && row[1].Some?
    ensures DescribeField(row).Ok? ==>
      var info := DescribeField(row).value;
      var dataType := row[1].value;
      info.name == row[0] && StartsWith(dataType, info.typeCode) && '(' !in info.typeCode &&
      info.internalSize == FieldSize(dataType, true) && info.displaySize.None? && info.collation.None? &&
      (info.precision, info.scale) == PrecisionAndScale(dataType) &&
      (info.nullOk <==> row[3] == Some("Y")) && (info.pk <==> row[5] == Some("Y")) && info.default == row[4]
  {
  }

  /** `get_table_description` (introspection.py:73-89) over the fetched rows:
      the first row that does not unpack raises. */
  function TableDescription(rows: seq<Row>): Result<seq<FieldInfo>>
    decreases |rows|
  {
    if rows == [] then Ok([])
    else
      match DescribeField(rows[0])
      case Err(m) => Err(m)
      case Ok(info) =>
        match TableDescription(rows[1..])
        case Err(m) => Err(m)
        case Ok(rest) => Ok([info] + rest)
  }

  /** The description succeeds exactly when every row does, and then it is
      the rows' infos in order. */
  lemma {:induction false} TableDescriptionOk(rows: seq<Row>)
    ensures TableDescription(rows).Ok? <==> forall i :: 0 <= i < |rows| ==> DescribeField(rows[i]).Ok?
    ensures TableDescription(rows).Ok? ==>
      |TableDescription(rows).value| == |rows| &&
      forall i :: 0 <= i < |rows| ==> TableDescription(rows).value[i] == DescribeField(rows[i]).value
    decreases |rows|
  {
    if rows != [] {
      var tail := rows[1..];
      TableDescriptionOk(tail);
      assert forall i :: 0 < i < |rows| ==> rows[i] == tail[i - 1];
      if DescribeField(rows[0]).Ok? && TableDescription(tail).Ok? {
        assert TableDescription(rows).value == [DescribeField(rows[0]).value] + TableDescription(tail).value;
      }
    }
  }

  /** A failing description carries the error of a failing row. */
  lemma {:induction false} TableDescriptionErr(rows: seq<Row>)
    requires TableDescription(rows).Err?
    ensures exists i :: (0 <= i < |rows| && DescribeField(rows[i]).Err? &&
                         TableDescription(rows).message == DescribeField(rows[i]).message)
    decreases |rows|
  {
    if DescribeField(rows[0]).Ok? {
      TableDescriptionErr(rows[1..]);
      var i :| 0 <= i < |rows[1..]| && DescribeField(rows[1..][i]).Err? &&
        TableDescription(rows[1..]).message == DescribeField(rows[1..][i]).message;
      assert rows[i + 1] == rows[1..][i];
    }
  }

  /** `get_field_type` (introspection.py:50-71): the shared decision chain,
      testing `internal_size` for the TextField rule. */
  function GetFieldType(dataType: string, description: FieldInfo): Result<FieldKind>
  {
    TypeParsers.GetFieldType(ReverseTypes, dataType, description.internalSize,
                             description.precision, description.scale, description.default)
  }

  /** Because the size of a described column is in `internal_size`, a
      `VARCHAR` column that the parser sized at 16777216 reads back as a
      TextField, and a `NUMBER` with a scale other than 0 as a DecimalField. */
  lemma GetFieldTypeOfDescription(row: Row)
    requires DescribeField(row).Ok?
    ensures var info := DescribeField(row).value;
      (info.typeCode == "VARCHAR" && FieldSize(row[1].value, true) == Some(DefaultVarcharSize) ==>
        GetFieldType(info.typeCode, info) == Ok(TextField)) &&
      (info.typeCode == "NUMBER" && PrecisionAndScale(row[1].value).1 != Some(0) ==>
        GetFieldType(info.typeCode, info) == Ok(DecimalField))
  {
    var info := DescribeField(row).value;
    assert "VARCHAR" in ReverseTypes && "NUMBER" in ReverseTypes;
  }

  /** The position of the first primary-key field, or `|fields|`. */
  function FirstPk(fields: seq<FieldInfo>): (k: nat)
    ensures k <= |fields|
    ensures k < |fields| ==> fields[k].pk
    ensures forall i :: 0 <= i < k ==> !fields[i].pk
    decreases |fields|
  {
    if fields == [] then 0
    else if fields[0].pk then 0
    else FirstPk(fields[1..]) + 1
  }

  /** `get_primary_key_column` (introspection.py:46-48): the name of the first
      primary-key field, or None. */
  function PrimaryKeyColumn(rows: seq<Row>): Result<Cell>
  {
    match TableDescription(rows)
    case Err(m) => Err(m)
    case Ok(fields) =>
      var k := FirstPk(fields);
      Ok(if k < |fields| then fields[k].name else None)
  }

  /** A row that describes a primary-key column. */
  predicate IsPkRow(row: Row)
  {
    |row| > 5 && row[5] == Some("Y")
  }

  /** The primary key column is that of the first row flagged `pk = 'Y'`;
      without one the result is None. */
  lemma PrimaryKeyColumnSpec(rows: seq<Row>)
    requires forall i :: 0 <= i < |rows| ==> |rows[i]| == DescribeWidth && rows[i][1].Some?
    ensures PrimaryKeyColumn(rows).Ok?
    ensures (forall i :: 0 <= i < |rows| ==> !IsPkRow(rows[i])) ==> PrimaryKeyColumn(rows) == Ok(None)
    ensures forall k :: (0 <= k < |rows| && IsPkRow(rows[k]) && (forall i :: 0 <= i < k ==> !IsPkRow(rows[i])) ==>
                         PrimaryKeyColumn(rows) == Ok(rows[k][0]))
  {
    forall i | 0 <= i < |rows| ensures DescribeField(rows[i]).Ok? {
      DescribeFieldSpec(rows[i]);
    }
    TableDescriptionOk(rows);
    var fields := TableDescription(rows).value;
    forall i | 0 <= i < |rows| ensures fields[i].pk == IsPkRow(rows[i]) && fields[i].name == rows[i][0] {
      DescribeFieldSpec(rows[i]);
    }
  }

  /** Django's `TableInfo(name, type)`. */
  datatype TableInfo = TableInfo(name: Cell, kind: char)

  /** One `SHOW TERSE` row as a `TableInfo`: its second cell is the name. */
  function TableRow(row: Row, kind: char): Result<TableInfo>
  {
    if |row| < 2 then Err("IndexError: tuple index out of range") else Ok(TableInfo(row[1], kind))
  }

  function TableRows(rows: seq<Row>, kind: char): Result<seq<TableInfo>>
    decreases |rows|
  {
    if rows == [] then Ok([])
    else
      match TableRow(rows[0], kind)
      case Err(m) => Err(m)
      case Ok(info) =>
        match TableRows(rows[1..], kind)
        case Err(m) => Err(m)
        case Ok(rest) => Ok([info] + rest)
  }

  /** `get_table_list` (introspection.py:91-96): tables, then views. */
  function TableList(tables: seq<Row>, views: seq<Row>): Result<seq<TableInfo>>
  {
    match TableRows(tables, 't')
    case Err(m) => Err(m)
    case Ok(t) =>
      match TableRows(views, 'v')
      case Err(m) => Err(m)
      case Ok(v) => Ok(t + v)
  }

  /** Every row of at least two cells maps to its name and the kind. */
  lemma {:induction false} TableRowsSpec(rows: seq<Row>, kind: char)
    ensures TableRows(rows, kind).Ok? <==> forall i :: 0 <= i < |rows| ==> |rows[i]| >= 2
    ensures TableRows(rows, kind).Ok? ==>
      |TableRows(rows, kind).value| == |rows| &&
      forall i :: 0 <= i < |rows| ==> TableRows(rows, kind).value[i] == TableInfo(rows[i][1], kind)
    decreases |rows|
  {
    if rows != [] {
      TableRowsSpec(rows[1..], kind);
      if |rows[0]| >= 2 && !TableRows(rows[1..], kind).Ok? {
        var i :| 0 <= i < |rows[1..]| && |rows[1..][i]| < 2;
        assert rows[i + 1] == rows[1..][i];
      }
      if TableRows(rows, kind).Ok? {
        forall i | 0 < i < |rows| ensures |rows[i]| >= 2 {
          assert rows[i] == rows[1..][i - 1];
        }
      }
    }
  }

  /** The list holds every table, in order and marked `'t'`, followed by
      every view, in order and marked `'v'`. */
  lemma TableListSpec(tables: seq<Row>, views: seq<Row>)
    requires forall i :: 0 <= i < |tables| ==> |tables[i]| >= 2
    requires forall i :: 0 <= i < |views| ==> |views[i]| >= 2
    ensures TableList(tables, views).Ok?
    ensures var r := TableList(tables, views).value;
      |r| == |tables| + |views| &&
      (forall i :: 0 <= i < |tables| ==> r[i] == TableInfo(tables[i][1], 't')) &&
      (forall i :: 0 <= i < |views| ==> r[|tables| + i] == TableInfo(views[i][1], 'v'))
  {
    TableRowsSpec(tables, 't');
    TableRowsSpec(views, 'v');
  }
}
