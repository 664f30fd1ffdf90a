/** Introspection of django_snowflake_cs (django_snowflake_cs/introspection.py),
    apart from `get_constraints`: identifier conversion, the type table and
    classification, and the mapping of `DESCRIBE TABLE`, `SHOW TABLES`,
    `SHOW VIEWS` and `SHOW IMPORTED KEYS` rows. */
module CsIntrospection {
  import opened Common
  import opened FieldKinds
  import opened TypeParsers
  import Operations

  type Cell = Option<string>
  type Row = seq<Cell>

  /** `data_types_reverse` (introspection.py:46-56). */
  const ReverseTypes: map<string, FieldKind> := map[
    "BINARY" := BinaryField,
    "BOOLEAN" := BooleanField,
    "DATE" := DateField,
    "FLOAT" := FloatField,
    "NUMBER" := BigIntegerField,
    "TIME" := TimeField,
    "TIMESTAMP_LTZ" := DateTimeField,
    "VARCHAR" := CharField,
    "VARIANT" := JSONField
  ]

  // --------------------------------------------------- identifier_converter

  /** The prefix of the constraint names Snowflake generates. */
  const SysConstraintPrefix: string := "SYS_CONSTRAINT_"

  /** `identifier_converter` (introspection.py:175-191): generated constraint
      names are quoted verbatim, every other name is lower-cased. */
  function IdentifierConverter(name: string): string
  {
    if StartsWith(name, SysConstraintPrefix) then "\"" + name + "\"" else Lower(name)
  }

  predicate HasNoLowerAscii(name: string)
  {
    forall i :: 0 <= i < |name| ==> !('a' <= name[i] <= 'z')
  }

  predicate HasNoUpperAscii(name: string)
  {
    forall i :: 0 <= i < |name| ==> !('A' <= name[i] <= 'Z')
  }

  /** A generated constraint name survives `quote_name` with its case intact. */
  lemma ConvertedConstraintNameQuotesVerbatim(name: string)
    requires StartsWith(name, SysConstraintPrefix)
    ensures Operations.QuoteName(IdentifierConverter(name)) == "\"" + name + "\""
  {
    var q := "\"" + name + "\"";
    assert q[..1] == "\"";
    assert q[|q| - 1..] == "\"";
  }

  /** Any other name comes back lower-cased, and `quote_name` reverses the
      conversion: an unqualified name without lower-case letters is quoted
      back to itself. */
  lemma ConvertedNameQuotesBack(name: string)
    requires !StartsWith(name, SysConstraintPrefix)
    requires HasNoLowerAscii(name) && '.' !in name && !Operations.IsQuoted(name)
    ensures HasNoUpperAscii(IdentifierConverter(name))
    ensures Operations.QuoteName(IdentifierConverter(name)) == "\"" + name + "\""
  {
    var low := Lower(name);
    assert '.' !in low by {
      forall i | 0 <= i < |low| ensures low[i] != '.' {
        assert name[i] != '.';
      }
    }
    assert !Operations.IsQuoted(low) by {
      if |name| > 0 {
        assert low[0] == '"' <==> name[0] == '"';
        assert low[|low| - 1] == '"' <==> name[|name| - 1] == '"';
        assert low[..1] == [low[0]] && name[..1] == [name[0]];
        assert low[|low| - 1..] == [low[|low| - 1]] && name[|name| - 1..] == [name[|name| - 1]];
      }
    }
    Operations.QuoteNamePlain(low);
    assert Upper(low) == name;
  }

  // ------------------------------------------------------------- DESCRIBE

  /** The cs `FieldInfo`, with the added `pk` and `comment`
      (introspection.py:9). */
  datatype FieldInfo = FieldInfo(
    name: string, typeCode: string, displaySize: Option<nat>, internalSize: Option<nat>,
    precision: Option<nat>, scale: Option<nat>, nullOk: bool, default: Cell,
    collation: Option<string>, pk: bool, comment: Cell)

  /** The number of cells `DESCRIBE TABLE` rows must have at least. */
  const DescribeMinWidth: nat := 10

  /** One `DESCRIBE TABLE` row as a `FieldInfo` (introspection.py:154-172):
      the row is unpacked into ten names and `*_`, then the name is converted
      and the type parsed, in that order. */
  function DescribeField(row: Row): Result<FieldInfo>
  {
    if |row| < DescribeMinWidth then
      Err("ValueError: not enough values to unpack (expected at least 10, got " + NatToString(|row|) + ")")
    else if row[0].None? then
      Err("AttributeError: 'NoneType' object has no attribute 'startswith'")
    else if row[1].None? then
      Err("AttributeError: 'NoneType' object has no attribute 'split'")
    else
      var dataType := row[1].value;
      var (precision, scale) := PrecisionAndScale(dataType);
      Ok(FieldInfo(IdentifierConverter(row[0].value), GetDataType(dataType), FieldSize(dataType, false), None,
                   precision, scale, row[3] == Some("Y"), row[4], GetCollation(dataType),
                   row[5] == Some("Y"), row[9]))
  }

  /** What a described column reports: extra cells are ignored; the size is
      the unanchored parse of the type and goes to `display_size`; the
      collation is parsed from the type; the name is converted. */
  lemma DescribeFieldSpec(row: Row)
    ensures DescribeField(row).Ok? <==> |row| >= DescribeMinWidth && row[0].Some? && row[1].Some?
    ensures DescribeField(row).Ok? ==>
      var info := DescribeField(row).value;
      var dataType := row[1].value;
      info.name == IdentifierConverter(row[0].value) && StartsWith(dataType, info.typeCode) &&
      '(' !in info.typeCode && info.displaySize == FieldSize(dataType, false) && info.internalSize.None? &&
      info.collation == GetCollation(dataType) && (info.precision, info.scale) == PrecisionAndScale(dataType) &&
      (info.nullOk <==> row[3] == Some("Y")) && (info.pk <==> row[5] == Some("Y")) &&
      info.default == row[4] && info.comment == row[9]
    ensures |row| > DescribeMinWidth ==> DescribeField(row) == DescribeField(row[..DescribeMinWidth])
  {
  }

  /** `get_table_description` over the fetched rows: the first row that does
      not unpack raises. */
  function TableDescription(rows: seq<Row>): Result<seq<FieldInfo>>
    decreases |rows|
  {
    if rows == [] then Ok([])
    else
      match DescribeField(rows[0])
      case Err(m) => Err(m)
      case Ok(info) =>
        match TableDescription(rows[1..])
        case Err(m) => Err(m)
        case Ok(rest) => Ok([info] + rest)
  }

  /** The description succeeds exactly when every row does, and then it is
      the rows' infos in order. */
  lemma {:induction false} TableDescriptionOk(rows: seq<Row>)
    ensures TableDescription(rows).Ok? <==> forall i :: 0 <= i < |rows| ==> DescribeField(rows[i]).Ok?
    ensures TableDescription(rows).Ok? ==>
      |TableDescription(rows).value| == |rows| &&
      forall i :: 0 <= i < |rows| ==> TableDescription(rows).value[i] == DescribeField(rows[i]).value
    decreases |rows|
  {
    if rows != [] {
      var tail := rows[1..];
      TableDescriptionOk(tail);
      assert forall i :: 0 < i < |rows| ==> rows[i] == tail[i - 1];
      if DescribeField(rows[0]).Ok? && TableDescription(tail).Ok? {
        assert TableDescription(rows).value == [DescribeField(rows[0]).value] + TableDescription(tail).value;
      }
    }
  }

  /** `get_field_type` (introspection.py:128-149): the shared decision chain,
      testing `display_size` for the TextField rule. */
  function GetFieldType(dataType: string, description: FieldInfo): Result<FieldKind>
  {
    TypeParsers.GetFieldType(ReverseTypes, dataType, description.displaySize,
                             description.precision, description.scale, description.default)
  }

  /** A `VARIANT` column is a JSONField; a `VARCHAR` column that the parser
      sized at 16777216 (collated or not) reads back as a TextField. */
  lemma GetFieldTypeOfDescription(row: Row)
    requires DescribeField(row).Ok?
    ensures var info := DescribeField(row).value;
      (info.typeCode == "VARCHAR" && FieldSize(row[1].value, false) == Some(DefaultVarcharSize) ==>
        GetFieldType(info.typeCode, info) == Ok(TextField)) &&
      (info.typeCode == "VARIANT" && !IsIdentityDefault(info.default) ==>
        GetFieldType(info.typeCode, info) == Ok(JSONField))
  {
    assert "VARCHAR" in ReverseTypes && "VARIANT" in ReverseTypes;
    assert ReverseTypes["VARIANT"] == JSONField;
  }

  /** The position of the first primary-key field, or `|fields|`. */
  function FirstPk(fields: seq<FieldInfo>): (k: nat)
    ensures k <= |fields|
    ensures k < |fields| ==> fields[k].pk
    ensures forall i :: 0 <= i < k ==> !fields[i].pk
    decreases |fields|
  {
    if fields == [] then 0
    else if fields[0].pk then 0
    else FirstPk(fields[1..]) + 1
  }

  /** `get_primary_key_column` (introspection.py:112-114): the converted name
      of the first primary-key field, or None. */
  function PrimaryKeyColumn(rows: seq<Row>): Result<Option<string>>
  {
    match TableDescription(rows)
    case Err(m) => Err(m)
    case Ok(fields) =>
      var k := FirstPk(fields);
      Ok(if k < |fields| then Some(fields[k].name) else None)
  }

  /** A row that describes a primary-key column. */
  predicate IsPkRow(row: Row)
  {
    |row| > 5 && row[5] == Some("Y")
  }

  /** A described row reports its converted name and whether it is flagged `pk`. */
  lemma DescribedNameAndPk(row: Row)
    requires |row| >= DescribeMinWidth && row[0].Some? && row[1].Some?
    ensures DescribeField(row).Ok?
    ensures DescribeField(row).value.pk == IsPkRow(row)
    ensures DescribeField(row).value.name == IdentifierConverter(row[0].value)
  {
    DescribeFieldSpec(row);
  }

  /** The primary key column is the converted name of the first row flagged
      `pk = 'Y'`; without one the result is None. */
  lemma PrimaryKeyColumnSpec(rows: seq<Row>)
    requires forall i :: 0 <= i < |rows| ==> |rows[i]| >= DescribeMinWidth && rows[i][0].Some? && rows[i][1].Some?
    ensures PrimaryKeyColumn(rows).Ok?
    ensures (forall i :: 0 <= i < |rows| ==> !IsPkRow(rows[i])) ==> PrimaryKeyColumn(rows) == Ok(None)
    ensures forall k :: (0 <= k < |rows| && IsPkRow(rows[k]) && (forall i :: 0 <= i < k ==> !IsPkRow(rows[i])) ==>
                         PrimaryKeyColumn(rows) == Ok(Some(IdentifierConverter(rows[k][0].value))))
  {
    forall i | 0 <= i < |rows| ensures DescribeField(rows[i]).Ok? {
      DescribedNameAndPk(rows[i]);
    }
    TableDescriptionOk(rows);
    var fields := TableDescription(rows).value;
    forall i | 0 <= i < |rows|
      ensures fields[i].pk == IsPkRow(rows[i]) && fields[i].name == IdentifierConverter(rows[i][0].value)
    {
      DescribedNameAndPk(rows[i]);
    }
    var f := FirstPk(fields);
    forall k | 0 <= k < |rows| && IsPkRow(rows[k]) && (forall i :: 0 <= i < k ==> !IsPkRow(rows[i]))
      ensures PrimaryKeyColumn(rows) == Ok(Some(IdentifierConverter(rows[k][0].value)))
    {
      assert fields[k].pk;
      assert f == k;
    }
  }

  // ------------------------------------------------------------ table list

  /** The cs `TableInfo(name, type, comment)` (introspection.py:10). */
  datatype TableInfo = TableInfo(name: string, kind: char, comment: Cell)

  /** The converted name in cell `i`: `identifier_converter(row[i])`. */
  function NameCell(row: Row, i: nat): Result<string>
  {
    if i >= |row| then Err("IndexError: tuple index out of range")
    else if row[i].None? then Err("AttributeError: 'NoneType' object has no attribute 'startswith'")
    else Ok(IdentifierConverter(row[i].value))
  }

  /** One `SHOW TABLES` / `SHOW VIEWS` row: the converted name in cell 1 and
      the comment in cell `commentAt`. */
  function TableRow(row: Row, kind: char, commentAt: nat): Result<TableInfo>
  {
    match NameCell(row, 1)
    case Err(m) => Err(m)
    case Ok(name) =>
      if commentAt >= |row| then Err("IndexError: tuple index out of range")
      else Ok(TableInfo(name, kind, row[commentAt]))
  }

  function TableRows(rows: seq<Row>, kind: char, commentAt: nat): Result<seq<TableInfo>>
    decreases |rows|
  {
    if rows == [] then Ok([])
    else
      match TableRow(rows[0], kind, commentAt)
      case Err(m) => Err(m)
      case Ok(info) =>
        match TableRows(rows[1..], kind, commentAt)
        case Err(m) => Err(m)
        case Ok(rest) => Ok([info] + rest)
  }

  /** The comment cell of a `SHOW TABLES` row and of a `SHOW VIEWS` row. */
  const TableCommentAt: nat := 5
  const ViewCommentAt: nat := 6

  /** `get_table_list` (introspection.py:193-210): tables, then views. */
  function TableList(tables: seq<Row>, views: seq<Row>): Result<seq<TableInfo>>
  {
    match TableRows(tables, 't', TableCommentAt)
    case Err(m) => Err(m)
    case Ok(t) =>
      match TableRows(views, 'v', ViewCommentAt)
      case Err(m) => Err(m)
      case Ok(v) => Ok(t + v)
  }

  /** A row that can be listed: a name in cell 1 and a comment cell. */
  predicate Listable(row: Row, commentAt: nat)
  {
    commentAt < |row| && 1 < |row| && row[1].Some?
  }

  lemma {:induction false} TableRowsSpec(rows: seq<Row>, kind: char, commentAt: nat)
    requires commentAt >= 1
    ensures TableRows(rows, kind, commentAt).Ok? <==> forall i :: 0 <= i < |rows| ==> Listable(rows[i], commentAt)
    ensures TableRows(rows, kind, commentAt).Ok? ==>
      var r := TableRows(rows, kind, commentAt).value;
      |r| == |rows| &&
      forall i :: 0 <= i < |rows| ==> r[i] == TableInfo(IdentifierConverter(rows[i][1].value), kind, rows[i][commentAt])
    decreases |rows|
  {
    if rows != [] {
      TableRowsSpec(rows[1..], kind, commentAt);
      assert forall i :: 0 < i < |rows| ==> rows[i] == rows[1..][i - 1];
    }
  }

  /** The list holds every table, in order, marked `'t'` with the comment of
      cell 5, followed by every view, marked `'v'` with the comment of cell 6. */
  lemma TableListSpec(tables: seq<Row>, views: seq<Row>)
    requires forall i :: 0 <= i < |tables| ==> Listable(tables[i], TableCommentAt)
    requires forall i :: 0 <= i < |views| ==> Listable(views[i], ViewCommentAt)
    ensures TableList(tables, views).Ok?
    ensures var r := TableList(tables, views).value;
      |r| == |tables| + |views| &&
      (forall i :: 0 <= i < |tables| ==> (Listable(tables[i], TableCommentAt) &&
        r[i] == TableInfo(IdentifierConverter(tables[i][1].value), 't', tables[i][TableCommentAt]))) &&
      (forall i :: 0 <= i < |views| ==> (Listable(views[i], ViewCommentAt) &&
        r[|tables| + i] == TableInfo(IdentifierConverter(views[i][1].value), 'v', views[i][ViewCommentAt])))
  {
    TableRowsSpec(tables, 't', TableCommentAt);
    TableRowsSpec(views, 'v', ViewCommentAt);
  }

  // ------------------------------------------------------------- relations

  /** The cells of a `SHOW IMPORTED KEYS` row that the introspection reads:
      `pk_table_name` (cell 3), `pk_column_name` (4), `fk_column_name` (8) and
      `fk_name` (12). */
  datatype ImportedKeyRow = ImportedKeyRow(pkTable: string, pkColumn: string, fkColumn: string, fkName: string)

  /** `get_relations` (introspection.py:116-126): each foreign-key column maps
      to the referenced column and table; a later row for the same column
      replaces an earlier one. */
  function Relations(rows: seq<ImportedKeyRow>): map<string, (string, string)>
    decreases |rows|
  {
    if rows == [] then map[]
    else
      var r := rows[|rows| - 1];
      Relations(rows[..|rows| - 1])[IdentifierConverter(r.fkColumn) := (IdentifierConverter(r.pkColumn), IdentifierConverter(r.pkTable))]
  }

  /** The relations are keyed by exactly the converted foreign-key columns. */
  lemma {:induction false} RelationsKeys(rows: seq<ImportedKeyRow>)
    ensures forall c :: c in Relations(rows) <==> exists i :: 0 <= i < |rows| && IdentifierConverter(rows[i].fkColumn) == c
    decreases |rows|
  {
    if rows != [] {
      var init := rows[..|rows| - 1];
      RelationsKeys(init);
      forall c ensures c in Relations(rows) <==> exists i :: 0 <= i < |rows| && IdentifierConverter(rows[i].fkColumn) == c {
        if c in Relations(init) {
          var i :| 0 <= i < |init| && IdentifierConverter(init[i].fkColumn) == c;
          assert rows[i] == init[i];
        }
        if exists i :: 0 <= i < |rows| && IdentifierConverter(rows[i].fkColumn) == c {
          var i :| 0 <= i < |rows| && IdentifierConverter(rows[i].fkColumn) == c;
          if i < |init| {
            assert init[i] == rows[i];
          }
        }
      }
    }
  }

  /** Each column maps to the referenced column and table of the last row
      for that column. */
  lemma {:induction false} RelationsLast(rows: seq<ImportedKeyRow>, i: nat)
    requires i < |rows|
    requires forall j :: i < j < |rows| ==> IdentifierConverter(rows[j].fkColumn) != IdentifierConverter(rows[i].fkColumn)
    ensures IdentifierConverter(rows[i].fkColumn) in Relations(rows)
    ensures Relations(rows)[IdentifierConverter(rows[i].fkColumn)] ==
      (IdentifierConverter(rows[i].pkColumn), IdentifierConverter(rows[i].pkTable))
    decreases |rows|
  {
    if i < |rows| - 1 {
      var init := rows[..|rows| - 1];
      assert init[i] == rows[i];
      forall j | i < j < |init| ensures IdentifierConverter(init[j].fkColumn) != IdentifierConverter(init[i].fkColumn) {
        assert init[j] == rows[j];
      }
      RelationsLast(init, i);
    }
  }
}
