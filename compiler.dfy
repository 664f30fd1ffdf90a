/** The INSERT compiler of django_snowflake (django_snowflake/compiler.py):
    the preparation of the value columns (dropping redundant all-DEFAULT
    columns and expanding defaults), their transposition into rows, the
    `SELECT parse_json($i) ... FROM` wrapper for JSON columns, and the
    choice between a RETURNING statement, one bulk statement and one
    statement per object.

    What Django supplies is input: the prepared value of every field for
    every object (`prepare_value(field, pre_save_val(field, obj))`), the
    prepared `db_default` of each field, the feature flags, the INSERT
    keyword, the on-conflict suffix, the RETURNING clause and its
    parameters. Django's `assemble_as_sql` is modelled as its per-value
    compilation: a compiled value contributes its SQL to the placeholder
    row and its parameters to the parameter row. */
module Compiler {
  import opened Common
  import Operations

  /** A prepared value: Django's `DatabaseDefault` sentinel, or a value
      with the SQL and parameters `field_as_sql` compiles it to. */
  datatype Value = DatabaseDefault | Compiled(sql: string, params: seq<Param>)

  /** What the compiler reads of an inserted field. */
  datatype InsertField = InsertField(column: string, isJson: bool, hasDbDefault: bool, preparedDbDefault: Value)

  /** The database features the compiler consults. */
  datatype Features = Features(
    supportsDefaultKeywordInBulkInsert: bool, hasBulkInsert: bool,
    canReturnColumnsFromInsert: bool, canReturnRowsFromBulkInsert: bool)

  /** An INSERT query: `values[f][o]` is the prepared value of field `f` for
      object `o`; `pkDefault` is the SQL of `pk_default_value()`;
      `returning` says whether there are returning fields, and
      `returnSql`/`returnParams` are what `return_insert_columns` gives for
      them. */
  datatype InsertQuery = InsertQuery(
    insertStatement: string, table: string, pkColumn: string,
    fields: seq<InsertField>, values: seq<seq<Value>>, objectCount: nat,
    pkDefault: string, returning: bool, onConflictSuffix: string,
    returnSql: string, returnParams: seq<Param>)

  /** One value per object for every field. */
  predicate WellFormed(q: InsertQuery)
  {
    |q.values| == |q.fields| && forall f :: 0 <= f < |q.values| ==> |q.values[f]| == q.objectCount
  }

  // ------------------------------------------------------- value columns

  /** Every value is the `DatabaseDefault` sentinel. */
  predicate AllDefault(vs: seq<Value>)
    decreases |vs|
  {
    vs == [] || (vs[0] == DatabaseDefault && AllDefault(vs[1..]))
  }

  /** Every `DatabaseDefault` replaced by the prepared db default. */
  function Substitute(vs: seq<Value>, dbDefault: Value): seq<Value>
  {
    seq(|vs|, k requires 0 <= k < |vs| => if vs[k] == DatabaseDefault then dbDefault else vs[k])
  }

  /** The values a kept field contributes: its own, unless it has a db
      default and the backend has no DEFAULT keyword in bulk inserts. */
  function KeptColumn(f: InsertField, vs: seq<Value>, supportsDefault: bool): seq<Value>
  {
    if !f.hasDbDefault || supportsDefault then vs else Substitute(vs, f.preparedDbDefault)
  }

  /** The kept fields, their value columns, and their positions in the
      original field list. */
  datatype Prepared = Prepared(fields: seq<InsertField>, columns: seq<seq<Value>>, positions: seq<nat>)

  function Combine(a: Prepared, b: Prepared): Prepared
  {
    Prepared(a.fields + b.fields, a.columns + b.columns, a.positions + b.positions)
  }


  /** The state of the loop of compiler.py:28-71 after the first `i`
      fields: what has been kept so far, and the field list, which the loop
      shrinks with `fields.remove`. */
  datatype Progress = Progress(done: Prepared, list: seq<InsertField>)

  /** Whether the loop removes a field: it has a db default, all its values
      are DEFAULT, and the list still holds another field. */
  predicate Drops(f: InsertField, vs: seq<Value>, listLength: nat)
  {
    f.hasDbDefault && listLength > 1 && AllDefault(vs)
  }

  /** The loop's state field by field. The list always holds the kept
      fields followed by the unvisited ones, so the field to remove is the
      one right after the kept ones, and it never becomes empty. */
  function PrepareUpTo(fields: seq<InsertField>, values: seq<seq<Value>>, supportsDefault: bool, i: nat): (r: Progress)
    requires |values| == |fields| && i <= |fields|
    ensures |r.done.fields| == |r.done.columns| == |r.done.positions|
    ensures r.list == r.done.fields + fields[i..]
    ensures |fields| > 0 ==> r.list != []
    decreases i
  {
    if i == 0 then
      assert fields[0..] == fields;
      Progress(Prepared([], [], []), fields)
    else
      var p := PrepareUpTo(fields, values, supportsDefault, i - 1);
      var at := |p.done.fields|;
      assert p.list[at] == fields[i - 1] && p.list[..at] == p.done.fields && p.list[at + 1..] == fields[i..];
      if Drops(fields[i - 1], values[i - 1], |p.list|) then
        Progress(p.done, p.list[..at] + p.list[at + 1..])
      else
        assert fields[i - 1..] == [fields[i - 1]] + fields[i..];
        Progress(Combine(p.done, Prepared([fields[i - 1]], [KeptColumn(fields[i - 1], values[i - 1], supportsDefault)], [i - 1])),
                 p.list)
  }

  /** The step that removes field `i` from the list. */
  lemma PrepareUpToDrop(fields: seq<InsertField>, values: seq<seq<Value>>, supportsDefault: bool, i: nat)
    requires |values| == |fields| && i < |fields|
    requires Drops(fields[i], values[i], |PrepareUpTo(fields, values, supportsDefault, i).list|)
    ensures var p := PrepareUpTo(fields, values, supportsDefault, i);
      PrepareUpTo(fields, values, supportsDefault, i + 1) ==
        Progress(p.done, p.list[..|p.done.columns|] + p.list[|p.done.columns| + 1..])
  {
  }

  /** The step that keeps field `i` with its column. */
  lemma PrepareUpToKeep(fields: seq<InsertField>, values: seq<seq<Value>>, supportsDefault: bool, i: nat)
    requires |values| == |fields| && i < |fields|
    requires !Drops(fields[i], values[i], |PrepareUpTo(fields, values, supportsDefault, i).list|)
    ensures var p := PrepareUpTo(fields, values, supportsDefault, i);
      PrepareUpTo(fields, values, supportsDefault, i + 1) ==
        Progress(Combine(p.done, Prepared([fields[i]], [KeptColumn(fields[i], values[i], supportsDefault)], [i])), p.list)
  {
  }

  /** The preparation of the whole field list. */
  function Prepare(fields: seq<InsertField>, values: seq<seq<Value>>, supportsDefault: bool): Prepared
    requires |values| == |fields|
  {
    PrepareUpTo(fields, values, supportsDefault, |fields|).done
  }

  /** After the last field the list is the kept fields. */
  lemma PrepareList(fields: seq<InsertField>, values: seq<seq<Value>>, supportsDefault: bool)
    requires |values| == |fields|
    ensures PrepareUpTo(fields, values, supportsDefault, |fields|).list == Prepare(fields, values, supportsDefault).fields
  {
    assert fields[|fields|..] == [];
    assert Prepare(fields, values, supportsDefault).fields + [] == Prepare(fields, values, supportsDefault).fields;
  }

  /** The `j`-th kept field is the field at its position, with its column. */
  predicate KeptAt(p: Prepared, j: nat, fields: seq<InsertField>, values: seq<seq<Value>>, supportsDefault: bool)
    requires |values| == |fields|
  {
    j < |p.positions| && j < |p.fields| && j < |p.columns| && p.positions[j] < |fields| &&
    p.fields[j] == fields[p.positions[j]] &&
    p.columns[j] == KeptColumn(fields[p.positions[j]], values[p.positions[j]], supportsDefault)
  }

  /** Every kept entry comes from a visited position, with that field and
      its column. */
  lemma {:induction false} PrepareUpToContents(fields: seq<InsertField>, values: seq<seq<Value>>, supportsDefault: bool, i: nat)
    requires |values| == |fields| && i <= |fields|
    ensures forall j :: 0 <= j < |PrepareUpTo(fields, values, supportsDefault, i).done.positions| ==>
      PrepareUpTo(fields, values, supportsDefault, i).done.positions[j] < i &&
      KeptAt(PrepareUpTo(fields, values, supportsDefault, i).done, j, fields, values, supportsDefault)
    decreases i
  {
    if i > 0 {
      PrepareUpToContents(fields, values, supportsDefault, i - 1);
      var p := PrepareUpTo(fields, values, supportsDefault, i - 1).done;
      var d := PrepareUpTo(fields, values, supportsDefault, i).done;
      if d != p {
        var column := KeptColumn(fields[i - 1], values[i - 1], supportsDefault);
        assert d == Combine(p, Prepared([fields[i - 1]], [column], [i - 1]));
        forall j | 0 <= j < |d.positions| ensures d.positions[j] < i && KeptAt(d, j, fields, values, supportsDefault) {
          if j < |p.positions| {
            assert KeptAt(p, j, fields, values, supportsDefault);
            assert d.positions[j] == p.positions[j] && d.fields[j] == p.fields[j] && d.columns[j] == p.columns[j];
          } else {
            assert d.positions[j] == i - 1 && d.fields[j] == fields[i - 1] && d.columns[j] == column;
          }
        }
      }
    }
  }

  /** The kept positions increase. */
  lemma {:induction false} PrepareUpToOrdered(fields: seq<InsertField>, values: seq<seq<Value>>, supportsDefault: bool, i: nat)
    requires |values| == |fields| && i <= |fields|
    ensures forall j1, j2 :: 0 <= j1 < j2 < |PrepareUpTo(fields, values, supportsDefault, i).done.positions| ==>
      PrepareUpTo(fields, values, supportsDefault, i).done.positions[j1] < PrepareUpTo(fields, values, supportsDefault, i).done.positions[j2]
    decreases i
  {
    if i > 0 {
      PrepareUpToOrdered(fields, values, supportsDefault, i - 1);
      PrepareUpToContents(fields, values, supportsDefault, i - 1);
      var p := PrepareUpTo(fields, values, supportsDefault, i - 1).done.positions;
      var d := PrepareUpTo(fields, values, supportsDefault, i).done.positions;
      if d != p {
        assert d == p + [i - 1];
        forall j1, j2 | 0 <= j1 < j2 < |d| ensures d[j1] < d[j2] {
          assert d[j1] == p[j1];
          if j2 < |p| {
            assert d[j2] == p[j2];
          }
        }
      }
    }
  }

  /** A visited field that is not kept has a db default and only DEFAULT
      values. */
  lemma {:induction false} PrepareUpToDropped(fields: seq<InsertField>, values: seq<seq<Value>>, supportsDefault: bool, i: nat)
    requires |values| == |fields| && i <= |fields|
    ensures forall k :: 0 <= k < i && k !in PrepareUpTo(fields, values, supportsDefault, i).done.positions ==>
      fields[k].hasDbDefault && AllDefault(values[k])
    decreases i
  {
    if i > 0 {
      PrepareUpToDropped(fields, values, supportsDefault, i - 1);
      var p := PrepareUpTo(fields, values, supportsDefault, i - 1);
      var d := PrepareUpTo(fields, values, supportsDefault, i).done.positions;
      if !Drops(fields[i - 1], values[i - 1], |p.list|) {
        assert d == p.done.positions + [i - 1];
        assert i - 1 in d;
        forall k | 0 <= k < i - 1 && k in p.done.positions ensures k in d {
          var j :| 0 <= j < |p.done.positions| && p.done.positions[j] == k;
          assert d[j] == k;
        }
      }
    }
  }

  /** The preparation keeps the fields in order, each with its column; a
      field is dropped only when it has a db default and all its values are
      DEFAULT; a field without a db default keeps its values unchanged; and
      a non-empty field list never becomes empty. */
  lemma PrepareSpec(fields: seq<InsertField>, values: seq<seq<Value>>, supportsDefault: bool)
    requires |values| == |fields|
    ensures var p := Prepare(fields, values, supportsDefault);
      |p.fields| == |p.columns| == |p.positions| &&
      (forall j :: 0 <= j < |p.positions| ==>
         p.positions[j] < |fields| && p.fields[j] == fields[p.positions[j]] &&
         p.columns[j] == KeptColumn(fields[p.positions[j]], values[p.positions[j]], supportsDefault)) &&
      (forall j1, j2 :: 0 <= j1 < j2 < |p.positions| ==> p.positions[j1] < p.positions[j2]) &&
      (forall i :: 0 <= i < |fields| && i !in p.positions ==> fields[i].hasDbDefault && AllDefault(values[i])) &&
      (forall i :: 0 <= i < |fields| && !fields[i].hasDbDefault ==>
         exists j :: 0 <= j < |p.positions| && p.positions[j] == i && p.columns[j] == values[i]) &&
      (|fields| > 0 ==> p.fields != [])
  {
    var n := |fields|;
    PrepareUpToContents(fields, values, supportsDefault, n);
    PrepareUpToOrdered(fields, values, supportsDefault, n);
    PrepareUpToDropped(fields, values, supportsDefault, n);
    PrepareList(fields, values, supportsDefault);
    var p := Prepare(fields, values, supportsDefault);
    forall j | 0 <= j < |p.positions|
      ensures p.positions[j] < |fields| && p.fields[j] == fields[p.positions[j]]
      ensures p.columns[j] == KeptColumn(fields[p.positions[j]], values[p.positions[j]], supportsDefault)
    {
      assert KeptAt(p, j, fields, values, supportsDefault);
    }
    forall i | 0 <= i < |fields| && !fields[i].hasDbDefault
      ensures exists j :: 0 <= j < |p.positions| && p.positions[j] == i && p.columns[j] == values[i]
    {
      assert i in p.positions;
      var j :| 0 <= j < |p.positions| && p.positions[j] == i;
      assert KeptAt(p, j, fields, values, supportsDefault);
      assert p.columns[j] == values[i];
    }
  }

  /** What a kept db-default column holds: its values unchanged when the
      backend has the DEFAULT keyword in bulk inserts, and otherwise the
      same values with every DEFAULT replaced by the prepared db default. */
  lemma KeptColumnSpec(f: InsertField, vs: seq<Value>, supportsDefault: bool)
    requires f.hasDbDefault
    ensures var c := KeptColumn(f, vs, supportsDefault);
      |c| == |vs| &&
      (supportsDefault ==> c == vs) &&
      (!supportsDefault ==> forall k :: 0 <= k < |vs| ==>
         c[k] == (if vs[k] == DatabaseDefault then f.preparedDbDefault else vs[k]))
  {
  }

  /** `$i`, the `i`-th (1-based) column of the VALUES rows. */
  function ValuesColumn(i: nat): string
  {
    "$" + NatToString(i)
  }

  /** `parse_json($i)`. */
  function ParsedValuesColumn(i: nat): string
  {
    "parse_json($" + NatToString(i) + ")"
  }

  /** The reference of the `i`-th (1-based) field in the SELECT wrapper. */
  function SelectColumn(i: nat, f: InsertField): string
  {
    if f.isJson then ParsedValuesColumn(i) else ValuesColumn(i)
  }

  /** The SELECT list over a field list, numbered from 1. */
  function SelectColumns(fields: seq<InsertField>): seq<string>
  {
    seq(|fields|, j requires 0 <= j < |fields| => SelectColumn(j + 1, fields[j]))
  }

  predicate HasJson(fields: seq<InsertField>)
  {
    exists i :: 0 <= i < |fields| && fields[i].isJson
  }

  lemma SelectColumnsSnoc(fields: seq<InsertField>, i: nat)
    requires i < |fields|
    ensures SelectColumns(fields[..i + 1]) == SelectColumns(fields[..i]) + [SelectColumn(i + 1, fields[i])]
    ensures HasJson(fields[..i + 1]) <==> HasJson(fields[..i]) || fields[i].isJson
  {
    assert fields[..i + 1][..i] == fields[..i];
    assert fields[..i + 1][i] == fields[i];
    assert forall j :: 0 <= j < i ==> fields[..i + 1][j] == fields[..i][j];
  }


  /** The body of the loop of compiler.py:35-71 for field `i` once its
      SELECT reference is listed: the field is removed from the list, or its
      values, expanded when needed, become its column; either way the state
      advances by one field. */
  method PrepareField(fields: seq<InsertField>, values: seq<seq<Value>>, supportsDefault: bool, i: nat,
                      kept: seq<InsertField>, valueCols: seq<seq<Value>>, ghost done: Prepared)
    returns (kept': seq<InsertField>, valueCols': seq<seq<Value>>, ghost done': Prepared)
    requires |values| == |fields| && i < |fields|
    requires PrepareUpTo(fields, values, supportsDefault, i) == Progress(done, kept) && valueCols == done.columns
    ensures PrepareUpTo(fields, values, supportsDefault, i + 1) == Progress(done', kept') && valueCols' == done'.columns
  {
    var field := fields[i];
    var fieldValues := values[i];
    kept', valueCols', done' := kept, valueCols, done;
    if field.hasDbDefault && |kept| > 1 && AllDefault(fieldValues) {
      // every value is DEFAULT and another field remains: `fields.remove(field)`,
      // which finds the field right after the kept ones
      PrepareUpToDrop(fields, values, supportsDefault, i);
      var at := |valueCols|;
      kept' := kept[..at] + kept[at + 1..];
    } else {
      if field.hasDbDefault && !supportsDefault {
        // no DEFAULT keyword: expand each DEFAULT into the db default
        fieldValues := Substitute(fieldValues, field.preparedDbDefault);
      }
      PrepareUpToKeep(fields, values, supportsDefault, i);
      valueCols' := valueCols + [fieldValues];
      done' := Combine(done, Prepared([field], [fieldValues], [i]));
    }
  }

  /** The loop of compiler.py:28-71 over the field list: the SELECT list
      and the JSON flag over every field, and the kept fields with their
      value columns. */
  method PrepareColumns(fields: seq<InsertField>, values: seq<seq<Value>>, supportsDefault: bool)
    returns (kept: seq<InsertField>, valueCols: seq<seq<Value>>, selectColumns: seq<string>, hasJsonField: bool)
    requires |values| == |fields|
    ensures kept == Prepare(fields, values, supportsDefault).fields
    ensures valueCols == Prepare(fields, values, supportsDefault).columns
    ensures selectColumns == SelectColumns(fields)
    ensures hasJsonField <==> HasJson(fields)
  {
    kept := fields;
    valueCols := [];
    selectColumns := [];
    hasJsonField := false;
    ghost var done := Prepared([], [], []);
    var i := 0;
    while i < |fields|
      invariant i <= |fields|
      invariant PrepareUpTo(fields, values, supportsDefault, i) == Progress(done, kept)
      invariant valueCols == done.columns
      invariant selectColumns == SelectColumns(fields[..i])
      invariant hasJsonField <==> HasJson(fields[..i])
    {
      var field := fields[i];
      SelectColumnsSnoc(fields, i);
      if field.isJson {
        hasJsonField := true;
        selectColumns := selectColumns + [ParsedValuesColumn(i + 1)];
      } else {
        selectColumns := selectColumns + [ValuesColumn(i + 1)];
      }
      kept, valueCols, done := PrepareField(fields, values, supportsDefault, i, kept, valueCols, done);
      i := i + 1;
    }
    PrepareList(fields, values, supportsDefault);
    assert fields[..|fields|] == fields;
  }

  /** Every kept column holds one value per object. */
  lemma PrepareLengths(fields: seq<InsertField>, values: seq<seq<Value>>, supportsDefault: bool, n: nat)
    requires |values| == |fields| && forall f :: 0 <= f < |values| ==> |values[f]| == n
    ensures var p := Prepare(fields, values, supportsDefault);
      forall j :: 0 <= j < |p.columns| ==> |p.columns[j]| == n
  {
    PrepareSpec(fields, values, supportsDefault);
  }

  // ------------------------------------------------------------ value rows

  /** `zip(*columns)` over columns of `n` values each (compiler.py:72): the
      `o`-th row holds the `o`-th value of every column. */
  function Zip(columns: seq<seq<Value>>, n: nat): (rows: seq<seq<Value>>)
    requires forall f :: 0 <= f < |columns| ==> |columns[f]| == n
  {
    if columns == [] then []
    else seq(n, o requires 0 <= o < n => seq(|columns|, f requires 0 <= f < |columns| => columns[f][o]))
  }

  /** Turning the rows back into columns gives the columns: the
      transposition loses and reorders nothing. */
  lemma ZipTwice(columns: seq<seq<Value>>, n: nat)
    requires columns != [] && n > 0
    requires forall f :: 0 <= f < |columns| ==> |columns[f]| == n
    ensures |Zip(columns, n)| == n
    ensures forall o :: 0 <= o < n ==> |Zip(columns, n)[o]| == |columns|
    ensures Zip(Zip(columns, n), |columns|) == columns
  {
    var rows := Zip(columns, n);
    var back := Zip(rows, |columns|);
    forall f | 0 <= f < |columns| ensures back[f] == columns[f] {
      forall o | 0 <= o < n ensures back[f][o] == columns[f][o] {
        assert back[f][o] == rows[o][f];
      }
    }
  }

  /** What Django's `field_as_sql` compiles a value to: the `DEFAULT`
      keyword for the sentinel, and otherwise the value's own SQL and
      parameters. */
  function Cell(v: Value): Fragment
  {
    match v
    case DatabaseDefault => Fragment("DEFAULT", [])
    case Compiled(sql, params) => Fragment(sql, params)
  }

  /** The placeholders of a value row (Django's `assemble_as_sql`). */
  function PlaceholderRow(row: seq<Value>): (r: seq<string>)
    ensures |r| == |row|
  {
    seq(|row|, k requires 0 <= k < |row| => Cell(row[k]).sql)
  }

  /** `chain.from_iterable(rows)`. */
  function Flatten(rows: seq<seq<Param>>): seq<Param>
    decreases |rows|
  {
    if rows == [] then [] else rows[0] + Flatten(rows[1..])
  }

  /** Flattening keeps every parameter. */
  lemma {:induction false} FlattenLength(rows: seq<seq<Param>>)
    ensures |Flatten(rows)| == Sum(Lengths(rows))
    decreases |rows|
  {
    if rows != [] {
      assert Lengths(rows)[1..] == Lengths(rows[1..]);
      FlattenLength(rows[1..]);
    }
  }

  lemma {:induction false} FlattenConcat(a: seq<seq<Param>>, b: seq<seq<Param>>)
    ensures Flatten(a + b) == Flatten(a) + Flatten(b)
    decreases |a|
  {
    if a == [] {
      assert a + b == b;
    } else {
      assert (a + b)[1..] == a[1..] + b;
      FlattenConcat(a[1..], b);
    }
  }

  /** The parameters of a value row, the cells' in order. */
  function ParamRow(row: seq<Value>): seq<Param>
  {
    Flatten(seq(|row|, k requires 0 <= k < |row| => Cell(row[k]).params))
  }

  // ------------------------------------------------------------ statements

  /** The column names of the INSERT: the kept fields', or the primary key's
      when no field is given. */
  function ColumnNames(q: InsertQuery, feats: Features): seq<string>
    requires WellFormed(q)
  {
    if q.fields == [] then [q.pkColumn]
    else
      var kept := Prepare(q.fields, q.values, feats.supportsDefaultKeywordInBulkInsert).fields;
      seq(|kept|, j requires 0 <= j < |kept| => kept[j].column)
  }

  /** The value rows: the kept columns transposed, or one `pk_default_value()`
      per object when no field is given (compiler.py:72, 82-84). */
  function ValueRows(q: InsertQuery, feats: Features): seq<seq<Value>>
    requires WellFormed(q)
  {
    if q.fields == [] then seq(q.objectCount, o requires 0 <= o < q.objectCount => [Compiled(q.pkDefault, [])])
    else
      PrepareLengths(q.fields, q.values, feats.supportsDefaultKeywordInBulkInsert, q.objectCount);
      Zip(Prepare(q.fields, q.values, feats.supportsDefaultKeywordInBulkInsert).columns, q.objectCount)
  }

  function QuotedNames(names: seq<string>): (r: seq<string>)
    ensures |r| == |names|
  {
    seq(|names|, j requires 0 <= j < |names| => Operations.QuoteName(names[j]))
  }

  /** `INSERT INTO <table>` and `(<columns>)` (compiler.py:18, 73, 86). */
  function Header(q: InsertQuery, feats: Features): seq<string>
    requires WellFormed(q)
  {
    [q.insertStatement + " " + Operations.QuoteName(q.table), "(" + Join(QuotedNames(ColumnNames(q, feats)), ", ") + ")"]
  }

  /** `SELECT <select list> FROM` over a field list, when a field is JSON. */
  function SelectWrapper(fields: seq<InsertField>): seq<string>
  {
    if HasJson(fields) then ["SELECT " + Join(SelectColumns(fields), ", ") + " FROM"] else []
  }

  /** A clause that is added only when it is not empty. */
  function NonEmpty(clause: string): seq<string>
  {
    if clause != "" then [clause] else []
  }

  /** `VALUES (<placeholders>)` of a single row. */
  function ValuesClause(placeholders: seq<string>): string
  {
    "VALUES (" + Join(placeholders, ", ") + ")"
  }

  const IndexError: string := "IndexError: list index out of range"

  /** The statements of `as_sql` (compiler.py:92-142) under a given SELECT
      wrapper: one statement with a RETURNING clause, one bulk statement, or
      one statement per object. */
  function Statements(q: InsertQuery, feats: Features, wrapper: seq<string>): Result<seq<Fragment>>
    requires WellFormed(q)
  {
    var rows := ValueRows(q, feats);
    var placeholders := seq(|rows|, o requires 0 <= o < |rows| => PlaceholderRow(rows[o]));
    var params := seq(|rows|, o requires 0 <= o < |rows| => ParamRow(rows[o]));
    var conflict := NonEmpty(q.onConflictSuffix);
    if q.returning && feats.canReturnColumnsFromInsert then
      if !feats.canReturnRowsFromBulkInsert && rows == [] then Err(IndexError)
      else
        var values := if feats.canReturnRowsFromBulkInsert then Operations.BulkInsertSql(placeholders) else ValuesClause(placeholders[0]);
        var bound := if feats.canReturnRowsFromBulkInsert then params else [params[0]];
        var returned := if q.returnSql != "" then [q.returnParams] else [];
        Ok([Fragment(Join(Header(q, feats) + [values] + conflict + NonEmpty(q.returnSql), " "), Flatten(bound + returned))])
    else if !q.returning && feats.hasBulkInsert then
      Ok([Fragment(Join(Header(q, feats) + wrapper + [Operations.BulkInsertSql(placeholders)] + conflict, " "), Flatten(params))])
    else
      Ok(seq(|rows|, o requires 0 <= o < |rows| =>
        Fragment(Join(Header(q, feats) + wrapper + conflict + [ValuesClause(placeholders[o])], " "), params[o])))
  }

  /** The statements with the SELECT list numbered over the fields that stay
      in the INSERT. */
  function InsertSql(q: InsertQuery, feats: Features): Result<seq<Fragment>>
    requires WellFormed(q)
  {
    Statements(q, feats, SelectWrapper(Prepare(q.fields, q.values, feats.supportsDefaultKeywordInBulkInsert).fields))
  }

  /** The statements as compiler.py:28-33 and 75-76 build them: the SELECT
      list is numbered over every field given, dropped ones included. */
  function InsertSqlAsWritten(q: InsertQuery, feats: Features): Result<seq<Fragment>>
    requires WellFormed(q)
  {
    Statements(q, feats, SelectWrapper(q.fields))
  }

  /** `SQLInsertCompiler.as_sql` (compiler.py:9-142), with the SELECT list
      numbered over the kept fields. The loop's own SELECT list and JSON flag,
      numbered over every field as compiler.py:28-33 builds them, are
      computed and deliberately not used (`InsertSqlAsWritten` uses them). */
  method AsSql(q: InsertQuery, feats: Features) returns (statements: Result<seq<Fragment>>)
    requires WellFormed(q)
    ensures statements == InsertSql(q, feats)
  {
    var result := [q.insertStatement + " " + Operations.QuoteName(q.table)];
    var wrapper: seq<string> := [];
    var rows: seq<seq<Value>>;
    if q.fields != [] {
      var kept, valueCols, fieldSelectColumns, hasJsonField :=
        PrepareColumns(q.fields, q.values, feats.supportsDefaultKeywordInBulkInsert);
      PrepareLengths(q.fields, q.values, feats.supportsDefaultKeywordInBulkInsert, q.objectCount);
      rows := Zip(valueCols, q.objectCount);
      var names := seq(|kept|, j requires 0 <= j < |kept| => kept[j].column);
      result := result + ["(" + Join(QuotedNames(names), ", ") + ")"];
      // the SELECT list refers to the columns of the VALUES rows, so it is
      // numbered over the kept fields
      if HasJson(kept) {
        wrapper := ["SELECT " + Join(SelectColumns(kept), ", ") + " FROM"];
      }
    } else {
      rows := seq(q.objectCount, o requires 0 <= o < q.objectCount => [Compiled(q.pkDefault, [])]);
      result := result + ["(" + Operations.QuoteName(q.pkColumn) + ")"];
      assert QuotedNames([q.pkColumn]) == [Operations.QuoteName(q.pkColumn)];
    }
    assert result == Header(q, feats);
    assert rows == ValueRows(q, feats);
    var placeholders := seq(|rows|, o requires 0 <= o < |rows| => PlaceholderRow(rows[o]));
    var params := seq(|rows|, o requires 0 <= o < |rows| => ParamRow(rows[o]));
    var conflict := NonEmpty(q.onConflictSuffix);
    ghost var header := result;
    if q.returning && feats.canReturnColumnsFromInsert {
      var bound: seq<seq<Param>>;
      if feats.canReturnRowsFromBulkInsert {
        result := result + [Operations.BulkInsertSql(placeholders)];
        bound := params;
      } else {
        if |placeholders| == 0 {
          return Err(IndexError);
        }
        result := result + [ValuesClause(placeholders[0])];
        bound := [params[0]];
      }
      ghost var values := result[2];
      assert result == header + [values];
      result := result + conflict;
      if q.returnSql != "" {
        result := result + [q.returnSql];
        bound := bound + [q.returnParams];
      } else {
        assert bound + [] == bound;
      }
      assert result == header + [values] + conflict + NonEmpty(q.returnSql);
      return Ok([Fragment(Join(result, " "), Flatten(bound))]);
    }
    result := result + wrapper;
    if !q.returning && feats.hasBulkInsert {
      result := result + [Operations.BulkInsertSql(placeholders)] + conflict;
      return Ok([Fragment(Join(result, " "), Flatten(params))]);
    }
    result := result + conflict;
    statements := Ok(seq(|rows|, o requires 0 <= o < |rows| =>
      Fragment(Join(result + [ValuesClause(placeholders[o])], " "), params[o])));
  }

  // ------------------------------------------------- what the statements hold

  /** One row per object, each with one value per column, and at least one
      column. */
  lemma ValueRowsShape(q: InsertQuery, feats: Features)
    requires WellFormed(q)
    ensures |ColumnNames(q, feats)| > 0
    ensures |ValueRows(q, feats)| == q.objectCount
    ensures forall o :: 0 <= o < q.objectCount ==> |ValueRows(q, feats)[o]| == |ColumnNames(q, feats)|
  {
    if q.fields != [] {
      PrepareSpec(q.fields, q.values, feats.supportsDefaultKeywordInBulkInsert);
    }
  }

  /** The compiler fails only when it must return the columns of a single
      row and there is no object; otherwise it gives one statement when it
      returns columns or inserts in bulk, and one statement per object
      otherwise. */
  lemma InsertSqlOutcome(q: InsertQuery, feats: Features)
    requires WellFormed(q)
    ensures InsertSql(q, feats).Err? <==>
      q.returning && feats.canReturnColumnsFromInsert && !feats.canReturnRowsFromBulkInsert && q.objectCount == 0
    ensures InsertSql(q, feats).Err? ==> InsertSql(q, feats).message == IndexError
    ensures InsertSql(q, feats).Ok? ==>
      |InsertSql(q, feats).value| == (if (q.returning && feats.canReturnColumnsFromInsert) || (!q.returning && feats.hasBulkInsert) then 1 else q.objectCount)
  {
    ValueRowsShape(q, feats);
  }

  /** The SQL of a value binds exactly its own parameters. */
  predicate ValueBalanced(v: Value)
  {
    Balanced(Cell(v))
  }

  /** The names and clauses the compiler writes verbatim hold no '%', the
      RETURNING clause binds its parameters, and so does every value. */
  predicate PercentSafe(q: InsertQuery)
  {
    '%' !in q.insertStatement && '%' !in q.table && '%' !in q.pkColumn && '%' !in q.pkDefault &&
    '%' !in q.onConflictSuffix && PlaceholderCount(q.returnSql) == Some(|q.returnParams|) &&
    (forall f :: 0 <= f < |q.fields| ==> '%' !in q.fields[f].column && ValueBalanced(q.fields[f].preparedDbDefault)) &&
    (forall f, o :: 0 <= f < |q.values| && 0 <= o < |q.values[f]| ==> ValueBalanced(q.values[f][o]))
  }

  /** Every value of every row binds its own parameters. */
  lemma ValueRowsBalanced(q: InsertQuery, feats: Features)
    requires WellFormed(q) && PercentSafe(q)
    ensures forall o, k :: 0 <= o < |ValueRows(q, feats)| && 0 <= k < |ValueRows(q, feats)[o]| ==>
      ValueBalanced(ValueRows(q, feats)[o][k])
  {
    ValueRowsShape(q, feats);
    var rows := ValueRows(q, feats);
    if q.fields == [] {
      NoPercentNoPlaceholder(q.pkDefault);
    } else {
      var sd := feats.supportsDefaultKeywordInBulkInsert;
      var p := Prepare(q.fields, q.values, sd);
      PrepareSpec(q.fields, q.values, sd);
      forall o, k | 0 <= o < |rows| && 0 <= k < |rows[o]| ensures ValueBalanced(rows[o][k]) {
        var at := p.positions[k];
        assert rows[o][k] == p.columns[k][o];
        assert p.columns[k] == KeptColumn(q.fields[at], q.values[at], sd);
        assert ValueBalanced(q.values[at][o]);
      }
    }
  }

  /** A row whose values bind their parameters: its placeholders, joined,
      bind the row's parameters. */
  lemma RowBalanced(row: seq<Value>)
    requires forall k :: 0 <= k < |row| ==> ValueBalanced(row[k])
    ensures PlaceholderCount(Join(PlaceholderRow(row), ", ")) == Some(|ParamRow(row)|)
  {
    var cells := seq(|row|, k requires 0 <= k < |row| => Cell(row[k]).params);
    JoinPlaceholders(PlaceholderRow(row), ", ", Lengths(cells));
    FlattenLength(cells);
  }

  /** `VALUES (...)` of a single row binds the row's parameters. */
  lemma ValuesClauseBalanced(row: seq<Value>)
    requires forall k :: 0 <= k < |row| ==> ValueBalanced(row[k])
    ensures PlaceholderCount(ValuesClause(PlaceholderRow(row))) == Some(|ParamRow(row)|)
  {
    RowBalanced(row);
    WrapBalanced("VALUES (", Join(PlaceholderRow(row), ", "), ")");
  }

  /** The bulk VALUES list binds every row's parameters. */
  lemma BulkBalanced(rows: seq<seq<Value>>)
    requires forall o, k :: 0 <= o < |rows| && 0 <= k < |rows[o]| ==> ValueBalanced(rows[o][k])
    ensures var placeholders := seq(|rows|, o requires 0 <= o < |rows| => PlaceholderRow(rows[o]));
      var params := seq(|rows|, o requires 0 <= o < |rows| => ParamRow(rows[o]));
      PlaceholderCount(Operations.BulkInsertSql(placeholders)) == Some(|Flatten(params)|)
  {
    var placeholders := seq(|rows|, o requires 0 <= o < |rows| => PlaceholderRow(rows[o]));
    var params := seq(|rows|, o requires 0 <= o < |rows| => ParamRow(rows[o]));
    var groups := Operations.RowGroups(placeholders);
    forall o | 0 <= o < |rows| ensures PlaceholderCount(groups[o]) == Some(Lengths(params)[o]) {
      RowBalanced(rows[o]);
      WrapBalanced("(", Join(placeholders[o], ", "), ")");
    }
    JoinPlaceholders(groups, ", ", Lengths(params));
    FlattenLength(params);
    WrapBalanced("VALUES ", Join(groups, ", "), "");
    assert "VALUES " + Join(groups, ", ") + "" == Operations.BulkInsertSql(placeholders);
  }

  predicate PercentFreeParts(parts: seq<string>)
  {
    forall i :: 0 <= i < |parts| ==> '%' !in parts[i]
  }

  lemma HeaderPercentFree(q: InsertQuery, feats: Features)
    requires WellFormed(q) && PercentSafe(q)
    ensures PercentFreeParts(Header(q, feats))
  {
    Operations.QuoteNamePercentFree(q.table);
    var names := ColumnNames(q, feats);
    if q.fields != [] {
      PrepareSpec(q.fields, q.values, feats.supportsDefaultKeywordInBulkInsert);
    }
    forall j | 0 <= j < |names| ensures '%' !in QuotedNames(names)[j] {
      Operations.QuoteNamePercentFree(names[j]);
    }
    JoinPercentFree(QuotedNames(names), ", ");
  }

  lemma SelectWrapperPercentFree(fields: seq<InsertField>)
    ensures PercentFreeParts(SelectWrapper(fields))
  {
    var columns := SelectColumns(fields);
    forall j | 0 <= j < |columns| ensures '%' !in columns[j] {
      NatToStringRoundTrip(j + 1);
      var digits := NatToString(j + 1);
      assert '%' !in digits by {
        forall i | 0 <= i < |digits| ensures digits[i] != '%' {
          assert IsDigit(digits[i]);
        }
      }
    }
    JoinPercentFree(columns, ", ");
  }

  /** '%'-free parts around one part that binds `n` parameters, joined. */
  lemma JoinAround(pre: seq<string>, x: string, post: seq<string>, n: nat)
    requires PercentFreeParts(pre) && PercentFreeParts(post) && PlaceholderCount(x) == Some(n)
    ensures PlaceholderCount(Join(pre + [x] + post, " ")) == Some(n)
  {
    var parts := pre + [x] + post;
    var counts := Zeros(|pre|) + [n] + Zeros(|post|);
    forall i | 0 <= i < |parts| ensures PlaceholderCount(parts[i]) == Some(counts[i]) {
      if i < |pre| {
        NoPercentNoPlaceholder(pre[i]);
      } else if i > |pre| {
        NoPercentNoPlaceholder(post[i - |pre| - 1]);
      }
    }
    JoinPlaceholders(parts, " ", counts);
    SumConcat(Zeros(|pre|) + [n], Zeros(|post|));
    SumConcat(Zeros(|pre|), [n]);
    SumZeros(|pre|);
    SumZeros(|post|);
    assert [n][1..] == [];
  }

  /** '%'-free parts around two parts that bind `n` and `m` parameters. */
  lemma JoinAroundTwo(pre: seq<string>, x: string, mid: seq<string>, y: string, n: nat, m: nat)
    requires PercentFreeParts(pre) && PercentFreeParts(mid)
    requires PlaceholderCount(x) == Some(n) && PlaceholderCount(y) == Some(m)
    ensures PlaceholderCount(Join(pre + [x] + mid + [y], " ")) == Some(n + m)
  {
    var parts := pre + [x] + mid + [y];
    var counts := Zeros(|pre|) + [n] + Zeros(|mid|) + [m];
    forall i | 0 <= i < |parts| ensures PlaceholderCount(parts[i]) == Some(counts[i]) {
      if i < |pre| {
        NoPercentNoPlaceholder(pre[i]);
      } else if |pre| < i < |pre| + 1 + |mid| {
        NoPercentNoPlaceholder(mid[i - |pre| - 1]);
      }
    }
    JoinPlaceholders(parts, " ", counts);
    SumConcat(Zeros(|pre|) + [n] + Zeros(|mid|), [m]);
    SumConcat(Zeros(|pre|) + [n], Zeros(|mid|));
    SumConcat(Zeros(|pre|), [n]);
    SumZeros(|pre|);
    SumZeros(|mid|);
    assert [n][1..] == [] && [m][1..] == [];
  }

  /** With a RETURNING clause, its parameters follow the VALUES parameters. */
  lemma ReturningPartsWithClause(header: seq<string>, values: string, bound: seq<seq<Param>>, conflict: seq<string>,
                                 returnSql: string, returnParams: seq<Param>)
    requires PercentFreeParts(header) && PercentFreeParts(conflict) && returnSql != ""
    requires PlaceholderCount(values) == Some(|Flatten(bound)|) && PlaceholderCount(returnSql) == Some(|returnParams|)
    ensures PlaceholderCount(Join(header + [values] + conflict + [returnSql], " ")) == Some(|Flatten(bound + [returnParams])|)
  {
    JoinAroundTwo(header, values, conflict, returnSql, |Flatten(bound)|, |returnParams|);
    FlattenConcat(bound, [returnParams]);
    assert Flatten([returnParams]) == returnParams + [] by {
      assert [returnParams][1..] == [];
    }
  }

  /** The parts of the RETURNING statement bind the VALUES parameters and
      then the RETURNING parameters. */
  lemma ReturningPartsBalanced(header: seq<string>, values: string, bound: seq<seq<Param>>, conflict: seq<string>,
                               returnSql: string, returnParams: seq<Param>)
    requires PercentFreeParts(header) && PercentFreeParts(conflict)
    requires PlaceholderCount(values) == Some(|Flatten(bound)|) && PlaceholderCount(returnSql) == Some(|returnParams|)
    ensures PlaceholderCount(Join(header + [values] + conflict + NonEmpty(returnSql), " ")) ==
      Some(|Flatten(bound + if returnSql != "" then [returnParams] else [])|)
  {
    if returnSql != "" {
      assert NonEmpty(returnSql) == [returnSql];
      ReturningPartsWithClause(header, values, bound, conflict, returnSql, returnParams);
    } else {
      assert NonEmpty(returnSql) == [];
      JoinAround(header, values, conflict, |Flatten(bound)|);
      assert bound + [] == bound;
      assert header + [values] + conflict + [] == header + [values] + conflict;
    }
  }

  /** The RETURNING statement binds exactly its parameters. */
  lemma ReturningBalanced(q: InsertQuery, feats: Features, wrapper: seq<string>)
    requires WellFormed(q) && PercentSafe(q)
    requires q.returning && feats.canReturnColumnsFromInsert
    ensures Statements(q, feats, wrapper).Ok? ==> Balanced(Statements(q, feats, wrapper).value[0])
  {
    var rows := ValueRows(q, feats);
    var placeholders := seq(|rows|, o requires 0 <= o < |rows| => PlaceholderRow(rows[o]));
    var params := seq(|rows|, o requires 0 <= o < |rows| => ParamRow(rows[o]));
    if feats.canReturnRowsFromBulkInsert || rows != [] {
      ValueRowsBalanced(q, feats);
      HeaderPercentFree(q, feats);
      var values := if feats.canReturnRowsFromBulkInsert then Operations.BulkInsertSql(placeholders) else ValuesClause(placeholders[0]);
      var bound := if feats.canReturnRowsFromBulkInsert then params else [params[0]];
      if feats.canReturnRowsFromBulkInsert {
        BulkBalanced(rows);
      } else {
        ValuesClauseBalanced(rows[0]);
        assert Flatten(bound) == params[0] + [] by {
          assert bound[1..] == [];
        }
      }
      ReturningPartsBalanced(Header(q, feats), values, bound, NonEmpty(q.onConflictSuffix), q.returnSql, q.returnParams);
    }
  }

  /** The bulk statement binds exactly its parameters. */
  lemma BulkStatementBalanced(q: InsertQuery, feats: Features, wrapper: seq<string>)
    requires WellFormed(q) && PercentSafe(q) && PercentFreeParts(wrapper)
    requires !q.returning && feats.hasBulkInsert
    ensures Balanced(Statements(q, feats, wrapper).value[0])
  {
    var rows := ValueRows(q, feats);
    var placeholders := seq(|rows|, o requires 0 <= o < |rows| => PlaceholderRow(rows[o]));
    var params := seq(|rows|, o requires 0 <= o < |rows| => ParamRow(rows[o]));
    ValueRowsBalanced(q, feats);
    HeaderPercentFree(q, feats);
    BulkBalanced(rows);
    JoinAround(Header(q, feats) + wrapper, Operations.BulkInsertSql(placeholders), NonEmpty(q.onConflictSuffix), |Flatten(params)|);
  }

  /** Each per-object statement binds exactly its parameters. */
  lemma RowStatementsBalanced(q: InsertQuery, feats: Features, wrapper: seq<string>)
    requires WellFormed(q) && PercentSafe(q) && PercentFreeParts(wrapper)
    requires !(q.returning && feats.canReturnColumnsFromInsert) && !(!q.returning && feats.hasBulkInsert)
    ensures forall k :: 0 <= k < |Statements(q, feats, wrapper).value| ==> Balanced(Statements(q, feats, wrapper).value[k])
  {
    var rows := ValueRows(q, feats);
    var placeholders := seq(|rows|, o requires 0 <= o < |rows| => PlaceholderRow(rows[o]));
    var params := seq(|rows|, o requires 0 <= o < |rows| => ParamRow(rows[o]));
    var prefix := Header(q, feats) + wrapper + NonEmpty(q.onConflictSuffix);
    ValueRowsBalanced(q, feats);
    HeaderPercentFree(q, feats);
    forall o | 0 <= o < |rows|
      ensures PlaceholderCount(Join(prefix + [ValuesClause(placeholders[o])], " ")) == Some(|params[o]|)
    {
      ValuesClauseBalanced(rows[o]);
      JoinAround(prefix, ValuesClause(placeholders[o]), [], |params[o]|);
      assert prefix + [ValuesClause(placeholders[o])] + [] == prefix + [ValuesClause(placeholders[o])];
    }
  }

  /** Under a '%'-free SELECT wrapper every statement binds exactly its
      parameters. */
  lemma StatementsBalanced(q: InsertQuery, feats: Features, wrapper: seq<string>)
    requires WellFormed(q) && PercentSafe(q) && PercentFreeParts(wrapper)
    ensures Statements(q, feats, wrapper).Ok? ==>
      forall k :: 0 <= k < |Statements(q, feats, wrapper).value| ==> Balanced(Statements(q, feats, wrapper).value[k])
  {
    if q.returning && feats.canReturnColumnsFromInsert {
      ReturningBalanced(q, feats, wrapper);
    } else if !q.returning && feats.hasBulkInsert {
      BulkStatementBalanced(q, feats, wrapper);
    } else {
      RowStatementsBalanced(q, feats, wrapper);
    }
  }

  /** Every statement the compiler gives binds exactly as many parameters
      as it has placeholders, whatever the branch. */
  lemma InsertSqlBalanced(q: InsertQuery, feats: Features)
    requires WellFormed(q) && PercentSafe(q)
    ensures InsertSql(q, feats).Ok? ==>
      forall k :: 0 <= k < |InsertSql(q, feats).value| ==> Balanced(InsertSql(q, feats).value[k])
  {
    SelectWrapperPercentFree(Prepare(q.fields, q.values, feats.supportsDefaultKeywordInBulkInsert).fields);
    StatementsBalanced(q, feats, SelectWrapper(Prepare(q.fields, q.values, feats.supportsDefaultKeywordInBulkInsert).fields));
  }

  // ------------------------------------------------------ the SELECT list

  /** The SELECT list of the compiler refers to the VALUES rows column by
      column: it has one entry per column of every row, entry `j` is `$j+1`
      of the `j`-th kept field, inside `parse_json` exactly when that field
      is a JSONField, and the wrapper is there exactly when a kept field is
      a JSONField. */
  lemma SelectWrapperAligned(q: InsertQuery, feats: Features)
    requires WellFormed(q) && q.fields != []
    ensures var kept := Prepare(q.fields, q.values, feats.supportsDefaultKeywordInBulkInsert).fields;
      |SelectColumns(kept)| == |ColumnNames(q, feats)| &&
      (forall o :: 0 <= o < |ValueRows(q, feats)| ==> |ValueRows(q, feats)[o]| == |SelectColumns(kept)|) &&
      (forall j :: 0 <= j < |kept| ==>
         ColumnNames(q, feats)[j] == kept[j].column &&
         SelectColumns(kept)[j] == (if kept[j].isJson then ParsedValuesColumn(j + 1) else ValuesColumn(j + 1))) &&
      (|SelectWrapper(kept)| == 1 <==> exists j :: 0 <= j < |kept| && kept[j].isJson)
  {
    ValueRowsShape(q, feats);
  }

  /** A strictly increasing sequence of `n` positions below `n` is 0, 1, ...,
      n - 1: from below ... */
  lemma {:induction false} IncreasingFromBelow(ps: seq<nat>, j: nat)
    requires forall j1, j2 :: 0 <= j1 < j2 < |ps| ==> ps[j1] < ps[j2]
    requires j < |ps|
    ensures ps[j] >= j
    decreases j
  {
    if j > 0 {
      IncreasingFromBelow(ps, j - 1);
    }
  }

  /** ... and from above. */
  lemma {:induction false} IncreasingFromAbove(ps: seq<nat>, j: nat)
    requires forall j1, j2 :: 0 <= j1 < j2 < |ps| ==> ps[j1] < ps[j2]
    requires forall i :: 0 <= i < |ps| ==> ps[i] < |ps|
    requires j < |ps|
    ensures ps[j] <= j
    decreases |ps| - j
  {
    if j + 1 < |ps| {
      IncreasingFromAbove(ps, j + 1);
    }
  }

  /** A preparation that drops no field keeps the field list as it is. */
  lemma PrepareKeepsAll(fields: seq<InsertField>, values: seq<seq<Value>>, supportsDefault: bool)
    requires |values| == |fields|
    requires |Prepare(fields, values, supportsDefault).fields| == |fields|
    ensures Prepare(fields, values, supportsDefault).fields == fields
  {
    var p := Prepare(fields, values, supportsDefault);
    PrepareSpec(fields, values, supportsDefault);
    var ps := p.positions;
    assert |ps| == |fields|;
    assert forall i :: 0 <= i < |ps| ==> ps[i] < |ps|;
    assert forall j1, j2 :: 0 <= j1 < j2 < |ps| ==> ps[j1] < ps[j2];
    forall j | 0 <= j < |fields| ensures p.fields[j] == fields[j] {
      IncreasingFromBelow(ps, j);
      IncreasingFromAbove(ps, j);
      assert ps[j] == j;
    }
  }

  /** When no field is dropped the statements as written and the corrected
      ones are the same. */
  lemma AsWrittenAgreesWithoutDrops(q: InsertQuery, feats: Features)
    requires WellFormed(q)
    requires |Prepare(q.fields, q.values, feats.supportsDefaultKeywordInBulkInsert).fields| == |q.fields|
    ensures InsertSqlAsWritten(q, feats) == InsertSql(q, feats)
  {
    PrepareKeepsAll(q.fields, q.values, feats.supportsDefaultKeywordInBulkInsert);
  }

  /** A field with a db default whose one value is DEFAULT, followed by a
      JSONField. */
  const WitnessFields: seq<InsertField> :=
    [InsertField("created", false, true, Compiled("CURRENT_TIMESTAMP()", [])),
     InsertField("data", true, false, DatabaseDefault)]

  const WitnessValues: seq<seq<Value>> := [[DatabaseDefault], [Compiled("%s", [Str("{}")])]]

  const WitnessQuery: InsertQuery :=
    InsertQuery("INSERT INTO", "t", "id", WitnessFields, WitnessValues, 1, "DEFAULT", false, "", "", [])

  const WitnessFeatures: Features := Features(true, true, false, false)

  /** The first field is dropped, the JSONField kept. */
  lemma WitnessPrepare()
    ensures Prepare(WitnessFields, WitnessValues, true).fields == [WitnessFields[1]]
  {
    var fields := WitnessFields;
    var values := WitnessValues;
    assert AllDefault(values[0]) by {
      assert values[0][1..] == [];
    }
    var p0 := PrepareUpTo(fields, values, true, 0);
    assert p0 == Progress(Prepared([], [], []), fields);
    assert Drops(fields[0], values[0], |p0.list|);
    var p1 := PrepareUpTo(fields, values, true, 1);
    assert p1.done == Prepared([], [], []);
    assert p1.list == [fields[1]];
    assert !Drops(fields[1], values[1], |p1.list|);
    PrepareUpToKeep(fields, values, true, 1);
  }

  /** The SELECT lists over every field and over the kept one. */
  lemma WitnessColumns()
    ensures SelectColumns(WitnessFields) == ["$1", "parse_json($2)"]
    ensures SelectColumns([WitnessFields[1]]) == ["parse_json($1)"]
    ensures HasJson(WitnessFields) && HasJson([WitnessFields[1]])
  {
    var fields := WitnessFields;
    var kept := [fields[1]];
    assert DigitChar(1) == '1' && DigitChar(2) == '2';
    assert NatToString(1) == "1" && NatToString(2) == "2";
    assert SelectColumn(1, fields[0]) == "$1";
    assert SelectColumn(2, fields[1]) == "parse_json($2)";
    assert SelectColumn(1, kept[0]) == "parse_json($1)";
    assert fields[1].isJson && kept[0].isJson;
  }

  /** The SELECT wrapper over every witness field. */
  lemma WitnessWrapperAll()
    ensures SelectWrapper(WitnessFields) == ["SELECT $1, parse_json($2) FROM"]
  {
    WitnessColumns();
    var cols := SelectColumns(WitnessFields);
    assert cols[1..] == ["parse_json($2)"];
    assert Join(cols, ", ") == "$1" + ", " + "parse_json($2)";
    assert "SELECT " + ("$1" + ", " + "parse_json($2)") + " FROM" == "SELECT $1, parse_json($2) FROM";
  }

  /** The SELECT wrapper over the kept witness field. */
  lemma WitnessWrapperKept()
    ensures SelectWrapper([WitnessFields[1]]) == ["SELECT parse_json($1) FROM"]
  {
    WitnessColumns();
    assert Join(SelectColumns([WitnessFields[1]]), ", ") == "parse_json($1)";
    assert "SELECT " + "parse_json($1)" + " FROM" == "SELECT parse_json($1) FROM";
  }

  /** The INSERT of the witness has the single column `data`. */
  lemma WitnessShape()
    ensures WellFormed(WitnessQuery)
    ensures ColumnNames(WitnessQuery, WitnessFeatures) == ["data"]
    ensures |ValueRows(WitnessQuery, WitnessFeatures)| == 1 && |ValueRows(WitnessQuery, WitnessFeatures)[0]| == 1
  {
    var q := WitnessQuery;
    assert q.fields == WitnessFields && q.values == WitnessValues;
    assert WellFormed(q);
    WitnessPrepare();
    ValueRowsShape(q, WitnessFeatures);
  }

  /** As written, the SELECT list refers to `$2` although the VALUES rows
      have a single column (`WitnessShape`), because the dropped field keeps
      its number (`WitnessColumns`); the corrected list refers to `$1`, and
      the statements differ. */
  lemma AsWrittenSelectMisnumbered()
    ensures WellFormed(WitnessQuery)
    ensures InsertSqlAsWritten(WitnessQuery, WitnessFeatures) != InsertSql(WitnessQuery, WitnessFeatures)
  {
    WitnessShape();
    WitnessPrepare();
    WitnessWrapperAll();
    WitnessWrapperKept();
    var wrong := SelectWrapper(WitnessFields);
    var right := SelectWrapper([WitnessFields[1]]);
    assert wrong[0][7] == '$' && right[0][7] == 'p';
    StatementsDifferByWrapper(WitnessQuery, WitnessFeatures, wrong, right, 7);
  }

  /** With a bulk insert and no RETURNING, the one statement holds the
      SELECT wrapper right after the header and a space. */
  lemma BulkStatementHoldsWrapper(q: InsertQuery, feats: Features, w: seq<string>)
    requires WellFormed(q) && !q.returning && feats.hasBulkInsert && |w| == 1
    ensures Statements(q, feats, w).Ok? && |Statements(q, feats, w).value| == 1
    ensures var h := |Join(Header(q, feats), " ") + " "|;
      var s := Statements(q, feats, w).value[0].sql;
      h + |w[0]| <= |s| && s[h..h + |w[0]|] == w[0]
  {
    var header := Header(q, feats);
    var rows := ValueRows(q, feats);
    var placeholders := seq(|rows|, o requires 0 <= o < |rows| => PlaceholderRow(rows[o]));
    var tail := [Operations.BulkInsertSql(placeholders)] + NonEmpty(q.onConflictSuffix);
    var params := seq(|rows|, o requires 0 <= o < |rows| => ParamRow(rows[o]));
    var parts := header + w + [Operations.BulkInsertSql(placeholders)] + NonEmpty(q.onConflictSuffix);
    assert Statements(q, feats, w) == Ok([Fragment(Join(parts, " "), Flatten(params))]);
    assert parts == header + (w + tail);
    var s := Join(header + (w + tail), " ");
    JoinConcatParts(header, w + tail, " ");
    JoinConcatParts(w, tail, " ");
    var h := Join(header, " ") + " ";
    assert s == h + (w[0] + " " + Join(tail, " "));
  }

  /** With a bulk insert and no RETURNING, SELECT wrappers that differ at
      some position give different statements. */
  lemma StatementsDifferByWrapper(q: InsertQuery, feats: Features, w1: seq<string>, w2: seq<string>, k: nat)
    requires WellFormed(q) && !q.returning && feats.hasBulkInsert
    requires |w1| == |w2| == 1 && k < |w1[0]| && k < |w2[0]| && w1[0][k] != w2[0][k]
    ensures Statements(q, feats, w1) != Statements(q, feats, w2)
  {
    BulkStatementHoldsWrapper(q, feats, w1);
    BulkStatementHoldsWrapper(q, feats, w2);
    var h := |Join(Header(q, feats), " ") + " "|;
    var s1 := Statements(q, feats, w1).value[0].sql;
    var s2 := Statements(q, feats, w2).value[0].sql;
    assert s1[h + k] == w1[0][k];
    assert s2[h + k] == w2[0][k];
  }
}
