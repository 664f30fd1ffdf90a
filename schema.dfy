/** The schema editor of django_snowflake (django_snowflake/schema.py): the
    column definition of a field, the ordered statements that add a column,
    the auto-field rule applied after a column is altered, and the
    operations Snowflake turns into no-ops. Statements are recorded in the
    order the editor executes them; Django's statement templates
    (`sql_create_column`, `sql_alter_column`, ...) are kept as the typed
    statements they are filled into. */
module Schema {
  import opened Common
  import opened FieldKinds
  import Base
  import Operations

  /** The foreign-key target of a field whose `db_constraint` is set, with
      the constraint name Django's `_fk_constraint_name` chose. */
  datatype ForeignKeyTarget = ForeignKeyTarget(constraintName: string, toTable: string, toColumn: string)

  /** What the editor reads of a model field. `dbType` is
      `db_parameters(connection)["type"]`, None for a field without a
      column; `collation` is `db_collation`, None when the field has none;
      `effectiveDefault` is `effective_default(field)`, `NoneValue` for None. */
  datatype Field = Field(
    name: string, column: string, kind: FieldKind,
    dbType: Option<string>, collation: Option<string>,
    nullable: bool, primaryKey: bool, unique: bool,
    autoCreatedManyToMany: bool,
    foreignKey: Option<ForeignKeyTarget>,
    effectiveDefault: Param)

  /** A change inside `ALTER TABLE <table> ...`. */
  datatype ColumnChange =
    | SetNotNull(column: string, dbType: string)
    | DropDefault(column: string)

  /** An executed statement; table and column names are quoted. */
  datatype Statement =
    | AddColumn(table: string, column: string, definition: string, params: seq<Param>)
    | Update(sql: string, params: seq<Param>)
    | AlterColumn(table: string, change: ColumnChange)

  // ------------------------------------------------------------ column_sql

  /** `_collate_sql` (schema.py:101-103): the collation in single quotes. */
  function CollateSql(collation: string): (r: string)
    ensures StartsWith(r, " COLLATE '") && EndsWith(r, "'")
    ensures |r| == |collation| + 11 && r[10..|r| - 1] == collation
  {
    var r := " COLLATE '" + collation + "'";
    assert r[..10] == " COLLATE '";
    assert r[|r| - 1..] == "'";
    assert r[10..|r| - 1] == collation;
    r
  }

  /** An optional clause: its text when present, else nothing. */
  function Clause(present: bool, text: string): string
  {
    if present then text else ""
  }

  /** The column definition `column_sql` builds: the type, then the
      collation, NOT NULL, PRIMARY KEY and UNIQUE clauses that apply. */
  function ColumnDefinition(field: Field, excludeNotNull: bool): (r: Option<Fragment>)
    ensures r.None? <==> field.dbType.None?
    ensures r.Some? ==> r.value.params == [] && StartsWith(r.value.sql, field.dbType.value)
  {
    if field.dbType.None? then None
    else
      var collate := Clause(Truthy(field.collation), if field.collation.Some? then CollateSql(field.collation.value) else "");
      var sql := field.dbType.value + collate + Clause(!field.nullable && !excludeNotNull, " NOT NULL")
                 + Clause(field.primaryKey, " PRIMARY KEY") + Clause(field.unique, " UNIQUE");
      StartsWithConcat(field.dbType.value, sql[|field.dbType.value|..]);
      assert sql == field.dbType.value + sql[|field.dbType.value|..];
      Some(Fragment(sql, []))
  }

  /** `column_sql` (schema.py:83-99). */
  method ColumnSql(field: Field, excludeNotNull: bool) returns (r: Option<Fragment>)
    ensures r == ColumnDefinition(field, excludeNotNull)
  {
    if field.dbType.None? {
      return None;
    }
    var sql := field.dbType.value;
    if Truthy(field.collation) {
      sql := sql + CollateSql(field.collation.value);
    } else {
      assert sql + "" == sql;
    }
    if !field.nullable && !excludeNotNull {
      sql := sql + " NOT NULL";
    } else {
      assert sql + "" == sql;
    }
    if field.primaryKey {
      sql := sql + " PRIMARY KEY";
    } else {
      assert sql + "" == sql;
    }
    if field.unique {
      sql := sql + " UNIQUE";
    } else {
      assert sql + "" == sql;
    }
    return Some(Fragment(sql, []));
  }

  /** The definition text of a field that has a column. */
  function DefinitionText(field: Field, excludeNotNull: bool): string
    requires field.dbType.Some?
  {
    ColumnDefinition(field, excludeNotNull).value.sql
  }

  /** The definition text is the type followed by the four optional
      clauses, in this order. */
  lemma DefinitionClauses(field: Field, excludeNotNull: bool)
    requires field.dbType.Some?
    ensures DefinitionText(field, excludeNotNull) ==
      field.dbType.value
      + Clause(Truthy(field.collation), if field.collation.Some? then CollateSql(field.collation.value) else "")
      + Clause(!field.nullable && !excludeNotNull, " NOT NULL")
      + Clause(field.primaryKey, " PRIMARY KEY") + Clause(field.unique, " UNIQUE")
  {
  }

  /** With no clause applying the definition is the type alone, and a
      truthy collation alone follows the type. */
  lemma DefinitionBare(field: Field, c: string)
    requires field.dbType.Some?
    ensures var bare := field.(collation := None, nullable := true, primaryKey := false, unique := false);
      DefinitionText(bare, false) == field.dbType.value &&
      (c != "" ==> DefinitionText(bare.(collation := Some(c)), false) == field.dbType.value + " COLLATE '" + c + "'")
  {
    var t := field.dbType.value;
    var bare := field.(collation := None, nullable := true, primaryKey := false, unique := false);
    DefinitionClauses(bare, false);
    assert t + "" + "" + "" + "" == t;
    if c != "" {
      DefinitionClauses(bare.(collation := Some(c)), false);
      var k := CollateSql(c);
      assert t + k + "" + "" + "" == t + k;
    }
  }

  /** NOT NULL follows the collation: it is inserted right after it. */
  lemma DefinitionNotNull(field: Field)
    requires field.dbType.Some?
    ensures var f := field.(nullable := true, primaryKey := false, unique := false);
      DefinitionText(f.(nullable := false), false) == DefinitionText(f, false) + " NOT NULL"
  {
    var f := field.(nullable := true, primaryKey := false, unique := false);
    DefinitionClauses(f, false);
    DefinitionClauses(f.(nullable := false), false);
    var head := field.dbType.value + Clause(Truthy(field.collation), if field.collation.Some? then CollateSql(field.collation.value) else "");
    assert DefinitionText(f, false) == head + "" + "" + "";
    assert DefinitionText(f.(nullable := false), false) == head + " NOT NULL" + "" + "";
  }

  /** PRIMARY KEY follows NOT NULL. */
  lemma DefinitionPrimaryKey(field: Field)
    requires field.dbType.Some?
    ensures var f := field.(primaryKey := false, unique := false);
      DefinitionText(f.(primaryKey := true), false) == DefinitionText(f, false) + " PRIMARY KEY"
  {
    var f := field.(primaryKey := false, unique := false);
    DefinitionClauses(f, false);
    DefinitionClauses(f.(primaryKey := true), false);
    var head := field.dbType.value + Clause(Truthy(field.collation), if field.collation.Some? then CollateSql(field.collation.value) else "")
      + Clause(!field.nullable, " NOT NULL");
    assert DefinitionText(f, false) == head + "" + "";
    assert DefinitionText(f.(primaryKey := true), false) == head + " PRIMARY KEY" + "";
  }

  /** UNIQUE comes last. */
  lemma DefinitionUnique(field: Field)
    requires field.dbType.Some?
    ensures var f := field.(unique := false);
      DefinitionText(f.(unique := true), false) == DefinitionText(f, false) + " UNIQUE"
  {
    var f := field.(unique := false);
    DefinitionClauses(f, false);
    DefinitionClauses(f.(unique := true), false);
    var head := field.dbType.value + Clause(Truthy(field.collation), if field.collation.Some? then CollateSql(field.collation.value) else "")
      + Clause(!field.nullable, " NOT NULL") + Clause(field.primaryKey, " PRIMARY KEY");
    assert DefinitionText(f, false) == head + "";
  }

  /** NOT NULL is left out for a nullable field and whenever it is
      excluded: excluding it is the same as declaring the field nullable. */
  lemma ExcludeNotNull(field: Field)
    ensures ColumnDefinition(field, true) == ColumnDefinition(field.(nullable := true), false)
    ensures field.nullable ==> ColumnDefinition(field, true) == ColumnDefinition(field, false)
  {
  }

  // ------------------------------------------------------------- add_field

  /** `sql_create_column_inline_fk` (schema.py:6-8) filled in. */
  function InlineForeignKey(target: ForeignKeyTarget): string
  {
    "CONSTRAINT " + target.constraintName + " FOREIGN KEY REFERENCES "
    + Operations.QuoteName(target.toTable) + "(" + Operations.QuoteName(target.toColumn) + ")"
  }

  /** The `UPDATE` that fills existing rows with the default (schema.py:62-65):
      `%%s` survives the name interpolation as the one placeholder. */
  function UpdateSql(table: string, column: string): string
  {
    "UPDATE " + Operations.QuoteName(table) + " SET " + Operations.QuoteName(column) + "=%s"
  }

  lemma UpdateSqlBalanced(table: string, column: string, value: Param)
    requires '%' !in Operations.QuoteName(table) && '%' !in Operations.QuoteName(column)
    ensures Balanced(Fragment(UpdateSql(table, column), [value]))
  {
    var pre := "UPDATE " + Operations.QuoteName(table) + " SET " + Operations.QuoteName(column) + "=";
    assert '%' !in pre;
    LiteralThenPlaceholder(pre);
    assert UpdateSql(table, column) == pre + "%s";
  }

  /** The definition `add_field` adds: the column's definition without
      NOT NULL, followed by the inline foreign key when there is one. */
  function AddedDefinition(field: Field): string
    requires field.dbType.Some?
  {
    DefinitionText(field, true) + (if field.foreignKey.Some? then " " + InlineForeignKey(field.foreignKey.value) else "")
  }

  function DefaultUpdates(table: string, field: Field): seq<Statement>
  {
    if field.effectiveDefault != NoneValue then [Update(UpdateSql(table, field.column), [field.effectiveDefault])] else []
  }

  function NotNullChanges(table: string, field: Field): seq<Statement>
    requires field.dbType.Some?
  {
    if !field.nullable then [AlterColumn(Operations.QuoteName(table), SetNotNull(Operations.QuoteName(field.column), field.dbType.value))] else []
  }

  /** The statements `add_field` executes. */
  function AddFieldStatements(table: string, field: Field): seq<Statement>
  {
    if field.autoCreatedManyToMany || field.dbType.None? then []
    else
      [AddColumn(Operations.QuoteName(table), Operations.QuoteName(field.column), AddedDefinition(field), [])]
      + DefaultUpdates(table, field) + NotNullChanges(table, field)
  }

  /** The column is added first, without NOT NULL and with the inline
      foreign key; an UPDATE with the default as its one parameter follows
      exactly when the default is not None; SET NOT NULL comes last exactly
      when the field is not nullable. A field without a column, and an
      automatically created many-to-many table, add nothing here. */
  lemma AddFieldSequence(table: string, field: Field)
    ensures field.autoCreatedManyToMany || field.dbType.None? ==> AddFieldStatements(table, field) == []
    ensures !field.autoCreatedManyToMany && field.dbType.Some? ==>
      var s := AddFieldStatements(table, field);
      var hasDefault := field.effectiveDefault != NoneValue;
      |s| == 1 + (if hasDefault then 1 else 0) + (if field.nullable then 0 else 1) &&
      s[0].AddColumn? && s[0].params == [] &&
      StartsWith(s[0].definition, DefinitionText(field.(nullable := true), false)) &&
      (field.foreignKey.Some? ==> EndsWith(s[0].definition, " " + InlineForeignKey(field.foreignKey.value))) &&
      (hasDefault <==> |s| > 1 && s[1].Update?) &&
      (hasDefault ==> s[1] == Update(UpdateSql(table, field.column), [field.effectiveDefault])) &&
      (!field.nullable <==> s[|s| - 1].AlterColumn?) &&
      (!field.nullable ==> s[|s| - 1].change == SetNotNull(Operations.QuoteName(field.column), field.dbType.value))
  {
    if !field.autoCreatedManyToMany && field.dbType.Some? {
      var base := DefinitionText(field, true);
      var fk := if field.foreignKey.Some? then " " + InlineForeignKey(field.foreignKey.value) else "";
      ExcludeNotNull(field);
      StartsWithConcat(base, fk);
      if field.foreignKey.Some? {
        EndsWithConcat(base, fk);
      }
    }
  }

  /** The statements `add_field` executes, from its three steps. */
  lemma AddFieldParts(table: string, field: Field, add: Statement, updates: seq<Statement>, notNull: seq<Statement>)
    requires !field.autoCreatedManyToMany && field.dbType.Some?
    requires add == AddColumn(Operations.QuoteName(table), Operations.QuoteName(field.column),
      ColumnDefinition(field, true).value.sql
      + (if field.foreignKey.Some? then " " + InlineForeignKey(field.foreignKey.value) else ""),
      ColumnDefinition(field, true).value.params)
    requires updates == DefaultUpdates(table, field) && notNull == NotNullChanges(table, field)
    ensures AddFieldStatements(table, field) == [add] + updates + notNull
  {
  }

  /** The editor, with the statements it has executed. */
  class SchemaEditor {
    var executed: seq<Statement>

    constructor()
      ensures executed == []
    {
      executed := [];
    }

    /** `add_field` (schema.py:29-81). An automatically created many-to-many
        table is handed to `create_model`, which is not part of this model:
        the method then reports that and executes nothing itself. */
    method AddField(table: string, field: Field) returns (createsThroughTable: bool)
      modifies this
      ensures createsThroughTable == field.autoCreatedManyToMany
      ensures executed == old(executed) + AddFieldStatements(table, field)
    {
      if field.autoCreatedManyToMany {
        return true;
      }
      createsThroughTable := false;
      var columnSql := ColumnSql(field, true);
      if columnSql.None? {
        return;
      }
      var definition := columnSql.value.sql;
      if field.foreignKey.Some? {
        definition := definition + " " + InlineForeignKey(field.foreignKey.value);
      } else {
        assert definition + "" == definition;
      }
      var quotedTable := Operations.QuoteName(table);
      var quotedColumn := Operations.QuoteName(field.column);
      var add := AddColumn(quotedTable, quotedColumn, definition, columnSql.value.params);
      var updates: seq<Statement> := [];
      if field.effectiveDefault != NoneValue {
        updates := [Update(UpdateSql(table, field.column), [field.effectiveDefault])];
      }
      var notNull: seq<Statement> := [];
      if !field.nullable {
        notNull := [AlterColumn(quotedTable, SetNotNull(quotedColumn, field.dbType.value))];
      }
      AddFieldParts(table, field, add, updates, notNull);
      executed := executed + [add] + updates + notNull;
    }

    /** `_alter_field` (schema.py:105-131): Django's own alteration runs
        first (its statements are `inherited`), then the corrected auto-field
        rule, with the auto kinds taken from the AUTOINCREMENT entries of the
        type table. schema.py:111 reads them from `data_types_suffix`, which
        this backend leaves empty, so as written the rule never fires
        (`AutoFieldRuleAsWritten`). */
    method AlterField(table: string, oldField: Field, newField: Field, inherited: seq<Statement>)
      returns (error: Option<string>)
      modifies this
      ensures error == AutoFieldRule(AutoFieldNames, table, oldField, newField).error
      ensures executed == old(executed) + inherited + AutoFieldRule(AutoFieldNames, table, oldField, newField).statements
    {
      executed := executed + inherited;
      var oldType := KindName(oldField.kind);
      var newType := KindName(newField.kind);
      if oldType !in AutoFieldNames && newType in AutoFieldNames {
        return Some(NotSupported(oldField.name, newType));
      }
      error := None;
      if oldType in AutoFieldNames && newType !in AutoFieldNames {
        executed := executed + [AlterColumn(Operations.QuoteName(table), DropDefault(Operations.QuoteName(newField.column)))];
      }
    }

    /** `add_index`, `remove_index` and `alter_index_together`
        (schema.py:20-27) execute nothing. */
    method AddIndex()
      modifies this
      ensures executed == old(executed)
    {
    }

    method RemoveIndex()
      modifies this
      ensures executed == old(executed)
    {
    }

    method AlterIndexTogether()
      modifies this
      ensures executed == old(executed)
    {
    }
  }

  // ---------------------------------------------------- the auto-field rule

  /** What the auto-field rule adds after Django's alteration: an error, or
      the statements it executes. */
  datatype RuleOutcome = RuleOutcome(error: Option<string>, statements: seq<Statement>)

  function NotSupported(fieldName: string, fieldType: string): string
  {
    "NotSupportedError: Changing field " + fieldName + " to " + fieldType + " isn't supported."
  }

  /** The rule of schema.py:111-131 for a given set of auto-field type names. */
  function AutoFieldRule(autoFields: set<string>, table: string, oldField: Field, newField: Field): RuleOutcome
  {
    var oldType := KindName(oldField.kind);
    var newType := KindName(newField.kind);
    if oldType !in autoFields && newType in autoFields then
      RuleOutcome(Some(NotSupported(oldField.name, newType)), [])
    else if oldType in autoFields && newType !in autoFields then
      RuleOutcome(None, [AlterColumn(Operations.QuoteName(table), DropDefault(Operations.QuoteName(newField.column)))])
    else RuleOutcome(None, [])
  }

  /** The keys of `connection.data_types_suffix` as the code reads them:
      the backend does not define the table, so Django's default, the empty
      dictionary, applies. */
  const DataTypesSuffixKeys: set<string> := {}

  /** As written, the rule can never fire: no alteration is rejected and no
      default is dropped. */
  lemma AutoFieldRuleAsWritten(table: string, oldField: Field, newField: Field)
    ensures AutoFieldRule(DataTypesSuffixKeys, table, oldField, newField) == RuleOutcome(None, [])
  {
  }

  /** The type names of the kinds whose column is an identity column. */
  const AutoFieldNames: set<string> := {"AutoField", "BigAutoField", "SmallAutoField"}

  /** These are exactly the names of the kinds that the type table maps to
      an AUTOINCREMENT column. */
  lemma AutoFieldNamesMatchTypeTable(k: FieldKind)
    requires !k.Other?
    ensures KindName(k) in AutoFieldNames <==> Base.DataTypeTemplate(k) == Some(Base.AutoIncrement)
    ensures KindName(k) in AutoFieldNames <==> IsAutoKind(k)
  {
  }

  /** With the auto kinds, changing a field to an auto kind from another
      kind is rejected, naming the field and the new type; changing an auto
      kind to another kind drops the column default; any other change adds
      nothing. */
  lemma AutoFieldRuleSpec(table: string, oldField: Field, newField: Field)
    requires !oldField.kind.Other? && !newField.kind.Other?
    ensures var r := AutoFieldRule(AutoFieldNames, table, oldField, newField);
      (r.error.Some? <==> !IsAutoKind(oldField.kind) && IsAutoKind(newField.kind)) &&
      (r.error.Some? ==> r.error.value == NotSupported(oldField.name, KindName(newField.kind)) && r.statements == []) &&
      (r.statements != [] <==> IsAutoKind(oldField.kind) && !IsAutoKind(newField.kind)) &&
      (r.statements != [] ==> r.statements == [AlterColumn(Operations.QuoteName(table), DropDefault(Operations.QuoteName(newField.column)))])
  {
    AutoFieldNamesMatchTypeTable(oldField.kind);
    AutoFieldNamesMatchTypeTable(newField.kind);
  }

  // ------------------------------------------------- constant behaviour

  /** `_create_index_sql`, `_model_indexes_sql` and `_field_indexes_sql`
      (schema.py:10-18): Snowflake has no indexes. */
  function CreateIndexSql(): string { "" }
  function ModelIndexesSql(): seq<string> { [] }
  function FieldIndexesSql(): seq<string> { [] }

  /** `skip_default_on_alter` (schema.py:137-139). */
  predicate SkipDefaultOnAlter(field: Field) { true }

  /** `quote_value` (schema.py:133-135): `str(value)`. */
  function QuoteValue(value: Param): string
  {
    PyStr(value)
  }

  /** `quote_value` does not quote: a string is returned verbatim, and an
      integer as its decimal digits, which read back as the integer. */
  lemma QuoteValueSpec(value: Param)
    ensures value.Str? ==> QuoteValue(value) == value.s
    ensures value.Int? && value.i >= 0 ==> AllDigits(QuoteValue(value)) && DigitsValue(QuoteValue(value)) == value.i
    ensures value.NoneValue? ==> QuoteValue(value) == "None"
  {
    if value.Int? && value.i >= 0 {
      NatToStringRoundTrip(value.i);
    }
  }
}
