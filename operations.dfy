/** The SQL fragment renderers of the Snowflake operations class
    (django_snowflake/operations.py). A fragment's parameters are bound by the
    driver to its `%s` placeholders, so besides each renderer's shape the
    lemmas show that every renderer keeps placeholders and parameters in step. */
module Operations {
  import opened Common

  // ------------------------------------------------------------ identifiers

  /** The body of a quoted identifier: upper-cased, each `.` closing one
      quoted part and opening the next. */
  function QuotedBody(name: string): string
  {
    Replace(Upper(name), '.', "\".\"")
  }

  predicate IsQuoted(name: string)
  {
    StartsWith(name, "\"") && EndsWith(name, "\"")
  }

  /** `quote_name` (operations.py:145-148). */
  function QuoteName(name: string): string
  {
    if IsQuoted(name) then name else "\"" + QuotedBody(name) + "\""
  }

  /** A name that is already quoted is kept verbatim; any other name is
      upper-cased, split at its dots, and quoted part by part. */
  lemma QuoteNameShape(name: string)
    ensures IsQuoted(name) ==> QuoteName(name) == name
    ensures !IsQuoted(name) ==> QuoteName(name) == "\"" + QuotedBody(name) + "\""
    ensures IsQuoted(QuoteName(name))
  {
  }

  /** Quoting once is enough: quoting a quoted name changes nothing. */
  lemma QuoteNameIdempotent(name: string)
    ensures QuoteName(QuoteName(name)) == QuoteName(name)
  {
    var q := QuoteName(name);
    if !IsQuoted(name) {
      assert q[..1] == "\"";
      assert q[|q| - 1..] == "\"";
    }
  }

  /** A qualified name `a.b` quotes as the two parts, each quoted: `"A"."B"`. */
  lemma QuoteNameQualified(schema: string, table: string)
    requires !IsQuoted(schema + "." + table)
    ensures QuoteName(schema + "." + table) == "\"" + QuotedBody(schema) + "\".\"" + QuotedBody(table) + "\""
  {
    UpperConcat(schema, "." + table);
    UpperConcat(".", table);
    assert Upper(".") == ".";
    ReplaceConcat(Upper(schema), "." + Upper(table), '.', "\".\"");
    ReplaceConcat(".", Upper(table), '.', "\".\"");
    assert Upper(schema + "." + table) == Upper(schema) + ("." + Upper(table));
  }

  /** Quoting adds no '%' to a name. */
  lemma QuoteNamePercentFree(name: string)
    requires '%' !in name
    ensures '%' !in QuoteName(name)
  {
    if !IsQuoted(name) {
      assert '%' !in Upper(name) by {
        forall i | 0 <= i < |name| ensures Upper(name)[i] != '%' {
          assert name[i] in name;
        }
      }
      ReplacePercentFree(Upper(name), '.', "\".\"");
    }
  }

  /** For a plain name (no dots, not quoted) quoting is upper-casing inside quotes. */
  lemma QuoteNamePlain(name: string)
    requires '.' !in name && !IsQuoted(name)
    ensures QuoteName(name) == "\"" + Upper(name) + "\""
  {
    assert '.' !in Upper(name) by {
      forall i | 0 <= i < |name| ensures Upper(name)[i] != '.' {
        assert name[i] != '.';
      }
    }
    ReplaceAbsent(Upper(name), '.', "\".\"");
  }

  // ------------------------------------------------------------ combinators

  /** `combine_expression` (operations.py:24-38). `baseCombine` is Django's
      own `combine_expression`, used for every other connector; the unpacking
      of `sub_expressions` into two names happens before any connector test. */
  function CombineExpression(connector: string, subExpressions: seq<string>,
                             baseCombine: (string, seq<string>) -> string): Result<string>
  {
    if |subExpressions| < 2 then Err("not enough values to unpack (expected 2, got " + NatToString(|subExpressions|) + ")")
    else if |subExpressions| > 2 then Err("too many values to unpack (expected 2)")
    else
      var lhs := subExpressions[0];
      var rhs := subExpressions[1];
      if connector == "&" then Ok("BITAND(" + Join(subExpressions, ",") + ")")
      else if connector == "|" then Ok("BITOR(" + lhs + "," + rhs + ")")
      else if connector == "#" then Ok("BITXOR(" + lhs + ", " + rhs + ")")
      else if connector == "<<" then Ok("BITSHIFTLEFT(" + lhs + ", " + rhs + ")")
      else if connector == ">>" then Ok("BITSHIFTRIGHT(" + lhs + ", " + rhs + ")")
      else if connector == "^" then Ok("POWER(" + Join(subExpressions, ",") + ")")
      else Ok(baseCombine(connector, subExpressions))
  }

  /** The Snowflake function each connector maps to, with the separator
      written between its two arguments. */
  function Combinator(connector: string): Option<(string, string)>
  {
    match connector
    case "&" => Some(("BITAND", ","))
    case "|" => Some(("BITOR", ","))
    case "#" => Some(("BITXOR", ", "))
    case "<<" => Some(("BITSHIFTLEFT", ", "))
    case ">>" => Some(("BITSHIFTRIGHT", ", "))
    case "^" => Some(("POWER", ","))
    case _ => None
  }

  /** With two operands, a listed connector renders as its function applied
      to lhs then rhs, and any other connector is delegated; with any other
      number of operands the call fails. */
  lemma CombineExpressionTable(connector: string, subExpressions: seq<string>,
                               baseCombine: (string, seq<string>) -> string)
    ensures var r := CombineExpression(connector, subExpressions, baseCombine);
      (r.Err? <==> |subExpressions| != 2) &&
      (|subExpressions| == 2 && Combinator(connector).Some? ==>
        r == Ok(Combinator(connector).value.0 + "(" + subExpressions[0] + Combinator(connector).value.1 + subExpressions[1] + ")")) &&
      (|subExpressions| == 2 && Combinator(connector).None? ==> r == Ok(baseCombine(connector, subExpressions)))
  {
    if |subExpressions| == 2 {
      assert subExpressions[1..][1..] == [];
      assert Join(subExpressions, ",") == subExpressions[0] + "," + subExpressions[1];
      if connector == "&" {
        assert Combinator(connector) == Some(("BITAND", ","));
        assert "BITAND" + "(" == "BITAND(";
        assert CombineExpression(connector, subExpressions, baseCombine)
            == Ok("BITAND(" + (subExpressions[0] + "," + subExpressions[1]) + ")");
        assert "BITAND(" + (subExpressions[0] + "," + subExpressions[1]) + ")"
            == "BITAND" + "(" + subExpressions[0] + "," + subExpressions[1] + ")";
      } else if connector == "|" {
        assert Combinator(connector) == Some(("BITOR", ","));
        assert "BITOR" + "(" == "BITOR(";
      } else if connector == "#" {
        assert Combinator(connector) == Some(("BITXOR", ", "));
        assert "BITXOR" + "(" == "BITXOR(";
      } else if connector == "<<" {
        assert Combinator(connector) == Some(("BITSHIFTLEFT", ", "));
        assert "BITSHIFTLEFT" + "(" == "BITSHIFTLEFT(";
      } else if connector == ">>" {
        assert Combinator(connector) == Some(("BITSHIFTRIGHT", ", "));
        assert "BITSHIFTRIGHT" + "(" == "BITSHIFTRIGHT(";
      } else if connector == "^" {
        assert Combinator(connector) == Some(("POWER", ","));
        assert "POWER" + "(" == "POWER(";
        assert CombineExpression(connector, subExpressions, baseCombine)
            == Ok("POWER(" + (subExpressions[0] + "," + subExpressions[1]) + ")");
        assert "POWER(" + (subExpressions[0] + "," + subExpressions[1]) + ")"
            == "POWER" + "(" + subExpressions[0] + "," + subExpressions[1] + ")";
      } else {
        assert Combinator(connector) == None;
      }
    }
  }

  // ------------------------------------------------------------ date and time

  predicate TzActive(tzname: Option<string>, useTz: bool)
  {
    Truthy(tzname) && useTz
  }

  /** The opening of the time-zone conversion; its `%s` takes the zone name. */
  const ConvertOpen: string := "CONVERT_TIMEZONE(" + "%s" + ", TO_TIMESTAMP("

  /** `_convert_sql_to_tz` (operations.py:40-46). */
  function ConvertSqlToTz(f: Fragment, tzname: Option<string>, useTz: bool): Fragment
  {
    if TzActive(tzname, useTz) then Fragment(ConvertOpen + f.sql + "))", [Str(tzname.value)] + f.params)
    else f
  }

  /** The opening of the conversion binds the zone name alone. */
  lemma ConvertOpenCount()
    ensures PlaceholderCount(ConvertOpen) == Some(1)
  {
    PlaceholderBetween("CONVERT_TIMEZONE(", ", TO_TIMESTAMP(");
  }

  /** The conversion is the identity unless a zone is named and time zones are
      on; then the fragment is wrapped and the zone name bound first. Either
      way placeholders and parameters stay in step. */
  lemma ConvertSqlToTzSpec(f: Fragment, tzname: Option<string>, useTz: bool)
    ensures !TzActive(tzname, useTz) ==> ConvertSqlToTz(f, tzname, useTz) == f
    ensures TzActive(tzname, useTz) ==> ConvertSqlToTz(f, tzname, useTz).params == [Str(tzname.value)] + f.params
    ensures TzActive(tzname, useTz) ==> StartsWith(ConvertSqlToTz(f, tzname, useTz).sql, ConvertOpen)
    ensures Balanced(f) ==> Balanced(ConvertSqlToTz(f, tzname, useTz))
  {
    if TzActive(tzname, useTz) {
      WrapStartsWith(ConvertOpen, f.sql, "))");
      if Balanced(f) {
        ConvertOpenCount();
        WrapCounted(ConvertOpen, f.sql, "))", 1);
      }
    }
  }

  /** `datetime_cast_date_sql` (operations.py:48-50). */
  function DatetimeCastDateSql(f: Fragment, tzname: Option<string>, useTz: bool): Fragment
  {
    var g := ConvertSqlToTz(f, tzname, useTz);
    Fragment("(" + g.sql + ")::date", g.params)
  }

  /** `datetime_cast_time_sql` (operations.py:52-54). */
  function DatetimeCastTimeSql(f: Fragment, tzname: Option<string>, useTz: bool): Fragment
  {
    var g := ConvertSqlToTz(f, tzname, useTz);
    Fragment("(" + g.sql + ")::time", g.params)
  }

  /** `date_extract_sql` (operations.py:56-66). */
  function DateExtractSql(lookupType: string, f: Fragment): Fragment
  {
    if lookupType == "week_day" then Fragment("EXTRACT('dow', " + f.sql + ") + 1", f.params)
    else if lookupType == "iso_week_day" then Fragment("EXTRACT('dow_iso', " + f.sql + ")", f.params)
    else if lookupType == "iso_year" then Fragment("EXTRACT('yearofweekiso', " + f.sql + ")", f.params)
    else Fragment("EXTRACT(" + "%s" + ", " + f.sql + ")", [Str(lookupType)] + f.params)
  }

  /** `datetime_extract_sql` (operations.py:68-70). */
  function DatetimeExtractSql(lookupType: string, f: Fragment, tzname: Option<string>, useTz: bool): Fragment
  {
    DateExtractSql(lookupType, ConvertSqlToTz(f, tzname, useTz))
  }

  /** `date_trunc_sql` (operations.py:72-74); `tzname=None` is the default. */
  function DateTruncSql(lookupType: string, f: Fragment, tzname: Option<string>, useTz: bool): Fragment
  {
    var g := ConvertSqlToTz(f, tzname, useTz);
    Fragment("DATE_TRUNC(" + "%s" + ", " + g.sql + ")", [Str(lookupType)] + g.params)
  }

  /** `datetime_trunc_sql` (operations.py:76-78). */
  function DatetimeTruncSql(lookupType: string, f: Fragment, tzname: Option<string>, useTz: bool): Fragment
  {
    var g := ConvertSqlToTz(f, tzname, useTz);
    Fragment("DATE_TRUNC(" + "%s" + ", " + g.sql + ")", [Str(lookupType)] + g.params)
  }

  /** `time_trunc_sql` (operations.py:80-82). */
  function TimeTruncSql(lookupType: string, f: Fragment, tzname: Option<string>, useTz: bool): Fragment
  {
    var g := ConvertSqlToTz(f, tzname, useTz);
    Fragment("DATE_TRUNC(" + "%s" + ", " + g.sql + ")::time", [Str(lookupType)] + g.params)
  }

  /** The zone parameter, when the conversion applies. */
  function TzParams(tzname: Option<string>, useTz: bool): seq<Param>
  {
    if TzActive(tzname, useTz) then [Str(tzname.value)] else []
  }

  /** The date parts Snowflake spells differently from Django. */
  predicate NamedPart(lookupType: string)
  {
    lookupType == "week_day" || lookupType == "iso_week_day" || lookupType == "iso_year"
  }

  /** The three special lookup types are spelled out and bind nothing extra;
      every other lookup type is bound as the first parameter; the week day
      is shifted to Sunday=1. Placeholders and parameters stay in step. */
  lemma DateExtractSpec(lookupType: string, f: Fragment)
    ensures NamedPart(lookupType) ==> DateExtractSql(lookupType, f).params == f.params
    ensures !NamedPart(lookupType) ==> DateExtractSql(lookupType, f).params == [Str(lookupType)] + f.params
    ensures lookupType == "week_day" ==> EndsWith(DateExtractSql(lookupType, f).sql, ") + 1")
    ensures Balanced(f) ==> Balanced(DateExtractSql(lookupType, f))
  {
    var r := DateExtractSql(lookupType, f);
    if lookupType == "week_day" {
      assert r.sql == "EXTRACT('dow', " + f.sql + ") + 1";
      assert r.sql[|r.sql| - 5..] == ") + 1";
    }
    if Balanced(f) {
      if lookupType == "week_day" {
        WrapBalanced("EXTRACT('dow', ", f.sql, ") + 1");
      } else if lookupType == "iso_week_day" {
        WrapBalanced("EXTRACT('dow_iso', ", f.sql, ")");
      } else if lookupType == "iso_year" {
        WrapBalanced("EXTRACT('yearofweekiso', ", f.sql, ")");
      } else {
        PlaceholderThenWrap("EXTRACT(", ", ", f.sql, ")");
      }
    }
  }

  /** Every trunc renderer binds the lookup type first, then the zone name
      when the conversion applies, then the input's parameters, and keeps
      placeholders and parameters in step. */
  lemma TruncSpec(lookupType: string, f: Fragment, tzname: Option<string>, useTz: bool)
    ensures DateTruncSql(lookupType, f, tzname, useTz).params == [Str(lookupType)] + TzParams(tzname, useTz) + f.params
    ensures DatetimeTruncSql(lookupType, f, tzname, useTz) == DateTruncSql(lookupType, f, tzname, useTz)
    ensures TimeTruncSql(lookupType, f, tzname, useTz)
         == Fragment(DateTruncSql(lookupType, f, tzname, useTz).sql + "::time", DateTruncSql(lookupType, f, tzname, useTz).params)
    ensures Balanced(f) ==> Balanced(DateTruncSql(lookupType, f, tzname, useTz)) && Balanced(TimeTruncSql(lookupType, f, tzname, useTz))
  {
    var g := ConvertSqlToTz(f, tzname, useTz);
    ConvertSqlToTzSpec(f, tzname, useTz);
    if Balanced(f) {
      PlaceholderThenWrap("DATE_TRUNC(", ", ", g.sql, ")");
      PlaceholderThenWrap("DATE_TRUNC(", ", ", g.sql, ")::time");
    }
  }

  /** The datetime renderers convert the zone first and then apply the date
      rule; placeholders and parameters stay in step. */
  lemma DatetimeSpec(lookupType: string, f: Fragment, tzname: Option<string>, useTz: bool)
    ensures DatetimeCastDateSql(f, tzname, useTz).params == TzParams(tzname, useTz) + f.params
    ensures DatetimeCastTimeSql(f, tzname, useTz).params == TzParams(tzname, useTz) + f.params
    ensures !NamedPart(lookupType) ==>
      DatetimeExtractSql(lookupType, f, tzname, useTz).params == [Str(lookupType)] + TzParams(tzname, useTz) + f.params
    ensures Balanced(f) ==>
      Balanced(DatetimeCastDateSql(f, tzname, useTz)) && Balanced(DatetimeCastTimeSql(f, tzname, useTz)) &&
      Balanced(DatetimeExtractSql(lookupType, f, tzname, useTz))
  {
    var g := ConvertSqlToTz(f, tzname, useTz);
    ConvertSqlToTzSpec(f, tzname, useTz);
    DateExtractSpec(lookupType, g);
    if Balanced(f) {
      WrapBalanced("(", g.sql, ")::date");
      WrapBalanced("(", g.sql, ")::time");
    }
  }

  /** `format_for_duration_arithmetic` (operations.py:84-85). */
  function FormatForDurationArithmetic(sql: string): string
  {
    "INTERVAL '" + sql + " MICROSECONDS'"
  }

  /** The interval binds exactly what its operand binds. */
  lemma FormatForDurationArithmeticBalanced(sql: string)
    requires PlaceholderCount(sql).Some?
    ensures PlaceholderCount(FormatForDurationArithmetic(sql)) == PlaceholderCount(sql)
  {
    WrapBalanced("INTERVAL '", sql, " MICROSECONDS'");
  }

  /** `subtract_temporals` (operations.py:176-182). */
  function SubtractTemporals(internalType: string, lhs: Fragment, rhs: Fragment): Fragment
  {
    if internalType == "TimeField" then
      Fragment("TIMEDIFF(MICROSECOND, TO_TIME(" + rhs.sql + "), " + lhs.sql + ")", rhs.params + lhs.params)
    else Fragment("TIMEDIFF(MICROSECOND, " + rhs.sql + ", " + lhs.sql + ")", rhs.params + lhs.params)
  }

  /** The right operand comes first, in the SQL and in the parameters, so each
      operand's parameters meet its own placeholders; only a time difference
      casts the right operand. */
  lemma SubtractTemporalsSpec(internalType: string, lhs: Fragment, rhs: Fragment)
    ensures SubtractTemporals(internalType, lhs, rhs).params == rhs.params + lhs.params
    ensures internalType == "TimeField" ==> StartsWith(SubtractTemporals(internalType, lhs, rhs).sql, "TIMEDIFF(MICROSECOND, TO_TIME(" + rhs.sql)
    ensures internalType != "TimeField" ==> StartsWith(SubtractTemporals(internalType, lhs, rhs).sql, "TIMEDIFF(MICROSECOND, " + rhs.sql)
    ensures Balanced(lhs) && Balanced(rhs) ==> Balanced(SubtractTemporals(internalType, lhs, rhs))
  {
    if Balanced(lhs) && Balanced(rhs) {
      if internalType == "TimeField" {
        WrapPair("TIMEDIFF(MICROSECOND, TO_TIME(", rhs.sql, "), ", lhs.sql, ")");
      } else {
        WrapPair("TIMEDIFF(MICROSECOND, ", rhs.sql, ", ", lhs.sql, ")");
      }
    }
  }

  // ------------------------------------------------------------ statements

  /** One parenthesised group per placeholder row. */
  function RowGroups(placeholderRows: seq<seq<string>>): (groups: seq<string>)
    ensures |groups| == |placeholderRows|
  {
    seq(|placeholderRows|, i requires 0 <= i < |placeholderRows| => "(" + Join(placeholderRows[i], ", ") + ")")
  }

  /** `bulk_insert_sql` (operations.py:19-22). */
  function BulkInsertSql(placeholderRows: seq<seq<string>>): string
  {
    "VALUES " + Join(RowGroups(placeholderRows), ", ")
  }

  predicate AllPlaceholders(row: seq<string>)
  {
    forall j :: 0 <= j < |row| ==> row[j] == "%s"
  }

  /** When every cell is a bare `%s`, the VALUES list binds exactly one
      parameter per cell: the row-major flattening of the value rows. */
  lemma BulkInsertSqlPlaceholders(placeholderRows: seq<seq<string>>)
    requires forall i :: 0 <= i < |placeholderRows| ==> AllPlaceholders(placeholderRows[i])
    ensures PlaceholderCount(BulkInsertSql(placeholderRows)) == Some(Sum(Lengths(placeholderRows)))
  {
    var groups := RowGroups(placeholderRows);
    var lengths := Lengths(placeholderRows);
    forall i | 0 <= i < |placeholderRows|
      ensures PlaceholderCount(groups[i]) == Some(lengths[i])
    {
      var row := placeholderRows[i];
      OnePlaceholder();
      JoinPlaceholders(row, ", ", seq(|row|, j requires 0 <= j < |row| => 1));
      SumOnes(|row|);
      WrapBalanced("(", Join(row, ", "), ")");
    }
    JoinPlaceholders(groups, ", ", lengths);
    WrapBalanced("VALUES ", Join(groups, ", "), "");
    assert "VALUES " + Join(groups, ", ") + "" == BulkInsertSql(placeholderRows);
  }

  lemma {:induction false} SumOnes(n: nat)
    ensures Sum(seq(n, j requires 0 <= j < n => 1)) == n
    decreases n
  {
    if n > 0 {
      assert seq(n, j requires 0 <= j < n => 1)[1..] == seq(n - 1, j requires 0 <= j < n - 1 => 1);
      SumOnes(n - 1);
    }
  }

  /** Each further row adds one more `, (...)` group, in row order. */
  lemma BulkInsertSqlAppend(placeholderRows: seq<seq<string>>, row: seq<string>)
    requires |placeholderRows| > 0
    ensures BulkInsertSql(placeholderRows + [row]) == BulkInsertSql(placeholderRows) + ", (" + Join(row, ", ") + ")"
  {
    var all := placeholderRows + [row];
    var group := "(" + Join(row, ", ") + ")";
    var groups := RowGroups(placeholderRows);
    assert RowGroups(all) == groups + [group] by {
      forall i | 0 <= i < |all| ensures RowGroups(all)[i] == (groups + [group])[i] {
        if i < |placeholderRows| {
          assert all[i] == placeholderRows[i];
        }
      }
    }
    JoinAppend(groups, group, ", ");
    var j := Join(groups, ", ");
    var b := "VALUES " + j;
    var jr := Join(row, ", ");
    assert BulkInsertSql(all) == "VALUES " + ((j + ", ") + group);
    AppendAssociative("VALUES ", j + ", ", group);
    AppendAssociative("VALUES ", j, ", ");
    assert BulkInsertSql(all) == (b + ", ") + group;
    AppendAssociative(b + ", ", "(" + jr, ")");
    AppendAssociative(b + ", ", "(", jr);
    AppendAssociative(b, ", ", "(");
    assert ", " + "(" == ", (";
  }

  /** `regex_lookup` (operations.py:150-152). */
  function RegexLookup(lookupType: string): string
  {
    var matchOption := if lookupType == "regex" then "c" else "i";
    "REGEXP_INSTR(%s, %s, 1, 1, 0, '" + matchOption + "') > 0"
  }

  /** Only `regex` matches case-sensitively; every other lookup type renders
      as the case-insensitive form. */
  lemma RegexLookupCaseSensitivity(lookupType: string)
    ensures RegexLookup(lookupType) == RegexLookup("regex") <==> lookupType == "regex"
    ensures lookupType != "regex" ==> RegexLookup(lookupType) == RegexLookup("iregex")
  {
    var head := "REGEXP_INSTR(%s, %s, 1, 1, 0, '";
    var tail := "') > 0";
    assert RegexLookup("regex") == head + "c" + tail;
    assert RegexLookup("iregex") == head + "i" + tail;
    assert (head + "c" + tail)[|head|] == 'c';
    assert (head + "i" + tail)[|head|] == 'i';
  }

  /** One flush statement. `keyword` and `field` are the colour style's
      SQL_KEYWORD and SQL_FIELD. */
  function FlushStatement(keyword: string -> string, field: string -> string, table: string, resetSequences: bool): string
  {
    if resetSequences then keyword("TRUNCATE") + " " + field(QuoteName(table)) + ";"
    else keyword("DELETE") + " " + keyword("FROM") + " " + field(QuoteName(table)) + ";"
  }

  /** `sql_flush` (operations.py:154-174): one statement per table, in order;
      none when there are no tables. */
  method SqlFlush(keyword: string -> string, field: string -> string, tables: seq<string>, resetSequences: bool)
    returns (sql: seq<string>)
    ensures |sql| == |tables|
    ensures forall i :: 0 <= i < |tables| ==> sql[i] == FlushStatement(keyword, field, tables[i], resetSequences)
  {
    if |tables| == 0 {
      return [];
    }
    sql := [];
    var i := 0;
    while i < |tables|
      invariant 0 <= i <= |tables| && |sql| == i
      invariant forall j :: 0 <= j < i ==> sql[j] == FlushStatement(keyword, field, tables[j], resetSequences)
    {
      if resetSequences {
        sql := sql + [keyword("TRUNCATE") + " " + field(QuoteName(tables[i])) + ";"];
      } else {
        // DELETE to preserve sequences.
        sql := sql + [keyword("DELETE") + " " + keyword("FROM") + " " + field(QuoteName(tables[i])) + ";"];
      }
      i := i + 1;
    }
  }

  /** Without colouring, a flush statement truncates (resetting sequences) or
      deletes from the quoted table. */
  lemma FlushStatementPlain(table: string, resetSequences: bool)
    ensures FlushStatement(s => s, s => s, table, resetSequences)
         == (if resetSequences then "TRUNCATE " else "DELETE FROM ") + QuoteName(table) + ";"
  {
  }

  /** `no_limit_value` (operations.py:142-143). */
  const NoLimitValue: Param := Str("null")

  /** The parts of the clause that are present, in order. */
  function Present(parts: seq<Option<string>>): (r: seq<string>)
    ensures |r| <= |parts|
  {
    if parts == [] then []
    else (if parts[0].Some? && parts[0].value != "" then [parts[0].value] else []) + Present(parts[1..])
  }

  /** `limit_offset_sql` (operations.py:133-140), given the limit and offset
      that Django's `_get_limit_offset_params` computes. The limit is written
      with `%s`, so the no-limit value `'null'` is allowed. */
  function LimitOffsetSql(limit: Param, offset: int): string
  {
    var limitSql := if ParamTruthy(limit) then Some("LIMIT " + PyStr(limit)) else None;
    var offsetSql := if offset != 0 then Some("OFFSET " + IntToString(offset)) else None;
    Join(Present([limitSql, offsetSql]), " ")
  }

  /** LIMIT comes before OFFSET, each only when its value is truthy, with one
      space between them. */
  lemma LimitOffsetSqlCases(limit: Param, offset: int)
    ensures LimitOffsetSql(limit, offset) == "" <==> !ParamTruthy(limit) && offset == 0
    ensures ParamTruthy(limit) && offset != 0 ==>
      LimitOffsetSql(limit, offset) == "LIMIT " + PyStr(limit) + " OFFSET " + IntToString(offset)
    ensures ParamTruthy(limit) && offset == 0 ==> LimitOffsetSql(limit, offset) == "LIMIT " + PyStr(limit)
    ensures !ParamTruthy(limit) && offset != 0 ==> LimitOffsetSql(limit, offset) == "OFFSET " + IntToString(offset)
  {
    var l := "LIMIT " + PyStr(limit);
    var o := "OFFSET " + IntToString(offset);
    assert |l| >= 6 && |o| >= 7;
    var limitSql := if ParamTruthy(limit) then Some(l) else None;
    var offsetSql := if offset != 0 then Some(o) else None;
    var parts := [limitSql, offsetSql];
    assert parts[1..] == [offsetSql] && |parts[1..][1..]| == 0;
    var tail: seq<string> := if offset != 0 then [o] else [];
    assert Present([offsetSql]) == tail + [];
    var present := Present(parts);
    var head: seq<string> := if ParamTruthy(limit) then [l] else [];
    assert present == head + (tail + []);
    if ParamTruthy(limit) && offset != 0 {
      assert present == [l, o] && present[1..] == [o];
      assert Join(present, " ") == l + " " + o;
      AppendAssociative(l + " ", "OFFSET ", IntToString(offset));
      AppendAssociative(l, " ", "OFFSET ");
      assert " " + "OFFSET " == " OFFSET ";
    } else if ParamTruthy(limit) {
      assert present == [l];
    } else if offset != 0 {
      assert present == [o];
    } else {
      assert present == [] && Join(present, " ") == "";
    }
  }

  /** An offset without a limit is rendered with `LIMIT null`. */
  lemma NoLimitRendersNull(offset: int)
    requires offset != 0
    ensures LimitOffsetSql(NoLimitValue, offset) == "LIMIT null OFFSET " + IntToString(offset)
  {
    LimitOffsetSqlCases(NoLimitValue, offset);
  }
}
