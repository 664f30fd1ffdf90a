/** The database wrapper's constant tables and the validation of the
    connection settings (django_snowflake/base.py). */
module Base {
  import opened Common
  import opened FieldKinds

  // ------------------------------------------------------------ data_types

  /** A piece of a column-type template: literal text, or a `%(name)s`
      reference to an attribute of the field. */
  datatype Piece = Lit(text: string) | Attr(name: string)

  /** The template text as written in the table. */
  function TemplateText(t: seq<Piece>): string
    decreases |t|
  {
    if t == [] then ""
    else (match t[0] case Lit(s) => s case Attr(n) => "%(" + n + ")s") + TemplateText(t[1..])
  }

  const Number38: seq<Piece> := [Lit("NUMBER(38, 0)")]
  const AutoIncrement: seq<Piece> := [Lit("NUMBER(38, 0) AUTOINCREMENT START 1 INCREMENT 1")]
  const VarcharMaxLength: seq<Piece> := [Lit("VARCHAR("), Attr("max_length"), Lit(")")]

  /** `data_types` (base.py:23-51): None for a kind that has no column type. */
  function DataTypeTemplate(k: FieldKind): Option<seq<Piece>>
  {
    match k
    case AutoField => Some(AutoIncrement)
    case BigAutoField => Some(AutoIncrement)
    case BinaryField => Some([Lit("BINARY")])
    case BooleanField => Some([Lit("BOOLEAN")])
    case CharField => Some(VarcharMaxLength)
    case DateField => Some([Lit("DATE")])
    case DateTimeField => Some([Lit("TIMESTAMPNTZ")])
    case DecimalField => Some([Lit("NUMBER("), Attr("max_digits"), Lit(", "), Attr("decimal_places"), Lit(")")])
    case DurationField => Some(Number38)
    case FileField => Some(VarcharMaxLength)
    case FilePathField => Some(VarcharMaxLength)
    case FloatField => Some([Lit("FLOAT")])
    case IntegerField => Some(Number38)
    case BigIntegerField => Some(Number38)
    case GenericIPAddressField => Some([Lit("VARCHAR(39)")])
    case JSONField => Some([Lit("VARIANT")])
    case NullBooleanField => Some([Lit("BOOLEAN")])
    case OneToOneField => Some(Number38)
    case PositiveBigIntegerField => Some(Number38)
    case PositiveIntegerField => Some(Number38)
    case PositiveSmallIntegerField => Some(Number38)
    case SlugField => Some(VarcharMaxLength)
    case SmallAutoField => Some(AutoIncrement)
    case SmallIntegerField => Some(Number38)
    case TextField => Some([Lit("VARCHAR")])
    case TimeField => Some([Lit("TIME")])
    case UUIDField => Some([Lit("VARCHAR(32)")])
    case Other(_) => None
  }

  /** `template % field.__dict__`: each reference is replaced by `str()` of the
      attribute; a missing attribute raises KeyError. */
  function Render(t: seq<Piece>, attrs: map<string, Param>): Result<string>
    decreases |t|
  {
    if t == [] then Ok("")
    else
      var rest := Render(t[1..], attrs);
      match t[0]
      case Lit(s) => if rest.Ok? then Ok(s + rest.value) else rest
      case Attr(n) =>
        if n !in attrs then Err("KeyError: '" + n + "'")
        else if rest.Ok? then Ok(PyStr(attrs[n]) + rest.value) else rest
  }

  /** Django's `Field.db_type()` over this table: None for a kind without a
      column type. */
  function DbType(k: FieldKind, attrs: map<string, Param>): Option<Result<string>>
  {
    if DataTypeTemplate(k).Some? then Some(Render(DataTypeTemplate(k).value, attrs)) else None
  }

  predicate IsIntegerKind(k: FieldKind)
  {
    k in {IntegerField, BigIntegerField, SmallIntegerField, PositiveBigIntegerField,
          PositiveIntegerField, PositiveSmallIntegerField}
  }

  lemma RenderLiteral(text: string, attrs: map<string, Param>)
    ensures Render([Lit(text)], attrs) == Ok(text)
  {
    assert [Lit(text)][1..] == [];
    assert text + "" == text;
  }

  /** The auto kinds are identity columns; the other integer kinds are plain
      NUMBER(38, 0); JSON is VARIANT. */
  lemma DataTypesIntegerKinds(k: FieldKind, attrs: map<string, Param>)
    ensures IsAutoKind(k) ==> DbType(k, attrs) == Some(Ok("NUMBER(38, 0) AUTOINCREMENT START 1 INCREMENT 1"))
    ensures IsIntegerKind(k) ==> DbType(k, attrs) == Some(Ok("NUMBER(38, 0)"))
    ensures k == JSONField ==> DbType(k, attrs) == Some(Ok("VARIANT"))
  {
    if IsAutoKind(k) {
      assert DataTypeTemplate(k) == Some(AutoIncrement);
      RenderLiteral("NUMBER(38, 0) AUTOINCREMENT START 1 INCREMENT 1", attrs);
    } else if IsIntegerKind(k) {
      assert DataTypeTemplate(k) == Some(Number38);
      RenderLiteral("NUMBER(38, 0)", attrs);
    } else if k == JSONField {
      RenderLiteral("VARIANT", attrs);
    }
  }

  /** Only kinds outside the table have no column type. */
  lemma DataTypesCoverage(k: FieldKind)
    ensures DataTypeTemplate(k).None? <==> k.Other?
  {
  }

  /** A sized character kind renders its max_length inside VARCHAR(...). */
  lemma DataTypesVarchar(k: FieldKind, attrs: map<string, Param>)
    requires k in {CharField, FileField, FilePathField, SlugField}
    ensures "max_length" in attrs ==> DbType(k, attrs) == Some(Ok("VARCHAR(" + PyStr(attrs["max_length"]) + ")"))
    ensures "max_length" !in attrs ==> DbType(k, attrs) == Some(Err("KeyError: 'max_length'"))
  {
    var t := VarcharMaxLength;
    assert t[1..] == [Attr("max_length"), Lit(")")];
    assert t[1..][1..] == [Lit(")")];
    RenderLiteral(")", attrs);
    assert "KeyError: '" + "max_length" + "'" == "KeyError: 'max_length'";
    if "max_length" in attrs {
      assert Render(t[1..], attrs) == Ok(PyStr(attrs["max_length"]) + ")");
      assert "VARCHAR(" + (PyStr(attrs["max_length"]) + ")") == "VARCHAR(" + PyStr(attrs["max_length"]) + ")";
    }
  }

  /** A decimal kind renders its digits and places, in that order. */
  lemma DataTypesDecimal(attrs: map<string, Param>)
    requires "max_digits" in attrs && "decimal_places" in attrs
    ensures DbType(DecimalField, attrs)
         == Some(Ok("NUMBER(" + PyStr(attrs["max_digits"]) + ", " + PyStr(attrs["decimal_places"]) + ")"))
  {
    var t := DataTypeTemplate(DecimalField).value;
    var digits := PyStr(attrs["max_digits"]);
    var places := PyStr(attrs["decimal_places"]);
    assert t[4..] == [Lit(")")];
    RenderLiteral(")", attrs);
    assert t[3..][1..] == t[4..];
    assert Render(t[3..], attrs) == Ok(places + ")");
    assert t[2..][1..] == t[3..];
    assert Render(t[2..], attrs) == Ok(", " + (places + ")"));
    assert t[1..][1..] == t[2..];
    assert Render(t[1..], attrs) == Ok(digits + (", " + (places + ")")));
    assert "NUMBER(" + (digits + (", " + (places + ")"))) == "NUMBER(" + digits + ", " + places + ")";
  }

  // ------------------------------------------------------------ operators

  /** `operators` (base.py:52-67). */
  const Operators: map<string, string> := map[
    "exact" := "= %s",
    "iexact" := "ILIKE %s",
    "contains" := "LIKE %s",
    "icontains" := "ILIKE %s",
    "regex" := "~ %s",
    "iregex" := "~* %s",
    "gt" := "> %s",
    "gte" := ">= %s",
    "lt" := "< %s",
    "lte" := "<= %s",
    "startswith" := "LIKE %s",
    "endswith" := "LIKE %s",
    "istartswith" := "ILIKE %s",
    "iendswith" := "ILIKE %s"
  ]

  /** The case-insensitive pattern lookups use ILIKE and the case-sensitive
      ones LIKE. */
  lemma OperatorsCaseSensitivity(lookup: string)
    requires lookup in {"contains", "startswith", "endswith"}
    ensures "i" + lookup in Operators
    ensures Operators[lookup] == "LIKE %s"
    ensures Operators["i" + lookup] == "ILIKE %s"
    ensures Operators["iexact"] == "ILIKE %s" && Operators["exact"] == "= %s"
  {
    assert "i" + "contains" == "icontains";
    assert "i" + "startswith" == "istartswith";
    assert "i" + "endswith" == "iendswith";
  }

  // ------------------------------------------------------------ pattern_ops

  /** A `str.format` template with a single `{}` field: `before{}after`. */
  datatype FormatTemplate = FormatTemplate(before: string, after: string)
  {
    function Text(): string { before + "{}" + after }
    function Format(arg: string): string { before + arg + after }
  }

  /** `pattern_esc` (base.py:68): the identity template. */
  const PatternEsc: FormatTemplate := FormatTemplate("", "")

  /** `pattern_ops` (base.py:69-76). */
  const PatternOps: map<string, FormatTemplate> := map[
    "contains" := FormatTemplate("LIKE '%%' || ", " || '%%'"),
    "icontains" := FormatTemplate("ILIKE '%%' || ", " || '%%'"),
    "startswith" := FormatTemplate("LIKE ", " || '%%'"),
    "istartswith" := FormatTemplate("ILIKE ", " || '%%'"),
    "endswith" := FormatTemplate("LIKE '%%' || ", ""),
    "iendswith" := FormatTemplate("ILIKE '%%' || ", "")
  ]

  lemma PatternEscIdentity(expr: string)
    ensures PatternEsc.Format(expr) == expr
    ensures PatternEsc.Text() == "{}"
  {
  }

  predicate LeadingWildcard(t: FormatTemplate) { EndsWith(t.before, "'%%' || ") }
  predicate TrailingWildcard(t: FormatTemplate) { t.after == " || '%%'" }

  /** Where the wildcards go: contains on both sides, startswith after,
      endswith before, all under LIKE. */
  lemma PatternOpsWildcards(lookup: string)
    requires lookup in {"contains", "startswith", "endswith"}
    ensures LeadingWildcard(PatternOps[lookup]) <==> lookup != "startswith"
    ensures TrailingWildcard(PatternOps[lookup]) <==> lookup != "endswith"
    ensures StartsWith(PatternOps[lookup].before, "LIKE ")
  {
    var wild := "'%%' || ";
    var like := "LIKE ";
    EndsWithConcat(like, wild);
    StartsWithConcat(like, wild);
  }

  /** Each `i` variant is `I` + its case-sensitive form (ILIKE for LIKE). */
  lemma PatternOpsCaseInsensitive(lookup: string)
    requires lookup in {"contains", "startswith", "endswith"}
    ensures "i" + lookup in PatternOps
    ensures PatternOps["i" + lookup].Text() == "I" + PatternOps[lookup].Text()
  {
    IVariants();
    if lookup == "contains" {
      assert "i" + lookup == "icontains";
    } else if lookup == "endswith" {
      assert "i" + lookup == "iendswith";
    } else {
      assert "i" + lookup == "istartswith";
    }
    CaseInsensitiveText(PatternOps[lookup]);
  }

  /** The `i` entries are their case-sensitive entries with `I` in front. */
  lemma IVariants()
    ensures "contains" in PatternOps && "icontains" in PatternOps
    ensures PatternOps["icontains"] == FormatTemplate("I" + PatternOps["contains"].before, PatternOps["contains"].after)
    ensures "startswith" in PatternOps && "istartswith" in PatternOps
    ensures PatternOps["istartswith"] == FormatTemplate("I" + PatternOps["startswith"].before, PatternOps["startswith"].after)
    ensures "endswith" in PatternOps && "iendswith" in PatternOps
    ensures PatternOps["iendswith"] == FormatTemplate("I" + PatternOps["endswith"].before, PatternOps["endswith"].after)
  {
  }

  /** Prefixing the text before the field prefixes the whole template. */
  lemma CaseInsensitiveText(t: FormatTemplate)
    ensures FormatTemplate("I" + t.before, t.after).Text() == "I" + t.Text()
  {
    AppendAssociative("I", t.before + "{}", t.after);
    AppendAssociative("I", t.before, "{}");
  }

  /** The doubled `%%` of a pattern bind no parameter (they reach the database
      as `%`), so a formatted pattern binds exactly what its operand binds. */
  lemma PatternOpsBinding(lookup: string, rhs: string)
    requires lookup in PatternOps
    requires PlaceholderCount(rhs).Some?
    ensures PlaceholderCount(PatternOps[lookup].Format(rhs)) == PlaceholderCount(rhs)
  {
    PatternOpsEscaped(lookup);
    FormatBinding(PatternOps[lookup], rhs);
  }

  lemma FormatBinding(t: FormatTemplate, rhs: string)
    requires PlaceholderCount(t.before) == Some(0) && PlaceholderCount(t.after) == Some(0)
    requires PlaceholderCount(rhs).Some?
    ensures PlaceholderCount(t.Format(rhs)) == PlaceholderCount(rhs)
  {
    PlaceholderConcat(t.before, rhs);
    PlaceholderConcat(t.before + rhs, t.after);
  }

  lemma PatternOpsEscaped(lookup: string)
    requires lookup in PatternOps
    ensures PlaceholderCount(PatternOps[lookup].before) == Some(0)
    ensures PlaceholderCount(PatternOps[lookup].after) == Some(0)
  {
    PatternBeforeEscaped(PatternOps[lookup].before);
    PatternAfterEscaped(PatternOps[lookup].after);
  }

  lemma PatternBeforeEscaped(before: string)
    requires before in {"LIKE '%%' || ", "ILIKE '%%' || ", "LIKE ", "ILIKE "}
    ensures PlaceholderCount(before) == Some(0)
  {
    if before == "LIKE '%%' || " {
      EscapedLiteral("LIKE '", "' || ", before);
    } else if before == "ILIKE '%%' || " {
      EscapedLiteral("ILIKE '", "' || ", before);
    } else {
      NoPercentNoPlaceholder(before);
    }
  }

  lemma PatternAfterEscaped(after: string)
    requires after in {" || '%%'", ""}
    ensures PlaceholderCount(after) == Some(0)
  {
    if after == " || '%%'" {
      EscapedLiteral(" || '", "'", after);
    }
  }

  lemma EscapedLiteral(pre: string, post: string, whole: string)
    requires '%' !in pre && '%' !in post && whole == pre + "%%" + post
    ensures PlaceholderCount(whole) == Some(0)
  {
    LiteralThenEscaped(pre, post);
  }

  lemma LiteralThenEscaped(pre: string, post: string)
    requires '%' !in pre && '%' !in post
    ensures PlaceholderCount(pre + "%%" + post) == Some(0)
  {
    NoPercentNoPlaceholder(pre);
    TwoPercent(post);
    PlaceholderConcat(pre, "%%" + post);
    assert pre + "%%" + post == pre + ("%%" + post);
  }

  lemma TwoPercent(s: string)
    requires '%' !in s
    ensures PlaceholderCount("%%" + s) == Some(0)
  {
    var t := "%%" + s;
    assert t[0] == '%' && t[1] == '%' && t[2..] == s;
    NoPercentNoPlaceholder(s);
  }

  // ------------------------------------------------------------ connection parameters

  /** `settings_is_missing` (base.py:88), filled in with one key. */
  function SettingsIsMissing(key: string): string
  {
    "settings.DATABASES is missing '" + key + "' for 'django_snowflake'."
  }

  /** One step of `get_connection_params`: the settings key, the connector
      parameter it becomes, whether a falsy value raises, and whether the key
      is read by subscript (a missing key raises KeyError) or by `.get`. */
  datatype SettingRule = SettingRule(key: string, param: string, required: bool, subscript: bool)

  /** The steps of `get_connection_params` in the order it takes them. */
  const ConnectionRules: seq<SettingRule> := [
    SettingRule("NAME", "database", false, true),
    SettingRule("USER", "user", true, true),
    SettingRule("PASSWORD", "password", true, true),
    SettingRule("ACCOUNT", "account", true, false),
    SettingRule("WAREHOUSE", "warehouse", true, false),
    SettingRule("ROLE", "role", false, false),
    SettingRule("SCHEMA", "schema", true, false)
  ]

  predicate Present(settings: map<string, Param>, key: string)
  {
    key in settings && ParamTruthy(settings[key])
  }

  predicate RuleFails(settings: map<string, Param>, rule: SettingRule)
  {
    (rule.subscript && rule.key !in settings) || (rule.required && !Present(settings, rule.key))
  }

  function RuleError(settings: map<string, Param>, rule: SettingRule): string
  {
    if rule.subscript && rule.key !in settings then KeyErrorMessage(rule.key) else SettingsIsMissing(rule.key)
  }

  /** The position of the first step that raises, or the number of steps. */
  function FirstFailing(settings: map<string, Param>, from: nat): (k: nat)
    requires from <= |ConnectionRules|
    ensures from <= k <= |ConnectionRules|
    decreases |ConnectionRules| - from
  {
    if from == |ConnectionRules| then from
    else if RuleFails(settings, ConnectionRules[from]) then from
    else FirstFailing(settings, from + 1)
  }

  /** The first failing step is a failing step, and every step before it passes. */
  lemma {:induction false} FirstFailingSpec(settings: map<string, Param>, from: nat)
    requires from <= |ConnectionRules|
    ensures var k := FirstFailing(settings, from);
      (k < |ConnectionRules| ==> RuleFails(settings, ConnectionRules[k])) &&
      (forall j :: from <= j < k ==> !RuleFails(settings, ConnectionRules[j]))
    decreases |ConnectionRules| - from
  {
    if from < |ConnectionRules| && !RuleFails(settings, ConnectionRules[from]) {
      FirstFailingSpec(settings, from + 1);
    }
  }

  /** The parameters the first `n` steps collect. */
  ghost function Collected(settings: map<string, Param>, n: nat): map<string, Param>
    requires n <= |ConnectionRules|
  {
    if n == 0 then map[]
    else
      var rule := ConnectionRules[n - 1];
      if Present(settings, rule.key) then Collected(settings, n - 1)[rule.param := settings[rule.key]]
      else Collected(settings, n - 1)
  }

  lemma ConnectionParamsDistinct()
    ensures forall i, j :: 0 <= i < j < |ConnectionRules| ==> ConnectionRules[i].param != ConnectionRules[j].param
  {
    forall i, j | 0 <= i < j < |ConnectionRules|
      ensures ConnectionRules[i].param != ConnectionRules[j].param
    {
      var a := ConnectionRules[i].param;
      var b := ConnectionRules[j].param;
      assert |a| != |b| || a[0] != b[0];
    }
  }

  /** The first `n` steps collect exactly the truthy keys among theirs,
      each under its parameter name and with its value. */
  lemma {:induction false} CollectedSpec(settings: map<string, Param>, n: nat)
    requires n <= |ConnectionRules|
    ensures forall i :: 0 <= i < n ==>
      (ConnectionRules[i].param in Collected(settings, n) <==> Present(settings, ConnectionRules[i].key)) &&
      (ConnectionRules[i].param in Collected(settings, n) ==>
        Collected(settings, n)[ConnectionRules[i].param] == settings[ConnectionRules[i].key])
    ensures Collected(settings, n).Keys <= set i | 0 <= i < n :: ConnectionRules[i].param
  {
    if n > 0 {
      CollectedSpec(settings, n - 1);
      ConnectionParamsDistinct();
    }
  }

  /** What `get_connection_params` returns: the error of the first failing
      step, or the parameters every step collects. */
  ghost function ConnectionParams(settings: map<string, Param>): Result<map<string, Param>>
  {
    var k := FirstFailing(settings, 0);
    if k < |ConnectionRules| then Err(RuleError(settings, ConnectionRules[k])) else Ok(Collected(settings, |ConnectionRules|))
  }

  /** The connection parameters are an error exactly when a step fails,
      naming the first one; otherwise they hold exactly the truthy keys under
      their parameter names, with their values unchanged. */
  lemma ConnectionParamsSpec(settings: map<string, Param>)
    ensures var r := ConnectionParams(settings);
      (r.Err? <==> FirstFailing(settings, 0) < |ConnectionRules|) &&
      (r.Err? ==> r.message == RuleError(settings, ConnectionRules[FirstFailing(settings, 0)])) &&
      (r.Ok? ==> forall i :: 0 <= i < |ConnectionRules| ==>
        (ConnectionRules[i].param in r.value <==> Present(settings, ConnectionRules[i].key)) &&
        (ConnectionRules[i].param in r.value ==> r.value[ConnectionRules[i].param] == settings[ConnectionRules[i].key])) &&
      (r.Ok? ==> r.value.Keys <= set i | 0 <= i < |ConnectionRules| :: ConnectionRules[i].param)
  {
    CollectedSpec(settings, |ConnectionRules|);
  }

  /** `get_connection_params` (base.py:90-125) over the settings dictionary. */
  method GetConnectionParams(settings: map<string, Param>) returns (r: Result<map<string, Param>>)
    ensures r == ConnectionParams(settings)
  {
    var connParams: map<string, Param> := map[];
    if "NAME" !in settings {
      assert FirstFailing(settings, 0) == 0;
      return Err(KeyErrorMessage("NAME"));
    }
    if ParamTruthy(settings["NAME"]) {
      connParams := connParams["database" := settings["NAME"]];
    }
    assert connParams == Collected(settings, 1);
    assert FirstFailing(settings, 0) == FirstFailing(settings, 1);
    if "USER" !in settings {
      assert FirstFailing(settings, 1) == 1;
      return Err(KeyErrorMessage("USER"));
    }
    if ParamTruthy(settings["USER"]) {
      connParams := connParams["user" := settings["USER"]];
    } else {
      assert FirstFailing(settings, 1) == 1;
      return Err(SettingsIsMissing("USER"));
    }
    assert connParams == Collected(settings, 2);
    assert FirstFailing(settings, 0) == FirstFailing(settings, 2);
    if "PASSWORD" !in settings {
      assert FirstFailing(settings, 2) == 2;
      return Err(KeyErrorMessage("PASSWORD"));
    }
    if ParamTruthy(settings["PASSWORD"]) {
      connParams := connParams["password" := settings["PASSWORD"]];
    } else {
      assert FirstFailing(settings, 2) == 2;
      return Err(SettingsIsMissing("PASSWORD"));
    }
    assert connParams == Collected(settings, 3);
    assert FirstFailing(settings, 0) == FirstFailing(settings, 3);
    if Present(settings, "ACCOUNT") {
      connParams := connParams["account" := settings["ACCOUNT"]];
    } else {
      assert FirstFailing(settings, 3) == 3;
      return Err(SettingsIsMissing("ACCOUNT"));
    }
    assert connParams == Collected(settings, 4);
    assert FirstFailing(settings, 0) == FirstFailing(settings, 4);
    if Present(settings, "WAREHOUSE") {
      connParams := connParams["warehouse" := settings["WAREHOUSE"]];
    } else {
      assert FirstFailing(settings, 4) == 4;
      return Err(SettingsIsMissing("WAREHOUSE"));
    }
    assert connParams == Collected(settings, 5);
    assert FirstFailing(settings, 0) == FirstFailing(settings, 5);
    if Present(settings, "ROLE") {
      connParams := connParams["role" := settings["ROLE"]];
    }
    assert connParams == Collected(settings, 6);
    assert FirstFailing(settings, 0) == FirstFailing(settings, 6);
    if Present(settings, "SCHEMA") {
      connParams := connParams["schema" := settings["SCHEMA"]];
    } else {
      assert FirstFailing(settings, 6) == 6;
      return Err(SettingsIsMissing("SCHEMA"));
    }
    assert connParams == Collected(settings, 7);
    assert FirstFailing(settings, 0) == FirstFailing(settings, 7);
    r := Ok(connParams);
  }
}
