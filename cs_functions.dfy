/** The Snowflake renderers of django_snowflake_cs/functions.py. Its
    `concatpair` and `strindex` are those of django_snowflake/functions.py
    (`Functions.ConcatPairSql`, `Functions.StrIndexSql`); this module adds
    `ceil`, `collate` and `random` and the larger registry. */
module CsFunctions {
  import opened Common
  import opened Expressions
  import Functions

  /** `ceil` (functions.py:7-8): rendered as CEIL. */
  function CeilSql(args: seq<Expr>, extra: map<string, string>): Result<Rendering>
  {
    if "function" in extra then Err(DuplicateKeyword("function"))
    else Ok(Rendering(Func(Ceil, args), Some("CEIL"), None, extra))
  }

  /** CEIL is named whatever the operands, which are kept as they are; only
      a `function` in the extra context fails. */
  lemma CeilSpec(args: seq<Expr>, extra: map<string, string>)
    ensures CeilSql(args, extra).Ok? <==> "function" !in extra
    ensures CeilSql(args, extra).Ok? ==>
      var r := CeilSql(args, extra).value;
      r.functionName == Some("CEIL") && r.expr.args == args && r.context == extra && r.template.None?
  {
  }

  /** `'%(function)s(%(expressions)s, %(collation)s)'`. */
  const CollateTemplate: seq<Piece> :=
    [Slot("function"), Lit("("), Slot("expressions"), Lit(", "), Slot("collation"), Lit(")")]

  /** `collate` (functions.py:11-21): the collation in single quotes and
      Snowflake's `COLLATE(<expression>, '<collation>')` template. */
  function CollateSql(args: seq<Expr>, collation: string, extra: map<string, string>): Result<Rendering>
  {
    match Clash(["collation", "template"], extra)
    case Some(k) => Err(DuplicateKeyword(k))
    case None => Ok(Rendering(Func(Collate, args), None, Some(CollateTemplate), extra["collation" := "'" + collation + "'"]))
  }

  /** Collate passes the collation single-quoted and its template, and
      forwards the rest of the extra context; it fails exactly when the
      extra context passes `collation` or `template` again. */
  lemma CollateSpec(args: seq<Expr>, collation: string, extra: map<string, string>)
    ensures CollateSql(args, collation, extra).Ok? <==> "collation" !in extra && "template" !in extra
    ensures CollateSql(args, collation, extra).Err? ==>
      CollateSql(args, collation, extra).message in {DuplicateKeyword("collation"), DuplicateKeyword("template")}
    ensures CollateSql(args, collation, extra).Ok? ==>
      var r := CollateSql(args, collation, extra).value;
      r.expr == Func(Collate, args) && r.functionName.None? && r.template == Some(CollateTemplate) &&
      r.context.Keys == extra.Keys + {"collation"} && r.context["collation"] == "'" + collation + "'" &&
      (forall k :: k in extra ==> r.context[k] == extra[k])
  {
    var explicit := ["collation", "template"];
    assert explicit[0] == "collation" && explicit[1] == "template";
  }

  /** The template renders as `<function>(<expressions>, <collation>)`. */
  lemma CollateTemplateRenders(data: map<string, string>)
    requires "function" in data && "expressions" in data && "collation" in data
    ensures RenderTemplate(CollateTemplate, data) ==
      Ok(data["function"] + "(" + data["expressions"] + ", " + data["collation"] + ")")
  {
    var s5: seq<Piece> := [Lit(")")] + [];
    assert RenderTemplate([], data) == Ok("");
    RenderCons(Lit(")"), [], data);
    var s4 := [Slot("collation")] + s5;
    RenderCons(Slot("collation"), s5, data);
    var s3 := [Lit(", ")] + s4;
    RenderCons(Lit(", "), s4, data);
    var s2 := [Slot("expressions")] + s3;
    RenderCons(Slot("expressions"), s3, data);
    var s1 := [Lit("(")] + s2;
    RenderCons(Lit("("), s2, data);
    RenderCons(Slot("function"), s1, data);
    assert CollateTemplate == [Slot("function")] + s1;
    assert ")" + "" == ")";
    var f, e, c := data["function"], data["expressions"], data["collation"];
    assert RenderTemplate(CollateTemplate, data) == Ok(f + ("(" + (e + (", " + (c + ")")))));
    assert f + ("(" + (e + (", " + (c + ")")))) == f + "(" + e + ", " + c + ")";
  }

  /** `'UNIFORM(0, 0.99999999999999999, RANDOM())'`. */
  const RandomTemplate: seq<Piece> := [Lit("UNIFORM(0, 0.99999999999999999, RANDOM())")]

  /** `random` (functions.py:29-31): a fixed template. */
  function RandomSql(args: seq<Expr>, extra: map<string, string>): Result<Rendering>
  {
    if "template" in extra then Err(DuplicateKeyword("template"))
    else Ok(Rendering(Func(Random, args), None, Some(RandomTemplate), extra))
  }

  /** Random always renders as the fixed UNIFORM call, whatever the data. */
  lemma RandomRenders(args: seq<Expr>, extra: map<string, string>, data: map<string, string>)
    ensures RandomSql(args, extra).Ok? <==> "template" !in extra
    ensures RandomSql(args, extra).Ok? ==>
      RandomSql(args, extra).value.template.Some? &&
      RenderTemplate(RandomSql(args, extra).value.template.value, data) == Ok("UNIFORM(0, 0.99999999999999999, RANDOM())")
  {
    assert RenderTemplate([], data) == Ok("");
    RenderCons(Lit("UNIFORM(0, 0.99999999999999999, RANDOM())"), [], data);
    assert RandomTemplate == [Lit("UNIFORM(0, 0.99999999999999999, RANDOM())")] + [];
    assert "UNIFORM(0, 0.99999999999999999, RANDOM())" + "" == "UNIFORM(0, 0.99999999999999999, RANDOM())";
  }

  /** `register_functions` (functions.py:43-52). */
  const Registry: map<FuncClass, Renderer> := map[
    Sha(224) := AsMysql, Sha(256) := AsMysql, Sha(384) := AsMysql, Sha(512) := AsMysql,
    Ceil := CeilRenderer, Collate := CollateRenderer, ConcatPair := ConcatPairRenderer,
    Random := RandomRenderer, StrIndex := StrIndexRenderer
  ]

  /** This registry keeps every entry of django_snowflake's and adds Ceil,
      Collate and Random. */
  lemma RegistryExtends()
    ensures forall k :: k in Functions.Registry ==> k in Registry && Registry[k] == Functions.Registry[k]
    ensures Registry.Keys == Functions.Registry.Keys + {Ceil, Collate, Random}
  {
  }
}
