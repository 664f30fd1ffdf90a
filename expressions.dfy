/** The part of Django's expression tree that the Snowflake function
    renderers rewrite, what the rendered SQL computes, and Django's template
    interpolation. A renderer does not produce SQL itself: it hands an
    expression and keyword arguments on to Django's `Func.as_sql`, so its
    result is that request (a `Rendering`). */
module Expressions {
  import opened Common

  /** The Django function classes the renderers are registered on. */
  datatype FuncClass = Sha(bits: nat) | Ceil | Collate | ConcatPair | Random | StrIndex

  datatype Expr =
    | Col(name: string)
    | Val(text: string)
    | Coalesce(args: seq<Expr>)
    | Func(cls: FuncClass, args: seq<Expr>)

  /** The renderer a registry assigns to a class: MySQL's, or one of the
      Snowflake renderers. */
  datatype Renderer = AsMysql | CeilRenderer | CollateRenderer | ConcatPairRenderer | RandomRenderer | StrIndexRenderer

  /** A piece of a `%`-template: literal text or a `%(name)s` slot. */
  datatype Piece = Lit(text: string) | Slot(name: string)

  /** A call of `expr.as_sql(compiler, connection, function=…, template=…,
      **context)`; None stands for an argument that is not passed. */
  datatype Rendering = Rendering(expr: Expr, functionName: Option<string>, template: Option<seq<Piece>>,
                                 context: map<string, string>)

  /** The error Python raises when a keyword is passed twice. */
  function DuplicateKeyword(name: string): string
  {
    "TypeError: as_sql() got multiple values for keyword argument '" + name + "'"
  }

  /** The first of the explicitly passed keywords that `**extra_context`
      passes again. */
  function Clash(explicit: seq<string>, extra: map<string, string>): (r: Option<string>)
    ensures r.Some? <==> exists i :: 0 <= i < |explicit| && explicit[i] in extra
    ensures r.Some? ==> r.value in explicit && r.value in extra
    decreases |explicit|
  {
    if explicit == [] then None
    else if explicit[0] in extra then Some(explicit[0])
    else
      var r := Clash(explicit[1..], extra);
      assert forall i :: 0 < i < |explicit| ==> explicit[i] == explicit[1..][i - 1];
      r
  }

  // ------------------------------------------------------------ SQL values

  datatype SqlValue = Null | Text(s: string) | Number(n: int)

  function ToText(v: SqlValue): string
  {
    match v
    case Null => ""
    case Text(s) => s
    case Number(n) => IntToString(n)
  }

  /** The 1-based position of the first occurrence of `sub` in `s`, or 0. */
  function Position(sub: string, s: string): (k: nat)
    ensures k > 0 ==> OccursAt(s, sub, k - 1)
    ensures forall j :: 0 <= j < k - 1 ==> !OccursAt(s, sub, j)
    ensures k == 0 <==> !Contains(s, sub)
  {
    PositionFrom(sub, s, 0)
  }

  function PositionFrom(sub: string, s: string, i: nat): (k: nat)
    requires forall j :: 0 <= j < i ==> !OccursAt(s, sub, j)
    ensures k > 0 ==> i < k && OccursAt(s, sub, k - 1)
    ensures forall j :: 0 <= j < k - 1 ==> !OccursAt(s, sub, j)
    ensures k == 0 <==> !Contains(s, sub)
    decreases |s| - i
  {
    if i + |sub| > |s| then 0
    else if OccursAt(s, sub, i) then i + 1
    else PositionFrom(sub, s, i + 1)
  }

  function FirstNonNull(vs: seq<SqlValue>): SqlValue
    decreases |vs|
  {
    if vs == [] then Null else if vs[0] != Null then vs[0] else FirstNonNull(vs[1..])
  }

  predicate AnyNull(vs: seq<SqlValue>)
  {
    exists i :: 0 <= i < |vs| && vs[i] == Null
  }

  function ConcatText(vs: seq<SqlValue>): string
    decreases |vs|
  {
    if vs == [] then "" else ToText(vs[0]) + ConcatText(vs[1..])
  }

  /** What Snowflake computes for a call of `name` on `vs`, for the
      functions the renderers emit; None for any other. */
  function SqlCall(name: string, vs: seq<SqlValue>): Option<SqlValue>
  {
    if name == "CONCAT" then Some(if AnyNull(vs) then Null else Text(ConcatText(vs)))
    else if name == "COALESCE" then Some(FirstNonNull(vs))
    else if name == "POSITION" && |vs| == 2 then
      Some(if AnyNull(vs) then Null else Number(Position(ToText(vs[0]), ToText(vs[1]))))
    else None
  }

  /** An expression a renderer does not rewrite further. */
  predicate Atomic(e: Expr)
  {
    e.Col? || e.Val?
  }

  function Atom(e: Expr, row: map<string, SqlValue>): SqlValue
    requires Atomic(e)
  {
    match e
    case Col(n) => if n in row then row[n] else Null
    case Val(t) => Text(t)
  }

  /** The value of an argument of the rendered call: an atom, or COALESCE
      over atoms. */
  function ArgValue(e: Expr, row: map<string, SqlValue>): Option<SqlValue>
  {
    if Atomic(e) then Some(Atom(e, row))
    else if e.Coalesce? && forall i :: 0 <= i < |e.args| ==> Atomic(e.args[i]) then
      Some(FirstNonNull(seq(|e.args|, i requires 0 <= i < |e.args| && Atomic(e.args[i]) => Atom(e.args[i], row))))
    else None
  }

  function ArgValues(args: seq<Expr>, row: map<string, SqlValue>): Option<seq<SqlValue>>
    decreases |args|
  {
    if args == [] then Some([])
    else
      match ArgValue(args[0], row)
      case None => None
      case Some(v) =>
        match ArgValues(args[1..], row)
        case None => None
        case Some(vs) => Some([v] + vs)
  }

  /** What the SQL of a rendering computes, given the SQL function name the
      class uses when the rendering does not name one. */
  function RenderedValue(r: Rendering, defaultFunction: string, row: map<string, SqlValue>): Option<SqlValue>
  {
    if !r.expr.Func? then None
    else
      match ArgValues(r.expr.args, row)
      case None => None
      case Some(vs) => SqlCall(if r.functionName.Some? then r.functionName.value else defaultFunction, vs)
  }

  /** Django's documented meaning of the two rewritten classes over atoms:
      `ConcatPair` joins its operands with NULL read as the empty string, and
      `StrIndex(string, substring)` is the 1-based position of `substring`
      in `string`, or 0. */
  function Intended(cls: FuncClass, args: seq<Expr>, row: map<string, SqlValue>): Option<SqlValue>
  {
    if cls == ConcatPair && |args| == 2 && Atomic(args[0]) && Atomic(args[1]) then
      Some(Text(ToText(Atom(args[0], row)) + ToText(Atom(args[1], row))))
    else if cls == StrIndex && |args| == 2 && Atomic(args[0]) && Atomic(args[1]) then
      var s := Atom(args[0], row);
      var sub := Atom(args[1], row);
      Some(if s == Null || sub == Null then Null else Number(Position(ToText(sub), ToText(s))))
    else None
  }

  // ------------------------------------------------------------- templates

  /** The text of one piece. */
  function PieceText(p: Piece, data: map<string, string>): Result<string>
  {
    match p
    case Lit(text) => Ok(text)
    case Slot(name) => if name in data then Ok(data[name]) else Err("KeyError: '" + name + "'")
  }

  /** `template % data`; a slot whose name `data` lacks raises KeyError. */
  function RenderTemplate(t: seq<Piece>, data: map<string, string>): (r: Result<string>)
    ensures r.Err? <==> exists i :: 0 <= i < |t| && t[i].Slot? && t[i].name !in data
    decreases |t|
  {
    if t == [] then Ok("")
    else
      var head := PieceText(t[0], data);
      var rest := RenderTemplate(t[1..], data);
      assert forall i :: 0 < i < |t| ==> t[i] == t[1..][i - 1];
      if head.Err? then head
      else if rest.Err? then rest
      else Ok(head.value + rest.value)
  }

  /** Rendering a template piece by piece. */
  lemma RenderCons(p: Piece, rest: seq<Piece>, data: map<string, string>)
    requires PieceText(p, data).Ok? && RenderTemplate(rest, data).Ok?
    ensures RenderTemplate([p] + rest, data) == Ok(PieceText(p, data).value + RenderTemplate(rest, data).value)
  {
    var t := [p] + rest;
    assert t != [] && t[0] == p && t[1..] == rest;
    var head := PieceText(t[0], data);
    var tail := RenderTemplate(t[1..], data);
    assert head.Ok? && tail.Ok?;
    assert RenderTemplate(t, data) == Ok(head.value + tail.value);
  }

  /** `COALESCE(x, '')` is `x`, or the empty string for NULL. */
  lemma CoalesceEmpty(x: SqlValue)
    ensures FirstNonNull([x, Text("")]) == if x == Null then Text("") else x
  {
    assert [x, Text("")][1..] == [Text("")] && [Text("")][1..] == [];
    if x == Null {
      assert FirstNonNull([x, Text("")]) == FirstNonNull([Text("")]);
      assert Text("") != Null;
    } else {
      assert [x, Text("")][0] == x;
    }
  }

  /** The values of two renderable arguments. */
  lemma ArgValuesPair(x: Expr, y: Expr, row: map<string, SqlValue>)
    requires ArgValue(x, row).Some? && ArgValue(y, row).Some?
    ensures ArgValues([x, y], row) == Some([ArgValue(x, row).value, ArgValue(y, row).value])
  {
    var v := ArgValue(x, row).value;
    var w := ArgValue(y, row).value;
    assert [y][0] == y && [y][1..] == [];
    assert ArgValues([], row) == Some([]);
    assert [w] + [] == [w];
    assert ArgValues([y], row) == Some([w]);
    assert [x, y][0] == x && [x, y][1..] == [y];
    assert ArgValues([x, y], row) == Some([v] + [w]);
    assert [v] + [w] == [v, w];
  }
}
