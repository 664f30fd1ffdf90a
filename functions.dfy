/** The Snowflake renderers of django_snowflake/functions.py: `concatpair`
    and `strindex`, and the table `register_functions` installs. */
module Functions {
  import opened Common
  import opened Expressions

  /** The SQL function Django's `ConcatPair` renders with. */
  const ConcatFunction: string := "CONCAT"

  /** `ConcatPair.coalesce()`: every operand becomes `COALESCE(operand, '')`. */
  function CoalesceEach(args: seq<Expr>): (r: seq<Expr>)
    ensures |r| == |args|
    ensures forall i :: 0 <= i < |args| ==> r[i] == Coalesce([args[i], Val("")])
  {
    seq(|args|, i requires 0 <= i < |args| => Coalesce([args[i], Val("")]))
  }

  /** `concatpair` (functions.py:6-8): the coalesced copy, with the extra
      context passed on. */
  function ConcatPairSql(args: seq<Expr>, extra: map<string, string>): Rendering
  {
    Rendering(Func(ConcatPair, CoalesceEach(args)), None, None, extra)
  }

  /** The rendered CONCAT computes Django's concatenation: a NULL operand
      reads as the empty string, so the result is never NULL. The extra
      context is forwarded unchanged. */
  lemma ConcatPairMeaning(a: Expr, b: Expr, extra: map<string, string>, row: map<string, SqlValue>)
    requires Atomic(a) && Atomic(b)
    ensures RenderedValue(ConcatPairSql([a, b], extra), ConcatFunction, row) == Intended(ConcatPair, [a, b], row)
    ensures RenderedValue(ConcatPairSql([a, b], extra), ConcatFunction, row) != Some(Null)
    ensures ConcatPairSql([a, b], extra).context == extra
  {
    var args := CoalesceEach([a, b]);
    var va := FirstNonNull([Atom(a, row), Text("")]);
    var vb := FirstNonNull([Atom(b, row), Text("")]);
    assert ArgValue(args[0], row) == Some(va) by {
      assert seq(2, i requires 0 <= i < 2 && Atomic(args[0].args[i]) => Atom(args[0].args[i], row)) == [Atom(a, row), Text("")];
    }
    assert ArgValue(args[1], row) == Some(vb) by {
      assert seq(2, i requires 0 <= i < 2 && Atomic(args[1].args[i]) => Atom(args[1].args[i], row)) == [Atom(b, row), Text("")];
    }
    assert args == [args[0], args[1]];
    ArgValuesPair(args[0], args[1], row);
    CoalesceEmpty(Atom(a, row));
    CoalesceEmpty(Atom(b, row));
    assert !AnyNull([va, vb]) by {
      assert [va, vb][0] == va && [va, vb][1] == vb;
    }
    assert ConcatText([va, vb]) == ToText(va) + ToText(vb) by {
      assert [va, vb][1..] == [vb] && [vb][1..] == [];
      assert ConcatText([]) == "";
      assert ConcatText([vb]) == ToText(vb);
    }
  }

  /** Without `coalesce()`, CONCAT returns NULL when an operand is NULL. */
  lemma ConcatWithoutCoalesceIsNull(a: Expr, b: Expr, row: map<string, SqlValue>)
    requires Atomic(a) && Atomic(b) && Atom(a, row) == Null
    ensures RenderedValue(Rendering(Func(ConcatPair, [a, b]), None, None, map[]), ConcatFunction, row) == Some(Null)
    ensures Intended(ConcatPair, [a, b], row) != Some(Null)
  {
    ArgValuesPair(a, b, row);
    assert [Atom(a, row), Atom(b, row)][0] == Null;
  }

  /** The error Python raises for a missing second source expression. */
  const IndexError: string := "IndexError: list index out of range"

  /** `strindex` (functions.py:11-17): a new StrIndex over the source
      expressions in swapped order, rendered as POSITION. */
  function StrIndexSql(args: seq<Expr>, extra: map<string, string>): Result<Rendering>
  {
    if |args| < 2 then Err(IndexError)
    else if "function" in extra then Err(DuplicateKeyword("function"))
    else Ok(Rendering(Func(StrIndex, [args[1], args[0]]), Some("POSITION"), None, extra))
  }

  /** The rendered POSITION computes Django's StrIndex: the position of the
      substring (second argument) in the string (first argument), whatever
      function name the class would otherwise use; the extra context is
      forwarded. A `function` in the extra context is passed twice. */
  lemma StrIndexMeaning(s: Expr, sub: Expr, extra: map<string, string>, row: map<string, SqlValue>, defaultFunction: string)
    requires Atomic(s) && Atomic(sub)
    ensures StrIndexSql([s, sub], extra).Ok? <==> "function" !in extra
    ensures StrIndexSql([s, sub], extra).Err? ==> StrIndexSql([s, sub], extra).message == DuplicateKeyword("function")
    ensures StrIndexSql([s, sub], extra).Ok? ==>
      RenderedValue(StrIndexSql([s, sub], extra).value, defaultFunction, row) == Intended(StrIndex, [s, sub], row) &&
      StrIndexSql([s, sub], extra).value.context == extra
  {
    var vs := [Atom(sub, row), Atom(s, row)];
    ArgValuesPair(sub, s, row);
    assert AnyNull(vs) <==> Atom(s, row) == Null || Atom(sub, row) == Null by {
      assert vs[0] == Atom(sub, row) && vs[1] == Atom(s, row);
    }
  }

  /** Fewer than two source expressions raise IndexError before rendering. */
  lemma StrIndexNeedsTwo(args: seq<Expr>, extra: map<string, string>)
    requires |args| < 2
    ensures StrIndexSql(args, extra) == Err(IndexError)
  {
  }

  /** `register_functions` (functions.py:20-26). */
  const Registry: map<FuncClass, Renderer> := map[
    Sha(224) := AsMysql, Sha(256) := AsMysql, Sha(384) := AsMysql, Sha(512) := AsMysql,
    ConcatPair := ConcatPairRenderer, StrIndex := StrIndexRenderer
  ]

  /** The SHA classes reuse MySQL's renderer; the other two use the
      Snowflake renderers above. */
  lemma RegistryRenderers()
    ensures forall k :: k in Registry ==> (Registry[k] == AsMysql <==> k.Sha?)
    ensures forall k :: k in Registry && k.Sha? ==> k.bits in {224, 256, 384, 512}
    ensures Registry.Keys == {Sha(224), Sha(256), Sha(384), Sha(512), ConcatPair, StrIndex}
  {
  }
}
