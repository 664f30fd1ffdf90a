/** JSON key-path navigation on VARIANT columns: path compilation, the key
    transforms and the has-key lookups (django_snowflake/lookups.py). */
module Lookups {
  import opened Common

  /** One step of a key path. Python's `int(transform)` decides the kind: a
      transform that parses as an integer is an array index. */
  datatype PathSegment = Index(n: int) | Key(name: string)

  /** `"` becomes `\"`, so that a key cannot close its quoted identifier. */
  function EscapeQuotes(key: string): string
  {
    Replace(key, '"', "\\\"")
  }

  /** Every `%` doubled, so that it survives the driver's `%`-interpolation. */
  function EscapePercent(s: string): string
  {
    Replace(s, '%', "%%")
  }

  /** The rendering of one segment; `first` says that nothing has been rendered yet. */
  function SegmentSql(seg: PathSegment, first: bool): (r: string)
    ensures |r| > 0
    ensures seg.Index? ==> r == "[" + IntToString(seg.n) + "]"
    ensures seg.Key? ==> r[0] == (if first then ':' else '.') && r[1..] == "\"" + EscapeQuotes(seg.name) + "\""
  {
    match seg
    case Index(n) => "[" + IntToString(n) + "]"
    case Key(k) => (if first then ":" else ".") + "\"" + EscapeQuotes(k) + "\""
  }

  /** The path before percent escaping: the segments' renderings in input
      order, where only the segment at position 0 is rendered as the first. */
  function RawPath(segs: seq<PathSegment>): string
    decreases |segs|
  {
    if |segs| == 0 then ""
    else RawPath(segs[..|segs| - 1]) + SegmentSql(segs[|segs| - 1], |segs| == 1)
  }

  /** What `compile_json_path` returns. */
  function JsonPath(segs: seq<PathSegment>): string
  {
    EscapePercent(RawPath(segs))
  }

  lemma RawPathEmpty(segs: seq<PathSegment>)
    ensures RawPath(segs) == "" <==> segs == []
  {
  }

  /** `compile_json_path` (lookups.py:6-22): the loop accumulates the segments'
      renderings, choosing `:` for a key only while nothing has been rendered. */
  method CompileJsonPath(keyTransforms: seq<PathSegment>) returns (path: string)
    ensures path == JsonPath(keyTransforms)
  {
    var jsonPath := "";
    var i := 0;
    while i < |keyTransforms|
      invariant 0 <= i <= |keyTransforms|
      invariant jsonPath == RawPath(keyTransforms[..i])
      invariant jsonPath == "" <==> i == 0
    {
      var transform := keyTransforms[i];
      var piece;
      if transform.Key? {
        // The first separator must be a colon, otherwise a period.
        var separator := if jsonPath == "" then ":" else ".";
        var escaped := Replace(transform.name, '"', "\\\"");
        piece := separator + "\"" + escaped + "\"";
      } else {
        piece := "[" + IntToString(transform.n) + "]";
      }
      assert piece == SegmentSql(transform, i == 0);
      RawPathStep(keyTransforms, i);
      jsonPath := jsonPath + piece;
      i := i + 1;
    }
    assert keyTransforms[..i] == keyTransforms;
    path := Replace(jsonPath, '%', "%%");
  }

  lemma RawPathStep(segs: seq<PathSegment>, i: nat)
    requires i < |segs|
    ensures RawPath(segs[..i + 1]) == RawPath(segs[..i]) + SegmentSql(segs[i], i == 0)
  {
    assert segs[..i + 1][..i] == segs[..i];
  }

  /** Appending a segment appends its (escaped) rendering: the output is built
      in input order, and the appended key is rendered with `:` only when it is
      the very first segment. */
  lemma {:induction false} JsonPathAppend(segs: seq<PathSegment>, seg: PathSegment)
    ensures JsonPath(segs + [seg]) == JsonPath(segs) + EscapePercent(SegmentSql(seg, segs == []))
  {
    var all := segs + [seg];
    assert all[..|all| - 1] == segs;
    ReplaceConcat(RawPath(segs), SegmentSql(seg, segs == []), '%', "%%");
  }

  /** A key after a leading index still uses `.`: only position 0 gets `:`. */
  lemma KeyAfterIndexUsesPeriod(n: int, key: string)
    ensures JsonPath([Index(n), Key(key)]) == JsonPath([Index(n)]) + EscapePercent("." + "\"" + EscapeQuotes(key) + "\"")
  {
    JsonPathAppend([Index(n)], Key(key));
    assert [Index(n)] + [Key(key)] == [Index(n), Key(key)];
  }

  // ------------------------------------------------------------ escaping

  /** Read left to right, every `%` is the first half of a `%%` pair. */
  predicate WellEscaped(s: string)
    decreases |s|
  {
    if s == [] then true
    else if s[0] != '%' then WellEscaped(s[1..])
    else |s| >= 2 && s[1] == '%' && WellEscaped(s[2..])
  }

  /** Python's `%`-interpolation of a well-escaped text: each `%%` becomes `%`. */
  function UnescapePercent(s: string): string
    requires WellEscaped(s)
    decreases |s|
  {
    if s == [] then []
    else if s[0] != '%' then [s[0]] + UnescapePercent(s[1..])
    else "%" + UnescapePercent(s[2..])
  }

  /** The escaped path is exactly the unescaped one with every `%` doubled:
      it is well escaped, and interpolation gives the unescaped text back. */
  lemma {:induction false} EscapePercentRoundTrip(s: string)
    ensures WellEscaped(EscapePercent(s))
    ensures UnescapePercent(EscapePercent(s)) == s
    decreases |s|
  {
    if s != [] {
      EscapePercentRoundTrip(s[1..]);
      var t := EscapePercent(s);
      if s[0] == '%' {
        assert t == "%%" + EscapePercent(s[1..]);
        assert t[2..] == EscapePercent(s[1..]);
      } else {
        assert t == [s[0]] + EscapePercent(s[1..]);
        assert t[1..] == EscapePercent(s[1..]);
      }
      assert s == [s[0]] + s[1..];
    }
  }

  /** Escaping lengthens any text that holds a `%`. */
  lemma {:induction false} EscapePercentGrows(s: string)
    ensures |EscapePercent(s)| >= |s|
    ensures '%' in s ==> |EscapePercent(s)| > |s|
    decreases |s|
  {
    if s != [] {
      EscapePercentGrows(s[1..]);
      if s[0] != '%' {
        assert '%' in s ==> '%' in s[1..];
      }
    }
  }

  lemma {:induction false} WellEscapedJoin(a: string, b: string)
    requires WellEscaped(a) && WellEscaped(b)
    ensures WellEscaped(a + b)
    decreases |a|
  {
    var t := a + b;
    if a == [] {
      assert t == b;
    } else if a[0] != '%' {
      assert t[0] == a[0] && t[1..] == a[1..] + b;
      WellEscapedJoin(a[1..], b);
    } else {
      assert t[0] == '%' && t[1] == '%' && t[2..] == a[2..] + b;
      WellEscapedJoin(a[2..], b);
    }
  }

  lemma {:induction false} WellEscapedConcat(a: string, b: string)
    requires WellEscaped(a) && WellEscaped(b)
    ensures WellEscaped(a + b) && UnescapePercent(a + b) == UnescapePercent(a) + UnescapePercent(b)
    decreases |a|
  {
    WellEscapedJoin(a, b);
    var t := a + b;
    if a == [] {
      assert t == b;
    } else if a[0] != '%' {
      var rest := a[1..];
      assert t[0] == a[0] && t[1..] == rest + b;
      WellEscapedConcat(rest, b);
      var u := UnescapePercent(rest);
      assert UnescapePercent(t) == [t[0]] + UnescapePercent(t[1..]);
      assert UnescapePercent(a) == [a[0]] + u;
      AppendAssociative([a[0]], u, UnescapePercent(b));
    } else {
      var rest := a[2..];
      assert t[0] == '%' && t[1] == '%' && t[2..] == rest + b;
      WellEscapedConcat(rest, b);
      var u := UnescapePercent(rest);
      assert UnescapePercent(t) == "%" + UnescapePercent(t[2..]);
      assert UnescapePercent(a) == "%" + u;
      AppendAssociative("%", u, UnescapePercent(b));
    }
  }

  lemma {:induction false} NoPercentWellEscaped(s: string)
    requires '%' !in s
    ensures WellEscaped(s) && UnescapePercent(s) == s
    decreases |s|
  {
    if s != [] {
      assert s == [s[0]] + s[1..];
      NoPercentWellEscaped(s[1..]);
    }
  }

  /** Unescaping undoes the quote escaping of a key: `\"` reads back as `"`. */
  function UnescapeQuotes(s: string): string
    decreases |s|
  {
    if |s| >= 2 && s[0] == '\\' && s[1] == '"' then "\"" + UnescapeQuotes(s[2..])
    else if s == [] then []
    else [s[0]] + UnescapeQuotes(s[1..])
  }

  /** Quote escaping is invertible: reading `\"` as `"` and every other
      character as itself gives the key back. A backslash is not escaped, so
      a reader that also treats `\` as an escape character would not. */
  lemma {:induction false} EscapeQuotesRoundTrip(key: string)
    ensures UnescapeQuotes(EscapeQuotes(key)) == key
    ensures EscapeQuotes(key) != [] ==> EscapeQuotes(key)[0] != '"'
    decreases |key|
  {
    if key != [] {
      EscapeQuotesRoundTrip(key[1..]);
      var t := EscapeQuotes(key);
      if key[0] == '"' {
        assert t == "\\\"" + EscapeQuotes(key[1..]);
        assert t[2..] == EscapeQuotes(key[1..]);
      } else {
        assert t == [key[0]] + EscapeQuotes(key[1..]);
        assert t[1..] == EscapeQuotes(key[1..]);
      }
      assert key == [key[0]] + key[1..];
    }
  }

  /** Distinct keys give distinct escaped keys. */
  lemma EscapeQuotesInjective(a: string, b: string)
    ensures EscapeQuotes(a) == EscapeQuotes(b) ==> a == b
  {
    EscapeQuotesRoundTrip(a);
    EscapeQuotesRoundTrip(b);
  }

  // ------------------------------------------------------------ key transforms

  /** `key_text_transform` (lookups.py:25-28): the navigated value cast to text. */
  function KeyTextTransform(lhs: string, params: seq<Param>, keyTransforms: seq<PathSegment>): Fragment
  {
    Fragment(lhs + JsonPath(keyTransforms) + "::VARCHAR", params)
  }

  /** `key_transform` (lookups.py:69-72): the navigated value serialised as JSON. */
  function KeyTransform(lhs: string, params: seq<Param>, keyTransforms: seq<PathSegment>): Fragment
  {
    Fragment("TO_JSON(" + lhs + JsonPath(keyTransforms) + ")", params)
  }

  /** A well-escaped text binds no parameter. */
  lemma {:induction false} WellEscapedNoPlaceholder(s: string)
    requires WellEscaped(s)
    ensures PlaceholderCount(s) == Some(0)
    decreases |s|
  {
    if s != [] {
      if s[0] != '%' {
        WellEscapedNoPlaceholder(s[1..]);
      } else {
        WellEscapedNoPlaceholder(s[2..]);
      }
    }
  }

  /** The left-hand side followed by a compiled path binds the left-hand
      side's parameters. */
  lemma LhsPathBalanced(lhs: string, params: seq<Param>, keyTransforms: seq<PathSegment>)
    requires Balanced(Fragment(lhs, params))
    ensures PlaceholderCount(lhs + JsonPath(keyTransforms)) == Some(|params|)
  {
    var path := JsonPath(keyTransforms);
    EscapePercentRoundTrip(RawPath(keyTransforms));
    WellEscapedNoPlaceholder(path);
    PlaceholderSum(lhs, path, |params|, 0);
  }

  lemma KeyTextTransformBalanced(lhs: string, params: seq<Param>, keyTransforms: seq<PathSegment>)
    requires Balanced(Fragment(lhs, params))
    ensures Balanced(KeyTextTransform(lhs, params, keyTransforms))
  {
    var inner := lhs + JsonPath(keyTransforms);
    LhsPathBalanced(lhs, params, keyTransforms);
    assert '%' !in "" && '%' !in "::VARCHAR";
    WrapBalanced("", inner, "::VARCHAR");
    assert "" + inner + "::VARCHAR" == lhs + JsonPath(keyTransforms) + "::VARCHAR";
  }

  lemma KeyTransformBalanced(lhs: string, params: seq<Param>, keyTransforms: seq<PathSegment>)
    requires Balanced(Fragment(lhs, params))
    ensures Balanced(KeyTransform(lhs, params, keyTransforms))
  {
    var inner := lhs + JsonPath(keyTransforms);
    LhsPathBalanced(lhs, params, keyTransforms);
    assert '%' !in "TO_JSON(" && '%' !in ")";
    WrapBalanced("TO_JSON(", inner, ")");
    assert "TO_JSON(" + lhs + JsonPath(keyTransforms) + ")" == "TO_JSON(" + inner + ")";
  }

  /** The key transforms bind only the left-hand side's parameters: the
      compiled path, escaped, adds no placeholder, so a balanced left-hand
      side gives balanced transforms, whatever the keys hold. */
  lemma KeyTransformsBalanced(lhs: string, params: seq<Param>, keyTransforms: seq<PathSegment>)
    requires Balanced(Fragment(lhs, params))
    ensures Balanced(KeyTextTransform(lhs, params, keyTransforms))
    ensures Balanced(KeyTransform(lhs, params, keyTransforms))
    ensures KeyTextTransform(lhs, params, keyTransforms).params == params
    ensures KeyTransform(lhs, params, keyTransforms).params == params
  {
    KeyTextTransformBalanced(lhs, params, keyTransforms);
    KeyTransformBalanced(lhs, params, keyTransforms);
  }

  // ------------------------------------------------------------ has-key lookups

  /** The rendered path of one right-hand key: the path of all its transforms
      but the last, then the last one rendered by Django's
      `compile_json_path_final_key` (the parameter `finalKey`), whose first `.`
      becomes `:` when there is no prefix path. */
  function KeyPath(key: seq<PathSegment>, finalKey: PathSegment -> string): string
    requires |key| > 0
  {
    var prefix := JsonPath(key[..|key| - 1]);
    var last := finalKey(key[|key| - 1]);
    prefix + (if prefix == "" then ReplaceFirst(last, '.', ":") else last)
  }

  function KeyPaths(keys: seq<seq<PathSegment>>, finalKey: PathSegment -> string): (paths: seq<string>)
    requires forall i :: 0 <= i < |keys| ==> |keys[i]| > 0
    ensures |paths| == |keys|
  {
    seq(|keys|, i requires 0 <= i < |keys| => KeyPath(keys[i], finalKey))
  }

  /** One key's condition. */
  function NotNullSql(lhs: string, lhsPath: string, path: string): string
  {
    "IS_NULL_VALUE(" + lhs + lhsPath + path + ") IS NOT NULL"
  }

  /** The has-key condition over rendered paths: with a logical operator,
      one condition per key joined by it, in parentheses; otherwise the first
      key's condition alone. */
  function HasKeyCondition(lhs: string, lhsPath: string, paths: seq<string>, logicalOperator: Option<string>): string
    requires !Truthy(logicalOperator) ==> |paths| > 0
  {
    if Truthy(logicalOperator) then
      "(" + Join(seq(|paths|, i requires 0 <= i < |paths| => NotNullSql(lhs, lhsPath, paths[i])), logicalOperator.value) + ")"
    else NotNullSql(lhs, lhsPath, paths[0])
  }

  /** What `has_key_lookup` renders; the right-hand side contributes no parameters. */
  function HasKeySql(lhs: string, lhsPath: seq<PathSegment>, keys: seq<seq<PathSegment>>,
                     finalKey: PathSegment -> string, logicalOperator: Option<string>): string
    requires forall i :: 0 <= i < |keys| ==> |keys[i]| > 0
    requires !Truthy(logicalOperator) ==> |keys| > 0
  {
    HasKeyCondition(lhs, JsonPath(lhsPath), KeyPaths(keys, finalKey), logicalOperator)
  }

  /** The path of one right-hand key, as the loop of `has_key_lookup`
      (lookups.py:47-59) compiles it. */
  method CompileKeyPath(key: seq<PathSegment>, finalKey: PathSegment -> string) returns (rhsJsonPath: string)
    requires |key| > 0
    ensures rhsJsonPath == KeyPath(key, finalKey)
  {
    var rhsKeyTransforms := key[..|key| - 1];
    var finalSegment := key[|key| - 1];
    rhsJsonPath := CompileJsonPath(rhsKeyTransforms);
    var final := finalKey(finalSegment);
    // If this is the only key, the separator must be a colon.
    if rhsJsonPath == "" {
      final := ReplaceFirst(final, '.', ":");
    }
    rhsJsonPath := rhsJsonPath + final;
  }

  /** `has_key_lookup` (lookups.py:31-66), with the logical-operator branch
      corrected: the lhs path is substituted still `%%`-escaped, where
      lookups.py:62-63 interpolates it a second time (`HasKeySqlAsWritten`).
      With a logical operator the two differ whenever the lhs path holds a `%`. `lhsPath` holds
      the key transforms of a KeyTransform left-hand side (empty for a plain
      column); `keys` holds, per right-hand key, its key transforms (a plain
      key `k` is `[k]`). */
  method HasKeyLookup(lhs: string, lhsParams: seq<Param>, lhsPath: seq<PathSegment>,
                      keys: seq<seq<PathSegment>>, finalKey: PathSegment -> string,
                      logicalOperator: Option<string>) returns (f: Fragment)
    requires forall i :: 0 <= i < |keys| ==> |keys[i]| > 0
    requires !Truthy(logicalOperator) ==> |keys| > 0
    ensures f.params == lhsParams
    ensures f.sql == HasKeySql(lhs, lhsPath, keys, finalKey, logicalOperator)
  {
    var lhsJsonPath := CompileJsonPath(lhsPath);
    var rhsJsonPaths: seq<string> := [];
    var i := 0;
    while i < |keys|
      invariant 0 <= i <= |keys|
      invariant rhsJsonPaths == KeyPaths(keys[..i], finalKey)
    {
      var rhsJsonPath := CompileKeyPath(keys[i], finalKey);
      assert keys[..i + 1] == keys[..i] + [keys[i]];
      rhsJsonPaths := rhsJsonPaths + [rhsJsonPath];
      i := i + 1;
    }
    assert keys[..i] == keys;
    assert rhsJsonPaths == KeyPaths(keys, finalKey);
    var sql;
    if Truthy(logicalOperator) {
      var conditions := seq(|rhsJsonPaths|, j requires 0 <= j < |rhsJsonPaths| => NotNullSql(lhs, lhsJsonPath, rhsJsonPaths[j]));
      sql := "(" + Join(conditions, logicalOperator.value) + ")";
    } else {
      sql := NotNullSql(lhs, lhsJsonPath, rhsJsonPaths[0]);
    }
    f := Fragment(sql, lhsParams);
  }

  /** A key with no prefix path: exactly the first `.` of its final-key
      rendering becomes `:`. */
  lemma SoleKeyPath(key: PathSegment, finalKey: PathSegment -> string)
    ensures var last := finalKey(key); var k := IndexOf(last, '.');
      KeyPath([key], finalKey) == if k == |last| then last else last[..k] + ":" + last[k + 1..]
  {
    assert [key][..0] == [];
    ReplaceFirstAt(finalKey(key), '.', ":");
  }

  /** Without a logical operator only the first key counts. */
  lemma HasKeyUsesFirstKey(lhs: string, lhsPath: seq<PathSegment>, keys: seq<seq<PathSegment>>,
                           finalKey: PathSegment -> string)
    requires forall i :: 0 <= i < |keys| ==> |keys[i]| > 0
    requires |keys| > 0
    ensures HasKeySql(lhs, lhsPath, keys, finalKey, None) == HasKeySql(lhs, lhsPath, keys[..1], finalKey, None)
  {
  }

  /** With a logical operator and a single key, the condition is the
      operator-free condition in parentheses. */
  lemma HasKeySingleKeyParenthesized(lhs: string, lhsPath: seq<PathSegment>, key: seq<PathSegment>,
                                     finalKey: PathSegment -> string, logicalOperator: Option<string>)
    requires |key| > 0 && Truthy(logicalOperator)
    ensures HasKeySql(lhs, lhsPath, [key], finalKey, logicalOperator)
         == "(" + HasKeySql(lhs, lhsPath, [key], finalKey, None) + ")"
  {
  }

  // ------------------------------------------------------------ as written

  function Prepend(prefix: string, rest: Option<string>): Option<string>
  {
    if rest.Some? then Some(prefix + rest.value) else None
  }

  /** Python's `template % arg` for one string argument, restricted to the
      conversions `%%` (a literal `%`) and `%s` (the argument, exactly once);
      any other conversion, a second `%s` or none at all raises (None). */
  function Interpolate(template: string, arg: string, used: bool): Option<string>
    decreases |template|
  {
    if template == [] then (if used then Some("") else None)
    else if template[0] != '%' then Prepend([template[0]], Interpolate(template[1..], arg, used))
    else if |template| >= 2 && template[1] == '%' then Prepend("%", Interpolate(template[2..], arg, used))
    else if |template| >= 2 && template[1] == 's' && !used then Prepend(arg, Interpolate(template[2..], arg, true))
    else None
  }

  lemma {:induction false} InterpolateTail(q: string, arg: string)
    requires '%' !in q
    ensures Interpolate(q, arg, true) == Some(q)
    decreases |q|
  {
    if q != [] {
      assert q == [q[0]] + q[1..];
      InterpolateTail(q[1..], arg);
    }
  }

  /** Interpolation reads a well-escaped prefix as its unescaped text. */
  lemma {:induction false} InterpolatePrefix(p: string, rest: string, arg: string, used: bool)
    requires WellEscaped(p)
    ensures Interpolate(p + rest, arg, used) == Prepend(UnescapePercent(p), Interpolate(rest, arg, used))
    decreases |p|
  {
    var t := p + rest;
    if p == [] {
      assert t == rest;
      var x := Interpolate(rest, arg, used);
      if x.Some? {
        assert UnescapePercent(p) + x.value == x.value;
      }
    } else if p[0] != '%' {
      assert t[0] == p[0] && t[1..] == p[1..] + rest;
      InterpolatePrefix(p[1..], rest, arg, used);
      assert Interpolate(t, arg, used) == Prepend([p[0]], Interpolate(t[1..], arg, used));
      assert UnescapePercent(p) == [p[0]] + UnescapePercent(p[1..]);
      var x := Interpolate(rest, arg, used);
      if x.Some? {
        AppendAssociative([p[0]], UnescapePercent(p[1..]), x.value);
      }
    } else {
      assert t[0] == '%' && t[1] == '%' && t[2..] == p[2..] + rest;
      InterpolatePrefix(p[2..], rest, arg, used);
      assert Interpolate(t, arg, used) == Prepend("%", Interpolate(t[2..], arg, used));
      assert UnescapePercent(p) == "%" + UnescapePercent(p[2..]);
      var x := Interpolate(rest, arg, used);
      if x.Some? {
        AppendAssociative("%", UnescapePercent(p[2..]), x.value);
      }
    }
  }

  lemma InterpolateDirective(q: string, arg: string)
    requires '%' !in q
    ensures Interpolate("%s" + q, arg, false) == Some(arg + q)
  {
    var r := "%s" + q;
    assert r[0] == '%' && r[1] == 's' && r[2..] == q;
    InterpolateTail(q, arg);
  }

  /** Interpolating `p + "%s" + q` unescapes `p`, when every `%` of `p` is doubled. */
  lemma InterpolateEscaped(p: string, q: string, arg: string)
    requires WellEscaped(p) && '%' !in q
    ensures Interpolate(p + "%s" + q, arg, false) == Some(UnescapePercent(p) + arg + q)
  {
    var r := "%s" + q;
    InterpolateDirective(q, arg);
    InterpolatePrefix(p, r, arg, false);
    assert p + "%s" + q == p + r;
    assert UnescapePercent(p) + (arg + q) == UnescapePercent(p) + arg + q;
  }

  function AllSome(xs: seq<Option<string>>): Option<seq<string>>
    decreases |xs|
  {
    if xs == [] then Some([])
    else if xs[0].None? then None
    else var rest := AllSome(xs[1..]); if rest.Some? then Some([xs[0].value] + rest.value) else None
  }

  lemma {:induction false} AllSomeOfSome(xs: seq<string>)
    ensures AllSome(seq(|xs|, i requires 0 <= i < |xs| => Some(xs[i]))) == Some(xs)
    decreases |xs|
  {
    if xs != [] {
      var ys := seq(|xs|, i requires 0 <= i < |xs| => Some(xs[i]));
      assert ys[1..] == seq(|xs[1..]|, i requires 0 <= i < |xs[1..]| => Some(xs[1..][i]));
      AllSomeOfSome(xs[1..]);
      assert xs == [xs[0]] + xs[1..];
    }
  }

  /** `has_key_lookup` exactly as written: with a logical operator, each
      condition is produced by `sql % path` from a template that already holds
      the left-hand side and its escaped path (lookups.py:62-63); a failing
      interpolation raises (None). */
  function HasKeySqlAsWritten(lhs: string, lhsPath: seq<PathSegment>, keys: seq<seq<PathSegment>>,
                              finalKey: PathSegment -> string, logicalOperator: Option<string>): Option<string>
    requires forall i :: 0 <= i < |keys| ==> |keys[i]| > 0
    requires !Truthy(logicalOperator) ==> |keys| > 0
  {
    var paths := KeyPaths(keys, finalKey);
    if Truthy(logicalOperator) then
      var template := "IS_NULL_VALUE(" + lhs + JsonPath(lhsPath) + "%s" + ") IS NOT NULL";
      var conditions := AllSome(seq(|paths|, i requires 0 <= i < |paths| => Interpolate(template, paths[i], false)));
      if conditions.Some? then Some("(" + Join(conditions.value, logicalOperator.value) + ")") else None
    else Some(NotNullSql(lhs, JsonPath(lhsPath), paths[0]))
  }

  /** One condition of the as-written branch: interpolating the template
      unescapes the left-hand path. */
  lemma AsWrittenCondition(lhs: string, lhsPath: seq<PathSegment>, path: string)
    requires '%' !in lhs
    ensures Interpolate("IS_NULL_VALUE(" + lhs + JsonPath(lhsPath) + "%s" + ") IS NOT NULL", path, false)
         == Some(NotNullSql(lhs, RawPath(lhsPath), path))
  {
    var head := "IS_NULL_VALUE(" + lhs;
    var prefix := head + JsonPath(lhsPath);
    var q := ") IS NOT NULL";
    NoPercentWellEscaped(head);
    EscapePercentRoundTrip(RawPath(lhsPath));
    WellEscapedConcat(head, JsonPath(lhsPath));
    assert UnescapePercent(prefix) == head + RawPath(lhsPath);
    InterpolateEscaped(prefix, q, path);
  }

  /** As written, the logical-operator branch interpolates the left-hand path
      once more, so its `%%` escaping is undone: for a column without `%` the
      result is the condition over the UNESCAPED left-hand path. */
  lemma AsWrittenUnescapesLhsPath(lhs: string, lhsPath: seq<PathSegment>, keys: seq<seq<PathSegment>>,
                                  finalKey: PathSegment -> string, logicalOperator: Option<string>)
    requires forall i :: 0 <= i < |keys| ==> |keys[i]| > 0
    requires Truthy(logicalOperator) && '%' !in lhs
    ensures HasKeySqlAsWritten(lhs, lhsPath, keys, finalKey, logicalOperator)
         == Some(HasKeyCondition(lhs, RawPath(lhsPath), KeyPaths(keys, finalKey), logicalOperator))
  {
    var template := "IS_NULL_VALUE(" + lhs + JsonPath(lhsPath) + "%s" + ") IS NOT NULL";
    var paths := KeyPaths(keys, finalKey);
    var expected := seq(|paths|, i requires 0 <= i < |paths| => NotNullSql(lhs, RawPath(lhsPath), paths[i]));
    var got := seq(|paths|, i requires 0 <= i < |paths| => Interpolate(template, paths[i], false));
    forall i | 0 <= i < |paths|
      ensures got[i] == Some(expected[i])
    {
      AsWrittenCondition(lhs, lhsPath, paths[i]);
    }
    AllSomeOfSome(expected);
    assert got == seq(|expected|, i requires 0 <= i < |expected| => Some(expected[i]));
  }

  /** The discrepancy: when the left-hand path holds a `%`, the single-key
      lookup with a logical operator is NOT the operator-free lookup in
      parentheses, as it is in the corrected model (HasKeySingleKeyParenthesized). */
  lemma AsWrittenLogicalBranchDiffers(lhs: string, lhsPath: seq<PathSegment>, key: seq<PathSegment>,
                                      finalKey: PathSegment -> string, logicalOperator: Option<string>)
    requires |key| > 0 && Truthy(logicalOperator) && '%' !in lhs && '%' in RawPath(lhsPath)
    ensures HasKeySqlAsWritten(lhs, lhsPath, [key], finalKey, logicalOperator)
         != Some("(" + HasKeySql(lhs, lhsPath, [key], finalKey, None) + ")")
  {
    AsWrittenUnescapesLhsPath(lhs, lhsPath, [key], finalKey, logicalOperator);
    EscapePercentGrows(RawPath(lhsPath));
    var path := KeyPaths([key], finalKey)[0];
    var asWritten := HasKeyCondition(lhs, RawPath(lhsPath), KeyPaths([key], finalKey), logicalOperator);
    assert asWritten == "(" + NotNullSql(lhs, RawPath(lhsPath), path) + ")";
    assert |asWritten| < |"(" + NotNullSql(lhs, JsonPath(lhsPath), path) + ")"|;
  }

  /** A concrete input for the discrepancy: a column navigated through the key `a%b`. */
  lemma PercentKeyWitness()
    ensures '%' in RawPath([Key("a%b")])
  {
    var segs := [Key("a%b")];
    assert EscapeQuotes("a%b") == "a%b" by {
      ReplaceAbsent("a%b", '"', "\\\"");
    }
    var r := SegmentSql(segs[0], true);
    assert segs[..0] == [];
    assert RawPath(segs) == RawPath([]) + r;
    var quoted := "\"" + "a%b" + "\"";
    assert quoted[2] == '%';
    assert r[1..] == quoted;
    assert RawPath(segs)[3] == r[3] == quoted[2];
  }
}
