/** The parsers of Snowflake type names as `DESCRIBE TABLE` prints them
    (`VARCHAR(11)`, `NUMBER(38,0)`, `VARCHAR(11) COLLATE 'en-ci'`) and the
    shared `get_field_type` decision chain. Each regular expression of the
    introspection modules is written out by hand: every one of them is a
    sequence of maximal character runs and literal characters, so a match
    is found by scanning left to right without backtracking. */
module TypeParsers {
  import opened Common
  import opened FieldKinds

  predicate IsUpperAscii(c: char)
  {
    'A' <= c <= 'Z'
  }

  /** A character of the class `[\w+\-]` (with `\w` taken as ASCII letters,
      digits and `_`). */
  predicate IsCollationChar(c: char)
  {
    'A' <= c <= 'Z' || 'a' <= c <= 'z' || '0' <= c <= '9' || c == '_' || c == '+' || c == '-'
  }

  /** The character classes the patterns repeat: `[A-Z]`, `\d` (ASCII) and
      `[\w+\-]`. */
  datatype CharClass = UpperClass | DigitClass | CollationClass

  predicate InClass(c: char, cls: CharClass)
  {
    match cls
    case UpperClass => IsUpperAscii(c)
    case DigitClass => IsDigit(c)
    case CollationClass => IsCollationChar(c)
  }

  /** The end of the maximal run of `cls` characters starting at `i`. */
  function RunEnd(s: string, i: nat, cls: CharClass): (e: nat)
    requires i <= |s|
    ensures i <= e <= |s|
    ensures forall k :: i <= k < e ==> InClass(s[k], cls)
    ensures e < |s| ==> !InClass(s[e], cls)
    decreases |s| - i
  {
    if i == |s| || !InClass(s[i], cls) then i else RunEnd(s, i + 1, cls)
  }

  /** A run was maximal: it is exactly the characters of `t`. */
  lemma RunEndAt(s: string, i: nat, j: nat, cls: CharClass)
    requires i <= j <= |s|
    requires forall k :: i <= k < j ==> InClass(s[k], cls)
    requires j < |s| ==> !InClass(s[j], cls)
    ensures RunEnd(s, i, cls) == j
  {
  }

  /** Python's `$` without MULTILINE: the end of the string, or just before
      a final newline. */
  predicate AtEnd(s: string, i: nat)
  {
    i == |s| || (i + 1 == |s| && s[i] == '\n')
  }

  /** `get_data_type` (both introspection modules): `name.split('(', 1)[0]`. */
  function GetDataType(name: string): (r: string)
    ensures StartsWith(name, r)
    ensures '(' !in r
    ensures r == name <==> '(' !in name
    ensures |r| < |name| ==> name[|r|] == '('
  {
    name[..IndexOf(name, '(')]
  }

  /** `[A-Z]+\((\d+)\)` at the start of `s`, followed by the end of the
      string when `anchored` (`$`) and by anything otherwise; the value of the
      digits. */
  function FieldSize(s: string, anchored: bool): Option<nat>
  {
    var u := RunEnd(s, 0, UpperClass);
    if 0 < u < |s| && s[u] == '(' then
      var d := RunEnd(s, u + 1, DigitClass);
      if u + 1 < d < |s| && s[d] == ')' && (!anchored || AtEnd(s, d + 1)) then
        Some(DigitsValue(s[u + 1..d]))
      else None
    else None
  }

  /** `s[i..j]` is a run of `cls` characters. */
  predicate IsRun(s: string, i: nat, j: nat, cls: CharClass)
  {
    i <= j <= |s| && forall k :: i <= k < j ==> InClass(s[k], cls)
  }

  /** `s` has the shape of `[A-Z]+\((\d+)\)` (then `$` when anchored), with
      the parenthesis at `u` and `d`. */
  predicate FieldSizeShape(s: string, u: nat, d: nat, anchored: bool)
  {
    0 < u && u + 1 < d < |s| && IsRun(s, 0, u, UpperClass) && s[u] == '(' &&
    IsRun(s, u + 1, d, DigitClass) && s[d] == ')' && (anchored ==> AtEnd(s, d + 1))
  }

  /** Every string of the pattern's shape is matched, with the value of its
      digits. */
  lemma FieldSizeComplete(s: string, u: nat, d: nat, anchored: bool)
    requires FieldSizeShape(s, u, d, anchored)
    ensures AllDigits(s[u + 1..d])
    ensures FieldSize(s, anchored) == Some(DigitsValue(s[u + 1..d]))
  {
    RunEndAt(s, 0, u, UpperClass);
    RunEndAt(s, u + 1, d, DigitClass);
  }

  /** Only strings of the pattern's shape are matched. */
  lemma FieldSizeSound(s: string, anchored: bool)
    requires FieldSize(s, anchored).Some?
    ensures var u := RunEnd(s, 0, UpperClass);
      u < |s| && FieldSizeShape(s, u, RunEnd(s, u + 1, DigitClass), anchored)
  {
  }

  /** The end-anchored pattern accepts fewer strings: whatever it matches,
      the unanchored one matches with the same size. */
  lemma FieldSizeAnchoredImpliesUnanchored(s: string)
    ensures FieldSize(s, true).Some? ==> FieldSize(s, false) == FieldSize(s, true)
  {
  }

  /** Text after the closing parenthesis (as in `VARCHAR(11) COLLATE 'x'`)
      is accepted without the end anchor and rejected with it. */
  lemma TrailingTextSize(s: string, u: nat, d: nat)
    requires FieldSizeShape(s, u, d, false) && !AtEnd(s, d + 1)
    ensures FieldSize(s, false) == Some(DigitsValue(s[u + 1..d]))
    ensures FieldSize(s, true) == None
  {
    FieldSizeComplete(s, u, d, false);
  }

  /** The prefix `NUMBER(` of the precision-and-scale pattern. */
  const NumberOpen: string := "NUMBER("

  /** `^NUMBER\((\d+),(\d+)\)$`: the precision and scale, or `(None, None)`. */
  function PrecisionAndScale(s: string): (Option<nat>, Option<nat>)
  {
    if StartsWith(s, NumberOpen) then
      var p := RunEnd(s, 7, DigitClass);
      if 7 < p < |s| && s[p] == ',' then
        var q := RunEnd(s, p + 1, DigitClass);
        if p + 1 < q < |s| && s[q] == ')' && AtEnd(s, q + 1) then
          (Some(DigitsValue(s[7..p])), Some(DigitsValue(s[p + 1..q])))
        else (None, None)
      else (None, None)
    else (None, None)
  }

  /** `s` has the shape `NUMBER(p,s)` then `$`, with `,` at `p` and `)` at `q`. */
  predicate PrecisionAndScaleShape(s: string, p: nat, q: nat)
  {
    StartsWith(s, NumberOpen) && 7 < p && p + 1 < q < |s| &&
    IsRun(s, 7, p, DigitClass) && s[p] == ',' && IsRun(s, p + 1, q, DigitClass) && s[q] == ')' &&
    AtEnd(s, q + 1)
  }

  /** Every `NUMBER(p,s)` is parsed, with the values of both digit strings. */
  lemma PrecisionAndScaleComplete(s: string, p: nat, q: nat)
    requires PrecisionAndScaleShape(s, p, q)
    ensures AllDigits(s[7..p]) && AllDigits(s[p + 1..q])
    ensures PrecisionAndScale(s) == (Some(DigitsValue(s[7..p])), Some(DigitsValue(s[p + 1..q])))
  {
    RunEndAt(s, 7, p, DigitClass);
    RunEndAt(s, p + 1, q, DigitClass);
  }

  /** The two results are both present or both absent, and present only for
      a string of the shape `NUMBER(p,s)`. */
  lemma PrecisionAndScaleSound(s: string)
    ensures PrecisionAndScale(s).0.Some? <==> PrecisionAndScale(s).1.Some?
    ensures PrecisionAndScale(s).0.Some? ==>
      |s| >= 7 && var p := RunEnd(s, 7, DigitClass);
      p < |s| && PrecisionAndScaleShape(s, p, RunEnd(s, p + 1, DigitClass))
  {
    if StartsWith(s, NumberOpen) {
      var p := RunEnd(s, 7, DigitClass);
      if 7 < p < |s| && s[p] == ',' {
        var q := RunEnd(s, p + 1, DigitClass);
        assert IsRun(s, 7, p, DigitClass) && IsRun(s, p + 1, q, DigitClass);
      }
    }
  }

  /** The prefix `VARCHAR(` of the collation pattern. */
  const VarcharOpen: string := "VARCHAR("
  /** The literal between the size and the collation name: `) COLLATE '`. */
  const CollateInfix: string := ") COLLATE '"

  /** `^VARCHAR\(\d+\) COLLATE '([\w+\-]+)'$`: the collation name. */
  function GetCollation(s: string): Option<string>
  {
    if StartsWith(s, VarcharOpen) then
      var d := RunEnd(s, 8, DigitClass);
      if 8 < d && StartsWith(s[d..], CollateInfix) then
        var n := RunEnd(s, d + 11, CollationClass);
        if d + 11 < n < |s| && s[n] == '\'' && AtEnd(s, n + 1) then Some(s[d + 11..n]) else None
      else None
    else None
  }

  /** `s` has the shape `VARCHAR(n) COLLATE 'name'` then `$`, the size ending
      at `d` and the name at `n`. */
  predicate CollationShape(s: string, d: nat, n: nat)
  {
    StartsWith(s, VarcharOpen) && 8 < d && IsRun(s, 8, d, DigitClass) && StartsWith(s[d..], CollateInfix) &&
    d + 11 < n < |s| && IsRun(s, d + 11, n, CollationClass) && s[n] == '\'' && AtEnd(s, n + 1)
  }

  /** Every `VARCHAR(n) COLLATE 'name'` gives back its name. */
  lemma GetCollationComplete(s: string, d: nat, n: nat)
    requires CollationShape(s, d, n)
    ensures GetCollation(s) == Some(s[d + 11..n])
  {
    assert s[d] == ')' by {
      assert s[d..][0] == CollateInfix[0];
    }
    RunEndAt(s, 8, d, DigitClass);
    RunEndAt(s, d + 11, n, CollationClass);
  }

  /** A collation is found only in a string of that shape. */
  lemma GetCollationSound(s: string)
    requires GetCollation(s).Some?
    ensures |s| >= 8 && var d := RunEnd(s, 8, DigitClass);
      d + 11 <= |s| && var n := RunEnd(s, d + 11, CollationClass);
      CollationShape(s, d, n) && GetCollation(s) == Some(s[d + 11..n])
  {
  }

  // ------------------------------------------------------- get_field_type

  /** The size Snowflake reports for a VARCHAR declared without a length. */
  const DefaultVarcharSize: nat := 16777216

  /** `description.default and 'IDENTITY' in description.default`. */
  predicate IsIdentityDefault(default: Option<string>)
  {
    Truthy(default) && Contains(default.value, "IDENTITY")
  }

  /** The kind after the NUMBER precision rule and before the IDENTITY rule. */
  function NumberWidthKind(dataType: string, precision: Option<nat>, base: FieldKind): FieldKind
  {
    if dataType == "NUMBER" && precision == Some(5) then SmallIntegerField
    else if dataType == "NUMBER" && precision == Some(10) then IntegerField
    else base
  }

  /** `get_field_type` of both introspection modules. `reverse` is the
      module's `data_types_reverse`, in which the base class looks the type up
      (a missing type raises KeyError). `size` is the description's size
      column the module tests: `internal_size` in django_snowflake and
      `display_size` in django_snowflake_cs. */
  function GetFieldType(reverse: map<string, FieldKind>, dataType: string, size: Option<nat>,
                        precision: Option<nat>, scale: Option<nat>, default: Option<string>): Result<FieldKind>
  {
    if dataType !in reverse then Err("KeyError: '" + dataType + "'")
    else if dataType == "VARCHAR" && size == Some(DefaultVarcharSize) then Ok(TextField)
    else if dataType == "NUMBER" && scale != Some(0) then Ok(DecimalField)
    else
      var fieldType := NumberWidthKind(dataType, precision, reverse[dataType]);
      if IsIdentityDefault(default) && fieldType in {IntegerField, BigIntegerField, SmallIntegerField} then
        Ok(AutoVariant(fieldType))
      else Ok(fieldType)
  }

  /** Only a type named in the reverse table is classified. */
  lemma GetFieldTypeKnown(reverse: map<string, FieldKind>, dataType: string, size: Option<nat>,
                          precision: Option<nat>, scale: Option<nat>, default: Option<string>)
    ensures GetFieldType(reverse, dataType, size, precision, scale, default).Ok? <==> dataType in reverse
  {
  }

  /** A VARCHAR of the default size is a TextField, whatever its default. */
  lemma GetFieldTypeText(reverse: map<string, FieldKind>, size: Option<nat>,
                         precision: Option<nat>, scale: Option<nat>, default: Option<string>)
    requires "VARCHAR" in reverse && size == Some(DefaultVarcharSize)
    ensures GetFieldType(reverse, "VARCHAR", size, precision, scale, default) == Ok(TextField)
  {
  }

  /** A NUMBER with a scale other than 0 (or none) is a DecimalField even
      with an IDENTITY default. */
  lemma GetFieldTypeDecimal(reverse: map<string, FieldKind>, size: Option<nat>,
                            precision: Option<nat>, scale: Option<nat>, default: Option<string>)
    requires "NUMBER" in reverse && scale != Some(0)
    ensures GetFieldType(reverse, "NUMBER", size, precision, scale, default) == Ok(DecimalField)
  {
  }

  /** An integral NUMBER: precision 5 and 10 narrow the kind, and an IDENTITY
      default makes it the matching auto kind. */
  lemma GetFieldTypeInteger(reverse: map<string, FieldKind>, size: Option<nat>,
                            precision: Option<nat>, default: Option<string>)
    requires "NUMBER" in reverse && reverse["NUMBER"] == BigIntegerField
    ensures var k := GetFieldType(reverse, "NUMBER", size, precision, Some(0), default);
      var width := if precision == Some(5) then SmallIntegerField
                   else if precision == Some(10) then IntegerField
                   else BigIntegerField;
      k == Ok(if IsIdentityDefault(default) then AutoVariant(width) else width)
  {
  }

  /** An auto kind is produced only from an IDENTITY default (unless the
      reverse table itself names one). */
  lemma GetFieldTypeAutoNeedsIdentity(reverse: map<string, FieldKind>, dataType: string, size: Option<nat>,
                                      precision: Option<nat>, scale: Option<nat>, default: Option<string>)
    requires dataType in reverse && !IsAutoKind(reverse[dataType])
    ensures var r := GetFieldType(reverse, dataType, size, precision, scale, default);
      r.Ok? && IsAutoKind(r.value) ==> IsIdentityDefault(default)
  {
  }

  /** Outside the VARCHAR and NUMBER rules and without IDENTITY, the kind is
      the reverse table's. */
  lemma GetFieldTypeOther(reverse: map<string, FieldKind>, dataType: string, size: Option<nat>,
                          precision: Option<nat>, scale: Option<nat>, default: Option<string>)
    requires dataType in reverse && dataType != "NUMBER" && dataType != "VARCHAR"
    requires !IsIdentityDefault(default)
    ensures GetFieldType(reverse, dataType, size, precision, scale, default) == Ok(reverse[dataType])
  {
  }
}
