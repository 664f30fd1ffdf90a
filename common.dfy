/** Shared vocabulary: optional values, results, the Python values bound to SQL
    placeholders, SQL fragments, and the string and number helpers the dialect
    rules are written with. */
module Common {

  datatype Option<+T> = None | Some(value: T)

  /** An error raised by the backend (ImproperlyConfigured, ValueError, ...). */
  datatype Result<+T> = Ok(value: T) | Err(message: string)

  /** A Python value bound to a `%s` placeholder, or interpolated with `str()`. */
  datatype Param = Str(s: string) | Int(i: int) | Bool(b: bool) | NoneValue

  /** A rendered SQL fragment and its positional parameters. */
  datatype Fragment = Fragment(sql: string, params: seq<Param>)

  /** Python truthiness of a bound value. */
  predicate ParamTruthy(p: Param)
  {
    match p
    case Str(s) => s != ""
    case Int(i) => i != 0
    case Bool(b) => b
    case NoneValue => false
  }

  /** The message of the KeyError a missing dictionary key raises. */
  function KeyErrorMessage(key: string): string
  {
    "KeyError: '" + key + "'"
  }

  /** Python truthiness of an optional string (None and '' are falsy). */
  predicate Truthy(o: Option<string>)
  {
    o.Some? && o.value != ""
  }

  /** Python's `str(value)`. */
  function PyStr(p: Param): string
  {
    match p
    case Str(s) => s
    case Int(i) => IntToString(i)
    case Bool(b) => if b then "True" else "False"
    case NoneValue => "None"
  }

  // ---------------------------------------------------------------- strings

  predicate StartsWith(s: string, prefix: string)
  {
    |prefix| <= |s| && s[..|prefix|] == prefix
  }

  predicate EndsWith(s: string, suffix: string)
  {
    |suffix| <= |s| && s[|s| - |suffix|..] == suffix
  }

  lemma StartsWithConcat(a: string, b: string)
    ensures StartsWith(a + b, a)
  {
    assert (a + b)[..|a|] == a;
  }

  lemma WrapStartsWith(pre: string, inner: string, post: string)
    ensures StartsWith(pre + inner + post, pre)
  {
    assert (pre + inner + post)[..|pre|] == pre;
  }

  lemma EndsWithConcat(a: string, b: string)
    ensures EndsWith(a + b, b)
  {
    assert (a + b)[|a + b| - |b|..] == b;
  }

  /** Python's `sub in s` for strings. */
  predicate Contains(s: string, sub: string)
  {
    exists i | 0 <= i <= |s| - |sub| :: OccursAt(s, sub, i)
  }

  predicate OccursAt(s: string, sub: string, i: int)
  {
    0 <= i <= |s| - |sub| && s[i..i + |sub|] == sub
  }

  /** ASCII case mapping (the model's stand-in for Python's `str.upper`). */
  function ToUpper(c: char): char
  {
    if 'a' <= c <= 'z' then (c as int - 'a' as int + 'A' as int) as char else c
  }

  /** ASCII case mapping (the model's stand-in for Python's `str.lower`). */
  function ToLower(c: char): char
  {
    if 'A' <= c <= 'Z' then (c as int - 'A' as int + 'a' as int) as char else c
  }

  function Upper(s: string): (r: string)
    ensures |r| == |s|
    ensures forall i :: 0 <= i < |s| ==> r[i] == ToUpper(s[i])
  {
    seq(|s|, i requires 0 <= i < |s| => ToUpper(s[i]))
  }

  function Lower(s: string): (r: string)
    ensures |r| == |s|
    ensures forall i :: 0 <= i < |s| ==> r[i] == ToLower(s[i])
  {
    seq(|s|, i requires 0 <= i < |s| => ToLower(s[i]))
  }

  lemma UpperConcat(a: string, b: string)
    ensures Upper(a + b) == Upper(a) + Upper(b)
  {
  }

  /** Python's `s.replace(c, with)` for a one-character pattern. */
  function Replace(s: string, c: char, with: string): string
    decreases |s|
  {
    if s == [] then [] else (if s[0] == c then with else [s[0]]) + Replace(s[1..], c, with)
  }

  lemma {:induction false} ReplaceConcat(a: string, b: string, c: char, with: string)
    ensures Replace(a + b, c, with) == Replace(a, c, with) + Replace(b, c, with)
    decreases |a|
  {
    if a == [] {
      assert a + b == b;
    } else {
      assert (a + b)[1..] == a[1..] + b;
      ReplaceConcat(a[1..], b, c, with);
    }
  }

  lemma {:induction false} ReplaceAbsent(s: string, c: char, with: string)
    requires c !in s
    ensures Replace(s, c, with) == s
    decreases |s|
  {
    if s != [] {
      assert s[0] != c;
      assert s == [s[0]] + s[1..];
      ReplaceAbsent(s[1..], c, with);
    }
  }

  lemma AppendAssociative(x: string, y: string, z: string)
    ensures x + (y + z) == (x + y) + z
  {
  }

  /** Python's `s.replace(c, with, 1)`: only the first occurrence is replaced. */
  function ReplaceFirst(s: string, c: char, with: string): string
    decreases |s|
  {
    if s == [] then []
    else if s[0] == c then with + s[1..]
    else [s[0]] + ReplaceFirst(s[1..], c, with)
  }

  /** The position of the first `c` in `s`, or `|s|` when there is none. */
  function IndexOf(s: string, c: char): (k: nat)
    ensures k <= |s| && c !in s[..k]
    ensures k < |s| ==> s[k] == c
    ensures k == |s| <==> c !in s
    decreases |s|
  {
    if s == [] then 0
    else if s[0] == c then 0
    else
      assert s[..IndexOf(s[1..], c) + 1] == [s[0]] + s[1..][..IndexOf(s[1..], c)];
      IndexOf(s[1..], c) + 1
  }

  lemma {:induction false} ReplaceFirstNone(s: string, c: char, with: string)
    requires c !in s
    ensures ReplaceFirst(s, c, with) == s
    decreases |s|
  {
    if s != [] {
      assert s[0] != c && s == [s[0]] + s[1..];
      ReplaceFirstNone(s[1..], c, with);
    }
  }

  /** Replacing at the first occurrence, at position `k`. */
  lemma {:induction false} ReplaceFirstFound(s: string, c: char, with: string, k: nat)
    requires k < |s| && s[k] == c && c !in s[..k]
    ensures ReplaceFirst(s, c, with) == s[..k] + with + s[k + 1..]
    decreases k
  {
    if k == 0 {
      assert s[..0] + with == with;
    } else {
      assert s[0] == s[..k][0];
      var t := s[1..];
      assert t[..k - 1] == s[1..k];
      assert t[k - 1] == c;
      ReplaceFirstFound(t, c, with, k - 1);
      assert s[..k] == [s[0]] + t[..k - 1];
      assert s[k + 1..] == t[k..];
      assert [s[0]] + (t[..k - 1] + with + t[k..]) == ([s[0]] + t[..k - 1]) + with + t[k..];
    }
  }

  /** Exactly the first occurrence of `c` is replaced, and nothing else changes. */
  lemma ReplaceFirstAt(s: string, c: char, with: string)
    ensures var k := IndexOf(s, c);
      ReplaceFirst(s, c, with) == if k == |s| then s else s[..k] + with + s[k + 1..]
  {
    var k := IndexOf(s, c);
    if k == |s| {
      ReplaceFirstNone(s, c, with);
    } else {
      ReplaceFirstFound(s, c, with, k);
    }
  }

  /** Python's `sep.join(parts)`. */
  function Join(parts: seq<string>, sep: string): string
    decreases |parts|
  {
    if |parts| == 0 then ""
    else if |parts| == 1 then parts[0]
    else parts[0] + sep + Join(parts[1..], sep)
  }

  lemma {:induction false} JoinAppend(parts: seq<string>, last: string, sep: string)
    requires |parts| > 0
    ensures Join(parts + [last], sep) == Join(parts, sep) + sep + last
    decreases |parts|
  {
    if |parts| == 1 {
      assert (parts + [last])[1..] == [last];
    } else {
      assert (parts + [last])[1..] == parts[1..] + [last];
      JoinAppend(parts[1..], last, sep);
    }
  }

  /** Joining two non-empty lists of parts: the two joins, with the separator between. */
  lemma {:induction false} JoinConcatParts(a: seq<string>, b: seq<string>, sep: string)
    requires a != [] && b != []
    ensures Join(a + b, sep) == Join(a, sep) + sep + Join(b, sep)
    decreases |a|
  {
    if |a| == 1 {
      assert (a + b)[1..] == b;
    } else {
      assert (a + b)[1..] == a[1..] + b;
      JoinConcatParts(a[1..], b, sep);
    }
  }

  /** The length of each row. */
  function Lengths<T>(rows: seq<seq<T>>): (r: seq<nat>)
    ensures |r| == |rows|
  {
    seq(|rows|, i requires 0 <= i < |rows| => |rows[i]|)
  }

  function Sum(xs: seq<nat>): nat
    decreases |xs|
  {
    if xs == [] then 0 else xs[0] + Sum(xs[1..])
  }

  /** Joining with a '%'-free separator binds the parts' placeholders, in total. */
  lemma {:induction false} JoinPlaceholders(parts: seq<string>, sep: string, counts: seq<nat>)
    requires '%' !in sep && |counts| == |parts|
    requires forall i :: 0 <= i < |parts| ==> PlaceholderCount(parts[i]) == Some(counts[i])
    ensures PlaceholderCount(Join(parts, sep)) == Some(Sum(counts))
    decreases |parts|
  {
    if |parts| == 0 {
    } else if |parts| == 1 {
      assert counts[1..] == [];
    } else {
      JoinPlaceholders(parts[1..], sep, counts[1..]);
      NoPercentNoPlaceholder(sep);
      PlaceholderSum(parts[0], sep, counts[0], 0);
      PlaceholderSum(parts[0] + sep, Join(parts[1..], sep), counts[0], Sum(counts[1..]));
    }
  }

  /** Joining '%'-free parts with a '%'-free separator gives a '%'-free string. */
  lemma {:induction false} JoinPercentFree(parts: seq<string>, sep: string)
    requires '%' !in sep && forall i :: 0 <= i < |parts| ==> '%' !in parts[i]
    ensures '%' !in Join(parts, sep)
    decreases |parts|
  {
    if |parts| > 1 {
      JoinPercentFree(parts[1..], sep);
    }
  }

  /** Replacing a character by '%'-free text in a '%'-free string leaves it '%'-free. */
  lemma {:induction false} ReplacePercentFree(s: string, c: char, with: string)
    requires '%' !in s && '%' !in with
    ensures '%' !in Replace(s, c, with)
    decreases |s|
  {
    if s != [] {
      assert s[0] in s;
      ReplacePercentFree(s[1..], c, with);
    }
  }

  lemma {:induction false} SumConcat(a: seq<nat>, b: seq<nat>)
    ensures Sum(a + b) == Sum(a) + Sum(b)
    decreases |a|
  {
    if a == [] {
      assert a + b == b;
    } else {
      assert (a + b)[1..] == a[1..] + b;
      SumConcat(a[1..], b);
    }
  }

  /** `m` zeros. */
  function Zeros(m: nat): (r: seq<nat>)
    ensures |r| == m && forall i :: 0 <= i < m ==> r[i] == 0
  {
    seq(m, i requires 0 <= i < m => 0)
  }

  lemma {:induction false} SumZeros(m: nat)
    ensures Sum(Zeros(m)) == 0
    decreases m
  {
    if m > 0 {
      assert Zeros(m)[1..] == Zeros(m - 1);
      SumZeros(m - 1);
    }
  }

  /** `''.join(parts)`. */
  function Concat(parts: seq<string>): string
    decreases |parts|
  {
    if |parts| == 0 then "" else Concat(parts[..|parts| - 1]) + parts[|parts| - 1]
  }

  // ---------------------------------------------------------- placeholders

  /** The number of `%s` placeholders the driver's pyformat interpolation
      binds in `s` (`%%` is a literal percent sign); None when `s` holds any
      other conversion, which the driver rejects. */
  function PlaceholderCount(s: string): Option<nat>
    decreases |s|
  {
    if s == [] then Some(0)
    else if s[0] != '%' then PlaceholderCount(s[1..])
    else if |s| >= 2 && s[1] == '%' then PlaceholderCount(s[2..])
    else if |s| >= 2 && s[1] == 's' then
      (var rest := PlaceholderCount(s[2..]); if rest.Some? then Some(rest.value + 1) else None)
    else None
  }

  /** A fragment binds exactly as many parameters as it has placeholders. */
  predicate Balanced(f: Fragment)
  {
    PlaceholderCount(f.sql) == Some(|f.params|)
  }

  function AddCounts(a: Option<nat>, b: Option<nat>): Option<nat>
  {
    if a.Some? && b.Some? then Some(a.value + b.value) else None
  }

  /** Counting is additive once the left part is well formed on its own. */
  lemma {:induction false} PlaceholderConcat(a: string, b: string)
    requires PlaceholderCount(a).Some?
    ensures PlaceholderCount(a + b) == AddCounts(PlaceholderCount(a), PlaceholderCount(b))
    decreases |a|
  {
    var t := a + b;
    if a == [] {
      assert t == b;
    } else if a[0] != '%' {
      assert t[0] == a[0] && t[1..] == a[1..] + b;
      PlaceholderConcat(a[1..], b);
    } else {
      assert |a| >= 2 && (a[1] == '%' || a[1] == 's');
      assert t[0] == a[0] && t[1] == a[1] && t[2..] == a[2..] + b;
      PlaceholderConcat(a[2..], b);
    }
  }

  lemma {:induction false} NoPercentNoPlaceholder(s: string)
    requires '%' !in s
    ensures PlaceholderCount(s) == Some(0)
    decreases |s|
  {
    if s != [] {
      assert s[0] != '%';
      assert s == [s[0]] + s[1..];
      NoPercentNoPlaceholder(s[1..]);
    }
  }

  lemma OnePlaceholder()
    ensures PlaceholderCount("%s") == Some(1)
  {
    var t := "%s";
    assert t[0] == '%' && t[1] == 's' && t[2..] == [];
  }

  /** `pre + inner + post` around a balanced fragment, with '%'-free
      literals, binds exactly the fragment's parameters. */
  lemma WrapBalanced(pre: string, inner: string, post: string)
    requires '%' !in pre && '%' !in post && PlaceholderCount(inner).Some?
    ensures PlaceholderCount(pre + inner + post) == PlaceholderCount(inner)
  {
    var c := PlaceholderCount(inner);
    NoPercentNoPlaceholder(pre);
    NoPercentNoPlaceholder(post);
    PlaceholderConcat(pre, inner);
    assert PlaceholderCount(pre + inner) == c;
    PlaceholderConcat(pre + inner, post);
    assert PlaceholderCount(pre + inner + post) == AddCounts(c, Some(0));
  }

  lemma PlaceholderSum(a: string, b: string, m: nat, n: nat)
    requires PlaceholderCount(a) == Some(m) && PlaceholderCount(b) == Some(n)
    ensures PlaceholderCount(a + b) == Some(m + n)
  {
    PlaceholderConcat(a, b);
  }

  lemma LiteralThenPlaceholder(pre: string)
    requires '%' !in pre
    ensures PlaceholderCount(pre + "%s") == Some(1)
  {
    NoPercentNoPlaceholder(pre);
    OnePlaceholder();
    PlaceholderConcat(pre, "%s");
  }

  /** A single `%s` between '%'-free literals. */
  lemma PlaceholderBetween(pre: string, mid: string)
    requires '%' !in pre && '%' !in mid
    ensures PlaceholderCount(pre + "%s" + mid) == Some(1)
  {
    LiteralThenPlaceholder(pre);
    NoPercentNoPlaceholder(mid);
    PlaceholderSum(pre + "%s", mid, 1, 0);
  }

  /** `pre + "%s" + mid + inner + post`: one more placeholder in front of the fragment's. */
  lemma PlaceholderThenWrap(pre: string, mid: string, inner: string, post: string)
    requires '%' !in pre && '%' !in mid && '%' !in post && PlaceholderCount(inner).Some?
    ensures PlaceholderCount(pre + "%s" + mid + inner + post) == Some(PlaceholderCount(inner).value + 1)
  {
    var head := pre + "%s";
    var tail := mid + inner + post;
    LiteralThenPlaceholder(pre);
    WrapBalanced(mid, inner, post);
    PlaceholderSum(head, tail, 1, PlaceholderCount(inner).value);
    AppendAssociative(head, mid + inner, post);
    AppendAssociative(head, mid, inner);
  }

  /** `pre + inner + post` where `pre` binds `k` parameters of its own. */
  lemma WrapCounted(pre: string, inner: string, post: string, k: nat)
    requires PlaceholderCount(pre) == Some(k) && '%' !in post && PlaceholderCount(inner).Some?
    ensures PlaceholderCount(pre + inner + post) == Some(k + PlaceholderCount(inner).value)
  {
    var n := PlaceholderCount(inner).value;
    PlaceholderSum(pre, inner, k, n);
    NoPercentNoPlaceholder(post);
    PlaceholderSum(pre + inner, post, k + n, 0);
  }

  /** `open + a + sep + b + close` around two balanced fragments, with
      '%'-free literals, binds the parameters of both, in that order. */
  lemma WrapPair(open: string, a: string, sep: string, b: string, close: string)
    requires '%' !in open && '%' !in sep && '%' !in close
    requires PlaceholderCount(a).Some? && PlaceholderCount(b).Some?
    ensures PlaceholderCount(open + a + sep + b + close) == Some(PlaceholderCount(a).value + PlaceholderCount(b).value)
  {
    var m := PlaceholderCount(a).value;
    var n := PlaceholderCount(b).value;
    WrapBalanced(open, a, sep);
    WrapCounted(open + a + sep, b, close, m);
  }

  // ---------------------------------------------------------------- numbers

  predicate IsDigit(c: char)
  {
    '0' <= c <= '9'
  }

  predicate AllDigits(s: string)
  {
    forall i :: 0 <= i < |s| ==> IsDigit(s[i])
  }

  function DigitChar(d: nat): (c: char)
    requires d < 10
    ensures IsDigit(c)
  {
    ('0' as int + d) as char
  }

  /** Python's `str(n)` for a non-negative integer. */
  function NatToString(n: nat): string
    decreases n
  {
    if n < 10 then [DigitChar(n)] else NatToString(n / 10) + [DigitChar(n % 10)]
  }

  /** Python's `str(i)` for an integer. */
  function IntToString(i: int): string
  {
    if i < 0 then "-" + NatToString(-i) else NatToString(i)
  }

  /** Python's `int(digits)` for a string of ASCII digits. */
  function DigitsValue(s: string): nat
    requires AllDigits(s)
    decreases |s|
  {
    if s == [] then 0 else DigitsValue(s[..|s| - 1]) * 10 + (s[|s| - 1] as int - '0' as int)
  }

  /** Rendering a number and reading it back gives the number. */
  lemma {:induction false} NatToStringRoundTrip(n: nat)
    ensures |NatToString(n)| > 0 && AllDigits(NatToString(n))
    ensures DigitsValue(NatToString(n)) == n
    decreases n
  {
    if n >= 10 {
      NatToStringRoundTrip(n / 10);
      var s := NatToString(n);
      assert s[..|s| - 1] == NatToString(n / 10);
    }
  }

}
