/** JavaScript values as the handlers see them: record fields, truthiness, ASCII lower-casing,
    substring search, the `<`/`>` order on strings and the number parsers the filter uses. */
module Values {

  datatype Option<T> = None | Some(value: T)

  /** The value of one record field. Numbers are exact reals (no NaN, no rounding). */
  datatype Value =
    | Str(s: string)
    | Num(n: real)
    | Bool(b: bool)
    | List(items: seq<Value>)
    | Obj(fields: map<string, Value>)

  /** A content record: its fields by name. A name that is not a key reads as `undefined`. */
  type Record = map<string, Value>

  predicate StrOrAbsent(r: Record, f: string)
  {
    f !in r || r[f].Str?
  }

  /** The fields the search reads hold strings wherever they are present. On any other truthy
      value the source's `.toLowerCase()` throws, so the search is only defined on such records. */
  predicate TextFieldsAreStrings(r: Record)
  {
    StrOrAbsent(r, "title") && StrOrAbsent(r, "name") && StrOrAbsent(r, "description")
    && StrOrAbsent(r, "summary") && StrOrAbsent(r, "bio")
  }

  /** `typeof item[f] === 'string'`. */
  predicate IsStr(r: Record, f: string)
  {
    f in r && r[f].Str?
  }

  /** The fields that only some records of a category carry: a business's `website` and a
      coupon's `code`. */
  const OptionalFields: set<string> := {"website", "code"}

  /** Records of one shape: outside the optional fields, a field holds a string in one record
      exactly when it does in every other. */
  ghost predicate SameShape(items: seq<Record>)
  {
    forall x, y, f | x in items && y in items && f !in OptionalFields :: IsStr(x, f) == IsStr(y, f)
  }

  /** JavaScript truthiness of a field's value. */
  predicate Truthy(v: Value)
  {
    match v
    case Str(s) => s != ""
    case Num(n) => n != 0.0
    case Bool(b) => b
    case List(_) => true
    case Obj(_) => true
  }

  /** `record[field]` is truthy; `undefined` is falsy. */
  predicate FieldTruthy(r: Record, field: string)
  {
    field in r && Truthy(r[field])
  }

  /** `String.prototype.toLowerCase` on ASCII letters; every other character is kept. */
  function LowerChar(c: char): char
  {
    if 'A' <= c <= 'Z' then (c as int + 32) as char else c
  }

  function Lower(s: string): (r: string)
    ensures |r| == |s|
  {
    if s == [] then [] else [LowerChar(s[0])] + Lower(s[1..])
  }

  /** Lower-casing works character by character, so it distributes over concatenation. */
  lemma {:induction false} LowerConcat(a: string, b: string)
    ensures Lower(a + b) == Lower(a) + Lower(b)
  {
    if a != [] {
      var ab := a + b;
      assert ab[0] == a[0] && ab[1..] == a[1..] + b;
      LowerConcat(a[1..], b);
      assert Lower(ab) == [LowerChar(a[0])] + (Lower(a[1..]) + Lower(b));
    } else {
      assert a + b == b;
    }
  }

  /** `hay.includes(needle)`. */
  predicate Contains(hay: string, needle: string)
  {
    exists i :: 0 <= i <= |hay| && needle <= hay[i..]
  }

  /** A string contains every suffix of itself; in particular `prefix + s` contains `s`. */
  lemma ContainsSuffix(prefix: string, s: string)
    ensures Contains(prefix + s, s)
  {
    var hay := prefix + s;
    assert hay[|prefix|..] == s;
  }

  /** The characters that `String.prototype.trim` removes: tab, vertical tab, form feed, the
      byte-order mark, every space separator (category Zs: the ASCII space, no-break space,
      ogham space mark, U+2000 to U+200A, narrow no-break space, medium mathematical space and
      ideographic space) and the four line terminators. */
  predicate IsWhiteSpace(c: char)
  {
    || c == '\t' || c == '\U{B}' || c == '\U{C}' || c == '\U{FEFF}'
    || c == ' ' || c == '\U{A0}' || c == '\U{1680}' || ('\U{2000}' <= c <= '\U{200A}')
    || c == '\U{202F}' || c == '\U{205F}' || c == '\U{3000}'
    || c == '\n' || c == '\r' || c == '\U{2028}' || c == '\U{2029}'
  }

  /** The leading half of `trim`: the suffix left once the white space in front is removed. */
  function TrimStart(s: string): (r: string)
    ensures |r| <= |s|
    ensures r == [] || !IsWhiteSpace(r[0])
  {
    if s != [] && IsWhiteSpace(s[0]) then TrimStart(s[1..]) else s
  }

  /** Trimming leaves nothing exactly when every character is white space. */
  lemma {:induction false} TrimStartEmpty(s: string)
    ensures TrimStart(s) == [] <==> forall i | 0 <= i < |s| :: IsWhiteSpace(s[i])
  {
    if s != [] && IsWhiteSpace(s[0]) {
      TrimStartEmpty(s[1..]);
      assert forall i | 1 <= i < |s| :: s[i] == s[1..][i - 1];
    }
  }

  /** `!s.trim()`: every character is white space, so trimming leaves nothing. */
  predicate IsBlank(s: string)
    ensures IsBlank(s) <==> TrimStart(s) == []
  {
    TrimStartEmpty(s);
    forall i | 0 <= i < |s| :: IsWhiteSpace(s[i])
  }

  /** `a < b` on two strings: lexicographic order on characters, a proper prefix first. */
  predicate StrLess(a: string, b: string)
  {
    if a == [] then b != []
    else if b == [] then false
    else a[0] < b[0] || (a[0] == b[0] && StrLess(a[1..], b[1..]))
  }

  lemma {:induction false} StrLessTransitive(a: string, b: string, c: string)
    requires StrLess(a, b) && StrLess(b, c)
    ensures StrLess(a, c)
  {
    if a != [] && a[0] == b[0] && b[0] == c[0] {
      StrLessTransitive(a[1..], b[1..], c[1..]);
    }
  }

  /** Two different strings are always ordered one way or the other. */
  lemma {:induction false} StrLessTotal(a: string, b: string)
    requires a != b
    ensures StrLess(a, b) || StrLess(b, a)
  {
    if a != [] && b != [] && a[0] == b[0] {
      assert a == [a[0]] + a[1..] && b == [b[0]] + b[1..];
      StrLessTotal(a[1..], b[1..]);
    }
  }

  lemma {:induction false} StrLessAsymmetric(a: string, b: string)
    requires StrLess(a, b)
    ensures !StrLess(b, a)
  {
    if a != [] && b != [] && a[0] == b[0] {
      StrLessAsymmetric(a[1..], b[1..]);
    }
  }

  // ----- Number parsing, restricted to unsigned decimal literals; None stands for NaN -----

  predicate IsDigit(c: char)
  {
    '0' <= c <= '9'
  }

  predicate AllDigits(s: string)
  {
    forall i | 0 <= i < |s| :: IsDigit(s[i])
  }

  /** The value of a string of decimal digits, most significant digit first. */
  function DigitsValue(s: string): nat
    requires AllDigits(s)
  {
    if s == [] then 0 else DigitsValue(s[..|s| - 1]) * 10 + (s[|s| - 1] as int - '0' as int)
  }

  function Pow10(k: nat): (r: nat)
    ensures r > 0
  {
    if k == 0 then 1 else 10 * Pow10(k - 1)
  }

  /** The longest prefix of `s` made of decimal digits. */
  function DigitPrefix(s: string): (p: string)
    ensures p <= s && AllDigits(p)
    ensures |p| < |s| ==> !IsDigit(s[|p|])
  {
    if s != [] && IsDigit(s[0]) then
      var rest := DigitPrefix(s[1..]);
      assert forall i | 1 <= i < |rest| + 1 :: ([s[0]] + rest)[i] == rest[i - 1];
      [s[0]] + rest
    else []
  }

  /** The longest prefix of `s` that reads as a literal `ddd`, `ddd.ddd`, `ddd.` or `.ddd`, as its
      length and its value; length 0 and None when `s` does not start with one. */
  function DecimalPrefix(s: string): (r: (nat, Option<real>))
    ensures r.0 <= |s|
    ensures r.1.None? <==> r.0 == 0
  {
    var ip := DigitPrefix(s);
    if |ip| < |s| && s[|ip|] == '.' then
      var fp := DigitPrefix(s[|ip| + 1..]);
      if ip == [] && fp == [] then (0, None)
      else (|ip| + 1 + |fp|, Some(DigitsValue(ip) as real + DigitsValue(fp) as real / Pow10(|fp|) as real))
    else if ip == [] then (0, None)
    else (|ip|, Some(DigitsValue(ip) as real))
  }

  /** `parseFloat(s)`: the value of the longest decimal prefix. */
  function ParseFloat(s: string): Option<real>
  {
    DecimalPrefix(s).1
  }

  /** `parseInt(s)`: the value of the longest digit prefix. */
  function ParseInt(s: string): Option<real>
  {
    var p := DigitPrefix(s);
    if p == [] then None else Some(DigitsValue(p) as real)
  }

  /** `Number(s)`: 0 for a string that trims to nothing, otherwise the value of `s` when all of it
      is a literal. */
  function ToNumber(s: string): Option<real>
  {
    if TrimStart(s) == [] then Some(0.0)
    else
      var d := DecimalPrefix(s);
      if d.0 == |s| then d.1 else None
  }

  /** The number a relational operator converts a non-string operand to. */
  function ToNumeric(v: Value): Option<real>
  {
    match v
    case Num(n) => Some(n)
    case Bool(b) => Some(if b then 1.0 else 0.0)
    case Str(s) => ToNumber(s)
    case List(_) => None
    case Obj(_) => None
  }

  /** On a non-empty string of digits the three parsers agree on its value. */
  lemma {:induction false} ParseDigits(d: string)
    requires d != [] && AllDigits(d)
    ensures DigitPrefix(d) == d
    ensures ParseInt(d) == ParseFloat(d) == ToNumber(d) == Some(DigitsValue(d) as real)
  {
    DigitPrefixOfDigits(d, "");
    assert d + "" == d;
    assert TrimStart(d) == d by { assert !IsWhiteSpace(d[0]); }
  }

  /** The digit prefix of `d + rest` is `d` when `rest` does not start with a digit. */
  lemma {:induction false} DigitPrefixOfDigits(d: string, rest: string)
    requires AllDigits(d)
    requires rest == [] || !IsDigit(rest[0])
    ensures DigitPrefix(d + rest) == d
  {
    if d != [] {
      assert (d + rest)[1..] == d[1..] + rest;
      DigitPrefixOfDigits(d[1..], rest);
      assert d == [d[0]] + d[1..];
    }
  }

  /** `s.replace(c, '')` with a one-character pattern: only the first occurrence goes. */
  function RemoveFirst(s: string, c: char): (r: string)
  {
    if s == [] then []
    else if s[0] == c then s[1..]
    else [s[0]] + RemoveFirst(s[1..], c)
  }

  /** `s.split(c)`: the pieces between occurrences of `c`; never empty. */
  function Split(s: string, c: char): (r: seq<string>)
    ensures |r| >= 1
  {
    if s == [] then [""]
    else
      var rest := Split(s[1..], c);
      if s[0] == c then [""] + rest else [[s[0]] + rest[0]] + rest[1..]
  }

  /** Splitting `a + [c] + b` where neither piece holds `c` gives exactly the two pieces. */
  lemma {:induction false} SplitTwo(a: string, c: char, b: string)
    requires c !in a && c !in b
    ensures Split(a + [c] + b, c) == [a, b]
  {
    if a == [] {
      assert a + [c] + b == [c] + b;
      SplitNone(b, c);
    } else {
      assert (a + [c] + b)[1..] == a[1..] + [c] + b;
      SplitTwo(a[1..], c, b);
      assert a == [a[0]] + a[1..];
    }
  }

  /** A string without `c` splits into itself. */
  lemma {:induction false} SplitNone(s: string, c: char)
    requires c !in s
    ensures Split(s, c) == [s]
  {
    if s != [] {
      SplitNone(s[1..], c);
      assert s == [s[0]] + s[1..];
    }
  }
}
