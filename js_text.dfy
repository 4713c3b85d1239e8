/**
 * The JavaScript string operations the front end relies on, as functions on `seq<char>`:
 * `trim`, `split` with a one-character separator, `join`, ASCII `toLowerCase`,
 * `includes`, `Number.prototype.toString` for integers and `parseInt` without a radix.
 */
module JsText {
  import opened Wrappers

  /** The characters `String.prototype.trim` removes: ECMAScript WhiteSpace and LineTerminator. */
  predicate IsWhitespace(c: char) {
    c == '\t' || c == '\n' || c == '\U{000B}' || c == '\U{000C}' || c == '\r' || c == ' ' ||
    c == '\U{00A0}' || c == '\U{1680}' || ('\U{2000}' <= c <= '\U{200A}') ||
    c == '\U{2028}' || c == '\U{2029}' || c == '\U{202F}' || c == '\U{205F}' ||
    c == '\U{3000}' || c == '\U{FEFF}'
  }

  /** Drops the leading whitespace. */
  function TrimStart(s: string): (r: string)
    ensures |r| <= |s| && r == s[|s| - |r|..]
    ensures r == [] || !IsWhitespace(r[0])
    ensures forall i :: 0 <= i < |s| - |r| ==> IsWhitespace(s[i])
  {
    if |s| > 0 && IsWhitespace(s[0]) then TrimStart(s[1..]) else s
  }

  /** Drops the trailing whitespace. */
  function TrimEnd(s: string): (r: string)
    ensures |r| <= |s| && r == s[..|r|]
    ensures r == [] || !IsWhitespace(r[|r| - 1])
    ensures forall i :: |r| <= i < |s| ==> IsWhitespace(s[i])
  {
    if |s| > 0 && IsWhitespace(s[|s| - 1]) then TrimEnd(s[..|s| - 1]) else s
  }

  /** `s.trim()`: the longest infix of `s` that neither starts nor ends with whitespace. */
  function Trim(s: string): (r: string)
    ensures |r| <= |s|
    ensures r == [] || (!IsWhitespace(r[0]) && !IsWhitespace(r[|r| - 1]))
    ensures (s == [] || (!IsWhitespace(s[0]) && !IsWhitespace(s[|s| - 1]))) ==> r == s
  {
    var t := TrimStart(s);
    var r := TrimEnd(t);
    assert r != [] ==> r[0] == t[0];
    r
  }

  /** `s.split(sep)` for a one-character separator: the fields between separators, empty ones included. */
  function Split(s: string, sep: char): (parts: seq<string>)
    ensures |parts| >= 1
    ensures forall p <- parts :: sep !in p
  {
    if |s| == 0 then [""]
    else
      var rest := Split(s[1..], sep);
      if s[0] == sep then [""] + rest else [[s[0]] + rest[0]] + rest[1..]
  }

  /** `parts.join(sep)`. */
  function Join(parts: seq<string>, sep: char): string
  {
    if |parts| == 0 then ""
    else if |parts| == 1 then parts[0]
    else parts[0] + [sep] + Join(parts[1..], sep)
  }

  /** Joining the fields of a split with the same separator gives back the string. */
  lemma {:induction false} JoinSplit(s: string, sep: char)
    ensures Join(Split(s, sep), sep) == s
  {
    if |s| > 0 {
      JoinSplit(s[1..], sep);
      var rest := Split(s[1..], sep);
      if s[0] == sep {
        assert Split(s, sep) == [""] + rest;
        assert ([""] + rest)[1..] == rest;
      } else {
        var parts := [[s[0]] + rest[0]] + rest[1..];
        assert Split(s, sep) == parts;
        if |rest| > 1 {
          assert parts[1..] == rest[1..];
        }
      }
    }
  }

  /** A string without the separator is a single field. */
  lemma {:induction false} SplitWithoutSeparator(s: string, sep: char)
    requires sep !in s
    ensures Split(s, sep) == [s]
  {
    if |s| > 0 {
      SplitWithoutSeparator(s[1..], sep);
      assert [s[0]] + s[1..] == s;
    }
  }

  /** Splitting at a separator splits the two sides independently. */
  lemma {:induction false} SplitAppend(a: string, sep: char, b: string)
    ensures Split(a + [sep] + b, sep) == Split(a, sep) + Split(b, sep)
  {
    if |a| == 0 {
      assert a + [sep] + b == [sep] + b;
      assert ([sep] + b)[1..] == b;
    } else {
      var s := a + [sep] + b;
      assert s[0] == a[0] && s[1..] == a[1..] + [sep] + b;
      SplitAppend(a[1..], sep, b);
      var ra, rb := Split(a[1..], sep), Split(b, sep);
      if a[0] != sep {
        assert (ra + rb)[0] == ra[0] && (ra + rb)[1..] == ra[1..] + rb;
      }
    }
  }

  /** Splitting a join of separator-free fields gives back the fields. */
  lemma {:induction false} SplitJoin(parts: seq<string>, sep: char)
    requires |parts| >= 1
    requires forall p <- parts :: sep !in p
    ensures Split(Join(parts, sep), sep) == parts
  {
    SplitWithoutSeparator(parts[0], sep);
    if |parts| > 1 {
      SplitJoin(parts[1..], sep);
      SplitAppend(parts[0], sep, Join(parts[1..], sep));
      assert [parts[0]] + parts[1..] == parts;
    }
  }

  /** Lower-casing of one character, for the ASCII letters. */
  function LowerChar(c: char): char {
    if 'A' <= c <= 'Z' then (c as int + 32) as char else c
  }

  /** `s.toLowerCase()` restricted to ASCII letters. */
  function ToLower(s: string): (r: string)
    ensures |r| == |s|
    ensures forall i :: 0 <= i < |s| ==> r[i] == LowerChar(s[i])
  {
    if s == [] then [] else [LowerChar(s[0])] + ToLower(s[1..])
  }

  predicate StartsWith(s: string, prefix: string) {
    |prefix| <= |s| && s[..|prefix|] == prefix
  }

  /** A message made of a fixed lead-in and the detail it reports, which reads back after the lead-in. */
  function Prefixed(prefix: string, detail: string): (m: string)
    ensures StartsWith(m, prefix) && m[|prefix|..] == detail
  {
    prefix + detail
  }

  /** `sub` occurs in `s` at position `i`. */
  predicate OccursAt(s: string, sub: string, i: int) {
    0 <= i && i + |sub| <= |s| && s[i..i + |sub|] == sub
  }

  /** `s.includes(sub)`. */
  predicate Contains(s: string, sub: string)
    decreases |s|
  {
    StartsWith(s, sub) || (|s| > 0 && Contains(s[1..], sub))
  }

  /** `Contains` holds exactly when the substring occurs at some position. */
  lemma {:induction false} ContainsIffOccurs(s: string, sub: string)
    ensures Contains(s, sub) <==> exists i :: OccursAt(s, sub, i)
  {
    if StartsWith(s, sub) {
      assert OccursAt(s, sub, 0);
    } else if |s| > 0 {
      ContainsIffOccurs(s[1..], sub);
      if Contains(s[1..], sub) {
        var i :| OccursAt(s[1..], sub, i);
        assert s[1..][i..i + |sub|] == s[i + 1..i + 1 + |sub|];
        assert OccursAt(s, sub, i + 1);
      }
      if exists i :: OccursAt(s, sub, i) {
        var i :| OccursAt(s, sub, i);
        assert i != 0;
        assert s[1..][i - 1..i - 1 + |sub|] == s[i..i + |sub|];
        assert OccursAt(s[1..], sub, i - 1);
      }
    }
  }

  predicate IsDigit(c: char) {
    '0' <= c <= '9'
  }

  /** The decimal digit for `d`. */
  function DigitChar(d: nat): (c: char)
    requires d < 10
    ensures IsDigit(c)
  {
    ('0' as int + d) as char
  }

  /**
   * The value of a character as a digit in radix up to 36 (`0-9`, then `a-z` or `A-Z`),
   * or 36 for a character that is a digit in no radix.
   */
  function CharValue(c: char): (v: nat)
    ensures v <= 36
  {
    if '0' <= c <= '9' then c as int - '0' as int
    else if 'a' <= c <= 'z' then c as int - 'a' as int + 10
    else if 'A' <= c <= 'Z' then c as int - 'A' as int + 10
    else 36
  }

  /** `n.toString()` for a natural number: its decimal digits, no leading zero. */
  function NatToString(n: nat): (s: string)
    ensures |s| >= 1
    ensures forall c <- s :: IsDigit(c)
    ensures s[0] == '0' ==> n == 0
    decreases n
  {
    if n < 10 then [DigitChar(n)] else NatToString(n / 10) + [DigitChar(n % 10)]
  }

  /** `i.toString()` for an integer. */
  function IntToString(i: int): (s: string)
    ensures |s| >= 1
    ensures i >= 0 ==> s == NatToString(i)
    ensures i < 0 ==> s == "-" + NatToString(-i)
  {
    if i < 0 then "-" + NatToString(-i) else NatToString(i)
  }

  /** The value of a digit string read in `radix`, most significant digit first. */
  function RunValue(s: string, radix: nat): nat
  {
    if s == [] then 0
    else RunValue(s[..|s| - 1], radix) * radix + CharValue(s[|s| - 1])
  }

  /** The longest prefix of `s` made of digits of `radix`. */
  function DigitRun(s: string, radix: nat): (r: string)
    ensures |r| <= |s| && r == s[..|r|]
    ensures forall c <- r :: CharValue(c) < radix
    ensures |r| < |s| ==> CharValue(s[|r|]) >= radix
  {
    if |s| > 0 && CharValue(s[0]) < radix then [s[0]] + DigitRun(s[1..], radix) else []
  }

  /**
   * `parseInt(s)` with no radix: leading whitespace is skipped, then an optional sign;
   * a `0x`/`0X` prefix selects radix 16, otherwise radix 10; the longest run of digits of that
   * radix is read. No digit at all is `NaN`, here `None`.
   */
  function ParseInt(s: string): Option<int>
  {
    ParseSigned(TrimStart(s))
  }

  /** `parseInt` after the whitespace: an optional sign, then the unsigned part. */
  function ParseSigned(t: string): Option<int>
  {
    if |t| > 0 && t[0] == '-' then
      match ParseUnsigned(t[1..])
      case None => None
      case Some(v) => Some(-(v as int))
    else if |t| > 0 && t[0] == '+' then
      match ParseUnsigned(t[1..])
      case None => None
      case Some(v) => Some(v)
    else
      match ParseUnsigned(t)
      case None => None
      case Some(v) => Some(v)
  }

  /** The unsigned part of `parseInt`: hexadecimal after `0x`/`0X`, decimal otherwise. */
  function ParseUnsigned(u: string): Option<nat>
  {
    var hex := |u| >= 2 && u[0] == '0' && (u[1] == 'x' || u[1] == 'X');
    var radix := if hex then 16 else 10;
    var digits := DigitRun(if hex then u[2..] else u, radix);
    if digits == [] then None else Some(RunValue(digits, radix))
  }

  lemma {:induction false} DigitRunOfDigits(s: string, radix: nat)
    requires forall c <- s :: CharValue(c) < radix
    ensures DigitRun(s, radix) == s
  {
    if |s| > 0 {
      DigitRunOfDigits(s[1..], radix);
      assert [s[0]] + s[1..] == s;
    }
  }

  /** Reading back the decimal string of a natural number gives the number. */
  lemma {:induction false} RunValueOfNatToString(n: nat)
    ensures RunValue(NatToString(n), 10) == n
    decreases n
  {
    if n >= 10 {
      RunValueOfNatToString(n / 10);
      var s := NatToString(n);
      assert s[..|s| - 1] == NatToString(n / 10);
    }
  }

  /** A run of decimal digits without a leading zero reads back as its value. */
  lemma ParseUnsignedOfDigits(d: string)
    requires |d| >= 1 && (forall c <- d :: IsDigit(c))
    requires |d| >= 2 ==> d[0] != '0'
    ensures ParseUnsigned(d) == Some(RunValue(d, 10))
  {
    assert forall c <- d :: CharValue(c) < 10;
    DigitRunOfDigits(d, 10);
  }

  /** The decimal string of a natural number reads back, after an optional minus sign. */
  lemma ParseSignedOfNatToString(m: nat)
    ensures ParseSigned(NatToString(m)) == Some(m as int)
    ensures ParseSigned("-" + NatToString(m)) == Some(-(m as int))
  {
    var d := NatToString(m);
    assert ParseUnsigned(d) == Some(m) by {
      RunValueOfNatToString(m);
      assert |d| >= 2 ==> d[0] != '0';
      ParseUnsignedOfDigits(d);
    }
    assert d[0] != '-' && d[0] != '+' by {
      assert d[0] in d;
    }
    assert ("-" + d)[0] == '-' && ("-" + d)[1..] == d;
  }

  /** Trimming leaves a string that starts with a non-space unchanged. */
  lemma TrimStartOfNonSpace(s: string)
    requires |s| > 0 && !IsWhitespace(s[0])
    ensures TrimStart(s) == s
  {
  }

  /** Leading whitespace in front of a text that starts with a non-space is dropped, and nothing more. */
  lemma {:induction false} TrimStartSkipsSpaces(pre: string, s: string)
    requires forall c <- pre :: IsWhitespace(c)
    requires |s| > 0 && !IsWhitespace(s[0])
    ensures TrimStart(pre + s) == s
    decreases |pre|
  {
    if pre == [] {
      assert pre + s == s;
      TrimStartOfNonSpace(s);
    } else {
      assert pre[0] in pre;
      assert (pre + s)[1..] == pre[1..] + s;
      TrimStartSkipsSpaces(pre[1..], s);
    }
  }

  /** Trailing whitespace after a text that ends with a non-space is dropped, and nothing more. */
  lemma {:induction false} TrimEndSkipsSpaces(s: string, post: string)
    requires forall c <- post :: IsWhitespace(c)
    requires |s| > 0 && !IsWhitespace(s[|s| - 1])
    ensures TrimEnd(s + post) == s
    decreases |post|
  {
    if post == [] {
      assert s + post == s;
    } else {
      var last := |post| - 1;
      assert post[last] in post;
      assert (s + post)[..|s + post| - 1] == s + post[..last];
      TrimEndSkipsSpaces(s, post[..last]);
    }
  }

  /** `trim` of a text padded with whitespace on both sides gives back the text, when it has no edge whitespace of its own. */
  lemma TrimOfPadded(pre: string, s: string, post: string)
    requires forall c <- pre :: IsWhitespace(c)
    requires forall c <- post :: IsWhitespace(c)
    requires |s| > 0 && !IsWhitespace(s[0]) && !IsWhitespace(s[|s| - 1])
    ensures Trim(pre + s + post) == s
  {
    assert pre + s + post == pre + (s + post);
    TrimStartSkipsSpaces(pre, s + post);
    TrimEndSkipsSpaces(s, post);
  }

  /** `parseInt(String(i)) === i` for every integer `i`: the round trip the upload path relies on. */
  lemma ParseIntOfIntToString(i: int)
    ensures ParseInt(IntToString(i)) == Some(i)
  {
    var d := NatToString(if i < 0 then -i else i);
    var s := IntToString(i);
    ParseSignedOfNatToString(if i < 0 then -i else i);
    assert d[0] in d;
    assert s[0] == (if i < 0 then '-' else d[0]);
    assert !IsWhitespace(s[0]);
    TrimStartOfNonSpace(s);
  }

  /** A JavaScript value as a query parameter can arrive: missing, `null`, a string or a number. */
  datatype JsValue = Undefined | Null | Text(text: string) | Num(number: int)

  /** The falsy ones among them: `undefined`, `null`, `''` and `0`. */
  predicate Falsy(v: JsValue) {
    v == Undefined || v == Null || v == Text("") || v == Num(0)
  }

  /** `v || 0`. */
  function OrZero(v: JsValue): JsValue {
    if Falsy(v) then Num(0) else v
  }

  /**
   * `v || 0` is never `null`, `undefined` or the empty string, keeps every truthy value, and
   * applying it again changes nothing (the executor and the hook both apply it).
   */
  lemma OrZeroDefaults(v: JsValue)
    ensures OrZero(v) != Undefined && OrZero(v) != Null && OrZero(v) != Text("")
    ensures !Falsy(v) ==> OrZero(v) == v
    ensures Falsy(v) <==> OrZero(v) == Num(0)
    ensures OrZero(OrZero(v)) == OrZero(v)
  {
  }
}
