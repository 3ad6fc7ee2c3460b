/**
 * String helpers shared by the model: ASCII case folding, Python 2's
 * `str.isdigit`, `int(...)` and `str(n)` on decimal integers, `str.split`
 * on one separator character and `sep.join(...)`, and the code-point
 * ordering that Python uses to compare strings.
 */
module Text {
  import opened Wrappers

  predicate IsDigit(c: char) { '0' <= c <= '9' }

  /** Python 2 `str.isdigit()`: true only for a non-empty run of digits. */
  predicate IsAllDigits(s: string) {
    |s| > 0 && forall i :: 0 <= i < |s| ==> IsDigit(s[i])
  }

  /** An optional string that is present and not empty: Python's truthiness of a string or `None`. */
  predicate Given(value: Option<string>) { value.Some? && value.value != "" }

  /**
   * The ASCII whitespace that Python 2's `int()` and `strip()` skip on a
   * unicode string: space, tab, line feed, carriage return, vertical tab,
   * form feed and the four information separators `\x1c`-`\x1f`.
   */
  predicate IsSpace(c: char) {
    c == ' ' || c == '\t' || c == '\n' || c == '\r' || c == '\U{B}' || c == '\U{C}'
    || c == '\U{1C}' || c == '\U{1D}' || c == '\U{1E}' || c == '\U{1F}'
  }

  /** Whitespace only, possibly none. */
  predicate Blank(s: string) { forall i :: 0 <= i < |s| ==> IsSpace(s[i]) }

  function LowerChar(c: char): char {
    if 'A' <= c <= 'Z' then (c as int + 32) as char else c
  }

  /** ASCII lower-casing, the case folding the model uses for `iexact` and `str.lower`. */
  function Lower(s: string): (r: string)
    ensures |r| == |s|
    ensures forall i :: 0 <= i < |s| ==> r[i] == LowerChar(s[i])
  {
    if s == [] then [] else [LowerChar(s[0])] + Lower(s[1..])
  }

  /** Case-insensitive equality, as the ORM's `__iexact` lookup compares. */
  predicate IEquals(a: string, b: string) { Lower(a) == Lower(b) }

  lemma IEqualsIsEquivalence(a: string, b: string, c: string)
    ensures IEquals(a, a)
    ensures IEquals(a, b) ==> IEquals(b, a)
    ensures IEquals(a, b) && IEquals(b, c) ==> IEquals(a, c)
  {
  }

  // ---------------------------------------------------------------------
  // Decimal integers

  function DigitValue(c: char): nat
    requires IsDigit(c)
  {
    c as int - '0' as int
  }

  function DigitChar(d: nat): (c: char)
    requires d < 10
    ensures IsDigit(c) && DigitValue(c) == d
  {
    ('0' as int + d) as char
  }

  /** The value of a run of decimal digits, most significant first. */
  function DigitsValue(s: string): nat
    requires forall i :: 0 <= i < |s| ==> IsDigit(s[i])
  {
    if s == [] then 0 else 10 * DigitsValue(s[..|s| - 1]) + DigitValue(s[|s| - 1])
  }

  /** Python's `str(n)` for a natural number: no sign, no leading zero. */
  function NatToString(n: nat): (r: string)
    ensures IsAllDigits(r)
    ensures |r| == 1 || r[0] != '0'
  {
    if n < 10 then [DigitChar(n)] else NatToString(n / 10) + [DigitChar(n % 10)]
  }

  /** Python's `str(n)` for any integer. */
  function IntToString(n: int): string {
    if n < 0 then "-" + NatToString(-n) else NatToString(n)
  }

  /** How many whitespace characters open `s`. */
  function LeadingSpaces(s: string): (k: nat)
    ensures k <= |s|
    ensures forall i :: 0 <= i < k ==> IsSpace(s[i])
    ensures k < |s| ==> !IsSpace(s[k])
  {
    if s != [] && IsSpace(s[0]) then
      var k := 1 + LeadingSpaces(s[1..]);
      assert forall i :: 1 <= i < k ==> s[i] == s[1..][i - 1];
      k
    else 0
  }

  /** How many whitespace characters close `s`. */
  function TrailingSpaces(s: string): (k: nat)
    ensures k <= |s|
    ensures forall i :: |s| - k <= i < |s| ==> IsSpace(s[i])
    ensures k < |s| ==> !IsSpace(s[|s| - 1 - k])
  {
    if s != [] && IsSpace(s[|s| - 1]) then
      var k := 1 + TrailingSpaces(s[..|s| - 1]);
      assert forall i :: |s| - k <= i < |s| - 1 ==> s[i] == s[..|s| - 1][i];
      k
    else 0
  }

  /** Python's `strip()` with no argument, on ASCII whitespace. */
  function Strip(s: string): (t: string)
    ensures var a := LeadingSpaces(s); var b := TrailingSpaces(s[a..]);
      a + b <= |s| && t == s[a..|s| - b]
  {
    var a := LeadingSpaces(s);
    var rest := s[a..];
    rest[..|rest| - TrailingSpaces(rest)]
  }

  /** The characters Python 2's `int()` accepts: digits, a sign, surrounding whitespace. */
  predicate IsNumeral(c: char) { IsDigit(c) || IsSpace(c) || c == '+' || c == '-' }

  /**
   * Python 2's `int(s)` on a string: surrounding whitespace is skipped, one
   * optional sign is allowed and may itself be followed by whitespace, then
   * at least one decimal digit and nothing else. `None` stands for the
   * `ValueError` it raises otherwise.
   */
  function ParseInt(s: string): (r: Option<int>)
    ensures r.Some? ==> exists i :: 0 <= i < |s| && IsDigit(s[i])
    ensures r.Some? ==> forall i :: 0 <= i < |s| ==> IsNumeral(s[i])
  {
    var r := ParseStripped(Strip(s));
    assert r.Some? ==> exists i :: 0 <= i < |s| && IsDigit(s[i]) by {
      if r.Some? { ParseIntHasDigit(s); }
    }
    assert r.Some? ==> forall i :: 0 <= i < |s| ==> IsNumeral(s[i]) by {
      if r.Some? { ParseIntNumerals(s); }
    }
    r
  }

  /** `int()` once the surrounding whitespace is gone: a sign, whitespace and digits, or digits alone. */
  function ParseStripped(t: string): Option<int> {
    if HasSign(t) then
      var d := AfterSign(t);
      if IsAllDigits(d) then
        var v: int := DigitsValue(d);
        Some(if t[0] == '-' then -v else v)
      else None
    else if IsAllDigits(t) then
      Some(DigitsValue(t))
    else None
  }

  predicate HasSign(t: string) { |t| > 0 && (t[0] == '-' || t[0] == '+') }

  /** What follows a leading sign once the whitespace after the sign is skipped. */
  function AfterSign(t: string): (d: string)
    requires |t| > 0
    ensures var u := t[1..]; d == u[LeadingSpaces(u)..]
  {
    var u := t[1..];
    u[LeadingSpaces(u)..]
  }

  lemma ParseIntIsStripped(s: string)
    ensures ParseInt(s) == ParseStripped(Strip(s))
  {
  }

  /** A string `int()` accepts keeps, once stripped, a sign and digits or digits alone. */
  predicate StrippedNumeral(t: string) {
    (HasSign(t) && IsAllDigits(AfterSign(t))) || IsAllDigits(t)
  }

  lemma ParseIntHasDigit(s: string)
    requires StrippedNumeral(Strip(s))
    ensures exists i :: 0 <= i < |s| && IsDigit(s[i])
  {
    var t := Strip(s);
    var k := LeadingSpaces(s);
    if HasSign(t) && IsAllDigits(AfterSign(t)) {
      var u := t[1..];
      var l := LeadingSpaces(u);
      assert IsDigit(s[k + 1 + l]) by { assert AfterSign(t)[0] == u[l] == t[1 + l]; }
    } else {
      assert IsDigit(s[k]) by { assert t[0] == s[k]; }
    }
  }

  lemma ParseIntNumerals(s: string)
    requires StrippedNumeral(Strip(s))
    ensures forall i :: 0 <= i < |s| ==> IsNumeral(s[i])
  {
    var t := Strip(s);
    var k := LeadingSpaces(s);
    var m := |t|;
    NumeralsOfStripped(t);
    forall i | 0 <= i < |s| ensures IsNumeral(s[i]) {
      if i >= k + m {
        assert s[i] == s[k..][i - k];
      } else if i >= k {
        assert t[i - k] == s[i];
      }
    }
  }

  lemma NumeralsOfStripped(t: string)
    requires StrippedNumeral(t)
    ensures forall i :: 0 <= i < |t| ==> IsNumeral(t[i])
  {
    if HasSign(t) && IsAllDigits(AfterSign(t)) {
      var u := t[1..];
      var l := LeadingSpaces(u);
      forall i | 1 <= i < |t| ensures IsNumeral(t[i]) {
        assert t[i] == u[i - 1];
        if i - 1 >= l { assert u[i - 1] == AfterSign(t)[i - 1 - l]; }
      }
    }
  }

  /** Whitespace in front of a non-space character is exactly what `LeadingSpaces` counts. */
  lemma LeadingSpacesOf(sp: string, x: string)
    requires forall i :: 0 <= i < |sp| ==> IsSpace(sp[i])
    requires x != [] && !IsSpace(x[0])
    ensures LeadingSpaces(sp + x) == |sp|
  {
    var s := sp + x;
    assert s[|sp|] == x[0];
    assert forall i :: 0 <= i < |sp| ==> s[i] == sp[i];
  }

  /** Whitespace after a non-space character is exactly what `TrailingSpaces` counts. */
  lemma TrailingSpacesOf(x: string, sp: string)
    requires forall i :: 0 <= i < |sp| ==> IsSpace(sp[i])
    requires x != [] && !IsSpace(x[|x| - 1])
    ensures TrailingSpaces(x + sp) == |sp|
  {
    var s := x + sp;
    assert s[|x| - 1] == x[|x| - 1];
    assert forall i :: |x| <= i < |s| ==> s[i] == sp[i - |x|];
  }

  /** Stripping removes exactly the whitespace around a core that starts and ends with non-space. */
  lemma StripOf(pre: string, core: string, post: string)
    requires forall i :: 0 <= i < |pre| ==> IsSpace(pre[i])
    requires forall i :: 0 <= i < |post| ==> IsSpace(post[i])
    requires core != [] && !IsSpace(core[0]) && !IsSpace(core[|core| - 1])
    ensures Strip(pre + core + post) == core
  {
    var s := pre + core + post;
    assert s == pre + (core + post);
    LeadingSpacesOf(pre, core + post);
    assert s[|pre|..] == core + post;
    TrailingSpacesOf(core, post);
    assert (core + post)[..|core|] == core;
  }

  /**
   * Every string `int()` accepts is accepted, with its value: whitespace, an
   * optional sign, whitespace after a sign, decimal digits, whitespace.
   */
  lemma ParseIntAccepts(pre: string, sign: string, mid: string, digits: string, post: string)
    requires forall i :: 0 <= i < |pre| ==> IsSpace(pre[i])
    requires forall i :: 0 <= i < |mid| ==> IsSpace(mid[i])
    requires forall i :: 0 <= i < |post| ==> IsSpace(post[i])
    requires sign == "" || sign == "+" || sign == "-"
    requires IsAllDigits(digits)
    ensures ParseInt(pre + sign + mid + digits + post)
         == Some(if sign == "-" then -(DigitsValue(digits) as int) else DigitsValue(digits))
  {
    if sign == "" {
      var lead := pre + mid;
      assert forall i :: 0 <= i < |lead| ==> IsSpace(lead[i]) by {
        forall i | 0 <= i < |lead| ensures IsSpace(lead[i]) {
          if i >= |pre| { assert lead[i] == mid[i - |pre|]; }
        }
      }
      AppendRegroup(pre, sign, mid, digits, post);
      ParseUnsigned(lead, digits, post);
    } else {
      assert sign == [sign[0]];
      AppendRegroup(pre, sign, mid, digits, post);
      ParseSigned(pre, sign[0], mid, digits, post);
    }
  }

  /** `s` is whitespace, an optional sign, whitespace, a run of digits and whitespace, in that order. */
  predicate NumeralParts(s: string, pre: string, sign: string, mid: string, digits: string, post: string) {
    Blank(pre) && Blank(mid) && Blank(post) && (sign == "" || sign == "+" || sign == "-")
    && IsAllDigits(digits) && s == pre + sign + mid + digits + post
  }

  /** The value of a digit run under an optional sign. */
  function SignedValue(sign: string, digits: string): int
    requires IsAllDigits(digits)
  {
    if sign == "-" then -(DigitsValue(digits) as int) else DigitsValue(digits)
  }

  /**
   * The converse of `ParseIntAccepts`: `int()` accepts nothing else. A
   * string it accepts splits into whitespace, an optional sign, whitespace,
   * digits and whitespace, and the answer is the signed value of the digits.
   */
  lemma ParseIntOnlyNumerals(s: string)
    requires ParseInt(s).Some?
    ensures exists pre, sign, mid, digits, post ::
      (NumeralParts(s, pre, sign, mid, digits, post) && ParseInt(s) == Some(SignedValue(sign, digits)))
  {
    var pre, t, post := StripParts(s);
    ParseIntIsStripped(s);
    var sign, mid, digits := StrippedParts(t);
    AppendRegroup(pre, sign, mid, digits, post);
    assert NumeralParts(s, pre, sign, mid, digits, post);
  }

  /** Text `int()` accepts once stripped is an optional sign, whitespace and digits. */
  lemma StrippedParts(t: string) returns (sign: string, mid: string, digits: string)
    requires ParseStripped(t).Some?
    ensures Blank(mid) && (sign == "" || sign == "+" || sign == "-") && IsAllDigits(digits)
    ensures t == sign + mid + digits && ParseStripped(t) == Some(SignedValue(sign, digits))
  {
    if HasSign(t) {
      var u := t[1..];
      var l := LeadingSpaces(u);
      sign, mid, digits := [t[0]], u[..l], u[l..];
      assert t == sign + (mid + digits);
    } else {
      sign, mid, digits := "", "", t;
    }
  }

  /** `s` is its leading whitespace, its stripped text and its trailing whitespace. */
  lemma StripParts(s: string) returns (pre: string, t: string, post: string)
    ensures Blank(pre) && Blank(post) && t == Strip(s) && s == pre + t + post
  {
    var a := LeadingSpaces(s);
    var rest := s[a..];
    var b := TrailingSpaces(rest);
    pre, t, post := s[..a], rest[..|rest| - b], rest[|rest| - b..];
    assert Blank(post) by {
      forall i | 0 <= i < |post| ensures IsSpace(post[i]) { assert post[i] == rest[|rest| - b + i]; }
    }
    assert s == pre + (t + post);
  }

  lemma AppendRegroup<T>(a: seq<T>, b: seq<T>, c: seq<T>, d: seq<T>, e: seq<T>)
    ensures a + b + c + d + e == a + (b + c + d) + e
    ensures b == [] ==> a + b + c + d + e == (a + c) + d + e
  {
  }

  lemma ParseUnsigned(pre: string, digits: string, post: string)
    requires forall i :: 0 <= i < |pre| ==> IsSpace(pre[i])
    requires forall i :: 0 <= i < |post| ==> IsSpace(post[i])
    requires IsAllDigits(digits)
    ensures ParseInt(pre + digits + post) == Some(DigitsValue(digits))
  {
    assert !IsSpace(digits[0]) && !IsSpace(digits[|digits| - 1]);
    ParseIntIsStripped(pre + digits + post);
    StripOf(pre, digits, post);
  }

  lemma ParseSigned(pre: string, sign: char, mid: string, digits: string, post: string)
    requires forall i :: 0 <= i < |pre| ==> IsSpace(pre[i])
    requires forall i :: 0 <= i < |mid| ==> IsSpace(mid[i])
    requires forall i :: 0 <= i < |post| ==> IsSpace(post[i])
    requires sign == '+' || sign == '-'
    requires IsAllDigits(digits)
    ensures ParseInt(pre + ([sign] + mid + digits) + post)
         == Some(if sign == '-' then -(DigitsValue(digits) as int) else DigitsValue(digits))
  {
    var core := [sign] + mid + digits;
    assert Strip(pre + core + post) == core by {
      assert core[|core| - 1] == digits[|digits| - 1];
      assert !IsSpace(digits[0]) && !IsSpace(digits[|digits| - 1]);
      StripOf(pre, core, post);
    }
    SignedCore(sign, mid, digits);
    ParseIntIsStripped(pre + core + post);
  }

  /** After a sign, the whitespace before the digits is skipped, and the sign applies to their value. */
  lemma SignedCore(sign: char, mid: string, digits: string)
    requires forall i :: 0 <= i < |mid| ==> IsSpace(mid[i])
    requires IsAllDigits(digits)
    requires sign == '+' || sign == '-'
    ensures ParseStripped([sign] + mid + digits)
         == Some(if sign == '-' then -(DigitsValue(digits) as int) else DigitsValue(digits))
  {
    var core := [sign] + mid + digits;
    assert core[0] == sign;
    assert AfterSign(core) == digits by {
      assert core[1..] == mid + digits;
      LeadingSpacesOf(mid, digits);
      assert (mid + digits)[|mid|..] == digits;
    }
    ParseStrippedSigned(core);
  }

  lemma ParseStrippedSigned(t: string)
    requires HasSign(t) && IsAllDigits(AfterSign(t))
    ensures ParseStripped(t) == Some(if t[0] == '-' then -(DigitsValue(AfterSign(t)) as int) else DigitsValue(AfterSign(t)))
  {
  }

  lemma {:induction false} NatToStringValue(n: nat)
    ensures DigitsValue(NatToString(n)) == n
  {
    if n >= 10 {
      NatToStringValue(n / 10);
      var s := NatToString(n / 10) + [DigitChar(n % 10)];
      assert s[..|s| - 1] == NatToString(n / 10);
    }
  }

  /** `int(str(n)) == n`: printing and parsing decimal integers round-trip. */
  lemma IntToStringRoundTrip(n: int)
    ensures ParseInt(IntToString(n)) == Some(n)
  {
    var m: nat := if n < 0 then -n else n;
    var d := NatToString(m);
    var sign := if n < 0 then "-" else "";
    assert IntToString(n) == "" + sign + "" + d + "";
    assert (if sign == "-" then -(DigitsValue(d) as int) else DigitsValue(d)) == n by {
      NatToStringValue(m);
    }
    ParseIntAccepts("", sign, "", d, "");
  }

  // ---------------------------------------------------------------------
  // `str.split(sep)` and `sep.join(parts)` on one separator character

  /**
   * Python's `s.split(sep)` with an explicit one-character separator: every
   * occurrence splits, so adjacent separators give empty parts and the
   * result always has at least one part.
   */
  function Split(s: string, sep: char): (parts: seq<string>)
    ensures |parts| >= 1
  {
    if s == [] then [""]
    else
      var rest := Split(s[1..], sep);
      if s[0] == sep then [""] + rest else [[s[0]] + rest[0]] + rest[1..]
  }

  /** How many times `c` occurs in `s`. */
  function CountChar(s: string, c: char): nat {
    if s == [] then 0 else (if s[0] == c then 1 else 0) + CountChar(s[1..], c)
  }

  /** A split has one more part than `s` has separators. */
  lemma {:induction false} SplitCount(s: string, sep: char)
    ensures |Split(s, sep)| == CountChar(s, sep) + 1
  {
    if s != [] { SplitCount(s[1..], sep); }
  }

  /** Python's `sep.join(parts)`. */
  function Join(parts: seq<string>, sep: char): string {
    if parts == [] then ""
    else if |parts| == 1 then parts[0]
    else parts[0] + [sep] + Join(parts[1..], sep)
  }

  lemma {:induction false} SplitPartsHaveNoSeparator(s: string, sep: char)
    ensures forall p, i :: p in Split(s, sep) && 0 <= i < |p| ==> p[i] != sep
  {
    if s != [] {
      SplitPartsHaveNoSeparator(s[1..], sep);
      var rest := Split(s[1..], sep);
      if s[0] != sep {
        var head := [s[0]] + rest[0];
        assert forall i :: 0 <= i < |head| ==> head[i] != sep by {
          forall i | 0 <= i < |head| ensures head[i] != sep {
            if i > 0 { assert head[i] == rest[0][i - 1]; assert rest[0] in rest; }
          }
        }
        forall p | p in Split(s, sep) ensures forall i :: 0 <= i < |p| ==> p[i] != sep {
          if p != head { assert p in rest[1..]; }
        }
      }
    }
  }

  /** Joining the parts of a split gives back the original string. */
  lemma {:induction false} JoinSplit(s: string, sep: char)
    ensures Join(Split(s, sep), sep) == s
  {
    if s != [] {
      var rest := Split(s[1..], sep);
      JoinSplit(s[1..], sep);
      assert s == [s[0]] + s[1..];
      if s[0] == sep {
        var parts := [""] + rest;
        assert parts[1..] == rest;
        assert Join(parts, sep) == "" + [sep] + Join(rest, sep);
      } else {
        var parts := [[s[0]] + rest[0]] + rest[1..];
        if |rest| == 1 {
          assert parts == [[s[0]] + rest[0]];
          assert Join(rest, sep) == rest[0];
        } else {
          var tail := Join(rest[1..], sep);
          assert parts[1..] == rest[1..];
          assert Join(parts, sep) == [s[0]] + rest[0] + [sep] + tail;
          assert Join(rest, sep) == rest[0] + [sep] + tail;
          assert [s[0]] + rest[0] + [sep] + tail == [s[0]] + (rest[0] + [sep] + tail);
        }
      }
    }
  }

  /** Python's `s.rindex(c)`: the last position of `c`, `None` for the `ValueError`. */
  function LastIndexOf(s: string, c: char): (r: Option<nat>)
    ensures r.Some? ==> r.value < |s| && s[r.value] == c && forall j :: r.value < j < |s| ==> s[j] != c
    ensures r.None? ==> forall j :: 0 <= j < |s| ==> s[j] != c
  {
    if s == [] then None
    else if s[|s| - 1] == c then Some(|s| - 1)
    else LastIndexOf(s[..|s| - 1], c)
  }

  /** A position holding `c` with no `c` after it is what `rindex` finds. */
  lemma LastIndexOfIs(s: string, c: char, i: nat)
    requires i < |s| && s[i] == c
    requires forall j :: i < j < |s| ==> s[j] != c
    ensures LastIndexOf(s, c) == Some(i)
  {
    var r := LastIndexOf(s, c);
    assert r.Some?;
  }

  // ---------------------------------------------------------------------
  // Python's string comparison: lexicographic on code points

  predicate StrLe(a: string, b: string) {
    if a == [] then true
    else if b == [] then false
    else a[0] < b[0] || (a[0] == b[0] && StrLe(a[1..], b[1..]))
  }

  lemma {:induction false} StrLeTotal(a: string, b: string)
    ensures StrLe(a, b) || StrLe(b, a)
  {
    if a != [] && b != [] && a[0] == b[0] {
      StrLeTotal(a[1..], b[1..]);
    }
  }

  lemma StrLeIsTotalPreorder()
    ensures forall a, b :: StrLe(a, b) || StrLe(b, a)
    ensures forall a, b, c :: StrLe(a, b) && StrLe(b, c) ==> StrLe(a, c)
  {
    forall a, b ensures StrLe(a, b) || StrLe(b, a) { StrLeTotal(a, b); }
    forall a, b, c | StrLe(a, b) && StrLe(b, c) ensures StrLe(a, c) { StrLeTransitive(a, b, c); }
  }

  lemma {:induction false} StrLeTransitive(a: string, b: string, c: string)
    requires StrLe(a, b) && StrLe(b, c)
    ensures StrLe(a, c)
  {
    if a != [] && b != [] && c != [] && a[0] == b[0] && b[0] == c[0] {
      StrLeTransitive(a[1..], b[1..], c[1..]);
    }
  }
}
