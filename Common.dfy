/** Values and Java library behaviour shared by every part of the model:
    null as Option, exceptions as Result, and the java.lang.String and
    java.lang.Integer operations the bot relies on (trim, startsWith,
    contains, case folding, Integer.toString and Integer.parseInt). */
module Common {

  /** A Java reference that may be null. */
  datatype Option<+T> = None | Some(value: T)

  /** A computation that may throw; `error` is the exception's message. */
  datatype Result<+T> = Ok(value: T) | Err(error: string)

  /** The text of the exceptions the JVM raises itself (a failed cast, a
      call on null); their exact wording is not part of this model. */
  const CLASS_CAST: string := "ClassCastException"
  const NULL_POINTER: string := "NullPointerException"

  const INT_MIN: int := -0x8000_0000
  const INT_MAX: int := 0x7fff_ffff

  /** The scheme of every Authorization header the system sends or accepts. */
  const BEARER: string := "Bearer "

  /** The range of a Java `int`. */
  predicate IsInt32(n: int) {
    INT_MIN <= n <= INT_MAX
  }

  // ---------------------------------------------------------------------
  // String.trim() and String.isEmpty()
  // ---------------------------------------------------------------------

  /** String.trim() strips every character whose code is at most U+0020. */
  predicate IsTrimmable(c: char) {
    c <= ' '
  }

  /** `s.trim().isEmpty()`: nothing but trimmable characters. */
  predicate IsBlank(s: string) {
    forall i | 0 <= i < |s| :: IsTrimmable(s[i])
  }

  /** `x != null && !x.trim().isEmpty()`. */
  predicate IsPresent(x: Option<string>) {
    x.Some? && !IsBlank(x.value)
  }

  function TrimStart(s: string): (r: string)
    ensures |r| <= |s| && r == s[|s| - |r|..]
    ensures IsBlank(s[..|s| - |r|])
    ensures |r| > 0 ==> !IsTrimmable(r[0])
  {
    if |s| > 0 && IsTrimmable(s[0]) then
      var r := TrimStart(s[1..]);
      assert s[1..][..|s[1..]| - |r|] == s[1..|s| - |r|];
      r
    else s
  }

  function TrimEnd(s: string): (r: string)
    ensures |r| <= |s| && r == s[..|r|]
    ensures IsBlank(s[|r|..])
    ensures |r| > 0 ==> !IsTrimmable(r[|r| - 1])
  {
    if |s| > 0 && IsTrimmable(s[|s| - 1]) then
      var r := TrimEnd(s[..|s| - 1]);
      assert s[..|s| - 1][|r|..] == s[|r|..|s| - 1];
      r
    else s
  }

  /** String.trim(): the result is the blank-free core of `s`; it is empty
      exactly when `s` is blank. */
  function Trim(s: string): (r: string)
    ensures IsBlank(s) <==> r == ""
    ensures |r| > 0 ==> !IsTrimmable(r[0]) && !IsTrimmable(r[|r| - 1])
  {
    var left := TrimStart(s);
    var r := TrimEnd(left);
    if r == "" then
      assert left == left[|r|..];
      assert s == s[..|s| - |left|] + left;
      BlankConcat(s[..|s| - |left|], left);
      r
    else
      assert r[0] == left[0];
      assert !IsBlank(s) by { assert s[|s| - |left|] == left[0]; }
      r
  }

  /** trim() is the left strip followed by the right strip. */
  lemma TrimIsEnds(s: string)
    ensures Trim(s) == TrimEnd(TrimStart(s))
  {
  }

  lemma BlankConcat(a: string, b: string)
    requires IsBlank(a) && IsBlank(b)
    ensures IsBlank(a + b)
  {
    forall i | 0 <= i < |a + b| ensures IsTrimmable((a + b)[i]) {
      if i < |a| { assert (a + b)[i] == a[i]; } else { assert (a + b)[i] == b[i - |a|]; }
    }
  }

  // ---------------------------------------------------------------------
  // startsWith, contains, case
  // ---------------------------------------------------------------------

  /** String.startsWith. */
  predicate StartsWith(s: string, prefix: string) {
    prefix <= s
  }

  /** String.endsWith. */
  predicate EndsWith(s: string, suffix: string) {
    |suffix| <= |s| && s[|s| - |suffix|..] == suffix
  }

  /** String.contains: `sub` occurs somewhere in `s`. */
  predicate Contains(s: string, sub: string)
    decreases |s|
  {
    sub <= s || (|s| > 0 && Contains(s[1..], sub))
  }

  /** Character.toLowerCase, on the ASCII letters. */
  function LowerChar(c: char): char {
    if 'A' <= c <= 'Z' then (c as int + 32) as char else c
  }

  /** String.toLowerCase: same length, every character folded. */
  function ToLower(s: string): (r: string)
    ensures |r| == |s| && forall i | 0 <= i < |s| :: r[i] == LowerChar(s[i])
  {
    seq(|s|, i requires 0 <= i < |s| => LowerChar(s[i]))
  }

  /** Folding twice is folding once, so equalsIgnoreCase compares the
      folded texts as they are. */
  lemma ToLowerIdempotent(s: string)
    ensures ToLower(ToLower(s)) == ToLower(s)
  {
  }

  /** String.equalsIgnoreCase. */
  predicate EqualsIgnoreCase(a: string, b: string) {
    ToLower(a) == ToLower(b)
  }

  /** String.replace(char, char) as used with `replace(" ", "_")`. */
  function ReplaceChar(s: string, from: char, to: char): (r: string)
    ensures |r| == |s|
    ensures forall i | 0 <= i < |s| :: r[i] == (if s[i] == from then to else s[i])
  {
    seq(|s|, i requires 0 <= i < |s| => if s[i] == from then to else s[i])
  }

  // ---------------------------------------------------------------------
  // Integer.toString and Integer.parseInt
  // ---------------------------------------------------------------------

  predicate IsDigit(c: char) {
    '0' <= c <= '9'
  }

  predicate AllDigits(s: string) {
    forall i | 0 <= i < |s| :: IsDigit(s[i])
  }

  function DigitChar(d: nat): (c: char)
    requires d < 10
    ensures IsDigit(c)
  {
    ('0' as int + d) as char
  }

  /** The decimal digits of `n`, most significant first, no leading zero. */
  function NatToString(n: nat): (r: string)
    decreases n
  {
    if n < 10 then [DigitChar(n)] else NatToString(n / 10) + [DigitChar(n % 10)]
  }

  /** Integer.toString, which is also what `"..." + n` produces. */
  function IntToString(n: int): string {
    if n < 0 then "-" + NatToString(-n) else NatToString(n)
  }

  /** The value of a string of decimal digits. */
  function DigitsValue(s: string): nat
    requires AllDigits(s)
  {
    if |s| == 0 then 0 else DigitsValue(s[..|s| - 1]) * 10 + (s[|s| - 1] as int - '0' as int)
  }

  /** Integer.parseInt on ASCII decimal text; None is NumberFormatException:
      empty text, a lone sign, a non-digit, or a value outside int range. */
  function ParseInt(s: string): (r: Option<int>)
    ensures r.Some? ==> IsInt32(r.value)
  {
    if |s| == 0 then None
    else
      var digits := if s[0] == '-' || s[0] == '+' then s[1..] else s;
      if |digits| == 0 || !AllDigits(digits) then None
      else
        var v: int := if s[0] == '-' then -(DigitsValue(digits) as int) else DigitsValue(digits);
        if IsInt32(v) then Some(v) else None
  }

  /** What parses, and to what: an optional sign and one or more ASCII
      digits give their signed value when it is an `int`, and are rejected
      otherwise. */
  lemma ParseIntNumeral(sign: string, digits: string)
    requires sign == "" || sign == "+" || sign == "-"
    requires |digits| > 0 && AllDigits(digits)
    ensures var v := if sign == "-" then -(DigitsValue(digits) as int) else DigitsValue(digits) as int;
      ParseInt(sign + digits) == if IsInt32(v) then Some(v) else None
  {
    if sign == "" {
      assert sign + digits == digits;
      ParseIntUnsigned(digits);
    } else if sign == "+" {
      ParseIntPlus(digits);
    } else {
      ParseIntMinus(digits);
    }
  }

  /** The three sign cases, one lemma each. */
  lemma ParseIntUnsigned(digits: string)
    requires |digits| > 0 && AllDigits(digits)
    ensures ParseInt(digits) == if IsInt32(DigitsValue(digits)) then Some(DigitsValue(digits) as int) else None
  {
    assert IsDigit(digits[0]);
  }

  lemma ParseIntPlus(digits: string)
    requires |digits| > 0 && AllDigits(digits)
    ensures ParseInt("+" + digits) == if IsInt32(DigitsValue(digits)) then Some(DigitsValue(digits) as int) else None
  {
    assert ("+" + digits)[1..] == digits;
  }

  lemma ParseIntMinus(digits: string)
    requires |digits| > 0 && AllDigits(digits)
    ensures ParseInt("-" + digits) == if IsInt32(-(DigitsValue(digits) as int)) then Some(-(DigitsValue(digits) as int)) else None
  {
    assert ("-" + digits)[1..] == digits;
  }

  /** Nothing else parses: accepted text is an optional sign followed by at
      least one ASCII digit. */
  lemma ParseIntOnlyNumerals(s: string)
    requires ParseInt(s).Some?
    ensures |s| > 0
    ensures var k := if s[0] == '-' || s[0] == '+' then 1 else 0;
      k < |s| && AllDigits(s[k..])
  {
  }

  lemma {:induction false} NatToStringDigits(n: nat)
    ensures |NatToString(n)| > 0
    ensures AllDigits(NatToString(n))
    ensures DigitsValue(NatToString(n)) == n
    decreases n
  {
    if n >= 10 {
      NatToStringDigits(n / 10);
      var s := NatToString(n);
      assert s[..|s| - 1] == NatToString(n / 10);
      assert s[|s| - 1] == DigitChar(n % 10);
    }
  }

  /** Integer.parseInt(Integer.toString(n)) == n for every int. */
  lemma ParseIntToString(n: int)
    requires IsInt32(n)
    ensures ParseInt(IntToString(n)) == Some(n)
  {
    if n < 0 {
      var d := NatToString(-n);
      NatToStringDigits(-n);
      var s := "-" + d;
      assert s[0] == '-' && s[1..] == d;
      assert ParseInt(s) == Some(-(DigitsValue(d) as int));
    } else {
      var s := NatToString(n);
      NatToStringDigits(n);
      assert IsDigit(s[0]);
      assert ParseInt(s) == Some(DigitsValue(s) as int);
    }
  }

  /** Integer.toString never yields text that String.trim() would change. */
  lemma IntToStringTrimmed(n: int)
    ensures |IntToString(n)| > 0
    ensures !IsTrimmable(IntToString(n)[0]) && !IsTrimmable(IntToString(n)[|IntToString(n)| - 1])
    ensures Trim(IntToString(n)) == IntToString(n)
  {
    var s := IntToString(n);
    if n < 0 { NatToStringDigits(-n); } else { NatToStringDigits(n); }
    assert !IsTrimmable(s[0]) && !IsTrimmable(s[|s| - 1]) by {
      if n < 0 { assert s[|s| - 1] == NatToString(-n)[|NatToString(-n)| - 1]; }
    }
    TrimIsEnds(s);
  }

  /** Distinct ints print as distinct text. */
  lemma IntToStringInjective(a: int, b: int)
    requires IsInt32(a) && IsInt32(b) && a != b
    ensures IntToString(a) != IntToString(b)
  {
    ParseIntToString(a);
    ParseIntToString(b);
  }

  // ---------------------------------------------------------------------
  // Searches over lists, as the source's for-loops do them
  // ---------------------------------------------------------------------

  /** The index of the first element satisfying `p`: what a for-each loop
      with an early `return` finds. */
  function FirstWhere<T>(s: seq<T>, p: T -> bool): (r: Option<nat>)
    ensures r.Some? ==> r.value < |s| && p(s[r.value]) && forall j | 0 <= j < r.value :: !p(s[j])
    ensures r.None? ==> forall j | 0 <= j < |s| :: !p(s[j])
  {
    if |s| == 0 then None
    else if p(s[0]) then Some(0)
    else
      var r := FirstWhere(s[1..], p);
      if r.Some? then Some(r.value + 1) else None
  }

  /** The map a for-each loop builds with `map.put(key(x), x)` for every `x`
      whose key is present: later elements overwrite earlier ones. */
  function LastByKey<T>(s: seq<T>, key: T -> Option<string>): map<string, T>
  {
    if |s| == 0 then map[]
    else
      var m := LastByKey(s[..|s| - 1], key);
      var k := key(s[|s| - 1]);
      if k.Some? then m[k.value := s[|s| - 1]] else m
  }

  /** Index `i` puts key `k` into the map. */
  predicate KeyedAt<T>(s: seq<T>, key: T -> Option<string>, k: string, i: int) {
    0 <= i < |s| && key(s[i]) == Some(k)
  }

  /** A key is in the map iff some element carries it, and it maps to the
      LAST element carrying it. */
  lemma {:induction false} LastByKeySpec<T>(s: seq<T>, key: T -> Option<string>, k: string)
    ensures k in LastByKey(s, key) <==> exists i :: KeyedAt(s, key, k, i)
    ensures k in LastByKey(s, key) ==>
      exists i :: KeyedAt(s, key, k, i) && LastByKey(s, key)[k] == s[i]
                  && forall j :: i < j < |s| ==> !KeyedAt(s, key, k, j)
  {
    if |s| > 0 {
      var init := s[..|s| - 1];
      LastByKeySpec(init, key, k);
      forall i | KeyedAt(init, key, k, i) ensures KeyedAt(s, key, k, i) {
        assert init[i] == s[i];
      }
      forall i | KeyedAt(s, key, k, i) && i < |s| - 1 ensures KeyedAt(init, key, k, i) {
        assert init[i] == s[i];
      }
      if key(s[|s| - 1]) == Some(k) {
        assert KeyedAt(s, key, k, |s| - 1);
      } else if k in LastByKey(init, key) {
        var i :| KeyedAt(init, key, k, i) && LastByKey(init, key)[k] == init[i]
                 && forall j :: i < j < |init| ==> !KeyedAt(init, key, k, j);
        assert KeyedAt(s, key, k, i);
        forall j | i < j < |s| ensures !KeyedAt(s, key, k, j) {
          if j < |s| - 1 { assert !KeyedAt(init, key, k, j); }
        }
      }
    }
  }
}
