/** String primitives the wizard applies to every line it reads: `str::trim`,
    `str::to_lowercase`, `str::to_uppercase` and `str::parse::<u32>`, restricted
    to ASCII (see README for the restriction). */
module Text {

  datatype Result<T, E> = Ok(value: T) | Err(error: E)

  /** White space that `trim` removes: U+0009 to U+000D and U+0020. */
  predicate IsSpace(c: char) {
    c == ' ' || ('\t' <= c <= '\r')
  }

  predicate AllSpace(s: string) {
    forall i :: 0 <= i < |s| ==> IsSpace(s[i])
  }

  /** Neither end of `s` is white space. */
  predicate IsTrimmed(s: string) {
    s == [] || (!IsSpace(s[0]) && !IsSpace(s[|s| - 1]))
  }

  // ---------------------------------------------------------------- trim

  /** `s` without its leading white space. */
  function TrimStart(s: string): (r: string)
    ensures |r| <= |s|
    ensures r == [] || !IsSpace(r[0])
  {
    if s != [] && IsSpace(s[0]) then TrimStart(s[1..]) else s
  }

  /** `s` without its trailing white space. */
  function TrimEnd(s: string): (r: string)
    ensures |r| <= |s|
    ensures r == [] || !IsSpace(r[|r| - 1])
    ensures r != [] ==> r[0] == s[0]
  {
    if s != [] && IsSpace(s[|s| - 1]) then TrimEnd(s[..|s| - 1]) else s
  }

  /** `str::trim`: both ends stripped. */
  function Trim(s: string): (r: string)
    ensures IsTrimmed(r)
    ensures |r| <= |s|
  {
    TrimEnd(TrimStart(s))
  }

  /** TrimStart removes a prefix of white space and nothing else. */
  lemma {:induction false} TrimStartShape(s: string)
    ensures var r := TrimStart(s); r == s[|s| - |r|..] && AllSpace(s[..|s| - |r|])
  {
    if s != [] && IsSpace(s[0]) {
      TrimStartShape(s[1..]);
      var r := TrimStart(s);
      assert s[..|s| - |r|] == [s[0]] + s[1..][..|s| - 1 - |r|];
    }
  }

  /** TrimEnd removes a suffix of white space and nothing else. */
  lemma {:induction false} TrimEndShape(s: string)
    ensures var r := TrimEnd(s); r == s[..|r|] && AllSpace(s[|r|..])
  {
    if s != [] && IsSpace(s[|s| - 1]) {
      var init := s[..|s| - 1];
      TrimEndShape(init);
      var r := TrimEnd(s);
      assert s[|r|..] == init[|r|..] + [s[|s| - 1]];
    }
  }

  lemma {:induction false} TrimStartOfSpace(pre: string, rest: string)
    requires AllSpace(pre)
    requires rest == [] || !IsSpace(rest[0])
    ensures TrimStart(pre + rest) == rest
  {
    if pre != [] {
      assert (pre + rest)[1..] == pre[1..] + rest;
      TrimStartOfSpace(pre[1..], rest);
    } else {
      assert pre + rest == rest;
    }
  }

  lemma {:induction false} TrimEndOfSpace(rest: string, post: string)
    requires AllSpace(post)
    requires rest == [] || !IsSpace(rest[|rest| - 1])
    ensures TrimEnd(rest + post) == rest
  {
    if post != [] {
      var s := rest + post;
      assert s[..|s| - 1] == rest + post[..|post| - 1];
      TrimEndOfSpace(rest, post[..|post| - 1]);
    } else {
      assert rest + post == rest;
    }
  }

  /** Reference characterisation of `trim`: around a trimmed core, any white
      space on either side is removed and nothing else is. */
  lemma TrimExact(pre: string, mid: string, post: string)
    requires AllSpace(pre) && AllSpace(post) && IsTrimmed(mid)
    ensures Trim(pre + mid + post) == mid
  {
    if mid == [] {
      assert pre + mid + post == pre + post;
      TrimStartOfSpace(pre + post, []);
      assert pre + post + [] == pre + post;
      assert TrimStart(pre + post) == [];
    } else {
      assert pre + mid + post == pre + (mid + post);
      TrimStartOfSpace(pre, mid + post);
      TrimEndOfSpace(mid, post);
    }
  }

  /** `trim` is idempotent. */
  lemma TrimIdempotent(s: string)
    ensures Trim(Trim(s)) == Trim(s)
  {
    TrimExact([], Trim(s), []);
    assert [] + Trim(s) + [] == Trim(s);
  }

  /** Appending white space to a trimmed string and trimming again gives the
      string back. */
  lemma TrimAppendSpace(t: string, w: string)
    requires IsTrimmed(t) && AllSpace(w)
    ensures Trim(t + w) == t
  {
    TrimExact([], t, w);
    assert [] + t + w == t + w;
  }

  /** When `t` starts with a character that is not white space, trimming
      `t + l` keeps that first character. */
  lemma TrimKeepsHead(t: string, l: string)
    requires t != [] && !IsSpace(t[0])
    ensures Trim(t + l) != [] && Trim(t + l)[0] == t[0]
  {
    var s := t + l;
    assert TrimStart(s) == s;
    TrimEndShape(s);
  }

  // ---------------------------------------------------------- case mapping

  predicate IsAsciiUpper(c: char) { 'A' <= c <= 'Z' }
  predicate IsAsciiLower(c: char) { 'a' <= c <= 'z' }

  function LowerChar(c: char): (d: char)
    ensures IsAsciiUpper(c) ==> IsAsciiLower(d) && d as int == c as int + 32
    ensures !IsAsciiUpper(c) ==> d == c
  {
    if IsAsciiUpper(c) then (c as int + 32) as char else c
  }

  function UpperChar(c: char): (d: char)
    ensures IsAsciiLower(c) ==> IsAsciiUpper(d) && d as int == c as int - 32
    ensures !IsAsciiLower(c) ==> d == c
  {
    if IsAsciiLower(c) then (c as int - 32) as char else c
  }

  /** No ASCII upper-case letter occurs in `s`. */
  predicate IsLower(s: string) {
    forall i :: 0 <= i < |s| ==> !IsAsciiUpper(s[i])
  }

  /** No ASCII lower-case letter occurs in `s`. */
  predicate IsUpper(s: string) {
    forall i :: 0 <= i < |s| ==> !IsAsciiLower(s[i])
  }

  /** `str::to_lowercase`, character by character. */
  function ToLower(s: string): (r: string)
    ensures |r| == |s|
  {
    if s == [] then [] else [LowerChar(s[0])] + ToLower(s[1..])
  }

  /** `str::to_uppercase`, character by character. */
  function ToUpper(s: string): (r: string)
    ensures |r| == |s|
  {
    if s == [] then [] else [UpperChar(s[0])] + ToUpper(s[1..])
  }

  /** Lower-casing maps every character on its own. */
  lemma {:induction false} ToLowerAt(s: string)
    ensures forall i :: 0 <= i < |s| ==> ToLower(s)[i] == LowerChar(s[i])
  {
    if s != [] {
      ToLowerAt(s[1..]);
    }
  }

  /** Upper-casing maps every character on its own. */
  lemma {:induction false} ToUpperAt(s: string)
    ensures forall i :: 0 <= i < |s| ==> ToUpper(s)[i] == UpperChar(s[i])
  {
    if s != [] {
      ToUpperAt(s[1..]);
    }
  }

  /** Lower-casing yields a lower-case string, keeps white space where it was
      (so a trimmed string stays trimmed), and is the identity on a string that
      is already lower case. */
  lemma LowerFacts(s: string)
    ensures IsLower(ToLower(s))
    ensures IsTrimmed(s) ==> IsTrimmed(ToLower(s))
    ensures IsLower(s) ==> ToLower(s) == s
  {
    ToLowerAt(s);
  }

  /** The upper-case counterpart of LowerFacts. */
  lemma UpperFacts(s: string)
    ensures IsUpper(ToUpper(s))
    ensures IsTrimmed(s) ==> IsTrimmed(ToUpper(s))
    ensures IsUpper(s) ==> ToUpper(s) == s
  {
    ToUpperAt(s);
  }

  // ------------------------------------------------------------ u32 parse

  /** The error kinds of `core::num::ParseIntError`. */
  datatype IntErrorKind = Empty | InvalidDigit | PosOverflow

  const U32_MAX: nat := 0xFFFF_FFFF

  predicate IsDigit(c: char) { '0' <= c <= '9' }

  predicate AllDigits(s: string) {
    forall i :: 0 <= i < |s| ==> IsDigit(s[i])
  }

  function DigitValue(c: char): (v: nat)
    requires IsDigit(c)
    ensures v < 10
  {
    c as int - '0' as int
  }

  function Pow10(k: nat): (p: nat)
    ensures p >= 1
  {
    if k == 0 then 1 else 10 * Pow10(k - 1)
  }

  /** Positional value of a string of decimal digits (reference definition). */
  function DigitsValue(d: string): nat
    requires AllDigits(d)
  {
    if d == [] then 0 else DigitValue(d[0]) * Pow10(|d| - 1) + DigitsValue(d[1..])
  }

  /** The digit loop of `u32::from_str_radix`, left to right: an invalid
      character stops with InvalidDigit, a checked multiply-and-add that
      exceeds `u32::MAX` stops with PosOverflow. */
  function Accumulate(digits: string, acc: nat): (r: Result<nat, IntErrorKind>)
    requires acc <= U32_MAX
    ensures r.Ok? ==> r.value <= U32_MAX
    ensures r != Err(Empty)
    decreases |digits|
  {
    if digits == [] then Ok(acc)
    else if !IsDigit(digits[0]) then Err(InvalidDigit)
    else
      var v := acc * 10 + DigitValue(digits[0]);
      if v > U32_MAX then Err(PosOverflow) else Accumulate(digits[1..], v)
  }

  /** The part of `s` after an optional leading `+`. */
  function Unsigned(s: string): string {
    if s != [] && s[0] == '+' then s[1..] else s
  }

  /** `s.parse::<u32>()`: an optional `+`, then decimal digits. */
  function ParseU32(s: string): (r: Result<nat, IntErrorKind>)
    ensures r.Ok? ==> r.value <= U32_MAX
    ensures s == [] <==> r == Err(Empty)
  {
    if s == [] then Err(Empty)
    else if (s[0] == '+' || s[0] == '-') && |s| == 1 then Err(InvalidDigit)
    else Accumulate(Unsigned(s), 0)
  }

  lemma {:induction false} AccumulateValue(d: string, acc: nat)
    requires acc <= U32_MAX && AllDigits(d)
    ensures Accumulate(d, acc) ==
      (var total := acc * Pow10(|d|) + DigitsValue(d);
       if total <= U32_MAX then Ok(total) else Err(PosOverflow))
  {
    if d != [] {
      var x := DigitValue(d[0]);
      var v := acc * 10 + x;
      var p := Pow10(|d| - 1);
      assert AllDigits(d[1..]);
      var rest := DigitsValue(d[1..]);
      assert DigitsValue(d) == x * p + rest;
      assert Pow10(|d|) == 10 * p;
      assert acc * (10 * p) == (acc * 10) * p;
      assert (acc * 10 + x) * p == acc * 10 * p + x * p;
      assert acc * Pow10(|d|) + DigitsValue(d) == v * p + rest;
      if v > U32_MAX {
        assert v * p >= v;
      } else {
        AccumulateValue(d[1..], v);
      }
    }
  }

  lemma {:induction false} AccumulateInvalid(d: string, acc: nat)
    requires acc <= U32_MAX && !AllDigits(d)
    ensures Accumulate(d, acc).Err?
  {
    if IsDigit(d[0]) {
      var v := acc * 10 + DigitValue(d[0]);
      if v <= U32_MAX {
        assert !AllDigits(d[1..]) by {
          var i :| 0 <= i < |d| && !IsDigit(d[i]);
          assert d[1..][i - 1] == d[i];
        }
        AccumulateInvalid(d[1..], v);
      }
    }
  }

  /** What `parse::<u32>` accepts, both directions: it succeeds exactly on an
      optional `+` followed by one or more digits whose value fits in 32 bits,
      and then returns that value; too large a value is PosOverflow. */
  lemma ParseU32Spec(s: string)
    ensures ParseU32(s).Ok? <==>
      Unsigned(s) != [] && AllDigits(Unsigned(s)) && DigitsValue(Unsigned(s)) <= U32_MAX
    ensures ParseU32(s).Ok? ==> ParseU32(s).value == DigitsValue(Unsigned(s))
    ensures Unsigned(s) != [] && AllDigits(Unsigned(s)) && DigitsValue(Unsigned(s)) > U32_MAX
      ==> ParseU32(s) == Err(PosOverflow)
  {
    var u := Unsigned(s);
    if s == [] {
    } else if (s[0] == '+' || s[0] == '-') && |s| == 1 {
      if s[0] == '-' { assert !AllDigits(u) by { assert !IsDigit(u[0]); } }
    } else if AllDigits(u) {
      AccumulateValue(u, 0);
    } else {
      AccumulateInvalid(u, 0);
    }
  }
}
