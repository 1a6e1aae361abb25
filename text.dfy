/**
 * The JavaScript string operations the chat widget relies on, over
 * `string` (a sequence of UTF-16 code units is modelled as `seq<char>`):
 * `String.prototype.trim`, `String.prototype.includes`,
 * `String.prototype.toLowerCase` and `Number.prototype.toString` for
 * non-negative integers.
 */
module Text {

  /** The WhiteSpace and LineTerminator characters that `trim` removes. */
  predicate IsWhitespace(c: char)
  {
    || c == '\t' || c == '\n' || c == '\U{B}' || c == '\U{C}' || c == '\r'
    || c == ' ' || c == '\U{A0}' || c == '\U{1680}'
    || ('\U{2000}' <= c <= '\U{200A}')
    || c == '\U{2028}' || c == '\U{2029}' || c == '\U{202F}' || c == '\U{205F}'
    || c == '\U{3000}' || c == '\U{FEFF}'
  }

  /** Leading whitespace removed: the longest suffix that does not start with whitespace. */
  function TrimStart(s: string): (r: string)
    ensures |r| <= |s| && r == s[|s| - |r|..]
    ensures forall i :: 0 <= i < |s| - |r| ==> IsWhitespace(s[i])
    ensures r == [] || !IsWhitespace(r[0])
  {
    if s != [] && IsWhitespace(s[0]) then TrimStart(s[1..]) else s
  }

  /** Trailing whitespace removed: the longest prefix that does not end with whitespace. */
  function TrimEnd(s: string): (r: string)
    ensures |r| <= |s| && r == s[..|r|]
    ensures forall i :: |r| <= i < |s| ==> IsWhitespace(s[i])
    ensures r == [] || !IsWhitespace(r[|r| - 1])
  {
    if s != [] && IsWhitespace(s[|s| - 1]) then TrimEnd(s[..|s| - 1]) else s
  }

  /** `s.trim()`: no longer than `s`, and neither starts nor ends with whitespace. */
  function Trim(s: string): (r: string)
    ensures |r| <= |s|
    ensures r == [] || (!IsWhitespace(r[0]) && !IsWhitespace(r[|r| - 1]))
  {
    TrimEnd(TrimStart(s))
  }

  /** `!s.trim()` holds exactly when every character of `s` is whitespace (the empty string included). */
  lemma TrimEmptyIffBlank(s: string)
    ensures Trim(s) == [] <==> forall i :: 0 <= i < |s| ==> IsWhitespace(s[i])
  {
    var t := TrimStart(s);
    if Trim(s) == [] {
      forall i | 0 <= i < |s| ensures IsWhitespace(s[i]) {
        if i >= |s| - |t| {
          assert s[i] == t[i - (|s| - |t|)];
        }
      }
    } else {
      var r := Trim(s);
      assert r[0] == t[0];
      assert t[0] == s[|s| - |t|];
    }
  }

  /** A string that neither starts nor ends with whitespace is its own trim. */
  lemma TrimUntouched(s: string)
    requires s != [] && !IsWhitespace(s[0]) && !IsWhitespace(s[|s| - 1])
    ensures Trim(s) == s
  {
  }

  /** `k` occurs in `s` starting at index `i`. */
  predicate OccursAt(s: string, k: string, i: nat)
  {
    i + |k| <= |s| && s[i..i + |k|] == k
  }

  /** `s.includes(k)`: `k` is a prefix of `s` or occurs in its tail. */
  predicate Contains(s: string, k: string)
    decreases |s|
  {
    |k| <= |s| && (s[..|k|] == k || Contains(s[1..], k))
  }

  /** `Contains` agrees with the definition by occurrence index, in both directions. */
  lemma {:induction false} ContainsIffOccurs(s: string, k: string)
    ensures Contains(s, k) <==> exists i: nat :: OccursAt(s, k, i)
    decreases |s|
  {
    if Contains(s, k) {
      if s[..|k|] == k {
        assert OccursAt(s, k, 0);
      } else {
        ContainsIffOccurs(s[1..], k);
        var i: nat :| OccursAt(s[1..], k, i);
        assert s[1..][i..i + |k|] == s[i + 1..i + 1 + |k|];
        assert OccursAt(s, k, i + 1);
      }
    }
    if exists i: nat :: OccursAt(s, k, i) {
      var i: nat :| OccursAt(s, k, i);
      if i > 0 {
        assert s[1..][i - 1..i - 1 + |k|] == s[i..i + |k|];
        assert OccursAt(s[1..], k, i - 1);
        ContainsIffOccurs(s[1..], k);
      }
    }
  }

  /** An occurrence at a known index is enough for `includes`. */
  lemma ContainsAt(s: string, k: string, i: nat)
    requires OccursAt(s, k, i)
    ensures Contains(s, k)
  {
    ContainsIffOccurs(s, k);
  }

  /**
   * `toLowerCase` of one character. ASCII capitals map to their small forms;
   * U+0130 (capital I with dot above) maps to "i" followed by U+0307 and
   * U+212A (Kelvin sign) maps to "k", these being the only other characters
   * whose lower-case form contains an ASCII letter. Every other character is
   * kept as it is.
   */
  function LowerChar(c: char): (r: string)
    ensures forall i :: 0 <= i < |r| ==> !('A' <= r[i] <= 'Z')
  {
    if 'A' <= c <= 'Z' then [(c as int + 32) as char]
    else if c == '\U{130}' then ['i', '\U{307}']
    else if c == '\U{212A}' then ['k']
    else [c]
  }

  /** `s.toLowerCase()`, character by character. */
  function LowerCase(s: string): (r: string)
    ensures |r| >= |s|
    ensures forall i :: 0 <= i < |r| ==> !('A' <= r[i] <= 'Z')
  {
    if s == [] then [] else LowerChar(s[0]) + LowerCase(s[1..])
  }

  lemma {:induction false} LowerCaseAppend(a: string, b: string)
    ensures LowerCase(a + b) == LowerCase(a) + LowerCase(b)
    decreases |a|
  {
    if a == [] {
      assert a + b == b;
    } else {
      assert (a + b)[0] == a[0] && (a + b)[1..] == a[1..] + b;
      LowerCaseAppend(a[1..], b);
      assert LowerCase(a + b) == LowerChar(a[0]) + (LowerCase(a[1..]) + LowerCase(b));
    }
  }

  lemma LowerCharFixed(c: char)
    ensures LowerCase(LowerChar(c)) == LowerChar(c)
  {
    var r := LowerChar(c);
    if c == '\U{130}' {
      assert r[1..][1..] == [];
      assert LowerCase(r[1..]) == LowerChar('\U{307}') + LowerCase([]);
    } else {
      assert r[1..] == [];
    }
  }

  /** Lower-casing twice is lower-casing once. */
  lemma {:induction false} LowerCaseIdempotent(s: string)
    ensures LowerCase(LowerCase(s)) == LowerCase(s)
    decreases |s|
  {
    if s != [] {
      LowerCaseAppend(LowerChar(s[0]), LowerCase(s[1..]));
      LowerCharFixed(s[0]);
      LowerCaseIdempotent(s[1..]);
    }
  }

  function Digit(d: nat): (c: char)
    requires d < 10
    ensures '0' <= c <= '9'
  {
    ('0' as int + d) as char
  }

  /** The number a string of decimal digits denotes, most significant digit first. */
  function DigitsValue(s: string): nat
    requires forall i :: 0 <= i < |s| ==> '0' <= s[i] <= '9'
  {
    if s == [] then 0 else 10 * DigitsValue(s[..|s| - 1]) + (s[|s| - 1] as int - '0' as int)
  }

  /** `n.toString()` for a non-negative integer: its decimal digits, no leading zero. */
  function DecimalString(n: nat): (r: string)
    ensures |r| > 0 && (r[0] == '0' <==> n == 0)
    ensures forall i :: 0 <= i < |r| ==> '0' <= r[i] <= '9'
    ensures DigitsValue(r) == n
  {
    if n < 10 then [Digit(n)]
    else
      var prefix := DecimalString(n / 10);
      var r := prefix + [Digit(n % 10)];
      assert r[..|r| - 1] == prefix;
      r
  }

  /** Different numbers never get the same decimal string. */
  lemma DecimalStringInjective(m: nat, n: nat)
    ensures DecimalString(m) == DecimalString(n) <==> m == n
  {
  }
}
