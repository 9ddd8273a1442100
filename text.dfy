/**
  The string built-ins the components rely on: `String.prototype.trim`,
  `replace(/\s/g, '')`, `replace(/\D/g, '')` and the regular expression
  `/^\d{10}$/`. Characters are Unicode scalar values.
*/
module Text {

  /** A character of the regular-expression class `\s`, which is also the set
      `trim` removes: ECMAScript WhiteSpace and LineTerminator. */
  predicate IsWhitespace(c: char) {
    || c == '\t' || c == '\n' || c == '\U{B}' || c == '\U{C}' || c == '\r'
    || c == ' ' || c == '\U{A0}' || c == '\U{1680}'
    || ('\U{2000}' <= c <= '\U{200A}')
    || c == '\U{2028}' || c == '\U{2029}' || c == '\U{202F}' || c == '\U{205F}'
    || c == '\U{3000}' || c == '\U{FEFF}'
  }

  /** A character of the class `\d` (no `u` flag): an ASCII decimal digit. */
  predicate IsDigit(c: char) {
    '0' <= c <= '9'
  }

  predicate IsBlank(s: string) {
    forall i :: 0 <= i < |s| ==> IsWhitespace(s[i])
  }

  predicate AllDigits(s: string) {
    forall i :: 0 <= i < |s| ==> IsDigit(s[i])
  }

  /** What `/^\d{10}$/.test(s)` accepts. */
  predicate IsTenDigits(s: string) {
    |s| == 10 && AllDigits(s)
  }

  /** Drops the leading whitespace. The characterisation
      is the lemma TrimStartSpec; contracts here stay free of quantifiers so
      that callers do not pay for them. */
  function TrimStart(s: string): (r: string)
    ensures |r| <= |s|
  {
    if s == [] || !IsWhitespace(s[0]) then s else TrimStart(s[1..])
  }

  /** TrimStart keeps a suffix of `s`; what it drops is whitespace and what
      it keeps does not start with whitespace: it keeps the longest such
      suffix. */
  lemma {:induction false} TrimStartSpec(s: string)
    ensures var r := TrimStart(s);
      && r == s[|s| - |r|..]
      && IsBlank(s[..|s| - |r|])
      && (r == [] || !IsWhitespace(r[0]))
      && (r == [] <==> IsBlank(s))
  {
    if s != [] && IsWhitespace(s[0]) {
      var r := TrimStart(s[1..]);
      TrimStartSpec(s[1..]);
      assert s[..|s| - |r|] == [s[0]] + s[1..][..|s| - 1 - |r|];
    }
  }

  /** Drops the trailing whitespace. */
  function TrimEnd(s: string): (r: string)
    ensures |r| <= |s|
  {
    if s == [] || !IsWhitespace(s[|s| - 1]) then s else TrimEnd(s[..|s| - 1])
  }

  /** TrimEnd keeps a prefix of `s`; what it drops is whitespace and what it
      keeps does not end with whitespace. */
  lemma {:induction false} TrimEndSpec(s: string)
    ensures var r := TrimEnd(s);
      && r == s[..|r|]
      && IsBlank(s[|r|..])
      && (r == [] || !IsWhitespace(r[|r| - 1]))
      && (r == [] <==> IsBlank(s))
  {
    if s != [] && IsWhitespace(s[|s| - 1]) {
      var r := TrimEnd(s[..|s| - 1]);
      TrimEndSpec(s[..|s| - 1]);
      assert s[|r|..] == s[..|s| - 1][|r|..] + [s[|s| - 1]];
    }
  }

  /** `s.trim()`. */
  function Trim(s: string): (r: string)
    ensures |r| <= |s|
  {
    TrimEnd(TrimStart(s))
  }

  /** The trimmed string has no whitespace at either end, and it is empty
      exactly when `s` is all whitespace. */
  lemma TrimSpec(s: string)
    ensures Trim(s) == [] <==> IsBlank(s)
    ensures Trim(s) != [] ==> !IsWhitespace(Trim(s)[0]) && !IsWhitespace(Trim(s)[|Trim(s)| - 1])
  {
    var t := TrimStart(s);
    var r := TrimEnd(t);
    TrimStartSpec(s);
    TrimEndSpec(t);
    assert r != [] ==> r[0] == t[0];
  }

  /** `r` is `s` with its surrounding whitespace cut off: a slice of `s`
      between two all-whitespace ends, itself without whitespace at either
      end. */
  ghost predicate IsTrimOf(r: string, s: string) {
    && (exists i, j :: 0 <= i <= j <= |s| && r == s[i..j] && IsBlank(s[..i]) && IsBlank(s[j..]))
    && (r == [] || (!IsWhitespace(r[0]) && !IsWhitespace(r[|r| - 1])))
  }

  /** `trim()` cuts off exactly the surrounding whitespace: only the
      whitespace at either end is removed, and all of it. */
  lemma TrimIsTrimOf(s: string)
    ensures IsTrimOf(Trim(s), s)
  {
    var t := TrimStart(s);
    var r := Trim(s);
    TrimStartSpec(s);
    TrimEndSpec(t);
    TrimSpec(s);
    var i := |s| - |t|;
    var j := i + |r|;
    assert r == s[i..j];
    assert s[j..] == t[|r|..];
  }

  /** Only `trim()` cuts off the surrounding whitespace: `IsTrimOf` pins
      down its result. */
  lemma TrimOfIsUnique(r: string, s: string)
    requires IsTrimOf(r, s)
    ensures r == Trim(s)
  {
    var i, j :| 0 <= i <= j <= |s| && r == s[i..j] && IsBlank(s[..i]) && IsBlank(s[j..]);
    if r == [] {
      assert s == s[..i] + s[j..];
      TrimSpec(s);
    } else {
      TrimStartAt(s, i);
      var t := s[i..];
      assert t[..j - i] == r && t[j - i..] == s[j..];
      TrimEndAt(t, j - i);
    }
  }

  /** A string whose first non-whitespace character is at `i` loses exactly
      its first `i` characters to TrimStart. */
  lemma {:induction false} TrimStartAt(s: string, i: nat)
    requires i < |s| && IsBlank(s[..i]) && !IsWhitespace(s[i])
    ensures TrimStart(s) == s[i..]
  {
    if i > 0 {
      assert s[1..][..i - 1] == s[..i][1..];
      TrimStartAt(s[1..], i - 1);
    }
  }

  /** A string whose last non-whitespace character is at `m - 1` keeps
      exactly its first `m` characters under TrimEnd. */
  lemma {:induction false} TrimEndAt(t: string, m: nat)
    requires 0 < m <= |t| && IsBlank(t[m..]) && !IsWhitespace(t[m - 1])
    ensures TrimEnd(t) == t[..m]
  {
    if m < |t| {
      var init := t[..|t| - 1];
      assert t[|t| - 1] == t[m..][|t| - 1 - m];
      assert init[m..] == t[m..|t| - 1];
      TrimEndAt(init, m);
      assert init[..m] == t[..m];
    }
  }

  /** `s.replace(/\s/g, '')`: the characters of `s` that are not whitespace,
      in order. */
  function StripWhitespace(s: string): (r: string)
    ensures |r| <= |s|
  {
    if s == [] then []
    else if IsWhitespace(s[0]) then StripWhitespace(s[1..])
    else [s[0]] + StripWhitespace(s[1..])
  }

  /** No whitespace is left, and whitespace-free text is left alone. Which
      characters are kept, and in what order, follows from
      `StripWhitespaceOfChar` and `StripAppend`. */
  lemma {:induction false} StripWhitespaceSpec(s: string)
    ensures forall i :: 0 <= i < |StripWhitespace(s)| ==> !IsWhitespace(StripWhitespace(s)[i])
    ensures (forall i :: 0 <= i < |s| ==> !IsWhitespace(s[i])) ==> StripWhitespace(s) == s
  {
    if s != [] {
      StripWhitespaceSpec(s[1..]);
    }
  }

  /** `s.replace(/\D/g, '')`: the decimal digits of `s`, in order. */
  function DigitsOnly(s: string): (r: string)
    ensures |r| <= |s|
    ensures AllDigits(r)
  {
    if s == [] then []
    else if IsDigit(s[0]) then [s[0]] + DigitsOnly(s[1..])
    else DigitsOnly(s[1..])
  }

  /** Removing the non-digits from a digit string changes nothing, and only a
      digit string is left unchanged. */
  lemma {:induction false} DigitsOnlyFixesExactlyDigitStrings(s: string)
    ensures DigitsOnly(s) == s <==> AllDigits(s)
  {
    if s != [] {
      DigitsOnlyFixesExactlyDigitStrings(s[1..]);
      if !IsDigit(s[0]) {
        assert |DigitsOnly(s)| < |s|;
      }
    }
  }

  lemma {:induction false} DigitsOnlyIdempotent(s: string)
    ensures DigitsOnly(DigitsOnly(s)) == DigitsOnly(s)
  {
    DigitsOnlyFixesExactlyDigitStrings(DigitsOnly(s));
  }

  /** On one character: a digit is kept, anything else is dropped. With
      `DigitsOnlyAppend` this says the result is exactly the digits of the
      input, in order. */
  lemma DigitsOnlyOfChar(c: char)
    ensures DigitsOnly([c]) == if IsDigit(c) then [c] else []
  {
    assert [c][1..] == [];
  }

  /** Filtering distributes over concatenation. */
  lemma {:induction false} DigitsOnlyAppend(a: string, b: string)
    ensures DigitsOnly(a + b) == DigitsOnly(a) + DigitsOnly(b)
  {
    if a != [] {
      var c := a + b;
      assert c[0] == a[0] && c[1..] == a[1..] + b;
      DigitsOnlyAppend(a[1..], b);
      assert DigitsOnly(c) == DigitsOnly([c[0]]) + DigitsOnly(c[1..]);
      assert DigitsOnly(a) == DigitsOnly([a[0]]) + DigitsOnly(a[1..]);
    } else {
      assert a + b == b;
    }
  }

  /** When what remains after removing whitespace is all digits, removing
      whitespace and removing non-digits give the same string. */
  lemma {:induction false} DigitsOnlyWhenStrippedIsDigits(s: string)
    requires AllDigits(StripWhitespace(s))
    ensures DigitsOnly(s) == StripWhitespace(s)
  {
    if s != [] {
      if IsWhitespace(s[0]) {
        assert !IsDigit(s[0]);
      } else {
        assert StripWhitespace(s)[0] == s[0];
        assert StripWhitespace(s[1..]) == StripWhitespace(s)[1..];
      }
      DigitsOnlyWhenStrippedIsDigits(s[1..]);
    }
  }

  /** Removing whitespace ignores what trimming removes. */
  lemma StripWhitespaceOfTrim(s: string)
    ensures StripWhitespace(Trim(s)) == StripWhitespace(s)
  {
    var t := TrimStart(s);
    StripWhitespaceOfTrimStart(s);
    StripWhitespaceOfTrimEnd(t);
  }

  lemma {:induction false} StripWhitespaceOfTrimStart(s: string)
    ensures StripWhitespace(TrimStart(s)) == StripWhitespace(s)
  {
    if s != [] && IsWhitespace(s[0]) {
      StripWhitespaceOfTrimStart(s[1..]);
    }
  }

  lemma {:induction false} StripWhitespaceOfTrimEnd(t: string)
    ensures StripWhitespace(TrimEnd(t)) == StripWhitespace(t)
  {
    if t != [] && IsWhitespace(t[|t| - 1]) {
      var init := t[..|t| - 1];
      StripWhitespaceOfTrimEnd(init);
      assert t == init + [t[|t| - 1]];
      StripAppend(init, [t[|t| - 1]]);
    }
  }

  /** On one character: whitespace is dropped, anything else is kept. With
      `StripAppend` this says the result is exactly the non-whitespace
      characters of the input, in order. */
  lemma StripWhitespaceOfChar(c: char)
    ensures StripWhitespace([c]) == if IsWhitespace(c) then [] else [c]
  {
    assert [c][1..] == [];
  }

  lemma {:induction false} StripBlank(s: string)
    requires IsBlank(s)
    ensures StripWhitespace(s) == []
  {
    if s != [] {
      StripBlank(s[1..]);
    }
  }

  lemma {:induction false} StripAppend(a: string, b: string)
    ensures StripWhitespace(a + b) == StripWhitespace(a) + StripWhitespace(b)
  {
    if a != [] {
      var c := a + b;
      assert c[0] == a[0] && c[1..] == a[1..] + b;
      StripAppend(a[1..], b);
      assert StripWhitespace(c) == StripWhitespace([c[0]]) + StripWhitespace(c[1..]);
      assert StripWhitespace(a) == StripWhitespace([a[0]]) + StripWhitespace(a[1..]);
    } else {
      assert a + b == b;
    }
  }

  /** Trimming a string with no whitespace at either end changes nothing; in
      particular trimming is idempotent. */
  lemma TrimOfTrimmed(s: string)
    requires s == [] || (!IsWhitespace(s[0]) && !IsWhitespace(s[|s| - 1]))
    ensures Trim(s) == s
  {
    assert TrimStart(s) == s;
    assert TrimEnd(s) == s;
  }

  lemma TrimIdempotent(s: string)
    ensures Trim(Trim(s)) == Trim(s)
  {
    TrimSpec(s);
    TrimOfTrimmed(Trim(s));
  }
}
