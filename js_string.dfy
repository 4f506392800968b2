/** The string operations the renderer applies to type and layout tags
    (`String.prototype.trim`, `toUpperCase`, `startsWith`) and the decimal
    rendering JavaScript uses when it turns an integer into a string. */
module JsString {

  /** The characters `trim` removes: ECMAScript WhiteSpace and LineTerminator. */
  predicate IsWhitespace(c: char) {
    || c == '\U{9}' || c == '\U{A}' || c == '\U{B}' || c == '\U{C}' || c == '\U{D}'
    || c == ' ' || c == '\U{A0}' || c == '\U{1680}'
    || ('\U{2000}' <= c <= '\U{200A}')
    || c == '\U{2028}' || c == '\U{2029}' || c == '\U{202F}' || c == '\U{205F}'
    || c == '\U{3000}' || c == '\U{FEFF}'
  }

  predicate AllWhitespace(s: string) {
    forall i :: 0 <= i < |s| ==> IsWhitespace(s[i])
  }

  /** Drops the leading whitespace run: what is left is the suffix of `s` after it. */
  function TrimStart(s: string): (r: string)
    ensures |r| <= |s| && r == s[|s| - |r|..]
    ensures AllWhitespace(s[..|s| - |r|])
    ensures r == [] || !IsWhitespace(r[0])
    decreases |s|
  {
    if |s| > 0 && IsWhitespace(s[0]) then
      var r := TrimStart(s[1..]);
      assert s[1..][..|s[1..]| - |r|] == s[1..|s| - |r|];
      r
    else s
  }

  /** Drops the trailing whitespace run: what is left is the prefix of `s` before it. */
  function TrimEnd(s: string): (r: string)
    ensures |r| <= |s| && r == s[..|r|]
    ensures AllWhitespace(s[|r|..])
    ensures r == [] || !IsWhitespace(r[|r| - 1])
    decreases |s|
  {
    if |s| > 0 && IsWhitespace(s[|s| - 1]) then
      var r := TrimEnd(s[..|s| - 1]);
      assert s[..|s| - 1][|r|..] == s[|r|..|s| - 1];
      assert AllWhitespace(s[|r|..]) by {
        forall i | |r| <= i < |s| ensures IsWhitespace(s[i]) {
          if i < |s| - 1 { assert s[i] == s[..|s| - 1][|r|..][i - |r|]; }
        }
      }
      r
    else s
  }

  /** `s.trim()` */
  function Trim(s: string): string {
    TrimEnd(TrimStart(s))
  }

  /** `toUpperCase` on one character; only the ASCII letters are mapped. */
  function UpperChar(c: char): char {
    if 'a' <= c <= 'z' then (c as int - 32) as char else c
  }

  /** `s.toUpperCase()`, character by character. */
  function ToUpper(s: string): (r: string)
    ensures |r| == |s|
  {
    seq(|s|, i requires 0 <= i < |s| => UpperChar(s[i]))
  }

  /** `String(x || '').trim().toUpperCase()`, the normalisation applied to type
      and layout tags before they are matched. */
  function Normalize(s: string): string {
    ToUpper(Trim(s))
  }

  /** `s.startsWith(prefix)` */
  predicate StartsWith(s: string, prefix: string) {
    |prefix| <= |s| && s[..|prefix|] == prefix
  }

  /** Two spellings that differ only in the case of ASCII letters. */
  predicate SameIgnoringCase(a: string, b: string) {
    |a| == |b| && forall i :: 0 <= i < |a| ==> UpperChar(a[i]) == UpperChar(b[i])
  }

  lemma {:induction false} TrimStartOfPadded(w: string, s: string)
    requires AllWhitespace(w)
    ensures TrimStart(w + s) == TrimStart(s)
    decreases |w|
  {
    if w != [] {
      assert (w + s)[1..] == w[1..] + s;
      TrimStartOfPadded(w[1..], s);
    } else {
      assert w + s == s;
    }
  }

  lemma {:induction false} TrimEndOfPadded(s: string, w: string)
    requires AllWhitespace(w)
    ensures TrimEnd(s + w) == TrimEnd(s)
    decreases |w|
  {
    if w != [] {
      assert (s + w)[..|s + w| - 1] == s + w[..|w| - 1];
      TrimEndOfPadded(s, w[..|w| - 1]);
    } else {
      assert s + w == s;
    }
  }

  lemma {:induction false} TrimStartBeforePadding(s: string, w: string)
    requires AllWhitespace(w)
    ensures TrimStart(s + w) == if AllWhitespace(s) then [] else TrimStart(s) + w
    decreases |s|
  {
    if s == [] {
      assert s + w == w;
      TrimStartOfPadded(w, []);
      assert w + [] == w;
    } else if IsWhitespace(s[0]) {
      assert (s + w)[1..] == s[1..] + w;
      TrimStartBeforePadding(s[1..], w);
      assert AllWhitespace(s) <==> AllWhitespace(s[1..]) by {
        if AllWhitespace(s[1..]) {
          forall i | 0 <= i < |s| ensures IsWhitespace(s[i]) {
            if i > 0 { assert s[i] == s[1..][i - 1]; }
          }
        }
      }
    } else {
      assert (s + w)[0] == s[0];
    }
  }

  /** Whitespace around a tag never changes what `trim` leaves. */
  lemma TrimIgnoresPadding(w1: string, s: string, w2: string)
    requires AllWhitespace(w1) && AllWhitespace(w2)
    ensures Trim(w1 + s + w2) == Trim(s)
  {
    assert w1 + s + w2 == w1 + (s + w2);
    TrimStartOfPadded(w1, s + w2);
    TrimStartBeforePadding(s, w2);
    if !AllWhitespace(s) {
      TrimEndOfPadded(TrimStart(s), w2);
    } else {
      assert TrimStart(s) == [];
    }
  }

  lemma UpperKeepsWhitespace(c: char)
    ensures IsWhitespace(UpperChar(c)) <==> IsWhitespace(c)
  {
  }

  lemma {:induction false} UpperCommutesWithTrimStart(s: string)
    ensures ToUpper(TrimStart(s)) == TrimStart(ToUpper(s))
    decreases |s|
  {
    if |s| > 0 {
      UpperKeepsWhitespace(s[0]);
      assert ToUpper(s)[1..] == ToUpper(s[1..]);
      UpperCommutesWithTrimStart(s[1..]);
    }
  }

  lemma {:induction false} UpperCommutesWithTrimEnd(s: string)
    ensures ToUpper(TrimEnd(s)) == TrimEnd(ToUpper(s))
    decreases |s|
  {
    var u := ToUpper(s);
    if |s| > 0 {
      var n := |s| - 1;
      UpperKeepsWhitespace(s[n]);
      assert u[n] == UpperChar(s[n]);
      if IsWhitespace(s[n]) {
        assert TrimEnd(s) == TrimEnd(s[..n]);
        assert u[..n] == ToUpper(s[..n]);
        assert TrimEnd(u) == TrimEnd(u[..n]);
        UpperCommutesWithTrimEnd(s[..n]);
      } else {
        assert TrimEnd(s) == s;
        assert TrimEnd(u) == u;
      }
    }
  }

  /** Upper-casing before or after trimming gives the same tag. */
  lemma UpperCommutesWithTrim(s: string)
    ensures Normalize(s) == Trim(ToUpper(s))
  {
    UpperCommutesWithTrimStart(s);
    UpperCommutesWithTrimEnd(TrimStart(s));
  }

  /** Two spellings of a tag that differ only in ASCII case and surrounding
      whitespace normalise to the same tag. */
  lemma NormalizeIgnoresCaseAndPadding(w1: string, a: string, w2: string, b: string)
    requires AllWhitespace(w1) && AllWhitespace(w2)
    requires SameIgnoringCase(a, b)
    ensures Normalize(w1 + a + w2) == Normalize(b)
  {
    TrimIgnoresPadding(w1, a, w2);
    UpperCommutesWithTrim(a);
    UpperCommutesWithTrim(b);
    assert ToUpper(a) == ToUpper(b);
  }

  lemma {:induction false} TrimIsIdempotent(s: string)
    ensures Trim(Trim(s)) == Trim(s)
  {
    var t := Trim(s);
    var u := TrimStart(s);
    assert t == [] || !IsWhitespace(t[0]) by {
      if t != [] { assert t[0] == u[0]; }
    }
    assert TrimStart(t) == t;
  }

  lemma UpperIsIdempotent(s: string)
    ensures ToUpper(ToUpper(s)) == ToUpper(s)
  {
    var u := ToUpper(s);
    assert forall i :: 0 <= i < |u| ==> ToUpper(u)[i] == u[i];
  }

  /** Normalising a tag twice changes nothing. */
  lemma NormalizeIsIdempotent(s: string)
    ensures Normalize(Normalize(s)) == Normalize(s)
  {
    var t := Trim(s);
    assert Trim(ToUpper(t)) == ToUpper(t) by {
      UpperCommutesWithTrim(t);
      TrimIsIdempotent(s);
    }
    UpperIsIdempotent(t);
  }

  /** A tag with no whitespace at either end is only upper-cased. */
  lemma NormalizeUnpadded(s: string)
    requires s == [] || (!IsWhitespace(s[0]) && !IsWhitespace(s[|s| - 1]))
    ensures Trim(s) == s && Normalize(s) == ToUpper(s)
  {
  }

  /** The decimal digit `d`. */
  function DigitChar(d: nat): (c: char)
    requires d < 10
    ensures '0' <= c <= '9'
  {
    "0123456789"[d]
  }

  function DigitValue(c: char): nat {
    if '0' <= c <= '9' then (c as int - '0' as int) as nat else 0
  }

  /** The decimal spelling of `n`, as `String(n)` gives it for an integer below 10^21. */
  function NatToString(n: nat): (r: string)
    ensures |r| > 0 && r[0] != '-'
    decreases n
  {
    if n < 10 then [DigitChar(n)] else NatToString(n / 10) + [DigitChar(n % 10)]
  }

  /** The number a string of decimal digits stands for. */
  function DecimalValue(s: string): nat
    decreases |s|
  {
    if s == [] then 0 else DecimalValue(s[..|s| - 1]) * 10 + DigitValue(s[|s| - 1])
  }

  /** Reading back a decimal spelling gives the number spelt. */
  lemma {:induction false} DecimalRoundTrip(n: nat)
    ensures DecimalValue(NatToString(n)) == n
    decreases n
  {
    if n >= 10 {
      var s := NatToString(n);
      assert s[..|s| - 1] == NatToString(n / 10);
      DecimalRoundTrip(n / 10);
    }
  }

  /** Distinct numbers have distinct decimal spellings. */
  lemma NatToStringInjective(m: nat, n: nat)
    requires NatToString(m) == NatToString(n)
    ensures m == n
  {
    DecimalRoundTrip(m);
    DecimalRoundTrip(n);
  }

  /** `String(n)` for an integer of magnitude below 10^21. */
  function IntToString(n: int): string {
    if n < 0 then "-" + NatToString(-n) else NatToString(n)
  }
}
