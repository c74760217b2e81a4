/**
  The few Python `str` operations the search engine and the two converters
  rely on, on `string` (= `seq<char>`): `strip`, `lstrip(ch)`, `rstrip(ch)`,
  `split(ch)[0]` / `split(ch)[1]`, `replace('\n', '<br>')` and the decimal
  rendering of an integer inside an f-string.
 */
module PyStr {

  /** `str.isspace()` for one character: exactly the characters that
      `str.strip()` with no argument removes. */
  predicate IsSpace(c: char) {
    || ('\U{9}' <= c <= '\U{D}')       // \t \n \v \f \r
    || ('\U{1C}' <= c <= '\U{1F}')     // file, group, record and unit separators
    || c == ' ' || c == '\U{85}' || c == '\U{A0}' || c == '\U{1680}'
    || ('\U{2000}' <= c <= '\U{200A}')
    || c == '\U{2028}' || c == '\U{2029}' || c == '\U{202F}' || c == '\U{205F}'
    || c == '\U{3000}'                 // ideographic space
  }

  /** `not s.strip()`: the string is empty or made of whitespace only. */
  predicate IsBlank(s: string) {
    forall i :: 0 <= i < |s| ==> IsSpace(s[i])
  }

  /** `s.strip()`: `s` without its leading and trailing whitespace. */
  function Strip(s: string): (r: string)
    ensures |r| <= |s|
  {
    if |s| > 0 && IsSpace(s[0]) then Strip(s[1..])
    else if |s| > 0 && IsSpace(s[|s| - 1]) then Strip(s[..|s| - 1])
    else s
  }

  /** Neither starts nor ends with whitespace. */
  predicate Trimmed(s: string) {
    |s| > 0 ==> !IsSpace(s[0]) && !IsSpace(s[|s| - 1])
  }

  /** What `strip` leaves: nothing exactly for a blank string, otherwise a
      string that neither starts nor ends with whitespace. */
  lemma {:induction false} StripMeaning(s: string)
    ensures Strip(s) == "" <==> IsBlank(s)
    ensures Trimmed(Strip(s))
  {
    if |s| > 0 && IsSpace(s[0]) {
      StripMeaning(s[1..]);
      assert s == [s[0]] + s[1..];
    } else if |s| > 0 && IsSpace(s[|s| - 1]) {
      StripMeaning(s[..|s| - 1]);
      assert s == s[..|s| - 1] + [s[|s| - 1]];
    }
  }

  /** A blank prefix and suffix of `s[1..]` stay blank in `s` once the
      leading whitespace `s[0]` joins the prefix. */
  lemma BlankAfterSpace(s: string, i: int, j: int)
    requires |s| > 0 && IsSpace(s[0]) && 0 <= i <= j <= |s| - 1
    requires IsBlank(s[1..][..i]) && IsBlank(s[1..][j..])
    ensures IsBlank(s[..i + 1]) && IsBlank(s[j + 1..]) && s[1..][i..j] == s[i + 1..j + 1]
  {
    var t := s[1..];
    assert s[j + 1..] == t[j..];
    assert t[i..j] == s[i + 1..j + 1];
    var head := s[..i + 1];
    forall k | 0 <= k < |head|
      ensures IsSpace(head[k])
    {
      if k > 0 {
        assert head[k] == t[..i][k - 1];
      }
    }
  }

  /** A blank prefix and suffix of `s` without its last character stay
      blank in `s` once that trailing whitespace joins the suffix. */
  lemma BlankBeforeSpace(s: string, i: int, j: int)
    requires |s| > 0 && IsSpace(s[|s| - 1]) && 0 <= i <= j <= |s| - 1
    requires IsBlank(s[..|s| - 1][..i]) && IsBlank(s[..|s| - 1][j..])
    ensures IsBlank(s[..i]) && IsBlank(s[j..]) && s[..|s| - 1][i..j] == s[i..j]
  {
    assert s[..i] == s[..|s| - 1][..i];
    assert forall k :: j <= k < |s| - 1 ==> s[k] == s[..|s| - 1][j..][k - j];
  }

  /** `strip` cuts `s` at both ends only: the result is the slice of `s`
      between a blank prefix and a blank suffix. */
  lemma {:induction false} StripInfix(s: string)
    ensures exists i, j :: 0 <= i <= j <= |s| && Strip(s) == s[i..j] && IsBlank(s[..i]) && IsBlank(s[j..])
  {
    if |s| > 0 && IsSpace(s[0]) {
      var t := s[1..];
      StripInfix(t);
      var i, j :| 0 <= i <= j <= |t| && Strip(t) == t[i..j] && IsBlank(t[..i]) && IsBlank(t[j..]);
      BlankAfterSpace(s, i, j);
      assert Strip(s) == s[i + 1..j + 1];
    } else if |s| > 0 && IsSpace(s[|s| - 1]) {
      var t := s[..|s| - 1];
      StripInfix(t);
      var i, j :| 0 <= i <= j <= |t| && Strip(t) == t[i..j] && IsBlank(t[..i]) && IsBlank(t[j..]);
      BlankBeforeSpace(s, i, j);
      assert Strip(s) == s[i..j];
    } else {
      assert s[0..|s|] == s && s[..0] == [] && s[|s|..] == [];
    }
  }

  /** A character `s` does not hold is not in `strip(s)` either. */
  lemma StripAvoids(s: string, c: char)
    requires c !in s
    ensures c !in Strip(s)
  {
    StripInfix(s);
  }

  /** `strip` removes whitespace only: every other character stays. */
  lemma {:induction false} StripKeeps(s: string, c: char)
    requires c in s && !IsSpace(c)
    ensures c in Strip(s)
  {
    if |s| > 0 && IsSpace(s[0]) {
      assert c in s[1..] by { assert s == [s[0]] + s[1..]; }
      StripKeeps(s[1..], c);
    } else if |s| > 0 && IsSpace(s[|s| - 1]) {
      assert c in s[..|s| - 1] by { assert s == s[..|s| - 1] + [s[|s| - 1]]; }
      StripKeeps(s[..|s| - 1], c);
    }
  }

  /** Appending never disturbs what a string starts with. */
  lemma AppendsExtend(x: string, a: string, b: string, c: string, d: string, e: string, f: string, g: string)
    ensures x <= x + a + b + c + d + e + f + g
  {
  }

  /** Being a prefix is transitive. */
  lemma PrefixTransitive(x: string, y: string, z: string)
    requires x <= y && y <= z
    ensures x <= z
  {
  }

  /** `s.lstrip(ch)`: `s` without its leading run of `ch`. */
  function LStripChar(s: string, ch: char): (r: string)
    ensures |r| <= |s| && r == s[|s| - |r|..]
    ensures forall i :: 0 <= i < |s| - |r| ==> s[i] == ch
    ensures |r| > 0 ==> r[0] != ch
  {
    if |s| > 0 && s[0] == ch then LStripChar(s[1..], ch) else s
  }

  /** `lstrip(ch)` removes `ch` only: every other character stays. */
  lemma {:induction false} LStripKeeps(s: string, ch: char, c: char)
    requires c in s && c != ch
    ensures c in LStripChar(s, ch)
  {
    if s[0] == ch {
      assert c in s[1..] by { assert s == [s[0]] + s[1..]; }
      LStripKeeps(s[1..], ch, c);
    }
  }

  /** `s.rstrip(ch)`: `s` without its trailing run of `ch`. */
  function RStripChar(s: string, ch: char): (r: string)
    ensures |r| <= |s| && r == s[..|r|]
    ensures forall i :: |r| <= i < |s| ==> s[i] == ch
    ensures |r| > 0 ==> r[|r| - 1] != ch
  {
    if |s| > 0 && s[|s| - 1] == ch then RStripChar(s[..|s| - 1], ch) else s
  }

  /** `s.split(ch)[0]`: the text before the first `ch`, or all of `s`. */
  function Before(s: string, ch: char): (r: string)
    ensures |r| <= |s|
    ensures ch in s ==> |r| < |s|
  {
    if |s| == 0 || s[0] == ch then "" else [s[0]] + Before(s[1..], ch)
  }

  /** What `Before` is: the longest prefix without `ch`, followed by `ch`
      when `s` holds one. */
  lemma {:induction false} BeforeMeaning(s: string, ch: char)
    ensures var r := Before(s, ch);
      && r == s[..|r|] && ch !in r
      && (ch in s ==> s[|r|] == ch)
      && (ch !in s ==> r == s)
  {
    if |s| > 0 && s[0] != ch {
      BeforeMeaning(s[1..], ch);
      assert s == [s[0]] + s[1..];
    }
  }

  /** `s.split(ch, 1)[1]`: the text after the first `ch`. */
  function After(s: string, ch: char): (r: string)
    requires ch in s
    ensures |r| < |s|
  {
    s[|Before(s, ch)| + 1..]
  }

  /** `s` is the text before its first `ch`, the `ch` and the text after it. */
  lemma AfterMeaning(s: string, ch: char)
    requires ch in s
    ensures Before(s, ch) + [ch] + After(s, ch) == s
  {
    BeforeMeaning(s, ch);
  }

  /** `s.split(ch)[1]`: the text between the first and the second `ch`. */
  function SecondField(s: string, ch: char): (r: string)
    requires ch in s
    ensures |r| < |s|
  {
    Before(After(s, ch), ch)
  }

  /** `Before` of a concatenation looks into the second part only when the
      first part holds no `ch`. */
  lemma {:induction false} BeforeConcat(x: string, y: string, ch: char)
    ensures Before(x + y, ch) == if ch in x then Before(x, ch) else x + Before(y, ch)
  {
    if |x| == 0 {
      assert x + y == y;
    } else if x[0] != ch {
      var tail := x[1..];
      assert (x + y)[1..] == tail + y;
      BeforeConcat(tail, y, ch);
      assert x == [x[0]] + tail;
      if ch !in x {
        assert [x[0]] + (tail + Before(y, ch)) == x + Before(y, ch);
      }
    }
  }

  /** `After` of a concatenation, the companion of `BeforeConcat`. */
  lemma AfterConcat(x: string, y: string, ch: char)
    requires ch in x + y
    ensures After(x + y, ch) == if ch in x then After(x, ch) + y else After(y, ch)
  {
    BeforeConcat(x, y, ch);
    if ch in x {
      var n := |Before(x, ch)| + 1;
      assert (x + y)[n..] == x[n..] + y;
    } else {
      assert ch in y;
      var n := |Before(y, ch)| + 1;
      assert (x + y)[|x| + n..] == y[n..];
    }
  }

  /** Splitting `x + [ch] + y` at its first `ch` when `x` holds none gives `x`. */
  lemma BeforeStops(x: string, y: string, ch: char)
    requires ch !in x
    ensures Before(x + [ch] + y, ch) == x
  {
    assert x + [ch] + y == x + ([ch] + y);
    BeforeConcat(x, [ch] + y, ch);
  }

  /** ... and the text after that `ch` is `y`. */
  lemma AfterPast(x: string, y: string, ch: char)
    requires ch !in x
    ensures After(x + [ch] + y, ch) == y
  {
    BeforeStops(x, y, ch);
  }

  /** `s.replace('\n', '<br>')` */
  function ReplaceNewlines(s: string): (r: string)
    ensures '\n' !in r
    ensures '\n' !in s ==> r == s
    ensures |r| >= |s|
  {
    if |s| == 0 then ""
    else (if s[0] == '\n' then "<br>" else [s[0]]) + ReplaceNewlines(s[1..])
  }

  function DigitChar(d: nat): char
    requires d < 10
  {
    "0123456789"[d]
  }

  /** `str(n)` / `f"{n}"` for a non-negative integer: its decimal digits. */
  function NatToString(n: nat): (r: string)
    ensures (n < 10) <==> |r| == 1
    ensures |r| >= 1
  {
    if n < 10 then [DigitChar(n)] else NatToString(n / 10) + [DigitChar(n % 10)]
  }

  /** Different numbers print differently. */
  lemma {:induction false} NatToStringInjective(m: nat, n: nat)
    requires NatToString(m) == NatToString(n)
    ensures m == n
  {
    if m >= 10 && n >= 10 {
      var rm, rn := NatToString(m), NatToString(n);
      assert rm[..|rm| - 1] == NatToString(m / 10);
      assert rn[..|rn| - 1] == NatToString(n / 10);
      NatToStringInjective(m / 10, n / 10);
      assert DigitChar(m % 10) == rm[|rm| - 1] == DigitChar(n % 10);
    }
  }
}
