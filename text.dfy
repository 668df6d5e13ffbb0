/** Python string operations the session relies on: whitespace classes, strip,
    split on whitespace and on a separator, lower-casing, substring tests,
    str(int) and int(str). */
module Text {

  datatype Option<T> = None | Some(value: T)

  /** str.isspace for one character (the full set Python treats as white space). */
  predicate IsSpace(c: char)
  {
    c == ' ' || ('\t' <= c <= '\r') || ('\U{1c}' <= c <= '\U{1f}') || c == '\U{85}' || c == '\U{a0}'
    || c == '\U{1680}' || ('\U{2000}' <= c <= '\U{200a}') || c == '\U{2028}' || c == '\U{2029}'
    || c == '\U{202f}' || c == '\U{205f}' || c == '\U{3000}'
  }

  predicate NoSpace(s: string)
  {
    forall i :: 0 <= i < |s| ==> !IsSpace(s[i])
  }

  predicate IsDigit(c: char) { '0' <= c <= '9' }

  predicate IsUpperAscii(c: char) { 'A' <= c <= 'Z' }

  predicate IsLowerAscii(c: char) { 'a' <= c <= 'z' }

  /** Upper-case letters that str.lower maps (ASCII and Latin-1). */
  predicate IsUpperLetter(c: char)
  {
    IsUpperAscii(c) || ('À' <= c <= 'Þ' && c != '×')
  }

  /** str.islower for one character (ASCII and Latin-1). */
  predicate IsLowerLetter(c: char)
  {
    IsLowerAscii(c) || c == 'ª' || c == 'µ' || c == 'º' || ('ß' <= c <= 'ÿ' && c != '÷')
  }

  /** str.isalpha restricted to ASCII, Latin-1 and Latin Extended-A/B letters. */
  predicate IsAlpha(c: char)
  {
    IsUpperAscii(c) || IsLowerAscii(c) || c == 'ª' || c == 'µ' || c == 'º'
    || ('À' <= c <= 'ɏ' && c != '×' && c != '÷')
  }

  function LowerChar(c: char): (r: char)
    ensures !IsUpperLetter(r)
    ensures !IsUpperLetter(c) ==> r == c
  {
    if IsUpperLetter(c) then (c as int + 32) as char else c
  }

  /** str.lower */
  function Lower(s: string): (r: string)
    ensures |r| == |s|
    ensures forall i :: 0 <= i < |s| ==> r[i] == LowerChar(s[i])
  {
    if s == [] then [] else [LowerChar(s[0])] + Lower(s[1..])
  }

  lemma {:induction false} LowerNoSpace(s: string)
    requires NoSpace(s)
    ensures NoSpace(Lower(s))
  {
    forall i | 0 <= i < |s| ensures !IsSpace(Lower(s)[i]) {
      assert !IsSpace(s[i]);
    }
  }

  /** The result of Lower never holds an upper-case ASCII letter. */
  lemma LowerHasNoUpper(s: string, i: nat)
    requires i < |Lower(s)|
    ensures !IsUpperAscii(Lower(s)[i])
  {
  }

  function StripLeft(s: string): (r: string)
    ensures |r| <= |s|
  {
    if s != [] && IsSpace(s[0]) then StripLeft(s[1..]) else s
  }

  function StripRight(s: string): (r: string)
    ensures |r| <= |s|
  {
    if s != [] && IsSpace(s[|s| - 1]) then StripRight(s[..|s| - 1]) else s
  }

  /** str.strip() */
  function Strip(s: string): string
  {
    StripRight(StripLeft(s))
  }

  lemma {:induction false} StripLeftSpec(s: string)
    ensures StripLeft(s) == s[|s| - |StripLeft(s)|..]
    ensures StripLeft(s) != [] ==> !IsSpace(StripLeft(s)[0])
    ensures forall i :: 0 <= i < |s| - |StripLeft(s)| ==> IsSpace(s[i])
  {
    if s != [] && IsSpace(s[0]) {
      StripLeftSpec(s[1..]);
    }
  }

  lemma {:induction false} StripRightSpec(s: string)
    ensures StripRight(s) == s[..|StripRight(s)|]
    ensures StripRight(s) != [] ==> !IsSpace(StripRight(s)[|StripRight(s)| - 1])
    ensures forall i :: |StripRight(s)| <= i < |s| ==> IsSpace(s[i])
  {
    if s != [] && IsSpace(s[|s| - 1]) {
      StripRightSpec(s[..|s| - 1]);
    }
  }

  /** What str.strip() returns: the slice s[k..k+|r|] of s that is left once only
      white space is removed at both ends, and which neither starts nor ends with
      white space. */
  lemma StripSpec(s: string) returns (k: nat)
    ensures k + |Strip(s)| <= |s| && Strip(s) == s[k..k + |Strip(s)|]
    ensures Strip(s) != [] ==> !IsSpace(Strip(s)[0]) && !IsSpace(Strip(s)[|Strip(s)| - 1])
    ensures forall i :: 0 <= i < k ==> IsSpace(s[i])
    ensures forall i :: k + |Strip(s)| <= i < |s| ==> IsSpace(s[i])
  {
    var l := StripLeft(s);
    StripLeftSpec(s);
    StripRightSpec(l);
    k := |s| - |l|;
    var r := StripRight(l);
    assert r == s[k..k + |r|];
    forall i | k + |r| <= i < |s| ensures IsSpace(s[i]) {
      assert s[i] == l[i - k];
    }
  }

  lemma StripNoSpace(s: string)
    requires s != [] ==> !IsSpace(s[0]) && !IsSpace(s[|s| - 1])
    ensures Strip(s) == s
  {
  }

  /** The non-space prefix that starts a word. */
  function TakeWord(s: string): (w: string)
    ensures |w| <= |s| && w == s[..|w|] && NoSpace(w)
    ensures |w| < |s| ==> IsSpace(s[|w|])
  {
    if s == [] || IsSpace(s[0]) then [] else [s[0]] + TakeWord(s[1..])
  }

  /** str.split() with no separator: the maximal runs of non-space characters. */
  function SplitWs(s: string): (ws: seq<string>)
    decreases |s|
    ensures forall i :: 0 <= i < |ws| ==> ws[i] != [] && NoSpace(ws[i])
  {
    if s == [] then []
    else if IsSpace(s[0]) then SplitWs(s[1..])
    else
      var w := TakeWord(s);
      [w] + SplitWs(s[|w|..])
  }

  /** A string of white space only (the empty string included). */
  predicate Blank(s: string)
  {
    forall i :: 0 <= i < |s| ==> IsSpace(s[i])
  }

  /** A line splits into no words exactly when it is white space only. */
  lemma {:induction false} SplitWsBlank(s: string)
    ensures SplitWs(s) == [] <==> Blank(s)
    decreases |s|
  {
    if s != [] && IsSpace(s[0]) {
      SplitWsBlank(s[1..]);
      if Blank(s[1..]) {
        forall i | 0 <= i < |s| ensures IsSpace(s[i]) {
          if i > 0 {
            assert s[i] == s[1..][i - 1];
          }
        }
      } else {
        var i :| 0 <= i < |s[1..]| && !IsSpace(s[1..][i]);
        assert s[i + 1] == s[1..][i];
      }
    }
  }

  lemma {:induction false} TakeWordOfWord(w: string)
    requires NoSpace(w)
    ensures TakeWord(w) == w
  {
    if w != [] {
      assert NoSpace(w[1..]) by {
        forall i | 0 <= i < |w[1..]| ensures !IsSpace(w[1..][i]) {
          assert w[1..][i] == w[i + 1];
        }
      }
      TakeWordOfWord(w[1..]);
      assert [w[0]] + w[1..] == w;
    }
  }

  /** A single word without white space splits into itself. */
  lemma SplitWsWord(w: string)
    requires w != [] && NoSpace(w)
    ensures SplitWs(w) == [w]
  {
    TakeWordOfWord(w);
    assert w[|w|..] == [];
  }

  /** A word stops at the first white-space character. */
  lemma {:induction false} TakeWordCons(a: string, c: char, b: string)
    requires IsSpace(c)
    ensures TakeWord(a + [c] + b) == TakeWord(a)
  {
    var s := a + [c] + b;
    if a == [] {
      assert s[0] == c;
    } else {
      assert s[0] == a[0];
      if !IsSpace(a[0]) {
        assert s[1..] == a[1..] + [c] + b;
        TakeWordCons(a[1..], c, b);
      }
    }
  }

  /** Splitting at a white-space character: the words of the two sides, in order. */
  lemma {:induction false} SplitWsCons(a: string, c: char, b: string)
    requires IsSpace(c)
    ensures SplitWs(a + [c] + b) == SplitWs(a) + SplitWs(b)
    decreases |a|
  {
    var s := a + [c] + b;
    if a == [] {
      assert s == [c] + b;
      assert s[1..] == b;
    } else if IsSpace(a[0]) {
      assert s[0] == a[0];
      assert s[1..] == a[1..] + [c] + b;
      SplitWsCons(a[1..], c, b);
    } else {
      assert s[0] == a[0];
      var w := TakeWord(a);
      TakeWordCons(a, c, b);
      assert s[|w|..] == a[|w|..] + [c] + b;
      SplitWsCons(a[|w|..], c, b);
    }
  }

  /** str.split(sep) with a one-character separator. */
  function SplitOn(s: string, sep: char): (parts: seq<string>)
    ensures |parts| >= 1
  {
    if s == [] then [""]
    else
      var rest := SplitOn(s[1..], sep);
      if s[0] == sep then [""] + rest else [[s[0]] + rest[0]] + rest[1..]
  }

  lemma {:induction false} SplitOnNoSep(a: string, sep: char)
    requires sep !in a
    ensures SplitOn(a, sep) == [a]
  {
    if a != [] {
      SplitOnNoSep(a[1..], sep);
      assert [a[0]] + a[1..] == a;
    }
  }

  lemma {:induction false} SplitOnCons(a: string, sep: char, b: string)
    requires sep !in a
    ensures SplitOn(a + [sep] + b, sep) == [a] + SplitOn(b, sep)
  {
    if a == [] {
      assert a + [sep] + b == [sep] + b;
      assert ([sep] + b)[1..] == b;
    } else {
      assert (a + [sep] + b)[1..] == a[1..] + [sep] + b;
      SplitOnCons(a[1..], sep, b);
      assert [a[0]] + a[1..] == a;
    }
  }

  /** sep.join(ws) */
  function Join(ws: seq<string>, sep: string): (r: string)
    ensures ws == [] ==> r == ""
    ensures |ws| == 1 ==> r == ws[0]
  {
    if ws == [] then ""
    else if |ws| == 1 then ws[0]
    else ws[0] + sep + Join(ws[1..], sep)
  }

  predicate StartsWith(s: string, prefix: string)
  {
    |prefix| <= |s| && s[..|prefix|] == prefix
  }

  /** str.find for one character: the first index of c in s, or -1. */
  function Find(s: string, c: char): (i: int)
    ensures -1 <= i < |s|
    ensures i == -1 <==> c !in s
    ensures i >= 0 ==> s[i] == c && forall j :: 0 <= j < i ==> s[j] != c
  {
    if s == [] then -1
    else if s[0] == c then 0
    else var k := Find(s[1..], c); if k == -1 then -1 else k + 1
  }

  /** `needle in hay` for strings */
  predicate Contains(hay: string, needle: string)
  {
    exists i :: 0 <= i <= |hay| && StartsWith(hay[i..], needle)
  }

  // ---- str(int) and int(str) on ASCII decimal digits ----

  function DigitChar(d: nat): (c: char)
    requires d < 10
    ensures IsDigit(c) && c as int - '0' as int == d
  {
    ('0' as int + d) as char
  }

  /** Decimal digits of n, without sign or leading zeros. */
  function NatToStr(n: nat): (s: string)
    ensures s != [] && forall i :: 0 <= i < |s| ==> IsDigit(s[i])
  {
    if n < 10 then [DigitChar(n)] else NatToStr(n / 10) + [DigitChar(n % 10)]
  }

  /** str(n) */
  function IntToStr(n: int): (s: string)
    ensures s != []
  {
    if n < 0 then "-" + NatToStr(-n) else NatToStr(n)
  }

  /** f"{n:02d}": zero-padded to width two, wider numbers and negative ones as str(n). */
  function Pad2(n: int): (s: string)
  {
    if 0 <= n < 10 then "0" + NatToStr(n) else IntToStr(n)
  }

  /** f"{n:>2}": right-aligned to width two. */
  function RightAlign2(n: int): (s: string)
    ensures |s| >= 2
  {
    var t := IntToStr(n);
    if |t| < 2 then " " + t else t
  }

  predicate AllDigits(s: string)
  {
    forall i :: 0 <= i < |s| ==> IsDigit(s[i])
  }

  /** Value of a string of decimal digits. */
  function DigitsValue(s: string): (v: nat)
    requires AllDigits(s)
  {
    if s == [] then 0 else DigitsValue(s[..|s| - 1]) * 10 + (s[|s| - 1] as int - '0' as int)
  }

  /** No two adjacent underscores. */
  predicate SingleUnderscores(s: string)
  {
    |s| < 2 || (!(s[0] == '_' && s[1] == '_') && SingleUnderscores(s[1..]))
  }

  /** Digit groups separated by single underscores, as Python's int() accepts them. */
  predicate WellFormedDigits(s: string)
  {
    s != [] && IsDigit(s[0]) && IsDigit(s[|s| - 1])
    && (forall i :: 0 <= i < |s| ==> IsDigit(s[i]) || s[i] == '_')
    && SingleUnderscores(s)
  }

  function DropUnderscores(s: string): (r: string)
    requires forall i :: 0 <= i < |s| ==> IsDigit(s[i]) || s[i] == '_'
    ensures AllDigits(r) && |r| <= |s|
  {
    if s == [] then [] else (if s[0] == '_' then [] else [s[0]]) + DropUnderscores(s[1..])
  }

  /** int(s) on a str: surrounding white space, an optional sign, then decimal digits
      (single underscores allowed between digits); None where Python raises ValueError. */
  function ParseInt(s: string): (r: Option<int>)
  {
    ParseSigned(Strip(s))
  }

  /** int() once the surrounding white space is gone. */
  function ParseSigned(t: string): (r: Option<int>)
  {
    var neg := t != [] && t[0] == '-';
    var body := if t != [] && (t[0] == '-' || t[0] == '+') then t[1..] else t;
    if WellFormedDigits(body) then
      var v: int := DigitsValue(DropUnderscores(body));
      Some(if neg then -v else v)
    else None
  }

  lemma {:induction false} DropUnderscoresOfDigits(s: string)
    requires AllDigits(s)
    ensures DropUnderscores(s) == s
  {
    if s != [] {
      DropUnderscoresOfDigits(s[1..]);
    }
  }

  lemma {:induction false} NatToStrValue(n: nat)
    ensures DigitsValue(NatToStr(n)) == n
  {
    if n >= 10 {
      var s := NatToStr(n);
      assert s[..|s| - 1] == NatToStr(n / 10);
      NatToStrValue(n / 10);
    } else {
      assert NatToStr(n)[..0] == [];
    }
  }

  lemma {:induction false} DigitsSingleUnderscores(s: string)
    requires AllDigits(s)
    ensures SingleUnderscores(s)
  {
    if |s| >= 2 {
      DigitsSingleUnderscores(s[1..]);
    }
  }

  lemma NatToStrParses(n: nat)
    ensures WellFormedDigits(NatToStr(n))
    ensures DigitsValue(DropUnderscores(NatToStr(n))) == n
  {
    DigitsSingleUnderscores(NatToStr(n));
    DropUnderscoresOfDigits(NatToStr(n));
    NatToStrValue(n);
  }

  /** Leading white space in front of a string that starts otherwise is cut away. */
  lemma {:induction false} StripLeftBlank(w: string, t: string)
    requires Blank(w) && (t == [] || !IsSpace(t[0]))
    ensures StripLeft(w + t) == t
  {
    if w == [] {
      assert w + t == t;
    } else {
      assert (w + t)[0] == w[0];
      assert (w + t)[1..] == w[1..] + t;
      StripLeftBlank(w[1..], t);
    }
  }

  /** Trailing white space behind a string that ends otherwise is cut away. */
  lemma {:induction false} StripRightBlank(t: string, w: string)
    requires Blank(w) && (t == [] || !IsSpace(t[|t| - 1]))
    ensures StripRight(t + w) == t
  {
    if w == [] {
      assert t + w == t;
    } else {
      var n := |w|;
      assert (t + w)[|t + w| - 1] == w[n - 1];
      assert (t + w)[..|t + w| - 1] == t + w[..n - 1];
      StripRightBlank(t, w[..n - 1]);
    }
  }

  /** strip() removes exactly the white space around a text that starts and ends otherwise. */
  lemma StripBlank(w1: string, t: string, w2: string)
    requires Blank(w1) && Blank(w2) && t != [] && !IsSpace(t[0]) && !IsSpace(t[|t| - 1])
    ensures Strip(w1 + t + w2) == t
  {
    assert w1 + t + w2 == w1 + (t + w2);
    assert (t + w2)[0] == t[0];
    StripLeftBlank(w1, t + w2);
    StripRightBlank(t, w2);
  }

  /** int() reads white space, an optional sign and decimal digits, then white
      space, as the signed value of the digits. */
  lemma ParseDecimal(s: string, w1: string, sign: string, d: string, w2: string)
    requires Blank(w1) && Blank(w2) && d != [] && AllDigits(d)
    requires sign == "" || sign == "+" || sign == "-"
    requires s == w1 + sign + d + w2
    ensures ParseInt(s) == Some(if sign == "-" then -(DigitsValue(d) as int) else DigitsValue(d))
  {
    var t := sign + d;
    assert t[|t| - 1] == d[|d| - 1];
    assert t[0] == (if sign == "" then d[0] else sign[0]);
    assert s == w1 + t + w2;
    StripBlank(w1, t, w2);
    SignedDecimal(t, sign, d);
  }

  lemma SignedDecimal(t: string, sign: string, d: string)
    requires d != [] && AllDigits(d)
    requires sign == "" || sign == "+" || sign == "-"
    requires t == sign + d
    ensures ParseSigned(t) == Some(if sign == "-" then -(DigitsValue(d) as int) else DigitsValue(d))
  {
    DigitsSingleUnderscores(d);
    DropUnderscoresOfDigits(d);
    assert WellFormedDigits(d);
    if sign == "" {
      assert t == d && IsDigit(t[0]);
    } else {
      assert t[0] == sign[0] && t[1..] == d;
    }
  }

  /** int(str(n)) == n */
  lemma IntToStrRoundTrip(n: int)
    ensures ParseInt(IntToStr(n)) == Some(n)
  {
    if n < 0 {
      NatToStrValue(-n);
      ParseNegativeDigits(NatToStr(-n));
    } else {
      NatToStrValue(n);
      ParseBareDigits(NatToStr(n));
    }
  }

  lemma ParseBareDigits(d: string)
    requires d != [] && AllDigits(d)
    ensures ParseInt(d) == Some(DigitsValue(d) as int)
  {
    assert d == "" + "" + d + "";
    ParseDecimal(d, "", "", d, "");
  }

  lemma ParseNegativeDigits(d: string)
    requires d != [] && AllDigits(d)
    ensures ParseInt("-" + d) == Some(-(DigitsValue(d) as int))
  {
    assert "-" + d == "" + "-" + d + "";
    ParseDecimal("-" + d, "", "-", d, "");
  }

  /** int(f"{n:02d}") == n */
  lemma Pad2RoundTrip(n: int)
    ensures ParseInt(Pad2(n)) == Some(n)
  {
    if 0 <= n < 10 {
      var s := ['0', DigitChar(n)];
      assert Pad2(n) == s;
      assert DigitsValue(s) == n by {
        assert s[..1] == ['0'];
        assert DigitsValue(s) == DigitsValue(['0']) * 10 + n;
      }
      assert s == "" + "" + s + "";
      ParseDecimal(s, "", "", s, "");
    } else {
      IntToStrRoundTrip(n);
    }
  }

  lemma IntToStrNoColon(n: int)
    ensures ':' !in IntToStr(n)
  {
    var s := NatToStr(if n < 0 then -n else n);
    assert forall i :: 0 <= i < |s| ==> s[i] != ':';
  }

  lemma Pad2NoColon(n: int)
    ensures ':' !in Pad2(n)
  {
    var s := NatToStr(if n < 0 then -n else n);
    assert forall i :: 0 <= i < |s| ==> s[i] != ':';
  }
}
