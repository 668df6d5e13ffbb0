/** The "hh:mm[:ss]" duration syntax of the countdown command: parsing into
    whole seconds and formatting back (freeos.py, _parse_hms and _fmt_hhmmss). */
module Clock {
  import opened Text

  /** _parse_hms: two or three colon-separated fields, each read by int();
      the seconds default to 0; no field is range-checked, and any failing int()
      turns the whole answer into None. */
  function ParseHms(s: string): (r: Option<int>)
    ensures var p := SplitOn(s, ':');
            r.Some? <==>
              (|p| == 2 && ParseInt(p[0]).Some? && ParseInt(p[1]).Some?)
              || (|p| == 3 && ParseInt(p[0]).Some? && ParseInt(p[1]).Some? && ParseInt(p[2]).Some?)
  {
    var parts := SplitOn(s, ':');
    if |parts| == 2 then
      var h, m := ParseInt(parts[0]), ParseInt(parts[1]);
      if h.Some? && m.Some? then Some(h.value * 3600 + m.value * 60 + 0) else None
    else if |parts| == 3 then
      var h, m, sec := ParseInt(parts[0]), ParseInt(parts[1]), ParseInt(parts[2]);
      if h.Some? && m.Some? && sec.Some? then Some(h.value * 3600 + m.value * 60 + sec.value) else None
    else None
  }

  /** _fmt_hhmmss: floor division into hours, minutes and seconds, each printed
      with f"{n:02d}". */
  function FmtHhmmss(t: int): string
  {
    var h := t / 3600;
    var m := (t % 3600) / 60;
    var s := t % 60;
    Pad2(h) + ":" + Pad2(m) + ":" + Pad2(s)
  }

  lemma HmsDecomposition(t: int)
    ensures t == (t / 3600) * 3600 + ((t % 3600) / 60) * 60 + t % 60
  {
    var q := t / 3600;
    var r := t % 3600;
    assert t == q * 3600 + r;
    var m := r / 60;
    assert r == m * 60 + r % 60;
    assert t == (q * 60 + m) * 60 + r % 60;
    assert t % 60 == r % 60;
  }

  lemma {:induction false} SplitThree(a: string, b: string, c: string)
    requires ':' !in a && ':' !in b && ':' !in c
    ensures SplitOn(a + ":" + b + ":" + c, ':') == [a, b, c]
  {
    assert a + ":" + b + ":" + c == a + [':'] + (b + [':'] + c);
    SplitOnCons(a, ':', b + [':'] + c);
    SplitOnCons(b, ':', c);
    SplitOnNoSep(c, ':');
  }

  lemma {:induction false} SplitTwo(a: string, b: string)
    requires ':' !in a && ':' !in b
    ensures SplitOn(a + ":" + b, ':') == [a, b]
  {
    assert a + ":" + b == a + [':'] + b;
    SplitOnCons(a, ':', b);
    SplitOnNoSep(b, ':');
  }

  lemma ParseThreeFields(s: string, a: string, b: string, c: string, h: int, m: int, sec: int)
    requires SplitOn(s, ':') == [a, b, c]
    requires ParseInt(a) == Some(h) && ParseInt(b) == Some(m) && ParseInt(c) == Some(sec)
    ensures ParseHms(s).Some? && ParseHms(s).value == h * 3600 + m * 60 + sec
  {
    assert SplitOn(s, ':')[0] == a && SplitOn(s, ':')[1] == b && SplitOn(s, ':')[2] == c;
  }

  lemma ParseTwoFields(s: string, a: string, b: string, h: int, m: int)
    requires SplitOn(s, ':') == [a, b]
    requires ParseInt(a) == Some(h) && ParseInt(b) == Some(m)
    ensures ParseHms(s).Some? && ParseHms(s).value == h * 3600 + m * 60
  {
    assert SplitOn(s, ':')[0] == a && SplitOn(s, ':')[1] == b;
  }

  lemma FmtParseValue(t: int)
    ensures ParseHms(FmtHhmmss(t)).Some? && ParseHms(FmtHhmmss(t)).value == t
  {
    var h, m, s := t / 3600, (t % 3600) / 60, t % 60;
    var a, b, c := Pad2(h), Pad2(m), Pad2(s);
    assert FmtHhmmss(t) == a + ":" + b + ":" + c;
    Pad2NoColon(h); Pad2NoColon(m); Pad2NoColon(s);
    SplitThree(a, b, c);
    Pad2RoundTrip(h); Pad2RoundTrip(m); Pad2RoundTrip(s);
    ParseThreeFields(FmtHhmmss(t), a, b, c, h, m, s);
    HmsDecomposition(t);
  }

  /** Every duration the countdown window displays parses back to itself:
      _parse_hms(_fmt_hhmmss(t)) == t, for negative t as well. */
  lemma FmtParseRoundTrip(t: int)
    ensures ParseHms(FmtHhmmss(t)) == Some(t)
  {
    FmtParseValue(t);
  }

  /** No range check: any three integers h:m:s, minutes or seconds past 59 included,
      are accepted and weighted 3600, 60 and 1. */
  lemma ThreeFieldsUnchecked(h: int, m: int, s: int)
    ensures ParseHms(IntToStr(h) + ":" + IntToStr(m) + ":" + IntToStr(s)).Some?
    ensures ParseHms(IntToStr(h) + ":" + IntToStr(m) + ":" + IntToStr(s)).value == h * 3600 + m * 60 + s
  {
    var a, b, c := IntToStr(h), IntToStr(m), IntToStr(s);
    IntToStrNoColon(h); IntToStrNoColon(m); IntToStrNoColon(s);
    SplitThree(a, b, c);
    IntToStrRoundTrip(h); IntToStrRoundTrip(m); IntToStrRoundTrip(s);
    ParseThreeFields(a + ":" + b + ":" + c, a, b, c, h, m, s);
  }

  /** With two fields the seconds are zero: "h:m" means h hours and m minutes. */
  lemma TwoFieldsAreHoursMinutes(h: int, m: int)
    ensures ParseHms(IntToStr(h) + ":" + IntToStr(m)).Some?
    ensures ParseHms(IntToStr(h) + ":" + IntToStr(m)).value == h * 3600 + m * 60
  {
    var a, b := IntToStr(h), IntToStr(m);
    IntToStrNoColon(h); IntToStrNoColon(m);
    SplitTwo(a, b);
    IntToStrRoundTrip(h); IntToStrRoundTrip(m);
    ParseTwoFields(a + ":" + b, a, b, h, m);
  }

  /** A single field (no colon) is rejected. */
  lemma OneFieldRejected(s: string)
    requires ':' !in s
    ensures ParseHms(s) == None
  {
    SplitOnNoSep(s, ':');
  }

  /** Four or more fields are rejected, whatever they hold. */
  lemma {:induction false} FourFieldsRejected(a: string, b: string, c: string, rest: string)
    requires ':' !in a && ':' !in b && ':' !in c
    ensures ParseHms(a + ":" + b + ":" + c + ":" + rest) == None
  {
    assert a + ":" + b + ":" + c + ":" + rest == a + [':'] + (b + [':'] + (c + [':'] + rest));
    SplitOnCons(a, ':', b + [':'] + (c + [':'] + rest));
    SplitOnCons(b, ':', c + [':'] + rest);
    SplitOnCons(c, ':', rest);
  }
}
