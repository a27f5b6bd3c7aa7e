/**
  What `parse_history_timestamp` promises about the texts Steam and the formats
  produce: each of the three written forms is read back as the date-time it was
  written from, at most one format accepts any text, and text that is no timestamp
  gives `None`.
*/
module TimestampProperties {
  import opened Wrappers
  import opened Strings
  import opened Calendar
  import opened Payload
  import opened Timestamps

  /** `"%b %d %Y %H"` compiled. */
  const HourDirectives: seq<Directive> :=
    [Field(MonthAbbr), Whitespace, Field(Day), Whitespace, Field(Year), Whitespace, Field(Hour)]

  /** `"%b %d %Y %H:%M"` compiled: the first format followed by `:` and the minute. */
  const MinuteDirectives: seq<Directive> := HourDirectives + [Literal(':'), Field(Minute)]

  /** `"%Y-%m-%d %H:%M:%S"` compiled. */
  const IsoDirectives: seq<Directive> :=
    [Field(Year), Literal('-'), Field(MonthNum), Literal('-'), Field(Day), Whitespace,
     Field(Hour), Literal(':'), Field(Minute), Literal(':'), Field(Second)]

  // ----- Compiling the formats -----

  /** `%` and a directive letter in front of a compiled format add that field. */
  lemma CompileField(c: char, k: FieldKind, s: string, r: seq<Directive>)
    requires KindOf(c) == Some(k) && Compile(s) == Some(r)
    ensures Compile(['%', c] + s) == Some([Field(k)] + r)
  {
    var f: string := ['%', c] + s;
    assert f[0] == '%' && f[1] == c && f[2..] == s;
  }

  /** One space in front of a compiled format that starts with no whitespace adds a `Whitespace`. */
  lemma CompileSpace(s: string, r: seq<Directive>)
    requires s != [] && !IsSpace(s[0]) && Compile(s) == Some(r)
    ensures Compile([' '] + s) == Some([Whitespace] + r)
  {
    var f: string := [' '] + s;
    assert f[1..] == s;
    assert LStrip(s) == s;
    assert LStrip(f) == s;
  }

  /** Any other character in front of a compiled format matches itself. */
  lemma CompileLiteral(c: char, s: string, r: seq<Directive>)
    requires c != '%' && !IsSpace(c) && Compile(s) == Some(r)
    ensures Compile([c] + s) == Some([Literal(c)] + r)
  {
    assert ([c] + s)[1..] == s;
  }

  /** `"%b %d %Y %H"` in front of a compiled tail that starts with no whitespace. */
  lemma CompileHourPrefix(t: string, td: seq<Directive>)
    requires (t != [] ==> !IsSpace(t[0])) && Compile(t) == Some(td)
    ensures Compile("%b %d %Y %H" + t) == Some(HourDirectives + td)
  {
    var f6: string := ['%', 'H'] + t;
    var r6: seq<Directive> := [Field(Hour)] + td;
    CompileField('H', Hour, t, td);
    var f5: string := [' '] + f6;
    var r5: seq<Directive> := [Whitespace] + r6;
    CompileSpace(f6, r6);
    var f4: string := ['%', 'Y'] + f5;
    var r4: seq<Directive> := [Field(Year)] + r5;
    CompileField('Y', Year, f5, r5);
    var f3: string := [' '] + f4;
    var r3: seq<Directive> := [Whitespace] + r4;
    CompileSpace(f4, r4);
    var f2: string := ['%', 'd'] + f3;
    var r2: seq<Directive> := [Field(Day)] + r3;
    CompileField('d', Day, f3, r3);
    var f1: string := [' '] + f2;
    var r1: seq<Directive> := [Whitespace] + r2;
    CompileSpace(f2, r2);
    var f0: string := ['%', 'b'] + f1;
    var r0: seq<Directive> := [Field(MonthAbbr)] + r1;
    CompileField('b', MonthAbbr, f1, r1);
    HourFormatShape(t, f6, f5, f4, f3, f2, f1, f0);
    HourDirectivesShape(td, r6, r5, r4, r3, r2, r1, r0);
  }

  lemma HourFormatShape(t: string, f6: string, f5: string, f4: string, f3: string, f2: string, f1: string, f0: string)
    requires f6 == ['%', 'H'] + t && f5 == [' '] + f6 && f4 == ['%', 'Y'] + f5 && f3 == [' '] + f4
    requires f2 == ['%', 'd'] + f3 && f1 == [' '] + f2 && f0 == ['%', 'b'] + f1
    ensures f0 == "%b %d %Y %H" + t
  {
  }

  lemma HourDirectivesShape(td: seq<Directive>, r6: seq<Directive>, r5: seq<Directive>, r4: seq<Directive>,
                            r3: seq<Directive>, r2: seq<Directive>, r1: seq<Directive>, r0: seq<Directive>)
    requires r6 == [Field(Hour)] + td && r5 == [Whitespace] + r6 && r4 == [Field(Year)] + r5
    requires r3 == [Whitespace] + r4 && r2 == [Field(Day)] + r3 && r1 == [Whitespace] + r2
    requires r0 == [Field(MonthAbbr)] + r1
    ensures r0 == HourDirectives + td
  {
  }

  /** The three formats compile to the directives above. */
  lemma CompiledFormats()
    ensures Compile(Formats[0]) == Some(HourDirectives)
    ensures Compile(Formats[1]) == Some(MinuteDirectives)
    ensures Compile(Formats[2]) == Some(IsoDirectives)
  {
    CompiledHour();
    CompiledMinute();
    CompiledIso();
  }

  lemma CompiledHour()
    ensures Compile("%b %d %Y %H") == Some(HourDirectives)
  {
    CompileHourPrefix([], []);
    assert "%b %d %Y %H" + [] == "%b %d %Y %H";
    assert HourDirectives + [] == HourDirectives;
  }

  lemma CompiledMinute()
    ensures Compile("%b %d %Y %H:%M") == Some(MinuteDirectives)
  {
    var m: string := ['%', 'M'] + [];
    CompileField('M', Minute, [], []);
    var cm: string := [':'] + m;
    CompileLiteral(':', m, [Field(Minute)] + []);
    var dm: seq<Directive> := [Literal(':')] + ([Field(Minute)] + []);
    CompileHourPrefix(cm, dm);
    assert "%b %d %Y %H" + cm == "%b %d %Y %H:%M";
    assert HourDirectives + dm == MinuteDirectives;
  }

  lemma CompiledIso()
    ensures Compile("%Y-%m-%d %H:%M:%S") == Some(IsoDirectives)
  {
    var g10: string := ['%', 'S'] + [];
    var d10: seq<Directive> := [Field(Second)] + [];
    CompileField('S', Second, [], []);
    var g9: string := [':'] + g10;
    var d9: seq<Directive> := [Literal(':')] + d10;
    CompileLiteral(':', g10, d10);
    var g8: string := ['%', 'M'] + g9;
    var d8: seq<Directive> := [Field(Minute)] + d9;
    CompileField('M', Minute, g9, d9);
    var g7: string := [':'] + g8;
    var d7: seq<Directive> := [Literal(':')] + d8;
    CompileLiteral(':', g8, d8);
    var g6: string := ['%', 'H'] + g7;
    var d6: seq<Directive> := [Field(Hour)] + d7;
    CompileField('H', Hour, g7, d7);
    var g5: string := [' '] + g6;
    var d5: seq<Directive> := [Whitespace] + d6;
    CompileSpace(g6, d6);
    CompileDatePrefix(g10, g9, g8, g7, g6, g5, d10, d9, d8, d7, d6, d5);
  }

  /** `"%Y-%m-%d"` in front of the compiled clock part. */
  lemma CompileDatePrefix(g10: string, g9: string, g8: string, g7: string, g6: string, g5: string,
                          d10: seq<Directive>, d9: seq<Directive>, d8: seq<Directive>,
                          d7: seq<Directive>, d6: seq<Directive>, d5: seq<Directive>)
    requires g10 == ['%', 'S'] + [] && g9 == [':'] + g10 && g8 == ['%', 'M'] + g9 && g7 == [':'] + g8
    requires g6 == ['%', 'H'] + g7 && g5 == [' '] + g6
    requires d10 == [Field(Second)] + [] && d9 == [Literal(':')] + d10 && d8 == [Field(Minute)] + d9
    requires d7 == [Literal(':')] + d8 && d6 == [Field(Hour)] + d7 && d5 == [Whitespace] + d6
    requires Compile(g5) == Some(d5)
    ensures Compile("%Y-%m-%d %H:%M:%S") == Some(IsoDirectives)
  {
    var g4: string := ['%', 'd'] + g5;
    var d4: seq<Directive> := [Field(Day)] + d5;
    CompileField('d', Day, g5, d5);
    var g3: string := ['-'] + g4;
    var d3: seq<Directive> := [Literal('-')] + d4;
    CompileLiteral('-', g4, d4);
    var g2: string := ['%', 'm'] + g3;
    var d2: seq<Directive> := [Field(MonthNum)] + d3;
    CompileField('m', MonthNum, g3, d3);
    var g1: string := ['-'] + g2;
    var d1: seq<Directive> := [Literal('-')] + d2;
    CompileLiteral('-', g2, d2);
    var g0: string := ['%', 'Y'] + g1;
    var d0: seq<Directive> := [Field(Year)] + d1;
    CompileField('Y', Year, g1, d1);
    IsoFormatShape(g10, g9, g8, g7, g6, g5, g4, g3, g2, g1, g0);
    IsoDirectivesShape(d10, d9, d8, d7, d6, d5, d4, d3, d2, d1, d0);
  }

  lemma IsoFormatShape(g10: string, g9: string, g8: string, g7: string, g6: string, g5: string,
                       g4: string, g3: string, g2: string, g1: string, g0: string)
    requires g10 == ['%', 'S'] + [] && g9 == [':'] + g10 && g8 == ['%', 'M'] + g9 && g7 == [':'] + g8
    requires g6 == ['%', 'H'] + g7 && g5 == [' '] + g6 && g4 == ['%', 'd'] + g5 && g3 == ['-'] + g4
    requires g2 == ['%', 'm'] + g3 && g1 == ['-'] + g2 && g0 == ['%', 'Y'] + g1
    ensures g0 == "%Y-%m-%d %H:%M:%S"
  {
  }

  lemma IsoDirectivesShape(d10: seq<Directive>, d9: seq<Directive>, d8: seq<Directive>, d7: seq<Directive>,
                           d6: seq<Directive>, d5: seq<Directive>, d4: seq<Directive>, d3: seq<Directive>,
                           d2: seq<Directive>, d1: seq<Directive>, d0: seq<Directive>)
    requires d10 == [Field(Second)] + [] && d9 == [Literal(':')] + d10 && d8 == [Field(Minute)] + d9
    requires d7 == [Literal(':')] + d8 && d6 == [Field(Hour)] + d7 && d5 == [Whitespace] + d6
    requires d4 == [Field(Day)] + d5 && d3 == [Literal('-')] + d4 && d2 == [Field(MonthNum)] + d3
    requires d1 == [Literal('-')] + d2 && d0 == [Field(Year)] + d1
    ensures d0 == IsoDirectives
  {
  }

  // ----- One directive at a time -----

  /** Reading the directives of `d1 + d2` is reading `d1`, then `d2` from what is left. */
  lemma {:induction false} ConsumeAppend(s: string, d1: seq<Directive>, d2: seq<Directive>, acc: Fields)
    ensures Consume(s, d1 + d2, acc)
            == (match Consume(s, d1, acc) case None => None case Some(p) => Consume(p.0, d2, p.1))
    decreases |d1|
  {
    if d1 == [] {
      assert d1 + d2 == d2;
    } else {
      assert (d1 + d2)[0] == d1[0];
      assert (d1 + d2)[1..] == d1[1..] + d2;
      match d1[0]
      case Whitespace =>
        var n := SpacePrefix(s);
        if n > 0 {
          ConsumeAppend(s[n..], d1[1..], d2, acc);
        }
      case Literal(c) =>
        if s != [] && s[0] == c {
          ConsumeAppend(s[1..], d1[1..], d2, acc);
        }
      case Field(k) =>
        if ReadField(k, s).Some? {
          var p := ReadField(k, s).value;
          ConsumeAppend(p.1, d1[1..], d2, SetField(acc, k, p.0));
        }
    }
  }

  /** Directives without a minute or second field leave those two fields as they were. */
  lemma {:induction false} ConsumeKeeps(s: string, ds: seq<Directive>, acc: Fields)
    requires forall i :: 0 <= i < |ds| ==> ds[i] != Field(Minute) && ds[i] != Field(Second)
    ensures Consume(s, ds, acc).Some? ==>
              Consume(s, ds, acc).value.1.minute == acc.minute && Consume(s, ds, acc).value.1.second == acc.second
    decreases |ds|
  {
    if ds != [] {
      match ds[0]
      case Whitespace =>
        var n := SpacePrefix(s);
        if n > 0 {
          ConsumeKeeps(s[n..], ds[1..], acc);
        }
      case Literal(c) =>
        if s != [] && s[0] == c {
          ConsumeKeeps(s[1..], ds[1..], acc);
        }
      case Field(k) =>
        if ReadField(k, s).Some? {
          var p := ReadField(k, s).value;
          ConsumeKeeps(p.1, ds[1..], SetField(acc, k, p.0));
        }
    }
  }

  lemma ConsumeWhitespace(b: string, ds: seq<Directive>, acc: Fields)
    requires b != [] ==> !IsSpace(b[0])
    ensures Consume(" " + b, [Whitespace] + ds, acc) == Consume(b, ds, acc)
  {
    assert ([Whitespace] + ds)[1..] == ds;
    assert (" " + b)[1..] == b;
  }

  lemma ConsumeLiteral(c: char, b: string, ds: seq<Directive>, acc: Fields)
    ensures Consume([c] + b, [Literal(c)] + ds, acc) == Consume(b, ds, acc)
  {
    assert ([Literal(c)] + ds)[1..] == ds;
    assert ([c] + b)[1..] == b;
  }

  /** Digits only, as the numeric fields are written. */
  predicate AllDigits(s: string) {
    forall i :: 0 <= i < |s| ==> IsDigit(s[i])
  }

  /** A run of digits followed by a non-digit (or nothing) is read whole. */
  lemma {:induction false} DigitPrefixOf(a: string, b: string)
    requires AllDigits(a)
    requires b != [] ==> !IsDigit(b[0])
    ensures DigitPrefix(a + b) == |a|
  {
    if a != [] {
      assert (a + b)[1..] == a[1..] + b;
      DigitPrefixOf(a[1..], b);
    } else {
      assert a + b == b;
    }
  }

  /** A numeric field written with the number of digits its directive allows. */
  lemma ConsumeNumber(k: FieldKind, a: string, b: string, ds: seq<Directive>, acc: Fields)
    requires k != MonthAbbr
    requires AllDigits(a) && (if k == Year then |a| == 4 else 1 <= |a| <= 2)
    requires b != [] ==> !IsDigit(b[0])
    ensures Consume(a + b, [Field(k)] + ds, acc) == Consume(b, ds, SetField(acc, k, DigitsValue(a)))
  {
    DigitPrefixOf(a, b);
    assert (a + b)[..|a|] == a;
    assert (a + b)[|a|..] == b;
    assert ([Field(k)] + ds)[1..] == ds;
    assert ReadField(k, a + b) == Some((DigitsValue(a), b));
  }


  /** The month name of `m` reads back as `m`. */
  lemma MonthNumberOfName(m: int)
    requires 1 <= m <= 12
    ensures MonthNumber(AsciiLower(MonthName(m))) == m
  {
    var w := MonthAbbrevs[m - 1];
    assert AsciiLower(MonthName(m)) == w;
    if m <= 6 {
      FirstHalfMonthNumber(m);
    } else {
      SecondHalfMonthNumber(m);
    }
  }

  lemma FirstHalfMonthNumber(m: int)
    requires 1 <= m <= 6
    ensures MonthNumber(MonthAbbrevs[m - 1]) == m
  {
    assert m == 1 || m == 2 || m == 3 || m == 4 || m == 5 || m == 6;
  }

  lemma SecondHalfMonthNumber(m: int)
    requires 7 <= m <= 12
    ensures MonthNumber(MonthAbbrevs[m - 1]) == m
  {
    assert m == 7 || m == 8 || m == 9 || m == 10 || m == 11 || m == 12;
  }
  lemma ConsumeMonth(m: int, b: string, ds: seq<Directive>, acc: Fields)
    requires 1 <= m <= 12
    ensures Consume(MonthName(m) + b, [Field(MonthAbbr)] + ds, acc) == Consume(b, ds, SetField(acc, MonthAbbr, m))
  {
    var s := MonthName(m) + b;
    MonthNumberOfName(m);
    assert s[..3] == MonthName(m);
    assert s[3..] == b;
    assert ([Field(MonthAbbr)] + ds)[1..] == ds;
  }

  // ----- Zero-padded numbers -----

  /** Two decimal digits, zero-padded, as Steam and `%02d` write them. */
  function Pad2(n: int): (r: string)
    requires 0 <= n < 100
    ensures |r| == 2 && AllDigits(r)
  {
    [DigitChar(n / 10), DigitChar(n % 10)]
  }

  /** Four decimal digits, zero-padded. */
  function Pad4(n: int): (r: string)
    requires 0 <= n < 10000
    ensures |r| == 4 && AllDigits(r)
  {
    Pad2(n / 100) + Pad2(n % 100)
  }

  lemma Pad2Value(n: int)
    requires 0 <= n < 100
    ensures DigitsValue(Pad2(n)) == n
  {
    var s := Pad2(n);
    assert s[..1] == [s[0]];
    assert [s[0]][..0] == [];
    assert DigitsValue([s[0]]) == s[0] as int - '0' as int;
    assert DigitsValue(s) == 10 * DigitsValue(s[..1]) + (s[1] as int - '0' as int);
  }

  lemma Pad4Value(n: int)
    requires 0 <= n < 10000
    ensures DigitsValue(Pad4(n)) == n
  {
    var a, b := Pad2(n / 100), Pad2(n % 100);
    var s := a + b;
    Pad2Value(n / 100);
    Pad2Value(n % 100);
    assert s[..3] == a + [b[0]];
    assert (a + [b[0]])[..2] == a;
    assert DigitsValue(s) == 10 * (10 * DigitsValue(a) + (b[0] as int - '0' as int)) + (b[1] as int - '0' as int);
    assert [b[0]][..0] == [];
    assert b[..1] == [b[0]];
  }

  // ----- The three written forms -----

  /** `%b %d %Y %H` written out: `Mon DD YYYY HH`. */
  function HourText(t: DateTime): string
    requires ValidDateTime(t)
  {
    MonthName(t.month) + " " + Pad2(t.day) + " " + Pad4(t.year) + " " + Pad2(t.hour)
  }

  /** What the Steam history rows hold: the hour followed by `: +0`. */
  function SteamText(t: DateTime): string
    requires ValidDateTime(t)
  {
    HourText(t) + ": +0"
  }

  /** `%b %d %Y %H:%M` written out. */
  function MinuteText(t: DateTime): string
    requires ValidDateTime(t)
  {
    HourText(t) + ":" + Pad2(t.minute)
  }

  /** `%Y-%m-%d %H:%M:%S` written out. */
  function IsoText(t: DateTime): string
    requires ValidDateTime(t)
  {
    Pad4(t.year) + "-" + Pad2(t.month) + "-" + Pad2(t.day) + " "
    + Pad2(t.hour) + ":" + Pad2(t.minute) + ":" + Pad2(t.second)
  }


  // ----- Reading the written forms back -----

  /** A separator character and a numeric field, followed by `rest`. */
  lemma ReadSeparatedField(sep: Directive, c: char, k: FieldKind, a: string, rest: string, ds: seq<Directive>, acc: Fields)
    requires sep == Whitespace ==> c == ' '
    requires sep.Literal? ==> sep.c == c
    requires sep.Field? ==> false
    requires k != MonthAbbr && AllDigits(a) && (if k == Year then |a| == 4 else 1 <= |a| <= 2)
    requires rest != [] ==> !IsDigit(rest[0])
    ensures Consume([c] + (a + rest), [sep] + ([Field(k)] + ds), acc) == Consume(rest, ds, SetField(acc, k, DigitsValue(a)))
  {
    if sep == Whitespace {
      ConsumeWhitespace(a + rest, [Field(k)] + ds, acc);
    } else {
      ConsumeLiteral(c, a + rest, [Field(k)] + ds, acc);
    }
    ConsumeNumber(k, a, rest, ds, acc);
  }

  /** Reading ` DD YYYY HH` followed by `rest`, given as its nested concatenations. */
  lemma ReadHourTail(d: string, y: string, h: string, rest: string, ds: seq<Directive>, acc: Fields,
                     s2: string, s1: string, s0: string, r5: seq<Directive>, r3: seq<Directive>, r1: seq<Directive>)
    requires |d| == 2 && AllDigits(d) && |y| == 4 && AllDigits(y) && |h| == 2 && AllDigits(h)
    requires rest != [] ==> !IsDigit(rest[0])
    requires s2 == " " + (h + rest) && s1 == " " + (y + s2) && s0 == " " + (d + s1)
    requires r5 == [Whitespace] + ([Field(Hour)] + ds) && r3 == [Whitespace] + ([Field(Year)] + r5)
    requires r1 == [Whitespace] + ([Field(Day)] + r3)
    ensures Consume(s0, r1, acc)
            == Consume(rest, ds, acc.(day := DigitsValue(d), year := DigitsValue(y), hour := DigitsValue(h)))
  {
    ReadSeparatedField(Whitespace, ' ', Day, d, s1, r3, acc);
    var a1 := acc.(day := DigitsValue(d));
    ReadSeparatedField(Whitespace, ' ', Year, y, s2, r5, a1);
    var a2 := a1.(year := DigitsValue(y));
    ReadSeparatedField(Whitespace, ' ', Hour, h, rest, ds, a2);
  }

  /** `HourText(t) + rest` as the nested concatenation the reading lemmas take apart. */
  lemma HourTextShape(t: DateTime, rest: string, s2: string, s1: string, s0: string)
    requires ValidDateTime(t)
    requires s2 == " " + (Pad2(t.hour) + rest) && s1 == " " + (Pad4(t.year) + s2)
    requires s0 == " " + (Pad2(t.day) + s1)
    ensures HourText(t) + rest == MonthName(t.month) + s0
  {
  }

  /** Reading `Mon DD YYYY HH` followed by `rest` sets the month, day, year and hour. */
  lemma ReadHourText(t: DateTime, rest: string, ds: seq<Directive>, acc: Fields)
    requires ValidDateTime(t)
    requires rest != [] ==> !IsDigit(rest[0])
    ensures Consume(HourText(t) + rest, HourDirectives + ds, acc)
            == Consume(rest, ds, acc.(month := t.month, day := t.day, year := t.year, hour := t.hour))
  {
    var d, y, h := Pad2(t.day), Pad4(t.year), Pad2(t.hour);
    var s2 := " " + (h + rest);
    var s1 := " " + (y + s2);
    var s0 := " " + (d + s1);
    HourTextShape(t, rest, s2, s1, s0);
    var r6 := [Field(Hour)] + ds;
    var r5 := [Whitespace] + r6;
    var r4 := [Field(Year)] + r5;
    var r3 := [Whitespace] + r4;
    var r2 := [Field(Day)] + r3;
    var r1 := [Whitespace] + r2;
    HourDirectivesShape(ds, r6, r5, r4, r3, r2, r1, [Field(MonthAbbr)] + r1);
    Pad2Value(t.day);
    Pad4Value(t.year);
    Pad2Value(t.hour);
    ConsumeMonth(t.month, s0, r1, acc);
    ReadHourTail(d, y, h, rest, ds, acc.(month := t.month), s2, s1, s0, r5, r3, r1);
  }

  /** `IsoText(t)` as the nested concatenation the reading lemmas take apart. */
  lemma IsoTextShape(t: DateTime, c2: string, c1: string, c0: string, e1: string, e0: string)
    requires ValidDateTime(t)
    requires c2 == ":" + (Pad2(t.second) + []) && c1 == ":" + (Pad2(t.minute) + c2)
    requires c0 == " " + (Pad2(t.hour) + c1) && e1 == "-" + (Pad2(t.day) + c0)
    requires e0 == "-" + (Pad2(t.month) + e1)
    ensures IsoText(t) == Pad4(t.year) + e0
  {
  }

  /** `YYYY-MM-DD HH:MM:SS` is read whole, every field from its digits. */
  lemma ReadIsoText(t: DateTime)
    requires ValidDateTime(t)
    ensures Consume(IsoText(t), IsoDirectives, Defaults)
            == Some(([], Fields(t.year, t.month, t.day, t.hour, t.minute, t.second)))
  {
    var y, mo, d := Pad4(t.year), Pad2(t.month), Pad2(t.day);
    var h, mi, se := Pad2(t.hour), Pad2(t.minute), Pad2(t.second);
    var e: string := [];
    var c2: string := ":" + (se + e);
    var c1: string := ":" + (mi + c2);
    var c0: string := " " + (h + c1);
    var e1: string := "-" + (d + c0);
    var e0: string := "-" + (mo + e1);
    IsoTextShape(t, c2, c1, c0, e1, e0);
    var d10: seq<Directive> := [Field(Second)] + [];
    var d9: seq<Directive> := [Literal(':')] + d10;
    var d8: seq<Directive> := [Field(Minute)] + d9;
    var d7: seq<Directive> := [Literal(':')] + d8;
    var d6: seq<Directive> := [Field(Hour)] + d7;
    var d5: seq<Directive> := [Whitespace] + d6;
    var d4: seq<Directive> := [Field(Day)] + d5;
    var d3: seq<Directive> := [Literal('-')] + d4;
    var d2: seq<Directive> := [Field(MonthNum)] + d3;
    var d1: seq<Directive> := [Literal('-')] + d2;
    IsoDirectivesShape(d10, d9, d8, d7, d6, d5, d4, d3, d2, d1, [Field(Year)] + d1);
    Pad4Value(t.year);
    Pad2Value(t.month);
    Pad2Value(t.day);
    Pad2Value(t.hour);
    Pad2Value(t.minute);
    Pad2Value(t.second);
    ReadIsoDate(y, mo, d, Defaults, e1, e0, c0, d5, d4, d3, d2, d1);
    var a3 := Defaults.(year := t.year, month := t.month, day := t.day);
    ReadIsoClock(h, mi, se, a3, c2, c1, c0, d10, d9, d8, d7, d6, d5);
  }

  /** Reading `YYYY-MM-DD` in front of `c0`, given as its nested concatenations. */
  lemma ReadIsoDate(y: string, mo: string, d: string, acc: Fields, e1: string, e0: string, c0: string,
                    d5: seq<Directive>, d4: seq<Directive>, d3: seq<Directive>, d2: seq<Directive>, d1: seq<Directive>)
    requires |y| == 4 && AllDigits(y) && |mo| == 2 && AllDigits(mo) && |d| == 2 && AllDigits(d)
    requires c0 != [] && !IsDigit(c0[0])
    requires e1 == "-" + (d + c0) && e0 == "-" + (mo + e1)
    requires d4 == [Field(Day)] + d5 && d3 == [Literal('-')] + d4
    requires d2 == [Field(MonthNum)] + d3 && d1 == [Literal('-')] + d2
    ensures Consume(y + e0, [Field(Year)] + d1, acc)
            == Consume(c0, d5, acc.(year := DigitsValue(y), month := DigitsValue(mo), day := DigitsValue(d)))
  {
    ConsumeNumber(Year, y, e0, d1, acc);
    var a1 := acc.(year := DigitsValue(y));
    ReadSeparatedField(Literal('-'), '-', MonthNum, mo, e1, d3, a1);
    var a2 := a1.(month := DigitsValue(mo));
    ReadSeparatedField(Literal('-'), '-', Day, d, c0, d5, a2);
  }

  /** Reading ` HH:MM:SS` to the end, given as its nested concatenations. */
  lemma ReadIsoClock(h: string, mi: string, se: string, acc: Fields, c2: string, c1: string, c0: string,
                     d10: seq<Directive>, d9: seq<Directive>, d8: seq<Directive>, d7: seq<Directive>,
                     d6: seq<Directive>, d5: seq<Directive>)
    requires |h| == 2 && AllDigits(h) && |mi| == 2 && AllDigits(mi) && |se| == 2 && AllDigits(se)
    requires c2 == ":" + (se + []) && c1 == ":" + (mi + c2) && c0 == " " + (h + c1)
    requires d10 == [Field(Second)] + [] && d9 == [Literal(':')] + d10 && d8 == [Field(Minute)] + d9
    requires d7 == [Literal(':')] + d8 && d6 == [Field(Hour)] + d7 && d5 == [Whitespace] + d6
    ensures Consume(c0, d5, acc)
            == Some(([], acc.(hour := DigitsValue(h), minute := DigitsValue(mi), second := DigitsValue(se))))
  {
    ReadSeparatedField(Whitespace, ' ', Hour, h, c1, d7, acc);
    var a1 := acc.(hour := DigitsValue(h));
    ReadSeparatedField(Literal(':'), ':', Minute, mi, c2, d9, a1);
    var a2 := a1.(minute := DigitsValue(mi));
    ReadSeparatedField(Literal(':'), ':', Second, se, [], [], a2);
  }

  lemma HourTextSpacing(t: DateTime, c: char)
    requires ValidDateTime(t) && c != ' '
    ensures NoDoubleSpace(HourText(t) + [c])
    ensures |HourText(t)| == 14 && !IsSpace(HourText(t)[0]) && IsDigit(HourText(t)[13])
  {
    var s := HourText(t) + [c];
    var mon := MonthName(t.month);
    assert |s| == 15;
    forall i | 0 <= i < |s| - 1 ensures !(s[i] == ' ' && s[i + 1] == ' ') {
      if s[i] == ' ' {
        assert i == 3 || i == 6 || i == 11;
      }
    }
    assert HourText(t)[0] == mon[0];
  }

  /** The clean-up turns `x: +0` into `x` when `x` has no double space and no outer whitespace. */
  lemma CleanSteamTail(x: string)
    requires x != [] && !IsSpace(x[0]) && !IsSpace(x[|x| - 1])
    requires NoDoubleSpace(x + ":")
    ensures Clean(x + ": +0") == x
  {
    var raw := x + ": +0";
    StripClean(raw);
    assert EndsWith(raw, "+0");
    assert raw[..|raw| - 2] == x + ": ";
    assert LStrip(x + ": ") == x + ": ";
    assert (x + ": ")[..|x| + 1] == x + ":";
    assert RStrip(x + ":") == x + ":";
    assert RStrip(x + ": ") == x + ":";
    NoDoubleSpaceReplace(x + ":");
    assert (x + ":")[..|x|] == x;
  }

  /** The clean-up leaves alone a text with no double space that ends in a digit other than `0`-after-`+`. */
  lemma CleanPlain(x: string)
    requires |x| >= 2 && !IsSpace(x[0]) && IsDigit(x[|x| - 1]) && x[|x| - 2] != '+'
    requires NoDoubleSpace(x)
    ensures Clean(x) == x
  {
    StripClean(x);
    NoDoubleSpaceReplace(x);
  }


  /**
    The round trip for the form Steam uses: an hourly date-time written as
    `Mon DD YYYY HH: +0` is read back as itself.
  */
  lemma SteamTextRoundTrip(t: DateTime)
    requires ValidDateTime(t) && t.minute == 0 && t.second == 0
    ensures ParseTimestamp(Text(SteamText(t))) == Some(t)
  {
    var x := HourText(t);
    HourTextSpacing(t, ':');
    CleanSteamTail(x);
    CompiledFormats();
    ReadHourText(t, [], [], Defaults);
    assert x + [] == x && HourDirectives + [] == HourDirectives;
    assert Strptime(x, Formats[0]) == Some(t);
  }

  /** Whatever text the first format `%b %d %Y %H` accepts, the date-time it gives is on the hour. */
  lemma FirstFormatOnTheHour(s: string)
    ensures var r := Strptime(s, Formats[0]);
            r.Some? ==> r.value.minute == 0 && r.value.second == 0
  {
    CompiledFormats();
    ConsumeKeeps(s, HourDirectives, Defaults);
  }

  /**
    A raw timestamp whose cleaned text the first format accepts is parsed by that
    format, so `parse_history_timestamp` returns a date-time on the hour.
  */
  lemma ParsedByFirstFormat(raw: string)
    requires Strptime(Clean(raw), Formats[0]).Some?
    ensures ParseTimestamp(Text(raw)) == Strptime(Clean(raw), Formats[0])
    ensures ParseTimestamp(Text(raw)).value.minute == 0 && ParseTimestamp(Text(raw)).value.second == 0
  {
    FirstFormatOnTheHour(Clean(raw));
  }

  /** `Mon DD YYYY HH:MM` is read whole by the directives of the second format. */
  lemma ReadMinuteText(t: DateTime)
    requires ValidDateTime(t)
    ensures Consume(MinuteText(t), MinuteDirectives, Defaults)
            == Some(([], Defaults.(month := t.month, day := t.day, year := t.year, hour := t.hour, minute := t.minute)))
    ensures Consume(MinuteText(t), HourDirectives, Defaults)
            == Some((":" + Pad2(t.minute), Defaults.(month := t.month, day := t.day, year := t.year, hour := t.hour)))
  {
    var m := Pad2(t.minute);
    var rest: string := ":" + m;
    var e: seq<Directive> := [];
    var tail: seq<Directive> := [Literal(':'), Field(Minute)];
    assert MinuteText(t) == HourText(t) + rest;
    ReadHourText(t, rest, tail, Defaults);
    ReadHourText(t, rest, e, Defaults);
    assert HourDirectives + e == HourDirectives;
    var acc := Defaults.(month := t.month, day := t.day, year := t.year, hour := t.hour);
    assert tail == [Literal(':')] + ([Field(Minute)] + e);
    ConsumeLiteral(':', m, [Field(Minute)] + e, acc);
    assert m == m + [];
    ConsumeNumber(Minute, m, [], e, acc);
    Pad2Value(t.minute);
  }

  /** `Mon DD YYYY HH:MM` is left alone by the clean-up. */
  lemma CleanMinuteText(t: DateTime)
    requires ValidDateTime(t)
    ensures Clean(MinuteText(t)) == MinuteText(t)
  {
    var x := HourText(t);
    var m := Pad2(t.minute);
    var s := MinuteText(t);
    assert s == x + [':'] + m;
    HourTextSpacing(t, ':');
    assert NoDoubleSpace(s) by {
      forall i | 0 <= i < |s| - 1 ensures !(s[i] == ' ' && s[i + 1] == ' ') {
        if i < |x| {
          assert s[i] == (x + [':'])[i] && s[i + 1] == (x + [':'])[i + 1];
        }
      }
    }
    assert s[|s| - 1] == m[1] && s[|s| - 2] == m[0];
    assert s[0] == x[0];
    CleanPlain(s);
  }

  /** The first format rejects `Mon DD YYYY HH:MM`; the second reads it as `t`. */
  lemma MinuteTextFormats(t: DateTime)
    requires ValidDateTime(t) && t.second == 0
    ensures Strptime(MinuteText(t), Formats[0]).None?
    ensures Strptime(MinuteText(t), Formats[1]) == Some(t)
  {
    CompiledFormats();
    ReadMinuteText(t);
  }

  /** `Mon DD YYYY HH:MM` is read back by the second format, and the first rejects it. */
  lemma MinuteTextRoundTrip(t: DateTime)
    requires ValidDateTime(t) && t.second == 0
    ensures ParseTimestamp(Text(MinuteText(t))) == Some(t)
  {
    MinuteTextAccepted(t);
    ParseFirstAccepted(MinuteText(t), 1, t);
  }

  lemma MinuteTextAccepted(t: DateTime)
    requires ValidDateTime(t) && t.second == 0
    ensures FirstAccepts(MinuteText(t), 1, t)
  {
    CleanMinuteText(t);
    MinuteTextFormats(t);
  }

  /** The `k`-th format is the first to accept the cleaned-up `raw`, and reads it as `t`. */
  predicate FirstAccepts(raw: string, k: int, t: DateTime) {
    0 <= k < |Formats| && Strptime(Clean(raw), Formats[k]) == Some(t)
    && forall j :: 0 <= j < k ==> Strptime(Clean(raw), Formats[j]).None?
  }

  /** Then `parse_history_timestamp` returns `t`. */
  lemma ParseFirstAccepted(raw: string, k: int, t: DateTime)
    requires FirstAccepts(raw, k, t)
    ensures ParseTimestamp(Text(raw)) == Some(t)
  {
    FirstMatchAt(Clean(raw), Formats, k);
  }

  /** `YYYY-MM-DD HH:MM:SS` is left alone by the clean-up. */
  lemma CleanIsoText(t: DateTime)
    requires ValidDateTime(t)
    ensures Clean(IsoText(t)) == IsoText(t)
    ensures IsDigit(IsoText(t)[0])
  {
    var s := IsoText(t);
    var se := Pad2(t.second);
    assert |s| == 19 && s[10] == ' ';
    assert NoDoubleSpace(s) by {
      forall i | 0 <= i < |s| - 1 ensures !(s[i] == ' ' && s[i + 1] == ' ') {
        if s[i] == ' ' {
          assert i == 10;
        }
      }
    }
    assert s[|s| - 1] == se[1] && s[|s| - 2] == se[0];
    assert s[0] == Pad4(t.year)[0];
    CleanPlain(s);
  }

  /** The first two formats reject `YYYY-MM-DD HH:MM:SS`; the third reads it as `t`. */
  lemma IsoTextFormats(t: DateTime)
    requires ValidDateTime(t)
    ensures Strptime(IsoText(t), Formats[0]).None? && Strptime(IsoText(t), Formats[1]).None?
    ensures Strptime(IsoText(t), Formats[2]) == Some(t)
  {
    var s := IsoText(t);
    CleanIsoText(t);
    CompiledFormats();
    ReadIsoText(t);
    FirstFieldIsMonth(s, HourDirectives[1..]);
    FirstFieldIsMonth(s, MinuteDirectives[1..]);
    assert HourDirectives == [Field(MonthAbbr)] + HourDirectives[1..];
    assert MinuteDirectives == [Field(MonthAbbr)] + MinuteDirectives[1..];
  }

  /** `YYYY-MM-DD HH:MM:SS` is read back by the third format; the other two reject it. */
  lemma IsoTextRoundTrip(t: DateTime)
    requires ValidDateTime(t)
    ensures ParseTimestamp(Text(IsoText(t))) == Some(t)
  {
    IsoTextAccepted(t);
    ParseFirstAccepted(IsoText(t), 2, t);
  }

  lemma IsoTextAccepted(t: DateTime)
    requires ValidDateTime(t)
    ensures FirstAccepts(IsoText(t), 2, t)
  {
    CleanIsoText(t);
    IsoTextFormats(t);
  }

  /** A text read by a format that starts with `%b` starts with a letter. */
  lemma FirstFieldIsMonth(s: string, ds: seq<Directive>)
    ensures Consume(s, [Field(MonthAbbr)] + ds, Defaults).Some? ==>
            |s| >= 3 && ('A' <= s[0] <= 'Z' || 'a' <= s[0] <= 'z')
  {
    assert ([Field(MonthAbbr)] + ds)[0] == Field(MonthAbbr);
    if Consume(s, [Field(MonthAbbr)] + ds, Defaults).Some? {
      var w := AsciiLower(s[..3]);
      assert MonthNumber(w) != 0;
      assert w in MonthAbbrevs;
      assert 'a' <= w[0] <= 'z';
    }
  }

  /**
    At most one format parses any text: the first two differ in what follows the
    hour, and the third starts with a digit where the others start with a month.
    So the order in which the source tries them never changes the result.
  */
  lemma FormatsDisjoint(s: string, i: int, j: int)
    requires 0 <= i < j < 3
    ensures !(Strptime(s, Formats[i]).Some? && Strptime(s, Formats[j]).Some?)
  {
    if j == 1 {
      SteamFormatsDisjoint(s);
    } else {
      IsoFormatDisjoint(s, i);
    }
  }

  /** The hour-only and the minute Steam formats never both parse a text. */
  lemma SteamFormatsDisjoint(s: string)
    ensures !(Strptime(s, Formats[0]).Some? && Strptime(s, Formats[1]).Some?)
  {
    CompiledFormats();
    ConsumeAppend(s, HourDirectives, [Literal(':'), Field(Minute)], Defaults);
  }

  /** A text the ISO format parses starts with a digit, which no Steam format accepts. */
  lemma IsoFormatDisjoint(s: string, i: int)
    requires 0 <= i < 2
    ensures !(Strptime(s, Formats[i]).Some? && Strptime(s, Formats[2]).Some?)
  {
    CompiledFormats();
    if Strptime(s, Formats[2]).Some? {
      var ds := if i == 0 then HourDirectives else MinuteDirectives;
      assert ds == [Field(MonthAbbr)] + ds[1..];
      FirstFieldIsMonth(s, ds[1..]);
      assert ([Field(Year)] + IsoDirectives[1..])[0] == Field(Year);
      assert IsoDirectives == [Field(Year)] + IsoDirectives[1..];
      assert DigitPrefix(s) == 4;
    }
  }

  /** The example from a Steam history row: `Jan 05 2021 03: +0` is 2021-01-05 03:00:00. */
  lemma SteamExample()
    ensures ParseTimestamp(Text("Jan 05 2021 03: +0")) == Some(DateTime(2021, 1, 5, 3, 0, 0))
  {
    var t := DateTime(2021, 1, 5, 3, 0, 0);
    assert SteamText(t) == "Jan 05 2021 03: +0";
    SteamTextRoundTrip(t);
  }
}
