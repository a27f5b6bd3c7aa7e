/**
  `parse_history_timestamp`: the clean-up of a raw Steam history timestamp and the
  three `datetime.strptime` formats tried in turn.

  `strptime` compiles a format into a regular expression that must match the whole
  string: whitespace in the format matches one or more whitespace characters, `%b` one
  of the twelve English month abbreviations in any case, `%Y` exactly four digits,
  `%m`, `%H`, `%M`, `%S` one or two digits and `%d` one or two digits or a space and
  one digit; any other character matches itself. Fields it does not find keep their
  defaults (1900-01-01 00:00:00). Because every numeric field of these formats is
  followed by a non-digit or by the end of the text, each field is a maximal run of
  digits, which is how `Consume` reads it; numbers out of range are then rejected by
  `datetime(...)` (`Checked`).
*/
module Timestamps {
  import opened Wrappers
  import opened Strings
  import opened Calendar
  import opened Payload

  /** The formats in the order `parse_history_timestamp` tries them. */
  const Formats: seq<string> := ["%b %d %Y %H", "%b %d %Y %H:%M", "%Y-%m-%d %H:%M:%S"]

  /** `calendar.month_abbr` in the C locale, lower-cased as `strptime` compares them. */
  const MonthAbbrevs: seq<string> :=
    ["jan", "feb", "mar", "apr", "may", "jun", "jul", "aug", "sep", "oct", "nov", "dec"]

  /** The abbreviation of month `m` as Steam writes it, with a capital first letter. */
  function MonthName(m: int): (r: string)
    requires 1 <= m <= 12
    ensures |r| == 3 && AsciiLower(r) == MonthAbbrevs[m - 1]
    ensures forall i :: 0 <= i < 3 ==> 'A' <= r[i] <= 'Z' || 'a' <= r[i] <= 'z'
  {
    var w := MonthAbbrevs[m - 1];
    assert 'a' <= w[0] <= 'z' && 'a' <= w[1] <= 'z' && 'a' <= w[2] <= 'z';
    var r := [(w[0] as int - 32) as char, w[1], w[2]];
    assert AsciiLower(r) == w;
    r
  }

  // ----- The clean-up steps -----

  /**
    Strip; drop a trailing `+0` and strip again; replace each pair of spaces (left to
    right, without overlap) by one space; drop one trailing `:`.
  */
  function Clean(ts: string): string {
    var a := Strip(ts);
    var b := if EndsWith(a, "+0") then Strip(a[..|a| - 2]) else a;
    var c := ReplaceAll(b, "  ", " ");
    if EndsWith(c, ":") then c[..|c| - 1] else c
  }

  // ----- Formats as directives -----

  /** The fields a directive can set. */
  datatype FieldKind = MonthAbbr | Day | Year | MonthNum | Hour | Minute | Second

  /** One piece of a compiled format. */
  datatype Directive = Field(kind: FieldKind) | Whitespace | Literal(c: char)

  /** `%b`, `%d`, `%Y`, `%m`, `%H`, `%M`, `%S`; any other letter is a bad directive. */
  function KindOf(c: char): Option<FieldKind> {
    if c == 'b' then Some(MonthAbbr) else if c == 'd' then Some(Day)
    else if c == 'Y' then Some(Year) else if c == 'm' then Some(MonthNum)
    else if c == 'H' then Some(Hour) else if c == 'M' then Some(Minute)
    else if c == 'S' then Some(Second) else None
  }

  /** A format string as its directives; a run of whitespace becomes one `Whitespace`. */
  function Compile(fmt: string): Option<seq<Directive>>
    decreases |fmt|
  {
    if fmt == [] then Some([])
    else if fmt[0] == '%' then
      if |fmt| < 2 then None
      else
        var k :- KindOf(fmt[1]);
        var rest :- Compile(fmt[2..]);
        Some([Field(k)] + rest)
    else if IsSpace(fmt[0]) then
      var rest :- Compile(LStrip(fmt));
      Some([Whitespace] + rest)
    else
      var rest :- Compile(fmt[1..]);
      Some([Literal(fmt[0])] + rest)
  }

  /** The date-time fields `strptime` fills in, starting from its defaults. */
  datatype Fields = Fields(year: int, month: int, day: int, hour: int, minute: int, second: int)

  const Defaults: Fields := Fields(1900, 1, 1, 0, 0, 0)

  function SetField(f: Fields, k: FieldKind, v: int): Fields {
    match k
    case MonthAbbr => f.(month := v)
    case MonthNum => f.(month := v)
    case Day => f.(day := v)
    case Year => f.(year := v)
    case Hour => f.(hour := v)
    case Minute => f.(minute := v)
    case Second => f.(second := v)
  }

  // ----- Reading the text -----

  /** The length of the run of ASCII digits at the start of `s`. */
  function DigitPrefix(s: string): (n: nat)
    ensures n <= |s|
    ensures forall i :: 0 <= i < n ==> IsDigit(s[i])
    ensures forall c :: c in s[..n] ==> IsDigit(c)
    ensures n < |s| ==> !IsDigit(s[n])
  {
    if s != [] && IsDigit(s[0]) then
      var n := 1 + DigitPrefix(s[1..]);
      assert s[..n] == [s[0]] + s[1..][..n - 1];
      n
    else 0
  }

  /** The length of the run of whitespace at the start of `s`. */
  function SpacePrefix(s: string): (n: nat)
    ensures n <= |s|
    ensures forall i :: 0 <= i < n ==> IsSpace(s[i])
    ensures n < |s| ==> !IsSpace(s[n])
  {
    if s != [] && IsSpace(s[0]) then 1 + SpacePrefix(s[1..]) else 0
  }

  /** A numeric field of `lo..hi` digits: its value and what follows it. */
  function DigitField(s: string, lo: nat, hi: nat): Option<(int, string)> {
    var n := DigitPrefix(s);
    if lo <= n <= hi then Some((DigitsValue(s[..n]), s[n..])) else None
  }

  /** The month number of a lower-cased abbreviation, 0 when it names no month. */
  function MonthNumber(w: string): (m: int)
    ensures 0 <= m <= 12
    ensures m > 0 ==> MonthAbbrevs[m - 1] == w
    ensures m == 0 ==> w !in MonthAbbrevs
  {
    if w == "jan" then 1 else if w == "feb" then 2 else if w == "mar" then 3
    else if w == "apr" then 4 else if w == "may" then 5 else if w == "jun" then 6
    else if w == "jul" then 7 else if w == "aug" then 8 else if w == "sep" then 9
    else if w == "oct" then 10 else if w == "nov" then 11 else if w == "dec" then 12
    else 0
  }

  /** One field at the start of `s`: its value and what follows it. */
  function ReadField(k: FieldKind, s: string): Option<(int, string)> {
    match k
    case MonthAbbr =>
      if |s| < 3 then None
      else
        var m := MonthNumber(AsciiLower(s[..3]));
        if m == 0 then None else Some((m, s[3..]))
    case Day =>
      if |s| >= 2 && s[0] == ' ' && '1' <= s[1] <= '9' then Some((s[1] as int - '0' as int, s[2..]))
      else DigitField(s, 1, 2)
    case Year => DigitField(s, 4, 4)
    case _ => DigitField(s, 1, 2)
  }

  /** Reads the directives `ds` from the start of `s`: the text left over and the fields set. */
  function Consume(s: string, ds: seq<Directive>, acc: Fields): Option<(string, Fields)> {
    if ds == [] then Some((s, acc))
    else
      match ds[0]
      case Whitespace =>
        var n := SpacePrefix(s);
        if n == 0 then None else Consume(s[n..], ds[1..], acc)
      case Literal(c) =>
        if s != [] && s[0] == c then Consume(s[1..], ds[1..], acc) else None
      case Field(k) =>
        var p :- ReadField(k, s);
        Consume(p.1, ds[1..], SetField(acc, k, p.0))
  }

  /** The date-time when `datetime(...)` accepts the fields, otherwise the error it raises. */
  function Checked(f: Fields): (r: Option<DateTime>)
    ensures r.Some? <==> ValidDateTime(DateTime(f.year, f.month, f.day, f.hour, f.minute, f.second))
    ensures r.Some? ==> r.value == DateTime(f.year, f.month, f.day, f.hour, f.minute, f.second)
  {
    var t := DateTime(f.year, f.month, f.day, f.hour, f.minute, f.second);
    if ValidDateTime(t) then Some(t) else None
  }

  /** `datetime.strptime(s, fmt)`, with `None` for the `ValueError` it raises. */
  function Strptime(s: string, fmt: string): (r: Option<DateTime>)
    ensures r.Some? ==> ValidDateTime(r.value)
  {
    var ds :- Compile(fmt);
    var p :- Consume(s, ds, Defaults);
    if p.0 == [] then Checked(p.1) else None
  }

  /** The first format of `fs` that parses `s`. */
  function FirstMatch(s: string, fs: seq<string>): (r: Option<DateTime>)
    ensures r.Some? ==> exists i :: 0 <= i < |fs| && Strptime(s, fs[i]) == r
    ensures r.None? ==> forall i :: 0 <= i < |fs| ==> Strptime(s, fs[i]).None?
  {
    if fs == [] then None
    else if Strptime(s, fs[0]).Some? then Strptime(s, fs[0])
    else FirstMatch(s, fs[1..])
  }

  /**
    What `parse_history_timestamp(ts)` returns: `None` for a value that is not a
    string, otherwise the first format that parses the cleaned text.
  */
  function ParseTimestamp(v: Value): (r: Option<DateTime>)
    ensures !v.Text? ==> r.None?
    ensures r.Some? ==> ValidDateTime(r.value)
  {
    match v
    case Text(s) => FirstMatch(Clean(s), Formats)
    case _ => None
  }

  // ----- The function as the source writes it -----

  /** The clean-up of `parse_history_timestamp`, one statement per step. */
  method CleanTimestamp(raw: string) returns (ts: string)
    ensures ts == Clean(raw)
  {
    ts := Strip(raw);
    if EndsWith(ts, "+0") {
      ts := Strip(ts[..|ts| - 2]);
    }
    ts := ReplaceAll(ts, "  ", " ");
    if EndsWith(ts, ":") {
      ts := ts[..|ts| - 1];
    }
  }

  /** The loop over the formats: the first one `strptime` accepts gives the result. */
  method TryFormats(ts: string) returns (r: Option<DateTime>)
    ensures r == FirstMatch(ts, Formats)
  {
    for k := 0 to |Formats|
      invariant forall j :: 0 <= j < k ==> Strptime(ts, Formats[j]).None?
    {
      var t := Strptime(ts, Formats[k]);
      if t.Some? {
        FirstMatchAt(ts, Formats, k);
        return t;
      }
    }
    return None;
  }

  /** `parse_history_timestamp`: clean the text, then try the formats in order. */
  method ParseHistoryTimestamp(v: Value) returns (r: Option<DateTime>)
    ensures r == ParseTimestamp(v)
  {
    if !v.Text? {
      return None;
    }
    var ts := CleanTimestamp(v.s);
    r := TryFormats(ts);
  }

  /** The first format that parses is the one `FirstMatch` picks. */
  lemma {:induction false} FirstMatchAt(s: string, fs: seq<string>, k: int)
    requires 0 <= k < |fs|
    requires forall j :: 0 <= j < k ==> Strptime(s, fs[j]).None?
    requires Strptime(s, fs[k]).Some?
    ensures FirstMatch(s, fs) == Strptime(s, fs[k])
  {
    if k > 0 {
      FirstMatchAt(s, fs[1..], k - 1);
    }
  }
}
