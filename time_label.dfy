/** `timeToHour` of the session controller: turns a display label such as
    "02:00 PM" into an hour of the day, through JavaScript's `split` and
    `parseInt`. */
module TimeLabel {
  import opened Common

  /** `s.split(sep)[1]`: the field after the first `sep`; absent when `sep` does not occur. */
  function SecondField(s: string, sep: char): Option<string> {
    var head := Before(s, sep);
    if |head| == |s| then None else Some(Before(s[|head| + 1..], sep))
  }

  /** White space that `parseInt` skips (the Unicode space separators beyond these are not modelled). */
  predicate IsJsSpace(c: char) {
    c == ' ' || c == '\t' || c == '\n' || c == '\r' || c == '\U{B}' || c == '\U{C}'
    || c == '\U{A0}' || c == '\U{FEFF}' || c == '\U{2028}' || c == '\U{2029}'
  }

  function TrimStart(s: string): string
  {
    if |s| > 0 && IsJsSpace(s[0]) then TrimStart(s[1..]) else s
  }

  function LeadingDigits(s: string): (r: string)
    ensures AllDigits(r)
  {
    if |s| > 0 && IsDigit(s[0]) then [s[0]] + LeadingDigits(s[1..]) else []
  }

  /** `parseInt(s, 10)`: leading white space, an optional sign, then the longest
      run of decimal digits; `None` stands for NaN (no digits at all). */
  function ParseInt(s: string): Option<int> {
    var t := TrimStart(s);
    if |t| > 0 && (t[0] == '+' || t[0] == '-') then
      var d := LeadingDigits(t[1..]);
      var v: int := DigitsValue(d);
      if d == [] then None else if t[0] == '-' then Some(-v) else Some(v)
    else
      ParseUnsigned(t)
  }

  /** The digits-only part of `parseInt`, after white space and sign. */
  function ParseUnsigned(t: string): Option<int> {
    var d := LeadingDigits(t);
    if d == [] then None else Some(DigitsValue(d))
  }

  /** `m.toUpperCase() === 'PM'`. */
  predicate IsPmLabel(m: string) {
    |m| == 2 && (m[0] == 'p' || m[0] == 'P') && (m[1] == 'm' || m[1] == 'M')
  }

  /** `timeToHour(text)`. A label that is missing, not a string, or empty
      gives 0; `None` in the result stands for NaN. The hour field "12" is
      read as "00" before a PM label adds 12; the final `parseInt` of a
      number is the number itself. */
  function TimeToHour(text: Option<string>): (h: Option<int>)
    ensures text.None? || text == Some("") ==> h == Some(0)
  {
    if text.None? || text.value == "" then Some(0)
    else HourOf(Before(Before(text.value, ' '), ':'), SecondField(text.value, ' '))
  }

  /** The hour from the hour field and the AM/PM field of a non-empty label. */
  function HourOf(field: string, modifier: Option<string>): Option<int> {
    ShiftPm(ParseInt(if field == "12" then "00" else field), IsPm(modifier))
  }

  /** `modifier && modifier.toUpperCase() === 'PM'`. */
  predicate IsPm(modifier: Option<string>) {
    modifier.Some? && modifier.value != "" && IsPmLabel(modifier.value)
  }

  /** Adding 12 for PM; NaN stays NaN. */
  function ShiftPm(v: Option<int>, pm: bool): Option<int> {
    match v
    case None => None
    case Some(x) => Some(if pm then x + 12 else x)
  }

  lemma Unfold(s: string)
    requires s != ""
    ensures TimeToHour(Some(s)) == HourOf(Before(Before(s, ' '), ':'), SecondField(s, ' '))
  {
  }

  lemma SecondFieldFirst(a: string, b: string, sep: char)
    requires sep !in a
    ensures SecondField(a + [sep] + b, sep) == Some(Before(b, sep))
  {
    BeforeFirst(a, b, sep);
    var s := a + [sep] + b;
    assert s[|a| + 1..] == b;
  }

  lemma {:induction false} LeadingDigitsAll(d: string)
    requires AllDigits(d)
    ensures LeadingDigits(d) == d
  {
    if d != [] {
      LeadingDigitsAll(d[1..]);
    }
  }

  /** An unsigned run of digits parses to its value. */
  lemma ParseDigits(d: string)
    requires |d| > 0 && AllDigits(d)
    ensures ParseInt(d) == Some(DigitsValue(d))
  {
    assert IsDigit(d[0]);
    assert TrimStart(d) == d;
    LeadingDigitsAll(d);
    assert ParseUnsigned(d) == Some(DigitsValue(d));
  }

  /** How a well-formed "hh:mm XX" label splits: hour field, then modifier. */
  lemma SplitLabel(s: string, hs: string, mm: string, modifier: string)
    requires |hs| > 0 && AllDigits(hs) && ' ' !in mm && ' ' !in modifier
    requires s == hs + ":" + mm + " " + modifier
    ensures Before(Before(s, ' '), ':') == hs
    ensures SecondField(s, ' ') == Some(modifier)
  {
    var time := hs + ":" + mm;
    assert ' ' !in time by {
      forall i | 0 <= i < |time| ensures time[i] != ' ' {
        if i < |hs| { assert IsDigit(hs[i]); }
      }
    }
    assert s == time + [' '] + modifier;
    BeforeFirst(time, modifier, ' ');
    SecondFieldFirst(time, modifier, ' ');
    BeforeAbsent(modifier, ' ');
    assert ':' !in hs by {
      forall i | 0 <= i < |hs| ensures hs[i] != ':' { assert IsDigit(hs[i]); }
    }
    assert time == hs + [':'] + mm;
    BeforeFirst(hs, mm, ':');
  }

  lemma PmLabels()
    ensures IsPm(Some("PM")) && !IsPm(Some("AM"))
  {
  }

  lemma Regroup(a: string, c: char, b: string)
    ensures a + [c] + b == a + ([c] + b)
  {
  }

  /** A label whose hour field is not "12" reads that field as its value. */
  lemma PlainField(s: string, hs: string, mm: string, modifier: string)
    requires |hs| > 0 && AllDigits(hs) && hs != "12" && ' ' !in mm && ' ' !in modifier
    requires s == hs + ":" + mm + " " + modifier
    ensures TimeToHour(Some(s)) == ShiftPm(Some(DigitsValue(hs)), IsPm(Some(modifier)))
  {
    Unfold(s);
    SplitLabel(s, hs, mm, modifier);
    ParseDigits(hs);
  }

  /** "h:mm PM" with an hour field other than "12" gives h + 12. */
  lemma PmHour(hs: string, mm: string)
    requires |hs| > 0 && AllDigits(hs) && hs != "12" && ' ' !in mm
    ensures TimeToHour(Some(hs + ":" + mm + " PM")) == Some(DigitsValue(hs) + 12)
  {
    assert hs + ":" + mm + " PM" == hs + ":" + mm + " " + "PM" by {
      Regroup(hs + ":" + mm, ' ', "PM");
    }
    PmLabels();
    PmField(hs, mm, "PM");
  }

  /** Any PM modifier shifts a plain hour field by 12. */
  lemma PmField(hs: string, mm: string, modifier: string)
    requires |hs| > 0 && AllDigits(hs) && hs != "12" && ' ' !in mm && ' ' !in modifier
    requires IsPm(Some(modifier))
    ensures TimeToHour(Some(hs + ":" + mm + " " + modifier)) == Some(DigitsValue(hs) + 12)
  {
    PlainField(hs + ":" + mm + " " + modifier, hs, mm, modifier);
  }

  /** "h:mm AM" with an hour field other than "12" gives h. */
  lemma AmHour(hs: string, mm: string)
    requires |hs| > 0 && AllDigits(hs) && hs != "12" && ' ' !in mm
    ensures TimeToHour(Some(hs + ":" + mm + " AM")) == Some(DigitsValue(hs))
  {
    var s := hs + ":" + mm + " AM";
    Regroup(hs + ":" + mm, ' ', "AM");
    PlainField(s, hs, mm, "AM");
    PmLabels();
  }

  /** "12:mm PM" is noon: 12. */
  lemma NoonHour(mm: string)
    requires ' ' !in mm
    ensures TimeToHour(Some("12:" + mm + " PM")) == Some(12)
  {
    var s := "12:" + mm + " PM";
    assert "12:" + mm == "12" + ":" + mm;
    Regroup("12:" + mm, ' ', "PM");
    TwelveField(s, mm, "PM");
    PmLabels();
  }

  /** "12:mm AM" is midnight: 0. */
  lemma MidnightHour(mm: string)
    requires ' ' !in mm
    ensures TimeToHour(Some("12:" + mm + " AM")) == Some(0)
  {
    var s := "12:" + mm + " AM";
    assert "12:" + mm == "12" + ":" + mm;
    Regroup("12:" + mm, ' ', "AM");
    TwelveField(s, mm, "AM");
    PmLabels();
  }

  lemma ParseZeroZero()
    ensures ParseInt("00") == Some(0)
  {
    assert AllDigits("00") by {
      forall i | 0 <= i < 2 ensures IsDigit("00"[i]) { }
    }
    ParseDigits("00");
    assert DigitsValue("00") == 0;
  }

  /** An hour field of "12" is read as 0 before the PM shift. */
  lemma TwelveField(s: string, mm: string, modifier: string)
    requires ' ' !in mm && ' ' !in modifier
    requires s == "12" + ":" + mm + " " + modifier
    ensures TimeToHour(Some(s)) == ShiftPm(Some(0), IsPm(Some(modifier)))
  {
    ParseZeroZero();
    Unfold(s);
    assert AllDigits("12") by {
      forall i | 0 <= i < 2 ensures IsDigit("12"[i]) { }
    }
    SplitLabel(s, "12", mm, modifier);
  }

  /** For the afternoon clock hours 1 to 11 written without padding, a PM label gives h + 12. */
  lemma AfternoonHour(h: nat, mm: string)
    requires 1 <= h <= 11 && ' ' !in mm
    ensures TimeToHour(Some(NatToString(h) + ":" + mm + " PM")) == Some(h + 12)
  {
    NatToStringValue(h);
    PmHour(NatToString(h), mm);
  }
}
