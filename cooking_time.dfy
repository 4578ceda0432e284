/**
 * The `cookingTime` pipe: a number of minutes, given as a number or as a
 * string, rendered as `"N min"`, `"Hh"` or `"Hh Mmin"`.
 */
module CookingTime {
  import opened Wrappers
  import opened Text

  /** What a template can hand the pipe: `string | number | null | undefined`, numbers being whole minutes. */
  datatype PipeValue = Null | Undefined | Num(n: int) | Str(s: string)

  /** JavaScript falsiness on these values: `null`, `undefined`, `0` and `''`. */
  predicate IsFalsy(value: PipeValue)
  {
    value.Null? || value.Undefined? || value == Num(0) || value == Str("")
  }

  /**
   * The rendering of a whole number of minutes: below an hour the minutes
   * themselves, otherwise whole hours and, when there is a remainder, the
   * minutes left over.
   */
  function FormatMinutes(minutes: int): (r: string)
    ensures minutes < 60 ==> r == IntToString(minutes) + " min"
    ensures minutes >= 60 ==>
      exists hours: nat, mins: nat ::
        hours * 60 + mins == minutes && mins < 60 &&
        r == NatToString(hours) + (if mins == 0 then "h" else "h " + NatToString(mins) + "min")
  {
    if minutes < 60 then IntToString(minutes) + " min"
    else
      var hours: nat := minutes / 60;
      var mins: nat := minutes % 60;
      var r := if mins != 0 then NatToString(hours) + "h " + NatToString(mins) + "min"
               else NatToString(hours) + "h";
      assert hours * 60 + mins == minutes && mins < 60 &&
             r == NatToString(hours) + (if mins == 0 then "h" else "h " + NatToString(mins) + "min");
      r
  }

  /**
   * `CookingTimePipe.transform`: falsy values become `'-'`; a string is read
   * with `parseInt(value, 10)` and returned unchanged when it holds no
   * number; otherwise the minutes are rendered.
   */
  function Transform(value: PipeValue): (r: string)
    ensures IsFalsy(value) ==> r == "-"
    ensures value.Str? && value.s != "" && ParseInt(value.s).None? ==> r == value.s
  {
    if IsFalsy(value) then "-"
    else
      match value
      case Str(s) =>
        (match ParseInt(s)
         case None => s
         case Some(minutes) => FormatMinutes(minutes))
      case Num(minutes) => FormatMinutes(minutes)
      case _ => "-"
  }

  /**
   * An independent reader for the three shapes the pipe produces: `"N min"`,
   * `"Hh"` and `"Hh Mmin"`, giving back the number of minutes.
   */
  function ReadDuration(text: string): Option<int>
  {
    match LeadingInt(text)
    case None => None
    case Some((n, rest)) => ReadUnit(n, rest)
  }

  /** The unit that follows the leading number `n`. */
  function ReadUnit(n: int, rest: string): Option<int>
  {
    if rest == " min" then Some(n)
    else if rest == "h" then Some(n * 60)
    else if |rest| > 2 && rest[0] == 'h' && rest[1] == ' ' then ReadMinutesAfterHours(n, rest[2..])
    else None
  }

  /** The `"Mmin"` part after `n` hours. */
  function ReadMinutesAfterHours(hours: int, tail: string): Option<int>
  {
    match LeadingInt(tail)
    case Some((m, unit)) => if unit == "min" then Some(hours * 60 + m) else None
    case None => None
  }

  lemma ReadMinutesShape(n: int)
    ensures ReadDuration(IntToString(n) + " min") == Some(n)
  {
    LeadingIntOfRendering(n, " min");
  }

  lemma ReadHoursShape(hours: int)
    ensures ReadDuration(IntToString(hours) + "h") == Some(hours * 60)
  {
    LeadingIntOfRendering(hours, "h");
  }

  lemma ReadMinutesAfterHoursShape(hours: int, mins: nat)
    ensures ReadMinutesAfterHours(hours, NatToString(mins) + "min") == Some(hours * 60 + mins)
  {
    assert IntToString(mins) == NatToString(mins);
    LeadingIntOfRendering(mins, "min");
  }

  lemma ReadUnitHoursMinutes(hours: int, digits: string, mins: int)
    requires ReadMinutesAfterHours(hours, digits + "min") == Some(hours * 60 + mins)
    ensures ReadUnit(hours, "h " + digits + "min") == Some(hours * 60 + mins)
  {
    var rest := "h " + digits + "min";
    assert rest[0] == 'h' && rest[1] == ' ' && |rest| > 2;
    assert rest != " min" && rest != "h";
    assert rest[2..] == digits + "min";
  }

  lemma ReadHoursMinutesShape(hours: int, mins: nat)
    ensures ReadDuration(IntToString(hours) + "h " + NatToString(mins) + "min") == Some(hours * 60 + mins)
  {
    var digits := NatToString(mins);
    var rest := "h " + digits + "min";
    var text := IntToString(hours) + "h " + digits + "min";
    assert text == IntToString(hours) + rest;
    LeadingIntOfRendering(hours, rest);
    ReadMinutesAfterHoursShape(hours, mins);
    ReadUnitHoursMinutes(hours, digits, mins);
  }

  /** Reading the rendering back gives the minutes: hours * 60 + minutes left over is the input. */
  lemma FormatMinutesReadsBack(minutes: int)
    ensures ReadDuration(FormatMinutes(minutes)) == Some(minutes)
  {
    if minutes < 60 {
      ReadMinutesShape(minutes);
    } else {
      var hours := minutes / 60;
      var mins := minutes % 60;
      assert hours * 60 + mins == minutes;
      assert IntToString(hours) == NatToString(hours);
      if mins == 0 {
        assert FormatMinutes(minutes) == IntToString(hours) + "h";
        ReadHoursShape(hours);
      } else {
        assert FormatMinutes(minutes) == IntToString(hours) + "h " + NatToString(mins) + "min";
        ReadHoursMinutesShape(hours, mins);
      }
    }
  }

  /** Every non-falsy number of minutes can be read back from what the pipe shows. */
  lemma TransformNumberReadsBack(minutes: int)
    requires minutes != 0
    ensures ReadDuration(Transform(Num(minutes))) == Some(minutes)
  {
    FormatMinutesReadsBack(minutes);
  }

  /** A string that `parseInt` reads as `m` is shown as `m` minutes, whatever follows the digits. */
  lemma TransformStringReadsBack(s: string, minutes: int)
    requires ParseInt(s) == Some(minutes)
    ensures ReadDuration(Transform(Str(s))) == Some(minutes)
  {
    assert s != "";
    FormatMinutesReadsBack(minutes);
  }

  /** A number and its decimal string give the same output, zero excepted. */
  lemma NumericStringAgrees(n: int)
    requires n != 0
    ensures Transform(Str(IntToString(n))) == Transform(Num(n))
  {
    var s := IntToString(n);
    ParseIntOfNumeral(n);
    assert !IsFalsy(Str(s)) && !IsFalsy(Num(n));
    assert Transform(Str(s)) == FormatMinutes(n);
  }

  /** `0` is falsy and shows `'-'`, while the string `'0'` is not falsy and shows `'0 min'`. */
  lemma ZeroStringIsShown()
    ensures Transform(Num(0)) == "-"
    ensures Transform(Str("0")) == "0 min"
  {
    ParseIntOfNumeral(0);
    assert IntToString(0) == "0";
    assert FormatMinutes(0) == "0 min";
  }
}
