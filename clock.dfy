/** `get_datetime_now`: the current time rendered with
    `strftime("%Y-%m-%d %H:%M:%S %f")` and split at the spaces. The clock
    reading itself is an input. */
module Clock {
  import opened Text

  /** A reading of the wall clock, as `datetime.datetime.now()` returns it. */
  datatype DateTime = DateTime(year: nat, month: nat, day: nat,
                               hour: nat, minute: nat, second: nat, microsecond: nat)

  /** `%Y-%m-%d` */
  function DateText(t: DateTime): string
  {
    ZeroPad(t.year, 4) + "-" + ZeroPad(t.month, 2) + "-" + ZeroPad(t.day, 2)
  }

  /** `%H:%M:%S` */
  function TimeText(t: DateTime): string
  {
    ZeroPad(t.hour, 2) + ":" + ZeroPad(t.minute, 2) + ":" + ZeroPad(t.second, 2)
  }

  /** `%f` */
  function MicrosecondText(t: DateTime): string
  {
    ZeroPad(t.microsecond, 6)
  }

  /** The field ranges `datetime` enforces on a reading. */
  predicate InRange(t: DateTime)
  {
    1 <= t.year <= 9999 && 1 <= t.month <= 12 && 1 <= t.day <= 31 &&
    t.hour < 24 && t.minute < 60 && t.second < 60 && t.microsecond < 1000000
  }

  /** `now.strftime("%Y-%m-%d %H:%M:%S %f")`: for a valid reading, 26
      characters with the two spaces at positions 10 and 19. */
  function Strftime(t: DateTime): (s: string)
    ensures InRange(t) ==> |s| == 26 && s[10] == ' ' && s[19] == ' '
  {
    var s := DateText(t) + " " + TimeText(t) + " " + MicrosecondText(t);
    if InRange(t) then
      FieldWidths(t);
      SeparatorPositions(DateText(t), TimeText(t), MicrosecondText(t), ' ');
      s
    else s
  }

  /** Where the two separators sit in three texts joined by them. */
  lemma SeparatorPositions(a: string, b: string, c: string, sep: char)
    ensures var s := a + [sep] + b + [sep] + c;
            |s| == |a| + |b| + |c| + 2 && s[|a|] == sep && s[|a| + 1 + |b|] == sep
  {
  }

  /** Every field of a valid reading fills its strftime width exactly. */
  lemma FieldWidths(t: DateTime)
    requires InRange(t)
    ensures |DateText(t)| == 10 && |TimeText(t)| == 8 && |MicrosecondText(t)| == 6
  {
    assert Pow10(2) == 100 by {
      assert Pow10(1) == 10;
    }
    assert Pow10(4) == 10000 by {
      assert Pow10(3) == 1000;
    }
    assert Pow10(6) == 1000000 by {
      assert Pow10(5) == 100000;
    }
    ZeroPadWidth(t.year, 4);
    ZeroPadWidth(t.month, 2);
    ZeroPadWidth(t.day, 2);
    ZeroPadWidth(t.hour, 2);
    ZeroPadWidth(t.minute, 2);
    ZeroPadWidth(t.second, 2);
    ZeroPadWidth(t.microsecond, 6);
  }

  /** `get_datetime_now()`: always three parts, the date, the time of day and
      the microseconds, because none of the rendered fields holds a space. */
  function GetDatetimeNow(now: DateTime): (parts: seq<string>)
    ensures parts == [DateText(now), TimeText(now), MicrosecondText(now)]
  {
    StrftimeSplits(now);
    Split(Strftime(now), ' ')
  }

  lemma NoSpaceInDigits(s: string)
    requires AllDigits(s)
    ensures ' ' !in s
  {
  }

  lemma StrftimeSplits(t: DateTime)
    ensures Split(Strftime(t), ' ') == [DateText(t), TimeText(t), MicrosecondText(t)]
  {
    DateTextHasNoSpace(t);
    TimeTextHasNoSpace(t);
    NoSpaceInDigits(MicrosecondText(t));
    SplitThree(DateText(t), TimeText(t), MicrosecondText(t), ' ');
  }

  lemma DateTextHasNoSpace(t: DateTime)
    ensures ' ' !in DateText(t)
  {
    NoSpaceInDigits(ZeroPad(t.year, 4));
    NoSpaceInDigits(ZeroPad(t.month, 2));
    NoSpaceInDigits(ZeroPad(t.day, 2));
  }

  lemma TimeTextHasNoSpace(t: DateTime)
    ensures ' ' !in TimeText(t)
  {
    NoSpaceInDigits(ZeroPad(t.hour, 2));
    NoSpaceInDigits(ZeroPad(t.minute, 2));
    NoSpaceInDigits(ZeroPad(t.second, 2));
  }

  /** A sample row as `select_volt_value` and `select_current_value` store
      it: the three timestamp parts followed by the raw response. */
  function Sample(now: DateTime, raw: string): (row: seq<string>)
    ensures |row| == 4 && row[3] == raw
    ensures row[..3] == [DateText(now), TimeText(now), MicrosecondText(now)]
  {
    GetDatetimeNow(now) + [raw]
  }
}
