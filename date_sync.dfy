/**
 * Date synchronisation: the fields parsed from the cloud's date header are
 * moved from UTC to UTC+8 and joined into the `Y-M-D H:M:S` argument of
 * `date -s`. Parsing the header and running the command are outside the model.
 */
module DateSync {
  import opened Common

  const Timezone := 8

  /** The fields of a parsed date, as the date parser returns them. */
  datatype DateFields = DateFields(year: nat, month: nat, date: nat, hours: nat, minutes: nat, seconds: nat)

  /**
   * The timezone shift: eight hours are added; when that reaches 24 the day
   * of month is incremented, with no month or year carry.
   */
  function ShiftTimezone(d: DateFields): (r: DateFields)
    ensures r.date * 24 + r.hours == d.date * 24 + d.hours + Timezone
    ensures r.date == d.date + 1 <==> d.hours + Timezone >= 24
    ensures r.date == d.date || r.date == d.date + 1
    ensures d.hours < 24 ==> r.hours == (d.hours + Timezone) % 24
    ensures r.year == d.year && r.month == d.month && r.minutes == d.minutes && r.seconds == d.seconds
  {
    if d.hours + Timezone >= 24 then
      d.(date := d.date + 1, hours := d.hours + Timezone - 24)
    else
      d.(hours := d.hours + Timezone)
  }

  /** `[[year, month, date].join('-'), [hours, minutes, seconds].join(':')].join(' ')`, no padding. */
  function DateString(d: DateFields): string {
    NatToString(d.year) + "-" + NatToString(d.month) + "-" + NatToString(d.date) + " " +
    NatToString(d.hours) + ":" + NatToString(d.minutes) + ":" + NatToString(d.seconds)
  }

  /** The string handed to `date -s` for a parsed UTC date. */
  function SyncDateString(utc: DateFields): string {
    DateString(ShiftTimezone(utc))
  }

  /** Reads a number followed by the separator `sep`. */
  function ReadField(s: string, sep: char): Option<(nat, string)> {
    match ReadNat(s)
    case None => None
    case Some((n, rest)) => if rest != [] && rest[0] == sep then Some((n, rest[1..])) else None
  }

  /** Reads back a `Y-M-D H:M:S` string; the partner of `DateString`. */
  function ParseDateString(s: string): Option<DateFields> {
    match ReadField(s, '-')
    case None => None
    case Some((y, s1)) =>
      match ReadField(s1, '-')
      case None => None
      case Some((mo, s2)) =>
        match ReadField(s2, ' ')
        case None => None
        case Some((dd, s3)) =>
          match ReadField(s3, ':')
          case None => None
          case Some((h, s4)) =>
            match ReadField(s4, ':')
            case None => None
            case Some((mi, s5)) =>
              match ReadNat(s5)
              case None => None
              case Some((sec, rest)) => if rest == [] then Some(DateFields(y, mo, dd, h, mi, sec)) else None
  }

  lemma ReadFieldOf(n: nat, sep: char, rest: string)
    requires !IsDigit(sep)
    ensures ReadField(NatToString(n) + [sep] + rest, sep) == Some((n, rest))
  {
    var tail := [sep] + rest;
    ReadNatOfNatToString(n, tail);
    assert NatToString(n) + [sep] + rest == NatToString(n) + tail;
  }

  /** The date string is unambiguous: every field can be read back from it. */
  lemma {:induction false} ParseDateStringOfDateString(d: DateFields)
    ensures ParseDateString(DateString(d)) == Some(d)
  {
    var sec := NatToString(d.seconds);
    var s5 := sec;
    var s4 := NatToString(d.minutes) + ":" + s5;
    var s3 := NatToString(d.hours) + ":" + s4;
    var s2 := NatToString(d.date) + " " + s3;
    var s1 := NatToString(d.month) + "-" + s2;
    var s0 := NatToString(d.year) + "-" + s1;
    assert DateString(d) == s0;
    ReadFieldOf(d.year, '-', s1);
    ReadFieldOf(d.month, '-', s2);
    ReadFieldOf(d.date, ' ', s3);
    ReadFieldOf(d.hours, ':', s4);
    ReadFieldOf(d.minutes, ':', s5);
    ReadNatOfNatToString(d.seconds, []);
    assert sec + [] == sec;
  }

  /** What reaches `date -s` is the shifted date, field by field. */
  lemma SyncDateStringReadsBack(utc: DateFields)
    ensures ParseDateString(SyncDateString(utc)) == Some(ShiftTimezone(utc))
  {
    ParseDateStringOfDateString(ShiftTimezone(utc));
  }
}
