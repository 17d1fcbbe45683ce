/**
 * AuditLogger: an append-only log of agent events. Each `log` call adds one JSON line to the
 * log file, which is only ever opened for appending; here the file is the sequence of its
 * entries and the clock reading `datetime.utcnow()` is passed in.
 */
module Audit {
  import opened Wrappers
  import opened Text

  /** A reading of a naive `datetime`. */
  datatype DateTime = DateTime(year: nat, month: nat, day: nat, hour: nat, minute: nat, second: nat, microsecond: nat)

  predicate ValidDateTime(d: DateTime)
  {
    && 1 <= d.year <= 9999 && 1 <= d.month <= 12 && 1 <= d.day <= 31
    && d.hour < 24 && d.minute < 60 && d.second < 60 && d.microsecond < 1000000
  }

  /** The date: YYYY-MM-DD. */
  function DatePart(d: DateTime): string
  {
    Pad(d.year, 4) + "-" + Pad(d.month, 2) + "-" + Pad(d.day, 2)
  }

  /** The time of day: HH:MM:SS. */
  function TimePart(d: DateTime): string
  {
    Pad(d.hour, 2) + ":" + Pad(d.minute, 2) + ":" + Pad(d.second, 2)
  }

  /** The fraction of a second, shown only when it is not zero. */
  function Fraction(d: DateTime): string
  {
    if d.microsecond == 0 then "" else "." + Pad(d.microsecond, 6)
  }

  /** `d.isoformat()` */
  function IsoFormat(d: DateTime): string
  {
    DatePart(d) + "T" + TimePart(d) + Fraction(d)
  }

  /** `datetime.utcnow().isoformat() + "Z"` */
  function Timestamp(d: DateTime): string
  {
    IsoFormat(d) + "Z"
  }

  lemma PadFields(d: DateTime)
    requires ValidDateTime(d)
    ensures |Pad(d.year, 4)| == 4 && DigitsValue(Pad(d.year, 4)) == d.year
    ensures |Pad(d.month, 2)| == 2 && DigitsValue(Pad(d.month, 2)) == d.month
    ensures |Pad(d.day, 2)| == 2 && DigitsValue(Pad(d.day, 2)) == d.day
    ensures |Pad(d.hour, 2)| == 2 && DigitsValue(Pad(d.hour, 2)) == d.hour
    ensures |Pad(d.minute, 2)| == 2 && DigitsValue(Pad(d.minute, 2)) == d.minute
    ensures |Pad(d.second, 2)| == 2 && DigitsValue(Pad(d.second, 2)) == d.second
    ensures |Pad(d.microsecond, 6)| == 6 && DigitsValue(Pad(d.microsecond, 6)) == d.microsecond
  {
    assert Pow10(2) == 100;
    assert Pow10(4) == 10000;
    assert Pow10(6) == 1000000;
    PadRoundTrip(d.year, 4);
    PadRoundTrip(d.month, 2);
    PadRoundTrip(d.day, 2);
    PadRoundTrip(d.hour, 2);
    PadRoundTrip(d.minute, 2);
    PadRoundTrip(d.second, 2);
    PadRoundTrip(d.microsecond, 6);
  }

  /** YYYY-MM-DD: ten characters, and each field reads back as its number. */
  lemma DateFields(d: DateTime)
    requires ValidDateTime(d)
    ensures var s := DatePart(d);
      && |s| == 10 && s[4] == '-' && s[7] == '-'
      && AllDigits(s[..4]) && DigitsValue(s[..4]) == d.year
      && AllDigits(s[5..7]) && DigitsValue(s[5..7]) == d.month
      && AllDigits(s[8..]) && DigitsValue(s[8..]) == d.day
  {
    PadFields(d);
    ThreeFields(Pad(d.year, 4), "-", Pad(d.month, 2), Pad(d.day, 2));
  }

  /** HH:MM:SS: eight characters, and each field reads back as its number. */
  lemma TimeFields(d: DateTime)
    requires ValidDateTime(d)
    ensures var s := TimePart(d);
      && |s| == 8 && s[2] == ':' && s[5] == ':'
      && AllDigits(s[..2]) && DigitsValue(s[..2]) == d.hour
      && AllDigits(s[3..5]) && DigitsValue(s[3..5]) == d.minute
      && AllDigits(s[6..]) && DigitsValue(s[6..]) == d.second
  {
    PadFields(d);
    ThreeFields(Pad(d.hour, 2), ":", Pad(d.minute, 2), Pad(d.second, 2));
  }

  /** The fraction is empty for a whole second, else a dot and six digits that read back as the microseconds. */
  lemma FractionFields(d: DateTime)
    requires ValidDateTime(d)
    ensures var s := Fraction(d);
      && (d.microsecond == 0 <==> s == "")
      && (d.microsecond != 0 ==> |s| == 7 && s[0] == '.' && AllDigits(s[1..]) && DigitsValue(s[1..]) == d.microsecond)
  {
    PadFields(d);
    if d.microsecond != 0 {
      assert Fraction(d)[1..] == Pad(d.microsecond, 6);
    }
  }

  /**
   * The timestamp is the date, "T", the time, the fraction and a closing "Z": 20 characters
   * for a whole second, 27 otherwise.
   */
  lemma TimestampLayout(d: DateTime)
    requires ValidDateTime(d)
    ensures var t := Timestamp(d);
      && |t| == (if d.microsecond == 0 then 20 else 27)
      && t[..10] == DatePart(d) && t[10] == 'T' && t[11..19] == TimePart(d)
      && t[19..|t| - 1] == Fraction(d) && t[|t| - 1] == 'Z'
  {
    DateFields(d);
    TimeFields(d);
    FractionFields(d);
    ConcatSlices4(DatePart(d), "T", TimePart(d), Fraction(d));
  }

  /** Different instants never share a timestamp. */
  lemma TimestampInjective(d1: DateTime, d2: DateTime)
    requires ValidDateTime(d1) && ValidDateTime(d2)
    requires Timestamp(d1) == Timestamp(d2)
    ensures d1 == d2
  {
    TimestampLayout(d1);
    TimestampLayout(d2);
    DateFields(d1);
    DateFields(d2);
    TimeFields(d1);
    TimeFields(d2);
    FractionFields(d1);
    FractionFields(d2);
    assert DatePart(d1) == DatePart(d2) && TimePart(d1) == TimePart(d2) && Fraction(d1) == Fraction(d2);
  }

  /**
   * One line of the log: its event, the clock reading it was stamped with, and its metadata.
   * The line holds the reading as the text Stamp gives.
   */
  datatype Entry = Entry(event: string, at: DateTime, metadata: map<string, string>)

  /** The "timestamp" field of an entry's line. */
  function Stamp(e: Entry): string
  {
    Timestamp(e.at)
  }

  const DefaultLogPath: string := "audit.jsonl"

  class AuditLogger {
    /** Where the log is written: `os.getenv("AUDIT_LOG_PATH", "audit.jsonl")`. */
    const logFile: string
    /** The entries of the log file, oldest first. */
    var entries: seq<Entry>

    /** `existing` is what the file already holds; the logger never reads or rewrites it. */
    constructor (auditLogPath: Option<string>, existing: seq<Entry>)
      ensures logFile == auditLogPath.GetOr(DefaultLogPath)
      ensures entries == existing
    {
      logFile := auditLogPath.GetOr(DefaultLogPath);
      entries := existing;
    }

    /** log: appends exactly one entry, with the given event and metadata, stamped with `now`. */
    method Log(event: string, metadata: map<string, string>, now: DateTime)
      modifies this
      ensures entries == old(entries) + [Entry(event, now, metadata)]
    {
      entries := entries + [Entry(event, now, metadata)];
    }
  }
}
