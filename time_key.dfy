/** The `HH:MM` time keys of the bot: the validator applied to a user's
    answer, its reading as an hour and a minute, and the key the minute tick
    cuts out of the ISO-8601 timestamp of the current instant (UTC). */
module TimeKey {

  predicate IsDigit(c: char) {
    '0' <= c <= '9'
  }

  /** The test `/^\d{2}:\d{2}$/`. In a JavaScript regular expression without
      the `u` and `m` flags, `\d` is exactly `[0-9]` and `$` matches only at
      the end of the input, so the whole text is five characters. No range
      check is made on the hour or the minute. */
  predicate IsTimeKey(s: string) {
    && |s| == 5
    && IsDigit(s[0]) && IsDigit(s[1])
    && s[2] == ':'
    && IsDigit(s[3]) && IsDigit(s[4])
  }

  /** A time of day as two numbers, read from or written as `HH:MM`. */
  datatype Clock = Clock(hour: nat, minute: nat)

  predicate InRange(t: Clock) {
    t.hour < 24 && t.minute < 60
  }

  function DigitValue(c: char): (n: nat)
    requires IsDigit(c)
    ensures n < 10
  {
    c as int - '0' as int
  }

  function DigitChar(n: nat): (c: char)
    requires n < 10
    ensures IsDigit(c) && DigitValue(c) == n
  {
    ('0' as int + n) as char
  }

  /** Zero-padded decimal of width two (`padStart(2, '0')`). */
  function Pad2(n: nat): (s: string)
    requires n < 100
    ensures |s| == 2 && IsDigit(s[0]) && IsDigit(s[1])
    ensures DigitValue(s[0]) * 10 + DigitValue(s[1]) == n
  {
    [DigitChar(n / 10), DigitChar(n % 10)]
  }

  /** Zero-padded decimal of width three (the milliseconds). */
  function Pad3(n: nat): (s: string)
    requires n < 1000
    ensures |s| == 3 && forall i :: 0 <= i < 3 ==> IsDigit(s[i])
  {
    [DigitChar(n / 100)] + Pad2(n % 100)
  }

  /** Zero-padded decimal of width four (the year). */
  function Pad4(n: nat): (s: string)
    requires n < 10000
    ensures |s| == 4 && forall i :: 0 <= i < 4 ==> IsDigit(s[i])
  {
    Pad2(n / 100) + Pad2(n % 100)
  }

  /** Reads an accepted answer as hour and minute; both may exceed the
      clock's range, as in `99:99`. */
  function ParseTimeKey(s: string): (t: Clock)
    requires IsTimeKey(s)
    ensures t.hour < 100 && t.minute < 100
  {
    Clock(DigitValue(s[0]) * 10 + DigitValue(s[1]), DigitValue(s[3]) * 10 + DigitValue(s[4]))
  }

  function FormatTimeKey(t: Clock): (s: string)
    requires t.hour < 100 && t.minute < 100
    ensures IsTimeKey(s)
  {
    Pad2(t.hour) + ":" + Pad2(t.minute)
  }

  /** Writing a clock and reading it back gives the same clock. */
  lemma ParseFormat(t: Clock)
    requires t.hour < 100 && t.minute < 100
    ensures ParseTimeKey(FormatTimeKey(t)) == t
  {
  }

  /** Every accepted answer is the written form of the clock it is read as:
      the validator and the reader agree on exactly one `HH:MM` per answer. */
  lemma FormatParse(s: string)
    requires IsTimeKey(s)
    ensures FormatTimeKey(ParseTimeKey(s)) == s
  {
  }

  /** The validator's verdict on a valid time, an out-of-range time, a
      missing leading zero, a trailing space, no colon and a wrong separator. */
  lemma TimeKeyExamples()
    ensures IsTimeKey("08:30") && IsTimeKey("99:99")
    ensures !IsTimeKey("8:30") && !IsTimeKey("08:30 ") && !IsTimeKey("0830") && !IsTimeKey("08-30")
  {
  }

  /** An instant of the UTC calendar, as `Date.prototype.toISOString` lays it out. */
  datatype Instant = Instant(year: nat, month: nat, day: nat, hour: nat, minute: nat, second: nat, millis: nat)

  /** Instants whose ISO string has a four-digit year. */
  predicate ValidInstant(i: Instant) {
    && i.year < 10000
    && 1 <= i.month <= 12 && 1 <= i.day <= 31
    && i.hour < 24 && i.minute < 60 && i.second < 60 && i.millis < 1000
  }

  /** `YYYY-MM-DDTHH:MM:SS.sssZ` */
  function IsoString(i: Instant): (s: string)
    requires ValidInstant(i)
    ensures |s| == 24
  {
    Pad4(i.year) + "-" + Pad2(i.month) + "-" + Pad2(i.day) + "T"
      + Pad2(i.hour) + ":" + Pad2(i.minute) + ":" + Pad2(i.second) + "." + Pad3(i.millis) + "Z"
  }

  /** `now.toISOString().substring(11, 16)`: the key of the current minute,
      which is the hour and minute of the instant written as `HH:MM`. */
  function TickKey(i: Instant): (k: string)
    requires ValidInstant(i)
    ensures k == FormatTimeKey(Clock(i.hour, i.minute))
    ensures IsTimeKey(k) && ParseTimeKey(k) == Clock(i.hour, i.minute)
  {
    var s := IsoString(i);
    var head := Pad4(i.year) + "-" + Pad2(i.month) + "-" + Pad2(i.day) + "T";
    var tail := ":" + Pad2(i.second) + "." + Pad3(i.millis) + "Z";
    assert |head| == 11;
    assert s == head + (Pad2(i.hour) + ":" + Pad2(i.minute)) + tail;
    ParseFormat(Clock(i.hour, i.minute));
    s[11..16]
  }

  /** A stored time is ever the key of a tick exactly when its hour is below
      24 and its minute below 60: an accepted `99:99` is never due. */
  lemma DueAtSomeMinuteIff(t: string)
    requires IsTimeKey(t)
    ensures (exists i :: ValidInstant(i) && TickKey(i) == t) <==> InRange(ParseTimeKey(t))
  {
    var c := ParseTimeKey(t);
    if InRange(c) {
      var i := Instant(2000, 1, 1, c.hour, c.minute, 0, 0);
      FormatParse(t);
      assert ValidInstant(i) && TickKey(i) == t;
    }
  }
}
