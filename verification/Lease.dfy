/** The lease as it rides on a machine's own name, and the instant it is read back as.

    The instants and the parser are the `jiff` library's, which this repository calls and does not
    contain. Assumed of it: its range, that an RFC 3339 second of 60 reads as 59, and that a year
    below zero prints with a sign. */
module Lease {
  import opened Wrappers
  import opened Text
  import opened Calendar

  const NANOS := 1_000_000_000
  const FIRST_SECOND := -377_705_023_201
  const LAST_SECOND := 253_402_207_200

  predicate InRange(second: int) { FIRST_SECOND <= second <= LAST_SECOND }

  /** Nanoseconds since 1970-01-01T00:00:00Z. */
  type Timestamp = n: int | InRange(n / NANOS) witness 0

  /** The second an instant falls in. */
  function SecondOf(t: Timestamp): (s: int)
    ensures InRange(s)
    ensures s * NANOS <= t < (s + 1) * NANOS
  {
    t / NANOS
  }

  function AtSecond(s: int): (t: Timestamp)
    requires InRange(s)
    ensures SecondOf(t) == s
  {
    assert s * NANOS / NANOS == s;
    s * NANOS
  }

  /** An instant with its fraction of a second dropped. */
  function Truncated(t: Timestamp): (r: Timestamp)
    ensures r <= t < r + NANOS
    ensures SecondOf(r) == SecondOf(t)
  {
    AtSecond(SecondOf(t))
  }

  // ---- Civil time ----

  datatype Civil = Civil(date: Date, hour: int, minute: int, second: int)

  predicate ValidCivil(c: Civil) {
    ValidDate(c.date) && 0 <= c.hour < 24 && 0 <= c.minute < 60 && 0 <= c.second < 60
  }

  /** The day number of 1970-01-01. */
  const EPOCH_DAY := 719_528

  function CivilOf(s: int): (c: Civil)
    ensures ValidCivil(c)
  {
    OnClock(DateOf(s / 86_400 + EPOCH_DAY), s % 86_400)
  }

  /** A second of a day, on the clock. */
  function OnClock(date: Date, ofDay: int): (c: Civil)
    requires ValidDate(date) && 0 <= ofDay < 86_400
    ensures ValidCivil(c) && c.date == date
  {
    Civil(date, ofDay / 3600, ofDay / 60 % 60, ofDay % 60)
  }

  function OfDay(c: Civil): (n: int)
    requires ValidCivil(c)
    ensures 0 <= n < 86_400
  {
    c.hour * 3600 + c.minute * 60 + c.second
  }

  function SecondsOf(c: Civil): int
    requires ValidCivil(c)
  {
    (DayNumber(c.date) - EPOCH_DAY) * 86_400 + OfDay(c)
  }

  lemma OnClockOfDay(c: Civil)
    requires ValidCivil(c)
    ensures OnClock(c.date, OfDay(c)) == c
  {
    assert OfDay(c) / 60 == c.hour * 60 + c.minute;
  }

  lemma OfDayOnClock(date: Date, ofDay: int)
    requires ValidDate(date) && 0 <= ofDay < 86_400
    ensures OfDay(OnClock(date, ofDay)) == ofDay
  {
    assert ofDay / 60 / 60 == ofDay / 3600;
  }

  lemma SecondsOfCivilOf(s: int)
    ensures SecondsOf(CivilOf(s)) == s
  {
    var day := s / 86_400 + EPOCH_DAY;
    DayNumberOfDateOf(day);
    OfDayOnClock(DateOf(day), s % 86_400);
  }

  lemma CivilOfDayAndClock(day: int, ofDay: int)
    requires 0 <= ofDay < 86_400
    ensures CivilOf(day * 86_400 + ofDay) == OnClock(DateOf(day + EPOCH_DAY), ofDay)
  {
    hide DateOf, OnClock;
    DaySplits(day, ofDay);
  }

  lemma CivilOfSecondsOf(c: Civil)
    requires ValidCivil(c)
    ensures CivilOf(SecondsOf(c)) == c
  {
    hide DateOf, DayNumber, OnClock, OfDay, CivilOf;
    var n := DayNumber(c.date);
    CivilOfDayAndClock(n - EPOCH_DAY, OfDay(c));
    DateOfDayNumber(c.date);
    OnClockOfDay(c);
  }

  lemma EpochDayIsIn1970()
    ensures ValidDate(Date(1970, 1, 1)) && DayNumber(Date(1970, 1, 1)) == EPOCH_DAY
  {
    assert YearStart(1970) == EPOCH_DAY;
  }

  /** The clock these instants are counted on: second 0 is midnight of the first day of 1970. */
  lemma SecondZeroIs1970()
    ensures CivilOf(0) == Civil(Date(1970, 1, 1), 0, 0, 0)
  {
    hide DayNumber, DateOf;
    EpochDayIsIn1970();
    DateOfDayNumber(Date(1970, 1, 1));
  }

  lemma DaySplits(day: int, ofDay: int)
    requires 0 <= ofDay < 86_400
    ensures (day * 86_400 + ofDay) / 86_400 == day && (day * 86_400 + ofDay) % 86_400 == ofDay
  {
  }

  // ---- Printing and reading the stamp ----

  const EXPIRY_PREFIX := "lmp-exp-"

  function YearText(y: int): string {
    if 0 <= y then Padded(y, 4) else "-" + Padded(-y, 4)
  }

  function DateText(d: Date): string
    requires ValidDate(d)
  {
    YearText(d.year) + Padded(d.month, 2) + Padded(d.day, 2)
  }

  function ClockText(c: Civil): (r: string)
    requires ValidCivil(c)
    ensures |r| == 6 && AllDigits(r)
  {
    Padded(c.hour, 2) + Padded(c.minute, 2) + Padded(c.second, 2)
  }

  function Stamp(date: string, clock: string): string {
    EXPIRY_PREFIX + (date + "T" + clock + "Z")
  }

  /** The stamp of an instant: the prefix, its date and its clock in compact digits. */
  function ExpiryStamp(expiresAt: Timestamp): string {
    var c := CivilOf(SecondOf(expiresAt));
    Stamp(DateText(c.date), ClockText(c))
  }

  /** The library's parse of `YYYY-MM-DDTHH:MM:SSZ`. It reads more than this one form; the stamp
      reader below never hands it any other. */
  function ParseUtc(text: string): Option<Timestamp> {
    if |text| == 20 && text[4] == '-' && text[7] == '-' && text[10] == 'T'
      && text[13] == ':' && text[16] == ':' && text[19] == 'Z'
      && AllDigits(text[..4]) && AllDigits(text[5..7]) && AllDigits(text[8..10])
      && AllDigits(text[11..13]) && AllDigits(text[14..16]) && AllDigits(text[17..19])
    then
      FromFields(Spelled(text[..4]), Spelled(text[5..7]), Spelled(text[8..10]),
                 Spelled(text[11..13]), Spelled(text[14..16]), Spelled(text[17..19]))
    else None
  }

  /** The range checks of that parse, with a leap second read as the second before it. */
  function FromFields(y: nat, mo: nat, d: nat, h: nat, mi: nat, s: nat): Option<Timestamp> {
    var second := if s == 60 then 59 else s;
    var c := Civil(Date(y, mo, d), h, mi, second);
    if ValidCivil(c) && InRange(SecondsOf(c)) then Some(AtSecond(SecondsOf(c))) else None
  }

  /** The instant a stamp spells; text that is no stamp of a real date and time has none. */
  function ExpiryOf(name: string): Option<Timestamp> {
    match StripPrefix(name, EXPIRY_PREFIX)
    case None => None
    case Some(rest) =>
      match StripLast(rest, 'Z')
      case None => None
      case Some(compact) =>
        match SplitOnce(compact, 'T')
        case None => None
        case Some(parts) =>
          var (date, time) := parts;
          if |date| != 8 || |time| != 6 || !AllDigits(date) || !AllDigits(time) then None
          else ParseUtc(Separated(date, time))
  }

  /** The digits of a stamp, field by field. */
  function FieldsOf(date: string, clock: string): Option<Timestamp>
    requires |date| == 8 && |clock| == 6 && AllDigits(date) && AllDigits(clock)
  {
    FromFields(Spelled(date[..4]), Spelled(date[4..6]), Spelled(date[6..]),
               Spelled(clock[..2]), Spelled(clock[2..4]), Spelled(clock[4..]))
  }

  /** The separated form a stamp is rebuilt into before it is parsed. */
  function Separated(date: string, clock: string): (text: string)
    requires |date| == 8 && |clock| == 6
    ensures |text| == 20
  {
    date[..4] + "-" + date[4..6] + "-" + date[6..] + "T"
    + clock[..2] + ":" + clock[2..4] + ":" + clock[4..] + "Z"
  }

  lemma SeparatedReads(date: string, clock: string)
    requires |date| == 8 && |clock| == 6 && AllDigits(date) && AllDigits(clock)
    ensures ParseUtc(Separated(date, clock)) == FieldsOf(date, clock)
  {
    var text := Separated(date, clock);
    assert text[..4] == date[..4];
    assert text[5..7] == date[4..6];
    assert text[8..10] == date[6..];
    assert text[11..13] == clock[..2];
    assert text[14..16] == clock[2..4];
    assert text[17..19] == clock[4..];
  }

  /** A stamp reads as its fields. */
  lemma StampReads(date: string, clock: string)
    requires |date| == 8 && |clock| == 6 && AllDigits(date) && AllDigits(clock)
    ensures ExpiryOf(Stamp(date, clock)) == FieldsOf(date, clock)
  {
    var compact := date + "T" + clock;
    var rest := compact + "Z";
    StripPrefixIs(EXPIRY_PREFIX, rest);
    assert rest[..|rest| - 1] == compact;
    assert 'T' !in date;
    SplitOnceIs(compact, 'T', date, clock);
    SeparatedReads(date, clock);
  }

  /** The first character after the prefix is the date's own. */
  lemma StampStarts(date: string, clock: string)
    requires date != []
    ensures |Stamp(date, clock)| > 8 && Stamp(date, clock)[8] == date[0]
  {
  }

  /** Whatever reads as a lease is spelled as a stamp. */
  lemma ReadsOnlyStamps(name: string) returns (date: string, clock: string)
    requires ExpiryOf(name).Some?
    ensures |date| == 8 && |clock| == 6 && AllDigits(date) && AllDigits(clock)
    ensures name == Stamp(date, clock)
  {
    var rest := StripPrefix(name, EXPIRY_PREFIX).value;
    var compact := StripLast(rest, 'Z').value;
    var parts := SplitOnce(compact, 'T').value;
    date, clock := parts.0, parts.1;
    assert rest == date + "T" + clock + "Z";
  }

  /** Every year a timestamp reaches, below the last, prints in four digits. */
  lemma YearsFitFourDigits(s: int)
    requires InRange(s)
    ensures CivilOf(s).date.year <= 9999
  {
    var n := s / 86_400 + EPOCH_DAY;
    YearOfHolds(n);
    assert YearStart(10_000) == 3_652_425;
    if YearOf(n) >= 10_000 {
      YearStartMonotone(10_000, YearOf(n));
    }
  }

  lemma ThreeRuns(a: string, b: string, c: string)
    requires AllDigits(a) && AllDigits(b) && AllDigits(c)
    ensures var s := a + b + c;
            AllDigits(s) && s[..|a|] == a && s[|a|..|a| + |b|] == b && s[|a| + |b|..] == c
  {
  }

  lemma DateSpells(d: Date)
    requires ValidDate(d) && 0 <= d.year <= 9999
    ensures var text := DateText(d);
            && |text| == 8 && AllDigits(text)
            && Spelled(text[..4]) == d.year && Spelled(text[4..6]) == d.month && Spelled(text[6..]) == d.day
  {
    FourDigits(d.year);
    TwoDigits(d.month);
    TwoDigits(d.day);
    hide Padded, Spelled, AllDigits;
    ThreeRuns(Padded(d.year, 4), Padded(d.month, 2), Padded(d.day, 2));
  }

  lemma ClockSpells(c: Civil)
    requires ValidCivil(c)
    ensures var text := ClockText(c);
            Spelled(text[..2]) == c.hour && Spelled(text[2..4]) == c.minute && Spelled(text[4..]) == c.second
  {
    TwoDigits(c.hour);
    TwoDigits(c.minute);
    TwoDigits(c.second);
    hide Padded, Spelled, AllDigits;
    ThreeRuns(Padded(c.hour, 2), Padded(c.minute, 2), Padded(c.second, 2));
  }

  lemma FourDigits(n: nat)
    requires n < 10_000
    ensures Spelled(Padded(n, 4)) == n
  {
    assert Pow10(2) == 100;
    assert Pow10(4) == 10_000;
    hide Padded, Spelled;
    PaddedSpells(n, 4);
  }

  lemma SignNeverReads(digits: string, clock: string)
    ensures ExpiryOf(Stamp("-" + digits, clock)).None?
  {
    var name := Stamp("-" + digits, clock);
    StampStarts("-" + digits, clock);
    if ExpiryOf(name).Some? {
      var d, k := ReadsOnlyStamps(name);
      StampStarts(d, k);
    }
  }

  /** Reading back the printed stamp gives the instant truncated to its second, for every instant
      from year 0 on; an earlier one prints a sign and reads as no lease. */
  lemma StampRoundTrip(t: Timestamp)
    ensures ExpiryOf(ExpiryStamp(t)) ==
            if CivilOf(SecondOf(t)).date.year >= 0 then Some(Truncated(t)) else None
  {
    var s := SecondOf(t);
    var c := CivilOf(s);
    YearsFitFourDigits(s);
    hide Stamp, ExpiryOf, Padded, Spelled, CivilOf, SecondsOf, ClockText;
    if c.date.year >= 0 {
      hide DateText;
      DateSpells(c.date);
      ClockSpells(c);
      StampReads(DateText(c.date), ClockText(c));
      SecondsOfCivilOf(s);
    } else {
      var digits := Padded(-c.date.year, 4) + Padded(c.date.month, 2) + Padded(c.date.day, 2);
      assert DateText(c.date) == "-" + digits;
      SignNeverReads(digits, ClockText(c));
    }
  }

  lemma TwoDigits(n: nat)
    requires n < 100
    ensures Spelled(Padded(n, 2)) == n
  {
    assert Pow10(2) == 100;
    PaddedSpells(n, 2);
  }

  /** A second as its reprint shows it. */
  function WithoutLeap(clock: string): (r: string)
    requires |clock| == 6
    ensures |r| == 6
  {
    if clock[4..] == "60" then clock[..4] + "59" else clock
  }

  lemma DateReprints(date: string, y: nat, mo: nat, d: nat)
    requires |date| == 8 && AllDigits(date)
    requires y == Spelled(date[..4]) && mo == Spelled(date[4..6]) && d == Spelled(date[6..])
    requires ValidDate(Date(y, mo, d))
    ensures DateText(Date(y, mo, d)) == date
  {
    hide Padded, Spelled;
    SpelledPads(date[..4]);
    SpelledPads(date[4..6]);
    SpelledPads(date[6..]);
    assert date == date[..4] + date[4..6] + date[6..];
  }

  lemma SixtyAndFiftyNine()
    ensures Padded(60, 2) == "60" && Padded(59, 2) == "59"
  {
    assert Digit(6) == '6' && Digit(0) == '0' && Digit(5) == '5' && Digit(9) == '9';
    assert Padded(6, 1) == ['6'] && Padded(5, 1) == ['5'];
  }

  lemma ClockReprints(clock: string, c: Civil)
    requires |clock| == 6 && AllDigits(clock) && ValidCivil(c)
    requires c.hour == Spelled(clock[..2]) && c.minute == Spelled(clock[2..4])
    requires var s := Spelled(clock[4..]); c.second == if s == 60 then 59 else s
    ensures ClockText(c) == WithoutLeap(clock)
  {
    SpelledPads(clock[..2]);
    SpelledPads(clock[2..4]);
    SpelledPads(clock[4..]);
    SixtyAndFiftyNine();
    TwoDigits(60);
    assert clock == clock[..2] + clock[2..4] + clock[4..];
    assert clock[..4] == clock[..2] + clock[2..4];
  }

  /** Every accepted stamp is the one printed for the instant it reads as, except that a leap
      second is reprinted as the second before it. */
  lemma AcceptedStampReprints(name: string, t: Timestamp)
    requires ExpiryOf(name) == Some(t)
    ensures Truncated(t) == t
    ensures exists date, clock ::
              && |date| == 8 && |clock| == 6 && AllDigits(date) && AllDigits(clock)
              && name == Stamp(date, clock) && ExpiryStamp(t) == Stamp(date, WithoutLeap(clock))
  {
    hide Stamp, ExpiryOf, Padded, Spelled, DateText, ClockText, CivilOf, SecondsOf;
    var date, clock := ReadsOnlyStamps(name);
    StampReads(date, clock);
    var y, mo, d := Spelled(date[..4]), Spelled(date[4..6]), Spelled(date[6..]);
    var h, mi, s := Spelled(clock[..2]), Spelled(clock[2..4]), Spelled(clock[4..]);
    var c := Civil(Date(y, mo, d), h, mi, if s == 60 then 59 else s);
    CivilOfSecondsOf(c);
    DateReprints(date, y, mo, d);
    ClockReprints(clock, c);
    assert ExpiryStamp(t) == Stamp(date, WithoutLeap(clock));
  }
}
