/** RFC 3339 text (section 5.6): what telemetry.rs prints and what token.rs accepts. */
module Timestamps {
  import opened Common
  import opened Text
  import opened Calendar

  // ---------------------------------------------------------------- printing

  /** The UTC date and time of day of a second count. */
  function StampOf(seconds: nat): Stamp {
    var secondsOfDay := seconds % 86_400;
    Stamp(CivilFromDays(seconds / 86_400), secondsOfDay / 3_600, secondsOfDay % 3_600 / 60, secondsOfDay % 60)
  }

  predicate Printable(stamp: Stamp) {
    stamp.date.year >= 0 && stamp.date.month >= 0 && stamp.date.day >= 0
    && stamp.hour >= 0 && stamp.minute >= 0 && stamp.second >= 0
  }

  function DateText(date: Date): string
    requires date.year >= 0 && date.month >= 0 && date.day >= 0
  {
    Padded(date.year, 4) + "-" + (Padded(date.month, 2) + "-" + Padded(date.day, 2))
  }

  function TimeText(stamp: Stamp): string
    requires Printable(stamp)
  {
    Padded(stamp.hour, 2) + ":" + (Padded(stamp.minute, 2) + ":" + Padded(stamp.second, 2))
  }

  function PrintStamp(stamp: Stamp, millis: nat): string
    requires Printable(stamp)
  {
    (DateText(stamp.date) + "T" + TimeText(stamp)) + "." + Padded(millis, 3) + "Z"
  }

  /** A u64 second count divided by 86,400 always fits the i64 that holds the day number. */
  function FormatUnixMillis(seconds: nat, millis: nat): string {
    StampIsReal(seconds);
    PrintStamp(StampOf(seconds), millis)
  }

  lemma {:induction false} CalendarYears(n: nat)
    ensures 1970 <= DateAfterEpoch(n).year <= 1970 + n
  {
    if n > 0 {
      CalendarYears(n - 1);
    }
  }

  lemma StampIsReal(seconds: nat)
    ensures Printable(StampOf(seconds)) && ValidDate(StampOf(seconds).date)
    ensures StampOf(seconds).date.year <= 1970 + seconds / 86_400
    ensures 1 <= StampOf(seconds).date.month <= 12 && StampOf(seconds).date.day <= 31
    ensures DaysFromCivil(StampOf(seconds).date) == seconds / 86_400
    ensures StampOf(seconds).hour < 24 && StampOf(seconds).minute < 60 && StampOf(seconds).second < 60
    ensures 3_600 * StampOf(seconds).hour + 60 * StampOf(seconds).minute + StampOf(seconds).second == seconds % 86_400
  {
    hide CivilFromDays, DaysFromCivil;
    DaysRoundTrip(seconds / 86_400);
    PrintsTheCalendar(seconds / 86_400);
    CalendarYears(seconds / 86_400);
  }

  // ---------------------------------------------------------------- parsing

  function ParseRfc3339(value: string): Parsed {
    if value != "" && value[|value| - 1] == 'Z' then ParseCore(value[..|value| - 1], 0)
    else
      match OffsetPosition(value)
      case None => Rejected
      case Some(separator) =>
        assert separator < |value|;
        match ParseOffset(value[separator..])
        case None => Rejected
        case Some(offset) => ParseCore(value[..separator], offset)
  }

  /** A byte inside a UTF-8 sequence, where a Rust string cannot be cut. */
  predicate Continuation(c: char) { 0x80 <= c as int < 0xC0 }

  /** The last sign at byte 10 or later, unless byte 10 falls inside a UTF-8 sequence. */
  function OffsetPosition(value: string): (position: Option<nat>)
    ensures position.Some? ==> position.value < |value|
  {
    if |value| <= 10 || Continuation(value[10]) then None else LastSign(value, |value|)
  }

  function LastSign(value: string, end: nat): (position: Option<nat>)
    requires end <= |value|
    ensures position.Some? ==> position.value < |value|
  {
    if end <= 10 then None
    else if value[end - 1] == '+' || value[end - 1] == '-' then Some(end - 1)
    else LastSign(value, end - 1)
  }

  function ParseOffset(text: string): Option<int>
    requires text != ""
  {
    var digits := text[1..];
    var colon := Find(digits, ':');
    if colon == |digits| then None else
    match (ParseI64(digits[..colon]), ParseI64(digits[colon + 1..]))
    case (Some(hours), Some(minutes)) =>
      if hours > 23 || minutes > 59 then None
      else Some((if text[0] == '+' then 1 else -1) * (hours * 3_600 + minutes * 60))
    case _ => None
  }

  function ParseCore(text: string, offset: int): Parsed {
    match ReadFields(Split(text, '.')[0])
    case None => Rejected
    case Some(stamp) => Instant(stamp, offset)
  }

  /** The fields in front of any fraction. Further `-` or `:` fields are ignored, as the source ignores them. */
  function ReadFields(core: string): Option<Stamp> {
    var t := Find(core, 'T');
    if t == |core| then None else
    var date, time := Split(core[..t], '-'), Split(core[t + 1..], ':');
    if |date| < 3 || |time| < 3 then None else
    match (ParseI64(date[0]), ParseI64(date[1]), ParseI64(date[2]))
    case (Some(year), Some(month), Some(day)) =>
      (match (ParseUnsigned(time[0], U64_MAX), ParseUnsigned(time[1], U64_MAX), ParseUnsigned(time[2], U64_MAX))
       case (Some(hour), Some(minute), Some(second)) =>
         Some(Stamp(Date(year, month, day), hour, minute, second))
       case _ => None)
    case _ => None
  }

  predicate InRange(stamp: Stamp) {
    ValidDate(stamp.date) && stamp.hour <= 23 && stamp.minute <= 59 && stamp.second <= 60
  }

  /** The day number, and every step on the way to it, fits an i64. */
  predicate DaysFit(date: Date) {
    I64_MIN <= EraDays(date) && I64_MIN <= DaysFromCivil(date) && DaysFromCivil(date) + 719_468 <= I64_MAX
  }

  predicate FitsI64(n: int) { I64_MIN <= n <= I64_MAX }

  /** The steps in the source's order: the year adjusted, its era, and the sum from the left. */
  lemma DaysFitExactly(date: Date)
    requires ValidDate(date)
    ensures var adjusted := MarchYear(date);
      DaysFit(date) <==>
      FitsI64(adjusted) && FitsI64(adjusted / 400 * 400) && FitsI64(EraDays(date))
      && FitsI64(DaysFromCivil(date) + 719_468) && FitsI64(DaysFromCivil(date))
  {
    hide DaysFromCivil, ValidDate;
    DateInEra(date);
    var era := MarchYear(date) / 400;
    assert EraDays(date) == era * 146_097;
  }

  function Instant(stamp: Stamp, offset: int): Parsed {
    if !InRange(stamp) then Rejected
    else
      var days := DaysFromCivil(stamp.date);
      if !DaysFit(stamp.date) then Overflow
      else if days < 0 then Rejected
      else
        var local := days * 86_400 + stamp.hour * 3_600 + stamp.minute * 60 + stamp.second;
        if local > I64_MAX || local - offset > I64_MAX then Overflow
        else if local - offset < 0 then Rejected
        else Parsed(local - offset)
  }

  // ---------------------------------------------------------------- the parser reads what the printer prints

  lemma PaddedParses(n: nat, width: nat)
    ensures forall c :: c in Padded(n, width) ==> IsDigit(c)
    ensures n <= I64_MAX ==> ParseI64(Padded(n, width)) == Some(n)
    ensures n <= U64_MAX ==> ParseUnsigned(Padded(n, width), U64_MAX) == Some(n)
  {
    PaddedReadsBack(n, width);
    assert IsDigit(Padded(n, width)[0]);
  }

  lemma ThreeFields(a: string, b: string, c: string, separator: char)
    requires forall x :: x in a || x in b || x in c ==> IsDigit(x)
    requires !IsDigit(separator)
    ensures Split(a + [separator] + (b + [separator] + c), separator) == [a, b, c]
    ensures forall x :: x in a + [separator] + (b + [separator] + c) ==> IsDigit(x) || x == separator
  {
    hide Split, IsDigit;
    SplitSeparator(a, separator, b + [separator] + c);
    SplitSeparator(b, separator, c);
    SplitWhole(c, separator);
  }

  lemma DateTextSplits(date: Date)
    requires 0 <= date.year <= I64_MAX && 0 <= date.month <= I64_MAX && 0 <= date.day <= I64_MAX
    ensures 'T' !in DateText(date) && '.' !in DateText(date)
    ensures var pieces := Split(DateText(date), '-');
      |pieces| == 3 && ParseI64(pieces[0]) == Some(date.year) && ParseI64(pieces[1]) == Some(date.month)
      && ParseI64(pieces[2]) == Some(date.day)
  {
    var y, m, d := Padded(date.year, 4), Padded(date.month, 2), Padded(date.day, 2);
    PaddedParses(date.year, 4);
    PaddedParses(date.month, 2);
    PaddedParses(date.day, 2);
    hide Split, Padded, ParseI64, Value;
    ThreeFields(y, m, d, '-');
  }

  lemma TimeTextSplits(stamp: Stamp)
    requires Printable(stamp) && stamp.hour <= U64_MAX && stamp.minute <= U64_MAX && stamp.second <= U64_MAX
    ensures 'T' !in TimeText(stamp) && '.' !in TimeText(stamp)
    ensures var pieces := Split(TimeText(stamp), ':');
      |pieces| == 3 && ParseUnsigned(pieces[0], U64_MAX) == Some(stamp.hour)
      && ParseUnsigned(pieces[1], U64_MAX) == Some(stamp.minute)
      && ParseUnsigned(pieces[2], U64_MAX) == Some(stamp.second)
  {
    var h, m, s := Padded(stamp.hour, 2), Padded(stamp.minute, 2), Padded(stamp.second, 2);
    PaddedParses(stamp.hour, 2);
    PaddedParses(stamp.minute, 2);
    PaddedParses(stamp.second, 2);
    hide Split, Padded, ParseUnsigned, Value;
    ThreeFields(h, m, s, ':');
  }

  lemma PrintedStampReadsBack(stamp: Stamp, millis: nat)
    requires Printable(stamp)
    requires stamp.date.year <= I64_MAX && stamp.date.month <= I64_MAX && stamp.date.day <= I64_MAX
    requires stamp.hour <= U64_MAX && stamp.minute <= U64_MAX && stamp.second <= U64_MAX
    ensures ParseRfc3339(PrintStamp(stamp, millis)) == Instant(stamp, 0)
  {
    hide Instant, Split, Padded, ParseI64, ParseUnsigned;
    var date, time := DateText(stamp.date), TimeText(stamp);
    DateTextSplits(stamp.date);
    TimeTextSplits(stamp);
    var core := date + "T" + time;
    var text := PrintStamp(stamp, millis);
    assert text[..|text| - 1] == core + "." + Padded(millis, 3);
    SplitSeparator(core, '.', Padded(millis, 3));
    FindSeparator(date, 'T', time);
    assert core[..|date|] == date && core[|date| + 1..] == time;
  }

  /**
   Parsing what the printer wrote gives the second count back exactly when it fits an
   i64; above that the parser's own arithmetic overflows. The milliseconds never matter.
   */
  lemma FormatParseRoundTrip(seconds: nat, millis: nat)
    requires seconds <= U64_MAX
    ensures ParseRfc3339(FormatUnixMillis(seconds, millis)) == if seconds <= I64_MAX then Parsed(seconds) else Overflow
  {
    hide PrintStamp, ParseRfc3339, StampOf, DaysFromCivil;
    StampIsReal(seconds);
    DateInEra(StampOf(seconds).date);
    PrintedStampReadsBack(StampOf(seconds), millis);
  }

  /**
   Printing the instant of an accepted `Z` time gives its own date and time of day,
   fraction aside, if and only if it is not a leap second.
   */
  lemma ParseFormatRoundTrip(text: string, stamp: Stamp, seconds: nat)
    requires text != "" && text[|text| - 1] == 'Z'
    requires ReadFields(Split(text[..|text| - 1], '.')[0]) == Some(stamp)
    requires ParseRfc3339(text) == Parsed(seconds)
    ensures StampOf(seconds) == stamp <==> stamp.second <= 59
  {
    hide ReadFields, Split, Instant;
    FieldsAreUnsigned(Split(text[..|text| - 1], '.')[0]);
    InstantPrints(stamp, seconds);
  }

  lemma InstantPrints(stamp: Stamp, seconds: nat)
    requires Instant(stamp, 0) == Parsed(seconds) && stamp.hour >= 0 && stamp.minute >= 0 && stamp.second >= 0
    ensures StampOf(seconds) == stamp <==> stamp.second <= 59
  {
    hide DaysFromCivil, CivilFromDays, ValidDate, DaysFit;
    var days := DaysFromCivil(stamp.date);
    var ofDay := stamp.hour * 3_600 + stamp.minute * 60 + stamp.second;
    if stamp.second <= 59 {
      DayParts(days, ofDay, seconds);
      TimeParts(stamp.hour, stamp.minute, stamp.second);
      DateRoundTrip(stamp.date);
    }
  }

  lemma DayParts(days: nat, ofDay: nat, seconds: nat)
    requires seconds == days * 86_400 + ofDay && ofDay < 86_400
    ensures seconds / 86_400 == days && seconds % 86_400 == ofDay
  {
  }

  lemma TimeParts(hour: nat, minute: nat, second: nat)
    requires minute <= 59 && second <= 59
    ensures var ofDay := hour * 3_600 + minute * 60 + second;
      ofDay / 3_600 == hour && ofDay % 3_600 / 60 == minute && ofDay % 60 == second
  {
  }

  lemma FieldsAreUnsigned(core: string)
    ensures ReadFields(core).Some? ==>
      var stamp := ReadFields(core).value; stamp.hour >= 0 && stamp.minute >= 0 && stamp.second >= 0
  {
  }

  function OffsetText(east: bool, hours: nat, minutes: nat): string {
    [if east then '+' else '-'] + (Padded(hours, 2) + ":" + Padded(minutes, 2))
  }

  lemma OffsetReads(east: bool, hours: nat, minutes: nat)
    requires hours <= 23 && minutes <= 59
    ensures var text := OffsetText(east, hours, minutes);
      ParseOffset(text) == Some((if east then 1 else -1) * (hours * 3_600 + minutes * 60))
      && |text| > 1 && forall i :: 1 <= i < |text| ==> IsDigit(text[i]) || text[i] == ':'
  {
    hide Padded, ParseI64, Value, ParseOffset, IsDigit;
    var h, m := Padded(hours, 2), Padded(minutes, 2);
    PaddedParses(hours, 2);
    PaddedParses(minutes, 2);
    DigitsAndColon(h, m);
    PartsParse(if east then '+' else '-', h, m, hours, minutes);
  }

  lemma PartsParse(sign: char, h: string, m: string, hours: nat, minutes: nat)
    requires ParseI64(h) == Some(hours) && ParseI64(m) == Some(minutes)
    requires forall c :: c in h ==> IsDigit(c)
    ensures ParseOffset([sign] + (h + ":" + m)) ==
      if hours <= 23 && minutes <= 59 then Some((if sign == '+' then 1 else -1) * (hours * 3_600 + minutes * 60)) else None
  {
    hide ParseI64;
    var digits := h + ":" + m;
    assert ([sign] + digits)[1..] == digits;
    FindSeparator(h, ':', m);
    assert digits[..|h|] == h && digits[|h| + 1..] == m;
  }

  lemma DigitsAndColon(h: string, m: string)
    requires forall c :: c in h || c in m ==> IsDigit(c)
    ensures var digits := h + ":" + m;
      forall i :: 0 <= i < |digits| ==> IsDigit(digits[i]) || digits[i] == ':'
  {
    var digits := h + ":" + m;
    forall i | 0 <= i < |digits| ensures IsDigit(digits[i]) || digits[i] == ':' {
      assert digits[i] in h || digits[i] == ':' || digits[i] in m;
    }
  }

  lemma OffsetSplits(core: string, tail: string)
    requires |core| >= 10 && (|core| > 10 ==> !Continuation(core[10]))
    requires |tail| > 1 && (tail[0] == '+' || tail[0] == '-')
    requires forall i :: 1 <= i < |tail| ==> IsDigit(tail[i]) || tail[i] == ':'
    requires ParseOffset(tail).Some?
    ensures ParseRfc3339(core + tail) == ParseCore(core, ParseOffset(tail).value)
  {
    hide ParseOffset, ParseCore;
    var text := core + tail;
    SignIsLast(text, |core|, |text|);
    assert text[..|core|] == core && text[|core|..] == tail;
  }

  /** A numeric offset moves the instant of the same local time by exactly that many minutes. */
  lemma OffsetMovesTheInstant(core: string, east: bool, hours: nat, minutes: nat, seconds: nat)
    requires |core| >= 10 && hours <= 23 && minutes <= 59
    requires |core| > 10 ==> !Continuation(core[10])
    requires ParseRfc3339(core + "Z") == Parsed(seconds)
    ensures var instant := seconds - (if east then 1 else -1) * (hours * 3_600 + minutes * 60);
      ParseRfc3339(core + OffsetText(east, hours, minutes))
      == if instant < 0 then Rejected else if instant > I64_MAX then Overflow else Parsed(instant)
  {
    hide ReadFields, Split, DaysFromCivil, InRange, ParseOffset;
    var tail := OffsetText(east, hours, minutes);
    assert (core + "Z")[..|core + "Z"| - 1] == core;
    OffsetReads(east, hours, minutes);
    OffsetSplits(core, tail);
  }

  lemma SignIsLast(text: string, position: nat, end: nat)
    requires 10 <= position < end <= |text| && (text[position] == '+' || text[position] == '-')
    requires forall i :: position < i < end ==> text[i] != '+' && text[i] != '-'
    ensures LastSign(text, end) == Some(position)
  {
    if end > position + 1 {
      SignIsLast(text, position, end - 1);
    }
  }

  // ---------------------------------------------------------------- every form is read

  /** A number written in digits, however many, that fits the field it is read into. */
  predicate Digits(text: string, largest: nat) { text != "" && AllDigits(text) && Value(text) <= largest }

  /** Date and time as RFC 3339 writes them, each field in digits. */
  datatype Written = Written(
    year: string, month: string, day: string, hour: string, minute: string, second: string)

  predicate Readable(w: Written) {
    && Digits(w.year, I64_MAX) && Digits(w.month, I64_MAX) && Digits(w.day, I64_MAX)
    && Digits(w.hour, U64_MAX) && Digits(w.minute, U64_MAX) && Digits(w.second, U64_MAX)
  }

  function StampOfWritten(w: Written): Stamp
    requires Readable(w)
  {
    Stamp(Date(Value(w.year), Value(w.month), Value(w.day)), Value(w.hour), Value(w.minute), Value(w.second))
  }

  function WrittenDate(w: Written): string { w.year + "-" + (w.month + "-" + w.day) }

  function WrittenTime(w: Written): string { w.hour + ":" + (w.minute + ":" + w.second) }

  function WrittenText(w: Written): string { WrittenDate(w) + "T" + WrittenTime(w) }

  lemma DigitsParse(text: string, largest: nat)
    requires Digits(text, largest)
    ensures ParseUnsigned(text, largest) == Some(Value(text))
    ensures largest <= I64_MAX ==> ParseI64(text) == Some(Value(text))
    ensures forall c :: c in text ==> IsDigit(c)
  {
    assert IsDigit(text[0]);
  }

  lemma WrittenIsRead(w: Written)
    requires Readable(w)
    ensures ReadFields(WrittenText(w)) == Some(StampOfWritten(w))
    ensures forall c :: c in WrittenText(w) ==> IsDigit(c) || c == '-' || c == 'T' || c == ':'
  {
    hide Split, ParseI64, ParseUnsigned, Value;
    DigitsParse(w.year, I64_MAX);
    DigitsParse(w.month, I64_MAX);
    DigitsParse(w.day, I64_MAX);
    DigitsParse(w.hour, U64_MAX);
    DigitsParse(w.minute, U64_MAX);
    DigitsParse(w.second, U64_MAX);
    var date, time, text := WrittenDate(w), WrittenTime(w), WrittenText(w);
    ThreeFields(w.year, w.month, w.day, '-');
    ThreeFields(w.hour, w.minute, w.second, ':');
    FindSeparator(date, 'T', time);
    assert text[..|date|] == date && text[|date| + 1..] == time;
  }

  /** Whatever fraction follows the seconds, the fields are those in front of it. */
  lemma FractionIsIgnored(w: Written, fraction: string, offset: int)
    requires Readable(w) && (fraction == "" || fraction[0] == '.')
    ensures ParseCore(WrittenText(w) + fraction, offset) == Instant(StampOfWritten(w), offset)
  {
    hide Split, ReadFields, Instant, WrittenText;
    WrittenIsRead(w);
    var core := WrittenText(w);
    if fraction == "" {
      SplitWhole(core, '.');
      assert core + fraction == core;
    } else {
      SplitSeparator(core, '.', fraction[1..]);
      assert core + fraction == core + "." + fraction[1..];
    }
  }

  /**
   Every RFC 3339 time is read: fields of any width, no fraction or any, and either zone.
   What comes out is the instant of those fields and that zone.
   */
  lemma EveryFormIsRead(w: Written, fraction: string, east: bool, hours: nat, minutes: nat)
    requires Readable(w) && (fraction == "" || fraction[0] == '.')
    ensures ParseRfc3339(WrittenText(w) + fraction + "Z") == Instant(StampOfWritten(w), 0)
    ensures hours <= 23 && minutes <= 59 && |WrittenText(w)| > 10 ==>
      ParseRfc3339(WrittenText(w) + fraction + OffsetText(east, hours, minutes))
      == Instant(StampOfWritten(w), (if east then 1 else -1) * (hours * 3_600 + minutes * 60))
  {
    hide ReadFields, Instant, WrittenText, ParseOffset, ParseCore;
    var text := WrittenText(w) + fraction;
    FractionIsIgnored(w, fraction, 0);
    assert (text + "Z")[..|text + "Z"| - 1] == text;
    if hours <= 23 && minutes <= 59 && |WrittenText(w)| > 10 {
      WrittenIsRead(w);
      assert text[10] == WrittenText(w)[10] && WrittenText(w)[10] in WrittenText(w);
      OffsetReads(east, hours, minutes);
      OffsetSplits(text, OffsetText(east, hours, minutes));
      FractionIsIgnored(w, fraction, (if east then 1 else -1) * (hours * 3_600 + minutes * 60));
    }
  }

  /** A zone outside a day, or none at all, is refused. */
  lemma OtherZonesAreRefused(w: Written, fraction: string, east: bool, hours: nat, minutes: nat)
    requires Readable(w) && (fraction == "" || fraction[0] == '.')
    ensures (hours > 23 || minutes > 59) && hours <= I64_MAX && minutes <= I64_MAX && |WrittenText(w)| > 10 ==>
      ParseRfc3339(WrittenText(w) + fraction + OffsetText(east, hours, minutes)) == Rejected
    ensures |WrittenDate(w)| <= 10 && '+' !in fraction && '-' !in fraction && 'Z' !in fraction ==>
      ParseRfc3339(WrittenText(w) + fraction) == Rejected
  {
    hide ReadFields, Instant, WrittenText, ParseCore, ParseOffset, LastSign;
    var text := WrittenText(w) + fraction;
    WrittenIsRead(w);
    if (hours > 23 || minutes > 59) && hours <= I64_MAX && minutes <= I64_MAX && |WrittenText(w)| > 10 {
      assert text[10] == WrittenText(w)[10] && WrittenText(w)[10] in WrittenText(w);
      OffsetRefused(text, east, hours, minutes);
    }
    if |WrittenDate(w)| <= 10 && '+' !in fraction && '-' !in fraction && 'Z' !in fraction {
      NoSign(w, fraction);
    }
  }

  lemma OffsetRefused(text: string, east: bool, hours: nat, minutes: nat)
    requires |text| > 10 && !Continuation(text[10])
    requires (hours > 23 || minutes > 59) && hours <= I64_MAX && minutes <= I64_MAX
    ensures ParseRfc3339(text + OffsetText(east, hours, minutes)) == Rejected
  {
    hide Padded, ParseI64, Value, ParseOffset, IsDigit, ParseCore;
    var h, m := Padded(hours, 2), Padded(minutes, 2);
    PaddedParses(hours, 2);
    PaddedParses(minutes, 2);
    DigitsAndColon(h, m);
    PartsParse(if east then '+' else '-', h, m, hours, minutes);
    PaddedReadsBack(minutes, 2);
    var tail := OffsetText(east, hours, minutes);
    var whole := text + tail;
    DigitsAreNoSigns();
    assert forall i :: |text| < i < |whole| ==> whole[i] == (h + ":" + m)[i - |text| - 1];
    SignIsLast(whole, |text|, |whole|);
    assert whole[..|text|] == text && whole[|text|..] == tail;
  }

  lemma DigitsAreNoSigns()
    ensures forall c :: IsDigit(c) ==> c != '+' && c != '-' && c != 'Z' && c != ':'
  {
  }

  lemma NoSign(w: Written, fraction: string)
    requires Readable(w) && |WrittenDate(w)| <= 10
    requires '+' !in fraction && '-' !in fraction && 'Z' !in fraction
    ensures ParseRfc3339(WrittenText(w) + fraction) == Rejected
  {
    hide Value;
    DigitsParse(w.hour, U64_MAX);
    DigitsParse(w.minute, U64_MAX);
    DigitsParse(w.second, U64_MAX);
    var text, date := WrittenText(w) + fraction, WrittenDate(w);
    var time := "T" + WrittenTime(w);
    assert forall c :: c in time ==> IsDigit(c) || c == 'T' || c == ':';
    forall i | |date| <= i < |text| ensures text[i] != '+' && text[i] != '-' && text[i] != 'Z' {
      if i < |date| + |time| {
        assert text[i] == time[i - |date|] && time[i - |date|] in time;
      } else {
        assert text[i] == fraction[i - |date| - |time|] && text[i] in fraction;
      }
    }
    NoLastSign(text, |date|, |text|);
  }

  lemma NoLastSign(text: string, from: nat, end: nat)
    requires from <= 10 && end <= |text| && forall i :: from <= i < |text| ==> text[i] != '+' && text[i] != '-'
    ensures LastSign(text, end) == None
  {
  }

  // ---------------------------------------------------------------- the instant, from the calendar

  /** An instant as the parser reports it. */
  function Reported(local: int, offset: int): Parsed {
    if local > I64_MAX || local - offset > I64_MAX then Overflow
    else if local - offset < 0 then Rejected
    else Parsed(local - offset)
  }

  /** For the date `n` calendar days after 1 January 1970 and any time of day, leap seconds included. */
  lemma InstantOfCalendarDay(n: nat, hour: nat, minute: nat, second: nat, offset: int)
    requires hour <= 23 && minute <= 59 && second <= 60 && -86_400 < offset < 86_400
    ensures Instant(Stamp(DateAfterEpoch(n), hour, minute, second), offset)
      == Reported(n * 86_400 + hour * 3_600 + minute * 60 + second, offset)
  {
    hide DaysFromCivil, CivilFromDays, DateAfterEpoch, ValidDate, EraDays;
    var date := DateAfterEpoch(n);
    PrintsTheCalendar(n);
    DaysRoundTrip(n);
    DateInEra(date);
    assert DaysFromCivil(date) == n;
  }

  /** Everything else is refused: fields no calendar has, and days before the epoch. */
  lemma RefusedExactly(stamp: Stamp, offset: int)
    ensures !InRange(stamp) ==> Instant(stamp, offset) == Rejected
    ensures InRange(stamp) && Earlier(stamp.date, Date(1970, 1, 1)) && DaysFit(stamp.date) ==> Instant(stamp, offset) == Rejected
    ensures InRange(stamp) && !Earlier(stamp.date, Date(1970, 1, 1)) && DaysFit(stamp.date) ==>
      stamp.date == DateAfterEpoch(DaysFromCivil(stamp.date))
    ensures InRange(stamp) && !DaysFit(stamp.date) ==> Instant(stamp, offset) == Overflow
  {
    hide DaysFromCivil, CivilFromDays, DateAfterEpoch, ValidDate, DaysFit;
    if InRange(stamp) {
      EpochIsDayZero();
      OrderPreserved(stamp.date, Date(1970, 1, 1));
      if DaysFromCivil(stamp.date) >= 0 {
        DateRoundTrip(stamp.date);
        PrintsTheCalendar(DaysFromCivil(stamp.date));
      }
    }
  }

  lemma EpochIsDayZero()
    ensures ValidDate(Date(1970, 1, 1)) && DaysFromCivil(Date(1970, 1, 1)) == 0
  {
  }
}
