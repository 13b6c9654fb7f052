/** The journal record `create_dream_journal_entry`: the inputs stored
    unchanged, the symbols as records with a term and a meaning, and the
    moment of saving formatted as `YYYY-MM-DD HH:MM:SS`. The clock is not
    read here: the moment is a parameter. */
module Journal {
  import opened Emotions
  import opened Symbols

  /** A moment as the clock reports it. */
  datatype Moment = Moment(year: int, month: int, day: int, hour: int, minute: int, second: int)

  /** The ranges of a calendar moment (four-digit years). */
  predicate ValidMoment(m: Moment) {
    1000 <= m.year <= 9999 && 1 <= m.month <= 12 && 1 <= m.day <= 31
    && 0 <= m.hour <= 23 && 0 <= m.minute <= 59 && 0 <= m.second <= 59
  }

  /** One symbol of the entry: `{"symbol": ..., "meaning": ...}`. */
  datatype SymbolRecord = SymbolRecord(symbol: string, meaning: string)

  /** The journal entry, one field per dictionary key. */
  datatype JournalEntry = JournalEntry(
    date: string,
    dream: string,
    emotion: Emotion,
    context: string,
    interpretation: string,
    symbols: seq<SymbolRecord>)

  function Digit(d: int): (c: char)
    requires 0 <= d <= 9
    ensures '0' <= c <= '9'
  {
    ('0' as int + d) as char
  }

  function DigitValue(c: char): int {
    c as int - '0' as int
  }

  predicate IsDigit(c: char) {
    '0' <= c <= '9'
  }

  /** A number written with exactly `width` decimal digits, zero-padded. */
  function Padded(n: int, width: nat): (r: string)
    requires 0 <= n
    ensures |r| == width
    ensures forall i :: 0 <= i < |r| ==> IsDigit(r[i])
    decreases width
  {
    if width == 0 then ""
    else Padded(n / 10, width - 1) + [Digit(n % 10)]
  }

  /** The number a string of decimal digits denotes. */
  function DigitsValue(s: string): int
    decreases |s|
  {
    if s == [] then 0 else DigitsValue(s[..|s| - 1]) * 10 + DigitValue(s[|s| - 1])
  }

  function Pow10(k: nat): (r: nat)
    ensures r >= 1
  {
    if k == 0 then 1 else 10 * Pow10(k - 1)
  }

  /** Reading back a padded number gives the number, when it fits. */
  lemma {:induction false} PaddedValue(n: int, width: nat)
    requires 0 <= n < Pow10(width)
    ensures DigitsValue(Padded(n, width)) == n
    decreases width
  {
    if width > 0 {
      PaddedValue(n / 10, width - 1);
      var p := Padded(n, width);
      assert p[..|p| - 1] == Padded(n / 10, width - 1);
    }
  }

  /** Three fields with a separator character between each two. */
  function Fields(a: string, sep1: char, b: string, sep2: char, c: string): string {
    a + [sep1] + b + [sep2] + c
  }

  /** Each field can be cut back out of the glued text. */
  lemma FieldsSlices(a: string, sep1: char, b: string, sep2: char, c: string)
    ensures var t := Fields(a, sep1, b, sep2, c);
      && |t| == |a| + |b| + |c| + 2
      && t[..|a|] == a && t[|a|] == sep1
      && t[|a| + 1..|a| + 1 + |b|] == b && t[|a| + 1 + |b|] == sep2
      && t[|a| + |b| + 2..] == c
  {
  }

  /** `strftime("%Y-%m-%d")`. */
  function FormatDate(m: Moment): (r: string)
    requires ValidMoment(m)
  {
    Fields(Padded(m.year, 4), '-', Padded(m.month, 2), '-', Padded(m.day, 2))
  }

  /** `strftime("%H:%M:%S")`. */
  function FormatTime(m: Moment): (r: string)
    requires ValidMoment(m)
  {
    Fields(Padded(m.hour, 2), ':', Padded(m.minute, 2), ':', Padded(m.second, 2))
  }

  /** `strftime("%Y-%m-%d %H:%M:%S")`. */
  function FormatMoment(m: Moment): (r: string)
    requires ValidMoment(m)
    ensures |r| == 19
    ensures r[4] == '-' && r[7] == '-' && r[10] == ' ' && r[13] == ':' && r[16] == ':'
    ensures forall i :: 0 <= i < 19 && i !in {4, 7, 10, 13, 16} ==> IsDigit(r[i])
  {
    var date, time := FormatDate(m), FormatTime(m);
    FieldsSlices(Padded(m.year, 4), '-', Padded(m.month, 2), '-', Padded(m.day, 2));
    FieldsSlices(Padded(m.hour, 2), ':', Padded(m.minute, 2), ':', Padded(m.second, 2));
    assert (date + [' '] + time)[..10] == date;
    assert (date + [' '] + time)[11..] == time;
    date + [' '] + time
  }

  /** Reads a formatted moment back. */
  function ParseMoment(s: string): Moment
    requires |s| == 19
  {
    Moment(DigitsValue(s[0..4]), DigitsValue(s[5..7]), DigitsValue(s[8..10]),
      DigitsValue(s[11..13]), DigitsValue(s[14..16]), DigitsValue(s[17..19]))
  }

  lemma PowersUsed()
    ensures Pow10(2) == 100 && Pow10(4) == 10000
  {
    assert Pow10(1) == 10;
    assert Pow10(3) == 1000;
  }

  /** The three numbers of a date or time read back from their fields. */
  lemma FieldsValues(x: int, wx: nat, sep1: char, y: int, sep2: char, z: int)
    requires 0 <= x < Pow10(wx) && 0 <= y < 100 && 0 <= z < 100
    ensures var t := Fields(Padded(x, wx), sep1, Padded(y, 2), sep2, Padded(z, 2));
      && |t| == wx + 6
      && DigitsValue(t[..wx]) == x && DigitsValue(t[wx + 1..wx + 3]) == y && DigitsValue(t[wx + 4..]) == z
  {
    PowersUsed();
    FieldsSlices(Padded(x, wx), sep1, Padded(y, 2), sep2, Padded(z, 2));
    PaddedValue(x, wx);
    PaddedValue(y, 2);
    PaddedValue(z, 2);
  }

  /** The date field names the moment it was made from. */
  lemma FormatMomentRoundTrip(m: Moment)
    requires ValidMoment(m)
    ensures ParseMoment(FormatMoment(m)) == m
  {
    var date, time := FormatDate(m), FormatTime(m);
    PowersUsed();
    FieldsValues(m.year, 4, '-', m.month, '-', m.day);
    FieldsValues(m.hour, 2, ':', m.minute, ':', m.second);
    assert FormatMoment(m) == date + [' '] + time;
    ParseJoined(date, time);
  }

  /** Parsing a date and a time joined by a blank reads each from its own
      field. */
  lemma ParseJoined(date: string, time: string)
    requires |date| == 10 && |time| == 8
    ensures ParseMoment(date + [' '] + time) ==
      Moment(DigitsValue(date[..4]), DigitsValue(date[5..7]), DigitsValue(date[8..]),
        DigitsValue(time[..2]), DigitsValue(time[3..5]), DigitsValue(time[6..]))
  {
    var r := date + [' '] + time;
    assert r[0..4] == date[..4];
    assert r[5..7] == date[5..7];
    assert r[8..10] == date[8..];
    assert r[11..13] == time[..2];
    assert r[14..16] == time[3..5];
    assert r[17..19] == time[6..];
  }

  /** The symbol pairs as records, position for position. */
  function SymbolRecords(symbols: seq<Entry>): (r: seq<SymbolRecord>)
    ensures |r| == |symbols|
    ensures forall i :: 0 <= i < |symbols| ==> r[i] == SymbolRecord(symbols[i].0, symbols[i].1)
  {
    seq(|symbols|, i requires 0 <= i < |symbols| => SymbolRecord(symbols[i].0, symbols[i].1))
  }

  /** The records as pairs again. */
  function RecordPairs(records: seq<SymbolRecord>): (r: seq<Entry>)
    ensures |r| == |records|
    ensures forall i :: 0 <= i < |records| ==> r[i] == (records[i].symbol, records[i].meaning)
  {
    seq(|records|, i requires 0 <= i < |records| => (records[i].symbol, records[i].meaning))
  }

  /** No symbol is lost or changed in the records. */
  lemma SymbolRecordsRoundTrip(symbols: seq<Entry>)
    ensures RecordPairs(SymbolRecords(symbols)) == symbols
  {
  }

  /** `create_dream_journal_entry`, with the moment of saving passed in. */
  function CreateDreamJournalEntry(now: Moment, dreamText: string, emotion: Emotion, context: string,
                                   interpretation: string, symbols: seq<Entry>): (e: JournalEntry)
    requires ValidMoment(now)
    ensures e.dream == dreamText && e.emotion == emotion && e.context == context
    ensures e.interpretation == interpretation
    ensures |e.date| == 19 && ParseMoment(e.date) == now
    ensures RecordPairs(e.symbols) == symbols
  {
    FormatMomentRoundTrip(now);
    SymbolRecordsRoundTrip(symbols);
    JournalEntry(FormatMoment(now), dreamText, emotion, context, interpretation, SymbolRecords(symbols))
  }
}
