/**
  The records the front ends pass around (`ImageMetaDataResponse`,
  `AIResponse`, `InstagramItem`) and the fixed-width date formats used in
  prompts and output file names.
*/
module Models {
  import opened Wrappers

  /** A `DateTime` value, field by field. */
  datatype DateTime = DateTime(year: int, month: int, day: int, hour: int, minute: int, second: int) {
    /** The ranges `DateTime` itself enforces (day-of-month per month is not checked). */
    predicate Valid() {
      1 <= year <= 9999 && 1 <= month <= 12 && 1 <= day <= 31
      && 0 <= hour < 24 && 0 <= minute < 60 && 0 <= second < 60
    }
  }

  /** A `DateTime` within its ranges. */
  type Timestamp = d: DateTime | d.Valid() witness DateTime(1, 1, 1, 0, 0, 0)

  predicate IsDigit(c: char) {
    '0' <= c <= '9'
  }

  predicate AllDigits(s: string) {
    forall i :: 0 <= i < |s| ==> IsDigit(s[i])
  }

  function Digit(d: nat): (c: char)
    requires d < 10
    ensures IsDigit(c) && c as int - '0' as int == d
  {
    ('0' as int + d) as char
  }

  function Pow10(n: nat): (p: nat)
    ensures p >= 1
  {
    if n == 0 then 1 else 10 * Pow10(n - 1)
  }

  /** `n` written in decimal with exactly `width` digits, zero-padded on the
      left; only the low `width` digits are kept. */
  function Padded(n: nat, width: nat): (s: string)
    ensures |s| == width
    ensures AllDigits(s)
  {
    if width == 0 then "" else Padded(n / 10, width - 1) + [Digit(n % 10)]
  }

  /** The value of a string of decimal digits, most significant first. */
  function DigitsValue(s: string): (v: nat)
    requires AllDigits(s)
  {
    if s == [] then 0 else 10 * DigitsValue(s[..|s| - 1]) + (s[|s| - 1] as int - '0' as int)
  }

  /** Reading a padded number back gives the number, as long as it fits. */
  lemma {:induction false} PaddedRoundTrip(n: nat, width: nat)
    requires n < Pow10(width)
    ensures DigitsValue(Padded(n, width)) == n
  {
    if width > 0 {
      var s := Padded(n, width);
      assert s[..|s| - 1] == Padded(n / 10, width - 1);
      PaddedRoundTrip(n / 10, width - 1);
    }
  }

  /** Custom format `yyyy-MM-dd`. */
  function FormatDate(d: DateTime): string
    requires d.Valid()
  {
    Padded(d.year, 4) + "-" + Padded(d.month, 2) + "-" + Padded(d.day, 2)
  }

  /** Custom format `HH-mm-ss`. */
  function FormatTime(d: DateTime): string
    requires d.Valid()
  {
    Padded(d.hour, 2) + "-" + Padded(d.minute, 2) + "-" + Padded(d.second, 2)
  }

  /** The console's file-name stamp, `yyyy-MM-dd-HH-mm-ss`. */
  function ConsoleStamp(d: DateTime): string
    requires d.Valid()
  {
    FormatDate(d) + "-" + FormatTime(d)
  }

  /** The desktop app's file-name stamp, `yyyy-MM-dd_HH-mm-ss`. */
  function DesktopStamp(d: DateTime): string
    requires d.Valid()
  {
    FormatDate(d) + "_" + FormatTime(d)
  }

  lemma PaddedFieldsRoundTrip(d: DateTime)
    requires d.Valid()
    ensures DigitsValue(Padded(d.year, 4)) == d.year
    ensures DigitsValue(Padded(d.month, 2)) == d.month
    ensures DigitsValue(Padded(d.day, 2)) == d.day
    ensures DigitsValue(Padded(d.hour, 2)) == d.hour
    ensures DigitsValue(Padded(d.minute, 2)) == d.minute
    ensures DigitsValue(Padded(d.second, 2)) == d.second
  {
    assert Pow10(4) == 10000 && Pow10(2) == 100;
    PaddedRoundTrip(d.year, 4);
    PaddedRoundTrip(d.month, 2);
    PaddedRoundTrip(d.day, 2);
    PaddedRoundTrip(d.hour, 2);
    PaddedRoundTrip(d.minute, 2);
    PaddedRoundTrip(d.second, 2);
  }

  /** `yyyy-MM-dd` is ten characters, dashes at 4 and 7, and the three digit
      groups read back as year, month and day. */
  lemma FormatDateRoundTrip(d: DateTime)
    requires d.Valid()
    ensures var s := FormatDate(d);
      |s| == 10 && s[4] == '-' && s[7] == '-'
      && AllDigits(s[..4]) && AllDigits(s[5..7]) && AllDigits(s[8..])
      && DigitsValue(s[..4]) == d.year && DigitsValue(s[5..7]) == d.month && DigitsValue(s[8..]) == d.day
  {
    var s := FormatDate(d);
    assert s[..4] == Padded(d.year, 4);
    assert s[5..7] == Padded(d.month, 2);
    assert s[8..] == Padded(d.day, 2);
    PaddedFieldsRoundTrip(d);
  }

  /** Both stamps are nineteen characters, carry every field of the timestamp
      (so two different timestamps give two different names), and differ only
      in the character between date and time. */
  lemma StampsRoundTrip(d: DateTime)
    requires d.Valid()
    ensures var c, w := ConsoleStamp(d), DesktopStamp(d);
      |c| == 19 && |w| == 19 && c[10] == '-' && w[10] == '_'
      && c[..10] == w[..10] == FormatDate(d) && c[11..] == w[11..] == FormatTime(d)
      && DigitsValue(c[11..13]) == d.hour && DigitsValue(c[14..16]) == d.minute
      && DigitsValue(c[17..]) == d.second
  {
    var c := ConsoleStamp(d);
    var t := FormatTime(d);
    assert c[11..] == t;
    assert c[11..13] == t[..2] == Padded(d.hour, 2);
    assert c[14..16] == t[3..5] == Padded(d.minute, 2);
    assert c[17..] == t[6..] == Padded(d.second, 2);
    PaddedFieldsRoundTrip(d);
  }

  lemma StampIsInjective(d: DateTime, e: DateTime)
    requires d.Valid() && e.Valid()
    requires ConsoleStamp(d) == ConsoleStamp(e)
    ensures d == e
  {
    StampsRoundTrip(d);
    StampsRoundTrip(e);
    FormatDateRoundTrip(d);
    FormatDateRoundTrip(e);
    assert FormatDate(d) == ConsoleStamp(d)[..10];
  }

  /** Encoded image data. */
  type Bytes = seq<bv8>

  /** `ImageMetaDataResponse`: what the EXIF reader found, each part optional.
      Coordinates are kept as exact numbers. */
  datatype ImageMetaData = ImageMetaData(captureDate: Option<Timestamp>, latitude: Option<real>, longitude: Option<real>)

  /** `AIResponse`: the model's raw text, its cleaned form and the token usage. */
  datatype AIResponse = AIResponse(rawContent: string, content: string, inputTokenCount: int, outputTokenCount: int)

  /** `InstagramItem`: one processed picture. */
  datatype InstagramItem = InstagramItem(imageName: string, imageMetaData: ImageMetaData, openAIResponse: AIResponse)
}
