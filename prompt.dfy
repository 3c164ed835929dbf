/**
  PromptService.GetInstagramCaptionPrompt and its two helpers: a builder
  string that lines are appended to (each followed by `Environment.NewLine`)
  and that is trimmed at the end.
*/
module Prompt {
  import opened Wrappers
  import opened Text
  import opened Errors
  import opened Models
  import opened Selection

  /** `double.ToString(CultureInfo.InvariantCulture)`, which is not modelled. */
  type NumberFormat = real -> string

  /** The kinds of line a prompt is made of. */
  datatype PromptLine =
    | Caption(language: string)
    | Landmarks
    | Hashtags
    | TakenOn(date: Timestamp)
    | Latitude(latitude: real)
    | Longitude(longitude: real)
    | AdditionalInfo(text: string)

  const CaptionPrefix := "Create an engaging caption in "
  const CaptionSuffix := " for an Instagram post based on the provided image."
  const LandmarksText := "Try to recognize notable buildings, landmarks, or environmental details."
  const HashtagsText := "Include at least 10 creative and relevant hashtags."
  const TakenOnPrefix := "The image was taken on "
  const LatitudePrefix := "Latitude: "
  const LongitudePrefix := "Longitude: "
  const AdditionalInfoPrefix := "Also consider this additional information: "
  const LanguageText := "Language must not be null or empty."

  function Render(line: PromptLine, format: NumberFormat): string {
    match line
    case Caption(language) => CaptionPrefix + language + CaptionSuffix
    case Landmarks => LandmarksText
    case Hashtags => HashtagsText
    case TakenOn(d) => TakenOnPrefix + FormatDate(d) + "."
    case Latitude(x) => LatitudePrefix + format(x) + "."
    case Longitude(x) => LongitudePrefix + format(x) + "."
    case AdditionalInfo(t) => AdditionalInfoPrefix + t
  }

  function Rendered(lines: seq<PromptLine>, format: NumberFormat): (r: seq<string>)
    ensures |r| == |lines|
    ensures forall k :: 0 <= k < |lines| ==> r[k] == Render(lines[k], format)
  {
    if lines == [] then [] else Rendered(lines[..|lines| - 1], format) + [Render(lines[|lines| - 1], format)]
  }

  /** What `AppendLine` leaves in the builder for a run of lines. */
  function Terminated(texts: seq<string>, newLine: NewLine): string {
    if texts == [] then "" else Terminated(texts[..|texts| - 1], newLine) + texts[|texts| - 1] + newLine.Chars()
  }

  /** The lines separated by line breaks, with none after the last. */
  function Join(texts: seq<string>, newLine: NewLine): string {
    if texts == [] then ""
    else if |texts| == 1 then texts[0]
    else Join(texts[..|texts| - 1], newLine) + newLine.Chars() + texts[|texts| - 1]
  }

  /** The three fixed lines. */
  function HeaderLines(language: string): seq<PromptLine> {
    [Caption(language), Landmarks, Hashtags]
  }

  /** The lines `AppendIfAvailable` adds: date, latitude, longitude, each only
      when present. */
  function MetadataLines(data: ImageMetaData): seq<PromptLine> {
    (if data.captureDate.Some? then [TakenOn(data.captureDate.value)] else [])
    + (if data.latitude.Some? then [Latitude(data.latitude.value)] else [])
    + (if data.longitude.Some? then [Longitude(data.longitude.value)] else [])
  }

  /** The line `AppendAdditionalInformation` adds, with the hint trimmed. */
  function InfoLines(info: Option<string>): seq<PromptLine> {
    if IsNullOrWhiteSpace(info) then [] else [AdditionalInfo(Trim(info.value))]
  }

  function PromptLines(language: string, data: ImageMetaData, info: Option<string>): seq<PromptLine> {
    HeaderLines(language) + MetadataLines(data) + InfoLines(info)
  }

  /** The prompt text for a non-blank language. */
  function PromptText(language: string, data: ImageMetaData, info: Option<string>, format: NumberFormat, newLine: NewLine): string {
    Join(Rendered(PromptLines(language, data, info), format), newLine)
  }

  lemma {:induction false} TerminatedAppend(a: seq<string>, b: seq<string>, newLine: NewLine)
    ensures Terminated(a + b, newLine) == Terminated(a, newLine) + Terminated(b, newLine)
    decreases |b|
  {
    if b == [] {
      assert a + b == a;
    } else {
      var b0 := b[..|b| - 1];
      assert (a + b)[..|a + b| - 1] == a + b0;
      TerminatedAppend(a, b0, newLine);
    }
  }

  lemma {:induction false} RenderedAppend(a: seq<PromptLine>, b: seq<PromptLine>, format: NumberFormat)
    ensures Rendered(a + b, format) == Rendered(a, format) + Rendered(b, format)
    decreases |b|
  {
    if b == [] {
      assert a + b == a;
    } else {
      var b0 := b[..|b| - 1];
      assert (a + b)[..|a + b| - 1] == a + b0;
      RenderedAppend(a, b0, format);
    }
  }

  /** Appending every line with a break is joining them and adding one break. */
  lemma {:induction false} TerminatedIsJoinedPlusBreak(texts: seq<string>, newLine: NewLine)
    requires texts != []
    ensures Terminated(texts, newLine) == Join(texts, newLine) + newLine.Chars()
  {
    if |texts| == 1 {
      assert texts[..0] == [];
    } else {
      TerminatedIsJoinedPlusBreak(texts[..|texts| - 1], newLine);
    }
  }

  lemma {:induction false} JoinFirst(texts: seq<string>, newLine: NewLine)
    requires texts != [] && texts[0] != []
    ensures Join(texts, newLine) != [] && Join(texts, newLine)[0] == texts[0][0]
  {
    if |texts| > 1 {
      JoinFirst(texts[..|texts| - 1], newLine);
    }
  }

  lemma JoinLast(texts: seq<string>, newLine: NewLine)
    requires texts != [] && texts[|texts| - 1] != []
    ensures var j, t := Join(texts, newLine), texts[|texts| - 1];
      j != [] && j[|j| - 1] == t[|t| - 1]
  {
  }

  /** Trimming the builder only removes the break after the last line, as
      long as the first line starts and the last line ends with a visible
      character. */
  lemma TrimOfTerminated(texts: seq<string>, newLine: NewLine)
    requires texts != [] && texts[0] != [] && texts[|texts| - 1] != []
    requires !IsWhiteSpace(texts[0][0])
    requires !IsWhiteSpace(texts[|texts| - 1][|texts[|texts| - 1]| - 1])
    ensures Trim(Terminated(texts, newLine)) == Join(texts, newLine)
  {
    var j := Join(texts, newLine);
    TerminatedIsJoinedPlusBreak(texts, newLine);
    JoinFirst(texts, newLine);
    JoinLast(texts, newLine);
    TrimOfBreakAfter(j, newLine);
  }

  lemma TrimOfBreakAfter(j: string, newLine: NewLine)
    requires j != [] && !IsWhiteSpace(j[0]) && !IsWhiteSpace(j[|j| - 1])
    ensures Trim(j + newLine.Chars()) == j
  {
    var nl := newLine.Chars();
    assert AllWhiteSpace(nl) by {
      assert forall i :: 0 <= i < |nl| ==> nl[i] == '\r' || nl[i] == '\n';
    }
    TrimOfPadded([], j, nl);
    assert [] + j + nl == j + nl;
  }

  /** Appending one more rendered line and a break to the builder. */
  lemma AppendOne(builder: string, lines: seq<PromptLine>, x: PromptLine, format: NumberFormat, newLine: NewLine)
    ensures builder + Terminated(Rendered(lines, format), newLine) + Render(x, format) + newLine.Chars()
         == builder + Terminated(Rendered(lines + [x], format), newLine)
  {
    var r := Rendered(lines + [x], format);
    assert (lines + [x])[..|lines|] == lines;
    assert r[..|r| - 1] == Rendered(lines, format) && r[|r| - 1] == Render(x, format);
    var t := Terminated(Rendered(lines, format), newLine);
    assert Terminated(r, newLine) == t + Render(x, format) + newLine.Chars();
    AppendAssociates(builder, t + Render(x, format), newLine.Chars());
    AppendAssociates(builder, t, Render(x, format));
  }

  lemma NothingAppended(builder: string, format: NumberFormat, newLine: NewLine)
    ensures builder + Terminated(Rendered([], format), newLine) == builder
  {
  }

  /** The line for a field that may be missing. */
  function OptionalLine<T>(value: Option<T>, line: T -> PromptLine): seq<PromptLine> {
    if value.Some? then [line(value.value)] else []
  }

  lemma MetadataLinesArePieces(data: ImageMetaData)
    ensures MetadataLines(data)
         == OptionalLine(data.captureDate, d => TakenOn(d))
          + OptionalLine(data.latitude, x => Latitude(x))
          + OptionalLine(data.longitude, x => Longitude(x))
  {
  }

  lemma InfoLinesOfHint(info: Option<string>)
    ensures !IsNullOrWhiteSpace(info) ==> InfoLines(info) == [AdditionalInfo(Trim(info.value))]
    ensures IsNullOrWhiteSpace(info) ==> InfoLines(info) == []
  {
  }

  /** Every rendered line is non-empty and ends with a visible character
      (a period, or the last character of a trimmed, non-blank hint). */
  lemma RenderEndsVisible(line: PromptLine, format: NumberFormat)
    requires line.AdditionalInfo? ==> line.text != [] && IsTrimmed(line.text)
    ensures var t := Render(line, format); t != [] && !IsWhiteSpace(t[|t| - 1])
  {
    var t := Render(line, format);
    match line
    case AdditionalInfo(x) => assert t[|t| - 1] == x[|x| - 1];
    case Caption(_) => assert t[|t| - 1] == '.';
    case TakenOn(_) => assert t[|t| - 1] == '.';
    case Latitude(_) => assert t[|t| - 1] == '.';
    case Longitude(_) => assert t[|t| - 1] == '.';
    case Landmarks => assert t[|t| - 1] == '.';
    case Hashtags => assert t[|t| - 1] == '.';
  }

  /** `AppendIfAvailable(builder, data)`. */
  method AppendIfAvailable(builder: string, data: ImageMetaData, format: NumberFormat, newLine: NewLine)
    returns (b: string)
    ensures b == builder + Terminated(Rendered(MetadataLines(data), format), newLine)
  {
    b := builder;
    ghost var added: seq<PromptLine> := [];
    NothingAppended(builder, format, newLine);
    if data.captureDate.Some? {
      var line := TakenOn(data.captureDate.value);
      AppendOne(builder, added, line, format, newLine);
      b := b + Render(line, format) + newLine.Chars();
      added := added + [line];
    }
    ghost var withDate := added;
    if data.latitude.Some? {
      var line := Latitude(data.latitude.value);
      AppendOne(builder, added, line, format, newLine);
      b := b + Render(line, format) + newLine.Chars();
      added := added + [line];
    }
    ghost var withLatitude := added;
    if data.longitude.Some? {
      var line := Longitude(data.longitude.value);
      AppendOne(builder, added, line, format, newLine);
      b := b + Render(line, format) + newLine.Chars();
      added := added + [line];
    }
    MetadataLinesArePieces(data);
    assert withDate == OptionalLine(data.captureDate, d => TakenOn(d));
    assert withLatitude == withDate + OptionalLine(data.latitude, x => Latitude(x));
    assert added == withLatitude + OptionalLine(data.longitude, x => Longitude(x));
  }

  /** `AppendAdditionalInformation(builder, info)`. */
  method AppendAdditionalInformation(builder: string, info: Option<string>, format: NumberFormat, newLine: NewLine)
    returns (b: string)
    ensures b == builder + Terminated(Rendered(InfoLines(info), format), newLine)
  {
    InfoLinesOfHint(info);
    if !IsNullOrWhiteSpace(info) {
      var line := AdditionalInfo(Trim(info.value));
      AppendOne(builder, [], line, format, newLine);
      NothingAppended(builder, format, newLine);
      b := builder + Render(line, format) + newLine.Chars();
    } else {
      b := builder;
      NothingAppended(builder, format, newLine);
    }
  }

  /** What `GetInstagramCaptionPrompt` returns or throws, for the callers' specifications. */
  function CaptionPrompt(language: Option<string>, data: ImageMetaData, info: Option<string>,
                         format: NumberFormat, newLine: NewLine): Result<string, Error>
  {
    if IsNullOrWhiteSpace(language) then Failure(ArgumentError(LanguageText, "language"))
    else Success(PromptText(language.value, data, info, format, newLine))
  }

  /** `GetInstagramCaptionPrompt(language, imageMetaData, additionalInformation)`. */
  method GetInstagramCaptionPrompt(language: Option<string>, data: ImageMetaData, info: Option<string>,
                                   format: NumberFormat, newLine: NewLine)
    returns (r: Result<string, Error>)
    ensures IsNullOrWhiteSpace(language) ==> r == Failure(ArgumentError(LanguageText, "language"))
    ensures !IsNullOrWhiteSpace(language) ==> r == Success(PromptText(language.value, data, info, format, newLine))
    ensures r == CaptionPrompt(language, data, info, format, newLine)
  {
    if IsNullOrWhiteSpace(language) {
      return Failure(ArgumentError(LanguageText, "language"));
    }
    var builder := "";
    HeaderIsTerminated(language.value, format, newLine);
    builder := builder + Render(Caption(language.value), format) + newLine.Chars();
    builder := builder + Render(Landmarks, format) + newLine.Chars();
    builder := builder + Render(Hashtags, format) + newLine.Chars();
    builder := AppendIfAvailable(builder, data, format, newLine);
    builder := AppendAdditionalInformation(builder, info, format, newLine);
    BuilderIsTerminated(language.value, data, info, format, newLine);
    PromptTextIsTrimmedBuilder(language.value, data, info, format, newLine);
    r := Success(Trim(builder));
  }

  lemma HeaderIsTerminated(language: string, format: NumberFormat, newLine: NewLine)
    ensures Terminated(Rendered(HeaderLines(language), format), newLine)
         == "" + Render(Caption(language), format) + newLine.Chars()
               + Render(Landmarks, format) + newLine.Chars()
               + Render(Hashtags, format) + newLine.Chars()
  {
    var c, l, h := Caption(language), Landmarks, Hashtags;
    var nl := newLine.Chars();
    NothingAppended("", format, newLine);
    AppendOne("", [], c, format, newLine);
    assert [] + [c] == [c];
    var t1 := Terminated(Rendered([c], format), newLine);
    assert t1 == "" + Render(c, format) + nl;
    AppendOne("", [c], l, format, newLine);
    assert [c] + [l] == [c, l];
    var t2 := Terminated(Rendered([c, l], format), newLine);
    assert t2 == t1 + Render(l, format) + nl;
    AppendOne("", [c, l], h, format, newLine);
    assert [c, l] + [h] == [c, l, h] == HeaderLines(language);
    assert Terminated(Rendered([c, l, h], format), newLine) == t2 + Render(h, format) + nl;
  }

  /** The three appends leave the whole line list, each line with its break. */
  lemma BuilderIsTerminated(language: string, data: ImageMetaData, info: Option<string>, format: NumberFormat, newLine: NewLine)
    ensures Terminated(Rendered(HeaderLines(language), format), newLine)
          + Terminated(Rendered(MetadataLines(data), format), newLine)
          + Terminated(Rendered(InfoLines(info), format), newLine)
         == Terminated(Rendered(PromptLines(language, data, info), format), newLine)
  {
    var h, m, i := HeaderLines(language), MetadataLines(data), InfoLines(info);
    RenderedAppend(h, m, format);
    RenderedAppend(h + m, i, format);
    TerminatedAppend(Rendered(h, format), Rendered(m, format), newLine);
    TerminatedAppend(Rendered(h + m, format), Rendered(i, format), newLine);
  }

  /** The final `Trim` turns the builder into the joined lines. */
  lemma PromptTextIsTrimmedBuilder(language: string, data: ImageMetaData, info: Option<string>, format: NumberFormat, newLine: NewLine)
    ensures Trim(Terminated(Rendered(PromptLines(language, data, info), format), newLine))
         == PromptText(language, data, info, format, newLine)
  {
    PromptLinesEndVisible(language, data, info, format);
    TrimOfTerminated(Rendered(PromptLines(language, data, info), format), newLine);
  }

  /** The first rendered line starts with 'C' and the last ends visibly. */
  lemma PromptLinesEndVisible(language: string, data: ImageMetaData, info: Option<string>, format: NumberFormat)
    ensures var texts := Rendered(PromptLines(language, data, info), format);
      texts != [] && texts[0] != [] && texts[|texts| - 1] != []
      && texts[0][0] == 'C'
      && !IsWhiteSpace(texts[|texts| - 1][|texts[|texts| - 1]| - 1])
  {
    var lines := PromptLines(language, data, info);
    var last := lines[|lines| - 1];
    if last.AdditionalInfo? {
      assert last == AdditionalInfo(Trim(info.value));
      TrimIsTrimmedPiece(info.value);
    }
    RenderEndsVisible(last, format);
    assert lines[0] == Caption(language);
  }

  /** The prompt opens with the three fixed lines; a line for the capture
      date, the latitude, the longitude and the hint is present exactly when
      that value is, they come in that order, and the hint appears trimmed. */
  lemma PromptLinesFollowInputs(language: string, data: ImageMetaData, info: Option<string>)
    ensures var lines := PromptLines(language, data, info);
      var n := 3 + (if data.captureDate.Some? then 1 else 0) + (if data.latitude.Some? then 1 else 0)
             + (if data.longitude.Some? then 1 else 0);
      |lines| == n + (if IsNullOrWhiteSpace(info) then 0 else 1)
      && lines[..3] == HeaderLines(language)
      && lines[3..n] == MetadataLines(data)
      && lines[n..] == InfoLines(info)
      && (data.captureDate.Some? ==> lines[3] == TakenOn(data.captureDate.value))
      && (data.longitude.Some? ==> lines[n - 1] == Longitude(data.longitude.value))
      && (!IsNullOrWhiteSpace(info) ==> lines[n] == AdditionalInfo(Trim(info.value)))
  {
    var lines := PromptLines(language, data, info);
    var h, m, i := HeaderLines(language), MetadataLines(data), InfoLines(info);
    assert lines == h + m + i;
    assert lines[..3] == h;
    assert lines[3..3 + |m|] == m;
    assert lines[3 + |m|..] == i;
  }

  /** A line is about a picture's metadata exactly when the matching field
      is present: no date, latitude or longitude line without a value. */
  lemma MetadataLineIffPresent(data: ImageMetaData, k: nat)
    requires k < |MetadataLines(data)|
    ensures MetadataLines(data)[k].TakenOn? ==> data.captureDate == Some(MetadataLines(data)[k].date)
    ensures MetadataLines(data)[k].Latitude? ==> data.latitude == Some(MetadataLines(data)[k].latitude)
    ensures MetadataLines(data)[k].Longitude? ==> data.longitude == Some(MetadataLines(data)[k].longitude)
    ensures MetadataLines(data)[k].TakenOn? || MetadataLines(data)[k].Latitude? || MetadataLines(data)[k].Longitude?
  {
    MetadataLinesArePieces(data);
  }

  /** The prompt is never blank and has nothing to trim, so the chat
      service's blank-prompt check never rejects it. */
  lemma PromptTextIsTrimmedAndVisible(language: string, data: ImageMetaData, info: Option<string>,
                                      format: NumberFormat, newLine: NewLine)
    ensures var p := PromptText(language, data, info, format, newLine);
      p != [] && !AllWhiteSpace(p) && IsTrimmed(p) && p[0] == 'C'
  {
    var texts := Rendered(PromptLines(language, data, info), format);
    var p := PromptText(language, data, info, format, newLine);
    PromptLinesEndVisible(language, data, info, format);
    JoinFirst(texts, newLine);
    JoinLast(texts, newLine);
    assert !IsWhiteSpace(p[0]);
  }
}
