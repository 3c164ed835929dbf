# PicCaptionr core in Dafny

PicCaptionr writes Instagram captions for a folder of holiday pictures. It
lists the pictures in a folder and handles each one in turn:

- it reads the EXIF data;
- it resizes the picture;
- it builds a caption prompt from the metadata and a user hint;
- it asks an OpenAI or Azure OpenAI vision model for a caption;
- it cleans the model's answer.

At the end it writes every successful caption to one output file. The same
library backs two front ends: a console application
(`ProcessService.StartProcessAsync`) and a WPF desktop application
(`MainWindowViewModel.ProcessImagesAsync`).

This project models the core of that library and of both front ends:

- **`ContentSanitizer`**: the chain of replacements and the trim in `CleanContent`.
- **`Prompt`**: `PromptService`. The three fixed lines are followed by the optional metadata lines and the optional hint. The text is accumulated in a method, as the `StringBuilder` is.
- **`Storage`**:
  - `StorageService`: the case-insensitive extension filter over a directory listing, and the argument checks of `GetPictureFilesInFolder`, `CreateDirectory` and `WriteData`;
  - the disk, as a `FileSystem` object that those methods change.
- **`Chat`**: `ChatService`. The `chatClient` field is set by the two `Init*` methods. `MakeVisionRequestAsync` checks its arguments, builds the messages, and shapes the response through `CleanContent`.
- **`ConsoleInput`**: `ConsoleService.ValidateInput`.
- **`ConsoleProcess`**: the console's `StartProcessAsync`, `InitializeChatClient`, `GetValidatedFolderPath` and `GetValidatedOutputFolderPath`.
- **`DesktopViewModel`**: the desktop view model. This covers its settings, `IsProcessing`, `CanProcessImages`, `CanSelectFolder` and `ProcessImagesAsync`, plus the WPF process tracker that trims every message into the activity log.
- **`ActivityLog`**: `ActivityLogService`, an append-only collection that the view shares.
- **`Models`**: the records `ImageMetaDataResponse` and `InstagramItem` and the date formats used in prompts and file names.
- **`Text` and `Paths`**: the .NET string and path operations the core relies on (`Trim`, `Replace`, `ToLowerInvariant`, `EndsWith` with `OrdinalIgnoreCase`, `Path.GetExtension`, `Path.GetFileName`, `Path.Combine`), written out.
- **`Selection`**: the in-order selection that both loops and the LINQ filter share.
- **`Steps`**: the prompt and vision steps that both loops share.

How the model is built:

- **Recursion and state.** Every loop of the source is a method with a `while` or `for` loop. Each one is proved against a recursive function over the list of pictures. For the console that function is `ConsoleFile`, `ConsoleItems` and `ConsoleNotices`. For the desktop it is `DesktopFile`, `DesktopItems`, `DesktopEntries` and `ClientAfter`. Lemmas then prove the source's promises about those functions.
- **Whole runs.** A whole run is a function of the disk, the client field, the inputs and the clock: `ConsoleProcess.ConsoleRun` and `DesktopViewModel.ProcessRun`. The methods `StartProcess` and `ProcessImages` are proved equal to these functions.
- **Exceptions.** An exception is a `Failure`/`Fail` value; `Error.Message()` gives what a `catch` sees in `ex.Message`. A `null` string is `None`.
- **Parameters.** `Environment.NewLine` is passed in as `Lf` ("\n") or `CrLf` ("\r\n"). So are `DateTime.Now` (a timestamp) and the number formatting of latitude and longitude (a function).
- **Oracles.** The image library (metadata and resize) and the completion call are functions that return a value or an error. They sit in the `Services` datatype.

## Model

| member | source | states |
|---|---|---|
| Text.NewLine.Chars | src/PicCaptionr/Utils/ContentSanitizer.cs:33-35 | `Environment.NewLine` is either "\n" or "\r\n" |
| Text.LeadingWhiteSpace | src/PicCaptionr/Utils/ContentSanitizer.cs:37 | the count of leading characters that `char.IsWhiteSpace` accepts, stopping at the first one it rejects |
| Text.TrimRangeBounds | src/PicCaptionr/Utils/ContentSanitizer.cs:37 | trimming a piece keeps a contiguous slice; everything dropped on either side is whitespace, and a non-empty result starts and ends with non-whitespace |
| Text.TrimIsTrimmedPiece | src/PicCaptionr/Utils/ContentSanitizer.cs:37 | `Trim()` returns the slice of its input that starts after the leading whitespace, with no whitespace at either end; it is empty exactly when the input is all whitespace |
| Text.TrimOfTrimmed | src/PicCaptionr/Services/PromptService.cs:70 | `Trim()` leaves a string with no whitespace at its ends unchanged |
| Text.TrimOfPadded | src/PicCaptionr/Services/PromptService.cs:34 | trimming whitespace, then a trimmed non-empty text, then more whitespace gives back exactly that text |
| Text.TrimKeepsChars | src/PicCaptionr/Utils/ContentSanitizer.cs:37 | `Trim()` introduces no character that is not in its input |
| Text.ReplaceCharOrigin | src/PicCaptionr/Utils/ContentSanitizer.cs:29 | every character of `Replace`'s result comes from the replacement or from the input; a replaced one-character pattern never remains |
| Text.ReplaceNotLonger | src/PicCaptionr/Utils/ContentSanitizer.cs:29-33 | replacing a pattern by something no longer never lengthens the string |
| Text.ReplaceBySelf | src/PicCaptionr/Utils/ContentSanitizer.cs:35 | replacing a pattern by itself is the identity |
| Text.ReplaceWithoutOccurrence | src/PicCaptionr/Utils/ContentSanitizer.cs:29-35 | without an occurrence of the pattern, `Replace` returns its input |
| Text.ReplaceWithoutPatternHead | src/PicCaptionr/Utils/ContentSanitizer.cs:29-35 | when the pattern's first character never appears, `Replace` returns its input |
| Text.ReplaceFirstOccurrence | src/PicCaptionr/Utils/ContentSanitizer.cs:29-35 | ordinal `Replace` scans from the left: the leftmost occurrence is replaced and scanning resumes after it, so replacements do not overlap |
| Text.ReplaceAtFirstHead | src/PicCaptionr/Utils/ContentSanitizer.cs:29-35 | the leftmost-occurrence rule, for a prefix that holds no first character of the pattern |
| Text.ReplaceFirstChar | src/PicCaptionr/Utils/ContentSanitizer.cs:29-35 | the result is non-empty and starts with the first character of the input or of the replacement |
| Text.ToLowerIsLowerCase | src/PicCaptionr.ConsoleApp/Services/ProcessService.cs:109 | after `ToLowerInvariant` no ASCII capital remains, every other character is kept, a second call changes nothing, and the result equals the input ignoring case |
| Text.UpperLowerAgree | src/PicCaptionr/Services/StorageService.cs:62 | comparing under upper-casing and comparing under lower-casing agree character by character |
| Text.EndsWithIgnoreCaseIsLowerSuffix | src/PicCaptionr/Services/StorageService.cs:62 | `EndsWith(ext, OrdinalIgnoreCase)` against a lower-case suffix is a plain suffix test on the lower-cased path |
| Text.Utf16LengthBounds | src/PicCaptionr.ConsoleApp/Services/ConsoleService.cs:137-142 | `string.Length` counts UTF-16 code units: between the number of characters and twice it, and equal to it exactly when no character lies beyond the Basic Multilingual Plane |
| Models.Digit | src/PicCaptionr/Services/PromptService.cs:46 | the character for a decimal digit is a digit with that value |
| Models.Padded | src/PicCaptionr/Services/PromptService.cs:46 | a zero-padded field (`yyyy`, `MM`, …) has exactly its width and only digits |
| Models.PaddedRoundTrip | src/PicCaptionr/Services/PromptService.cs:46 | reading a padded field back gives the number whenever it fits the width |
| Models.PaddedFieldsRoundTrip | src/PicCaptionr/Services/PromptService.cs:46 | every field of a valid timestamp survives its padding |
| Models.FormatDateRoundTrip | src/PicCaptionr/Services/PromptService.cs:46 | `yyyy-MM-dd` is ten characters with dashes at 4 and 7, and year, month and day can be read back from it |
| Models.StampsRoundTrip | src/PicCaptionr.ConsoleApp/Services/ProcessService.cs:143 | both file-name stamps are nineteen characters and every field of the timestamp can be read back; the console separates date from time with '-' and the desktop app with '_' |
| Models.StampIsInjective | src/PicCaptionr.ConsoleApp/Services/ProcessService.cs:143 | two timestamps with the same console stamp are equal, so distinct seconds give distinct output files |
| Errors.ThrowIfNullOrWhiteSpace | src/PicCaptionr/Services/ChatService.cs:27-29 | the check passes exactly for a non-null, non-blank argument; null throws `ArgumentNullException` and blank throws `ArgumentException`, both naming the argument |
| Paths.ExtensionStart | src/PicCaptionr.ConsoleApp/Services/ProcessService.cs:107 | the dot found starts a run of extension characters up to the scan limit |
| Paths.ExtensionStartFinds | src/PicCaptionr.ConsoleApp/Services/ProcessService.cs:107 | a dot followed only by extension characters is the one found |
| Paths.GetExtension | src/PicCaptionr.ConsoleApp/Services/ProcessService.cs:107 | a non-empty `Path.GetExtension` is a suffix of the path, a dot followed by an extension body |
| Paths.GetExtensionOfName | src/PicCaptionr.ConsoleApp/Services/ProcessService.cs:107 | a name that ends in a dot and an extension body has exactly that extension |
| Paths.TrimStartChar | src/PicCaptionr.ConsoleApp/Services/ProcessService.cs:108 | after `TrimStart('.')` the result does not start with a dot |
| Paths.TrimStartCharDropsPrefix | src/PicCaptionr.ConsoleApp/Services/ProcessService.cs:108 | `TrimStart('.')` drops only leading dots and keeps the rest |
| Paths.GetFileName | src/PicCaptionr.WPFApp/ViewModels/MainWindowViewModel.cs:262 | `Path.GetFileName` is a suffix with no separator, preceded by a separator or the start of the path |
| Paths.GetFileNameAfterSeparator | src/PicCaptionr.WPFApp/ViewModels/MainWindowViewModel.cs:262 | a separator-free name after a folder ending in a separator is that path's file name |
| Paths.Combine | src/PicCaptionr.ConsoleApp/Services/ProcessService.cs:140-143 | `Path.Combine` of a non-empty folder and a non-empty relative name starts with the folder, ends with the name and adds at most one separator |
| Paths.CombineKeepsFileName | src/PicCaptionr.ConsoleApp/Services/ProcessService.cs:140-143 | combining a folder with a separator-free name gives a path whose file name is that name |
| ContentSanitizer.CleanContent | src/PicCaptionr/Utils/ContentSanitizer.cs:19-38 | null or blank content gives ""; otherwise the result holds no quote, no backslash-n pair, and no whitespace at either end |
| ContentSanitizer.QuoteNeverReturns | src/PicCaptionr/Utils/ContentSanitizer.cs:29-37 | the first step removes every quote and none of the later steps brings one back |
| ContentSanitizer.UnescapeLeavesNoEscapedNewline | src/PicCaptionr/Utils/ContentSanitizer.cs:31 | after `Replace("\\n", "\n")` no backslash is followed by `n` |
| ContentSanitizer.ReplaceKeepsNoEscapedNewline | src/PicCaptionr/Utils/ContentSanitizer.cs:33-35 | a replacement made of line-break characters cannot create a backslash-n pair |
| ContentSanitizer.TrimKeepsNoEscapedNewline | src/PicCaptionr/Utils/ContentSanitizer.cs:37 | trimming cannot create a backslash-n pair |
| ContentSanitizer.NoEscapedNewlineAfterSteps | src/PicCaptionr/Utils/ContentSanitizer.cs:31-35 | from the escape step on, no backslash-n pair exists in the text |
| ContentSanitizer.StripQuotesJoinsEscape | src/PicCaptionr/Utils/ContentSanitizer.cs:29 | removing the quote from backslash-quote-n leaves an escaped newline |
| ContentSanitizer.UnescapeBetweenPlain | src/PicCaptionr/Utils/ContentSanitizer.cs:31 | an escaped newline between plain text becomes a real LF |
| ContentSanitizer.QuoteInsideEscapeBecomesLineBreak | src/PicCaptionr/Utils/ContentSanitizer.cs:29-37 | because quotes go first, backslash-quote-n between plain text cleans to a real line break |
| ContentSanitizer.EscapeStepsIgnoreLineBreaks | src/PicCaptionr/Utils/ContentSanitizer.cs:29-31 | text with no quote and no backslash passes the first two steps unchanged |
| ContentSanitizer.CrLfStepOnLf | src/PicCaptionr/Utils/ContentSanitizer.cs:33 | with NewLine "\n" the CRLF step turns the leftmost CR LF into LF and goes on after it; text without CR LF is unchanged |
| ContentSanitizer.CrLfStepBetweenPlain | src/PicCaptionr/Utils/ContentSanitizer.cs:33 | with NewLine "\n" a CR LF between plain text becomes LF |
| ContentSanitizer.CrLfStepLeavesLoneCr | src/PicCaptionr/Utils/ContentSanitizer.cs:33 | with NewLine "\n", CR CR LF becomes CR LF, not LF: the step runs only once |
| ContentSanitizer.DoubleBreakStepIsIdentityOnLf | src/PicCaptionr/Utils/ContentSanitizer.cs:35 | with NewLine "\n" the double-break step changes nothing |
| ContentSanitizer.LineBreakBetweenPlainIsFinal | src/PicCaptionr/Utils/ContentSanitizer.cs:33-37 | a single LF between plain text survives the line-break steps and the trim, on either NewLine |
| ContentSanitizer.CleanContentNotLongerOnLf | src/PicCaptionr/Utils/ContentSanitizer.cs:29-37 | with NewLine "\n" the result is never longer than the content |
| ContentSanitizer.CleanContentCrLfBetweenPlain | src/PicCaptionr/Utils/ContentSanitizer.cs:29-37 | with NewLine "\n", "a\r\nb" cleans to "a\nb" |
| ContentSanitizer.CleanContentLoneCrBetweenPlain | src/PicCaptionr/Utils/ContentSanitizer.cs:29-37 | with NewLine "\n", "a\r\r\nb" cleans to "a\r\nb" |
| ContentSanitizer.CleanContentIsNotIdempotent | src/PicCaptionr/Utils/ContentSanitizer.cs:19-38 | cleaning twice can differ from cleaning once ("a\r\r\nb" gives "a\r\nb", then "a\nb") |
| Prompt.Rendered | src/PicCaptionr/Services/PromptService.cs:27-70 | one text per prompt line, each the rendering of its line |
| Prompt.TerminatedIsJoinedPlusBreak | src/PicCaptionr/Services/PromptService.cs:25-32 | a run of `AppendLine` calls leaves the lines joined by line breaks, plus one break at the end |
| Prompt.TrimOfTerminated | src/PicCaptionr/Services/PromptService.cs:34 | when the first line starts and the last line ends with non-whitespace, the final `Trim` removes only the last break |
| Prompt.RenderEndsVisible | src/PicCaptionr/Services/PromptService.cs:27-70 | every rendered line is non-empty and ends with a non-whitespace character |
| Prompt.MetadataLinesArePieces | src/PicCaptionr/Services/PromptService.cs:44-57 | the metadata lines are the date line, then the latitude line, then the longitude line, each present only with its field |
| Prompt.InfoLinesOfHint | src/PicCaptionr/Services/PromptService.cs:66-72 | a non-blank hint adds one line carrying `info.Trim()`; a null or blank hint adds none |
| Prompt.AppendIfAvailable | src/PicCaptionr/Services/PromptService.cs:42-58 | the builder gains exactly the metadata lines, each with its line break |
| Prompt.AppendAdditionalInformation | src/PicCaptionr/Services/PromptService.cs:66-72 | the builder gains exactly the hint line, if any, with its line break |
| Prompt.GetInstagramCaptionPrompt | src/PicCaptionr/Services/PromptService.cs:15-35 | a null or blank language throws `ArgumentException` naming `language`; otherwise the prompt is the joined lines |
| Prompt.CaptionPrompt | src/PicCaptionr/Services/PromptService.cs:15-35 | the value `GetInstagramCaptionPrompt` returns or throws, which the loop bodies' steps are specified by; the method is proved equal to it |
| Prompt.PromptText | src/PicCaptionr/Services/PromptService.cs:25-34 | the rendered header, metadata and hint lines joined by NewLine; `PromptTextIsTrimmedBuilder` proves it is the builder's trimmed text |
| Prompt.HeaderIsTerminated | src/PicCaptionr/Services/PromptService.cs:27-29 | the three fixed `AppendLine` calls leave the caption, landmark and hashtag lines, each followed by a break |
| Prompt.BuilderIsTerminated | src/PicCaptionr/Services/PromptService.cs:25-32 | the builder holds the header, metadata and hint lines, in that order, each followed by a break |
| Prompt.PromptTextIsTrimmedBuilder | src/PicCaptionr/Services/PromptService.cs:34 | `ToString().Trim()` of the builder equals the lines joined without a trailing break |
| Prompt.PromptLinesEndVisible | src/PicCaptionr/Services/PromptService.cs:27-34 | the first line starts with 'C' and the last ends with a visible character |
| Prompt.PromptLinesFollowInputs | src/PicCaptionr/Services/PromptService.cs:27-32 | the lines are the three fixed lines, then one line per present metadata field, then the hint line; date first, longitude last, hint after all metadata |
| Prompt.MetadataLineIffPresent | src/PicCaptionr/Services/PromptService.cs:44-57 | each metadata line is a date, latitude or longitude line carrying the value of a present field |
| Prompt.PromptTextIsTrimmedAndVisible | src/PicCaptionr/Services/PromptService.cs:34 | the prompt is never blank, has no whitespace at its ends and starts with "C", so the chat service's blank-prompt check never rejects it |
| Storage.FilterImagesIsOrderedSubsequence | src/PicCaptionr/Services/StorageService.cs:60-62 | the filter keeps a path exactly when it is an image file, and keeps the kept paths in listing order |
| Storage.FilterImages | src/PicCaptionr/Services/StorageService.cs:60-62 | the `Where` over the listing, defined by the in-order selection; its meaning is stated by `FilterImagesIsOrderedSubsequence` and `FilterImagesMembership` |
| Storage.IsImageFile | src/PicCaptionr/Services/StorageService.cs:62 | the `Any(ext => file.EndsWith(ext, OrdinalIgnoreCase))` test; related to a lower-case suffix test by `IsImageFileIsLowerSuffix` |
| Storage.FilterImagesMembership | src/PicCaptionr/Services/StorageService.cs:60-62 | a path is returned if and only if it is listed and ends, ignoring case, with an image extension |
| Storage.ImageExtensionsAreLowerCase | src/PicCaptionr/Services/StorageService.cs:17-18 | the five extensions are written in lower case |
| Storage.IsImageFileIsLowerSuffix | src/PicCaptionr/Services/StorageService.cs:60-62 | a path is an image file exactly when its lower-cased form ends with one of the five extensions |
| Storage.ImageFileExtension | src/PicCaptionr/Services/StorageService.cs:60-62 | an image file names the extension it ends with |
| Storage.GetPictureFilesInFolder | src/PicCaptionr/Services/StorageService.cs:42-76 | a blank path throws `ArgumentException` before the existence check; a missing folder throws `DirectoryNotFoundException`; denied access and other listing failures throw `IOException`; otherwise the result is the filtered listing |
| Storage.PictureFilesAreImages | src/PicCaptionr/Services/StorageService.cs:60-62 | every returned path is a listed image file, and every listed image file is returned |
| Storage.CreateDirectoryResult | src/PicCaptionr/Services/StorageService.cs:21-32 | a blank path, and only a blank path, throws `ArgumentException`; a missing folder whose creation the disk refuses (a file in the way, a denied parent) throws that fault's exception; an existing folder, or a missing one without a fault, then exists and nothing else on the disk changes |
| Storage.CreateDirectory | src/PicCaptionr/Services/StorageService.cs:21-32 | the outcome and new disk of `CreateDirectoryResult`: on success the disk gains the folder; on either throw it is unchanged |
| Storage.WriteDataResult | src/PicCaptionr/Services/StorageService.cs:79-114 | a blank file name throws first, and an empty list throws `ArgumentException` after it; the write succeeds exactly when both checks pass and the disk does not fail; the disk fault becomes `IOException` and another fault keeps its message |
| Storage.WriteData | src/PicCaptionr/Services/StorageService.cs:79-114 | a successful call stores the list under the file name; any failure leaves the disk unchanged |
| Chat.AzureClientFor | src/PicCaptionr/Services/ChatService.cs:22-38 | the Azure client is built exactly when endpoint, key and deployment are all non-blank, and holds them in those fields; otherwise the first failing of the three checks is reported, naming its argument |
| Chat.OpenAIClientFor | src/PicCaptionr/Services/ChatService.cs:41-54 | the OpenAI client is built exactly when key and model are non-blank; a blank key is reported first, and a blank model after it, each naming its argument |
| Chat.LastInitWins | src/PicCaptionr/Services/ChatService.cs:22-54 | after any series of `Init*` calls the field holds the client of the last one that succeeded, or its earlier value when none did |
| Chat.InitIsIdempotent | src/PicCaptionr/Services/ChatService.cs:33-37 | repeating the same `Init*` call changes nothing more |
| Chat.AfterInit | src/PicCaptionr/Services/ChatService.cs:33-37 | the field after one `Init*` call: the new client on success, the old field on a throw; `LastInitWins` and `InitIsIdempotent` state its laws |
| Chat.VisionRequest | src/PicCaptionr/Services/ChatService.cs:91-106 | the completion options and the two user messages; their shape is stated by `VisionRequestShape` |
| Chat.VisionRequestShape | src/PicCaptionr/Services/ChatService.cs:91-106 | the request caps output at 5000 tokens, carries the prompt as its only text and one image whose media type is "image/" followed by the extension given |
| Chat.VisionResponse | src/PicCaptionr/Services/ChatService.cs:57-122 | checks run in order: client, image, extension, prompt; a success means all passed and the completion returned content; the cleaned text is `CleanContent` of the first content part; the token counts are copied; the cleaned text has no quote and no surrounding whitespace |
| Chat.VisionResponseFailsWithCompletion | src/PicCaptionr/Services/ChatService.cs:109-121 | with valid arguments, a failing completion fails the request with its error; an empty content list throws index-out-of-range; any other completion succeeds |
| Chat.ChatService.constructor | src/PicCaptionr/Services/ChatService.cs:19 | the client field starts unset |
| Chat.ChatService.InitAzureOpenAIChatClient | src/PicCaptionr/Services/ChatService.cs:22-38 | a failed check throws and leaves the field as it was; success replaces it with the Azure client |
| Chat.ChatService.InitOpenAIChatClient | src/PicCaptionr/Services/ChatService.cs:41-54 | a failed check throws and leaves the field as it was; success replaces it with the OpenAI client |
| Chat.ChatService.MakeVisionRequest | src/PicCaptionr/Services/ChatService.cs:57-122 | the method returns what `VisionResponse` specifies for the current field |
| ConsoleInput.ValidateInput | src/PicCaptionr.ConsoleApp/Services/ConsoleService.cs:135-145 | "too short" exactly when blanks are disallowed and the value is null, blank or under 3 UTF-16 code units; "too long" exactly when it is not too short, length is checked and it exceeds 200 code units; otherwise valid |
| ConsoleInput.ValidateInputAccepts | src/PicCaptionr.ConsoleApp/Services/ConsoleService.cs:137-144 | a value is accepted exactly when neither enabled check rejects it |
| ConsoleInput.TooShortTakesPrecedence | src/PicCaptionr.ConsoleApp/Services/ConsoleService.cs:137-144 | a blank value is reported as too short whatever the length flag |
| ConsoleInput.EverythingPassesWithoutChecks | src/PicCaptionr.ConsoleApp/Services/ConsoleService.cs:135-145 | with blanks allowed and no length check, every value is valid |
| ConsoleInput.InRangeAlwaysPasses | src/PicCaptionr.ConsoleApp/Services/ConsoleService.cs:137-144 | a non-blank value of 3 to 200 code units is valid under every flag setting |
| ConsoleInput.NullPassesWhenAllowed | src/PicCaptionr.ConsoleApp/Services/ConsoleService.cs:142 | a null value is valid once blanks are allowed |
| ConsoleInput.PlaneZeroLimitsAreCharacterCounts | src/PicCaptionr.ConsoleApp/Services/ConsoleService.cs:137-144 | for text without characters beyond the Basic Multilingual Plane the limits are character counts: 3 to 200 characters pass, more than 200 are too long |
| ConsoleInput.SurrogatePairsCountTwice | src/PicCaptionr.ConsoleApp/Services/ConsoleService.cs:137-144 | a character beyond the Basic Multilingual Plane counts as two units: two such characters are long enough, and 101 of them are too long |
| Tracking.ProgressSink.TrackProcess | src/PicCaptionr.ConsoleApp/Services/ProcessTrackerService.cs:12-16 | the message is recorded after all earlier notices, unchanged |
| Tracking.ProgressSink.WriteError | src/PicCaptionr.ConsoleApp/Services/ConsoleService.cs:94-98 | the error is recorded after all earlier notices, unchanged |
| Steps.CaptionPromptStep | src/PicCaptionr.ConsoleApp/Services/ProcessService.cs:111-115 | the prompt step of a loop body returns what `GetInstagramCaptionPrompt` specifies |
| Steps.VisionRequestStep | src/PicCaptionr.ConsoleApp/Services/ProcessService.cs:120-123 | the vision step of a loop body returns what `MakeVisionRequestAsync` specifies for the current client field |
| ConsoleProcess.ConsoleInitKeepsArguments | src/PicCaptionr.ConsoleApp/Services/ProcessService.cs:160-201 | the console passes each answer to the parameter of the same meaning; it fails exactly when an answer for the chosen host is blank |
| ConsoleProcess.ConsoleInit | src/PicCaptionr.ConsoleApp/Services/ProcessService.cs:160-201 | the client the console's `Init*` call builds or the exception it throws; `ConsoleInitKeepsArguments` states it |
| ConsoleProcess.ConsoleExtension | src/PicCaptionr.ConsoleApp/Services/ProcessService.cs:106-109 | the extension the console sends; `ConsoleExtensionIsLowerUndotted` and `ConsoleExtensionOfImage` state it |
| ConsoleProcess.ConsoleExtensionIsLowerUndotted | src/PicCaptionr.ConsoleApp/Services/ProcessService.cs:106-109 | the extension sent holds no ASCII capital and does not start with a dot |
| ConsoleProcess.ImageExtensionIsDotted | src/PicCaptionr/Services/StorageService.cs:17-18 | every image extension is a dot followed by an extension body |
| ConsoleProcess.ConsoleExtensionOfImage | src/PicCaptionr.ConsoleApp/Services/ProcessService.cs:106-109 | for a listed picture, a dot followed by the extension sent to the chat service is one of the image extensions |
| ConsoleProcess.Progress | src/PicCaptionr.ConsoleApp/Services/ProcessService.cs:88-118 | a picture tracks four progress messages and no error |
| ConsoleProcess.ProgressPrefixes | src/PicCaptionr.ConsoleApp/Services/ProcessService.cs:88-118 | the messages are Start, Extract, Resize and Vision, each followed by `Environment.NewLine` |
| ConsoleProcess.ConsoleFile | src/PicCaptionr.ConsoleApp/Services/ProcessService.cs:86-137 | the notices and item of one loop body; `ConsoleFileReports` states what they are |
| ConsoleProcess.ConsoleFileReports | src/PicCaptionr.ConsoleApp/Services/ProcessService.cs:86-137 | a picture adds an item exactly when all its steps succeed, and the item names the picture; a failure writes exactly one error, as its last notice; success ends with the separator; the progress messages come first |
| ConsoleProcess.ConsoleItemsAreSuccessfulFiles | src/PicCaptionr.ConsoleApp/Services/ProcessService.cs:82-138 | the items are the pictures whose steps all succeeded, one each, in listing order |
| ConsoleProcess.ConsoleErrorsAreFailures | src/PicCaptionr.ConsoleApp/Services/ProcessService.cs:84-138 | the loop writes one error per picture without an item |
| ConsoleProcess.ErrorsAreRejections | src/PicCaptionr.ConsoleApp/Services/ProcessService.cs:134-137 | the number of errors written equals the number of pictures the selection rejects |
| ConsoleProcess.OutputFileNameIsPlain | src/PicCaptionr.ConsoleApp/Services/ProcessService.cs:143 | `piccaptionr-{stamp}.txt` holds no separator and carries the timestamp at 12-31 |
| ConsoleProcess.OutputFileIsInFolder | src/PicCaptionr.ConsoleApp/Services/ProcessService.cs:140-143 | the output file is in the output folder under the stamped name, and its path is never blank |
| ConsoleProcess.OutputFile | src/PicCaptionr.ConsoleApp/Services/ProcessService.cs:140-143 | `Path.Combine(outputPath, name)` with the stamped name; `OutputFileIsInFolder` states where it lies |
| ConsoleProcess.ConsoleRun | src/PicCaptionr.ConsoleApp/Services/ProcessService.cs:37-154 | a whole console run changes the disk only by adding the output folder and writing the output file: listings and faults never change, and every other file keeps its contents |
| ConsoleProcess.LoopAndWrite | src/PicCaptionr.ConsoleApp/Services/ProcessService.cs:82-153 | the loop and the final write leave the disk as it was or change only the output file |
| ConsoleProcess.LoopAndWriteWritesOnce | src/PicCaptionr.ConsoleApp/Services/ProcessService.cs:140-153 | after the loop, `WriteData` is called once with the collected items; the disk changes only there; an empty list throws; the write message follows the loop's notices |
| ConsoleProcess.InitFailureStopsTheRun | src/PicCaptionr.ConsoleApp/Services/ProcessService.cs:39 | when the chat client cannot be set up the run throws before reading any folder, and nothing changes |
| ConsoleProcess.EarlyExitsSkipTheWrite | src/PicCaptionr.ConsoleApp/Services/ProcessService.cs:41-59 | a missing picture folder or an empty listing writes one error and returns; the disk is unchanged |
| ConsoleProcess.CreateFailureStopsTheRun | src/PicCaptionr.ConsoleApp/Services/ProcessService.cs:61-62 | when the missing output folder cannot be created, `CreateDirectory`'s exception ends the run before any picture is processed: nothing is reported or written and the disk is unchanged |
| ConsoleProcess.LoopRunWritesOnce | src/PicCaptionr.ConsoleApp/Services/ProcessService.cs:61-153 | once pictures are listed and the output folder exists or can be created, it exists afterwards, the loop runs over every picture, and one write goes to the stamped file with the successful items |
| ConsoleProcess.AllFailuresEndInEmptyWrite | src/PicCaptionr.ConsoleApp/Services/ProcessService.cs:148-150 | when every picture fails, `WriteData` gets an empty list, throws, and nothing is written |
| ConsoleProcess.InitializeChatClient | src/PicCaptionr.ConsoleApp/Services/ProcessService.cs:160-201 | the `Init*` call for the chosen host, with its throw or its new client field |
| ConsoleProcess.GetValidatedFolderPath | src/PicCaptionr.ConsoleApp/Services/ProcessService.cs:211-227 | an existing folder is returned silently; a missing one writes the error and yields "" |
| ConsoleProcess.GetValidatedOutputFolderPath | src/PicCaptionr.ConsoleApp/Services/ProcessService.cs:233-247 | an existing folder is kept without a call; a missing one is created, or `CreateDirectory`'s exception (blank path, file in the way, denied parent) surfaces and the disk is unchanged |
| ConsoleProcess.ProcessPicture | src/PicCaptionr.ConsoleApp/Services/ProcessService.cs:86-137 | one loop body records the notices and returns the item that `ConsoleFile` specifies |
| ConsoleProcess.ProcessPictures | src/PicCaptionr.ConsoleApp/Services/ProcessService.cs:82-138 | the `foreach` returns `ConsoleItems` and appends `ConsoleNotices` for the listed pictures |
| ConsoleProcess.StartProcess | src/PicCaptionr.ConsoleApp/Services/ProcessService.cs:37-154 | the disk, the client field, the notices and the outcome after the method are those of `ConsoleRun` |
| DesktopViewModel.ProcessTracker.TrackProcess | src/PicCaptionr.WPFApp/Services/ProcessTrackerService.cs:16-29 | the activity log gains the trimmed message at its end |
| DesktopViewModel.HostInitSwapsAzureSettings | src/PicCaptionr.WPFApp/ViewModels/MainWindowViewModel.cs:252-255 | as written, the Azure client gets the key as its endpoint and the endpoint as its key, and a missing key is reported as a missing endpoint |
| DesktopViewModel.IntendedHostInitKeepsSettings | src/PicCaptionr.WPFApp/ViewModels/MainWindowViewModel.cs:243-256 | with the arguments in signature order every setting lands in its own field; only the Azure branch differs from the code as written |
| DesktopViewModel.HostInit | src/PicCaptionr.WPFApp/ViewModels/MainWindowViewModel.cs:243-256 | the `Init*` call of the loop body as written, or none for an unknown host; `HostInitSwapsAzureSettings` states what it builds |
| DesktopViewModel.IntendedHostInit | src/PicCaptionr.WPFApp/ViewModels/MainWindowViewModel.cs:243-256 | the same call with the Azure arguments in signature order; `IntendedHostInitKeepsSettings` states what it builds |
| DesktopViewModel.AzureSwapCounterexample | src/PicCaptionr.WPFApp/ViewModels/MainWindowViewModel.cs:252-255 | key "secret" and endpoint "https://e.example/" give a client whose endpoint is "secret" |
| DesktopViewModel.ImageFileTail | src/PicCaptionr/Services/StorageService.cs:60-62 | a listed picture ends with a dot and an extension body |
| DesktopViewModel.DottedNameIsNoExtension | src/PicCaptionr/Services/StorageService.cs:17-18 | no image extension is a dot followed by a name that holds another dot |
| DesktopViewModel.FileNameKeepsDot | src/PicCaptionr.WPFApp/ViewModels/MainWindowViewModel.cs:262 | a dot with no separator after it stays in the file name |
| DesktopViewModel.FileNameKeepsLastDot | src/PicCaptionr.WPFApp/ViewModels/MainWindowViewModel.cs:262 | the dot of a picture's extension is part of its file name |
| DesktopViewModel.FileNameIsNoImageType | src/PicCaptionr.WPFApp/ViewModels/MainWindowViewModel.cs:262 | for every listed picture the "extension" sent as written holds a dot, and no image extension equals a dot followed by it |
| DesktopViewModel.IntendedExtensionIsImageType | src/PicCaptionr.ConsoleApp/Services/ProcessService.cs:106-109 | with the console's extension, a dot followed by the value sent is one of the image extensions |
| DesktopViewModel.ProgressEntries | src/PicCaptionr.WPFApp/ViewModels/MainWindowViewModel.cs:216-241 | the log shows one entry per progress message reached |
| DesktopViewModel.Prepare | src/PicCaptionr.WPFApp/ViewModels/MainWindowViewModel.cs:214-238 | a picture that stops before the `Init*` call does so after two or three progress messages |
| DesktopViewModel.DesktopFile | src/PicCaptionr.WPFApp/ViewModels/MainWindowViewModel.cs:214-278 | the entries, item and `Init*` result of one loop body; `DesktopFileReports` states what they are |
| DesktopViewModel.DesktopFileReports | src/PicCaptionr.WPFApp/ViewModels/MainWindowViewModel.cs:214-278 | a picture adds an item exactly when all steps succeed, and otherwise catches exactly one exception; the log ends with the separator or with `ex.Message`; the progress messages come first; 3 to 5 entries |
| DesktopViewModel.ClientAfterIsOneInit | src/PicCaptionr.WPFApp/ViewModels/MainWindowViewModel.cs:243-256 | re-initialising in every picture leaves the field as a single call would: changed if any picture reached the call, unchanged otherwise |
| DesktopViewModel.ClientAfterIsClientOrInit | src/PicCaptionr.WPFApp/ViewModels/MainWindowViewModel.cs:243-256 | after any run of pictures the field is the starting one or the one the host's `Init*` call leaves |
| DesktopViewModel.DesktopItemsAreSuccessfulFiles | src/PicCaptionr.WPFApp/ViewModels/MainWindowViewModel.cs:210-269 | the items are the pictures whose steps all succeeded, one each, in listing order |
| DesktopViewModel.DesktopErrorsAreFailures | src/PicCaptionr.WPFApp/ViewModels/MainWindowViewModel.cs:274-278 | one exception is caught for every picture without an item |
| DesktopViewModel.ErrorsAreRejections | src/PicCaptionr.WPFApp/ViewModels/MainWindowViewModel.cs:274-278 | the number of caught exceptions equals the number of pictures the selection rejects |
| DesktopViewModel.OutputFileNameIsPlain | src/PicCaptionr.WPFApp/ViewModels/MainWindowViewModel.cs:284-285 | `piccaptionr_{stamp}.txt` is 35 characters, holds no separator and carries the timestamp |
| DesktopViewModel.OutputPathIsStamped | src/PicCaptionr.WPFApp/ViewModels/MainWindowViewModel.cs:284-285 | `{OutputFolderPath}/piccaptionr_{stamp}.txt` is never blank, starts with the folder and '/', and its file name is the stamped name |
| DesktopViewModel.OutputPath | src/PicCaptionr.WPFApp/ViewModels/MainWindowViewModel.cs:284-285 | `{OutputFolderPath}/piccaptionr_{stamp}.txt`; `OutputPathIsStamped` states its form |
| DesktopViewModel.ProcessRun | src/PicCaptionr.WPFApp/ViewModels/MainWindowViewModel.cs:187-292 | a whole desktop run leaves the disk as it was or changes only the stamped output file |
| DesktopViewModel.CaptionAndWriteWritesOnce | src/PicCaptionr.WPFApp/ViewModels/MainWindowViewModel.cs:281-291 | the write happens once, with the collected items; only a returning write clears `IsProcessing` and logs the end message; the disk changes nowhere else |
| DesktopViewModel.CaptionAndWrite | src/PicCaptionr.WPFApp/ViewModels/MainWindowViewModel.cs:210-291 | the loop and the write of a desktop run; `CaptionAndWriteWritesOnce` states its effect |
| DesktopViewModel.ProcessingStaysSetOnlyOnException | src/PicCaptionr.WPFApp/ViewModels/MainWindowViewModel.cs:189-291 | `IsProcessing` stays set exactly when the run ends with an exception |
| DesktopViewModel.EarlyExitsSkipTheWrite | src/PicCaptionr.WPFApp/ViewModels/MainWindowViewModel.cs:191-208 | a missing folder or an empty listing logs its one message, clears `IsProcessing` and writes nothing |
| DesktopViewModel.LoopRunWritesOnce | src/PicCaptionr.WPFApp/ViewModels/MainWindowViewModel.cs:199-291 | once pictures are listed, every picture is processed and the stamped path is written once with the successful items; the client field is the one the loop leaves |
| DesktopViewModel.NoItemsWhenAllFail | src/PicCaptionr.WPFApp/ViewModels/MainWindowViewModel.cs:210-278 | no item is collected when every picture fails |
| DesktopViewModel.AllFailuresKeepProcessing | src/PicCaptionr.WPFApp/ViewModels/MainWindowViewModel.cs:287-291 | when every picture fails, `WriteData` throws on the empty list; nothing is written, the end message is missing, and `IsProcessing` stays true |
| DesktopViewModel.InitializeForHost | src/PicCaptionr.WPFApp/ViewModels/MainWindowViewModel.cs:243-256 | the `Init*` call for the selected host as written, or no call for an unknown host |
| DesktopViewModel.ExtractPicture | src/PicCaptionr.WPFApp/ViewModels/MainWindowViewModel.cs:216-223 | logs Start and Extract and returns the metadata reader's answer |
| DesktopViewModel.PreparePicture | src/PicCaptionr.WPFApp/ViewModels/MainWindowViewModel.cs:214-238 | the body up to the prompt gives what `Prepare` specifies and logs its progress messages |
| DesktopViewModel.CaptionPicture | src/PicCaptionr.WPFApp/ViewModels/MainWindowViewModel.cs:214-278 | one loop body logs the entries and returns the item that `DesktopFile` specifies |
| DesktopViewModel.CaptionNext | src/PicCaptionr.WPFApp/ViewModels/MainWindowViewModel.cs:212-279 | one turn of the `foreach` extends the items, the log and the client field from the pictures before it to one picture more |
| DesktopViewModel.CaptionPictures | src/PicCaptionr.WPFApp/ViewModels/MainWindowViewModel.cs:212-279 | the `foreach` returns `DesktopItems`, appends `DesktopEntries` to the log and leaves the field as `ClientAfter` |
| DesktopViewModel.FinishRun | src/PicCaptionr.WPFApp/ViewModels/MainWindowViewModel.cs:281-291 | the write message, the write and the end of the run, as `CaptionAndWrite` specifies |
| DesktopViewModel.CaptionAndWritePictures | src/PicCaptionr.WPFApp/ViewModels/MainWindowViewModel.cs:210-291 | the loop and the write give the disk, client field, log and outcome of `CaptionAndWrite` |
| DesktopViewModel.MainWindowViewModel.constructor | src/PicCaptionr.WPFApp/ViewModels/MainWindowViewModel.cs:16-125 | not processing, host OpenAI, default model and language, every optional field null; folder selection enabled, processing not |
| DesktopViewModel.MainWindowViewModel.ActivityLog | src/PicCaptionr.WPFApp/ViewModels/MainWindowViewModel.cs:130-131 | the property is the live collection the tracker writes to |
| DesktopViewModel.MainWindowViewModel.CanProcessImages | src/PicCaptionr.WPFApp/ViewModels/MainWindowViewModel.cs:307-325 | OpenAI needs a non-empty key and both folders; Azure needs key, endpoint, deployment and both folders; any other host gives false; in both directions |
| DesktopViewModel.MainWindowViewModel.CanSelectFolder | src/PicCaptionr.WPFApp/ViewModels/MainWindowViewModel.cs:330-331 | folder selection is enabled exactly when no run is in progress; the constructor and `ProcessImages` state when that holds |
| DesktopViewModel.MainWindowViewModel.ProcessImages | src/PicCaptionr.WPFApp/ViewModels/MainWindowViewModel.cs:187-292 | the disk, client field, log, `IsProcessing` and outcome after the command are those of `ProcessRun`; the settings are unchanged; folder selection is enabled again exactly when the command returns normally |
| DesktopViewModel.GuardAdmitsBlankKey | src/PicCaptionr.WPFApp/ViewModels/MainWindowViewModel.cs:307-313 | the guard tests for empty strings only, so a key of one space enables the command, and the `Init*` call then throws |
| DesktopViewModel.GuardedInitSucceeds | src/PicCaptionr.WPFApp/ViewModels/MainWindowViewModel.cs:307-325 | when the guarded fields are also not blank, the `Init*` call succeeds |
| ActivityLog.EntryCollection.constructor | src/PicCaptionr/Services/ActivityLogService.cs:13 | the collection starts empty |
| ActivityLog.ActivityLogService.constructor | src/PicCaptionr/Services/ActivityLogService.cs:13 | the log starts with a new empty collection |
| ActivityLog.ActivityLogService.AddEntry | src/PicCaptionr/Services/ActivityLogService.cs:16-19 | the message is appended verbatim at the end; the count grows by one; earlier entries are unchanged |
| ActivityLog.ActivityLogService.GetEntries | src/PicCaptionr/Services/ActivityLogService.cs:22-23 | the live collection itself, not a copy |
| ActivityLog.ObserveEntries | src/PicCaptionr/Services/ActivityLogService.cs:13-23 | a view bound to `GetEntries()` before a run of `AddEntry` calls sees every message afterwards, in order and verbatim |

## Left out

- **Image handling.** EXIF extraction and resizing/JPEG encoding (`ImageService`) are foreign library calls. They are functions in `Images.ImageService` that return a value or an error.
- **Chat client construction and the network.** `new Uri(endpoint)`, the SDK client objects, `CompleteChatAsync` and `Temperature = 0.7f` are left out. A client is the settings it was built from, and the completion call is a function. Because `new Uri` is not modelled, a malformed endpoint is not an error here.
- **JSON and `File.WriteAllText`.** Serialisation and the file write are one opaque write: the disk records the item list under the file name. An `IOException` or another exception is a per-file fault of the disk.
- **Directory listing.** `Directory.GetFiles(..., AllDirectories)` is a per-folder listing in the disk, which may also be access-denied or failing.
- **Folder creation.** Whether `Directory.CreateDirectory` can create a missing folder is a per-path fault of the disk (`createFaults`): a file of that name in the way, or a denied parent folder. The disk does not derive these faults from the files it holds, so a file written under a name does not by itself make that folder fail to be created.
- **Number formatting.** Invariant-culture formatting of latitude and longitude is a function parameter, since `double` is not modelled. The latitude and longitude are `real`.
- **Clock and line breaks.** `DateTime.Now` is a timestamp parameter and `Environment.NewLine` is a parameter. Day-of-month validity per month is not checked.
- **Async calls and mid-run changes.** `async`/`await` is sequential. Settings changed by the UI during a run are not modelled: `ProcessImages` reads them once.
- **UI-thread plumbing.** The UI-thread parts of the desktop tracker are left out: the `Application.Current?.Dispatcher` check that drops messages when there is no dispatcher, and `InvokeAsync`. The tracker trims and appends at once.
- **Console I/O.** The console tracker's rendering and the console's prompting and rendering (Spectre.Console, `GetUrlFromConsole`'s `Uri.TryCreate`, `SelectFromOptions`) are left out. Answers come in as an `Answers` value, and tracked and error messages are recorded as notices.
- **UI-only code.** Folder pickers, `SelectPictureFolder`, `SelectOutputFolder`, `OpenWebSite`, the option lists, `WindowService`, `EqualsConverter` and the startup and DI files are left out. Only the constants the core uses are transcribed from `Statics` and `TextStatics`.
- **Case folding.** `ToLowerInvariant` and `OrdinalIgnoreCase` map ASCII letters only; non-ASCII case folding is left out.
- **`AIResponse`.** This record's source file is not part of this model. Its fields are taken from how `ChatService.cs:115-121` builds it.
- **`CleanContent` idempotence.** Idempotence is deliberately not claimed; `CleanContentIsNotIdempotent` proves it fails.
- **Dead branches.** Two branches of `ProcessService.cs` cannot be reached, and the model follows the code that runs:
  - The `?? "jpg"` fallback at `ProcessService.cs:109` is dead: `Path.GetExtension` of a non-null path is never null.
  - The blank-output-path `return` at `ProcessService.cs:64-67` is dead as well: `CreateDirectory` throws first on a blank path.
- **Loop structure.**
  - Each loop body and each loop is its own method: `ProcessPicture`/`ProcessPictures`, and `CaptionPicture`/`CaptionNext`/`CaptionPictures`. The desktop tail after the listing is `CaptionAndWritePictures` and `FinishRun`.
  - The console's output file name is computed in `ConsoleRun`, and `StartProcess` stamps the file with the timestamp it is given.
- **The double-break step.** The comment at `ContentSanitizer.cs:34` says double line breaks are formatted properly, which suggests a collapse. The last replacement maps "\n\n" to two `Environment.NewLine`s, which is the identity when NewLine is "\n" (`DoubleBreakStepIsIdentityOnLf`). The model follows the code.
- **Unicode length.** `ConsoleInput.ValidateInput` counts UTF-16 code units as `string.Length` does, but `char` is a Unicode scalar value here, so a lone surrogate cannot be written.
- Paths.Combine: `Path.GetExtension`, `Path.GetFileName` and `Path.Combine` follow the Windows rules: `\` and `/` both separate folders, and `Combine` inserts `\`. On a Unix host `Combine` inserts `/` and `\` is an ordinary character, so the console's output path on such a host is not modelled.

## Findings

| source | as written | input that shows it | evidently intended | confidence | as-written member | corrected member |
|---|---|---|---|---|---|---|
| src/PicCaptionr.WPFApp/ViewModels/MainWindowViewModel.cs:252-255 | `InitAzureOpenAIChatClient(AzureOpenAIApiKey!, AzureOpenAIEndpoint!, DeploymentName!)`, against the signature `(endpoint, key, deploymentName)` at `src/PicCaptionr/Services/ChatService.cs:22-25` | key "secret", endpoint "https://e.example/": the model's client has endpoint "secret" and key the URL. `new Uri` is left out, so the model shows only the swapped arguments. In the program, `new Uri("secret")` at `ChatService.cs:35` throws `UriFormatException`. So every Azure picture that reaches the call fails, and its message is logged at `MainWindowViewModel.cs:274-277`. No item is collected, `WriteData` throws its empty-list exception at :287, and `IsProcessing` stays set | the endpoint first and the key second, as the console does at `ProcessService.cs:196-199` | not executed | DesktopViewModel.AzureSwapCounterexample | DesktopViewModel.IntendedHostInitKeepsSettings |
| src/PicCaptionr.WPFApp/ViewModels/MainWindowViewModel.cs:262 | `Path.GetFileName(pictureFile)` is passed as the file extension, so the media type becomes `image/<file name>` | "C:\\pics\\beach.JPG": the media type is "image/beach.JPG" | the lower-cased extension without its dot, as the console sends at `ProcessService.cs:106-109` ("image/jpg") | not executed | DesktopViewModel.FileNameIsNoImageType | DesktopViewModel.IntendedExtensionIsImageType |

The desktop run (`DesktopViewModel.ProcessRun`, `MainWindowViewModel.ProcessImages`) models the code as written, using `DesktopContextFor` with `HostInit` and `GetFileName`. The corrected loop body is `DesktopViewModel.IntendedContextFor`, built from `IntendedHostInit` and the console's extension. Every loop lemma of the desktop (`DesktopFileReports`, `DesktopItemsAreSuccessfulFiles`, `ClientAfterIsOneInit`, …) is stated for any loop body, and so holds for the corrected one as well.
