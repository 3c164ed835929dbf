/**
  The console app's ProcessService: initialise the chat client from the
  user's answers, check the picture folder, list the pictures, make sure the
  output folder exists, caption every picture in turn, and write one output
  file. The answers typed at the console are inputs; the progress tracker
  and `WriteError` are recorded on one `ProgressSink` in call order.
*/
module ConsoleProcess {
  import opened Wrappers
  import opened Text
  import opened Errors
  import opened Models
  import opened Selection
  import opened Paths
  import opened Storage
  import opened Prompt
  import opened Chat
  import opened Tracking
  import opened Images
  import opened Statics
  import opened Steps

  /** The answers given at the console, in the order they are asked for. */
  datatype Answers = Answers(
    host: string,
    openAIKey: string, openAIModel: string,
    azureEndpoint: string, azureKey: string, azureDeployment: string,
    pictureFolder: string, outputFolder: string,
    language: string, additionalInformation: Option<string>)

  /** A progress message followed by `Environment.NewLine`. */
  function Line(text: string, newLine: NewLine): string {
    text + newLine.Chars()
  }

  /** The client `InitializeChatClient` asks for: OpenAI for that answer,
      Azure OpenAI for any other. */
  function ConsoleInit(a: Answers): Result<ChatClient, Error> {
    if a.host == OpenAIHost then OpenAIClientFor(Some(a.openAIKey), Some(a.openAIModel))
    else AzureClientFor(Some(a.azureEndpoint), Some(a.azureKey), Some(a.azureDeployment))
  }

  /** Each answer goes to the parameter of the same meaning. */
  lemma ConsoleInitKeepsArguments(a: Answers)
    ensures a.host == OpenAIHost && ConsoleInit(a).Success? ==>
      ConsoleInit(a).value == OpenAIClient(a.openAIKey, a.openAIModel)
    ensures a.host != OpenAIHost && ConsoleInit(a).Success? ==>
      ConsoleInit(a).value == AzureClient(a.azureEndpoint, a.azureKey, a.azureDeployment)
    ensures ConsoleInit(a).Failure? <==>
      if a.host == OpenAIHost then AllWhiteSpace(a.openAIKey) || AllWhiteSpace(a.openAIModel)
      else AllWhiteSpace(a.azureEndpoint) || AllWhiteSpace(a.azureKey) || AllWhiteSpace(a.azureDeployment)
  {
  }

  /** `Path.GetExtension(file)?.TrimStart('.').ToLowerInvariant()`. */
  function ConsoleExtension(file: string): string {
    ToLower(TrimStartChar(GetExtension(file), '.'))
  }

  /** The extension sent is lower case and does not start with a dot. */
  lemma ConsoleExtensionIsLowerUndotted(file: string)
    ensures var r := ConsoleExtension(file);
      (forall i :: 0 <= i < |r| ==> !('A' <= r[i] <= 'Z')) && (r == [] || r[0] != '.')
  {
    ToLowerIsLowerCase(TrimStartChar(GetExtension(file), '.'));
  }

  /** Every image extension is a dot and an extension body. */
  lemma ImageExtensionIsDotted(k: nat)
    requires k < |ImageExtensions|
    ensures var e := ImageExtensions[k]; e != [] && e[0] == '.' && IsExtensionBody(e[1..])
  {
    var e := ImageExtensions[k];
    assert e[0] == '.';
    forall j | 0 <= j < |e[1..]| ensures IsExtensionChar(e[1..][j]) {
      assert 'a' <= e[1 + j] <= 'z';
    }
  }

  /** Lower-casing leaves dots and separators alone, so a string that
      lower-cases to an extension body is one. */
  lemma LowerOfExtensionBody(body: string, e: string)
    requires ToLower(body) == e && IsExtensionBody(e)
    ensures IsExtensionBody(body)
  {
    forall j | 0 <= j < |body| ensures IsExtensionChar(body[j]) {
      assert LowerAscii(body[j]) == e[j];
    }
  }

  /** For a listed picture the extension sent to the chat service is the
      picture's own image extension, lower-cased and without its dot. */
  lemma ConsoleExtensionOfImage(file: string) returns (k: nat)
    requires IsImageFile(file)
    ensures k < |ImageExtensions| && "." + ConsoleExtension(file) == ImageExtensions[k]
  {
    k := ImageFileExtension(file);
    var ext := ImageExtensions[k];
    ImageExtensionIsDotted(k);
    var n := |file| - |ext|;
    var stem, body := file[..n], file[n + 1..];
    var lower := ToLower(file);
    assert lower[n..] == ext;
    assert LowerAscii(file[n]) == lower[n] == '.';
    assert file == stem + "." + body;
    assert ToLower(body) == ext[1..] by {
      assert forall j :: 0 <= j < |body| ==> ToLower(body)[j] == lower[n + 1 + j];
    }
    assert GetExtension(file) == "." + body by {
      LowerOfExtensionBody(body, ext[1..]);
      GetExtensionOfName(stem, body);
    }
    assert TrimStartChar("." + body, '.') == TrimStartChar(body, '.') == body;
    assert ConsoleExtension(file) == ext[1..];
    assert "." + ext[1..] == ext;
  }

  /** What processing one picture reports, and the item it adds, if any. */
  datatype FileOutcome = FileOutcome(notices: seq<Notice>, item: Option<InstagramItem>)

  /** The steps the loop body runs on a picture besides the progress
      messages: the image service, the prompt for the metadata, the vision
      request for an image, extension and prompt, and the line break. */
  datatype FileContext = FileContext(
    images: ImageService,
    prompt: ImageMetaData -> Result<string, Error>,
    vision: (Bytes, string, string) -> Result<AIResponse, Error>,
    newLine: NewLine)

  /** The loop body's steps for a client, a language and a hint. */
  function ConsoleContext(client: Option<ChatClient>, language: string, info: Option<string>, s: Services): FileContext {
    FileContext(s.images, PromptStep(language, info, s.format, s.newLine), VisionStep(client, s.complete, s.newLine), s.newLine)
  }

  /** The progress notices of one picture, in the order they are tracked. */
  function Progress(newLine: NewLine): (r: seq<Notice>)
    ensures |r| == 4 && forall i :: 0 <= i < |r| ==> r[i].Tracked?
  {
    [Tracked(Line(StartText, newLine)), Tracked(Line(ExtractText, newLine)),
     Tracked(Line(ResizeText, newLine)), Tracked(Line(VisionText, newLine))]
  }

  /** The progress notices up to each step, one message at a time. */
  lemma ProgressPrefixes(newLine: NewLine)
    ensures Progress(newLine)[..2] == [Tracked(Line(StartText, newLine)), Tracked(Line(ExtractText, newLine))]
    ensures Progress(newLine)[..3] == Progress(newLine)[..2] + [Tracked(Line(ResizeText, newLine))]
    ensures Progress(newLine) == Progress(newLine)[..3] + [Tracked(Line(VisionText, newLine))]
  {
  }

  lemma {:induction false} TrackedHoldNoError(ns: seq<Notice>)
    requires forall i :: 0 <= i < |ns| ==> ns[i].Tracked?
    ensures ErrorCount(ns) == 0
  {
    if ns != [] {
      TrackedHoldNoError(ns[..|ns| - 1]);
    }
  }

  /** A picture whose step after the first `reached` progress messages threw. */
  function Failed(reached: nat, e: Error, newLine: NewLine): FileOutcome
    requires reached <= 4
  {
    FileOutcome(Progress(newLine)[..reached] + [ErrorWritten(e.Message())], None)
  }

  /** A picture whose steps all succeeded. */
  function Succeeded(item: InstagramItem, newLine: NewLine): FileOutcome {
    FileOutcome(Progress(newLine) + [Tracked(Line(SeparatorText, newLine))], Some(item))
  }

  /** The `try` block of the loop for one picture, and its `catch`: the steps
      run in order, the first exception ends them with one error report. */
  function ConsoleFile(file: string, c: FileContext): FileOutcome {
    var nl := c.newLine;
    match c.images.extractImageMetadata(file)
    case Failure(e) => Failed(2, e, nl)
    case Success(meta) =>
      match c.images.resizeImage(file, ImageWidth, ImageHeight)
      case Failure(e) => Failed(3, e, nl)
      case Success(image) =>
        match c.prompt(meta)
        case Failure(e) => Failed(3, e, nl)
        case Success(prompt) =>
          match c.vision(image, ConsoleExtension(file), prompt)
          case Failure(e) => Failed(4, e, nl)
          case Success(response) => Succeeded(InstagramItem(file, meta, response), nl)
  }

  /** Every step of a picture succeeds: metadata, resize, prompt and the
      vision request with the picture's extension. */
  predicate StepsSucceed(file: string, c: FileContext) {
    && c.images.extractImageMetadata(file).Success?
    && c.images.resizeImage(file, ImageWidth, ImageHeight).Success?
    && c.prompt(c.images.extractImageMetadata(file).value).Success?
    && c.vision(c.images.resizeImage(file, ImageWidth, ImageHeight).value, ConsoleExtension(file),
                c.prompt(c.images.extractImageMetadata(file).value).value).Success?
  }

  /** A picture adds an item exactly when all its steps succeed, and the item
      carries the picture's path; a failing picture writes exactly one error,
      as the last thing it reports; every picture is announced first, and the
      progress messages keep their order. */
  lemma ConsoleFileReports(file: string, c: FileContext)
    ensures var r := ConsoleFile(file, c);
      && (r.item.Some? <==> StepsSucceed(file, c))
      && (r.item.Some? ==> r.item.value.imageName == file)
      && ErrorCount(r.notices) == (if r.item.Some? then 0 else 1)
      && (r.item.None? ==> r.notices[|r.notices| - 1].ErrorWritten?)
      && (r.item.Some? ==> r.notices[|r.notices| - 1] == Tracked(Line(SeparatorText, c.newLine)))
      && 3 <= |r.notices| <= 5
      && r.notices[..|r.notices| - 1] == Progress(c.newLine)[..|r.notices| - 1]
  {
    var r := ConsoleFile(file, c);
    var p := Progress(c.newLine);
    var n := |r.notices| - 1;
    assert r.notices == p[..n] + [r.notices[n]] by {
      assert p[..4] == p;
    }
    TrackedHoldNoError(p[..n]);
    CountAppend(p[..n], [r.notices[n]], IsErrorNotice);
    assert [r.notices[n]][..0] == [];
  }

  function ItemOf(c: FileContext): string -> Option<InstagramItem> {
    file => ConsoleFile(file, c).item
  }

  /** The items collected by the loop over a run of pictures. */
  function ConsoleItems(files: seq<string>, c: FileContext): seq<InstagramItem> {
    Select(files, ItemOf(c))
  }

  /** The notices the loop writes over a run of pictures. */
  function ConsoleNotices(files: seq<string>, c: FileContext): seq<Notice> {
    if files == [] then [] else ConsoleNotices(files[..|files| - 1], c) + ConsoleFile(files[|files| - 1], c).notices
  }

  /** The items are the successful pictures, one each, in listing order: the
      j-th item comes from the j-th successful picture and names it. */
  lemma ConsoleItemsAreSuccessfulFiles(files: seq<string>, c: FileContext)
    ensures var items, idx := ConsoleItems(files, c), Picked(files, ItemOf(c));
      |idx| == |items| && StrictlyIncreasing(idx)
      && (forall j :: 0 <= j < |idx| ==> idx[j] < |files| && items[j].imageName == files[idx[j]])
      && (forall k :: 0 <= k < |files| ==> (StepsSucceed(files[k], c) <==> k in idx))
  {
    SelectIsOrderedSubsequence(files, ItemOf(c));
    var items, idx := ConsoleItems(files, c), Picked(files, ItemOf(c));
    forall j | 0 <= j < |idx| ensures items[j].imageName == files[idx[j]] {
      ConsoleFileReports(files[idx[j]], c);
    }
    forall k | 0 <= k < |files| ensures StepsSucceed(files[k], c) <==> k in idx {
      ConsoleFileReports(files[k], c);
    }
  }

  /** Each failing picture writes exactly one error: the loop writes as many
      errors as there are pictures without an item. */
  lemma {:induction false} ConsoleErrorsAreFailures(files: seq<string>, c: FileContext)
    ensures ErrorCount(ConsoleNotices(files, c)) == |files| - |ConsoleItems(files, c)|
  {
    ErrorsAreRejections(files, c);
    SelectSplitsInput(files, ItemOf(c));
  }

  lemma {:induction false} ErrorsAreRejections(files: seq<string>, c: FileContext)
    ensures ErrorCount(ConsoleNotices(files, c)) == Rejected(files, ItemOf(c))
  {
    if files != [] {
      var init, last := files[..|files| - 1], files[|files| - 1];
      ErrorsAreRejections(init, c);
      CountAppend(ConsoleNotices(init, c), ConsoleFile(last, c).notices, IsErrorNotice);
      ConsoleFileReports(last, c);
    }
  }

  /** The name of the output file, `piccaptionr-{yyyy-MM-dd-HH-mm-ss}.txt`. */
  function OutputFileName(now: Timestamp): string {
    "piccaptionr-" + ConsoleStamp(now) + ".txt"
  }

  /** The output file name holds no separator and carries the timestamp. */
  lemma OutputFileNameIsPlain(now: Timestamp)
    ensures var n := OutputFileName(now);
      n != [] && (forall j :: 0 <= j < |n| ==> !IsSeparator(n[j]))
      && n[12..31] == ConsoleStamp(now) && EndsWith(n, ".txt")
  {
    var stamp := ConsoleStamp(now);
    StampsRoundTrip(now);
    FormatDateRoundTrip(now);
    var date, time := FormatDate(now), FormatTime(now);
    assert forall j :: 0 <= j < |date| ==> !IsSeparator(date[j]) by {
      assert date == Padded(now.year, 4) + "-" + Padded(now.month, 2) + "-" + Padded(now.day, 2);
    }
    assert forall j :: 0 <= j < |time| ==> !IsSeparator(time[j]) by {
      assert time == Padded(now.hour, 2) + "-" + Padded(now.minute, 2) + "-" + Padded(now.second, 2);
    }
    assert forall j :: 0 <= j < |stamp| ==> !IsSeparator(stamp[j]) by {
      assert stamp == date + "-" + time;
    }
  }

  /** Where the console writes: `Path.Combine(outputPath, name)`. */
  function OutputFile(outputFolder: string, now: Timestamp): string {
    Combine(outputFolder, OutputFileName(now))
  }

  /** The written file sits in the output folder under the stamped name. */
  lemma OutputFileIsInFolder(outputFolder: string, now: Timestamp)
    ensures GetFileName(OutputFile(outputFolder, now)) == OutputFileName(now)
    ensures outputFolder != [] ==> StartsWith(OutputFile(outputFolder, now), outputFolder)
    ensures !AllWhiteSpace(OutputFile(outputFolder, now))
  {
    var f, n := OutputFile(outputFolder, now), OutputFileName(now);
    OutputFileNameIsPlain(now);
    CombineKeepsFileName(outputFolder, n);
    assert !IsPathRooted(n) by {
      assert n[0] == 'p';
    }
    assert n[|n| - 1] == 't' by {
      assert n[|n| - 4..] == ".txt";
    }
    assert f[|f| - 1] == 't' by {
      if outputFolder != [] {
        assert EndsWith(f, n);
      }
    }
  }

  /** The state a run leaves: the disk, the chat client, what it reported
      and whether it ended with an exception. */
  datatype Run = Run(disk: Disk, client: Option<ChatClient>, notices: seq<Notice>, outcome: Outcome<Error>)

  /** `StartProcessAsync` from a disk and a client field. */
  function ConsoleRun(disk: Disk, client: Option<ChatClient>, a: Answers, s: Services, now: Timestamp): (r: Run)
    ensures r.disk.listings == disk.listings && r.disk.createFaults == disk.createFaults
    ensures r.disk.writeFaults == disk.writeFaults
    ensures r.disk.directories == disk.directories || r.disk.directories == disk.directories + {a.outputFolder}
    ensures var out := OutputFile(a.outputFolder, now);
      r.disk.written == disk.written || (out in r.disk.written && r.disk.written == disk.written[out := r.disk.written[out]])
  {
    var init := ConsoleInit(a);
    if init.Failure? then Run(disk, client, [], Fail(init.error))
    else
      var c := Some(init.value);
      if !disk.DirectoryExists(Some(a.pictureFolder)) then
        Run(disk, c, [ErrorWritten(FolderDoesNotExistText)], Pass)
      else
        match GetPictureFilesInFolder(disk, a.pictureFolder)
        case Failure(e) => Run(disk, c, [], Fail(e))
        case Success(files) =>
          if files == [] then Run(disk, c, [ErrorWritten(NoPicturesText)], Pass)
          else
            var prepared := if disk.DirectoryExists(Some(a.outputFolder)) then Success(disk)
                            else CreateDirectoryResult(disk, a.outputFolder);
            if prepared.Failure? then Run(disk, c, [], Fail(prepared.error))
            else LoopAndWrite(prepared.value, c, files, ConsoleContext(c, a.language, a.additionalInformation, s),
                              OutputFile(a.outputFolder, now))
  }

  /** The loop over the pictures and the final write to `outputFile`, once
      the output folder is there. */
  function LoopAndWrite(disk: Disk, client: Option<ChatClient>, files: seq<string>, c: FileContext, outputFile: string): (r: Run)
    ensures r.disk == disk
         || (outputFile in r.disk.written && r.disk == disk.(written := disk.written[outputFile := r.disk.written[outputFile]]))
  {
    var notices := ConsoleNotices(files, c) + [Tracked(Line(WriteOutputText, c.newLine))];
    match WriteDataResult(disk, outputFile, ConsoleItems(files, c))
    case Failure(e) => Run(disk, client, notices, Fail(e))
    case Success(written) => Run(written, client, notices + [Tracked(Line(FinishText, c.newLine))], Pass)
  }

  /** The write happens once, to the given file, with the collected items;
      the loop's notices come first and the disk changes nowhere else. */
  lemma LoopAndWriteWritesOnce(disk: Disk, client: Option<ChatClient>, files: seq<string>, c: FileContext, outputFile: string)
    requires !AllWhiteSpace(outputFile)
    ensures var r, items := LoopAndWrite(disk, client, files, c, outputFile), ConsoleItems(files, c);
      && r.client == client
      && r.disk.directories == disk.directories
      && r.disk.listings == disk.listings && r.disk.createFaults == disk.createFaults
      && r.disk.writeFaults == disk.writeFaults
      && r.disk.written == (if r.outcome.Pass? then disk.written[outputFile := items] else disk.written)
      && (r.outcome.Pass? <==> items != [] && outputFile !in disk.writeFaults)
      && (items == [] ==> r.outcome == Fail(ArgumentError(NoItemsText, "instagramItems")))
      && r.notices == ConsoleNotices(files, c) + [Tracked(Line(WriteOutputText, c.newLine))]
                    + (if r.outcome.Pass? then [Tracked(Line(FinishText, c.newLine))] else [])
  {
  }

  /** The run reaches the loop: the client, the folder and at least one picture are there. */
  predicate ReachesLoop(disk: Disk, a: Answers) {
    && ConsoleInit(a).Success?
    && disk.DirectoryExists(Some(a.pictureFolder))
    && GetPictureFilesInFolder(disk, a.pictureFolder).Success?
    && GetPictureFilesInFolder(disk, a.pictureFolder).value != []
    && (disk.DirectoryExists(Some(a.outputFolder)) || CreateDirectoryResult(disk, a.outputFolder).Success?)
  }

  /** The chat client is set up before anything else: when that fails the run
      reports nothing, touches no folder and keeps the old client. */
  lemma InitFailureStopsTheRun(disk: Disk, client: Option<ChatClient>, a: Answers, s: Services, now: Timestamp)
    requires ConsoleInit(a).Failure?
    ensures ConsoleRun(disk, client, a, s, now) == Run(disk, client, [], Fail(ConsoleInit(a).error))
  {
  }

  /** A missing picture folder, or one without pictures, is reported once and
      ends the run normally before anything is created or written. */
  lemma EarlyExitsSkipTheWrite(disk: Disk, client: Option<ChatClient>, a: Answers, s: Services, now: Timestamp)
    requires ConsoleInit(a).Success?
    requires !disk.DirectoryExists(Some(a.pictureFolder))
          || GetPictureFilesInFolder(disk, a.pictureFolder) == Success([])
    ensures var r := ConsoleRun(disk, client, a, s, now);
      && r.disk == disk && r.outcome == Pass
      && r.notices == [ErrorWritten(if !disk.DirectoryExists(Some(a.pictureFolder)) then FolderDoesNotExistText else NoPicturesText)]
  {
  }

  /** A missing output folder that cannot be created ends the run with the
      exception `CreateDirectory` throws, after the early checks passed and
      before any picture is processed or anything is written. */
  lemma CreateFailureStopsTheRun(disk: Disk, client: Option<ChatClient>, a: Answers, s: Services, now: Timestamp)
    requires ConsoleInit(a).Success? && disk.DirectoryExists(Some(a.pictureFolder))
    requires GetPictureFilesInFolder(disk, a.pictureFolder).Success?
    requires GetPictureFilesInFolder(disk, a.pictureFolder).value != []
    requires !disk.DirectoryExists(Some(a.outputFolder)) && CreateDirectoryResult(disk, a.outputFolder).Failure?
    ensures var r := ConsoleRun(disk, client, a, s, now);
      && r == Run(disk, Some(ConsoleInit(a).value), [], Fail(CreateDirectoryResult(disk, a.outputFolder).error))
      && (AllWhiteSpace(a.outputFolder) ==> r.outcome == Fail(ArgumentError(FolderPathText, "folderPath")))
      && (!AllWhiteSpace(a.outputFolder) ==> r.outcome == Fail(disk.createFaults[a.outputFolder].Raised()))
  {
  }

  /** Once the loop is reached the output folder exists, the write happens
      exactly once, to the stamped file in that folder, with the collected
      items; nothing else on the disk changes. */
  lemma LoopRunWritesOnce(disk: Disk, client: Option<ChatClient>, a: Answers, s: Services, now: Timestamp)
    requires ReachesLoop(disk, a)
    ensures var r := ConsoleRun(disk, client, a, s, now);
      var files := GetPictureFilesInFolder(disk, a.pictureFolder).value;
      var ctx := ConsoleContext(Some(ConsoleInit(a).value), a.language, a.additionalInformation, s);
      var items := ConsoleItems(files, ctx);
      && r.disk.DirectoryExists(Some(a.outputFolder))
      && r.disk.directories == disk.directories + {a.outputFolder}
      && r.disk.listings == disk.listings && r.disk.createFaults == disk.createFaults
      && r.disk.writeFaults == disk.writeFaults
      && r.disk.written == (if r.outcome.Pass? then disk.written[OutputFile(a.outputFolder, now) := items] else disk.written)
      && (r.outcome.Pass? <==> items != [] && OutputFile(a.outputFolder, now) !in disk.writeFaults)
      && (items == [] ==> r.outcome == Fail(ArgumentError(NoItemsText, "instagramItems")))
      && r.notices == ConsoleNotices(files, ctx) + [Tracked(Line(WriteOutputText, s.newLine))]
                    + (if r.outcome.Pass? then [Tracked(Line(FinishText, s.newLine))] else [])
  {
    var files := GetPictureFilesInFolder(disk, a.pictureFolder).value;
    var prepared := if disk.DirectoryExists(Some(a.outputFolder)) then disk
                    else CreateDirectoryResult(disk, a.outputFolder).value;
    assert prepared.directories == disk.directories + {a.outputFolder};
    var c := Some(ConsoleInit(a).value);
    var ctx := ConsoleContext(c, a.language, a.additionalInformation, s);
    OutputFileIsInFolder(a.outputFolder, now);
    assert ConsoleRun(disk, client, a, s, now) == LoopAndWrite(prepared, c, files, ctx, OutputFile(a.outputFolder, now));
    LoopAndWriteWritesOnce(prepared, c, files, ctx, OutputFile(a.outputFolder, now));
  }

  /** When every picture fails the loop has nothing to write, and the final
      `WriteData` throws its empty-list exception without writing. */
  lemma AllFailuresEndInEmptyWrite(disk: Disk, client: Option<ChatClient>, a: Answers, s: Services, now: Timestamp)
    requires ReachesLoop(disk, a)
    requires var ctx := ConsoleContext(Some(ConsoleInit(a).value), a.language, a.additionalInformation, s);
      forall f :: f in GetPictureFilesInFolder(disk, a.pictureFolder).value ==> !StepsSucceed(f, ctx)
    ensures var r := ConsoleRun(disk, client, a, s, now);
      r.outcome == Fail(ArgumentError(NoItemsText, "instagramItems")) && r.disk.written == disk.written
  {
    var files := GetPictureFilesInFolder(disk, a.pictureFolder).value;
    var ctx := ConsoleContext(Some(ConsoleInit(a).value), a.language, a.additionalInformation, s);
    forall k | 0 <= k < |files| ensures ItemOf(ctx)(files[k]).None? {
      ConsoleFileReports(files[k], ctx);
    }
    SelectOfNone(files, ItemOf(ctx));
    LoopRunWritesOnce(disk, client, a, s, now);
  }

  /** `InitializeChatClient()`. */
  method InitializeChatClient(chat: ChatService, a: Answers) returns (o: Outcome<Error>)
    modifies chat
    ensures o == (if ConsoleInit(a).Success? then Pass else Fail(ConsoleInit(a).error))
    ensures chat.chatClient == AfterInit(old(chat.chatClient), ConsoleInit(a))
  {
    if a.host == OpenAIHost {
      o := chat.InitOpenAIChatClient(Some(a.openAIKey), Some(a.openAIModel));
    } else {
      o := chat.InitAzureOpenAIChatClient(Some(a.azureEndpoint), Some(a.azureKey), Some(a.azureDeployment));
    }
  }

  /** `GetValidatedFolderPath(prompt)`: the folder, or "" after an error. */
  method GetValidatedFolderPath(fs: FileSystem, sink: ProgressSink, folderPath: string) returns (path: string)
    modifies sink
    ensures fs.disk.DirectoryExists(Some(folderPath)) ==> path == folderPath && sink.notices == old(sink.notices)
    ensures !fs.disk.DirectoryExists(Some(folderPath)) ==>
      path == "" && sink.notices == old(sink.notices) + [ErrorWritten(FolderDoesNotExistText)]
  {
    if !fs.disk.DirectoryExists(Some(folderPath)) {
      sink.WriteError(FolderDoesNotExistText);
      return "";
    }
    return folderPath;
  }

  /** `GetValidatedOutputFolderPath()`: creates the folder when it is missing. */
  method GetValidatedOutputFolderPath(fs: FileSystem, outputPath: string) returns (o: Outcome<Error>)
    modifies fs
    ensures var prepared := if old(fs.disk).DirectoryExists(Some(outputPath)) then Success(old(fs.disk))
                            else CreateDirectoryResult(old(fs.disk), outputPath);
      && o == (if prepared.Success? then Pass else Fail(prepared.error))
      && fs.disk == (if prepared.Success? then prepared.value else old(fs.disk))
  {
    o := Pass;
    if !fs.disk.DirectoryExists(Some(outputPath)) {
      o := CreateDirectory(fs, outputPath);
    }
  }

  lemma ConsoleContextDescribes(client: Option<ChatClient>, language: string, info: Option<string>, s: Services)
    ensures PromptsFor(ConsoleContext(client, language, info, s).prompt, language, info, s)
    ensures AsksFor(ConsoleContext(client, language, info, s).vision, client, s)
  {
    StepsDescribe(client, language, info, s);
  }

  /** The loop body for one picture: the `try` block and its `catch`. */
  method ProcessPicture(chat: ChatService, sink: ProgressSink, file: string, language: string,
                        info: Option<string>, s: Services, ghost c: FileContext) returns (item: Option<InstagramItem>)
    requires c.images == s.images && c.newLine == s.newLine
    requires PromptsFor(c.prompt, language, info, s) && AsksFor(c.vision, chat.chatClient, s)
    modifies sink
    ensures var r := ConsoleFile(file, c);
      sink.notices == old(sink.notices) + r.notices && item == r.item
  {
    var nl := s.newLine;
    ghost var before := sink.notices;
    ProgressPrefixes(nl);
    sink.TrackProcess(Line(StartText, nl));
    sink.TrackProcess(Line(ExtractText, nl));
    assert sink.notices == before + Progress(nl)[..2];
    var meta := s.images.extractImageMetadata(file);
    if meta.Failure? {
      sink.WriteError(meta.error.Message());
      return None;
    }
    sink.TrackProcess(Line(ResizeText, nl));
    assert sink.notices == before + Progress(nl)[..3];
    var image := s.images.resizeImage(file, ImageWidth, ImageHeight);
    if image.Failure? {
      sink.WriteError(image.error.Message());
      return None;
    }
    var fileExtension := ConsoleExtension(file);
    var prompt := CaptionPromptStep(language, meta.value, info, s, c.prompt);
    if prompt.Failure? {
      sink.WriteError(prompt.error.Message());
      return None;
    }
    sink.TrackProcess(Line(VisionText, nl));
    assert sink.notices == before + Progress(nl);
    var response := VisionRequestStep(chat, image.value, fileExtension, prompt.value, s, c.vision);
    if response.Failure? {
      sink.WriteError(response.error.Message());
      return None;
    }
    item := Some(InstagramItem(file, meta.value, response.value));
    sink.TrackProcess(Line(SeparatorText, nl));
  }

  /** One more turn of the loop adds the picture's notices and its item, if any. */
  lemma ConsoleLoopStep(files: seq<string>, i: nat, c: FileContext)
    requires i < |files|
    ensures ConsoleNotices(files[..i + 1], c) == ConsoleNotices(files[..i], c) + ConsoleFile(files[i], c).notices
    ensures ConsoleItems(files[..i + 1], c)
         == ConsoleItems(files[..i], c) + (if ConsoleFile(files[i], c).item.Some? then [ConsoleFile(files[i], c).item.value] else [])
  {
    assert files[..i + 1][..i] == files[..i];
  }

  /** The `foreach` over the pictures: one item per successful picture. */
  method ProcessPictures(chat: ChatService, sink: ProgressSink, files: seq<string>, language: string,
                         info: Option<string>, s: Services, ghost c: FileContext) returns (items: seq<InstagramItem>)
    requires c.images == s.images && c.newLine == s.newLine
    requires PromptsFor(c.prompt, language, info, s) && AsksFor(c.vision, chat.chatClient, s)
    modifies sink
    ensures items == ConsoleItems(files, c)
    ensures sink.notices == old(sink.notices) + ConsoleNotices(files, c)
  {
    items := [];
    for i := 0 to |files|
      invariant items == ConsoleItems(files[..i], c)
      invariant sink.notices == old(sink.notices) + ConsoleNotices(files[..i], c)
    {
      ConsoleLoopStep(files, i, c);
      var item := ProcessPicture(chat, sink, files[i], language, info, s, c);
      AppendAssociates(old(sink.notices), ConsoleNotices(files[..i], c), ConsoleFile(files[i], c).notices);
      if item.Some? {
        items := items + [item.value];
      }
    }
    assert files[..|files|] == files;
  }

  /** `StartProcessAsync()`. */
  method StartProcess(chat: ChatService, fs: FileSystem, sink: ProgressSink, a: Answers, s: Services, now: Timestamp)
    returns (o: Outcome<Error>)
    modifies chat, fs, sink
    ensures var r := ConsoleRun(old(fs.disk), old(chat.chatClient), a, s, now);
      && fs.disk == r.disk && chat.chatClient == r.client
      && sink.notices == old(sink.notices) + r.notices && o == r.outcome
  {
    o := InitializeChatClient(chat, a);
    if o.Fail? {
      return;
    }
    var pictureFolder := GetValidatedFolderPath(fs, sink, a.pictureFolder);
    if IsNullOrWhiteSpace(Some(pictureFolder)) {
      return Pass;
    }
    var listed := GetPictureFilesInFolder(fs.disk, pictureFolder);
    if listed.Failure? {
      return Fail(listed.error);
    }
    var files := listed.value;
    if |files| == 0 {
      sink.WriteError(NoPicturesText);
      return Pass;
    }
    o := GetValidatedOutputFolderPath(fs, a.outputFolder);
    if o.Fail? {
      return;
    }
    ghost var client := chat.chatClient;
    ghost var ctx := ConsoleContext(client, a.language, a.additionalInformation, s);
    ConsoleContextDescribes(client, a.language, a.additionalInformation, s);
    var items := ProcessPictures(chat, sink, files, a.language, a.additionalInformation, s, ctx);
    var outputFile := Combine(a.outputFolder, OutputFileName(now));
    ghost var loopNotices := ConsoleNotices(files, ctx) + [Tracked(Line(WriteOutputText, s.newLine))];
    AppendAssociates(old(sink.notices), ConsoleNotices(files, ctx), [Tracked(Line(WriteOutputText, s.newLine))]);
    sink.TrackProcess(Line(WriteOutputText, s.newLine));
    o := WriteData(fs, outputFile, items);
    if o.Fail? {
      return;
    }
    AppendAssociates(old(sink.notices), loopNotices, [Tracked(Line(FinishText, s.newLine))]);
    sink.TrackProcess(Line(FinishText, s.newLine));
  }
}
