/**
  The desktop app's MainWindowViewModel: the bound settings, the two
  command guards, and `ProcessImagesAsync`, which lists the pictures,
  captions each one (re-initialising the chat client inside every picture's
  `try` block) and writes one output file. Progress goes through the WPF
  tracker into the activity log.
*/
module DesktopViewModel {
  import opened Wrappers
  import opened Text
  import opened Errors
  import opened Models
  import opened Selection
  import opened Paths
  import opened Storage
  import opened Chat
  import opened Images
  import opened ActivityLog
  import opened Statics
  import opened Steps
  import ConsoleProcess

  /** The WPF ProcessTrackerService: every message goes to the activity log, trimmed. */
  class ProcessTracker {
    const log: ActivityLogService

    constructor (log: ActivityLogService)
      ensures this.log == log
    {
      this.log := log;
    }

    /** `TrackProcess(message)`. */
    method TrackProcess(message: string)
      modifies log.entries
      ensures log.entries.items == old(log.entries.items) + [Trim(message)]
    {
      log.AddEntry(Trim(message));
    }
  }

  /** The bound properties `ProcessImagesAsync` reads. */
  datatype Settings = Settings(
    host: string, selectedDeployment: string, language: string, info: Option<string>,
    openAIKey: Option<string>, azureKey: Option<string>, azureEndpoint: Option<string>, deployment: Option<string>,
    pictureFolder: Option<string>, outputFolder: Option<string>)

  /** The `Init*` call the loop body makes for the selected host, as written:
      the Azure call passes the key first, into the endpoint parameter, and
      the endpoint second, into the key parameter. No call for another host. */
  function HostInit(st: Settings): Option<Result<ChatClient, Error>> {
    if st.host == OpenAIHost then Some(OpenAIClientFor(st.openAIKey, Some(st.selectedDeployment)))
    else if st.host == AzureOpenAIHost then Some(AzureClientFor(st.azureKey, st.azureEndpoint, st.deployment))
    else None
  }

  /** The Azure client is built with the key as its endpoint and the endpoint
      as its key, and a missing key is reported as a missing endpoint. */
  lemma HostInitSwapsAzureSettings(st: Settings)
    requires st.host == AzureOpenAIHost
    ensures HostInit(st).Some?
    ensures var init := HostInit(st).value;
      && (init.Success? <==> !IsNullOrWhiteSpace(st.azureKey) && !IsNullOrWhiteSpace(st.azureEndpoint)
                             && !IsNullOrWhiteSpace(st.deployment))
      && (init.Success? ==> init.value == AzureClient(st.azureKey.value, st.azureEndpoint.value, st.deployment.value))
      && (IsNullOrWhiteSpace(st.azureKey) ==> Fail(init.error) == ThrowIfNullOrWhiteSpace(st.azureKey, "azureOpenAIEndpoint"))
  {
  }

  /** The call the Azure branch evidently means: every setting to the
      parameter of the same name. */
  function IntendedHostInit(st: Settings): Option<Result<ChatClient, Error>> {
    if st.host == OpenAIHost then Some(OpenAIClientFor(st.openAIKey, Some(st.selectedDeployment)))
    else if st.host == AzureOpenAIHost then Some(AzureClientFor(st.azureEndpoint, st.azureKey, st.deployment))
    else None
  }

  /** With the intended call the client holds each setting in its own field,
      and only the Azure branch differs from the call as written. */
  lemma IntendedHostInitKeepsSettings(st: Settings)
    ensures st.host == AzureOpenAIHost ==> IntendedHostInit(st).Some?
    ensures st.host == AzureOpenAIHost && IntendedHostInit(st).value.Success? ==>
      IntendedHostInit(st).value.value == AzureClient(st.azureEndpoint.value, st.azureKey.value, st.deployment.value)
    ensures st.host == OpenAIHost && IntendedHostInit(st).value.Success? ==>
      IntendedHostInit(st).value.value == OpenAIClient(st.openAIKey.value, st.selectedDeployment)
    ensures st.host != AzureOpenAIHost ==> IntendedHostInit(st) == HostInit(st)
  {
  }

  /** An Azure key and endpoint that are not the same string give a client
      pointed at the key. */
  lemma AzureSwapCounterexample(st: Settings)
    requires st.host == AzureOpenAIHost
    requires st.azureKey == Some("secret") && st.azureEndpoint == Some("https://e.example/")
    requires st.deployment == Some("gpt-4o")
    ensures HostInit(st) == Some(Success(AzureClient("secret", "https://e.example/", "gpt-4o")))
    ensures IntendedHostInit(st) == Some(Success(AzureClient("https://e.example/", "secret", "gpt-4o")))
  {
    assert !IsWhiteSpace("secret"[0]) && !IsWhiteSpace("https://e.example/"[0]) && !IsWhiteSpace("gpt-4o"[0]);
  }

  /** The steps the loop body runs on a picture besides the progress
      messages: the image service, the prompt, the `Init*` call (if the host
      has one), the vision request and the extension it is given. */
  datatype DesktopContext = DesktopContext(
    images: ImageService,
    prompt: ImageMetaData -> Result<string, Error>,
    init: Option<Result<ChatClient, Error>>,
    vision: (Bytes, string, string) -> Result<AIResponse, Error>,
    extension: string -> string)

  /** The client field the vision request sees: the one the `Init*` call left. */
  function VisionClient(client: Option<ChatClient>, init: Option<Result<ChatClient, Error>>): Option<ChatClient> {
    if init.Some? then AfterInit(client, init.value) else client
  }

  /** The loop body as written, for the client field at the start of the loop:
      the file name goes where the extension is expected. */
  function DesktopContextFor(client: Option<ChatClient>, st: Settings, s: Services): DesktopContext {
    var init := HostInit(st);
    DesktopContext(s.images, PromptStep(st.language, st.info, s.format, s.newLine), init,
                   VisionStep(VisionClient(client, init), s.complete, s.newLine), GetFileName)
  }

  /** The loop body as evidently intended: the Azure settings in their own
      parameters and the extension the console sends. */
  function IntendedContextFor(client: Option<ChatClient>, st: Settings, s: Services): DesktopContext {
    var init := IntendedHostInit(st);
    DesktopContext(s.images, PromptStep(st.language, st.info, s.format, s.newLine), init,
                   VisionStep(VisionClient(client, init), s.complete, s.newLine), ConsoleProcess.ConsoleExtension)
  }

  /** A listed picture ends with a dot and an extension body. */
  lemma ImageFileTail(file: string) returns (n: nat)
    requires IsImageFile(file)
    ensures n < |file| && file[n] == '.' && IsExtensionBody(file[n + 1..])
  {
    var k := ImageFileExtension(file);
    var ext := ImageExtensions[k];
    ConsoleProcess.ImageExtensionIsDotted(k);
    n := |file| - |ext|;
    var lower := ToLower(file);
    assert lower[n..] == ext;
    assert LowerAscii(file[n]) == lower[n] == '.';
    var body := file[n + 1..];
    assert ToLower(body) == ext[1..] by {
      assert forall j :: 0 <= j < |body| ==> ToLower(body)[j] == lower[n + 1 + j];
    }
    ConsoleProcess.LowerOfExtensionBody(body, ext[1..]);
  }

  /** No image extension is a dot followed by a name holding another dot. */
  lemma DottedNameIsNoExtension(r: string, k: nat)
    requires '.' in r && k < |ImageExtensions|
    ensures "." + r != ImageExtensions[k]
  {
    ConsoleProcess.ImageExtensionIsDotted(k);
    var e := ImageExtensions[k];
    var d :| 0 <= d < |r| && r[d] == '.';
    assert ("." + r)[d + 1] == '.';
    forall j | 1 <= j < |e| ensures e[j] != '.' {
      assert IsExtensionChar(e[1..][j - 1]);
    }
  }

  /** A dot with no separator after it stays in the file name. */
  lemma {:induction false} FileNameKeepsDot(p: string, n: nat)
    requires n < |p| && p[n] == '.'
    requires forall k :: n < k < |p| ==> !IsSeparator(p[k])
    ensures '.' in GetFileName(p)
    decreases |p|
  {
    var init := p[..|p| - 1];
    assert GetFileName(p) == GetFileName(init) + [p[|p| - 1]];
    if n < |p| - 1 {
      forall k | n < k < |init| ensures !IsSeparator(init[k]) {
        assert init[k] == p[k];
      }
      FileNameKeepsDot(init, n);
    }
  }

  /** A path that ends with a dot and an extension body keeps that dot in its
      file name. */
  lemma FileNameKeepsLastDot(file: string, n: nat)
    requires n < |file| && file[n] == '.' && IsExtensionBody(file[n + 1..])
    ensures '.' in GetFileName(file)
  {
    forall k | n < k < |file| ensures !IsSeparator(file[k]) {
      assert file[k] == file[n + 1..][k - n - 1];
    }
    FileNameKeepsDot(file, n);
  }

  /** For a listed picture the file name sent as the extension holds a dot,
      so the media type is never `image/` and an image extension. */
  lemma FileNameIsNoImageType(file: string)
    requires IsImageFile(file)
    ensures '.' in GetFileName(file)
    ensures forall k :: 0 <= k < |ImageExtensions| ==> "." + GetFileName(file) != ImageExtensions[k]
  {
    var n := ImageFileTail(file);
    FileNameKeepsLastDot(file, n);
    var r := GetFileName(file);
    forall k | 0 <= k < |ImageExtensions| ensures "." + r != ImageExtensions[k] {
      DottedNameIsNoExtension(r, k);
    }
  }

  /** With the intended extension the media type is `image/` and the
      picture's own image extension. */
  lemma IntendedExtensionIsImageType(file: string, client: Option<ChatClient>, st: Settings, s: Services)
    returns (k: nat)
    requires IsImageFile(file)
    ensures k < |ImageExtensions| && "." + IntendedContextFor(client, st, s).extension(file) == ImageExtensions[k]
  {
    k := ConsoleProcess.ConsoleExtensionOfImage(file);
  }

  /** The progress messages of one picture, in the order they are tracked. */
  function ProgressText(k: nat): string
    requires k < 4
  {
    if k == 0 then StartText else if k == 1 then ExtractText else if k == 2 then ResizeText else VisionText
  }

  /** What the log shows for the first `n` progress messages of a picture. */
  function ProgressEntries(n: nat): (r: seq<string>)
    requires n <= 4
    ensures |r| == n
  {
    if n == 0 then [] else ProgressEntries(n - 1) + [Trim(ProgressText(n - 1))]
  }

  /** What one picture tracks, the item it adds, if any, and the exception
      that ended it, if any. */
  datatype PictureOutcome = PictureOutcome(entries: seq<string>, item: Option<InstagramItem>, error: Option<Error>)

  /** A picture whose step after the first `reached` progress messages threw. */
  function Stopped(reached: nat, e: Error): PictureOutcome
    requires reached <= 4
  {
    PictureOutcome(ProgressEntries(reached) + [Trim(e.Message())], None, Some(e))
  }

  /** A picture whose steps all succeeded. */
  function Captioned(item: InstagramItem): PictureOutcome {
    PictureOutcome(ProgressEntries(4) + [Trim(SeparatorText)], Some(item), None)
  }

  /** How far a picture gets before the `Init*` call: the metadata, the
      resized picture and the prompt, or the step that threw after the first
      `reached` progress messages. */
  datatype Preparation =
    | Ready(meta: ImageMetaData, image: Bytes, prompt: string)
    | Halted(reached: nat, error: Error)

  /** The steps of the `try` block up to the prompt. */
  function Prepare(file: string, c: DesktopContext): (r: Preparation)
    ensures r.Halted? ==> 2 <= r.reached <= 3
  {
    match c.images.extractImageMetadata(file)
    case Failure(e) => Halted(2, e)
    case Success(meta) =>
      match c.images.resizeImage(file, ImageWidth, ImageHeight)
      case Failure(e) => Halted(3, e)
      case Success(image) =>
        match c.prompt(meta)
        case Failure(e) => Halted(3, e)
        case Success(prompt) => Ready(meta, image, prompt)
  }

  /** What the steps up to the prompt track. */
  function PreparationEntries(r: Preparation): seq<string>
    requires r.Halted? ==> r.reached <= 4
  {
    if r.Ready? then ProgressEntries(4) else Stopped(r.reached, r.error).entries
  }

  /** The `try` block of the loop for one picture, and its `catch`. */
  function DesktopFile(file: string, c: DesktopContext): PictureOutcome {
    match Prepare(file, c)
    case Halted(n, e) => Stopped(n, e)
    case Ready(meta, image, prompt) =>
      if c.init.Some? && c.init.value.Failure? then Stopped(4, c.init.value.error)
      else
        match c.vision(image, c.extension(file), prompt)
        case Failure(e) => Stopped(4, e)
        case Success(response) => Captioned(InstagramItem(file, meta, response))
  }

  /** The steps before the `Init*` call succeed, so the call is made if the
      host has one. */
  predicate Prepared(file: string, c: DesktopContext) {
    Prepare(file, c).Ready?
  }

  /** Every step of a picture succeeds. */
  predicate DesktopStepsSucceed(file: string, c: DesktopContext) {
    var r := Prepare(file, c);
    && r.Ready?
    && (c.init.Some? ==> c.init.value.Success?)
    && c.vision(r.image, c.extension(file), r.prompt).Success?
  }

  /** A picture adds an item exactly when all its steps succeed, and the item
      names the picture; otherwise exactly one exception ends it and its
      message is the last thing tracked; a successful picture ends with the
      separator; the progress messages come first, in order. */
  lemma DesktopFileReports(file: string, c: DesktopContext)
    ensures var r := DesktopFile(file, c);
      && (r.item.Some? <==> DesktopStepsSucceed(file, c))
      && (r.item.Some? <==> r.error.None?)
      && (r.item.Some? ==> r.item.value.imageName == file)
      && (r.item.Some? ==> r.entries[|r.entries| - 1] == Trim(SeparatorText))
      && (r.error.Some? ==> r.entries[|r.entries| - 1] == Trim(r.error.value.Message()))
      && 3 <= |r.entries| <= 5
      && r.entries[..|r.entries| - 1] == ProgressEntries(|r.entries| - 1)
  {
    var r := DesktopFile(file, c);
    assert r.entries[..|r.entries| - 1] == ProgressEntries(|r.entries| - 1);
  }

  function ItemOf(c: DesktopContext): string -> Option<InstagramItem> {
    file => DesktopFile(file, c).item
  }

  function ErrorOf(c: DesktopContext): string -> Option<Error> {
    file => DesktopFile(file, c).error
  }

  /** The items collected by the loop over a run of pictures. */
  function DesktopItems(files: seq<string>, c: DesktopContext): seq<InstagramItem> {
    Select(files, ItemOf(c))
  }

  /** The exceptions the loop catches, in order. */
  function DesktopErrors(files: seq<string>, c: DesktopContext): seq<Error> {
    Select(files, ErrorOf(c))
  }

  /** What the log shows for a run of pictures. */
  function DesktopEntries(files: seq<string>, c: DesktopContext): seq<string> {
    if files == [] then [] else DesktopEntries(files[..|files| - 1], c) + DesktopFile(files[|files| - 1], c).entries
  }

  /** The client field after the loop: every picture that gets as far as the
      `Init*` call makes it again. */
  function ClientAfter(client: Option<ChatClient>, files: seq<string>, c: DesktopContext): Option<ChatClient> {
    if files == [] then client
    else
      var before := ClientAfter(client, files[..|files| - 1], c);
      if c.init.Some? && Prepared(files[|files| - 1], c) then AfterInit(before, c.init.value) else before
  }

  /** Re-initialising for every picture leaves the field as one call would:
      changed by the host's `Init*` call if any picture got that far, and as
      it was otherwise. */
  lemma {:induction false} ClientAfterIsOneInit(client: Option<ChatClient>, files: seq<string>, c: DesktopContext)
    ensures ClientAfter(client, files, c)
         == if c.init.Some? && exists k :: 0 <= k < |files| && Prepared(files[k], c)
            then AfterInit(client, c.init.value) else client
  {
    if files != [] {
      var init := files[..|files| - 1];
      ClientAfterIsOneInit(client, init, c);
      if c.init.Some? {
        InitIsIdempotent(client, c.init.value);
        if exists k :: 0 <= k < |init| && Prepared(init[k], c) {
          var k :| 0 <= k < |init| && Prepared(init[k], c);
          assert files[k] == init[k];
        }
        if exists k :: 0 <= k < |files| && Prepared(files[k], c) {
          var k :| 0 <= k < |files| && Prepared(files[k], c);
          if k < |init| {
            assert init[k] == files[k];
          }
        }
      }
    }
  }

  /** The client field after any run of pictures is the one the loop
      started with or the one a single `Init*` call leaves. */
  lemma {:induction false} ClientAfterIsClientOrInit(client: Option<ChatClient>, files: seq<string>, c: DesktopContext)
    ensures var after := ClientAfter(client, files, c);
      after == client || (c.init.Some? && after == AfterInit(client, c.init.value))
  {
    if files != [] {
      ClientAfterIsClientOrInit(client, files[..|files| - 1], c);
      if c.init.Some? {
        InitIsIdempotent(client, c.init.value);
      }
    }
  }

  /** The items are the successful pictures, one each, in listing order. */
  lemma DesktopItemsAreSuccessfulFiles(files: seq<string>, c: DesktopContext)
    ensures var items, idx := DesktopItems(files, c), Picked(files, ItemOf(c));
      |idx| == |items| && StrictlyIncreasing(idx)
      && (forall j :: 0 <= j < |idx| ==> idx[j] < |files| && items[j].imageName == files[idx[j]])
      && (forall k :: 0 <= k < |files| ==> (DesktopStepsSucceed(files[k], c) <==> k in idx))
  {
    SelectIsOrderedSubsequence(files, ItemOf(c));
    var items, idx := DesktopItems(files, c), Picked(files, ItemOf(c));
    forall j | 0 <= j < |idx| ensures items[j].imageName == files[idx[j]] {
      DesktopFileReports(files[idx[j]], c);
    }
    forall k | 0 <= k < |files| ensures DesktopStepsSucceed(files[k], c) <==> k in idx {
      DesktopFileReports(files[k], c);
    }
  }

  /** One exception is caught for every picture without an item. */
  lemma DesktopErrorsAreFailures(files: seq<string>, c: DesktopContext)
    ensures |DesktopErrors(files, c)| == |files| - |DesktopItems(files, c)|
  {
    ErrorsAreRejections(files, c);
    SelectSplitsInput(files, ItemOf(c));
  }

  lemma {:induction false} ErrorsAreRejections(files: seq<string>, c: DesktopContext)
    ensures |DesktopErrors(files, c)| == Rejected(files, ItemOf(c))
  {
    if files != [] {
      ErrorsAreRejections(files[..|files| - 1], c);
      DesktopFileReports(files[|files| - 1], c);
    }
  }

  /** The output file's name: `piccaptionr_{yyyy-MM-dd_HH-mm-ss}.txt`. */
  function OutputFileName(now: Timestamp): string {
    "piccaptionr_" + DesktopStamp(now) + ".txt"
  }

  /** The output file name holds no separator and carries the timestamp. */
  lemma OutputFileNameIsPlain(now: Timestamp)
    ensures var n := OutputFileName(now);
      |n| == 35 && (forall j :: 0 <= j < |n| ==> !IsSeparator(n[j]))
      && n[12..31] == DesktopStamp(now) && n[|n| - 1] == 't'
  {
    var stamp := DesktopStamp(now);
    StampsRoundTrip(now);
    var date, time := FormatDate(now), FormatTime(now);
    assert forall j :: 0 <= j < |date| ==> !IsSeparator(date[j]) by {
      assert date == Padded(now.year, 4) + "-" + Padded(now.month, 2) + "-" + Padded(now.day, 2);
    }
    assert forall j :: 0 <= j < |time| ==> !IsSeparator(time[j]) by {
      assert time == Padded(now.hour, 2) + "-" + Padded(now.minute, 2) + "-" + Padded(now.second, 2);
    }
    assert forall j :: 0 <= j < |stamp| ==> !IsSeparator(stamp[j]) by {
      assert stamp == date + "_" + time;
    }
  }

  /** Where the desktop app writes: `{OutputFolderPath}/` and the file name,
      with an unset folder giving an empty prefix. */
  function OutputPath(outputFolder: Option<string>, now: Timestamp): string {
    (if outputFolder.Some? then outputFolder.value else "") + "/" + OutputFileName(now)
  }

  /** The output path is never blank, sits in the output folder and its file
      name is the stamped name. */
  lemma OutputPathIsStamped(outputFolder: Option<string>, now: Timestamp)
    ensures !AllWhiteSpace(OutputPath(outputFolder, now))
    ensures GetFileName(OutputPath(outputFolder, now)) == OutputFileName(now)
    ensures outputFolder.Some? ==> StartsWith(OutputPath(outputFolder, now), outputFolder.value + "/")
  {
    var dir := (if outputFolder.Some? then outputFolder.value else "") + "/";
    var name := OutputFileName(now);
    OutputFileNameIsPlain(now);
    GetFileNameAfterSeparator(dir, name);
    var p := OutputPath(outputFolder, now);
    assert p == dir + name;
    assert p[|p| - 1] == name[|name| - 1];
  }

  /** The state a run leaves: the disk, the chat client field, the messages
      it tracked, `IsProcessing`, and whether it ended with an exception. */
  datatype DesktopRun = DesktopRun(disk: Disk, client: Option<ChatClient>, entries: seq<string>,
                                   processing: bool, outcome: Outcome<Error>)

  /** `ProcessImagesAsync` from a disk, a client field and the settings. */
  function ProcessRun(disk: Disk, client: Option<ChatClient>, st: Settings, s: Services, now: Timestamp): (r: DesktopRun)
    ensures var out := OutputPath(st.outputFolder, now);
      r.disk == disk || (out in r.disk.written && r.disk == disk.(written := disk.written[out := r.disk.written[out]]))
  {
    if !disk.DirectoryExists(st.pictureFolder) then
      DesktopRun(disk, client, [Trim(FolderDoesNotExistsText)], false, Pass)
    else
      match GetPictureFilesInFolder(disk, st.pictureFolder.value)
      case Failure(e) => DesktopRun(disk, client, [], true, Fail(e))
      case Success(files) =>
        if files == [] then DesktopRun(disk, client, [Trim(NoPicturesText)], false, Pass)
        else CaptionAndWrite(disk, client, files, DesktopContextFor(client, st, s), OutputPath(st.outputFolder, now))
  }

  /** The loop over the pictures and the final write to `outputFile`. */
  function CaptionAndWrite(disk: Disk, client: Option<ChatClient>, files: seq<string>, c: DesktopContext,
                           outputFile: string): DesktopRun {
    var entries := DesktopEntries(files, c) + [Trim(WriteOutputText)];
    var after := ClientAfter(client, files, c);
    match WriteDataResult(disk, outputFile, DesktopItems(files, c))
    case Failure(e) => DesktopRun(disk, after, entries, true, Fail(e))
    case Success(written) => DesktopRun(written, after, entries + [Trim(AllPhotosProcessedText)], false, Pass)
  }

  /** The write happens once, to the given file, with the collected items;
      only a write that returns clears `IsProcessing` and tracks the end
      message; the disk changes nowhere else. */
  lemma CaptionAndWriteWritesOnce(disk: Disk, client: Option<ChatClient>, files: seq<string>, c: DesktopContext,
                                  outputFile: string)
    requires !AllWhiteSpace(outputFile)
    ensures var r, items := CaptionAndWrite(disk, client, files, c, outputFile), DesktopItems(files, c);
      && r.client == ClientAfter(client, files, c)
      && r.disk.directories == disk.directories
      && r.disk.listings == disk.listings && r.disk.writeFaults == disk.writeFaults
      && r.disk.written == (if r.outcome.Pass? then disk.written[outputFile := items] else disk.written)
      && (r.outcome.Pass? <==> items != [] && outputFile !in disk.writeFaults)
      && (items == [] ==> r.outcome == Fail(ArgumentError(NoItemsText, "instagramItems")))
      && (r.processing <==> r.outcome.Fail?)
      && r.entries == DesktopEntries(files, c) + [Trim(WriteOutputText)] + (if r.outcome.Pass? then [Trim(AllPhotosProcessedText)] else [])
  {
  }

  /** `IsProcessing` is set at the start and cleared by every normal end: it
      stays set exactly when the run ends with an exception. */
  lemma ProcessingStaysSetOnlyOnException(disk: Disk, client: Option<ChatClient>, st: Settings, s: Services, now: Timestamp)
    ensures var r := ProcessRun(disk, client, st, s, now);
      r.processing <==> r.outcome.Fail?
  {
    if disk.DirectoryExists(st.pictureFolder) {
      var listed := GetPictureFilesInFolder(disk, st.pictureFolder.value);
      if listed.Success? && listed.value != [] {
        LoopRunWritesOnce(disk, client, st, s, now);
      }
    }
  }

  /** A missing picture folder, or one without pictures, is tracked once and
      ends the run normally before anything is written. */
  lemma EarlyExitsSkipTheWrite(disk: Disk, client: Option<ChatClient>, st: Settings, s: Services, now: Timestamp)
    requires !disk.DirectoryExists(st.pictureFolder)
          || GetPictureFilesInFolder(disk, st.pictureFolder.value) == Success([])
    ensures ProcessRun(disk, client, st, s, now)
         == DesktopRun(disk, client, [Trim(if !disk.DirectoryExists(st.pictureFolder) then FolderDoesNotExistsText else NoPicturesText)],
                       false, Pass)
  {
  }

  /** Once pictures are listed the loop runs over all of them and the write
      happens once, to the stamped path in the output folder, with the
      collected items. */
  lemma LoopRunWritesOnce(disk: Disk, client: Option<ChatClient>, st: Settings, s: Services, now: Timestamp)
    requires disk.DirectoryExists(st.pictureFolder)
    requires GetPictureFilesInFolder(disk, st.pictureFolder.value).Success?
    requires GetPictureFilesInFolder(disk, st.pictureFolder.value).value != []
    ensures var r := ProcessRun(disk, client, st, s, now);
      var files := GetPictureFilesInFolder(disk, st.pictureFolder.value).value;
      var c := DesktopContextFor(client, st, s);
      var items, path := DesktopItems(files, c), OutputPath(st.outputFolder, now);
      && r.disk.directories == disk.directories
      && r.disk.listings == disk.listings && r.disk.writeFaults == disk.writeFaults
      && r.disk.written == (if r.outcome.Pass? then disk.written[path := items] else disk.written)
      && (r.outcome.Pass? <==> items != [] && path !in disk.writeFaults)
      && (items == [] ==> r.outcome == Fail(ArgumentError(NoItemsText, "instagramItems")))
      && r.client == ClientAfter(client, files, c)
      && (r.processing <==> r.outcome.Fail?)
      && r.entries == DesktopEntries(files, c) + [Trim(WriteOutputText)] + (if r.outcome.Pass? then [Trim(AllPhotosProcessedText)] else [])
  {
    var files := GetPictureFilesInFolder(disk, st.pictureFolder.value).value;
    var c := DesktopContextFor(client, st, s);
    var path := OutputPath(st.outputFolder, now);
    OutputPathIsStamped(st.outputFolder, now);
    assert ProcessRun(disk, client, st, s, now) == CaptionAndWrite(disk, client, files, c, path);
    CaptionAndWriteWritesOnce(disk, client, files, c, path);
  }

  /** No picture adds an item when every picture fails. */
  lemma NoItemsWhenAllFail(files: seq<string>, c: DesktopContext)
    requires forall f :: f in files ==> !DesktopStepsSucceed(f, c)
    ensures DesktopItems(files, c) == []
  {
    forall k | 0 <= k < |files| ensures ItemOf(c)(files[k]).None? {
      DesktopFileReports(files[k], c);
    }
    SelectOfNone(files, ItemOf(c));
  }

  /** When every picture fails the loop has nothing to write: `WriteData`
      throws its empty-list exception, nothing is written, the end message is
      not tracked and `IsProcessing` stays set. */
  lemma AllFailuresKeepProcessing(disk: Disk, client: Option<ChatClient>, st: Settings, s: Services, now: Timestamp)
    requires disk.DirectoryExists(st.pictureFolder)
    requires GetPictureFilesInFolder(disk, st.pictureFolder.value).Success?
    requires var files := GetPictureFilesInFolder(disk, st.pictureFolder.value).value;
      files != [] && forall f :: f in files ==> !DesktopStepsSucceed(f, DesktopContextFor(client, st, s))
    ensures var r := ProcessRun(disk, client, st, s, now);
      && r.outcome == Fail(ArgumentError(NoItemsText, "instagramItems")) && r.processing
      && r.disk == disk
      && |r.entries| > 0 && r.entries[|r.entries| - 1] == Trim(WriteOutputText)
  {
    NoItemsWhenAllFail(GetPictureFilesInFolder(disk, st.pictureFolder.value).value, DesktopContextFor(client, st, s));
    LoopRunWritesOnce(disk, client, st, s, now);
  }

  /** The `Init*` call for the selected host. */
  method InitializeForHost(chat: ChatService, st: Settings) returns (o: Outcome<Error>)
    modifies chat
    ensures HostInit(st).None? ==> o == Pass && chat.chatClient == old(chat.chatClient)
    ensures HostInit(st).Some? ==>
      && o == (if HostInit(st).value.Success? then Pass else Fail(HostInit(st).value.error))
      && chat.chatClient == AfterInit(old(chat.chatClient), HostInit(st).value)
  {
    o := Pass;
    if st.host == OpenAIHost {
      o := chat.InitOpenAIChatClient(st.openAIKey, Some(st.selectedDeployment));
    } else if st.host == AzureOpenAIHost {
      o := chat.InitAzureOpenAIChatClient(st.azureKey, st.azureEndpoint, st.deployment);
    }
  }

  /** The first steps of the loop body: the progress messages around the
      metadata, and the message of the exception if reading it throws. */
  method ExtractPicture(tracker: ProcessTracker, file: string, images: ImageService)
    returns (meta: Result<ImageMetaData, Error>)
    modifies tracker.log.entries
    ensures meta == images.extractImageMetadata(file)
    ensures tracker.log.entries.items == old(tracker.log.entries.items)
      + (if meta.Failure? then Stopped(2, meta.error).entries else ProgressEntries(3))
  {
    ghost var log := tracker.log.entries.items;
    tracker.TrackProcess(StartText);
    tracker.TrackProcess(ExtractText);
    AppendAssociates(log, ProgressEntries(1), [Trim(ExtractText)]);
    meta := images.extractImageMetadata(file);
    if meta.Failure? {
      tracker.TrackProcess(meta.error.Message());
      AppendAssociates(log, ProgressEntries(2), [Trim(meta.error.Message())]);
      return;
    }
    tracker.TrackProcess(ResizeText);
    AppendAssociates(log, ProgressEntries(2), [Trim(ResizeText)]);
  }

  /** The loop body for one picture up to the prompt. */
  method PreparePicture(tracker: ProcessTracker, file: string, st: Settings, s: Services, ghost c: DesktopContext)
    returns (r: Preparation)
    requires c.images == s.images && PromptsFor(c.prompt, st.language, st.info, s)
    modifies tracker.log.entries
    ensures r == Prepare(file, c)
    ensures tracker.log.entries.items == old(tracker.log.entries.items) + PreparationEntries(r)
  {
    ghost var log := tracker.log.entries.items;
    var meta := ExtractPicture(tracker, file, s.images);
    if meta.Failure? {
      return Halted(2, meta.error);
    }
    var image := s.images.resizeImage(file, ImageWidth, ImageHeight);
    if image.Failure? {
      tracker.TrackProcess(image.error.Message());
      AppendAssociates(log, ProgressEntries(3), [Trim(image.error.Message())]);
      return Halted(3, image.error);
    }
    var prompt := CaptionPromptStep(st.language, meta.value, st.info, s, c.prompt);
    if prompt.Failure? {
      tracker.TrackProcess(prompt.error.Message());
      AppendAssociates(log, ProgressEntries(3), [Trim(prompt.error.Message())]);
      return Halted(3, prompt.error);
    }
    tracker.TrackProcess(VisionText);
    AppendAssociates(log, ProgressEntries(3), [Trim(VisionText)]);
    return Ready(meta.value, image.value, prompt.value);
  }

  /** The loop body for one picture: the `try` block and its `catch`. */
  method CaptionPicture(chat: ChatService, tracker: ProcessTracker, file: string, st: Settings, s: Services,
                        ghost client: Option<ChatClient>, ghost c: DesktopContext)
    returns (item: Option<InstagramItem>)
    requires c.images == s.images && c.init == HostInit(st) && c.extension == GetFileName
    requires PromptsFor(c.prompt, st.language, st.info, s) && AsksFor(c.vision, VisionClient(client, c.init), s)
    requires chat.chatClient == client || (c.init.Some? && chat.chatClient == AfterInit(client, c.init.value))
    modifies chat, tracker.log.entries
    ensures var r := DesktopFile(file, c);
      && tracker.log.entries.items == old(tracker.log.entries.items) + r.entries && item == r.item
      && chat.chatClient == (if Prepared(file, c) && c.init.Some? then AfterInit(old(chat.chatClient), c.init.value)
                             else old(chat.chatClient))
  {
    ghost var log := tracker.log.entries.items;
    var ready := PreparePicture(tracker, file, st, s, c);
    if ready.Halted? {
      return None;
    }
    var init := InitializeForHost(chat, st);
    if c.init.Some? {
      InitIsIdempotent(client, c.init.value);
    }
    if init.Fail? {
      tracker.TrackProcess(init.error.Message());
      AppendAssociates(log, ProgressEntries(4), [Trim(init.error.Message())]);
      assert DesktopFile(file, c) == Stopped(4, init.error);
      return None;
    }
    var response := VisionRequestStep(chat, ready.image, GetFileName(file), ready.prompt, s, c.vision);
    if response.Failure? {
      tracker.TrackProcess(response.error.Message());
      AppendAssociates(log, ProgressEntries(4), [Trim(response.error.Message())]);
      assert DesktopFile(file, c) == Stopped(4, response.error);
      return None;
    }
    item := Some(InstagramItem(file, ready.meta, response.value));
    tracker.TrackProcess(SeparatorText);
    AppendAssociates(log, ProgressEntries(4), [Trim(SeparatorText)]);
    assert DesktopFile(file, c) == Captioned(item.value);
  }

  /** One more turn of the loop adds the picture's messages, its item, if
      any, and its `Init*` call, if made. */
  lemma DesktopLoopStep(files: seq<string>, i: nat, client: Option<ChatClient>, c: DesktopContext)
    requires i < |files|
    ensures DesktopEntries(files[..i + 1], c) == DesktopEntries(files[..i], c) + DesktopFile(files[i], c).entries
    ensures DesktopItems(files[..i + 1], c)
         == DesktopItems(files[..i], c) + (if DesktopFile(files[i], c).item.Some? then [DesktopFile(files[i], c).item.value] else [])
    ensures ClientAfter(client, files[..i + 1], c)
         == if c.init.Some? && Prepared(files[i], c) then AfterInit(ClientAfter(client, files[..i], c), c.init.value)
            else ClientAfter(client, files[..i], c)
  {
    assert files[..i + 1][..i] == files[..i];
  }

  /** One turn of the `foreach`: the picture at `i` after the ones before it. */
  method CaptionNext(chat: ChatService, tracker: ProcessTracker, files: seq<string>, i: nat, st: Settings, s: Services,
                     items: seq<InstagramItem>, ghost client: Option<ChatClient>, ghost c: DesktopContext,
                     ghost log: seq<string>)
    returns (next: seq<InstagramItem>)
    requires i < |files|
    requires c.images == s.images && c.init == HostInit(st) && c.extension == GetFileName
    requires PromptsFor(c.prompt, st.language, st.info, s) && AsksFor(c.vision, VisionClient(client, c.init), s)
    requires items == DesktopItems(files[..i], c)
    requires tracker.log.entries.items == log + DesktopEntries(files[..i], c)
    requires chat.chatClient == ClientAfter(client, files[..i], c)
    modifies chat, tracker.log.entries
    ensures next == DesktopItems(files[..i + 1], c)
    ensures tracker.log.entries.items == log + DesktopEntries(files[..i + 1], c)
    ensures chat.chatClient == ClientAfter(client, files[..i + 1], c)
  {
    DesktopLoopStep(files, i, client, c);
    ClientAfterIsClientOrInit(client, files[..i], c);
    var item := CaptionPicture(chat, tracker, files[i], st, s, client, c);
    AppendAssociates(log, DesktopEntries(files[..i], c), DesktopFile(files[i], c).entries);
    next := if item.Some? then items + [item.value] else items;
  }

  /** The `foreach` over the pictures. */
  method CaptionPictures(chat: ChatService, tracker: ProcessTracker, files: seq<string>, st: Settings, s: Services,
                         ghost c: DesktopContext)
    returns (items: seq<InstagramItem>)
    requires c.images == s.images && c.init == HostInit(st) && c.extension == GetFileName
    requires PromptsFor(c.prompt, st.language, st.info, s) && AsksFor(c.vision, VisionClient(chat.chatClient, c.init), s)
    modifies chat, tracker.log.entries
    ensures items == DesktopItems(files, c)
    ensures tracker.log.entries.items == old(tracker.log.entries.items) + DesktopEntries(files, c)
    ensures chat.chatClient == ClientAfter(old(chat.chatClient), files, c)
  {
    ghost var client, log := chat.chatClient, tracker.log.entries.items;
    items := [];
    for i := 0 to |files|
      invariant items == DesktopItems(files[..i], c)
      invariant tracker.log.entries.items == log + DesktopEntries(files[..i], c)
      invariant chat.chatClient == ClientAfter(client, files[..i], c)
    {
      items := CaptionNext(chat, tracker, files, i, st, s, items, client, c, log);
    }
    assert files[..|files|] == files;
  }

  /** The end of `ProcessImagesAsync`, after the loop over `files` has left
      `items` and the log `log` plus its entries: the write message, the
      write of the items and, if the write returns, the end message. */
  method FinishRun(fs: FileSystem, tracker: ProcessTracker, outputFile: string, items: seq<InstagramItem>,
                   ghost disk: Disk, ghost client: Option<ChatClient>, ghost files: seq<string>,
                   ghost c: DesktopContext, ghost log: seq<string>)
    returns (o: Outcome<Error>)
    requires fs.disk == disk && items == DesktopItems(files, c)
    requires tracker.log.entries.items == log + DesktopEntries(files, c)
    modifies fs, tracker.log.entries
    ensures var r := CaptionAndWrite(disk, client, files, c, outputFile);
      && fs.disk == r.disk && o == r.outcome && r.client == ClientAfter(client, files, c)
      && tracker.log.entries.items == log + r.entries
  {
    tracker.TrackProcess(WriteOutputText);
    AppendAssociates(log, DesktopEntries(files, c), [Trim(WriteOutputText)]);
    o := WriteData(fs, outputFile, items);
    if o.Fail? {
      return;
    }
    tracker.TrackProcess(AllPhotosProcessedText);
    AppendAssociates(log, DesktopEntries(files, c) + [Trim(WriteOutputText)], [Trim(AllPhotosProcessedText)]);
  }

  /** The part of `ProcessImagesAsync` after the listing: the loop and the
      write to the stamped file. */
  method CaptionAndWritePictures(chat: ChatService, fs: FileSystem, tracker: ProcessTracker, files: seq<string>,
                                 st: Settings, s: Services, outputFile: string, ghost c: DesktopContext)
    returns (o: Outcome<Error>)
    requires c.images == s.images && c.init == HostInit(st) && c.extension == GetFileName
    requires PromptsFor(c.prompt, st.language, st.info, s) && AsksFor(c.vision, VisionClient(chat.chatClient, c.init), s)
    modifies chat, fs, tracker.log.entries
    ensures var r := CaptionAndWrite(old(fs.disk), old(chat.chatClient), files, c, outputFile);
      && fs.disk == r.disk && chat.chatClient == r.client && o == r.outcome
      && tracker.log.entries.items == old(tracker.log.entries.items) + r.entries
  {
    ghost var log, disk, client := tracker.log.entries.items, fs.disk, chat.chatClient;
    var items := CaptionPictures(chat, tracker, files, st, s, c);
    // The write leaves the client alone: it changes neither of these objects.
    var entries := tracker.log.entries;
    assert chat as object != entries as object && chat as object != fs as object;
    o := FinishRun(fs, tracker, outputFile, items, disk, client, files, c, log);
  }

  class MainWindowViewModel {
    var isProcessing: bool
    var selectedHost: string
    var selectedDeploymentName: string
    var selectedLanguage: string
    var additionalInformation: Option<string>
    var openAIApiKey: Option<string>
    var azureOpenAIApiKey: Option<string>
    var azureOpenAIEndpoint: Option<string>
    var deploymentName: Option<string>
    var pictureFolderPath: Option<string>
    var outputFolderPath: Option<string>

    const chatService: ChatService
    const storageService: FileSystem
    const processTracker: ProcessTracker

    /** The injected services and the properties' initial values. */
    constructor (chatService: ChatService, storageService: FileSystem, processTracker: ProcessTracker)
      ensures this.chatService == chatService && this.storageService == storageService
      ensures this.processTracker == processTracker
      ensures !isProcessing && selectedHost == OpenAIHost
      ensures selectedDeploymentName == DefaultDeploymentName && selectedLanguage == DefaultLanguage
      ensures additionalInformation.None? && openAIApiKey.None? && azureOpenAIApiKey.None?
      ensures azureOpenAIEndpoint.None? && deploymentName.None?
      ensures pictureFolderPath.None? && outputFolderPath.None?
      ensures CanSelectFolder() && !CanProcessImages()
    {
      this.chatService := chatService;
      this.storageService := storageService;
      this.processTracker := processTracker;
      isProcessing := false;
      selectedHost := OpenAIHost;
      selectedDeploymentName := DefaultDeploymentName;
      selectedLanguage := DefaultLanguage;
      additionalInformation := None;
      openAIApiKey := None;
      azureOpenAIApiKey := None;
      azureOpenAIEndpoint := None;
      deploymentName := None;
      pictureFolderPath := None;
      outputFolderPath := None;
    }

    /** The properties the command reads. */
    function CurrentSettings(): Settings
      reads this
    {
      Settings(selectedHost, selectedDeploymentName, selectedLanguage, additionalInformation,
               openAIApiKey, azureOpenAIApiKey, azureOpenAIEndpoint, deploymentName,
               pictureFolderPath, outputFolderPath)
    }

    /** `ActivityLog`: the live collection the tracker writes to. */
    function ActivityLog(): EntryCollection {
      processTracker.log.GetEntries()
    }

    /** `CanProcessImages()`: a known host, its credentials and both folders
        are filled in. The test is for empty strings only, and a guarded
        run always makes an `Init*` call. */
    function CanProcessImages(): (b: bool)
      reads this
      ensures b ==> HostInit(CurrentSettings()).Some?
      ensures b ==> (pictureFolderPath.Some? && pictureFolderPath.value != ""
                     && outputFolderPath.Some? && outputFolderPath.value != "")
      ensures b && selectedHost == OpenAIHost ==> openAIApiKey.Some? && openAIApiKey.value != ""
      ensures b && selectedHost == AzureOpenAIHost ==>
        && azureOpenAIApiKey.Some? && azureOpenAIApiKey.value != ""
        && azureOpenAIEndpoint.Some? && azureOpenAIEndpoint.value != ""
        && deploymentName.Some? && deploymentName.value != ""
      ensures var folders := !IsNullOrEmpty(pictureFolderPath) && !IsNullOrEmpty(outputFolderPath);
        && (selectedHost == OpenAIHost && folders && !IsNullOrEmpty(openAIApiKey) ==> b)
        && (var azure := !IsNullOrEmpty(azureOpenAIApiKey) && !IsNullOrEmpty(azureOpenAIEndpoint)
                         && !IsNullOrEmpty(deploymentName);
            selectedHost == AzureOpenAIHost && folders && azure ==> b)
    {
      if selectedHost == OpenAIHost then
        !IsNullOrEmpty(openAIApiKey) && !IsNullOrEmpty(pictureFolderPath) && !IsNullOrEmpty(outputFolderPath)
      else if selectedHost == AzureOpenAIHost then
        && !IsNullOrEmpty(azureOpenAIApiKey) && !IsNullOrEmpty(azureOpenAIEndpoint) && !IsNullOrEmpty(deploymentName)
        && !IsNullOrEmpty(pictureFolderPath) && !IsNullOrEmpty(outputFolderPath)
      else false
    }

    /** `CanSelectFolder()`. */
    predicate CanSelectFolder()
      reads this
    {
      !isProcessing
    }

    /** `ProcessImagesAsync()`. */
    method ProcessImages(s: Services, now: Timestamp) returns (o: Outcome<Error>)
      modifies this, chatService, storageService, processTracker.log.entries
      ensures var r := ProcessRun(old(storageService.disk), old(chatService.chatClient), old(CurrentSettings()), s, now);
        && storageService.disk == r.disk && chatService.chatClient == r.client
        && processTracker.log.entries.items == old(processTracker.log.entries.items) + r.entries
        && isProcessing == r.processing && o == r.outcome
      ensures CurrentSettings() == old(CurrentSettings())
      ensures CanSelectFolder() <==> o.Pass?
    {
      isProcessing := true;
      if !storageService.disk.DirectoryExists(pictureFolderPath) {
        processTracker.TrackProcess(FolderDoesNotExistsText);
        isProcessing := false;
        return Pass;
      }
      var listed := GetPictureFilesInFolder(storageService.disk, pictureFolderPath.value);
      if listed.Failure? {
        return Fail(listed.error);
      }
      var files := listed.value;
      if |files| == 0 {
        processTracker.TrackProcess(NoPicturesText);
        isProcessing := false;
        return Pass;
      }
      var st := CurrentSettings();
      ghost var c := DesktopContextFor(chatService.chatClient, st, s);
      StepsDescribe(VisionClient(chatService.chatClient, c.init), st.language, st.info, s);
      var outputFile := OutputPath(outputFolderPath, now);
      o := CaptionAndWritePictures(chatService, storageService, processTracker, files, st, s, outputFile, c);
      OutputPathIsStamped(st.outputFolder, now);
      CaptionAndWriteWritesOnce(old(storageService.disk), old(chatService.chatClient), files, c, OutputPath(st.outputFolder, now));
      if o.Pass? {
        isProcessing := false;
      }
    }
  }

  /** The guard tests for empty strings, the `Init*` calls for blank ones: a
      key of one space enables the command and every picture that gets as far
      as the call then fails with the argument exception. */
  lemma GuardAdmitsBlankKey(vm: MainWindowViewModel)
    requires vm.selectedHost == OpenAIHost && vm.openAIApiKey == Some(" ")
    requires vm.pictureFolderPath.Some? && vm.pictureFolderPath.value != ""
    requires vm.outputFolderPath.Some? && vm.outputFolderPath.value != ""
    ensures vm.CanProcessImages()
    ensures HostInit(vm.CurrentSettings()) == Some(Failure(ArgumentError(WhiteSpaceArgumentText, "openAIKey")))
  {
  }

  /** With every guarded field also not blank, the `Init*` call succeeds. */
  lemma GuardedInitSucceeds(vm: MainWindowViewModel)
    requires vm.CanProcessImages()
    requires vm.selectedHost == OpenAIHost ==> !IsNullOrWhiteSpace(vm.openAIApiKey) && !AllWhiteSpace(vm.selectedDeploymentName)
    requires vm.selectedHost == AzureOpenAIHost ==>
      !IsNullOrWhiteSpace(vm.azureOpenAIApiKey) && !IsNullOrWhiteSpace(vm.azureOpenAIEndpoint) && !IsNullOrWhiteSpace(vm.deploymentName)
    ensures HostInit(vm.CurrentSettings()).Some? && HostInit(vm.CurrentSettings()).value.Success?
  {
  }
}
