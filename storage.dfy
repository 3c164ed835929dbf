/**
  StorageService: the picture filter over a directory listing and the
  argument checks in front of `CreateDirectory` and `WriteData`. The disk
  is a `FileSystem` object; JSON serialisation is not modelled, a write
  records the item list under the file name.
*/
module Storage {
  import opened Wrappers
  import opened Text
  import opened Errors
  import opened Models
  import opened Selection

  /** `imageExtensions`. */
  const ImageExtensions: seq<string> := [".jpg", ".jpeg", ".png", ".gif", ".bmp"]

  /** Ends, ignoring case, with one of the image extensions. */
  predicate IsImageFile(file: string) {
    exists k :: 0 <= k < |ImageExtensions| && EndsWithIgnoreCase(file, ImageExtensions[k])
  }

  function ImagePick(file: string): Option<string> {
    if IsImageFile(file) then Some(file) else None
  }

  /** The `Where` clause over `Directory.GetFiles`. */
  function FilterImages(files: seq<string>): seq<string> {
    Select(files, ImagePick)
  }

  /** The filter keeps a path exactly when it is an image file, keeps nothing
      else, and keeps the listing's order. */
  lemma FilterImagesIsOrderedSubsequence(files: seq<string>)
    ensures var r, idx := FilterImages(files), Picked(files, ImagePick);
      |idx| == |r| && StrictlyIncreasing(idx)
      && (forall j :: 0 <= j < |idx| ==> idx[j] < |files| && r[j] == files[idx[j]])
      && (forall k :: 0 <= k < |files| ==> (IsImageFile(files[k]) <==> k in idx))
  {
    SelectIsOrderedSubsequence(files, ImagePick);
  }

  lemma FilterImagesMembership(files: seq<string>, f: string)
    ensures f in FilterImages(files) <==> f in files && IsImageFile(f)
  {
    FilterImagesIsOrderedSubsequence(files);
    var r, idx := FilterImages(files), Picked(files, ImagePick);
    if f in r {
      var j :| 0 <= j < |r| && r[j] == f;
      assert files[idx[j]] == f;
    }
    if f in files && IsImageFile(f) {
      var k :| 0 <= k < |files| && files[k] == f;
      var j :| 0 <= j < |idx| && idx[j] == k;
      assert r[j] == f;
    }
  }

  /** The extensions are written in lower case. */
  lemma ImageExtensionsAreLowerCase(k: nat)
    requires k < |ImageExtensions|
    ensures ToLower(ImageExtensions[k]) == ImageExtensions[k]
  {
    var e := ImageExtensions[k];
    forall i | 0 <= i < |e| ensures LowerAscii(e[i]) == e[i] {
    }
  }

  /** The case-insensitive test is a plain suffix test on the lower-cased path. */
  lemma IsImageFileIsLowerSuffix(file: string)
    ensures IsImageFile(file) <==>
      exists k :: 0 <= k < |ImageExtensions| && EndsWith(ToLower(file), ImageExtensions[k])
  {
    forall k | 0 <= k < |ImageExtensions|
      ensures EndsWithIgnoreCase(file, ImageExtensions[k]) <==> EndsWith(ToLower(file), ImageExtensions[k])
    {
      ImageExtensionsAreLowerCase(k);
      EndsWithIgnoreCaseIsLowerSuffix(file, ImageExtensions[k]);
    }
  }

  /** Which extension an image file ends with. */
  lemma ImageFileExtension(file: string) returns (k: nat)
    requires IsImageFile(file)
    ensures k < |ImageExtensions| && EndsWith(ToLower(file), ImageExtensions[k])
  {
    IsImageFileIsLowerSuffix(file);
    k :| 0 <= k < |ImageExtensions| && EndsWith(ToLower(file), ImageExtensions[k]);
  }

  /** What `Directory.GetFiles(path, "*.*", AllDirectories)` does for a folder. */
  datatype Listing = Files(paths: seq<string>) | AccessDenied | EnumerationFailed

  /** What `File.WriteAllText` does for a file name: an `IOException`, or
      some other exception with its message. */
  datatype WriteFault = DiskFault | OtherFault(message: string)

  /** Why `Directory.CreateDirectory` throws for a missing folder: a file of
      that name is in the way (an `IOException`), or the parent folder is
      denied (an `UnauthorizedAccessException`); each carries its message. */
  datatype CreateFault = FileInTheWay(message: string) | ParentDenied(message: string)
  {
    /** The exception the fault raises. */
    function Raised(): Error {
      match this
      case FileInTheWay(m) => IOError(m)
      case ParentDenied(m) => ServiceError(m)
    }
  }

  /** The part of the disk the services see: the existing folders, what a
      recursive listing of each gives, the folders that cannot be created,
      the files a write fails on, and the item lists written so far. */
  datatype Disk = Disk(directories: set<string>, listings: map<string, Listing>,
                       createFaults: map<string, CreateFault>,
                       writeFaults: map<string, WriteFault>, written: map<string, seq<InstagramItem>>)
  {
    /** `Directory.Exists`: false for a missing or blank path. */
    predicate DirectoryExists(path: Option<string>) {
      path.Some? && !AllWhiteSpace(path.value) && path.value in directories
    }

    /** The recursive listing of an existing folder (empty when none is given). */
    function ListingOf(path: string): Listing {
      if path in listings then listings[path] else Files([])
    }
  }

  /** The disk as a mutable object, changed by `CreateDirectory` and `WriteData`. */
  class FileSystem {
    var disk: Disk

    constructor (disk: Disk)
      ensures this.disk == disk
    {
      this.disk := disk;
    }
  }

  const FolderPathText := "Folder path must not be null or empty."
  const FileNameText := "Filename must not be null or empty."
  const NoItemsText := "No Instagram items to write."
  const AccessDeniedText := "Access to one or more directories was denied."
  const ListingFailedText := "An error occurred while retrieving image files."
  const WriteFailedText := "An error occurred while writing data to the file."

  function DirectoryNotFoundText(folderPath: string): string {
    "The directory '" + folderPath + "' does not exist."
  }

  /** `GetPictureFilesInFolder(folderPath)`. */
  function GetPictureFilesInFolder(disk: Disk, folderPath: string): (r: Result<seq<string>, Error>)
    ensures AllWhiteSpace(folderPath) ==> r == Failure(ArgumentError(FolderPathText, "folderPath"))
    ensures !AllWhiteSpace(folderPath) && !disk.DirectoryExists(Some(folderPath)) ==>
      r == Failure(DirectoryNotFoundError(DirectoryNotFoundText(folderPath)))
    ensures r.Success? <==> disk.DirectoryExists(Some(folderPath)) && disk.ListingOf(folderPath).Files?
    ensures r.Success? ==> r.value == FilterImages(disk.ListingOf(folderPath).paths)
    ensures disk.DirectoryExists(Some(folderPath)) && r.Failure? ==>
      r == Failure(IOError(if disk.ListingOf(folderPath).AccessDenied? then AccessDeniedText else ListingFailedText))
  {
    if AllWhiteSpace(folderPath) then Failure(ArgumentError(FolderPathText, "folderPath"))
    else if !disk.DirectoryExists(Some(folderPath)) then Failure(DirectoryNotFoundError(DirectoryNotFoundText(folderPath)))
    else
      match disk.ListingOf(folderPath)
      case Files(paths) => Success(FilterImages(paths))
      case AccessDenied => Failure(IOError(AccessDeniedText))
      case EnumerationFailed => Failure(IOError(ListingFailedText))
  }

  /** Every path the service returns is an image file from the listing. */
  lemma PictureFilesAreImages(disk: Disk, folderPath: string, f: string)
    requires GetPictureFilesInFolder(disk, folderPath).Success?
    ensures f in GetPictureFilesInFolder(disk, folderPath).value <==>
      f in disk.ListingOf(folderPath).paths && IsImageFile(f)
  {
    FilterImagesMembership(disk.ListingOf(folderPath).paths, f);
  }

  /** The disk after `CreateDirectory(folderPath)`, or the exception: a
      blank path is refused, an existing folder is left as it is, and a
      missing one is created unless a fault stands in the way. */
  function CreateDirectoryResult(disk: Disk, folderPath: string): (r: Result<Disk, Error>)
    ensures AllWhiteSpace(folderPath) <==> r == Failure(ArgumentError(FolderPathText, "folderPath"))
    ensures r.Success? <==>
      !AllWhiteSpace(folderPath) && (folderPath in disk.directories || folderPath !in disk.createFaults)
    ensures r.Failure? && !AllWhiteSpace(folderPath) ==> r.error == disk.createFaults[folderPath].Raised()
    ensures r.Success? ==> r.value.DirectoryExists(Some(folderPath))
    ensures r.Success? ==> r.value == disk.(directories := disk.directories + {folderPath})
  {
    if AllWhiteSpace(folderPath) then Failure(ArgumentError(FolderPathText, "folderPath"))
    else if folderPath !in disk.directories && folderPath in disk.createFaults then
      Failure(disk.createFaults[folderPath].Raised())
    else Success(disk.(directories := disk.directories + {folderPath}))
  }

  /** `CreateDirectory(folderPath)`. */
  method CreateDirectory(fs: FileSystem, folderPath: string) returns (o: Outcome<Error>)
    modifies fs
    ensures var r := CreateDirectoryResult(old(fs.disk), folderPath);
      && o == (if r.Success? then Pass else Fail(r.error))
      && fs.disk == (if r.Success? then r.value else old(fs.disk))
  {
    if AllWhiteSpace(folderPath) {
      return Fail(ArgumentError(FolderPathText, "folderPath"));
    }
    if folderPath !in fs.disk.directories && folderPath in fs.disk.createFaults {
      return Fail(fs.disk.createFaults[folderPath].Raised());
    }
    fs.disk := fs.disk.(directories := fs.disk.directories + {folderPath});
    return Pass;
  }

  /** The disk after `WriteData(fileName, instagramItems)`, or the exception:
      the checks come first, then the write, which stores the list under the
      file name or leaves the disk as it was. */
  function WriteDataResult(disk: Disk, fileName: string, items: seq<InstagramItem>): (r: Result<Disk, Error>)
    ensures AllWhiteSpace(fileName) ==> r == Failure(ArgumentError(FileNameText, "fileName"))
    ensures items == [] ==> r.Failure? && r.error.ArgumentError?
    ensures !AllWhiteSpace(fileName) && items == [] ==> r == Failure(ArgumentError(NoItemsText, "instagramItems"))
    ensures r.Success? <==> !AllWhiteSpace(fileName) && items != [] && fileName !in disk.writeFaults
    ensures r.Success? ==> r.value == disk.(written := disk.written[fileName := items])
    ensures r.Failure? && fileName in disk.writeFaults && !AllWhiteSpace(fileName) && items != [] ==>
      r.error == (if disk.writeFaults[fileName].DiskFault? then IOError(WriteFailedText)
                  else ServiceError(disk.writeFaults[fileName].message))
  {
    if AllWhiteSpace(fileName) then Failure(ArgumentError(FileNameText, "fileName"))
    else if items == [] then Failure(ArgumentError(NoItemsText, "instagramItems"))
    else if fileName in disk.writeFaults then
      match disk.writeFaults[fileName]
      case DiskFault => Failure(IOError(WriteFailedText))
      case OtherFault(m) => Failure(ServiceError(m))
    else Success(disk.(written := disk.written[fileName := items]))
  }

  /** `WriteData(fileName, instagramItems)`: on success the file holds the
      items; on any failure nothing is written. */
  method WriteData(fs: FileSystem, fileName: string, items: seq<InstagramItem>) returns (o: Outcome<Error>)
    modifies fs
    ensures var r := WriteDataResult(old(fs.disk), fileName, items);
      && o == (if r.Success? then Pass else Fail(r.error))
      && fs.disk == (if r.Success? then r.value else old(fs.disk))
  {
    if AllWhiteSpace(fileName) {
      return Fail(ArgumentError(FileNameText, "fileName"));
    }
    if items == [] {
      return Fail(ArgumentError(NoItemsText, "instagramItems"));
    }
    if fileName in fs.disk.writeFaults {
      match fs.disk.writeFaults[fileName]
      case DiskFault => return Fail(IOError(WriteFailedText));
      case OtherFault(m) => return Fail(ServiceError(m));
    }
    fs.disk := fs.disk.(written := fs.disk.written[fileName := items]);
    return Pass;
  }
}
