/**
 * The upload area (`components/file-upload.tsx`): files are checked for
 * size and then for extension; the valid ones are handed, in order, to the
 * upload callback, each under an id kept in the `uploading` list while it
 * is in flight.
 */
module FileUpload {
  import opened Wrappers
  import opened ChatTypes
  import opened Text
  import opened Seqs
  import RightPanel

  /** The parts of a browser `File` the checks read. */
  datatype FileInfo = FileInfo(name: string, size: int, mime: string)

  const AcceptedTypes: seq<string> := [".pdf", ".docx", ".txt", ".png", ".jpg", ".jpeg"]

  /** 10 MiB. */
  const MaxFileSize: int := 10 * 1024 * 1024

  datatype ValidationError = TooLarge | UnsupportedType

  /** The toast text of each error. */
  function ErrorText(e: ValidationError): string {
    match e
    case TooLarge => "File size must be less than 10MB"
    case UnsupportedType => "File type not supported. Accepted types: .pdf, .docx, .txt, .png, .jpg, .jpeg"
  }

  /** `"." + name.split(".").pop().toLowerCase()`: the last dot-separated part, lower-cased, after a dot. */
  function Extension(name: string): (r: string)
    ensures |r| >= 1 && r[0] == '.'
  {
    var parts := Split(name, '.');
    "." + ToLower(parts[|parts| - 1])
  }

  /** A name with a dot has the lower-cased text after its last dot as extension. */
  lemma ExtensionAfterLastDot(stem: string, ext: string)
    requires '.' !in ext
    ensures Extension(stem + "." + ext) == "." + ToLower(ext)
  {
    SplitLast(stem, ext, '.');
  }

  /** A name without a dot is its own extension. */
  lemma ExtensionWithoutDot(name: string)
    requires '.' !in name
    ensures Extension(name) == "." + ToLower(name)
  {
    SplitNoSeparator(name, '.');
  }

  /** `validateFile`: the size is checked first, then the extension; `None` means the file is accepted. */
  function ValidateFile(f: FileInfo): (r: Option<ValidationError>)
    ensures r == Some(TooLarge) <==> f.size > MaxFileSize
    ensures r == Some(UnsupportedType) <==> f.size <= MaxFileSize && Extension(f.name) !in AcceptedTypes
    ensures r.None? <==> f.size <= MaxFileSize && Extension(f.name) in AcceptedTypes
  {
    if f.size > MaxFileSize then Some(TooLarge)
    else if Extension(f.name) !in AcceptedTypes then Some(UnsupportedType)
    else None
  }

  predicate Valid(f: FileInfo) {
    ValidateFile(f).None?
  }

  /** A file of exactly 10 MiB passes the size check; one byte more does not, whatever its name. */
  lemma SizeBoundary(name: string, mime: string)
    ensures ValidateFile(FileInfo(name, MaxFileSize, mime)) != Some(TooLarge)
    ensures ValidateFile(FileInfo(name, MaxFileSize + 1, mime)) == Some(TooLarge)
  {
  }

  /** An upper-case extension is accepted like its lower-case form. */
  lemma UpperCaseAccepted(stem: string)
    ensures Valid(FileInfo(stem + "." + "PDF", 1, "application/pdf"))
  {
    ExtensionAfterLastDot(stem, "PDF");
    var lower := ToLower("PDF");
    assert lower[0] == 'p' && lower[1] == 'd' && lower[2] == 'f';
    assert "." + lower == AcceptedTypes[0];
  }

  /** `getFileIcon` of this component: images by prefix, then "pdf", then "word" or "document". */
  function UploadIcon(mime: string): (r: FileIcon)
    ensures r == ImageIcon <==> At(mime, "image/", 0)
    ensures r == TextIcon <==> !At(mime, "image/", 0) && (Contains(mime, "pdf") || Contains(mime, "word") || Contains(mime, "document"))
  {
    if At(mime, "image/", 0) then ImageIcon
    else if Contains(mime, "pdf") then TextIcon
    else if Contains(mime, "word") || Contains(mime, "document") then TextIcon
    else GenericIcon
  }

  /**
   * The upload area and the context panel classify icons alike except for a
   * type mentioning "word" but neither "pdf" nor "document" (as
   * "application/msword"): a text icon here, a plain file there.
   */
  lemma IconsDifferOnlyOnWord(mime: string)
    ensures UploadIcon(mime) != RightPanel.PanelIcon(mime) <==>
      !At(mime, "image/", 0) && !Contains(mime, "pdf") && !Contains(mime, "document") && Contains(mime, "word")
    ensures UploadIcon(mime) != RightPanel.PanelIcon(mime) ==> UploadIcon(mime) == TextIcon && RightPanel.PanelIcon(mime) == GenericIcon
  {
  }

  /** The files that pass validation, in order, built from the front of the list. */
  function ValidFiles(files: seq<FileInfo>): seq<FileInfo> {
    if files == [] then []
    else ValidFiles(files[..|files| - 1]) + (if Valid(files[|files| - 1]) then [files[|files| - 1]] else [])
  }

  /** Collecting the valid files is filtering by validity. */
  lemma {:induction false} ValidFilesFilter(files: seq<FileInfo>)
    ensures ValidFiles(files) == Filter(files, Valid)
    decreases |files|
  {
    if files != [] {
      var n := |files| - 1;
      ValidFilesFilter(files[..n]);
      FilterPrefixStep(files, n, Valid);
      assert files[..n + 1] == files;
    }
  }

  class Uploader {
    var uploading: seq<string>

    constructor ()
      ensures uploading == []
    {
      uploading := [];
    }

    /**
     * `handleFileUpload`: the invalid files are skipped and the valid ones
     * handed to the callback in order, each under its id; an id joins the
     * `uploading` list before its upload and leaves it afterwards, whether
     * the upload succeeded or not, so the list ends as it began.
     */
    method HandleFileUpload(files: seq<FileInfo>, ids: seq<string>) returns (handed: seq<FileInfo>)
      requires |ids| == |files|
      requires forall k :: 0 <= k < |ids| ==> ids[k] !in uploading
      modifies this`uploading
      ensures handed == Filter(files, Valid)
      ensures uploading == old(uploading)
    {
      handed := [];
      var i := 0;
      while i < |files|
        invariant 0 <= i <= |files|
        invariant handed == ValidFiles(files[..i])
        invariant uploading == old(uploading)
      {
        assert files[..i + 1][..i] == files[..i];
        var error := ValidateFile(files[i]);
        if error.None? {
          var uploadId := ids[i];
          uploading := uploading + [uploadId];
          handed := handed + [files[i]];
          uploading := Filter(uploading, (id: string) => id != uploadId);
          RemoveFreshId(old(uploading), uploadId);
        }
        i := i + 1;
      }
      assert files[..|files|] == files;
      ValidFilesFilter(files);
    }
  }

  /** Removing an id that was appended to a list not holding it gives the list back. */
  lemma RemoveFreshId(prev: seq<string>, uploadId: string)
    requires uploadId !in prev
    ensures Filter(prev + [uploadId], (id: string) => id != uploadId) == prev
  {
    FilterConcat(prev, [uploadId], (id: string) => id != uploadId);
    assert Filter([uploadId], (id: string) => id != uploadId) == [] by {
      assert [uploadId][1..] == [];
    }
  }
}
