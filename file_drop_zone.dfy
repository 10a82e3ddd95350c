/**
 * The upload drop zone: it checks a chosen file's MIME type and size,
 * reports a rejection through `onError` and hands an accepted file to
 * `onFileSelect`.
 */
module FileDropZone {
  import opened Results

  /** What the browser tells about a chosen file: its MIME type and its size in bytes. */
  datatype FileInfo = FileInfo(mimeType: string, size: nat)

  const VideoPrefix: string := "video/"
  /** 100 MiB. */
  const MaxUploadBytes: nat := 100 * 1024 * 1024
  const TypeMessage: string := "Please select a valid video file."
  const SizeMessage: string := "File size exceeds 100MB limit."

  /** `s.startsWith(prefix)`. */
  predicate StartsWith(s: string, prefix: string) {
    |prefix| <= |s| && s[..|prefix|] == prefix
  }

  /** The file's type is a video type. */
  predicate IsVideo(file: FileInfo) {
    StartsWith(file.mimeType, VideoPrefix)
  }

  /**
   * The message `validateFile` reports for a file, or None when it accepts
   * it: the type is checked first, then the size, and a file of exactly
   * 100 MiB passes.
   */
  function ValidationError(file: FileInfo): (error: Option<string>)
    ensures error.None? <==> IsVideo(file) && file.size <= MaxUploadBytes
    ensures !IsVideo(file) ==> error == Some(TypeMessage)
    ensures IsVideo(file) && file.size > MaxUploadBytes ==> error == Some(SizeMessage)
    ensures error.Some? ==> error.value == TypeMessage || error.value == SizeMessage
  {
    if !StartsWith(file.mimeType, VideoPrefix) then Some(TypeMessage)
    else if file.size > MaxUploadBytes then Some(SizeMessage)
    else None
  }

  /** A non-video file is turned down for its type whatever its size. */
  lemma TypeCheckedFirst(mimeType: string, size: nat)
    requires !StartsWith(mimeType, VideoPrefix)
    ensures ValidationError(FileInfo(mimeType, size)) == Some(TypeMessage)
  {
  }

  /** The size limit is inclusive: 100 MiB passes, one byte more does not. */
  lemma SizeLimitInclusive()
    ensures ValidationError(FileInfo("video/mp4", MaxUploadBytes)) == None
    ensures ValidationError(FileInfo("video/mp4", MaxUploadBytes + 1)) == Some(SizeMessage)
  {
    assert StartsWith("video/mp4", VideoPrefix) by {
      assert "video/mp4"[..|VideoPrefix|] == VideoPrefix;
    }
  }

  /** A MIME type that is a prefix of "video/" but shorter, such as "video", is not a video type. */
  lemma BareVideoRejected()
    ensures ValidationError(FileInfo("video", 0)) == Some(TypeMessage)
  {
  }

  /** The component's state and the calls it has made to its two callbacks, in order. */
  class DropZone {
    var isDragOver: bool
    var isProcessing: bool
    /** The messages passed to `onError`. */
    var errors: seq<string>
    /** The files passed to `onFileSelect`. */
    var selected: seq<FileInfo>

    constructor()
      ensures !isDragOver && !isProcessing && errors == [] && selected == []
    {
      isDragOver, isProcessing := false, false;
      errors, selected := [], [];
    }

    /** `validateFile`: reports at most one message and says whether the file passed. */
    method ValidateFile(file: FileInfo) returns (valid: bool)
      modifies this
      ensures valid <==> ValidationError(file).None?
      ensures errors == old(errors) + (if valid then [] else [ValidationError(file).value])
      ensures selected == old(selected) && isProcessing == old(isProcessing) && isDragOver == old(isDragOver)
    {
      if !StartsWith(file.mimeType, VideoPrefix) {
        errors := errors + [TypeMessage];
        return false;
      }
      if file.size > MaxUploadBytes {
        errors := errors + [SizeMessage];
        return false;
      }
      return true;
    }

    /** `handleFile`: an accepted file marks the zone busy and goes to `onFileSelect`; a rejected one goes nowhere. */
    method HandleFile(file: FileInfo)
      modifies this
      ensures ValidationError(file).None? ==>
                selected == old(selected) + [file] && errors == old(errors) && isProcessing
      ensures ValidationError(file).Some? ==>
                && selected == old(selected) && errors == old(errors) + [ValidationError(file).value]
                && isProcessing == old(isProcessing)
      ensures isDragOver == old(isDragOver)
    {
      var valid := ValidateFile(file);
      if valid {
        isProcessing := true;
        selected := selected + [file];
      }
    }

    /** `handleDrop`: clears the drag highlight and handles the first dropped file, if any. */
    method HandleDrop(files: seq<FileInfo>)
      modifies this
      ensures !isDragOver
      ensures files == [] ==>
                selected == old(selected) && errors == old(errors) && isProcessing == old(isProcessing)
      ensures files != [] ==>
                && selected == old(selected) + (if ValidationError(files[0]).None? then [files[0]] else [])
                && errors == old(errors) + (if ValidationError(files[0]).None? then [] else [ValidationError(files[0]).value])
                && isProcessing == (ValidationError(files[0]).None? || old(isProcessing))
    {
      isDragOver := false;
      if |files| > 0 {
        HandleFile(files[0]);
      }
    }

    /** `handleFileInput`: handles the first chosen file; no file list, or an empty one, does nothing. */
    method HandleFileInput(files: Option<seq<FileInfo>>)
      modifies this
      ensures files.None? || files.value == [] ==>
                selected == old(selected) && errors == old(errors) && isProcessing == old(isProcessing)
      ensures files.Some? && files.value != [] ==>
                var file := files.value[0];
                && selected == old(selected) + (if ValidationError(file).None? then [file] else [])
                && errors == old(errors) + (if ValidationError(file).None? then [] else [ValidationError(file).value])
                && isProcessing == (ValidationError(file).None? || old(isProcessing))
      ensures isDragOver == old(isDragOver)
    {
      if files.Some? && |files.value| > 0 {
        HandleFile(files.value[0]);
      }
    }
  }
}
