/**
 * The home page's own file picker: `handleFileChange` clears the error,
 * then keeps the first chosen file if it is a video of at most 100 MiB
 * and otherwise shows why it was refused.
 */
module HomePage {
  import opened Results
  import opened FileDropZone

  /** One React state update, in the order the handler issues them. */
  datatype Update = SetError(error: Option<string>) | SetVideoFile(file: FileInfo)

  /** The updates `handleFileChange` issues for a chosen file, after clearing the error. */
  function FileUpdates(file: FileInfo): (updates: seq<Update>)
    ensures |updates| == 1
    ensures updates[0].SetVideoFile? <==> ValidationError(file).None?
    ensures updates[0].SetVideoFile? ==> updates[0].file == file
    ensures updates[0].SetError? ==> updates[0].error == ValidationError(file)
  {
    if StartsWith(file.mimeType, VideoPrefix) then
      if file.size <= MaxUploadBytes then [SetVideoFile(file)] else [SetError(Some(SizeMessage))]
    else [SetError(Some(TypeMessage))]
  }

  /** The page and the drop zone accept and refuse the same files with the same messages. */
  lemma SameVerdictAsDropZone(file: FileInfo)
    ensures FileUpdates(file) == if ValidationError(file).None? then [SetVideoFile(file)]
                                 else [SetError(ValidationError(file))]
  {
  }

  /** The page's `videoFile` and `error` state. */
  class Home {
    var videoFile: Option<FileInfo>
    var error: Option<string>
    /** Every state update issued so far. */
    var updates: seq<Update>

    constructor()
      ensures videoFile == None && error == None && updates == []
    {
      videoFile, error, updates := None, None, [];
    }

    /**
     * `handleFileChange`: first clears the error; with no file list or an
     * empty one that is all it does; otherwise the first file either becomes
     * `videoFile` or sets the error that says why not.
     */
    method HandleFileChange(files: Option<seq<FileInfo>>)
      modifies this
      ensures files.None? || files.value == [] ==>
                updates == old(updates) + [SetError(None)] && error == None && videoFile == old(videoFile)
      ensures files.Some? && files.value != [] ==>
                var file := files.value[0];
                && updates == old(updates) + [SetError(None)] + FileUpdates(file)
                && error == ValidationError(file)
                && videoFile == (if ValidationError(file).None? then Some(file) else old(videoFile))
    {
      error := None;
      updates := updates + [SetError(None)];
      if files.Some? && |files.value| > 0 {
        var file := files.value[0];
        if StartsWith(file.mimeType, VideoPrefix) {
          if file.size <= MaxUploadBytes {
            videoFile := Some(file);
            updates := updates + [SetVideoFile(file)];
          } else {
            error := Some(SizeMessage);
            updates := updates + [SetError(error)];
          }
        } else {
          error := Some(TypeMessage);
          updates := updates + [SetError(error)];
        }
      }
    }
  }
}
