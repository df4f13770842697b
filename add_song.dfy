/**
 * The "Add New Song" form (src/app/components/dashboard/addSong.tsx): its
 * state, the file picker's check and the submit handler, split at the
 * `await` into the part before the request and the part after it.
 */
module AddSongForm {
  import opened Common
  import opened Text
  import SongsRoute

  /** `maxSize` of the file picker: 10 MiB. */
  const ClientMaxSize: int := 10 * 1024 * 1024

  const NotAudioMessage: string := "Please select an audio file"
  /** The picker's size message; it names 5MB although the limit is 10 MiB. */
  const TooLargeMessage: string := "File too large. Maximum size is 5MB"
  const AddFailedMessage: string := "Failed to add song"
  const NetworkErrorMessage: string := "Network error. Please try again."

  /** The file picker's verdict on a file: "" when it is taken. */
  function FileError(f: SongsRoute.UploadFile): (e: string)
    ensures e == "" <==> StartsWith(f.mimeType, "audio/") && f.size <= ClientMaxSize
    ensures e != "" ==> e == NotAudioMessage || e == TooLargeMessage
    ensures e == TooLargeMessage <==> StartsWith(f.mimeType, "audio/") && f.size > ClientMaxSize
  {
    if !StartsWith(f.mimeType, "audio/") then NotAudioMessage
    else if f.size > ClientMaxSize then TooLargeMessage
    else ""
  }

  predicate ClientAccepts(f: SongsRoute.UploadFile) {
    FileError(f) == ""
  }

  /** What the submit sends: the form fields `file` and `title`. */
  datatype UploadRequest = UploadRequest(title: string, file: SongsRoute.UploadFile)

  /** How the request ended: a 2xx answer, another answer with the `error`
      field of its body, or a thrown error (the network, or a body that is
      not JSON). */
  datatype FetchOutcome = Succeeded | Refused(error: Option<string>) | Threw

  /** The message shown for a refused request: `error.error || 'Failed to add song'`. */
  function RefusalMessage(error: Option<string>): (m: string)
    ensures m != ""
    ensures error.Some? && error.value != "" ==> m == error.value
    ensures error.None? || error.value == "" ==> m == AddFailedMessage
  {
    if error.Some? && error.value != "" then error.value else AddFailedMessage
  }

  /** Any file the picker takes is within the server's size limit, and a
      request the form sends is refused by the server's validation only for
      its type. */
  lemma SentRequestPassesServerLimits(request: UploadRequest)
    requires !AllSpace(request.title) && ClientAccepts(request.file)
    ensures var v := SongsRoute.ValidateForm(
      SongsRoute.SongForm(SongsRoute.TextEntry(request.title), SongsRoute.FileEntry(request.file)));
      && (v.Valid? <==> SongsRoute.IsValidAudioFile(request.file))
      && (!v.Valid? ==> v == SongsRoute.Invalid(SongsRoute.InvalidTypeMessage(request.file.mimeType)))
      && (v.Valid? ==> v.title == Trim(request.title) && v.file == request.file)
  {
    assert request.file.size <= ClientMaxSize <= SongsRoute.MaxFileSize;
  }

  /** The picker takes a 6 MiB MP3, over the 5MB its message names. */
  lemma SizeMessageUnderstatesLimit()
    ensures ClientAccepts(SongsRoute.UploadFile("a.mp3", "audio/mpeg", 6 * 1024 * 1024))
  {
    assert StartsWith("audio/mpeg", "audio/");
  }

  /** The picker and the server disagree on types: an AIFF file passes the
      picker and fails the server; a voice memo (`video/mp4`) is the other
      way round. */
  lemma PickerAndServerDisagreeOnTypes()
    ensures ClientAccepts(SongsRoute.UploadFile("track.aiff", "audio/x-aiff", 1))
    ensures !SongsRoute.IsValidAudioFile(SongsRoute.UploadFile("track.aiff", "audio/x-aiff", 1))
    ensures !ClientAccepts(SongsRoute.UploadFile("memo.mp4", "video/mp4", 1))
    ensures SongsRoute.IsValidAudioFile(SongsRoute.UploadFile("memo.mp4", "video/mp4", 1))
  {
    assert StartsWith("audio/x-aiff", "audio/");
    assert "video/mp4"[0] == 'v';
    SongsRoute.RejectedFiles();
    SongsRoute.VoiceMemoType("memo.mp4", 1);
  }

  /** The component's state. */
  class Form {
    var title: string
    var titleError: bool
    var musicFile: Option<SongsRoute.UploadFile>
    var fileError: string
    var loading: bool
    var success: bool

    /** A chosen file is one the picker took. */
    ghost predicate Valid()
      reads this
    {
      musicFile.Some? ==> ClientAccepts(musicFile.value)
    }

    constructor ()
      ensures Valid()
      ensures title == "" && !titleError && musicFile.None? && fileError == "" && !loading && !success
    {
      title := "";
      titleError := false;
      musicFile := None;
      fileError := "";
      loading := false;
      success := false;
    }

    /** The title input's `onChange`. */
    method SetTitle(t: string)
      requires Valid()
      modifies this
      ensures Valid()
      ensures title == t
      ensures titleError == old(titleError) && musicFile == old(musicFile) && fileError == old(fileError)
      ensures loading == old(loading) && success == old(success)
    {
      title := t;
    }

    /** `handleFileChange`: `file` is the first selected file, if any. A
        refused file leaves the chosen one in place. */
    method HandleFileChange(file: Option<SongsRoute.UploadFile>)
      requires Valid()
      modifies this
      ensures Valid()
      ensures fileError == if file.None? then "" else FileError(file.value)
      ensures musicFile == if file.Some? && ClientAccepts(file.value) then file else old(musicFile)
      ensures title == old(title) && titleError == old(titleError)
      ensures loading == old(loading) && success == old(success)
    {
      fileError := "";
      if file.None? {
        return;
      }
      var f := file.value;
      if !StartsWith(f.mimeType, "audio/") {
        fileError := NotAudioMessage;
        return;
      }
      if f.size > ClientMaxSize {
        fileError := TooLargeMessage;
        return;
      }
      musicFile := file;
    }

    /** `addSong` up to its request: clears the messages, checks the title
        and the file, and returns the request it sends, if any. */
    method BeginAddSong() returns (request: Option<UploadRequest>)
      requires Valid()
      modifies this
      ensures Valid()
      ensures title == old(title) && musicFile == old(musicFile) && !success
      ensures titleError <==> AllSpace(title)
      ensures fileError == (if !AllSpace(title) && musicFile.None? then NotAudioMessage else "")
      ensures request.Some? <==> !AllSpace(title) && musicFile.Some?
      ensures request.Some? ==>
        && request.value == UploadRequest(title, musicFile.value)
        && ClientAccepts(request.value.file)
      ensures loading == (request.Some? || old(loading))
    {
      titleError := false;
      fileError := "";
      success := false;
      TrimEmptyIff(title);
      if Trim(title) == "" {
        titleError := true;
        return None;
      }
      if musicFile.None? {
        fileError := NotAudioMessage;
        return None;
      }
      loading := true;
      request := Some(UploadRequest(title, musicFile.value));
    }

    /** `addSong` after its request: a success clears the form, a failure
        shows a message; the form stops loading either way. */
    method FinishAddSong(outcome: FetchOutcome)
      requires Valid()
      modifies this
      ensures Valid()
      ensures !loading && titleError == old(titleError)
      ensures outcome.Succeeded? ==>
        title == "" && musicFile.None? && success && fileError == old(fileError)
      ensures !outcome.Succeeded? ==>
        title == old(title) && musicFile == old(musicFile) && success == old(success)
      ensures outcome.Refused? ==> fileError == RefusalMessage(outcome.error)
      ensures outcome.Threw? ==> fileError == NetworkErrorMessage
    {
      match outcome {
        case Succeeded =>
          title := "";
          musicFile := None;
          success := true;
        case Refused(error) =>
          fileError := RefusalMessage(error);
        case Threw =>
          fileError := NetworkErrorMessage;
      }
      loading := false;
    }
  }
}
