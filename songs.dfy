/**
 * /api/songs (src/app/api/songs/route.ts): GET lists the caller's band's
 * songs or fetches one of them; POST validates an upload form and stores a
 * new song for the caller's band. The Cloudinary upload is an input: its
 * secure URL, or the error it failed with.
 */
module SongsRoute {
  import opened Common
  import opened Text
  import opened Http
  import Store
  import ApiAuth
  import Auth
  import Collections

  /** `VALID_AUDIO_TYPES`: the accepted MIME types. */
  const ValidAudioTypes: seq<string> := [
    "audio/mpeg", "audio/mp3", "audio/wav", "audio/wave", "audio/x-wav",
    "audio/aac", "audio/m4a", "audio/x-m4a", "audio/mp4", "audio/ogg",
    "audio/flac", "audio/webm", "video/mp4", "video/quicktime", "video/x-m4a"]

  /** The alternatives of `/\.(mp3|wav|m4a|aac|ogg|flac|webm|mp4|mov)$/i`. */
  const ValidExtensions: seq<string> := ["mp3", "wav", "m4a", "aac", "ogg", "flac", "webm", "mp4", "mov"]

  /** 50 MiB. */
  const MaxFileSize: int := 50 * 1024 * 1024

  const NoTokenMessage: string := "Unauthorized - No token provided"
  const UserNotFoundMessage: string := "User not found"
  const SongNotFoundMessage: string := "Song not found"
  const FetchFailedMessage: string := "Failed to fetch songs"
  const AddFailedMessage: string := "Failed to add song"
  const TitleRequiredMessage: string := "Title is required"
  const FileRequiredMessage: string := "Audio file is required"
  const TooLargeMessage: string := "File too large. Maximum size is 50MB"
  const CreatedMessage: string := "Song created successfully"

  /** An uploaded `File`: its name, MIME type and size in bytes. */
  datatype UploadFile = UploadFile(name: string, mimeType: string, size: int)

  /** What `formData.get` returns: nothing, a string, or a file. */
  datatype FormEntry = Missing | TextEntry(text: string) | FileEntry(file: UploadFile)

  datatype SongForm = SongForm(title: FormEntry, file: FormEntry)

  /** The extension regex: the name ends in `.` and one of the extensions,
      ignoring the case of ASCII letters. */
  predicate HasAudioExtension(name: string) {
    exists i :: 0 <= i < |ValidExtensions| && EndsWith(ToLower(name), "." + ValidExtensions[i])
  }

  /** `isValidAudioFile`: a listed MIME type, or else an audio extension. */
  predicate IsValidAudioFile(f: UploadFile) {
    f.mimeType in ValidAudioTypes || HasAudioExtension(f.name)
  }

  /** The test ignores the case of the name's letters: a file and the same
      file with its name lower-cased are judged alike. */
  lemma AudioFileIgnoresCase(f: UploadFile)
    ensures IsValidAudioFile(f) <==> IsValidAudioFile(f.(name := ToLower(f.name)))
  {
    ToLowerIdempotent(f.name);
  }

  /** The error for a rejected type. A string in the `file` field has no
      `type`, so it reads "undefined". */
  function InvalidTypeMessage(mimeType: string): string {
    "Invalid file type: " + mimeType + ". Please upload an audio file (MP3, WAV, M4A, AAC, etc.)"
  }

  datatype Validation = Valid(title: string, file: UploadFile) | Invalid(error: string) | Throws

  /** The validation steps of POST, in their order: title, presence of the
      file, its type, its size. A title field holding a file has no `trim`,
      so the call throws. */
  function ValidateForm(form: SongForm): (v: Validation)
    ensures form.title.FileEntry? ==> v.Throws?
    ensures form.title.Missing? || (form.title.TextEntry? && AllSpace(form.title.text)) ==>
      v == Invalid(TitleRequiredMessage)
    ensures form.title.TextEntry? && !AllSpace(form.title.text) ==>
      && (form.file.Missing? || form.file == TextEntry("") ==> v == Invalid(FileRequiredMessage))
      && (form.file.TextEntry? && form.file.text != "" ==> v == Invalid(InvalidTypeMessage("undefined")))
      && (form.file.FileEntry? && !IsValidAudioFile(form.file.file) ==>
            v == Invalid(InvalidTypeMessage(form.file.file.mimeType)))
      && (form.file.FileEntry? && IsValidAudioFile(form.file.file) && form.file.file.size > MaxFileSize ==>
            v == Invalid(TooLargeMessage))
    ensures form.title.TextEntry? && !AllSpace(form.title.text)
            && form.file.FileEntry? && IsValidAudioFile(form.file.file) && form.file.file.size <= MaxFileSize ==>
      v == Valid(Trim(form.title.text), form.file.file)
    ensures v.Valid? ==>
      && form.title.TextEntry? && v.title == Trim(form.title.text) && v.title != ""
      && form.file == FileEntry(v.file) && IsValidAudioFile(v.file) && v.file.size <= MaxFileSize
  {
    match form.title
    case FileEntry(_) => Throws
    case Missing => Invalid(TitleRequiredMessage)
    case TextEntry(t) =>
      TrimEmptyIff(t);
      if Trim(t) == "" then Invalid(TitleRequiredMessage)
      else
        match form.file
        case Missing => Invalid(FileRequiredMessage)
        case TextEntry(s) =>
          if s == "" then Invalid(FileRequiredMessage) else Invalid(InvalidTypeMessage("undefined"))
        case FileEntry(f) =>
          if !IsValidAudioFile(f) then Invalid(InvalidTypeMessage(f.mimeType))
          else if f.size > MaxFileSize then Invalid(TooLargeMessage)
          else Valid(Trim(t), f)
  }

  /** A file of exactly 50 MiB passes, one byte more does not. */
  lemma SizeBoundary(title: string, name: string, mimeType: string)
    requires !AllSpace(title) && mimeType in ValidAudioTypes
    ensures ValidateForm(SongForm(TextEntry(title), FileEntry(UploadFile(name, mimeType, 52428800)))).Valid?
    ensures ValidateForm(SongForm(TextEntry(title), FileEntry(UploadFile(name, mimeType, 52428801))))
         == Invalid(TooLargeMessage)
  {
  }

  /** A name whose last character, lower-cased, ends none of the extensions
      has no audio extension. */
  lemma {:induction false} NoExtensionByLastChar(name: string)
    requires name != []
    requires forall i :: 0 <= i < |ValidExtensions| ==>
      LowerChar(name[|name| - 1]) != ValidExtensions[i][|ValidExtensions[i]| - 1]
    ensures !HasAudioExtension(name)
  {
    var lower := ToLower(name);
    forall i | 0 <= i < |ValidExtensions|
      ensures !EndsWith(lower, "." + ValidExtensions[i])
    {
    }
  }

  /** The extension is matched whatever the case of its letters, and
      whatever the MIME type and size of the file. */
  lemma UpperCaseExtension(mimeType: string, size: int)
    ensures IsValidAudioFile(UploadFile("Take 3.WAV", mimeType, size))
  {
    var lower := ToLower("Take 3.WAV");
    assert lower[6..] == ".wav";
    assert EndsWith(lower, "." + ValidExtensions[1]);
  }

  /** A voice memo's MIME type is accepted whatever its name and size. */
  lemma VoiceMemoType(name: string, size: int)
    ensures IsValidAudioFile(UploadFile(name, "video/mp4", size))
  {
  }

  /** The extension counts only at the end of the name, and an AIFF file
      is refused by both of its checks. */
  lemma RejectedFiles()
    ensures !IsValidAudioFile(UploadFile("song.mp3.txt", "text/plain", 1))
    ensures !IsValidAudioFile(UploadFile("track.aiff", "audio/x-aiff", 1))
  {
    NoExtensionByLastChar("song.mp3.txt");
    NoExtensionByLastChar("track.aiff");
  }

  // ---------------------------------------------------------------------
  // GET
  // ---------------------------------------------------------------------

  /** The `select` of the list query. */
  datatype SongSummary = SongSummary(id: string, title: string, createdAt: int, audioUrl: string)

  datatype SongsBody =
    | ErrorBody(error: string)
    | SongBody(song: Store.Song)
    | SongList(songs: seq<SongSummary>)
    | CreatedBody(message: string, song: Store.Song)

  function Summary(s: Store.Song): SongSummary {
    SongSummary(s.id, s.title, s.createdAt, s.audioUrl)
  }

  /** The songs of one band, newest first: the list query before `select`. */
  function ListForBand(songs: seq<Store.Song>, bandId: string): (r: seq<Store.Song>)
    ensures forall i :: 0 <= i < |r| ==> r[i].bandId == bandId
    ensures forall s :: multiset(r)[s] == if s.bandId == bandId then multiset(songs)[s] else 0
    ensures forall i, j :: 0 <= i < j < |r| ==> r[i].createdAt >= r[j].createdAt
  {
    Collections.SelectSorted(songs, (s: Store.Song) => s.bandId == bandId, (s: Store.Song) => -s.createdAt)
  }

  /** The song with the given id, if it belongs to the band (`findFirst`). */
  function FindBandSong(songs: seq<Store.Song>, id: string, bandId: string): (r: Option<Store.Song>)
    ensures r.Some? ==> r.value in songs && r.value.id == id && r.value.bandId == bandId
    ensures r.None? <==> forall i :: 0 <= i < |songs| ==> !(songs[i].id == id && songs[i].bandId == bandId)
  {
    Collections.FindFirst(songs, (s: Store.Song) => s.id == id && s.bandId == bandId)
  }

  function Error(status: int, message: string): Response<SongsBody> {
    Response(status, ErrorBody(message), None)
  }

  /** GET. `idQuery` is the `id` search parameter (`None` when absent). */
  function Get(
    codec: Auth.Codec,
    users: seq<Store.StoredUser>,
    songs: seq<Store.Song>,
    authorization: Option<string>,
    cookie: Option<string>,
    idQuery: Option<string>): (r: Response<SongsBody>)
    ensures r.cookie.None?
    ensures var caller := ApiAuth.Authenticate(codec, users, authorization, cookie);
      && (caller.NoToken? ==> r == Error(401, NoTokenMessage))
      && (caller.VerifyFailed? ==> r == Error(500, FetchFailedMessage))
      && (caller.UnknownUser? ==> r == Error(404, UserNotFoundMessage))
      && (caller.Known? && idQuery.Some? && idQuery.value != "" ==>
            && (r.status == 200 ==>
                  r.body.SongBody? && r.body.song in songs
                  && r.body.song.id == idQuery.value && r.body.song.bandId == caller.user.bandId)
            && (r.status == 404 <==> FindBandSong(songs, idQuery.value, caller.user.bandId).None?)
            && (r.status == 404 ==> r == Error(404, SongNotFoundMessage))
            && (FindBandSong(songs, idQuery.value, caller.user.bandId).Some? ==>
                  r == Response(200, SongBody(FindBandSong(songs, idQuery.value, caller.user.bandId).value), None)))
      && (caller.Known? && (idQuery.None? || idQuery.value == "") ==>
            r == Response(200, SongList(Collections.MapSeq(ListForBand(songs, caller.user.bandId), Summary)), None))
  {
    match ApiAuth.Authenticate(codec, users, authorization, cookie)
    case NoToken => Error(401, NoTokenMessage)
    case VerifyFailed(_) => Error(500, FetchFailedMessage)
    case UnknownUser => Error(404, UserNotFoundMessage)
    case Known(user) =>
      if idQuery.Some? && idQuery.value != "" then
        match FindBandSong(songs, idQuery.value, user.bandId)
        case None => Error(404, SongNotFoundMessage)
        case Some(song) => Response(200, SongBody(song), None)
      else Response(200, SongList(Collections.MapSeq(ListForBand(songs, user.bandId), Summary)), None)
  }

  /** A song of another band is never returned, even by its id. */
  lemma OtherBandsSongIsNotFound(
    codec: Auth.Codec, users: seq<Store.StoredUser>, song: Store.Song,
    authorization: Option<string>, cookie: Option<string>)
    requires ApiAuth.Authenticate(codec, users, authorization, cookie).Known?
    requires song.id != "" && song.bandId != ApiAuth.Authenticate(codec, users, authorization, cookie).user.bandId
    ensures Get(codec, users, [song], authorization, cookie, Some(song.id)) == Error(404, SongNotFoundMessage)
  {
  }

  /** A token that fails verification, an expired one included, gives 500
      here and not 401. */
  lemma ExpiredTokenIsServerError(
    codec: Auth.Codec, users: seq<Store.StoredUser>, songs: seq<Store.Song>, token: string, idQuery: Option<string>)
    requires token != ""
    requires codec.jwtVerify(token, codec.secret) == Auth.Threw(Auth.JWTExpired)
    ensures Get(codec, users, songs, None, Some(token), idQuery) == Error(500, FetchFailedMessage)
  {
  }

  // ---------------------------------------------------------------------
  // POST
  // ---------------------------------------------------------------------

  /** What POST decides before touching the store: a response, or the song
      to create (title, band and audio URL). */
  datatype PostPlan = Reject(response: Response<SongsBody>) | Create(title: string, bandId: string, audioUrl: string)

  /** The decisions of POST. `form` is the parsed form data, or the parse
      error; `upload` is the result of uploading the file. */
  function PlanPost(
    codec: Auth.Codec,
    users: seq<Store.StoredUser>,
    authorization: Option<string>,
    cookie: Option<string>,
    form: Result<SongForm, string>,
    upload: Result<string, string>): (p: PostPlan)
    ensures var caller := ApiAuth.Authenticate(codec, users, authorization, cookie);
      && (caller.NoToken? ==> p == Reject(Error(401, NoTokenMessage)))
      && (caller.VerifyFailed? ==> p == Reject(Error(500, AddFailedMessage)))
      && (caller.UnknownUser? ==> p == Reject(Error(404, UserNotFoundMessage)))
      && (caller.Known? && form.Failure? ==> p == Reject(Error(500, AddFailedMessage)))
      && (caller.Known? && form.Success? ==>
            match ValidateForm(form.value)
            case Invalid(e) => p == Reject(Error(400, e))
            case Throws => p == Reject(Error(500, AddFailedMessage))
            case Valid(title, _) =>
              && (upload.Failure? ==> p == Reject(Error(500, AddFailedMessage)))
              && (upload.Success? ==> p == Create(title, caller.user.bandId, upload.value)))
  {
    match ApiAuth.Authenticate(codec, users, authorization, cookie)
    case NoToken => Reject(Error(401, NoTokenMessage))
    case VerifyFailed(_) => Reject(Error(500, AddFailedMessage))
    case UnknownUser => Reject(Error(404, UserNotFoundMessage))
    case Known(user) =>
      match form
      case Failure(_) => Reject(Error(500, AddFailedMessage))
      case Success(f) =>
        match ValidateForm(f)
        case Invalid(e) => Reject(Error(400, e))
        case Throws => Reject(Error(500, AddFailedMessage))
        case Valid(title, _) =>
          match upload
          case Failure(_) => Reject(Error(500, AddFailedMessage))
          case Success(url) => Create(title, user.bandId, url)
  }

  /** A song is only ever created under a title with no white space at
      either end, whatever the form held. */
  lemma CreatedTitleIsTrimmed(
    codec: Auth.Codec, users: seq<Store.StoredUser>, authorization: Option<string>, cookie: Option<string>,
    form: Result<SongForm, string>, upload: Result<string, string>)
    requires PlanPost(codec, users, authorization, cookie, form, upload).Create?
    ensures var title := PlanPost(codec, users, authorization, cookie, form, upload).title;
      title != "" && !IsSpace(title[0]) && !IsSpace(title[|title| - 1])
  {
  }

  /** A rejected form is answered before the upload: the answer does not
      depend on it. */
  lemma ValidationBeforeUpload(
    codec: Auth.Codec, users: seq<Store.StoredUser>, authorization: Option<string>, cookie: Option<string>,
    form: SongForm, u1: Result<string, string>, u2: Result<string, string>)
    requires !ValidateForm(form).Valid?
    ensures PlanPost(codec, users, authorization, cookie, Success(form), u1)
         == PlanPost(codec, users, authorization, cookie, Success(form), u2)
  {
  }

  /** POST: the store gains exactly the planned song, and only then. `newId`
      and `now` are the id and creation time the database assigns. */
  method Post(
    db: Store.Database,
    codec: Auth.Codec,
    authorization: Option<string>,
    cookie: Option<string>,
    form: Result<SongForm, string>,
    upload: Result<string, string>,
    newId: string,
    now: int) returns (r: Response<SongsBody>)
    modifies db
    ensures db.users == old(db.users) && db.messages == old(db.messages)
    ensures match PlanPost(codec, old(db.users), authorization, cookie, form, upload)
      case Reject(response) => r == response && db.songs == old(db.songs)
      case Create(title, bandId, url) =>
        && db.songs == old(db.songs) + [Store.Song(newId, title, bandId, url, now)]
        && r == Response(201, CreatedBody(CreatedMessage, Store.Song(newId, title, bandId, url, now)), None)
  {
    var plan := PlanPost(codec, db.users, authorization, cookie, form, upload);
    match plan
    case Reject(response) =>
      r := response;
    case Create(title, bandId, url) =>
      var song := db.CreateSong(newId, title, bandId, url, now);
      r := Response(201, CreatedBody(CreatedMessage, song), None);
  }
}
