# BandVault: the authentication boundary and the request validators

BandVault is a Next.js application where the members of a band share their
songs and chat about them. This project is a Dafny model of the part of it
that decides who may do what and which inputs are accepted:

- **Token codec** (`Auth`, auth.dfy; src/lib/auth.ts). It validates the
  `JWT_SECRET` at start-up, issues HS256 session tokens that last 24 hours,
  and runs `verifyAuth` with the four `AuthError` codes. Signing, verifying
  and the shape guard `isJWTPayload` are oracles held in a `Codec` value.
- **Page gate** (`Middleware`, middleware.dfy; src/middleware.ts). It covers
  the matcher that picks the paths the gate runs on, the one public path
  `/login`, and the redirects to `/login`, which delete the cookie when it
  holds a rejected token.
- **Session routes**:
  - `/api/auth/login` (`LoginRoute`): `bcrypt.compare` is an oracle.
  - `/api/auth/logout` (`LogoutRoute`).
  - `/api/auth/user` (`UserRoute`): it rebuilds the user from the claims of
    the token.
- **Band-scoped API routes**:
  - `/api/songs` (`SongsRoute`): listing, fetching, and the upload form's
    validation.
  - `/api/messages` (`MessagesRoute`): the band chat and per-song threads.
  - `/api/auth/messages` (`AuthMessagesRoute`): a second, unchecked message
    POST.

  All three share an authentication prelude (`ApiAuth`): bearer header or
  cookie, then `verifyAuth`, then the user lookup. The database is a
  `Store.Database` object whose tables are sequences. Each POST is a pure
  decision function (`PlanPost`) plus a method that carries the decision out
  on the database.
- **Client components**:
  - The "Add New Song" form (`AddSongForm.Form`, a class whose methods are
    the component's handlers).
  - The terms-of-use dialog (`TermsModal.Dialog`), whose accept handler
    writes local storage under a key derived from the project name.

Shared vocabulary: `Common` (Option, Result), `Http` (JSON values with
JavaScript truthiness, cookies, responses), `AuthTypes` (the records of
src/types/auth.ts), and `Text`, which gives JavaScript's `trim`, the regex
class `\s`, `startsWith`/`endsWith` and ASCII `toLowerCase`. `Collections`
holds the query semantics (`where`, `select`, and a stable `orderBy`).

The model follows the code where it departs from what a reader might assume:

- only `/login` is public, so `/` redirects a visitor without a token;
- a signed-in user who opens `/login` is let through, not redirected;
- the band-scoped API routes answer 500, not 401, when `verifyAuth` fails,
  an expired token included;
- only jose's `JWTInvalid` becomes "Invalid token signature". Any other jose
  error, a failed signature check included, takes the
  "Token verification failed: …" path.

## Model

| member | source | states |
|---|---|---|
| Text.Utf16Length | src/lib/auth.ts:33 | JavaScript's `length` counts UTF-16 code units: between one and two per character |
| Auth.GetJWTSecret | src/lib/auth.ts:23-41 | the secret is accepted iff it is set and at least 32 UTF-16 code units long; unset or empty gives the "required" message, 1 to 31 code units the "at least 32" message |
| Auth.SecretLengthInCodeUnits | src/lib/auth.ts:33-38 | sixteen characters outside the Basic Multilingual Plane are a long enough secret; sixteen ASCII characters are not |
| Auth.LoadCodec | src/lib/auth.ts:44 | the module loads iff the secret is valid, caching exactly that secret; otherwise loading fails with getJWTSecret's message |
| Auth.NewAuthError | src/lib/auth.ts:134-164 | the error keeps its message; the code defaults to UNAUTHORIZED; the status code is set only when given |
| Auth.PayloadOfEncode | src/types/auth.ts:29-36 | reading back the six claims of a signed payload gives that payload, and the claim set has exactly those six keys |
| Auth.ClaimsFor | src/lib/auth.ts:55-65 | the claims copy the id, email, name and role, are issued at the given second and expire 24 hours later |
| Auth.ClaimsIgnoreTimestamps | src/lib/auth.ts:55-60 | the claims depend only on id, email, name and role, never on the user's dates |
| Auth.CreateToken | src/lib/auth.ts:53-75 | succeeds iff the signer does, returning its token; a failure is UNAUTHORIZED with no status code and the message "Failed to create JWT token: " plus the signer's message or "Unknown error" |
| Auth.TryVerify | src/lib/auth.ts:90-102 | succeeds iff the verifier accepts the token and the shape guard accepts its claims; the payload is those claims |
| Auth.Classify | src/lib/auth.ts:104-131 | an AuthError is rethrown unchanged; JWTExpired gives TOKEN_EXPIRED/401, JWTInvalid gives INVALID_CREDENTIALS/401 "Invalid token signature", any other error UNAUTHORIZED/401 "Token verification failed: …" |
| Auth.VerifyAuth | src/lib/auth.ts:85-132 | a missing or empty token is MISSING_TOKEN with no status; otherwise each verifier outcome maps to exactly one result, and the bad-shape case is INVALID_CREDENTIALS with no status |
| Auth.MissingTokenSkipsVerifier | src/lib/auth.ts:86-88 | a missing token is rejected the same way whatever the codec |
| Auth.StatusCodeOfFailures | src/lib/auth.ts:97-130 | a failure has no status code exactly on the missing-token and bad-shape paths, and 401 on every other |
| Auth.IssueThenVerify | src/lib/auth.ts:53-132 | a token issued by createToken verifies to the identity it was issued for until 24 hours have passed, and is TOKEN_EXPIRED from then on |
| Middleware.Gate | src/middleware.ts:21-51 | the request proceeds iff the path is public or the token verifies; every redirect goes to /login, and the cookie is deleted iff a non-empty token was rejected |
| Middleware.Matched | src/middleware.ts:14 | the matcher: a path starting with `/` whose remainder does not begin with `api`, `_next/static`, `_next/image`, or `favicon`, any character, `ico` |
| Middleware.Middleware | src/middleware.ts:14 | the gate runs exactly on the paths the matcher selects, and then decides as `Gate` does |
| Middleware.LoginNeedsNothing | src/middleware.ts:19-29 | /login proceeds whatever the cookie and the codec, so a signed-in user reaches it too |
| Middleware.HomeIsProtected | src/middleware.ts:14-37 | / is matched, and without a token it redirects to /login |
| Middleware.ExcludedPaths | src/middleware.ts:14 | /api…, /apiary, /_next/static…, /_next/image, /favicon.ico and /faviconXico skip the gate; /dashboard and /_next/data do not |
| Middleware.DashboardScenarios | src/middleware.ts:32-50 | a missing or empty cookie redirects without deleting it; an expired token redirects and deletes it; a verified token proceeds |
| LoginRoute.PublicUser | src/app/api/auth/login/route.ts:52-59 | the public user keeps every field but the password, and is well-typed iff the stored user is |
| LoginRoute.PublicUserIgnoresPassword | src/app/api/auth/login/route.ts:52-62 | users that differ only in their password hash give the same response user and the same token claims |
| LoginRoute.SessionCookie | src/app/api/auth/login/route.ts:74-80 | the session cookie is `token`, httpOnly, secure in production, sameSite strict, path /, and lives 24 hours |
| LoginRoute.Post | src/app/api/auth/login/route.ts:15-91 | 400 iff a field is falsy; 401 iff the email is unknown or the password does not match; 200 iff the fields are present, the email is a stored user's, the password matches and a token is signed, and then the response holds that user's public record and a cookie with the token; a cookie is set iff the status is 200; every other failure is 500 |
| LoginRoute.NoUserEnumeration | src/app/api/auth/login/route.ts:29-39 | an unknown email and a wrong password give the same 401 response |
| LoginRoute.MissingFieldsBeforeLookup | src/app/api/auth/login/route.ts:21-26 | with a missing field the response depends on neither the users nor the hasher |
| LoginRoute.SuccessfulLoginScenario | src/app/api/auth/login/route.ts:62-80 | a correct login of a "user" returns 200, a cookie, and the role "user" |
| LogoutRoute.Post | src/app/api/auth/logout/route.ts:18-36 | always 200 with the message and timestamp, and a cookie directive that empties `token` with maxAge 0 |
| LogoutRoute.PostIsIdempotent | src/app/api/auth/logout/route.ts:18-36 | logging out twice gives the same status and cookie directive |
| LogoutRoute.LogoutReplacesSessionCookie | src/app/api/auth/logout/route.ts:28-34 | the logout cookie is the login cookie with an empty value and maxAge 0, so it replaces it |
| LogoutRoute.MethodNotAllowed | src/app/api/auth/logout/route.ts:50-78 | GET, PUT and DELETE answer 405 with no cookie |
| UserRoute.UserFromPayload | src/app/api/auth/user/route.ts:34-43 | the user carries the token's identity claims, both dates are the issue time in milliseconds, and it is well-typed iff the role claim is a role |
| UserRoute.Get | src/app/api/auth/user/route.ts:18-66 | no token gives 401 without a cookie; a verified token gives 200 with the rebuilt user; an AuthError gives 401 with its message and clears the cookie; a cookie is cleared only on 401; a user is returned iff the status is 200 |
| UserRoute.ExpiredTokenScenario | src/app/api/auth/user/route.ts:48-57 | an expired token gives 401 "Token has expired" and clears the cookie |
| UserRoute.IssuedTokenIdentity | src/app/api/auth/user/route.ts:31-46 | a token issued at login and not yet expired returns the identity it was issued for |
| UserRoute.RoleCastIsUnchecked | src/app/api/auth/user/route.ts:38 | a verified token whose role claim is "root" yields a user outside the `User` type |
| UserRoute.Put | src/app/api/auth/user/route.ts:73-82 | PUT answers 501 "not yet implemented" |
| UserRoute.MethodNotAllowed | src/app/api/auth/user/route.ts:88-106 | POST and DELETE answer 405 |
| UserRoute.PatchNotAllowed | src/app/api/auth/user/route.ts:108-116 | PATCH answers 405 with a message that also points at PUT |
| Store.FindUser | src/app/api/songs/route.ts:79-81 | a found user is in the table and has the key (id or email); none is found iff no user has it |
| Store.Database.constructor | src/app/api/songs/route.ts:217 | the database starts with the given tables |
| Store.Database.CreateSong | src/app/api/songs/route.ts:217-223 | the song table gains exactly the new song at its end; the other tables are unchanged |
| Store.Database.CreateMessage | src/app/api/messages/route.ts:132-148 | the create succeeds iff the message names no song or a stored song; then the message table gains exactly the new message at its end, otherwise nothing is written; the other tables are unchanged |
| Text.Trim | src/app/api/songs/route.ts:161 | the trimmed text is no longer than the input and has no white space at either end |
| Text.TrimIsSlice | src/app/api/songs/route.ts:161 | the trimmed text is the input with a run of white space removed at its start and at its end, and nothing else |
| Text.TrimEmptyIff | src/app/api/songs/route.ts:161 | a string trims to nothing iff it is all white space |
| Collections.SelectSorted | src/app/api/songs/route.ts:107-120 | the result holds exactly the kept records, with their multiplicities, sorted on the key |
| ApiAuth.TokenFromRequest | src/app/api/songs/route.ts:25-32 | a header starting with "Bearer " yields what follows it; otherwise the cookie, when non-empty |
| ApiAuth.HeaderBeforeCookie | src/app/api/messages/route.ts:12-22 | the bearer header wins over the cookie; "Basic …" and lower-case "bearer …" fall back to the cookie |
| ApiAuth.EmptyBearerHidesCookie | src/app/api/auth/messages/route.ts:7-17 | a bare "Bearer " header yields the empty token, which hides the cookie |
| ApiAuth.Authenticate | src/app/api/songs/route.ts:137-153 | the caller has no token, fails verification with verifyAuth's error, is unknown, or is a stored user whose id is the token's |
| SongsRoute.HasAudioExtension | src/app/api/songs/route.ts:60-61 | the name, lower-cased, ends in `.` and one of the nine extensions mp3, wav, m4a, aac, ogg, flac, webm, mp4, mov |
| SongsRoute.IsValidAudioFile | src/app/api/songs/route.ts:53-62 | the MIME type is one of the fifteen listed, or else the name has an audio extension |
| SongsRoute.AudioFileIgnoresCase | src/app/api/songs/route.ts:60 | a file and the same file with its name lower-cased are judged alike |
| SongsRoute.ValidateForm | src/app/api/songs/route.ts:155-182 | title, then file presence, then type, then size, each with its message; a non-blank title with a valid file of at most 50 MiB is accepted with the title trimmed, and only such a form is |
| SongsRoute.SizeBoundary | src/app/api/songs/route.ts:176-182 | a file of exactly 50 MiB passes, one byte more is "File too large" |
| SongsRoute.NoExtensionByLastChar | src/app/api/songs/route.ts:60-61 | a name whose lower-cased last character ends none of the extensions has no audio extension |
| SongsRoute.UpperCaseExtension | src/app/api/songs/route.ts:60-61 | "Take 3.WAV" is accepted by its extension, whatever its MIME type and size |
| SongsRoute.VoiceMemoType | src/app/api/songs/route.ts:48 | a video/mp4 voice memo is accepted whatever its name and size |
| SongsRoute.RejectedFiles | src/app/api/songs/route.ts:53-62 | song.mp3.txt (text/plain) and track.aiff (audio/x-aiff) are refused |
| SongsRoute.ListForBand | src/app/api/songs/route.ts:107-120 | the list holds exactly the band's songs, newest first |
| SongsRoute.FindBandSong | src/app/api/songs/route.ts:92-97 | a found song has the id and belongs to the band; none is found iff no such song exists |
| SongsRoute.Get | src/app/api/songs/route.ts:68-130 | 401 without a token, 500 on a verify failure, 404 for an unknown user; with an id, 200 with the band's song of that id when there is one, and 404 iff there is none; without one, the band's summaries newest first |
| SongsRoute.OtherBandsSongIsNotFound | src/app/api/songs/route.ts:90-101 | a song of another band is not found, even by its id |
| SongsRoute.ExpiredTokenIsServerError | src/app/api/songs/route.ts:77-129 | an expired token gives 500 "Failed to fetch songs" |
| SongsRoute.PlanPost | src/app/api/songs/route.ts:136-237 | the caller checks, then a form error 500, then a validation error 400 with its message, then an upload failure 500; otherwise the song to create has the trimmed title, the caller's band and the upload's URL |
| SongsRoute.CreatedTitleIsTrimmed | src/app/api/songs/route.ts:217-223 | a song is created only under a non-empty title without white space at either end |
| SongsRoute.ValidationBeforeUpload | src/app/api/songs/route.ts:160-212 | a rejected form is answered the same whatever the upload would give |
| SongsRoute.Post | src/app/api/songs/route.ts:136-237 | the song table gains exactly the planned song, answered 201, and nothing otherwise; users and messages are unchanged |
| MessagesRoute.QuerySongId | src/app/api/messages/route.ts:56-62 | an absent or empty parameter selects the band-wide chat; any other selects that song |
| MessagesRoute.BodySongId | src/app/api/messages/route.ts:135 | a falsy songId is the band-wide chat, a non-empty string is that song, and any other truthy value is refused |
| MessagesRoute.ViewOf | src/app/api/messages/route.ts:64-72 | the view keeps the message, and includes the author iff one is stored with its user id |
| MessagesRoute.ThreadOf | src/app/api/messages/route.ts:59-76 | the thread holds exactly the band's messages of that chat, oldest first |
| MessagesRoute.ThreadsAreSeparate | src/app/api/messages/route.ts:60-63 | the band-wide chat and a song's thread share no message |
| MessagesRoute.Get | src/app/api/messages/route.ts:29-87 | 401, 500 and 404 for the caller failures; otherwise 200 with the selected thread, each message with its author |
| MessagesRoute.CheckText | src/app/api/messages/route.ts:124-129 | a falsy or blank text is required (400); a truthy non-string throws; otherwise the text is kept trimmed, non-empty |
| MessagesRoute.PlanPost | src/app/api/messages/route.ts:94-158 | the caller checks, then 500 for a bad body, 400 for a missing text, 500 for a non-string text or songId; otherwise the message to create, with the caller's id and band |
| MessagesRoute.PostedMessageIsListed | src/app/api/messages/route.ts:29-148 | a posted message appears in a later GET of its thread |
| MessagesRoute.Post | src/app/api/messages/route.ts:94-158 | the message table gains exactly the planned message, answered 201 with its author; a message naming a song that is not stored is refused with 500; nothing is written otherwise |
| AuthMessagesRoute.StoredText | src/app/api/auth/messages/route.ts:46-51 | a string text is stored as it is; anything else is refused |
| AuthMessagesRoute.PlanPost | src/app/api/auth/messages/route.ts:20-75 | the caller checks, then a message is created iff the body parses with a string text and a usable songId; every other failure is 500 |
| AuthMessagesRoute.RoutesDisagreeOnText | src/app/api/auth/messages/route.ts:46-51 | this route stores a string text unchanged, where /api/messages refuses a blank one and trims the others |
| AuthMessagesRoute.PaddedTextTrims | src/app/api/messages/route.ts:134 | this route stores " hi " as it is, while /api/messages trims it to "hi" |
| AuthMessagesRoute.AcceptsWhatMessagesAccepts | src/app/api/auth/messages/route.ts:20-75 | whatever /api/messages accepts, this route accepts too, for the same thread, author and band |
| AuthMessagesRoute.Post | src/app/api/auth/messages/route.ts:20-75 | the message table gains exactly the planned message, answered 201 with its author; a message naming a song that is not stored is refused with 500; nothing is written otherwise |
| AddSongForm.FileError | src/app/components/dashboard/addSong.tsx:15-36 | a file is taken iff its type starts with "audio/" and it is at most 10 MiB; otherwise the type or size message |
| AddSongForm.RefusalMessage | src/app/components/dashboard/addSong.tsx:86 | the server's error when non-empty, else "Failed to add song" |
| AddSongForm.SentRequestPassesServerLimits | src/app/components/dashboard/addSong.tsx:44-65 | a request the form sends is within the server's size limit, and the server refuses it only for its type |
| AddSongForm.SizeMessageUnderstatesLimit | src/app/components/dashboard/addSong.tsx:29-31 | a 6 MiB MP3 is taken although the message names 5MB |
| AddSongForm.PickerAndServerDisagreeOnTypes | src/app/components/dashboard/addSong.tsx:24 | an AIFF file passes the picker and fails the server; a video/mp4 memo is the other way round |
| AddSongForm.Form.constructor | src/app/components/dashboard/addSong.tsx:8-13 | the form starts empty, not loading, with no success |
| AddSongForm.Form.SetTitle | src/app/components/dashboard/addSong.tsx:111 | only the title changes |
| AddSongForm.Form.HandleFileChange | src/app/components/dashboard/addSong.tsx:15-36 | the error becomes the picker's verdict; the file is replaced only by an accepted one; a chosen file is always one the picker took |
| AddSongForm.Form.BeginAddSong | src/app/components/dashboard/addSong.tsx:38-65 | a blank title flags the title; a missing file shows "Please select an audio file"; otherwise the form loads and sends the title and the chosen file |
| AddSongForm.Form.FinishAddSong | src/app/components/dashboard/addSong.tsx:67-94 | a success clears the title and file and shows success; a refusal shows the server's error; a thrown error the network message; loading ends in every case |
| TermsModal.DashSpaceRuns | src/app/components/termsModal/index.tsx:36 | the result has no white space, is no longer than the input, and keeps a non-space first character |
| TermsModal.StorageKey | src/app/components/termsModal/index.tsx:36 | the key has no white space and ends in "-terms-accepted" |
| TermsModal.DashWordPrefix | src/app/components/termsModal/index.tsx:36 | a word without white space passes through unchanged before the rest |
| TermsModal.DashSpaceRun | src/app/components/termsModal/index.tsx:36 | a run of white space before a word becomes one "-" |
| TermsModal.TwoWords | src/app/components/termsModal/index.tsx:36 | two words separated by any run of white space are joined by one "-" |
| TermsModal.DashIdempotent | src/app/components/termsModal/index.tsx:36 | replacing the white space runs twice changes nothing more |
| TermsModal.DefaultKey | src/app/components/termsModal/index.tsx:25-36 | without a project name the key is "template-terms-accepted" |
| TermsModal.KeysIgnoreCaseAndSpacing | src/app/components/termsModal/index.tsx:36 | "My Band" and "my \t band" share the key "my-band-terms-accepted" |
| TermsModal.Dialog.constructor | src/app/components/termsModal/index.tsx:21-29 | the project name defaults to "Template" and the box starts unticked |
| TermsModal.Dialog.SetTermsAccepted | src/app/components/termsModal/index.tsx:86 | only the box changes |
| TermsModal.Dialog.HandleAcceptTerms | src/app/components/termsModal/index.tsx:33-46 | with the box unticked nothing happens; ticked, the time is stored under the project's key, then onTermsAccepted runs if given, then the dialog closes |
| TermsModal.Dialog.HandleModalClose | src/app/components/termsModal/index.tsx:48-52 | the box is unticked and the dialog closes; storage is unchanged |

## Left out

- Cryptography: HS256 signing and verification (jose), `bcrypt.compare` and the `isJWTPayload` guard are oracles. Their outcomes are inputs, and src/types/auth.ts's guard is not part of this model.
- Clocks: the token's `iat`/`exp` come from one clock reading `now`, in seconds. The ISO timestamps of responses and the time stored by the terms dialog are inputs.
- The database: Prisma is modelled as in-memory tables. Ids and `createdAt` of new records are parameters. The model assumes Prisma throws, giving 500, for a lookup key, `text` or `songId` that is not a string. The schema is not part of this model; of its foreign keys only `Message.songId` is checked (`Store.KnownSong`), since the user and band of a new record come from a stored user.
- Collections.SelectSorted: ties in `orderBy` keep the store's order. The sort is stable, but the contract does not state the order of equal keys, since Prisma does not promise one.
- The Cloudinary upload is an input: its secure URL, or the error it failed with. Reading the file into a buffer is not modelled.
- Logging (`console.log`, `console.error`) and the file-size text printed with `toFixed` are not modelled.
- The logout handler's `catch` (500) is not modelled: nothing in its `try` block can throw in the model.
- AuthError's `cause` and stack trace are not modelled; its `name` is always "AuthError".
- Text.ToLower: only ASCII letters are lower-cased. JavaScript's full Unicode `toLowerCase` is not modelled.
- Middleware.Matched: the matcher is modelled as a prefix test on the path after its leading `/`. Its unescaped `.` in `favicon.ico` matches any character. Next.js's path normalisation is not modelled.
- Request parsing: a body that is not JSON, or is `null`, or form data that fail to parse, is a parse failure. A body that is some other primitive reads as undefined fields.
- AddSongForm.FetchOutcome: a refused request carries the server's `error` field only when it is a string. A non-string `error` is not modelled.
- AddSongForm.Form.BeginAddSong: `addSong` is split at its `await` into `BeginAddSong` and `FinishAddSong`. Interleavings of several submissions are not modelled.
- AddSongForm.Form.FinishAddSong: clearing the DOM file input is not modelled.
- Rendering: the JSX of both components is not modelled, nor the modal's look, its `showClose` and `isOpen` props, or `customTermsContent`.
