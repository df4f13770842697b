/**
 * /api/messages (src/app/api/messages/route.ts): the band chat. GET returns
 * the thread of the caller's band, either the band-wide chat or the one of
 * a song; POST adds a message to it after checking its text.
 */
module MessagesRoute {
  import opened Common
  import opened Text
  import opened Http
  import Store
  import ApiAuth
  import Auth
  import Collections

  const NoTokenMessage: string := "Unauthorized - No token provided"
  const UserNotFoundMessage: string := "User not found"
  const FetchFailedMessage: string := "Failed to fetch messages"
  const SendFailedMessage: string := "Failed to send message"
  const TextRequiredMessage: string := "Message text is required"

  /** The `select` of the included author. */
  datatype UserSummary = UserSummary(id: string, name: string, email: string)

  /** A message with its author included. */
  datatype MessageView = MessageView(message: Store.Message, user: Option<UserSummary>)

  datatype MessagesBody =
    | ErrorBody(error: string)
    | Thread(messages: seq<MessageView>)
    | Posted(message: MessageView)

  /** The JSON body of POST, after destructuring `{ text, songId }`. A body
      that is not valid JSON, or is `null`, is the parse failure instead. */
  datatype MessageBody = MessageBody(text: Json, songId: Json)

  function Error(status: int, message: string): Response<MessagesBody> {
    Response(status, ErrorBody(message), None)
  }

  /** `songId || null` on the `songId` search parameter. */
  function QuerySongId(q: Option<string>): (r: Option<string>)
    ensures r.None? <==> q.None? || q.value == ""
    ensures r.Some? ==> r == q
  {
    if q.Some? && q.value != "" then q else None
  }

  /** `songId || null` on the body's `songId`, as the database takes it: a
      falsy value is the band-wide chat, a non-empty string a song, and any
      other truthy value is refused by the database. */
  function BodySongId(v: Json): (r: Result<Option<string>, string>)
    ensures r == Success(None) <==> !Truthy(v)
    ensures forall s :: r == Success(Some(s)) <==> v == Str(s) && s != ""
    ensures r.Failure? <==> Truthy(v) && !v.Str?
  {
    if !Truthy(v) then Success(None)
    else if v.Str? then Success(Some(v.s))
    else Failure("songId must be a string")
  }

  /** The author of a message, as the `include` finds it. */
  function ViewOf(users: seq<Store.StoredUser>, m: Store.Message): (v: MessageView)
    ensures v.message == m
    ensures v.user.Some? <==> Store.FindUserById(users, m.userId).Some?
    ensures v.user.Some? ==> v.user.value.id == m.userId
  {
    match Store.FindUserById(users, m.userId)
    case None => MessageView(m, None)
    case Some(u) => MessageView(m, Some(UserSummary(u.account.id, u.account.name, u.account.email)))
  }

  /** The messages of one band and one thread, oldest first. */
  function ThreadOf(messages: seq<Store.Message>, bandId: string, songId: Option<string>): (r: seq<Store.Message>)
    ensures forall i :: 0 <= i < |r| ==> r[i].bandId == bandId && r[i].songId == songId
    ensures forall m ::
      multiset(r)[m] == if m.bandId == bandId && m.songId == songId then multiset(messages)[m] else 0
    ensures forall i, j :: 0 <= i < j < |r| ==> r[i].createdAt <= r[j].createdAt
  {
    Collections.SelectSorted(messages, (m: Store.Message) => m.bandId == bandId && m.songId == songId,
                             (m: Store.Message) => m.createdAt)
  }

  /** The band-wide chat and a song's thread never share a message. */
  lemma {:induction false} ThreadsAreSeparate(messages: seq<Store.Message>, bandId: string, songId: string, m: Store.Message)
    ensures !(m in ThreadOf(messages, bandId, None) && m in ThreadOf(messages, bandId, Some(songId)))
  {
    if m in ThreadOf(messages, bandId, None) {
      var t := ThreadOf(messages, bandId, None);
      var i :| 0 <= i < |t| && t[i] == m;
      assert m.songId == None;
      assert multiset(ThreadOf(messages, bandId, Some(songId)))[m] == 0;
    }
  }

  /** GET. `songQuery` is the `songId` search parameter. */
  function Get(
    codec: Auth.Codec,
    users: seq<Store.StoredUser>,
    messages: seq<Store.Message>,
    authorization: Option<string>,
    cookie: Option<string>,
    songQuery: Option<string>): (r: Response<MessagesBody>)
    ensures r.cookie.None?
    ensures var caller := ApiAuth.Authenticate(codec, users, authorization, cookie);
      && (caller.NoToken? ==> r == Error(401, NoTokenMessage))
      && (caller.VerifyFailed? ==> r == Error(500, FetchFailedMessage))
      && (caller.UnknownUser? ==> r == Error(404, UserNotFoundMessage))
      && (caller.Known? ==>
            && r.status == 200 && r.body.Thread?
            && r.body.messages
               == Collections.MapSeq(ThreadOf(messages, caller.user.bandId, QuerySongId(songQuery)),
                                     m => ViewOf(users, m)))
  {
    match ApiAuth.Authenticate(codec, users, authorization, cookie)
    case NoToken => Error(401, NoTokenMessage)
    case VerifyFailed(_) => Error(500, FetchFailedMessage)
    case UnknownUser => Error(404, UserNotFoundMessage)
    case Known(user) =>
      var thread := ThreadOf(messages, user.bandId, QuerySongId(songQuery));
      Response(200, Thread(Collections.MapSeq(thread, m => ViewOf(users, m))), None)
  }

  /** The check of `text`: falsy or blank is a 400; a truthy value that is
      not a string has no `trim`, so the call throws; otherwise the text is
      stored trimmed. */
  datatype TextCheck = TextOk(text: string) | TextRequired | TextThrows

  function CheckText(v: Json): (c: TextCheck)
    ensures c == TextRequired <==> !Truthy(v) || (v.Str? && AllSpace(v.s))
    ensures c == TextThrows <==> Truthy(v) && !v.Str?
    ensures c.TextOk? ==>
      && v.Str? && c.text == Trim(v.s)
      && c.text != [] && !IsSpace(c.text[0]) && !IsSpace(c.text[|c.text| - 1])
  {
    if !Truthy(v) then TextRequired
    else if !v.Str? then TextThrows
    else
      TrimEmptyIff(v.s);
      if Trim(v.s) == [] then TextRequired else TextOk(Trim(v.s))
  }

  /** What POST decides before touching the store. */
  datatype PostPlan =
    | Reject(response: Response<MessagesBody>)
    | Create(text: string, songId: Option<string>, userId: string, bandId: string)

  function PlanPost(
    codec: Auth.Codec,
    users: seq<Store.StoredUser>,
    authorization: Option<string>,
    cookie: Option<string>,
    body: Result<MessageBody, string>): (p: PostPlan)
    ensures var caller := ApiAuth.Authenticate(codec, users, authorization, cookie);
      && (caller.NoToken? ==> p == Reject(Error(401, NoTokenMessage)))
      && (caller.VerifyFailed? ==> p == Reject(Error(500, SendFailedMessage)))
      && (caller.UnknownUser? ==> p == Reject(Error(404, UserNotFoundMessage)))
      && (caller.Known? && body.Failure? ==> p == Reject(Error(500, SendFailedMessage)))
      && (caller.Known? && body.Success? ==>
            match CheckText(body.value.text)
            case TextRequired => p == Reject(Error(400, TextRequiredMessage))
            case TextThrows => p == Reject(Error(500, SendFailedMessage))
            case TextOk(text) =>
              && (BodySongId(body.value.songId).Failure? ==> p == Reject(Error(500, SendFailedMessage)))
              && (BodySongId(body.value.songId).Success? ==>
                    p == Create(text, BodySongId(body.value.songId).value, caller.user.account.id, caller.user.bandId)))
  {
    match ApiAuth.Authenticate(codec, users, authorization, cookie)
    case NoToken => Reject(Error(401, NoTokenMessage))
    case VerifyFailed(_) => Reject(Error(500, SendFailedMessage))
    case UnknownUser => Reject(Error(404, UserNotFoundMessage))
    case Known(user) =>
      match body
      case Failure(_) => Reject(Error(500, SendFailedMessage))
      case Success(b) =>
        match CheckText(b.text)
        case TextRequired => Reject(Error(400, TextRequiredMessage))
        case TextThrows => Reject(Error(500, SendFailedMessage))
        case TextOk(text) =>
          match BodySongId(b.songId)
          case Failure(_) => Reject(Error(500, SendFailedMessage))
          case Success(songId) => Create(text, songId, user.account.id, user.bandId)
  }

  /** A message posted with the same `songId` as a later GET asks for shows
      up in that GET's thread. */
  lemma {:induction false} PostedMessageIsListed(
    codec: Auth.Codec, users: seq<Store.StoredUser>, messages: seq<Store.Message>,
    authorization: Option<string>, cookie: Option<string>, body: MessageBody,
    songQuery: Option<string>, newId: string, now: int)
    requires PlanPost(codec, users, authorization, cookie, Success(body)).Create?
    requires QuerySongId(songQuery) == PlanPost(codec, users, authorization, cookie, Success(body)).songId
    ensures var p := PlanPost(codec, users, authorization, cookie, Success(body));
      var m := Store.Message(newId, p.text, p.songId, p.userId, p.bandId, now);
      var r := Get(codec, users, messages + [m], authorization, cookie, songQuery);
      r.status == 200 && ViewOf(users, m) in r.body.messages
  {
    var p := PlanPost(codec, users, authorization, cookie, Success(body));
    var m := Store.Message(newId, p.text, p.songId, p.userId, p.bandId, now);
    var caller := ApiAuth.Authenticate(codec, users, authorization, cookie);
    assert caller.Known? && p.bandId == caller.user.bandId;
    var thread := ThreadOf(messages + [m], p.bandId, p.songId);
    NewMessageJoinsThread(messages, m);
    ViewIsListed(users, thread, m);
  }

  lemma NewMessageJoinsThread(messages: seq<Store.Message>, m: Store.Message)
    ensures m in ThreadOf(messages + [m], m.bandId, m.songId)
  {
    var t := ThreadOf(messages + [m], m.bandId, m.songId);
    assert multiset(messages + [m])[m] >= 1;
    assert m in multiset(t);
  }

  lemma ViewIsListed(users: seq<Store.StoredUser>, thread: seq<Store.Message>, m: Store.Message)
    requires m in thread
    ensures ViewOf(users, m) in Collections.MapSeq(thread, m' => ViewOf(users, m'))
  {
    var i :| 0 <= i < |thread| && thread[i] == m;
    assert Collections.MapSeq(thread, m' => ViewOf(users, m'))[i] == ViewOf(users, m);
  }

  /** POST: the store gains exactly the planned message, and only then; a
      message naming a song that is not stored is refused by the database
      and answered 500. */
  method Post(
    db: Store.Database,
    codec: Auth.Codec,
    authorization: Option<string>,
    cookie: Option<string>,
    body: Result<MessageBody, string>,
    newId: string,
    now: int) returns (r: Response<MessagesBody>)
    modifies db
    ensures db.users == old(db.users) && db.songs == old(db.songs)
    ensures match PlanPost(codec, old(db.users), authorization, cookie, body)
      case Reject(response) => r == response && db.messages == old(db.messages)
      case Create(text, songId, userId, bandId) =>
        var m := Store.Message(newId, text, songId, userId, bandId, now);
        && (Store.KnownSong(db.songs, songId) ==>
              && db.messages == old(db.messages) + [m]
              && r == Response(201, Posted(ViewOf(db.users, m)), None))
        && (!Store.KnownSong(db.songs, songId) ==>
              && db.messages == old(db.messages)
              && r == Error(500, SendFailedMessage))
  {
    var plan := PlanPost(codec, db.users, authorization, cookie, body);
    match plan
    case Reject(response) =>
      r := response;
    case Create(text, songId, userId, bandId) =>
      var created := db.CreateMessage(newId, text, songId, userId, bandId, now);
      match created
      case Success(m) =>
        r := Response(201, Posted(ViewOf(db.users, m)), None);
      case Failure(_) =>
        r := Error(500, SendFailedMessage);
  }
}
