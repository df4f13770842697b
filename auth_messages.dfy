/**
 * /api/auth/messages (src/app/api/auth/messages/route.ts): a second POST
 * for chat messages. It authenticates like /api/messages but hands `text`
 * to the database unchecked and untrimmed.
 */
module AuthMessagesRoute {
  import opened Common
  import opened Http
  import Text
  import Store
  import ApiAuth
  import Auth
  import MessagesRoute

  /** `text` as the database takes it: a string is stored as it is; a
      missing, `null` or non-string value is refused. */
  function StoredText(v: Json): (r: Result<string, string>)
    ensures r.Success? <==> v.Str?
    ensures r.Success? ==> r.value == v.s
  {
    if v.Str? then Success(v.s) else Failure("text must be a string")
  }

  function PlanPost(
    codec: Auth.Codec,
    users: seq<Store.StoredUser>,
    authorization: Option<string>,
    cookie: Option<string>,
    body: Result<MessagesRoute.MessageBody, string>): (p: MessagesRoute.PostPlan)
    ensures var caller := ApiAuth.Authenticate(codec, users, authorization, cookie);
      && (caller.NoToken? ==> p == MessagesRoute.Reject(MessagesRoute.Error(401, MessagesRoute.NoTokenMessage)))
      && (caller.VerifyFailed? ==> p == MessagesRoute.Reject(MessagesRoute.Error(500, MessagesRoute.SendFailedMessage)))
      && (caller.UnknownUser? ==> p == MessagesRoute.Reject(MessagesRoute.Error(404, MessagesRoute.UserNotFoundMessage)))
      && (caller.Known? ==>
            && (p.Create? <==>
                  body.Success? && body.value.text.Str? && MessagesRoute.BodySongId(body.value.songId).Success?)
            && (p.Create? ==>
                  p == MessagesRoute.Create(body.value.text.s, MessagesRoute.BodySongId(body.value.songId).value,
                                            caller.user.account.id, caller.user.bandId))
            && (!p.Create? ==> p == MessagesRoute.Reject(MessagesRoute.Error(500, MessagesRoute.SendFailedMessage))))
  {
    match ApiAuth.Authenticate(codec, users, authorization, cookie)
    case NoToken => MessagesRoute.Reject(MessagesRoute.Error(401, MessagesRoute.NoTokenMessage))
    case VerifyFailed(_) => MessagesRoute.Reject(MessagesRoute.Error(500, MessagesRoute.SendFailedMessage))
    case UnknownUser => MessagesRoute.Reject(MessagesRoute.Error(404, MessagesRoute.UserNotFoundMessage))
    case Known(user) =>
      if body.Failure? then MessagesRoute.Reject(MessagesRoute.Error(500, MessagesRoute.SendFailedMessage))
      else
        match (StoredText(body.value.text), MessagesRoute.BodySongId(body.value.songId))
        case (Success(text), Success(songId)) => MessagesRoute.Create(text, songId, user.account.id, user.bandId)
        case _ => MessagesRoute.Reject(MessagesRoute.Error(500, MessagesRoute.SendFailedMessage))
  }

  /** The two routes part on text: for a string text, this route stores it
      as it is, where /api/messages answers 400 for a blank one and stores
      the others trimmed. */
  lemma RoutesDisagreeOnText(
    codec: Auth.Codec, users: seq<Store.StoredUser>, authorization: Option<string>, cookie: Option<string>,
    text: string)
    requires ApiAuth.Authenticate(codec, users, authorization, cookie).Known?
    ensures var user := ApiAuth.Authenticate(codec, users, authorization, cookie).user;
      var body := Success(MessagesRoute.MessageBody(Str(text), Null));
      && PlanPost(codec, users, authorization, cookie, body) == MessagesRoute.Create(text, None, user.account.id, user.bandId)
      && (Text.AllSpace(text) ==>
            MessagesRoute.PlanPost(codec, users, authorization, cookie, body)
            == MessagesRoute.Reject(MessagesRoute.Error(400, MessagesRoute.TextRequiredMessage)))
      && (!Text.AllSpace(text) ==>
            MessagesRoute.PlanPost(codec, users, authorization, cookie, body)
            == MessagesRoute.Create(Text.Trim(text), None, user.account.id, user.bandId))
  {
  }

  /** A padded text, concretely: " hi " is stored as " hi " here and as
      "hi" by /api/messages. */
  lemma PaddedTextTrims()
    ensures StoredText(Str(" hi ")) == Success(" hi ")
    ensures Text.Trim(" hi ") == "hi"
  {
    var t := " hi ";
    assert Text.IsSpace(' ') && !Text.IsSpace('h') && !Text.IsSpace('i');
    assert t[0] == ' ' && t[1..] == "hi ";
    assert Text.TrimStart("hi ") == "hi ";
    assert Text.TrimStart(t) == "hi ";
    assert "hi "[2] == ' ' && "hi "[..2] == "hi";
    assert Text.TrimEnd("hi") == "hi";
    assert Text.TrimEnd("hi ") == "hi";
  }

  /** Whatever /api/messages accepts, this route accepts too, for the same
      thread and author. */
  lemma AcceptsWhatMessagesAccepts(
    codec: Auth.Codec, users: seq<Store.StoredUser>, authorization: Option<string>, cookie: Option<string>,
    body: Result<MessagesRoute.MessageBody, string>)
    requires MessagesRoute.PlanPost(codec, users, authorization, cookie, body).Create?
    ensures var p := PlanPost(codec, users, authorization, cookie, body);
      var q := MessagesRoute.PlanPost(codec, users, authorization, cookie, body);
      p.Create? && p.songId == q.songId && p.userId == q.userId && p.bandId == q.bandId
  {
  }

  /** POST: the store gains exactly the planned message, and only then; a
      message naming a song that is not stored is refused by the database
      and answered 500. */
  method Post(
    db: Store.Database,
    codec: Auth.Codec,
    authorization: Option<string>,
    cookie: Option<string>,
    body: Result<MessagesRoute.MessageBody, string>,
    newId: string,
    now: int) returns (r: Response<MessagesRoute.MessagesBody>)
    modifies db
    ensures db.users == old(db.users) && db.songs == old(db.songs)
    ensures match PlanPost(codec, old(db.users), authorization, cookie, body)
      case Reject(response) => r == response && db.messages == old(db.messages)
      case Create(text, songId, userId, bandId) =>
        var m := Store.Message(newId, text, songId, userId, bandId, now);
        && (Store.KnownSong(db.songs, songId) ==>
              && db.messages == old(db.messages) + [m]
              && r == Response(201, MessagesRoute.Posted(MessagesRoute.ViewOf(db.users, m)), None))
        && (!Store.KnownSong(db.songs, songId) ==>
              && db.messages == old(db.messages)
              && r == MessagesRoute.Error(500, MessagesRoute.SendFailedMessage))
  {
    var plan := PlanPost(codec, db.users, authorization, cookie, body);
    match plan
    case Reject(response) =>
      r := response;
    case Create(text, songId, userId, bandId) =>
      var created := db.CreateMessage(newId, text, songId, userId, bandId, now);
      match created
      case Success(m) =>
        r := Response(201, MessagesRoute.Posted(MessagesRoute.ViewOf(db.users, m)), None);
      case Failure(_) =>
        r := MessagesRoute.Error(500, MessagesRoute.SendFailedMessage);
  }
}
