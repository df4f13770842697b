/**
 * The database the route handlers read and write, kept in memory: users
 * (with the band they belong to), songs and chat messages. Record ids and
 * creation times, which the database generates, are supplied by the caller.
 */
module Store {
  import opened Common
  import opened AuthTypes
  import Collections

  /** A user row: the stored user and the band it belongs to. */
  datatype StoredUser = StoredUser(account: DatabaseUser, bandId: string)

  datatype Song = Song(id: string, title: string, bandId: string, audioUrl: string, createdAt: int)

  /** A chat message; `songId` is `None` for the band-wide chat. */
  datatype Message = Message(
    id: string,
    text: string,
    songId: Option<string>,
    userId: string,
    bandId: string,
    createdAt: int)

  /** The two unique keys of the user table. */
  datatype UserKey = ById(id: string) | ByEmail(email: string)

  predicate HasKey(u: StoredUser, key: UserKey) {
    match key
    case ById(id) => u.account.id == id
    case ByEmail(email) => u.account.email == email
  }

  /** `prisma.user.findUnique` on a unique key. */
  function FindUser(users: seq<StoredUser>, key: UserKey): (r: Option<StoredUser>)
    ensures r.Some? ==> r.value in users && HasKey(r.value, key)
    ensures r.None? <==> forall u :: u in users ==> !HasKey(u, key)
  {
    var r := Collections.FindFirst(users, (u: StoredUser) => HasKey(u, key));
    assert r.None? ==> forall u :: u in users ==> !HasKey(u, key) by {
      if r.None? {
        forall u | u in users ensures !HasKey(u, key) {
          var i :| 0 <= i < |users| && users[i] == u;
        }
      }
    }
    r
  }

  /** `findUnique({ where: { id } })`. */
  function FindUserById(users: seq<StoredUser>, id: string): Option<StoredUser> {
    FindUser(users, ById(id))
  }

  /** `findUnique({ where: { email } })`. */
  function FindUserByEmail(users: seq<StoredUser>, email: string): Option<StoredUser> {
    FindUser(users, ByEmail(email))
  }

  /** The foreign key of `Message.songId`: no song, or a stored song's id. */
  predicate KnownSong(songs: seq<Song>, songId: Option<string>) {
    songId.None? || exists i :: 0 <= i < |songs| && songs[i].id == songId.value
  }

  /** The database, whose `create` calls append a record to a table. */
  class Database {
    var users: seq<StoredUser>
    var songs: seq<Song>
    var messages: seq<Message>

    constructor (users: seq<StoredUser>, songs: seq<Song>, messages: seq<Message>)
      ensures this.users == users && this.songs == songs && this.messages == messages
    {
      this.users := users;
      this.songs := songs;
      this.messages := messages;
    }

    /** `prisma.song.create`. */
    method CreateSong(id: string, title: string, bandId: string, audioUrl: string, createdAt: int)
      returns (song: Song)
      modifies this
      ensures song == Song(id, title, bandId, audioUrl, createdAt)
      ensures songs == old(songs) + [song]
      ensures users == old(users) && messages == old(messages)
    {
      song := Song(id, title, bandId, audioUrl, createdAt);
      songs := songs + [song];
    }

    /** `prisma.message.create`: refused, with nothing written, when the
        message names a song that is not stored. */
    method CreateMessage(id: string, text: string, songId: Option<string>, userId: string, bandId: string, createdAt: int)
      returns (r: Result<Message, string>)
      modifies this
      ensures users == old(users) && songs == old(songs)
      ensures r.Success? <==> KnownSong(songs, songId)
      ensures r.Success? ==>
        && r.value == Message(id, text, songId, userId, bandId, createdAt)
        && messages == old(messages) + [r.value]
      ensures r.Failure? ==> messages == old(messages)
    {
      if !KnownSong(songs, songId) {
        return Failure("Foreign key constraint violated on the songId");
      }
      var message := Message(id, text, songId, userId, bandId, createdAt);
      messages := messages + [message];
      r := Success(message);
    }
  }
}
