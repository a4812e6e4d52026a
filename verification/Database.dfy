/**
 The five tables of the schema and the effect of every SQL statement the repositories issue.
 A statement that throws has no effect: it runs in a transaction of its own.
 */
module Database {
  import opened Outcomes
  import opened OwnedRows

  // ---------------------------------------------------------------- the environment

  /** A text parameter compared with, or stored into, an id column. */
  datatype IdText =
    | Id(key: string)         // the value the column holds for it
    | Unmatched               // too long to be stored: an insert throws, a lookup finds nothing
    | Rejected(what: string)  // not of the column's type: every statement throws

  datatype Column = FirstName | LastName | Username | Alias | Visibility

  /**
   What the model does not define: which texts the columns accept (the two schema files
   differ in that), the parsing of timestamps, the URL of a stored avatar and the checker
   of user and scope.
   */
  datatype Environment = Environment(
    id: string -> IdText,
    fits: (Column, string) -> bool,
    time: string -> Option<int>,
    avatarUrl: (string, string) -> string,
    allows: (string, string) -> bool)

  /** A stored id, read back as text, denotes itself. */
  ghost predicate CanonicalIds(env: Environment)
  {
    forall s :: env.id(s).Id? ==> env.id(env.id(s).key) == env.id(s)
  }

  // ---------------------------------------------------------------- rows

  datatype ProfileRow = ProfileRow(
    firstName: Option<string>, lastName: Option<string>, username: Option<string>,
    bio: Option<string>, avatarUrl: Option<string>)

  datatype PrivacyRow = PrivacyRow(profile: string, lastSeen: string, avatar: string)

  datatype NotificationRow =
    NotificationRow(id: nat, user: string, chat: Option<string>, muted: bool, until: Option<int>)

  /** clock numbers the rows inserted so far: creation times and generated ids are drawn from it. */
  datatype Tables = Tables(
    profiles: map<string, ProfileRow>,
    contacts: seq<Row<Option<string>>>,
    favorites: seq<Row<()>>,
    privacy: map<string, PrivacyRow>,
    notifications: seq<NotificationRow>,
    clock: nat)

  const EMPTY: Tables := Tables(map[], [], [], map[], [], 0)

  const NEW_PROFILE: ProfileRow := ProfileRow(None, None, None, None, None)

  // ---------------------------------------------------------------- records read from rows

  datatype Profile = Profile(
    userId: string,
    firstName: Option<string>, lastName: Option<string>, username: Option<string>,
    bio: Option<string>, avatarUrl: Option<string>)

  datatype Contact = Contact(ownerId: string, contactId: string, alias: Option<string>)

  datatype Favorite = Favorite(userId: string, chatId: string)

  datatype PrivacySettings = PrivacySettings(userId: string, profile: string, lastSeen: string, avatar: string)

  /** An id of None is the empty string of a record that was not read from a row. */
  datatype NotificationSettings = NotificationSettings(
    id: Option<nat>, userId: string, chatId: Option<string>, muted: bool, mutedUntil: Option<int>)

  function MapProfile(userId: string, row: ProfileRow): Profile
  {
    Profile(userId, row.firstName, row.lastName, row.username, row.bio, row.avatarUrl)
  }

  function MapContact(row: Row<Option<string>>): Contact
  {
    Contact(row.owner, row.item, row.data)
  }

  function MapFavorite(row: Row<()>): Favorite
  {
    Favorite(row.owner, row.item)
  }

  function MapPrivacy(userId: string, row: PrivacyRow): PrivacySettings
  {
    PrivacySettings(userId, row.profile, row.lastSeen, row.avatar)
  }

  /** The mapper leaves muted_until unread. */
  function MapNotification(row: NotificationRow): NotificationSettings
  {
    NotificationSettings(Some(row.id), row.user, row.chat, row.muted, None)
  }

  // ---------------------------------------------------------------- id parameters

  /** As a value to be stored. */
  function StoredId(env: Environment, text: string): Result<string>
  {
    match env.id(text)
    case Id(key) => Ok(key)
    case Unmatched => Throw("value too long")
    case Rejected(what) => Throw(what)
  }

  /** As a value to be compared with: None matches no row. */
  function SoughtId(env: Environment, text: string): Result<Option<string>>
  {
    match env.id(text)
    case Id(key) => Ok(Some(key))
    case Unmatched => Ok(None)
    case Rejected(what) => Throw(what)
  }

  // ---------------------------------------------------------------- queries

  function SelectProfile(env: Environment, t: Tables, userId: string): Result<Profile>
  {
    match SoughtId(env, userId)
    case Throw(what) => Throw(what)
    case Ok(key) =>
      if key.Some? && key.value in t.profiles then Ok(MapProfile(key.value, t.profiles[key.value]))
      else Throw("Profile not found")
  }

  function SelectContacts(env: Environment, t: Tables, ownerId: string): Result<seq<Row<Option<string>>>>
  {
    match SoughtId(env, ownerId)
    case Throw(what) => Throw(what)
    case Ok(None) => Ok([])
    case Ok(Some(key)) => Ok(NewestFirst(Owned(t.contacts, key)))
  }

  function SelectFavorites(env: Environment, t: Tables, userId: string): Result<seq<Row<()>>>
  {
    match SoughtId(env, userId)
    case Throw(what) => Throw(what)
    case Ok(None) => Ok([])
    case Ok(Some(key)) => Ok(NewestFirst(Owned(t.favorites, key)))
  }

  function SelectPrivacy(env: Environment, t: Tables, userId: string): Result<PrivacySettings>
  {
    match SoughtId(env, userId)
    case Throw(what) => Throw(what)
    case Ok(key) =>
      if key.Some? && key.value in t.privacy then Ok(MapPrivacy(key.value, t.privacy[key.value]))
      else Ok(PrivacySettings(userId, "everyone", "everyone", "everyone"))
  }

  /** The first row of a user with this chat id; a chat of None is IS NULL. */
  function FindNotification(rows: seq<NotificationRow>, user: string, chat: Option<string>): Option<NotificationRow>
  {
    if rows == [] then None
    else if rows[0].user == user && rows[0].chat == chat then Some(rows[0])
    else FindNotification(rows[1..], user, chat)
  }

  function SelectNotification(env: Environment, t: Tables, userId: string, chatId: Option<string>)
    : Result<NotificationSettings>
  {
    var unset := NotificationSettings(None, userId, Some(chatId.Or("")), false, None);
    var user := SoughtId(env, userId);
    var chat := if chatId.Some? then SoughtId(env, chatId.value) else Ok(None);
    if user.Throw? then Throw(user.what)
    else if chat.Throw? then Throw(chat.what)
    else if user.value.None? || (chatId.Some? && chat.value.None?) then Ok(unset)
    else match FindNotification(t.notifications, user.value.value, chat.value)
      case Some(row) => Ok(MapNotification(row))
      case None => Ok(unset)
  }

  // ---------------------------------------------------------------- modifications

  datatype Command =
    | InsertProfile(userId: string)
    | SetProfile(userId: string, firstName: string, lastName: string, username: string, bio: string)
    | SetAvatar(userId: string, url: string)
    | PutContact(ownerId: string, contactId: string, alias: string)
    | DropContact(ownerId: string, contactId: string)
    | PutFavorite(userId: string, chatId: string)
    | DropFavorite(userId: string, chatId: string)
    | PutPrivacy(userId: string, privacy: PrivacyRow)
    | PutNotification(userId: string, chatId: string, muted: bool, until: Option<int>)

  /** UNIQUE (username): NULLs are distinct, empty strings are not. */
  predicate UsernameTaken(profiles: map<string, ProfileRow>, username: string, self: string)
  {
    exists key :: key in profiles && key != self && profiles[key].username == Some(username)
  }

  function SetNotification(rows: seq<NotificationRow>, user: string, chat: Option<string>,
                           muted: bool, until: Option<int>): seq<NotificationRow>
  {
    if rows == [] then []
    else if rows[0].user == user && rows[0].chat == chat
    then [rows[0].(muted := muted, until := until)] + SetNotification(rows[1..], user, chat, muted, until)
    else [rows[0]] + SetNotification(rows[1..], user, chat, muted, until)
  }

  /** INSERT ... ON CONFLICT DO UPDATE SET updated_at = now(). */
  function ExecInsertProfile(env: Environment, t: Tables, userId: string): Result<Tables>
  {
    var key := StoredId(env, userId);
    if key.Throw? then Throw(key.what)
    else if key.value in t.profiles then Ok(t)
    else Ok(t.(profiles := t.profiles[key.value := NEW_PROFILE]))
  }

  /** UPDATE of the four text columns of at most one row. */
  function ExecSetProfile(env: Environment, t: Tables, userId: string,
                          firstName: string, lastName: string, username: string, bio: string): Result<Tables>
  {
    var key := SoughtId(env, userId);
    if key.Throw? then Throw(key.what)
    else if key.value.None? || key.value.value !in t.profiles then Ok(t)
    else if !(env.fits(FirstName, firstName) && env.fits(LastName, lastName) && env.fits(Username, username))
    then Throw("value too long")
    else if UsernameTaken(t.profiles, username, key.value.value)
    then Throw("duplicate key value violates unique constraint")
    else
      var row := t.profiles[key.value.value].(
        firstName := Some(firstName), lastName := Some(lastName), username := Some(username), bio := Some(bio));
      Ok(t.(profiles := t.profiles[key.value.value := row]))
  }

  function ExecSetAvatar(env: Environment, t: Tables, userId: string, url: string): Result<Tables>
  {
    var key := SoughtId(env, userId);
    if key.Throw? then Throw(key.what)
    else if key.value.None? || key.value.value !in t.profiles then Ok(t)
    else
      var row := t.profiles[key.value.value].(avatarUrl := Some(url));
      Ok(t.(profiles := t.profiles[key.value.value := row]))
  }

  /** INSERT ... ON CONFLICT (owner_id, contact_id) DO UPDATE SET alias. */
  function ExecPutContact(env: Environment, t: Tables, ownerId: string, contactId: string, alias: string)
    : Result<Tables>
  {
    var owner, contact := StoredId(env, ownerId), StoredId(env, contactId);
    if owner.Throw? then Throw(owner.what)
    else if contact.Throw? then Throw(contact.what)
    else if !env.fits(Alias, alias) then Throw("value too long")
    else if Has(t.contacts, owner.value, contact.value)
    then Ok(t.(contacts := SetData(t.contacts, owner.value, contact.value, Some(alias))))
    else if owner.value !in t.profiles || contact.value !in t.profiles
    then Throw("violates foreign key constraint")
    else Ok(t.(contacts := t.contacts + [Row(owner.value, contact.value, Some(alias), t.clock)],
               clock := t.clock + 1))
  }

  function ExecDropContact(env: Environment, t: Tables, ownerId: string, contactId: string): Result<Tables>
  {
    var owner, contact := SoughtId(env, ownerId), SoughtId(env, contactId);
    if owner.Throw? then Throw(owner.what)
    else if contact.Throw? then Throw(contact.what)
    else if owner.value.None? || contact.value.None? then Ok(t)
    else Ok(t.(contacts := Without(t.contacts, owner.value.value, contact.value.value)))
  }

  /** INSERT ... ON CONFLICT (user_id, chat_id) DO NOTHING. */
  function ExecPutFavorite(env: Environment, t: Tables, userId: string, chatId: string): Result<Tables>
  {
    var user, chat := StoredId(env, userId), StoredId(env, chatId);
    if user.Throw? then Throw(user.what)
    else if chat.Throw? then Throw(chat.what)
    else if Has(t.favorites, user.value, chat.value) then Ok(t)
    else if user.value !in t.profiles then Throw("violates foreign key constraint")
    else Ok(t.(favorites := t.favorites + [Row(user.value, chat.value, (), t.clock)], clock := t.clock + 1))
  }

  function ExecDropFavorite(env: Environment, t: Tables, userId: string, chatId: string): Result<Tables>
  {
    var user, chat := SoughtId(env, userId), SoughtId(env, chatId);
    if user.Throw? then Throw(user.what)
    else if chat.Throw? then Throw(chat.what)
    else if user.value.None? || chat.value.None? then Ok(t)
    else Ok(t.(favorites := Without(t.favorites, user.value.value, chat.value.value)))
  }

  /** INSERT ... ON CONFLICT (user_id) DO UPDATE SET all three columns. */
  function ExecPutPrivacy(env: Environment, t: Tables, userId: string, privacy: PrivacyRow): Result<Tables>
  {
    var user := StoredId(env, userId);
    if user.Throw? then Throw(user.what)
    else if !(env.fits(Visibility, privacy.profile) && env.fits(Visibility, privacy.lastSeen)
              && env.fits(Visibility, privacy.avatar))
    then Throw("invalid visibility")
    else if user.value !in t.privacy && user.value !in t.profiles then Throw("violates foreign key constraint")
    else Ok(t.(privacy := t.privacy[user.value := privacy]))
  }

  /** INSERT ... ON CONFLICT (user_id, chat_id) DO UPDATE SET muted, muted_until. The chat id is never NULL. */
  function ExecPutNotification(env: Environment, t: Tables, userId: string, chatId: string,
                               muted: bool, until: Option<int>): Result<Tables>
  {
    var user, chat := StoredId(env, userId), StoredId(env, chatId);
    if user.Throw? then Throw(user.what)
    else if chat.Throw? then Throw(chat.what)
    else if FindNotification(t.notifications, user.value, Some(chat.value)).Some?
    then Ok(t.(notifications := SetNotification(t.notifications, user.value, Some(chat.value), muted, until)))
    else if user.value !in t.profiles then Throw("violates foreign key constraint")
    else
      var row := NotificationRow(t.clock, user.value, Some(chat.value), muted, until);
      Ok(t.(notifications := t.notifications + [row], clock := t.clock + 1))
  }

  function Exec(env: Environment, t: Tables, c: Command): Result<Tables>
  {
    match c
    case InsertProfile(userId) => ExecInsertProfile(env, t, userId)
    case SetProfile(userId, firstName, lastName, username, bio) =>
      ExecSetProfile(env, t, userId, firstName, lastName, username, bio)
    case SetAvatar(userId, url) => ExecSetAvatar(env, t, userId, url)
    case PutContact(ownerId, contactId, alias) => ExecPutContact(env, t, ownerId, contactId, alias)
    case DropContact(ownerId, contactId) => ExecDropContact(env, t, ownerId, contactId)
    case PutFavorite(userId, chatId) => ExecPutFavorite(env, t, userId, chatId)
    case DropFavorite(userId, chatId) => ExecDropFavorite(env, t, userId, chatId)
    case PutPrivacy(userId, privacy) => ExecPutPrivacy(env, t, userId, privacy)
    case PutNotification(userId, chatId, muted, until) => ExecPutNotification(env, t, userId, chatId, muted, until)
  }

  // ---------------------------------------------------------------- the store invariant

  /** Non-NULL usernames are pairwise distinct, the empty one included. */
  ghost predicate DistinctUsernames(profiles: map<string, ProfileRow>)
  {
    forall a, b :: a in profiles && b in profiles && a != b && profiles[a].username.Some? ==>
      profiles[a].username != profiles[b].username
  }

  /** Primary key, foreign key and unique pair of the notification table; NULL chat ids are distinct. */
  ghost predicate ValidNotifications(rows: seq<NotificationRow>, clock: nat, users: set<string>)
  {
    && (forall i :: 0 <= i < |rows| ==> rows[i].id < clock && rows[i].user in users)
    && (forall i, j :: 0 <= i < j < |rows| ==> rows[i].id != rows[j].id)
    && (forall i, j :: 0 <= i < j < |rows| && rows[i].chat.Some? ==>
          !(rows[i].user == rows[j].user && rows[i].chat == rows[j].chat))
  }

  ghost predicate Valid(env: Environment, t: Tables)
  {
    && (forall key :: key in t.profiles ==> env.id(key) == Id(key))
    && DistinctUsernames(t.profiles)
    && UniqueKeys(t.contacts) && Stamped(t.contacts, t.clock)
    && References(t.contacts, t.profiles.Keys, Some(t.profiles.Keys))
    && UniqueKeys(t.favorites) && Stamped(t.favorites, t.clock)
    && References(t.favorites, t.profiles.Keys, None)
    && t.privacy.Keys <= t.profiles.Keys
    && ValidNotifications(t.notifications, t.clock, t.profiles.Keys)
  }
}
