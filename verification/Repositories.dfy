/**
 The database connection and the repositories on it, as objects. Each method is proved
 against the statement it issues.
 */
module Repositories {
  import opened Outcomes
  import opened Database
  import opened Requests
  import opened Invariants

  /** A modification that took place as a whole and returned, or threw and changed nothing. */
  ghost predicate Committed(before: Tables, after: Tables, result: Result<()>, outcome: Result<Tables>)
  {
    match outcome
    case Ok(t) => after == t && result == Ok(())
    case Throw(what) => after == before && result == Throw(what)
  }

  /** A connection to the store. Every statement is a transaction of its own. */
  class Connection {
    const env: Environment
    var tables: Tables

    /** The store may hold rows already. */
    constructor (env: Environment, tables: Tables)
      requires CanonicalIds(env) && Database.Valid(env, tables)
      ensures Valid() && this.env == env && this.tables == tables
    {
      this.env := env;
      this.tables := tables;
    }

    ghost predicate Valid()
      reads this
    {
      CanonicalIds(env) && Database.Valid(env, tables)
    }

    /** Execute and commit one modifying statement; a fault is a connection that is not open. */
    method ExecuteModify(c: Command, fault: Option<string>) returns (result: Result<()>)
      requires Valid()
      modifies this
      ensures Valid()
      ensures Committed(old(tables), tables, result, Guarded(fault, Exec(env, old(tables), c)))
    {
      if fault.Some? {
        return Throw(fault.value);
      }
      var outcome := Exec(env, tables, c);
      if outcome.Throw? {
        return Throw(outcome.what);
      }
      ExecKeeps(env, tables, c);
      tables := outcome.value;
      result := Ok(());
    }
  }

  /** Reading a profile, case by case. */
  ghost predicate ProfileRead(env: Environment, t: Tables, userId: string, result: Result<Profile>)
  {
    match env.id(userId)
    case Id(key) =>
      if key in t.profiles then result == Ok(MapProfile(key, t.profiles[key]))
      else result == Throw("Profile not found")
    case Unmatched => result == Throw("Profile not found")
    case Rejected(what) => result == Throw(what)
  }

  lemma ReadIsSelect(env: Environment, t: Tables, userId: string, result: Result<Profile>)
    requires ProfileRead(env, t, userId, result)
    ensures result == SelectProfile(env, t, userId)
  {
  }

  class ProfileRepository {
    const conn: Connection

    constructor (conn: Connection)
      ensures this.conn == conn
    {
      this.conn := conn;
    }

    /** Inserts or touches the row, and returns it. */
    method Create(userId: string, fault: Option<string>) returns (result: Result<Profile>)
      requires conn.Valid()
      modifies conn
      ensures conn.Valid()
      ensures
        match Guarded(fault, Exec(conn.env, old(conn.tables), InsertProfile(userId)))
        case Ok(t) =>
          conn.tables == t && result.Ok? && result.value.userId == StoredText(conn.env, userId)
          && Ok(result.value) == SelectProfile(conn.env, t, userId)
        case Throw(what) => conn.tables == old(conn.tables) && result == Throw(what)
    {
      var executed := conn.ExecuteModify(InsertProfile(userId), fault);
      if executed.Throw? {
        return Throw(executed.what);
      }
      result := SelectProfile(conn.env, conn.tables, userId);
    }

    method GetByID(userId: string, fault: Option<string>) returns (result: Result<Profile>)
      requires conn.Valid()
      ensures fault.Some? ==> result == Throw(fault.value)
      ensures fault.None? ==> ProfileRead(conn.env, conn.tables, userId, result)
    {
      result := Guarded(fault, SelectProfile(conn.env, conn.tables, userId));
    }

    /** Whatever goes wrong is reported as a taken username. */
    method Update(profile: Profile, fault: Option<string>) returns (result: Result<()>)
      requires conn.Valid()
      modifies conn
      ensures conn.Valid()
      ensures
        match Guarded(fault, Exec(conn.env, old(conn.tables), UpdateOf(profile)))
        case Ok(t) => conn.tables == t && result == Ok(())
        case Throw(_) => conn.tables == old(conn.tables) && result == Throw(TAKEN)
    {
      result := conn.ExecuteModify(
        SetProfile(profile.userId, profile.firstName.Or(""), profile.lastName.Or(""),
                   profile.username.Or(""), profile.bio.Or("")), fault);
      if result.Throw? {
        result := Throw(TAKEN);
      }
    }

    method UpdateAvatarURL(userId: string, url: string, fault: Option<string>) returns (result: Result<()>)
      requires conn.Valid()
      modifies conn
      ensures conn.Valid()
      ensures Committed(old(conn.tables), conn.tables, result,
        Guarded(fault, Exec(conn.env, old(conn.tables), SetAvatar(userId, url))))
    {
      result := conn.ExecuteModify(SetAvatar(userId, url), fault);
    }
  }

  class ContactsRepository {
    const conn: Connection

    constructor (conn: Connection)
      ensures this.conn == conn
    {
      this.conn := conn;
    }

    /** Maps the selected rows one by one, in the order of the query. */
    method List(ownerId: string, fault: Option<string>) returns (result: Result<seq<Contact>>)
      requires conn.Valid()
      ensures
        match Guarded(fault, SelectContacts(conn.env, conn.tables, ownerId))
        case Throw(what) => result == Throw(what)
        case Ok(rows) =>
          result.Ok? && |result.value| == |rows|
          && forall i :: 0 <= i < |rows| ==> result.value[i] == MapContact(rows[i])
    {
      var selected := Guarded(fault, SelectContacts(conn.env, conn.tables, ownerId));
      if selected.Throw? {
        return Throw(selected.what);
      }
      var contacts := [];
      for i := 0 to |selected.value|
        invariant |contacts| == i
        invariant forall j :: 0 <= j < i ==> contacts[j] == MapContact(selected.value[j])
      {
        contacts := contacts + [MapContact(selected.value[i])];
      }
      result := Ok(contacts);
    }

    method Add(contact: Contact, fault: Option<string>) returns (result: Result<()>)
      requires conn.Valid()
      modifies conn
      ensures conn.Valid()
      ensures Committed(old(conn.tables), conn.tables, result,
        Guarded(fault, Exec(conn.env, old(conn.tables),
          PutContact(contact.ownerId, contact.contactId, contact.alias.Or("")))))
    {
      result := conn.ExecuteModify(PutContact(contact.ownerId, contact.contactId, contact.alias.Or("")), fault);
    }

    method Remove(ownerId: string, contactId: string, fault: Option<string>) returns (result: Result<()>)
      requires conn.Valid()
      modifies conn
      ensures conn.Valid()
      ensures Committed(old(conn.tables), conn.tables, result,
        Guarded(fault, Exec(conn.env, old(conn.tables), DropContact(ownerId, contactId))))
    {
      result := conn.ExecuteModify(DropContact(ownerId, contactId), fault);
    }
  }

  class FavoriteRepository {
    const conn: Connection

    constructor (conn: Connection)
      ensures this.conn == conn
    {
      this.conn := conn;
    }

    method List(userId: string, fault: Option<string>) returns (result: Result<seq<Favorite>>)
      requires conn.Valid()
      ensures
        match Guarded(fault, SelectFavorites(conn.env, conn.tables, userId))
        case Throw(what) => result == Throw(what)
        case Ok(rows) =>
          result.Ok? && |result.value| == |rows|
          && forall i :: 0 <= i < |rows| ==> result.value[i] == MapFavorite(rows[i])
    {
      var selected := Guarded(fault, SelectFavorites(conn.env, conn.tables, userId));
      if selected.Throw? {
        return Throw(selected.what);
      }
      var favorites := [];
      for i := 0 to |selected.value|
        invariant |favorites| == i
        invariant forall j :: 0 <= j < i ==> favorites[j] == MapFavorite(selected.value[j])
      {
        favorites := favorites + [MapFavorite(selected.value[i])];
      }
      result := Ok(favorites);
    }

    method Add(userId: string, chatId: string, fault: Option<string>) returns (result: Result<()>)
      requires conn.Valid()
      modifies conn
      ensures conn.Valid()
      ensures Committed(old(conn.tables), conn.tables, result,
        Guarded(fault, Exec(conn.env, old(conn.tables), PutFavorite(userId, chatId))))
    {
      result := conn.ExecuteModify(PutFavorite(userId, chatId), fault);
    }

    method Remove(userId: string, chatId: string, fault: Option<string>) returns (result: Result<()>)
      requires conn.Valid()
      modifies conn
      ensures conn.Valid()
      ensures Committed(old(conn.tables), conn.tables, result,
        Guarded(fault, Exec(conn.env, old(conn.tables), DropFavorite(userId, chatId))))
    {
      result := conn.ExecuteModify(DropFavorite(userId, chatId), fault);
    }
  }

  class PrivacyRepository {
    const conn: Connection

    constructor (conn: Connection)
      ensures this.conn == conn
    {
      this.conn := conn;
    }

    method Get(userId: string, fault: Option<string>) returns (result: Result<PrivacySettings>)
      requires conn.Valid()
      ensures result == Guarded(fault, SelectPrivacy(conn.env, conn.tables, userId))
    {
      var key := Guarded(fault, SoughtId(conn.env, userId));
      if key.Throw? {
        return Throw(key.what);
      }
      var settings := PrivacySettings(userId, "everyone", "everyone", "everyone");
      if key.value.Some? && key.value.value in conn.tables.privacy {
        settings := MapPrivacy(key.value.value, conn.tables.privacy[key.value.value]);
      }
      result := Ok(settings);
    }

    method Update(settings: PrivacySettings, fault: Option<string>) returns (result: Result<()>)
      requires conn.Valid()
      modifies conn
      ensures conn.Valid()
      ensures Committed(old(conn.tables), conn.tables, result,
        Guarded(fault, Exec(conn.env, old(conn.tables),
          PutPrivacy(settings.userId, PrivacyRow(settings.profile, settings.lastSeen, settings.avatar)))))
    {
      result := conn.ExecuteModify(
        PutPrivacy(settings.userId, PrivacyRow(settings.profile, settings.lastSeen, settings.avatar)), fault);
    }
  }

  class NotificationRepository {
    const conn: Connection

    constructor (conn: Connection)
      ensures this.conn == conn
    {
      this.conn := conn;
    }

    method Get(userId: string, chatId: Option<string>, fault: Option<string>)
      returns (result: Result<NotificationSettings>)
      requires conn.Valid()
      ensures result == Guarded(fault, SelectNotification(conn.env, conn.tables, userId, chatId))
    {
      var user := Guarded(fault, SoughtId(conn.env, userId));
      if user.Throw? {
        return Throw(user.what);
      }
      var row := None;
      if chatId.None? {
        if user.value.Some? {
          row := FindNotification(conn.tables.notifications, user.value.value, None);
        }
      } else {
        var chat := SoughtId(conn.env, chatId.value);
        if chat.Throw? {
          return Throw(chat.what);
        }
        if user.value.Some? && chat.value.Some? {
          row := FindNotification(conn.tables.notifications, user.value.value, chat.value);
        }
      }
      if row.None? {
        return Ok(NotificationSettings(None, userId, Some(chatId.Or("")), false, None));
      }
      result := Ok(MapNotification(row.value));
    }

    /** A missing chat id is written as the empty string, not as NULL. */
    method Upsert(settings: NotificationSettings, fault: Option<string>) returns (result: Result<()>)
      requires conn.Valid()
      modifies conn
      ensures conn.Valid()
      ensures Committed(old(conn.tables), conn.tables, result,
        Guarded(fault, Exec(conn.env, old(conn.tables),
          PutNotification(settings.userId, settings.chatId.Or(""), settings.muted, settings.mutedUntil))))
    {
      var chat := if settings.chatId.Some? then settings.chatId.value else "";
      result := conn.ExecuteModify(PutNotification(settings.userId, chat, settings.muted, settings.mutedUntil), fault);
    }
  }
}
