/** What every request keeps, over every history. */
module Invariants {
  import opened Outcomes
  import opened OwnedRows
  import opened Database
  import opened Requests

  // ---------------------------------------------------------------- notification rows

  lemma {:induction false} SetNotificationRows(rows: seq<NotificationRow>, user: string, chat: Option<string>,
                                               muted: bool, until: Option<int>)
    ensures
      var rows' := SetNotification(rows, user, chat, muted, until);
      && |rows'| == |rows|
      && forall i :: 0 <= i < |rows| ==>
        rows'[i] == if rows[i].user == user && rows[i].chat == chat then rows[i].(muted := muted, until := until)
                    else rows[i]
  {
    if rows == [] {
    } else {
      SetNotificationRows(rows[1..], user, chat, muted, until);
    }
  }

  lemma {:induction false} FindNotificationRow(rows: seq<NotificationRow>, user: string, chat: Option<string>)
    ensures
      match FindNotification(rows, user, chat)
      case None => forall i :: 0 <= i < |rows| ==> !(rows[i].user == user && rows[i].chat == chat)
      case Some(row) => row in rows && row.user == user && row.chat == chat
  {
    if rows == [] {
    } else {
      FindNotificationRow(rows[1..], user, chat);
    }
  }

  // ---------------------------------------------------------------- one statement

  lemma InsertProfileKeeps(env: Environment, t: Tables, userId: string)
    requires CanonicalIds(env) && Valid(env, t) && ExecInsertProfile(env, t, userId).Ok?
    ensures
      var t' := ExecInsertProfile(env, t, userId).value;
      Valid(env, t') && t.profiles.Keys <= t'.profiles.Keys
  {
    var t' := ExecInsertProfile(env, t, userId).value;
    ReferencesGrow(t.contacts, t.profiles.Keys, Some(t.profiles.Keys), t'.profiles.Keys, Some(t'.profiles.Keys));
    ReferencesGrow(t.favorites, t.profiles.Keys, None, t'.profiles.Keys, None);
  }

  lemma SetProfileKeeps(env: Environment, t: Tables, userId: string,
                        firstName: string, lastName: string, username: string, bio: string)
    requires Valid(env, t) && ExecSetProfile(env, t, userId, firstName, lastName, username, bio).Ok?
    ensures
      var t' := ExecSetProfile(env, t, userId, firstName, lastName, username, bio).value;
      Valid(env, t') && t'.profiles.Keys == t.profiles.Keys
  {
    var t' := ExecSetProfile(env, t, userId, firstName, lastName, username, bio).value;
    assert t'.profiles.Keys == t.profiles.Keys;
  }

  lemma SetAvatarKeeps(env: Environment, t: Tables, userId: string, url: string)
    requires Valid(env, t) && ExecSetAvatar(env, t, userId, url).Ok?
    ensures
      var t' := ExecSetAvatar(env, t, userId, url).value;
      Valid(env, t') && t'.profiles.Keys == t.profiles.Keys
  {
    var t' := ExecSetAvatar(env, t, userId, url).value;
    assert t'.profiles.Keys == t.profiles.Keys;
  }

  /** A later clock does not disturb a table that was not changed. */
  lemma ClockAdvances(env: Environment, t: Tables)
    requires Valid(env, t)
    ensures Stamped(t.contacts, t.clock + 1) && Stamped(t.favorites, t.clock + 1)
    ensures ValidNotifications(t.notifications, t.clock + 1, t.profiles.Keys)
  {
  }

  lemma ContactsKeep(env: Environment, t: Tables, rows: seq<Row<Option<string>>>, clock: nat)
    requires Valid(env, t) && t.clock <= clock <= t.clock + 1
    requires UniqueKeys(rows) && Stamped(rows, clock) && References(rows, t.profiles.Keys, Some(t.profiles.Keys))
    ensures Valid(env, t.(contacts := rows, clock := clock))
  {
    ClockAdvances(env, t);
  }

  lemma FavoritesKeep(env: Environment, t: Tables, rows: seq<Row<()>>, clock: nat)
    requires Valid(env, t) && t.clock <= clock <= t.clock + 1
    requires UniqueKeys(rows) && Stamped(rows, clock) && References(rows, t.profiles.Keys, None)
    ensures Valid(env, t.(favorites := rows, clock := clock))
  {
    ClockAdvances(env, t);
  }

  lemma PutContactKeeps(env: Environment, t: Tables, ownerId: string, contactId: string, alias: string)
    requires Valid(env, t) && ExecPutContact(env, t, ownerId, contactId, alias).Ok?
    ensures
      var t' := ExecPutContact(env, t, ownerId, contactId, alias).value;
      Valid(env, t') && t'.profiles == t.profiles
  {
    var users := t.profiles.Keys;
    var owner, contact := env.id(ownerId).key, env.id(contactId).key;
    hide UniqueKeys, Stamped, References, ValidNotifications, DistinctUsernames, Has, SetData;
    if Has(t.contacts, owner, contact) {
      SetDataKeeps(t.contacts, owner, contact, Some(alias), t.clock, users, Some(users));
      ContactsKeep(env, t, SetData(t.contacts, owner, contact, Some(alias)), t.clock);
    } else {
      var row := Row(owner, contact, Some(alias), t.clock);
      AppendKeeps(t.contacts, row, users, Some(users));
      ContactsKeep(env, t, t.contacts + [row], t.clock + 1);
    }
  }

  lemma DropContactKeeps(env: Environment, t: Tables, ownerId: string, contactId: string)
    requires Valid(env, t) && ExecDropContact(env, t, ownerId, contactId).Ok?
    ensures
      var t' := ExecDropContact(env, t, ownerId, contactId).value;
      Valid(env, t') && t'.profiles == t.profiles
  {
    var users := t.profiles.Keys;
    hide UniqueKeys, Stamped, References, ValidNotifications, DistinctUsernames, Without;
    if env.id(ownerId).Id? && env.id(contactId).Id? {
      var owner, contact := env.id(ownerId).key, env.id(contactId).key;
      WithoutKeeps(t.contacts, owner, contact, t.clock, users, Some(users));
      ContactsKeep(env, t, Without(t.contacts, owner, contact), t.clock);
    }
  }

  lemma PutFavoriteKeeps(env: Environment, t: Tables, userId: string, chatId: string)
    requires Valid(env, t) && ExecPutFavorite(env, t, userId, chatId).Ok?
    ensures
      var t' := ExecPutFavorite(env, t, userId, chatId).value;
      Valid(env, t') && t'.profiles == t.profiles
  {
    hide UniqueKeys, Stamped, References, ValidNotifications, DistinctUsernames, Has;
    var row := Row(env.id(userId).key, env.id(chatId).key, (), t.clock);
    if !Has(t.favorites, row.owner, row.item) {
      AppendKeeps(t.favorites, row, t.profiles.Keys, None);
      FavoritesKeep(env, t, t.favorites + [row], t.clock + 1);
    }
  }

  lemma DropFavoriteKeeps(env: Environment, t: Tables, userId: string, chatId: string)
    requires Valid(env, t) && ExecDropFavorite(env, t, userId, chatId).Ok?
    ensures
      var t' := ExecDropFavorite(env, t, userId, chatId).value;
      Valid(env, t') && t'.profiles == t.profiles
  {
    hide UniqueKeys, Stamped, References, ValidNotifications, DistinctUsernames, Without;
    if env.id(userId).Id? && env.id(chatId).Id? {
      var user, chat := env.id(userId).key, env.id(chatId).key;
      WithoutKeeps(t.favorites, user, chat, t.clock, t.profiles.Keys, None);
      FavoritesKeep(env, t, Without(t.favorites, user, chat), t.clock);
    }
  }

  lemma SetNotificationKeeps(rows: seq<NotificationRow>, user: string, chat: Option<string>,
                             muted: bool, until: Option<int>, clock: nat, users: set<string>)
    requires ValidNotifications(rows, clock, users)
    ensures ValidNotifications(SetNotification(rows, user, chat, muted, until), clock, users)
  {
    SetNotificationRows(rows, user, chat, muted, until);
  }

  lemma AddNotificationKeeps(rows: seq<NotificationRow>, row: NotificationRow, users: set<string>)
    requires ValidNotifications(rows, row.id, users)
    requires FindNotification(rows, row.user, row.chat).None? && row.user in users
    ensures ValidNotifications(rows + [row], row.id + 1, users)
  {
    FindNotificationRow(rows, row.user, row.chat);
  }

  lemma NotificationsKeep(env: Environment, t: Tables, c: Command)
    requires Valid(env, t) && c.PutNotification? && Exec(env, t, c).Ok?
    ensures Valid(env, Exec(env, t, c).value) && Exec(env, t, c).value.profiles == t.profiles
  {
    ClockAdvances(env, t);
    hide UniqueKeys, Stamped, References, ValidNotifications, FindNotification, SetNotification;
    var user, chat := env.id(c.userId).key, Some(env.id(c.chatId).key);
    if FindNotification(t.notifications, user, chat).Some? {
      SetNotificationKeeps(t.notifications, user, chat, c.muted, c.until, t.clock, t.profiles.Keys);
    } else {
      AddNotificationKeeps(t.notifications, NotificationRow(t.clock, user, chat, c.muted, c.until), t.profiles.Keys);
    }
  }

  /** Every successful statement keeps all constraints of the schema, and no profile is lost. */
  lemma ExecKeeps(env: Environment, t: Tables, c: Command)
    requires CanonicalIds(env) && Valid(env, t) && Exec(env, t, c).Ok?
    ensures Valid(env, Exec(env, t, c).value) && t.profiles.Keys <= Exec(env, t, c).value.profiles.Keys
  {
    match c
    case InsertProfile(userId) => InsertProfileKeeps(env, t, userId);
    case SetProfile(userId, firstName, lastName, username, bio) =>
      SetProfileKeeps(env, t, userId, firstName, lastName, username, bio);
    case SetAvatar(userId, url) => SetAvatarKeeps(env, t, userId, url);
    case PutContact(ownerId, contactId, alias) => PutContactKeeps(env, t, ownerId, contactId, alias);
    case DropContact(ownerId, contactId) => DropContactKeeps(env, t, ownerId, contactId);
    case PutFavorite(userId, chatId) => PutFavoriteKeeps(env, t, userId, chatId);
    case DropFavorite(userId, chatId) => DropFavoriteKeeps(env, t, userId, chatId);
    case PutPrivacy(_, _) =>
    case PutNotification(_, _, _, _) => NotificationsKeep(env, t, c);
  }

  // ---------------------------------------------------------------- one request

  /** A request either leaves the tables alone or has the effect of one successful statement. */
  lemma PerformIsStatement(env: Environment, t: Tables, r: Request, plan: Plan)
    requires ActsFor(plan, UserOf(r))
    ensures
      var (t', response) := Perform(env, t, r, plan);
      && (response.status >= 400 ==> t' == t)
      && (t' == t || exists c :: Exec(env, t, c) == Ok(t'))
  {
  }

  /** Every request keeps the constraints, loses no profile, and changes nothing if it is answered by an error. */
  lemma RequestKeeps(sv: Service, t: Tables, r: Request)
    requires CanonicalIds(sv.env) && Valid(sv.env, t)
    ensures
      var (t', response) := Serve(sv, t, r);
      && Valid(sv.env, t')
      && t.profiles.Keys <= t'.profiles.Keys
      && (response.status >= 400 ==> t' == t)
  {
    PerformIsStatement(sv.env, t, r, PlanFor(sv, r));
    var t' := Serve(sv, t, r).0;
    if t' != t {
      var c :| Exec(sv.env, t, c) == Ok(t');
      ExecKeeps(sv.env, t, c);
    }
  }

  // ---------------------------------------------------------------- every history

  lemma {:induction false} HistoryKeeps(sv: Service, history: seq<Request>)
    requires CanonicalIds(sv.env)
    ensures Valid(sv.env, After(sv, history))
  {
    if history == [] {
    } else {
      var n := |history| - 1;
      HistoryKeeps(sv, history[..n]);
      RequestKeeps(sv, After(sv, history[..n]), history[n]);
    }
  }

  lemma AfterNext(sv: Service, history: seq<Request>, r: Request)
    ensures After(sv, history + [r]) == Serve(sv, After(sv, history), r).0
  {
    assert (history + [r])[..|history|] == history;
  }

  /** Chat ids may be NULL in the schema; no statement of the program writes one. */
  ghost predicate ChatsNamed(rows: seq<NotificationRow>)
  {
    forall i :: 0 <= i < |rows| ==> rows[i].chat.Some?
  }

  lemma ExecNamesChats(env: Environment, t: Tables, c: Command)
    requires Exec(env, t, c).Ok? && ChatsNamed(t.notifications)
    ensures ChatsNamed(Exec(env, t, c).value.notifications)
  {
    if c.PutNotification? {
      SetNotificationRows(t.notifications, env.id(c.userId).key, Some(env.id(c.chatId).key), c.muted, c.until);
    }
  }

  lemma {:induction false} HistoryNamesChats(sv: Service, history: seq<Request>)
    ensures ChatsNamed(After(sv, history).notifications)
  {
    if history == [] {
    } else {
      hide PlanFor, Perform, Exec, ChatsNamed;
      var n := |history| - 1;
      var t, r := After(sv, history[..n]), history[n];
      HistoryNamesChats(sv, history[..n]);
      PerformIsStatement(sv.env, t, r, PlanFor(sv, r));
      var t' := After(sv, history);
      if t' != t {
        var c :| Exec(sv.env, t, c) == Ok(t');
        ExecNamesChats(sv.env, t, c);
      }
    }
  }

  /** Further requests, served from the store that a history left, make a longer history. */
  lemma {:induction false} RunExtends(sv: Service, past: seq<Request>, requests: seq<Request>)
    ensures Run(sv, After(sv, past), requests) == After(sv, past + requests)
    decreases |requests|
  {
    hide Serve;
    if requests == [] {
      assert past + requests == past;
    } else {
      var n := |requests| - 1;
      RunExtends(sv, past, requests[..n]);
      assert past + requests == past + requests[..n] + [requests[n]];
      AfterNext(sv, past + requests[..n], requests[n]);
    }
  }

  lemma RunNext(sv: Service, t: Tables, requests: seq<Request>, r: Request)
    ensures Run(sv, t, requests + [r]) == Serve(sv, Run(sv, t, requests), r).0
  {
    assert (requests + [r])[..|requests|] == requests;
  }

  /** Profiles are never lost. */
  lemma {:induction false} ProfilesGrow(sv: Service, history: seq<Request>, more: seq<Request>)
    requires CanonicalIds(sv.env)
    ensures After(sv, history).profiles.Keys <= After(sv, history + more).profiles.Keys
    decreases |more|
  {
    hide *;
    if more == [] {
      assert history + more == history;
    } else {
      var n := |more| - 1;
      ProfilesGrow(sv, history, more[..n]);
      assert history + more == history + more[..n] + [more[n]];
      AfterNext(sv, history + more[..n], more[n]);
      HistoryKeeps(sv, history + more[..n]);
      RequestKeeps(sv, After(sv, history + more[..n]), more[n]);
    }
  }

  /** After every history: keys are unique and every reference names an existing profile. */
  lemma TablesAreConsistent(sv: Service, history: seq<Request>)
    requires CanonicalIds(sv.env)
    ensures
      var t := After(sv, history);
      && (forall i, j :: 0 <= i < j < |t.contacts| ==>
            !(t.contacts[i].owner == t.contacts[j].owner && t.contacts[i].item == t.contacts[j].item))
      && (forall i :: 0 <= i < |t.contacts| ==>
            t.contacts[i].owner in t.profiles && t.contacts[i].item in t.profiles)
      && (forall i, j :: 0 <= i < j < |t.favorites| ==>
            !(t.favorites[i].owner == t.favorites[j].owner && t.favorites[i].item == t.favorites[j].item))
      && (forall i :: 0 <= i < |t.favorites| ==> t.favorites[i].owner in t.profiles)
      && (forall user :: user in t.privacy ==> user in t.profiles)
      && (forall i, j :: 0 <= i < j < |t.notifications| ==>
            !(t.notifications[i].user == t.notifications[j].user && t.notifications[i].chat == t.notifications[j].chat))
      && (forall i :: 0 <= i < |t.notifications| ==> t.notifications[i].user in t.profiles)
  {
    HistoryKeeps(sv, history);
    var t := After(sv, history);
    hide After;
    ConstraintsMean(t.contacts, t.clock, t.profiles.Keys, Some(t.profiles.Keys));
    ConstraintsMean(t.favorites, t.clock, t.profiles.Keys, None);
    HistoryNamesChats(sv, history);
  }
}
