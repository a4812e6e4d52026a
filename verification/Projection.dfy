/**
 Users do not interfere. What a user sees of contacts, favourites, privacy, notifications and
 avatar after any history is what it would be without the requests of all other users,
 except those that create profiles.
 */
module Projection {
  import opened Outcomes
  import opened OwnedRows
  import opened Database
  import opened Requests
  import opened Invariants

  datatype ChatEntry = ChatEntry(chat: Option<string>, muted: bool, until: Option<int>)

  /** A user's rows, without the creation times and generated ids that count every user's inserts. */
  datatype View = View(
    contacts: seq<Entry<Option<string>>>,
    favorites: seq<Entry<()>>,
    privacy: Option<PrivacyRow>,
    notifications: seq<ChatEntry>,
    avatar: Option<string>)

  function ChatEntries(rows: seq<NotificationRow>, user: string): seq<ChatEntry>
  {
    if rows == [] then []
    else if rows[0].user == user
    then [ChatEntry(rows[0].chat, rows[0].muted, rows[0].until)] + ChatEntries(rows[1..], user)
    else ChatEntries(rows[1..], user)
  }

  function ViewFor(t: Tables, v: string): View
  {
    View(Entries(t.contacts, v), Entries(t.favorites, v), if v in t.privacy then Some(t.privacy[v]) else None,
         ChatEntries(t.notifications, v), if v in t.profiles then t.profiles[v].avatarUrl else None)
  }

  ghost predicate Alike(t: Tables, s: Tables, v: string)
  {
    ViewFor(t, v) == ViewFor(s, v) && t.profiles.Keys == s.profiles.Keys
  }

  /** The requests of one user, and all profile creations. */
  predicate Concerns(sv: Service, v: string, r: Request)
  {
    IsProfileCreation(r) || sv.env.id(UserOf(r)) == Id(v)
  }

  function Only(sv: Service, v: string, history: seq<Request>): seq<Request>
  {
    if history == [] then [] else
    var before := Only(sv, v, history[..|history| - 1]);
    var r := history[|history| - 1];
    if Concerns(sv, v, r) then before + [r] else before
  }

  // ---------------------------------------------------------------- notification rows

  function FindChat(entries: seq<ChatEntry>, chat: Option<string>): Option<ChatEntry>
  {
    if entries == [] then None
    else if entries[0].chat == chat then Some(entries[0])
    else FindChat(entries[1..], chat)
  }

  /** A row without its generated id. */
  function EntryOf(row: Option<NotificationRow>): Option<ChatEntry>
  {
    match row
    case Some(found) => Some(ChatEntry(found.chat, found.muted, found.until))
    case None => None
  }

  function SetChat(entries: seq<ChatEntry>, chat: Option<string>, muted: bool, until: Option<int>): seq<ChatEntry>
  {
    if entries == [] then []
    else [if entries[0].chat == chat then ChatEntry(chat, muted, until) else entries[0]]
         + SetChat(entries[1..], chat, muted, until)
  }

  lemma {:induction false} FindIsFindChat(rows: seq<NotificationRow>, user: string, chat: Option<string>)
    ensures EntryOf(FindNotification(rows, user, chat)) == FindChat(ChatEntries(rows, user), chat)
  {
    if rows == [] {
    } else {
      FindIsFindChat(rows[1..], user, chat);
      var e := ChatEntry(rows[0].chat, rows[0].muted, rows[0].until);
      assert ([e] + ChatEntries(rows[1..], user))[1..] == ChatEntries(rows[1..], user);
    }
  }

  lemma {:induction false} SetIsSetChat(rows: seq<NotificationRow>, user: string, chat: Option<string>,
                                        muted: bool, until: Option<int>, who: string)
    ensures ChatEntries(SetNotification(rows, user, chat, muted, until), who)
         == if who == user then SetChat(ChatEntries(rows, who), chat, muted, until) else ChatEntries(rows, who)
  {
    if rows == [] {
    } else {
      SetIsSetChat(rows[1..], user, chat, muted, until, who);
      var e := ChatEntry(rows[0].chat, rows[0].muted, rows[0].until);
      assert ([e] + ChatEntries(rows[1..], who))[1..] == ChatEntries(rows[1..], who);
      var rows' := SetNotification(rows, user, chat, muted, until);
      assert rows'[1..] == SetNotification(rows[1..], user, chat, muted, until);
    }
  }

  lemma {:induction false} ChatEntriesAppend(rows: seq<NotificationRow>, row: NotificationRow, who: string)
    ensures ChatEntries(rows + [row], who)
         == if row.user == who then ChatEntries(rows, who) + [ChatEntry(row.chat, row.muted, row.until)]
            else ChatEntries(rows, who)
  {
    if rows == [] {
      assert rows + [row] == [row];
      assert [row][1..] == [];
    } else {
      ChatEntriesAppend(rows[1..], row, who);
      assert (rows + [row])[1..] == rows[1..] + [row];
    }
  }

  // ---------------------------------------------------------------- one statement

  lemma OthersLeaveContacts(env: Environment, t: Tables, c: Command, v: string)
    requires (c.PutContact? || c.DropContact?) && Exec(env, t, c).Ok? && env.id(c.ownerId) != Id(v)
    ensures Alike(t, Exec(env, t, c).value, v)
  {
    hide Entries, Has, SetData, Without, ChatEntries;
    if env.id(c.ownerId).Id? && env.id(c.contactId).Id? {
      var owner, contact := env.id(c.ownerId).key, env.id(c.contactId).key;
      if c.PutContact? {
        EntriesOfSetData(t.contacts, owner, contact, Some(c.alias), v);
        EntriesOfAppend(t.contacts, Row(owner, contact, Some(c.alias), t.clock), v);
      } else {
        EntriesOfWithout(t.contacts, owner, contact, v);
      }
    }
  }

  lemma OthersLeaveFavorites(env: Environment, t: Tables, c: Command, v: string)
    requires (c.PutFavorite? || c.DropFavorite?) && Exec(env, t, c).Ok? && env.id(c.userId) != Id(v)
    ensures Alike(t, Exec(env, t, c).value, v)
  {
    hide Entries, Has, Without, ChatEntries;
    if env.id(c.userId).Id? && env.id(c.chatId).Id? {
      var user, chat := env.id(c.userId).key, env.id(c.chatId).key;
      if c.PutFavorite? {
        EntriesOfAppend(t.favorites, Row(user, chat, (), t.clock), v);
      } else {
        EntriesOfWithout(t.favorites, user, chat, v);
      }
    }
  }

  lemma OthersLeaveNotifications(env: Environment, t: Tables, c: Command, v: string)
    requires c.PutNotification? && Exec(env, t, c).Ok? && env.id(c.userId) != Id(v)
    ensures Alike(t, Exec(env, t, c).value, v)
  {
    var user, chat := env.id(c.userId).key, Some(env.id(c.chatId).key);
    SetIsSetChat(t.notifications, user, chat, c.muted, c.until, v);
    ChatEntriesAppend(t.notifications, NotificationRow(t.clock, user, chat, c.muted, c.until), v);
  }

  /** A profile update changes text fields only. */
  lemma SetProfileLeaves(env: Environment, t: Tables, c: Command, v: string)
    requires c.SetProfile? && Exec(env, t, c).Ok?
    ensures Alike(t, Exec(env, t, c).value, v)
  {
    assert Exec(env, t, c).value.profiles.Keys == t.profiles.Keys;
  }

  /** A statement for another user leaves a user's view and the set of profiles alone. */
  lemma OthersLeave(env: Environment, t: Tables, c: Command, v: string)
    requires Exec(env, t, c).Ok? && !c.InsertProfile? && env.id(OwnerOf(c)) != Id(v)
    ensures Alike(t, Exec(env, t, c).value, v)
  {
    match c
    case PutContact(_, _, _) => OthersLeaveContacts(env, t, c, v);
    case DropContact(_, _) => OthersLeaveContacts(env, t, c, v);
    case PutFavorite(_, _) => OthersLeaveFavorites(env, t, c, v);
    case DropFavorite(_, _) => OthersLeaveFavorites(env, t, c, v);
    case PutNotification(_, _, _, _) => OthersLeaveNotifications(env, t, c, v);
    case SetProfile(_, _, _, _, _) => SetProfileLeaves(env, t, c, v);
    case SetAvatar(_, _) => assert Exec(env, t, c).value.profiles.Keys == t.profiles.Keys;
    case PutPrivacy(_, _) =>
  }

  /** Same success, or the same exception. */
  ghost predicate SameOutcome(a: Result<Tables>, b: Result<Tables>, v: string)
  {
    match (a, b)
    case (Ok(t), Ok(s)) => Alike(t, s, v)
    case (Throw(x), Throw(y)) => x == y
    case _ => false
  }

  /** Statements on the rows of one owner depend on, and change, that owner's entries only. */
  lemma OwnRowsAlike<T>(t: seq<Row<T>>, s: seq<Row<T>>, v: string, item: string, data: T, i: nat, j: nat)
    requires Entries(t, v) == Entries(s, v)
    ensures Has(t, v, item) == Has(s, v, item)
    ensures Entries(SetData(t, v, item, data), v) == Entries(SetData(s, v, item, data), v)
    ensures Entries(Without(t, v, item), v) == Entries(Without(s, v, item), v)
    ensures Entries(t + [Row(v, item, data, i)], v) == Entries(s + [Row(v, item, data, j)], v)
  {
    HasIsHolds(t, v, item);
    HasIsHolds(s, v, item);
    EntriesOfSetData(t, v, item, data, v);
    EntriesOfSetData(s, v, item, data, v);
    EntriesOfWithout(t, v, item, v);
    EntriesOfWithout(s, v, item, v);
    EntriesOfAppend(t, Row(v, item, data, i), v);
    EntriesOfAppend(s, Row(v, item, data, j), v);
  }

  lemma OwnContactsAlike(env: Environment, t: Tables, s: Tables, c: Command, v: string)
    requires Alike(t, s, v) && (c.PutContact? || c.DropContact?) && env.id(c.ownerId) == Id(v)
    ensures SameOutcome(Exec(env, t, c), Exec(env, s, c), v)
  {
    hide Entries, Has, SetData, Without, ChatEntries;
    if env.id(c.contactId).Id? {
      var alias := if c.PutContact? then Some(c.alias) else None;
      OwnRowsAlike(t.contacts, s.contacts, v, env.id(c.contactId).key, alias, t.clock, s.clock);
    }
  }

  lemma OwnFavoritesAlike(env: Environment, t: Tables, s: Tables, c: Command, v: string)
    requires Alike(t, s, v) && (c.PutFavorite? || c.DropFavorite?) && env.id(c.userId) == Id(v)
    ensures SameOutcome(Exec(env, t, c), Exec(env, s, c), v)
  {
    hide Entries, Has, Without, ChatEntries;
    if env.id(c.chatId).Id? {
      OwnRowsAlike(t.favorites, s.favorites, v, env.id(c.chatId).key, (), t.clock, s.clock);
    }
  }

  lemma OwnRecordsAlike(env: Environment, t: Tables, s: Tables, c: Command, v: string)
    requires Alike(t, s, v) && (c.PutPrivacy? || c.SetAvatar?) && env.id(c.userId) == Id(v)
    ensures SameOutcome(Exec(env, t, c), Exec(env, s, c), v)
  {
    assert v in t.privacy <==> ViewFor(t, v).privacy.Some?;
    assert v in s.privacy <==> ViewFor(s, v).privacy.Some?;
    if c.SetAvatar? {
      assert Exec(env, t, c).value.profiles.Keys == t.profiles.Keys;
      assert Exec(env, s, c).value.profiles.Keys == s.profiles.Keys;
    }
  }

  lemma NewProfileAlike(env: Environment, t: Tables, s: Tables, c: Command, v: string)
    requires Alike(t, s, v) && c.InsertProfile?
    ensures SameOutcome(Exec(env, t, c), Exec(env, s, c), v)
  {
    if env.id(c.userId).Id? {
      assert Exec(env, t, c).value.profiles.Keys == t.profiles.Keys + {env.id(c.userId).key};
      assert Exec(env, s, c).value.profiles.Keys == s.profiles.Keys + {env.id(c.userId).key};
    }
  }

  lemma OwnNotificationAlike(t: seq<NotificationRow>, s: seq<NotificationRow>, v: string, chat: Option<string>,
                             muted: bool, until: Option<int>, i: nat, j: nat)
    requires ChatEntries(t, v) == ChatEntries(s, v)
    ensures EntryOf(FindNotification(t, v, chat)) == EntryOf(FindNotification(s, v, chat))
    ensures ChatEntries(SetNotification(t, v, chat, muted, until), v)
         == ChatEntries(SetNotification(s, v, chat, muted, until), v)
    ensures ChatEntries(t + [NotificationRow(i, v, chat, muted, until)], v)
         == ChatEntries(s + [NotificationRow(j, v, chat, muted, until)], v)
  {
    FindIsFindChat(t, v, chat);
    FindIsFindChat(s, v, chat);
    SetIsSetChat(t, v, chat, muted, until, v);
    SetIsSetChat(s, v, chat, muted, until, v);
    ChatEntriesAppend(t, NotificationRow(i, v, chat, muted, until), v);
    ChatEntriesAppend(s, NotificationRow(j, v, chat, muted, until), v);
  }

  /** A statement for the user himself, or a new profile, has the same outcome on alike tables. */
  lemma OwnAlike(env: Environment, t: Tables, s: Tables, c: Command, v: string)
    requires Alike(t, s, v) && !c.SetProfile?
    requires c.InsertProfile? || env.id(OwnerOf(c)) == Id(v)
    ensures SameOutcome(Exec(env, t, c), Exec(env, s, c), v)
  {
    match c
    case PutContact(_, _, _) => OwnContactsAlike(env, t, s, c, v);
    case DropContact(_, _) => OwnContactsAlike(env, t, s, c, v);
    case PutFavorite(_, _) => OwnFavoritesAlike(env, t, s, c, v);
    case DropFavorite(_, _) => OwnFavoritesAlike(env, t, s, c, v);
    case PutNotification(_, chatId, muted, until) =>
      if env.id(chatId).Id? {
        OwnNotificationAlike(t.notifications, s.notifications, v, Some(env.id(chatId).key), muted, until,
                             t.clock, s.clock);
      }
    case PutPrivacy(_, _) => OwnRecordsAlike(env, t, s, c, v);
    case SetAvatar(_, _) => OwnRecordsAlike(env, t, s, c, v);
    case InsertProfile(_) => NewProfileAlike(env, t, s, c, v);
  }

  // ---------------------------------------------------------------- one request

  /** A PATCH, whoever sends it and however it ends, changes no view. */
  lemma AmendLeaves(env: Environment, t: Tables, r: Request, plan: Plan, v: string)
    requires plan.Amend?
    ensures Alike(t, Perform(env, t, r, plan).0, v)
  {
    var t' := Perform(env, t, r, plan).0;
    if t' != t {
      var p := SelectProfile(env, t, plan.userId).value;
      SetProfileLeaves(env, t, UpdateOf(Overlay(p, plan.patch.value)), v);
    }
  }

  lemma PerformLeaves(env: Environment, t: Tables, r: Request, plan: Plan, v: string)
    requires ActsFor(plan, UserOf(r)) && env.id(UserOf(r)) != Id(v) && !Creates(plan)
    ensures Alike(t, Perform(env, t, r, plan).0, v)
  {
    if plan.Modify? {
      if Exec(env, t, plan.command).Ok? {
        OthersLeave(env, t, plan.command, v);
      }
    } else if plan.Amend? {
      AmendLeaves(env, t, r, plan, v);
    }
  }

  /** A request that does not concern a user leaves the user's view alone. */
  lemma OtherRequestLeaves(sv: Service, t: Tables, r: Request, v: string)
    requires !Concerns(sv, v, r)
    ensures Alike(t, Serve(sv, t, r).0, v)
  {
    var plan := PlanFor(sv, r);
    PerformLeaves(sv.env, t, r, plan, v);
  }

  /** A request that does concern the user takes alike tables to alike tables. */
  lemma OwnRequestAlike(env: Environment, t: Tables, s: Tables, r: Request, plan: Plan, v: string)
    requires Alike(t, s, v) && ActsFor(plan, UserOf(r))
    requires Creates(plan) || plan.Reply? || env.id(UserOf(r)) == Id(v)
    ensures Alike(Perform(env, t, r, plan).0, Perform(env, s, r, plan).0, v)
    ensures plan.Modify? ==> Perform(env, t, r, plan).1 == Perform(env, s, r, plan).1
  {
    hide ViewFor, Exec, PerformAmend, SelectNotification, SelectContacts, SelectFavorites, SelectPrivacy, SelectProfile;
    if plan.Amend? {
      AmendLeaves(env, t, r, plan, v);
      AmendLeaves(env, s, r, plan, v);
    } else if plan.Modify? {
      OwnAlike(env, t, s, plan.command, v);
    }
  }

  // ---------------------------------------------------------------- every history

  lemma OwnServeAlike(sv: Service, t: Tables, s: Tables, r: Request, v: string)
    requires Alike(t, s, v) && Concerns(sv, v, r)
    ensures Alike(Serve(sv, t, r).0, Serve(sv, s, r).0, v)
  {
    OwnRequestAlike(sv.env, t, s, r, PlanFor(sv, r), v);
  }

  /** Deleting the requests of all others from a history does not change what a user sees after it. */
  lemma {:induction false} OthersDoNotMatter(sv: Service, v: string, history: seq<Request>)
    ensures Alike(After(sv, history), After(sv, Only(sv, v, history)), v)
  {
    hide Serve, ViewFor;
    if history == [] {
    } else {
      var n := |history| - 1;
      var r := history[n];
      OthersDoNotMatter(sv, v, history[..n]);
      var t, s := After(sv, history[..n]), After(sv, Only(sv, v, history[..n]));
      if Concerns(sv, v, r) {
        AfterNext(sv, Only(sv, v, history[..n]), r);
        OwnServeAlike(sv, t, s, r, v);
      } else {
        OtherRequestLeaves(sv, t, r, v);
      }
    }
  }

  // ---------------------------------------------------------------- what the user is answered

  /** Requests whose answer is made of a user's view. */
  predicate AnswersFromView(plan: Plan)
  {
    plan.FetchContacts? || plan.FetchFavorites? || plan.FetchPrivacy? || plan.Modify?
  }

  /** The same answer, or the same notification settings but for the generated id of their row. */
  predicate SameUpToId(a: Response, b: Response)
  {
    if a.payload.NotificationView? && b.payload.NotificationView?
    then a.status == b.status && a.payload.(id := None) == b.payload.(id := None)
         && (a.payload.id.Some? <==> b.payload.id.Some?)
    else a == b
  }

  lemma SameSetting(env: Environment, t: Tables, s: Tables, userId: string, chatId: Option<string>, v: string)
    requires ChatEntries(t.notifications, v) == ChatEntries(s.notifications, v) && env.id(userId) == Id(v)
    ensures
      match (SelectNotification(env, t, userId, chatId), SelectNotification(env, s, userId, chatId))
      case (Ok(a), Ok(b)) => a.(id := None) == b.(id := None) && (a.id.Some? <==> b.id.Some?)
      case (Throw(a), Throw(b)) => a == b
      case _ => false
  {
    hide ChatEntries, FindChat, FindNotification;
    var chat := if chatId.Some? && env.id(chatId.value).Id? then Some(env.id(chatId.value).key) else None;
    FindIsFindChat(t.notifications, v, chat);
    FindIsFindChat(s.notifications, v, chat);
    FindNotificationRow(t.notifications, v, chat);
    FindNotificationRow(s.notifications, v, chat);
  }

  lemma SameNotifications(env: Environment, t: Tables, s: Tables, r: Request, plan: Plan, v: string)
    requires Alike(t, s, v) && env.id(UserOf(r)) == Id(v)
    requires ActsFor(plan, UserOf(r)) && (plan.FetchGlobal? || plan.FetchChat?)
    ensures SameUpToId(Perform(env, t, r, plan).1, Perform(env, s, r, plan).1)
  {
    assert ViewFor(t, v).notifications == ViewFor(s, v).notifications;
    hide SelectNotification, ViewFor;
    SameSetting(env, t, s, UserOf(r), None, v);
    if plan.FetchChat? {
      SameSetting(env, t, s, UserOf(r), Some(plan.chatId), v);
    }
  }

  lemma SameListing<T>(t: seq<Row<T>>, i: nat, s: seq<Row<T>>, j: nat, v: string)
    requires Stamped(t, i) && Stamped(s, j) && Entries(t, v) == Entries(s, v)
    ensures
      var a, b := NewestFirst(Owned(t, v)), NewestFirst(Owned(s, v));
      && |a| == |b|
      && forall k :: 0 <= k < |a| ==> a[k].owner == b[k].owner && a[k].item == b[k].item && a[k].data == b[k].data
  {
    ListingIsBackwards(t, i, v);
    ListingIsBackwards(s, j, v);
    var a, b := NewestFirst(Owned(t, v)), NewestFirst(Owned(s, v));
    assert |a| == |Strip(a)| == |b|;
    forall k | 0 <= k < |a| ensures a[k].item == b[k].item && a[k].data == b[k].data {
      assert Strip(a)[k] == Strip(b)[k];
    }
  }

  lemma SamePrivacy(env: Environment, t: Tables, s: Tables, userId: string, v: string)
    requires Alike(t, s, v) && env.id(userId) == Id(v)
    ensures SelectPrivacy(env, t, userId) == SelectPrivacy(env, s, userId)
  {
    assert v in t.privacy <==> ViewFor(t, v).privacy.Some?;
    assert v in s.privacy <==> ViewFor(s, v).privacy.Some?;
  }

  lemma SameAnswer(env: Environment, t: Tables, s: Tables, r: Request, plan: Plan, v: string)
    requires Valid(env, t) && Valid(env, s) && Alike(t, s, v)
    requires ActsFor(plan, UserOf(r)) && env.id(UserOf(r)) == Id(v) && AnswersFromView(plan)
    ensures Perform(env, t, r, plan).1 == Perform(env, s, r, plan).1
  {
    hide Exec, PerformAmend, SelectNotification, SelectProfile, SelectPrivacy;
    match plan
    case FetchContacts(_) =>
      SameListing(t.contacts, t.clock, s.contacts, s.clock, v);
      assert ContactItems(NewestFirst(Owned(t.contacts, v))) == ContactItems(NewestFirst(Owned(s.contacts, v)));
    case FetchFavorites(_) =>
      SameListing(t.favorites, t.clock, s.favorites, s.clock, v);
      assert FavoriteItems(NewestFirst(Owned(t.favorites, v))) == FavoriteItems(NewestFirst(Owned(s.favorites, v)));
    case FetchPrivacy(_) => SamePrivacy(env, t, s, UserOf(r), v);
    case Modify(_, _, _) => OwnRequestAlike(env, t, s, r, plan, v);
  }

  /** Nor does it change how the user's lists, settings and modifications are answered. */
  lemma OthersAreNotSeen(sv: Service, v: string, history: seq<Request>, r: Request)
    requires CanonicalIds(sv.env) && sv.env.id(UserOf(r)) == Id(v)
    ensures
      var plan := PlanFor(sv, r);
      var a, b := Serve(sv, After(sv, history), r).1, Serve(sv, After(sv, Only(sv, v, history)), r).1;
      && (AnswersFromView(plan) ==> a == b)
      && (plan.FetchGlobal? || plan.FetchChat? ==> SameUpToId(a, b))
  {
    hide PlanFor, Perform, After, ViewFor, Valid, SameUpToId;
    var t, s := After(sv, history), After(sv, Only(sv, v, history));
    var plan := PlanFor(sv, r);
    OthersDoNotMatter(sv, v, history);
    if AnswersFromView(plan) {
      HistoryKeeps(sv, history);
      HistoryKeeps(sv, Only(sv, v, history));
      SameAnswer(sv.env, t, s, r, plan, v);
    } else if plan.FetchGlobal? || plan.FetchChat? {
      SameNotifications(sv.env, t, s, r, plan, v);
    }
  }
}
