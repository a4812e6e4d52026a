/** Privacy and notification settings read back what the history wrote last. */
module SettingsHistory {
  import opened Outcomes
  import opened Database
  import opened Requests
  import opened Invariants
  import opened ListHistory

  // ---------------------------------------------------------------- notifications

  datatype Setting = Setting(muted: bool, until: Option<int>)

  /** What a successful statement sets for a user and chat. */
  function SettingBy(env: Environment, c: Command, user: string, chat: string): Option<Setting>
  {
    if c.PutNotification? && env.id(c.userId) == Id(user) && env.id(c.chatId) == Id(chat)
    then Some(Setting(c.muted, c.until)) else None
  }

  /** The last successful update of a user's settings for a chat. */
  function LastSetting(sv: Service, history: seq<Request>, user: string, chat: string): Option<Setting>
  {
    if history == [] then None else
    var n := |history| - 1;
    var r := history[n];
    var now := if Succeeded(sv, After(sv, history[..n]), r) then SettingBy(sv.env, PlanFor(sv, r).command, user, chat)
               else None;
    if now.Some? then now else LastSetting(sv, history[..n], user, chat)
  }

  function StoredSetting(rows: seq<NotificationRow>, user: string, chat: string): Option<Setting>
  {
    match FindNotification(rows, user, Some(chat))
    case Some(row) => Some(Setting(row.muted, row.until))
    case None => None
  }

  lemma {:induction false} FindAfterSet(rows: seq<NotificationRow>, user: string, chat: string,
                                        muted: bool, until: Option<int>, who: string, what: string)
    ensures StoredSetting(SetNotification(rows, user, Some(chat), muted, until), who, what)
         == if who == user && what == chat && StoredSetting(rows, who, what).Some? then Some(Setting(muted, until))
            else StoredSetting(rows, who, what)
  {
    if rows == [] {
    } else {
      FindAfterSet(rows[1..], user, chat, muted, until, who, what);
      var rows' := SetNotification(rows, user, Some(chat), muted, until);
      assert rows'[1..] == SetNotification(rows[1..], user, Some(chat), muted, until);
    }
  }

  lemma {:induction false} FindAfterAppend(rows: seq<NotificationRow>, row: NotificationRow, who: string, what: string)
    ensures StoredSetting(rows + [row], who, what)
         == if StoredSetting(rows, who, what).Some? then StoredSetting(rows, who, what)
            else if row.user == who && row.chat == Some(what) then Some(Setting(row.muted, row.until))
            else None
  {
    if rows == [] {
      assert rows + [row] == [row] && [row][1..] == [];
    } else {
      FindAfterAppend(rows[1..], row, who, what);
      assert (rows + [row])[1..] == rows[1..] + [row];
    }
  }

  lemma NotificationsExec(env: Environment, t: Tables, c: Command, user: string, chat: string)
    requires Exec(env, t, c).Ok?
    ensures
      var now := SettingBy(env, c, user, chat);
      StoredSetting(Exec(env, t, c).value.notifications, user, chat)
      == if now.Some? then now else StoredSetting(t.notifications, user, chat)
  {
    if c.PutNotification? {
      var u, k := env.id(c.userId).key, env.id(c.chatId).key;
      FindAfterSet(t.notifications, u, k, c.muted, c.until, user, chat);
      FindAfterAppend(t.notifications, NotificationRow(t.clock, u, Some(k), c.muted, c.until), user, chat);
    }
  }

  lemma SettingsPerform(env: Environment, t: Tables, r: Request, plan: Plan)
    requires ActsFor(plan, UserOf(r))
    ensures
      var (t', response) := Perform(env, t, r, plan);
      if plan.Modify? && response.status < 400 then Exec(env, t, plan.command) == Ok(t')
      else t'.notifications == t.notifications && t'.privacy == t.privacy
  {
  }

  /** A request is its successful statement, or leaves both settings tables alone. */
  lemma SettingsStep(sv: Service, t: Tables, r: Request)
    ensures
      var t' := Serve(sv, t, r).0;
      if Succeeded(sv, t, r) then Exec(sv.env, t, PlanFor(sv, r).command) == Ok(t')
      else t'.notifications == t.notifications && t'.privacy == t.privacy
  {
    SettingsPerform(sv.env, t, r, PlanFor(sv, r));
  }

  lemma {:induction false} StoredIsLastSetting(sv: Service, history: seq<Request>, user: string, chat: string)
    ensures StoredSetting(After(sv, history).notifications, user, chat) == LastSetting(sv, history, user, chat)
  {
    if history == [] {
    } else {
      hide Serve, StoredSetting, SettingBy, Exec;
      var n := |history| - 1;
      var t, r := After(sv, history[..n]), history[n];
      StoredIsLastSetting(sv, history[..n], user, chat);
      SettingsStep(sv, t, r);
      if Succeeded(sv, t, r) {
        NotificationsExec(sv.env, t, PlanFor(sv, r).command, user, chat);
      }
    }
  }

  /** The rows of a NULL chat id, which the global settings are read from, are never written. */
  lemma NoGlobalRow(sv: Service, history: seq<Request>, user: string)
    ensures ChatsNamed(After(sv, history).notifications)
    ensures FindNotification(After(sv, history).notifications, user, None) == None
  {
    HistoryNamesChats(sv, history);
    FindNotificationRow(After(sv, history).notifications, user, None);
  }

  lemma GlobalAnswer(env: Environment, t: Tables, r: Request, plan: Plan)
    requires plan == FetchGlobal(UserOf(r)) && r.first.None? && !env.id(UserOf(r)).Rejected?
    requires env.id(UserOf(r)).Id? ==> FindNotification(t.notifications, env.id(UserOf(r)).key, None) == None
    ensures Perform(env, t, r, plan) == (t, Response(200, NotificationView(None, UserOf(r), Some(""), false, None)))
  {
  }

  /** So GET /notifications shows the unmuted default after every history, whatever was written. */
  lemma GlobalIsNeverSet(sv: Service, history: seq<Request>, r: Request)
    requires CanonicalIds(sv.env)
    ensures PlanFor(sv, r) == FetchGlobal(UserOf(r)) && r.first.None? && !sv.env.id(UserOf(r)).Rejected? ==>
      Serve(sv, After(sv, history), r)
      == (After(sv, history), Response(200, NotificationView(None, UserOf(r), Some(""), false, None)))
  {
    hide PlanFor, After;
    if PlanFor(sv, r) == FetchGlobal(UserOf(r)) && r.first.None? && !sv.env.id(UserOf(r)).Rejected? {
      if sv.env.id(UserOf(r)).Id? {
        NoGlobalRow(sv, history, sv.env.id(UserOf(r)).key);
      }
      GlobalAnswer(sv.env, After(sv, history), r, PlanFor(sv, r));
    }
  }

  /** When the SELECT for one chat throws: a lost connection or a malformed id, never a missing row. */
  predicate ChatSelectThrows(env: Environment, r: Request, userId: string, chatId: string)
  {
    r.first.Some? || env.id(userId).Rejected? || env.id(chatId).Rejected?
  }

  /** What a chat's GET must report: the last successful PUT. */
  function ChatSetting(sv: Service, history: seq<Request>, userId: string, chatId: string): Option<Setting>
  {
    var user, chat := sv.env.id(userId), sv.env.id(chatId);
    if user.Id? && chat.Id? then LastSetting(sv, history, user.key, chat.key) else None
  }

  /**
   The answer shows these settings of this user for this chat, or unmuted if there are none, and
   never a mute-until. Settings that exist have a generated id and name the user by his stored id.
   */
  ghost predicate ShowsSetting(env: Environment, response: Response, userId: string, chatId: string,
                               setting: Option<Setting>)
  {
    && response.status == 200 && response.payload.NotificationView?
    && response.payload.chatId == Some(chatId)
    && response.payload.muted == (if setting.Some? then setting.value.muted else false)
    && response.payload.mutedUntil == None
    && (response.payload.id.Some? <==> setting.Some?)
    && (if setting.Some? then Id(response.payload.owner) == env.id(userId) else response.payload.owner == userId)
  }

  lemma ChatAnswer(env: Environment, t: Tables, r: Request, chatId: string)
    requires env.id(UserOf(r)).Id? ==> FindNotification(t.notifications, env.id(UserOf(r)).key, None) == None
    ensures
      var (t', response) := Perform(env, t, r, FetchChat(UserOf(r), chatId));
      var user, chat := env.id(UserOf(r)), env.id(chatId);
      && t' == t
      && (if !ChatSelectThrows(env, r, UserOf(r), chatId) then
            ShowsSetting(env, response, UserOf(r), chatId,
              if user.Id? && chat.Id? then StoredSetting(t.notifications, user.key, chat.key) else None)
          else if r.second.None? && !user.Rejected? then ShowsSetting(env, response, UserOf(r), chatId, None)
          else response == Response(500, Error("failed to get settings")))
  {
    var user, chat := env.id(UserOf(r)), env.id(chatId);
    if user.Id? && chat.Id? {
      FindNotificationRow(t.notifications, user.key, Some(chat.key));
    }
  }

  /**
   Read after write for one chat. With the store answering, the GET reports the last successful
   PUT and never a mute-until. Exactly when its SELECT throws, the answer is that of the global
   settings, which are never set: unmuted if the second SELECT answers, else an error.
   */
  lemma ChatReadsLastWrite(sv: Service, history: seq<Request>, r: Request, chatId: string)
    requires CanonicalIds(sv.env)
    ensures PlanFor(sv, r) == FetchChat(UserOf(r), chatId) ==>
      var (t', response) := Serve(sv, After(sv, history), r);
      && t' == After(sv, history)
      && (if !ChatSelectThrows(sv.env, r, UserOf(r), chatId) then
            ShowsSetting(sv.env, response, UserOf(r), chatId, ChatSetting(sv, history, UserOf(r), chatId))
          else if r.second.None? && !sv.env.id(UserOf(r)).Rejected? then
            ShowsSetting(sv.env, response, UserOf(r), chatId, None)
          else response == Response(500, Error("failed to get settings")))
  {
    hide PlanFor, After, LastSetting, ShowsSetting;
    var user, chat := sv.env.id(UserOf(r)), sv.env.id(chatId);
    if user.Id? {
      NoGlobalRow(sv, history, user.key);
      if chat.Id? {
        StoredIsLastSetting(sv, history, user.key, chat.key);
      }
    }
    ChatAnswer(sv.env, After(sv, history), r, chatId);
  }

  lemma IdOfRow(sv: Service, history: seq<Request>, r: Request, chatId: string) returns (row: NotificationRow)
    requires PlanFor(sv, r) == FetchChat(UserOf(r), chatId) && r.first.None?
    requires
      var a := Serve(sv, After(sv, history), r).1.payload;
      a.NotificationView? && a.id.Some?
    ensures row in After(sv, history).notifications && row.chat.Some?
    ensures sv.env.id(UserOf(r)) == Id(row.user) && sv.env.id(chatId) == Id(row.chat.value)
    ensures Serve(sv, After(sv, history), r).1.payload.id == Some(row.id)
  {
    hide PlanFor, After;
    var t := After(sv, history);
    var user, chat := sv.env.id(UserOf(r)), sv.env.id(chatId);
    if user.Id? {
      NoGlobalRow(sv, history, user.key);
    }
    if user.Id? && chat.Id? {
      FindNotificationRow(t.notifications, user.key, Some(chat.key));
    }
    row := FindNotification(t.notifications, user.key, Some(chat.key)).value;
  }

  /** Generated ids identify settings: if two answers for a chat show the same id, user and chat are the same. */
  lemma IdsIdentify(sv: Service, history: seq<Request>, r: Request, r': Request, chatId: string, chatId': string)
    requires CanonicalIds(sv.env) && PlanFor(sv, r) == FetchChat(UserOf(r), chatId)
    requires PlanFor(sv, r') == FetchChat(UserOf(r'), chatId') && r.first.None? && r'.first.None?
    requires
      var a, b := Serve(sv, After(sv, history), r).1.payload, Serve(sv, After(sv, history), r').1.payload;
      a.NotificationView? && b.NotificationView? && a.id.Some? && a.id == b.id
    ensures sv.env.id(UserOf(r)) == sv.env.id(UserOf(r')) && sv.env.id(chatId) == sv.env.id(chatId')
  {
    hide PlanFor, After, DistinctUsernames;
    var t := After(sv, history);
    HistoryKeeps(sv, history);
    var row := IdOfRow(sv, history, r, chatId);
    var row' := IdOfRow(sv, history, r', chatId');
    var i :| 0 <= i < |t.notifications| && t.notifications[i] == row;
    var j :| 0 <= j < |t.notifications| && t.notifications[j] == row';
    assert i == j;
  }

  /** A global update is stored under the empty chat id, where the chat GET of "" reads it. */
  lemma GlobalUpdateIsEmptyChat(env: Environment, t: Tables, userId: string,
                                muted: bool, until: Option<int>, get: Request)
    requires Exec(env, t, PutNotification(userId, "", muted, until)).Ok?
    requires env.id(UserOf(get)) == env.id(userId) && get.first.None?
    ensures
      var t' := Exec(env, t, PutNotification(userId, "", muted, until)).value;
      ShowsSetting(env, Perform(env, t', get, FetchChat(UserOf(get), "")).1, UserOf(get), "",
                   Some(Setting(muted, until)))
  {
    var c := PutNotification(userId, "", muted, until);
    assert env.id(userId).Id? && env.id("").Id?;
    var t' := Exec(env, t, c).value;
    NotificationsExec(env, t, c, env.id(userId).key, env.id("").key);
    FindNotificationRow(t'.notifications, env.id(userId).key, Some(env.id("").key));
  }

  // ---------------------------------------------------------------- privacy

  function PrivacyBy(env: Environment, c: Command, user: string): Option<PrivacyRow>
  {
    if c.PutPrivacy? && env.id(c.userId) == Id(user) then Some(c.privacy) else None
  }

  /** The settings of the last successful privacy update of a user. */
  function LastPrivacy(sv: Service, history: seq<Request>, user: string): Option<PrivacyRow>
  {
    if history == [] then None else
    var n := |history| - 1;
    var r := history[n];
    var now := if Succeeded(sv, After(sv, history[..n]), r) then PrivacyBy(sv.env, PlanFor(sv, r).command, user)
               else None;
    if now.Some? then now else LastPrivacy(sv, history[..n], user)
  }

  function StoredPrivacy(privacy: map<string, PrivacyRow>, user: string): Option<PrivacyRow>
  {
    if user in privacy then Some(privacy[user]) else None
  }

  lemma PrivacyExec(env: Environment, t: Tables, c: Command, user: string)
    requires Exec(env, t, c).Ok?
    ensures
      var now := PrivacyBy(env, c, user);
      StoredPrivacy(Exec(env, t, c).value.privacy, user)
      == if now.Some? then now else StoredPrivacy(t.privacy, user)
  {
  }

  lemma {:induction false} StoredIsLastPrivacy(sv: Service, history: seq<Request>, user: string)
    ensures StoredPrivacy(After(sv, history).privacy, user) == LastPrivacy(sv, history, user)
  {
    if history == [] {
    } else {
      hide Serve, StoredPrivacy, PrivacyBy, Exec;
      var n := |history| - 1;
      var t, r := After(sv, history[..n]), history[n];
      StoredIsLastPrivacy(sv, history[..n], user);
      SettingsStep(sv, t, r);
      if Succeeded(sv, t, r) {
        PrivacyExec(sv.env, t, PlanFor(sv, r).command, user);
      }
    }
  }

  /** GET /me/privacy reports the last successful PUT as a whole, else "everyone" three times. */
  lemma PrivacyReadsLastWrite(sv: Service, history: seq<Request>, r: Request, user: string)
    requires PlanFor(sv, r).FetchPrivacy? && sv.env.id(UserOf(r)) == Id(user) && r.first.None?
    ensures
      var (t', response) := Serve(sv, After(sv, history), r);
      var last := LastPrivacy(sv, history, user).Or(PrivacyRow("everyone", "everyone", "everyone"));
      && t' == After(sv, history)
      && response.status == 200 && response.payload.PrivacyView?
      && response.payload.privacy
         == PrivacySettings(if LastPrivacy(sv, history, user).Some? then user else UserOf(r),
                            last.profile, last.lastSeen, last.avatar)
  {
    StoredIsLastPrivacy(sv, history, user);
  }
}
