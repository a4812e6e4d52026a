/**
 From the JSON of a write to the answer of the next read, URL to URL, after every history: what a
 successful POST, PUT or DELETE says is what the following GET shows.
 */
module ReadAfterWrite {
  import opened Outcomes
  import opened OwnedRows
  import opened Database
  import opened Routing
  import opened RoutingLaws
  import opened Requests
  import opened Invariants
  import opened ListHistory
  import opened SettingsHistory
  import opened ProfileHistory
  import opened ProfileLaws
  import opened BodyLaws
  import opened Shortfalls
  import opened WireLaws
  import opened EndToEnd

  // ---------------------------------------------------------------- lists

  /** What was added last is shown with its data. */
  lemma ShowsAdded<T>(list: seq<Entry<T>>, ops: seq<Op<T>>, item: string, data: T)
    requires ShowsHistory(list, ops) && ops != [] && ops[|ops| - 1] == Add(item, data)
    ensures exists i :: 0 <= i < |list| && list[i] == Entry(item, data)
  {
    assert Since(ops, item).Some? && Since(ops, item).value.1 == data;
    var i :| 0 <= i < |list| && list[i].item == item;
    assert list[i] == Entry(item, data);
  }

  /** What was removed last is not shown. */
  lemma ShowsNotRemoved<T>(list: seq<Entry<T>>, ops: seq<Op<T>>, item: string)
    requires ShowsHistory(list, ops) && ops != [] && ops[|ops| - 1] == Remove(item)
    ensures forall i :: 0 <= i < |list| ==> list[i].item != item
  {
    assert Since(ops, item).None?;
  }

  /** The last operation of a history that ends with a successful modification. */
  lemma LastOps(sv: Service, history: seq<Request>, w: Request, user: string)
    requires Succeeded(sv, After(sv, history), w)
    ensures
      var contacts, favorites := ContactOps(sv, history + [w], user), FavoriteOps(sv, history + [w], user);
      && contacts[|history|] == ContactOp(sv.env, PlanFor(sv, w).command, user)
      && favorites[|history|] == FavoriteOp(sv.env, PlanFor(sv, w).command, user)
  {
    hide PlanFor, Serve, After, ContactOp, FavoriteOp;
    assert (history + [w])[..|history|] == history;
  }

  /** A modification that succeeds was carried out: its statement succeeded. */
  lemma SuccessExecutes(env: Environment, t: Tables, r: Request, plan: Plan)
    requires plan.Modify? && plan.failure.status >= 400 && Perform(env, t, r, plan).1.status < 400
    ensures Exec(env, t, plan.command).Ok?
  {
    hide Exec;
  }

  lemma PutContactIds(env: Environment, t: Tables, c: Command)
    requires c.PutContact? && Exec(env, t, c).Ok?
    ensures env.id(c.ownerId).Id? && env.id(c.contactId).Id?
  {
  }

  /** The plan of a POST /contacts that is answered 201. */
  lemma AddingPlan(sv: Service, t: Tables, post: Request)
    requires IsApi(sv.routes) && MayUse(sv, post, "contacts:write")
    requires post.verb == POST && post.target == "/contacts" && Serve(sv, t, post).1.status == 201
    ensures
      var fields := FieldsOf(post.body);
      && Succeeded(sv, t, post)
      && TextAt(fields, "contact_id").Some?
      && var contactId, alias := TextAt(fields, "contact_id").value, TextAt(fields, "alias").Or("");
         && PlanFor(sv, post).command == PutContact(UserOf(post), contactId, alias)
         && Serve(sv, t, post).1 == Response(201, ContactView(ContactItem(UserOf(post), contactId, alias)))
         && sv.env.id(UserOf(post)).Id? && sv.env.id(contactId).Id?
  {
    FixedPlanOfContacts(sv, post);
    ContactBody(post.body, UserOf(post));
    hide PlanFor, PlanAddContact, Exec;
    SuccessExecutes(sv.env, t, post, PlanFor(sv, post));
    PutContactIds(sv.env, t, PlanFor(sv, post).command);
  }

  /** After an answered POST /contacts, GET /contacts holds that contact with the alias of the body. */
  lemma AddedContactIsListed(sv: Service, history: seq<Request>, post: Request, get: Request, user: string)
    requires IsApi(sv.routes) && CanonicalIds(sv.env)
    requires MayUse(sv, post, "contacts:write") && Asks(sv, get, "contacts:read")
    requires sv.env.id(UserOf(post)) == sv.env.id(UserOf(get)) == Id(user)
    requires post.verb == POST && post.target == "/contacts" && get.verb == GET && get.target == "/contacts"
    requires Serve(sv, After(sv, history), post).1.status == 201
    ensures
      var fields := FieldsOf(post.body);
      var response := Serve(sv, After(sv, history + [post]), get).1;
      && TextAt(fields, "contact_id").Some? && sv.env.id(TextAt(fields, "contact_id").value).Id?
      && response.status == 200 && response.payload.ContactsView?
      && ContactItem(user, sv.env.id(TextAt(fields, "contact_id").value).key, TextAt(fields, "alias").Or(""))
         in response.payload.contacts
  {
    hide PlanFor, Serve, After, ShowsHistory, Since;
    var fields := FieldsOf(post.body);
    var ops := ContactOps(sv, history + [post], user);
    AddingPlan(sv, After(sv, history), post);
    LastOps(sv, history, post, user);
    ContactsOverHttp(sv, history + [post], get, user);
    var items := Serve(sv, After(sv, history + [post]), get).1.payload.contacts;
    var key, alias := sv.env.id(TextAt(fields, "contact_id").value).key, TextAt(fields, "alias").Or("");
    ShowsAdded(ContactEntries(items), ops, key, Some(alias));
    var i :| 0 <= i < |items| && ContactEntries(items)[i] == Entry(key, Some(alias));
    assert items[i] == ContactItem(user, key, alias);
  }

  /** After an answered DELETE /contacts/p, GET /contacts does not hold that contact. */
  lemma RemovedContactIsGone(sv: Service, history: seq<Request>, delete: Request, get: Request,
                             user: string, p: string, key: string)
    requires IsApi(sv.routes) && CanonicalIds(sv.env)
    requires MayUse(sv, delete, "contacts:write") && Asks(sv, get, "contacts:read")
    requires sv.env.id(UserOf(delete)) == sv.env.id(UserOf(get)) == Id(user) && sv.env.id(p) == Id(key)
    requires delete.verb == DELETE && delete.target == "/contacts/" + p
    requires get.verb == GET && get.target == "/contacts"
    requires Serve(sv, After(sv, history), delete).1.status == 204
    ensures
      var response := Serve(sv, After(sv, history + [delete]), get).1;
      && response.status == 200 && response.payload.ContactsView?
      && forall item :: item in response.payload.contacts ==> item.contactId != key
  {
    hide PlanFor, Serve, After, ShowsHistory, Since;
    ContactParamPlan(sv, delete, p);
    LastOps(sv, history, delete, user);
    ContactsOverHttp(sv, history + [delete], get, user);
    var items := Serve(sv, After(sv, history + [delete]), get).1.payload.contacts;
    ShowsNotRemoved(ContactEntries(items), ContactOps(sv, history + [delete], user), key);
    forall item | item in items ensures item.contactId != key {
      var i :| 0 <= i < |items| && items[i] == item;
      assert ContactEntries(items)[i].item == item.contactId;
    }
  }

  /** After an answered POST or DELETE of /favorites/p, GET /favorites holds that chat, or does not. */
  lemma FavoriteIsAsWritten(sv: Service, history: seq<Request>, w: Request, get: Request,
                            user: string, p: string, key: string)
    requires IsApi(sv.routes) && CanonicalIds(sv.env)
    requires MayUse(sv, w, "favorites:write") && Asks(sv, get, "favorites:read")
    requires sv.env.id(UserOf(w)) == sv.env.id(UserOf(get)) == Id(user) && sv.env.id(p) == Id(key)
    requires w.verb in [POST, DELETE] && w.target == "/favorites/" + p
    requires get.verb == GET && get.target == "/favorites"
    requires Serve(sv, After(sv, history), w).1.status < 400
    ensures
      var response := Serve(sv, After(sv, history + [w]), get).1;
      && response.status == 200 && response.payload.FavoritesView?
      && (Favorite(user, key) in response.payload.favorites <==> w.verb == POST)
  {
    hide PlanFor, Serve, After, ShowsHistory, Since;
    FavoriteParamPlan(sv, w, p);
    LastOps(sv, history, w, user);
    FavoritesOverHttp(sv, history + [w], get, user);
    var items := Serve(sv, After(sv, history + [w]), get).1.payload.favorites;
    var ops := FavoriteOps(sv, history + [w], user);
    if w.verb == POST {
      ShowsAdded(FavoriteEntries(items), ops, key, ());
      var i :| 0 <= i < |items| && FavoriteEntries(items)[i] == Entry(key, ());
      assert items[i] == Favorite(user, key);
    } else {
      ShowsNotRemoved(FavoriteEntries(items), ops, key);
      forall i | 0 <= i < |items| ensures items[i].chatId != key {
        assert FavoriteEntries(items)[i].item == items[i].chatId;
      }
    }
  }

  // ---------------------------------------------------------------- settings

  lemma PutNotificationIds(env: Environment, t: Tables, c: Command)
    requires c.PutNotification? && Exec(env, t, c).Ok?
    ensures env.id(c.userId).Id? && env.id(c.chatId).Id?
  {
  }

  /** The plan of a PUT /notifications/c that is answered 204. */
  lemma MutingPlanOf(sv: Service, t: Tables, put: Request, c: string)
    requires IsApi(sv.routes) && MayUse(sv, put, "notifications:write")
    requires put.verb == PUT && put.target == "/notifications/" + c && Serve(sv, t, put).1.status == 204
    ensures
      && Succeeded(sv, t, put)
      && PlanFor(sv, put).command.PutNotification?
      && PlanFor(sv, put).command.userId == UserOf(put) && PlanFor(sv, put).command.chatId == c
      && PlanFor(sv, put).command.muted == MutedAt(FieldsOf(put.body))
      && sv.env.id(UserOf(put)).Id? && sv.env.id(c).Id?
  {
    ChatParamPlan(sv, put, c);
    NotificationBody(sv.env, put.body, UserOf(put), c);
    hide PlanFor, PlanUpdateNotifications, Exec;
    SuccessExecutes(sv.env, t, put, PlanFor(sv, put));
    PutNotificationIds(sv.env, t, PlanFor(sv, put).command);
  }

  /**
   After an answered PUT /notifications/c, GET /notifications/c shows the flag of the body, false
   if it has none, for that chat and under the user's stored id.
   */
  lemma ChatFlagIsShown(sv: Service, history: seq<Request>, put: Request, get: Request, user: string, c: string)
    requires IsApi(sv.routes) && CanonicalIds(sv.env)
    requires MayUse(sv, put, "notifications:write") && Asks(sv, get, "notifications:read")
    requires sv.env.id(UserOf(put)) == sv.env.id(UserOf(get)) == Id(user)
    requires put.verb == PUT && get.verb == GET && put.target == get.target == "/notifications/" + c
    requires Serve(sv, After(sv, history), put).1.status == 204
    ensures
      var response := Serve(sv, After(sv, history + [put]), get).1;
      && response.status == 200 && response.payload.NotificationView?
      && response.payload.muted == MutedAt(FieldsOf(put.body))
      && response.payload.owner == user && response.payload.chatId == Some(c)
  {
    hide PlanFor, Serve, After;
    MutingPlanOf(sv, After(sv, history), put, c);
    assert (history + [put])[..|history|] == history;
    NotificationsOverHttp(sv, history + [put], get, user, c, sv.env.id(c).key);
  }

  lemma PrivacyAnswered(sv: Service, t: Tables, put: Request)
    requires PlanFor(sv, put) == PlanUpdatePrivacy(put.body, UserOf(put)) && Serve(sv, t, put).1.status == 204
    ensures PlanFor(sv, put).Modify?
  {
    PrivacyBody(put.body, UserOf(put));
  }

  /** After an answered PUT /me/privacy, GET /me/privacy shows each visibility of the body under its own key. */
  lemma PrivacyIsShown(sv: Service, history: seq<Request>, put: Request, get: Request, user: string)
    requires IsApi(sv.routes) && MayUse(sv, put, "profile:write") && Asks(sv, get, "profile:read")
    requires sv.env.id(UserOf(put)) == sv.env.id(UserOf(get)) == Id(user)
    requires put.verb == PUT && get.verb == GET && put.target == get.target == "/me/privacy"
    requires Serve(sv, After(sv, history), put).1.status == 204
    ensures
      var fields := FieldsOf(put.body);
      Serve(sv, After(sv, history + [put]), get).1
      == Response(200, PrivacyView(PrivacySettings(user,
           TextAt(fields, "profile_visibility").Or("everyone"),
           TextAt(fields, "last_seen_visibility").Or("everyone"),
           TextAt(fields, "avatar_visibility").Or("everyone"))))
  {
    FixedPlanOfPrivacy(sv, put);
    FixedPlanOfPrivacy(sv, get);
    PrivacyBody(put.body, UserOf(put));
    hide PlanFor, PlanUpdatePrivacy, Serve, After;
    assert (history + [put])[..|history|] == history;
    PrivacyAnswered(sv, After(sv, history), put);
    PrivacyReadsLastWrite(sv, history + [put], get, user);
  }

  /** After an answered DELETE /me/avatar, GET /me shows no avatar. */
  lemma ClearedAvatarIsShown(sv: Service, history: seq<Request>, delete: Request, get: Request, user: string)
    requires IsApi(sv.routes) && CanonicalIds(sv.env)
    requires MayUse(sv, delete, "profile:write") && Asks(sv, get, "profile:read")
    requires sv.env.id(UserOf(delete)) == sv.env.id(UserOf(get)) == Id(user) && Created(sv, history, user)
    requires delete.verb == DELETE && delete.target == "/me/avatar" && get.verb == GET && get.target == "/me"
    requires Serve(sv, After(sv, history), delete).1.status == 204
    ensures
      var view := ProfileByHistory(sv, history, user);
      Serve(sv, After(sv, history + [delete]), get).1 == Response(200, view.(avatarUrl := ""))
  {
    hide After, PlanFor, Created, ProfileByHistory;
    FixedPlanOfUser(sv, get);
    FixedPlanOfAvatar(sv, delete);
    UploadIsStoredIff(sv, history, delete);
    AfterNext(sv, history, delete);
    ShownIsByHistory(sv, history, UserOf(get), user);
    ProfileIsAnswered(sv, After(sv, history + [delete]), get, UserOf(get));
  }

  // ---------------------------------------------------------------- creation

  lemma CreationAnswered(env: Environment, t: Tables, post: Request, u: string)
    requires TextAt(FieldsOf(post.body), "user_id") == Some(u)
    requires Perform(env, t, post, PlanCreateProfile(env, post.body)).1.status == 201
    ensures
      && PlanCreateProfile(env, post.body).Modify? && PlanCreateProfile(env, post.body).command == InsertProfile(u)
      && env.id(u).Id? && post.first.None?
      && Perform(env, t, post, PlanCreateProfile(env, post.body)).1 == Response(201, CreatedUser(env.id(u).key))
  {
    CreationBody(env, post.body);
  }

  /** After an answered POST /internal/profiles, GET /me of the user named in the body answers his profile. */
  lemma CreatedProfileIsShown(sv: Service, history: seq<Request>, post: Request, get: Request)
    requires IsApi(sv.routes) && CanonicalIds(sv.env)
    requires post.verb == POST && post.target == "/internal/profiles" && get.verb == GET && get.target == "/me"
    requires Asks(sv, get, "profile:read") && TextAt(FieldsOf(post.body), "user_id") == Some(UserOf(get))
    requires Serve(sv, After(sv, history), post).1.status == 201
    ensures
      var id := sv.env.id(UserOf(get));
      && id.Id? && Serve(sv, After(sv, history), post).1 == Response(201, CreatedUser(id.key))
      && Serve(sv, After(sv, history + [post]), get).1
         == Response(200, ProfileByHistory(sv, history + [post], id.key))
  {
    var t, u := After(sv, history), UserOf(get);
    FixedPlanOfUser(sv, post);
    CreationBody(sv.env, post.body);
    hide PlanFor, PlanCreateProfile, After, ProfileByHistory;
    CreationAnswered(sv.env, t, post, u);
    assert (history + [post])[..|history|] == history;
    ProfileOverHttp(sv, history + [post], get, sv.env.id(u).key);
  }
}
