/** The router and the dispatch inside the handlers agree, and URLs carry their parameters. */
module RoutingLaws {
  import opened Outcomes
  import opened Routing

  /** A nested map built from the service's table. */
  ghost predicate IsApi(routes: RouteMap)
  {
    forall path, verb :: FindExact(routes, path, verb) == LastRow(TABLE, path, verb)
  }

  /** The action served at exactly this path. */
  function Served(path: string, verb: Verb): Option<HandlerId>
  {
    if path == "/internal/profiles" then
      if verb == POST then Some(CreateProfile) else None
    else if path == "/me" then
      if verb == GET then Some(GetMyProfile) else if verb == PATCH then Some(UpdateProfile) else None
    else if path == "/{user_id}" then
      if verb == GET then Some(GetProfileByID) else None
    else if path == "/me/avatar" then
      if verb == POST then Some(UploadAvatar) else if verb == DELETE then Some(DeleteAvatar) else None
    else if path == "/me/privacy" then
      if verb == GET then Some(GetPrivacy) else if verb == PUT then Some(UpdatePrivacy) else None
    else if path == "/contacts" then
      if verb == GET then Some(GetContacts) else if verb == POST then Some(AddContact) else None
    else if path == "/contacts/{contact_id}" then
      if verb == DELETE then Some(DeleteContact) else None
    else if path == "/favorites" then
      if verb == GET then Some(GetFavorites) else None
    else if path == "/favorites/{chat_id}" then
      if verb == POST then Some(AddFavorite) else if verb == DELETE then Some(RemoveFavorite) else None
    else if path == "/notifications" then
      if verb == GET then Some(GetNotifications) else if verb == PUT then Some(UpdateNotifications) else None
    else if path == "/notifications/{chat_id}" then
      if verb == GET then Some(GetChatNotifications)
      else if verb == PUT then Some(UpdateChatNotifications)
      else None
    else None
  }

  ghost predicate AllServed(rows: seq<Route>)
  {
    forall i :: 0 <= i < |rows| ==>
      ColonFree(rows[i].path) && Served(rows[i].path, rows[i].info.verb) == Some(rows[i].info.id)
  }

  lemma ProfileRoutesServed()
    ensures AllServed(PROFILE_ROUTES)
  {
    forall i | 0 <= i < |PROFILE_ROUTES|
      ensures ColonFree(PROFILE_ROUTES[i].path)
      ensures Served(PROFILE_ROUTES[i].path, PROFILE_ROUTES[i].info.verb) == Some(PROFILE_ROUTES[i].info.id)
    {
      if i == 0 {} else if i == 1 {} else if i == 2 {} else if i == 3 {} else if i == 4 {} else {}
    }
  }

  lemma PrivacyRoutesServed()
    ensures AllServed(PRIVACY_ROUTES)
  {
    forall i | 0 <= i < |PRIVACY_ROUTES|
      ensures ColonFree(PRIVACY_ROUTES[i].path)
      ensures Served(PRIVACY_ROUTES[i].path, PRIVACY_ROUTES[i].info.verb) == Some(PRIVACY_ROUTES[i].info.id)
    {
      if i == 0 {} else {}
    }
  }

  lemma ContactsRoutesServed()
    ensures AllServed(CONTACTS_ROUTES)
  {
    forall i | 0 <= i < |CONTACTS_ROUTES|
      ensures ColonFree(CONTACTS_ROUTES[i].path)
      ensures Served(CONTACTS_ROUTES[i].path, CONTACTS_ROUTES[i].info.verb) == Some(CONTACTS_ROUTES[i].info.id)
    {
      if i == 0 {} else if i == 1 {} else {}
    }
  }

  lemma FavoritesRoutesServed()
    ensures AllServed(FAVORITES_ROUTES)
  {
    forall i | 0 <= i < |FAVORITES_ROUTES|
      ensures ColonFree(FAVORITES_ROUTES[i].path)
      ensures Served(FAVORITES_ROUTES[i].path, FAVORITES_ROUTES[i].info.verb) == Some(FAVORITES_ROUTES[i].info.id)
    {
      if i == 0 {} else if i == 1 {} else {}
    }
  }

  lemma NotificationReadsServed()
    ensures AllServed(NOTIFICATION_READS)
  {
  }

  lemma NotificationWritesServed()
    ensures AllServed(NOTIFICATION_WRITES)
  {
  }

  lemma AllServedOfParts(rows: seq<Route>, more: seq<Route>)
    requires AllServed(rows) && AllServed(more)
    ensures AllServed(rows + more)
  {
  }

  lemma TableIsServed()
    ensures AllServed(TABLE)
  {
    ProfileRoutesServed();
    PrivacyRoutesServed();
    ContactsRoutesServed();
    FavoritesRoutesServed();
    NotificationReadsServed();
    NotificationWritesServed();
    AllServedOfParts(NOTIFICATION_READS, NOTIFICATION_WRITES);
    AllServedOfParts(PROFILE_ROUTES, PRIVACY_ROUTES);
    AllServedOfParts(PROFILE_ROUTES + PRIVACY_ROUTES, CONTACTS_ROUTES);
    AllServedOfParts(PROFILE_ROUTES + PRIVACY_ROUTES + CONTACTS_ROUTES, FAVORITES_ROUTES);
    AllServedOfParts(PROFILE_ROUTES + PRIVACY_ROUTES + CONTACTS_ROUTES + FAVORITES_ROUTES, NOTIFICATIONS_ROUTES);
  }

  ghost predicate HasRow(rows: seq<Route>, path: string, verb: Verb)
  {
    exists i :: 0 <= i < |rows| && rows[i].path == path && rows[i].info.verb == verb
  }

  /** The rows of one handler class. */
  function RoutesOf(handler: HandlerKind): seq<Route>
  {
    match handler
    case ProfileKind => PROFILE_ROUTES
    case PrivacyKind => PRIVACY_ROUTES
    case ContactsKind => CONTACTS_ROUTES
    case FavoritesKind => FAVORITES_ROUTES
    case NotificationsKind => NOTIFICATIONS_ROUTES
  }

  /** The place of an action's row among those of its class. */
  function Place(id: HandlerId): nat
  {
    match id
    case CreateProfile | GetPrivacy | GetContacts | GetFavorites | GetNotifications => 0
    case GetMyProfile | UpdatePrivacy | AddContact | AddFavorite | GetChatNotifications => 1
    case UpdateProfile | DeleteContact | RemoveFavorite | UpdateNotifications => 2
    case GetProfileByID | UpdateChatNotifications => 3
    case UploadAvatar => 4
    case DeleteAvatar => 5
  }

  lemma SettingsInClass(path: string, verb: Verb)
    requires Served(path, verb).Some?
    ensures
      var handler := KindOf(Served(path, verb).value);
      handler.ProfileKind? || handler.PrivacyKind? ==> HasRow(RoutesOf(handler), path, verb)
  {
    var id := Served(path, verb).value;
    match KindOf(id)
    case ProfileKind => assert PROFILE_ROUTES[Place(id)].path == path;
    case PrivacyKind => assert PRIVACY_ROUTES[Place(id)].path == path;
    case _ =>
  }

  lemma ListsInClass(path: string, verb: Verb)
    requires Served(path, verb).Some?
    ensures
      var handler := KindOf(Served(path, verb).value);
      handler.ContactsKind? || handler.FavoritesKind? ==> HasRow(RoutesOf(handler), path, verb)
  {
    var id := Served(path, verb).value;
    match KindOf(id)
    case ContactsKind => assert CONTACTS_ROUTES[Place(id)].path == path;
    case FavoritesKind => assert FAVORITES_ROUTES[Place(id)].path == path;
    case _ =>
  }

  lemma HasRowOfPart(rows: seq<Route>, more: seq<Route>, path: string, verb: Verb)
    ensures HasRow(rows, path, verb) || HasRow(more, path, verb) ==> HasRow(rows + more, path, verb)
  {
    if i :| 0 <= i < |rows| && rows[i].path == path && rows[i].info.verb == verb {
      assert (rows + more)[i] == rows[i];
    } else if i :| 0 <= i < |more| && more[i].path == path && more[i].info.verb == verb {
      assert (rows + more)[|rows| + i] == more[i];
    }
  }

  lemma NotificationsInClass(path: string, verb: Verb)
    requires Served(path, verb).Some?
    ensures
      var handler := KindOf(Served(path, verb).value);
      handler.NotificationsKind? ==> HasRow(RoutesOf(handler), path, verb)
  {
    var id := Served(path, verb).value;
    if id == GetNotifications || id == GetChatNotifications {
      assert NOTIFICATION_READS[Place(id)].path == path;
      HasRowOfPart(NOTIFICATION_READS, NOTIFICATION_WRITES, path, verb);
    } else if id == UpdateNotifications || id == UpdateChatNotifications {
      assert NOTIFICATION_WRITES[Place(id) - 2].path == path;
      HasRowOfPart(NOTIFICATION_READS, NOTIFICATION_WRITES, path, verb);
    }
  }

  lemma ServedIsRow(path: string, verb: Verb)
    requires Served(path, verb).Some?
    ensures HasRow(TABLE, path, verb)
  {
    SettingsInClass(path, verb);
    ListsInClass(path, verb);
    NotificationsInClass(path, verb);
    HasRowOfPart(PROFILE_ROUTES, PRIVACY_ROUTES, path, verb);
    HasRowOfPart(PROFILE_ROUTES + PRIVACY_ROUTES, CONTACTS_ROUTES, path, verb);
    HasRowOfPart(PROFILE_ROUTES + PRIVACY_ROUTES + CONTACTS_ROUTES, FAVORITES_ROUTES, path, verb);
    HasRowOfPart(PROFILE_ROUTES + PRIVACY_ROUTES + CONTACTS_ROUTES + FAVORITES_ROUTES,
                 NOTIFICATIONS_ROUTES, path, verb);
  }

  lemma {:induction false} LastRowIsRow(rows: seq<Route>, path: string, verb: Verb)
    ensures
      match LastRow(rows, path, verb)
      case None => forall i :: 0 <= i < |rows| ==> !(rows[i].path == path && rows[i].info.verb == verb)
      case Some(info) =>
        exists i :: 0 <= i < |rows| && rows[i].path == path && rows[i].info == info && info.verb == verb
  {
    if rows == [] {
    } else {
      LastRowIsRow(rows[..|rows| - 1], path, verb);
    }
  }

  /** The scope a user must be allowed for an action. */
  function ScopeOf(id: HandlerId): string
  {
    match id
    case CreateProfile | UpdateProfile | UploadAvatar | DeleteAvatar | UpdatePrivacy => "profile:write"
    case GetMyProfile | GetProfileByID | GetPrivacy => "profile:read"
    case GetContacts => "contacts:read"
    case AddContact | DeleteContact => "contacts:write"
    case GetFavorites => "favorites:read"
    case AddFavorite | RemoveFavorite => "favorites:write"
    case GetNotifications | GetChatNotifications => "notifications:read"
    case UpdateNotifications | UpdateChatNotifications => "notifications:write"
  }

  ghost predicate AllScoped(rows: seq<Route>)
  {
    forall i :: 0 <= i < |rows| ==> rows[i].info.scope == ScopeOf(rows[i].info.id)
  }

  lemma ProfileRoutesScoped()
    ensures AllScoped(PROFILE_ROUTES + PRIVACY_ROUTES)
  {
    assert AllScoped(PROFILE_ROUTES) && AllScoped(PRIVACY_ROUTES);
  }

  lemma ListRoutesScoped()
    ensures AllScoped(CONTACTS_ROUTES) && AllScoped(FAVORITES_ROUTES)
  {
  }

  lemma NotificationReadsScoped()
    ensures AllScoped(NOTIFICATION_READS)
  {
  }

  lemma NotificationWritesScoped()
    ensures AllScoped(NOTIFICATION_WRITES)
  {
  }

  lemma AllScopedOfParts(rows: seq<Route>, more: seq<Route>)
    requires AllScoped(rows) && AllScoped(more)
    ensures AllScoped(rows + more)
  {
  }

  lemma TableIsScoped()
    ensures AllScoped(TABLE)
  {
    ProfileRoutesScoped();
    ListRoutesScoped();
    NotificationReadsScoped();
    NotificationWritesScoped();
    AllScopedOfParts(NOTIFICATION_READS, NOTIFICATION_WRITES);
    AllScopedOfParts(PROFILE_ROUTES + PRIVACY_ROUTES, CONTACTS_ROUTES);
    AllScopedOfParts(PROFILE_ROUTES + PRIVACY_ROUTES + CONTACTS_ROUTES, FAVORITES_ROUTES);
    AllScopedOfParts(PROFILE_ROUTES + PRIVACY_ROUTES + CONTACTS_ROUTES + FAVORITES_ROUTES, NOTIFICATIONS_ROUTES);
  }

  /** The row of an action served for a verb. */
  function RowOf(served: Option<HandlerId>, verb: Verb): Option<HandlerInfo>
  {
    match served
    case None => None
    case Some(id) => Some(HandlerInfo(verb, id, ScopeOf(id)))
  }

  lemma TableServes(path: string, verb: Verb)
    ensures LastRow(TABLE, path, verb) == RowOf(Served(path, verb), verb)
  {
    hide Served, ScopeOf;
    LastRowIsRow(TABLE, path, verb);
    var row := LastRow(TABLE, path, verb);
    if row.Some? {
      var i :| 0 <= i < |TABLE| && TABLE[i].path == path && TABLE[i].info == row.value;
      TableIsServed();
      TableIsScoped();
    } else if Served(path, verb).Some? {
      ServedIsRow(path, verb);
    }
  }

  // ---------------------------------------------------------------- the two dispatches agree

  /** The route of a target that is not itself in the table. */
  function Fallback(target: string): Option<string>
  {
    if StartsWith(target, "/contacts/") then Some("/contacts/{contact_id}")
    else if StartsWith(target, "/favorites/") then Some("/favorites/{chat_id}")
    else if StartsWith(target, "/notifications/") then Some("/notifications/{chat_id}")
    else if StartsWith(target, "/") && '/' !in target[1..] && target != "/me" then Some("/{user_id}")
    else None
  }

  /** Served at the target, or by its fallback. */
  function ServedOrFallback(target: string, verb: Verb): Option<HandlerId>
  {
    if Served(target, verb).Some? then Served(target, verb)
    else if Fallback(target).Some? then Served(Fallback(target).value, verb)
    else None
  }

  /** Resolution in terms of what the table serves: the target itself, else the fallback. */
  lemma ResolveServes(routes: RouteMap, target: string, verb: Verb)
    requires IsApi(routes)
    ensures ResolveRoute(routes, target, verb) == RowOf(ServedOrFallback(target, verb), verb)
  {
    TableServes(target, verb);
    if Fallback(target).Some? {
      TableServes(Fallback(target).value, verb);
    }
    assert "/me/avatar"[3] == '/' && "/me/privacy"[3] == '/';
    assert "/me/avatar"[1..][2] == '/' && "/me/privacy"[1..][2] == '/';
  }

  /** An exact route leads its handler to the route's own action. */
  lemma ExactCoherent(target: string, verb: Verb)
    requires Served(target, verb).Some?
    ensures Select(KindOf(Served(target, verb).value), verb, target) == Served(target, verb)
  {
  }

  lemma FallbackCoherent(target: string, verb: Verb)
    requires Served(target, verb).None? && Fallback(target).Some?
    requires Served(Fallback(target).value, verb).Some?
    ensures
      var id := Served(Fallback(target).value, verb).value;
      Select(KindOf(id), verb, target) == Some(id)
  {
  }

  /** The path of an action that reads a parameter. */
  function ParamPath(id: HandlerId): string
    requires RequiredParam(id).Some?
  {
    match id
    case GetProfileByID => "/{user_id}"
    case DeleteContact => "/contacts/{contact_id}"
    case AddFavorite | RemoveFavorite => "/favorites/{chat_id}"
    case GetChatNotifications | UpdateChatNotifications => "/notifications/{chat_id}"
  }

  lemma ServedAtParamPath(target: string, verb: Verb)
    requires Served(target, verb).Some? && RequiredParam(Served(target, verb).value).Some?
    ensures target == ParamPath(Served(target, verb).value)
  {
  }

  /** The paths of the table differ early. */
  lemma SecondLetters()
    ensures "/internal/profiles"[1] == 'i' && "/me"[1] == 'm' && "/{user_id}"[1] == '{'
    ensures "/me/avatar"[1] == 'm' && "/me/privacy"[1] == 'm'
    ensures "/contacts"[1] == 'c' && "/contacts/"[1] == 'c' && "/contacts/{contact_id}"[1] == 'c'
    ensures "/favorites"[1] == 'f' && "/favorites/"[1] == 'f' && "/favorites/{chat_id}"[1] == 'f'
    ensures "/notifications"[1] == 'n' && "/notifications/"[1] == 'n' && "/notifications/{chat_id}"[1] == 'n'
  {
  }

  lemma ContactsParam(p: string)
    ensures ServedOrFallback("/contacts/" + p, DELETE) == Some(DeleteContact)
    ensures PathParams("/contacts/" + p) == map["contact_id" := p]
  {
    SecondLetters();
    var t := "/contacts/" + p;
    assert t[1] == 'c' && t[10..] == p && |t| >= 10;
  }

  lemma FavoritesParam(p: string)
    ensures ServedOrFallback("/favorites/" + p, POST) == Some(AddFavorite)
    ensures ServedOrFallback("/favorites/" + p, DELETE) == Some(RemoveFavorite)
    ensures PathParams("/favorites/" + p) == map["chat_id" := p]
  {
    SecondLetters();
    var t := "/favorites/" + p;
    assert t[1] == 'f' && t[11..] == p && |t| >= 11;
  }

  lemma NotificationsParam(p: string)
    ensures ServedOrFallback("/notifications/" + p, GET) == Some(GetChatNotifications)
    ensures ServedOrFallback("/notifications/" + p, PUT) == Some(UpdateChatNotifications)
    ensures PathParams("/notifications/" + p) == map["chat_id" := p]
  {
    SecondLetters();
    var t := "/notifications/" + p;
    assert t[1] == 'n' && t[15..] == p && |t| >= 15;
  }

  lemma PlainPrefix(p: string)
    requires '/' !in p
    ensures
      var t := "/" + p;
      !StartsWith(t, "/contacts/") && !StartsWith(t, "/favorites/") && !StartsWith(t, "/notifications/")
  {
    var t := "/" + p;
    assert t[1..] == p;
    assert "/contacts/"[9] == '/' && "/favorites/"[10] == '/' && "/notifications/"[14] == '/';
  }

  lemma UserParam(p: string)
    requires p != "" && '/' !in p && p != "me"
    ensures PathParams("/" + p) == map["user_id" := p]
  {
    assert ("/" + p)[1..] == p;
    assert "/me"[1..] == "me";
    PlainPrefix(p);
  }

  lemma ParamPathHasParam(id: HandlerId)
    requires RequiredParam(id).Some?
    ensures RequiredParam(id).value in PathParams(ParamPath(id))
  {
    hide PathParams, ServedOrFallback;
    UserParam("{user_id}");
    ContactsParam("{contact_id}");
    FavoritesParam("{chat_id}");
    NotificationsParam("{chat_id}");
    assert "/{user_id}" == "/" + "{user_id}";
    assert "/contacts/{contact_id}" == "/contacts/" + "{contact_id}";
    assert "/favorites/{chat_id}" == "/favorites/" + "{chat_id}";
    assert "/notifications/{chat_id}" == "/notifications/" + "{chat_id}";
  }

  lemma ExactHasParam(target: string, verb: Verb)
    requires Served(target, verb).Some?
    ensures
      var param := RequiredParam(Served(target, verb).value);
      param.Some? ==> param.value in PathParams(target)
  {
    hide Served, PathParams, ParamPath;
    if RequiredParam(Served(target, verb).value).Some? {
      ServedAtParamPath(target, verb);
      ParamPathHasParam(Served(target, verb).value);
    }
  }

  lemma ExactCreation(target: string, verb: Verb)
    requires Served(target, verb).Some?
    ensures Served(target, verb).value == CreateProfile <==> verb == POST && target == "/internal/profiles"
  {
  }

  lemma FallbackHasParam(target: string, verb: Verb)
    requires Served(target, verb).None? && Fallback(target).Some?
    requires Served(Fallback(target).value, verb).Some?
    ensures
      var id := Served(Fallback(target).value, verb).value;
      && RequiredParam(id).Some?
      && (target == "/" || RequiredParam(id).value in PathParams(target))
      && id != CreateProfile && target != "/internal/profiles"
  {
    SecondLetters();
    assert "/internal/profiles"[1..][8] == '/';
  }

  /**
   For every target string and verb: if a route is resolved, the handler bound to it selects
   that route's own action, and is given the path parameter the action reads, unless the
   target is "/". Only profile creation is exempt from the user check, and it is exempt exactly
   when the request manager's own test of verb and target says so.
   */
  lemma DispatchCoherent(routes: RouteMap, target: string, verb: Verb)
    requires IsApi(routes)
    ensures
      match ResolveRoute(routes, target, verb)
      case None => true
      case Some(info) =>
        && Select(KindOf(info.id), verb, target) == Some(info.id)
        && (RequiredParam(info.id).Some? ==>
              target == "/" || RequiredParam(info.id).value in PathParams(target))
        && (info.id == CreateProfile <==> verb == POST && target == "/internal/profiles")
    ensures ResolveRoute(routes, "/", GET).Some? && PathParams("/") == map[]
  {
    ResolveServes(routes, target, verb);
    if Served(target, verb).Some? {
      ExactCoherent(target, verb);
      ExactHasParam(target, verb);
      ExactCreation(target, verb);
    } else if Fallback(target).Some? && Served(Fallback(target).value, verb).Some? {
      FallbackCoherent(target, verb);
      FallbackHasParam(target, verb);
    }
    ResolveServes(routes, "/", GET);
  }

  lemma PlainServed(p: string)
    requires '/' !in p
    ensures Served("/" + p, GET) in [None, Some(GetProfileByID)]
       <==> p !in ["me", "contacts", "favorites", "notifications"]
  {
    var t := "/" + p;
    assert t[1..] == p;
    assert "/me/privacy"[3] == '/';
    assert "/me" == "/" + "me" && "/contacts" == "/" + "contacts";
    assert "/favorites" == "/" + "favorites" && "/notifications" == "/" + "notifications";
    assert "/me"[1..] == "me" && "/contacts"[1..] == "contacts";
    assert "/favorites"[1..] == "favorites" && "/notifications"[1..] == "notifications";
  }

  lemma PlainParam(p: string)
    requires p != "" && '/' !in p
    ensures ServedOrFallback("/" + p, GET) == Some(GetProfileByID)
       <==> p !in ["me", "contacts", "favorites", "notifications"]
  {
    var t := "/" + p;
    assert t[1..] == p && StartsWith(t, "/");
    assert Served("/{user_id}", GET) == Some(GetProfileByID);
    hide PathParams, Served, StartsWith;
    PlainServed(p);
    PlainPrefix(p);
  }

  // ---------------------------------------------------------------- URLs carry their parameters

  ghost predicate Reaches(routes: RouteMap, target: string, verb: Verb, id: HandlerId, name: string, p: string)
  {
    && ResolveRoute(routes, target, verb).Some?
    && ResolveRoute(routes, target, verb).value.id == id
    && PathParams(target) == map[name := p]
  }

  /** A parameter may be any string on the contact, favourite and chat routes. */
  lemma ParamRoundTrip(routes: RouteMap, p: string)
    requires IsApi(routes)
    ensures Reaches(routes, "/contacts/" + p, DELETE, DeleteContact, "contact_id", p)
    ensures Reaches(routes, "/favorites/" + p, POST, AddFavorite, "chat_id", p)
    ensures Reaches(routes, "/favorites/" + p, DELETE, RemoveFavorite, "chat_id", p)
    ensures Reaches(routes, "/notifications/" + p, GET, GetChatNotifications, "chat_id", p)
    ensures Reaches(routes, "/notifications/" + p, PUT, UpdateChatNotifications, "chat_id", p)
  {
    ContactsParam(p);
    FavoritesParam(p);
    NotificationsParam(p);
    ResolveServes(routes, "/contacts/" + p, DELETE);
    ResolveServes(routes, "/favorites/" + p, POST);
    ResolveServes(routes, "/favorites/" + p, DELETE);
    ResolveServes(routes, "/notifications/" + p, GET);
    ResolveServes(routes, "/notifications/" + p, PUT);
  }

  lemma SlashParam(p: string)
    requires '/' in p
    ensures ServedOrFallback("/" + p, GET) != Some(GetProfileByID)
  {
    var t := "/" + p;
    assert t[1..] == p;
    assert "/{user_id}"[1..] == "{user_id}" && '/' !in "{user_id}";
  }

  /** On the user route it must not be empty, hold a slash or be the name of another GET route. */
  lemma UserRoundTrip(routes: RouteMap, p: string)
    requires IsApi(routes)
    ensures Reaches(routes, "/" + p, GET, GetProfileByID, "user_id", p)
       <==> p != "" && '/' !in p && p !in ["me", "contacts", "favorites", "notifications"]
  {
    var t := "/" + p;
    assert t[1..] == p;
    ResolveServes(routes, t, GET);
    if p == "" {
      assert t == "/" && "user_id" in map["user_id" := p];
    } else if '/' in p {
      SlashParam(p);
    } else {
      PlainParam(p);
      if p != "me" {
        UserParam(p);
      }
    }
  }
}
