/**
 The route table of `api_spec.cpp`, the nested map and the resolution of `request_manager.cpp`,
 the handler map of `handler_factory.cpp` and the second dispatch inside every handler.
 */
module Routing {
  import opened Outcomes

  /** An HTTP verb, by the number of its enumerator; only their being distinct matters. */
  type Verb = nat

  const DELETE: Verb := 1
  const GET: Verb := 2
  const POST: Verb := 4
  const PUT: Verb := 5
  const OPTIONS: Verb := 7
  const PATCH: Verb := 29

  datatype HandlerId =
    | CreateProfile | GetMyProfile | GetProfileByID | UpdateProfile | UploadAvatar | DeleteAvatar
    | GetContacts | AddContact | DeleteContact
    | GetPrivacy | UpdatePrivacy
    | GetFavorites | AddFavorite | RemoveFavorite
    | GetNotifications | GetChatNotifications | UpdateNotifications | UpdateChatNotifications

  datatype HandlerInfo = HandlerInfo(verb: Verb, id: HandlerId, scope: string)

  datatype Route = Route(path: string, info: HandlerInfo)

  type FlatRoutes = map<string, HandlerInfo>
  type RouteMap = map<string, map<Verb, HandlerInfo>>

  const PROFILE_ROUTES: seq<Route> := [
    Route("/internal/profiles", HandlerInfo(POST, CreateProfile, "profile:write")),
    Route("/me", HandlerInfo(GET, GetMyProfile, "profile:read")),
    Route("/me", HandlerInfo(PATCH, UpdateProfile, "profile:write")),
    Route("/{user_id}", HandlerInfo(GET, GetProfileByID, "profile:read")),
    Route("/me/avatar", HandlerInfo(POST, UploadAvatar, "profile:write")),
    Route("/me/avatar", HandlerInfo(DELETE, DeleteAvatar, "profile:write"))
  ]

  const PRIVACY_ROUTES: seq<Route> := [
    Route("/me/privacy", HandlerInfo(GET, GetPrivacy, "profile:read")),
    Route("/me/privacy", HandlerInfo(PUT, UpdatePrivacy, "profile:write"))
  ]

  const CONTACTS_ROUTES: seq<Route> := [
    Route("/contacts", HandlerInfo(GET, GetContacts, "contacts:read")),
    Route("/contacts", HandlerInfo(POST, AddContact, "contacts:write")),
    Route("/contacts/{contact_id}", HandlerInfo(DELETE, DeleteContact, "contacts:write"))
  ]

  const FAVORITES_ROUTES: seq<Route> := [
    Route("/favorites", HandlerInfo(GET, GetFavorites, "favorites:read")),
    Route("/favorites/{chat_id}", HandlerInfo(POST, AddFavorite, "favorites:write")),
    Route("/favorites/{chat_id}", HandlerInfo(DELETE, RemoveFavorite, "favorites:write"))
  ]

  const NOTIFICATION_READS: seq<Route> := [
    Route("/notifications", HandlerInfo(GET, GetNotifications, "notifications:read")),
    Route("/notifications/{chat_id}", HandlerInfo(GET, GetChatNotifications, "notifications:read"))
  ]

  const NOTIFICATION_WRITES: seq<Route> := [
    Route("/notifications", HandlerInfo(PUT, UpdateNotifications, "notifications:write")),
    Route("/notifications/{chat_id}", HandlerInfo(PUT, UpdateChatNotifications, "notifications:write"))
  ]

  const NOTIFICATIONS_ROUTES: seq<Route> := NOTIFICATION_READS + NOTIFICATION_WRITES

  const TABLE: seq<Route> :=
    PROFILE_ROUTES + PRIVACY_ROUTES + CONTACTS_ROUTES + FAVORITES_ROUTES + NOTIFICATIONS_ROUTES

  // ---------------------------------------------------------------- the flat table

  function DecimalDigit(d: nat): (c: char)
    requires d < 10
  {
    ('0' as int + d) as char
  }

  /** `std::to_string` of a verb's number. */
  function Decimal(n: nat): (s: string)
    ensures s != ""
  {
    if n < 10 then [DecimalDigit(n)] else Decimal(n / 10) + [DecimalDigit(n % 10)]
  }

  function Key(path: string, verb: Verb): string
  {
    path + ":" + Decimal(verb)
  }

  predicate ColonFree(path: string)
  {
    ':' !in path
  }

  ghost predicate ColonFreeTable(rows: seq<Route>)
  {
    forall i :: 0 <= i < |rows| ==> ColonFree(rows[i].path)
  }

  /** The flat table after adding the rows one by one. */
  function FlatOf(rows: seq<Route>): FlatRoutes
  {
    if rows == [] then map[] else
    var last := rows[|rows| - 1];
    FlatOf(rows[..|rows| - 1])[Key(last.path, last.info.verb) := last.info]
  }

  method AddRoutes(rows: seq<Route>) returns (flat: FlatRoutes)
    ensures flat == FlatOf(rows)
  {
    flat := map[];
    for i := 0 to |rows|
      invariant flat == FlatOf(rows[..i])
    {
      var row := rows[i];
      assert rows[..i + 1][..i] == rows[..i];
      flat := flat[Key(row.path, row.info.verb) := row.info];
    }
    assert rows[..|rows|] == rows;
  }

  // ---------------------------------------------------------------- the nested map

  /** `key.find(':')`. */
  function FirstColon(s: string): (i: Option<nat>)
    ensures i.Some? ==> i.value < |s|
  {
    if s == "" then None
    else if s[0] == ':' then Some(0)
    else match FirstColon(s[1..])
      case None => None
      case Some(j) => Some(j + 1)
  }

  function FindExact(routes: RouteMap, path: string, verb: Verb): Option<HandlerInfo>
  {
    if path in routes && verb in routes[path] then Some(routes[path][verb]) else None
  }

  /** Every key was printed from a path without a colon and the method of its own row. */
  ghost predicate WellKeyed(flat: FlatRoutes)
  {
    forall key :: key in flat ==> exists path :: ColonFree(path) && key == Key(path, flat[key].verb)
  }

  /** What the nested map must find for a path and method. */
  function FlatFind(flat: FlatRoutes, path: string, verb: Verb): Option<HandlerInfo>
  {
    if ColonFree(path) && Key(path, verb) in flat then Some(flat[Key(path, verb)]) else None
  }

  /** The rows visited so far, those whose key is not in rest, are found, and nothing else. */
  ghost predicate Covers(routes: RouteMap, flat: FlatRoutes, rest: set<string>)
  {
    forall path, verb ::
      FindExact(routes, path, verb)
      == if Key(path, verb) in rest then None else FlatFind(flat, path, verb)
  }

  lemma {:induction false} FirstColonOfKey(path: string, verb: Verb)
    requires ColonFree(path)
    ensures FirstColon(Key(path, verb)) == Some(|path|)
    ensures Key(path, verb)[..|path|] == path
  {
    if path == "" {
    } else {
      FirstColonOfKey(path[1..], verb);
      assert Key(path, verb)[1..] == Key(path[1..], verb);
    }
  }

  lemma {:induction false} DecimalInjective(m: nat, n: nat)
    requires Decimal(m) == Decimal(n)
    ensures m == n
  {
    var s := Decimal(m);
    assert s[|s| - 1] == DecimalDigit(m % 10) == DecimalDigit(n % 10);
    assert m >= 10 <==> |Decimal(m)| > 1;
    assert n >= 10 <==> |Decimal(n)| > 1;
    if m < 10 {
    } else {
      assert s[..|s| - 1] == Decimal(m / 10) == Decimal(n / 10);
      DecimalInjective(m / 10, n / 10);
    }
  }

  /** The printed key determines the path and the method. */
  lemma KeyInjective(path: string, verb: Verb, path': string, verb': Verb)
    requires ColonFree(path) && ColonFree(path')
    requires Key(path, verb) == Key(path', verb')
    ensures path == path' && verb == verb'
  {
    FirstColonOfKey(path, verb);
    FirstColonOfKey(path', verb');
    assert Decimal(verb) == Key(path, verb)[|path| + 1..];
    assert Decimal(verb') == Key(path', verb')[|path| + 1..];
    DecimalInjective(verb, verb');
  }

  lemma CoversNext(before: RouteMap, after: RouteMap, flat: FlatRoutes, rest: set<string>, key: string)
    requires WellKeyed(flat) && Covers(before, flat, rest)
    requires key in rest && key in flat
    requires
      match FirstColon(key)
      case None => after == before
      case Some(i) =>
        var inner := if key[..i] in before then before[key[..i]] else map[];
        after == before[key[..i] := inner[flat[key].verb := flat[key]]]
    ensures Covers(after, flat, rest - {key})
  {
    var own :| ColonFree(own) && key == Key(own, flat[key].verb);
    FirstColonOfKey(own, flat[key].verb);
    forall path, verb
      ensures FindExact(after, path, verb)
           == if Key(path, verb) in rest - {key} then None else FlatFind(flat, path, verb)
    {
      if path == own && verb == flat[key].verb {
        assert FindExact(after, path, verb) == Some(flat[key]);
      } else {
        assert FindExact(after, path, verb) == FindExact(before, path, verb);
        if ColonFree(path) && Key(path, verb) == key {
          KeyInjective(path, verb, own, flat[key].verb);
        }
      }
    }
  }

  /** The table is visited in an arbitrary order, as iteration over an unordered map is. */
  method BuildRouteMap(flat: FlatRoutes) returns (routes: RouteMap)
    ensures WellKeyed(flat) ==>
      forall path, verb :: FindExact(routes, path, verb) == FlatFind(flat, path, verb)
  {
    routes := map[];
    var rest := flat.Keys;
    while rest != {}
      invariant rest <= flat.Keys
      invariant WellKeyed(flat) ==> Covers(routes, flat, rest)
      decreases rest
    {
      var key :| key in rest;
      var info := flat[key];
      ghost var before := routes;
      var colon := FirstColon(key);
      if colon.Some? {
        var path := key[..colon.value];
        var inner := if path in routes then routes[path] else map[];
        routes := routes[path := inner[info.verb := info]];
      }
      if WellKeyed(flat) {
        CoversNext(before, routes, flat, rest, key);
      }
      rest := rest - {key};
    }
  }

  // ---------------------------------------------------------------- the rows a map finds

  /** The last row of a table for a path and method: a later row replaces an earlier one. */
  function LastRow(rows: seq<Route>, path: string, verb: Verb): Option<HandlerInfo>
  {
    if rows == [] then None else
    var last := rows[|rows| - 1];
    if last.path == path && last.info.verb == verb then Some(last.info)
    else LastRow(rows[..|rows| - 1], path, verb)
  }

  lemma {:induction false} FlatOfWellKeyed(rows: seq<Route>)
    requires ColonFreeTable(rows)
    ensures WellKeyed(FlatOf(rows))
  {
    if rows == [] {
    } else {
      var n := |rows| - 1;
      FlatOfWellKeyed(rows[..n]);
      var flat, was := FlatOf(rows), FlatOf(rows[..n]);
      var added := Key(rows[n].path, rows[n].info.verb);
      forall key | key in flat
        ensures exists path :: ColonFree(path) && key == Key(path, flat[key].verb)
      {
        if key == added {
          assert ColonFree(rows[n].path) && key == Key(rows[n].path, flat[key].verb);
        } else {
          assert key in was && flat[key] == was[key];
        }
      }
    }
  }

  lemma {:induction false} FlatFindsLastRow(rows: seq<Route>, path: string, verb: Verb)
    requires ColonFreeTable(rows)
    ensures FlatFind(FlatOf(rows), path, verb) == LastRow(rows, path, verb)
  {
    if rows == [] {
    } else {
      var n := |rows| - 1;
      FlatFindsLastRow(rows[..n], path, verb);
      assert ColonFree(rows[n].path);
      if ColonFree(path) && Key(path, verb) == Key(rows[n].path, rows[n].info.verb) {
        KeyInjective(path, verb, rows[n].path, rows[n].info.verb);
      }
    }
  }

  /** The two loops together: the map finds each row at its path and method, and nothing else. */
  method BuildRoutes(rows: seq<Route>) returns (routes: RouteMap)
    ensures ColonFreeTable(rows) ==>
      forall path, verb :: FindExact(routes, path, verb) == LastRow(rows, path, verb)
  {
    var flat := AddRoutes(rows);
    routes := BuildRouteMap(flat);
    if ColonFreeTable(rows) {
      FlatOfWellKeyed(rows);
      forall path, verb ensures FindExact(routes, path, verb) == LastRow(rows, path, verb) {
        FlatFindsLastRow(rows, path, verb);
      }
    }
  }

  // ---------------------------------------------------------------- resolution

  predicate StartsWith(s: string, prefix: string)
  {
    prefix <= s
  }

  function ResolveRoute(routes: RouteMap, target: string, verb: Verb): Option<HandlerInfo>
  {
    var exact := FindExact(routes, target, verb);
    if exact.Some? then exact
    else if StartsWith(target, "/contacts/") then FindExact(routes, "/contacts/{contact_id}", verb)
    else if StartsWith(target, "/favorites/") then FindExact(routes, "/favorites/{chat_id}", verb)
    else if StartsWith(target, "/notifications/") then FindExact(routes, "/notifications/{chat_id}", verb)
    else if target != "/me" && target != "/me/avatar" && target != "/me/privacy"
      && StartsWith(target, "/") && '/' !in target[1..]
    then FindExact(routes, "/{user_id}", verb)
    else None
  }

  /** The parameters that ExtractPathParams enters into the context. */
  function PathParams(target: string): map<string, string>
  {
    if StartsWith(target, "/contacts/") && target != "/contacts" then map["contact_id" := target[10..]]
    else if StartsWith(target, "/favorites/") then map["chat_id" := target[11..]]
    else if StartsWith(target, "/notifications/") && target != "/notifications"
    then map["chat_id" := target[15..]]
    else if target != "/me" && StartsWith(target, "/") && |target| > 1 then map["user_id" := target[1..]]
    else map[]
  }

  // ---------------------------------------------------------------- the second dispatch

  datatype HandlerKind =
    ProfileKind | ContactsKind | PrivacyKind | FavoritesKind | NotificationsKind

  function KindOf(id: HandlerId): HandlerKind
  {
    match id
    case CreateProfile | GetMyProfile | GetProfileByID | UpdateProfile | UploadAvatar | DeleteAvatar =>
      ProfileKind
    case GetContacts | AddContact | DeleteContact => ContactsKind
    case GetPrivacy | UpdatePrivacy => PrivacyKind
    case GetFavorites | AddFavorite | RemoveFavorite => FavoritesKind
    case GetNotifications | GetChatNotifications | UpdateNotifications | UpdateChatNotifications =>
      NotificationsKind
  }

  /** The action a handler of each class selects on its own; None is its `not_found`. */
  function Select(handler: HandlerKind, verb: Verb, target: string): Option<HandlerId>
  {
    match handler
    case ProfileKind =>
      if verb == POST && target == "/internal/profiles" then Some(CreateProfile)
      else if verb == GET && target == "/me" then Some(GetMyProfile)
      else if verb == PATCH && target == "/me" then Some(UpdateProfile)
      else if verb == GET && StartsWith(target, "/") && target != "/me" then Some(GetProfileByID)
      else if verb == POST && target == "/me/avatar" then Some(UploadAvatar)
      else if verb == DELETE && target == "/me/avatar" then Some(DeleteAvatar)
      else None
    case ContactsKind =>
      if verb == GET && target == "/contacts" then Some(GetContacts)
      else if verb == POST && target == "/contacts" then Some(AddContact)
      else if verb == DELETE && StartsWith(target, "/contacts/") then Some(DeleteContact)
      else None
    case PrivacyKind =>
      if verb == GET && target == "/me/privacy" then Some(GetPrivacy)
      else if verb == PUT && target == "/me/privacy" then Some(UpdatePrivacy)
      else None
    case FavoritesKind =>
      if verb == GET && target == "/favorites" then Some(GetFavorites)
      else if verb == POST && StartsWith(target, "/favorites/") then Some(AddFavorite)
      else if verb == DELETE && StartsWith(target, "/favorites/") then Some(RemoveFavorite)
      else None
    case NotificationsKind =>
      if verb == GET && target == "/notifications" then Some(GetNotifications)
      else if verb == GET && StartsWith(target, "/notifications/") then Some(GetChatNotifications)
      else if verb == PUT && target == "/notifications" then Some(UpdateNotifications)
      else if verb == PUT && StartsWith(target, "/notifications/") then Some(UpdateChatNotifications)
      else None
  }

  /** The path parameter an action reads, if any. */
  function RequiredParam(id: HandlerId): Option<string>
  {
    match id
    case GetProfileByID => Some("user_id")
    case DeleteContact => Some("contact_id")
    case AddFavorite | RemoveFavorite | GetChatNotifications | UpdateChatNotifications => Some("chat_id")
    case _ => None
  }
}
