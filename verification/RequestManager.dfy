/** The request manager, its handlers and its route map, and the serial loop that feeds it. */
module RequestManager {
  import opened Outcomes
  import opened Database
  import opened Routing
  import opened RoutingLaws
  import opened Requests
  import opened Invariants
  import opened Repositories
  import opened Handlers

  const PROFILE_BINDINGS: map<HandlerId, HandlerKind> := map[
    CreateProfile := ProfileKind, GetMyProfile := ProfileKind, GetProfileByID := ProfileKind,
    UpdateProfile := ProfileKind, UploadAvatar := ProfileKind, DeleteAvatar := ProfileKind]

  const CONTACTS_BINDINGS: map<HandlerId, HandlerKind> := map[
    GetContacts := ContactsKind, AddContact := ContactsKind, DeleteContact := ContactsKind]

  const PRIVACY_BINDINGS: map<HandlerId, HandlerKind> := map[
    GetPrivacy := PrivacyKind, UpdatePrivacy := PrivacyKind]

  const FAVORITES_BINDINGS: map<HandlerId, HandlerKind> := map[
    GetFavorites := FavoritesKind, AddFavorite := FavoritesKind, RemoveFavorite := FavoritesKind]

  const NOTIFICATIONS_BINDINGS: map<HandlerId, HandlerKind> := map[
    GetNotifications := NotificationsKind, GetChatNotifications := NotificationsKind,
    UpdateNotifications := NotificationsKind, UpdateChatNotifications := NotificationsKind]

  /** All ids of one class, each bound to it. */
  ghost predicate Binds(part: map<HandlerId, HandlerKind>, handler: HandlerKind)
  {
    && (forall id :: KindOf(id) == handler ==> id in part)
    && (forall id :: id in part ==> KindOf(id) == handler == part[id])
  }

  lemma ProfileBinds()
    ensures Binds(PROFILE_BINDINGS, ProfileKind)
  {
  }

  lemma ListsBind()
    ensures Binds(CONTACTS_BINDINGS, ContactsKind) && Binds(FAVORITES_BINDINGS, FavoritesKind)
  {
  }

  lemma SettingsBind()
    ensures Binds(PRIVACY_BINDINGS, PrivacyKind) && Binds(NOTIFICATIONS_BINDINGS, NotificationsKind)
  {
  }

  lemma UnionBinds(a: map<HandlerId, HandlerKind>, b: map<HandlerId, HandlerKind>, c: map<HandlerId, HandlerKind>,
                   d: map<HandlerId, HandlerKind>, e: map<HandlerId, HandlerKind>)
    requires Binds(a, ProfileKind) && Binds(b, ContactsKind) && Binds(c, PrivacyKind)
    requires Binds(d, FavoritesKind) && Binds(e, NotificationsKind)
    ensures forall id :: id in a + b + c + d + e && (a + b + c + d + e)[id] == KindOf(id)
  {
  }

  /** Binds every handler id to the class of handler registered for it. */
  class HandlerFactory {
    var handlers: map<HandlerId, HandlerKind>

    ghost predicate Valid()
      reads this
    {
      forall id :: id in handlers && handlers[id] == KindOf(id)
    }

    constructor ()
      ensures Valid()
    {
      ProfileBinds();
      ListsBind();
      SettingsBind();
      UnionBinds(PROFILE_BINDINGS, CONTACTS_BINDINGS, PRIVACY_BINDINGS, FAVORITES_BINDINGS, NOTIFICATIONS_BINDINGS);
      handlers := PROFILE_BINDINGS + CONTACTS_BINDINGS + PRIVACY_BINDINGS + FAVORITES_BINDINGS + NOTIFICATIONS_BINDINGS;
    }

    /** None stands for the 501 answer of an id without a handler. */
    function Bind(id: HandlerId): Option<HandlerKind>
      reads this
    {
      if id in handlers then Some(handlers[id]) else None
    }
  }

  class Manager {
    const conn: Connection
    const factory: HandlerFactory
    const profiles: ProfileHandler
    const contacts: ContactsHandler
    const privacy: PrivacyHandler
    const favorites: FavoritesHandler
    const notifications: NotificationsHandler
    var routes: RouteMap

    ghost predicate Valid()
      reads this, conn, factory
    {
      && conn.Valid() && factory.Valid() && IsApi(routes)
      && profiles.repo.conn == conn && contacts.repo.conn == conn && privacy.repo.conn == conn
      && favorites.repo.conn == conn && notifications.repo.conn == conn
    }

    /** The service as the specification knows it. */
    ghost function Running(): Service
      reads this
    {
      Service(conn.env, routes)
    }

    constructor (env: Environment, tables: Tables)
      requires CanonicalIds(env) && Database.Valid(env, tables)
      ensures Valid() && fresh(conn) && fresh(factory)
      ensures conn.env == env && conn.tables == tables
    {
      var conn := new Connection(env, tables);
      var profileRepo := new ProfileRepository(conn);
      var contactsRepo := new ContactsRepository(conn);
      var privacyRepo := new PrivacyRepository(conn);
      var favoriteRepo := new FavoriteRepository(conn);
      var notificationRepo := new NotificationRepository(conn);
      var factory := new HandlerFactory();
      this.profiles := new ProfileHandler(profileRepo);
      this.contacts := new ContactsHandler(contactsRepo);
      this.privacy := new PrivacyHandler(privacyRepo);
      this.favorites := new FavoritesHandler(favoriteRepo);
      this.notifications := new NotificationsHandler(notificationRepo);
      this.conn, this.factory := conn, factory;
      TableIsServed();
      assert ColonFreeTable(TABLE);
      var routes := BuildRoutes(TABLE);
      this.routes := routes;
    }

    method Handle(r: Request) returns (response: Response)
      requires Valid()
      modifies conn
      ensures Valid()
      ensures (conn.tables, response) == Serve(Running(), old(conn.tables), r)
    {
      if r.verb == OPTIONS {
        return Response(204, Empty);
      }
      var route := ResolveRoute(routes, r.target, r.verb);
      if route.None? {
        return ErrorResponse(404, "route_not_found");
      }
      var userId := r.userHeader.Or("");
      if !IsProfileCreation(r) {
        if userId == "" {
          return ErrorResponse(401, "missing X-User-ID");
        }
        if !conn.env.allows(userId, route.value.scope) {
          return ErrorResponse(403, "auth_failed");
        }
      }
      var ctx := RouteContext(userId, PathParams(r.target));
      var handler := factory.Bind(route.value.id);
      // Every id is bound, so 501 is never answered.
      assert handler == Some(KindOf(route.value.id));
      match handler.value
      case ProfileKind => response := profiles.Handle(r, ctx);
      case ContactsKind => response := contacts.Handle(r, ctx);
      case PrivacyKind => response := privacy.Handle(r, ctx);
      case FavoritesKind => response := favorites.Handle(r, ctx);
      case NotificationsKind => response := notifications.Handle(r, ctx);
    }

    /** The worker's loop: one request after the other, on whatever the store holds. */
    method ServeAll(requests: seq<Request>)
      requires Valid()
      modifies conn
      ensures Valid() && conn.tables == Run(Running(), old(conn.tables), requests)
    {
      hide Serve, IsApi;
      for i := 0 to |requests|
        invariant Valid() && conn.tables == Run(Running(), old(conn.tables), requests[..i])
      {
        var _ := Handle(requests[i]);
        assert requests[..i + 1] == requests[..i] + [requests[i]];
        RunNext(Running(), old(conn.tables), requests[..i], requests[i]);
      }
      assert requests[..|requests|] == requests;
    }
  }
}
