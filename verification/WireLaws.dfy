/** From URL to plan: what the routes mean to the laws about plans. */
module WireLaws {
  import opened Outcomes
  import opened Database
  import opened Routing
  import opened RoutingLaws
  import opened Requests

  /** The request manager lets this request of this scope through. */
  predicate Admitted(sv: Service, r: Request, scope: string)
  {
    IsProfileCreation(r) || (UserOf(r) != "" && sv.env.allows(UserOf(r), scope))
  }

  /**
   A resolved and admitted request is planned by the action of its route, whatever its target
   and verb: no handler answers not_found, and no action but profile creation acts without a
   user. Any other request is answered 404, 401 or 403.
   */
  lemma RoutedPlan(sv: Service, r: Request)
    requires IsApi(sv.routes) && r.verb != OPTIONS
    ensures
      match ResolveRoute(sv.routes, r.target, r.verb)
      case None => PlanFor(sv, r) == Reply(Response(404, Error("route_not_found")))
      case Some(info) =>
        if Admitted(sv, r, info.scope) then
          && PlanFor(sv, r) == PlanOf(sv.env, info.id, r.body, RouteContext(UserOf(r), PathParams(r.target)))
          && (UserOf(r) == "" ==> info.id == CreateProfile)
        else
          PlanFor(sv, r) == Reply(if UserOf(r) == "" then Response(401, Error("missing X-User-ID"))
                                  else Response(403, Error("auth_failed")))
  {
    hide PlanOf, Select, ResolveRoute, PathParams;
    DispatchCoherent(sv.routes, r.target, r.verb);
  }

  /** OPTIONS is always answered 204 without a body, and changes nothing. */
  lemma OptionsAnswered(sv: Service, t: Tables, r: Request)
    requires r.verb == OPTIONS
    ensures PlanFor(sv, r).Reply? && Serve(sv, t, r) == (t, Response(204, Empty))
  {
  }

  /**
   What is refused before any handler, in this order: an unknown route, a missing or empty user
   header, a user without the scope of the route. Profile creation needs no user.
   */
  lemma Refused(sv: Service, t: Tables, r: Request)
    requires r.verb != OPTIONS
    ensures
      var route := ResolveRoute(sv.routes, r.target, r.verb);
      if route.None? then Serve(sv, t, r) == (t, Response(404, Error("route_not_found")))
      else if r.verb == POST && r.target == "/internal/profiles" then true
      else if r.userHeader in [None, Some("")] then Serve(sv, t, r) == (t, Response(401, Error("missing X-User-ID")))
      else !sv.env.allows(r.userHeader.value, route.value.scope) ==>
        Serve(sv, t, r) == (t, Response(403, Error("auth_failed")))
  {
    hide ResolveRoute, PlanBound;
  }

  /** A user with this scope. */
  predicate MayUse(sv: Service, r: Request, scope: string)
  {
    UserOf(r) != "" && sv.env.allows(UserOf(r), scope)
  }

  lemma ReachedPlan(sv: Service, r: Request, id: HandlerId, name: string, p: string)
    requires IsApi(sv.routes) && r.verb != OPTIONS && Reaches(sv.routes, r.target, r.verb, id, name, p)
    ensures MayUse(sv, r, ScopeOf(id)) ==>
      PlanFor(sv, r) == PlanOf(sv.env, id, r.body, RouteContext(UserOf(r), map[name := p]))
  {
    hide PlanFor, PlanOf, ResolveRoute, PathParams, ServedOrFallback;
    ResolveServes(sv.routes, r.target, r.verb);
    RoutedPlan(sv, r);
  }

  /** A request to a parametrised route, admitted to its scope, acts on exactly the parameter in its URL. */
  lemma ContactParamPlan(sv: Service, r: Request, p: string)
    requires IsApi(sv.routes)
    ensures r.verb == DELETE && r.target == "/contacts/" + p && MayUse(sv, r, "contacts:write") ==>
      PlanFor(sv, r) == Modify(DropContact(UserOf(r), p), Response(204, Empty),
                               Failure(404, "contact not found", false))
  {
    hide PlanFor, ResolveRoute, PathParams, ServedOrFallback, Reaches;
    if r.verb == DELETE && r.target == "/contacts/" + p {
      ParamRoundTrip(sv.routes, p);
      ReachedPlan(sv, r, DeleteContact, "contact_id", p);
    }
  }

  lemma FavoriteParamPlan(sv: Service, r: Request, p: string)
    requires IsApi(sv.routes)
    ensures r.verb == POST && r.target == "/favorites/" + p && MayUse(sv, r, "favorites:write") ==>
      PlanFor(sv, r) == Modify(PutFavorite(UserOf(r), p), Response(201, Empty),
                               Failure(500, "failed to add favorite", false))
    ensures r.verb == DELETE && r.target == "/favorites/" + p && MayUse(sv, r, "favorites:write") ==>
      PlanFor(sv, r) == Modify(DropFavorite(UserOf(r), p), Response(204, Empty),
                               Failure(500, "failed to remove favorite", false))
  {
    hide PlanFor, ResolveRoute, PathParams, ServedOrFallback, Reaches;
    if r.verb in [POST, DELETE] && r.target == "/favorites/" + p {
      ParamRoundTrip(sv.routes, p);
      ReachedPlan(sv, r, if r.verb == POST then AddFavorite else RemoveFavorite, "chat_id", p);
    }
  }

  lemma ChatParamPlan(sv: Service, r: Request, p: string)
    requires IsApi(sv.routes)
    ensures r.verb == GET && r.target == "/notifications/" + p && MayUse(sv, r, "notifications:read") ==>
      PlanFor(sv, r) == FetchChat(UserOf(r), p)
    ensures r.verb == PUT && r.target == "/notifications/" + p && MayUse(sv, r, "notifications:write") ==>
      PlanFor(sv, r) == PlanUpdateNotifications(sv.env, r.body, UserOf(r), p)
  {
    hide PlanFor, ResolveRoute, PathParams, PlanUpdateNotifications, ServedOrFallback, Reaches;
    if r.verb in [GET, PUT] && r.target == "/notifications/" + p {
      ParamRoundTrip(sv.routes, p);
      ReachedPlan(sv, r, if r.verb == GET then GetChatNotifications else UpdateChatNotifications, "chat_id", p);
    }
  }

  /** And one to a fixed route acts on the rows of its user. */
  lemma FixedPlanOfContacts(sv: Service, r: Request)
    requires IsApi(sv.routes)
    ensures r.verb == GET && r.target == "/contacts" && MayUse(sv, r, "contacts:read") ==>
      PlanFor(sv, r) == FetchContacts(UserOf(r))
    ensures r.verb == POST && r.target == "/contacts" && MayUse(sv, r, "contacts:write") ==>
      PlanFor(sv, r) == PlanAddContact(r.body, UserOf(r))
  {
    hide PlanFor, ResolveRoute, PathParams, Fallback;
    hide PlanAddContact;
    if r.verb in [GET, POST] {
      ResolveServes(sv.routes, r.target, r.verb);
      RoutedPlan(sv, r);
    }
  }

  lemma FixedPlanOfFavorites(sv: Service, r: Request)
    requires IsApi(sv.routes)
    ensures r.verb == GET && r.target == "/favorites" && MayUse(sv, r, "favorites:read") ==>
      PlanFor(sv, r) == FetchFavorites(UserOf(r))
  {
    hide PlanFor, ResolveRoute, PathParams, Fallback;
    if r.verb == GET {
      ResolveServes(sv.routes, r.target, r.verb);
      RoutedPlan(sv, r);
    }
  }

  lemma FixedPlanOfPrivacy(sv: Service, r: Request)
    requires IsApi(sv.routes)
    ensures r.verb == GET && r.target == "/me/privacy" && MayUse(sv, r, "profile:read") ==>
      PlanFor(sv, r) == FetchPrivacy(UserOf(r))
    ensures r.verb == PUT && r.target == "/me/privacy" && MayUse(sv, r, "profile:write") ==>
      PlanFor(sv, r) == PlanUpdatePrivacy(r.body, UserOf(r))
  {
    hide PlanFor, ResolveRoute, PathParams, Fallback, PlanUpdatePrivacy;
    if r.verb in [GET, PUT] {
      ResolveServes(sv.routes, r.target, r.verb);
      RoutedPlan(sv, r);
    }
  }

  lemma FixedPlanOfAvatar(sv: Service, r: Request)
    requires IsApi(sv.routes)
    ensures r.verb == POST && r.target == "/me/avatar" && MayUse(sv, r, "profile:write") ==>
      PlanFor(sv, r) == PlanUploadAvatar(sv.env, r.body, UserOf(r))
    ensures r.verb == DELETE && r.target == "/me/avatar" && MayUse(sv, r, "profile:write") ==>
      PlanFor(sv, r) == Modify(SetAvatar(UserOf(r), ""), Response(204, Empty), Failure(500, "delete failed", false))
  {
    hide PlanFor, ResolveRoute, PathParams, Fallback, PlanUploadAvatar;
    if r.verb in [POST, DELETE] {
      ResolveServes(sv.routes, r.target, r.verb);
      RoutedPlan(sv, r);
    }
  }

  /** GET /p reads the profile of p, whoever asks, unless p is empty, has a slash or is the name of another route. */
  lemma UserPlan(sv: Service, r: Request, p: string)
    requires IsApi(sv.routes) && r.verb == GET && r.target == "/" + p && MayUse(sv, r, "profile:read")
    requires p != "" && '/' !in p && p !in ["me", "contacts", "favorites", "notifications"]
    ensures PlanFor(sv, r) == FetchProfile(p)
  {
    hide PlanFor, ResolveRoute, PathParams, ServedOrFallback;
    UserRoundTrip(sv.routes, p);
    ResolveServes(sv.routes, r.target, r.verb);
    RoutedPlan(sv, r);
  }

  lemma RootIsUser()
    ensures ServedOrFallback("/", GET) == Some(GetProfileByID)
  {
  }

  /** GET / is routed to the profile of a user that is not given. */
  lemma RootAnswered(sv: Service, t: Tables, r: Request)
    requires IsApi(sv.routes) && r.verb == GET && r.target == "/" && MayUse(sv, r, "profile:read")
    ensures Serve(sv, t, r) == (t, Response(400, Error("user_id required")))
  {
    hide ResolveRoute, PathParams, ServedOrFallback, PlanFor;
    DispatchCoherent(sv.routes, r.target, r.verb);
    RootIsUser();
    ResolveServes(sv.routes, r.target, r.verb);
    RoutedPlan(sv, r);
  }

  lemma FixedPlanOfUser(sv: Service, r: Request)
    requires IsApi(sv.routes)
    ensures r.verb == GET && r.target == "/notifications" && MayUse(sv, r, "notifications:read") ==>
      PlanFor(sv, r) == FetchGlobal(UserOf(r))
    ensures r.verb == PUT && r.target == "/notifications" && MayUse(sv, r, "notifications:write") ==>
      PlanFor(sv, r) == PlanUpdateNotifications(sv.env, r.body, UserOf(r), "")
    ensures r.verb == GET && r.target == "/me" && MayUse(sv, r, "profile:read") ==>
      PlanFor(sv, r) == FetchProfile(UserOf(r))
    ensures r.verb == PATCH && r.target == "/me" && MayUse(sv, r, "profile:write") ==>
      PlanFor(sv, r) == PlanUpdateProfile(r.body, UserOf(r))
    ensures IsProfileCreation(r) ==> PlanFor(sv, r) == PlanCreateProfile(sv.env, r.body)
  {
    hide PlanFor, ResolveRoute, PathParams, Fallback;
    hide PlanUpdateNotifications, PlanUpdateProfile, PlanCreateProfile;
    if r.verb in [GET, PUT, PATCH, POST] {
      ResolveServes(sv.routes, r.target, r.verb);
      RoutedPlan(sv, r);
    }
  }

  /** The scope that guards what a plan does; None for answers without the store and for profile creation. */
  function PlanScope(plan: Plan): Option<string>
  {
    match plan
    case Reply(_) => None
    case FetchProfile(_) => Some("profile:read")
    case FetchPrivacy(_) => Some("profile:read")
    case FetchContacts(_) => Some("contacts:read")
    case FetchFavorites(_) => Some("favorites:read")
    case FetchGlobal(_) => Some("notifications:read")
    case FetchChat(_, _) => Some("notifications:read")
    case Amend(_, _) => Some("profile:write")
    case Modify(command, _, _) =>
      match command
      case InsertProfile(_) => None
      case PutContact(_, _, _) => Some("contacts:write")
      case DropContact(_, _) => Some("contacts:write")
      case PutFavorite(_, _) => Some("favorites:write")
      case DropFavorite(_, _) => Some("favorites:write")
      case PutNotification(_, _, _, _) => Some("notifications:write")
      case _ => Some("profile:write")
  }

  lemma PlanOfScope(env: Environment, id: HandlerId, body: Body, ctx: RouteContext)
    ensures var scope := PlanScope(PlanOf(env, id, body, ctx)); scope.Some? ==> scope.value == ScopeOf(id)
  {
    hide PlanCreateProfile, PlanUpdateProfile, PlanUploadAvatar;
    hide PlanUpdatePrivacy, PlanAddContact, PlanUpdateNotifications, ActsFor, MissingParam;
  }

  lemma CreationUnscoped(sv: Service, r: Request)
    requires IsProfileCreation(r)
    ensures PlanScope(PlanFor(sv, r)).None?
  {
  }

  /**
   Whatever a request reads or changes, other than by creating a profile, it does for a user
   who is allowed the scope of just that: every change but creation is checked against the
   ":write" scope of its area, every read against the ":read" scope.
   */
  lemma PlansAreScoped(sv: Service, r: Request)
    requires IsApi(sv.routes)
    ensures var scope := PlanScope(PlanFor(sv, r)); scope.Some? ==> MayUse(sv, r, scope.value)
  {
    hide PlanFor, PlanOf, ResolveRoute, PathParams, ServedOrFallback, ScopeOf;
    if r.verb == OPTIONS {
      OptionsAnswered(sv, EMPTY, r);
    } else {
      ResolveServes(sv.routes, r.target, r.verb);
      RoutedPlan(sv, r);
      var route := ResolveRoute(sv.routes, r.target, r.verb);
      if route.Some? {
        PlanOfScope(sv.env, route.value.id, r.body, RouteContext(UserOf(r), PathParams(r.target)));
        if IsProfileCreation(r) {
          CreationUnscoped(sv, r);
        }
      }
    }
  }
}
