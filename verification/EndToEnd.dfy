/** The main laws once more, from URL to answer, for a service with the program's own routes. */
module EndToEnd {
  import opened Outcomes
  import opened OwnedRows
  import opened Database
  import opened Routing
  import opened RoutingLaws
  import opened Requests
  import opened ListHistory
  import opened SettingsHistory
  import opened ProfileHistory
  import opened ProfileLaws
  import opened BodyLaws
  import opened Invariants
  import opened Shortfalls
  import opened WireLaws

  /** A request that its scope is allowed for, while the store answers. */
  predicate Asks(sv: Service, r: Request, scope: string)
  {
    MayUse(sv, r, scope) && r.first.None?
  }

  /** GET /contacts answers the contacts as the user's history has them. */
  lemma ContactsOverHttp(sv: Service, history: seq<Request>, r: Request, user: string)
    requires IsApi(sv.routes) && CanonicalIds(sv.env)
    requires Asks(sv, r, "contacts:read") && sv.env.id(UserOf(r)) == Id(user)
    requires r.verb == GET && r.target == "/contacts"
    ensures AnswersContacts(Serve(sv, After(sv, history), r).1, user, ContactOps(sv, history, user))
  {
    hide AnswersContacts, Serve, After, PlanFor;
    FixedPlanOfContacts(sv, r);
    ListingsAreAnswered(sv, history, r, user);
  }

  /** GET /favorites answers the favourites as the user's history has them. */
  lemma FavoritesOverHttp(sv: Service, history: seq<Request>, r: Request, user: string)
    requires IsApi(sv.routes) && CanonicalIds(sv.env)
    requires Asks(sv, r, "favorites:read") && sv.env.id(UserOf(r)) == Id(user)
    requires r.verb == GET && r.target == "/favorites"
    ensures AnswersFavorites(Serve(sv, After(sv, history), r).1, user, FavoriteOps(sv, history, user))
  {
    hide AnswersFavorites, Serve, After, PlanFor;
    FixedPlanOfFavorites(sv, r);
    ListingsAreAnswered(sv, history, r, user);
  }

  /** GET /notifications/c answers the flag of the last successful update for c; GET /notifications never one. */
  lemma NotificationsOverHttp(sv: Service, history: seq<Request>, r: Request, user: string, c: string, chat: string)
    requires IsApi(sv.routes) && CanonicalIds(sv.env)
    requires Asks(sv, r, "notifications:read") && sv.env.id(UserOf(r)) == Id(user) && r.verb == GET
    ensures r.target == "/notifications/" + c && sv.env.id(c) == Id(chat) ==>
      ShowsSetting(sv.env, Serve(sv, After(sv, history), r).1, UserOf(r), c, LastSetting(sv, history, user, chat))
    ensures r.target == "/notifications" ==>
      Serve(sv, After(sv, history), r).1 == Response(200, NotificationView(None, UserOf(r), Some(""), false, None))
  {
    hide Serve, After, PlanFor, ShowsSetting;
    if r.target == "/notifications" {
      FixedPlanOfUser(sv, r);
      GlobalIsNeverSet(sv, history, r);
    }
    if r.target == "/notifications/" + c && sv.env.id(c) == Id(chat) {
      ChatParamPlan(sv, r, c);
      ChatReadsLastWrite(sv, history, r, c);
    }
  }

  /** GET /me answers the profile as the user's history has it. */
  lemma ProfileOverHttp(sv: Service, history: seq<Request>, r: Request, user: string)
    requires IsApi(sv.routes) && CanonicalIds(sv.env)
    requires Asks(sv, r, "profile:read") && sv.env.id(UserOf(r)) == Id(user)
    requires r.verb == GET && r.target == "/me"
    ensures Serve(sv, After(sv, history), r).1
         == if Created(sv, history, user) then Response(200, ProfileByHistory(sv, history, user))
            else ErrorResponse(404, "profile not found")
  {
    hide Serve, After, PlanFor, Created, ProfileByHistory;
    FixedPlanOfUser(sv, r);
    ProfileReadsHistory(sv, history, r, UserOf(r), user);
  }

  /** GET /p answers the profile of p as the history has it, to every user with the scope. */
  lemma OtherProfileOverHttp(sv: Service, history: seq<Request>, r: Request, p: string, user: string)
    requires IsApi(sv.routes) && CanonicalIds(sv.env)
    requires Asks(sv, r, "profile:read") && r.verb == GET && r.target == "/" + p
    requires p != "" && '/' !in p && p !in ["me", "contacts", "favorites", "notifications"]
    requires sv.env.id(p) == Id(user)
    ensures Serve(sv, After(sv, history), r).1
         == if Created(sv, history, user) then Response(200, ProfileByHistory(sv, history, user))
            else ErrorResponse(404, "profile not found")
  {
    hide Serve, After, PlanFor, Created, ProfileByHistory;
    UserPlan(sv, r, p);
    ProfileReadsHistory(sv, history, r, p, user);
  }

  /** GET /me/privacy answers the last successful PUT as a whole, else "everyone" three times. */
  lemma PrivacyOverHttp(sv: Service, history: seq<Request>, r: Request, user: string)
    requires IsApi(sv.routes) && Asks(sv, r, "profile:read") && sv.env.id(UserOf(r)) == Id(user)
    requires r.verb == GET && r.target == "/me/privacy"
    ensures
      var response := Serve(sv, After(sv, history), r).1;
      var last := LastPrivacy(sv, history, user).Or(PrivacyRow("everyone", "everyone", "everyone"));
      && response.status == 200 && response.payload.PrivacyView?
      && response.payload.privacy.(userId := "") == PrivacySettings("", last.profile, last.lastSeen, last.avatar)
  {
    hide Serve, After, PlanFor, LastPrivacy;
    FixedPlanOfPrivacy(sv, r);
    PrivacyReadsLastWrite(sv, history, r, user);
  }

  /**
   After a POST /me/avatar that was answered with a URL, GET /me shows that URL if the profile
   was created before, else there is still no profile.
   */
  lemma AvatarOverHttp(sv: Service, history: seq<Request>, upload: Request, get: Request, user: string, url: string)
    requires IsApi(sv.routes) && CanonicalIds(sv.env)
    requires Asks(sv, get, "profile:read") && MayUse(sv, upload, "profile:write")
    requires sv.env.id(UserOf(get)) == sv.env.id(UserOf(upload)) == Id(user)
    requires get.verb == GET && get.target == "/me" && upload.verb == POST && upload.target == "/me/avatar"
    requires Serve(sv, After(sv, history), upload).1 == Response(200, AvatarView(UserOf(upload), url))
    ensures
      var view := ProfileByHistory(sv, history, user);
      Serve(sv, After(sv, history + [upload]), get).1
      == if Created(sv, history, user) then Response(200, view.(avatarUrl := url))
         else ErrorResponse(404, "profile not found")
  {
    hide After, PlanFor, Created, ProfileByHistory, PlanUploadAvatar;
    FixedPlanOfUser(sv, get);
    FixedPlanOfAvatar(sv, upload);
    UploadPlan(sv.env, upload.body, UserOf(upload));
    UploadIsStoredIff(sv, history, upload);
    AfterNext(sv, history, upload);
    var t, t' := After(sv, history), After(sv, history + [upload]);
    ShownIsByHistory(sv, history, UserOf(get), user);
    ProfileIsAnswered(sv, t', get, UserOf(get));
  }

  /** A PATCH succeeds only for a body of strings and a user with a profile. */
  lemma PatchNeedsProfile(env: Environment, t: Tables, r: Request)
    requires r.first.None? && !r.body.Malformed?
    requires Perform(env, t, r, PlanUpdateProfile(r.body, UserOf(r))).1.status == 200
    ensures PatchTyped(FieldsOf(r.body)) && Shown(env, t, UserOf(r)).Some?
  {
    PatchBody(r.body, UserOf(r));
  }

  /** A view with the strings of a JSON object in place of its texts, each under its own key. */
  function Patched(view: Payload, fields: JsonObject): Payload
    requires view.ProfileView?
  {
    ProfileView(view.userId,
                TextAt(fields, "first_name").Or(view.firstName), TextAt(fields, "last_name").Or(view.lastName),
                TextAt(fields, "username").Or(view.username), TextAt(fields, "bio").Or(view.bio),
                view.avatarUrl)
  }

  /**
   A PATCH /me that succeeds is answered with, and makes GET /me show, what GET showed before
   with the strings of the body under their keys; a key that is present held a string.
   */
  lemma PatchOverHttp(sv: Service, t: Tables, patch: Request, get: Request)
    requires IsApi(sv.routes) && CanonicalIds(sv.env) && Database.Valid(sv.env, t)
    requires Asks(sv, get, "profile:read") && Asks(sv, patch, "profile:write") && UserOf(patch) == UserOf(get)
    requires get.verb == GET && get.target == "/me" && patch.verb == PATCH && patch.target == "/me"
    requires Serve(sv, t, patch).1.status == 200
    ensures
      var fields, before := FieldsOf(patch.body), Serve(sv, t, get).1;
      && !patch.body.Malformed? && PatchTyped(fields)
      && before.status == 200 && before.payload.ProfileView?
      && Serve(sv, t, patch).1 == Response(200, Patched(before.payload, fields))
      && Serve(sv, Serve(sv, t, patch).0, get).1 == Response(200, Patched(before.payload, fields))
  {
    var fields := FieldsOf(patch.body);
    FixedPlanOfUser(sv, get);
    FixedPlanOfUser(sv, patch);
    PatchErrors(sv.env, t, patch);
    hide PlanFor, PlanUpdateProfile, PerformAmend;
    assert Serve(sv, t, patch) == Perform(sv.env, t, patch, PlanUpdateProfile(patch.body, UserOf(patch)));
    assert !patch.body.Malformed?;
    PatchBody(patch.body, UserOf(patch));
    PatchNeedsProfile(sv.env, t, patch);
    var p := Patch(TextAt(fields, "first_name"), TextAt(fields, "last_name"),
                   TextAt(fields, "username"), TextAt(fields, "bio"));
    PatchIsOverlay(sv, t, patch, p);
    ProfileIsAnswered(sv, t, get, UserOf(get));
    ProfileIsAnswered(sv, Serve(sv, t, patch).0, get, UserOf(get));
  }
}
