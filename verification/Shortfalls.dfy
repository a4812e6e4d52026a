/**
 Promises the service does not keep: to read back global notification settings, to patch a profile
 without a username, to store an avatar whose upload it confirms, and to answer 409 for taken
 usernames only. For each, requests that show it and exactly when the promise is kept.
 */
module Shortfalls {
  import opened Outcomes
  import opened Database
  import opened Routing
  import opened RoutingLaws
  import opened Requests
  import opened Invariants
  import opened ListHistory
  import opened SettingsHistory
  import opened ProfileLaws
  import opened ProfileHistory
  import opened WireLaws
  import Base64

  function Creation(u: string): Request
  {
    Request(POST, "/internal/profiles", None, Object(map["user_id" := Str(u)]), None, None)
  }

  lemma CreationPerforms(env: Environment, t: Tables, u: string, key: string)
    requires u != "" && env.id(u) == Id(key)
    ensures Perform(env, t, Creation(u), PlanCreateProfile(env, Creation(u).body)).0
         == t.(profiles := if key in t.profiles then t.profiles else t.profiles[key := NEW_PROFILE])
  {
  }

  /** A creation adds an empty profile, unless there is one. */
  lemma CreationServes(sv: Service, t: Tables, u: string, key: string)
    requires IsApi(sv.routes) && u != "" && sv.env.id(u) == Id(key)
    ensures Serve(sv, t, Creation(u)).0
         == t.(profiles := if key in t.profiles then t.profiles else t.profiles[key := NEW_PROFILE])
  {
    FixedPlanOfUser(sv, Creation(u));
    CreationPerforms(sv.env, t, u, key);
  }

  // ---------------------------------------------------------------- global notification settings

  /** The flag that a request to PUT /notifications sets for a user, if it succeeds. */
  function GlobalBy(sv: Service, t: Tables, r: Request, user: string): Option<bool>
  {
    if r.verb == PUT && r.target == "/notifications" && sv.env.id(UserOf(r)) == Id(user)
       && Succeeded(sv, t, r) && PlanFor(sv, r).command.PutNotification?
    then Some(PlanFor(sv, r).command.muted) else None
  }

  /** The flag of the last successful PUT /notifications of a user. */
  function LastGlobal(sv: Service, history: seq<Request>, user: string): Option<bool>
  {
    if history == [] then None else
    var n := |history| - 1;
    var now := GlobalBy(sv, After(sv, history[..n]), history[n], user);
    if now.Some? then now else LastGlobal(sv, history[..n], user)
  }

  /** GET /notifications reports the last PUT /notifications exactly if there was none or it did not mute. */
  lemma GlobalReadsLastWriteIff(sv: Service, history: seq<Request>, r: Request, user: string)
    requires PlanFor(sv, r) == FetchGlobal(UserOf(r)) && sv.env.id(UserOf(r)) == Id(user) && r.first.None?
    requires CanonicalIds(sv.env)
    ensures
      var response := Serve(sv, After(sv, history), r).1;
      && response.status == 200 && response.payload.NotificationView?
      && (response.payload.muted == LastGlobal(sv, history, user).Or(false)
          <==> LastGlobal(sv, history, user) != Some(true))
  {
    hide PlanFor, After, LastGlobal, Serve;
    GlobalIsNeverSet(sv, history, r);
  }

  function MuteAll(u: string): Request
  {
    Request(PUT, "/notifications", Some(u), Object(map["muted" := Bool(true)]), None, None)
  }

  function ReadGlobal(u: string): Request
  {
    Request(GET, "/notifications", Some(u), NotAnObject, None, None)
  }

  lemma MutingPlan(env: Environment, u: string)
    ensures PlanUpdateNotifications(env, MuteAll(u).body, u, "")
         == Modify(PutNotification(u, "", true, None), Response(204, Empty), Failure(400, "", true))
  {
  }

  lemma MutingPerforms(env: Environment, t: Tables, u: string, key: string)
    requires env.id(u) == Id(key) && env.id("").Id? && key in t.profiles
    ensures
      Perform(env, t, MuteAll(u),
              Modify(PutNotification(u, "", true, None), Response(204, Empty), Failure(400, "", true))).1
      == Response(204, Empty)
  {
  }

  lemma AfterFirst(sv: Service, r: Request)
    ensures After(sv, [r]) == Serve(sv, EMPTY, r).0
  {
    assert [r] == [] + [r];
    AfterNext(sv, [], r);
  }

  /** A user who is created and mutes everything is answered 204, and then shown as not muted. */
  lemma MutingIsLost(sv: Service, u: string, key: string)
    requires IsApi(sv.routes) && CanonicalIds(sv.env)
    requires u != "" && sv.env.id(u) == Id(key) && sv.env.id("").Id?
    requires sv.env.allows(u, "notifications:write") && sv.env.allows(u, "notifications:read")
    ensures
      var t := After(sv, [Creation(u)]);
      && Serve(sv, t, MuteAll(u)).1 == Response(204, Empty)
      && LastGlobal(sv, [Creation(u), MuteAll(u)], key) == Some(true)
      && Serve(sv, After(sv, [Creation(u), MuteAll(u)]), ReadGlobal(u)).1
         == Response(200, NotificationView(None, u, Some(""), false, None))
  {
    hide PlanFor, Perform, PlanUpdateNotifications, After;
    var t := After(sv, [Creation(u)]);
    AfterFirst(sv, Creation(u));
    CreationServes(sv, EMPTY, u, key);
    FixedPlanOfUser(sv, MuteAll(u));
    FixedPlanOfUser(sv, ReadGlobal(u));
    MutingPlan(sv.env, u);
    MutingPerforms(sv.env, t, u, key);
    assert [Creation(u), MuteAll(u)][..1] == [Creation(u)];
    GlobalIsNeverSet(sv, [Creation(u), MuteAll(u)], ReadGlobal(u));
  }

  // ---------------------------------------------------------------- usernames

  /**
   A PATCH of an existing profile, answered by the store and with texts that fit, is refused
   exactly if PATCHes have left another user with the username it results in; if it sets none,
   that is the last one set, or the empty one.
   */
  lemma PatchRefusedIff(sv: Service, history: seq<Request>, r: Request, patch: Patch, user: string)
    requires CanonicalIds(sv.env) && PlanFor(sv, r) == Amend(UserOf(r), Ok(patch))
    requires r.first.None? && r.second.None? && sv.env.id(UserOf(r)) == Id(user) && Created(sv, history, user)
    requires
      var view := PatchedView(ProfileByHistory(sv, history, user), patch);
      sv.env.fits(FirstName, view.firstName) && sv.env.fits(LastName, view.lastName)
      && sv.env.fits(Username, view.username)
    ensures
      var response := Serve(sv, After(sv, history), r).1;
      var username := patch.username.Or(LastText(sv, history, user, Name).Or(""));
      if NamedByOther(sv, history, username, user) then response == ErrorResponse(409, TAKEN)
      else response == Response(200, PatchedView(ProfileByHistory(sv, history, user), patch))
  {
    var t := After(sv, history);
    var username := patch.username.Or(LastText(sv, history, user, Name).Or(""));
    var view := PatchedView(ProfileByHistory(sv, history, user), patch);
    assert view.username == username;
    hide PlanFor, After, Serve, LastText, NamedByOther, Created, Valid, UsernameTaken;
    hide Shown, ProfileByHistory, PatchedView;
    HistoryKeeps(sv, history);
    ShownIsByHistory(sv, history, UserOf(r), user);
    UsernameTakenByHistory(sv, history, username, user);
    PatchIsOverlay(sv, t, r, patch);
  }

  function PatchBio(u: string, bio: string): Request
  {
    Request(PATCH, "/me", Some(u), Object(map["bio" := Str(bio)]), None, None)
  }

  lemma BioPlan(u: string, bio: string)
    ensures PlanUpdateProfile(PatchBio(u, bio).body, u) == Amend(u, Ok(Patch(None, None, None, Some(bio))))
  {
  }

  lemma FirstPatchPerforms(env: Environment, t: Tables, a: string, key: string, bio: string)
    requires env.id(a) == Id(key) && env.id(key) == Id(key) && t.profiles == map[key := NEW_PROFILE]
    requires env.fits(FirstName, "") && env.fits(LastName, "") && env.fits(Username, "")
    ensures
      var (t', response) := Perform(env, t, PatchBio(a, bio), Amend(a, Ok(Patch(None, None, None, Some(bio)))));
      && response == Response(200, ProfileView(key, "", "", "", bio, ""))
      && t' == t.(profiles := map[key := ProfileRow(Some(""), Some(""), Some(""), Some(bio), None)])
  {
  }

  /** Of two new users who each set their bio and no username, the first succeeds and the second is answered 409. */
  lemma SecondBioIsRefused(sv: Service, a: string, b: string, keyA: string, keyB: string, bio: string)
    requires IsApi(sv.routes) && CanonicalIds(sv.env)
    requires a != "" && b != "" && sv.env.id(a) == Id(keyA) && sv.env.id(b) == Id(keyB) && keyA != keyB
    requires sv.env.allows(a, "profile:write") && sv.env.allows(b, "profile:write")
    requires sv.env.fits(FirstName, "") && sv.env.fits(LastName, "") && sv.env.fits(Username, "")
    ensures
      var before := [Creation(a)];
      && Serve(sv, After(sv, before), PatchBio(a, bio)).1 == Response(200, ProfileView(keyA, "", "", "", bio, ""))
      && Serve(sv, After(sv, before + [PatchBio(a, bio)] + [Creation(b)]), PatchBio(b, bio)).1
         == ErrorResponse(409, TAKEN)
  {
    hide PlanFor, Perform, PlanUpdateProfile, After, Valid, UsernameTaken;
    var h1 := [Creation(a)];
    var h2 := h1 + [PatchBio(a, bio)];
    var h3 := h2 + [Creation(b)];
    var patch := Patch(None, None, None, Some(bio));
    AfterFirst(sv, Creation(a));
    CreationServes(sv, EMPTY, a, keyA);
    FixedPlanOfUser(sv, PatchBio(a, bio));
    BioPlan(a, bio);
    FirstPatchPerforms(sv.env, After(sv, h1), a, keyA, bio);
    AfterNext(sv, h1, PatchBio(a, bio));
    AfterNext(sv, h2, Creation(b));
    CreationServes(sv, After(sv, h2), b, keyB);
    FixedPlanOfUser(sv, PatchBio(b, bio));
    BioPlan(b, bio);
    EmptyUsernameIsUnique(sv, h3, PatchBio(b, bio), patch, keyA);
  }

  /**
   A PATCH past its read and its body is answered 409 if the username is taken, but just so if
   a text does not fit or the connection of its second statement fails.
   */
  lemma PatchConflictIff(sv: Service, t: Tables, r: Request, patch: Patch)
    requires CanonicalIds(sv.env) && Valid(sv.env, t)
    requires PlanFor(sv, r) == Amend(UserOf(r), Ok(patch))
    requires r.first.None? && Shown(sv.env, t, UserOf(r)).Some?
    ensures
      var view := PatchedView(Shown(sv.env, t, UserOf(r)).value, patch);
      Serve(sv, t, r).1.status == 409
      <==> || UsernameTaken(t.profiles, view.username, sv.env.id(UserOf(r)).key)
           || !sv.env.fits(FirstName, view.firstName) || !sv.env.fits(LastName, view.lastName)
           || !sv.env.fits(Username, view.username)
           || r.second.Some?
  {
    hide PlanFor, Valid, UsernameTaken, Shown, PatchedView;
    PatchIsOverlay(sv, t, r, patch);
  }

  function PatchFirstName(u: string, name: string, fault: Option<string>): Request
  {
    Request(PATCH, "/me", Some(u), Object(map["first_name" := Str(name)]), None, fault)
  }

  lemma FirstNamePlan(u: string, name: string, fault: Option<string>)
    ensures PlanUpdateProfile(PatchFirstName(u, name, fault).body, u)
         == Amend(u, Ok(Patch(Some(name), None, None, None)))
  {
  }

  /**
   The only user there is sets a first name that is too long, or loses the connection meanwhile,
   and is told that the username is taken.
   */
  lemma NothingIsTaken(sv: Service, u: string, key: string, name: string, fault: Option<string>)
    requires IsApi(sv.routes) && CanonicalIds(sv.env)
    requires u != "" && sv.env.id(u) == Id(key) && sv.env.allows(u, "profile:write")
    requires fault.Some? || !sv.env.fits(FirstName, name)
    ensures
      var t := After(sv, [Creation(u)]);
      && t.profiles == map[key := NEW_PROFILE]
      && Serve(sv, t, PatchFirstName(u, name, fault)) == (t, ErrorResponse(409, TAKEN))
  {
    hide PlanFor, Perform, PlanUpdateProfile, After, Valid, UsernameTaken;
    var t, r := After(sv, [Creation(u)]), PatchFirstName(u, name, fault);
    AfterFirst(sv, Creation(u));
    CreationServes(sv, EMPTY, u, key);
    HistoryKeeps(sv, [Creation(u)]);
    FixedPlanOfUser(sv, r);
    FirstNamePlan(u, name, fault);
    PatchIsOverlay(sv, t, r, Patch(Some(name), None, None, None));
  }

  // ---------------------------------------------------------------- avatars

  /**
   A change of avatar is confirmed whenever the store answers and takes the user id as one, but
   it is stored exactly if, besides, the profile was created; else nothing changes.
   */
  lemma UploadIsStoredIff(sv: Service, history: seq<Request>, r: Request)
    requires PlanFor(sv, r).Modify? && PlanFor(sv, r).command.SetAvatar?
    ensures
      var t, plan, id := After(sv, history), PlanFor(sv, r), sv.env.id(UserOf(r));
      var (t', response) := Serve(sv, t, r);
      && (response == plan.success <==> r.first.None? && !id.Rejected?)
      && (if r.first.None? && id.Id? && Created(sv, history, id.key)
          then id.key in t.profiles
               && t' == t.(profiles := t.profiles[id.key := t.profiles[id.key].(avatarUrl := Some(plan.command.url))])
          else t' == t)
  {
    var plan, id := PlanFor(sv, r), sv.env.id(UserOf(r));
    assert ActsFor(plan, UserOf(r));
    hide PlanFor, After, Created;
    if id.Id? {
      ExistsIfCreated(sv, history, id.key);
    }
  }

  lemma UploadPlan(env: Environment, body: Body, userId: string)
    ensures
      var plan := PlanUploadAvatar(env, body, userId);
      if plan.Modify?
      then plan.command.SetAvatar? && plan.success == Response(200, AvatarView(userId, plan.command.url))
      else plan.Reply? && plan.response.status >= 400
  {
  }

  function Upload(u: string, image: string): Request
  {
    Request(POST, "/me/avatar", Some(u), Object(map["image_data" := Str(image)]), None, None)
  }

  lemma NothingCreated(sv: Service, id: IdText)
    ensures id.Id? ==> !Created(sv, [], id.key)
  {
  }

  /** On the empty store an upload is answered 200 with a URL, and the store stays empty. */
  lemma UploadIsLost(sv: Service, u: string, image: string)
    requires IsApi(sv.routes) && u != "" && sv.env.allows(u, "profile:write") && !sv.env.id(u).Rejected?
    requires Base64.Sextets(image) != []
    ensures Serve(sv, EMPTY, Upload(u, image))
         == (EMPTY, Response(200, AvatarView(u, sv.env.avatarUrl(u, "image/jpeg"))))
  {
    hide PlanFor, PlanUploadAvatar, Created;
    var r := Upload(u, image);
    FixedPlanOfAvatar(sv, r);
    UploadRefusedIfNoDigits(sv.env, r.body.fields, u);
    UploadPlan(sv.env, r.body, u);
    UploadIsStoredIff(sv, [], r);
    NothingCreated(sv, sv.env.id(u));
  }
}
