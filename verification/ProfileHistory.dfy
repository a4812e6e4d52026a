/** A profile shows what the history created, patched and uploaded. */
module ProfileHistory {
  import opened Outcomes
  import opened Database
  import opened Requests
  import opened Invariants
  import opened Projection
  import opened ListHistory
  import opened ProfileLaws

  // ---------------------------------------------------------------- existence

  /** A creation of this user's profile that the store answered. */
  predicate CreatedNow(sv: Service, r: Request, user: string)
  {
    var plan := PlanFor(sv, r);
    Creates(plan) && sv.env.id(plan.command.userId) == Id(user) && r.first.None?
  }

  predicate Created(sv: Service, history: seq<Request>, user: string)
  {
    if history == [] then false else
    CreatedNow(sv, history[|history| - 1], user) || Created(sv, history[..|history| - 1], user)
  }

  lemma CreatedPerform(env: Environment, t: Tables, r: Request, plan: Plan, user: string)
    requires ActsFor(plan, UserOf(r))
    ensures
      user in Perform(env, t, r, plan).0.profiles
      <==> user in t.profiles || (Creates(plan) && env.id(plan.command.userId) == Id(user) && r.first.None?)
  {
  }

  /** A user has a profile exactly if it was created. */
  lemma {:induction false} ExistsIfCreated(sv: Service, history: seq<Request>, user: string)
    ensures user in After(sv, history).profiles <==> Created(sv, history, user)
  {
    if history == [] {
    } else {
      hide PlanFor, Perform;
      var n := |history| - 1;
      ExistsIfCreated(sv, history[..n], user);
      CreatedPerform(sv.env, After(sv, history[..n]), history[n], PlanFor(sv, history[n]), user);
    }
  }

  // ---------------------------------------------------------------- texts

  datatype Text = First | Last | Name | About

  function TextOf(row: ProfileRow, text: Text): Option<string>
  {
    match text
    case First => row.firstName
    case Last => row.lastName
    case Name => row.username
    case About => row.bio
  }

  function TextIn(patch: Patch, text: Text): Option<string>
  {
    match text
    case First => patch.firstName
    case Last => patch.lastName
    case Name => patch.username
    case About => patch.bio
  }

  function PatchDone(env: Environment, t: Tables, r: Request, plan: Plan, user: string): Option<Patch>
  {
    if plan.Amend? && plan.patch.Ok? && env.id(UserOf(r)) == Id(user) && Perform(env, t, r, plan).1.status < 400
    then Some(plan.patch.value) else None
  }

  /** What the request, if it is a PATCH by this user that succeeds, sets. */
  function PatchBy(sv: Service, t: Tables, r: Request, user: string): Option<Patch>
  {
    PatchDone(sv.env, t, r, PlanFor(sv, r), user)
  }

  predicate EverPatched(sv: Service, history: seq<Request>, user: string)
  {
    if history == [] then false else
    var n := |history| - 1;
    PatchBy(sv, After(sv, history[..n]), history[n], user).Some? || EverPatched(sv, history[..n], user)
  }

  /** The value of the last successful PATCH of a user that set this text. */
  function LastText(sv: Service, history: seq<Request>, user: string, text: Text): Option<string>
  {
    if history == [] then None else
    var n := |history| - 1;
    var patch := PatchBy(sv, After(sv, history[..n]), history[n], user);
    if patch.Some? && TextIn(patch.value, text).Some? then TextIn(patch.value, text)
    else LastText(sv, history[..n], user, text)
  }

  function TextStored(profiles: map<string, ProfileRow>, user: string, text: Text): Option<string>
  {
    if user in profiles then TextOf(profiles[user], text) else None
  }

  lemma TextsExec(env: Environment, t: Tables, c: Command, user: string, text: Text)
    requires Exec(env, t, c).Ok? && !c.SetProfile?
    ensures TextStored(Exec(env, t, c).value.profiles, user, text) == TextStored(t.profiles, user, text)
  {
  }

  lemma TextsAmend(env: Environment, t: Tables, r: Request, userId: string, patch: Result<Patch>,
                   user: string, text: Text)
    requires CanonicalIds(env) && Valid(env, t) && userId == UserOf(r)
    ensures
      var (t', response) := PerformAmend(env, t, r, userId, patch);
      TextStored(t'.profiles, user, text)
      == if patch.Ok? && env.id(userId) == Id(user) && response.status < 400
         then Some(TextIn(patch.value, text).Or(TextStored(t.profiles, user, text).Or("")))
         else TextStored(t.profiles, user, text)
  {
    if SelectProfile(env, t, userId).Ok? && patch.Ok? {
      UpdateEffect(env, t, userId, patch.value);
    }
  }

  lemma TextsPerform(env: Environment, t: Tables, r: Request, plan: Plan, user: string, text: Text)
    requires CanonicalIds(env) && Valid(env, t) && ActsFor(plan, UserOf(r))
    ensures
      var patch := PatchDone(env, t, r, plan, user);
      TextStored(Perform(env, t, r, plan).0.profiles, user, text)
      == if patch.Some? then Some(TextIn(patch.value, text).Or(TextStored(t.profiles, user, text).Or("")))
         else TextStored(t.profiles, user, text)
  {
    hide Exec, PerformAmend, TextStored, TextIn, Valid;
    if plan.Modify? && Exec(env, t, plan.command).Ok? {
      TextsExec(env, t, plan.command, user, text);
    }
    if plan.Amend? {
      TextsAmend(env, t, r, plan.userId, plan.patch, user, text);
    }
  }

  /** A stored text is the one set last, or empty if no PATCH set it, or NULL if there never was a PATCH. */
  lemma {:induction false} StoredIsLastText(sv: Service, history: seq<Request>, user: string, text: Text)
    requires CanonicalIds(sv.env)
    ensures TextStored(After(sv, history).profiles, user, text)
         == if EverPatched(sv, history, user) then Some(LastText(sv, history, user, text).Or("")) else None
    ensures LastText(sv, history, user, text).Some? ==> EverPatched(sv, history, user)
  {
    if history == [] {
    } else {
      hide PlanFor, PatchDone, Perform, TextStored, TextIn, Valid;
      var n := |history| - 1;
      var t, r := After(sv, history[..n]), history[n];
      StoredIsLastText(sv, history[..n], user, text);
      HistoryKeeps(sv, history[..n]);
      TextsPerform(sv.env, t, r, PlanFor(sv, r), user, text);
    }
  }

  /** A user's PATCHes have left him with this username. */
  predicate NamedBy(sv: Service, history: seq<Request>, user: string, username: string)
  {
    EverPatched(sv, history, user) && LastText(sv, history, user, Name).Or("") == username
  }

  ghost predicate NamedByOther(sv: Service, history: seq<Request>, username: string, self: string)
  {
    exists other :: other != self && NamedBy(sv, history, other, username)
  }

  lemma NamedIsStored(sv: Service, history: seq<Request>, user: string, username: string)
    requires CanonicalIds(sv.env)
    ensures
      var profiles := After(sv, history).profiles;
      NamedBy(sv, history, user, username)
      <==> user in profiles && profiles[user].username == Some(username)
  {
    hide After, EverPatched, LastText;
    StoredIsLastText(sv, history, user, Name);
  }

  /** A username is taken exactly if PATCHes have left another user with it. */
  lemma UsernameTakenByHistory(sv: Service, history: seq<Request>, username: string, self: string)
    requires CanonicalIds(sv.env)
    ensures UsernameTaken(After(sv, history).profiles, username, self) <==> NamedByOther(sv, history, username, self)
  {
    hide After, NamedBy;
    forall other
      ensures NamedBy(sv, history, other, username)
         <==> var profiles := After(sv, history).profiles;
              other in profiles && profiles[other].username == Some(username)
    {
      NamedIsStored(sv, history, other, username);
    }
  }

  // ---------------------------------------------------------------- avatars

  function AvatarBy(env: Environment, c: Command, user: string): Option<string>
  {
    if c.SetAvatar? && env.id(c.userId) == Id(user) then Some(c.url) else None
  }

  /**
   The URL of the last avatar change of a user that was answered with success while the profile
   existed; without a profile an upload is answered 200 and stores nothing.
   */
  function LastAvatar(sv: Service, history: seq<Request>, user: string): Option<string>
  {
    if history == [] then None else
    var n := |history| - 1;
    var t, r := After(sv, history[..n]), history[n];
    var now :=
      if user in t.profiles && Succeeded(sv, t, r) then AvatarBy(sv.env, PlanFor(sv, r).command, user) else None;
    if now.Some? then now else LastAvatar(sv, history[..n], user)
  }

  function StoredAvatar(profiles: map<string, ProfileRow>, user: string): Option<string>
  {
    if user in profiles then profiles[user].avatarUrl else None
  }

  lemma AvatarExec(env: Environment, t: Tables, c: Command, user: string)
    requires Exec(env, t, c).Ok?
    ensures
      var now := if user in t.profiles then AvatarBy(env, c, user) else None;
      StoredAvatar(Exec(env, t, c).value.profiles, user)
      == if now.Some? then now else StoredAvatar(t.profiles, user)
  {
  }

  lemma AvatarPerform(env: Environment, t: Tables, r: Request, plan: Plan, user: string)
    requires ActsFor(plan, UserOf(r))
    ensures
      var (t', response) := Perform(env, t, r, plan);
      if plan.Modify? && response.status < 400 then Exec(env, t, plan.command) == Ok(t')
      else StoredAvatar(t'.profiles, user) == StoredAvatar(t.profiles, user)
  {
    if plan.Amend? {
      AmendLeaves(env, t, r, plan, user);
    }
  }

  /** A request is its successful statement, or a PATCH, or leaves the profiles alone. */
  lemma AvatarStep(sv: Service, t: Tables, r: Request, user: string)
    ensures
      var t' := Serve(sv, t, r).0;
      if Succeeded(sv, t, r) then Exec(sv.env, t, PlanFor(sv, r).command) == Ok(t')
      else StoredAvatar(t'.profiles, user) == StoredAvatar(t.profiles, user)
  {
    AvatarPerform(sv.env, t, r, PlanFor(sv, r), user);
  }

  /** The stored avatar URL is that of the last successful upload or deletion for an existing profile. */
  lemma {:induction false} StoredIsLastAvatar(sv: Service, history: seq<Request>, user: string)
    ensures StoredAvatar(After(sv, history).profiles, user) == LastAvatar(sv, history, user)
  {
    if history == [] {
    } else {
      hide Serve, StoredAvatar, AvatarBy, Exec;
      var n := |history| - 1;
      var t, r := After(sv, history[..n]), history[n];
      StoredIsLastAvatar(sv, history[..n], user);
      AvatarStep(sv, t, r, user);
      if Succeeded(sv, t, r) {
        AvatarExec(sv.env, t, PlanFor(sv, r).command, user);
      }
    }
  }

  // ---------------------------------------------------------------- the whole profile

  /** A profile as the history has it. */
  function ProfileByHistory(sv: Service, history: seq<Request>, user: string): (view: Payload)
    ensures view.ProfileView?
  {
    ProfileView(user, LastText(sv, history, user, First).Or(""), LastText(sv, history, user, Last).Or(""),
                LastText(sv, history, user, Name).Or(""), LastText(sv, history, user, About).Or(""),
                LastAvatar(sv, history, user).Or(""))
  }

  /** What is shown of a user's profile is what the history has, if it was created. */
  lemma ShownIsByHistory(sv: Service, history: seq<Request>, userId: string, user: string)
    requires CanonicalIds(sv.env) && sv.env.id(userId) == Id(user)
    ensures Shown(sv.env, After(sv, history), userId)
         == if Created(sv, history, user) then Some(ProfileByHistory(sv, history, user)) else None
  {
    hide After, LastText, LastAvatar, Created, EverPatched;
    ExistsIfCreated(sv, history, user);
    StoredIsLastText(sv, history, user, First);
    StoredIsLastText(sv, history, user, Last);
    StoredIsLastText(sv, history, user, Name);
    StoredIsLastText(sv, history, user, About);
    StoredIsLastAvatar(sv, history, user);
  }

  /**
   A profile's GET is answered from the history alone: 404 unless it was created, else each text
   as the last successful PATCH set it and the URL of the last successful avatar change.
   */
  lemma ProfileReadsHistory(sv: Service, history: seq<Request>, r: Request, userId: string, user: string)
    requires CanonicalIds(sv.env) && PlanFor(sv, r) == FetchProfile(userId) && sv.env.id(userId) == Id(user)
    requires r.first.None?
    ensures Serve(sv, After(sv, history), r)
         == (After(sv, history),
             if Created(sv, history, user) then Response(200, ProfileByHistory(sv, history, user))
             else ErrorResponse(404, "profile not found"))
  {
    hide PlanFor, After, Serve, Shown, ProfileByHistory, Created;
    ProfileIsAnswered(sv, After(sv, history), r, userId);
    ShownIsByHistory(sv, history, userId, user);
  }
}
