/** Creating, reading, patching and illustrating profiles. */
module ProfileLaws {
  import opened Outcomes
  import opened Database
  import opened Requests
  import opened Invariants
  import Base64

  /** What GET /me shows of a user, if there is a profile. */
  function Shown(env: Environment, t: Tables, userId: string): Option<Payload>
  {
    match SelectProfile(env, t, userId)
    case Ok(p) => Some(ViewOf(p))
    case Throw(_) => None
  }

  /** A patch laid over what GET shows. */
  function PatchedView(view: Payload, patch: Patch): Payload
    requires view.ProfileView?
  {
    view.(firstName := patch.firstName.Or(view.firstName), lastName := patch.lastName.Or(view.lastName),
          username := patch.username.Or(view.username), bio := patch.bio.Or(view.bio))
  }

  /** And GET answers what is shown, or 404. */
  lemma ProfileIsAnswered(sv: Service, t: Tables, r: Request, userId: string)
    requires PlanFor(sv, r) == FetchProfile(userId) && r.first.None?
    ensures Serve(sv, t, r)
         == (t, match Shown(sv.env, t, userId)
                case Some(view) => Response(200, view)
                case None => ErrorResponse(404, "profile not found"))
  {
  }

  // ---------------------------------------------------------------- PATCH /me

  /** The UPDATE for a patched profile, for the user's own row. */
  lemma UpdateEffect(env: Environment, t: Tables, userId: string, patch: Patch)
    requires CanonicalIds(env) && Valid(env, t) && SelectProfile(env, t, userId).Ok?
    ensures
      var p := SelectProfile(env, t, userId).value;
      var key := env.id(userId).key;
      var view := PatchedView(ViewOf(p), patch);
      var fits :=
        env.fits(FirstName, view.firstName) && env.fits(LastName, view.lastName) && env.fits(Username, view.username);
      match Exec(env, t, UpdateOf(Overlay(p, patch)))
      case Throw(_) => !fits || UsernameTaken(t.profiles, view.username, key)
      case Ok(t') =>
        && fits && !UsernameTaken(t.profiles, view.username, key)
        && t' == t.(profiles := t.profiles[key := ProfileRow(
             Some(view.firstName), Some(view.lastName), Some(view.username), Some(view.bio),
             t.profiles[key].avatarUrl)])
  {
  }

  lemma PatchPerform(env: Environment, t: Tables, r: Request, patch: Patch)
    requires r.first.None? && SelectProfile(env, t, UserOf(r)).Ok? && PatchFailed(TAKEN) == ErrorResponse(409, TAKEN)
    ensures
      var p := Overlay(SelectProfile(env, t, UserOf(r)).value, patch);
      Perform(env, t, r, Amend(UserOf(r), Ok(patch)))
      == match Guarded(r.second, Exec(env, t, UpdateOf(p)))
         case Throw(_) => (t, ErrorResponse(409, TAKEN))
         case Ok(t') => (t', Response(200, ViewOf(p)))
  {
  }

  lemma TakenIsMentioned()
    ensures PatchFailed(TAKEN) == ErrorResponse(409, TAKEN)
  {
    assert TAKEN <= TAKEN[0..];
  }

  /**
   A PATCH that gets past its read and its body succeeds exactly if the second statement is
   answered, the resulting texts fit their columns and no other user has the resulting
   username. Then GET shows the patch laid over what it showed before, every other row is
   untouched and the response is the new view. Otherwise it is answered 409 and nothing changes.
   */
  lemma PatchIsOverlay(sv: Service, t: Tables, r: Request, patch: Patch)
    requires CanonicalIds(sv.env) && Valid(sv.env, t)
    requires PlanFor(sv, r) == Amend(UserOf(r), Ok(patch))
    requires r.first.None? && Shown(sv.env, t, UserOf(r)).Some?
    ensures
      var key := sv.env.id(UserOf(r)).key;
      var view := PatchedView(Shown(sv.env, t, UserOf(r)).value, patch);
      var (t', response) := Serve(sv, t, r);
      if r.second.None?
         && sv.env.fits(FirstName, view.firstName) && sv.env.fits(LastName, view.lastName)
         && sv.env.fits(Username, view.username) && !UsernameTaken(t.profiles, view.username, key)
      then
        && response == Response(200, view)
        && Shown(sv.env, t', UserOf(r)) == Some(view)
        && t' == t.(profiles := t'.profiles)
        && t'.profiles.Keys == t.profiles.Keys
        && t'.profiles[key].avatarUrl == t.profiles[key].avatarUrl
        && (forall other :: other in t.profiles && other != key ==> t'.profiles[other] == t.profiles[other])
      else t' == t && response == ErrorResponse(409, TAKEN)
  {
    UpdateEffect(sv.env, t, UserOf(r), patch);
    TakenIsMentioned();
    PatchPerform(sv.env, t, r, patch);
  }

  // ---------------------------------------------------------------- usernames

  /** After every history, two users never have the same username, the empty one included. */
  lemma UsernamesAreDistinct(sv: Service, history: seq<Request>, a: string, b: string)
    requires CanonicalIds(sv.env) && a in After(sv, history).profiles && b in After(sv, history).profiles
    requires After(sv, history).profiles[a].username.Some?
    ensures After(sv, history).profiles[a].username == After(sv, history).profiles[b].username ==> a == b
  {
    HistoryKeeps(sv, history);
  }

  /**
   A user without a username who leaves it unset is stored with the empty one. Once another
   user is stored so, every PATCH that results in an empty username is refused.
   */
  lemma EmptyUsernameIsUnique(sv: Service, history: seq<Request>, r: Request, patch: Patch, other: string)
    requires CanonicalIds(sv.env) && PlanFor(sv, r) == Amend(UserOf(r), Ok(patch)) && r.first.None?
    requires
      var t := After(sv, history);
      && Shown(sv.env, t, UserOf(r)).Some?
      && other in t.profiles && other != sv.env.id(UserOf(r)).key && t.profiles[other].username == Some("")
      && PatchedView(Shown(sv.env, t, UserOf(r)).value, patch).username == ""
    ensures Serve(sv, After(sv, history), r) == (After(sv, history), ErrorResponse(409, TAKEN))
  {
    var t := After(sv, history);
    HistoryKeeps(sv, history);
    PatchIsOverlay(sv, t, r, patch);
    assert UsernameTaken(t.profiles, "", sv.env.id(UserOf(r)).key);
  }

  // ---------------------------------------------------------------- creation

  lemma CreationPlan(sv: Service, r: Request)
    requires Creates(PlanFor(sv, r))
    ensures PlanFor(sv, r).success == Response(201, CreatedUser(StoredText(sv.env, PlanFor(sv, r).command.userId)))
  {
  }

  /** Creation gives a new user an empty profile, and leaves every existing profile as it is. */
  lemma CreationKeepsProfiles(sv: Service, t: Tables, r: Request, key: string)
    requires Creates(PlanFor(sv, r)) && sv.env.id(PlanFor(sv, r).command.userId) == Id(key) && r.first.None?
    ensures
      var (t', response) := Serve(sv, t, r);
      && response == Response(201, CreatedUser(StoredText(sv.env, PlanFor(sv, r).command.userId)))
      && t' == t.(profiles := t'.profiles)
      && t'.profiles == if key in t.profiles then t.profiles else t.profiles[key := NEW_PROFILE]
  {
    CreationPlan(sv, r);
  }

  // ---------------------------------------------------------------- avatars

  /** An upload is refused as empty exactly if no digit precedes the first '='. */
  lemma UploadRefusedIfNoDigits(env: Environment, fields: map<string, Json>, userId: string)
    requires "image_data" in fields && fields["image_data"].Str?
    requires "content_type" in fields ==> fields["content_type"].Str?
    ensures
      var plan := PlanUploadAvatar(env, Object(fields), userId);
      if Base64.Sextets(fields["image_data"].text) == [] then plan == Reply(ErrorResponse(400, "invalid image data"))
      else
        var contentType := if "content_type" in fields then fields["content_type"].text else "image/jpeg";
        plan.Modify? && plan.command == SetAvatar(userId, env.avatarUrl(userId, contentType))
  {
    var xs := Base64.Sextets(fields["image_data"].text);
    var k := Base64.BitCount(xs, Base64.PROGRAM_START) / 8;
    assert k == 0 <==> xs == [];
  }
}
