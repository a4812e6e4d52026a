/**
 One HTTP request as a step on the tables: routing, authorisation, the plan the selected
 handler makes of the parsed body, and what carrying it out does and answers.

 The plan of a request does not depend on the tables.
 */
module Requests {
  import opened Outcomes
  import opened OwnedRows
  import opened Database
  import opened Routing
  import Base64

  // ---------------------------------------------------------------- requests and responses

  datatype Json = Str(text: string) | Bool(flag: bool) | Null | Other

  /** The body as the JSON parser leaves it; a malformed one with the parser's message. */
  datatype Body = Malformed(what: string) | NotAnObject | Object(fields: map<string, Json>)

  /**
   first and second are what the first and second SQL statement of the request would throw
   because of the connection, or None where the store answers.
   */
  datatype Request = Request(
    verb: Verb, target: string, userHeader: Option<string>, body: Body,
    first: Option<string>, second: Option<string>)

  datatype Payload =
    | Empty
    | Error(text: string)
    | CreatedUser(createdId: string)
    | ProfileView(userId: string, firstName: string, lastName: string, username: string, bio: string, avatarUrl: string)
    | AvatarView(avatarUser: string, url: string)
    | ContactsView(contacts: seq<ContactItem>)
    | ContactView(contact: ContactItem)
    | FavoritesView(favorites: seq<Favorite>)
    | PrivacyView(privacy: PrivacySettings)
    | NotificationView(id: Option<nat>, owner: string, chatId: Option<string>, muted: bool, mutedUntil: Option<int>)

  datatype ContactItem = ContactItem(ownerId: string, contactId: string, alias: string)

  datatype Response = Response(status: nat, payload: Payload)

  function ErrorResponse(status: nat, text: string): Response
  {
    Response(status, Error(text))
  }

  datatype RouteContext = RouteContext(userId: string, params: map<string, string>)

  // ---------------------------------------------------------------- the JSON library

  type Fields = Option<map<string, Json>>

  function Parse(body: Body): Result<Fields>
  {
    match body
    case Malformed(what) => Throw(what)
    case NotAnObject => Ok(None)
    case Object(fields) => Ok(Some(fields))
  }

  /** False of anything that is not an object. */
  predicate Contains(json: Fields, key: string)
  {
    json.Some? && key in json.value
  }

  /** `json[key].get<std::string>()`. */
  function GetString(json: Fields, key: string): Result<string>
    requires Contains(json, key)
  {
    if json.value[key].Str? then Ok(json.value[key].text) else Throw("type_error")
  }

  /** `json.value(key, default)`: the default for a missing key only; throws on a non-object. */
  function ValueString(json: Fields, key: string, default: string): Result<string>
  {
    if json.None? then Throw("type_error")
    else if key !in json.value then Ok(default)
    else GetString(json, key)
  }

  function ValueBool(json: Fields, key: string, default: bool): Result<bool>
  {
    if json.None? then Throw("type_error")
    else if key !in json.value then Ok(default)
    else if json.value[key].Bool? then Ok(json.value[key].flag)
    else Throw("type_error")
  }

  // ---------------------------------------------------------------- plans

  /** The fields a PATCH body sets. */
  datatype Patch = Patch(
    firstName: Option<string>, lastName: Option<string>, username: Option<string>, bio: Option<string>)

  /** How a failed statement is answered; detail appends the exception's text. */
  datatype Failure = Failure(status: nat, text: string, detail: bool)

  datatype Plan =
    | Reply(response: Response)
    | FetchProfile(userId: string)
    | FetchContacts(userId: string)
    | FetchFavorites(userId: string)
    | FetchPrivacy(userId: string)
    | FetchGlobal(userId: string)
    | FetchChat(userId: string, chatId: string)
    | Modify(command: Command, success: Response, failure: Failure)
    | Amend(userId: string, patch: Result<Patch>)

  /** The user on whose rows a command works. */
  function OwnerOf(c: Command): string
  {
    match c
    case InsertProfile(userId) => userId
    case SetProfile(userId, _, _, _, _) => userId
    case SetAvatar(userId, _) => userId
    case PutContact(ownerId, _, _) => ownerId
    case DropContact(ownerId, _) => ownerId
    case PutFavorite(userId, _) => userId
    case DropFavorite(userId, _) => userId
    case PutPrivacy(userId, _) => userId
    case PutNotification(userId, _, _, _) => userId
  }

  /**
   A plan touches only rows of this user, except to create or look up a profile, and answers
   failed statements, and those only, with an error.
   */
  predicate ActsFor(plan: Plan, userId: string)
  {
    match plan
    case Reply(_) => true
    case FetchProfile(_) => true
    case FetchContacts(u) => u == userId
    case FetchFavorites(u) => u == userId
    case FetchPrivacy(u) => u == userId
    case FetchGlobal(u) => u == userId
    case FetchChat(u, _) => u == userId
    case Modify(command, success, failure) =>
      success.status < 400 <= failure.status && !command.SetProfile?
      && (command.InsertProfile? || OwnerOf(command) == userId)
    case Amend(u, _) => u == userId
  }

  predicate Creates(plan: Plan)
  {
    plan.Modify? && plan.command.InsertProfile?
  }

  /** The id as the column gives it back. */
  function StoredText(env: Environment, text: string): string
  {
    if env.id(text).Id? then env.id(text).key else text
  }

  function PlanCreateProfile(env: Environment, body: Body): (plan: Plan)
    ensures Creates(plan) || plan.Reply?
    ensures Creates(plan) ==> plan.success.status < 400 <= plan.failure.status
  {
    var failed := ErrorResponse(500, "create failed");
    var json := Parse(body);
    if json.Throw? then Reply(failed) else
    var userId := ValueString(json.value, "user_id", "");
    if userId.Throw? then Reply(failed)
    else if userId.value == "" then Reply(ErrorResponse(400, "user_id required"))
    else Modify(InsertProfile(userId.value), Response(201, CreatedUser(StoredText(env, userId.value))),
                Failure(500, "create failed", false))
  }

  function PatchField(json: Fields, key: string): Result<Option<string>>
  {
    if !Contains(json, key) then Ok(None)
    else match GetString(json, key)
      case Ok(text) => Ok(Some(text))
      case Throw(what) => Throw(what)
  }

  function PatchOf(json: Fields): Result<Patch>
  {
    var firstName, lastName := PatchField(json, "first_name"), PatchField(json, "last_name");
    var username, bio := PatchField(json, "username"), PatchField(json, "bio");
    if firstName.Throw? || lastName.Throw? || username.Throw? || bio.Throw? then Throw("type_error")
    else Ok(Patch(firstName.value, lastName.value, username.value, bio.value))
  }

  /** `find("username already taken")` in an exception's text. */
  predicate Mentions(what: string, text: string)
  {
    exists i :: 0 <= i <= |what| && text <= what[i..]
  }

  const TAKEN := "username already taken"

  function PatchFailed(what: string): Response
  {
    if Mentions(what, TAKEN) then ErrorResponse(409, TAKEN) else ErrorResponse(500, "update failed")
  }

  function PlanUpdateProfile(body: Body, userId: string): (plan: Plan)
    ensures plan.Reply? || plan.Amend?
    ensures ActsFor(plan, userId) && !Creates(plan)
  {
    var json := Parse(body);
    if json.Throw? then Reply(PatchFailed(json.what)) else Amend(userId, PatchOf(json.value))
  }

  function PlanUploadAvatar(env: Environment, body: Body, userId: string): (plan: Plan)
    ensures plan.Reply? || (plan.Modify? && plan.command.SetAvatar?)
    ensures ActsFor(plan, userId) && !Creates(plan)
  {
    var json := Parse(body);
    if json.Throw? then Reply(ErrorResponse(500, "upload failed: " + json.what))
    else if !Contains(json.value, "image_data") then Reply(ErrorResponse(400, "image_data (base64) is required"))
    else
      var data := GetString(json.value, "image_data");
      if data.Throw? then Reply(ErrorResponse(500, "upload failed: " + data.what)) else
      var contentType := ValueString(json.value, "content_type", "image/jpeg");
      if contentType.Throw? then Reply(ErrorResponse(500, "upload failed: " + contentType.what))
      else if Base64.DecodedText(data.value) == [] then Reply(ErrorResponse(400, "invalid image data"))
      else
        var url := env.avatarUrl(userId, contentType.value);
        Modify(SetAvatar(userId, url), Response(200, AvatarView(userId, url)), Failure(500, "upload failed: ", true))
  }

  function PlanAddContact(body: Body, userId: string): (plan: Plan)
    ensures plan.Reply? || (plan.Modify? && plan.command.PutContact?)
    ensures ActsFor(plan, userId) && !Creates(plan)
  {
    var failed := ErrorResponse(409, "failed to add contact");
    var json := Parse(body);
    if json.Throw? then Reply(failed) else
    var contactId := ValueString(json.value, "contact_id", "");
    if contactId.Throw? then Reply(failed)
    else if contactId.value == "" then Reply(ErrorResponse(400, "contact_id is required"))
    else
      var alias := PatchField(json.value, "alias");
      if alias.Throw? then Reply(failed)
      else Modify(PutContact(userId, contactId.value, alias.value.Or("")),
                  Response(201, ContactView(ContactItem(userId, contactId.value, alias.value.Or("")))),
                  Failure(409, "failed to add contact", false))
  }

  function PlanUpdatePrivacy(body: Body, userId: string): (plan: Plan)
    ensures plan.Reply? || (plan.Modify? && plan.command.PutPrivacy?)
    ensures ActsFor(plan, userId) && !Creates(plan)
  {
    var failed := ErrorResponse(500, "update failed");
    var json := Parse(body);
    if json.Throw? then Reply(failed) else
    var profile := ValueString(json.value, "profile_visibility", "everyone");
    var lastSeen := ValueString(json.value, "last_seen_visibility", "everyone");
    var avatar := ValueString(json.value, "avatar_visibility", "everyone");
    if profile.Throw? || lastSeen.Throw? || avatar.Throw? then Reply(failed)
    else Modify(PutPrivacy(userId, PrivacyRow(profile.value, lastSeen.value, avatar.value)),
                Response(204, Empty), Failure(500, "update failed", false))
  }

  /** The mute-until of a body; the inner None of an Ok is a time that does not parse. */
  function MutedUntil(env: Environment, json: Fields): Result<Option<Option<int>>>
  {
    if !Contains(json, "mutedUntil") || json.value["mutedUntil"].Null? then Ok(Some(None))
    else match GetString(json, "mutedUntil")
      case Throw(what) => Throw(what)
      case Ok(text) =>
        if text == "" then Ok(Some(None))
        else match env.time(text)
          case None => Ok(None)
          case Some(time) => Ok(Some(Some(time)))
  }

  function PlanUpdateNotifications(env: Environment, body: Body, userId: string, chatId: string): (plan: Plan)
    ensures plan.Reply? || (plan.Modify? && plan.command.PutNotification?)
    ensures ActsFor(plan, userId) && !Creates(plan)
  {
    var json := Parse(body);
    if json.Throw? then Reply(ErrorResponse(400, json.what)) else
    var muted := ValueBool(json.value, "muted", false);
    if muted.Throw? then Reply(ErrorResponse(400, muted.what)) else
    var until := MutedUntil(env, json.value);
    if until.Throw? then Reply(ErrorResponse(400, until.what))
    else if until.value.None? then Reply(ErrorResponse(400, "invalid mutedUntil format, expected RFC3339"))
    else Modify(PutNotification(userId, chatId, muted.value, until.value.value),
                Response(204, Empty), Failure(400, "", true))
  }

  function MissingParam(id: HandlerId): string
  {
    match id
    case GetProfileByID => "user_id required"
    case DeleteContact => "contact_id is required"
    case _ => "chat_id is required"
  }

  /** What the handler of an action makes of a request. */
  function PlanOf(env: Environment, id: HandlerId, body: Body, ctx: RouteContext): (plan: Plan)
    ensures ActsFor(plan, ctx.userId)
    ensures Creates(plan) ==> id == CreateProfile
    ensures id == CreateProfile ==> Creates(plan) || plan.Reply?
  {
    var param := RequiredParam(id);
    if param.Some? && param.value !in ctx.params
    then Reply(ErrorResponse(400, MissingParam(id)))
    else match id
      case CreateProfile => PlanCreateProfile(env, body)
      case GetMyProfile => FetchProfile(ctx.userId)
      case GetProfileByID => FetchProfile(ctx.params["user_id"])
      case UpdateProfile => PlanUpdateProfile(body, ctx.userId)
      case UploadAvatar => PlanUploadAvatar(env, body, ctx.userId)
      case DeleteAvatar =>
        Modify(SetAvatar(ctx.userId, ""), Response(204, Empty), Failure(500, "delete failed", false))
      case GetContacts => FetchContacts(ctx.userId)
      case AddContact => PlanAddContact(body, ctx.userId)
      case DeleteContact =>
        Modify(DropContact(ctx.userId, ctx.params["contact_id"]), Response(204, Empty),
               Failure(404, "contact not found", false))
      case GetPrivacy => FetchPrivacy(ctx.userId)
      case UpdatePrivacy => PlanUpdatePrivacy(body, ctx.userId)
      case GetFavorites => FetchFavorites(ctx.userId)
      case AddFavorite =>
        Modify(PutFavorite(ctx.userId, ctx.params["chat_id"]), Response(201, Empty),
               Failure(500, "failed to add favorite", false))
      case RemoveFavorite =>
        Modify(DropFavorite(ctx.userId, ctx.params["chat_id"]), Response(204, Empty),
               Failure(500, "failed to remove favorite", false))
      case GetNotifications => FetchGlobal(ctx.userId)
      case GetChatNotifications => FetchChat(ctx.userId, ctx.params["chat_id"])
      case UpdateNotifications => PlanUpdateNotifications(env, body, ctx.userId, "")
      case UpdateChatNotifications => PlanUpdateNotifications(env, body, ctx.userId, ctx.params["chat_id"])
  }

  // ---------------------------------------------------------------- carrying out a plan

  /** A statement on a connection that throws, or answers. */
  function Guarded<T>(fault: Option<string>, answer: Result<T>): Result<T>
  {
    if fault.Some? then Throw(fault.value) else answer
  }

  function ViewOf(p: Profile): Payload
  {
    ProfileView(p.userId, p.firstName.Or(""), p.lastName.Or(""), p.username.Or(""), p.bio.Or(""), p.avatarUrl.Or(""))
  }

  function ContactItems(rows: seq<Row<Option<string>>>): (items: seq<ContactItem>)
    ensures |items| == |rows|
    ensures forall i :: 0 <= i < |rows| ==>
      items[i] == ContactItem(rows[i].owner, rows[i].item, rows[i].data.Or(""))
  {
    seq(|rows|, i requires 0 <= i < |rows| => ContactItem(rows[i].owner, rows[i].item, rows[i].data.Or("")))
  }

  function FavoriteItems(rows: seq<Row<()>>): (items: seq<Favorite>)
    ensures |items| == |rows|
    ensures forall i :: 0 <= i < |rows| ==> items[i] == MapFavorite(rows[i])
  {
    seq(|rows|, i requires 0 <= i < |rows| => MapFavorite(rows[i]))
  }

  /** A profile with a patch laid over it. */
  function Overlay(p: Profile, patch: Patch): Profile
  {
    p.(firstName := if patch.firstName.Some? then patch.firstName else p.firstName,
       lastName := if patch.lastName.Some? then patch.lastName else p.lastName,
       username := if patch.username.Some? then patch.username else p.username,
       bio := if patch.bio.Some? then patch.bio else p.bio)
  }

  /** The UPDATE of a profile record: unset fields become empty strings. */
  function UpdateOf(p: Profile): Command
  {
    SetProfile(p.userId, p.firstName.Or(""), p.lastName.Or(""), p.username.Or(""), p.bio.Or(""))
  }

  function NotificationPayload(s: NotificationSettings, chatId: Option<string>): Payload
  {
    NotificationView(s.id, s.userId, chatId, s.muted, s.mutedUntil)
  }

  function FailureResponse(failure: Failure, what: string): Response
  {
    ErrorResponse(failure.status, if failure.detail then failure.text + what else failure.text)
  }

  /** Read the profile, overlay the patch, write it back: two statements. */
  function PerformAmend(env: Environment, t: Tables, r: Request, userId: string, patch: Result<Patch>)
    : (Tables, Response)
  {
    match Guarded(r.first, SelectProfile(env, t, userId))
    case Throw(what) => (t, PatchFailed(what))
    case Ok(p) =>
      match patch
      case Throw(what) => (t, PatchFailed(what))
      case Ok(fields) =>
        var p' := Overlay(p, fields);
        match Guarded(r.second, Exec(env, t, UpdateOf(p')))
        case Throw(_) => (t, PatchFailed(TAKEN))
        case Ok(t') => (t', Response(200, ViewOf(p')))
  }

  function Perform(env: Environment, t: Tables, r: Request, plan: Plan): (Tables, Response)
  {
    match plan
    case Reply(response) => (t, response)
    case FetchProfile(userId) =>
      (match Guarded(r.first, SelectProfile(env, t, userId))
       case Ok(p) => (t, Response(200, ViewOf(p)))
       case Throw(_) => (t, ErrorResponse(404, "profile not found")))
    case FetchContacts(userId) =>
      (match Guarded(r.first, SelectContacts(env, t, userId))
       case Ok(rows) => (t, Response(200, ContactsView(ContactItems(rows))))
       case Throw(_) => (t, ErrorResponse(404, "contacts not found")))
    case FetchFavorites(userId) =>
      (match Guarded(r.first, SelectFavorites(env, t, userId))
       case Ok(rows) => (t, Response(200, FavoritesView(FavoriteItems(rows))))
       case Throw(_) => (t, ErrorResponse(500, "failed to get favorites")))
    case FetchPrivacy(userId) =>
      (match Guarded(r.first, SelectPrivacy(env, t, userId))
       case Ok(s) => (t, Response(200, PrivacyView(s)))
       case Throw(_) => (t, ErrorResponse(500, "failed to get privacy settings")))
    case FetchGlobal(userId) =>
      (match Guarded(r.first, SelectNotification(env, t, userId, None))
       case Ok(s) => (t, Response(200, NotificationPayload(s, s.chatId)))
       case Throw(_) => (t, ErrorResponse(500, "failed to get settings")))
    case FetchChat(userId, chatId) =>
      (match Guarded(r.first, SelectNotification(env, t, userId, Some(chatId)))
       case Ok(s) => (t, Response(200, NotificationPayload(s, Some(chatId))))
       case Throw(_) =>
         match Guarded(r.second, SelectNotification(env, t, userId, None))
         case Ok(s) => (t, Response(200, NotificationPayload(s, Some(chatId))))
         case Throw(_) => (t, ErrorResponse(500, "failed to get settings")))
    case Modify(command, success, failure) =>
      (match Guarded(r.first, Exec(env, t, command))
       case Ok(t') => (t', success)
       case Throw(what) => (t, FailureResponse(failure, what)))
    case Amend(userId, patch) => PerformAmend(env, t, r, userId, patch)
  }

  // ---------------------------------------------------------------- the whole service

  /** A running service: its environment and the route map its request manager built. */
  datatype Service = Service(env: Environment, routes: RouteMap)

  function UserOf(r: Request): string
  {
    r.userHeader.Or("")
  }

  predicate IsProfileCreation(r: Request)
  {
    r.verb == POST && r.target == "/internal/profiles"
  }

  /** The plan of the handler bound to an id, by its own choice of action. */
  function PlanBound(sv: Service, id: HandlerId, r: Request): (plan: Plan)
    ensures ActsFor(plan, UserOf(r))
    ensures Creates(plan) ==> IsProfileCreation(r)
    ensures IsProfileCreation(r) ==> Creates(plan) || plan.Reply?
  {
    assert "/internal/profiles"[1] == 'i' && "/favorites/"[1] == 'f';
    match Select(KindOf(id), r.verb, r.target)
    case None => Reply(ErrorResponse(404, "not_found"))
    case Some(action) => PlanOf(sv.env, action, r.body, RouteContext(UserOf(r), PathParams(r.target)))
  }

  function PlanFor(sv: Service, r: Request): (plan: Plan)
    ensures ActsFor(plan, UserOf(r))
    ensures Creates(plan) ==> IsProfileCreation(r)
    ensures IsProfileCreation(r) ==> Creates(plan) || plan.Reply?
  {
    if r.verb == OPTIONS then Reply(Response(204, Empty))
    else match ResolveRoute(sv.routes, r.target, r.verb)
      case None => Reply(ErrorResponse(404, "route_not_found"))
      case Some(info) =>
        if !IsProfileCreation(r) && UserOf(r) == "" then Reply(ErrorResponse(401, "missing X-User-ID"))
        else if !IsProfileCreation(r) && !sv.env.allows(UserOf(r), info.scope)
        then Reply(ErrorResponse(403, "auth_failed"))
        else PlanBound(sv, info.id, r)
  }

  function Serve(sv: Service, t: Tables, r: Request): (Tables, Response)
  {
    Perform(sv.env, t, r, PlanFor(sv, r))
  }

  /** The tables that requests, served one at a time, make of given ones. */
  function Run(sv: Service, t: Tables, requests: seq<Request>): Tables
  {
    if requests == [] then t
    else Serve(sv, Run(sv, t, requests[..|requests| - 1]), requests[|requests| - 1]).0
  }

  /** The tables after a history of requests from an empty store. */
  function After(sv: Service, history: seq<Request>): Tables
  {
    if history == [] then EMPTY
    else Serve(sv, After(sv, history[..|history| - 1]), history[|history| - 1]).0
  }
}
