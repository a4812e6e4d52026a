/**
 The five handlers as objects on their repositories. Each action is proved to be the plan of
 its handler id, carried out; each Handle to select its action on its own.
 */
module Handlers {
  import opened Outcomes
  import opened Database
  import opened Routing
  import opened Requests
  import opened Repositories
  import Base64

  /** What performing one action on the tables does and answers. */
  ghost function Performed(env: Environment, t: Tables, id: HandlerId, r: Request, ctx: RouteContext)
    : (Tables, Response)
  {
    Perform(env, t, r, PlanOf(env, id, r.body, ctx))
  }

  /** What a handler does with a request: the action it selects, or not_found. */
  ghost function Dispatched(env: Environment, t: Tables, handler: HandlerKind, r: Request, ctx: RouteContext)
    : (Tables, Response)
  {
    match Select(handler, r.verb, r.target)
    case None => (t, ErrorResponse(404, "not_found"))
    case Some(id) => Performed(env, t, id, r, ctx)
  }

  class ContactsHandler {
    const repo: ContactsRepository

    constructor (repo: ContactsRepository)
      ensures this.repo == repo
    {
      this.repo := repo;
    }

    method Handle(r: Request, ctx: RouteContext) returns (response: Response)
      requires repo.conn.Valid()
      modifies repo.conn
      ensures repo.conn.Valid()
      ensures (repo.conn.tables, response)
           == Dispatched(repo.conn.env, old(repo.conn.tables), ContactsKind, r, ctx)
    {
      if r.verb == GET && r.target == "/contacts" {
        response := HandleGetContacts(r, ctx);
      } else if r.verb == POST && r.target == "/contacts" {
        response := HandleAddContact(r, ctx);
      } else if r.verb == DELETE && StartsWith(r.target, "/contacts/") {
        response := HandleDeleteContact(r, ctx);
      } else {
        response := ErrorResponse(404, "not_found");
      }
    }

    method HandleGetContacts(r: Request, ctx: RouteContext) returns (response: Response)
      requires repo.conn.Valid()
      ensures (repo.conn.tables, response) == Performed(repo.conn.env, repo.conn.tables, GetContacts, r, ctx)
    {
      var contacts := repo.List(ctx.userId, r.first);
      if contacts.Throw? {
        return ErrorResponse(404, "contacts not found");
      }
      var items := [];
      for i := 0 to |contacts.value|
        invariant |items| == i
        invariant forall j :: 0 <= j < i ==>
          var contact := contacts.value[j];
          items[j] == ContactItem(contact.ownerId, contact.contactId, contact.alias.Or(""))
      {
        var contact := contacts.value[i];
        items := items + [ContactItem(contact.ownerId, contact.contactId, contact.alias.Or(""))];
      }
      response := Response(200, ContactsView(items));
      assert items == ContactItems(SelectContacts(repo.conn.env, repo.conn.tables, ctx.userId).value);
    }

    method HandleAddContact(r: Request, ctx: RouteContext) returns (response: Response)
      requires repo.conn.Valid()
      modifies repo.conn
      ensures repo.conn.Valid()
      ensures (repo.conn.tables, response)
           == Performed(repo.conn.env, old(repo.conn.tables), AddContact, r, ctx)
    {
      var failed := ErrorResponse(409, "failed to add contact");
      var json := Parse(r.body);
      if json.Throw? {
        return failed;
      }
      var contactId := ValueString(json.value, "contact_id", "");
      if contactId.Throw? {
        return failed;
      }
      if contactId.value == "" {
        return ErrorResponse(400, "contact_id is required");
      }
      var alias := None;
      if Contains(json.value, "alias") {
        var text := GetString(json.value, "alias");
        if text.Throw? {
          return failed;
        }
        alias := Some(text.value);
      }
      var contact := Contact(ctx.userId, contactId.value, alias);
      var added := repo.Add(contact, r.first);
      if added.Throw? {
        return failed;
      }
      response := Response(201, ContactView(ContactItem(contact.ownerId, contact.contactId, contact.alias.Or(""))));
    }

    method HandleDeleteContact(r: Request, ctx: RouteContext) returns (response: Response)
      requires repo.conn.Valid()
      modifies repo.conn
      ensures repo.conn.Valid()
      ensures (repo.conn.tables, response)
           == Performed(repo.conn.env, old(repo.conn.tables), DeleteContact, r, ctx)
    {
      if "contact_id" !in ctx.params {
        return ErrorResponse(400, "contact_id is required");
      }
      var removed := repo.Remove(ctx.userId, ctx.params["contact_id"], r.first);
      if removed.Throw? {
        return ErrorResponse(404, "contact not found");
      }
      response := Response(204, Empty);
    }
  }

  class FavoritesHandler {
    const repo: FavoriteRepository

    constructor (repo: FavoriteRepository)
      ensures this.repo == repo
    {
      this.repo := repo;
    }

    method Handle(r: Request, ctx: RouteContext) returns (response: Response)
      requires repo.conn.Valid()
      modifies repo.conn
      ensures repo.conn.Valid()
      ensures (repo.conn.tables, response)
           == Dispatched(repo.conn.env, old(repo.conn.tables), FavoritesKind, r, ctx)
    {
      if r.verb == GET && r.target == "/favorites" {
        response := HandleGetFavorites(r, ctx);
      } else if r.verb == POST && StartsWith(r.target, "/favorites/") {
        response := HandleAddFavorite(r, ctx);
      } else if r.verb == DELETE && StartsWith(r.target, "/favorites/") {
        response := HandleRemoveFavorite(r, ctx);
      } else {
        response := ErrorResponse(404, "not_found");
      }
    }

    method HandleGetFavorites(r: Request, ctx: RouteContext) returns (response: Response)
      requires repo.conn.Valid()
      ensures (repo.conn.tables, response) == Performed(repo.conn.env, repo.conn.tables, GetFavorites, r, ctx)
    {
      var favorites := repo.List(ctx.userId, r.first);
      if favorites.Throw? {
        return ErrorResponse(500, "failed to get favorites");
      }
      var items := [];
      for i := 0 to |favorites.value|
        invariant items == favorites.value[..i]
      {
        items := items + [favorites.value[i]];
      }
      response := Response(200, FavoritesView(items));
      assert items == FavoriteItems(SelectFavorites(repo.conn.env, repo.conn.tables, ctx.userId).value);
    }

    method HandleAddFavorite(r: Request, ctx: RouteContext) returns (response: Response)
      requires repo.conn.Valid()
      modifies repo.conn
      ensures repo.conn.Valid()
      ensures (repo.conn.tables, response)
           == Performed(repo.conn.env, old(repo.conn.tables), AddFavorite, r, ctx)
    {
      if "chat_id" !in ctx.params {
        return ErrorResponse(400, "chat_id is required");
      }
      var added := repo.Add(ctx.userId, ctx.params["chat_id"], r.first);
      if added.Throw? {
        return ErrorResponse(500, "failed to add favorite");
      }
      response := Response(201, Empty);
    }

    method HandleRemoveFavorite(r: Request, ctx: RouteContext) returns (response: Response)
      requires repo.conn.Valid()
      modifies repo.conn
      ensures repo.conn.Valid()
      ensures (repo.conn.tables, response)
           == Performed(repo.conn.env, old(repo.conn.tables), RemoveFavorite, r, ctx)
    {
      if "chat_id" !in ctx.params {
        return ErrorResponse(400, "chat_id is required");
      }
      var removed := repo.Remove(ctx.userId, ctx.params["chat_id"], r.first);
      if removed.Throw? {
        return ErrorResponse(500, "failed to remove favorite");
      }
      response := Response(204, Empty);
    }
  }

  class PrivacyHandler {
    const repo: PrivacyRepository

    constructor (repo: PrivacyRepository)
      ensures this.repo == repo
    {
      this.repo := repo;
    }

    method Handle(r: Request, ctx: RouteContext) returns (response: Response)
      requires repo.conn.Valid()
      modifies repo.conn
      ensures repo.conn.Valid()
      ensures (repo.conn.tables, response)
           == Dispatched(repo.conn.env, old(repo.conn.tables), PrivacyKind, r, ctx)
    {
      if r.verb == GET && r.target == "/me/privacy" {
        response := HandleGetPrivacy(r, ctx);
      } else if r.verb == PUT && r.target == "/me/privacy" {
        response := HandleUpdatePrivacy(r, ctx);
      } else {
        response := ErrorResponse(404, "not_found");
      }
    }

    method HandleGetPrivacy(r: Request, ctx: RouteContext) returns (response: Response)
      requires repo.conn.Valid()
      ensures (repo.conn.tables, response) == Performed(repo.conn.env, repo.conn.tables, GetPrivacy, r, ctx)
    {
      var settings := repo.Get(ctx.userId, r.first);
      if settings.Throw? {
        return ErrorResponse(500, "failed to get privacy settings");
      }
      response := Response(200, PrivacyView(settings.value));
    }

    method HandleUpdatePrivacy(r: Request, ctx: RouteContext) returns (response: Response)
      requires repo.conn.Valid()
      modifies repo.conn
      ensures repo.conn.Valid()
      ensures (repo.conn.tables, response)
           == Performed(repo.conn.env, old(repo.conn.tables), UpdatePrivacy, r, ctx)
    {
      var failed := ErrorResponse(500, "update failed");
      var json := Parse(r.body);
      if json.Throw? {
        return failed;
      }
      var profile := ValueString(json.value, "profile_visibility", "everyone");
      if profile.Throw? {
        return failed;
      }
      var lastSeen := ValueString(json.value, "last_seen_visibility", "everyone");
      if lastSeen.Throw? {
        return failed;
      }
      var avatar := ValueString(json.value, "avatar_visibility", "everyone");
      if avatar.Throw? {
        return failed;
      }
      var updated := repo.Update(PrivacySettings(ctx.userId, profile.value, lastSeen.value, avatar.value), r.first);
      if updated.Throw? {
        return failed;
      }
      response := Response(204, Empty);
    }
  }

  class NotificationsHandler {
    const repo: NotificationRepository

    constructor (repo: NotificationRepository)
      ensures this.repo == repo
    {
      this.repo := repo;
    }

    method Handle(r: Request, ctx: RouteContext) returns (response: Response)
      requires repo.conn.Valid()
      modifies repo.conn
      ensures repo.conn.Valid()
      ensures (repo.conn.tables, response)
           == Dispatched(repo.conn.env, old(repo.conn.tables), NotificationsKind, r, ctx)
    {
      if r.verb == GET && r.target == "/notifications" {
        response := HandleGetNotifications(r, ctx);
      } else if r.verb == GET && StartsWith(r.target, "/notifications/") {
        response := HandleGetChatNotifications(r, ctx);
      } else if r.verb == PUT && r.target == "/notifications" {
        response := HandleUpdateNotifications(r, ctx);
      } else if r.verb == PUT && StartsWith(r.target, "/notifications/") {
        response := HandleUpdateChatNotifications(r, ctx);
      } else {
        response := ErrorResponse(404, "not_found");
      }
    }

    method HandleGetNotifications(r: Request, ctx: RouteContext) returns (response: Response)
      requires repo.conn.Valid()
      ensures (repo.conn.tables, response) == Performed(repo.conn.env, repo.conn.tables, GetNotifications, r, ctx)
    {
      var settings := repo.Get(ctx.userId, None, r.first);
      if settings.Throw? {
        return ErrorResponse(500, "failed to get settings");
      }
      response := Response(200, NotificationPayload(settings.value, settings.value.chatId));
    }

    /** The global settings stand in when the query for the chat throws. */
    method HandleGetChatNotifications(r: Request, ctx: RouteContext) returns (response: Response)
      requires repo.conn.Valid()
      ensures (repo.conn.tables, response) == Performed(repo.conn.env, repo.conn.tables, GetChatNotifications, r, ctx)
    {
      if "chat_id" !in ctx.params {
        return ErrorResponse(400, "chat_id is required");
      }
      var chatId := ctx.params["chat_id"];
      var settings := repo.Get(ctx.userId, Some(chatId), r.first);
      if settings.Throw? {
        settings := repo.Get(ctx.userId, None, r.second);
      }
      if settings.Throw? {
        return ErrorResponse(500, "failed to get settings");
      }
      response := Response(200, NotificationPayload(settings.value, Some(chatId)));
    }

    method HandleUpdateNotifications(r: Request, ctx: RouteContext) returns (response: Response)
      requires repo.conn.Valid()
      modifies repo.conn
      ensures repo.conn.Valid()
      ensures (repo.conn.tables, response)
           == Performed(repo.conn.env, old(repo.conn.tables), UpdateNotifications, r, ctx)
    {
      response := Update(r, ctx.userId, None);
    }

    method HandleUpdateChatNotifications(r: Request, ctx: RouteContext) returns (response: Response)
      requires repo.conn.Valid()
      modifies repo.conn
      ensures repo.conn.Valid()
      ensures (repo.conn.tables, response)
           == Performed(repo.conn.env, old(repo.conn.tables), UpdateChatNotifications, r, ctx)
    {
      if "chat_id" !in ctx.params {
        return ErrorResponse(400, "chat_id is required");
      }
      response := Update(r, ctx.userId, Some(ctx.params["chat_id"]));
    }

    /** The part that the two updates share. */
    method Update(r: Request, userId: string, chatId: Option<string>) returns (response: Response)
      requires repo.conn.Valid()
      modifies repo.conn
      ensures repo.conn.Valid()
      ensures (repo.conn.tables, response)
           == Perform(repo.conn.env, old(repo.conn.tables), r,
                      PlanUpdateNotifications(repo.conn.env, r.body, userId, chatId.Or("")))
    {
      hide Exec, SelectNotification;
      var json := Parse(r.body);
      if json.Throw? {
        return ErrorResponse(400, json.what);
      }
      var muted := ValueBool(json.value, "muted", false);
      if muted.Throw? {
        return ErrorResponse(400, muted.what);
      }
      var mutedUntil := None;
      if Contains(json.value, "mutedUntil") && !json.value.value["mutedUntil"].Null? {
        var text := GetString(json.value, "mutedUntil");
        if text.Throw? {
          return ErrorResponse(400, text.what);
        }
        if text.value != "" {
          mutedUntil := repo.conn.env.time(text.value);
          if mutedUntil.None? {
            return ErrorResponse(400, "invalid mutedUntil format, expected RFC3339");
          }
        }
      }
      var upserted := repo.Upsert(NotificationSettings(None, userId, chatId, muted.value, mutedUntil), r.first);
      if upserted.Throw? {
        assert "" + upserted.what == upserted.what;
        return ErrorResponse(400, upserted.what);
      }
      response := Response(204, Empty);
    }
  }

  class ProfileHandler {
    const repo: ProfileRepository

    constructor (repo: ProfileRepository)
      ensures this.repo == repo
    {
      this.repo := repo;
    }

    method Handle(r: Request, ctx: RouteContext) returns (response: Response)
      requires repo.conn.Valid()
      modifies repo.conn
      ensures repo.conn.Valid()
      ensures (repo.conn.tables, response)
           == Dispatched(repo.conn.env, old(repo.conn.tables), ProfileKind, r, ctx)
    {
      if r.verb == POST && r.target == "/internal/profiles" {
        response := HandleCreateProfile(r, ctx);
      } else if r.verb == GET && r.target == "/me" {
        response := HandleGetMyProfile(r, ctx);
      } else if r.verb == PATCH && r.target == "/me" {
        response := HandleUpdateProfile(r, ctx);
      } else if r.verb == GET && StartsWith(r.target, "/") && r.target != "/me" {
        response := HandleGetProfileByID(r, ctx);
      } else if r.verb == POST && r.target == "/me/avatar" {
        response := HandleUploadAvatar(r, ctx);
      } else if r.verb == DELETE && r.target == "/me/avatar" {
        response := HandleDeleteAvatar(r, ctx);
      } else {
        response := ErrorResponse(404, "not_found");
      }
    }

    method HandleCreateProfile(r: Request, ctx: RouteContext) returns (response: Response)
      requires repo.conn.Valid()
      modifies repo.conn
      ensures repo.conn.Valid()
      ensures (repo.conn.tables, response)
           == Performed(repo.conn.env, old(repo.conn.tables), CreateProfile, r, ctx)
    {
      var failed := ErrorResponse(500, "create failed");
      var json := Parse(r.body);
      if json.Throw? {
        return failed;
      }
      var userId := ValueString(json.value, "user_id", "");
      if userId.Throw? {
        return failed;
      }
      if userId.value == "" {
        return ErrorResponse(400, "user_id required");
      }
      var profile := repo.Create(userId.value, r.first);
      if profile.Throw? {
        return failed;
      }
      response := Response(201, CreatedUser(profile.value.userId));
    }

    method HandleGetMyProfile(r: Request, ctx: RouteContext) returns (response: Response)
      requires repo.conn.Valid()
      ensures (repo.conn.tables, response) == Performed(repo.conn.env, repo.conn.tables, GetMyProfile, r, ctx)
    {
      var profile := repo.GetByID(ctx.userId, r.first);
      if profile.Throw? {
        return ErrorResponse(404, "profile not found");
      }
      response := Response(200, ViewOf(profile.value));
    }

    method HandleGetProfileByID(r: Request, ctx: RouteContext) returns (response: Response)
      requires repo.conn.Valid()
      ensures (repo.conn.tables, response) == Performed(repo.conn.env, repo.conn.tables, GetProfileByID, r, ctx)
    {
      if "user_id" !in ctx.params {
        return ErrorResponse(400, "user_id required");
      }
      var profile := repo.GetByID(ctx.params["user_id"], r.first);
      if profile.Throw? {
        return ErrorResponse(404, "profile not found");
      }
      response := Response(200, ViewOf(profile.value));
    }

    /** Reads the profile, assigns the fields the body has, and writes it back. */
    method HandleUpdateProfile(r: Request, ctx: RouteContext) returns (response: Response)
      requires repo.conn.Valid()
      modifies repo.conn
      ensures repo.conn.Valid()
      ensures (repo.conn.tables, response)
           == Performed(repo.conn.env, old(repo.conn.tables), UpdateProfile, r, ctx)
    {
      hide Exec, SelectProfile, Mentions, ProfileRead;
      var json := Parse(r.body);
      if json.Throw? {
        return PatchFailed(json.what);
      }
      var read := repo.GetByID(ctx.userId, r.first);
      if r.first.None? {
        ReadIsSelect(repo.conn.env, repo.conn.tables, ctx.userId, read);
      }
      if read.Throw? {
        return PatchFailed(read.what);
      }
      var profile := read.value;
      var firstName := PatchField(json.value, "first_name");
      var lastName := PatchField(json.value, "last_name");
      var username := PatchField(json.value, "username");
      var bio := PatchField(json.value, "bio");
      if firstName.Throw? || lastName.Throw? || username.Throw? || bio.Throw? {
        return PatchFailed("type_error");
      }
      if firstName.value.Some? {
        profile := profile.(firstName := firstName.value);
      }
      if lastName.value.Some? {
        profile := profile.(lastName := lastName.value);
      }
      if username.value.Some? {
        profile := profile.(username := username.value);
      }
      if bio.value.Some? {
        profile := profile.(bio := bio.value);
      }
      assert profile == Overlay(read.value, PatchOf(json.value).value);
      var updated := repo.Update(profile, r.second);
      if updated.Throw? {
        return PatchFailed(updated.what);
      }
      response := Response(200, ViewOf(profile));
    }

    method HandleUploadAvatar(r: Request, ctx: RouteContext) returns (response: Response)
      requires repo.conn.Valid()
      modifies repo.conn
      ensures repo.conn.Valid()
      ensures (repo.conn.tables, response)
           == Performed(repo.conn.env, old(repo.conn.tables), UploadAvatar, r, ctx)
    {
      var json := Parse(r.body);
      if json.Throw? {
        return ErrorResponse(500, "upload failed: " + json.what);
      }
      if !Contains(json.value, "image_data") {
        return ErrorResponse(400, "image_data (base64) is required");
      }
      var text := GetString(json.value, "image_data");
      if text.Throw? {
        return ErrorResponse(500, "upload failed: " + text.what);
      }
      var contentType := ValueString(json.value, "content_type", "image/jpeg");
      if contentType.Throw? {
        return ErrorResponse(500, "upload failed: " + contentType.what);
      }
      var image := Base64.DecodeBase64(text.value);
      if image == [] {
        return ErrorResponse(400, "invalid image data");
      }
      var url := repo.conn.env.avatarUrl(ctx.userId, contentType.value);
      var updated := repo.UpdateAvatarURL(ctx.userId, url, r.first);
      if updated.Throw? {
        return ErrorResponse(500, "upload failed: " + updated.what);
      }
      response := Response(200, AvatarView(ctx.userId, url));
    }

    method HandleDeleteAvatar(r: Request, ctx: RouteContext) returns (response: Response)
      requires repo.conn.Valid()
      modifies repo.conn
      ensures repo.conn.Valid()
      ensures (repo.conn.tables, response)
           == Performed(repo.conn.env, old(repo.conn.tables), DeleteAvatar, r, ctx)
    {
      var updated := repo.UpdateAvatarURL(ctx.userId, "", r.first);
      if updated.Throw? {
        return ErrorResponse(500, "delete failed");
      }
      response := Response(204, Empty);
    }
  }
}
