/** Which JSON key ends up where: what is made of request bodies, key by key, and of failures. */
module BodyLaws {
  import opened Outcomes
  import opened Database
  import opened Requests
  import Base64

  type JsonObject = map<string, Json>

  /** The key is missing or holds a string. */
  predicate TextOrMissing(fields: JsonObject, key: string)
  {
    key in fields ==> fields[key].Str?
  }

  /** The string under a key, if there is one. */
  function TextAt(fields: JsonObject, key: string): Option<string>
  {
    if key in fields && fields[key].Str? then Some(fields[key].text) else None
  }

  /** The keys of a body; a JSON value that is not an object has none. */
  function FieldsOf(body: Body): JsonObject
  {
    if body.Object? then body.fields else map[]
  }

  // ---------------------------------------------------------------- POST /internal/profiles

  lemma CreationBody(env: Environment, body: Body)
    ensures
      PlanCreateProfile(env, body)
      == if !body.Object? || !TextOrMissing(body.fields, "user_id") then Reply(Response(500, Error("create failed")))
         else match TextAt(body.fields, "user_id")
         case None => Reply(Response(400, Error("user_id required")))
         case Some(u) =>
           if u == "" then Reply(Response(400, Error("user_id required")))
           else Modify(InsertProfile(u),
                       Response(201, CreatedUser(if env.id(u).Id? then env.id(u).key else u)),
                       Failure(500, "create failed", false))
  {
  }

  // ---------------------------------------------------------------- PATCH /me

  /** A field that is present with another type than string makes the whole PATCH fail. */
  predicate PatchTyped(fields: JsonObject)
  {
    && TextOrMissing(fields, "first_name") && TextOrMissing(fields, "last_name")
    && TextOrMissing(fields, "username") && TextOrMissing(fields, "bio")
  }

  /** Each text of the patch is the string under its own key, and is unset exactly if that key is missing. */
  lemma PatchBody(body: Body, userId: string)
    requires !body.Malformed?
    ensures
      var fields := FieldsOf(body);
      PlanUpdateProfile(body, userId)
      == Amend(userId,
               if PatchTyped(fields)
               then Ok(Patch(TextAt(fields, "first_name"), TextAt(fields, "last_name"),
                             TextAt(fields, "username"), TextAt(fields, "bio")))
               else Throw("type_error"))
    ensures
      var fields := FieldsOf(body);
      PatchTyped(fields) ==>
        forall key :: key in ["first_name", "last_name", "username", "bio"] ==>
          (TextAt(fields, key).None? <==> key !in fields)
  {
  }

  /** A text mentions another exactly if that stands somewhere in it. */
  lemma MentionsMeans(what: string, text: string)
    ensures Mentions(what, text) <==> exists a, b :: what == a + text + b
  {
    if Mentions(what, text) {
      var i :| 0 <= i <= |what| && text <= what[i..];
      assert what == what[..i] + text + what[i + |text|..];
    }
    if a, b :| what == a + text + b {
      assert what[|a|..] == text + b;
    }
  }

  lemma ShortIsNoMention(what: string)
    requires |what| < |TAKEN|
    ensures !Mentions(what, TAKEN)
  {
  }

  /** A PATCH that never gets to its second statement is answered 500, unless the cause happens to mention TAKEN. */
  lemma PatchErrors(env: Environment, t: Tables, r: Request)
    ensures
      var (t', response) := Perform(env, t, r, PlanUpdateProfile(r.body, UserOf(r)));
      var failed := Response(500, Error("update failed"));
      var taken := Response(409, Error("username already taken"));
      && (r.body.Malformed? ==> t' == t && response == if Mentions(r.body.what, TAKEN) then taken else failed)
      && (!r.body.Malformed? && r.first.Some? ==>
            t' == t && response == if Mentions(r.first.value, TAKEN) then taken else failed)
      && (!r.body.Malformed? && r.first.None? && !env.id(UserOf(r)).Rejected? ==>
            ((env.id(UserOf(r)).Id? ==> env.id(UserOf(r)).key !in t.profiles) || !PatchTyped(FieldsOf(r.body)) ==>
               t' == t && response == failed))
  {
    ShortIsNoMention("type_error");
    ShortIsNoMention("Profile not found");
    if !r.body.Malformed? {
      PatchBody(r.body, UserOf(r));
    }
  }

  // ---------------------------------------------------------------- POST /me/avatar

  lemma AvatarBody(env: Environment, body: Body, userId: string)
    ensures
      var fields := FieldsOf(body);
      PlanUploadAvatar(env, body, userId)
      == if body.Malformed? then Reply(Response(500, Error("upload failed: " + body.what)))
         else if "image_data" !in fields then Reply(Response(400, Error("image_data (base64) is required")))
         else if !TextOrMissing(fields, "image_data") || !TextOrMissing(fields, "content_type")
         then Reply(Response(500, Error("upload failed: " + "type_error")))
         else if Base64.DecodedText(fields["image_data"].text) == []
         then Reply(Response(400, Error("invalid image data")))
         else
           var url := env.avatarUrl(userId, TextAt(fields, "content_type").Or("image/jpeg"));
           Modify(SetAvatar(userId, url), Response(200, AvatarView(userId, url)), Failure(500, "upload failed: ", true))
  {
    hide Base64.DecodedText;
  }

  // ---------------------------------------------------------------- POST /contacts

  lemma ContactBody(body: Body, userId: string)
    ensures
      var failed := Reply(Response(409, Error("failed to add contact")));
      PlanAddContact(body, userId)
      == if !body.Object? || !TextOrMissing(body.fields, "contact_id") then failed
         else if TextAt(body.fields, "contact_id").Or("") == ""
         then Reply(Response(400, Error("contact_id is required")))
         else if !TextOrMissing(body.fields, "alias") then failed
         else
           var contactId, alias := body.fields["contact_id"].text, TextAt(body.fields, "alias").Or("");
           Modify(PutContact(userId, contactId, alias),
                  Response(201, ContactView(ContactItem(userId, contactId, alias))),
                  Failure(409, "failed to add contact", false))
  {
  }

  // ---------------------------------------------------------------- PUT /me/privacy

  lemma PrivacyBody(body: Body, userId: string)
    ensures
      PlanUpdatePrivacy(body, userId)
      == if body.Object? && TextOrMissing(body.fields, "profile_visibility")
            && TextOrMissing(body.fields, "last_seen_visibility") && TextOrMissing(body.fields, "avatar_visibility")
         then Modify(PutPrivacy(userId, PrivacyRow(TextAt(body.fields, "profile_visibility").Or("everyone"),
                                                   TextAt(body.fields, "last_seen_visibility").Or("everyone"),
                                                   TextAt(body.fields, "avatar_visibility").Or("everyone"))),
                     Response(204, Empty), Failure(500, "update failed", false))
         else Reply(Response(500, Error("update failed")))
  {
  }

  // ---------------------------------------------------------------- PUT /notifications, PUT /notifications/c

  /** The flag a body sets: the Boolean under "muted", or false. */
  function MutedAt(fields: JsonObject): bool
  {
    "muted" in fields && fields["muted"] == Json.Bool(true)
  }

  /** No time is given: the key is missing, or holds null or the empty string. */
  predicate NoTime(fields: JsonObject)
  {
    "mutedUntil" !in fields || fields["mutedUntil"] in [Null, Str("")]
  }

  lemma NotificationBody(env: Environment, body: Body, userId: string, chatId: string)
    ensures
      PlanUpdateNotifications(env, body, userId, chatId)
      == match body
         case Malformed(what) => Reply(Response(400, Error(what)))
         case NotAnObject => Reply(Response(400, Error("type_error")))
         case Object(fields) =>
           if "muted" in fields && !fields["muted"].Bool? then Reply(Response(400, Error("type_error")))
           else if NoTime(fields) then
             Modify(PutNotification(userId, chatId, MutedAt(fields), None),
                    Response(204, Empty), Failure(400, "", true))
           else if !fields["mutedUntil"].Str? then Reply(Response(400, Error("type_error")))
           else match env.time(fields["mutedUntil"].text)
             case None => Reply(Response(400, Error("invalid mutedUntil format, expected RFC3339")))
             case Some(time) =>
               Modify(PutNotification(userId, chatId, MutedAt(fields), Some(time)),
                      Response(204, Empty), Failure(400, "", true))
  {
  }

  // ---------------------------------------------------------------- failing statements

  /** A read is answered by its own error exactly if its statement throws, or finds no profile. */
  lemma FailedReads(env: Environment, t: Tables, r: Request, u: string)
    ensures
      Perform(env, t, r, FetchProfile(u)).1 == Response(404, Error("profile not found"))
      <==> r.first.Some? || !env.id(u).Id? || env.id(u).key !in t.profiles
    ensures
      Perform(env, t, r, FetchContacts(u)).1 == Response(404, Error("contacts not found"))
      <==> r.first.Some? || env.id(u).Rejected?
    ensures
      Perform(env, t, r, FetchFavorites(u)).1 == Response(500, Error("failed to get favorites"))
      <==> r.first.Some? || env.id(u).Rejected?
    ensures
      Perform(env, t, r, FetchPrivacy(u)).1 == Response(500, Error("failed to get privacy settings"))
      <==> r.first.Some? || env.id(u).Rejected?
    ensures
      Perform(env, t, r, FetchGlobal(u)).1 == Response(500, Error("failed to get settings"))
      <==> r.first.Some? || env.id(u).Rejected?
  {
  }

  /** A failed modification is answered by its error text, followed by the exception's where the program appends it. */
  lemma FailedModification(env: Environment, t: Tables, r: Request, c: Command, success: Response, f: Failure)
    ensures
      var fault := if r.first.Some? then r.first
                   else if Exec(env, t, c).Throw? then Some(Exec(env, t, c).what) else None;
      fault.Some? ==>
        Perform(env, t, r, Modify(c, success, f))
        == (t, Response(f.status, Error(if f.detail then f.text + fault.value else f.text)))
  {
    hide Exec;
  }
}
