/** Exactly when modifications succeed. */
module Success {
  import opened Outcomes
  import opened OwnedRows
  import opened Database
  import opened Requests
  import opened Invariants

  /** The text denotes a user with a profile. */
  predicate Known(env: Environment, t: Tables, userId: string)
  {
    env.id(userId).Id? && env.id(userId).key in t.profiles
  }

  /** What a modification asks of the store, other than the update of a profile's texts. */
  predicate Admissible(env: Environment, t: Tables, c: Command)
    requires !c.SetProfile?
  {
    match c
    case InsertProfile(userId) => env.id(userId).Id?
    case SetAvatar(userId, _) => !env.id(userId).Rejected?
    case PutContact(ownerId, contactId, alias) =>
      Known(env, t, ownerId) && Known(env, t, contactId) && env.fits(Alias, alias)
    case DropContact(ownerId, contactId) => !env.id(ownerId).Rejected? && !env.id(contactId).Rejected?
    case PutFavorite(userId, chatId) => Known(env, t, userId) && env.id(chatId).Id?
    case DropFavorite(userId, chatId) => !env.id(userId).Rejected? && !env.id(chatId).Rejected?
    case PutPrivacy(userId, privacy) =>
      && Known(env, t, userId)
      && env.fits(Visibility, privacy.profile) && env.fits(Visibility, privacy.lastSeen)
      && env.fits(Visibility, privacy.avatar)
    case PutNotification(userId, chatId, _, _) => Known(env, t, userId) && env.id(chatId).Id?
  }

  /** On consistent tables a statement succeeds if and only if it is admissible, whether or not its row exists. */
  lemma ExecSucceedsIff(env: Environment, t: Tables, c: Command)
    requires Valid(env, t) && !c.SetProfile?
    ensures Exec(env, t, c).Ok? <==> Admissible(env, t, c)
  {
    hide UniqueKeys, Stamped, References, Has, DistinctUsernames;
    var users := t.profiles.Keys;
    match c
    case PutContact(ownerId, contactId, _) =>
      if env.id(ownerId).Id? && env.id(contactId).Id? && Has(t.contacts, env.id(ownerId).key, env.id(contactId).key) {
        HasReferences(t.contacts, users, Some(users), env.id(ownerId).key, env.id(contactId).key);
      }
    case PutFavorite(userId, chatId) =>
      if env.id(userId).Id? && env.id(chatId).Id? && Has(t.favorites, env.id(userId).key, env.id(chatId).key) {
        HasReferences(t.favorites, users, None, env.id(userId).key, env.id(chatId).key);
      }
    case PutNotification(userId, chatId, _, _) =>
      if env.id(userId).Id? && env.id(chatId).Id? {
        FindNotificationRow(t.notifications, env.id(userId).key, Some(env.id(chatId).key));
      }
    case _ =>
  }

  /**
   After every history a modifying request is answered with success if and only if the store
   answers and the statement is admissible; otherwise it is answered with its own error status
   and changes nothing.
   */
  lemma RequestSucceedsIff(sv: Service, history: seq<Request>, r: Request)
    requires CanonicalIds(sv.env) && PlanFor(sv, r).Modify?
    ensures
      var t, plan := After(sv, history), PlanFor(sv, r);
      var (t', response) := Serve(sv, t, r);
      if r.first.None? && Admissible(sv.env, t, plan.command)
      then response == plan.success && Exec(sv.env, t, plan.command) == Ok(t')
      else response.status == plan.failure.status && t' == t
  {
    HistoryKeeps(sv, history);
    var plan := PlanFor(sv, r);
    hide After, PlanFor, Valid, Exec, Admissible;
    ExecSucceedsIff(sv.env, After(sv, history), plan.command);
  }
}
