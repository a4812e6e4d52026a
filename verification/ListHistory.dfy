/** The contact and favourite lists are determined by the history of successful operations. */
module ListHistory {
  import opened Outcomes
  import opened OwnedRows
  import opened Database
  import opened Requests
  import opened Invariants

  /** What one request did to a user's list, if it succeeded. */
  datatype Op<T> = Add(item: string, data: T) | Remove(item: string) | Skip

  // ---------------------------------------------------------------- what a history says

  predicate Adds<T>(op: Op<T>, item: string)
  {
    op.Add? && op.item == item
  }

  predicate Removes<T>(op: Op<T>, item: string)
  {
    op.Remove? && op.item == item
  }

  /** Before k, every addition of the item was undone by a later removal. */
  ghost predicate AllUndone<T>(ops: seq<Op<T>>, item: string, k: nat)
    requires k <= |ops|
  {
    forall i :: 0 <= i < k && Adds(ops[i], item) ==> exists j :: i < j < k && Removes(ops[j], item)
  }

  /** k is the first addition of the item since its last removal. */
  ghost predicate AddedAt<T>(ops: seq<Op<T>>, item: string, k: nat)
  {
    && k < |ops| && Adds(ops[k], item)
    && AllUndone(ops, item, k)
    && (forall i :: k < i < |ops| ==> !Removes(ops[i], item))
  }

  /** i is the last addition of the item, with this data. */
  ghost predicate LastAddition<T>(ops: seq<Op<T>>, item: string, i: nat, data: T)
  {
    && i < |ops| && ops[i] == Add(item, data)
    && (forall j :: i < j < |ops| ==> !Adds(ops[j], item))
  }

  /** The place AddedAt speaks of, and the data of the last addition. */
  function Since<T>(ops: seq<Op<T>>, item: string): Option<(nat, T)>
  {
    if ops == [] then None else
    var n := |ops| - 1;
    var before := Since(ops[..n], item);
    if Removes(ops[n], item) then None
    else if Adds(ops[n], item) then Some((if before.Some? then before.value.0 else n, ops[n].data))
    else before
  }

  lemma AllUndonePrefix<T>(ops: seq<Op<T>>, item: string, n: nat, k: nat)
    requires k <= n <= |ops| && AllUndone(ops[..n], item, k)
    ensures AllUndone(ops, item, k)
  {
    forall i | 0 <= i < k && Adds(ops[i], item) ensures exists j :: i < j < k && Removes(ops[j], item) {
      assert Adds(ops[..n][i], item);
      var j :| i < j < k && Removes(ops[..n][j], item);
      assert Removes(ops[j], item);
    }
  }

  lemma {:induction false} SinceMeans<T>(ops: seq<Op<T>>, item: string)
    ensures
      match Since(ops, item)
      case Some((k, data)) => AddedAt(ops, item, k) && exists i :: k <= i && LastAddition(ops, item, i, data)
      case None => AllUndone(ops, item, |ops|)
  {
    if ops == [] {
    } else {
      var n := |ops| - 1;
      SinceMeans(ops[..n], item);
      if Since(ops[..n], item).None? {
        AllUndonePrefix(ops, item, n, n);
        assert Adds(ops[n], item) ==> LastAddition(ops, item, n, ops[n].data);
      } else {
        var (k, data) := Since(ops[..n], item).value;
        AllUndonePrefix(ops, item, n, k);
        var i :| k <= i && LastAddition(ops[..n], item, i, data);
        assert if Adds(ops[n], item) then LastAddition(ops, item, n, ops[n].data) else LastAddition(ops, item, i, data);
      }
    }
  }

  // ---------------------------------------------------------------- replaying operations

  function Apply<T>(entries: seq<Entry<T>>, op: Op<T>): seq<Entry<T>>
  {
    match op
    case Add(item, data) =>
      if Holds(entries, item) then Put(entries, item, data) else entries + [Entry(item, data)]
    case Remove(item) => Drop(entries, item)
    case Skip => entries
  }

  function Replay<T>(ops: seq<Op<T>>): seq<Entry<T>>
  {
    if ops == [] then [] else Apply(Replay(ops[..|ops| - 1]), ops[|ops| - 1])
  }

  /** The entries stand in the order of their first additions, with the data of their last ones. */
  ghost predicate Dated<T>(entries: seq<Entry<T>>, ops: seq<Op<T>>, bound: nat)
  {
    if entries == [] then true else
    var last := entries[|entries| - 1];
    var since := Since(ops, last.item);
    && since.Some? && since.value.1 == last.data && since.value.0 < bound
    && Dated(entries[..|entries| - 1], ops, since.value.0)
  }

  lemma {:induction false} DatedLater<T>(entries: seq<Entry<T>>, ops: seq<Op<T>>, bound: nat, op: Op<T>)
    requires Dated(entries, ops, bound)
    requires op.Skip? || !Holds(entries, op.item)
    ensures Dated(entries, ops + [op], bound)
  {
    if entries == [] {
    } else {
      var n := |entries| - 1;
      assert (ops + [op])[..|ops|] == ops;
      DatedLater(entries[..n], ops, Since(ops, entries[n].item).value.0, op);
    }
  }

  lemma {:induction false} DatedPut<T>(entries: seq<Entry<T>>, ops: seq<Op<T>>, bound: nat, item: string, data: T)
    requires Dated(entries, ops, bound)
    ensures Dated(Put(entries, item, data), ops + [Add(item, data)], bound)
  {
    if entries == [] {
    } else {
      var n := |entries| - 1;
      assert (ops + [Add(item, data)])[..|ops|] == ops;
      DatedPut(entries[..n], ops, Since(ops, entries[n].item).value.0, item, data);
      var entries' := Put(entries, item, data);
      assert entries'[..|entries'| - 1] == Put(entries[..n], item, data);
    }
  }

  lemma DatedWiden<T>(entries: seq<Entry<T>>, ops: seq<Op<T>>, bound: nat, bound': nat)
    requires Dated(entries, ops, bound) && bound <= bound'
    ensures Dated(entries, ops, bound')
  {
  }

  lemma {:induction false} DatedDrop<T>(entries: seq<Entry<T>>, ops: seq<Op<T>>, bound: nat, item: string)
    requires Dated(entries, ops, bound)
    ensures Dated(Drop(entries, item), ops + [Remove(item)], bound)
  {
    if entries == [] {
    } else {
      var n := |entries| - 1;
      var last := entries[n];
      var ops' := ops + [Remove(item)];
      assert ops'[..|ops|] == ops;
      DatedDrop(entries[..n], ops, Since(ops, last.item).value.0, item);
      var others := Drop(entries[..n], item);
      if last.item == item {
        DatedWiden(others, ops', Since(ops, last.item).value.0, bound);
      } else {
        assert (others + [last])[..|others|] == others;
      }
    }
  }

  lemma {:induction false} HoldsPut<T>(entries: seq<Entry<T>>, item: string, data: T, x: string)
    ensures Holds(Put(entries, item, data), x) == Holds(entries, x)
  {
    if entries == [] {
    } else {
      var n := |entries| - 1;
      HoldsPut(entries[..n], item, data, x);
      var entries' := Put(entries, item, data);
      assert entries'[..|entries'| - 1] == Put(entries[..n], item, data);
    }
  }

  lemma {:induction false} HoldsDrop<T>(entries: seq<Entry<T>>, item: string, x: string)
    ensures Holds(Drop(entries, item), x) <==> Holds(entries, x) && x != item
  {
    if entries == [] {
    } else {
      var n := |entries| - 1;
      HoldsDrop(entries[..n], item, x);
      var others := Drop(entries[..n], item);
      assert (others + [entries[n]])[..|others|] == others;
    }
  }

  lemma ApplyHolds<T>(entries: seq<Entry<T>>, op: Op<T>, x: string)
    ensures Holds(Apply(entries, op), x) <==> Adds(op, x) || (Holds(entries, x) && !Removes(op, x))
  {
    match op
    case Add(item, data) =>
      HoldsPut(entries, item, data, x);
      assert (entries + [Entry(item, data)])[..|entries|] == entries;
    case Remove(item) => HoldsDrop(entries, item, x);
    case Skip =>
  }

  lemma {:induction false} ReplayHolds<T>(ops: seq<Op<T>>, x: string)
    ensures Holds(Replay(ops), x) <==> Since(ops, x).Some?
  {
    if ops == [] {
    } else {
      hide Holds, Apply;
      var n := |ops| - 1;
      ReplayHolds(ops[..n], x);
      ApplyHolds(Replay(ops[..n]), ops[n], x);
    }
  }

  lemma {:induction false} ReplayDated<T>(ops: seq<Op<T>>)
    ensures Dated(Replay(ops), ops, |ops|)
  {
    if ops == [] {
    } else {
      var n := |ops| - 1;
      var before := Replay(ops[..n]);
      ReplayDated(ops[..n]);
      assert ops == ops[..n] + [ops[n]];
      DatedWiden(before, ops[..n], n, n + 1);
      match ops[n]
      case Add(item, data) =>
        if Holds(before, item) {
          DatedPut(before, ops[..n], n + 1, item, data);
        } else {
          ReplayHolds(ops[..n], item);
          DatedLater(before, ops[..n], n, ops[n]);
          assert (before + [Entry(item, data)])[..|before|] == before;
        }
      case Remove(item) => DatedDrop(before, ops[..n], n + 1, item);
      case Skip => DatedLater(before, ops[..n], n + 1, Skip);
    }
  }

  /** A list shown newest first, as the history demands it. */
  ghost predicate ShowsHistory<T>(list: seq<Entry<T>>, ops: seq<Op<T>>)
  {
    && (forall item :: (exists i :: 0 <= i < |list| && list[i].item == item) <==> Since(ops, item).Some?)
    && (forall i :: 0 <= i < |list| ==>
          Since(ops, list[i].item).Some? && Since(ops, list[i].item).value.1 == list[i].data)
    && (forall i, j :: 0 <= i < j < |list| ==>
          Since(ops, list[i].item).value.0 > Since(ops, list[j].item).value.0)
  }

  lemma {:induction false} DatedMeans<T>(entries: seq<Entry<T>>, ops: seq<Op<T>>, bound: nat)
    requires Dated(entries, ops, bound)
    ensures forall i :: 0 <= i < |entries| ==>
      var since := Since(ops, entries[i].item);
      since.Some? && since.value.1 == entries[i].data && since.value.0 < bound
    ensures forall i, j :: 0 <= i < j < |entries| ==>
      Since(ops, entries[i].item).value.0 < Since(ops, entries[j].item).value.0
  {
    if entries == [] {
    } else {
      var n := |entries| - 1;
      DatedMeans(entries[..n], ops, Since(ops, entries[n].item).value.0);
      assert forall i :: 0 <= i < n ==> entries[..n][i] == entries[i];
    }
  }

  lemma {:induction false} HoldsMeans<T>(entries: seq<Entry<T>>, item: string)
    ensures Holds(entries, item) <==> exists i :: 0 <= i < |entries| && entries[i].item == item
  {
    if entries == [] {
    } else {
      var n := |entries| - 1;
      HoldsMeans(entries[..n], item);
      assert forall i :: 0 <= i < n ==> entries[..n][i] == entries[i];
    }
  }

  lemma ReplayShowsHistory<T>(ops: seq<Op<T>>)
    ensures ShowsHistory(Backwards(Replay(ops)), ops)
  {
    hide Replay, Since, Dated, Holds, Backwards;
    var entries := Replay(ops);
    var list := Backwards(entries);
    ReplayDated(ops);
    DatedMeans(entries, ops, |ops|);
    forall item ensures (exists i :: 0 <= i < |list| && list[i].item == item) <==> Since(ops, item).Some? {
      ReplayHolds(ops, item);
      HoldsMeans(entries, item);
      if i :| 0 <= i < |entries| && entries[i].item == item {
        assert list[|list| - 1 - i].item == item;
      }
    }
  }

  // ---------------------------------------------------------------- the operations of a history

  /** The contact operation of user u that a successful statement amounts to. */
  function ContactOp(env: Environment, c: Command, u: string): Op<Option<string>>
  {
    match c
    case PutContact(ownerId, contactId, alias) =>
      if env.id(ownerId) == Id(u) && env.id(contactId).Id? then Add(env.id(contactId).key, Some(alias)) else Skip
    case DropContact(ownerId, contactId) =>
      if env.id(ownerId) == Id(u) && env.id(contactId).Id? then Remove(env.id(contactId).key) else Skip
    case _ => Skip
  }

  function FavoriteOp(env: Environment, c: Command, u: string): Op<()>
  {
    match c
    case PutFavorite(userId, chatId) =>
      if env.id(userId) == Id(u) && env.id(chatId).Id? then Add(env.id(chatId).key, ()) else Skip
    case DropFavorite(userId, chatId) =>
      if env.id(userId) == Id(u) && env.id(chatId).Id? then Remove(env.id(chatId).key) else Skip
    case _ => Skip
  }

  /** The request was answered with success, and its plan was this kind of modification. */
  predicate Succeeded(sv: Service, t: Tables, r: Request)
  {
    PlanFor(sv, r).Modify? && Serve(sv, t, r).1.status < 400
  }

  function ContactOps(sv: Service, history: seq<Request>, u: string): (ops: seq<Op<Option<string>>>)
    ensures |ops| == |history|
  {
    if history == [] then [] else
    var n := |history| - 1;
    var r := history[n];
    ContactOps(sv, history[..n], u)
    + [if Succeeded(sv, After(sv, history[..n]), r) then ContactOp(sv.env, PlanFor(sv, r).command, u) else Skip]
  }

  function FavoriteOps(sv: Service, history: seq<Request>, u: string): (ops: seq<Op<()>>)
    ensures |ops| == |history|
  {
    if history == [] then [] else
    var n := |history| - 1;
    var r := history[n];
    FavoriteOps(sv, history[..n], u)
    + [if Succeeded(sv, After(sv, history[..n]), r) then FavoriteOp(sv.env, PlanFor(sv, r).command, u) else Skip]
  }

  // ---------------------------------------------------------------- one request

  lemma ContactsExec(env: Environment, t: Tables, c: Command, u: string)
    requires Exec(env, t, c).Ok?
    ensures Entries(Exec(env, t, c).value.contacts, u) == Apply(Entries(t.contacts, u), ContactOp(env, c, u))
  {
    hide Entries, Has, SetData, Without, Holds, Put, Drop;
    if (c.PutContact? || c.DropContact?) && env.id(c.ownerId).Id? && env.id(c.contactId).Id? {
      var owner, contact := env.id(c.ownerId).key, env.id(c.contactId).key;
      if c.DropContact? {
        EntriesOfWithout(t.contacts, owner, contact, u);
      } else {
        HasIsHolds(t.contacts, owner, contact);
        EntriesOfSetData(t.contacts, owner, contact, Some(c.alias), u);
        EntriesOfAppend(t.contacts, Row(owner, contact, Some(c.alias), t.clock), u);
      }
    }
  }

  /** Adding a favourite again changes nothing. */
  lemma {:induction false} PutUnit(entries: seq<Entry<()>>, item: string)
    ensures Put(entries, item, ()) == entries
  {
    if entries == [] {
    } else {
      var last := entries[|entries| - 1];
      PutUnit(entries[..|entries| - 1], item);
      match last.data
      case () => assert last == Entry(last.item, ());
    }
  }

  lemma FavoritesExec(env: Environment, t: Tables, c: Command, u: string)
    requires Exec(env, t, c).Ok?
    ensures Entries(Exec(env, t, c).value.favorites, u) == Apply(Entries(t.favorites, u), FavoriteOp(env, c, u))
  {
    hide Entries, Has, Without, Holds, Put, Drop;
    if (c.PutFavorite? || c.DropFavorite?) && env.id(c.userId).Id? && env.id(c.chatId).Id? {
      var user, chat := env.id(c.userId).key, env.id(c.chatId).key;
      if c.DropFavorite? {
        EntriesOfWithout(t.favorites, user, chat, u);
      } else {
        HasIsHolds(t.favorites, user, chat);
        PutUnit(Entries(t.favorites, u), chat);
        EntriesOfAppend(t.favorites, Row(user, chat, (), t.clock), u);
      }
    }
  }

  lemma ListsPerform(env: Environment, t: Tables, r: Request, plan: Plan)
    requires ActsFor(plan, UserOf(r))
    ensures
      var (t', response) := Perform(env, t, r, plan);
      if plan.Modify? && response.status < 400 then Exec(env, t, plan.command) == Ok(t')
      else t'.contacts == t.contacts && t'.favorites == t.favorites
  {
  }

  /** A request is its successful statement, or leaves both lists alone. */
  lemma ListsStep(sv: Service, t: Tables, r: Request)
    ensures
      var t' := Serve(sv, t, r).0;
      if Succeeded(sv, t, r) then Exec(sv.env, t, PlanFor(sv, r).command) == Ok(t')
      else t'.contacts == t.contacts && t'.favorites == t.favorites
  {
    ListsPerform(sv.env, t, r, PlanFor(sv, r));
  }

  // ---------------------------------------------------------------- every history

  lemma {:induction false} HistoryIsReplay(sv: Service, history: seq<Request>, u: string)
    ensures Entries(After(sv, history).contacts, u) == Replay(ContactOps(sv, history, u))
    ensures Entries(After(sv, history).favorites, u) == Replay(FavoriteOps(sv, history, u))
  {
    if history == [] {
    } else {
      hide Serve, Entries, ContactOp, FavoriteOp, Exec;
      var n := |history| - 1;
      var t, r := After(sv, history[..n]), history[n];
      HistoryIsReplay(sv, history[..n], u);
      ListsStep(sv, t, r);
      var contacts, favorites := ContactOps(sv, history, u), FavoriteOps(sv, history, u);
      assert contacts[..n] == ContactOps(sv, history[..n], u);
      assert favorites[..n] == FavoriteOps(sv, history[..n], u);
      if Succeeded(sv, t, r) {
        ContactsExec(sv.env, t, PlanFor(sv, r).command, u);
        FavoritesExec(sv.env, t, PlanFor(sv, r).command, u);
      }
    }
  }

  /**
   The contact listing after any history: every contact whose last successful operation was an
   addition, once, with the alias of that addition, newest first by the first addition since
   the last removal.
   */
  lemma ContactsRefineHistory(sv: Service, history: seq<Request>, u: string)
    requires CanonicalIds(sv.env)
    ensures ShowsHistory(Strip(NewestFirst(Owned(After(sv, history).contacts, u))), ContactOps(sv, history, u))
  {
    HistoryKeeps(sv, history);
    var t := After(sv, history);
    ListingIsBackwards(t.contacts, t.clock, u);
    HistoryIsReplay(sv, history, u);
    ReplayShowsHistory(ContactOps(sv, history, u));
  }

  lemma FavoritesRefineHistory(sv: Service, history: seq<Request>, u: string)
    requires CanonicalIds(sv.env)
    ensures ShowsHistory(Strip(NewestFirst(Owned(After(sv, history).favorites, u))), FavoriteOps(sv, history, u))
  {
    HistoryKeeps(sv, history);
    var t := After(sv, history);
    ListingIsBackwards(t.favorites, t.clock, u);
    HistoryIsReplay(sv, history, u);
    ReplayShowsHistory(FavoriteOps(sv, history, u));
  }

  // ---------------------------------------------------------------- what is answered

  /** The contacts of an answer, without their owner. */
  function ContactEntries(items: seq<ContactItem>): (es: seq<Entry<Option<string>>>)
    ensures |es| == |items|
    ensures forall i :: 0 <= i < |items| ==> es[i] == Entry(items[i].contactId, Some(items[i].alias))
  {
    seq(|items|, i requires 0 <= i < |items| => Entry(items[i].contactId, Some(items[i].alias)))
  }

  function FavoriteEntries(items: seq<Favorite>): (es: seq<Entry<()>>)
    ensures |es| == |items|
    ensures forall i :: 0 <= i < |items| ==> es[i] == Entry(items[i].chatId, ())
  {
    seq(|items|, i requires 0 <= i < |items| => Entry(items[i].chatId, ()))
  }

  /** An answer of 200 with contacts of this user only, which are those of the history, in its order. */
  ghost predicate AnswersContacts(response: Response, u: string, ops: seq<Op<Option<string>>>)
  {
    && response.status == 200 && response.payload.ContactsView?
    && (forall i :: 0 <= i < |response.payload.contacts| ==> response.payload.contacts[i].ownerId == u)
    && ShowsHistory(ContactEntries(response.payload.contacts), ops)
  }

  ghost predicate AnswersFavorites(response: Response, u: string, ops: seq<Op<()>>)
  {
    && response.status == 200 && response.payload.FavoritesView?
    && (forall i :: 0 <= i < |response.payload.favorites| ==> response.payload.favorites[i].userId == u)
    && ShowsHistory(FavoriteEntries(response.payload.favorites), ops)
  }

  /** No contact is stored without an alias. */
  lemma {:induction false} AliasesGiven(sv: Service, history: seq<Request>, u: string)
    ensures forall op :: op in ContactOps(sv, history, u) && op.Add? ==> op.data.Some?
  {
    if history == [] {
    } else {
      AliasesGiven(sv, history[..|history| - 1], u);
    }
  }

  lemma SameContacts(rows: seq<Row<Option<string>>>, ops: seq<Op<Option<string>>>)
    requires ShowsHistory(Strip(rows), ops) && forall op :: op in ops && op.Add? ==> op.data.Some?
    ensures ContactEntries(ContactItems(rows)) == Strip(rows)
  {
    hide Since;
    var items := ContactItems(rows);
    forall i | 0 <= i < |rows| ensures ContactEntries(items)[i] == Strip(rows)[i] {
      var e := Strip(rows)[i];
      SinceMeans(ops, e.item);
      var k :| Since(ops, e.item).value.0 <= k && LastAddition(ops, e.item, k, e.data);
      assert ops[k] in ops;
    }
  }

  lemma SameFavorites(rows: seq<Row<()>>)
    ensures FavoriteEntries(FavoriteItems(rows)) == Strip(rows)
  {
    var items := FavoriteItems(rows);
    forall i | 0 <= i < |rows| ensures FavoriteEntries(items)[i] == Strip(rows)[i] {
      match rows[i].data
      case () =>
    }
  }

  lemma ClocksPast(env: Environment, t: Tables)
    requires Valid(env, t)
    ensures Stamped(t.contacts, t.clock) && Stamped(t.favorites, t.clock)
  {
  }

  lemma ContactsPerform(env: Environment, t: Tables, r: Request, plan: Plan, u: string)
    requires plan == FetchContacts(UserOf(r)) && env.id(UserOf(r)) == Id(u) && r.first.None?
    ensures Perform(env, t, r, plan)
         == (t, Response(200, ContactsView(ContactItems(NewestFirst(Owned(t.contacts, u))))))
  {
  }

  lemma FavoritesPerform(env: Environment, t: Tables, r: Request, plan: Plan, u: string)
    requires plan == FetchFavorites(UserOf(r)) && env.id(UserOf(r)) == Id(u) && r.first.None?
    ensures Perform(env, t, r, plan)
         == (t, Response(200, FavoritesView(FavoriteItems(NewestFirst(Owned(t.favorites, u))))))
  {
  }

  /** And that listing is what the user's GET requests are answered with: every field of every item. */
  lemma ListingsAreAnswered(sv: Service, history: seq<Request>, r: Request, u: string)
    requires CanonicalIds(sv.env) && sv.env.id(UserOf(r)) == Id(u) && r.first.None?
    ensures PlanFor(sv, r).FetchContacts? ==>
      AnswersContacts(Serve(sv, After(sv, history), r).1, u, ContactOps(sv, history, u))
    ensures PlanFor(sv, r).FetchFavorites? ==>
      AnswersFavorites(Serve(sv, After(sv, history), r).1, u, FavoriteOps(sv, history, u))
  {
    hide PlanFor, After, ShowsHistory, Owned, NewestFirst, Valid;
    var t := After(sv, history);
    HistoryKeeps(sv, history);
    ClocksPast(sv.env, t);
    if PlanFor(sv, r).FetchContacts? {
      ContactsRefineHistory(sv, history, u);
      ListingIsBackwards(t.contacts, t.clock, u);
      AliasesGiven(sv, history, u);
      SameContacts(NewestFirst(Owned(t.contacts, u)), ContactOps(sv, history, u));
      ContactsPerform(sv.env, t, r, PlanFor(sv, r), u);
    } else if PlanFor(sv, r).FetchFavorites? {
      FavoritesRefineHistory(sv, history, u);
      ListingIsBackwards(t.favorites, t.clock, u);
      SameFavorites(NewestFirst(Owned(t.favorites, u)));
      FavoritesPerform(sv.env, t, r, PlanFor(sv, r), u);
    }
  }
}
