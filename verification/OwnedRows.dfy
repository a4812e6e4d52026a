/**
 Tables keyed by owner and item, in insertion order: the contacts and the favourites.
 Every new row gets the next tick of a logical clock as its creation time.
 */
module OwnedRows {
  import opened Outcomes

  datatype Row<T> = Row(owner: string, item: string, data: T, created: nat)

  /** A row as its owner sees it. */
  datatype Entry<T> = Entry(item: string, data: T)

  // ---------------------------------------------------------------- statements

  predicate Has<T>(rows: seq<Row<T>>, owner: string, item: string)
  {
    if rows == [] then false else
    var last := rows[|rows| - 1];
    (last.owner == owner && last.item == item) || Has(rows[..|rows| - 1], owner, item)
  }

  /** UPDATE: the row of this key gets new data; it keeps its place and creation time. */
  function SetData<T>(rows: seq<Row<T>>, owner: string, item: string, data: T): seq<Row<T>>
  {
    if rows == [] then [] else
    var last := rows[|rows| - 1];
    SetData(rows[..|rows| - 1], owner, item, data)
    + [if last.owner == owner && last.item == item then last.(data := data) else last]
  }

  /** DELETE. */
  function Without<T>(rows: seq<Row<T>>, owner: string, item: string): seq<Row<T>>
  {
    if rows == [] then [] else
    var last := rows[|rows| - 1];
    var others := Without(rows[..|rows| - 1], owner, item);
    if last.owner == owner && last.item == item then others else others + [last]
  }

  /** SELECT ... WHERE owner = .... */
  function Owned<T>(rows: seq<Row<T>>, owner: string): seq<Row<T>>
  {
    if rows == [] then [] else
    var last := rows[|rows| - 1];
    var before := Owned(rows[..|rows| - 1], owner);
    if last.owner == owner then before + [last] else before
  }

  function InsertNewestFirst<T>(row: Row<T>, sorted: seq<Row<T>>): seq<Row<T>>
  {
    if sorted == [] || sorted[0].created <= row.created then [row] + sorted
    else [sorted[0]] + InsertNewestFirst(row, sorted[1..])
  }

  /** ... ORDER BY created_at DESC: an insertion sort. */
  function NewestFirst<T>(rows: seq<Row<T>>): seq<Row<T>>
  {
    if rows == [] then [] else InsertNewestFirst(rows[|rows| - 1], NewestFirst(rows[..|rows| - 1]))
  }

  // ---------------------------------------------------------------- table constraints

  /** PRIMARY KEY (owner, item). */
  ghost predicate UniqueKeys<T>(rows: seq<Row<T>>)
  {
    if rows == [] then true else
    var last := rows[|rows| - 1];
    UniqueKeys(rows[..|rows| - 1]) && !Has(rows[..|rows| - 1], last.owner, last.item)
  }

  /** Creation times increase in insertion order and are in the past. */
  ghost predicate Stamped<T>(rows: seq<Row<T>>, clock: nat)
  {
    if rows == [] then true else
    var last := rows[|rows| - 1];
    Stamped(rows[..|rows| - 1], last.created) && last.created < clock
  }

  /** FOREIGN KEY (owner) REFERENCES profiles; FOREIGN KEY (item) likewise, where there is one. */
  ghost predicate References<T>(rows: seq<Row<T>>, owners: set<string>, items: Option<set<string>>)
  {
    if rows == [] then true else
    var last := rows[|rows| - 1];
    References(rows[..|rows| - 1], owners, items) && last.owner in owners
    && (items.Some? ==> last.item in items.value)
  }

  lemma {:induction false} HasEvery<T>(rows: seq<Row<T>>)
    ensures forall i :: 0 <= i < |rows| ==> Has(rows, rows[i].owner, rows[i].item)
  {
    if rows == [] {
    } else {
      var n := |rows| - 1;
      HasEvery(rows[..n]);
      assert forall i :: 0 <= i < n ==> rows[i] == rows[..n][i];
    }
  }

  /** What the recursive constraints say of any rows of the table. */
  lemma {:induction false} ConstraintsMean<T>(rows: seq<Row<T>>, clock: nat,
                                              owners: set<string>, items: Option<set<string>>)
    requires UniqueKeys(rows) && Stamped(rows, clock) && References(rows, owners, items)
    ensures forall i, j :: 0 <= i < j < |rows| ==>
      !(rows[i].owner == rows[j].owner && rows[i].item == rows[j].item)
    ensures forall i, j :: 0 <= i < j < |rows| ==> rows[i].created < rows[j].created
    ensures forall i :: 0 <= i < |rows| ==>
      rows[i].created < clock && rows[i].owner in owners && (items.Some? ==> rows[i].item in items.value)
  {
    if rows == [] {
    } else {
      var n := |rows| - 1;
      ConstraintsMean(rows[..n], rows[n].created, owners, items);
      assert forall i :: 0 <= i < n ==> rows[i] == rows[..n][i];
      HasEvery(rows[..n]);
    }
  }

  /** A new row with a fresh key and the current time keeps the constraints. */
  lemma AppendKeeps<T>(rows: seq<Row<T>>, row: Row<T>, owners: set<string>, items: Option<set<string>>)
    requires UniqueKeys(rows) && Stamped(rows, row.created) && References(rows, owners, items)
    requires !Has(rows, row.owner, row.item) && row.owner in owners
    requires items.Some? ==> row.item in items.value
    ensures
      var rows' := rows + [row];
      UniqueKeys(rows') && Stamped(rows', row.created + 1) && References(rows', owners, items)
  {
    assert (rows + [row])[..|rows|] == rows;
  }

  lemma {:induction false} HasSetData<T>(rows: seq<Row<T>>, owner: string, item: string, data: T,
                                         who: string, what: string)
    ensures Has(SetData(rows, owner, item, data), who, what) == Has(rows, who, what)
  {
    if rows == [] {
    } else {
      var n := |rows| - 1;
      HasSetData(rows[..n], owner, item, data, who, what);
      var rows' := SetData(rows, owner, item, data);
      assert rows'[..|rows'| - 1] == SetData(rows[..n], owner, item, data);
    }
  }

  lemma {:induction false} SetDataKeeps<T>(rows: seq<Row<T>>, owner: string, item: string, data: T,
                                           clock: nat, owners: set<string>, items: Option<set<string>>)
    requires UniqueKeys(rows) && Stamped(rows, clock) && References(rows, owners, items)
    ensures
      var rows' := SetData(rows, owner, item, data);
      UniqueKeys(rows') && Stamped(rows', clock) && References(rows', owners, items)
  {
    if rows == [] {
    } else {
      var n := |rows| - 1;
      SetDataKeeps(rows[..n], owner, item, data, rows[n].created, owners, items);
      var rows' := SetData(rows, owner, item, data);
      assert rows'[..|rows'| - 1] == SetData(rows[..n], owner, item, data);
      hide Has, SetData;
      HasSetData(rows[..n], owner, item, data, rows[n].owner, rows[n].item);
    }
  }

  lemma {:induction false} HasWithout<T>(rows: seq<Row<T>>, owner: string, item: string, who: string, what: string)
    ensures Has(Without(rows, owner, item), who, what)
       <==> Has(rows, who, what) && !(who == owner && what == item)
  {
    if rows == [] {
    } else {
      var n := |rows| - 1;
      HasWithout(rows[..n], owner, item, who, what);
      var w := Without(rows[..n], owner, item);
      assert (w + [rows[n]])[..|w|] == w;
    }
  }

  lemma {:induction false} WithoutKeeps<T>(rows: seq<Row<T>>, owner: string, item: string,
                                           clock: nat, owners: set<string>, items: Option<set<string>>)
    requires UniqueKeys(rows) && Stamped(rows, clock) && References(rows, owners, items)
    ensures
      var rows' := Without(rows, owner, item);
      UniqueKeys(rows') && Stamped(rows', clock) && References(rows', owners, items)
  {
    if rows == [] {
    } else {
      var n := |rows| - 1;
      WithoutKeeps(rows[..n], owner, item, rows[n].created, owners, items);
      var w := Without(rows[..n], owner, item);
      assert (w + [rows[n]])[..|w|] == w;
      HasWithout(rows[..n], owner, item, rows[n].owner, rows[n].item);
    }
  }

  lemma {:induction false} ReferencesGrow<T>(rows: seq<Row<T>>, owners: set<string>, items: Option<set<string>>,
                                             owners': set<string>, items': Option<set<string>>)
    requires References(rows, owners, items) && owners <= owners'
    requires items'.Some? ==> items.Some? && items.value <= items'.value
    ensures References(rows, owners', items')
  {
    if rows == [] {
    } else {
      ReferencesGrow(rows[..|rows| - 1], owners, items, owners', items');
    }
  }

  lemma {:induction false} HasReferences<T>(rows: seq<Row<T>>, owners: set<string>, items: Option<set<string>>,
                                            owner: string, item: string)
    requires References(rows, owners, items) && Has(rows, owner, item)
    ensures owner in owners && (items.Some? ==> item in items.value)
  {
    var last := rows[|rows| - 1];
    if last.owner == owner && last.item == item {
    } else {
      HasReferences(rows[..|rows| - 1], owners, items, owner, item);
    }
  }

  // ---------------------------------------------------------------- an owner's entries

  /** The entries of one owner, oldest first. */
  function Entries<T>(rows: seq<Row<T>>, owner: string): seq<Entry<T>>
  {
    if rows == [] then [] else
    var last := rows[|rows| - 1];
    var before := Entries(rows[..|rows| - 1], owner);
    if last.owner == owner then before + [Entry(last.item, last.data)] else before
  }

  predicate Holds<T>(entries: seq<Entry<T>>, item: string)
  {
    if entries == [] then false else
    entries[|entries| - 1].item == item || Holds(entries[..|entries| - 1], item)
  }

  function Put<T>(entries: seq<Entry<T>>, item: string, data: T): seq<Entry<T>>
  {
    if entries == [] then [] else
    var last := entries[|entries| - 1];
    Put(entries[..|entries| - 1], item, data) + [if last.item == item then Entry(item, data) else last]
  }

  function Drop<T>(entries: seq<Entry<T>>, item: string): seq<Entry<T>>
  {
    if entries == [] then [] else
    var last := entries[|entries| - 1];
    var others := Drop(entries[..|entries| - 1], item);
    if last.item == item then others else others + [last]
  }

  function Backwards<T>(s: seq<T>): (r: seq<T>)
    ensures |r| == |s|
    ensures forall i :: 0 <= i < |s| ==> r[i] == s[|s| - 1 - i]
  {
    if s == [] then [] else [s[|s| - 1]] + Backwards(s[..|s| - 1])
  }

  function Strip<T>(rows: seq<Row<T>>): (es: seq<Entry<T>>)
    ensures |es| == |rows|
    ensures forall i :: 0 <= i < |rows| ==> es[i] == Entry(rows[i].item, rows[i].data)
  {
    seq(|rows|, i requires 0 <= i < |rows| => Entry(rows[i].item, rows[i].data))
  }

  lemma {:induction false} HasIsHolds<T>(rows: seq<Row<T>>, owner: string, item: string)
    ensures Has(rows, owner, item) <==> Holds(Entries(rows, owner), item)
  {
    if rows == [] {
    } else {
      var n := |rows| - 1;
      HasIsHolds(rows[..n], owner, item);
      var es := Entries(rows[..n], owner);
      assert (es + [Entry(rows[n].item, rows[n].data)])[..|es|] == es;
    }
  }

  lemma EntriesOfAppend<T>(rows: seq<Row<T>>, row: Row<T>, owner: string)
    ensures Entries(rows + [row], owner)
         == if row.owner == owner then Entries(rows, owner) + [Entry(row.item, row.data)]
            else Entries(rows, owner)
  {
    assert (rows + [row])[..|rows|] == rows;
  }

  lemma PutAppend<T>(entries: seq<Entry<T>>, e: Entry<T>, item: string, data: T)
    ensures Put(entries + [e], item, data)
         == Put(entries, item, data) + [if e.item == item then Entry(item, data) else e]
  {
    assert (entries + [e])[..|entries|] == entries;
  }

  lemma {:induction false} EntriesOfSetData<T>(rows: seq<Row<T>>, owner: string, item: string, data: T, who: string)
    ensures Entries(SetData(rows, owner, item, data), who)
         == if who == owner then Put(Entries(rows, who), item, data) else Entries(rows, who)
  {
    if rows == [] {
    } else {
      var n := |rows| - 1;
      var last := rows[n];
      EntriesOfSetData(rows[..n], owner, item, data, who);
      var last' := if last.owner == owner && last.item == item then last.(data := data) else last;
      EntriesOfAppend(SetData(rows[..n], owner, item, data), last', who);
      PutAppend(Entries(rows[..n], who), Entry(last.item, last.data), item, data);
    }
  }

  lemma DropAppend<T>(entries: seq<Entry<T>>, e: Entry<T>, item: string)
    ensures Drop(entries + [e], item) == if e.item == item then Drop(entries, item) else Drop(entries, item) + [e]
  {
    assert (entries + [e])[..|entries|] == entries;
  }

  lemma {:induction false} EntriesOfWithout<T>(rows: seq<Row<T>>, owner: string, item: string, who: string)
    ensures Entries(Without(rows, owner, item), who)
         == if who == owner then Drop(Entries(rows, who), item) else Entries(rows, who)
  {
    if rows == [] {
    } else {
      var n := |rows| - 1;
      var last := rows[n];
      EntriesOfWithout(rows[..n], owner, item, who);
      EntriesOfAppend(Without(rows[..n], owner, item), last, who);
      DropAppend(Entries(rows[..n], who), Entry(last.item, last.data), item);
    }
  }

  ghost predicate OwnedBefore<T>(rows: seq<Row<T>>, owner: string, clock: nat)
  {
    forall i :: 0 <= i < |rows| ==> rows[i].created < clock && rows[i].owner == owner
  }

  lemma NewestFirstAppend<T>(rows: seq<Row<T>>, row: Row<T>)
    requires OwnedBefore(NewestFirst(rows), row.owner, row.created)
    ensures NewestFirst(rows + [row]) == [row] + NewestFirst(rows)
  {
    assert (rows + [row])[..|rows|] == rows;
  }

  lemma BackwardsAppend<T>(s: seq<T>, x: T)
    ensures Backwards(s + [x]) == [x] + Backwards(s)
  {
    assert (s + [x])[..|s|] == s;
  }

  /**
   The listing query. In a table with increasing creation times it returns the owner's
   entries in reverse order of insertion.
   */
  lemma {:induction false} ListingIsBackwards<T>(rows: seq<Row<T>>, clock: nat, owner: string)
    requires Stamped(rows, clock)
    ensures Strip(NewestFirst(Owned(rows, owner))) == Backwards(Entries(rows, owner))
    ensures OwnedBefore(NewestFirst(Owned(rows, owner)), owner, clock)
  {
    if rows == [] {
    } else {
      var n := |rows| - 1;
      var last := rows[n];
      ListingIsBackwards(rows[..n], last.created, owner);
      if last.owner == owner {
        NewestFirstAppend(Owned(rows[..n], owner), last);
        BackwardsAppend(Entries(rows[..n], owner), Entry(last.item, last.data));
      }
    }
  }
}
