/**
 * The `items` table and the request handlers of app.py that read or change it:
 * the listing (`items_list`), the lookup behind the edit form (`edit`), and the
 * mutations `register_post`, `edit_post`, `update_quantity` and `delete_item`.
 */
module Table {
  import opened Wrappers
  import opened Items
  import opened Expiry
  import opened Ordering
  import opened Listing

  /** What a handler reports back: success, or the validation error it flashed. */
  datatype Outcome = Done | InvalidName | InvalidLevel

  /** A non-empty set of ids has a member for the loop to take next. */
  lemma SomeIdLeft(ids: set<int>)
    requires ids != {}
    ensures exists id :: id in ids
  {
    if forall id :: id !in ids {
      assert false;
    }
  }

  /** One step of the loop in `FetchFridgeRows`: appending the next id's row when it belongs to fridge 1. */
  lemma FetchStep(table: map<int, Item>, ids: set<int>, id: int, fetched: seq<Row>)
    requires id in table && id !in ids
    requires multiset(fetched) == multiset(FridgeRowsWithin(table, ids))
    ensures multiset(if table[id].fridgeId == FridgeId then fetched + [Row(id, table[id])] else fetched)
         == multiset(FridgeRowsWithin(table, ids + {id}))
  {
  }

  /** Before the fetch loop has taken any id, no row has been selected. */
  lemma FridgeRowsWithinNone(table: map<int, Item>)
    ensures FridgeRowsWithin(table, {}) == {}
  {
  }

  class ItemsTable {
    /** The rows of `items`, keyed by id. */
    var rows: map<int, Item>
    /** The id the next insert receives (the table's auto-increment counter). */
    var nextId: int

    /** Ids are positive and below the counter, so a fresh id is never in use. */
    ghost predicate Valid()
      reads this
    {
      1 <= nextId && forall id :: id in rows ==> 1 <= id < nextId
    }

    constructor ()
      ensures Valid() && rows == map[] && nextId == 1
    {
      rows := map[];
      nextId := 1;
    }

    /** `SELECT ... FROM items WHERE fridge_id = 1`, in no particular order. */
    method FetchFridgeRows() returns (fetched: seq<Row>)
      ensures multiset(fetched) == multiset(FridgeRows(rows))
    {
      fetched := [];
      var pending, done := rows.Keys, {};
      FridgeRowsWithinNone(rows);
      while pending != {}
        invariant pending !! done && pending + done == rows.Keys
        invariant multiset(fetched) == multiset(FridgeRowsWithin(rows, done))
        decreases pending
      {
        SomeIdLeft(pending);
        var key :| key in pending;
        FetchStep(rows, done, key, fetched);
        if rows[key].fridgeId == FridgeId {
          fetched := fetched + [Row(key, rows[key])];
        }
        pending, done := pending - {key}, done + {key};
      }
    }

    /**
     * The item listing for the `sort` parameter on day `today`: exactly the rows of
     * fridge 1, in the order of the chosen `ORDER BY`, each with its display fields.
     */
    method ItemsList(sort: string, today: int) returns (listing: seq<Listed>)
      ensures Sorted(ParseSortMode(sort), today, RowsOf(listing))
      ensures multiset(RowsOf(listing)) == multiset(FridgeRows(rows))
      ensures forall i :: 0 <= i < |listing| ==> listing[i].display == Some(AnnotationFor(listing[i].row.item, today))
    {
      var mode := ParseSortMode(sort);
      var fetched := FetchFridgeRows();
      var sorted := SortRows(mode, today, fetched);
      var buffer := new Listed[|sorted|](i requires 0 <= i < |sorted| => Listed(sorted[i], None));
      AnnotateRows(buffer, today);
      listing := buffer[..];
      assert RowsOf(listing) == sorted;
    }

    /** `SELECT * FROM items WHERE id = ...`: the row, or nothing for an unknown id. */
    method Find(id: int) returns (found: Option<Item>)
      ensures found.Some? <==> id in rows
      ensures found.Some? ==> found.value == rows[id]
    {
      found := if id in rows then Some(rows[id]) else None;
    }

    /**
     * `register_post`: an empty or over-long name is refused and nothing changes;
     * otherwise one row is inserted for fridge 1 under a fresh id, with container
     * type and quantity level defaulting to 1 and the purchase date to today.
     * Neither the container type nor the quantity level is range-checked.
     */
    method Register(name: string, containerType: Option<int>, quantityLevel: Option<int>,
                    purchaseDate: Option<int>, openedDate: Option<int>, expiryDate: Option<int>,
                    today: int) returns (outcome: Outcome)
      requires Valid()
      modifies this
      ensures Valid()
      ensures outcome == (if ValidName(name) then Done else InvalidName)
      ensures !ValidName(name) ==> rows == old(rows) && nextId == old(nextId)
      ensures ValidName(name) ==>
        && old(nextId) !in old(rows)
        && nextId == old(nextId) + 1
        && rows == old(rows)[old(nextId) := Item(FridgeId, name, containerType.GetOr(1), quantityLevel.GetOr(1),
                                                  Some(purchaseDate.GetOr(today)), openedDate, expiryDate)]
        && |rows| == |old(rows)| + 1
    {
      if !ValidName(name) {
        return InvalidName;
      }
      var id := nextId;
      assert id !in rows;
      rows := rows[id := Item(FridgeId, name, containerType.GetOr(1), quantityLevel.GetOr(1),
                              Some(purchaseDate.GetOr(today)), openedDate, expiryDate)];
      nextId := nextId + 1;
      outcome := Done;
    }

    /**
     * `edit_post`: an empty or over-long name is refused and nothing changes;
     * otherwise the six editable columns of row `id` are overwritten, and an
     * unknown id changes nothing. Neither the container type nor the quantity
     * level is range-checked.
     */
    method Edit(id: int, name: string, containerType: int, quantityLevel: int,
                purchaseDate: Option<int>, openedDate: Option<int>, expiryDate: Option<int>)
      returns (outcome: Outcome)
      requires Valid()
      modifies this
      ensures Valid() && nextId == old(nextId)
      ensures outcome == (if ValidName(name) then Done else InvalidName)
      ensures rows ==
        if ValidName(name) && id in old(rows) then
          old(rows)[id := old(rows)[id].(name := name, containerType := containerType, quantityLevel := quantityLevel,
                                         purchaseDate := purchaseDate, openedDate := openedDate, expiryDate := expiryDate)]
        else old(rows)
      ensures rows.Keys == old(rows).Keys
    {
      if !ValidName(name) {
        return InvalidName;
      }
      if id in rows {
        rows := rows[id := rows[id].(name := name, containerType := containerType, quantityLevel := quantityLevel,
                                     purchaseDate := purchaseDate, openedDate := openedDate, expiryDate := expiryDate)];
      }
      outcome := Done;
    }

    /**
     * `update_quantity`: a level outside 1..4 is refused and nothing changes;
     * otherwise only the quantity level of row `id` changes, and an unknown id
     * changes nothing.
     */
    method UpdateQuantity(id: int, newLevel: int) returns (outcome: Outcome)
      requires Valid()
      modifies this
      ensures Valid() && nextId == old(nextId)
      ensures outcome == (if ValidLevel(newLevel) then Done else InvalidLevel)
      ensures rows ==
        if ValidLevel(newLevel) && id in old(rows) then old(rows)[id := old(rows)[id].(quantityLevel := newLevel)]
        else old(rows)
      ensures rows.Keys == old(rows).Keys
      ensures id in rows ==> rows[id].quantityLevel == if ValidLevel(newLevel) then newLevel else old(rows)[id].quantityLevel
    {
      if !ValidLevel(newLevel) {
        return InvalidLevel;
      }
      if id in rows {
        rows := rows[id := rows[id].(quantityLevel := newLevel)];
      }
      outcome := Done;
    }

    /** `delete_item`: removes row `id` and nothing else; an unknown id changes nothing. */
    method Delete(id: int)
      requires Valid()
      modifies this
      ensures Valid() && nextId == old(nextId)
      ensures rows == old(rows) - {id}
      ensures id !in rows
      ensures |rows| == if id in old(rows) then |old(rows)| - 1 else |old(rows)|
    {
      rows := rows - {id};
    }
  }
}
