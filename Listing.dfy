/**
 * The item listing: the rows of fridge 1, as the listing query selects them, and
 * the display fields the loop in `items_list` adds to each fetched row.
 */
module Listing {
  import opened Wrappers
  import opened Items
  import opened Expiry
  import opened Containers

  /** The rows among `ids` that `WHERE fridge_id = 1` selects from a table keyed by id. */
  function FridgeRowsWithin(table: map<int, Item>, ids: set<int>): set<Row> {
    set id | id in ids && id in table && table[id].fridgeId == FridgeId :: Row(id, table[id])
  }

  /** The rows `WHERE fridge_id = 1` selects from a table keyed by id. */
  function FridgeRows(table: map<int, Item>): (rows: set<Row>)
    ensures forall r :: r in rows <==> r.id in table && table[r.id] == r.item && r.item.fridgeId == FridgeId
  {
    FridgeRowsWithin(table, table.Keys)
  }

  /**
   * The display fields the listing loop attaches to a row: `container_type_text`,
   * `expiry_status`, `expiry_class` and `expiry_icon`.
   */
  datatype Annotation = Annotation(containerTypeText: string, expiryStatus: string, expiryClass: string, expiryIcon: string)

  /** A fetched row and, once the loop has visited it, its display fields. */
  datatype Listed = Listed(row: Row, display: Option<Annotation>)

  /**
   * The display fields for one stored item on day `today`: the container label, and
   * the status string, class and icon that the expiry date calls for.
   */
  function AnnotationFor(item: Item, today: int): (a: Annotation)
    ensures a.containerTypeText == ContainerLabel(item.containerType)
    ensures a.expiryStatus == "none" <==> item.expiryDate.None?
    ensures a.expiryStatus == "expired" <==> item.expiryDate.Some? && item.expiryDate.value < today
    ensures a.expiryStatus == "warning" <==>
      item.expiryDate.Some? && today <= item.expiryDate.value <= today + WarningDays
    ensures a.expiryStatus == "normal" <==> item.expiryDate.Some? && today + WarningDays < item.expiryDate.value
    ensures a.expiryStatus == "expired" ==> a.expiryClass == "text-danger" && a.expiryIcon == "❌"
    ensures a.expiryStatus == "warning" ==> a.expiryClass == "text-warning" && a.expiryIcon == "⚠️"
    ensures a.expiryStatus in {"normal", "none"} ==> a.expiryClass == "" && a.expiryIcon == ""
  {
    var expiry := Classify(item.expiryDate, today);
    Annotation(ContainerLabel(item.containerType), StatusName(expiry.status), expiry.cssClass, expiry.icon)
  }

  /** The stored rows of a listing, without their display fields. */
  function RowsOf(listing: seq<Listed>): seq<Row> {
    seq(|listing|, i requires 0 <= i < |listing| => listing[i].row)
  }

  /**
   * The listing loop: visits every fetched row in place and adds its container
   * label and expiry classification, leaving the stored columns as they were.
   */
  method AnnotateRows(rows: array<Listed>, today: int)
    modifies rows
    ensures forall i :: 0 <= i < rows.Length ==> rows[i].row == old(rows[i].row)
    ensures forall i :: 0 <= i < rows.Length ==> rows[i].display == Some(AnnotationFor(rows[i].row.item, today))
  {
    var i := 0;
    while i < rows.Length
      invariant 0 <= i <= rows.Length
      invariant forall k :: 0 <= k < rows.Length ==> rows[k].row == old(rows[k].row)
      invariant forall k :: 0 <= k < i ==> rows[k].display == Some(AnnotationFor(rows[k].row.item, today))
    {
      rows[i] := rows[i].(display := Some(AnnotationFor(rows[i].row.item, today)));
      i := i + 1;
    }
  }

  /** A row occurring at two positions of a sequence occurs there at least twice. */
  lemma {:induction false} RepeatedRowCountsTwice(s: seq<Row>, i: int, j: int)
    requires 0 <= i < j < |s| && s[i] == s[j]
    ensures multiset(s)[s[i]] >= 2
  {
    assert s == s[..j] + s[j..];
    assert s[i] in s[..j];
    assert s[j] == s[j..][0];
    assert s[i] in multiset(s[..j]) && s[j] in multiset(s[j..]);
  }

  /**
   * A sequence that is a permutation of the fridge-1 rows holds exactly those rows,
   * each once: a row is listed iff it is stored with fridge_id 1, and no id repeats.
   */
  lemma {:induction false} PermutationListsEachRowOnce(table: map<int, Item>, s: seq<Row>)
    requires multiset(s) == multiset(FridgeRows(table))
    ensures forall r :: r in s <==> r.id in table && table[r.id] == r.item && r.item.fridgeId == FridgeId
    ensures forall i, j :: 0 <= i < j < |s| ==> s[i].id != s[j].id
  {
    forall r ensures r in s <==> r.id in table && table[r.id] == r.item && r.item.fridgeId == FridgeId {
      assert r in s <==> r in multiset(s);
      assert r in FridgeRows(table) <==> r in multiset(FridgeRows(table));
      if r.id in table && table[r.id] == r.item && r.item.fridgeId == FridgeId {
        assert r == Row(r.id, table[r.id]);
      }
    }
    forall i, j | 0 <= i < j < |s| ensures s[i].id != s[j].id {
      if s[i].id == s[j].id {
        assert s[i] in s && s[j] in s;
        assert s[i] == s[j];
        RepeatedRowCountsTwice(s, i, j);
      }
    }
  }
}
