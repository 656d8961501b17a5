/**
 * The two orders of the item listing, written in app.py as SQL `ORDER BY` clauses,
 * restated as one comparator over three keys per mode:
 *   expiry mode:   (expiry bucket ASC, expiry_date ASC, purchase_date DESC)
 *   quantity mode: (quantity_level DESC, expiry_date ASC, purchase_date DESC)
 * NULL dates follow PostgreSQL: NULL compares greater than every date, so it
 * comes last under ASC and first under DESC.
 */
module Ordering {
  import opened Wrappers
  import opened Items
  import opened Expiry

  datatype SortMode = ByExpiry | ByQuantity

  /** The `sort` query parameter: "quantity" selects quantity order, anything else expiry order. */
  function ParseSortMode(sort: string): (m: SortMode)
    ensures m == ByQuantity <==> sort == "quantity"
    ensures m == ByExpiry <==> sort != "quantity"
  {
    if sort == "quantity" then ByQuantity else ByExpiry
  }

  /** Three-way comparison of two integers: -1, 0 or 1. */
  function Sign(x: int, y: int): int {
    if x < y then -1 else if x == y then 0 else 1
  }

  /** Three-way comparison of two nullable dates with NULL greater than every date. */
  function CompareDates(x: Option<int>, y: Option<int>): (c: int)
    ensures c in {-1, 0, 1}
    ensures c == 0 <==> x == y
    ensures c <= 0 <==> DateAscending(x, y)
  {
    match (x, y)
    case (None, None) => 0
    case (None, Some(_)) => 1
    case (Some(_), None) => -1
    case (Some(a), Some(b)) => Sign(a, b)
  }

  /** The leading key of a mode, compared: bucket ascending, or quantity level descending. */
  function ComparePrimary(mode: SortMode, today: int, a: Row, b: Row): (c: int)
    ensures c in {-1, 0, 1}
    ensures mode == ByExpiry ==>
      && (c < 0 <==> SortBucket(a.item.expiryDate, today) < SortBucket(b.item.expiryDate, today))
      && (c == 0 <==> SortBucket(a.item.expiryDate, today) == SortBucket(b.item.expiryDate, today))
    ensures mode == ByQuantity ==>
      && (c < 0 <==> a.item.quantityLevel > b.item.quantityLevel)
      && (c == 0 <==> a.item.quantityLevel == b.item.quantityLevel)
  {
    match mode
    case ByExpiry => Sign(SortBucket(a.item.expiryDate, today), SortBucket(b.item.expiryDate, today))
    case ByQuantity => Sign(b.item.quantityLevel, a.item.quantityLevel)
  }

  /** The listing comparator: negative when `a` sorts before `b`, zero on a tie of all three keys. */
  function Compare(mode: SortMode, today: int, a: Row, b: Row): (c: int)
    ensures c in {-1, 0, 1}
    ensures c == 0 <==>
      && ComparePrimary(mode, today, a, b) == 0
      && a.item.expiryDate == b.item.expiryDate
      && a.item.purchaseDate == b.item.purchaseDate
    ensures c <= 0 <==>
      || ComparePrimary(mode, today, a, b) < 0
      || (&& ComparePrimary(mode, today, a, b) == 0
          && DateAscending(a.item.expiryDate, b.item.expiryDate)
          && (a.item.expiryDate == b.item.expiryDate ==> DateAscending(b.item.purchaseDate, a.item.purchaseDate)))
  {
    var primary := ComparePrimary(mode, today, a, b);
    if primary != 0 then primary
    else
      var expiry := CompareDates(a.item.expiryDate, b.item.expiryDate);
      if expiry != 0 then expiry
      else CompareDates(b.item.purchaseDate, a.item.purchaseDate)
  }

  /** `a` may be listed before `b`. */
  predicate Precedes(mode: SortMode, today: int, a: Row, b: Row) {
    Compare(mode, today, a, b) <= 0
  }

  /** Every earlier row may precede every later one. */
  predicate Sorted(mode: SortMode, today: int, s: seq<Row>) {
    forall i, j :: 0 <= i < j < |s| ==> Precedes(mode, today, s[i], s[j])
  }

  /** An independent statement of ASC order on nullable dates, NULL last. */
  predicate DateAscending(x: Option<int>, y: Option<int>) {
    y.None? || (x.Some? && x.value <= y.value)
  }

  /** Swapping the dates swaps the sign of their comparison. */
  lemma CompareDatesAntisymmetric(x: Option<int>, y: Option<int>)
    ensures CompareDates(x, y) == -CompareDates(y, x)
  {
  }

  /** Any two rows can be ordered one way or the other. */
  lemma PrecedesTotal(mode: SortMode, today: int, a: Row, b: Row)
    ensures Precedes(mode, today, a, b) || Precedes(mode, today, b, a)
  {
  }

  /** The comparator is transitive, so it is a total preorder. */
  lemma PrecedesTransitive(mode: SortMode, today: int, a: Row, b: Row, c: Row)
    requires Precedes(mode, today, a, b) && Precedes(mode, today, b, c)
    ensures Precedes(mode, today, a, c)
  {
  }

  /** `s` with `x` placed before the first row that `x` may precede. */
  function Insert(mode: SortMode, today: int, x: Row, s: seq<Row>): (r: seq<Row>)
    ensures multiset(r) == multiset(s) + multiset{x}
    decreases |s|
  {
    if s == [] then [x]
    else if Precedes(mode, today, x, s[0]) then [x] + s
    else
      assert s == [s[0]] + s[1..];
      [s[0]] + Insert(mode, today, x, s[1..])
  }

  lemma {:induction false} InsertKeepsSorted(mode: SortMode, today: int, x: Row, s: seq<Row>)
    requires Sorted(mode, today, s)
    ensures Sorted(mode, today, Insert(mode, today, x, s))
    decreases |s|
  {
    if s == [] {
    } else if Precedes(mode, today, x, s[0]) {
      var r := [x] + s;
      forall i, j | 0 <= i < j < |r| ensures Precedes(mode, today, r[i], r[j]) {
        if i == 0 && j > 1 {
          PrecedesTransitive(mode, today, x, s[0], s[j - 1]);
        }
      }
    } else {
      PrecedesTotal(mode, today, x, s[0]);
      var tail := Insert(mode, today, x, s[1..]);
      InsertKeepsSorted(mode, today, x, s[1..]);
      var r := [s[0]] + tail;
      forall i, j | 0 <= i < j < |r| ensures Precedes(mode, today, r[i], r[j]) {
        if i == 0 {
          var y := tail[j - 1];
          assert y in multiset(tail);
          if y != x {
            assert y in multiset(s[1..]);
            var k :| 0 <= k < |s[1..]| && s[1..][k] == y;
            assert s[k + 1] == y;
          }
        }
      }
    }
  }

  /** The effect of `ORDER BY`: the rows rearranged into listing order. */
  method SortRows(mode: SortMode, today: int, rows: seq<Row>) returns (sorted: seq<Row>)
    ensures Sorted(mode, today, sorted)
    ensures multiset(sorted) == multiset(rows)
  {
    sorted := [];
    var i := 0;
    while i < |rows|
      invariant 0 <= i <= |rows|
      invariant Sorted(mode, today, sorted)
      invariant multiset(sorted) == multiset(rows[..i])
    {
      InsertKeepsSorted(mode, today, rows[i], sorted);
      assert rows[..i + 1] == rows[..i] + [rows[i]];
      sorted := Insert(mode, today, rows[i], sorted);
      i := i + 1;
    }
    assert rows[..i] == rows;
  }

  /**
   * What the expiry-ordered listing promises about any two rows: buckets never
   * decrease; within a bucket expiry dates ascend with NULL last; on equal expiry
   * dates purchase dates descend with NULL first.
   */
  lemma ExpiryOrderKeys(today: int, s: seq<Row>, i: int, j: int)
    requires Sorted(ByExpiry, today, s)
    requires 0 <= i < j < |s|
    ensures SortBucket(s[i].item.expiryDate, today) <= SortBucket(s[j].item.expiryDate, today)
    ensures SortBucket(s[i].item.expiryDate, today) == SortBucket(s[j].item.expiryDate, today) ==>
              DateAscending(s[i].item.expiryDate, s[j].item.expiryDate)
    ensures SortBucket(s[i].item.expiryDate, today) == SortBucket(s[j].item.expiryDate, today) &&
            s[i].item.expiryDate == s[j].item.expiryDate ==>
              DateAscending(s[j].item.purchaseDate, s[i].item.purchaseDate)
  {
  }

  /**
   * In expiry order the statuses come in rank order: every expired row, then every
   * warning row, then the normal and undated rows.
   */
  lemma ExpiryOrderGroupsStatuses(today: int, s: seq<Row>, i: int, j: int)
    requires Sorted(ByExpiry, today, s)
    requires 0 <= i < j < |s|
    ensures StatusRank(Classify(s[i].item.expiryDate, today).status)
         <= StatusRank(Classify(s[j].item.expiryDate, today).status)
  {
  }

  /** In expiry order every expired row is listed before every row without an expiry date. */
  lemma ExpiredBeforeUndated(today: int, s: seq<Row>, i: int, j: int)
    requires Sorted(ByExpiry, today, s)
    requires 0 <= i < |s| && 0 <= j < |s|
    requires Classify(s[i].item.expiryDate, today).status == Expired
    requires s[j].item.expiryDate.None?
    ensures i < j
  {
  }

  /**
   * What the quantity-ordered listing promises about any two rows: levels never
   * increase (empty first); within a level expiry dates ascend with NULL last; on
   * equal expiry dates purchase dates descend with NULL first.
   */
  lemma QuantityOrderKeys(today: int, s: seq<Row>, i: int, j: int)
    requires Sorted(ByQuantity, today, s)
    requires 0 <= i < j < |s|
    ensures s[i].item.quantityLevel >= s[j].item.quantityLevel
    ensures s[i].item.quantityLevel == s[j].item.quantityLevel ==>
              DateAscending(s[i].item.expiryDate, s[j].item.expiryDate)
    ensures s[i].item.quantityLevel == s[j].item.quantityLevel &&
            s[i].item.expiryDate == s[j].item.expiryDate ==>
              DateAscending(s[j].item.purchaseDate, s[i].item.purchaseDate)
  {
  }

  /** In quantity order a row with a higher level is listed before one with a lower level. */
  lemma HigherLevelFirst(today: int, s: seq<Row>, i: int, j: int)
    requires Sorted(ByQuantity, today, s)
    requires 0 <= i < |s| && 0 <= j < |s|
    requires s[i].item.quantityLevel > s[j].item.quantityLevel
    ensures i < j
  {
  }
}
