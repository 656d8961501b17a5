# Fridge inventory: a verified model of the item listing and the item handlers

This project models the core of a household refrigerator-inventory web application
(Flask over MySQL or PostgreSQL). That core is in `app.py`:

- the **expiry-status classifier** that the item listing attaches to every row:
  `none`, `expired`, `warning` (up to seven days ahead) or `normal`, each with a CSS
  class and an icon (module `Expiry`);
- the **container-type label** lookup with its "不明" fallback (module `Containers`);
- the **two listing orders**, written in SQL as `ORDER BY` clauses. Here each is a
  comparator over three keys. Expiry mode sorts by expiry bucket ascending, then
  expiry date ascending, then purchase date descending. Quantity mode sorts by
  quantity level descending, then the same two dates. Module `Ordering` also holds
  a `Sorted` predicate and an insertion sort proved to return a sorted permutation;
- the **listing** itself: select the rows of fridge 1, order them, then add the
  display fields to each row in place (modules `Listing` and `Table`);
- the **items table** as a class holding a map from id to item, with the handlers
  that change it: `register_post`, `edit_post`, `update_quantity` and `delete_item`
  (module `Table`).

Dates are integer day numbers. "Today" is a parameter. A NULL column or an absent
form field is `None`.

NULL dates follow PostgreSQL's convention, because the expiry `ORDER BY` is the
version written for PostgreSQL (app.py:45). A NULL date compares greater than every
date. So NULL expiry dates come last under `ASC`, and NULL purchase dates come
first under `purchase_date DESC`. A "nulls last" reading of the descending
purchase-date tie-break does not match PostgreSQL's behaviour (it does match MySQL's),
and the model follows PostgreSQL.

The central result is `Ordering.ExpiryOrderGroupsStatuses`, together with
`Expiry.BucketAgreesWithStatus`. The SQL bucket and the classifier use the same
thresholds. So, provided the database's `CURRENT_DATE` (app.py:50-51) and the
server's `datetime.now().date()` (app.py:78) are the same day, an expiry-ordered
listing shows every expired row, then every warning row, then the rest. When the
two days differ the grouping can break: with database day d and server day d+1, a
row expiring on d is sorted in bucket 1 but displayed as expired. Under the same
proviso, every expired row comes before every row without an expiry date
(`Ordering.ExpiredBeforeUndated`).

The handlers validate exactly what `app.py` validates, and no more.
`register_post` and `edit_post` check only the name: it must be non-empty and at
most 50 characters. `update_quantity` checks only that the level is in 1..4.
Nothing checks the container type. `register_post` and `edit_post` do not check the
quantity level. `update_quantity`, `edit_post` and `delete_item` report success
even for an id that does not exist, and then change nothing.

## Model

| member | source | states |
|---|---|---|
| `Expiry.Classify` | app.py:84-101 | the status is `none` iff the expiry date is absent, `expired` iff it is before today, `warning` iff it lies in today..today+7, `normal` iff it is later; `expired` carries `text-danger`/❌, `warning` carries `text-warning`/⚠️, the other two carry an empty class and icon |
| `Expiry.StatusName` | app.py:87-99 | `expired` is written "expired", `warning` "warning", `normal` "normal", and `none` "none" |
| `Expiry.StatusNameDeterminesStatus` | app.py:87-99 | two statuses get the same `expiry_status` string exactly when they are the same status |
| `Expiry.SortBucket` | app.py:48-53 | the `CASE` bucket is 0 exactly for a date before today, 1 exactly for a date in today..today+7, and 2 exactly for a missing date or a later one |
| `Expiry.BucketAgreesWithStatus` | app.py:48-53 | for the same today, the `CASE` bucket of the expiry order is 0 exactly for `expired`, 1 exactly for `warning` and 2 exactly for `normal` or `none` |
| `Containers.ContainerLabel` | app.py:81-82 | 1 reads 液体, 2 reads チューブ, 3 reads 粉末, and every other code reads 不明 |
| `Containers.LabelDeterminesCode` | app.py:81-82 | a known code (1, 2 or 3) never gets the fallback label, and shares its label with no other code |
| `Ordering.ParseSortMode` | app.py:36-39 | the `sort` parameter selects quantity order exactly when it is "quantity"; any other value, including the default "expiry", selects expiry order |
| `Ordering.CompareDates` | app.py:41 | the comparison of two nullable dates is -1, 0 or 1; it is zero exactly for equal dates; and it is at most zero exactly when the first date comes no later in PostgreSQL's ascending order, which puts every date before NULL |
| `Ordering.CompareDatesAntisymmetric` | app.py:41 | the date comparison swaps sign when its arguments swap |
| `Ordering.ComparePrimary` | app.py:39-53 | the leading key's comparison is -1, 0 or 1. In expiry mode it is negative or zero exactly when the first row's bucket is smaller or equal. In quantity mode it is negative or zero exactly when the first row's level is higher or equal |
| `Ordering.Compare` | app.py:39-56 | the comparator is -1, 0 or 1 and is zero exactly when all three keys tie. It is at most zero exactly when the first row's leading key comes first, or the leading keys tie and the expiry dates ascend (NULL last) and, if those are equal too, the purchase dates descend (NULL first) |
| `Ordering.PrecedesTotal` | app.py:39-56 | under either `ORDER BY`, of any two rows one may be listed before the other |
| `Ordering.PrecedesTransitive` | app.py:39-56 | the listing comparator is transitive, so together with totality it is a total preorder |
| `Ordering.SortRows` | app.py:39-56 | ordering returns a permutation of its input rows that is sorted under the chosen comparator |
| `Ordering.ExpiryOrderKeys` | app.py:46-56 | in an expiry-ordered listing, buckets never decrease; within a bucket, expiry dates ascend with NULL last; for equal expiry dates, purchase dates descend with NULL first |
| `Ordering.ExpiryOrderGroupsStatuses` | app.py:43-53 | in an expiry-ordered listing, statuses come in the order expired, then warning, then normal or none |
| `Ordering.ExpiredBeforeUndated` | app.py:46-56 | in an expiry-ordered listing, every expired row comes before every row without an expiry date |
| `Ordering.QuantityOrderKeys` | app.py:39-41 | in a quantity-ordered listing, levels never increase (4 first, then down to 1); within a level, expiry dates ascend with NULL last; for equal expiry dates, purchase dates descend with NULL first |
| `Ordering.HigherLevelFirst` | app.py:39-41 | in a quantity-ordered listing, a row with a higher quantity level comes before a row with a lower one |
| `Listing.FridgeRows` | app.py:69-70 | a row is selected exactly when it is stored under its id with fridge_id 1 |
| `Listing.AnnotationFor` | app.py:80-101 | a row's `container_type_text` is its container label; its `expiry_status` is "none" exactly when the expiry date is absent, "expired" exactly when it is before today, "warning" exactly when it lies in today..today+7, and "normal" exactly when it is later; "expired" and "warning" carry their class and icon, and the other two carry empty ones |
| `Listing.AnnotateRows` | app.py:79-101 | the listing loop changes no stored column of any row, and gives every row its `container_type_text` and the `expiry_status`, `expiry_class` and `expiry_icon` of its expiry date for today |
| `Listing.PermutationListsEachRowOnce` | app.py:59-75 | a permutation of the fridge-1 rows contains a row exactly when that row is stored with fridge_id 1, and no id appears twice |
| `Table.ItemsTable.FetchFridgeRows` | app.py:59-75 | the query returns each stored row with fridge_id 1 exactly once, and no other row |
| `Table.ItemsTable.ItemsList` | app.py:36-101 | the listing is a permutation of the fridge-1 rows, sorted by the order the `sort` parameter selects, and each row carries the display fields computed for today |
| `Table.ItemsTable.Find` | app.py:189-198 | the lookup by id returns the stored row, or nothing when the id is absent |
| `Table.ItemsTable.Register` | app.py:151-171 | an empty name or one over 50 characters is refused and the table is unchanged. Otherwise exactly one row is added for fridge 1, under an id not in use before. Container type and quantity level default to 1 and the purchase date to today. Neither is range-checked |
| `Table.ItemsTable.Edit` | app.py:204-226 | an empty name or one over 50 characters is refused and the table is unchanged. Otherwise the six editable columns of the given id are overwritten and every other row and column is kept. An absent id changes nothing but still reports success |
| `Table.ItemsTable.UpdateQuantity` | app.py:110-119 | a level outside 1..4 is refused and the table is unchanged. Otherwise only the quantity level of the given id changes. An absent id changes nothing but still reports success |
| `Table.ItemsTable.Delete` | app.py:130-135 | exactly the given id is removed and every other row is kept; an absent id changes nothing |

## Left out

- Flask routing, templates, flash messages and redirects are not modelled. A handler returns an `Outcome` that names the message it would flash.
- The page handlers `fridge_select`, `register`, `share_settings` and the server start-up only render templates or start the server.
- Database connections, cursors, commits and the MySQL/PostgreSQL switch are not modelled. The table is an in-memory map. A counter stands in for the database's id generation: ids start at 1 and are never reused.
- MySQL behaviour is not modelled. MySQL requires a unit keyword after `INTERVAL '7 days'` (app.py:51), so on that backend the default expiry listing query is most likely a syntax error. MySQL also places NULLs first under `ASC` and last under `DESC`. The comparator follows PostgreSQL.
- The clock is not modelled. `datetime.now()` and SQL `CURRENT_DATE` both become one `today` parameter, so the model assumes the application server and the database agree on the date.
- Rows with equal keys have no fixed order. SQL leaves their order unspecified, and `Ordering.SortRows` only promises a sorted permutation. Likewise, the fetch loop takes ids in an unspecified order.
- The `created_at` column is not modelled. The listing selects it but never uses it.
- Form parsing and type coercion are not modelled. A missing `name` field is the empty string, as both are falsy in Python. For registration, a missing or non-numeric container type or quantity level is `None` and then defaults to 1. A missing purchase date becomes today.
- Table.ItemsTable.Edit: takes the container type and the quantity level as integers. The source stores NULL when the form leaves out either one or sends a non-number. The purchase date is taken as given, and `None` stores NULL. `None` stands only for a missing field: `edit_post` reads `purchase_date` without `or None` (app.py:208), so an empty field reaches the database as `''`, which a DATE column is expected to reject, and the model does not capture that.
- Other features of the wider application do not appear in `app.py` and are not part of this model. These are categories, the shopping list, days-since-open buckets and the "add to shopping list" flag. Container-type and quantity-level checks on registration and edit are also absent from `app.py`, so the model does not add them.
- config.py holds only connection settings, and static/js/script.js only browser dialogs and timers. Neither is part of this model.
