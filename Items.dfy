/**
 * The rows of the `items` table as the handlers in app.py read and write them.
 * Dates are day numbers (days since some fixed epoch); a NULL column is `None`.
 */
module Items {
  import opened Wrappers

  /** The one fridge the application serves: every query filters on `fridge_id = 1`. */
  const FridgeId: int := 1

  /** The longest item name the register and edit forms accept. */
  const MaxNameLength: nat := 50

  /** The stored columns of one row of `items`, apart from its id. */
  datatype Item = Item(
    fridgeId: int,
    name: string,
    containerType: int,       // 1 liquid, 2 tube, 3 powder (not enforced on insert or edit)
    quantityLevel: int,       // 1 full .. 4 empty (enforced only by update_quantity)
    purchaseDate: Option<int>,
    openedDate: Option<int>,
    expiryDate: Option<int>
  )

  /** A row as the listing query returns it: its id together with its columns. */
  datatype Row = Row(id: int, item: Item)

  /** The name check shared by registration and edit: present and at most 50 characters. */
  predicate ValidName(name: string) {
    name != [] && |name| <= MaxNameLength
  }

  /** The quantity levels `update_quantity` accepts. */
  predicate ValidLevel(level: int) {
    level in {1, 2, 3, 4}
  }
}
