/**
  The top-10 tables as the server actions see them: `top10_lists` (owner and year of
  each list) and `top10_items` (list, rank, note and link of each item), with the
  ownership-guarded `updateItem` and `deleteItem` actions. A store error at any of the
  three queries is an input (`Faults`).
*/
module Top10Store {
  import opened Wrappers

  type UserId = string

  datatype ListRow = ListRow(owner: UserId, year: int)
  datatype ItemRow = ItemRow(listId: string, rank: int, note: Option<string>, link: Option<string>)

  /** Which query an action was at when the store returned an error. */
  datatype Stage = ItemLookup | ListLookup | Write

  /** What the store does: which of the three queries return an error. */
  datatype Faults = Faults(itemLookup: bool, listLookup: bool, write: bool)

  /** What an action throws. */
  datatype ActionError = Thrown(message: string) | DbError(stage: Stage)

  const NotFoundMessage: string := "item not found"
  const ForbiddenMessage: string := "forbidden"

  /**
    The guard shared by both actions: look the item up, then its list, and insist the
    caller owns the list. It yields the item's list on success.
  */
  function OwnedBy(lists: map<string, ListRow>, items: map<string, ItemRow>, userId: UserId,
                   itemId: string, faults: Faults): (g: Result<ListRow, ActionError>)
    ensures faults.itemLookup ==> g == Err(DbError(ItemLookup))
    ensures !faults.itemLookup && itemId !in items ==> g == Err(Thrown(NotFoundMessage))
    ensures !faults.itemLookup && itemId in items && faults.listLookup ==> g == Err(DbError(ListLookup))
    ensures g.Ok? <==>
      !faults.itemLookup && !faults.listLookup && itemId in items
      && items[itemId].listId in lists && lists[items[itemId].listId].owner == userId
    ensures g.Ok? ==> g.value == lists[items[itemId].listId]
    ensures !faults.itemLookup && !faults.listLookup && itemId in items && !g.Ok? ==>
      g == Err(Thrown(ForbiddenMessage))
  {
    if faults.itemLookup then Err(DbError(ItemLookup))
    else if itemId !in items then Err(Thrown(NotFoundMessage))
    else if faults.listLookup then Err(DbError(ListLookup))
    else
      var listId := items[itemId].listId;
      if listId !in lists || lists[listId].owner != userId then Err(Thrown(ForbiddenMessage))
      else Ok(lists[listId])
  }

  /**
    The outcome of `updateItem`: the action's result and the items table afterwards.
    An absent note or link is written as null.
  */
  function UpdateOutcome(lists: map<string, ListRow>, items: map<string, ItemRow>, userId: UserId,
                         itemId: string, userNote: Option<string>, userLink: Option<string>,
                         faults: Faults): (out: (Result<bool, ActionError>, map<string, ItemRow>))
    ensures out.0.Err? ==> out.1 == items
    ensures out.0.Ok? <==> OwnedBy(lists, items, userId, itemId, faults).Ok? && !faults.write
    ensures out.0.Ok? ==> out.0.value
    ensures OwnedBy(lists, items, userId, itemId, faults).Err? ==>
      out.0 == Err(OwnedBy(lists, items, userId, itemId, faults).error)
    ensures OwnedBy(lists, items, userId, itemId, faults).Ok? && faults.write ==> out.0 == Err(DbError(Write))
    ensures out.0.Ok? ==>
      out.1.Keys == items.Keys
      && (forall id :: id in items && id != itemId ==> out.1[id] == items[id])
      && out.1[itemId].listId == items[itemId].listId && out.1[itemId].rank == items[itemId].rank
      && out.1[itemId].note == userNote && out.1[itemId].link == userLink
  {
    var g := OwnedBy(lists, items, userId, itemId, faults);
    if g.Err? then (Err(g.error), items)
    else if faults.write then (Err(DbError(Write)), items)
    else (Ok(true), items[itemId := items[itemId].(note := userNote, link := userLink)])
  }

  /** The outcome of `deleteItem`: the action's result and the items table afterwards. */
  function DeleteOutcome(lists: map<string, ListRow>, items: map<string, ItemRow>, userId: UserId,
                         itemId: string, faults: Faults): (out: (Result<bool, ActionError>, map<string, ItemRow>))
    ensures out.0.Err? ==> out.1 == items
    ensures out.0.Ok? <==> OwnedBy(lists, items, userId, itemId, faults).Ok? && !faults.write
    ensures out.0.Ok? ==> out.0.value
    ensures OwnedBy(lists, items, userId, itemId, faults).Err? ==>
      out.0 == Err(OwnedBy(lists, items, userId, itemId, faults).error)
    ensures OwnedBy(lists, items, userId, itemId, faults).Ok? && faults.write ==> out.0 == Err(DbError(Write))
    ensures out.0.Ok? ==>
      itemId in items && out.1.Keys == items.Keys - {itemId}
      && forall id :: id in out.1 ==> out.1[id] == items[id]
  {
    var g := OwnedBy(lists, items, userId, itemId, faults);
    if g.Err? then (Err(g.error), items)
    else if faults.write then (Err(DbError(Write)), items)
    else (Ok(true), items - {itemId})
  }

  /** A caller who does not own the list can neither edit nor delete its items. */
  lemma StrangersChangeNothing(lists: map<string, ListRow>, items: map<string, ItemRow>, userId: UserId,
                               itemId: string, note: Option<string>, link: Option<string>, faults: Faults)
    requires itemId in items && items[itemId].listId in lists
    requires lists[items[itemId].listId].owner != userId
    ensures UpdateOutcome(lists, items, userId, itemId, note, link, faults).1 == items
    ensures DeleteOutcome(lists, items, userId, itemId, faults).1 == items
    ensures !faults.itemLookup && !faults.listLookup ==>
      UpdateOutcome(lists, items, userId, itemId, note, link, faults).0 == Err(Thrown(ForbiddenMessage))
      && DeleteOutcome(lists, items, userId, itemId, faults).0 == Err(Thrown(ForbiddenMessage))
  {
  }

  /** Clearing: an update with neither note nor link empties both fields of the item. */
  lemma UpdateWithoutFieldsClears(lists: map<string, ListRow>, items: map<string, ItemRow>, userId: UserId,
                                  itemId: string, faults: Faults)
    requires UpdateOutcome(lists, items, userId, itemId, None, None, faults).0.Ok?
    ensures var after := UpdateOutcome(lists, items, userId, itemId, None, None, faults).1;
      after[itemId].note.None? && after[itemId].link.None?
  {
  }

  /** Deleting an item leaves every other item's rank where it was; nothing is renumbered. */
  lemma DeleteKeepsOtherRanks(lists: map<string, ListRow>, items: map<string, ItemRow>, userId: UserId,
                              itemId: string, faults: Faults, other: string)
    requires DeleteOutcome(lists, items, userId, itemId, faults).0.Ok?
    requires other in items && other != itemId
    ensures other in DeleteOutcome(lists, items, userId, itemId, faults).1
    ensures DeleteOutcome(lists, items, userId, itemId, faults).1[other].rank == items[other].rank
  {
  }

  /** Both tables, updated in place by the two actions. */
  class Top10Tables {
    var lists: map<string, ListRow>
    var items: map<string, ItemRow>

    constructor (lists0: map<string, ListRow>, items0: map<string, ItemRow>)
      ensures lists == lists0 && items == items0
    {
      lists := lists0;
      items := items0;
    }

    /** `updateItem({ itemId, userNote, userLink })` for the signed-in `userId`. */
    method UpdateItem(userId: UserId, itemId: string, userNote: Option<string>, userLink: Option<string>,
                      faults: Faults) returns (r: Result<bool, ActionError>)
      modifies this
      ensures (r, items) == UpdateOutcome(old(lists), old(items), userId, itemId, userNote, userLink, faults)
      ensures lists == old(lists)
    {
      var g := OwnedBy(lists, items, userId, itemId, faults);
      if g.Err? {
        return Err(g.error);
      }
      if faults.write {
        return Err(DbError(Write));
      }
      var row := items[itemId];
      items := items[itemId := row.(note := userNote, link := userLink)];
      return Ok(true);
    }

    /** `deleteItem({ itemId })` for the signed-in `userId`. */
    method DeleteItem(userId: UserId, itemId: string, faults: Faults) returns (r: Result<bool, ActionError>)
      modifies this
      ensures (r, items) == DeleteOutcome(old(lists), old(items), userId, itemId, faults)
      ensures lists == old(lists)
    {
      var g := OwnedBy(lists, items, userId, itemId, faults);
      if g.Err? {
        return Err(g.error);
      }
      if faults.write {
        return Err(DbError(Write));
      }
      items := items - {itemId};
      return Ok(true);
    }
  }
}
