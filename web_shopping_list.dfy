/** The web app's shopping list page (kitchenflow-web/src/pages/ShoppingList.tsx). It applies
    the same list transforms as the other app's page, but storage is local and cannot fail:
    every handler writes the same new list to storage and to the page. */
module WebShoppingList {
  import opened Wrappers
  import opened Text
  import opened Kitchen
  import opened ShoppingList

  class WebShoppingListPage {
    var items: seq<ShoppingItem>
    var newName: string
    var appliedAddItems: bool
    var stored: seq<ShoppingItem>

    /** Storage and page hold the same list. */
    predicate Synced()
      reads this
    {
      items == stored
    }

    /** The mount effect reads the stored list into the page. */
    constructor (storedList: seq<ShoppingItem>)
      ensures items == storedList && stored == storedList && newName == "" && !appliedAddItems
      ensures Synced()
    {
      items := storedList;
      stored := storedList;
      newName := "";
      appliedAddItems := false;
    }

    /** Names handed over by another page are merged into the stored list, once per mount and
        only when there is at least one. */
    method ApplyAddItems(addItems: Option<seq<string>>, newId: nat -> string, now: nat -> int)
      returns (stateCleared: bool)
      modifies this
      ensures addItems.Some? && |addItems.value| > 0 && !old(appliedAddItems) ==>
        items == Merged(old(stored), addItems.value, newId, now) && Synced() && appliedAddItems
      ensures !(addItems.Some? && |addItems.value| > 0 && !old(appliedAddItems)) ==>
        items == old(items) && stored == old(stored) && appliedAddItems == old(appliedAddItems)
      ensures stateCleared <==> addItems.Some? && |addItems.value| > 0 && !old(appliedAddItems)
      ensures newName == old(newName)
    {
      stateCleared := false;
      if addItems.Some? && |addItems.value| > 0 && !appliedAddItems {
        appliedAddItems := true;
        stateCleared := true;
        var next := Merged(stored, addItems.value, newId, now);
        stored := next;
        items := next;
      }
    }

    /** `addItem`: a blank name does nothing; otherwise one new unchecked entry with the trimmed
        name is appended and the input cleared. */
    method AddItem(id: string, now: int)
      modifies this
      ensures Trim(old(newName)) == "" ==> items == old(items) && stored == old(stored) && newName == old(newName)
      ensures Trim(old(newName)) != "" ==>
        items == old(items) + [NewItem(id, Trim(old(newName)), now)] && Synced() && newName == ""
      ensures appliedAddItems == old(appliedAddItems)
    {
      var name := Trim(newName);
      if name == "" {
        return;
      }
      var next := items + [NewItem(id, name, now)];
      stored := next;
      items := next;
      newName := "";
    }

    /** `toggle(id)`. */
    method Toggle(id: string)
      modifies this
      ensures items == Toggled(old(items), id) && Synced()
      ensures newName == old(newName) && appliedAddItems == old(appliedAddItems)
    {
      var next := Toggled(items, id);
      stored := next;
      items := next;
    }

    /** `remove(id)`. */
    method Remove(id: string)
      modifies this
      ensures items == Removed(old(items), id) && Synced()
      ensures newName == old(newName) && appliedAddItems == old(appliedAddItems)
    {
      var next := Removed(items, id);
      stored := next;
      items := next;
    }

    /** `clearDone()`. */
    method ClearDone()
      modifies this
      ensures items == DoneCleared(old(items)) && Synced()
      ensures newName == old(newName) && appliedAddItems == old(appliedAddItems)
    {
      var next := DoneCleared(items);
      stored := next;
      items := next;
    }
  }
}
