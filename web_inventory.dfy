/** The web app's inventory page (kitchenflow-web/src/pages/Inventory.tsx): the same tab
    filter and removal as the other app's page, over local storage that cannot fail, so the
    page and storage always receive the same list. Its freshness label is `Inventory.FreshnessLabel`. */
module WebInventory {
  import opened Kitchen
  import opened Inventory

  class WebInventoryPage {
    var items: seq<InventoryItem>
    var tab: Tab
    var stored: seq<InventoryItem>

    /** Storage and page hold the same list. */
    predicate Synced()
      reads this
    {
      items == stored
    }

    /** The mount effect reads the stored list into the page. */
    constructor (storedList: seq<InventoryItem>)
      ensures items == storedList && stored == storedList && tab == All
      ensures Synced()
    {
      items := storedList;
      stored := storedList;
      tab := All;
    }

    /** The entries the current tab shows. */
    function Shown(): seq<InventoryItem>
      reads this
    {
      Filtered(items, tab)
    }

    /** A tab button. */
    method SelectTab(t: Tab)
      modifies this
      ensures tab == t && items == old(items) && stored == old(stored)
    {
      tab := t;
    }

    /** `remove(id)`. */
    method Remove(id: string)
      modifies this
      ensures items == Without(old(items), id) && Synced()
      ensures tab == old(tab)
    {
      var next := Without(items, id);
      stored := next;
      items := next;
    }
  }
}
