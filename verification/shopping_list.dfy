/**
 * The shopping-list store: an ordered list of items held in one module-level
 * variable, mutated by submit / delete / toggle / restore, and after each
 * notifying mutation re-rendered and then mirrored into the storage slot
 * under the key "items".
 */
module ShoppingList {
  import opened Wrappers

  /** One shopping item; `id` is the creation timestamp supplied by the caller. */
  datatype Item = Item(id: int, name: string, complete: bool)

  /**
   * One rendered list entry: a checkbox (its value and checked state), the
   * item's name, and a remove button (its value and aria-label).
   */
  datatype Entry = Entry(checkboxValue: int, checked: bool, name: string, buttonValue: int, buttonLabel: string)

  /** What a click inside the list landed on. */
  datatype ClickTarget = RemoveButton(value: int) | CompleteCheckbox(value: int) | Elsewhere

  /** Some item in `items` carries `id`. */
  predicate HasId(items: seq<Item>, id: int)
  {
    exists k :: 0 <= k < |items| && items[k].id == id
  }

  /** Number of items in `items` that carry `id`. */
  function CountId(items: seq<Item>, id: int): nat
  {
    if items == [] then 0 else (if items[0].id == id then 1 else 0) + CountId(items[1..], id)
  }

  // ---------------------------------------------------------------------------
  // Rendering
  // ---------------------------------------------------------------------------

  function EntryOf(item: Item): Entry
  {
    Entry(item.id, item.complete, item.name, item.id, "Remove " + item.name)
  }

  /**
   * The list markup as an abstract sequence of entries: one per item, in list
   * order; the checkbox is checked exactly when the item is complete, and both
   * controls carry the item's id.
   */
  function Render(items: seq<Item>): (r: seq<Entry>)
    ensures |r| == |items|
    ensures forall k :: 0 <= k < |r| ==>
              && r[k].checkboxValue == items[k].id
              && r[k].buttonValue == items[k].id
              && (r[k].checked <==> items[k].complete)
              && r[k].name == items[k].name
              && r[k].buttonLabel == "Remove " + items[k].name
  {
    if items == [] then [] else [EntryOf(items[0])] + Render(items[1..])
  }

  /** Rendering a concatenation renders each part in place. */
  lemma RenderAppend(a: seq<Item>, b: seq<Item>)
    ensures Render(a + b) == Render(a) + Render(b)
  {
  }

  /** Every control in the rendered list names an item that is in the list. */
  lemma RenderedControlsNameItems(items: seq<Item>, k: int)
    requires 0 <= k < |Render(items)|
    ensures HasId(items, Render(items)[k].checkboxValue)
    ensures HasId(items, Render(items)[k].buttonValue)
  {
  }

  // ---------------------------------------------------------------------------
  // Delete: filter out an id
  // ---------------------------------------------------------------------------

  /** `items` without the items that carry `id`. */
  function Without(items: seq<Item>, id: int): (r: seq<Item>)
    ensures |r| <= |items|
    ensures forall x :: x in r <==> x in items && x.id != id
    ensures !HasId(r, id)
  {
    if items == [] then []
    else (if items[0].id == id then [] else [items[0]]) + Without(items[1..], id)
  }

  /** Filtering distributes over concatenation, so relative order is kept. */
  lemma {:induction false} WithoutAppend(a: seq<Item>, b: seq<Item>, id: int)
    ensures Without(a + b, id) == Without(a, id) + Without(b, id)
  {
    if a == [] {
      assert a + b == b;
    } else {
      assert (a + b)[1..] == a[1..] + b;
      WithoutAppend(a[1..], b, id);
    }
  }

  /** Deleting an id that is absent leaves the list as it was. */
  lemma {:induction false} WithoutAbsent(items: seq<Item>, id: int)
    requires !HasId(items, id)
    ensures Without(items, id) == items
  {
    if items != [] {
      assert items[0].id != id;
      assert !HasId(items[1..], id) by {
        forall k | 0 <= k < |items[1..]| ensures items[1..][k].id != id {
          assert items[1..][k] == items[k + 1];
        }
      }
      WithoutAbsent(items[1..], id);
    }
  }

  /** Exactly the items carrying `id` are removed. */
  lemma {:induction false} WithoutLength(items: seq<Item>, id: int)
    ensures |Without(items, id)| + CountId(items, id) == |items|
  {
    if items != [] {
      WithoutLength(items[1..], id);
    }
  }

  // ---------------------------------------------------------------------------
  // Toggle: flip the first item with an id
  // ---------------------------------------------------------------------------

  /** Index of the first item that carries `id` (the element `find` returns). */
  function FirstIndex(items: seq<Item>, id: int): (k: nat)
    requires HasId(items, id)
    ensures k < |items| && items[k].id == id
    ensures forall j :: 0 <= j < k ==> items[j].id != id
  {
    if items[0].id == id then 0
    else
      assert HasId(items[1..], id) by {
        var k :| 0 <= k < |items| && items[k].id == id;
        assert items[1..][k - 1] == items[k];
      }
      FirstIndex(items[1..], id) + 1
  }

  /** `items` with `complete` flipped on the first item that carries `id`. */
  function Toggled(items: seq<Item>, id: int): (r: seq<Item>)
    requires HasId(items, id)
    ensures |r| == |items|
    ensures forall j :: 0 <= j < |r| ==> r[j].id == items[j].id && r[j].name == items[j].name
    ensures forall j :: 0 <= j < |r| ==> (r[j].complete != items[j].complete <==> j == FirstIndex(items, id))
    ensures HasId(r, id) && FirstIndex(r, id) == FirstIndex(items, id)
  {
    var k := FirstIndex(items, id);
    items[k := items[k].(complete := !items[k].complete)]
  }

  /** Toggling the same id twice restores the original list. */
  lemma ToggleTwice(items: seq<Item>, id: int)
    requires HasId(items, id)
    ensures Toggled(Toggled(items, id), id) == items
  {
  }

  // ---------------------------------------------------------------------------
  // The store
  // ---------------------------------------------------------------------------

  /**
   * The module state of the shopping list: the items, the storage slot under
   * the key "items" (None while the key is absent), and the rendered list.
   */
  class ShoppingStore {
    var items: seq<Item>
    var stored: Option<seq<Item>>
    var rendered: seq<Entry>

    /** What every notification establishes: the view and the storage slot mirror `items`. */
    ghost predicate Synced()
      reads this
    {
      stored == Some(items) && rendered == Render(items)
    }

    /** Page start: empty state, an empty list, and whatever storage already holds. */
    constructor (storage: Option<seq<Item>>)
      ensures items == [] && stored == storage && rendered == []
    {
      items := [];
      stored := storage;
      rendered := [];
    }

    /** The first listener: replace the list markup with one entry per item. */
    method DisplayItems()
      modifies this`rendered
      ensures rendered == Render(items)
    {
      rendered := Render(items);
    }

    /** The second listener: overwrite the storage slot with the current items. */
    method MirrorToLocalStorage()
      modifies this`stored
      ensures stored == Some(items)
    {
      stored := Some(items);
    }

    /** Fire the change notification: listeners run in registration order. */
    method NotifyItemsUpdated()
      modifies this`rendered, this`stored
      ensures Synced()
    {
      DisplayItems();
      MirrorToLocalStorage();
    }

    /** Form submission; `now` stands for the clock reading used as id. */
    method HandleSubmit(name: string, now: int) returns (accepted: bool)
      modifies this
      ensures accepted <==> name != ""
      ensures !accepted ==> items == old(items) && stored == old(stored) && rendered == old(rendered)
      ensures accepted ==> items == old(items) + [Item(now, name, false)] && Synced()
    {
      if name == "" {
        return false;
      }
      items := items + [Item(now, name, false)];
      NotifyItemsUpdated();
      accepted := true;
    }

    /** Start-up restore; the slot must be present, as the code reads its length unchecked. */
    method RestoreFromLocalStorage() returns (notified: bool)
      requires stored.Some?
      modifies this
      ensures notified <==> old(stored.value) != []
      ensures !notified ==> items == old(items) && stored == old(stored) && rendered == old(rendered)
      ensures notified ==> items == old(items) + old(stored.value) && Synced()
    {
      var lsItems := stored.value;
      notified := |lsItems| > 0;
      if notified {
        items := items + lsItems;
        NotifyItemsUpdated();
      }
    }

    /** Remove every item with `id`. */
    method DeleteItem(id: int)
      modifies this
      ensures items == Without(old(items), id) && Synced()
    {
      items := Without(items, id);
      NotifyItemsUpdated();
    }

    /** Flip the first item with `id`; the code dereferences the search result unchecked. */
    method MarkAsComplete(id: int)
      requires HasId(items, id)
      modifies this
      ensures items == Toggled(old(items), id) && Synced()
    {
      items := Toggled(items, id);
      NotifyItemsUpdated();
    }

    /** The delegated click handler on the list. */
    method HandleClick(target: ClickTarget)
      requires target.CompleteCheckbox? ==> HasId(items, target.value)
      modifies this
      ensures target.RemoveButton? ==> items == Without(old(items), target.value) && Synced()
      ensures target.CompleteCheckbox? ==> items == Toggled(old(items), target.value) && Synced()
      ensures target.Elsewhere? ==> items == old(items) && stored == old(stored) && rendered == old(rendered)
    {
      match target
      case RemoveButton(id) => DeleteItem(id);
      case CompleteCheckbox(id) => MarkAsComplete(id);
      case Elsewhere =>
    }
  }

  /**
   * Page load: the store starts empty and restores from a present slot, so a
   * saved list comes back with the same content and order.
   */
  method Load(saved: seq<Item>) returns (store: ShoppingStore)
    ensures fresh(store)
    ensures store.items == saved && store.stored == Some(saved)
    ensures store.Synced()
  {
    store := new ShoppingStore(Some(saved));
    var _ := store.RestoreFromLocalStorage();
  }
}
