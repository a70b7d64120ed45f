# Shopping list and gallery lightbox, modelled in Dafny

Two small browser widgets, with the browser plumbing abstracted away.

**Shopping list** (`shopping_list.dfy`, module `ShoppingList`). The page
keeps an ordered list of items `{id, name, complete}`. Submitting the form
appends an item, a click on an item's button deletes it, and a click on its
checkbox flips `complete`. At start-up the list is restored from storage. Every
mutation fires an `itemsUpdated` notification. Two listeners handle it, in
registration order: the first re-renders the list, the second saves the items
to storage under the key `"items"`. The class `ShoppingStore` holds the items,
the storage slot (`None` while the key is absent) and the rendered list (an
abstract sequence of entries). The pure parts are functions:

- `Render` is the list markup.
- `Without` is the filter used by delete.
- `FirstIndex` and `Toggled` are the `find`-and-flip used by toggle.

The main invariant is `Synced()`: storage holds exactly the items and the view
shows exactly their rendering. Every notifying operation ends in that state.

**Gallery lightbox** (`gallery.dfy`, module `GalleryModal`). Each gallery has
a fixed sequence of children. The class `Gallery` tracks:

- the current child, as an index (`None` before any child has been shown);
- whether the modal is open;
- the set of transient listeners (window keyup, next button, prev button);
- what the modal displays.

`Valid()` says the transient listeners are attached exactly while the modal is
open. Navigation moves cyclically: `NextIndex` and `PrevIndex` wrap at both
ends. Browser events reach a handler only while its listener is attached; the
`...Event` methods model that delivery.

`wrappers.dfy` holds the `Option` and `Result` datatypes both use.

Behaviour follows the code, including where a more defensive design would differ:

- Only the empty name is rejected; a blank name such as `" "` is accepted.
- Toggling an id that is not in the list crashes in the code (the `find` result
  is dereferenced unchecked). So `MarkAsComplete` requires the id to be present;
  there is no hardened no-op.
- Restoring with the storage key absent crashes in the code (`null.length`).
  So `RestoreFromLocalStorage` requires the slot to be present; there is no
  empty-list fallback.
- Ids come from the clock. Nothing makes them unique, so uniqueness is neither
  assumed nor proved. Delete removes every item with the id. Toggle flips only
  the first one.

## Model

| member | source | states |
|---|---|---|
| `ShoppingList.Render` | shopping-list/shopping.js:30-49 | one entry per item, in list order; the checkbox is checked iff the item is complete; the checkbox and the button both carry the item's id; the button label is "Remove " followed by the name |
| `ShoppingList.RenderAppend` | shopping-list/shopping.js:32-47 | rendering a concatenation is the concatenation of the renderings, so restored items render after the existing ones |
| `ShoppingList.RenderedControlsNameItems` | shopping-list/shopping.js:36-43 | every checkbox or button in the rendered list carries the id of an item in the list, so a click on a rendered checkbox meets the toggle precondition |
| `ShoppingList.Without` | shopping-list/shopping.js:71 | the result holds exactly the items whose id differs from the deleted one; no item with that id remains; it is no longer than the input |
| `ShoppingList.WithoutAppend` | shopping-list/shopping.js:71 | filtering distributes over concatenation, so the kept items keep their relative order |
| `ShoppingList.WithoutAbsent` | shopping-list/shopping.js:71 | deleting an id that no item carries leaves the list unchanged |
| `ShoppingList.WithoutLength` | shopping-list/shopping.js:71 | the length drops by exactly the number of items carrying the id |
| `ShoppingList.FirstIndex` | shopping-list/shopping.js:77 | the index `find` lands on: it carries the id, and no earlier item does |
| `ShoppingList.Toggled` | shopping-list/shopping.js:77-78 | same length, ids and names; `complete` differs at exactly one position, the first item with the id; that item is still the first with the id |
| `ShoppingList.ToggleTwice` | shopping-list/shopping.js:75-80 | toggling the same id twice restores the original list |
| `ShoppingList.ShoppingStore.constructor` | shopping-list/shopping.js:6-7 | the store starts with no items and an empty list view; the storage slot holds whatever storage already had |
| `ShoppingList.ShoppingStore.DisplayItems` | shopping-list/shopping.js:30-49 | the view becomes the rendering of the current items |
| `ShoppingList.ShoppingStore.MirrorToLocalStorage` | shopping-list/shopping.js:52-55 | the storage slot is overwritten with the current items |
| `ShoppingList.ShoppingStore.NotifyItemsUpdated` | shopping-list/shopping.js:83-84 | after the listeners run (render, then save), storage and view mirror the items |
| `ShoppingList.ShoppingStore.HandleSubmit` | shopping-list/shopping.js:9-28 | accepted iff the name is non-empty; a rejected name changes nothing and fires no notification; an accepted one appends exactly `{now, name, false}` after the old items, and the store ends synced |
| `ShoppingList.ShoppingStore.RestoreFromLocalStorage` | shopping-list/shopping.js:58-66 | requires the key to be present; notifies iff the stored list is non-empty; if it is, the stored items are appended after the existing ones and the store ends synced; if it is empty, nothing changes |
| `ShoppingList.ShoppingStore.DeleteItem` | shopping-list/shopping.js:68-73 | the items become the old items without that id, and the store ends synced |
| `ShoppingList.ShoppingStore.MarkAsComplete` | shopping-list/shopping.js:75-80 | requires the id to be present; the items become the old items with the first match flipped, and the store ends synced |
| `ShoppingList.ShoppingStore.HandleClick` | shopping-list/shopping.js:86-94 | a button click deletes its id; a checkbox click toggles its id; any other target changes nothing |
| `ShoppingList.Load` | shopping-list/shopping.js:95 | page load (empty store, then restore) brings back a saved list with the same content and order; the slot still holds it and the view shows its rendering, also when it is empty |
| `GalleryModal.NextIndex` | Gallery/gallery.js:51-53 | stays in range; equals `(i + 1) mod n`, so the last child wraps to the first; going back from the result gives `i` |
| `GalleryModal.PrevIndex` | Gallery/gallery.js:47-49 | stays in range; one step forward from the result gives `i`, so the first child wraps to the last |
| `GalleryModal.NextAfterPrev` | Gallery/gallery.js:47-53 | prev followed by next returns to the same child |
| `GalleryModal.NextTimesInRange` | Gallery/gallery.js:52 | before the end, each step forward moves to the next sibling |
| `GalleryModal.NextTimesAdd` | Gallery/gallery.js:52 | `a + b` steps forward equal `a` steps followed by `b` steps |
| `GalleryModal.NextCycle` | Gallery/gallery.js:47-53 | as many steps forward as there are children return to the starting child |
| `GalleryModal.Gallery.constructor` | Gallery/gallery.js:1-10 | a new gallery has its children, no current image, a closed modal and no transient listeners |
| `GalleryModal.NewGallery` | Gallery/gallery.js:1-4 | fails with "No Gallery Found" iff the root element is missing; otherwise yields a fresh, valid, closed gallery over the root's children, with no current image, no transient listeners and the modal's initial content |
| `GalleryModal.Gallery.OpenModal` | Gallery/gallery.js:12-25 | if the modal is already open, nothing changes, so nothing is attached twice; otherwise it opens with exactly the three transient listeners |
| `GalleryModal.Gallery.CloseModal` | Gallery/gallery.js:27-33 | from any state, the modal ends closed with no transient listeners; the current image and the displayed content are kept |
| `GalleryModal.Gallery.ShowImage` | Gallery/gallery.js:55-67 | a null element changes nothing; any other child becomes current and is displayed, and the modal ends open with its listeners |
| `GalleryModal.Gallery.ShowNextImage` | Gallery/gallery.js:51-53 | the current index becomes its cyclic successor, and the modal is open |
| `GalleryModal.Gallery.ShowPrevImage` | Gallery/gallery.js:47-49 | the current index becomes its cyclic predecessor, and the modal is open |
| `GalleryModal.Gallery.HandleKeyup` | Gallery/gallery.js:41-45 | Escape closes; ArrowRight goes to the next child; ArrowLeft goes to the previous one; any other key changes nothing |
| `GalleryModal.Gallery.HandleClickOutside` | Gallery/gallery.js:35-39 | a click on the background closes and keeps the current image and the displayed content; a click on inner content changes nothing |
| `GalleryModal.Gallery.WindowKeyupEvent` | Gallery/gallery.js:22 | a window keyup reaches the handler only while the modal is open; while closed, nothing changes; while open, Escape closes, ArrowRight and ArrowLeft move to the next and previous child, and any other key changes nothing |
| `GalleryModal.Gallery.NextButtonClickEvent` | Gallery/gallery.js:23 | the next button works only while the modal is open, where it moves forward one child |
| `GalleryModal.Gallery.PrevButtonClickEvent` | Gallery/gallery.js:24 | the prev button works only while the modal is open, where it moves back one child |
| `GalleryModal.Gallery.ImageClickEvent` | Gallery/gallery.js:70-72 | a click on a child shows it and leaves the modal open |
| `GalleryModal.Gallery.ImageKeyupEvent` | Gallery/gallery.js:75-84 | Enter on a child shows it; any other key changes nothing |

Every method of `ShoppingStore` keeps `Synced()` once it holds: the
non-notifying paths change nothing, and the notifying ones end synced. Every
method of `Gallery` requires and ensures `Valid()`: the transient listeners are
attached iff the modal is open.

## Left out

- DOM querying, `innerHTML` writes, HTML string building and `console` logging: the view is the abstract entry list of `Render`. What the modal displays is the child's `Image` record, not the three DOM writes.
- `ShoppingList.Render`: item names are taken to render as plain text. The code puts each name into the list markup unescaped (shopping-list/shopping.js:40, 42), so a name containing markup or quotes can add controls or change a control's `value`; a click on such a control can then reach `MarkAsComplete` with an id no item carries. `Render` and `RenderedControlsNameItems` hold only for names without markup or quotes.
- `localStorage` and JSON encoding: storage is one slot holding a sequence of items. A stored value that parses to something other than a list of items is not modelled.
- `Date.now()`: the id is the `now` parameter of `HandleSubmit`.
- The `value` attribute and `parseInt` in the click handler: a control's value is modelled as the integer id itself. The round trip of an integer through its decimal text is taken as exact.
- `CustomEvent` dispatch and the event loop: a notification is a direct, synchronous call to the two listeners in registration order.
- Form reset after a submit: it touches only the DOM.
- The page wiring that instantiates the two galleries is left out.
- `GalleryModal.Gallery`: the model is exact for a single gallery on the page. In the code the modal is one page-wide element (Gallery/gallery.js:7), so its `open` class and its displayed content are shared by every gallery instance; the model gives each gallery its own `open`, `display` and `listeners`. With two galleries, showing a child of the second while the first holds the modal open overwrites the shared content without attaching the second gallery's listeners, and the arrows then still move through the first gallery. That cross-gallery interaction is not modelled.
- The modal's own click listener is permanent. It is modelled through `HandleClickOutside`, not as a separate delivery method.
- Sibling navigation runs over the gallery's element children. The model has one fixed sequence of children and takes the `img` elements to be those children. Arbitrary DOM trees are not modelled.
- Listener registration is a set. The DOM ignores a second `addEventListener` with the same listener, so the set is exact, and `OpenModal` also proves the guard adds nothing when the modal is already open.
- `GalleryModal.Gallery.ShowNextImage` and `ShowPrevImage` require a current image. In the code they would dereference `undefined` without one. They can only run through listeners attached by `ShowImage`, which sets the current image first.
