# Inventory page: a Dafny model of its mutation handlers

The `Home` page of this inventory tracker keeps its data in a remote
`inventory` collection. Each document in it is keyed by an item name and holds
one field, `quantity`. The page has four handlers. Each one reads one document
and then, if it exists, writes or deletes it (`addItem` writes in either
case):

- `addItem` creates an absent item at 1, or adds 1 to a present one.
- `removeItem` deletes an item stored at exactly 1, and otherwise subtracts 1.
- `increaseQuantity` adds 1 to a present item and ignores an absent one.
- `decreaseQuantity` subtracts 1 from an item above 1, and otherwise deletes it.

Every handler ends with `updateInventory`. That call re-reads every document
and copies them, one row per document, into the page's `inventory` state.

The model has two modules:

- `Firestore` (firestore.dfy) holds the collection as a `map<string, int>` from
  document id to quantity. The calls `getDoc`, `setDoc` and `deleteDoc` become
  a lookup (`Present(quantity)` or `Absent`), a map update and a key removal.
  `Quantity` is the counter view: an absent document counts as 0.
  `AllPositive` is the collection's invariant: every stored quantity is at
  least 1.
- `Page` (page.dfy) holds the `Home` class. Its field `store` stands for the
  collection and its field `snapshot` for the `inventory` state. Each handler
  is a method that does the same read and the same write or delete as the
  source, then calls `UpdateInventory`. The refresh loop lives in
  `CollectDocs`. The model leaves the order of the documents open, so the
  snapshot is specified up to permutation. `AddItemEffect`, `RemoveItemEffect`,
  `IncreaseQuantityEffect` and `DecreaseQuantityEffect` give each handler's
  effect on the collection as a function. The handler methods are proved equal
  to these functions. The lemmas about sessions (`Op`, `Apply`, `Run`) are
  stated over the same functions.

`IsSnapshotOf(list, c)` says: no name repeats, every row carries its
document's quantity, and every document has a row. The snapshot lemmas show
that this describes the collection exactly. Any two snapshots of one
collection are permutations of each other. Any permutation of a snapshot is
again a snapshot. A snapshot determines its collection.

The subtle point is the two floor tests. `removeItem` tests `quantity === 1`
(page.js:70). `decreaseQuantity` tests `quantity > 1` (page.js:96).
`RemoveMatchesDecreaseExactly` shows the two handlers give the same collection
exactly when the item is absent or stored at 1 or more. Under the invariant
they are the same operation, in one call (`RemoveMatchesDecrease`) and in
whole sessions (`RemovesAreDecreases`). On a stored 0 or a negative value,
`removeItem` writes a negative quantity, while `decreaseQuantity` deletes the
item (`DecreaseNeverLeavesItemBelowOne`).

Despite its name, `removeItem` does not delete unconditionally. It writes one
less and deletes only at exactly 1 (page.js:70-73).

`Page.Scenario` is a client session on an empty collection. Only contracts
(of the handlers and of the snapshot and session lemmas) are used in it, no
method bodies. Two `addItem("apple")` calls and one
`addItem("banana")` call leave apple at 2 and banana at 1, and the snapshot is
a permutation of those two rows. A `decreaseQuantity("apple")` then leaves
apple at 1. A `removeItem("apple")` leaves exactly the banana row.

## Model

| member | source | states |
|---|---|---|
| `Page.CollectDocs` | page.js:38-43 | the rows built from the documents are a snapshot of them: one row per document carrying its quantity, no name twice, as many rows as documents, in an order left open |
| `Page.Home.UpdateInventory` | page.js:37-45 | the collection is left unchanged and the `inventory` state becomes a snapshot of it, with one row per document; over a collection that keeps the invariant the refresh establishes `Valid()`, as the mount refresh (page.js:47-49) does |
| `Page.Home.constructor` | page.js:32 | the page starts with an empty `inventory` state over a collection that already exists |
| `Page.SnapshotSize` | page.js:40-44 | any snapshot has exactly as many rows as the collection has documents |
| `Page.SnapshotsArePermutations` | page.js:39-43 | two snapshots of the same collection hold the same rows with the same multiplicities, so only the enumeration order can differ |
| `Page.PermutedSnapshotIsSnapshot` | page.js:39-43 | every reordering of a snapshot is again a snapshot of the same collection, so the snapshot is determined exactly up to permutation |
| `Page.OneDocumentSnapshot` | page.js:39-44 | the only snapshot of a collection with one document is that document's single row |
| `Page.TwoDocumentSnapshot` | page.js:39-44 | a snapshot of a collection with two documents holds exactly their two rows, in either order |
| `Page.SnapshotDeterminesCollection` | page.js:41-44 | a list of rows is a snapshot of at most one collection, so the page's state reflects the collection without loss |
| `Page.AddItemEffect` | page.js:52-60 | after `addItem` the item is present and its count is one more than before (an absent item counts as 0, so it is created at 1); every other document is unchanged |
| `Page.RemoveItemEffect` | page.js:65-75 | `removeItem` leaves the collection unchanged for an absent item, deletes an item stored at exactly 1, writes one less for any other stored value, and changes no other document |
| `Page.IncreaseQuantityEffect` | page.js:80-86 | `increaseQuantity` never creates an item: for an absent one the collection is unchanged; a present one goes up by one; no other document changes |
| `Page.DecreaseQuantityEffect` | page.js:91-101 | `decreaseQuantity` leaves the collection unchanged for an absent item, writes one less for an item above 1, deletes an item at 1 or below, and changes no other document |
| `Page.Home.AddItem` | page.js:52-62 | the store changes as `addItem` prescribes and nowhere else, the refreshed state is a snapshot of the new store, and the invariant is kept |
| `Page.Home.RemoveItem` | page.js:65-77 | the store changes as `removeItem` prescribes (unchanged if absent, deleted at exactly 1, otherwise one less) and nowhere else, the refreshed state is a snapshot of the new store, and the invariant is kept |
| `Page.Home.IncreaseQuantity` | page.js:80-88 | the store is unchanged for an absent item and otherwise goes up by one at that item only, the refreshed state is a snapshot of the new store, and the invariant is kept |
| `Page.Home.DecreaseQuantity` | page.js:91-103 | the store is unchanged for an absent item, one less above 1, the item deleted at 1 or below, nothing else touched, the refreshed state is a snapshot of the new store, and the invariant is kept |
| `Page.EffectsKeepPositive` | page.js:52-101 | starting from a collection whose quantities are all at least 1, each of the four handlers leaves all quantities at least 1, so none writes 0 |
| `Page.DecreaseNeverLeavesItemBelowOne` | page.js:96-99 | whatever was stored, after `decreaseQuantity` the item is either gone or at 1 or more |
| `Page.RemoveMatchesDecreaseExactly` | page.js:70-99 | `removeItem` and `decreaseQuantity` produce the same collection if and only if the item is absent or stored at 1 or more |
| `Page.RemoveMatchesDecrease` | page.js:70-99 | under the invariant, `removeItem` and `decreaseQuantity` produce identical collections for every name |
| `Page.RemovesAreDecreases` | page.js:65-103 | from a collection that keeps the invariant, any session ends in the same collection when every `removeItem` call is replaced by `decreaseQuantity` |
| `Page.DecreaseUndoesAdd` | page.js:52-101 | on an item that is absent or stored at 1 or more, `decreaseQuantity` after `addItem` restores the collection |
| `Page.AddUndoesDecrease` | page.js:52-101 | on an item stored at 1 or more, `addItem` after `decreaseQuantity` restores the collection, including the item deleted at 1 |
| `Page.DecreaseUndoesIncrease` | page.js:80-101 | on an item that is absent or stored at 1 or more, `decreaseQuantity` after `increaseQuantity` restores the collection |
| `Page.SessionSteps` | page.js:52-101 | in the example session, the collection is: apple 1; then apple 2; then apple 2 and banana 1; after `decreaseQuantity` apple 1 and banana 1; after `removeItem` only banana 1 |
| `Page.RunKeepsPositive` | page.js:52-103 | any sequence of handler calls keeps every stored quantity at least 1 |
| `Page.AddsAccumulate` | page.js:52-62 | `k` consecutive `addItem` calls on one name raise its count by exactly `k` and leave every other document unchanged |
| `Page.AddsFromAbsent` | page.js:52-62 | from an absent name, `k` consecutive `addItem` calls leave quantity `k` |
| `Firestore.CounterViewIsFaithful` | page.js:94-100 | the collection encoding reads an absent document as 0, since the handlers delete a document at the floor (page.js:71, 99) instead of storing 0; when every stored quantity is at least 1, two collections are equal exactly when every name has the same count under that reading |
| `Firestore.CounterViewNeedsInvariant` | page.js:94-100 | reading absence as 0 is only sound because the handlers delete instead of storing 0: a collection with a document stored at 0 has the same counts as one without it, yet differs |

## Left out

- Rendering with React and MUI, the JSX layout and the `style` object (page.js:16-29, 109-229) are presentation. They are not modelled.
- The modal and input state `open` and `itemName`, with `handleOpen`, `handleClose` and the input's change handler (page.js:33-34, 106-107, 142-151), are not modelled. They only feed a name to the handlers.
- The mount effect (page.js:47-49) is one call of `updateInventory`. It is not a member of its own; `Page.Scenario` makes that call after construction.
- Firestore runs remotely, and its library is not part of this model. `getDoc`, `setDoc` and `deleteDoc` are modelled as map lookup, map update and key removal. `getDocs` is modelled as an enumeration of the map's keys in an order left open.
- A document id containing `/`, or an id Firestore refuses, is not modelled. Names are opaque strings, and the empty string is a valid name, because the code does not check names.
- Transport and permission failures are not modelled. The code does not handle them. A rejected call would end the handler before its refresh.
- Asynchronous interleaving is not modelled, so neither is the lost update when two overlapping read-modify-write calls touch one name. Each handler is one atomic, sequential step.
- `quantity` is modelled as an unbounded integer. JavaScript numbers are doubles, so precision above 2^53 is not modelled. Fractional quantities are not modelled either: with a stored 1.5, `decreaseQuantity` would write 0.5 (page.js:96-97) and break the at-least-1 invariant. Neither is a document whose `quantity` is missing or is not a number: a missing field makes `quantity + 1` NaN, and a string is concatenated (`"2" + 1` is `"21"`, page.js:57, 85).
- A row is built as `{ name: doc.id, ...doc.data() }` (page.js:42), so a document that also stores a `name` field would override the id in its row. The model's documents hold only `quantity`, so each row's name is its document id.
- The display capitalisation of names (page.js:195) is not modelled. It is presentation, and it depends on JavaScript's Unicode case mapping.
