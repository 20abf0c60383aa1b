/**
 The remote `inventory` collection as the page sees it: a finite map from a
 document id (the item name) to the document's `quantity` field, read and
 written through the three single-document calls the page uses.
 */
module Firestore {

  /** A collection: document id to the value of its `quantity` field. */
  type Collection = map<string, int>

  /** What `getDoc` reports about one document: it exists with a quantity, or it does not. */
  datatype Lookup = Present(quantity: int) | Absent

  /** `getDoc(doc(inventory, id))`. */
  function GetDoc(c: Collection, id: string): Lookup
  {
    if id in c then Present(c[id]) else Absent
  }

  /** `setDoc(doc(inventory, id), { quantity: q })`: creates or fully overwrites the document. */
  function SetDoc(c: Collection, id: string, q: int): Collection
  {
    c[id := q]
  }

  /** `deleteDoc(doc(inventory, id))`: removes the document; nothing happens if it is absent. */
  function DeleteDoc(c: Collection, id: string): Collection
  {
    c - {id}
  }

  /** The counter view of a collection: an absent document counts as quantity 0. */
  function Quantity(c: Collection, id: string): int
  {
    if id in c then c[id] else 0
  }

  /** The collection's invariant: no document holds a quantity below 1. */
  ghost predicate AllPositive(c: Collection)
  {
    forall id :: id in c ==> c[id] >= 1
  }

  /**
   Under the invariant the counter view loses nothing: two collections are
   equal exactly when every name has the same quantity in both.
   */
  lemma CounterViewIsFaithful(c: Collection, d: Collection)
    requires AllPositive(c) && AllPositive(d)
    ensures c == d <==> forall id :: Quantity(c, id) == Quantity(d, id)
  {
    if forall id :: Quantity(c, id) == Quantity(d, id) {
      forall id | id in c ensures id in d && d[id] == c[id] {
        assert Quantity(c, id) == c[id] >= 1;
        assert Quantity(d, id) >= 1;
      }
      forall id | id in d ensures id in c {
        assert Quantity(d, id) == d[id] >= 1;
        assert Quantity(c, id) >= 1;
      }
      assert c.Keys == d.Keys;
    }
  }

  /** Without the invariant the counter view is not faithful: a stored 0 reads like an absent document. */
  lemma CounterViewNeedsInvariant()
    ensures var c, d := map["x" := 0], map[]; c != d && forall id :: Quantity(c, id) == Quantity(d, id)
  {
    var c: Collection, d: Collection := map["x" := 0], map[];
    assert "x" in c && "x" !in d;
  }
}
