/**
 The `Home` page component: four handlers that each read one document of the
 `inventory` collection and then, if it exists, write or delete it (`addItem`
 also writes when it does not), and the refresh that
 re-reads the whole collection into the page's `inventory` state.
 */
module Page {
  import opened Firestore

  /** One row of the `inventory` state: the document id and its quantity. */
  datatype Item = Item(name: string, quantity: int)

  /** No name occurs twice in a list of rows. */
  ghost predicate DistinctNames(list: seq<Item>)
  {
    forall i, j :: 0 <= i < j < |list| ==> list[i].name != list[j].name
  }

  /**
   `list` is one enumeration of `c`: one row per document, each with the
   document's quantity, in no particular order.
   */
  ghost predicate IsSnapshotOf(list: seq<Item>, c: Collection)
  {
    && DistinctNames(list)
    && (forall i :: 0 <= i < |list| ==> list[i].name in c && list[i].quantity == c[list[i].name])
    && (forall id :: id in c ==> Item(id, c[id]) in list)
  }

  // ---------------------------------------------------------------------------
  // The refresh: `getDocs` followed by the `forEach` that pushes one row per
  // document. The model leaves the order of the documents open, so the next
  // document is picked arbitrarily.
  // ---------------------------------------------------------------------------

  method CollectDocs(docs: Collection) returns (inventoryList: seq<Item>)
    ensures IsSnapshotOf(inventoryList, docs)
    ensures |inventoryList| == |docs|
  {
    inventoryList := [];
    var pending := docs.Keys;
    while pending != {}
      invariant pending <= docs.Keys
      invariant |inventoryList| + |pending| == |docs|
      invariant DistinctNames(inventoryList)
      invariant forall i :: 0 <= i < |inventoryList| ==>
        inventoryList[i].name in docs && inventoryList[i].name !in pending &&
        inventoryList[i].quantity == docs[inventoryList[i].name]
      invariant forall id :: id in docs && id !in pending ==> Item(id, docs[id]) in inventoryList
      decreases pending
    {
      var id :| id in pending;
      inventoryList := inventoryList + [Item(id, docs[id])];
      pending := pending - {id};
    }
  }

  /** A snapshot has exactly as many rows as the collection has documents. */
  lemma {:induction false} SnapshotSize(list: seq<Item>, c: Collection)
    requires IsSnapshotOf(list, c)
    ensures |list| == |c|
    decreases |list|
  {
    if list == [] {
      assert c.Keys == {};
    } else {
      var last := list[|list| - 1];
      var rest := list[..|list| - 1];
      var c' := c - {last.name};
      forall id | id in c' ensures Item(id, c'[id]) in rest {
        var i :| 0 <= i < |list| && list[i] == Item(id, c[id]);
        assert i != |list| - 1;
        assert rest[i] == list[i];
      }
      assert IsSnapshotOf(rest, c');
      SnapshotSize(rest, c');
      assert c'.Keys == c.Keys - {last.name};
    }
  }

  /** In a list without repeated names every row occurs at most once. */
  lemma {:induction false} DistinctCount(s: seq<Item>, x: Item)
    requires DistinctNames(s)
    ensures multiset(s)[x] == if x in s then 1 else 0
  {
    if s != [] {
      var rest := s[1..];
      assert s == [s[0]] + rest;
      assert forall j :: 0 <= j < |rest| ==> rest[j] == s[j + 1];
      assert DistinctNames(rest);
      DistinctCount(rest, x);
      if x == s[0] {
        assert x !in rest;
      }
    }
  }

  /** Any two snapshots of one collection are permutations of each other. */
  lemma SnapshotsArePermutations(a: seq<Item>, b: seq<Item>, c: Collection)
    requires IsSnapshotOf(a, c) && IsSnapshotOf(b, c)
    ensures multiset(a) == multiset(b)
  {
    forall x ensures multiset(a)[x] == multiset(b)[x] {
      DistinctCount(a, x);
      DistinctCount(b, x);
      assert x in a <==> x.name in c && c[x.name] == x.quantity;
      assert x in b <==> x.name in c && c[x.name] == x.quantity;
    }
  }

  /** A row that occurs at two positions is counted at least twice. */
  lemma RepeatedRowCount(s: seq<Item>, i: nat, j: nat)
    requires i < j < |s| && s[i] == s[j]
    ensures multiset(s)[s[i]] >= 2
  {
    assert s == s[..j] + s[j..];
    assert s[i] == s[..j][i];
    assert s[j] == s[j..][0];
  }

  /** Conversely, every permutation of a snapshot is a snapshot of the same collection. */
  lemma PermutedSnapshotIsSnapshot(a: seq<Item>, b: seq<Item>, c: Collection)
    requires IsSnapshotOf(a, c) && multiset(a) == multiset(b)
    ensures IsSnapshotOf(b, c)
  {
    assert forall x :: x in b <==> x in a by {
      forall x ensures x in b <==> x in a {
        assert x in b <==> x in multiset(b);
        assert x in a <==> x in multiset(a);
      }
    }
    forall i | 0 <= i < |b| ensures b[i].name in c && b[i].quantity == c[b[i].name] {
      assert b[i] in a;
      var k :| 0 <= k < |a| && a[k] == b[i];
    }
    forall i, j | 0 <= i < j < |b| ensures b[i].name != b[j].name {
      if b[i].name == b[j].name {
        assert b[i] in a && b[j] in a;
        assert b[i] == b[j];
        RepeatedRowCount(b, i, j);
        DistinctCount(a, b[i]);
        assert false;
      }
    }
  }

  /** The only snapshot of a one-document collection is its one row. */
  lemma OneDocumentSnapshot(list: seq<Item>, id: string, q: int)
    requires IsSnapshotOf(list, map[id := q])
    ensures list == [Item(id, q)]
  {
    SnapshotSize(list, map[id := q]);
    assert map[id := q].Keys == {id};
  }

  /** A snapshot of a two-document collection holds its two rows, in either order. */
  lemma TwoDocumentSnapshot(list: seq<Item>, a: string, qa: int, b: string, qb: int)
    requires a != b && IsSnapshotOf(list, map[a := qa, b := qb])
    ensures multiset(list) == multiset{Item(a, qa), Item(b, qb)}
  {
    var c := map[a := qa, b := qb];
    var expected := [Item(a, qa), Item(b, qb)];
    assert IsSnapshotOf(expected, c);
    SnapshotsArePermutations(list, expected, c);
  }

  /** A snapshot pins down the collection it was read from. */
  lemma SnapshotDeterminesCollection(list: seq<Item>, c: Collection, d: Collection)
    requires IsSnapshotOf(list, c) && IsSnapshotOf(list, d)
    ensures c == d
  {
  }

  // ---------------------------------------------------------------------------
  // What each handler does to the collection, as a function of the collection
  // it reads. The handlers below perform these steps on the page's state.
  // ---------------------------------------------------------------------------

  /** `addItem`: present documents go up by one, absent ones are created at 1. */
  function AddItemEffect(c: Collection, item: string): (r: Collection)
    ensures item in r && Quantity(r, item) == Quantity(c, item) + 1
    ensures r - {item} == c - {item}
  {
    match GetDoc(c, item)
    case Present(quantity) => SetDoc(c, item, quantity + 1)
    case Absent => SetDoc(c, item, 1)
  }

  /** `removeItem`: a document at exactly 1 is deleted, any other goes down by one. */
  function RemoveItemEffect(c: Collection, item: string): (r: Collection)
    ensures item !in c ==> r == c
    ensures item in c && c[item] == 1 ==> item !in r
    ensures item in c && c[item] != 1 ==> item in r && r[item] == c[item] - 1
    ensures r - {item} == c - {item}
  {
    match GetDoc(c, item)
    case Present(quantity) =>
      if quantity == 1 then DeleteDoc(c, item) else SetDoc(c, item, quantity - 1)
    case Absent => c
  }

  /** `increaseQuantity`: a present document goes up by one; an absent one is not created. */
  function IncreaseQuantityEffect(c: Collection, item: string): (r: Collection)
    ensures item !in c ==> r == c
    ensures item in c ==> item in r && r[item] == c[item] + 1
    ensures r - {item} == c - {item}
  {
    match GetDoc(c, item)
    case Present(quantity) => SetDoc(c, item, quantity + 1)
    case Absent => c
  }

  /** `decreaseQuantity`: a document above 1 goes down by one, any other is deleted. */
  function DecreaseQuantityEffect(c: Collection, item: string): (r: Collection)
    ensures item !in c ==> r == c
    ensures item in c && c[item] > 1 ==> item in r && r[item] == c[item] - 1
    ensures item in c && c[item] <= 1 ==> item !in r
    ensures r - {item} == c - {item}
  {
    match GetDoc(c, item)
    case Present(quantity) =>
      if quantity > 1 then SetDoc(c, item, quantity - 1) else DeleteDoc(c, item)
    case Absent => c
  }

  // ---------------------------------------------------------------------------
  // Properties of the handlers' effects.
  // ---------------------------------------------------------------------------

  /** Every handler keeps every stored quantity at 1 or more. */
  lemma EffectsKeepPositive(c: Collection, item: string)
    requires AllPositive(c)
    ensures AllPositive(AddItemEffect(c, item))
    ensures AllPositive(RemoveItemEffect(c, item))
    ensures AllPositive(IncreaseQuantityEffect(c, item))
    ensures AllPositive(DecreaseQuantityEffect(c, item))
  {
  }

  /** `decreaseQuantity` never leaves the item below 1, whatever was stored. */
  lemma DecreaseNeverLeavesItemBelowOne(c: Collection, item: string)
    ensures var r := DecreaseQuantityEffect(c, item); item in r ==> r[item] >= 1
  {
  }

  /**
   `removeItem` tests `quantity === 1` where `decreaseQuantity` tests
   `quantity > 1`: they agree exactly when the item is absent or stored at 1
   or more.
   */
  lemma RemoveMatchesDecreaseExactly(c: Collection, item: string)
    ensures RemoveItemEffect(c, item) == DecreaseQuantityEffect(c, item) <==> item !in c || c[item] >= 1
  {
  }

  /** Under the collection's invariant `removeItem` and `decreaseQuantity` are the same operation. */
  lemma RemoveMatchesDecrease(c: Collection, item: string)
    requires AllPositive(c)
    ensures RemoveItemEffect(c, item) == DecreaseQuantityEffect(c, item)
  {
  }

  /** `decreaseQuantity` undoes `addItem` on an item that is absent or stored at 1 or more. */
  lemma DecreaseUndoesAdd(c: Collection, item: string)
    requires item !in c || c[item] >= 1
    ensures DecreaseQuantityEffect(AddItemEffect(c, item), item) == c
  {
  }

  /** `addItem` undoes `decreaseQuantity` on an item that is stored at 1 or more. */
  lemma AddUndoesDecrease(c: Collection, item: string)
    requires item in c && c[item] >= 1
    ensures AddItemEffect(DecreaseQuantityEffect(c, item), item) == c
  {
  }

  /** `decreaseQuantity` undoes `increaseQuantity` on an item that is absent or stored at 1 or more. */
  lemma DecreaseUndoesIncrease(c: Collection, item: string)
    requires item !in c || c[item] >= 1
    ensures DecreaseQuantityEffect(IncreaseQuantityEffect(c, item), item) == c
  {
  }

  // ---------------------------------------------------------------------------
  // Sessions: one handler call after another, each finishing before the next.
  // ---------------------------------------------------------------------------

  /** A call of one of the four handlers, with the item name it is given. */
  datatype Op =
    | Add(item: string)
    | Remove(item: string)
    | Increase(item: string)
    | Decrease(item: string)

  function Apply(c: Collection, op: Op): Collection
  {
    match op
    case Add(item) => AddItemEffect(c, item)
    case Remove(item) => RemoveItemEffect(c, item)
    case Increase(item) => IncreaseQuantityEffect(c, item)
    case Decrease(item) => DecreaseQuantityEffect(c, item)
  }

  /** The collection after the calls in `ops`, first call first. */
  function Run(c: Collection, ops: seq<Op>): Collection
    decreases |ops|
  {
    if ops == [] then c else Run(Apply(c, ops[0]), ops[1..])
  }

  /** Any session keeps every stored quantity at 1 or more. */
  lemma {:induction false} RunKeepsPositive(c: Collection, ops: seq<Op>)
    requires AllPositive(c)
    ensures AllPositive(Run(c, ops))
    decreases |ops|
  {
    if ops != [] {
      EffectsKeepPositive(c, ops[0].item);
      RunKeepsPositive(Apply(c, ops[0]), ops[1..]);
    }
  }

  /** `k` consecutive `addItem(item)` calls raise the item's quantity by `k` and touch nothing else. */
  lemma {:induction false} AddsAccumulate(c: Collection, item: string, k: nat)
    ensures var r := Run(c, seq(k, _ => Add(item)));
      Quantity(r, item) == Quantity(c, item) + k && r - {item} == c - {item} && (k > 0 ==> item in r)
    decreases k
  {
    var ops := seq(k, _ => Add(item));
    if k > 0 {
      assert ops[1..] == seq(k - 1, _ => Add(item));
      AddsAccumulate(AddItemEffect(c, item), item, k - 1);
    }
  }

  /** Starting from an absent name, `k` consecutive `addItem` calls leave quantity `k`. */
  lemma AddsFromAbsent(c: Collection, item: string, k: nat)
    requires item !in c
    ensures Quantity(Run(c, seq(k, _ => Add(item))), item) == k
  {
    AddsAccumulate(c, item, k);
  }

  /** The session with every `removeItem` call replaced by a `decreaseQuantity` call. */
  function RemovesAsDecreases(ops: seq<Op>): (r: seq<Op>)
    ensures |r| == |ops|
  {
    if ops == [] then []
    else [if ops[0].Remove? then Decrease(ops[0].item) else ops[0]] + RemovesAsDecreases(ops[1..])
  }

  /** From a store that keeps the invariant, a session cannot tell `removeItem` from `decreaseQuantity`. */
  lemma {:induction false} RemovesAreDecreases(c: Collection, ops: seq<Op>)
    requires AllPositive(c)
    ensures Run(c, ops) == Run(c, RemovesAsDecreases(ops))
    decreases |ops|
  {
    if ops != [] {
      var ops' := RemovesAsDecreases(ops);
      assert ops'[1..] == RemovesAsDecreases(ops[1..]);
      RemoveMatchesDecrease(c, ops[0].item);
      assert Apply(c, ops[0]) == Apply(c, ops'[0]);
      EffectsKeepPositive(c, ops[0].item);
      RemovesAreDecreases(Apply(c, ops[0]), ops[1..]);
    }
  }

  // ---------------------------------------------------------------------------
  // The page's state and its handlers.
  // ---------------------------------------------------------------------------

  class Home {
    /** The remote `inventory` collection. */
    var store: Collection
    /** The page's `inventory` state: the rows the last refresh read. */
    var snapshot: seq<Item>

    /** The collection keeps its invariant and the page shows it. */
    ghost predicate Valid()
      reads this
    {
      AllPositive(store) && IsSnapshotOf(snapshot, store)
    }

    /** The page mounts with an empty `inventory` state over a collection that already exists. */
    constructor (remote: Collection)
      ensures store == remote && snapshot == []
    {
      store := remote;
      snapshot := [];
    }

    /** `updateInventory`: re-reads every document into the page's `inventory` state. */
    method UpdateInventory()
      modifies this
      ensures store == old(store)
      ensures IsSnapshotOf(snapshot, store) && |snapshot| == |store|
      ensures AllPositive(store) ==> Valid()
    {
      var inventoryList := CollectDocs(store);
      snapshot := inventoryList;
    }

    method AddItem(item: string)
      modifies this
      ensures item in store && Quantity(store, item) == Quantity(old(store), item) + 1
      ensures store - {item} == old(store) - {item}
      ensures store == AddItemEffect(old(store), item)
      ensures IsSnapshotOf(snapshot, store)
      ensures AllPositive(old(store)) ==> Valid()
    {
      ghost var before := store;
      var docSnap := GetDoc(store, item);
      match docSnap {
        case Present(quantity) =>
          store := SetDoc(store, item, quantity + 1);
        case Absent =>
          store := SetDoc(store, item, 1);
      }
      UpdateInventory();
      if AllPositive(before) {
        EffectsKeepPositive(before, item);
      }
    }

    method RemoveItem(item: string)
      modifies this
      ensures item !in old(store) ==> store == old(store)
      ensures item in old(store) && old(store)[item] == 1 ==> item !in store
      ensures item in old(store) && old(store)[item] != 1 ==> item in store && store[item] == old(store)[item] - 1
      ensures store - {item} == old(store) - {item}
      ensures store == RemoveItemEffect(old(store), item)
      ensures IsSnapshotOf(snapshot, store)
      ensures AllPositive(old(store)) ==> Valid()
    {
      ghost var before := store;
      var docSnap := GetDoc(store, item);
      match docSnap {
        case Present(quantity) =>
          if quantity == 1 {
            store := DeleteDoc(store, item);
          } else {
            store := SetDoc(store, item, quantity - 1);
          }
        case Absent =>
      }
      UpdateInventory();
      if AllPositive(before) {
        EffectsKeepPositive(before, item);
      }
    }

    method IncreaseQuantity(item: string)
      modifies this
      ensures item !in old(store) ==> store == old(store)
      ensures item in old(store) ==> item in store && store[item] == old(store)[item] + 1
      ensures store - {item} == old(store) - {item}
      ensures store == IncreaseQuantityEffect(old(store), item)
      ensures IsSnapshotOf(snapshot, store)
      ensures AllPositive(old(store)) ==> Valid()
    {
      ghost var before := store;
      var docSnap := GetDoc(store, item);
      match docSnap {
        case Present(quantity) =>
          store := SetDoc(store, item, quantity + 1);
        case Absent =>
      }
      UpdateInventory();
      if AllPositive(before) {
        EffectsKeepPositive(before, item);
      }
    }

    method DecreaseQuantity(item: string)
      modifies this
      ensures item !in old(store) ==> store == old(store)
      ensures item in old(store) && old(store)[item] > 1 ==> item in store && store[item] == old(store)[item] - 1
      ensures item in old(store) && old(store)[item] <= 1 ==> item !in store
      ensures store - {item} == old(store) - {item}
      ensures store == DecreaseQuantityEffect(old(store), item)
      ensures IsSnapshotOf(snapshot, store)
      ensures AllPositive(old(store)) ==> Valid()
    {
      ghost var before := store;
      var docSnap := GetDoc(store, item);
      match docSnap {
        case Present(quantity) =>
          if quantity > 1 {
            store := SetDoc(store, item, quantity - 1);
          } else {
            store := DeleteDoc(store, item);
          }
        case Absent =>
      }
      UpdateInventory();
      if AllPositive(before) {
        EffectsKeepPositive(before, item);
      }
    }
  }

  /** The collection after each step of the client session below, worked out on the handlers' effects. */
  lemma SessionSteps(apple: string, banana: string)
    requires apple != banana
    ensures AddItemEffect(map[], apple) == map[apple := 1]
    ensures AddItemEffect(map[apple := 1], apple) == map[apple := 2]
    ensures AddItemEffect(map[apple := 2], banana) == map[apple := 2, banana := 1]
    ensures DecreaseQuantityEffect(map[apple := 2, banana := 1], apple) == map[apple := 1, banana := 1]
    ensures RemoveItemEffect(map[apple := 1, banana := 1], apple) == map[banana := 1]
  {
  }

  /** A client session on an empty collection: what a caller can conclude from the handlers' contracts alone. */
  method Scenario()
  {
    var apple, banana := "apple", "banana";
    assert apple != banana by { assert apple[0] != banana[0]; }
    SessionSteps(apple, banana);
    var page := new Home(map[]);
    page.UpdateInventory();
    assert page.snapshot == [] by {
      SnapshotSize(page.snapshot, page.store);
    }
    page.AddItem(apple);
    page.AddItem(apple);
    page.AddItem(banana);
    assert page.store == map[apple := 2, banana := 1];
    TwoDocumentSnapshot(page.snapshot, apple, 2, banana, 1);
    assert multiset(page.snapshot) == multiset{Item(apple, 2), Item(banana, 1)};
    page.DecreaseQuantity(apple);
    page.RemoveItem(apple);
    assert page.store == map[banana := 1];
    OneDocumentSnapshot(page.snapshot, banana, 1);
    assert page.snapshot == [Item(banana, 1)];
  }
}
