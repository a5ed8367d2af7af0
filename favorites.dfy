/** The favorites hook (src/hooks/useFavorites.ts): a list of saved products,
    deduplicated by product id. */
module FavoritesList {
  import opened Common

  datatype FavoriteItem = FavoriteItem(
    id: string,
    name: string,
    nameAr: string,
    price: int,
    discountPrice: Option<int>,
    image: string,
    rating: Option<int>)

  /** `items.some((item) => item.id === id)`, scanned from the front. */
  predicate Contains(items: seq<FavoriteItem>, id: string)
    ensures Contains(items, id) <==> exists i :: 0 <= i < |items| && items[i].id == id
  {
    items != [] && (items[0].id == id || Contains(items[1..], id))
  }

  ghost predicate IdsUnique(items: seq<FavoriteItem>) {
    forall i, j :: 0 <= i < j < |items| ==> items[i].id != items[j].id
  }

  /** `item.id !== id` as a filter predicate. */
  function IdIsNot(id: string): FavoriteItem -> bool {
    (item: FavoriteItem) => item.id != id
  }

  /** The ids of the saved entries. */
  ghost function IdSet(items: seq<FavoriteItem>): (ids: set<string>)
    ensures forall id :: id in ids <==> Contains(items, id)
  {
    if items == [] then {} else {items[0].id} + IdSet(items[1..])
  }

  /** The list `addItem` produces: unchanged when the id is present, otherwise the item appended. */
  function Added(items: seq<FavoriteItem>, item: FavoriteItem): (r: seq<FavoriteItem>)
    ensures Contains(r, item.id)
    ensures items <= r && |r| <= |items| + 1
    ensures Contains(items, item.id) ==> r == items
    ensures !Contains(items, item.id) ==> r == items + [item]
  {
    if Contains(items, item.id) then items
    else
      var appended := items + [item];
      assert appended[|items|].id == item.id;
      appended
  }

  /** The list `removeItem` produces: every entry without the id, and only those. */
  function Removed(items: seq<FavoriteItem>, id: string): (r: seq<FavoriteItem>)
    ensures !Contains(r, id)
    ensures forall x :: x in r <==> x in items && x.id != id
  {
    var kept := Filter(items, IdIsNot(id));
    assert forall i :: 0 <= i < |kept| ==> kept[i] in kept;
    kept
  }

  /** The list `toggleItem` produces: the id removed when present, the item appended when absent. */
  function Toggled(items: seq<FavoriteItem>, item: FavoriteItem): (r: seq<FavoriteItem>)
    ensures Contains(r, item.id) <==> !Contains(items, item.id)
    ensures !Contains(items, item.id) ==> r == items + [item]
  {
    if Contains(items, item.id) then Removed(items, item.id)
    else
      var appended := items + [item];
      assert appended[|items|].id == item.id;
      appended
  }

  class Favorites {
    var items: seq<FavoriteItem>

    /** No product is saved twice. */
    ghost predicate Valid()
      reads this
    {
      IdsUnique(items)
    }

    constructor ()
      ensures Valid() && items == []
    {
      items := [];
    }

    method AddItem(item: FavoriteItem)
      requires Valid()
      modifies this
      ensures Valid()
      ensures items == Added(old(items), item)
      ensures IsFavorite(item.id)
    {
      AddedKeepsUnique(items, item);
      if Contains(items, item.id) {
        return;
      }
      items := items + [item];
      assert items[|items| - 1].id == item.id;
    }

    method RemoveItem(id: string)
      requires Valid()
      modifies this
      ensures Valid()
      ensures items == Removed(old(items), id)
      ensures !IsFavorite(id)
    {
      RemovedKeepsUnique(items, id);
      RemovedDropsId(items, id);
      items := Filter(items, IdIsNot(id));
    }

    method ToggleItem(item: FavoriteItem)
      requires Valid()
      modifies this
      ensures Valid()
      ensures items == Toggled(old(items), item)
      ensures IsFavorite(item.id) == !old(IsFavorite(item.id))
    {
      ToggleKeepsUnique(items, item);
      ToggleFlips(items, item);
      var present := Contains(items, item.id);
      if present {
        items := Filter(items, IdIsNot(item.id));
        return;
      }
      items := items + [item];
    }

    /** Membership by id. */
    function IsFavorite(id: string): (b: bool)
      reads this
      ensures b <==> exists i :: 0 <= i < |items| && items[i].id == id
    {
      Contains(items, id)
    }

    /** `items.length`: with unique ids, the number of distinct saved products. */
    function ItemCount(): (n: nat)
      reads this
      ensures Valid() ==> n == |IdSet(items)|
    {
      IdSetSize(items);
      |items|
    }
  }

  /** Removing an id leaves no entry with that id. */
  lemma RemovedDropsId(items: seq<FavoriteItem>, id: string)
    ensures !Contains(Removed(items, id), id)
    ensures forall x :: x in Removed(items, id) <==> x in items && x.id != id
  {
    var r := Removed(items, id);
    forall i | 0 <= i < |r|
      ensures r[i].id != id
    {
      assert r[i] in r;
    }
  }

  /** Removing keeps the remaining entries in order: it distributes over concatenation. */
  lemma RemoveKeepsOrder(a: seq<FavoriteItem>, b: seq<FavoriteItem>, id: string)
    ensures Removed(a + b, id) == Removed(a, id) + Removed(b, id)
  {
    FilterAppend(a, b, IdIsNot(id));
  }

  /** Removing an id no entry carries is a no-op. */
  lemma RemoveAbsentIsNoOp(items: seq<FavoriteItem>, id: string)
    requires !Contains(items, id)
    ensures Removed(items, id) == items
  {
    FilterKeepsAll(items, IdIsNot(id));
  }

  lemma {:induction false} RemovedKeepsUnique(items: seq<FavoriteItem>, id: string)
    requires IdsUnique(items)
    ensures IdsUnique(Removed(items, id))
  {
    if items != [] {
      RemovedKeepsUnique(items[1..], id);
      var rest := Removed(items[1..], id);
      forall x | x in rest
        ensures x.id != items[0].id
      {
        var j :| 0 <= j < |items[1..]| && items[1..][j] == x;
        assert items[j + 1] == x;
      }
    }
  }

  /** With unique ids, the list has one entry per distinct id. */
  lemma {:induction false} IdSetSize(items: seq<FavoriteItem>)
    ensures IdsUnique(items) ==> |IdSet(items)| == |items|
  {
    if items != [] && IdsUnique(items) {
      IdSetSize(items[1..]);
      assert IdsUnique(items[1..]);
      forall j | 0 <= j < |items[1..]|
        ensures items[1..][j].id != items[0].id
      {
        assert items[1..][j] == items[j + 1];
      }
    }
  }

  /** With unique ids, removing a saved id drops exactly one entry; removing an absent one drops none. */
  lemma {:induction false} RemovedCount(items: seq<FavoriteItem>, id: string)
    requires IdsUnique(items)
    ensures |Removed(items, id)| == if Contains(items, id) then |items| - 1 else |items|
  {
    if items != [] {
      RemovedCount(items[1..], id);
      if items[0].id == id {
        forall j | 0 <= j < |items[1..]|
          ensures items[1..][j].id != id
        {
          assert items[1..][j] == items[j + 1];
        }
      }
    }
  }

  /** The favourites count goes down by one when a toggle removes and up by one when it adds. */
  lemma ToggledCount(items: seq<FavoriteItem>, item: FavoriteItem)
    requires IdsUnique(items)
    ensures |Toggled(items, item)| == if Contains(items, item.id) then |items| - 1 else |items| + 1
  {
    RemovedCount(items, item.id);
  }

  lemma AddedKeepsUnique(items: seq<FavoriteItem>, item: FavoriteItem)
    requires IdsUnique(items)
    ensures IdsUnique(Added(items, item))
  {
  }

  /** Adding is idempotent: a second add of the same id changes nothing. */
  lemma AddIdempotent(items: seq<FavoriteItem>, item: FavoriteItem, again: FavoriteItem)
    requires again.id == item.id
    ensures Added(Added(items, item), again) == Added(items, item)
  {
    var r := Added(items, item);
    if !Contains(items, item.id) {
      assert r[|items|].id == item.id;
    }
  }

  lemma ToggleKeepsUnique(items: seq<FavoriteItem>, item: FavoriteItem)
    requires IdsUnique(items)
    ensures IdsUnique(Toggled(items, item))
  {
    if Contains(items, item.id) {
      RemovedKeepsUnique(items, item.id);
    }
  }

  /** Toggling flips membership of the item's id. */
  lemma ToggleFlips(items: seq<FavoriteItem>, item: FavoriteItem)
    ensures Contains(Toggled(items, item), item.id) == !Contains(items, item.id)
  {
    if Contains(items, item.id) {
      RemovedDropsId(items, item.id);
    } else {
      var r := Toggled(items, item);
      assert r[|items|].id == item.id;
    }
  }

  /** Toggling an absent item twice restores the original list. */
  lemma ToggleTwiceAbsent(items: seq<FavoriteItem>, item: FavoriteItem)
    requires !Contains(items, item.id)
    ensures Toggled(Toggled(items, item), item) == items
  {
    var once := items + [item];
    ToggleFlips(items, item);
    calc {
      Toggled(once, item);
      Removed(items + [item], item.id);
      { RemoveKeepsOrder(items, [item], item.id); }
      Removed(items, item.id) + Removed([item], item.id);
      { RemoveAbsentIsNoOp(items, item.id); }
      items + Removed([item], item.id);
    }
    assert Removed([item], item.id) == [];
  }

  /** Toggling a present item twice moves it to the end, carrying the toggled item's data. */
  lemma ToggleTwicePresent(items: seq<FavoriteItem>, item: FavoriteItem)
    requires Contains(items, item.id)
    ensures Toggled(Toggled(items, item), item) == Removed(items, item.id) + [item]
  {
    RemovedDropsId(items, item.id);
  }
}
