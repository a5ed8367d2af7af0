/** The shopping cart hook (src/hooks/useCart.ts): a list of lines keyed by
    product, colour and size, with merge-or-append insertion and two totals. */
module ShoppingCart {
  import opened Common

  /** One cart line as stored. */
  datatype CartItem = CartItem(
    id: string,
    productId: string,
    name: string,
    nameAr: string,
    price: int,
    discountPrice: Option<int>,
    image: string,
    color: string,
    colorHex: string,
    size: string,
    quantity: int)

  /** A line as handed to `addItem`: every field but the id. */
  datatype NewLine = NewLine(
    productId: string,
    name: string,
    nameAr: string,
    price: int,
    discountPrice: Option<int>,
    image: string,
    color: string,
    colorHex: string,
    size: string,
    quantity: int)

  /** What identifies a line for merging. */
  datatype LineKey = LineKey(productId: string, color: string, size: string)

  function KeyOf(item: CartItem): LineKey {
    LineKey(item.productId, item.color, item.size)
  }

  function NewKeyOf(line: NewLine): LineKey {
    LineKey(line.productId, line.color, line.size)
  }

  /** A stored line without its id: the line it was made from. */
  function LineOf(item: CartItem): NewLine {
    NewLine(item.productId, item.name, item.nameAr, item.price, item.discountPrice,
            item.image, item.color, item.colorHex, item.size, item.quantity)
  }

  /** The stored line made from `line` with the given id: every field of `line` is kept. */
  function WithId(line: NewLine, id: string): (item: CartItem)
    ensures item.id == id && LineOf(item) == line
    ensures KeyOf(item) == NewKeyOf(line) && item.quantity == line.quantity
  {
    CartItem(id, line.productId, line.name, line.nameAr, line.price, line.discountPrice,
             line.image, line.color, line.colorHex, line.size, line.quantity)
  }

  ghost predicate KeysUnique(items: seq<CartItem>) {
    forall i, j :: 0 <= i < j < |items| ==> KeyOf(items[i]) != KeyOf(items[j])
  }

  ghost predicate IdsUnique(items: seq<CartItem>) {
    forall i, j :: 0 <= i < j < |items| ==> items[i].id != items[j].id
  }

  predicate HasId(items: seq<CartItem>, id: string) {
    exists i :: 0 <= i < |items| && items[i].id == id
  }

  /** `findIndex` on the line key: the first matching position, or -1. */
  function FindLine(items: seq<CartItem>, key: LineKey): (k: int)
    ensures -1 <= k < |items|
    ensures k == -1 <==> forall i :: 0 <= i < |items| ==> KeyOf(items[i]) != key
    ensures k >= 0 ==> KeyOf(items[k]) == key && forall i :: 0 <= i < k ==> KeyOf(items[i]) != key
  {
    if items == [] then -1
    else if KeyOf(items[0]) == key then 0
    else
      var k := FindLine(items[1..], key);
      if k == -1 then -1 else k + 1
  }

  /** The list `addItem` produces: the matching line's quantity raised, or the new line appended. */
  function Added(items: seq<CartItem>, line: NewLine, freshId: string): (r: seq<CartItem>)
    ensures |r| == |items| <==> exists i :: 0 <= i < |items| && KeyOf(items[i]) == NewKeyOf(line)
    ensures |r| == |items| || |r| == |items| + 1
    ensures exists k :: 0 <= k < |r| && KeyOf(r[k]) == NewKeyOf(line)
  {
    var k := FindLine(items, NewKeyOf(line));
    if k > -1 then
      var merged := items[k := items[k].(quantity := items[k].quantity + line.quantity)];
      assert KeyOf(merged[k]) == NewKeyOf(line);
      merged
    else
      var appended := items + [WithId(line, freshId)];
      assert KeyOf(appended[|items|]) == NewKeyOf(line);
      appended
  }

  /** `item.id !== itemId` as a filter predicate. */
  function IdIsNot(id: string): CartItem -> bool {
    (item: CartItem) => item.id != id
  }

  /** The list `updateQuantity` produces for a quantity of at least 1. */
  function WithQuantity(items: seq<CartItem>, id: string, quantity: int): (r: seq<CartItem>)
    ensures |r| == |items|
    ensures forall i :: 0 <= i < |items| ==>
      r[i] == if items[i].id == id then items[i].(quantity := quantity) else items[i]
  {
    if items == [] then []
    else [if items[0].id == id then items[0].(quantity := quantity) else items[0]]
         + WithQuantity(items[1..], id, quantity)
  }

  /** What one line contributes to the subtotal. */
  function LineTotal(item: CartItem): int {
    EffectivePrice(item.price, item.discountPrice) * item.quantity
  }

  /** `items.reduce((total, item) => total + price * item.quantity, 0)`, folded from the left. */
  function Subtotal(items: seq<CartItem>): (total: int)
    ensures (forall i :: 0 <= i < |items| ==>
               EffectivePrice(items[i].price, items[i].discountPrice) >= 0 && items[i].quantity >= 0) ==> total >= 0
  {
    if items == [] then 0 else Subtotal(items[..|items| - 1]) + LineTotal(items[|items| - 1])
  }

  /** `items.reduce((count, item) => count + item.quantity, 0)`, folded from the left. */
  function ItemCount(items: seq<CartItem>): (count: int)
    ensures (forall i :: 0 <= i < |items| ==> items[i].quantity >= 1) ==> count >= |items|
  {
    if items == [] then 0 else ItemCount(items[..|items| - 1]) + items[|items| - 1].quantity
  }

  class Cart {
    var items: seq<CartItem>

    /** No two lines share a key, and no two lines share an id. */
    ghost predicate Valid()
      reads this
    {
      KeysUnique(items) && IdsUnique(items)
    }

    constructor ()
      ensures Valid() && items == []
    {
      items := [];
    }

    /** Merge-or-append: `freshId` stands for the id the hook builds from the clock
        and a random number, which is taken to differ from every id in the cart. */
    method AddItem(line: NewLine, freshId: string)
      requires Valid()
      requires !HasId(items, freshId)
      modifies this
      ensures Valid()
      ensures items == Added(old(items), line, freshId)
    {
      AddedKeepsValid(items, line, freshId);
      var k := FindLine(items, NewKeyOf(line));
      if k > -1 {
        items := items[k := items[k].(quantity := items[k].quantity + line.quantity)];
      } else {
        items := items + [WithId(line, freshId)];
      }
    }

    method RemoveItem(id: string)
      requires Valid()
      modifies this
      ensures Valid()
      ensures items == Filter(old(items), IdIsNot(id))
      ensures forall item :: item in items <==> item in old(items) && item.id != id
    {
      FilterKeepsUnique(items, IdIsNot(id));
      items := Filter(items, IdIsNot(id));
    }

    /** A quantity below 1 is ignored; otherwise every line with that id takes the new quantity. */
    method UpdateQuantity(id: string, quantity: int)
      requires Valid()
      modifies this
      ensures Valid()
      ensures quantity < 1 ==> items == old(items)
      ensures quantity >= 1 ==> items == WithQuantity(old(items), id, quantity)
    {
      if quantity < 1 {
        return;
      }
      WithQuantityKeepsValid(items, id, quantity);
      items := WithQuantity(items, id, quantity);
    }

    method ClearCart()
      modifies this
      ensures Valid()
      ensures items == [] && Subtotal(items) == 0 && ItemCount(items) == 0
    {
      items := [];
    }
  }

  /** Appending a line with a new key and a fresh id keeps both uniqueness invariants. */
  lemma AddedKeepsValid(items: seq<CartItem>, line: NewLine, freshId: string)
    requires KeysUnique(items) && IdsUnique(items)
    requires !HasId(items, freshId)
    ensures KeysUnique(Added(items, line, freshId)) && IdsUnique(Added(items, line, freshId))
  {
    var r := Added(items, line, freshId);
    var k := FindLine(items, NewKeyOf(line));
    if k > -1 {
      assert forall i :: 0 <= i < |r| ==> KeyOf(r[i]) == KeyOf(items[i]) && r[i].id == items[i].id;
    } else {
      assert forall i :: 0 <= i < |items| ==> r[i] == items[i];
    }
  }

  /** Filtering keeps both uniqueness invariants: a filtered list is a subsequence. */
  lemma {:induction false} FilterKeepsUnique(items: seq<CartItem>, keep: CartItem -> bool)
    requires KeysUnique(items) && IdsUnique(items)
    ensures KeysUnique(Filter(items, keep)) && IdsUnique(Filter(items, keep))
  {
    if items != [] {
      FilterKeepsUnique(items[1..], keep);
      var rest := Filter(items[1..], keep);
      forall x | x in rest
        ensures KeyOf(x) != KeyOf(items[0]) && x.id != items[0].id
      {
        var j :| 0 <= j < |items[1..]| && items[1..][j] == x;
        assert items[j + 1] == x;
      }
    }
  }

  /** When a line with the same product, colour and size exists, `addItem` keeps the
      length, raises that line's quantity by the added quantity and changes nothing else. */
  lemma AddMergesExisting(items: seq<CartItem>, line: NewLine, freshId: string, k: nat)
    requires KeysUnique(items)
    requires k < |items| && KeyOf(items[k]) == NewKeyOf(line)
    ensures |Added(items, line, freshId)| == |items|
    ensures Added(items, line, freshId)[k] == items[k].(quantity := items[k].quantity + line.quantity)
    ensures forall i :: 0 <= i < |items| && i != k ==> Added(items, line, freshId)[i] == items[i]
  {
    var j := FindLine(items, NewKeyOf(line));
    assert j == k;
  }

  /** When no line has the key, `addItem` appends the line with the fresh id at the end. */
  lemma AddAppendsNew(items: seq<CartItem>, line: NewLine, freshId: string)
    requires forall i :: 0 <= i < |items| ==> KeyOf(items[i]) != NewKeyOf(line)
    ensures Added(items, line, freshId) == items + [WithId(line, freshId)]
    ensures |Added(items, line, freshId)| == |items| + 1
  {
  }

  /** Changing one line's quantity changes the count by the difference. */
  lemma {:induction false} ItemCountUpdate(items: seq<CartItem>, k: nat, q: int)
    requires k < |items|
    ensures ItemCount(items[k := items[k].(quantity := q)]) == ItemCount(items) - items[k].quantity + q
  {
    var r := items[k := items[k].(quantity := q)];
    var n := |items| - 1;
    assert r[..n] == if k == n then items[..n] else items[..n][k := items[k].(quantity := q)];
    if k < n {
      ItemCountUpdate(items[..n], k, q);
    }
  }

  /** The item count of two lists joined is the sum of their counts. */
  lemma {:induction false} ItemCountConcat(a: seq<CartItem>, b: seq<CartItem>)
    ensures ItemCount(a + b) == ItemCount(a) + ItemCount(b)
  {
    if b != [] {
      var n := |b| - 1;
      assert (a + b)[..|a + b| - 1] == a + b[..n];
      ItemCountConcat(a, b[..n]);
    } else {
      assert a + b == a;
    }
  }

  /** The subtotal of two lists joined is the sum of their subtotals. */
  lemma {:induction false} SubtotalConcat(a: seq<CartItem>, b: seq<CartItem>)
    ensures Subtotal(a + b) == Subtotal(a) + Subtotal(b)
  {
    if b != [] {
      var n := |b| - 1;
      assert (a + b)[..|a + b| - 1] == a + b[..n];
      SubtotalConcat(a, b[..n]);
    } else {
      assert a + b == a;
    }
  }

  lemma ItemCountAppend(items: seq<CartItem>, item: CartItem)
    ensures ItemCount(items + [item]) == ItemCount(items) + item.quantity
  {
    assert (items + [item])[..|items|] == items;
  }

  /** In both branches of `addItem` the item count grows by exactly the added quantity. */
  lemma AddGrowsItemCount(items: seq<CartItem>, line: NewLine, freshId: string)
    ensures ItemCount(Added(items, line, freshId)) == ItemCount(items) + line.quantity
  {
    var k := FindLine(items, NewKeyOf(line));
    if k > -1 {
      ItemCountUpdate(items, k, items[k].quantity + line.quantity);
    } else {
      ItemCountAppend(items, WithId(line, freshId));
    }
  }

  /** Changing one line's quantity changes the subtotal by the price times the difference. */
  lemma {:induction false} SubtotalUpdate(items: seq<CartItem>, k: nat, q: int)
    requires k < |items|
    ensures Subtotal(items[k := items[k].(quantity := q)])
         == Subtotal(items) + EffectivePrice(items[k].price, items[k].discountPrice) * (q - items[k].quantity)
  {
    var r := items[k := items[k].(quantity := q)];
    var n := |items| - 1;
    var p := EffectivePrice(items[k].price, items[k].discountPrice);
    assert r[..n] == if k == n then items[..n] else items[..n][k := items[k].(quantity := q)];
    if k < n {
      SubtotalUpdate(items[..n], k, q);
    } else {
      assert p * q == p * items[k].quantity + p * (q - items[k].quantity);
    }
  }

  /** Merging adds the existing line's price times the added quantity; appending adds the new
      line's own total. A merged line keeps the price it was first added with. */
  lemma AddGrowsSubtotal(items: seq<CartItem>, line: NewLine, freshId: string)
    ensures var k := FindLine(items, NewKeyOf(line));
      Subtotal(Added(items, line, freshId)) == Subtotal(items) +
        (if k > -1 then EffectivePrice(items[k].price, items[k].discountPrice) * line.quantity
         else EffectivePrice(line.price, line.discountPrice) * line.quantity)
  {
    var k := FindLine(items, NewKeyOf(line));
    if k > -1 {
      var q := items[k].quantity + line.quantity;
      var p := EffectivePrice(items[k].price, items[k].discountPrice);
      assert Added(items, line, freshId) == items[k := items[k].(quantity := q)];
      SubtotalUpdate(items, k, q);
      assert q - items[k].quantity == line.quantity;
      assert p * (q - items[k].quantity) == p * line.quantity;
    } else {
      var item := WithId(line, freshId);
      assert Added(items, line, freshId) == items + [item];
      assert (items + [item])[..|items|] == items;
      assert Subtotal(items + [item]) == Subtotal(items) + LineTotal(item);
    }
  }

  /** Removing an id that no line carries leaves the cart as it was. */
  lemma RemoveAbsentIsNoOp(items: seq<CartItem>, id: string)
    requires !HasId(items, id)
    ensures Filter(items, IdIsNot(id)) == items
  {
    FilterKeepsAll(items, IdIsNot(id));
  }

  /** Removing by id keeps the other lines in order: removal distributes over concatenation. */
  lemma RemoveKeepsOrder(a: seq<CartItem>, b: seq<CartItem>, id: string)
    ensures Filter(a + b, IdIsNot(id)) == Filter(a, IdIsNot(id)) + Filter(b, IdIsNot(id))
  {
    FilterAppend(a, b, IdIsNot(id));
  }

  /** Setting a quantity keeps every line's key, so it keeps both invariants. */
  lemma WithQuantityKeepsValid(items: seq<CartItem>, id: string, quantity: int)
    requires KeysUnique(items) && IdsUnique(items)
    ensures KeysUnique(WithQuantity(items, id, quantity)) && IdsUnique(WithQuantity(items, id, quantity))
  {
    var r := WithQuantity(items, id, quantity);
    assert forall i :: 0 <= i < |r| ==> KeyOf(r[i]) == KeyOf(items[i]) && r[i].id == items[i].id;
  }
}
