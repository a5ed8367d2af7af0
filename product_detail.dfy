/** The product page (src/pages/ProductDetail.tsx): the displayed unit price with
    the per-size adjustment, the default colour and size, the quantity stepper
    and the guarded add-to-cart. */
module ProductDetailPage {
  import opened Common
  import opened ShoppingCart

  datatype Product = Product(
    id: string,
    name: string,
    nameAr: string,
    description: Option<string>,
    descriptionAr: Option<string>,
    price: int,
    discountPrice: Option<int>,
    rating: Option<int>)

  datatype ProductImage = ProductImage(id: string, imageUrl: string, isPrimary: Option<bool>)

  datatype Color = Color(id: string, name: string, nameAr: string, hexCode: string)

  datatype Size = Size(id: string, name: string, priceAdjustment: Option<int>)

  /** A row of the product-to-size link table: the size and this product's surcharge for it. */
  datatype ProductSize = ProductSize(sizeId: string, priceAdjustment: Option<int>)

  /** `product.discount_price || product.price`. */
  function CurrentPrice(product: Product): (p: int)
    ensures product.discountPrice.Some? && product.discountPrice.value != 0 ==> p == product.discountPrice.value
    ensures product.discountPrice == None || product.discountPrice == Some(0) ==> p == product.price
  {
    EffectivePrice(product.price, product.discountPrice)
  }

  /** `selectedSize?.price_adjustment || 0`. */
  function Adjustment(selected: Option<Size>): (a: int)
    ensures selected == None ==> a == 0
    ensures selected.Some? && selected.value.priceAdjustment.Some? ==> a == selected.value.priceAdjustment.value
    ensures selected.Some? && selected.value.priceAdjustment == None ==> a == 0
  {
    match selected
    case None => 0
    case Some(s) =>
      match s.priceAdjustment
      case Some(v) => if v != 0 then v else 0
      case None => 0
  }

  /** The unit price the page shows. */
  function FinalPrice(product: Product, selected: Option<Size>): (p: int)
    ensures selected == None || selected.value.priceAdjustment == None ==> p == CurrentPrice(product)
    ensures selected.Some? && selected.value.priceAdjustment.Some? ==>
      p == CurrentPrice(product) + selected.value.priceAdjustment.value
  {
    CurrentPrice(product) + Adjustment(selected)
  }

  /** `productSizes.find((ps) => ps.size_id === sizeId)?.price_adjustment || 0`. */
  function LookupAdjustment(productSizes: seq<ProductSize>, sizeId: string): (a: int)
    ensures (forall i :: 0 <= i < |productSizes| ==> productSizes[i].sizeId != sizeId) ==> a == 0
    ensures forall k :: 0 <= k < |productSizes| && productSizes[k].sizeId == sizeId &&
                        (forall i :: 0 <= i < k ==> productSizes[i].sizeId != sizeId) ==>
                        a == (match productSizes[k].priceAdjustment case Some(v) => v case None => 0)
  {
    if productSizes == [] then 0
    else if productSizes[0].sizeId == sizeId then
      match productSizes[0].priceAdjustment
      case Some(v) => if v != 0 then v else 0
      case None => 0
    else
      var a := LookupAdjustment(productSizes[1..], sizeId);
      assert forall k :: 1 <= k < |productSizes| ==> productSizes[k] == productSizes[1..][k - 1];
      a
  }

  /** `sizesData.map((size) => ({...size, price_adjustment: ...}))`: every size, in order,
      with this product's surcharge filled in. */
  function SizesWithAdjustment(sizes: seq<Size>, productSizes: seq<ProductSize>): (r: seq<Size>)
    ensures |r| == |sizes|
    ensures forall i :: 0 <= i < |sizes| ==>
      r[i].id == sizes[i].id && r[i].name == sizes[i].name &&
      r[i].priceAdjustment == Some(LookupAdjustment(productSizes, sizes[i].id))
  {
    if sizes == [] then []
    else [sizes[0].(priceAdjustment := Some(LookupAdjustment(productSizes, sizes[0].id)))]
         + SizesWithAdjustment(sizes[1..], productSizes)
  }

  /** `data[0]` as the initial selection: the first loaded entry, or nothing when none loaded. */
  function FirstOf<T>(loaded: seq<T>): (r: Option<T>)
    ensures r == None <==> loaded == []
    ensures r.Some? ==> r.value == loaded[0]
  {
    if loaded == [] then None else Some(loaded[0])
  }

  /** `images[0]?.image_url || "/placeholder.svg"`. */
  function CartImage(images: seq<ProductImage>): (url: string)
    ensures url != ""
    ensures |images| > 0 && images[0].imageUrl != "" ==> url == images[0].imageUrl
    ensures !(|images| > 0 && images[0].imageUrl != "") ==> url == "/placeholder.svg"
  {
    if |images| > 0 && images[0].imageUrl != "" then images[0].imageUrl else "/placeholder.svg"
  }

  /** The line `handleAddToCart` hands to the cart: the base price and the non-zero
      discount, the colour's Arabic name and hex code, the size's name, the quantity. */
  function CartLineOf(product: Product, images: seq<ProductImage>, color: Color, size: Size,
                      quantity: int): (line: NewLine)
    ensures line.productId == product.id && line.name == product.name && line.nameAr == product.nameAr
    ensures line.price == product.price
    ensures line.discountPrice == None <==> product.discountPrice == None || product.discountPrice == Some(0)
    ensures EffectivePrice(line.price, line.discountPrice) == CurrentPrice(product)
    ensures line.image == CartImage(images)
    ensures line.color == color.nameAr && line.colorHex == color.hexCode && line.size == size.name
    ensures line.quantity == quantity
  {
    NewLine(product.id, product.name, product.nameAr, product.price,
            if product.discountPrice.Some? && product.discountPrice.value != 0
            then product.discountPrice else None,
            CartImage(images), color.nameAr, color.hexCode, size.name, quantity)
  }

  class ProductView {
    const product: Product
    const images: seq<ProductImage>
    var colors: seq<Color>
    var sizes: seq<Size>
    var selectedColor: Option<Color>
    var selectedSize: Option<Size>
    var quantity: int

    ghost predicate Valid()
      reads this
    {
      quantity >= 1
    }

    constructor (product: Product, images: seq<ProductImage>)
      ensures Valid() && this.product == product && this.images == images
      ensures colors == [] && sizes == [] && selectedColor == None && selectedSize == None
      ensures quantity == 1
    {
      this.product := product;
      this.images := images;
      colors := [];
      sizes := [];
      selectedColor := None;
      selectedSize := None;
      quantity := 1;
    }

    /** The colours arrive: the first one becomes the selection. */
    method ColorsLoaded(loaded: seq<Color>)
      requires Valid()
      modifies this
      ensures Valid()
      ensures colors == loaded && selectedColor == FirstOf(loaded)
      ensures sizes == old(sizes) && selectedSize == old(selectedSize) && quantity == old(quantity)
    {
      colors := loaded;
      selectedColor := FirstOf(loaded);
    }

    /** The sizes arrive with the product's size rows: the merged list is stored and its
        first entry becomes the selection. */
    method SizesLoaded(loaded: seq<Size>, productSizes: seq<ProductSize>)
      requires Valid()
      modifies this
      ensures Valid()
      ensures sizes == SizesWithAdjustment(loaded, productSizes)
      ensures selectedSize == FirstOf(sizes)
      ensures loaded != [] ==> selectedSize.Some? && selectedSize.value.id == loaded[0].id
      ensures colors == old(colors) && selectedColor == old(selectedColor) && quantity == old(quantity)
    {
      sizes := SizesWithAdjustment(loaded, productSizes);
      selectedSize := FirstOf(sizes);
    }

    method SelectColor(color: Color)
      requires Valid()
      modifies this
      ensures Valid() && selectedColor == Some(color)
      ensures colors == old(colors) && sizes == old(sizes) && selectedSize == old(selectedSize)
      ensures quantity == old(quantity)
    {
      selectedColor := Some(color);
    }

    method SelectSize(size: Size)
      requires Valid()
      modifies this
      ensures Valid() && selectedSize == Some(size)
      ensures colors == old(colors) && sizes == old(sizes) && selectedColor == old(selectedColor)
      ensures quantity == old(quantity)
    {
      selectedSize := Some(size);
    }

    /** The minus button: `Math.max(1, quantity - 1)`. */
    method Decrement()
      requires Valid()
      modifies this
      ensures Valid()
      ensures old(quantity) > 1 ==> quantity == old(quantity) - 1
      ensures old(quantity) == 1 ==> quantity == 1
      ensures colors == old(colors) && sizes == old(sizes)
      ensures selectedColor == old(selectedColor) && selectedSize == old(selectedSize)
    {
      quantity := if quantity - 1 > 1 then quantity - 1 else 1;
    }

    /** The plus button. */
    method Increment()
      requires Valid()
      modifies this
      ensures Valid() && quantity == old(quantity) + 1
      ensures colors == old(colors) && sizes == old(sizes)
      ensures selectedColor == old(selectedColor) && selectedSize == old(selectedSize)
    {
      quantity := quantity + 1;
    }

    /** `handleAddToCart`: refused without a colour and a size, otherwise one `addItem`. */
    method AddToCart(cart: Cart, freshId: string) returns (added: bool)
      requires Valid() && cart.Valid()
      requires !HasId(cart.items, freshId)
      modifies cart
      ensures cart.Valid()
      ensures added <==> selectedColor.Some? && selectedSize.Some?
      ensures !added ==> cart.items == old(cart.items)
      ensures added ==> cart.items == Added(old(cart.items),
        CartLineOf(product, images, selectedColor.value, selectedSize.value, quantity), freshId)
    {
      if selectedColor == None || selectedSize == None {
        return false;
      }
      cart.AddItem(CartLineOf(product, images, selectedColor.value, selectedSize.value, quantity), freshId);
      added := true;
    }
  }

  /** The line added to the cart is priced at the product's current price without the size
      surcharge, so its effective price differs from the displayed one by the adjustment. */
  lemma CartLinePriceOmitsAdjustment(product: Product, images: seq<ProductImage>, color: Color,
                                     size: Size, quantity: int)
    ensures var line := CartLineOf(product, images, color, size, quantity);
      && EffectivePrice(line.price, line.discountPrice) + Adjustment(Some(size))
         == FinalPrice(product, Some(size))
      && (size.priceAdjustment.Some? && size.priceAdjustment.value != 0 ==>
          EffectivePrice(line.price, line.discountPrice) != FinalPrice(product, Some(size)))
  {
  }
}
