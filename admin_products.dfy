/** The admin products section (src/components/admin/sections/AdminProducts.tsx):
    the product form and its mapping to and from a product, the list of uploaded
    images, the image rows written on submit and the grouping of fetched images. */
module AdminProducts {
  import opened Common

  datatype Product = Product(
    id: string,
    name: string,
    nameAr: string,
    description: Option<string>,
    descriptionAr: Option<string>,
    price: int,
    discountPrice: Option<int>,
    categoryId: Option<string>,
    isActive: Option<bool>,
    isFeatured: Option<bool>,
    rating: Option<int>)

  /** The dialog's fields. The two price fields are text in the page; here a blank field is
      None and a filled one the amount it holds. */
  datatype ProductForm = ProductForm(
    name: string,
    nameAr: string,
    description: string,
    descriptionAr: string,
    price: Option<int>,
    discountPrice: Option<int>,
    categoryId: string,
    isActive: bool,
    isFeatured: bool)

  /** The product columns a submit writes. A None price is the NaN that a blank price gives. */
  datatype ProductData = ProductData(
    name: string,
    nameAr: string,
    description: Option<string>,
    descriptionAr: Option<string>,
    price: Option<int>,
    discountPrice: Option<int>,
    categoryId: Option<string>,
    isActive: bool,
    isFeatured: bool)

  /** A product-image row as fetched. */
  datatype StoredImage = StoredImage(
    id: string,
    productId: string,
    imageUrl: string,
    isPrimary: Option<bool>,
    sortOrder: Option<int>)

  /** A product-image row as a submit writes it. */
  datatype ImageRow = ImageRow(productId: string, imageUrl: string, isPrimary: bool, sortOrder: int)

  /** The form `resetForm` restores and the page starts with. */
  const EmptyForm: ProductForm := ProductForm("", "", "", "", None, None, "", true, false)

  /** The dialog's text inputs and the category selector. */
  datatype TextField = Name | NameAr | Description | DescriptionAr | Category

  /** `setFormData({ ...formData, <field>: value })` for a text input or the category. */
  function WithText(form: ProductForm, field: TextField, value: string): (f: ProductForm)
    ensures f.name == if field == Name then value else form.name
    ensures f.nameAr == if field == NameAr then value else form.nameAr
    ensures f.description == if field == Description then value else form.description
    ensures f.descriptionAr == if field == DescriptionAr then value else form.descriptionAr
    ensures f.categoryId == if field == Category then value else form.categoryId
    ensures f.price == form.price && f.discountPrice == form.discountPrice
    ensures f.isActive == form.isActive && f.isFeatured == form.isFeatured
  {
    match field
    case Name => form.(name := value)
    case NameAr => form.(nameAr := value)
    case Description => form.(description := value)
    case DescriptionAr => form.(descriptionAr := value)
    case Category => form.(categoryId := value)
  }

  /** `handleEdit`: the form filled from a product; null texts show as empty, a null active
      flag as on and a null featured flag as off. */
  function FormOf(p: Product): (form: ProductForm)
    ensures form.name == p.name && form.nameAr == p.nameAr
    ensures form.price == Some(p.price) && form.discountPrice == p.discountPrice
    ensures form.description == (if p.description.Some? then p.description.value else "")
    ensures form.descriptionAr == (if p.descriptionAr.Some? then p.descriptionAr.value else "")
    ensures form.categoryId == (if p.categoryId.Some? then p.categoryId.value else "")
    ensures form.isActive == (p.isActive != Some(false))
    ensures form.isFeatured == (p.isFeatured == Some(true))
  {
    ProductForm(p.name, p.nameAr, EmptyIfNull(p.description), EmptyIfNull(p.descriptionAr),
                Some(p.price), p.discountPrice, EmptyIfNull(p.categoryId),
                match p.isActive case Some(b) => b case None => true,
                match p.isFeatured case Some(b) => b case None => false)
  }

  /** `handleSubmit`'s `productData`: empty text becomes null. */
  function DataOf(form: ProductForm): (d: ProductData)
    ensures d.name == form.name && d.nameAr == form.nameAr
    ensures d.description == None <==> form.description == ""
    ensures d.description.Some? ==> d.description.value == form.description
    ensures d.descriptionAr == None <==> form.descriptionAr == ""
    ensures d.descriptionAr.Some? ==> d.descriptionAr.value == form.descriptionAr
    ensures d.categoryId == None <==> form.categoryId == ""
    ensures d.categoryId.Some? ==> d.categoryId.value == form.categoryId
    ensures d.price == form.price && d.discountPrice == form.discountPrice
    ensures d.isActive == form.isActive && d.isFeatured == form.isFeatured
  {
    ProductData(form.name, form.nameAr, NullIfEmpty(form.description), NullIfEmpty(form.descriptionAr),
                form.price, form.discountPrice, NullIfEmpty(form.categoryId),
                form.isActive, form.isFeatured)
  }

  /** `uploadedImages.map((img, index) => ...)`: one row per image, numbered by position,
      the first one primary. */
  function ImageRows(productId: string, urls: seq<string>): (rows: seq<ImageRow>)
    ensures |rows| == |urls|
    ensures forall i :: 0 <= i < |urls| ==>
      rows[i].sortOrder == i && rows[i].productId == productId && rows[i].imageUrl == urls[i] &&
      (rows[i].isPrimary <==> i == 0)
  {
    seq(|urls|, i requires 0 <= i < |urls| => ImageRow(productId, urls[i], i == 0, i))
  }

  /** The images' URLs in row order. */
  function UrlsOf(rows: seq<ImageRow>): (urls: seq<string>)
    ensures |urls| == |rows|
  {
    if rows == [] then [] else [rows[0].imageUrl] + UrlsOf(rows[1..])
  }

  function PrimaryCount(rows: seq<ImageRow>): nat {
    if rows == [] then 0 else (if rows[0].isPrimary then 1 else 0) + PrimaryCount(rows[1..])
  }

  /** `prev.filter((_, i) => i !== index)`: every position but `index`, in order. */
  function DropIndex<T>(s: seq<T>, index: int): (r: seq<T>)
    ensures 0 <= index < |s| ==> r == s[..index] + s[index + 1..]
    ensures !(0 <= index < |s|) ==> r == s
  {
    if s == [] then []
    else (if index == 0 then [] else [s[0]]) + DropIndex(s[1..], index - 1)
  }

  /** `row.product_id === productId` and its negation, as filter predicates. */
  function RowOf(productId: string): ImageRow -> bool {
    (row: ImageRow) => row.productId == productId
  }

  function RowNotOf(productId: string): ImageRow -> bool {
    (row: ImageRow) => row.productId != productId
  }

  function ImageOf(productId: string): StoredImage -> bool {
    (img: StoredImage) => img.productId == productId
  }

  /** The image table after an edit: the product's rows deleted, then the form's list
      inserted when it is not empty. Either write may fail; the page does not check. */
  function ImagesAfterEdit(table: seq<ImageRow>, productId: string, urls: seq<string>,
                           deleteOk: bool, insertOk: bool): (r: seq<ImageRow>)
    ensures !deleteOk ==> table <= r
    ensures deleteOk ==> forall x :: x in r && x.productId == productId ==> x in ImageRows(productId, urls)
    ensures forall x :: x in table && x.productId != productId ==> x in r
    ensures !(|urls| > 0 && insertOk) ==> forall x :: x in r ==> x in table
  {
    var kept := if deleteOk then Filter(table, RowNotOf(productId)) else table;
    if |urls| > 0 && insertOk then kept + ImageRows(productId, urls) else kept
  }

  /** The image table after creating a product: the form's list inserted when not empty. */
  function ImagesAfterCreate(table: seq<ImageRow>, productId: string, urls: seq<string>,
                             insertOk: bool): (r: seq<ImageRow>)
    ensures table <= r
    ensures |r| == |table| + (if |urls| > 0 && insertOk then |urls| else 0)
  {
    if |urls| > 0 && insertOk then table + ImageRows(productId, urls) else table
  }

  /** `buckets` groups the images `s`: one bucket per product that has an image there,
      holding that product's images in their order. */
  ghost predicate Grouped(buckets: map<string, seq<StoredImage>>, s: seq<StoredImage>) {
    && (forall pid :: pid in buckets <==> exists j :: 0 <= j < |s| && s[j].productId == pid)
    && (forall pid :: pid in buckets ==> buckets[pid] == Filter(s, ImageOf(pid)))
  }

  /** One pushed image: its product's bucket, created empty when missing, gains it at the end. */
  function Pushed(buckets: map<string, seq<StoredImage>>, img: StoredImage): map<string, seq<StoredImage>> {
    var bucket := if img.productId in buckets then buckets[img.productId] else [];
    buckets[img.productId := bucket + [img]]
  }

  /** `fetchProducts`' `forEach` that pushes each fetched image into its product's bucket. */
  method GroupImages(images: seq<StoredImage>) returns (buckets: map<string, seq<StoredImage>>)
    ensures Grouped(buckets, images)
  {
    buckets := map[];
    for i := 0 to |images|
      invariant Grouped(buckets, images[..i])
    {
      var img := images[i];
      assert images[..i + 1] == images[..i] + [img];
      PushedKeepsGrouped(buckets, images[..i], img);
      var bucket := if img.productId in buckets then buckets[img.productId] else [];
      buckets := buckets[img.productId := bucket + [img]];
    }
    assert images[..|images|] == images;
  }

  /** Pushing the next image groups the images seen so far plus that one. */
  lemma PushedKeepsGrouped(buckets: map<string, seq<StoredImage>>, s: seq<StoredImage>, img: StoredImage)
    requires Grouped(buckets, s)
    ensures Grouped(Pushed(buckets, img), s + [img])
  {
    var after := Pushed(buckets, img);
    var t := s + [img];
    forall pid
      ensures pid in after <==> exists j :: 0 <= j < |t| && t[j].productId == pid
    {
      if pid == img.productId {
        assert t[|s|].productId == pid;
      } else {
        forall j | 0 <= j < |s|
          ensures t[j] == s[j]
        {
        }
      }
    }
    forall pid | pid in after
      ensures after[pid] == Filter(t, ImageOf(pid))
    {
      FilterSnoc(s, img, ImageOf(pid));
      if pid == img.productId && pid !in buckets {
        FilterKeepsNone(s, ImageOf(pid));
      }
    }
  }

  class ProductDialog {
    var form: ProductForm
    var editing: Option<Product>
    var uploaded: seq<string>
    var isOpen: bool

    constructor ()
      ensures form == EmptyForm && editing == None && uploaded == [] && !isOpen
    {
      form := EmptyForm;
      editing := None;
      uploaded := [];
      isOpen := false;
    }

    /** A text input or the category selector changed. */
    method ChangeText(field: TextField, value: string)
      modifies this
      ensures form == WithText(old(form), field, value)
      ensures editing == old(editing) && uploaded == old(uploaded) && isOpen == old(isOpen)
    {
      form := WithText(form, field, value);
    }

    /** The price input changed; a blank input is None. */
    method ChangePrice(price: Option<int>)
      modifies this
      ensures form == old(form).(price := price)
      ensures editing == old(editing) && uploaded == old(uploaded) && isOpen == old(isOpen)
    {
      form := form.(price := price);
    }

    /** The discount-price input changed; a blank input is None. */
    method ChangeDiscountPrice(discountPrice: Option<int>)
      modifies this
      ensures form == old(form).(discountPrice := discountPrice)
      ensures editing == old(editing) && uploaded == old(uploaded) && isOpen == old(isOpen)
    {
      form := form.(discountPrice := discountPrice);
    }

    /** The active switch changed. */
    method ChangeActive(checked: bool)
      modifies this
      ensures form == old(form).(isActive := checked)
      ensures editing == old(editing) && uploaded == old(uploaded) && isOpen == old(isOpen)
    {
      form := form.(isActive := checked);
    }

    /** The featured switch changed. */
    method ChangeFeatured(checked: bool)
      modifies this
      ensures form == old(form).(isFeatured := checked)
      ensures editing == old(editing) && uploaded == old(uploaded) && isOpen == old(isOpen)
    {
      form := form.(isFeatured := checked);
    }

    /** A file finished reading: its data URL goes to the end of the list. */
    method Upload(dataUrl: string)
      modifies this
      ensures uploaded == old(uploaded) + [dataUrl]
      ensures form == old(form) && editing == old(editing) && isOpen == old(isOpen)
    {
      uploaded := uploaded + [dataUrl];
    }

    method RemoveImage(index: int)
      modifies this
      ensures uploaded == DropIndex(old(uploaded), index)
      ensures form == old(form) && editing == old(editing) && isOpen == old(isOpen)
    {
      uploaded := DropIndex(uploaded, index);
    }

    method ResetForm()
      modifies this
      ensures form == EmptyForm && editing == None && uploaded == []
      ensures isOpen == old(isOpen)
    {
      form := EmptyForm;
      editing := None;
      uploaded := [];
    }

    /** `handleEdit`: the form filled from the product, the list replaced by the product's
        stored images when that fetch answers (left as it was when it does not), the dialog open. */
    method Edit(product: Product, fetched: Option<seq<StoredImage>>)
      modifies this
      ensures editing == Some(product) && form == FormOf(product) && isOpen
      ensures fetched == None ==> uploaded == old(uploaded)
      ensures fetched.Some? ==> (|uploaded| == |fetched.value| &&
                                 forall i :: 0 <= i < |uploaded| ==> uploaded[i] == fetched.value[i].imageUrl)
    {
      editing := Some(product);
      form := FormOf(product);
      if fetched.Some? {
        uploaded := seq(|fetched.value|, i requires 0 <= i < |fetched.value| => fetched.value[i].imageUrl);
      }
      isOpen := true;
    }

    /** `handleSubmit`: write the product, then its images; on success the dialog closes and
        the form resets, on a failed product write nothing else happens. `newId` is the id the
        backend gives a created product. */
    method Submit(table: seq<ImageRow>, productOk: bool, newId: string, deleteOk: bool, insertOk: bool)
      returns (written: ProductData, after: seq<ImageRow>)
      modifies this
      ensures written == DataOf(old(form))
      ensures !productOk ==> after == table && form == old(form) && editing == old(editing)
                             && uploaded == old(uploaded) && isOpen == old(isOpen)
      ensures productOk && old(editing).Some? ==>
        after == ImagesAfterEdit(table, old(editing).value.id, old(uploaded), deleteOk, insertOk)
      ensures productOk && old(editing) == None ==>
        after == ImagesAfterCreate(table, newId, old(uploaded), insertOk)
      ensures productOk ==> form == EmptyForm && editing == None && uploaded == [] && !isOpen
    {
      written := DataOf(form);
      if !productOk {
        after := table;
        return;
      }
      match editing {
        case Some(p) => after := ImagesAfterEdit(table, p.id, uploaded, deleteOk, insertOk);
        case None => after := ImagesAfterCreate(table, newId, uploaded, insertOk);
      }
      isOpen := false;
      ResetForm();
    }
  }

  lemma {:induction false} NoPrimary(rows: seq<ImageRow>)
    requires forall i :: 0 <= i < |rows| ==> !rows[i].isPrimary
    ensures PrimaryCount(rows) == 0
  {
    if rows != [] {
      NoPrimary(rows[1..]);
    }
  }

  /** A non-empty list yields exactly one primary image; an empty one yields no rows at all. */
  lemma ExactlyOnePrimary(productId: string, urls: seq<string>)
    ensures PrimaryCount(ImageRows(productId, urls)) == if urls == [] then 0 else 1
    ensures urls == [] ==> ImageRows(productId, urls) == []
  {
    var rows := ImageRows(productId, urls);
    if urls != [] {
      NoPrimary(rows[1..]);
    }
  }

  lemma {:induction false} UrlsOfPointwise(rows: seq<ImageRow>, urls: seq<string>)
    requires |rows| == |urls|
    requires forall i :: 0 <= i < |rows| ==> rows[i].imageUrl == urls[i]
    ensures UrlsOf(rows) == urls
  {
    if rows != [] {
      UrlsOfPointwise(rows[1..], urls[1..]);
    }
  }

  /** Reading the written rows back in sort order gives the uploaded list. */
  lemma RowsRoundTrip(productId: string, urls: seq<string>)
    ensures UrlsOf(ImageRows(productId, urls)) == urls
  {
    UrlsOfPointwise(ImageRows(productId, urls), urls);
  }

  /** When both image writes of an edit succeed, the product's stored rows are exactly the rows
      of the form's list (so its URLs are the list), and every other product's rows are untouched. */
  lemma EditStoresFormList(table: seq<ImageRow>, productId: string, urls: seq<string>)
    ensures Filter(ImagesAfterEdit(table, productId, urls, true, true), RowOf(productId))
         == ImageRows(productId, urls)
    ensures UrlsOf(Filter(ImagesAfterEdit(table, productId, urls, true, true), RowOf(productId))) == urls
    ensures forall other :: other != productId ==>
      Filter(ImagesAfterEdit(table, productId, urls, true, true), RowOf(other)) == Filter(table, RowOf(other))
  {
    var kept := Filter(table, RowNotOf(productId));
    var rows := ImageRows(productId, urls);
    var after := ImagesAfterEdit(table, productId, urls, true, true);
    assert after == kept + rows;
    FilterAppend(kept, rows, RowOf(productId));
    FilterKeepsNone(kept, RowOf(productId));
    FilterKeepsAll(rows, RowOf(productId));
    RowsRoundTrip(productId, urls);
    forall other | other != productId
      ensures Filter(after, RowOf(other)) == Filter(table, RowOf(other))
    {
      FilterAppend(kept, rows, RowOf(other));
      FilterKeepsNone(rows, RowOf(other));
      FilterFilter(table, RowNotOf(productId), RowOf(other));
    }
  }

  /** Editing a product and saving it unchanged writes back its fields, with null text fields
      (and empty ones) as null, a null active flag as true and a null featured flag as false. */
  lemma EditRoundTrip(p: Product)
    ensures var d := DataOf(FormOf(p));
      && d.name == p.name && d.nameAr == p.nameAr
      && d.price == Some(p.price) && d.discountPrice == p.discountPrice
      && d.description == (if p.description == Some("") then None else p.description)
      && d.descriptionAr == (if p.descriptionAr == Some("") then None else p.descriptionAr)
      && d.categoryId == (if p.categoryId == Some("") then None else p.categoryId)
      && d.isActive == (p.isActive != Some(false))
      && d.isFeatured == (p.isFeatured == Some(true))
  {
  }

  /** Submitting the reset form writes blank text as null, a NaN price, no discount, active and
      not featured. */
  lemma EmptyFormData()
    ensures DataOf(EmptyForm) == ProductData("", "", None, None, None, None, None, true, false)
  {
  }

  /** When the insert of a created product's images succeeds, the new product's stored rows are
      exactly the rows of its list (so its URLs are the list), and every other product's rows are
      untouched. */
  lemma CreateStoresFormList(table: seq<ImageRow>, newId: string, urls: seq<string>)
    requires forall i :: 0 <= i < |table| ==> table[i].productId != newId
    ensures Filter(ImagesAfterCreate(table, newId, urls, true), RowOf(newId)) == ImageRows(newId, urls)
    ensures UrlsOf(Filter(ImagesAfterCreate(table, newId, urls, true), RowOf(newId))) == urls
    ensures forall other :: other != newId ==>
      Filter(ImagesAfterCreate(table, newId, urls, true), RowOf(other)) == Filter(table, RowOf(other))
  {
    var rows := ImageRows(newId, urls);
    var after := ImagesAfterCreate(table, newId, urls, true);
    assert after == table + rows;
    FilterAppend(table, rows, RowOf(newId));
    FilterKeepsNone(table, RowOf(newId));
    FilterKeepsAll(rows, RowOf(newId));
    RowsRoundTrip(newId, urls);
    forall other | other != newId
      ensures Filter(after, RowOf(other)) == Filter(table, RowOf(other))
    {
      FilterAppend(table, rows, RowOf(other));
      FilterKeepsNone(rows, RowOf(other));
    }
  }
}
