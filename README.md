# Storefront core in Dafny

This project models the core logic of an Arabic-language clothing storefront: a React single-page
application with a hosted database backend. It covers these parts:

- **Shopping cart** (`ShoppingCart`, `cart.dfy`). A list of lines keyed by product, colour and size.
  Adding merges into the matching line or appends a new one. Lines can be removed, have their
  quantity set, or be cleared. There are two totals: the subtotal at the effective unit price,
  and the item count.
- **Favourites** (`FavoritesList`, `favorites.dfy`). A list of saved products with no duplicate id.
  It supports add, remove, toggle, a membership test and a count.
- **Checkout** (`CheckoutPage`, `checkout.dfy`).
  - The shipping fee and the total.
  - The two ordered guards: a governorate must be chosen, and the required fields must be filled.
  - The order row and its order lines.
  - The cart is cleared and the thank-you screen shown only after both writes succeed.
- **Product page** (`ProductDetailPage`, `product_detail.dfy`).
  - The displayed unit price with its per-size surcharge.
  - The first colour and first size are chosen by default.
  - The quantity stepper, which never goes below 1.
  - Add-to-cart refuses until a colour and a size are chosen.
- **Admin orders** (`AdminOrders`, `admin_orders.dfy`).
  - The five statuses and the status filter.
  - The per-status count cards.
  - The badge and selector defaults for a null or unknown status.
  - The effect of a status change.
- **Admin products** (`AdminProducts`, `admin_products.dfy`).
  - The product dialog's form and how it maps to and from a product.
  - The uploaded-image list.
  - The numbered image rows written on save; the first row is the only primary one.
  - The grouping of fetched images by product.
- **Hero banner** (`HeroBanner`, `hero_banner.dfy`). The carousel index, moved by the arrows, the
  five-second timer and the dots, and the loading, fallback and showing views.

`Common` (`common.dfy`) holds shared pieces:
- the optional value;
- JavaScript's `discount || price` rule, where a zero discount counts as absent;
- the `text || null` and `value || ""` conversions;
- an order-preserving `Filter`, which is `Array.prototype.filter`.

Components whose state changes step by step are classes: `Cart`, `Favorites`, `Checkout`,
`ProductView`, `ProductDialog` and `Carousel`. Each state-changing method states its new state
through a specification function such as `Added`, `Removed`, `Toggled`, `WithQuantity`,
`OutcomeOf`, `WritesOf`, `ImagesAfterEdit` or `NextIndex`. Lemmas prove what the application
relies on about those functions.

Backend answers are parameters: the new order's id or an error, and whether each insert,
update or delete succeeded. Clock-and-random ids are parameters too. A fresh cart-line id is
taken to differ from every id already in the cart.

As written, the product page adds a cart line priced at the product's price and discount. The
line does not include the selected size's surcharge, although the page displays the surcharged
price. `ProductDetailPage.CartLinePriceOmitsAdjustment` states this behaviour.

## Model

| member | source | states |
|---|---|---|
| Common.EffectivePrice | src/hooks/useCart.ts:89 | The unit price is the discount price when there is a non-zero one; otherwise it is the list price. |
| Common.NullIfEmpty | src/pages/Checkout.tsx:113 | The result is null exactly when the text is empty; otherwise it is the text. |
| Common.EmptyIfNull | src/components/admin/sections/AdminProducts.tsx:171-172 | A null value becomes ""; any other value is kept. |
| ShoppingCart.FindLine | src/hooks/useCart.ts:48-53 | The result is -1 exactly when no line has the key. Otherwise it is the first position whose line has the key. |
| ShoppingCart.WithId | src/hooks/useCart.ts:63 | The appended line carries the fresh id, and dropping that id gives back the given line: name, Arabic name, prices, image, colour, colour hex, size and quantity are all copied. |
| ShoppingCart.Added | src/hooks/useCart.ts:45-64 | The cart keeps its length exactly when a line with the key already exists, and otherwise grows by one. Either way, a line with the key is in the result. |
| ShoppingCart.Subtotal | src/hooks/useCart.ts:88-91 | With non-negative unit prices and quantities the subtotal is non-negative. |
| ShoppingCart.ItemCount | src/hooks/useCart.ts:94 | With every quantity at least 1, the item count is at least the number of lines. |
| ShoppingCart.Cart.constructor | src/hooks/useCart.ts:20 | The cart starts empty and valid. |
| ShoppingCart.Cart.AddItem | src/hooks/useCart.ts:45-65 | The new list is the merge-or-append result. Keys and ids stay unique. |
| ShoppingCart.AddedKeepsValid | src/hooks/useCart.ts:48-63 | Adding keeps one line per (product, colour, size) and unique ids. |
| ShoppingCart.AddMergesExisting | src/hooks/useCart.ts:55-60 | When line k has the key, only line k changes: its quantity grows by the added quantity, and the length is unchanged. |
| ShoppingCart.AddAppendsNew | src/hooks/useCart.ts:62-63 | When no line has the key, the old lines are kept in order and the new line, with the fresh id, goes at the end. |
| ShoppingCart.AddGrowsItemCount | src/hooks/useCart.ts:94 | Adding raises the item count by exactly the added quantity, whether it merges or appends. |
| ShoppingCart.AddGrowsSubtotal | src/hooks/useCart.ts:88-91 | Adding raises the subtotal by the added quantity times the matching line's unit price (on merge) or the new line's (on append). |
| ShoppingCart.Cart.RemoveItem | src/hooks/useCart.ts:68-70 | The new list is the old one without the lines with that id, in order; membership is characterised both ways. |
| ShoppingCart.FilterKeepsUnique | src/hooks/useCart.ts:69 | Filtering keeps key and id uniqueness. |
| ShoppingCart.RemoveAbsentIsNoOp | src/hooks/useCart.ts:68-70 | Removing an id no line has leaves the cart unchanged. |
| ShoppingCart.RemoveKeepsOrder | src/hooks/useCart.ts:69 | Removal distributes over concatenation, so the remaining lines keep their order. |
| ShoppingCart.Cart.UpdateQuantity | src/hooks/useCart.ts:73-80 | A quantity below 1 changes nothing. Otherwise exactly the lines with that id take the new quantity. |
| ShoppingCart.WithQuantity | src/hooks/useCart.ts:75-79 | Same length; each line with the id gets the new quantity and every other line is unchanged. |
| ShoppingCart.WithQuantityKeepsValid | src/hooks/useCart.ts:75-79 | Setting a quantity keeps key and id uniqueness. |
| ShoppingCart.ItemCountUpdate | src/hooks/useCart.ts:94 | Changing line k's quantity from a to q changes the item count by q - a. |
| ShoppingCart.SubtotalUpdate | src/hooks/useCart.ts:88-91 | Changing line k's quantity changes the subtotal by its unit price times the change. |
| ShoppingCart.ItemCountAppend | src/hooks/useCart.ts:94 | Appending a line adds its quantity to the item count. |
| ShoppingCart.ItemCountConcat | src/hooks/useCart.ts:94 | The item count of two lists joined is the sum of their counts. |
| ShoppingCart.SubtotalConcat | src/hooks/useCart.ts:88-91 | The subtotal of two lists joined is the sum of their subtotals. |
| ShoppingCart.Cart.ClearCart | src/hooks/useCart.ts:83-85 | The cart is empty, and its subtotal and item count are 0. |
| FavoritesList.Contains | src/hooks/useFavorites.ts:70 | True exactly when some entry has the id. |
| FavoritesList.Added | src/hooks/useFavorites.ts:42-48 | The id is saved afterwards. The old list is a prefix of the result, which is at most one longer. The list is unchanged when the id was already saved; otherwise it is the old list with the given item appended. |
| FavoritesList.Removed | src/hooks/useFavorites.ts:53 | No entry keeps the id, and an entry stays exactly when it was saved with another id. |
| FavoritesList.Toggled | src/hooks/useFavorites.ts:58-64 | The id is saved afterwards exactly when it was not saved before; an absent item is appended at the end. |
| FavoritesList.Favorites.ItemCount | src/hooks/useFavorites.ts:81 | With unique ids, the count is the number of distinct saved products. |
| FavoritesList.IdSetSize | src/hooks/useFavorites.ts:81 | With unique ids, the list has exactly one entry per distinct id. |
| FavoritesList.Favorites.constructor | src/hooks/useFavorites.ts:16 | The list starts empty, with no duplicate id. |
| FavoritesList.Favorites.AddItem | src/hooks/useFavorites.ts:41-49 | The list becomes the add result. The id is then a favourite, and ids stay unique. |
| FavoritesList.Favorites.RemoveItem | src/hooks/useFavorites.ts:52-54 | The list becomes the filtered list, and the id is no longer a favourite. |
| FavoritesList.Favorites.ToggleItem | src/hooks/useFavorites.ts:57-65 | The list becomes the toggle result, and membership of the id flips. |
| FavoritesList.Favorites.IsFavorite | src/hooks/useFavorites.ts:68-73 | True exactly when some saved entry has the id. |
| FavoritesList.RemovedDropsId | src/hooks/useFavorites.ts:52-54 | After removal no entry has the id, and an entry remains exactly when it was present with another id. |
| FavoritesList.RemoveKeepsOrder | src/hooks/useFavorites.ts:53 | Removal distributes over concatenation, so order is kept. |
| FavoritesList.RemoveAbsentIsNoOp | src/hooks/useFavorites.ts:52-54 | Removing an absent id changes nothing. |
| FavoritesList.RemovedKeepsUnique | src/hooks/useFavorites.ts:53 | Removal keeps ids unique. |
| FavoritesList.RemovedCount | src/hooks/useFavorites.ts:81 | With unique ids, removing a saved id shortens the list by one; removing an absent id does not shorten it. |
| FavoritesList.ToggledCount | src/hooks/useFavorites.ts:57-65 | A toggle lowers the count by one when it removes and raises it by one when it adds. |
| FavoritesList.AddedKeepsUnique | src/hooks/useFavorites.ts:44-47 | Adding keeps ids unique. |
| FavoritesList.AddIdempotent | src/hooks/useFavorites.ts:41-49 | Adding the same id a second time changes nothing. |
| FavoritesList.ToggleKeepsUnique | src/hooks/useFavorites.ts:57-65 | Toggling keeps ids unique. |
| FavoritesList.ToggleFlips | src/hooks/useFavorites.ts:57-65 | Toggling flips whether the id is a favourite. |
| FavoritesList.ToggleTwiceAbsent | src/hooks/useFavorites.ts:57-65 | Toggling an absent item twice restores the list. |
| FavoritesList.ToggleTwicePresent | src/hooks/useFavorites.ts:57-65 | Toggling a present item twice moves it to the end, carrying the toggled item's data. |
| CheckoutPage.ShippingPrice | src/pages/Checkout.tsx:68 | The fee is 0 with no zone chosen; otherwise it is the chosen zone's fee. |
| CheckoutPage.TotalPrice | src/pages/Checkout.tsx:69 | The total is the subtotal plus the chosen zone's fee, or the subtotal alone with no zone. |
| CheckoutPage.FindGovernorate | src/pages/Checkout.tsx:78-81 | The result is null exactly when no zone has the id; otherwise it is the first zone with that id. |
| CheckoutPage.Checkout.constructor | src/pages/Checkout.tsx:33-44 | No zone is chosen, the fields are empty, the page is not loading or thanking, and nothing has been written. |
| CheckoutPage.Checkout.ChangeGovernorate | src/pages/Checkout.tsx:78-81 | The selection becomes the zone found by id, or none for an unknown id; nothing else changes. |
| CheckoutPage.WithField | src/pages/Checkout.tsx:75 | The named field takes the new text and every other field keeps its own. |
| CheckoutPage.Checkout.ChangeField | src/pages/Checkout.tsx:71-76 | The form becomes the old form with the named field changed; nothing else changes. |
| CheckoutPage.FilledFormPasses | src/pages/Checkout.tsx:86-102 | With a zone chosen, filling in the name, primary phone and address of any form gets past both guards. |
| CheckoutPage.OptionalFieldsNeverReject | src/pages/Checkout.tsx:95 | Changing the secondary phone or the notes never changes whether or why a submission is rejected. |
| CheckoutPage.FirstRejection | src/pages/Checkout.tsx:86-102 | With no zone the submission is rejected as NoGovernorate. With a zone it is rejected as MissingFields exactly when the name, primary phone or address is empty. It passes exactly when neither applies. |
| CheckoutPage.OrderRecordOf | src/pages/Checkout.tsx:110-121 | The order row has status "pending", the form's name, phone and address, the zone's id and fee, and total = subtotal + fee. The secondary phone and the notes are null exactly when empty. |
| CheckoutPage.OrderLines | src/pages/Checkout.tsx:128-136 | There is one order line per cart line, in cart order, carrying the order id, the Arabic name, the effective unit price, the quantity, the colour and the size. |
| CheckoutPage.LinesTotalIsSubtotal | src/pages/Checkout.tsx:118-136 | The order lines' price times quantity adds up to the subtotal recorded on the order row. |
| CheckoutPage.OutcomeOf | src/pages/Checkout.tsx:86-146 | The order is placed exactly when no guard rejects, the order insert returns an id and the lines insert succeeds; the placed id is the inserted one. |
| CheckoutPage.WritesOf | src/pages/Checkout.tsx:104-142 | A rejected submission writes nothing. Otherwise the order row is written first, and the lines are written second exactly when the order insert returned an id. |
| CheckoutPage.Checkout.Submit | src/pages/Checkout.tsx:83-162 | The outcome and the writes are as above. The cart is emptied and the thank-you screen shown only when the order is placed. Loading ends false after any write attempt. |
| ProductDetailPage.Adjustment | src/pages/ProductDetail.tsx:158 | The surcharge is 0 without a size or without an adjustment; otherwise it is the size's adjustment. |
| ProductDetailPage.CurrentPrice | src/pages/ProductDetail.tsx:157 | The discount price when there is a non-zero one, otherwise the list price. |
| ProductDetailPage.FinalPrice | src/pages/ProductDetail.tsx:157-158 | The displayed price is the current price plus the selected size's adjustment, if it has one. |
| ProductDetailPage.LookupAdjustment | src/pages/ProductDetail.tsx:127 | The adjustment of the first product-size row for the size, or 0 when no row has it. |
| ProductDetailPage.SizesWithAdjustment | src/pages/ProductDetail.tsx:124-128 | Every loaded size, in order, with the product's surcharge for it filled in. |
| ProductDetailPage.FirstOf | src/pages/ProductDetail.tsx:105 | The first loaded entry, or none exactly when nothing loaded. |
| ProductDetailPage.CartImage | src/pages/ProductDetail.tsx:179 | The first image's URL when there is one and it is not empty, otherwise "/placeholder.svg". |
| ProductDetailPage.CartLineOf | src/pages/ProductDetail.tsx:173-184 | The line carries the product's id and names, and its list price. It keeps the discount unless that is missing or zero, so its effective price is the current price. It also carries the cart image, the colour's Arabic name and hex, the size name and the quantity. |
| ProductDetailPage.ProductView.constructor | src/pages/ProductDetail.tsx:50-59 | Nothing is loaded or selected yet, and the quantity is 1. |
| ProductDetailPage.ProductView.ColorsLoaded | src/pages/ProductDetail.tsx:103-106 | The colours are stored and the first one is selected. |
| ProductDetailPage.ProductView.SizesLoaded | src/pages/ProductDetail.tsx:123-131 | The merged sizes are stored, and the first one is selected when any loaded. |
| ProductDetailPage.ProductView.SelectColor | src/pages/ProductDetail.tsx:319 | The clicked colour becomes the selection; nothing else changes. |
| ProductDetailPage.ProductView.SelectSize | src/pages/ProductDetail.tsx:341 | The clicked size becomes the selection; nothing else changes. |
| ProductDetailPage.ProductView.Decrement | src/pages/ProductDetail.tsx:368 | The quantity drops by one but never below 1. |
| ProductDetailPage.ProductView.Increment | src/pages/ProductDetail.tsx:377 | The quantity rises by one. |
| ProductDetailPage.ProductView.AddToCart | src/pages/ProductDetail.tsx:163-184 | A line is added exactly when a colour and a size are selected; otherwise the cart is unchanged. The added line is merged or appended as the cart does. |
| ProductDetailPage.CartLinePriceOmitsAdjustment | src/pages/ProductDetail.tsx:157-184 | The added line's effective price falls short of the displayed price by the size surcharge. It differs from the displayed price whenever the surcharge is non-zero. |
| AdminOrders.StatusValuesDistinct | src/components/admin/sections/AdminOrders.tsx:53-59 | The five status values are pending, preparing, shipped, delivered and canceled, and they are distinct. |
| AdminOrders.FilteredOrders | src/components/admin/sections/AdminOrders.tsx:121-123 | "all" lists every order. Any other filter lists exactly the orders with that status. |
| AdminOrders.FilterKeepsOrder | src/components/admin/sections/AdminOrders.tsx:121-123 | Every filter, "all" included, keeps the listed orders in their fetched order. |
| AdminOrders.StatusCountIsMultiplicity | src/components/admin/sections/AdminOrders.tsx:157 | A card's number is the multiplicity of its status among the orders. |
| AdminOrders.StatusCount | src/components/admin/sections/AdminOrders.tsx:157 | A card's number never exceeds the order count, and it is 0 exactly when no order has that status. |
| AdminOrders.StatusCountCons | src/components/admin/sections/AdminOrders.tsx:154-161 | One more order adds one to its own status's card and nothing to any other card. |
| AdminOrders.SumCountsCons | src/components/admin/sections/AdminOrders.tsx:154-161 | For distinct values, one more order adds one to the cards' total when its status is among the values, and nothing otherwise. |
| AdminOrders.CountsPartitionOrders | src/components/admin/sections/AdminOrders.tsx:154-161 | For distinct values, the cards plus the orders whose status is null or not among the values add up to all orders. |
| AdminOrders.CardsAtMostTotal | src/components/admin/sections/AdminOrders.tsx:154-161 | The five cards add up to the order count less the orders with a null or unknown status, and never to more than the order count. |
| AdminOrders.FindOption | src/components/admin/sections/AdminOrders.tsx:117 | The result is none exactly when no option has the status; otherwise it is an option whose value is the status. |
| AdminOrders.StatusBadge | src/components/admin/sections/AdminOrders.tsx:116-119 | A known status shows its own option; a null or unknown status shows the first one, "pending". |
| AdminOrders.SelectorValue | src/components/admin/sections/AdminOrders.tsx:206 | The selector never shows an empty value. A null or empty status shows "pending"; any other status shows itself. |
| AdminOrders.WithStatus | src/components/admin/sections/AdminOrders.tsx:102-106 | Same orders in the same order; exactly the order with the id takes the new status. |
| AdminOrders.AfterStatusChange | src/components/admin/sections/AdminOrders.tsx:102-114 | A failed update leaves the list as it was. A successful one shows the stored orders: the target takes the new status, and every other order is unchanged. |
| AdminProducts.GroupImages | src/components/admin/sections/AdminProducts.tsx:98-106 | The keys are exactly the products that have images, and each bucket holds that product's images in fetched order. |
| AdminProducts.PushedKeepsGrouped | src/components/admin/sections/AdminProducts.tsx:100-105 | Pushing the next image keeps the grouping exact. A missing bucket starts empty, and only the image's own bucket grows, by that image at its end. |
| AdminProducts.DropIndex | src/components/admin/sections/AdminProducts.tsx:136 | Every position except the index, in order; an index out of range changes nothing. |
| AdminProducts.WithText | src/components/admin/sections/AdminProducts.tsx:294-347 | The named text field or the category takes the new value; every other field keeps its own. |
| AdminProducts.FormOf | src/components/admin/sections/AdminProducts.tsx:168-178 | The form carries the product's names, price and discount. Null texts show as empty, a null active flag as on and a null featured flag as off. |
| AdminProducts.DataOf | src/components/admin/sections/AdminProducts.tsx:186-196 | The written columns carry the form's names, prices and flags. Each optional text is null exactly when its field is empty. |
| AdminProducts.ImageRows | src/components/admin/sections/AdminProducts.tsx:213-218 | Row i belongs to the product, carries URL i and sort order i, and is primary exactly when i is 0. |
| AdminProducts.ImagesAfterEdit | src/components/admin/sections/AdminProducts.tsx:209-220 | Other products' rows are always kept. A failed delete keeps every old row. A successful delete leaves only the new list's rows for the product. Without a successful insert, no row is added. |
| AdminProducts.ImagesAfterCreate | src/components/admin/sections/AdminProducts.tsx:234-243 | The old rows stay in front. One row per listed image is added exactly when the list is not empty and the insert succeeds. |
| AdminProducts.ProductDialog.constructor | src/components/admin/sections/AdminProducts.tsx:67-81 | The form is empty, nothing is being edited, no images are uploaded, and the dialog is closed. |
| AdminProducts.ProductDialog.ChangeText | src/components/admin/sections/AdminProducts.tsx:294-347 | A text input or the category changes that one field of the form; nothing else changes. |
| AdminProducts.ProductDialog.ChangePrice | src/components/admin/sections/AdminProducts.tsx:331 | The price input changes the form's price only. |
| AdminProducts.ProductDialog.ChangeDiscountPrice | src/components/admin/sections/AdminProducts.tsx:340 | The discount input changes the form's discount only. |
| AdminProducts.ProductDialog.ChangeActive | src/components/admin/sections/AdminProducts.tsx:407 | The active switch changes the form's active flag only. |
| AdminProducts.ProductDialog.ChangeFeatured | src/components/admin/sections/AdminProducts.tsx:414 | The featured switch changes the form's featured flag only. |
| AdminProducts.ProductDialog.Upload | src/components/admin/sections/AdminProducts.tsx:128-130 | A read file's data URL is appended to the list; nothing else changes. |
| AdminProducts.ProductDialog.RemoveImage | src/components/admin/sections/AdminProducts.tsx:135-137 | The image at the index is dropped from the list. |
| AdminProducts.ProductDialog.ResetForm | src/components/admin/sections/AdminProducts.tsx:139-153 | The form is empty, nothing is being edited and the list is empty. |
| AdminProducts.ProductDialog.Edit | src/components/admin/sections/AdminProducts.tsx:166-181 | The form is filled from the product and the dialog opens. When the image fetch answers, the list becomes the stored URLs in the order the fetch returns them. |
| AdminProducts.ProductDialog.Submit | src/components/admin/sections/AdminProducts.tsx:183-250 | The product columns written come from the form. A failed product write changes nothing. Otherwise the image table follows the edit or create path and the dialog resets and closes. |
| AdminProducts.ExactlyOnePrimary | src/components/admin/sections/AdminProducts.tsx:235-242 | A non-empty list yields exactly one primary row; an empty list yields no rows. |
| AdminProducts.RowsRoundTrip | src/components/admin/sections/AdminProducts.tsx:236-241 | Reading the written rows' URLs back in order gives the uploaded list. |
| AdminProducts.EditStoresFormList | src/components/admin/sections/AdminProducts.tsx:209-220 | When both image writes succeed, the product's stored rows are exactly its list's rows, and every other product's rows are untouched. |
| AdminProducts.CreateStoresFormList | src/components/admin/sections/AdminProducts.tsx:226-243 | When the images of a newly created product are inserted, its stored rows are exactly its list's rows (so its URLs are the list), and every other product's rows are untouched. |
| AdminProducts.EditRoundTrip | src/components/admin/sections/AdminProducts.tsx:168-196 | Saving an edited product unchanged writes back its fields. Empty text becomes null, a null active flag becomes true and a null featured flag becomes false. |
| AdminProducts.EmptyFormData | src/components/admin/sections/AdminProducts.tsx:186-196 | Saving the empty form writes null texts, no price, no discount, active and not featured. |
| HeroBanner.ViewOf | src/components/home/HeroBanner.tsx:57-158 | Loading shows the placeholder, and no ads shows the fallback. Otherwise the current ad is shown, with controls exactly when there is more than one ad. |
| HeroBanner.NextIndex | src/components/home/HeroBanner.tsx:54 | The next index is always among the ads. |
| HeroBanner.PreviousIndex | src/components/home/HeroBanner.tsx:50 | The previous index is always among the ads. |
| HeroBanner.Carousel.constructor | src/components/home/HeroBanner.tsx:18-19 | No ads; the index is 0. |
| HeroBanner.Carousel.AdsLoaded | src/components/home/HeroBanner.tsx:30-33 | The ads arrive and the index stays 0. |
| HeroBanner.Carousel.GoToNext | src/components/home/HeroBanner.tsx:53-55 | The index moves to the next ad and stays in range. |
| HeroBanner.Carousel.GoToPrevious | src/components/home/HeroBanner.tsx:49-51 | The index moves to the previous ad and stays in range. |
| HeroBanner.Carousel.Tick | src/components/home/HeroBanner.tsx:39-47 | The timer, which runs only with more than one ad, moves to the next ad. |
| HeroBanner.Carousel.SelectDot | src/components/home/HeroBanner.tsx:153 | Dot k selects ad k. |
| HeroBanner.NextWraps | src/components/home/HeroBanner.tsx:53-55 | Next wraps from the last ad to the first and otherwise moves one on. |
| HeroBanner.PreviousWraps | src/components/home/HeroBanner.tsx:49-51 | Previous wraps from the first ad to the last and otherwise moves one back. |
| HeroBanner.PreviousAfterNext | src/components/home/HeroBanner.tsx:49-55 | Previous undoes next, and next undoes previous. |
| HeroBanner.Steps | src/components/home/HeroBanner.tsx:42-44 | Any number of ticks keeps the index in range. |
| HeroBanner.StepsWithinTurn | src/components/home/HeroBanner.tsx:42-44 | Up to a full turn, k ticks move the index k places, wrapping once past the end. |
| HeroBanner.FullTurn | src/components/home/HeroBanner.tsx:42-44 | As many ticks as there are ads bring the carousel back to the ad it started on. |

## Left out

- Persistence in `localStorage` (loading on mount and saving on change in both hooks) is not modelled. Corrupt stored JSON falling back to an empty list is not modelled either.
- Line ids from `Date.now()` and `Math.random()` are a `freshId` parameter, assumed distinct from the ids in the cart.
- ShoppingCart.Cart.AddItem: the model treats lines as values. The hook raises the quantity on the line object that the previous state shares. That aliasing is not captured.
- Prices are whole numbers (`int`). Floating-point arithmetic and `parseFloat`/`toString` of the admin price fields are not modelled. A blank price field is `None`, standing for the NaN it produces.
- The discount percentage badge (`Math.round` of a ratio) on the product page is left out because it is floating point.
- Backend queries are parameters: fetch results, insert, update and delete outcomes, and the id a created row receives. Query filters and ordering (active only, sort order, newest first) are taken as given.
- AdminProducts.ProductDialog.Edit: the image fetch has no ordering, so the model does not constrain the order of the URLs it loads. Saving an edited product unchanged may therefore renumber its images and move the primary flag.
- The refetch after an admin save or status change is modelled as the table contents after the write. The loading flags of the admin sections are not modelled.
- The checkout redirect to the cart when it is empty, the five-second redirect after ordering, toasts, navigation and rendering are UI effects and are left out.
- The admin price inputs hold text. The model's `ChangePrice` and `ChangeDiscountPrice` take the amount the text parses to, and a blank input is `None`.
- The product page's thumbnail selection, its favourite button, its product/colour/image fetch sequence and its not-found redirect are left out. The loading of colours and sizes is modelled from the fetched data onward.
- HeroBanner.Carousel: the arrow, dot and timer methods require more than one ad, since the page only offers them then. The index is not reset if the ad list changes, because the page never reloads it.
- The interval's timing and its cleanup are not modelled; one tick is one step.
- Admin product deletion, the admin sections for categories, colours, sizes, governorates and ads, authentication and the dark-mode hook are not part of this model.
