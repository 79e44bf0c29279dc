# Shoe shop: cart and catalogue bookkeeping in Dafny

This project models the table bookkeeping of a small Django shoe shop (the
`store` app). It covers:

- the order totals on `Order` and `OrderProduct`;
- the product photo fallback and the size choices;
- the category tree filters and the favourites list of the template tags;
- the request handlers that compute or change tables: the category page's
  product list, the related-products picker, the checkout charge amount,
  the favourite toggle, the mailing-list sign-up and the cart clearing of
  `clear`.

Each database table is a sequence of rows in primary-key order. A foreign
key is the referenced row's id. Four modules follow the program's structure:

- `Orm` (`orm.dfy`) holds the parts of Django's query API the shop uses.
  `Filter` is `objects.filter`. `Get` is `objects.get`, which raises
  `DoesNotExist` or `MultipleObjectsReturned`. It also holds the exceptions
  as an `Error` datatype inside a `Result`.
- `Models` (`models.dfy`) holds the rows of `shop/store/models.py` and the
  order totals. Python's `sum` is a left fold, written as `Sum`.
- `StoreTags` (`store_tags.dfy`) holds the template tags of
  `shop/store/templatetags/store_tags.py`.
- `Views` (`views.dfy`) holds the handlers of `shop/store/views.py`.
  - The pure computations are functions.
  - The handlers that write to the database are methods of a `Database`
    class. Its fields are the tables. Its `Valid()` predicate states the
    schema constraints these views rely on:
    - unique keys for categories, products and lines;
    - unique slugs for categories and products;
    - lines and favourites that refer to products;
    - unique mail addresses.
  - `Database.Clear` is the loop of `clear`. It deletes one line and
    restocks one product per iteration. It is proved against the pure
    functions `OtherLines` and `Restocked`, and stock conservation is proved
    about those functions.

The request's user, query parameters, posted fields and random draws are
parameters. `MEDIA_URL` (the prefix of a stored file's URL) is a parameter
of `FirstPhoto`.

## Model

| member | source | states |
|---|---|---|
| Models.ParseSize | shop/store/models.py:8-14 | a size value is accepted exactly when it is one of the six choices '39'..'44', and the parsed choice has that value |
| Models.SizeChoicesAreTheSixValues | shop/store/models.py:8-14 | every size is among the six choices, its value is one of '39'..'44', and the default size is '39' (models.py:51-52) |
| Models.FirstPhoto | shop/store/models.py:57-64 | the URL of the product's first gallery image; the placeholder URL when the product has no image or its first image has no file |
| Models.ProductWithId | shop/store/models.py:177-180 | the product a line's key refers to is a row of the product table with that key |
| Models.ProductWithIdUnique | shop/store/models.py:177-180 | under unique product keys, the product found for a key is the one row with that key |
| Models.LineTotal | shop/store/models.py:177-180 | a line's total is the price of a product row carrying the line's product key, times the line's quantity |
| Models.LineTotalIsPriceTimesQuantity | shop/store/models.py:177-180 | a line's total is its product's price times the line's quantity |
| Models.CartTotalPrice | shop/store/models.py:154-158 | the sum of price × quantity over the order's lines, in table order; 0 when the order has no lines |
| Models.CartTotalQuantity | shop/store/models.py:160-164 | the sum of the quantities of the order's lines; 0 when the order has no lines |
| Models.CartTotalsOfEmptyOrder | shop/store/models.py:154-164 | an order without lines has total price 0 and total quantity 0 |
| Models.CartTotalsAddLine | shop/store/models.py:154-164 | adding a line of the order raises the total price by exactly price × quantity and the total quantity by exactly the quantity; a line of another order changes neither |
| Models.CartTotalsNonNegative | shop/store/models.py:154-170 | when the order's lines have non-negative quantities and the products they refer to have non-negative prices, both totals are non-negative; other products' prices do not matter |
| StoreTags.TopLevelCategories | shop/store/templatetags/store_tags.py:7-9 | exactly the categories without a parent, each as often as in the table |
| StoreTags.Subcategories | shop/store/templatetags/store_tags.py:12-14 | exactly the categories whose parent is the given category, each as often as in the table |
| StoreTags.CategoryLevelsAreDisjoint | shop/store/templatetags/store_tags.py:7-14 | no category is both top-level and a subcategory; a category with a parent is listed under it |
| StoreTags.SortGroups | shop/store/templatetags/store_tags.py:17-35 | two groups, 'By price' then 'By size', each with an ascending and a descending option, the descending key being '-' followed by the ascending key |
| StoreTags.FavouriteProducts | shop/store/templatetags/store_tags.py:38-42 | one product per favourite row of the user, in row order, each the product that row refers to |
| StoreTags.FavouriteProductsAddRow | shop/store/templatetags/store_tags.py:38-42 | another user's row leaves the user's list unchanged; a row of the user appends its product |
| Views.CategoryPageProducts | shop/store/views.py:37-49 | for a request without `sort` (see Left out), with a `type` slug, exactly the products whose category has that slug; otherwise the main category is fetched with `get`, which fails when no category or several categories carry the slug |
| Views.UniqueCategorySlugsAtMostOne | shop/store/models.py:20 | the unique constraint on category slugs lets `get(slug=...)` match at most one category, which `MainCategoryPage` requires |
| Views.MainCategoryPage | shop/store/views.py:44-46 | for an existing main category with a unique slug, exactly the products whose category is a direct subcategory of it |
| Views.DirectProductsExcluded | shop/store/views.py:44-46 | a product attached directly to the main category is not listed on its page, unless the main category is its own parent (the self-referencing foreign key at models.py:21-23 allows that) |
| Views.RelatedProducts | shop/store/views.py:68-75 | the list has no more entries than draws and no two entries with the same key; every entry was drawn, every drawn product is in the list, and the first draw is first |
| Views.PickRelated | shop/store/views.py:68-75 | the loop of four draws gives `RelatedProducts`; an empty catalogue raises ValueError; otherwise 1 to 4 distinct catalogue products |
| Views.CheckoutLineItems | shop/store/views.py:299-311 | one line item, quantity 1, unit amount the total price × 100, in usd |
| Views.OrderCharge | shop/store/views.py:299-311 | the charge for an order is one line of quantity 1 whose unit amount is 100 times the order's total price; 0 for an order without lines |
| Views.OrderChargeAddLine | shop/store/views.py:299-311 | the charge stays one line; adding a line of the order raises its amount by 100 times that line's total |
| Views.OrderChargeNonNegative | shop/store/views.py:299-311 | when the order's lines have non-negative quantities and the products they refer to have non-negative prices, the charged amount is non-negative |
| Views.ToggleFavourite | shop/store/views.py:154-159 | an absent row is appended; a present row is removed and the other rows keep their order; a duplicated row makes `get` raise MultipleObjectsReturned |
| Views.ToggleFavouriteTwice | shop/store/views.py:154-159 | toggling twice restores the table: exactly when the row was absent, and as a multiset when it was present |
| Views.UniqueProductSlugsAtMostOne | shop/store/views.py:152 | under the unique constraint on product slugs (models.py:47), `Product.objects.get(slug=...)` never raises MultipleObjectsReturned |
| Views.SaveFavourite | shop/store/views.py:150-159 | an unknown or duplicated slug raises before the user is checked; an anonymous user changes nothing; an authenticated user toggles the (user, product) row |
| Views.SubmitMail | shop/store/views.py:177-188 | no address or an empty one changes nothing; an address already among the user's rows is reported and changes nothing; a new address is appended, unless another user's row holds it, which raises IntegrityError |
| Views.SubmitMailKeepsAddressesUnique | shop/store/views.py:177-188 | a successful sign-up keeps addresses unique |
| Views.Restocked | shop/store/views.py:331-336 | the product table after the cleared lines gave back their stock one after another: same rows in the same order, only stock changed |
| Views.OtherLines | shop/store/views.py:330-334 | the lines left after `clear`: exactly the lines of the other orders, in table order |
| Views.RestockedStock | shop/store/views.py:331-336 | after the cleared lines give back their stock, each product's stock has grown by exactly the quantities of the cleared lines that refer to it, and nothing else about it changed |
| Views.ReturnedStockUnreferenced | shop/store/views.py:331-336 | a product no cleared line refers to gets nothing back |
| Views.ClearConservesStock | shop/store/views.py:327-338 | clearing an order raises the catalogue's total stock by exactly the order's total quantity |
| Views.DeletingOrderLines | shop/store/views.py:330-334 | under unique line keys, deleting the order's lines by key leaves exactly the other orders' lines |
| Views.ClearEmptiesOrder | shop/store/views.py:330-334 | after clearing, the order has no lines and both its totals are 0 |
| Views.ClearKeepsOtherOrders | shop/store/views.py:327-338 | clearing an order leaves every other order's lines as they were |
| Views.ClearLineKeepsSchema | shop/store/views.py:332-336 | deleting one line and raising one product's stock keeps the product keys and slugs, the line keys, and every reference to a product |
| Views.ClearOutcome | shop/store/views.py:327-338 | after the loop, the line and product tables are the other orders' lines and the restocked products, and the schema's keys and references still hold |
| Views.Database.constructor | shop/store/models.py:18-175 | an empty database satisfies the schema's constraints |
| Views.Database.ClearLine | shop/store/views.py:332-336 | one iteration deletes the line by key and adds its quantity to its product's stock; the other tables are untouched; the constraints are kept |
| Views.Database.Clear | shop/store/views.py:327-338 | the lines become the other orders' lines; each product's stock grows by the order's quantities of it; orders and the other tables are unchanged; the constraints are kept |
| Views.Database.SaveFavouriteProduct | shop/store/views.py:150-161 | the favourites table becomes what `SaveFavourite` gives, or stays unchanged on a returned error; the slug lookup never finds several products; other tables are unchanged; constraints are kept |
| Views.Database.SaveMail | shop/store/views.py:177-188 | the mail table becomes what `SubmitMail` gives, or stays on IntegrityError; other tables are unchanged; constraints are kept |

## Left out

- `CartForAuthenticatedUser` and `get_cart_data` (shop/store/utils.py) are not part of this model. This includes adding to and removing from the cart, creating the order, and the `.clear()` that `clear2` and `success_payment` call. The order and its lines are inputs.
- `clear_cart` is routed to `clear2` in shop/store/urls.py:32. This model is of `clear`, whose body is visible.
- Views.OrderCharge: the cart total handed to the payment session comes from `get_cart_info()`. That code is not part of this model. The charge is computed from the order's `CartTotalPrice`, on the assumption that the cart's total price is the order's total.
- The payment session itself, its redirect and its URLs are external calls and are left out. Its `cancel_url` also points to the success page. The same goes for every `send_mail` call and for the e-mail text built from the cart.
- Rendering, redirects, flash messages, login, logout, registration, forms, reviews (`save_review`) and the admin site are framework glue.
- Views.CategoryPageProducts: models a request with no `sort` parameter. The `type` branch returns before any sorting (views.py:40-42), so there the result is the same for every `sort`. Without `type`, a valid `sort` key (such as `price` or `-price`) only reorders the listed products; the model gives their content, not their order. The `size` and `-size` keys that the template offers (store_tags.py:30-31) are not fields of `Product` (the field is `product_size`). So `order_by` raises a FieldError and the page fails instead of listing anything. That failure is not modelled.
- The page size of 8 on the category page is pagination and is not modelled.
- `randint` is left out: the random indices are a parameter (`draws`).
- Views.Database.Clear: `price` and `quantity` are `IntegerField` columns (models.py:42, 50, 170), which the database bounds. The model uses unbounded integers, so it does not capture a save that fails because the raised stock leaves the column's range. In `clear` that failure would come after the line was already deleted (views.py:334-336). The same holds for the totals and the checkout amount, which the model never bounds.
- Concurrency and transactions: each request runs alone and in sequence.
- Null foreign keys, null line quantities and the `created_at`/`added_at` timestamps are not modelled. A line always refers to a product and holds an integer quantity.
- Models.FirstPhoto: the storage URL is `mediaUrl` followed by the file name. The storage backend's URL quoting is not modelled.
- The size choices are enforced by form validation in Django, not by the database. In the model, a product's size is one of the six choices by type; `ParseSize` is the validation.
- `get_favourite_products` for an anonymous user is not modelled: favourite rows always have a user.
- Views.ToggleFavourite: favourite rows are values without their own primary key. Deleting the fetched row removes the one copy of that value, so the order of the remaining rows is kept.
- Titles, descriptions and other display-only fields are not modelled.
