/** The request handlers of shop/store/views.py that compute or change the
    shop's tables: the category page's product list, the related-products
    picker, the checkout charge, the favourite toggle, the mailing-list
    sign-up and the cart clearing of `clear`. Each handler is one sequential
    request; the request's user, parameters and random draws are inputs. */
module Views {
  import opened Orm
  import opened Models
  import opened StoreTags

  // ===========================================================================
  // Category page (`CategoryView.get_queryset`)

  function HasSlug(slug: string): Category -> bool
  {
    (c: Category) => c.slug == Some(slug)
  }

  /** `category__slug=slug`: the product's category carries the slug. */
  function InCategoryWithSlug(categories: seq<Category>, slug: string): Product -> bool
  {
    (p: Product) => exists c :: c in categories && c.id == p.category && c.slug == Some(slug)
  }

  /** `category__in=chosen`: the product's category is one of `chosen`. */
  function InCategories(chosen: seq<Category>): Product -> bool
  {
    (p: Product) => exists c :: c in chosen && c.id == p.category
  }

  /** `if type_field:` holds for a present, non-empty query parameter. */
  predicate TypeGiven(typeParam: Option<string>)
  {
    typeParam.Some? && typeParam.value != ""
  }

  /** The products listed on the page of category `mainSlug`. With a `type`
      parameter, the products whose category has that slug; the list itself
      does not look the main category up, although the page's context still
      fetches it with the same `get` and so fails on the same slugs.
      Otherwise the main category is fetched with `get`
      and the products of its direct subcategories are listed. The request
      carries no `sort`: a valid sort key would only reorder the list, and
      the `size` keys the page offers name no field, so `order_by` would fail. */
  function CategoryPageProducts(products: seq<Product>, categories: seq<Category>,
                                mainSlug: string, typeParam: Option<string>): (r: Result<seq<Product>>)
    ensures TypeGiven(typeParam) ==>
              r.Ok? &&
              forall p :: p in r.value <==>
                p in products && exists c :: c in categories && c.id == p.category && c.slug == typeParam
    ensures !TypeGiven(typeParam) ==>
              (r.Err? <==> |Filter(categories, HasSlug(mainSlug))| != 1) &&
              (r == Err(DoesNotExist) <==> forall c :: c in categories ==> c.slug != Some(mainSlug))
  {
    if TypeGiven(typeParam) then
      Ok(Filter(products, InCategoryWithSlug(categories, typeParam.value)))
    else
      match Get(categories, HasSlug(mainSlug))
      case Err(e) => Err(e)
      case Ok(main) => Ok(Filter(products, InCategories(Subcategories(categories, main))))
  }

  /** Under the unique constraint on slugs, the page of an existing main
      category lists exactly the products whose category is a direct
      subcategory of it. */
  lemma MainCategoryPage(products: seq<Product>, categories: seq<Category>, mainSlug: string,
                         typeParam: Option<string>, main: Category)
    requires !TypeGiven(typeParam)
    requires main in categories && main.slug == Some(mainSlug)
    requires AtMostOne(categories, HasSlug(mainSlug))
    ensures CategoryPageProducts(products, categories, mainSlug, typeParam).Ok?
    ensures forall p :: p in CategoryPageProducts(products, categories, mainSlug, typeParam).value <==>
              p in products && exists c :: c in categories && c.id == p.category && c.parent == Some(main.id)
  {
    GetUnique(categories, HasSlug(mainSlug), main);
    var subs := Subcategories(categories, main);
    forall p ensures InCategories(subs)(p) <==>
                     exists c :: c in categories && c.id == p.category && c.parent == Some(main.id)
    {
    }
  }

  /** The primary-key constraint on the category table. */
  predicate UniqueCategoryIds(categories: seq<Category>)
  {
    forall i, j :: 0 <= i < j < |categories| ==> categories[i].id != categories[j].id
  }

  /** The unique constraint on `Category.slug`; rows without a slug are exempt. */
  predicate UniqueCategorySlugs(categories: seq<Category>)
  {
    forall i, j :: 0 <= i < j < |categories| && categories[i].slug.Some? ==> categories[i].slug != categories[j].slug
  }

  /** Under the unique constraint on slugs, `get(slug=...)` can match at most
      one category. */
  lemma UniqueCategorySlugsAtMostOne(categories: seq<Category>, slug: string)
    requires UniqueCategorySlugs(categories)
    ensures AtMostOne(categories, HasSlug(slug))
  {
    forall i, j | 0 <= i < j < |categories| && HasSlug(slug)(categories[i])
      ensures !HasSlug(slug)(categories[j])
    {
      assert categories[i].slug.Some?;
    }
  }

  /** A product attached directly to the main category (rather than to one of
      its subcategories) is not listed on the main category's page. */
  lemma DirectProductsExcluded(products: seq<Product>, categories: seq<Category>, mainSlug: string,
                               typeParam: Option<string>, main: Category, p: Product)
    requires !TypeGiven(typeParam)
    requires main in categories && main.slug == Some(mainSlug)
    requires AtMostOne(categories, HasSlug(mainSlug))
    requires UniqueCategoryIds(categories)
    requires main.parent != Some(main.id)
    requires p.category == main.id
    ensures CategoryPageProducts(products, categories, mainSlug, typeParam).Ok?
    ensures p !in CategoryPageProducts(products, categories, mainSlug, typeParam).value
  {
    MainCategoryPage(products, categories, mainSlug, typeParam, main);
    forall c | c in categories && c.id == p.category
      ensures c.parent != Some(main.id)
    {
      var i :| 0 <= i < |categories| && categories[i] == c;
      var j :| 0 <= j < |categories| && categories[j] == main;
      assert i == j;
    }
  }

  // ===========================================================================
  // Related products (`ProductDetail.get_context_data`)

  /** Every draw of `randint(0, len(products) - 1)` is an index of the catalogue. */
  predicate DrawsInRange(products: seq<Product>, draws: seq<int>)
  {
    forall i :: 0 <= i < |draws| ==> 0 <= draws[i] < |products|
  }

  function IdsOf(ps: seq<Product>): set<ProductId>
  {
    set p | p in ps :: p.id
  }

  /** The list the related-products loop builds from the catalogue and the
      random draws: each drawn product is appended unless a product with the
      same primary key is already in the list (model equality is by key). */
  function RelatedProducts(products: seq<Product>, draws: seq<int>): (r: seq<Product>)
    requires DrawsInRange(products, draws)
    ensures |r| <= |draws|
    ensures forall i, j :: 0 <= i < j < |r| ==> r[i].id != r[j].id
    ensures forall p :: p in r ==> exists i :: 0 <= i < |draws| && products[draws[i]] == p
    ensures forall i :: 0 <= i < |draws| ==> products[draws[i]].id in IdsOf(r)
    ensures |draws| > 0 ==> r != [] && r[0] == products[draws[0]]
  {
    if draws == [] then []
    else
      var earlier := draws[..|draws| - 1];
      var picked := RelatedProducts(products, earlier);
      var p := products[draws[|draws| - 1]];
      assert forall i :: 0 <= i < |earlier| ==> earlier[i] == draws[i];
      if p.id in IdsOf(picked) then picked else picked + [p]
  }

  /** The related-products loop: four draws, duplicates skipped. An empty
      catalogue makes the first `randint(0, -1)` raise ValueError. */
  method PickRelated(products: seq<Product>, draws: seq<int>) returns (r: Result<seq<Product>>)
    requires |draws| == 4
    requires |products| > 0 ==> DrawsInRange(products, draws)
    ensures |products| == 0 <==> r == Err(ValueError)
    ensures |products| > 0 ==> r == Ok(RelatedProducts(products, draws))
    ensures r.Ok? ==>
              1 <= |r.value| <= 4 &&
              (forall i, j :: 0 <= i < j < |r.value| ==> r.value[i].id != r.value[j].id) &&
              (forall p :: p in r.value ==> p in products)
  {
    var data: seq<Product> := [];
    for i := 0 to 4
      invariant i > 0 ==> |products| > 0
      invariant |products| > 0 ==> data == RelatedProducts(products, draws[..i])
    {
      if |products| == 0 {
        return Err(ValueError);
      }
      var p := products[draws[i]];
      assert draws[..i + 1][..i] == draws[..i];
      if p.id !in IdsOf(data) {
        data := data + [p];
      }
    }
    assert draws[..4] == draws;
    r := Ok(data);
  }

  // ===========================================================================
  // Checkout charge (`create_checkout_session`)

  /** A line of the payment session: `price_data` and `quantity`. */
  datatype ChargeLine = ChargeLine(currency: string, productName: string, unitAmount: int, quantity: int)

  /** The session's line items for a cart total: one aggregate line of the
      total in cents, quantity 1. */
  function CheckoutLineItems(totalPrice: int): (r: seq<ChargeLine>)
    ensures |r| == 1
    ensures r[0].quantity == 1 && r[0].unitAmount == totalPrice * 100
    ensures r[0].currency == "usd" && r[0].productName == "1357 ELITE product"
  {
    [ChargeLine("usd", "1357 ELITE product", totalPrice * 100, 1)]
  }

  /** The charge for an order's cart. */
  function OrderCharge(lines: seq<OrderLine>, products: seq<Product>, order: OrderId): (r: seq<ChargeLine>)
    requires LinesResolve(LinesOf(lines, order), products)
    ensures |r| == 1 && r[0].quantity == 1
    ensures r[0].unitAmount == 100 * CartTotalPrice(lines, products, order)
    ensures (forall l :: l in lines ==> l.order != order) ==> r[0].unitAmount == 0
  {
    CheckoutLineItems(CartTotalPrice(lines, products, order))
  }

  /** The charge is a single line whose amount is the order's total price in
      cents; adding a line of the order raises it by 100 times that line's
      total, and a line of another order leaves it alone. */
  lemma OrderChargeAddLine(lines: seq<OrderLine>, products: seq<Product>, order: OrderId, line: OrderLine)
    requires LinesResolve(LinesOf(lines, order), products)
    requires HasProduct(products, line.product)
    ensures LinesResolve(LinesOf(lines + [line], order), products)
    ensures |OrderCharge(lines + [line], products, order)| == 1
    ensures OrderCharge(lines + [line], products, order)[0].unitAmount ==
            OrderCharge(lines, products, order)[0].unitAmount +
            (if line.order == order then 100 * LineTotal(line, products) else 0)
  {
    CartTotalsAddLine(lines, products, order, line);
  }

  /** With non-negative prices and quantities the charged amount is not negative. */
  lemma OrderChargeNonNegative(lines: seq<OrderLine>, products: seq<Product>, order: OrderId)
    requires LinesResolve(LinesOf(lines, order), products)
    requires forall l :: l in lines && l.order == order ==> l.quantity >= 0
    requires forall l, p :: l in lines && l.order == order && p in products && p.id == l.product ==> p.price >= 0
    ensures OrderCharge(lines, products, order)[0].unitAmount >= 0
  {
    CartTotalsNonNegative(lines, products, order);
  }

  // ===========================================================================
  // Favourite toggle (`save_favourite_product`)

  function SameRow<T(==)>(row: T): T -> bool
  {
    (x: T) => x == row
  }

  function OtherRow<T(==)>(row: T): T -> bool
  {
    (x: T) => x != row
  }

  lemma {:induction false} FilterSameRowCount<T(!new)>(rows: seq<T>, row: T)
    ensures |Filter(rows, SameRow(row))| == multiset(rows)[row]
  {
    if rows != [] {
      assert rows == [rows[0]] + rows[1..];
      FilterSameRowCount(rows[1..], row);
    }
  }

  lemma {:induction false} FilterKeepsAll<T(!new)>(rows: seq<T>, keep: T -> bool)
    requires forall x :: x in rows ==> keep(x)
    ensures Filter(rows, keep) == rows
  {
    if rows != [] {
      assert rows == [rows[0]] + rows[1..];
      FilterKeepsAll(rows[1..], keep);
    }
  }

  /** Toggling the favourite row `row` (a user and a product): the row is
      created when absent; when present, `get` fetches it and it is deleted,
      and a duplicated row makes `get` raise. */
  function ToggleFavourite(rows: seq<Favourite>, row: Favourite): (r: Result<seq<Favourite>>)
    ensures r.Err? <==> multiset(rows)[row] > 1
    ensures r.Err? ==> r.error == MultipleObjectsReturned
    ensures r.Ok? ==> multiset(r.value) == if row in rows then multiset(rows)[row := 0]
                                           else multiset(rows) + multiset{row}
    ensures r.Ok? && row !in rows ==> r.value == rows + [row]
    ensures r.Ok? && row in rows ==>
              exists i :: 0 <= i < |rows| && rows[i] == row && r.value == rows[..i] + rows[i + 1..]
  {
    FilterSameRowCount(rows, row);
    if row !in rows then Ok(rows + [row])
    else
      match Get(rows, SameRow(row))
      case Err(e) => Err(e)
      case Ok(_) =>
        FilterCounts(rows, OtherRow(row));
        FilterRemovesOnlyCopy(rows, row);
        Ok(Filter(rows, OtherRow(row)))
  }

  lemma FilterDropsOnlyCopyAtHead<T(!new)>(rows: seq<T>, row: T)
    requires rows != [] && rows[0] == row && multiset(rows)[row] == 1
    ensures Filter(rows, OtherRow(row)) == rows[1..]
  {
    assert rows == [rows[0]] + rows[1..];
    assert row !in rows[1..] by { assert multiset(rows[1..])[row] == 0; }
    FilterKeepsAll(rows[1..], OtherRow(row));
  }

  /** Deleting the one copy of a row, at position `i`, keeps the other rows
      in their order. */
  lemma {:induction false} FilterRemovesRowAt<T(!new)>(rows: seq<T>, row: T, i: nat)
    requires i < |rows| && rows[i] == row && row !in rows[..i]
    requires multiset(rows)[row] == 1
    ensures Filter(rows, OtherRow(row)) == rows[..i] + rows[i + 1..]
  {
    if i == 0 {
      FilterDropsOnlyCopyAtHead(rows, row);
      assert rows[..0] + rows[1..] == rows[1..];
    } else {
      var rest := rows[1..];
      assert rows == [rows[0]] + rest;
      assert rows[0] in rows[..i];
      assert rest[..i - 1] == rows[1..i];
      assert row !in rest[..i - 1];
      FilterRemovesRowAt(rest, row, i - 1);
      assert [rows[0]] + (rest[..i - 1] + rest[i..]) == rows[..i] + rows[i + 1..];
    }
  }

  /** Deleting the one copy of a row keeps the other rows in their order. */
  lemma FilterRemovesOnlyCopy<T(!new)>(rows: seq<T>, row: T)
    requires multiset(rows)[row] == 1
    ensures exists i :: 0 <= i < |rows| && rows[i] == row && Filter(rows, OtherRow(row)) == rows[..i] + rows[i + 1..]
  {
    assert row in multiset(rows);
    var i := FirstCopy(rows, row);
    FilterRemovesRowAt(rows, row, i);
  }

  /** The position of the first copy of a row in the table. */
  lemma {:induction false} FirstCopy<T>(rows: seq<T>, row: T) returns (i: nat)
    requires row in rows
    ensures i < |rows| && rows[i] == row && row !in rows[..i]
  {
    if rows[0] == row {
      i := 0;
    } else {
      assert row in rows[1..];
      var j := FirstCopy(rows[1..], row);
      i := j + 1;
      assert rows[..i] == [rows[0]] + rows[1..][..j];
    }
  }

  /** Toggling twice restores the table: exactly when the row was absent, and
      up to the position of the row when it was present. */
  lemma ToggleFavouriteTwice(rows: seq<Favourite>, row: Favourite)
    requires ToggleFavourite(rows, row).Ok?
    ensures ToggleFavourite(ToggleFavourite(rows, row).value, row).Ok?
    ensures multiset(ToggleFavourite(ToggleFavourite(rows, row).value, row).value) == multiset(rows)
    ensures row !in rows ==> ToggleFavourite(ToggleFavourite(rows, row).value, row).value == rows
  {
    var once := ToggleFavourite(rows, row).value;
    if row !in rows {
      assert row in once;
      FilterSameRowCount(once, row);
      FilterAppend(rows, [row], OtherRow(row));
      FilterKeepsAll(rows, OtherRow(row));
    } else {
      assert row !in once;
    }
  }

  function HasProductSlug(slug: string): Product -> bool
  {
    (p: Product) => p.slug == Some(slug)
  }

  /** Under the unique constraint on product slugs, the slug lookup of
      `save_favourite_product` never finds several products. */
  lemma UniqueProductSlugsAtMostOne(products: seq<Product>, slug: string)
    requires UniqueProductSlugs(products)
    ensures AtMostOne(products, HasProductSlug(slug))
    ensures Get(products, HasProductSlug(slug)) != Err(MultipleObjectsReturned)
  {
    forall i, j | 0 <= i < j < |products| && HasProductSlug(slug)(products[i])
      ensures !HasProductSlug(slug)(products[j])
    {
      assert products[i].slug.Some?;
    }
    var found := Filter(products, HasProductSlug(slug));
    if found != [] {
      assert found[0] in products;
      var k :| 0 <= k < |products| && products[k] == found[0];
      GetUnique(products, HasProductSlug(slug), products[k]);
    }
  }

  /** `save_favourite_product`: the product is fetched by slug first, so an
      unknown slug raises even for an anonymous user; an anonymous user's
      request changes nothing; an authenticated user's toggles the row. */
  function SaveFavourite(products: seq<Product>, favourites: seq<Favourite>,
                         user: Option<UserId>, slug: string): (r: Result<seq<Favourite>>)
    ensures Get(products, HasProductSlug(slug)).Err? ==> r == Err(Get(products, HasProductSlug(slug)).error)
    ensures Get(products, HasProductSlug(slug)).Ok? && user.None? ==> r == Ok(favourites)
    ensures Get(products, HasProductSlug(slug)).Ok? && user.Some? ==>
              r == ToggleFavourite(favourites, Favourite(user.value, Get(products, HasProductSlug(slug)).value.id))
  {
    match Get(products, HasProductSlug(slug))
    case Err(e) => Err(e)
    case Ok(product) =>
      if user.Some? then ToggleFavourite(favourites, Favourite(user.value, product.id)) else Ok(favourites)
  }

  // ===========================================================================
  // Mailing-list sign-up (`save_mail`)

  datatype MailOutcome = Saved | AlreadyRegistered | NoAddress

  datatype MailSave = MailSave(outcome: MailOutcome, rows: seq<MailRow>)

  /** The unique constraint on `Mail.mail`. */
  predicate UniqueMails(rows: seq<MailRow>)
  {
    forall i, j :: 0 <= i < j < |rows| ==> rows[i].mail != rows[j].mail
  }

  /** `save_mail`: an absent or empty address is ignored; an address already
      among the user's rows (for an anonymous user, among the rows without a
      user) is reported; otherwise the row is created, which raises when
      another user's row holds the address (the unique constraint). */
  function SubmitMail(rows: seq<MailRow>, email: Option<string>, user: Option<UserId>): (r: Result<MailSave>)
    ensures r.Ok? && r.value.outcome == NoAddress <==> email.None? || email.value == ""
    ensures r.Ok? && r.value.outcome == AlreadyRegistered <==>
              email.Some? && email.value != "" && MailRow(email.value, user) in rows
    ensures r.Ok? && r.value.outcome == Saved <==>
              email.Some? && email.value != "" && forall m :: m in rows ==> m.mail != email.value
    ensures r.Err? <==>
              email.Some? && email.value != "" && MailRow(email.value, user) !in rows &&
              exists m :: m in rows && m.mail == email.value
    ensures r.Err? ==> r.error == IntegrityError
    ensures r.Ok? ==> r.value.rows == if r.value.outcome == Saved then rows + [MailRow(email.value, user)] else rows
  {
    if email.None? || email.value == "" then Ok(MailSave(NoAddress, rows))
    else if MailRow(email.value, user) in rows then Ok(MailSave(AlreadyRegistered, rows))
    else if exists m :: m in rows && m.mail == email.value then Err(IntegrityError)
    else Ok(MailSave(Saved, rows + [MailRow(email.value, user)]))
  }

  /** A sign-up never breaks the uniqueness of addresses. */
  lemma SubmitMailKeepsAddressesUnique(rows: seq<MailRow>, email: Option<string>, user: Option<UserId>)
    requires UniqueMails(rows)
    ensures SubmitMail(rows, email, user).Ok? ==> UniqueMails(SubmitMail(rows, email, user).value.rows)
  {
    var r := SubmitMail(rows, email, user);
    if r.Ok? && r.value.outcome == Saved {
      var after := r.value.rows;
      forall i, j | 0 <= i < j < |after| ensures after[i].mail != after[j].mail {
        if j == |rows| {
          assert after[i] in rows;
        }
      }
    }
  }

  // ===========================================================================
  // Cart clearing (`clear`)

  function OfProductLine(product: ProductId): OrderLine -> bool
  {
    (l: OrderLine) => l.product == product
  }

  function OutsideOrder(order: OrderId): OrderLine -> bool
  {
    (l: OrderLine) => l.order != order
  }

  function IdNotIn(ids: set<LineId>): OrderLine -> bool
  {
    (l: OrderLine) => l.id !in ids
  }

  /** The stock given back to `product` when the lines `cleared` are deleted:
      the total quantity of those of them that refer to it. */
  function ReturnedStock(cleared: seq<OrderLine>, product: ProductId): int
  {
    Sum(Quantities(Filter(cleared, OfProductLine(product))))
  }

  /** `product.quantity += quantity; product.save()` for the product with key
      `product`. */
  function AddStock(products: seq<Product>, product: ProductId, amount: int): (r: seq<Product>)
    ensures |r| == |products|
    ensures forall k :: 0 <= k < |r| ==>
              r[k] == if products[k].id == product then products[k].(quantity := products[k].quantity + amount)
                      else products[k]
  {
    seq(|products|, k requires 0 <= k < |products| =>
      if products[k].id == product then products[k].(quantity := products[k].quantity + amount) else products[k])
  }

  /** The product table after the lines `cleared` have given back their stock,
      one after another. */
  function Restocked(products: seq<Product>, cleared: seq<OrderLine>): (r: seq<Product>)
    ensures |r| == |products|
    ensures forall k :: 0 <= k < |r| ==> r[k] == products[k].(quantity := r[k].quantity)
  {
    if cleared == [] then products
    else
      var last := cleared[|cleared| - 1];
      AddStock(Restocked(products, cleared[..|cleared| - 1]), last.product, last.quantity)
  }

  /** `order_product.delete()` for every line whose key is in `ids`. */
  function DeleteLines(lines: seq<OrderLine>, ids: set<LineId>): seq<OrderLine>
  {
    Filter(lines, IdNotIn(ids))
  }

  /** The lines of all orders but `order`, in table order. */
  function OtherLines(lines: seq<OrderLine>, order: OrderId): (r: seq<OrderLine>)
    ensures forall l :: l in r <==> l in lines && l.order != order
  {
    Filter(lines, OutsideOrder(order))
  }

  function LineIds(lines: seq<OrderLine>): set<LineId>
  {
    set l | l in lines :: l.id
  }

  /** The primary-key constraint on the order-line table. */
  predicate UniqueLineIds(lines: seq<OrderLine>)
  {
    forall i, j :: 0 <= i < j < |lines| ==> lines[i].id != lines[j].id
  }

  lemma ReturnedStockAppendLine(cleared: seq<OrderLine>, line: OrderLine, product: ProductId)
    ensures ReturnedStock(cleared + [line], product) ==
            ReturnedStock(cleared, product) + (if line.product == product then line.quantity else 0)
  {
    var mine := Filter(cleared, OfProductLine(product));
    FilterAppend(cleared, [line], OfProductLine(product));
    assert Filter([line], OfProductLine(product)) == if line.product == product then [line] else [];
    if line.product == product {
      QuantitiesAppendLine(mine, line);
      SumAppend(Quantities(mine), [line.quantity]);
    } else {
      assert Filter(cleared + [line], OfProductLine(product)) == mine;
    }
  }

  /** Each product's stock grows by exactly the quantity the cleared lines
      held of it; nothing else about the product table changes. */
  lemma {:induction false} RestockedStock(products: seq<Product>, cleared: seq<OrderLine>)
    ensures |Restocked(products, cleared)| == |products|
    ensures forall k :: 0 <= k < |products| ==>
              Restocked(products, cleared)[k] ==
              products[k].(quantity := products[k].quantity + ReturnedStock(cleared, products[k].id))
  {
    if cleared == [] {
      forall k | 0 <= k < |products|
        ensures ReturnedStock(cleared, products[k].id) == 0
      {
        assert Filter(cleared, OfProductLine(products[k].id)) == [];
      }
    } else {
      var earlier := cleared[..|cleared| - 1];
      var last := cleared[|cleared| - 1];
      assert cleared == earlier + [last];
      RestockedStock(products, earlier);
      forall k | 0 <= k < |products|
        ensures ReturnedStock(cleared, products[k].id) ==
                ReturnedStock(earlier, products[k].id) + (if last.product == products[k].id then last.quantity else 0)
      {
        ReturnedStockAppendLine(earlier, last, products[k].id);
      }
    }
  }

  /** A product that no cleared line refers to keeps its stock. */
  lemma ReturnedStockUnreferenced(cleared: seq<OrderLine>, product: ProductId)
    requires forall l :: l in cleared ==> l.product != product
    ensures ReturnedStock(cleared, product) == 0
  {
  }

  lemma {:induction false} DeleteLinesTwice(lines: seq<OrderLine>, ids: set<LineId>, more: set<LineId>)
    ensures DeleteLines(DeleteLines(lines, ids), more) == DeleteLines(lines, ids + more)
  {
    if lines != [] {
      assert lines == [lines[0]] + lines[1..];
      DeleteLinesTwice(lines[1..], ids, more);
      FilterAppend([lines[0]], lines[1..], IdNotIn(ids));
      FilterAppend([lines[0]], lines[1..], IdNotIn(ids + more));
      FilterAppend(Filter([lines[0]], IdNotIn(ids)), DeleteLines(lines[1..], ids), IdNotIn(more));
    }
  }

  lemma {:induction false} DeleteLinesIsOtherLines(lines: seq<OrderLine>, ids: set<LineId>, order: OrderId)
    requires forall l :: l in lines ==> (l.id in ids <==> l.order == order)
    ensures DeleteLines(lines, ids) == OtherLines(lines, order)
  {
    if lines != [] {
      assert lines == [lines[0]] + lines[1..];
      DeleteLinesIsOtherLines(lines[1..], ids, order);
    }
  }

  /** Deleting, by key, the lines of the order leaves exactly the other
      orders' lines. */
  lemma DeletingOrderLines(lines: seq<OrderLine>, order: OrderId)
    requires UniqueLineIds(lines)
    ensures DeleteLines(lines, LineIds(LinesOf(lines, order))) == OtherLines(lines, order)
  {
    var ids := LineIds(LinesOf(lines, order));
    forall l | l in lines ensures l.id in ids <==> l.order == order {
      if l.id in ids {
        var m :| m in LinesOf(lines, order) && m.id == l.id;
        var i :| 0 <= i < |lines| && lines[i] == l;
        var j :| 0 <= j < |lines| && lines[j] == m;
        assert i == j;
      }
    }
    DeleteLinesIsOtherLines(lines, ids, order);
  }

  /** After clearing, the order has no lines, so both its totals are 0. */
  lemma ClearEmptiesOrder(lines: seq<OrderLine>, products: seq<Product>, order: OrderId)
    ensures LinesOf(OtherLines(lines, order), order) == []
    ensures CartTotalPrice(OtherLines(lines, order), products, order) == 0
    ensures CartTotalQuantity(OtherLines(lines, order), order) == 0
  {
    CartTotalsOfEmptyOrder(OtherLines(lines, order), products, order);
  }

  /** Clearing an order leaves the lines of every other order as they were. */
  lemma {:induction false} ClearKeepsOtherOrders(lines: seq<OrderLine>, order: OrderId, other: OrderId)
    requires other != order
    ensures LinesOf(OtherLines(lines, order), other) == LinesOf(lines, other)
  {
    if lines != [] {
      assert lines == [lines[0]] + lines[1..];
      ClearKeepsOtherOrders(lines[1..], order, other);
      FilterAppend([lines[0]], lines[1..], OutsideOrder(order));
      FilterAppend([lines[0]], lines[1..], InOrder(other));
      FilterAppend(Filter([lines[0]], OutsideOrder(order)), OtherLines(lines[1..], order), InOrder(other));
    }
  }

  // ---------------------------------------------------------------------------
  // Stock conservation

  function Stocks(products: seq<Product>): (r: seq<int>)
    ensures |r| == |products|
    ensures forall k :: 0 <= k < |products| ==> r[k] == products[k].quantity
  {
    seq(|products|, k requires 0 <= k < |products| => products[k].quantity)
  }

  /** The stock each product of the table gets back from `cleared`. */
  function Returns(products: seq<Product>, cleared: seq<OrderLine>): (r: seq<int>)
    ensures |r| == |products|
    ensures forall k :: 0 <= k < |products| ==> r[k] == ReturnedStock(cleared, products[k].id)
  {
    seq(|products|, k requires 0 <= k < |products| => ReturnedStock(cleared, products[k].id))
  }

  lemma {:induction false} SumPointwise(xs: seq<int>, ys: seq<int>, zs: seq<int>)
    requires |xs| == |ys| == |zs|
    requires forall k :: 0 <= k < |zs| ==> zs[k] == xs[k] + ys[k]
    ensures Sum(zs) == Sum(xs) + Sum(ys)
  {
    if zs != [] {
      var n := |zs| - 1;
      SumPointwise(xs[..n], ys[..n], zs[..n]);
    }
  }

  lemma {:induction false} SumOfOneHot(products: seq<Product>, line: OrderLine, hot: seq<int>)
    requires |hot| == |products|
    requires forall k :: 0 <= k < |hot| ==> hot[k] == if products[k].id == line.product then line.quantity else 0
    requires UniqueProductIds(products)
    ensures Sum(hot) == if HasProduct(products, line.product) then line.quantity else 0
  {
    if hot != [] {
      var n := |hot| - 1;
      var front := products[..n];
      assert UniqueProductIds(front);
      SumOfOneHot(front, line, hot[..n]);
      if products[n].id == line.product {
        assert !HasProduct(front, line.product) by {
          forall p | p in front ensures p.id != line.product {
            var i :| 0 <= i < n && front[i] == p;
            assert products[i].id != products[n].id;
          }
        }
      } else {
        assert HasProduct(products, line.product) <==> HasProduct(front, line.product) by {
          assert products == front + [products[n]];
        }
      }
    } else {
      assert !HasProduct(products, line.product);
    }
  }

  lemma {:induction false} SumOfZeros(xs: seq<int>)
    requires forall k :: 0 <= k < |xs| ==> xs[k] == 0
    ensures Sum(xs) == 0
  {
    if xs != [] {
      SumOfZeros(xs[..|xs| - 1]);
    }
  }

  /** One more cleared line gives back its quantity once over the whole
      table when exactly one product carries its key. */
  lemma ReturnsAppendLine(products: seq<Product>, earlier: seq<OrderLine>, last: OrderLine)
    requires UniqueProductIds(products)
    requires HasProduct(products, last.product)
    ensures Sum(Returns(products, earlier + [last])) == Sum(Returns(products, earlier)) + last.quantity
  {
    var hot := seq(|products|, k requires 0 <= k < |products| =>
                     if products[k].id == last.product then last.quantity else 0);
    forall k | 0 <= k < |products|
      ensures Returns(products, earlier + [last])[k] == Returns(products, earlier)[k] + hot[k]
    {
      ReturnedStockAppendLine(earlier, last, products[k].id);
    }
    SumPointwise(Returns(products, earlier), hot, Returns(products, earlier + [last]));
    SumOfOneHot(products, last, hot);
  }

  /** With unique product keys and every cleared line referring to a product,
      the stock given back over the whole table is the cleared quantity. */
  lemma {:induction false} ReturnsAddUp(products: seq<Product>, cleared: seq<OrderLine>)
    requires UniqueProductIds(products)
    requires LinesResolve(cleared, products)
    ensures Sum(Returns(products, cleared)) == Sum(Quantities(cleared))
  {
    if cleared == [] {
      assert forall k :: 0 <= k < |products| ==> Filter(cleared, OfProductLine(products[k].id)) == [];
      SumOfZeros(Returns(products, cleared));
    } else {
      var n := |cleared| - 1;
      var earlier := cleared[..n];
      var last := cleared[n];
      assert cleared == earlier + [last];
      assert last in cleared;
      ReturnsAddUp(products, earlier);
      ReturnsAppendLine(products, earlier, last);
      QuantitiesAppendLine(earlier, last);
      SumAppend(Quantities(earlier), [last.quantity]);
    }
  }

  /** Stock conservation: clearing an order raises the total stock of the
      catalogue by exactly the order's total quantity. */
  lemma ClearConservesStock(products: seq<Product>, lines: seq<OrderLine>, order: OrderId)
    requires UniqueProductIds(products)
    requires LinesResolve(LinesOf(lines, order), products)
    ensures Sum(Stocks(Restocked(products, LinesOf(lines, order)))) ==
            Sum(Stocks(products)) + CartTotalQuantity(lines, order)
  {
    var cleared := LinesOf(lines, order);
    RestockedStock(products, cleared);
    SumPointwise(Stocks(products), Returns(products, cleared), Stocks(Restocked(products, cleared)));
    ReturnsAddUp(products, cleared);
  }

  /** One iteration of the clearing loop: deleting the next line by key and
      giving back its stock extends both the deleted keys and the restocking. */
  lemma ClearStep(lines: seq<OrderLine>, products: seq<Product>, cleared: seq<OrderLine>, i: nat)
    requires i < |cleared|
    ensures DeleteLines(DeleteLines(lines, LineIds(cleared[..i])), {cleared[i].id}) ==
            DeleteLines(lines, LineIds(cleared[..i + 1]))
    ensures AddStock(Restocked(products, cleared[..i]), cleared[i].product, cleared[i].quantity) ==
            Restocked(products, cleared[..i + 1])
  {
    assert cleared[..i + 1][..i] == cleared[..i];
    assert LineIds(cleared[..i + 1]) == LineIds(cleared[..i]) + {cleared[i].id} by {
      assert cleared[..i + 1] == cleared[..i] + [cleared[i]];
    }
    DeleteLinesTwice(lines, LineIds(cleared[..i]), {cleared[i].id});
  }

  /** Clearing keeps the schema's keys: product keys are untouched, and the
      remaining lines still have unique keys and still refer to products. */
  lemma ClearKeepsSchema(products: seq<Product>, lines: seq<OrderLine>, favourites: seq<Favourite>, order: OrderId)
    requires UniqueProductIds(products) && UniqueProductSlugs(products)
    requires UniqueLineIds(lines) && LinesResolve(lines, products)
    requires forall f :: f in favourites ==> HasProduct(products, f.product)
    ensures UniqueProductSlugs(Restocked(products, LinesOf(lines, order)))
    ensures UniqueProductIds(Restocked(products, LinesOf(lines, order)))
    ensures UniqueLineIds(OtherLines(lines, order))
    ensures LinesResolve(OtherLines(lines, order), Restocked(products, LinesOf(lines, order)))
    ensures forall f :: f in favourites ==> HasProduct(Restocked(products, LinesOf(lines, order)), f.product)
  {
    var after := Restocked(products, LinesOf(lines, order));
    RestockedStock(products, LinesOf(lines, order));
    forall id | HasProduct(products, id) ensures HasProduct(after, id) {
      var p :| p in products && p.id == id;
      var k :| 0 <= k < |products| && products[k] == p;
      assert after[k].id == id;
    }
    FilterKeepsUniqueLineIds(lines, OutsideOrder(order));
  }

  /** What the clearing loop leaves behind once every line of the order is
      handled: the other orders' lines, the restocked products, and the
      schema's keys intact. */
  lemma ClearOutcome(products: seq<Product>, lines: seq<OrderLine>, favourites: seq<Favourite>, order: OrderId)
    requires UniqueProductIds(products) && UniqueProductSlugs(products)
    requires UniqueLineIds(lines) && LinesResolve(lines, products)
    requires forall f :: f in favourites ==> HasProduct(products, f.product)
    ensures UniqueProductSlugs(Restocked(products, LinesOf(lines, order)))
    ensures DeleteLines(lines, LineIds(LinesOf(lines, order))) == OtherLines(lines, order)
    ensures |Restocked(products, LinesOf(lines, order))| == |products|
    ensures forall k :: 0 <= k < |products| ==>
              Restocked(products, LinesOf(lines, order))[k] ==
              products[k].(quantity := products[k].quantity + ReturnedStock(LinesOf(lines, order), products[k].id))
    ensures UniqueProductIds(Restocked(products, LinesOf(lines, order)))
    ensures UniqueLineIds(OtherLines(lines, order))
    ensures LinesResolve(OtherLines(lines, order), Restocked(products, LinesOf(lines, order)))
    ensures forall f :: f in favourites ==> HasProduct(Restocked(products, LinesOf(lines, order)), f.product)
  {
    DeletingOrderLines(lines, order);
    RestockedStock(products, LinesOf(lines, order));
    ClearKeepsSchema(products, lines, favourites, order);
  }

  /** One iteration of the clearing loop keeps the product table's keys and
      slugs, the line table's keys, and every reference to a product. */
  lemma ClearLineKeepsSchema(products: seq<Product>, lines: seq<OrderLine>, favourites: seq<Favourite>, line: OrderLine)
    requires UniqueProductIds(products) && UniqueProductSlugs(products)
    requires UniqueLineIds(lines) && LinesResolve(lines, products)
    requires forall f :: f in favourites ==> HasProduct(products, f.product)
    ensures UniqueProductIds(AddStock(products, line.product, line.quantity))
    ensures UniqueProductSlugs(AddStock(products, line.product, line.quantity))
    ensures UniqueLineIds(DeleteLines(lines, {line.id}))
    ensures LinesResolve(DeleteLines(lines, {line.id}), AddStock(products, line.product, line.quantity))
    ensures forall f :: f in favourites ==> HasProduct(AddStock(products, line.product, line.quantity), f.product)
  {
    var after := AddStock(products, line.product, line.quantity);
    forall id | HasProduct(products, id) ensures HasProduct(after, id) {
      var p :| p in products && p.id == id;
      var k :| 0 <= k < |products| && products[k] == p;
      assert after[k].id == id;
    }
    FilterKeepsUniqueLineIds(lines, IdNotIn({line.id}));
  }

  /** Filtering the line table keeps its keys unique. */
  lemma {:induction false} FilterKeepsUniqueLineIds(lines: seq<OrderLine>, keep: OrderLine -> bool)
    requires UniqueLineIds(lines)
    ensures UniqueLineIds(Filter(lines, keep))
  {
    if lines != [] {
      var rest := lines[1..];
      assert UniqueLineIds(rest) by {
        forall a, b | 0 <= a < b < |rest| ensures rest[a].id != rest[b].id {
          assert rest[a] == lines[a + 1] && rest[b] == lines[b + 1];
        }
      }
      FilterKeepsUniqueLineIds(rest, keep);
      var tail := Filter(rest, keep);
      if keep(lines[0]) {
        forall m | m in tail ensures m.id != lines[0].id {
          var b :| 0 <= b < |rest| && rest[b] == m;
          assert lines[b + 1] == m;
        }
        var all := [lines[0]] + tail;
        forall a, b | 0 <= a < b < |all| ensures all[a].id != all[b].id {
          if a == 0 {
            assert all[b] == tail[b - 1] && tail[b - 1] in tail;
          } else {
            assert all[a] == tail[a - 1] && all[b] == tail[b - 1];
          }
        }
      }
    }
  }

  // ===========================================================================
  // The tables a request changes

  /** The shop's database: the tables the views above read and write. */
  class Database {
    var products: seq<Product>
    var categories: seq<Category>
    var orders: seq<Order>
    var lines: seq<OrderLine>
    var favourites: seq<Favourite>
    var mails: seq<MailRow>

    /** The schema's constraints on the tables the views read or write: the
        primary keys of categories, products and lines, the unique slugs of
        categories and products, the foreign keys from lines and favourites
        to products, and the unique mail addresses. */
    ghost predicate Valid()
      reads this
    {
      && UniqueCategoryIds(categories)
      && UniqueCategorySlugs(categories)
      && UniqueProductIds(products)
      && UniqueProductSlugs(products)
      && UniqueLineIds(lines)
      && LinesResolve(lines, products)
      && (forall f :: f in favourites ==> HasProduct(products, f.product))
      && UniqueMails(mails)
    }

    /** An empty database. */
    constructor ()
      ensures Valid()
      ensures products == [] && categories == [] && orders == []
      ensures lines == [] && favourites == [] && mails == []
    {
      products, categories, orders := [], [], [];
      lines, favourites, mails := [], [], [];
    }

    /** `clear`: deletes every line of the order and gives each line's
        quantity back to the stock of its product. The order itself and the
        other orders' lines stay. */
    method Clear(order: OrderId)
      requires Valid()
      modifies this
      ensures Valid()
      ensures lines == OtherLines(old(lines), order)
      ensures products == Restocked(old(products), LinesOf(old(lines), order))
      ensures |products| == |old(products)|
      ensures forall k :: 0 <= k < |products| ==>
                products[k] == old(products)[k].(quantity := old(products)[k].quantity +
                                                   ReturnedStock(LinesOf(old(lines), order), old(products)[k].id))
      ensures orders == old(orders) && categories == old(categories)
      ensures favourites == old(favourites) && mails == old(mails)
    {
      var cleared := LinesOf(lines, order);
      FilterKeepsAll(lines, IdNotIn({}));
      assert LineIds(cleared[..0]) == {};
      for i := 0 to |cleared|
        invariant Valid()
        invariant lines == DeleteLines(old(lines), LineIds(cleared[..i]))
        invariant products == Restocked(old(products), cleared[..i])
        invariant orders == old(orders) && categories == old(categories)
        invariant favourites == old(favourites) && mails == old(mails)
      {
        ClearStep(old(lines), old(products), cleared, i);
        ClearLine(cleared[i]);
      }
      assert cleared[..|cleared|] == cleared;
      ClearOutcome(old(products), old(lines), favourites, order);
    }

    /** One iteration of `clear`: `order_product.delete()` for `line`, then
        its quantity added to its product's stock and the product saved. */
    method ClearLine(line: OrderLine)
      requires Valid()
      modifies this
      ensures Valid()
      ensures lines == DeleteLines(old(lines), {line.id})
      ensures products == AddStock(old(products), line.product, line.quantity)
      ensures orders == old(orders) && categories == old(categories)
      ensures favourites == old(favourites) && mails == old(mails)
    {
      ClearLineKeepsSchema(products, lines, favourites, line);
      lines := DeleteLines(lines, {line.id});
      products := AddStock(products, line.product, line.quantity);
    }

    /** `save_favourite_product` for the product with slug `slug`. */
    method SaveFavouriteProduct(user: Option<UserId>, slug: string) returns (r: Result<()>)
      requires Valid()
      modifies this
      ensures Valid()
      ensures SaveFavourite(old(products), old(favourites), user, slug).Ok? ==>
                r == Ok(()) && favourites == SaveFavourite(old(products), old(favourites), user, slug).value
      ensures SaveFavourite(old(products), old(favourites), user, slug).Err? ==>
                r == Err(SaveFavourite(old(products), old(favourites), user, slug).error) &&
                favourites == old(favourites)
      ensures Get(old(products), HasProductSlug(slug)) != Err(MultipleObjectsReturned)
      ensures products == old(products) && categories == old(categories) && orders == old(orders)
      ensures lines == old(lines) && mails == old(mails)
    {
      UniqueProductSlugsAtMostOne(products, slug);
      var found := Get(products, HasProductSlug(slug));
      if found.Err? {
        return Err(found.error);
      }
      var product := found.value;
      if user.Some? {
        var row := Favourite(user.value, product.id);
        if row in favourites {
          var fetched := Get(favourites, SameRow(row));
          if fetched.Err? {
            return Err(fetched.error);
          }
          favourites := Filter(favourites, OtherRow(row));
        } else {
          favourites := favourites + [row];
        }
      }
      r := Ok(());
    }

    /** `save_mail` with the posted address `email`. */
    method SaveMail(email: Option<string>, user: Option<UserId>) returns (r: Result<MailOutcome>)
      requires Valid()
      modifies this
      ensures Valid()
      ensures SubmitMail(old(mails), email, user).Ok? ==>
                r == Ok(SubmitMail(old(mails), email, user).value.outcome) &&
                mails == SubmitMail(old(mails), email, user).value.rows
      ensures SubmitMail(old(mails), email, user).Err? ==>
                r == Err(SubmitMail(old(mails), email, user).error) && mails == old(mails)
      ensures products == old(products) && categories == old(categories) && orders == old(orders)
      ensures lines == old(lines) && favourites == old(favourites)
    {
      SubmitMailKeepsAddressesUnique(mails, email, user);
      if email.Some? && email.value != "" {
        if MailRow(email.value, user) !in mails {
          if exists m :: m in mails && m.mail == email.value {
            return Err(IntegrityError);
          }
          mails := mails + [MailRow(email.value, user)];
          r := Ok(Saved);
        } else {
          r := Ok(AlreadyRegistered);
        }
      } else {
        r := Ok(NoAddress);
      }
    }
  }
}
