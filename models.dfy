/** The shop's tables (shop/store/models.py) and the values its models compute:
    a product's first photo, a line's total and an order's cart totals. Every
    table is a sequence of rows in primary-key order; a foreign key is the id of
    the referenced row. */
module Models {
  import opened Orm

  type ProductId = nat
  type CategoryId = nat
  type OrderId = nat
  type LineId = nat
  type UserId = nat

  /** The six shoe sizes a product is offered in (`ProductSizes`). */
  datatype ProductSize = Size39 | Size40 | Size41 | Size42 | Size43 | Size44
  {
    /** The text stored in the `product_size` column; the label is the same text. */
    function Value(): string
    {
      match this
      case Size39 => "39"
      case Size40 => "40"
      case Size41 => "41"
      case Size42 => "42"
      case Size43 => "43"
      case Size44 => "44"
    }
  }

  /** The choices in declaration order, and the field's default. */
  const SizeChoices: seq<ProductSize> := [Size39, Size40, Size41, Size42, Size43, Size44]
  const DefaultSize: ProductSize := Size39

  /** Reads a stored `product_size` back as a choice; any other text is not a choice. */
  function ParseSize(s: string): (r: Option<ProductSize>)
    ensures r.Some? ==> r.value.Value() == s
    ensures r.None? <==> forall z: ProductSize :: z.Value() != s
  {
    if s == "39" then Some(Size39)
    else if s == "40" then Some(Size40)
    else if s == "41" then Some(Size41)
    else if s == "42" then Some(Size42)
    else if s == "43" then Some(Size43)
    else if s == "44" then Some(Size44)
    else None
  }

  /** Every size is one of the six choices, their stored texts are the six
      distinct values "39" to "44", each reads back as itself, and the default
      is "39". */
  lemma SizeChoicesAreTheSixValues(z: ProductSize)
    ensures z in SizeChoices
    ensures z.Value() in ["39", "40", "41", "42", "43", "44"]
    ensures ParseSize(z.Value()) == Some(z)
    ensures forall i, j :: 0 <= i < j < |SizeChoices| ==> SizeChoices[i].Value() != SizeChoices[j].Value()
    ensures DefaultSize.Value() == "39"
  {
  }

  datatype Category = Category(id: CategoryId, slug: Option<string>, parent: Option<CategoryId>)

  /** A product; `quantity` is the stock on hand. Price and stock are plain
      integer columns: nothing keeps them non-negative. */
  datatype Product = Product(
    id: ProductId,
    price: int,
    quantity: int,
    size: ProductSize,
    category: CategoryId,
    slug: Option<string>)

  /** A row of the product gallery; `name` is the stored file name, empty when
      the row has no file. */
  datatype GalleryImage = GalleryImage(product: ProductId, name: string)

  datatype Order = Order(id: OrderId, customer: Option<nat>, isCompleted: bool, shipping: bool)

  /** An `OrderProduct` row: `quantity` units of one product in one order. */
  datatype OrderLine = OrderLine(id: LineId, order: OrderId, product: ProductId, quantity: int)

  datatype Favourite = Favourite(user: UserId, product: ProductId)

  datatype MailRow = MailRow(mail: string, user: Option<UserId>)

  // ---------------------------------------------------------------------------
  // Product photo

  const Placeholder: string := "https://school544spb.ru/wp-content/uploads/2022/11/file.png"

  function OfProduct(product: ProductId): GalleryImage -> bool
  {
    (g: GalleryImage) => g.product == product
  }

  /** `k` is the position of the product's first gallery row. */
  ghost predicate FirstImageAt(gallery: seq<GalleryImage>, product: ProductId, k: int)
  {
    0 <= k < |gallery| && gallery[k].product == product &&
    forall j :: 0 <= j < k ==> gallery[j].product != product
  }

  /** `get_first_photo`: the URL of the product's first gallery image; the
      placeholder when the product has no image (`first()` gives None) or the
      first image has no file (`url` raises), both caught by the bare except.
      The storage URL of a file is `mediaUrl` followed by its name. */
  function FirstPhoto(gallery: seq<GalleryImage>, product: ProductId, mediaUrl: string): (url: string)
    ensures forall k :: FirstImageAt(gallery, product, k) ==>
              url == if gallery[k].name != "" then mediaUrl + gallery[k].name else Placeholder
    ensures (forall g :: g in gallery ==> g.product != product) ==> url == Placeholder
  {
    var images := Filter(gallery, OfProduct(product));
    FirstPhotoIsFirstImage(gallery, product);
    if images == [] then Placeholder
    else if images[0].name != "" then mediaUrl + images[0].name
    else Placeholder
  }

  lemma {:induction false} FirstPhotoIsFirstImage(gallery: seq<GalleryImage>, product: ProductId)
    ensures forall k :: FirstImageAt(gallery, product, k) ==>
              Filter(gallery, OfProduct(product)) != [] && Filter(gallery, OfProduct(product))[0] == gallery[k]
  {
    if gallery != [] {
      FirstPhotoIsFirstImage(gallery[1..], product);
      forall k | FirstImageAt(gallery, product, k)
        ensures Filter(gallery, OfProduct(product)) != [] && Filter(gallery, OfProduct(product))[0] == gallery[k]
      {
        if k > 0 {
          assert FirstImageAt(gallery[1..], product, k - 1);
        }
      }
    }
  }

  // ---------------------------------------------------------------------------
  // Products referenced by id

  predicate HasProduct(products: seq<Product>, id: ProductId)
  {
    exists p :: p in products && p.id == id
  }

  /** The primary-key constraint on the product table. */
  predicate UniqueProductIds(products: seq<Product>)
  {
    forall i, j :: 0 <= i < j < |products| ==> products[i].id != products[j].id
  }

  /** The unique constraint on `Product.slug`; rows without a slug are exempt. */
  predicate UniqueProductSlugs(products: seq<Product>)
  {
    forall i, j :: 0 <= i < j < |products| && products[i].slug.Some? ==> products[i].slug != products[j].slug
  }

  /** The row a foreign key `id` refers to (the first with that id). */
  function ProductWithId(products: seq<Product>, id: ProductId): (p: Product)
    requires HasProduct(products, id)
    ensures p in products && p.id == id
  {
    if products[0].id == id then products[0]
    else
      assert HasProduct(products[1..], id) by {
        var q :| q in products && q.id == id;
        assert q in products[1..] by { assert products == [products[0]] + products[1..]; }
      }
      ProductWithId(products[1..], id)
  }

  /** With unique ids, the referenced row is the one row carrying the id. */
  lemma ProductWithIdUnique(products: seq<Product>, p: Product)
    requires UniqueProductIds(products)
    requires p in products
    ensures HasProduct(products, p.id) && ProductWithId(products, p.id) == p
  {
    var q := ProductWithId(products, p.id);
    var i :| 0 <= i < |products| && products[i] == p;
    var j :| 0 <= j < |products| && products[j] == q;
    assert i == j;
  }

  // ---------------------------------------------------------------------------
  // Cart totals

  /** Every line refers to a product of the table. */
  predicate LinesResolve(lines: seq<OrderLine>, products: seq<Product>)
  {
    forall l :: l in lines ==> HasProduct(products, l.product)
  }

  function InOrder(order: OrderId): OrderLine -> bool
  {
    (l: OrderLine) => l.order == order
  }

  /** `order.orderproduct_set.all()`: the order's lines, in table order. */
  function LinesOf(lines: seq<OrderLine>, order: OrderId): seq<OrderLine>
  {
    Filter(lines, InOrder(order))
  }

  /** `OrderProduct.get_total_price`: the referenced product's price times the
      line's quantity. */
  function LineTotal(line: OrderLine, products: seq<Product>): (r: int)
    requires HasProduct(products, line.product)
    ensures exists p :: p in products && p.id == line.product && r == p.price * line.quantity
  {
    var p := ProductWithId(products, line.product);
    assert p in products && p.id == line.product;
    p.price * line.quantity
  }

  /** A line's total is the price of the product it refers to times its
      quantity, whichever row of a key-unique table carries that product. */
  lemma LineTotalIsPriceTimesQuantity(line: OrderLine, products: seq<Product>, p: Product)
    requires UniqueProductIds(products)
    requires p in products && p.id == line.product
    ensures HasProduct(products, line.product)
    ensures LineTotal(line, products) == p.price * line.quantity
  {
    ProductWithIdUnique(products, p);
  }

  /** Python's `sum` over a list of integers: a left fold from 0. */
  function Sum(xs: seq<int>): int
  {
    if xs == [] then 0 else Sum(xs[..|xs| - 1]) + xs[|xs| - 1]
  }

  lemma {:induction false} SumAppend(xs: seq<int>, ys: seq<int>)
    ensures Sum(xs + ys) == Sum(xs) + Sum(ys)
  {
    if ys == [] {
      assert xs + ys == xs;
    } else {
      assert (xs + ys)[..|xs + ys| - 1] == xs + ys[..|ys| - 1];
      SumAppend(xs, ys[..|ys| - 1]);
    }
  }

  lemma {:induction false} SumNonNegative(xs: seq<int>)
    requires forall i :: 0 <= i < |xs| ==> xs[i] >= 0
    ensures Sum(xs) >= 0
  {
    if xs != [] {
      SumNonNegative(xs[..|xs| - 1]);
    }
  }

  /** `[line.get_total_price for line in lines]` */
  function LineTotals(lines: seq<OrderLine>, products: seq<Product>): (r: seq<int>)
    requires LinesResolve(lines, products)
    ensures |r| == |lines|
    ensures forall i :: 0 <= i < |lines| ==> r[i] == LineTotal(lines[i], products)
  {
    seq(|lines|, i requires 0 <= i < |lines| => LineTotal(lines[i], products))
  }

  /** `[line.quantity for line in lines]` */
  function Quantities(lines: seq<OrderLine>): (r: seq<int>)
    ensures |r| == |lines|
    ensures forall i :: 0 <= i < |lines| ==> r[i] == lines[i].quantity
  {
    seq(|lines|, i requires 0 <= i < |lines| => lines[i].quantity)
  }

  /** `Order.get_cart_total_price`: the sum of the totals of the order's lines;
      an order without lines costs 0. */
  function CartTotalPrice(lines: seq<OrderLine>, products: seq<Product>, order: OrderId): (r: int)
    requires LinesResolve(LinesOf(lines, order), products)
    ensures (forall l :: l in lines ==> l.order != order) ==> r == 0
  {
    var mine := LinesOf(lines, order);
    assert mine != [] ==> mine[0] in mine;
    Sum(LineTotals(mine, products))
  }

  /** `Order.get_cart_total_quantity`: the sum of the quantities of the
      order's lines; an order without lines holds 0 items. */
  function CartTotalQuantity(lines: seq<OrderLine>, order: OrderId): (r: int)
    ensures (forall l :: l in lines ==> l.order != order) ==> r == 0
  {
    var mine := LinesOf(lines, order);
    assert mine != [] ==> mine[0] in mine;
    Sum(Quantities(mine))
  }

  /** An order without lines has both totals 0. */
  lemma CartTotalsOfEmptyOrder(lines: seq<OrderLine>, products: seq<Product>, order: OrderId)
    requires forall l :: l in lines ==> l.order != order
    ensures LinesOf(lines, order) == []
    ensures CartTotalPrice(lines, products, order) == 0
    ensures CartTotalQuantity(lines, order) == 0
  {
  }

  /** Adding a line of the order raises its total price by the line's total and
      its total quantity by the line's quantity; a line of another order
      changes neither. */
  lemma CartTotalsAddLine(lines: seq<OrderLine>, products: seq<Product>, order: OrderId, line: OrderLine)
    requires LinesResolve(LinesOf(lines, order), products)
    requires HasProduct(products, line.product)
    ensures LinesResolve(LinesOf(lines + [line], order), products)
    ensures CartTotalPrice(lines + [line], products, order) ==
            CartTotalPrice(lines, products, order) + (if line.order == order then LineTotal(line, products) else 0)
    ensures CartTotalQuantity(lines + [line], order) ==
            CartTotalQuantity(lines, order) + (if line.order == order then line.quantity else 0)
  {
    var before := LinesOf(lines, order);
    LinesOfAppendLine(lines, order, line);
    if line.order == order {
      LineTotalsAppendLine(before, products, line);
      QuantitiesAppendLine(before, line);
      SumAppend(LineTotals(before, products), [LineTotal(line, products)]);
      SumAppend(Quantities(before), [line.quantity]);
    } else {
      assert LinesOf(lines + [line], order) == before;
    }
  }

  lemma LinesOfAppendLine(lines: seq<OrderLine>, order: OrderId, line: OrderLine)
    ensures LinesOf(lines + [line], order) == LinesOf(lines, order) + (if line.order == order then [line] else [])
  {
    FilterAppend(lines, [line], InOrder(order));
    assert Filter([line], InOrder(order)) == if line.order == order then [line] else [];
  }

  lemma LineTotalsAppendLine(lines: seq<OrderLine>, products: seq<Product>, line: OrderLine)
    requires LinesResolve(lines, products) && HasProduct(products, line.product)
    ensures LinesResolve(lines + [line], products)
    ensures LineTotals(lines + [line], products) == LineTotals(lines, products) + [LineTotal(line, products)]
  {
  }

  lemma QuantitiesAppendLine(lines: seq<OrderLine>, line: OrderLine)
    ensures Quantities(lines + [line]) == Quantities(lines) + [line.quantity]
  {
  }

  /** When every line of the order has a non-negative quantity and refers to a
      product with a non-negative price, both totals are non-negative; the
      prices of products outside the order do not matter. */
  lemma CartTotalsNonNegative(lines: seq<OrderLine>, products: seq<Product>, order: OrderId)
    requires LinesResolve(LinesOf(lines, order), products)
    requires forall l :: l in lines && l.order == order ==> l.quantity >= 0
    requires forall l, p :: l in lines && l.order == order && p in products && p.id == l.product ==> p.price >= 0
    ensures CartTotalPrice(lines, products, order) >= 0
    ensures CartTotalQuantity(lines, order) >= 0
  {
    var mine := LinesOf(lines, order);
    forall i | 0 <= i < |mine| ensures LineTotals(mine, products)[i] >= 0 && Quantities(mine)[i] >= 0 {
      assert mine[i] in mine;
      var p := ProductWithId(products, mine[i].product);
      assert p.price >= 0 && mine[i].quantity >= 0;
    }
    SumNonNegative(LineTotals(mine, products));
    SumNonNegative(Quantities(mine));
  }
}
