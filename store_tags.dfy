/** The template tags of shop/store/templatetags/store_tags.py: the two levels
    of the category tree, the sort options offered on a category page, and a
    user's favourite products. */
module StoreTags {
  import opened Orm
  import opened Models

  function WithoutParent(): Category -> bool
  {
    (c: Category) => c.parent.None?
  }

  function ChildOf(parent: Category): Category -> bool
  {
    (c: Category) => c.parent == Some(parent.id)
  }

  /** `get_categories`: exactly the categories with no parent, in table order
      and with their multiplicity in the table. */
  function TopLevelCategories(categories: seq<Category>): (r: seq<Category>)
    ensures forall c :: c in r <==> c in categories && c.parent.None?
    ensures forall c :: multiset(r)[c] == if c.parent.None? then multiset(categories)[c] else 0
  {
    FilterCounts(categories, WithoutParent());
    Filter(categories, WithoutParent())
  }

  /** `get_subcategories(category)`: exactly the categories whose parent is
      `category`, in table order and with their multiplicity in the table. */
  function Subcategories(categories: seq<Category>, category: Category): (r: seq<Category>)
    ensures forall c :: c in r <==> c in categories && c.parent == Some(category.id)
    ensures forall c :: multiset(r)[c] == if c.parent == Some(category.id) then multiset(categories)[c] else 0
  {
    FilterCounts(categories, ChildOf(category));
    Filter(categories, ChildOf(category))
  }

  /** No category is listed both as a top-level category and as a
      subcategory, and a category with a parent is listed under that parent. */
  lemma CategoryLevelsAreDisjoint(categories: seq<Category>, parent: Category, c: Category)
    requires c in categories
    ensures !(c in TopLevelCategories(categories) && c in Subcategories(categories, parent))
    ensures c.parent == Some(parent.id) ==> c in Subcategories(categories, parent)
    ensures c.parent.None? <==> c in TopLevelCategories(categories)
  {
  }

  datatype Sorter = Sorter(key: string, caption: string)
  datatype SortGroup = SortGroup(title: string, sorters: seq<Sorter>)

  /** `get_sorted`: two groups, by price and by size; in each, the first
      option sorts ascending by a key and the second descending by the same key
      with a '-' in front. */
  function SortGroups(): (r: seq<SortGroup>)
    ensures |r| == 2 && r[0].title == "By price" && r[1].title == "By size"
    ensures forall g :: g in r ==>
              |g.sorters| == 2 &&
              g.sorters[0].caption == "Ascending" && g.sorters[1].caption == "Descending" &&
              g.sorters[1].key == "-" + g.sorters[0].key
    ensures r[0].sorters[0].key == "price" && r[1].sorters[0].key == "size"
  {
    [ SortGroup("By price", [Sorter("price", "Ascending"), Sorter("-price", "Descending")]),
      SortGroup("By size", [Sorter("size", "Ascending"), Sorter("-size", "Descending")]) ]
  }

  function OfUser(user: UserId): Favourite -> bool
  {
    (f: Favourite) => f.user == user
  }

  /** Every favourite row of the user refers to a product of the table. */
  predicate FavouritesResolve(favourites: seq<Favourite>, products: seq<Product>, user: UserId)
  {
    forall f :: f in favourites && f.user == user ==> HasProduct(products, f.product)
  }

  /** `get_favourite_products(user)`: one product per favourite row of the
      user, in row order, each the product that row refers to. */
  function FavouriteProducts(favourites: seq<Favourite>, products: seq<Product>, user: UserId): (r: seq<Product>)
    requires FavouritesResolve(favourites, products, user)
    ensures |r| == |Filter(favourites, OfUser(user))|
    ensures forall k :: 0 <= k < |r| ==>
              r[k] in products && r[k].id == Filter(favourites, OfUser(user))[k].product
  {
    var rows := Filter(favourites, OfUser(user));
    seq(|rows|, k requires 0 <= k < |rows| =>
      assert rows[k] in rows; ProductWithId(products, rows[k].product))
  }

  /** Another user's favourite row leaves the list unchanged; a row of the
      user adds its product at the end. */
  lemma FavouriteProductsAddRow(favourites: seq<Favourite>, products: seq<Product>, user: UserId, row: Favourite)
    requires FavouritesResolve(favourites, products, user)
    requires HasProduct(products, row.product)
    ensures FavouritesResolve(favourites + [row], products, user)
    ensures FavouriteProducts(favourites + [row], products, user) ==
            FavouriteProducts(favourites, products, user) +
            (if row.user == user then [ProductWithId(products, row.product)] else [])
  {
    FilterAppend(favourites, [row], OfUser(user));
    assert Filter([row], OfUser(user)) == if row.user == user then [row] else [];
  }
}
