/** The in-memory product API of the shell application
    (`src/entities/product/api/mockApi.ts`): listing with filter, search,
    paging and sorting, lookup by id, upsert and create, over a product table
    that the API reads, changes and writes back whole. */
module Catalog {
  import opened Wrappers
  import opened Text
  import Seqs
  import Sorting

  datatype Uom = Ea | Box | Case

  datatype Category = Category(id: string, name: string, description: string, icon: Option<string>)

  datatype Product = Product(
    id: string,
    name: string,
    description: string,
    categoryId: string,
    priceCents: int,
    sku: string,
    uom: Uom,
    stock: int,
    image: Option<string>)

  /** The input of `upsertProduct`: a product whose id may be missing. */
  datatype ProductDraft = ProductDraft(
    id: Option<string>,
    name: string,
    description: string,
    categoryId: string,
    priceCents: int,
    sku: string,
    uom: Uom,
    stock: int,
    image: Option<string>)

  datatype SortKey = ByName | ByPrice
  datatype SortOrder = Asc | Desc

  /** A `ProductFilter`; every field may be absent. */
  datatype ProductFilter = ProductFilter(
    search: Option<string>,
    categoryId: Option<string>,
    sort: Option<SortKey>,
    order: Option<SortOrder>,
    limit: Option<int>,
    offset: Option<int>)

  const EmptyFilter := ProductFilter(None, None, None, None, None, None)

  /** `Paginated<Product>`: one page of items and the number of matches. */
  datatype Page = Page(items: seq<Product>, total: nat)

  /** The filter with the defaults of `listProducts` filled in. An absent
      search or category behaves as the empty string: both mean "no filter". */
  datatype Query = Query(search: string, categoryId: string, sort: SortKey, order: SortOrder, limit: int, offset: int)

  const DefaultLimit := 24

  function Resolve(f: ProductFilter): (q: Query)
    ensures f.sort.None? ==> q.sort == ByName
    ensures f.order.None? ==> q.order == Asc
    ensures f.limit.None? ==> q.limit == 24
    ensures f.offset.None? ==> q.offset == 0
    ensures f.sort.Some? ==> q.sort == f.sort.value
    ensures f.order.Some? ==> q.order == f.order.value
    ensures f.limit.Some? ==> q.limit == f.limit.value
    ensures f.offset.Some? ==> q.offset == f.offset.value
    ensures (q.search == "") <==> (f.search.None? || f.search.value == "")
    ensures (q.categoryId == "") <==> (f.categoryId.None? || f.categoryId.value == "")
    ensures f.search.Some? ==> q.search == f.search.value
    ensures f.categoryId.Some? ==> q.categoryId == f.categoryId.value
  {
    Query(f.search.GetOr(""), f.categoryId.GetOr(""), f.sort.GetOr(ByName), f.order.GetOr(Asc),
          f.limit.GetOr(DefaultLimit), f.offset.GetOr(0))
  }

  /** The search test: the lowercased query occurs in the lowercased name,
      description or SKU. */
  predicate MatchesQuery(p: Product, lowered: string) {
    Includes(ToLower(p.name), lowered) || Includes(ToLower(p.description), lowered) || Includes(ToLower(p.sku), lowered)
  }

  /** Whether a product survives both filters of a query. */
  predicate Selected(p: Product, q: Query) {
    && (q.categoryId == "" || p.categoryId == q.categoryId)
    && (q.search == "" || MatchesQuery(p, ToLower(q.search)))
  }

  /** `items.filter(p => p.categoryId === categoryId)`. */
  function ByCategory(items: seq<Product>, categoryId: string): (r: seq<Product>)
    ensures |r| <= |items|
    ensures forall i :: 0 <= i < |r| ==> r[i] in items && r[i].categoryId == categoryId
    ensures forall i :: 0 <= i < |items| && items[i].categoryId == categoryId ==> items[i] in r
  {
    Seqs.Filter(items, (p: Product) => p.categoryId == categoryId)
  }

  /** The search filter, given the already lowercased query. */
  function BySearch(items: seq<Product>, lowered: string): (r: seq<Product>)
    ensures |r| <= |items|
    ensures forall i :: 0 <= i < |r| ==> r[i] in items && MatchesQuery(r[i], lowered)
    ensures forall i :: 0 <= i < |items| && MatchesQuery(items[i], lowered) ==> items[i] in r
  {
    Seqs.Filter(items, (p: Product) => MatchesQuery(p, lowered))
  }

  /** The products a filter selects, in table order, before paging. */
  function Matching(all: seq<Product>, f: ProductFilter): (r: seq<Product>)
    ensures |r| <= |all|
    ensures forall i :: 0 <= i < |r| ==> r[i] in all && Selected(r[i], Resolve(f))
    ensures forall i :: 0 <= i < |all| && Selected(all[i], Resolve(f)) ==> all[i] in r
  {
    var q := Resolve(f);
    var byCategory := if q.categoryId == "" then all else ByCategory(all, q.categoryId);
    if q.search == "" then byCategory else BySearch(byCategory, ToLower(q.search))
  }

  /** With neither a category nor a search, every product matches in order. */
  lemma MatchingUnfiltered(all: seq<Product>, f: ProductFilter)
    requires Resolve(f).search == "" && Resolve(f).categoryId == ""
    ensures Matching(all, f) == all
  {
  }

  /** The number of matches depends only on the search and the category, never
      on sorting, limit or offset. */
  lemma TotalIgnoresPaging(all: seq<Product>, f: ProductFilter, g: ProductFilter)
    requires f.search == g.search && f.categoryId == g.categoryId
    ensures |Matching(all, f)| == |Matching(all, g)|
  {
    assert Resolve(f).search == Resolve(g).search;
    assert Resolve(f).categoryId == Resolve(g).categoryId;
  }

  /** The index `Array.prototype.slice` makes of a bound `k`: a negative bound
      counts from the end; both are clamped to `[0, len]`. */
  function SliceIndex(k: int, len: nat): (r: nat)
    ensures r <= len
    ensures 0 <= k ==> r == if k < len then k else len
    ensures k < 0 ==> r == if len + k < 0 then 0 else len + k
  {
    if k < 0 then (if len + k < 0 then 0 else len + k) else if k < len then k else len
  }

  /** `s.slice(start, end)`. */
  function Slice<T>(s: seq<T>, start: int, end: int): (r: seq<T>)
    ensures start <= end ==> |r| <= end - start
    ensures 0 <= start <= |s| && start <= end ==> r == s[start..if end < |s| then end else |s|]
    ensures SliceIndex(start, |s|) + |r| <= |s|
    ensures r == s[SliceIndex(start, |s|)..SliceIndex(start, |s|) + |r|]
    ensures |r| == if SliceIndex(start, |s|) < SliceIndex(end, |s|) then SliceIndex(end, |s|) - SliceIndex(start, |s|) else 0
  {
    var b, e := SliceIndex(start, |s|), SliceIndex(end, |s|);
    if b < e then s[b..e] else []
  }

  /** The page `items.slice(offset, offset + limit)` of the matches. */
  function PageOf(matches: seq<Product>, q: Query): (r: seq<Product>)
    ensures q.limit >= 0 ==> |r| <= q.limit
    ensures multiset(r) <= multiset(matches)
    ensures 0 <= q.offset <= |matches| && 0 <= q.limit ==>
      r == matches[q.offset..if q.offset + q.limit < |matches| then q.offset + q.limit else |matches|]
    ensures |matches| <= q.offset ==> r == []
  {
    var r := Slice(matches, q.offset, q.offset + q.limit);
    var b := SliceIndex(q.offset, |matches|);
    assert matches == matches[..b] + r + matches[b + |r|..];
    r
  }

  /** Whatever the signs of offset and limit, the page is the run of matches
      between the two clamped slice bounds, or empty when they cross. */
  lemma PageBetweenBounds(matches: seq<Product>, q: Query)
    ensures var b, e := SliceIndex(q.offset, |matches|), SliceIndex(q.offset + q.limit, |matches|);
      PageOf(matches, q) == if b < e then matches[b..e] else []
  {
  }

  /** The comparator of `listProducts` as an order: `Precedes(x, y)` when the
      comparator does not put `y` before `x`. Names compare by `nameLeq`, the
      collation of `localeCompare` (`nameLeq(a, b)` when `a.localeCompare(b) <= 0`);
      prices compare numerically; 'desc' reverses either. */
  predicate Precedes(key: SortKey, order: SortOrder, nameLeq: (string, string) -> bool, x: Product, y: Product) {
    match (key, order)
    case (ByName, Asc) => nameLeq(x.name, y.name)
    case (ByName, Desc) => nameLeq(y.name, x.name)
    case (ByPrice, Asc) => x.priceCents <= y.priceCents
    case (ByPrice, Desc) => x.priceCents >= y.priceCents
  }

  /** When the collation is a total preorder, so is every comparator of the listing. */
  lemma PrecedesIsTotalPreorder(key: SortKey, order: SortOrder, nameLeq: (string, string) -> bool)
    requires Sorting.TotalPreorder(nameLeq)
    ensures Sorting.TotalPreorder((x: Product, y: Product) => Precedes(key, order, nameLeq, x, y))
  {
  }

  /** The in-place sort of one page by the listing's comparator. */
  method SortPage(paged: seq<Product>, key: SortKey, order: SortOrder, nameLeq: (string, string) -> bool)
    returns (r: seq<Product>)
    requires Sorting.TotalPreorder(nameLeq)
    ensures multiset(r) == multiset(paged) && |r| == |paged|
    ensures forall i, j :: 0 <= i < j < |r| ==> Precedes(key, order, nameLeq, r[i], r[j])
    ensures key == ByPrice && order == Asc ==>
      forall i, j :: 0 <= i < j < |r| ==> r[i].priceCents <= r[j].priceCents
    ensures key == ByPrice && order == Desc ==>
      forall i, j :: 0 <= i < j < |r| ==> r[i].priceCents >= r[j].priceCents
  {
    var a := new Product[|paged|](i requires 0 <= i < |paged| => paged[i]);
    assert a[..] == paged;
    var before := (x: Product, y: Product) => Precedes(key, order, nameLeq, x, y);
    PrecedesIsTotalPreorder(key, order, nameLeq);
    Sorting.InsertionSort(a, before);
    r := a[..];
    assert |r| == |paged| by {
      assert |multiset(r)| == |multiset(paged)|;
    }
  }

  /** The test `p => p.id === id` of `find` and `findIndex`. */
  function HasId(id: string): Product -> bool {
    (p: Product) => p.id == id
  }

  /** `getProduct(id)`: the first product with that id, or null. */
  function FindById(all: seq<Product>, id: string): (r: Option<Product>)
    ensures r.None? <==> forall k :: 0 <= k < |all| ==> all[k].id != id
    ensures r.Some? ==> r.value.id == id
    ensures r.Some? ==> exists i :: 0 <= i < |all| && all[i] == r.value && forall k :: 0 <= k < i ==> all[k].id != id
  {
    var i := Seqs.FirstIndex(all, HasId(id));
    if i < |all| then Some(all[i]) else None
  }

  /** The product `{...input, id}`. */
  function WithId(input: ProductDraft, id: string): (p: Product)
    ensures p.id == id
    ensures p.name == input.name && p.description == input.description && p.categoryId == input.categoryId
    ensures p.priceCents == input.priceCents && p.sku == input.sku && p.uom == input.uom
    ensures p.stock == input.stock && p.image == input.image
  {
    Product(id, input.name, input.description, input.categoryId, input.priceCents, input.sku, input.uom, input.stock, input.image)
  }

  /** The table after upserting `p`: the first product with the same id is
      replaced in place, or `p` is appended when there is none. */
  function Upserted(all: seq<Product>, p: Product): (r: seq<Product>)
    ensures forall i :: 0 <= i < |all| && all[i].id == p.id && (forall k :: 0 <= k < i ==> all[k].id != p.id) ==>
      |r| == |all| && r[i] == p && forall k :: 0 <= k < |all| && k != i ==> r[k] == all[k]
    ensures (forall k :: 0 <= k < |all| ==> all[k].id != p.id) ==> r == all + [p]
  {
    var i := Seqs.FirstIndex(all, HasId(p.id));
    if i < |all| then all[i := p] else all + [p]
  }

  /** Product ids are pairwise distinct. */
  predicate DistinctIds(all: seq<Product>) {
    forall i, j :: 0 <= i < j < |all| ==> all[i].id != all[j].id
  }

  /** After an upsert, `getProduct` finds exactly the upserted product. */
  lemma FindAfterUpsert(all: seq<Product>, p: Product)
    ensures FindById(Upserted(all, p), p.id) == Some(p)
  {
    var i := Seqs.FirstIndex(all, HasId(p.id));
    var r := Upserted(all, p);
    assert r[i] == p;
    assert forall k :: 0 <= k < i ==> r[k].id != p.id;
    assert Seqs.FirstIndex(r, HasId(p.id)) == i by {
      Seqs.FirstIndexIsFirst(r, HasId(p.id), i);
    }
  }

  /** An upsert keeps product ids distinct. */
  lemma UpsertKeepsIdsDistinct(all: seq<Product>, p: Product)
    requires DistinctIds(all)
    ensures DistinctIds(Upserted(all, p))
  {
  }

  /** After appending a product with an id no other product has, `getProduct`
      finds it. */
  lemma FindAfterCreate(all: seq<Product>, p: Product)
    requires forall k :: 0 <= k < |all| ==> all[k].id != p.id
    ensures FindById(all + [p], p.id) == Some(p)
  {
    Seqs.FirstIndexIsFirst(all + [p], HasId(p.id), |all|);
  }

  /** The categories written by the first seeding. */
  const SeedCategories: seq<Category> := [
    Category("advanced-wound-care", "Advanced Wound Care", "Dressings, gels, and more.", None),
    Category("anesthesia", "Anesthesia", "Masks and circuits.", None),
    Category("apparel", "Apparel", "Professional scrubs and gowns.", None),
    Category("beds-mattresses", "Beds & Mattresses", "Hospital-grade frames and toppers.", None),
    Category("diagnostics", "Diagnostics", "Meters, cuffs, and thermometers.", None),
    Category("gloves", "Gloves", "Nitrile and latex exam gloves.", None)
  ]

  const SeedCategoryIds: set<string> := set c | c in SeedCategories :: c.id

  /** The five products of the first seeding, without their generated ids. */
  const SeedRows: seq<ProductDraft> := [
    ProductDraft(None, "Digital Thermometer", "Fast-reading digital thermometer with flexible tip.",
      "diagnostics", 145, "DTH-100", Ea, 75,
      Some("https://www.medline.com/media/catalog/CA21/CA21_17/PF139130/D1200012663415122_040220240936.jpg")),
    ProductDraft(None, "Nitrile Exam Gloves (200 ct)", "Powder-free nitrile gloves with textured fingertips.",
      "gloves", 621, "NGL-200", Box, 120,
      Some("https://www.medline.com/media/catalog/CA02/CA02_06/PF21882/D1200012663292664_100420250738.jpg")),
    ProductDraft(None, "Standard Scrub Top", "Breathable fabric, unisex fit.",
      "apparel", 2499, "SST-01", Ea, 90,
      Some("https://www.medline.com/media/catalog/MasterDataCatalog/CA07/CA07_02/CA07_02_09/CA07_02_09_04/CA07_02_09_04_02/PF76521/D1200012884670_210720250210.jpg")),
    ProductDraft(None, "EQUOS Calcium Alginate Wound Dressings with Silver",
      "Will convert to a soft and cohesive gel when moistened to help maintain a moist environment and help with autolytic debridement, removing nonviable tissue",
      "advanced-wound-care", 1899, "HCD-4040", Box, 42,
      Some("https://www.medline.com/media/catalog/sku/EQX/D1200012663328258_130320240535.jpg")),
    ProductDraft(None, "Anesthesia Mask (small)", "Soft cushion for improved patient comfort.",
      "anesthesia", 1123, "ANM-S", Ea, 50,
      Some("https://www.medline.com/media/catalog/sku/DYN/D1200012663319509_270520240808.jpg"))
  ]

  /** The seed products, carrying the generated ids `ids` (`newId('p')`). */
  function SeedProducts(ids: seq<string>): (r: seq<Product>)
    requires |ids| == |SeedRows|
    ensures |r| == |SeedRows|
    ensures forall i :: 0 <= i < |r| ==> r[i] == WithId(SeedRows[i], ids[i])
  {
    seq(|SeedRows|, i requires 0 <= i < |SeedRows| => WithId(SeedRows[i], ids[i]))
  }

  /** Every seed product has a positive price, stock on hand and one of the
      seeded categories. */
  lemma SeedRowsWellFormed()
    ensures forall i :: 0 <= i < |SeedRows| ==>
      SeedRows[i].priceCents > 0 && SeedRows[i].stock > 0 && SeedRows[i].categoryId in SeedCategoryIds
  {
    assert SeedCategories[0].id in SeedCategoryIds;
    assert SeedCategories[1].id in SeedCategoryIds;
    assert SeedCategories[2].id in SeedCategoryIds;
    assert SeedCategories[4].id in SeedCategoryIds;
    assert SeedCategories[5].id in SeedCategoryIds;
  }

  /** The persisted catalogue: the products and categories tables and the
      'seeded' flag. */
  class ProductDb {
    var all: seq<Product>
    var categories: seq<Category>
    var seeded: bool

    /** Module load: the stored tables, then `seed()`, which fills the tables
        only when the 'seeded' flag is not set. */
    constructor Load(stored: seq<Product>, storedCategories: seq<Category>, wasSeeded: bool, ids: seq<string>)
      requires |ids| == |SeedRows|
      ensures seeded
      ensures wasSeeded ==> all == stored && categories == storedCategories
      ensures !wasSeeded ==> all == SeedProducts(ids) && categories == SeedCategories
    {
      if wasSeeded {
        all, categories, seeded := stored, storedCategories, true;
      } else {
        all, categories, seeded := SeedProducts(ids), SeedCategories, true;
      }
    }

    /** `seed()`. */
    method Seed(ids: seq<string>)
      requires |ids| == |SeedRows|
      modifies this
      ensures seeded
      ensures old(seeded) ==> all == old(all) && categories == old(categories)
      ensures !old(seeded) ==> all == SeedProducts(ids) && categories == SeedCategories
    {
      if !seeded {
        categories := SeedCategories;
        all := SeedProducts(ids);
        seeded := true;
      }
    }

    /** `reset()`: clears the flag and seeds again, so the tables are always
        replaced by the seed data. */
    method Reset(ids: seq<string>)
      requires |ids| == |SeedRows|
      modifies this
      ensures seeded && all == SeedProducts(ids) && categories == SeedCategories
    {
      seeded := false;
      Seed(ids);
    }

    /** `categories()`. */
    method Categories() returns (r: seq<Category>)
      ensures r == categories
    {
      r := categories;
    }

    /** `listProducts(filter)`: the matches are counted before paging, the
        page is cut with `slice(offset, offset + limit)` and then sorted in
        place. */
    method ListProducts(filter: ProductFilter, nameLeq: (string, string) -> bool) returns (r: Page)
      requires Sorting.TotalPreorder(nameLeq)
      ensures r.total == |Matching(all, filter)|
      ensures multiset(r.items) == multiset(PageOf(Matching(all, filter), Resolve(filter)))
      ensures Resolve(filter).limit >= 0 ==> |r.items| <= Resolve(filter).limit
      ensures forall i, j :: 0 <= i < j < |r.items| ==>
        Precedes(Resolve(filter).sort, Resolve(filter).order, nameLeq, r.items[i], r.items[j])
      ensures Resolve(filter).sort == ByPrice && Resolve(filter).order == Asc ==>
        forall i, j :: 0 <= i < j < |r.items| ==> r.items[i].priceCents <= r.items[j].priceCents
      ensures Resolve(filter).sort == ByPrice && Resolve(filter).order == Desc ==>
        forall i, j :: 0 <= i < j < |r.items| ==> r.items[i].priceCents >= r.items[j].priceCents
    {
      var q := Resolve(filter);
      var items := all;
      if q.categoryId != "" {
        items := ByCategory(items, q.categoryId);
      }
      if q.search != "" {
        items := BySearch(items, ToLower(q.search));
      }
      assert items == Matching(all, filter);
      var paged := PageOf(items, q);
      var sorted := SortPage(paged, q.sort, q.order, nameLeq);
      r := Page(sorted, |items|);
    }

    /** `getProduct(id)`. */
    function GetProduct(id: string): (r: Option<Product>)
      reads this
      ensures r.None? <==> forall k :: 0 <= k < |all| ==> all[k].id != id
      ensures r.Some? ==> r.value.id == id && r.value in all
      ensures r.Some? ==> exists i :: 0 <= i < |all| && all[i] == r.value && forall k :: 0 <= k < i ==> all[k].id != id
    {
      FindById(all, id)
    }

    /** `upsertProduct(input)`: a missing id is replaced by `freshId` (`newId('p')`). */
    method UpsertProduct(input: ProductDraft, freshId: string) returns (p: Product)
      modifies this
      ensures p == WithId(input, input.id.GetOr(freshId))
      ensures all == Upserted(old(all), p)
      ensures categories == old(categories) && seeded == old(seeded)
    {
      p := WithId(input, input.id.GetOr(freshId));
      var idx := Seqs.FirstIndex(all, HasId(p.id));
      if idx < |all| {
        all := all[idx := p];
      } else {
        all := all + [p];
      }
    }

    /** `createProduct(input)`: always appends, under the fresh id, even when
        the input carries an id of its own. */
    method CreateProduct(input: ProductDraft, freshId: string) returns (p: Product)
      modifies this
      ensures p == WithId(input, freshId)
      ensures all == old(all) + [p]
      ensures categories == old(categories) && seeded == old(seeded)
    {
      p := WithId(input, freshId);
      all := all + [p];
    }
  }
}
