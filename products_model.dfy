/** The catalogue page's stores (`src/entities/product/model/products.ts`):
    the filter that patches are merged into, the fetch each patch triggers,
    and the products, total and categories taken from fetch results. */
module ProductsModel {
  import opened Wrappers
  import opened Catalog

  /** A present field of the patch wins over the current one. */
  function Overlay<T>(current: Option<T>, patch: Option<T>): (r: Option<T>)
    ensures patch.Some? ==> r == patch
    ensures patch.None? ==> r == current
  {
    if patch.Some? then patch else current
  }

  /** `{ ...state, ...patch }` for a `Partial<ProductFilter>` patch, whose
      absent fields are `None`. */
  function Merge(state: ProductFilter, patch: ProductFilter): (r: ProductFilter)
    ensures r.search == Overlay(state.search, patch.search)
    ensures r.categoryId == Overlay(state.categoryId, patch.categoryId)
    ensures r.sort == Overlay(state.sort, patch.sort)
    ensures r.order == Overlay(state.order, patch.order)
    ensures r.limit == Overlay(state.limit, patch.limit)
    ensures r.offset == Overlay(state.offset, patch.offset)
  {
    ProductFilter(
      Overlay(state.search, patch.search), Overlay(state.categoryId, patch.categoryId),
      Overlay(state.sort, patch.sort), Overlay(state.order, patch.order),
      Overlay(state.limit, patch.limit), Overlay(state.offset, patch.offset))
  }

  /** An empty patch changes nothing. */
  lemma MergeEmpty(state: ProductFilter)
    ensures Merge(state, EmptyFilter) == state
  {
  }

  /** Applying the same patch twice is applying it once. */
  lemma MergeIdempotent(state: ProductFilter, patch: ProductFilter)
    ensures Merge(Merge(state, patch), patch) == Merge(state, patch)
  {
  }

  /** Two patches in a row act as one patch that holds the fields of both, the
      later one winning where both have a field: earlier fields persist. */
  lemma MergeSequence(state: ProductFilter, first: ProductFilter, second: ProductFilter)
    ensures Merge(Merge(state, first), second) == Merge(state, Merge(first, second))
  {
  }

  /** The catalogue page's stores. */
  datatype Model = Model(filter: ProductFilter, products: seq<Product>, total: int, categories: seq<Category>)

  /** `$filter` starts as `{ limit: 24 }`; the lists start empty and the total at 0. */
  const Initial := Model(ProductFilter(None, None, None, None, Some(24), None), [], 0, [])

  /** `filterChanged(patch)`: the filter becomes the merge, and the product
      fetch is started with the merged filter (the second component). */
  function FilterChanged(m: Model, patch: ProductFilter): (r: (Model, ProductFilter))
    ensures r.0.filter == Merge(m.filter, patch)
    ensures r.1 == r.0.filter
    ensures r.0.products == m.products && r.0.total == m.total && r.0.categories == m.categories
  {
    var merged := Merge(m.filter, patch);
    (m.(filter := merged), merged)
  }

  /** The filter `fetchProductsFx(arg)` lists with: the argument, or `{}`. */
  function FetchFilter(arg: Option<ProductFilter>): (f: ProductFilter)
    ensures arg.None? ==> f == EmptyFilter
    ensures arg.Some? ==> f == arg.value
  {
    arg.GetOr(EmptyFilter)
  }

  /** `fetchProductsFx.doneData`: products and total both come from the one response. */
  function ProductsFetched(m: Model, response: Page): (r: Model)
    ensures r.products == response.items && r.total == response.total
    ensures r.filter == m.filter && r.categories == m.categories
  {
    m.(products := response.items, total := response.total)
  }

  /** `fetchCategoriesFx.doneData`: the categories are replaced. */
  function CategoriesFetched(m: Model, categories: seq<Category>): (r: Model)
    ensures r.categories == categories
    ensures r.filter == m.filter && r.products == m.products && r.total == m.total
  {
    m.(categories := categories)
  }

  /** A search patch on the initial filter fetches with the search and the
      initial limit of 24 together. */
  lemma SearchPatchKeepsLimit(search: string)
    ensures var (m, fetched) := FilterChanged(Initial, EmptyFilter.(search := Some(search)));
      fetched.search == Some(search) && fetched.limit == Some(24) && m.filter == fetched
  {
  }

  /** A sort patch followed by an order patch fetches with both, and the limit. */
  lemma SortThenOrderPatches(m: Model, key: SortKey, order: SortOrder)
    requires m.filter.limit == Some(24)
    ensures var (m1, _) := FilterChanged(m, EmptyFilter.(sort := Some(key)));
      var (_, fetched) := FilterChanged(m1, EmptyFilter.(order := Some(order)));
      fetched.sort == Some(key) && fetched.order == Some(order) && fetched.limit == Some(24)
  {
  }
}
