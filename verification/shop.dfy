/**
 * The catalog page: the filter state read from the URL, the product query
 * built from it (filter clauses and one sort order, as values; running the
 * query is the backend's business and is not modelled), and the handlers
 * that keep the URL parameters in step with the filters.
 */
module Shop {
  import opened Wrappers

  datatype Category = Category(id: string, name: string, slug: string)

  /** A product row as the grid shows it; price in cents. */
  datatype ProductRow = ProductRow(id: string, name: string, slug: string, price: int, imageUrl: Option<string>,
                                   stock: int, isFeatured: bool, categoryId: Option<string>)

  /** The filter state; the price bounds are the raw text of the two inputs. */
  datatype Filters = Filters(search: string, category: string, sort: string, minPrice: string, maxPrice: string)

  /** The category selection that means "no category filter". */
  const AllCategories := "all"

  /** The sort selection that means "newest first". */
  const DefaultSort := "newest"

  // ---------------------------------------------------------------------
  // URL parameters
  // ---------------------------------------------------------------------

  /** `searchParams.get(key) || default`: an absent or empty parameter gives the default. */
  function ParamOr(params: map<string, string>, key: string, default: string): (v: string)
    ensures key in params && params[key] != "" ==> v == params[key]
    ensures !(key in params && params[key] != "") ==> v == default
  {
    if key in params && params[key] != "" then params[key] else default
  }

  /** The filters the page starts with. */
  function InitialFilters(params: map<string, string>): (f: Filters)
    ensures f.search == ParamOr(params, "search", "")
    ensures f.category == ParamOr(params, "category", AllCategories)
    ensures f.sort == ParamOr(params, "sort", DefaultSort)
    ensures f.minPrice == ParamOr(params, "minPrice", "")
    ensures f.maxPrice == ParamOr(params, "maxPrice", "")
  {
    Filters(ParamOr(params, "search", ""), ParamOr(params, "category", AllCategories),
            ParamOr(params, "sort", DefaultSort), ParamOr(params, "minPrice", ""), ParamOr(params, "maxPrice", ""))
  }

  /** Without parameters the page starts unfiltered, newest first. */
  lemma NoParamsGiveDefaults()
    ensures InitialFilters(map[]) == Filters("", AllCategories, DefaultSort, "", "")
  {
  }

  /**
   * A handler's update of one parameter: set to the value when it differs
   * from the default, deleted otherwise; every other parameter is kept.
   */
  function SyncParam(params: map<string, string>, key: string, value: string, default: string): (r: map<string, string>)
    ensures value != default ==> key in r && r[key] == value
    ensures value == default ==> key !in r
    ensures forall k :: k != key ==> (k in r <==> k in params)
    ensures forall k :: k != key && k in r ==> r[k] == params[k]
  {
    if value != default then params[key := value] else params - {key}
  }

  /**
   * Reading a parameter back after a handler wrote it gives the value the
   * handler was given, unless that value is the empty string and not the
   * default (an empty parameter reads as the default).
   */
  lemma SyncThenRead(params: map<string, string>, key: string, value: string, default: string)
    requires value == default || value != ""
    ensures ParamOr(SyncParam(params, key, value, default), key, default) == value
  {
  }

  // ---------------------------------------------------------------------
  // The product query
  // ---------------------------------------------------------------------

  /** `categories.find(c => c.slug === slug)`: a category with that slug, if there is one. */
  function FindCategory(categories: seq<Category>, slug: string): (r: Option<Category>)
    ensures r.Some? <==> exists i :: 0 <= i < |categories| && categories[i].slug == slug
    ensures r.Some? ==> r.value in categories && r.value.slug == slug
  {
    if categories == [] then None
    else if categories[0].slug == slug then Some(categories[0])
    else
      var r := FindCategory(categories[1..], slug);
      assert forall i :: 0 < i < |categories| ==> categories[i] == categories[1..][i - 1];
      r
  }

  /** Among several categories with the same slug, the first one is found. */
  lemma {:induction false} FindCategoryFirst(categories: seq<Category>, slug: string, i: int)
    requires 0 <= i < |categories| && categories[i].slug == slug
    requires forall j :: 0 <= j < i ==> categories[j].slug != slug
    ensures FindCategory(categories, slug) == Some(categories[i])
  {
    if i > 0 {
      FindCategoryFirst(categories[1..], slug, i - 1);
    }
  }

  /** A filter clause of the query: `ilike`, `eq`, `gte` or `lte` on a column. */
  datatype Clause = ILike(column: string, pattern: string) | Eq(column: string, value: string)
                  | Gte(column: string, bound: string) | Lte(column: string, bound: string)

  datatype Ordering = Ordering(column: string, ascending: bool)

  datatype Query = Query(table: string, clauses: seq<Clause>, order: Option<Ordering>)

  /** The name pattern for a search text: `%text%`. */
  function NamePattern(search: string): string {
    "%" + search + "%"
  }

  /** Whether the category selection yields a clause: not "all", and some category has that slug. */
  predicate FiltersByCategory(f: Filters, categories: seq<Category>) {
    f.category != AllCategories && FindCategory(categories, f.category).Some?
  }

  /** The sort order each selection asks for; an unknown one sorts newest first. */
  predicate SortsAs(sort: string, order: Ordering) {
    if sort == "price-asc" then order == Ordering("price", true)
    else if sort == "price-desc" then order == Ordering("price", false)
    else if sort == "name" then order == Ordering("name", true)
    else order == Ordering("created_at", false)
  }

  /**
   * What a product query for these filters is: one clause per active
   * filter and nothing else, and exactly one ordering.
   */
  predicate QueryMatches(q: Query, f: Filters, categories: seq<Category>) {
    && q.table == "products"
    // the name clause
    && (ILike("name", NamePattern(f.search)) in q.clauses <==> f.search != "")
    && (forall c :: c in q.clauses && c.ILike? ==> c == ILike("name", NamePattern(f.search)))
    // the category clause
    && ((exists c :: c in q.clauses && c.Eq?) <==> FiltersByCategory(f, categories))
    && (forall c :: c in q.clauses && c.Eq? ==>
          FiltersByCategory(f, categories) && c == Eq("category_id", FindCategory(categories, f.category).value.id))
    // the price clauses
    && (Gte("price", f.minPrice) in q.clauses <==> f.minPrice != "")
    && (forall c :: c in q.clauses && c.Gte? ==> c == Gte("price", f.minPrice))
    && (Lte("price", f.maxPrice) in q.clauses <==> f.maxPrice != "")
    && (forall c :: c in q.clauses && c.Lte? ==> c == Lte("price", f.maxPrice))
    // no clause twice
    && |q.clauses| == (if f.search != "" then 1 else 0) + (if FiltersByCategory(f, categories) then 1 else 0)
                      + (if f.minPrice != "" then 1 else 0) + (if f.maxPrice != "" then 1 else 0)
    // the ordering
    && q.order.Some? && SortsAs(f.sort, q.order.value)
  }

  /** The clause each filter contributes: one clause when the filter is active, none otherwise. */
  function NameClause(f: Filters): seq<Clause> {
    if f.search != "" then [ILike("name", NamePattern(f.search))] else []
  }

  function CategoryClause(f: Filters, categories: seq<Category>): seq<Clause> {
    if FiltersByCategory(f, categories) then [Eq("category_id", FindCategory(categories, f.category).value.id)]
    else []
  }

  function MinPriceClause(f: Filters): seq<Clause> {
    if f.minPrice != "" then [Gte("price", f.minPrice)] else []
  }

  function MaxPriceClause(f: Filters): seq<Clause> {
    if f.maxPrice != "" then [Lte("price", f.maxPrice)] else []
  }

  /** The four contributions, in the order the fetch adds them, make a query that matches the filters. */
  lemma ContributionsMatch(q: Query, f: Filters, categories: seq<Category>)
    requires q.table == "products" && q.order.Some? && SortsAs(f.sort, q.order.value)
    requires q.clauses == NameClause(f) + CategoryClause(f, categories) + MinPriceClause(f) + MaxPriceClause(f)
    ensures QueryMatches(q, f, categories)
  {
    var n, c, lo, hi := NameClause(f), CategoryClause(f, categories), MinPriceClause(f), MaxPriceClause(f);
    assert forall x :: x in q.clauses <==> x in n || x in c || x in lo || x in hi;
    if FiltersByCategory(f, categories) {
      assert c[0] in q.clauses;
    }
  }

  /** The query construction of the product fetch, refined clause by clause. */
  method BuildQuery(f: Filters, categories: seq<Category>) returns (q: Query)
    ensures QueryMatches(q, f, categories)
  {
    q := Query("products", [], None);

    if f.search != "" {
      q := q.(clauses := q.clauses + [ILike("name", NamePattern(f.search))]);
    }
    assert q.clauses == NameClause(f);

    if f.category != AllCategories {
      var category := FindCategory(categories, f.category);
      if category.Some? {
        q := q.(clauses := q.clauses + [Eq("category_id", category.value.id)]);
      }
    }
    assert q.clauses == NameClause(f) + CategoryClause(f, categories);

    if f.minPrice != "" {
      q := q.(clauses := q.clauses + [Gte("price", f.minPrice)]);
    }
    assert q.clauses == NameClause(f) + CategoryClause(f, categories) + MinPriceClause(f);

    if f.maxPrice != "" {
      q := q.(clauses := q.clauses + [Lte("price", f.maxPrice)]);
    }
    assert q.clauses == NameClause(f) + CategoryClause(f, categories) + MinPriceClause(f) + MaxPriceClause(f);

    if f.sort == "price-asc" {
      q := q.(order := Some(Ordering("price", true)));
    } else if f.sort == "price-desc" {
      q := q.(order := Some(Ordering("price", false)));
    } else if f.sort == "name" {
      q := q.(order := Some(Ordering("name", true)));
    } else {
      q := q.(order := Some(Ordering("created_at", false)));
    }
    ContributionsMatch(q, f, categories);
  }

  /** For the default filters a product query has no clause and lists the newest first. */
  lemma DefaultQuery(q: Query, categories: seq<Category>)
    requires QueryMatches(q, InitialFilters(map[]), categories)
    ensures q.clauses == [] && q.order == Some(Ordering("created_at", false))
  {
  }

  /**
   * While the category list is still empty no category clause is sent,
   * whatever category is selected.
   */
  lemma NoCategoriesNoCategoryClause(q: Query, f: Filters)
    requires QueryMatches(q, f, [])
    ensures forall c :: c in q.clauses ==> !c.Eq?
  {
  }

  // ---------------------------------------------------------------------
  // The page
  // ---------------------------------------------------------------------

  class ShopPage {
    var params: map<string, string>
    var filters: Filters
    var categories: seq<Category>
    var products: seq<ProductRow>
    var loading: bool

    /** The page's first render: filters from the URL, no categories or products yet, loading. */
    constructor(params: map<string, string>)
      ensures this.params == params && filters == InitialFilters(params)
      ensures categories == [] && products == [] && loading
    {
      this.params := params;
      filters := InitialFilters(params);
      categories := [];
      products := [];
      loading := true;
    }

    /** The category fetch: a returned list replaces the current one; no data changes nothing. */
    method FetchCategories(data: Option<seq<Category>>)
      modifies this`categories
      ensures categories == data.GetOr(old(categories))
    {
      if data.Some? {
        categories := data.value;
      }
    }

    /**
     * The product fetch with the current filters and the categories the
     * page holds at that moment. The products become the returned rows, or
     * none without data, and loading ends.
     */
    method FetchProducts(data: Option<seq<ProductRow>>) returns (q: Query)
      modifies this`products, this`loading
      ensures QueryMatches(q, filters, categories)
      ensures products == data.GetOr([])
      ensures !loading
    {
      loading := true;
      q := BuildQuery(filters, categories);
      products := data.GetOr([]);
      loading := false;
    }

    method HandleSearchChange(value: string)
      modifies this`filters, this`params
      ensures filters == old(filters).(search := value)
      ensures params == SyncParam(old(params), "search", value, "")
    {
      filters := filters.(search := value);
      if value != "" {
        params := params["search" := value];
      } else {
        params := params - {"search"};
      }
    }

    method HandleCategoryChange(value: string)
      modifies this`filters, this`params
      ensures filters == old(filters).(category := value)
      ensures params == SyncParam(old(params), "category", value, AllCategories)
    {
      filters := filters.(category := value);
      if value != AllCategories {
        params := params["category" := value];
      } else {
        params := params - {"category"};
      }
    }

    method HandleSortChange(value: string)
      modifies this`filters, this`params
      ensures filters == old(filters).(sort := value)
      ensures params == SyncParam(old(params), "sort", value, DefaultSort)
    {
      filters := filters.(sort := value);
      if value != DefaultSort {
        params := params["sort" := value];
      } else {
        params := params - {"sort"};
      }
    }

    /** The price inputs change the filters only; they are never written to the URL. */
    method HandleMinPriceChange(value: string)
      modifies this`filters
      ensures filters == old(filters).(minPrice := value)
    {
      filters := filters.(minPrice := value);
    }

    method HandleMaxPriceChange(value: string)
      modifies this`filters
      ensures filters == old(filters).(maxPrice := value)
    {
      filters := filters.(maxPrice := value);
    }
  }

  /**
   * After any of the three synced handlers, reloading the page from the
   * URL restores the value the handler was given (for a non-empty value).
   */
  lemma HandlersSurviveReload(params: map<string, string>, value: string)
    requires value != ""
    ensures InitialFilters(SyncParam(params, "search", value, "")).search == value
    ensures InitialFilters(SyncParam(params, "category", value, AllCategories)).category == value
    ensures InitialFilters(SyncParam(params, "sort", value, DefaultSort)).sort == value
  {
    SyncThenRead(params, "search", value, "");
    SyncThenRead(params, "category", value, AllCategories);
    SyncThenRead(params, "sort", value, DefaultSort);
  }
}
