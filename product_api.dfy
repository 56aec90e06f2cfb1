/**
 * The product endpoints of the client's API layer
 * (client/src/redux/api/product/productApi.ts): the query string `getProducts`
 * builds, the paths of the featured and by-id queries, and the cache tags
 * each query provides. Parameter values are written unencoded.
 */
module ProductApi {
  import opened Common
  import opened Text
  import opened ProductModel

  /** The arguments of `getProducts`; an absent one takes its default. */
  datatype GetProductsArgs = GetProductsArgs(
    page: Option<nat>,
    limit: Option<nat>,
    category: Option<string>,
    sortBy: Option<string>,
    searchTerm: Option<string>)

  /** One `name=value` entry of the query string. */
  datatype Param = Param(name: string, value: string)

  const DefaultPage: nat := 1
  const DefaultLimit: nat := 10
  const DefaultSortBy: string := "price-asc"
  const ProductType: string := "Product"
  const FeaturedId: string := "FEATURED"

  /** The parameters in the order they are appended. */
  function QueryParams(args: GetProductsArgs): seq<Param> {
    var category := args.category.GetOr("");
    var searchTerm := args.searchTerm.GetOr("");
    [Param("page", NatToString(args.page.GetOr(DefaultPage))),
     Param("limit", NatToString(args.limit.GetOr(DefaultLimit))),
     Param("sortBy", args.sortBy.GetOr(DefaultSortBy))]
    + (if category != "" then [Param("category", category)] else [])
    + (if searchTerm != "" then [Param("searchTerm", searchTerm)] else [])
  }

  /** `new URLSearchParams({ page, limit, sortBy })` and the two conditional `append`s. */
  method BuildParams(args: GetProductsArgs) returns (params: seq<Param>)
    ensures params == QueryParams(args)
  {
    var page := args.page.GetOr(DefaultPage);
    var limit := args.limit.GetOr(DefaultLimit);
    var category := args.category.GetOr("");
    var searchTerm := args.searchTerm.GetOr("");
    params := [Param("page", NatToString(page)), Param("limit", NatToString(limit)), Param("sortBy", args.sortBy.GetOr(DefaultSortBy))];
    if category != "" {
      params := params + [Param("category", category)];
    }
    if searchTerm != "" {
      params := params + [Param("searchTerm", searchTerm)];
    }
  }

  function Entry(p: Param): string {
    p.name + "=" + p.value
  }

  function Entries(params: seq<Param>): seq<string> {
    seq(|params|, k requires 0 <= k < |params| => Entry(params[k]))
  }

  /** `${params}`: the entries joined with "&". */
  function Serialize(params: seq<Param>): string {
    Join(Entries(params), "&")
  }

  /** The query path of `getProducts`. */
  function GetProductsPath(args: GetProductsArgs): string {
    "products?" + Serialize(QueryParams(args))
  }

  /**
   * The list starts with page, limit and sortBy (defaults 1, 10, "price-asc");
   * category comes next exactly when it is non-empty, and searchTerm last
   * exactly when it is non-empty.
   */
  lemma QueryParamsSpec(args: GetProductsArgs)
    ensures var ps := QueryParams(args);
      var category := args.category.GetOr("");
      var searchTerm := args.searchTerm.GetOr("");
      && |ps| == 3 + (if category != "" then 1 else 0) + (if searchTerm != "" then 1 else 0)
      && ps[0].name == "page" && ps[1].name == "limit" && ps[2] == Param("sortBy", args.sortBy.GetOr(DefaultSortBy))
      && (category != "" ==> ps[3] == Param("category", category))
      && (searchTerm != "" ==> ps[|ps| - 1] == Param("searchTerm", searchTerm))
      && (forall k :: 3 <= k < |ps| ==> ps[k].name == "category" || ps[k].name == "searchTerm")
  {
  }

  /** The page and limit values read back as the numbers asked for (1 and 10 when absent). */
  lemma PageAndLimitReadBack(args: GetProductsArgs)
    ensures var ps := QueryParams(args);
      && (forall k :: 0 <= k < |ps[0].value| ==> IsDigit(ps[0].value[k]))
      && DigitsValue(ps[0].value) == args.page.GetOr(DefaultPage)
      && (forall k :: 0 <= k < |ps[1].value| ==> IsDigit(ps[1].value[k]))
      && DigitsValue(ps[1].value) == args.limit.GetOr(DefaultLimit)
  {
    NatToStringRoundTrip(args.page.GetOr(DefaultPage));
    NatToStringRoundTrip(args.limit.GetOr(DefaultLimit));
  }

  /** With nothing given the parameters are the defaults. */
  lemma DefaultParams()
    ensures QueryParams(GetProductsArgs(None, None, None, None, None)) == [Param("page", "1"), Param("limit", "10"), Param("sortBy", "price-asc")]
  {
    assert NatToString(1) == "1";
    assert NatToString(10) == "10" by {
      assert NatToString(1) == "1" && NatToString(0) == "0";
    }
  }

  predicate NoAmpersand(s: string) {
    forall k :: 0 <= k < |s| ==> s[k] != '&'
  }

  /** The query string splits on "&" back into its `name=value` entries when no value holds "&". */
  lemma SerializeRoundTrip(params: seq<Param>)
    requires |params| >= 1
    requires forall k :: 0 <= k < |params| ==> NoAmpersand(params[k].name) && NoAmpersand(params[k].value)
    ensures Split(Serialize(params), "&") == Entries(params)
  {
    var entries := Entries(params);
    forall k | 0 <= k < |entries|
      ensures IndexOf(entries[k], "&") == -1
    {
      var e := Entry(params[k]);
      assert forall i :: 0 <= i < |e| ==> e[i] != '&' by {
        forall i | 0 <= i < |e|
          ensures e[i] != '&'
        {
          var name := params[k].name;
          if i < |name| {
            assert e[i] == name[i];
          } else if i > |name| {
            assert e[i] == params[k].value[i - |name| - 1];
          }
        }
      }
      IndexOfAbsentChar(e, '&');
    }
    SplitJoin(entries, "&");
  }

  /**
   * The listing path is "products?" followed by the query string, which
   * splits on "&" back into the parameters' entries, page first, as long as
   * the caller's strings hold no "&".
   */
  lemma GetProductsPathSpec(args: GetProductsArgs)
    requires NoAmpersand(args.category.GetOr("")) && NoAmpersand(args.searchTerm.GetOr(""))
    requires NoAmpersand(args.sortBy.GetOr(DefaultSortBy))
    ensures var path := GetProductsPath(args);
      && |path| >= 9 && path[..9] == "products?"
      && Split(path[9..], "&") == Entries(QueryParams(args))
      && Split(path[9..], "&")[0] == "page=" + NatToString(args.page.GetOr(DefaultPage))
  {
    var ps := QueryParams(args);
    QueryParamsNoAmpersand(args);
    SerializeRoundTrip(ps);
    var path := GetProductsPath(args);
    assert path[9..] == Serialize(ps);
  }

  /** No name or value holds "&" when the caller's strings do not: page and limit are digits. */
  lemma QueryParamsNoAmpersand(args: GetProductsArgs)
    requires NoAmpersand(args.category.GetOr("")) && NoAmpersand(args.searchTerm.GetOr(""))
    requires NoAmpersand(args.sortBy.GetOr(DefaultSortBy))
    ensures forall k :: 0 <= k < |QueryParams(args)| ==> NoAmpersand(QueryParams(args)[k].name) && NoAmpersand(QueryParams(args)[k].value)
  {
    var ps := QueryParams(args);
    var page := NatToString(args.page.GetOr(DefaultPage));
    var limit := NatToString(args.limit.GetOr(DefaultLimit));
    assert NoAmpersand(page) by {
      assert forall i :: 0 <= i < |page| ==> IsDigit(page[i]);
    }
    assert NoAmpersand(limit) by {
      assert forall i :: 0 <= i < |limit| ==> IsDigit(limit[i]);
    }
  }

  /** The tag of one product. */
  function ProductTag(id: ProductId): Tag {
    Tag(ProductType, id)
  }

  /** One tag per product of a result, in order. */
  function ItemTags(data: seq<Product>): seq<Tag> {
    seq(|data|, k requires 0 <= k < |data| => ProductTag(data[k].id))
  }

  /** `getProducts` tags: one per returned product, then the list tag; without a result, the list tag alone. */
  function GetProductsProvides(result: Option<seq<Product>>): seq<Tag> {
    match result
    case Some(data) => ItemTags(data) + [Tag(ProductType, ListId)]
    case None => [Tag(ProductType, ListId)]
  }

  /** `getFeaturedProducts` tags: as for the listing, with FEATURED in place of LIST. */
  function FeaturedProvides(result: Option<seq<Product>>): seq<Tag> {
    match result
    case Some(data) => ItemTags(data) + [Tag(ProductType, FeaturedId)]
    case None => [Tag(ProductType, FeaturedId)]
  }

  const FeaturedPath: string := "products/featured"

  function GetProductByIdPath(id: ProductId): string {
    "products/" + id
  }

  function GetProductByIdProvides(id: ProductId): seq<Tag> {
    [ProductTag(id)]
  }

  /** The listing's tags name each returned product in order and end with LIST; an empty result provides what no result does. */
  lemma GetProductsProvidesSpec(result: Option<seq<Product>>)
    ensures var tags := GetProductsProvides(result);
      var data := if result.Some? then result.value else [];
      && |tags| == |data| + 1
      && (forall k :: 0 <= k < |data| ==> tags[k] == Tag(ProductType, data[k].id))
      && tags[|tags| - 1] == Tag(ProductType, ListId)
    ensures GetProductsProvides(Some([])) == GetProductsProvides(None)
  {
  }

  /** The featured tags never include LIST, and otherwise match the listing's item tags. */
  lemma FeaturedProvidesSpec(result: Option<seq<Product>>)
    ensures Tag(ProductType, ListId) !in FeaturedProvides(result) || (result.Some? && exists p :: p in result.value && p.id == ListId)
    ensures FeaturedProvides(result)[..|FeaturedProvides(result)| - 1] == GetProductsProvides(result)[..|GetProductsProvides(result)| - 1]
    ensures FeaturedProvides(result)[|FeaturedProvides(result)| - 1] == Tag(ProductType, FeaturedId)
  {
    var tags := FeaturedProvides(result);
    if Tag(ProductType, ListId) in tags && result.Some? {
      var k :| 0 <= k < |tags| && tags[k] == Tag(ProductType, ListId);
      assert k < |result.value|;
      assert result.value[k] in result.value;
    }
  }

  /** The by-id query of a product the listing returned shares its tag with the listing. */
  lemma ByIdTagAmongListingTags(data: seq<Product>, k: int)
    requires 0 <= k < |data|
    ensures GetProductByIdProvides(data[k].id)[0] in GetProductsProvides(Some(data))
  {
    assert GetProductsProvides(Some(data))[k] == ProductTag(data[k].id);
  }

  /** The featured path is also the by-id path of the id "featured"; the server's route order tells them apart. */
  lemma FeaturedPathIsByIdPath()
    ensures GetProductByIdPath("featured") == FeaturedPath
  {
  }
}
