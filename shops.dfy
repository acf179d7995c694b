/**
 * The shop directory: the search and category filter over the shop list,
 * the category buttons, the filter reset and the promoted/new strip.
 */
module Shops {

  import opened Wrappers
  import opened Text
  import opened Seqs

  /** A shop as the directory lists it (the fields the page's logic reads). */
  datatype Shop = Shop(
    id: int,
    name: string,
    description: string,
    isVerified: bool,
    isPromoted: bool,
    isNew: bool,
    categories: seq<string>)

  /** The page's two pieces of filter state; `null` is `None`. */
  datatype Filters = Filters(searchQuery: string, filterCategory: Option<string>)

  /** `!filterCategory`: no category chosen, or the empty one, which is falsy too. */
  predicate NoCategory(filter: Option<string>)
  {
    filter.None? || filter.value == ""
  }

  /** The name or the description contains the query, ignoring case. */
  predicate MatchesQuery(shop: Shop, query: string)
  {
    Includes(ToLower(shop.name), ToLower(query)) || Includes(ToLower(shop.description), ToLower(query))
  }

  /** No category is chosen, or the shop lists the chosen one. */
  predicate MatchesCategory(shop: Shop, filter: Option<string>)
  {
    NoCategory(filter) || filter.value in shop.categories
  }

  /** The callback of `filter`. */
  predicate Kept(shop: Shop, f: Filters)
  {
    MatchesQuery(shop, f.searchQuery) && MatchesCategory(shop, f.filterCategory)
  }

  /** `shops.filter(...)`: the kept shops, in their order. */
  function Select(shops: seq<Shop>, f: Filters): (r: seq<Shop>)
    ensures forall i :: 0 <= i < |r| ==> Kept(r[i], f)
    ensures forall i :: 0 <= i < |shops| && Kept(shops[i], f) ==> shops[i] in r
    ensures forall i :: 0 <= i < |r| ==> r[i] in shops
    ensures IsSubsequence(r, shops)
  {
    if shops == [] then []
    else
      var rest := Select(shops[1..], f);
      assert forall i :: 1 <= i < |shops| ==> shops[i] == shops[1..][i - 1];
      if Kept(shops[0], f) then [shops[0]] + rest else rest
  }

  /** Each kept shop appears in the result as often as in the list, and no other shop appears. */
  lemma {:induction false} SelectCounts(shops: seq<Shop>, f: Filters)
    ensures forall x :: multiset(Select(shops, f))[x] == if Kept(x, f) then multiset(shops)[x] else 0
  {
    if shops != [] {
      SelectCounts(shops[1..], f);
      assert shops == [shops[0]] + shops[1..];
    }
  }

  /** `filteredShops`: no list yet gives the empty list. */
  function FilteredShops(shops: Option<seq<Shop>>, f: Filters): (r: seq<Shop>)
    ensures shops.None? ==> r == []
    ensures shops.Some? ==> IsSubsequence(r, shops.value)
    ensures shops.Some? ==> forall i :: 0 <= i < |shops.value| ==> (shops.value[i] in r <==> Kept(shops.value[i], f))
    ensures shops.Some? ==> forall x :: multiset(r)[x] == if Kept(x, f) then multiset(shops.value)[x] else 0
  {
    match shops
    case None => []
    case Some(s) => SelectCounts(s, f); Select(s, f)
  }

  /** The state the "reset filters" button sets, which is also the initial state. */
  const Reset := Filters("", None)

  /** With an empty query and no category every shop is kept, so the list is unchanged. */
  lemma {:induction false} ResetKeepsAll(shops: seq<Shop>)
    ensures Select(shops, Reset) == shops
  {
    if shops != [] {
      IncludesEmpty(ToLower(shops[0].name));
      ResetKeepsAll(shops[1..]);
    }
  }

  /** After a reset the page lists every shop it has. */
  lemma ResetShowsAll(shops: Option<seq<Shop>>)
    ensures shops.Some? ==> FilteredShops(shops, Reset) == shops.value
    ensures shops.None? ==> FilteredShops(shops, Reset) == []
  {
    if shops.Some? {
      ResetKeepsAll(shops.value);
    }
  }

  /** `shops.flatMap(shop => shop.categories)`. */
  function AllCategories(shops: seq<Shop>): (r: seq<string>)
  {
    if shops == [] then [] else shops[0].categories + AllCategories(shops[1..])
  }

  /** A category appears in the flattened list exactly when some shop lists it. */
  lemma {:induction false} AllCategoriesMembers(shops: seq<Shop>, c: string)
    ensures c in AllCategories(shops) <==> exists i :: 0 <= i < |shops| && c in shops[i].categories
  {
    if shops != [] {
      AllCategoriesMembers(shops[1..], c);
      if c in AllCategories(shops) && c !in shops[0].categories {
        var j :| 0 <= j < |shops[1..]| && c in shops[1..][j].categories;
        assert c in shops[j + 1].categories;
      }
      if exists i :: 0 <= i < |shops| && c in shops[i].categories {
        var i :| 0 <= i < |shops| && c in shops[i].categories;
        if i > 0 {
          assert c in shops[1..][i - 1].categories;
        }
      }
    }
  }

  /** `categories`: each category of the list once, in order of first appearance; none without a list. */
  function Categories(shops: Option<seq<Shop>>): (r: seq<string>)
  {
    match shops
    case None => []
    case Some(s) => Dedup(AllCategories(s))
  }

  /**
   * The category buttons: no category twice, a button for every category of
   * every shop and for nothing else, in order of first appearance.
   */
  lemma CategoriesSpec(shops: seq<Shop>, c: string)
    ensures NoDuplicates(Categories(Some(shops)))
    ensures c in Categories(Some(shops)) <==> exists i :: 0 <= i < |shops| && c in shops[i].categories
    ensures forall i, j :: 0 <= i < j < |Categories(Some(shops))| ==>
      FirstIndex(AllCategories(shops), Categories(Some(shops))[i]) <
      FirstIndex(AllCategories(shops), Categories(Some(shops))[j])
  {
    var all := AllCategories(shops);
    DedupSpec(all);
    AllCategoriesMembers(shops, c);
    if c in all {
      var k :| 0 <= k < |all| && all[k] == c;
    }
  }

  /** The text of the strip over a card: each label renders only under its own condition. */
  function StripText(shop: Shop): string
  {
    (if shop.isPromoted then "Топ продаж" else "") + (if shop.isNew && !shop.isPromoted then "Новый магазин" else "")
  }

  /** The strip over a card, shown for promoted or new shops. */
  function Strip(shop: Shop): Option<string>
  {
    if shop.isPromoted || shop.isNew then Some(StripText(shop)) else None
  }

  /** A promoted shop reads "Топ продаж"; "Новый магазин" only for a new shop that is not promoted. */
  lemma StripRule(shop: Shop)
    ensures Strip(shop) == Some("Топ продаж") <==> shop.isPromoted
    ensures Strip(shop) == Some("Новый магазин") <==> shop.isNew && !shop.isPromoted
    ensures Strip(shop).None? <==> !shop.isPromoted && !shop.isNew
  {
    assert "Топ продаж" + "" == "Топ продаж";
    assert "" + "Новый магазин" == "Новый магазин";
  }
}
