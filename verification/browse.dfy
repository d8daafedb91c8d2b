/** The browse page: the visible ads, narrowed by a search term, a street
    and a category, then ordered by the chosen sort. Lower-casing is the
    host's locale-aware case mapping and is passed in as `fold`. */
module Browse {
  import opened Seqs
  import opened Types

  const AllStreets := "Все улицы"
  const AllCategories := "Все"

  datatype SortOption = Newest | PriceAsc | PriceDesc

  datatype Filters = Filters(searchTerm: string, location: string, category: string, sort: SortOption)

  const DefaultFilters := Filters("", AllStreets, AllCategories, Newest)

  /** Archived and banned ads are hidden; pending ads and ads without a
      status are shown. */
  predicate Visible(ad: Ad)
  {
    ad.status != Some(Archived) && ad.status != Some(Banned)
  }

  function ActiveAds(ads: seq<Ad>): seq<Ad>
  {
    Filter(ads, Visible)
  }

  lemma ActiveAdsSpec(ads: seq<Ad>)
    ensures forall a :: a in ActiveAds(ads) <==>
              a in ads && a.status != Some(Archived) && a.status != Some(Banned)
    ensures forall a :: a in ads && (a.status.None? || a.status == Some(Pending)) ==> a in ActiveAds(ads)
  {
    FilterSpec(ads, Visible);
  }

  /** The three conditions an ad must meet to be listed. */
  predicate Matches(ad: Ad, f: Filters, fold: string -> string)
  {
    && Contains(fold(ad.title), fold(f.searchTerm))
    && (f.location == AllStreets || Contains(ad.location, f.location))
    && (f.category == AllCategories || ad.category == f.category)
  }

  function FilteredAds(ads: seq<Ad>, f: Filters, fold: string -> string): seq<Ad>
  {
    Filter(ActiveAds(ads), (a: Ad) => Matches(a, f, fold))
  }

  /** The comparator handed to the sort: price difference either way, and
      zero (keep order) for "newest". */
  function Compare(sort: SortOption, a: Ad, b: Ad): int
  {
    match sort
    case PriceAsc => a.price - b.price
    case PriceDesc => b.price - a.price
    case Newest => 0
  }

  /** Ordered by the comparator: no later ad compares below an earlier one. */
  ghost predicate SortedBy(sort: SortOption, s: seq<Ad>)
  {
    forall i, j :: 0 <= i < j < |s| ==> Compare(sort, s[i], s[j]) <= 0
  }

  /** Inserts `x` after every element that does not compare above it, which
      keeps equal elements in their original order. */
  function Insert(sort: SortOption, t: seq<Ad>, x: Ad): (r: seq<Ad>)
    ensures multiset(r) == multiset(t) + multiset{x}
  {
    if t == [] then [x]
    else if Compare(sort, t[|t| - 1], x) <= 0 then t + [x]
    else
      assert t == t[..|t| - 1] + [t[|t| - 1]];
      Insert(sort, t[..|t| - 1], x) + [t[|t| - 1]]
  }

  /** Inserting adds `x` and nothing else. */
  lemma InsertMembers(sort: SortOption, t: seq<Ad>, x: Ad)
    ensures forall y :: y in Insert(sort, t, x) <==> y in t || y == x
  {
    var r := Insert(sort, t, x);
    assert forall y :: y in r <==> y in multiset(r);
    assert forall y :: y in t <==> y in multiset(t);
  }

  /** A sorted list stays sorted without its last element, and that last
      element bounds all the others. */
  lemma SortedLast(sort: SortOption, init: seq<Ad>, last: Ad)
    requires SortedBy(sort, init + [last])
    ensures SortedBy(sort, init)
    ensures forall y :: y in init ==> Compare(sort, y, last) <= 0
  {
    var t := init + [last];
    assert forall i :: 0 <= i < |init| ==> init[i] == t[i];
    assert t[|init|] == last;
  }

  /** An element bounding every element of a sorted list can be put after
      them. */
  lemma SortedAppend(sort: SortOption, s: seq<Ad>, z: Ad)
    requires SortedBy(sort, s)
    requires forall y :: y in s ==> Compare(sort, y, z) <= 0
    ensures SortedBy(sort, s + [z])
  {
    var r := s + [z];
    forall i, j | 0 <= i < j < |r| ensures Compare(sort, r[i], r[j]) <= 0 {
      assert r[i] == s[i];
      if j == |s| {
        assert s[i] in s;
      } else {
        assert r[j] == s[j];
      }
    }
  }

  /** Inserting into a sorted list keeps it sorted. */
  lemma {:induction false} InsertSorted(sort: SortOption, t: seq<Ad>, x: Ad)
    requires SortedBy(sort, t)
    ensures SortedBy(sort, Insert(sort, t, x))
  {
    if t != [] && Compare(sort, t[|t| - 1], x) > 0 {
      var init, last := t[..|t| - 1], t[|t| - 1];
      assert t == init + [last];
      SortedLast(sort, init, last);
      InsertSorted(sort, init, x);
      InsertMembers(sort, init, x);
      assert Compare(sort, x, last) <= 0;
      SortedAppend(sort, Insert(sort, init, x), last);
    }
  }

  /** A stable sort of `s` by the comparator (insertion sort). */
  function SortAds(sort: SortOption, s: seq<Ad>): (r: seq<Ad>)
    ensures multiset(r) == multiset(s)
  {
    if s == [] then []
    else
      assert s == s[..|s| - 1] + [s[|s| - 1]];
      Insert(sort, SortAds(sort, s[..|s| - 1]), s[|s| - 1])
  }

  lemma {:induction false} SortAdsSorted(sort: SortOption, s: seq<Ad>)
    ensures SortedBy(sort, SortAds(sort, s))
  {
    if s != [] {
      SortAdsSorted(sort, s[..|s| - 1]);
      InsertSorted(sort, SortAds(sort, s[..|s| - 1]), s[|s| - 1]);
    }
  }

  /** The list the page shows: the filtered ads, each as often as there,
      ordered by the chosen sort. */
  function Results(ads: seq<Ad>, f: Filters, fold: string -> string): (r: seq<Ad>)
    ensures multiset(r) == multiset(FilteredAds(ads, f, fold))
    ensures SortedBy(f.sort, r)
  {
    SortAdsSorted(f.sort, FilteredAds(ads, f, fold));
    SortAds(f.sort, FilteredAds(ads, f, fold))
  }

  /** The listed ads are exactly the visible ads that match all three
      conditions, each as often as in the store. */
  lemma ResultsSpec(ads: seq<Ad>, f: Filters, fold: string -> string)
    ensures multiset(Results(ads, f, fold)) == multiset(FilteredAds(ads, f, fold))
    ensures forall a :: a in Results(ads, f, fold) <==> a in ads && Visible(a) && Matches(a, f, fold)
  {
    FilterSpec(ads, Visible);
    FilterSpec(ActiveAds(ads), (a: Ad) => Matches(a, f, fold));
    var r := Results(ads, f, fold);
    forall a ensures a in r <==> a in FilteredAds(ads, f, fold) {
      assert a in r <==> a in multiset(r);
    }
  }

  /** Sorting by ascending price gives non-decreasing prices; by descending
      price, non-increasing ones. */
  lemma ResultsPriceOrder(ads: seq<Ad>, f: Filters, fold: string -> string)
    ensures f.sort == PriceAsc ==>
              forall i, j :: 0 <= i < j < |Results(ads, f, fold)| ==>
                Results(ads, f, fold)[i].price <= Results(ads, f, fold)[j].price
    ensures f.sort == PriceDesc ==>
              forall i, j :: 0 <= i < j < |Results(ads, f, fold)| ==>
                Results(ads, f, fold)[i].price >= Results(ads, f, fold)[j].price
  {
    var r := Results(ads, f, fold);
    SortAdsSorted(f.sort, FilteredAds(ads, f, fold));
    assert forall i, j :: 0 <= i < j < |r| ==> Compare(f.sort, r[i], r[j]) <= 0;
  }

  /** With the comparator always zero, the stable sort leaves the store
      order as it is. */
  lemma {:induction false} NewestKeepsOrder(s: seq<Ad>)
    ensures SortAds(Newest, s) == s
  {
    if s != [] {
      NewestKeepsOrder(s[..|s| - 1]);
      assert s == s[..|s| - 1] + [s[|s| - 1]];
    }
  }

  /** With the default filters (and a case mapping that keeps the empty
      string empty) every visible ad is listed, in store order. */
  lemma DefaultsListAllVisible(ads: seq<Ad>, fold: string -> string)
    requires fold("") == ""
    ensures Results(ads, DefaultFilters, fold) == ActiveAds(ads)
  {
    var active := ActiveAds(ads);
    forall i | 0 <= i < |active| ensures Matches(active[i], DefaultFilters, fold) {
      ContainsEmpty(fold(active[i].title));
    }
    NewestKeepsOrder(active);
  }

  /** The "reset all filters" button clears search, street and category and
      keeps the sort. */
  function Reset(f: Filters): (r: Filters)
    ensures r.sort == f.sort
    ensures r.(sort := Newest) == DefaultFilters
  {
    f.(searchTerm := "", location := AllStreets, category := AllCategories)
  }
}
