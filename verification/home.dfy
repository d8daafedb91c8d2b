/** The home page: the visible ads split into a VIP row, a promoted row and
    a "fresh" grid, and a carousel of three banners that advances on a
    timer. */
module Home {
  import opened Seqs
  import opened Types
  import opened Browse

  /** How many fresh ads the grid shows. */
  const FreshLimit := 8

  /** The number of banners in the carousel. */
  const BannerCount := 3

  predicate IsVip(ad: Ad) { ad.isVip }
  predicate IsPromotedOnly(ad: Ad) { ad.isPromoted && !ad.isVip }
  predicate IsPlain(ad: Ad) { !ad.isVip && !ad.isPromoted }

  function VipAds(ads: seq<Ad>): seq<Ad>
  {
    Filter(ActiveAds(ads), IsVip)
  }

  function PromotedAds(ads: seq<Ad>): seq<Ad>
  {
    Filter(ActiveAds(ads), IsPromotedOnly)
  }

  /** The visible ads carrying neither flag, in store order. */
  function FreshPool(ads: seq<Ad>): seq<Ad>
  {
    Filter(ActiveAds(ads), IsPlain)
  }

  /** The fresh grid: the first ads of the pool, at most eight. */
  function FreshAds(ads: seq<Ad>): (r: seq<Ad>)
    ensures r <= FreshPool(ads)
    ensures |r| == if |FreshPool(ads)| < FreshLimit then |FreshPool(ads)| else FreshLimit
  {
    Take(FreshPool(ads), FreshLimit)
  }

  /** The three sections split the visible ads: every visible ad lies in
      exactly one of them, and together they hold each visible ad as often
      as the store does. */
  lemma SectionsPartition(ads: seq<Ad>)
    ensures multiset(VipAds(ads)) + multiset(PromotedAds(ads)) + multiset(FreshPool(ads))
            == multiset(ActiveAds(ads))
    ensures forall a :: a in VipAds(ads) ==> a !in PromotedAds(ads) && a !in FreshPool(ads)
    ensures forall a :: a in PromotedAds(ads) ==> a !in FreshPool(ads)
    ensures forall a :: a in ActiveAds(ads) <==>
              a in VipAds(ads) || a in PromotedAds(ads) || a in FreshPool(ads)
  {
    var active := ActiveAds(ads);
    FilterSpec(active, IsVip);
    FilterSpec(active, IsPromotedOnly);
    FilterSpec(active, IsPlain);
    var m := multiset(VipAds(ads)) + multiset(PromotedAds(ads)) + multiset(FreshPool(ads));
    forall a ensures m[a] == multiset(active)[a] {
    }
  }

  /** The row under the banners: the VIP ads followed by the promoted ones,
      drawn only when there is at least one VIP ad. */
  function VipRow(ads: seq<Ad>): (r: seq<Ad>)
    ensures forall a :: a in r ==> a in ActiveAds(ads) && (a.isPromoted || a.isVip)
    ensures forall i, j :: 0 <= i < j < |r| && r[j].isVip ==> r[i].isVip
    ensures |VipAds(ads)| > 0 ==> forall a :: a in ActiveAds(ads) && (a.isVip || a.isPromoted) ==> a in r
    ensures |VipAds(ads)| == 0 ==> r == []
  {
    FilterSpec(ActiveAds(ads), IsVip);
    FilterSpec(ActiveAds(ads), IsPromotedOnly);
    if |VipAds(ads)| > 0 then VipAds(ads) + PromotedAds(ads) else []
  }

  /** Without a visible VIP ad, a promoted ad appears nowhere on the home
      page: not in the row, which is not drawn, and not in the fresh grid. */
  lemma PromotedHiddenWithoutVip(ads: seq<Ad>, a: Ad)
    requires a in PromotedAds(ads)
    requires forall b :: b in ActiveAds(ads) ==> !b.isVip
    ensures a !in VipRow(ads) && a !in FreshAds(ads)
  {
    FilterSpec(ActiveAds(ads), IsVip);
    FilterSpec(ActiveAds(ads), IsPromotedOnly);
    FilterSpec(ActiveAds(ads), IsPlain);
    HeadIsMember(VipAds(ads));
  }

  /** The banner shown after one more tick of the carousel timer. */
  function NextBanner(i: nat): (j: nat)
    ensures j < BannerCount
    ensures i + 1 < BannerCount ==> j == i + 1
    ensures i + 1 == BannerCount ==> j == 0
  {
    (i + 1) % BannerCount
  }

  /** From any shown banner, three ticks come back to it and one tick never
      stays. */
  lemma BannerCycle(i: nat)
    requires i < BannerCount
    ensures NextBanner(NextBanner(NextBanner(i))) == i
    ensures NextBanner(i) != i
  {
  }

  /** The carousel's state: the index of the banner shown. */
  class Carousel {
    var current: nat

    ghost predicate Valid()
      reads this
    {
      current < BannerCount
    }

    constructor ()
      ensures Valid() && current == 0
    {
      current := 0;
    }

    /** The timer fires. */
    method Tick()
      requires Valid()
      modifies this
      ensures Valid()
      ensures current == NextBanner(old(current))
    {
      current := (current + 1) % BannerCount;
    }

    /** A dot under the carousel is clicked. */
    method Select(index: nat)
      requires index < BannerCount
      modifies this
      ensures Valid() && current == index
    {
      current := index;
    }
  }
}
