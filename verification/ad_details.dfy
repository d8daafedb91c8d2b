/** The ad details page: the "similar ads" strip and the button that starts
    a conversation with the seller. */
module AdDetails {
  import opened Seqs
  import opened Types
  import opened NotificationContext
  import opened DataContext
  import opened App

  const SimilarLimit := 3

  /** Same category as the shown ad, another id. */
  predicate SimilarTo(ad: Ad, item: Ad)
  {
    item.category == ad.category && item.id != ad.id
  }

  /** The first (at most three) ads similar to `ad`, in store order. The
      status is not looked at, so archived or banned ads can be among them. */
  function SimilarAds(ads: seq<Ad>, ad: Ad): (r: seq<Ad>)
    ensures |r| <= SimilarLimit
    ensures r <= Filter(ads, (item: Ad) => SimilarTo(ad, item))
    ensures var n := |Filter(ads, (item: Ad) => SimilarTo(ad, item))|;
            |r| == if n < SimilarLimit then n else SimilarLimit
  {
    Take(Filter(ads, (item: Ad) => SimilarTo(ad, item)), SimilarLimit)
  }

  /** Every similar ad is in the store, shares the category and has another
      id, so the shown ad is never among them; and when fewer than three
      ads qualify, all of them are shown. */
  lemma SimilarAdsSpec(ads: seq<Ad>, ad: Ad)
    ensures forall x :: x in SimilarAds(ads, ad) ==>
              x in ads && x.category == ad.category && x.id != ad.id
    ensures ad !in SimilarAds(ads, ad)
    ensures |Filter(ads, (item: Ad) => SimilarTo(ad, item))| <= SimilarLimit ==>
              forall x :: x in ads && SimilarTo(ad, x) ==> x in SimilarAds(ads, ad)
  {
    var all := Filter(ads, (item: Ad) => SimilarTo(ad, item));
    FilterSpec(ads, (item: Ad) => SimilarTo(ad, item));
    var r := SimilarAds(ads, ad);
    forall x | x in r ensures x in all {
      var k :| 0 <= k < |r| && r[k] == x;
      assert all[k] == x;
    }
  }

  /** The "write to the seller" button: opens (or finds) the thread with the
      ad's author, then switches the location to the messages page. */
  method StartChat(data: DataStore, router: Router, ad: Ad, now: nat) returns (chatId: string)
    requires data.Valid()
    modifies data, router
    ensures data.Valid()
    ensures exists i :: 0 <= i < |data.chats| && data.chats[i].userName == ad.author &&
                        data.chats[i].id == chatId
    ensures ChatNamed(old(data.chats), ad.author) >= 0 ==>
              chatId == old(data.chats)[ChatNamed(old(data.chats), ad.author)].id &&
              data.chats == old(data.chats) && data.messages == old(data.messages)
    ensures ChatNamed(old(data.chats), ad.author) < 0 ==>
              chatId == Stamp(now) &&
              data.chats == [NewChat(chatId, ad.author, AdTitleFor(data.ads, ad.id))] + old(data.chats) &&
              data.messages == old(data.messages)[chatId := []]
    ensures router.fragment == Token(ChatPage) && router.currentPage == Token(ChatPage)
    ensures router.selectedAdId == old(router.selectedAdId)
    ensures router.selectedSeller == old(router.selectedSeller)
    ensures data.ads == old(data.ads) && data.pending == old(data.pending)
    ensures data.users == old(data.users) && data.favorites == old(data.favorites)
  {
    chatId := data.CreateChat(ad.id, ad.author, now);
    router.HashChanged(Token(ChatPage));
  }

  /** The thread opened for an ad that is on display carries the ad's
      title, unless the title is empty. */
  lemma NewThreadNamesAd(ads: seq<Ad>, ad: Ad, chatId: string)
    requires ad in ads && ad.title != ""
    requires forall i :: 0 <= i < |ads| && ads[i].id == ad.id ==> ads[i] == ad
    ensures NewChat(chatId, ad.author, AdTitleFor(ads, ad.id)).adTitle == ad.title
    ensures NewChat(chatId, ad.author, AdTitleFor(ads, ad.id)).unreadCount == 0
  {
    var i :| 0 <= i < |ads| && ads[i] == ad;
    assert ads[i].id == ad.id;
  }
}
