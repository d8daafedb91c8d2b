/** The personal page: the signed-in user's own ads and favourite ads, each
    own ad with a status label and a delete button. */
module Profile {
  import opened Seqs
  import opened Types
  import opened NotificationContext
  import opened DataContext
  import opened PostAd

  const ActiveLabel := "Активно"
  const ArchiveLabel := "Архив"

  function MyAds(ads: seq<Ad>, user: User): seq<Ad>
  {
    Filter(ads, (ad: Ad) => ad.authorId == Some(user.id))
  }

  function FavoriteAds(ads: seq<Ad>, favorites: set<string>): seq<Ad>
  {
    Filter(ads, (ad: Ad) => ad.id in favorites)
  }

  /** The user's ads are exactly the stored ads owned by the user (ads with
      no owner belong to nobody); the favourites are exactly the stored ads
      whose id is a favourite, so a favourite id with no ad shows nothing. */
  lemma ListsSpec(ads: seq<Ad>, user: User, favorites: set<string>)
    ensures forall a :: a in MyAds(ads, user) <==> a in ads && a.authorId == Some(user.id)
    ensures forall a :: a in MyAds(ads, user) ==> a.authorId.Some?
    ensures forall a :: a in FavoriteAds(ads, favorites) <==> a in ads && a.id in favorites
    ensures forall id :: id in favorites && (forall i :: 0 <= i < |ads| ==> ads[i].id != id) ==>
              forall a :: a in FavoriteAds(ads, favorites) ==> a.id != id
  {
    FilterSpec(ads, (ad: Ad) => ad.authorId == Some(user.id));
    FilterSpec(ads, (ad: Ad) => ad.id in favorites);
  }

  /** What the page shows. */
  datatype ProfileView = SignedOut | Lists(myAds: seq<Ad>, favoriteAds: seq<Ad>)

  function View(user: Option<User>, ads: seq<Ad>, favorites: set<string>): (v: ProfileView)
    ensures v.SignedOut? <==> user.None?
    ensures v.Lists? ==> v.myAds == MyAds(ads, user.value) && v.favoriteAds == FavoriteAds(ads, favorites)
  {
    match user
    case None => SignedOut
    case Some(u) => Lists(MyAds(ads, u), FavoriteAds(ads, favorites))
  }

  /** Only an active ad is labelled active; pending, banned and ads without
      a status are all labelled as archived. */
  function StatusLabel(status: Option<AdStatus>): (text: string)
    ensures text == ActiveLabel <==> status == Some(Active)
    ensures text == ArchiveLabel <==> status != Some(Active)
  {
    if status == Some(Active) then ActiveLabel else ArchiveLabel
  }

  /** The delete button of one of the user's ads. */
  method DeleteOwnAd(data: DataStore, ad: Ad, now: nat)
    requires data.Valid()
    modifies data, data.notif
    ensures data.Valid()
    ensures data.ads == WithoutAd(old(data.ads), ad.id)
    ensures data.notif.toasts == old(data.notif.toasts) + [Toast(Stamp(now), DeletedToast, ErrorToast)]
    ensures data.notif.expiring == old(data.notif.expiring) + [Stamp(now)]
    ensures data.favorites == old(data.favorites) && data.pending == old(data.pending)
    ensures data.users == old(data.users) && data.chats == old(data.chats)
    ensures data.messages == old(data.messages)
    ensures data.notif.notifications == old(data.notif.notifications)
  {
    data.DeleteAd(ad.id, now);
  }

  /** After the delete, no ad with that id is among the user's ads. */
  lemma DeletedLeavesMyAds(ads: seq<Ad>, user: User, id: string)
    ensures forall a :: a in MyAds(WithoutAd(ads, id), user) ==> a.id != id
    ensures forall a :: a in MyAds(ads, user) && a.id != id ==> a in MyAds(WithoutAd(ads, id), user)
  {
    WithoutAdSpec(ads, [], id);
    ListsSpec(ads, user, {});
    ListsSpec(WithoutAd(ads, id), user, {});
  }

  /** An ad just posted by the user is the first of the user's ads and is
      labelled active. */
  lemma PostedAdFirstInMyAds(ads: seq<Ad>, id: string, title: string, price: int, description: string,
                             category: string, images: seq<string>, plan: Plan, user: User)
    ensures var ad := BuildAd(id, title, price, description, category, images, plan, user);
            MyAds([ad] + ads, user) == [ad] + MyAds(ads, user) &&
            StatusLabel(ad.status) == ActiveLabel
  {
    var ad := BuildAd(id, title, price, description, category, images, plan, user);
    assert ([ad] + ads)[1..] == ads;
  }
}
