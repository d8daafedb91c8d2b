/** The "post an ad" form: its fields, the picture list, the promotion plan,
    and the submit handler that checks the sign-in and the mandatory fields
    before building the new ad and handing it to the catalog. The generated
    description and the parsed price come from outside the form and are
    passed in. */
module PostAd {
  import opened Seqs
  import opened Types
  import opened AuthContext
  import opened NotificationContext
  import opened DataContext
  import opened App
  import Browse
  import Home

  datatype Plan = FreePlan | TurboPlan | VipPlan

  const RubleSign := "₽"
  const NoDescription := "Нет описания"
  const DefaultLocation := "ул. Крымская, 12 (по умолчанию)"
  const PlaceholderImage := "https://picsum.photos/400/300?random=99"
  const JustPosted := "Только что"

  /** What a submit did. */
  datatype SubmitOutcome =
    | Refused             // a required field is empty: the browser blocked the submit
    | NeedsLogin          // nobody signed in: the sign-in dialog was opened
    | MissingFields       // title, price or category empty: nothing posted
    | Posted(ad: Ad)      // the ad was built and added

  /** The picture list without the element at `index`; an index outside the
      list removes nothing. */
  function RemovedAt(images: seq<string>, index: int): (r: seq<string>)
  {
    if 0 <= index < |images| then images[..index] + images[index + 1..] else images
  }

  /** Removing drops exactly the picture at that position: the ones before
      keep their positions, the ones after move up by one, and the list
      loses exactly that one element. */
  lemma RemovedAtSpec(images: seq<string>, index: int)
    requires 0 <= index < |images|
    ensures |RemovedAt(images, index)| == |images| - 1
    ensures forall j :: 0 <= j < index ==> RemovedAt(images, index)[j] == images[j]
    ensures forall j :: index <= j < |images| - 1 ==> RemovedAt(images, index)[j] == images[j + 1]
    ensures multiset(RemovedAt(images, index)) + multiset{images[index]} == multiset(images)
  {
    assert images == images[..index] + [images[index]] + images[index + 1..];
  }

  /** The ad a submit builds from the form and the signed-in user. */
  function BuildAd(id: string, title: string, price: int, description: string, category: string,
                   images: seq<string>, plan: Plan, user: User): (ad: Ad)
  {
    Ad(id, title, price, RubleSign,
       if description == "" then NoDescription else description,
       DefaultLocation, category,
       if |images| > 0 && images[0] != "" then images[0] else PlaceholderImage,
       JustPosted, user.name, Some(user.id), Some(Active),
       plan != FreePlan, plan == VipPlan, false)
  }

  /** A built ad is active, owned by the user, never without a description
      or a picture, and a VIP ad is always promoted too. */
  lemma BuiltAdShape(id: string, title: string, price: int, description: string, category: string,
                     images: seq<string>, plan: Plan, user: User)
    ensures var ad := BuildAd(id, title, price, description, category, images, plan, user);
            && ad.status == Some(Active) && ad.authorId == Some(user.id) && ad.author == user.name
            && ad.description != "" && ad.image != ""
            && (ad.isVip ==> ad.isPromoted)
            && (ad.isPromoted <==> plan != FreePlan)
            && (ad.isVip <==> plan == VipPlan)
            && (description != "" ==> ad.description == description)
            && (|images| > 0 && images[0] != "" ==> ad.image == images[0])
  {
  }

  /** A posted ad is listed at once, ahead of the older ads of its home
      section: first among the VIP ads for the VIP plan, first among the
      promoted ads for the turbo plan, first in the fresh grid for the free
      plan. */
  lemma PostedAdIsShown(ads: seq<Ad>, id: string, title: string, price: int, description: string,
                        category: string, images: seq<string>, plan: Plan, user: User)
    ensures var ad := BuildAd(id, title, price, description, category, images, plan, user);
            && Browse.ActiveAds([ad] + ads) == [ad] + Browse.ActiveAds(ads)
            && (plan == VipPlan ==> Home.VipAds([ad] + ads)[0] == ad)
            && (plan == TurboPlan ==> Home.PromotedAds([ad] + ads)[0] == ad)
            && (plan == FreePlan ==> Home.FreshAds([ad] + ads)[0] == ad)
  {
    var ad := BuildAd(id, title, price, description, category, images, plan, user);
    assert ([ad] + ads)[1..] == ads;
    var active := [ad] + Browse.ActiveAds(ads);
    assert active[1..] == Browse.ActiveAds(ads);
  }

  class PostAdForm {
    var title: string
    var category: string
    /** The price field as typed. */
    var price: string
    var description: string
    var images: seq<string>
    var plan: Plan

    constructor ()
      ensures title == "" && category == "" && price == "" && description == ""
      ensures images == [] && plan == FreePlan
    {
      title, category, price, description := "", "", "", "";
      images := [];
      plan := FreePlan;
    }

    /** New pictures go after the ones already chosen. */
    method AddImages(urls: seq<string>)
      modifies this
      ensures images == old(images) + urls
      ensures title == old(title) && category == old(category) && price == old(price)
      ensures description == old(description) && plan == old(plan)
    {
      images := images + urls;
    }

    method RemoveImage(index: int)
      modifies this
      ensures images == RemovedAt(old(images), index)
      ensures title == old(title) && category == old(category) && price == old(price)
      ensures description == old(description) && plan == old(plan)
    {
      images := RemovedAt(images, index);
    }

    /** Replaces the description with a generated one, but only when a title
        and a category are there to generate it from; `generated` is the
        text the generator returned for them. */
    method ApplyGenerated(generated: string) returns (ran: bool)
      modifies this
      ensures ran <==> title != "" && category != ""
      ensures description == if ran then generated else old(description)
      ensures title == old(title) && category == old(category) && price == old(price)
      ensures images == old(images) && plan == old(plan)
    {
      if title == "" || category == "" {
        return false;
      }
      description := generated;
      ran := true;
    }

    /** The submit handler. Without a signed-in user only the dialog opens;
        with an empty title, price or category nothing happens; otherwise
        the built ad (id from the clock, price as parsed from the field) is
        added to the catalog and the home page is opened. */
    method HandleSubmit(auth: AuthStore, data: DataStore, router: Router, now: nat, parsedPrice: int)
      returns (outcome: SubmitOutcome)
      requires data.Valid()
      modifies auth, data, data.notif, router
      ensures data.Valid()
      ensures old(auth.user).None? ==>
                outcome == NeedsLogin && auth.isAuthModalOpen && auth.user == old(auth.user) &&
                data.ads == old(data.ads) && data.pending == old(data.pending) &&
                data.notif.toasts == old(data.notif.toasts)
      ensures old(auth.user).Some? && (title == "" || price == "" || category == "") ==>
                outcome == MissingFields &&
                data.ads == old(data.ads) && data.pending == old(data.pending) &&
                data.notif.toasts == old(data.notif.toasts)
      ensures old(auth.user).Some? && title != "" && price != "" && category != "" ==>
                outcome == Posted(BuildAd(Stamp(now), title, parsedPrice, description, category,
                                          images, plan, old(auth.user).value)) &&
                data.ads == [outcome.ad] + old(data.ads) &&
                data.pending == old(data.pending) + [Moderation(title)] &&
                data.notif.expiring == old(data.notif.expiring) + [Stamp(now)] &&
                data.notif.toasts == old(data.notif.toasts) + [Toast(Stamp(now), PostedToast, SuccessToast)] &&
                router.fragment == Token(Home) && router.currentPage == Token(Home)
      ensures outcome.Posted? ==>
                router.selectedAdId == old(router.selectedAdId) &&
                router.selectedSeller == old(router.selectedSeller)
      ensures !outcome.Posted? ==>
                router.fragment == old(router.fragment) && router.currentPage == old(router.currentPage) &&
                router.selectedAdId == old(router.selectedAdId) &&
                router.selectedSeller == old(router.selectedSeller)
      ensures !outcome.Posted? ==> data.notif.expiring == old(data.notif.expiring)
      ensures !outcome.NeedsLogin? ==> auth.isAuthModalOpen == old(auth.isAuthModalOpen)
      ensures outcome != Refused
      ensures auth.user == old(auth.user) && auth.storage == old(auth.storage)
      ensures data.users == old(data.users) && data.chats == old(data.chats)
      ensures data.messages == old(data.messages) && data.favorites == old(data.favorites)
      ensures data.notif.notifications == old(data.notif.notifications)
    {
      if auth.user.None? {
        auth.OpenAuthModal();
        return NeedsLogin;
      }
      if title == "" || price == "" || category == "" {
        return MissingFields;
      }
      var ad := BuildAd(Stamp(now), title, parsedPrice, description, category, images, plan, auth.user.value);
      data.AddAd(ad, now);
      router.Navigate(Token(Home));
      outcome := Posted(ad);
    }

    /** The form's submit event. The title, the category and the price are
        required fields, so while one of them is empty the browser blocks
        the submit before the handler runs, and nothing changes, whether or
        not anybody is signed in. Otherwise the handler runs; its own check
        for empty fields can then never refuse. */
    method Submit(auth: AuthStore, data: DataStore, router: Router, now: nat, parsedPrice: int)
      returns (outcome: SubmitOutcome)
      requires data.Valid()
      modifies auth, data, data.notif, router
      ensures data.Valid()
      ensures outcome != MissingFields
      ensures title == "" || price == "" || category == "" ==>
                outcome == Refused &&
                auth.user == old(auth.user) && auth.storage == old(auth.storage) &&
                auth.isAuthModalOpen == old(auth.isAuthModalOpen) &&
                data.ads == old(data.ads) && data.pending == old(data.pending) &&
                data.notif.toasts == old(data.notif.toasts) && data.notif.expiring == old(data.notif.expiring) &&
                data.notif.notifications == old(data.notif.notifications) &&
                router.fragment == old(router.fragment) && router.currentPage == old(router.currentPage)
      ensures title != "" && price != "" && category != "" && old(auth.user).None? ==>
                outcome == NeedsLogin && auth.isAuthModalOpen &&
                auth.user == old(auth.user) && auth.storage == old(auth.storage) &&
                data.ads == old(data.ads) && data.pending == old(data.pending) &&
                data.notif.toasts == old(data.notif.toasts) && data.notif.expiring == old(data.notif.expiring) &&
                data.notif.notifications == old(data.notif.notifications) &&
                router.fragment == old(router.fragment) && router.currentPage == old(router.currentPage)
      ensures title != "" && price != "" && category != "" && old(auth.user).Some? ==>
                outcome == Posted(BuildAd(Stamp(now), title, parsedPrice, description, category,
                                          images, plan, old(auth.user).value)) &&
                data.ads == [outcome.ad] + old(data.ads) &&
                data.pending == old(data.pending) + [Moderation(title)] &&
                data.notif.toasts == old(data.notif.toasts) + [Toast(Stamp(now), PostedToast, SuccessToast)] &&
                data.notif.expiring == old(data.notif.expiring) + [Stamp(now)] &&
                data.notif.notifications == old(data.notif.notifications) &&
                data.users == old(data.users) && data.chats == old(data.chats) &&
                data.messages == old(data.messages) && data.favorites == old(data.favorites) &&
                router.fragment == Token(Home) && router.currentPage == Token(Home) &&
                router.selectedAdId == old(router.selectedAdId) &&
                router.selectedSeller == old(router.selectedSeller) &&
                auth.user == old(auth.user) && auth.storage == old(auth.storage) &&
                auth.isAuthModalOpen == old(auth.isAuthModalOpen)
      ensures data.users == old(data.users) && data.chats == old(data.chats)
      ensures data.messages == old(data.messages) && data.favorites == old(data.favorites)
      ensures router.selectedAdId == old(router.selectedAdId) && router.selectedSeller == old(router.selectedSeller)
    {
      if title == "" || price == "" || category == "" {
        return Refused;
      }
      outcome := HandleSubmit(auth, data, router, now, parsedPrice);
    }
  }
}
