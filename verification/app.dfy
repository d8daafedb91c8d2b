/** The navigation controller: the location fragment selects the current
    page, and two selections (the ad and the seller last clicked) are
    carried across navigations. Rendering dispatches on the current page
    token with fallbacks when a page's selection is missing; the admin page
    is drawn without the common layout. */
module App {
  import opened Seqs
  import opened Types

  /** What the application draws for a page token. */
  datatype Screen =
    | HomeScreen | BrowseScreen | PostAdScreen | AboutScreen | SafetyScreen
    | ContactsScreen | BlogScreen | TermsScreen | PrivacyScreen | ProfileScreen
    | ChatScreen | AdminScreen
    | SellerProfileScreen(seller: string)
    | AdDetailsScreen(ad: Ad)

  datatype View = View(screen: Screen, inLayout: bool)

  /** The current page for a location fragment: the fragment itself, or the
      home token when it is empty. */
  function PageFor(fragment: string): (page: string)
    ensures page != ""
    ensures fragment == "" ==> page == Token(Home)
    ensures fragment != "" ==> page == fragment
  {
    if fragment == "" then Token(Home) else fragment
  }

  /** A selection counts as present when it is set to a non-empty string. */
  predicate Present(s: Option<string>)
  {
    s.Some? && s.value != ""
  }

  /** The ad whose id is the selected ad id, first match in store order. */
  function SelectedAd(ads: seq<Ad>, selectedAdId: Option<string>): (r: Option<Ad>)
    ensures r.Some? ==> r.value in ads && selectedAdId == Some(r.value.id)
    ensures r.Some? ==> exists i :: 0 <= i < |ads| && ads[i] == r.value && forall j :: 0 <= j < i ==> ads[j].id != r.value.id
    ensures r.None? <==> selectedAdId.None? || forall i :: 0 <= i < |ads| ==> ads[i].id != selectedAdId.value
  {
    match selectedAdId
    case None => None
    case Some(id) => Find(ads, (a: Ad) => a.id == id)
  }

  /** The page drawn for the current token and selections. */
  function Render(currentPage: string, selectedAdId: Option<string>, selectedSeller: Option<string>,
                  ads: seq<Ad>): (v: View)
    ensures v.inLayout <==> currentPage != Token(Admin)
    ensures v.screen == AdminScreen <==> currentPage == Token(Admin)
    ensures ParsePage(currentPage).None? ==> v.screen == HomeScreen
    ensures currentPage == Token(SellerProfile) ==>
              v.screen == if Present(selectedSeller) then SellerProfileScreen(selectedSeller.value) else BrowseScreen
    ensures currentPage == Token(AdDetails) ==>
              v.screen == if SelectedAd(ads, selectedAdId).Some? then AdDetailsScreen(SelectedAd(ads, selectedAdId).value)
                          else BrowseScreen
  {
    if currentPage == Token(Admin) then View(AdminScreen, false)
    else
      var screen := match ParsePage(currentPage)
        case None => HomeScreen
        case Some(p) =>
          match p
          case Home => HomeScreen
          case Browse => BrowseScreen
          case PostAd => PostAdScreen
          case About => AboutScreen
          case Safety => SafetyScreen
          case Contacts => ContactsScreen
          case Blog => BlogScreen
          case Terms => TermsScreen
          case Privacy => PrivacyScreen
          case Profile => ProfileScreen
          case ChatPage => ChatScreen
          case SellerProfile =>
            if Present(selectedSeller) then SellerProfileScreen(selectedSeller.value) else BrowseScreen
          case AdDetails =>
            var ad := SelectedAd(ads, selectedAdId);
            if ad.Some? then AdDetailsScreen(ad.value) else BrowseScreen
          case Admin => AdminScreen;
      View(screen, true)
  }

  /** The pages whose drawing needs no selection. */
  predicate PlainPage(p: Page)
  {
    p != Admin && p != SellerProfile && p != AdDetails
  }

  /** Every known token without a selection is drawn in the frame, as its
      own page: what is drawn does not depend on the selections or the
      ads, only the browse token gives the browse page, and two such
      tokens give the same page only when they are the same token. */
  lemma RenderKnownPage(p: Page, q: Page, selectedAdId: Option<string>, selectedSeller: Option<string>,
                        ads: seq<Ad>)
    requires PlainPage(p) && PlainPage(q)
    ensures Render(Token(p), selectedAdId, selectedSeller, ads).inLayout
    ensures Render(Token(p), selectedAdId, selectedSeller, ads) == Render(Token(p), None, None, [])
    ensures Render(Token(p), selectedAdId, selectedSeller, ads).screen != BrowseScreen <==> p != Browse
    ensures (Render(Token(p), selectedAdId, selectedSeller, ads).screen
             == Render(Token(q), selectedAdId, selectedSeller, ads).screen) <==> p == q
  {
    TokenRoundTrip(p);
    TokenRoundTrip(q);
    TokensDistinct(p, Admin);
    TokensDistinct(q, Admin);
  }

  class Router {
    /** The location fragment, without its leading '#'. */
    var fragment: string
    var currentPage: string
    var selectedAdId: Option<string>
    var selectedSeller: Option<string>

    /** The current page always follows the fragment. */
    ghost predicate Valid()
      reads this
    {
      currentPage == PageFor(fragment)
    }

    /** Mounting: the fragment is read once, with nothing selected. */
    constructor (fragment: string)
      ensures Valid()
      ensures this.fragment == fragment && currentPage == PageFor(fragment)
      ensures selectedAdId == None && selectedSeller == None
    {
      this.fragment := fragment;
      currentPage := PageFor(fragment);
      selectedAdId := None;
      selectedSeller := None;
    }

    /** The fragment changed (by navigation or by the user). */
    method HashChanged(newFragment: string)
      modifies this
      ensures Valid()
      ensures fragment == newFragment && currentPage == PageFor(newFragment)
      ensures selectedAdId == old(selectedAdId) && selectedSeller == old(selectedSeller)
    {
      fragment := newFragment;
      currentPage := PageFor(newFragment);
    }

    /** Sets the fragment to the page token; the change handler then makes
        it the current page. */
    method Navigate(page: string)
      modifies this
      ensures Valid()
      ensures fragment == page && currentPage == PageFor(page)
      ensures selectedAdId == old(selectedAdId) && selectedSeller == old(selectedSeller)
    {
      HashChanged(page);
    }

    /** Selects the ad, then opens the ad details page. */
    method HandleAdClick(ad: Ad)
      modifies this
      ensures Valid()
      ensures selectedAdId == Some(ad.id) && selectedSeller == old(selectedSeller)
      ensures currentPage == Token(AdDetails)
    {
      selectedAdId := Some(ad.id);
      Navigate(Token(AdDetails));
    }

    /** Selects the seller, then opens the seller page. */
    method HandleSellerClick(sellerName: string)
      modifies this
      ensures Valid()
      ensures selectedSeller == Some(sellerName) && selectedAdId == old(selectedAdId)
      ensures currentPage == Token(SellerProfile)
    {
      selectedSeller := Some(sellerName);
      Navigate(Token(SellerProfile));
    }

    /** What is drawn now, for the store's current ads. */
    function View(ads: seq<Ad>): View
      reads this
    {
      Render(currentPage, selectedAdId, selectedSeller, ads)
    }
  }

  /** Clicking an ad that is in the store shows a details page for an ad
      with that id (the first one, should ids repeat). */
  lemma AdClickShowsDetails(ad: Ad, ads: seq<Ad>, selectedSeller: Option<string>)
    requires ad in ads
    ensures Render(Token(AdDetails), Some(ad.id), selectedSeller, ads).screen.AdDetailsScreen?
    ensures Render(Token(AdDetails), Some(ad.id), selectedSeller, ads).screen.ad.id == ad.id
  {
    var i :| 0 <= i < |ads| && ads[i] == ad;
    assert ads[i].id == ad.id;
  }

  /** Once the selected ad is deleted, the details page falls back to the
      browse page. */
  lemma DeletedSelectionFallsBack(id: string, ads: seq<Ad>, selectedSeller: Option<string>)
    requires forall i :: 0 <= i < |ads| ==> ads[i].id != id
    ensures Render(Token(AdDetails), Some(id), selectedSeller, ads).screen == BrowseScreen
  {
  }
}
