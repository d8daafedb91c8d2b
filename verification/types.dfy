/** The records of the classifieds application and the closed set of page
    tokens. Optional fields of the records become `Option`s; the optional
    boolean flags of an ad are read only for their truthiness, so an absent
    flag is `false`. Display-only fields (ratings, badges, delivery) are not
    part of this model. */
module Types {
  import opened Seqs

  datatype Role = UserRole | AdminRole

  datatype User = User(
    id: string,
    name: string,
    email: string,
    avatar: Option<string>,
    phone: Option<string>,
    isVerified: Option<bool>,
    role: Role)

  /** The lifecycle status of an ad; the field itself is optional. */
  datatype AdStatus = Active | Archived | Pending | Banned

  datatype Ad = Ad(
    id: string,
    title: string,
    price: int,
    currency: string,
    description: string,
    location: string,
    category: string,
    image: string,
    date: string,
    author: string,
    authorId: Option<string>,
    status: Option<AdStatus>,
    isPromoted: bool,
    isVip: bool,
    isUrgent: bool)

  datatype Sender = Me | Other

  datatype Message = Message(id: string, text: string, sender: Sender, time: string, read: bool)

  datatype Chat = Chat(
    id: string,
    userName: string,
    userAvatar: string,
    lastMessage: string,
    unreadCount: nat,
    adTitle: string,
    time: string)

  datatype NotificationKind = SystemKind | MessageKind | PriceKind | SuccessKind

  datatype AppNotification = AppNotification(
    id: string,
    title: string,
    text: string,
    time: string,
    read: bool,
    kind: NotificationKind)

  datatype ToastKind = SuccessToast | ErrorToast | InfoToast

  datatype Toast = Toast(id: string, message: string, kind: ToastKind)

  /** The page identifiers, whose string values are the location tokens. */
  datatype Page =
    | Home | Browse | PostAd | About | Safety | Contacts | Blog | Terms
    | Privacy | AdDetails | Profile | Admin | ChatPage | SellerProfile

  function Token(p: Page): string
  {
    match p
    case Home => "/"
    case Browse => "/browse"
    case PostAd => "/post-ad"
    case About => "/about"
    case Safety => "/safety"
    case Contacts => "/contacts"
    case Blog => "/blog"
    case Terms => "/terms"
    case Privacy => "/privacy"
    case AdDetails => "/ad-details"
    case Profile => "/profile"
    case Admin => "/admin"
    case ChatPage => "/chat"
    case SellerProfile => "/seller"
  }

  /** The page a token names, if it names one. */
  function ParsePage(token: string): (r: Option<Page>)
    ensures r.Some? ==> Token(r.value) == token
    ensures r.None? ==> forall p :: Token(p) != token
  {
    if token == "/" then Some(Home)
    else if token == "/browse" then Some(Browse)
    else if token == "/post-ad" then Some(PostAd)
    else if token == "/about" then Some(About)
    else if token == "/safety" then Some(Safety)
    else if token == "/contacts" then Some(Contacts)
    else if token == "/blog" then Some(Blog)
    else if token == "/terms" then Some(Terms)
    else if token == "/privacy" then Some(Privacy)
    else if token == "/ad-details" then Some(AdDetails)
    else if token == "/profile" then Some(Profile)
    else if token == "/admin" then Some(Admin)
    else if token == "/chat" then Some(ChatPage)
    else if token == "/seller" then Some(SellerProfile)
    else None
  }

  /** The fourteen tokens are pairwise distinct, so each page is recovered
      from its token. */
  lemma {:induction false} TokenRoundTrip(p: Page)
    ensures ParsePage(Token(p)) == Some(p)
  {
    match p
    case Home =>
    case Browse =>
    case PostAd =>
    case About =>
    case Safety =>
    case Contacts =>
    case Blog =>
    case Terms =>
    case Privacy =>
    case AdDetails =>
    case Profile =>
    case Admin =>
    case ChatPage =>
    case SellerProfile =>
  }

  lemma TokensDistinct(p: Page, q: Page)
    ensures Token(p) == Token(q) ==> p == q
  {
    TokenRoundTrip(p);
    TokenRoundTrip(q);
  }

  /** A status as printed into a toast; an absent status prints
      as "undefined". */
  function StatusText(status: Option<AdStatus>): string
  {
    match status
    case None => "undefined"
    case Some(Active) => "active"
    case Some(Archived) => "archived"
    case Some(Pending) => "pending"
    case Some(Banned) => "banned"
  }
}
