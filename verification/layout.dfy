/** The page frame: the notification bell with its dropdown, the profile
    button and the administrator link in the header. */
module Layout {
  import opened Seqs
  import opened Types
  import opened NotificationContext
  import opened AuthContext
  import opened App
  import Admin

  /** The header shows the administrator link exactly to an administrator. */
  predicate AdminLinkVisible(user: Option<User>)
  {
    match user
    case None => false
    case Some(u) => u.role == AdminRole
  }

  /** Whoever sees the link gets the dashboard when following it, and whoever
      does not is refused by the page too. */
  lemma AdminLinkMatchesGate(user: Option<User>, users: seq<User>, ads: seq<Ad>)
    ensures AdminLinkVisible(user) <==> Admin.View(user, users, ads).Dashboard?
  {
  }

  class Header {
    var isNotifOpen: bool

    constructor ()
      ensures !isNotifOpen
    {
      isNotifOpen := false;
    }

    /** The bell: flips the dropdown, and opening it with unread
        notifications marks them all read. Closing it, or opening it with
        nothing unread, leaves the notifications as they are. */
    method HandleNotifClick(notif: NotificationStore)
      requires notif.Valid()
      modifies this, notif
      ensures notif.Valid()
      ensures isNotifOpen == !old(isNotifOpen)
      ensures !old(isNotifOpen) && old(notif.UnreadCount()) > 0 ==>
                notif.notifications == MarkedRead(old(notif.notifications))
      ensures old(isNotifOpen) || old(notif.UnreadCount()) == 0 ==>
                notif.notifications == old(notif.notifications)
      ensures isNotifOpen ==> notif.UnreadCount() == 0
      ensures notif.toasts == old(notif.toasts) && notif.expiring == old(notif.expiring)
    {
      var wasOpen := isNotifOpen;
      isNotifOpen := !wasOpen;
      if !wasOpen && notif.UnreadCount() > 0 {
        notif.MarkAllRead();
      }
    }

    /** A mouse press outside the dropdown closes it. */
    method ClickOutside(insideDropdown: bool)
      modifies this
      ensures isNotifOpen == (old(isNotifOpen) && insideDropdown)
    {
      if !insideDropdown {
        isNotifOpen := false;
      }
    }
  }

  /** The profile button: the personal page for a signed-in user, the
      sign-in dialog otherwise. */
  method HandleProfileClick(auth: AuthStore, router: Router)
    modifies auth, router
    ensures old(auth.IsAuthenticated()) ==>
              router.currentPage == Token(Profile) && router.fragment == Token(Profile) &&
              auth.isAuthModalOpen == old(auth.isAuthModalOpen)
    ensures !old(auth.IsAuthenticated()) ==>
              auth.isAuthModalOpen && router.fragment == old(router.fragment) &&
              router.currentPage == old(router.currentPage)
    ensures auth.user == old(auth.user) && auth.storage == old(auth.storage)
    ensures router.selectedAdId == old(router.selectedAdId)
    ensures router.selectedSeller == old(router.selectedSeller)
  {
    if auth.IsAuthenticated() {
      router.Navigate(Token(Profile));
    } else {
      auth.OpenAuthModal();
    }
  }
}
