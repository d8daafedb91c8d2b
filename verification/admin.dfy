/** The administration page: reachable only by an administrator, it shows
    the user count, the number of active and of pending ads, the five
    newest ads, and approve / delete buttons on each ad. */
module Admin {
  import opened Seqs
  import opened Types
  import opened NotificationContext
  import opened DataContext

  const RecentLimit := 5
  const ActiveLabel := "Активно"
  const ModerationLabel := "Модерация"
  const ArchiveLabel := "Архив"

  /** Only a signed-in administrator gets past the "access denied" view. */
  predicate CanAccess(user: Option<User>)
  {
    user.Some? && user.value.role == AdminRole
  }

  predicate IsActive(ad: Ad) { ad.status == Some(Active) }
  predicate IsPending(ad: Ad) { ad.status == Some(Pending) }

  function ActiveCount(ads: seq<Ad>): nat
  {
    |Filter(ads, IsActive)|
  }

  function PendingCount(ads: seq<Ad>): nat
  {
    |Filter(ads, IsPending)|
  }

  /** No ad is counted twice: the two counts together never exceed the
      number of ads. */
  lemma CountsBounded(ads: seq<Ad>)
    ensures ActiveCount(ads) + PendingCount(ads) <= |ads|
  {
    DisjointFiltersBounded(ads, IsActive, IsPending);
  }

  /** The newest ads, at most five: new ads are put first, so these are the
      most recently posted ones. */
  function RecentAds(ads: seq<Ad>): (r: seq<Ad>)
    ensures r <= ads
    ensures |r| == if |ads| < RecentLimit then |ads| else RecentLimit
  {
    Take(ads, RecentLimit)
  }

  /** A freshly posted ad heads the recent list. */
  lemma PostedAdIsRecent(ad: Ad, ads: seq<Ad>)
    ensures RecentAds([ad] + ads)[0] == ad
  {
  }

  /** Active and pending get their own labels; banned, archived and ads
      without a status are labelled as archived. */
  function AdminStatusLabel(status: Option<AdStatus>): (text: string)
    ensures text == ActiveLabel <==> status == Some(Active)
    ensures text == ModerationLabel <==> status == Some(Pending)
    ensures text == ArchiveLabel <==> status != Some(Active) && status != Some(Pending)
  {
    if status == Some(Active) then ActiveLabel
    else if status == Some(Pending) then ModerationLabel
    else ArchiveLabel
  }

  /** What the page shows. */
  datatype AdminView =
    | AccessDenied
    | Dashboard(userCount: nat, activeCount: nat, pendingCount: nat, recent: seq<Ad>)

  function View(user: Option<User>, users: seq<User>, ads: seq<Ad>): (v: AdminView)
    ensures v.AccessDenied? <==> !CanAccess(user)
    ensures v.Dashboard? ==> v.activeCount + v.pendingCount <= |ads| && |v.recent| <= RecentLimit
    ensures v.Dashboard? ==>
              v.userCount == |users| && v.activeCount == |Filter(ads, IsActive)| &&
              v.pendingCount == |Filter(ads, IsPending)| && v.recent == RecentAds(ads)
  {
    CountsBounded(ads);
    if CanAccess(user) then Dashboard(|users|, ActiveCount(ads), PendingCount(ads), RecentAds(ads))
    else AccessDenied
  }

  /** Approving one id can only move ads from pending to active: the active
      count does not fall and the pending count does not rise. */
  lemma {:induction false} ApproveCounts(ads: seq<Ad>, id: string)
    ensures ActiveCount(WithStatus(ads, id, Some(Active))) >= ActiveCount(ads)
    ensures PendingCount(WithStatus(ads, id, Some(Active))) <= PendingCount(ads)
    ensures (forall i :: 0 <= i < |ads| && ads[i].id == id ==> ads[i].status == Some(Pending)) ==>
              ActiveCount(WithStatus(ads, id, Some(Active))) + PendingCount(WithStatus(ads, id, Some(Active)))
              == ActiveCount(ads) + PendingCount(ads)
  {
    if ads != [] {
      var r := WithStatus(ads, id, Some(Active));
      assert r[1..] == WithStatus(ads[1..], id, Some(Active));
      ApproveCounts(ads[1..], id);
    }
  }

  /** The approve button: the ad becomes active. */
  method Approve(data: DataStore, id: string, now: nat)
    requires data.Valid()
    modifies data, data.notif
    ensures data.Valid()
    ensures data.ads == WithStatus(old(data.ads), id, Some(Active))
    ensures ActiveCount(data.ads) >= ActiveCount(old(data.ads))
    ensures data.notif.toasts ==
              old(data.notif.toasts) + [Toast(Stamp(now), StatusToast(Some(Active)), InfoToast)]
    ensures data.notif.expiring == old(data.notif.expiring) + [Stamp(now)]
    ensures data.users == old(data.users) && data.chats == old(data.chats)
    ensures data.messages == old(data.messages) && data.favorites == old(data.favorites)
    ensures data.pending == old(data.pending)
    ensures data.notif.notifications == old(data.notif.notifications)
  {
    ApproveCounts(data.ads, id);
    data.UpdateAdStatus(id, Some(Active), now);
  }

  /** The delete button. */
  method Delete(data: DataStore, id: string, now: nat)
    requires data.Valid()
    modifies data, data.notif
    ensures data.Valid()
    ensures data.ads == WithoutAd(old(data.ads), id)
    ensures data.notif.toasts == old(data.notif.toasts) + [Toast(Stamp(now), DeletedToast, ErrorToast)]
    ensures data.notif.expiring == old(data.notif.expiring) + [Stamp(now)]
    ensures data.users == old(data.users) && data.chats == old(data.chats)
    ensures data.messages == old(data.messages) && data.favorites == old(data.favorites)
    ensures data.pending == old(data.pending)
    ensures data.notif.notifications == old(data.notif.notifications)
  {
    data.DeleteAd(id, now);
  }
}
