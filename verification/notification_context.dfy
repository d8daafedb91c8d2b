/** The notification store: short-lived toasts, each removed by a timer
    after it is shown, and a newest-first list of notifications with a
    derived unread count. The removal timers are an explicit queue of the
    toast ids whose removal is still due; `FireRemoval` runs one of them. */
module NotificationContext {
  import opened Seqs
  import opened Types

  /** The time label of a freshly added notification ("just now"). */
  const JustNow := "Только что"

  /** The notifications present when the store is created; the first two
      are unread. */
  const InitialNotifications: seq<AppNotification> := [
    AppNotification("1", "Добро пожаловать!", "Спасибо за регистрацию на Mirnito.Ru", "1 ч. назад", false, SystemKind),
    AppNotification("2", "Снижение цены", "Цена на \"Детская коляска\" снизилась на 500₽", "2 ч. назад", false, PriceKind),
    AppNotification("3", "Модерация", "Ваше объявление \"Велосипед\" опубликовано", "Вчера", true, SuccessKind)
  ]

  predicate IsUnread(n: AppNotification) { !n.read }

  /** The number of unread notifications. */
  function CountUnread(ns: seq<AppNotification>): (c: nat)
    ensures c <= |ns|
  {
    |Filter(ns, IsUnread)|
  }

  /** The unread count is zero exactly when every notification is read. */
  lemma CountUnreadZero(ns: seq<AppNotification>)
    ensures CountUnread(ns) == 0 <==> forall i :: 0 <= i < |ns| ==> ns[i].read
  {
    FilterSpec(ns, IsUnread);
    if CountUnread(ns) == 0 {
      forall i | 0 <= i < |ns| ensures ns[i].read {
        assert ns[i] in ns;
      }
    }
  }

  /** Prepending an unread notification raises the unread count by one;
      prepending a read one leaves it. */
  lemma CountUnreadPrepend(n: AppNotification, ns: seq<AppNotification>)
    ensures CountUnread([n] + ns) == CountUnread(ns) + if n.read then 0 else 1
  {
    assert ([n] + ns)[1..] == ns;
  }

  /** Every notification with its read flag set. */
  function MarkedRead(ns: seq<AppNotification>): (r: seq<AppNotification>)
    ensures |r| == |ns|
    ensures forall i :: 0 <= i < |r| ==> r[i].read && r[i].(read := ns[i].read) == ns[i]
  {
    seq(|ns|, i requires 0 <= i < |ns| => ns[i].(read := true))
  }

  /** Marking all read twice is marking them once. */
  lemma MarkedReadIdempotent(ns: seq<AppNotification>)
    ensures MarkedRead(MarkedRead(ns)) == MarkedRead(ns)
  {
  }

  /** After marking all read the unread count is zero. */
  lemma MarkedReadNoUnread(ns: seq<AppNotification>)
    ensures CountUnread(MarkedRead(ns)) == 0
  {
    CountUnreadZero(MarkedRead(ns));
  }

  /** The toasts that survive the removal of `id`: every toast with that id
      goes, the rest keep their order. */
  function WithoutToast(ts: seq<Toast>, id: string): (r: seq<Toast>)
  {
    Filter(ts, (t: Toast) => t.id != id)
  }

  lemma WithoutToastSpec(ts: seq<Toast>, id: string)
    ensures forall t :: t in WithoutToast(ts, id) <==> t in ts && t.id != id
    ensures forall t: Toast :: t.id != id ==> multiset(WithoutToast(ts, id))[t] == multiset(ts)[t]
    ensures (forall i :: 0 <= i < |ts| ==> ts[i].id != id) ==> WithoutToast(ts, id) == ts
  {
    FilterSpec(ts, (t: Toast) => t.id != id);
  }

  lemma WithoutToastOrder(a: seq<Toast>, b: seq<Toast>, id: string)
    ensures WithoutToast(a + b, id) == WithoutToast(a, id) + WithoutToast(b, id)
  {
    FilterAppend(a, b, (t: Toast) => t.id != id);
  }

  class NotificationStore {
    var toasts: seq<Toast>
    var notifications: seq<AppNotification>
    /** Ids of the toasts whose removal timer has not fired yet, in the
        order the timers were set. */
    var expiring: seq<string>

    /** Every toast on screen still has a removal timer pending. */
    ghost predicate Valid()
      reads this
    {
      forall t :: t in toasts ==> t.id in expiring
    }

    /** No toast outlives its timers: once every pending removal has fired,
        the toast list is empty. */
    lemma NoToastWithoutTimer()
      requires Valid() && expiring == []
      ensures toasts == []
    {
      HeadIsMember(toasts);
    }

    constructor ()
      ensures Valid()
      ensures toasts == [] && expiring == []
      ensures notifications == InitialNotifications
      ensures UnreadCount() == 2
    {
      toasts := [];
      notifications := InitialNotifications;
      expiring := [];
      CountUnreadPrepend(InitialNotifications[0], InitialNotifications[1..]);
      CountUnreadPrepend(InitialNotifications[1], InitialNotifications[2..]);
      CountUnreadPrepend(InitialNotifications[2], []);
      assert InitialNotifications[2..] == [InitialNotifications[2]] + [];
    }

    /** The derived unread count, recomputed from the list each time: at
        most the number of notifications, and zero exactly when every one
        of them is read. */
    function UnreadCount(): (c: nat)
      reads this
      ensures c <= |notifications|
      ensures c == 0 <==> forall i :: 0 <= i < |notifications| ==> notifications[i].read
    {
      CountUnreadZero(notifications);
      CountUnread(notifications)
    }

    /** Appends one toast and sets the timer that will remove it. */
    method ShowToast(id: string, message: string, kind: ToastKind := SuccessToast)
      requires Valid()
      modifies this
      ensures Valid()
      ensures toasts == old(toasts) + [Toast(id, message, kind)]
      ensures expiring == old(expiring) + [id]
      ensures notifications == old(notifications)
    {
      toasts := toasts + [Toast(id, message, kind)];
      expiring := expiring + [id];
    }

    /** The `k`-th pending removal timer fires: every toast with its id is
        removed, whatever toast was shown under that id. */
    method FireRemoval(k: nat)
      requires Valid() && k < |expiring|
      modifies this
      ensures Valid()
      ensures toasts == WithoutToast(old(toasts), old(expiring[k]))
      ensures expiring == old(expiring[..k] + expiring[k + 1..])
      ensures notifications == old(notifications)
    {
      var id := expiring[k];
      WithoutToastSpec(toasts, id);
      var rest := expiring[..k] + expiring[k + 1..];
      forall t | t in WithoutToast(toasts, id) ensures t.id in rest {
        var j :| 0 <= j < |expiring| && expiring[j] == t.id;
        if j < k {
          assert rest[j] == t.id;
        } else {
          assert rest[j - 1] == t.id;
        }
      }
      toasts := WithoutToast(toasts, id);
      expiring := rest;
    }

    /** Prepends an unread notification labelled "just now". */
    method AddNotification(id: string, title: string, text: string, kind: NotificationKind)
      requires Valid()
      modifies this
      ensures Valid()
      ensures notifications == [AppNotification(id, title, text, JustNow, false, kind)] + old(notifications)
      ensures UnreadCount() == old(UnreadCount()) + 1
      ensures toasts == old(toasts) && expiring == old(expiring)
    {
      CountUnreadPrepend(AppNotification(id, title, text, JustNow, false, kind), notifications);
      notifications := [AppNotification(id, title, text, JustNow, false, kind)] + notifications;
    }

    /** Sets every read flag, keeping everything else. */
    method MarkAllRead()
      requires Valid()
      modifies this
      ensures Valid()
      ensures notifications == MarkedRead(old(notifications))
      ensures UnreadCount() == 0
      ensures toasts == old(toasts) && expiring == old(expiring)
    {
      MarkedReadNoUnread(notifications);
      notifications := MarkedRead(notifications);
    }
  }
}
