/** The catalog and messaging store: ads, users, chat threads, one message
    log per thread and the favourite set. Every action replaces one or more
    of these collections with a new value computed from the old one and may
    raise toasts and notifications in the notification store. The two
    delayed follow-ups (the moderation notice after posting an ad and the
    simulated reply after sending a message) are kept in an explicit queue
    of pending effects that `Fire` runs one at a time, in any order. */
module DataContext {
  import opened Seqs
  import opened Types
  import opened NotificationContext

  const PostedToast := "Объявление успешно опубликовано!"
  const DeletedToast := "Объявление удалено"
  const UnfavouredToast := "Удалено из избранного"
  const FavouredToast := "Добавлено в избранное"
  const ModerationTitle := "Модерация пройдена"
  const ChatStarted := "Начат диалог"
  const DefaultAdTitle := "Объявление"
  const Now := "Сейчас"
  const ReplyText := "Спасибо за сообщение! Я сейчас занят, отвечу чуть позже."
  const ReplyTitle := "Новое сообщение"
  const ReplyToast := "Получен ответ от продавца"

  const InitialUsers: seq<User> := [
    User("u1", "Алексей (Админ)", "admin@mirnito.ru", Some("https://i.pravatar.cc/150?u=admin"), Some("+7 999 000-00-00"), Some(true), AdminRole),
    User("u2", "Анна", "anna@mail.ru", Some("https://i.pravatar.cc/150?u=10"), Some("+7 999 111-22-33"), Some(true), UserRole),
    User("u3", "Игорь", "igor@mail.ru", Some("https://i.pravatar.cc/150?u=11"), Some("+7 999 444-55-66"), Some(false), UserRole)
  ]

  const InitialChats: seq<Chat> := [
    Chat("c1", "Анна", "https://i.pravatar.cc/150?u=10", "Коляска еще продается?", 0, "Детская коляска Yoya", "10:30"),
    Chat("c2", "Игорь", "https://i.pravatar.cc/150?u=11", "Да, лифт работает.", 2, "Остатки ламината", "Вчера")
  ]

  const InitialMessages: map<string, seq<Message>> := map[
    "c1" := [
      Message("m1", "Здравствуйте! Коляска еще в наличии?", Me, "10:00", true),
      Message("m2", "Добрый день! Да, еще не продала.", Other, "10:05", true)],
    "c2" := [
      Message("m3", "Лифт работает?", Me, "12:00", true),
      Message("m4", "Да, лифт работает.", Other, "12:05", false)]
  ]

  /** The text of the moderation notice for an ad titled `title`. */
  function ModerationText(title: string): (r: string)
    ensures Contains(r, title)
  {
    ContainsSpliced("Ваше объявление \"", title, "\" теперь видно всем соседям.");
    "Ваше объявление \"" + title + "\" теперь видно всем соседям."
  }

  /** The toast announcing a status change, naming the new status. */
  function StatusToast(status: Option<AdStatus>): string
  {
    "Статус объявления изменен на: " + StatusText(status)
  }

  // ---------------------------------------------------------------- ads

  /** The ad list with the status of every ad carrying the id replaced. */
  function WithStatus(ads: seq<Ad>, id: string, status: Option<AdStatus>): (r: seq<Ad>)
    ensures |r| == |ads|
    ensures forall i :: 0 <= i < |r| ==> r[i].(status := ads[i].status) == ads[i]
    ensures forall i :: 0 <= i < |r| && ads[i].id == id ==> r[i].status == status
    ensures forall i :: 0 <= i < |r| && ads[i].id != id ==> r[i] == ads[i]
    ensures (forall i :: 0 <= i < |ads| ==> ads[i].id != id) ==> r == ads
  {
    seq(|ads|, i requires 0 <= i < |ads| => if ads[i].id == id then ads[i].(status := status) else ads[i])
  }

  /** The ad list without the ads carrying the id. */
  function WithoutAd(ads: seq<Ad>, id: string): seq<Ad>
  {
    Filter(ads, (a: Ad) => a.id != id)
  }

  /** Deleting removes every ad with the id and keeps every other ad, as
      often as it occurred and in its order; an unknown id changes nothing. */
  lemma WithoutAdSpec(ads: seq<Ad>, more: seq<Ad>, id: string)
    ensures forall a :: a in WithoutAd(ads, id) <==> a in ads && a.id != id
    ensures forall a: Ad :: a.id != id ==> multiset(WithoutAd(ads, id))[a] == multiset(ads)[a]
    ensures WithoutAd(ads + more, id) == WithoutAd(ads, id) + WithoutAd(more, id)
    ensures (forall i :: 0 <= i < |ads| ==> ads[i].id != id) ==> WithoutAd(ads, id) == ads
  {
    FilterSpec(ads, (a: Ad) => a.id != id);
    FilterAppend(ads, more, (a: Ad) => a.id != id);
  }

  // ---------------------------------------------------------- favourites

  function Toggle(favorites: set<string>, id: string): (r: set<string>)
    ensures id in r <==> id !in favorites
    ensures forall x :: x != id ==> (x in r <==> x in favorites)
  {
    if id in favorites then favorites - {id} else favorites + {id}
  }

  /** Toggling twice restores the set. */
  lemma ToggleTwice(favorites: set<string>, id: string)
    ensures Toggle(Toggle(favorites, id), id) == favorites
  {
  }

  /** The set after toggling `id` `n` times in a row. */
  function ToggledTimes(favorites: set<string>, id: string, n: nat): set<string>
  {
    if n == 0 then favorites else Toggle(ToggledTimes(favorites, id, n - 1), id)
  }

  /** After `n` toggles, `id` has changed membership exactly when `n` is
      odd, and no other id has changed. */
  lemma {:induction false} ToggledTimesParity(favorites: set<string>, id: string, n: nat)
    ensures id in ToggledTimes(favorites, id, n) <==> (id in favorites) != (n % 2 == 1)
    ensures forall x :: x != id ==> (x in ToggledTimes(favorites, id, n) <==> x in favorites)
  {
    if n > 0 {
      ToggledTimesParity(favorites, id, n - 1);
    }
  }

  // --------------------------------------------------------------- chats

  /** Counterpart names are the de-duplication key of threads. */
  ghost predicate DistinctNames(chats: seq<Chat>)
  {
    forall i, j :: 0 <= i < j < |chats| ==> chats[i].userName != chats[j].userName
  }

  /** The position of the first thread with that counterpart name, or -1. */
  function ChatNamed(chats: seq<Chat>, name: string): (k: int)
    ensures -1 <= k < |chats|
    ensures k >= 0 ==> chats[k].userName == name
    ensures k >= 0 ==> forall j :: 0 <= j < k ==> chats[j].userName != name
    ensures k < 0 ==> forall i :: 0 <= i < |chats| ==> chats[i].userName != name
  {
    FindIndex(chats, (c: Chat) => c.userName == name)
  }

  /** The title of the first ad with the id; the generic title when there
      is no such ad or its title is empty. */
  function AdTitleFor(ads: seq<Ad>, adId: string): (t: string)
    ensures t != ""
    ensures forall i :: 0 <= i < |ads| && ads[i].id == adId && (forall j :: 0 <= j < i ==> ads[j].id != adId) ==>
              t == if ads[i].title != "" then ads[i].title else DefaultAdTitle
    ensures (forall i :: 0 <= i < |ads| ==> ads[i].id != adId) ==> t == DefaultAdTitle
  {
    var k := FindIndex(ads, (a: Ad) => a.id == adId);
    if k >= 0 && ads[k].title != "" then ads[k].title else DefaultAdTitle
  }

  function NewChat(id: string, sellerName: string, adTitle: string): Chat
  {
    Chat(id, sellerName, "https://ui-avatars.com/api/?name=" + sellerName + "&background=random",
         ChatStarted, 0, adTitle, Now)
  }

  /** A thread's log, empty when the id has no entry. */
  function LogOf(messages: map<string, seq<Message>>, chatId: string): seq<Message>
  {
    if chatId in messages then messages[chatId] else []
  }

  /** One message more at the end of that thread's log, which is created
      when missing; every other log is untouched. */
  function Appended(messages: map<string, seq<Message>>, chatId: string, m: Message)
    : (r: map<string, seq<Message>>)
    ensures r.Keys == messages.Keys + {chatId}
    ensures LogOf(r, chatId) == LogOf(messages, chatId) + [m]
    ensures forall k :: k != chatId ==> LogOf(r, k) == LogOf(messages, k)
  {
    messages[chatId := LogOf(messages, chatId) + [m]]
  }

  /** The thread preview after sending: only the thread with that id gets
      the new last message and the "now" time. */
  function WithPreview(chats: seq<Chat>, chatId: string, text: string): (r: seq<Chat>)
    ensures |r| == |chats|
    ensures forall i :: 0 <= i < |r| && chats[i].id == chatId ==>
              r[i] == chats[i].(lastMessage := text, time := Now)
    ensures forall i :: 0 <= i < |r| && chats[i].id != chatId ==> r[i] == chats[i]
  {
    seq(|chats|, i requires 0 <= i < |chats| =>
      if chats[i].id == chatId then chats[i].(lastMessage := text, time := Now) else chats[i])
  }

  /** The thread preview after the reply lands: that thread's unread count
      goes up by exactly one and its last message becomes the reply. */
  function WithReply(chats: seq<Chat>, chatId: string, text: string): (r: seq<Chat>)
    ensures |r| == |chats|
    ensures forall i :: 0 <= i < |r| && chats[i].id == chatId ==>
              r[i] == chats[i].(lastMessage := text, unreadCount := chats[i].unreadCount + 1)
    ensures forall i :: 0 <= i < |r| && chats[i].id != chatId ==> r[i] == chats[i]
  {
    seq(|chats|, i requires 0 <= i < |chats| =>
      if chats[i].id == chatId
      then chats[i].(lastMessage := text, unreadCount := chats[i].unreadCount + 1)
      else chats[i])
  }

  /** Neither preview update renames a thread, so the names stay distinct. */
  lemma PreviewsKeepNames(chats: seq<Chat>, chatId: string, text: string)
    requires DistinctNames(chats)
    ensures DistinctNames(WithPreview(chats, chatId, text))
    ensures DistinctNames(WithReply(chats, chatId, text))
  {
    var p, q := WithPreview(chats, chatId, text), WithReply(chats, chatId, text);
    assert forall i :: 0 <= i < |chats| ==> p[i].userName == chats[i].userName;
    assert forall i :: 0 <= i < |chats| ==> q[i].userName == chats[i].userName;
  }

  /** A send followed by its reply: the thread's log grows by exactly the
      sent message and then one counterpart message, and a thread with that
      id ends with one more unread message and the reply as its preview. */
  lemma SendThenReply(messages: map<string, seq<Message>>, chats: seq<Chat>, chatId: string,
                      text: string, sent: Message, reply: Message, i: nat)
    requires i < |chats| && chats[i].id == chatId
    ensures LogOf(Appended(Appended(messages, chatId, sent), chatId, reply), chatId)
            == LogOf(messages, chatId) + [sent, reply]
    ensures WithReply(WithPreview(chats, chatId, text), chatId, ReplyText)[i].unreadCount
            == chats[i].unreadCount + 1
    ensures WithReply(WithPreview(chats, chatId, text), chatId, ReplyText)[i].lastMessage == ReplyText
  {
    assert LogOf(messages, chatId) + [sent] + [reply] == LogOf(messages, chatId) + [sent, reply];
  }

  /** A follow-up still waiting for its timer. */
  datatype Effect =
    | Moderation(title: string)   // the "moderation passed" notice for a posted ad
    | Reply(chatId: string)       // the simulated counterpart reply in a thread

  class DataStore {
    var ads: seq<Ad>
    var users: seq<User>
    var chats: seq<Chat>
    var messages: map<string, seq<Message>>
    var favorites: set<string>
    /** The delayed follow-ups whose timers have not fired, in the order set. */
    var pending: seq<Effect>
    /** The notification store the actions report to. */
    const notif: NotificationStore

    ghost predicate Valid()
      reads this, notif
    {
      DistinctNames(chats) && notif.Valid()
    }

    /** The seeded store; the initial ads come from a data module that is
        not part of this model. */
    constructor (initialAds: seq<Ad>, notif: NotificationStore)
      requires notif.Valid()
      ensures Valid()
      ensures ads == initialAds && users == InitialUsers && chats == InitialChats
      ensures messages == InitialMessages && favorites == {} && pending == []
      ensures this.notif == notif
    {
      ads := initialAds;
      users := InitialUsers;
      chats := InitialChats;
      messages := InitialMessages;
      favorites := {};
      pending := [];
      this.notif := notif;
    }

    /** Puts the ad first, shows one success toast and queues the
        moderation notice for its title. */
    method AddAd(ad: Ad, now: nat)
      requires Valid()
      modifies this, notif
      ensures Valid()
      ensures ads == [ad] + old(ads)
      ensures notif.toasts == old(notif.toasts) + [Toast(Stamp(now), PostedToast, SuccessToast)]
      ensures pending == old(pending) + [Moderation(ad.title)]
      ensures notif.expiring == old(notif.expiring) + [Stamp(now)]
      ensures notif.notifications == old(notif.notifications)
      ensures users == old(users) && chats == old(chats) && messages == old(messages)
      ensures favorites == old(favorites)
    {
      ads := [ad] + ads;
      notif.ShowToast(Stamp(now), PostedToast);
      pending := pending + [Moderation(ad.title)];
    }

    /** Changes the status of every ad with the id, and nothing else, and
        shows an info toast naming the status. */
    method UpdateAdStatus(id: string, status: Option<AdStatus>, now: nat)
      requires Valid()
      modifies this, notif
      ensures Valid()
      ensures ads == WithStatus(old(ads), id, status)
      ensures notif.toasts == old(notif.toasts) + [Toast(Stamp(now), StatusToast(status), InfoToast)]
      ensures notif.expiring == old(notif.expiring) + [Stamp(now)]
      ensures notif.notifications == old(notif.notifications)
      ensures users == old(users) && chats == old(chats) && messages == old(messages)
      ensures favorites == old(favorites) && pending == old(pending)
    {
      ads := WithStatus(ads, id, status);
      notif.ShowToast(Stamp(now), StatusToast(status), InfoToast);
    }

    /** Removes every ad with the id and always shows an error-styled toast,
        whether or not an ad was removed. */
    method DeleteAd(id: string, now: nat)
      requires Valid()
      modifies this, notif
      ensures Valid()
      ensures ads == WithoutAd(old(ads), id)
      ensures notif.toasts == old(notif.toasts) + [Toast(Stamp(now), DeletedToast, ErrorToast)]
      ensures notif.expiring == old(notif.expiring) + [Stamp(now)]
      ensures notif.notifications == old(notif.notifications)
      ensures users == old(users) && chats == old(chats) && messages == old(messages)
      ensures favorites == old(favorites) && pending == old(pending)
    {
      ads := WithoutAd(ads, id);
      notif.ShowToast(Stamp(now), DeletedToast, ErrorToast);
    }

    /** Flips membership of the id; an info toast on removal, the default
        success toast on addition. */
    method ToggleFavorite(id: string, now: nat)
      requires Valid()
      modifies this, notif
      ensures Valid()
      ensures favorites == Toggle(old(favorites), id)
      ensures id in old(favorites) ==>
                notif.toasts == old(notif.toasts) + [Toast(Stamp(now), UnfavouredToast, InfoToast)]
      ensures id !in old(favorites) ==>
                notif.toasts == old(notif.toasts) + [Toast(Stamp(now), FavouredToast, SuccessToast)]
      ensures notif.expiring == old(notif.expiring) + [Stamp(now)]
      ensures notif.notifications == old(notif.notifications)
      ensures ads == old(ads) && users == old(users) && chats == old(chats)
      ensures messages == old(messages) && pending == old(pending)
    {
      if id in favorites {
        favorites := favorites - {id};
        notif.ShowToast(Stamp(now), UnfavouredToast, InfoToast);
      } else {
        favorites := favorites + {id};
        notif.ShowToast(Stamp(now), FavouredToast);
      }
    }

    /** Appends the user; no check that its email is new. */
    method RegisterUser(u: User)
      requires Valid()
      modifies this
      ensures Valid()
      ensures users == old(users) + [u]
      ensures ads == old(ads) && chats == old(chats) && messages == old(messages)
      ensures favorites == old(favorites) && pending == old(pending)
    {
      users := users + [u];
    }

    method GetAllUsers() returns (r: seq<User>)
      ensures r == users
    {
      r := users;
    }

    /** Returns the thread with that counterpart name when there is one,
        changing nothing; otherwise puts a fresh thread first, with an empty
        log under its id. Either way a thread with that name and the
        returned id exists afterwards, and names stay distinct. */
    method CreateChat(adId: string, sellerName: string, now: nat) returns (chatId: string)
      requires Valid()
      modifies this
      ensures Valid()
      ensures exists i :: 0 <= i < |chats| && chats[i].userName == sellerName && chats[i].id == chatId
      ensures ChatNamed(old(chats), sellerName) >= 0 ==>
                chatId == old(chats)[ChatNamed(old(chats), sellerName)].id &&
                chats == old(chats) && messages == old(messages)
      ensures ChatNamed(old(chats), sellerName) < 0 ==>
                chatId == Stamp(now) &&
                chats == [NewChat(chatId, sellerName, AdTitleFor(ads, adId))] + old(chats) &&
                messages == old(messages)[chatId := []]
      ensures ads == old(ads) && users == old(users)
      ensures favorites == old(favorites) && pending == old(pending)
    {
      var k := ChatNamed(chats, sellerName);
      if k >= 0 {
        chatId := chats[k].id;
        return;
      }
      chatId := Stamp(now);
      var thread := NewChat(chatId, sellerName, AdTitleFor(ads, adId));
      chats := [thread] + chats;
      messages := messages[chatId := []];
      assert chats[0].userName == sellerName && chats[0].id == chatId;
    }

    /** Appends one own, unread message to the thread's log (creating the
        log if the id has none), updates that thread's preview and queues
        the simulated reply. */
    method SendMessage(chatId: string, text: string, now: nat, clock: string)
      requires Valid()
      modifies this
      ensures Valid()
      ensures messages == Appended(old(messages), chatId, Message(Stamp(now), text, Me, clock, false))
      ensures chats == WithPreview(old(chats), chatId, text)
      ensures pending == old(pending) + [Reply(chatId)]
      ensures ads == old(ads) && users == old(users) && favorites == old(favorites)
    {
      messages := Appended(messages, chatId, Message(Stamp(now), text, Me, clock, false));
      PreviewsKeepNames(chats, chatId, text);
      chats := WithPreview(chats, chatId, text);
      pending := pending + [Reply(chatId)];
    }

    /** The timer of the `k`-th pending follow-up fires. The moderation
        notice is raised whether or not its ad still exists; the reply lands
        in its thread's log whether or not the thread still exists. */
    method Fire(k: nat, now: nat, clock: string)
      requires Valid() && k < |pending|
      modifies this, notif
      ensures Valid()
      ensures pending == old(pending[..k] + pending[k + 1..])
      ensures ads == old(ads) && users == old(users) && favorites == old(favorites)
      ensures old(pending[k]).Moderation? ==>
                chats == old(chats) && messages == old(messages) &&
                notif.notifications ==
                  [AppNotification(Stamp(now), ModerationTitle, ModerationText(old(pending[k]).title),
                                   JustNow, false, SuccessKind)] + old(notif.notifications) &&
                notif.toasts == old(notif.toasts) && notif.expiring == old(notif.expiring)
      ensures old(pending[k]).Reply? ==>
                var id := old(pending[k]).chatId;
                messages == Appended(old(messages), id, Message(Stamp(now + 1), ReplyText, Other, clock, true)) &&
                chats == WithReply(old(chats), id, ReplyText) &&
                notif.notifications ==
                  [AppNotification(Stamp(now), ReplyTitle, "Вам ответили в чате #" + id,
                                   JustNow, false, MessageKind)] + old(notif.notifications) &&
                notif.toasts == old(notif.toasts) + [Toast(Stamp(now), ReplyToast, InfoToast)] &&
                notif.expiring == old(notif.expiring) + [Stamp(now)]
      ensures notif.UnreadCount() == old(notif.UnreadCount()) + 1
    {
      var effect := pending[k];
      pending := pending[..k] + pending[k + 1..];
      match effect {
        case Moderation(title) =>
          notif.AddNotification(Stamp(now), ModerationTitle, ModerationText(title), SuccessKind);
        case Reply(id) =>
          messages := Appended(messages, id, Message(Stamp(now + 1), ReplyText, Other, clock, true));
          PreviewsKeepNames(chats, id, ReplyText);
          chats := WithReply(chats, id, ReplyText);
          notif.AddNotification(Stamp(now), ReplyTitle, "Вам ответили в чате #" + id, MessageKind);
          notif.ShowToast(Stamp(now), ReplyToast, InfoToast);
      }
    }
  }
}
