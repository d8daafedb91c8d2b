# Mirnito classifieds front-end, modelled in Dafny

Mirnito is a single-page classifieds site for one residential district. It
has no server: three in-memory stores hold all state, and pages are chosen
by the location fragment. This project models:

- **The catalog and messaging store** (`DataContext`). It holds the ads,
  users, chat threads, one message log per thread and the favourite set.
  Its actions (post, change status, delete, toggle favourite, register,
  open a thread, send a message) update these collections and report
  through toasts and notifications.
- **The two delayed follow-ups.** These are the moderation notice after
  posting and the simulated seller reply after a message. They wait in an
  explicit queue of pending effects, and `DataStore.Fire` runs any one of
  them.
- **The notification store** (`NotificationContext`). It holds toasts, each
  with its own removal timer; the timers are a queue of ids that
  `FireRemoval` drains. It also holds the newest-first notification list,
  whose unread count is derived.
- **The identity store** (`AuthContext`). It holds the current user and the
  sign-in dialog flag, and keeps the session in local storage so that a
  restart restores it.
- **The router** (`App`). The fragment selects the page. The selected ad
  and seller are carried across navigations. Rendering falls back to the
  browse page when a selection is missing, and the admin page is drawn
  without the common frame.
- **The pages built on the stores:**
  - the browse filter and sort pipeline (`Browse`);
  - the home page sections and banner carousel (`Home`);
  - the posting form (`PostAd`);
  - the sign-in / registration dialog (`AuthModal`);
  - the messages page (`ChatPage`);
  - the similar-ads strip and "write to seller" button (`AdDetails`);
  - the personal page (`Profile`);
  - the administration page (`Admin`);
  - the bell and profile button of the frame (`Layout`).

Stateful parts are classes whose methods state what each action changes and which of the other collections it keeps:

- `DataStore`, `NotificationStore`, `AuthStore`, `Router`, `PostAdForm`,
  `AuthForm`, `ChatView`, `Header`, `Carousel`.

Computations are functions, with lemmas stating what they mean:

- filtering;
- the stable insertion sort the browser's array sort stands for;
- the section split of the home page;
- counts, labels and lookups.

A few inputs are parameters of the model:

- **The clock** is a parameter `now`. Ids are its decimal digits (`Seqs.Stamp`). The reply message's id is the clock reading taken when the reply fires, plus one (`now + 1`).
- **The clock label** on a message is a parameter `clock`.
- **Lower-casing**, which depends on the locale, is a function parameter `fold`.
- **The price** is passed in as the already-parsed integer of the price field.
- **The generated description** is passed in as the text the generator returned.

Some behaviours follow from the code and are stated as lemmas or contracts:

- **Promoted ads without a VIP ad.** A promoted ad is not shown on the home page at all when no VIP ad is visible (`Home.PromotedHiddenWithoutVip`).
- **Archived ads as similar ads.** The similar-ads strip ignores the status, so it can show archived ads.
- **Profile labels.** The profile labels every non-active ad as archived, pending ones included (`Profile.StatusLabel`).
- **Duplicate registration.** Registration never checks that the address is new.
- **The posting form's empty-field alert.** The title, category and price fields are marked required, so the browser blocks an incomplete form before the handler runs, even for a visitor who is not signed in. The handler's own alert for empty fields is therefore never reached from the form (`PostAd.PostAdForm.Submit`); the handler as written is `PostAd.PostAdForm.HandleSubmit`.
- **Starting a chat with a known seller.** The button ignores the thread id it gets back, and the messages page opens on the first thread of the list. A seller whose thread is not first is therefore not shown it (`ChatPage.OpenSellerThread`).
- **Sending to an unknown thread id** creates a log under that id. The thread list is left as it is: the code does this, so the model follows the code rather than discarding such a message.

## Model

| member | source | states |
|---|---|---|
| Types.ParsePage | types.ts:61-76 | A token parses to a page only if it is that page's token; no page has an unparseable token |
| Types.TokenRoundTrip | types.ts:61-76 | Every one of the fourteen pages is recovered from its token (tokens are pairwise distinct) |
| Types.TokensDistinct | types.ts:61-76 | Two pages with the same token are the same page |
| Seqs.FilterSpec | pages/Browse.tsx:21 | Filtering keeps exactly the elements satisfying the predicate, each with its multiplicity |
| Seqs.FilterAppend | context/DataContext.tsx:82 | Filtering distributes over concatenation, so kept elements keep their relative order |
| Seqs.DisjointFiltersBounded | pages/Admin.tsx:75 | Two filters with never-jointly-true predicates have sizes summing to at most the source size |
| Seqs.FindIndex | context/DataContext.tsx:109 | The first index satisfying the predicate, with no earlier one satisfying it, or -1 when none does |
| Seqs.Find | context/DataContext.tsx:113 | Nothing exactly when no element satisfies the predicate; otherwise the first element that satisfies it |
| Seqs.Take | pages/Admin.tsx:144 | The result is a prefix of the input of length min(n, length) |
| Seqs.ContainsSpliced | context/DataContext.tsx:70 | A string occurs in any string it is spliced into |
| Seqs.Stamp | context/DataContext.tsx:112 | A clock-derived id is a non-empty string of decimal digits |
| NotificationContext.CountUnreadZero | context/NotificationContext.tsx:50 | The unread count is zero exactly when every notification is read |
| NotificationContext.CountUnreadPrepend | context/NotificationContext.tsx:43 | Prepending an unread notification raises the unread count by one, a read one leaves it |
| NotificationContext.MarkedRead | context/NotificationContext.tsx:47 | Marking all read keeps length, order and every other field, and sets every read flag |
| NotificationContext.MarkedReadIdempotent | context/NotificationContext.tsx:46-48 | Marking all read twice equals marking once |
| NotificationContext.MarkedReadNoUnread | context/NotificationContext.tsx:46-50 | After marking all read the unread count is zero |
| NotificationContext.WithoutToastSpec | context/NotificationContext.tsx:31-33 | A fired removal drops every toast with that id, keeps every other toast with its multiplicity, and changes nothing for an unknown id |
| NotificationContext.WithoutToastOrder | context/NotificationContext.tsx:32 | Removal keeps the surviving toasts in their order |
| NotificationContext.NotificationStore.NoToastWithoutTimer | context/NotificationContext.tsx:26-34 | Every toast has a pending removal, so once all removals have fired no toast is left |
| NotificationContext.NotificationStore.constructor | context/NotificationContext.tsx:16-24 | Starts with no toasts and the three seeded notifications, exactly two unread |
| NotificationContext.NotificationStore.ShowToast | context/NotificationContext.tsx:26-34 | Appends one toast (success by default) at the end and schedules its removal |
| NotificationContext.NotificationStore.FireRemoval | context/NotificationContext.tsx:31-33 | Any pending removal fires: the toasts become the old list without that id; the every-toast-has-a-timer invariant holds |
| NotificationContext.NotificationStore.UnreadCount | context/NotificationContext.tsx:50 | At most the number of notifications, and zero exactly when all are read |
| NotificationContext.NotificationStore.AddNotification | context/NotificationContext.tsx:36-44 | Prepends one unread notification labelled "just now"; the unread count rises by exactly one |
| NotificationContext.NotificationStore.MarkAllRead | context/NotificationContext.tsx:46-48 | The list becomes the marked-read list and the unread count is zero |
| AuthContext.AuthStore.constructor | context/AuthContext.tsx:17-26 | On mount the user is restored from the storage key when present, else none; the dialog starts closed |
| AuthContext.AuthStore.Login | context/AuthContext.tsx:28-32 | Sets the user, writes it under "mirnito_user" (other keys untouched), closes the dialog |
| AuthContext.AuthStore.Logout | context/AuthContext.tsx:34-37 | Clears the user and removes the key; the dialog flag is unchanged |
| AuthContext.AuthStore.OpenAuthModal | context/AuthContext.tsx:39 | Sets the dialog flag, leaving user and storage |
| AuthContext.AuthStore.CloseAuthModal | context/AuthContext.tsx:40 | Clears the dialog flag, leaving user and storage |
| AuthContext.RestoreAfterLogin | context/AuthContext.tsx:21-32 | A restart after signing in restores exactly the signed-in user |
| AuthContext.RestoreAfterLogout | context/AuthContext.tsx:21-37 | A restart after signing out restores nobody |
| DataContext.ModerationText | context/DataContext.tsx:70 | The moderation notice text contains the ad's title |
| DataContext.WithStatus | context/DataContext.tsx:77 | Same length and order; only the status of ads with the id changes; an unknown id changes nothing |
| DataContext.WithoutAdSpec | context/DataContext.tsx:82 | Deleting removes every ad with the id, keeps all others with their multiplicity and order, and is a no-op on an unknown id |
| DataContext.Toggle | context/DataContext.tsx:86-97 | Flips membership of exactly that id and of no other |
| DataContext.ToggleTwice | context/DataContext.tsx:86-97 | Two toggles restore the set |
| DataContext.ToggledTimesParity | context/DataContext.tsx:86-97 | After n toggles the id has changed membership exactly when n is odd; no other id changes |
| DataContext.ChatNamed | context/DataContext.tsx:109 | The position of the first thread with that counterpart name (no earlier thread has it), or -1 when none has it |
| DataContext.AdTitleFor | context/DataContext.tsx:113-121 | The first ad with the id gives its title, or the generic title when that title is empty; with no such ad, the generic title; never empty |
| DataContext.Appended | context/DataContext.tsx:140-143 | The thread's log (created if missing) gains the message at its end; every other log is untouched |
| DataContext.WithPreview | context/DataContext.tsx:146 | Only the thread with the id gets the new last message and the "now" time |
| DataContext.WithReply | context/DataContext.tsx:163 | Only the thread with the id gets the reply as last message and one more unread |
| DataContext.PreviewsKeepNames | context/DataContext.tsx:146-163 | Preview updates never rename threads, so counterpart names stay distinct |
| DataContext.SendThenReply | context/DataContext.tsx:131-172 | A send and its reply grow the log by exactly the sent and the reply message; unread rises by one and the preview is the reply |
| DataContext.DataStore.constructor | context/DataContext.tsx:31-58 | The seeded users, threads and logs, no favourites and nothing pending |
| DataContext.DataStore.AddAd | context/DataContext.tsx:63-74 | The new ad is first and the old list its unchanged tail; one success toast and exactly one toast-removal timer is scheduled, for that toast; one moderation notice queued |
| DataContext.DataStore.UpdateAdStatus | context/DataContext.tsx:76-79 | The list becomes the status-mapped list and one info toast names the status and exactly one toast-removal timer is scheduled, for that toast |
| DataContext.DataStore.DeleteAd | context/DataContext.tsx:81-84 | The list loses every ad with the id and an error-styled toast is always shown and exactly one toast-removal timer is scheduled, for that toast |
| DataContext.DataStore.ToggleFavorite | context/DataContext.tsx:86-98 | Toggles the id; info toast on removal, default success toast on addition; exactly one toast-removal timer is scheduled, for that toast |
| DataContext.DataStore.RegisterUser | context/DataContext.tsx:101-103 | Appends the user, with no check on the address |
| DataContext.DataStore.GetAllUsers | context/DataContext.tsx:105 | Returns the current user list |
| DataContext.DataStore.CreateChat | context/DataContext.tsx:108-129 | An existing thread with that name is returned and nothing changes; otherwise a new thread is put first with an empty log; names stay distinct |
| DataContext.DataStore.SendMessage | context/DataContext.tsx:131-147 | Appends one own unread message with the given text to that log, updates only that preview, queues the reply |
| DataContext.DataStore.Fire | context/DataContext.tsx:149-172 | Any queued follow-up runs (the reply timer here, or the moderation timer set at line 67): the moderation notice is raised even if its ad is gone, with no toast and no new timer; or the reply lands in the log with one more unread, a message notification and an info toast with exactly one new removal timer; unread notifications rise by one |
| App.PageFor | App.tsx:24-27 | An empty fragment selects the home token; any other fragment is the page itself |
| App.SelectedAd | App.tsx:77 | The first ad with the selected id (no earlier ad has that id); nothing when no ad has it or nothing is selected |
| App.Render | App.tsx:52-90 | Admin token drawn without the frame; unknown tokens give home; a missing seller or ad falls back to browse |
| App.RenderKnownPage | App.tsx:58-72 | Every known token that needs no selection is drawn in the frame, independently of selections and ads; only the browse token gives the browse page, and two such tokens give the same page only if they are equal |
| App.AdClickShowsDetails | App.tsx:41-44 | After clicking an ad that is in the store, the details page shows an ad with that id |
| App.DeletedSelectionFallsBack | App.tsx:76-78 | When the selected ad is gone, the details token shows the browse page |
| App.Router.constructor | App.tsx:18-32 | Mounting reads the fragment once with nothing selected |
| App.Router.HashChanged | App.tsx:25-27 | The current page follows the new fragment; selections are kept |
| App.Router.Navigate | App.tsx:37-39 | Navigating makes the token the fragment and the current page |
| App.Router.HandleAdClick | App.tsx:41-44 | Selects the ad id, then the current page is the details token |
| App.Router.HandleSellerClick | App.tsx:46-49 | Selects the seller, then the current page is the seller token |
| Browse.ActiveAdsSpec | pages/Browse.tsx:21 | Archived and banned ads never appear; pending ads and ads without a status do |
| Browse.Insert | pages/Browse.tsx:32-41 | Insertion adds exactly one element to the multiset |
| Browse.InsertSorted | pages/Browse.tsx:32-41 | Insertion into a sorted list keeps it sorted by the comparator |
| Browse.SortAds | pages/Browse.tsx:32 | The sorted list is a permutation of the filtered list |
| Browse.SortAdsSorted | pages/Browse.tsx:32-41 | The sorted list is ordered by the comparator |
| Browse.Results | pages/Browse.tsx:21-41 | The listed ads are the filtered ads, with their multiplicities, ordered by the chosen comparator |
| Browse.ResultsSpec | pages/Browse.tsx:21-32 | The listed ads are exactly the visible ads matching search, street and category, each with its multiplicity |
| Browse.ResultsPriceOrder | pages/Browse.tsx:33-38 | Ascending sort gives non-decreasing prices, descending non-increasing |
| Browse.NewestKeepsOrder | pages/Browse.tsx:39-40 | With the zero comparator the stable sort keeps store order |
| Browse.DefaultsListAllVisible | pages/Browse.tsx:14-29 | With the default filters every visible ad is listed, in store order |
| Browse.Reset | pages/Browse.tsx:290-294 | Resetting restores search, street and category defaults and keeps the sort |
| Home.FreshAds | pages/Home.tsx:27 | The fresh grid is a prefix of the fresh pool with at most eight ads |
| Home.SectionsPartition | pages/Home.tsx:23-27 | VIP, promoted and fresh pool are pairwise disjoint and their multiset union is the visible list |
| Home.VipRow | pages/Home.tsx:172-193 | Only visible VIP or promoted ads, VIP ones before the others; with a VIP ad all visible VIP and promoted ads are in it, without one it is empty |
| Home.PromotedHiddenWithoutVip | pages/Home.tsx:172-193 | Without a visible VIP ad, a promoted ad appears neither in the row nor in the fresh grid |
| Home.NextBanner | pages/Home.tsx:32 | The next banner index stays in [0, 3), is one more below the last banner, and wraps from the last banner to the first |
| Home.BannerCycle | pages/Home.tsx:32 | Three ticks return to the same banner and one tick always changes it |
| Home.Carousel.constructor | pages/Home.tsx:19 | The carousel starts on the first banner |
| Home.Carousel.Tick | pages/Home.tsx:30-35 | A timer tick advances the index cyclically and keeps it in range |
| Home.Carousel.Select | pages/Home.tsx:126-131 | Clicking a dot shows that banner |
| PostAd.RemovedAtSpec | pages/PostAd.tsx:43-45 | Removing drops exactly the picture at the index and keeps the rest in order |
| PostAd.BuiltAdShape | pages/PostAd.tsx:60-75 | A posted ad is active, in roubles, owned by the user, with default description and placeholder picture; VIP implies promoted |
| PostAd.PostedAdIsShown | pages/PostAd.tsx:73-77 | A posted ad is visible at once and heads its home section for its plan |
| PostAd.PostAdForm.constructor | pages/PostAd.tsx:16-22 | The form starts with empty fields, no pictures and the free plan |
| PostAd.PostAdForm.AddImages | pages/PostAd.tsx:36-41 | New pictures are appended after the existing ones |
| PostAd.PostAdForm.RemoveImage | pages/PostAd.tsx:43-45 | The picture list becomes the list without that index |
| PostAd.PostAdForm.ApplyGenerated | pages/PostAd.tsx:24-34 | The description is replaced only when title and category are both set |
| PostAd.PostAdForm.HandleSubmit | pages/PostAd.tsx:47-79 | No user: dialog opens, no ad, no navigation, no toast. Missing title, price or category: no ad, no navigation, no toast. Otherwise the built ad is added first, the success toast and its one removal timer are added and the home page opens; the signed-in user is never changed |
| PostAd.PostAdForm.Submit | pages/PostAd.tsx:87-125 | With the title, category or price empty the browser blocks the submit, so nothing changes even when nobody is signed in; otherwise the handler runs, and its own empty-field refusal is never the outcome |
| AuthModal.FindUserByEmail | components/AuthModal.tsx:27 | The first user whose address equals the typed one up to case, or nothing when none does |
| AuthModal.SeededAdminSignsIn | components/AuthModal.tsx:33 | The address the error message suggests finds the seeded administrator |
| AuthModal.RegisteredUserCanSignIn | components/AuthModal.tsx:27-45 | A registered address is found afterwards, and is the new account unless an older one has it |
| AuthModal.NewUserShape | components/AuthModal.tsx:37-44 | A new account is an unverified ordinary user with the typed address and a non-empty name |
| AuthModal.AuthForm.constructor | components/AuthModal.tsx:9-14 | Starts in sign-in mode with empty fields and nothing pending |
| AuthModal.AuthForm.ToggleMode | components/AuthModal.tsx:136 | Switches between signing in and registering |
| AuthModal.AuthForm.CloseModal | components/AuthModal.tsx:53-59 | Closes the dialog and clears address, password, name and error |
| AuthModal.AuthForm.Submit | components/AuthModal.tsx:16-22 | Only an open, idle dialog with the required fields accepts; it then clears the error and records the submission |
| AuthModal.AuthForm.Complete | components/AuthModal.tsx:23-50 | Sign-in: a match is signed in and the dialog closes, else the error is set and nobody new signs in. Registration: one more user, signed in, dialog closed. Ads, threads, logs, favourites and the follow-up queue stay |
| ChatPage.TrimStart | pages/Chat.tsx:18 | Leading white space is cut and only white space is cut |
| ChatPage.TrimEnd | pages/Chat.tsx:18 | Trailing white space is cut and only white space is cut |
| ChatPage.Trim | pages/Chat.tsx:18 | The trimmed text is the piece of the input after its leading white space, everything after it is white space, and it neither starts nor ends with white space |
| ChatPage.TrimEmptyIff | pages/Chat.tsx:18 | Trimming gives the empty string exactly for white-space-only text |
| ChatPage.ChatView.constructor | pages/Chat.tsx:10-11 | Opening the page selects the first thread if there is one, else nothing |
| ChatPage.ChatView.Select | pages/Chat.tsx:49 | Selecting a thread (or none) keeps the typed text |
| ChatPage.ChatView.Type | pages/Chat.tsx:11 | Typing replaces the text and keeps the selection |
| ChatPage.ChatView.ActiveChat | pages/Chat.tsx:13 | The first thread with the selected id (no earlier thread has that id), nothing when none has it |
| ChatPage.ChatView.ActiveMessages | pages/Chat.tsx:14 | The selected thread's log; empty when nothing is selected or the id has no log |
| ChatPage.ChatView.HandleSend | pages/Chat.tsx:16-22 | Sends exactly when the trimmed text is non-empty and a thread is selected; the untrimmed text is appended to that log and the box cleared |
| ChatPage.OpenSellerThread | pages/AdDetails.tsx:34-37 | After the button the messages page shows the first thread of the list: a new seller's fresh thread with an empty log, a seller whose thread is first that thread, and for a seller whose thread is further down a thread of someone else |
| AdDetails.SimilarAds | pages/AdDetails.tsx:18-20 | A prefix of the similar ads in store order, of length exactly min(3, number of similar ads) |
| AdDetails.SimilarAdsSpec | pages/AdDetails.tsx:18-20 | Every similar ad has the same category and another id, so the shown ad is never among them; if at most three qualify, all are shown |
| AdDetails.StartChat | pages/AdDetails.tsx:34-37 | Finds the author's thread (changing no thread or log) or puts a new one first with id from the clock and an empty log; then the current page is the messages page; ads, users, favourites and the queue stay |
| AdDetails.NewThreadNamesAd | context/DataContext.tsx:113-121 | A thread opened from a displayed ad with a title carries that title and no unread messages |
| Profile.ListsSpec | pages/Profile.tsx:27-28 | My ads are exactly the stored ads owned by the user; favourites exactly the stored ads with a favourite id |
| Profile.View | pages/Profile.tsx:17-28 | With no user no list is produced; a signed-in user gets the own-ads list and the favourites list |
| Profile.StatusLabel | pages/Profile.tsx:102-106 | "Активно" exactly for active ads, "Архив" for every other status |
| Profile.DeleteOwnAd | pages/Profile.tsx:121 | Deleting one's ad removes it from the store and shows the delete toast with one removal timer; users, threads, logs, favourites, the queue and the notifications stay |
| Profile.DeletedLeavesMyAds | pages/Profile.tsx:27 | After a delete no ad with that id is among the user's ads and all others remain |
| Profile.PostedAdFirstInMyAds | pages/Profile.tsx:27 | A just-posted ad heads the user's ads and is labelled active |
| Admin.CountsBounded | pages/Admin.tsx:75-92 | Active and pending counts together never exceed the number of ads |
| Admin.RecentAds | pages/Admin.tsx:144 | The recent table is a prefix of the ads of length at most five |
| Admin.PostedAdIsRecent | pages/Admin.tsx:144 | A freshly posted ad heads the recent table |
| Admin.AdminStatusLabel | pages/Admin.tsx:152-155 | Active and pending get their own labels; every other status is labelled archived |
| Admin.View | pages/Admin.tsx:32-144 | Access is denied exactly to non-administrators; the dashboard shows the number of users, the numbers of active and of pending ads and the five newest ads, and the two counts together never exceed the number of ads |
| Admin.ApproveCounts | pages/Admin.tsx:283 | Approving never lowers the active count nor raises the pending count, and moves pending ads one for one |
| Admin.Approve | pages/Admin.tsx:283 | Approve makes the ads with the id active and shows the status toast with one removal timer; users, threads, logs, favourites, the queue and the notifications stay |
| Admin.Delete | pages/Admin.tsx:290 | Delete removes the ads with the id and shows the delete toast with one removal timer; users, threads, logs, favourites, the queue and the notifications stay |
| Layout.AdminLinkMatchesGate | components/Layout.tsx:98 | The administrator link is shown exactly to those the admin page lets in |
| Layout.Header.constructor | components/Layout.tsx:16 | The dropdown starts closed |
| Layout.Header.HandleNotifClick | components/Layout.tsx:40-45 | Flips the dropdown; opening with unread notifications marks all read, otherwise they are untouched |
| Layout.Header.ClickOutside | components/Layout.tsx:22-30 | A press outside the dropdown closes it; one inside keeps it |
| Layout.HandleProfileClick | components/Layout.tsx:32-38 | Signed in: the profile page opens. Otherwise the sign-in dialog opens and the page stays. The signed-in user, the stored session and the selections never change |

## Left out

- The description generator (a call to an external AI service) is not part of this model. Its answer enters `PostAdForm.ApplyGenerated` as a parameter, and the "generating" spinner is not modelled.
- The static pages carry no logic and are not modelled.
- The seller page is not part of this model. It filters a mock ad list that is not available here. Its route and the fallback to browse are modelled in `App.Render`.
- The mock ad data module is not part of this model. `DataStore`'s constructor takes the initial ads as a parameter.
- Drawing (markup, styles, icons) is not modelled, nor are display-only counters and figures.
- The display-only fields of an ad (rating, review count, seller badges, the good-price and delivery marks) are left out of `Types.Ad`, because no modelled operation reads or writes them.
- DataContext.DataStore.Fire: the timers' delays (2 s, 3 s) are not modelled. Any pending follow-up may fire next, which admits every order the real delays allow and more.
- NotificationContext.NotificationStore.FireRemoval: likewise, any pending toast removal may fire next.
- AuthModal.AuthForm.Complete: the one pending submission completes when called. The one-second delay is not modelled.
- The clock is not modelled: each action takes one clock reading `now`, and the time-of-day label is a parameter. Two actions in the same millisecond get the same id; the model allows this, and removal by id removes every toast with that id.
- The browser's JSON encoding and decoding of the stored user are taken as exact. A corrupt stored value, which the code does not guard against, is not modelled.
- PostAd.PostAdForm.Submit: the price is passed in as an integer. A field that does not parse to a number (giving NaN) is not modelled.
- Browse.Matches and AuthModal.FindUserByEmail: the locale-aware lower-casing is an arbitrary function `fold`. Nothing about case mapping is proved.
- AuthModal.AuthForm.Submit: the browser's check that the address is well-formed is not modelled. Only the "required field is empty" refusal is.
- Sharing, clipboard alerts, picture object URLs, scrolling to the top and the mobile menu are not modelled.
- The "sign in to see messages" gate of the messages page and the tabs of the profile and admin pages are not modelled, because they only choose what to draw.
- Event-listener plumbing is not modelled. A fragment change reaches `Router.HashChanged` at once.
- Navigating to the current fragment would not raise a change event. The model treats it as one, which leaves the state the same.
