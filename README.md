# Marketplace front end: routing, access, navigation, directory, login and shop chat

This project models the access and page logic of a marketplace's React front end and proves
properties of it in Dafny. It covers these parts:

- **Route guards** (`Guards`, `client/src/lib/protected-route.tsx`). Each guard turns the session
  state into one of three outcomes: a loading placeholder, a redirect, or the page. The state is
  whether the session is still loading, plus the signed-in user if any. The owner and security
  roles skip the loading wait on the staff and shop-owner guards.
- **Route table** (`App`, `client/src/App.tsx`).
  - It lists 28 routes in four guard classes.
  - A first-match `Switch` picks the route, and the not-found page is the fallback.
  - The floating cart hides on the login page.
- **Navigation bar** (`Navbar`, `client/src/components/layout/navbar.tsx`).
  - The role tests it derives from the user.
  - The unread counters and their badge sums.
  - The role labels.
  - The links each menu offers to whom, and where each link leads under the route table.
- **Shop directory** (`Shops`, `client/src/pages/shops-page.tsx`).
  - The case-insensitive search and the category filter.
  - The de-duplicated category buttons.
  - The filter reset.
  - The promoted/new strip over each card.
- **Login and registration page** (`Auth`, `client/src/pages/auth-page.tsx`).
  - The registration schema and the first error shown per field.
  - The request sent on registration.
  - Which login failures are kept.
  - How the reason, date and duration are read out of a ban message.
- **Customer–shop chat page** (`ShopChat`, `client/src/pages/shop-chat-page.tsx`).
  - A class `ChatPage` holds the page's state:
    - the message log;
    - the cache of sender records;
    - the set of shop team members already announced;
    - the input box;
    - the snapshot of the cache that the push-channel handler sees.
  - Methods change that state: the server refresh, the push-channel handler, the send, the
    user lookup and the loop that loads sender records.
  - Pure rules decide how each message, the "chat created" line and the page itself are shown.

Helper modules:

- `Text` models the JavaScript string operations the pages use:
  - `indexOf` and `includes`;
  - the first two pieces of `split`;
  - `trim`, with the ECMAScript whitespace set written out;
  - `toLowerCase` on Latin and Cyrillic letters.
- `Seqs` models `indexOf` on arrays, first-occurrence de-duplication and order-preserving
  selection.
- `Roles` models the role enumeration and the user record.

Nothing in the model performs I/O:

- a server answer is a parameter, such as `fetched` for the user lookup and `reply` for a send;
- the current date is the parameter `today`.

## Model

| member | source | states |
|---|---|---|
| Guards.IsOwnerRoleIff | client/src/lib/protected-route.tsx:9-11 | `isOwnerRole` holds exactly for a present user whose role is owner or security |
| Guards.AuthGuard | client/src/lib/protected-route.tsx:15-43 | loading while the session loads; once loaded, redirect to `/auth` exactly when nobody is signed in; otherwise the page |
| Guards.OwnerGuard | client/src/lib/protected-route.tsx:45-82 | loading first; then `/auth` without a user; then `/` exactly for a role outside {owner, security}; the page exactly for those two roles after loading |
| Guards.StaffGuard | client/src/lib/protected-route.tsx:84-131 | an owner or security officer gets the page even while loading; others wait; `/auth` without a user; `/` for roles outside the staff set; the page exactly for staff roles |
| Guards.ShopOwnerGuard | client/src/lib/protected-route.tsx:133-180 | the same owner short-circuit; the page exactly for owner, security, admin, shop owner and shop manager; `/` for the rest, head admins and shop staff included |
| Guards.GuardsFollowTable | client/src/lib/protected-route.tsx:84-180 | every guard equals "loading, then sign-in, then the role table, then the page", except that the staff and shop-owner guards render for an owner while loading |
| Guards.EveryRoleSignedIn | client/src/lib/protected-route.tsx:15-43 | the sign-in guard admits every role |
| Guards.LoadedAccess | client/src/lib/protected-route.tsx:15-180 | after loading, a signed-in user gets the page exactly when the guard's role table admits the role; any refusal is a redirect to `/` |
| Guards.SignedOutGoesToLogin | client/src/lib/protected-route.tsx:34-38 | after loading, every guard sends a signed-out visitor to `/auth` |
| Guards.OutcomeShape | client/src/lib/protected-route.tsx:15-180 | guards redirect only to `/auth` or `/`, and a guarded page renders only for a signed-in user |
| Guards.ShopOwnerGuardQuirks | client/src/lib/protected-route.tsx:140-171 | the shop-owner guard admits admins and turns away head admins and shop staff |
| Guards.OwnerGuardStrictest | client/src/lib/protected-route.tsx:45-82 | whoever the owner guard admits, every other guard admits too |
| App.Match | client/src/App.tsx:50-90 | the `Switch` picks the first row whose pattern is the location, and none when no row matches |
| App.MatchOwnRow | client/src/App.tsx:50-90 | with distinct patterns, each row is the row its own pattern selects |
| App.RowsInOrder | client/src/App.tsx:52-86 | row `i` of the table carries the guard and page declared for its location |
| App.RoutesDistinct | client/src/App.tsx:52-86 | no two rows share a pattern |
| App.ResolveRow | client/src/App.tsx:50-90 | a listed location resolves to its own row; an unlisted one falls through to the unguarded not-found page |
| App.ResolveIsDeclared | client/src/App.tsx:50-90 | the first-match switch is exactly the per-location declaration table |
| App.GuardClasses | client/src/App.tsx:51-86 | the public, signed-in, shop-owner, staff and owner-only locations, each as a set; only shop creation is owner-only |
| App.UnknownLocation | client/src/App.tsx:88-89 | an unknown location shows the not-found page to everyone, in any session state |
| App.ReachByRole | client/src/App.tsx:61-86 | after loading, a signed-in user sees a location's page exactly when its guard's role table admits the role |
| App.CreateShopOnlyOwners | client/src/App.tsx:85-86 | only owners and security officers reach shop creation |
| App.CartHiddenOnlyOnLogin | client/src/App.tsx:97-104 | the cart hides only at a spelling of the login page's location, but the test compares the raw string, so `/auth/` and `/AUTH` show the login page with the cart |
| Navbar.RoleTests | client/src/components/layout/navbar.tsx:35-60 | the bar's role tests as role sets: full access implies admin access, a shop owner is shop-related, and `isStaff` fails only for a signed-in plain user |
| Navbar.CountsDefault | client/src/components/layout/navbar.tsx:63-83 | without a user, or after a failed request, the counters are all zero; otherwise they are the server's answer |
| Navbar.AdminBadgeTotal | client/src/components/layout/navbar.tsx:86-88 | the admin badge shows exactly for admin access with some unread main or shop item |
| Navbar.FormatRole | client/src/components/layout/navbar.tsx:382-395 | a string that is not a role's wire name is shown unchanged |
| Navbar.FormatRoleDistinct | client/src/components/layout/navbar.tsx:382-395 | no two roles share a label |
| Navbar.FormatRoleNotName | client/src/components/layout/navbar.tsx:382-395 | no label is itself a role's wire name |
| Navbar.Digits | client/src/components/layout/navbar.tsx:335 | the shop id in the staff link is written as a non-empty run of decimal digits, with a leading zero only for 0 |
| Navbar.DigitsRoundTrip | client/src/components/layout/navbar.tsx:335 | the digits in the link read back as the user's own shop id |
| Navbar.ProfileMenuItems | client/src/components/layout/navbar.tsx:179-206 | the profile menu holds profile and settings, plus the ban list and site settings exactly for the owner |
| Navbar.AdminMenuItems | client/src/components/layout/navbar.tsx:263-293 | the admin menu holds the panel exactly with admin access, and account creation exactly with full access |
| Navbar.ShopTeamItems | client/src/components/layout/navbar.tsx:334-374 | the shop-team links: staff page only for a shop-related user's non-zero shop, appeal for owners and managers, shop chats for the whole shop team |
| Navbar.ManageMenuItems | client/src/components/layout/navbar.tsx:296-374 | the management menu's items exactly, under its gate: staff, or the shop team |
| Navbar.LinksOffered | client/src/components/layout/navbar.tsx:95-374 | an item is in the bar exactly when its flat condition in the reference table `Offered` holds |
| Navbar.ShownLinkOutcome | client/src/components/layout/navbar.tsx:296-374 | a link offered to a signed-in user renders under the route table, except the two management links for head admins, moderators and shop staff, and shop chats for shop staff, which redirect to `/`; the cart, settings and orders links, and only they, land on the not-found page |
| Navbar.SignedOutManagement | client/src/components/layout/navbar.tsx:48 | a signed-out visitor is offered the management links, which then ask for a login; the admin panel and shop chats are not offered |
| Shops.Select | client/src/pages/shops-page.tsx:128-138 | the result keeps only matching shops, keeps every matching shop, and keeps them in their original order |
| Shops.SelectCounts | client/src/pages/shops-page.tsx:128-138 | each matching shop appears in the result as often as in the list, and no other shop appears |
| Shops.FilteredShops | client/src/pages/shops-page.tsx:128-138 | no shop list gives the empty list; otherwise an order-preserving subsequence holding each matching shop as often as the list does, and nothing else |
| Shops.ResetKeepsAll | client/src/pages/shops-page.tsx:114-115 | with the initial (reset) filters every shop is kept |
| Shops.ResetShowsAll | client/src/pages/shops-page.tsx:284-290 | after "reset filters" the page lists every shop it has |
| Shops.AllCategoriesMembers | client/src/pages/shops-page.tsx:141 | a category is in the flattened list exactly when some shop lists it |
| Shops.CategoriesSpec | client/src/pages/shops-page.tsx:141-142 | the category buttons hold no duplicates, exactly the categories some shop lists, in order of first appearance |
| Shops.StripRule | client/src/pages/shops-page.tsx:215-219 | "Топ продаж" exactly for promoted shops; "Новый магазин" exactly for new shops that are not promoted; no strip otherwise |
| Auth.JsLength | client/src/pages/auth-page.tsx:17-22 | the UTF-16 length the minimums count lies between the number of code points and twice it, and equals it for text inside the Basic Multilingual Plane |
| Auth.JsLengthAppend | client/src/pages/auth-page.tsx:17-22 | the length adds up over concatenation, with one unit per character and two per astral character |
| Auth.ValidIff | client/src/pages/auth-page.tsx:15-27 | the form validates exactly when all four minimums hold and the passwords agree; the mismatch issue is present exactly when they differ and is always on `confirmPassword` |
| Auth.FieldError | client/src/pages/auth-page.tsx:235-285 | a field shows an error exactly when some issue is on it, and that error is one of its issues |
| Auth.ConfirmFieldError | client/src/pages/auth-page.tsx:19-27 | under the confirmation a too-short value reports the minimum first; otherwise a mismatch reports "Пароли не совпадают"; otherwise nothing |
| Auth.SubmitRegister | client/src/pages/auth-page.tsx:79-91 | a request is sent exactly when the form validates |
| Auth.SubmittedRequest | client/src/pages/auth-page.tsx:79-91 | a sent request carries the form's username and display name and the confirmed password, which meets the minimum |
| Auth.LoginError | client/src/pages/auth-page.tsx:68-77 | a login failure's message is kept exactly when it mentions "blocked"; a success clears it |
| Auth.RegisterFailureShown | client/src/pages/auth-page.tsx:79-224 | every registration failure with a message is shown word for word in the register tab, whatever the login side holds; a success shows no error box |
| Auth.CommaField | client/src/pages/auth-page.tsx:133 | the text read after a key is trimmed at both ends |
| Auth.BanReason | client/src/pages/auth-page.tsx:132-134 | without "Reason:" the reason reads "Нарушение правил сайта" |
| Auth.BanDate | client/src/pages/auth-page.tsx:138-140 | without "Date:" the date is today's |
| Auth.BanDuration | client/src/pages/auth-page.tsx:144-146 | without "Duration:" the duration reads "Бессрочно"; otherwise a trimmed text |
| Auth.CommaFieldRoundTrip | client/src/pages/auth-page.tsx:133 | a value written after the key, padded and ended by a comma, reads back exactly |
| Auth.BanReasonRoundTrip | client/src/pages/auth-page.tsx:132-134 | a reason written as "Reason: …," reads back as written |
| Auth.BanDateRoundTrip | client/src/pages/auth-page.tsx:138-140 | a date written as "Date: …," reads back as written |
| Auth.BanDurationRoundTrip | client/src/pages/auth-page.tsx:144-146 | a duration written after "Duration:" reads back whole, commas included |
| Auth.View | client/src/pages/auth-page.tsx:93-224 | a signed-in user is sent home; otherwise the ban panel shows exactly for a non-empty kept login error, and the register tab's error box exactly for a non-empty register error |
| Auth.PanelOnlyWhenBlocked | client/src/pages/auth-page.tsx:68-77 | after a login attempt the ban panel shows exactly when the failure mentions "blocked" |
| ShopChat.Fetch | client/src/pages/shop-chat-page.tsx:165-193 | past the cache test the signed-in user's own id yields that user; any other id yields the server's answer when there is one, else the stand-in |
| ShopChat.Store | client/src/pages/shop-chat-page.tsx:165-182 | the found record is written over the entry for the id, whatever it held; other entries stay; the stand-in is not stored |
| ShopChat.CacheAfter | client/src/pages/shop-chat-page.tsx:158-194 | the lookup keeps every cached record and adds only the looked-up id; an uncached id caches the signed-in user for that user's own id, else the server's answer; nothing is cached when neither exists |
| ShopChat.Lookup | client/src/pages/shop-chat-page.tsx:158-194 | a cached id returns its cached record; otherwise the signed-in user for that user's own id, else the server's answer, else the stand-in with the cache unchanged |
| ShopChat.StoreOverLiveCache | client/src/pages/shop-chat-page.tsx:111-113 | the push handler's store agrees with `getUserInfo` for an id still uncached, and for a sender cached since the socket opened it replaces the record with the server's answer |
| ShopChat.PersonIds | client/src/pages/shop-chat-page.tsx:202 | the listed ids are the non-zero, non-null sender ids, and every such sender is listed |
| ShopChat.LoadAllGrows | client/src/pages/shop-chat-page.tsx:196-229 | loading sender records keeps cached records and announced members and caches only listed ids; everyone newly announced wrote in the chat and has a cached shop-role record |
| ShopChat.LoadAllAnnounces | client/src/pages/shop-chat-page.tsx:204-222 | every listed id, not cached before, whose looked-up record has a shop role and who wrote in the chat is announced |
| ShopChat.LoadAllCaches | client/src/pages/shop-chat-page.tsx:196-229 | every listed sender whose record is available ends up cached |
| ShopChat.LoadUserInfoSpec | client/src/pages/shop-chat-page.tsx:196-229 | over the server's messages: each person who wrote and whose record is available is cached; only people who wrote are newly announced; and each writer found uncached whose record has a shop role is announced |
| ShopChat.RenderMessage | client/src/pages/shop-chat-page.tsx:319-349 | a spinner exactly for a person whose record is missing; a system line exactly for system, zero or null senders; otherwise a bubble, with the joined notice exactly for a shop-role sender at the index of their first message in the server's list |
| ShopChat.AppendedNeverAnnounced | client/src/pages/shop-chat-page.tsx:344-348 | a message past the end of the server's list never carries the joined notice |
| ShopChat.AnnouncedAtFirstMessage | client/src/pages/shop-chat-page.tsx:344-348 | over the server's own list, the notice goes exactly before a shop-role sender's first message, so at most once per sender |
| ShopChat.RenderInLog | client/src/pages/shop-chat-page.tsx:344-348 | with the search over the rendered log, each shop team member is announced before their first message there |
| ShopChat.LiveJoinUnannounced | client/src/pages/shop-chat-page.tsx:344-348 | a shop team member's first message that arrives live is not announced as written, and is announced by `RenderInLog` |
| ShopChat.RoleDisplayName | client/src/pages/shop-chat-page.tsx:309-316 | anything but the owner and manager wire names reads "Сотрудник магазина" |
| ShopChat.RoleDisplayNamesDistinct | client/src/pages/shop-chat-page.tsx:309-316 | the three shop roles read as three different titles |
| ShopChat.HasChatCreated | client/src/pages/shop-chat-page.tsx:388-391 | true exactly when some system-like line of the log contains "Чат создан" |
| ShopChat.CreatedBannerAppend | client/src/pages/shop-chat-page.tsx:388-437 | appending a message adds a creation line only when it is one; once a creation line is in a non-empty log the banner stays hidden |
| ShopChat.HasAccess | client/src/pages/shop-chat-page.tsx:282-287 | access holds exactly for a signed-in user, whatever the chat's owner |
| ShopChat.ChatPage.Poll | client/src/pages/shop-chat-page.tsx:42-63 | the messages query runs only for a signed-in user with positive chat and shop ids; only an enabled query with a non-empty answer replaces the log; nothing else changes |
| ShopChat.View | client/src/pages/shop-chat-page.tsx:267-301 | the denied view is unreachable; `/auth` exactly when loading is over and nobody is signed in; the conversation exactly when signed in and nothing is loading |
| ShopChat.ChatPage.constructor | client/src/pages/shop-chat-page.tsx:16-23 | the page starts with an empty log, cache and announced set, an empty input, and an empty cache snapshot for the push handler |
| ShopChat.ChatPage.OpenSocket | client/src/pages/shop-chat-page.tsx:73-155 | opening the push channel needs a signed-in user, and its handler then sees the cache as it is at that moment; nothing else changes |
| ShopChat.ChatPage.ServerRefresh | client/src/pages/shop-chat-page.tsx:59-63 | a non-empty server list replaces the log; an empty one leaves it; nothing else changes |
| ShopChat.ChatPage.FetchUserInfo | client/src/pages/shop-chat-page.tsx:165-193 | returns `Fetch` and stores it as `Store`, over any cached entry; nothing else changes |
| ShopChat.ChatPage.GetUserInfo | client/src/pages/shop-chat-page.tsx:158-194 | returns `Lookup` and leaves the cache as `CacheAfter`; nothing else changes |
| ShopChat.ChatPage.OnPushEvent | client/src/pages/shop-chat-page.tsx:99-127 | a frame is taken exactly when it is a new message for this chat; it appends that message; a truthy sender missing from the snapshot taken when the socket opened is looked up and stored over the live cache; the sender is announced when the frame names a shop role |
| ShopChat.ChatPage.Send | client/src/pages/shop-chat-page.tsx:232-306 | a blank input sends nothing; otherwise the input is sent as typed, and a stored reply is appended and clears the input; a failure changes nothing |
| ShopChat.ChatPage.LoadOne | client/src/pages/shop-chat-page.tsx:204-225 | one round of the loop, as `LoadStep` |
| ShopChat.ChatPage.LoadUserInfo | client/src/pages/shop-chat-page.tsx:196-229 | does nothing without a user or messages; otherwise leaves cache and announced set as `LoadAll` over the de-duplicated sender ids |
| Text.IndexOf | client/src/pages/shops-page.tsx:131 | the result is -1 or an occurrence, with no occurrence before it |
| Text.IncludesIff | client/src/pages/shops-page.tsx:131 | `includes` holds exactly when the pattern occurs somewhere |
| Text.SplitHead | client/src/pages/auth-page.tsx:133 | `split(sep)[0]` is a prefix free of the separator, followed by the separator when there is one |
| Text.SplitSecond | client/src/pages/auth-page.tsx:133 | `split(sep)[1]` exists exactly when the separator occurs, and holds no separator |
| Text.FirstOccurrence | client/src/pages/auth-page.tsx:133 | a separator after separator-free text is the first one, and the pieces around it are what `split` gives |
| Text.TrimShape | client/src/pages/auth-page.tsx:133 | `trim` leaves a slice of the input with only whitespace cut off, and neither end whitespace |
| Text.TrimPadded | client/src/pages/auth-page.tsx:133 | trimming a trimmed text padded with whitespace gives it back |
| Text.ToLower | client/src/pages/shops-page.tsx:131 | lowercasing keeps the length and lowers each letter in place |
| Text.ToLowerIdempotent | client/src/pages/shops-page.tsx:131 | lowering twice is lowering once |
| Seqs.FirstIndex | client/src/pages/shops-page.tsx:142 | `indexOf` is -1 exactly for an absent value, else the position of its first copy |
| Seqs.KeepFirstSpec | client/src/pages/shops-page.tsx:141-142 | the first-index filter keeps each value of the prefix once, in order of first appearance |
| Seqs.DedupSpec | client/src/pages/shop-chat-page.tsx:202 | de-duplication keeps each value exactly once, in first-occurrence order |
| Seqs.DedupNoDuplicates | client/src/pages/shop-chat-page.tsx:202 | de-duplicating a duplicate-free array changes nothing |

## Left out

- Network I/O is a parameter, never performed: the React Query fetches, the REST calls, the polling interval and the WebSocket connection.
- The socket's lifecycle is left out apart from the cache snapshot its handler sees (`ChatPage.OpenSocket`). The connection indicator, the error toast, timers and scrolling are left out.
- The login button's 500 ms redirect home (auth-page.tsx:196-205) is left out. It fires whenever the rule-less login form counts as valid, whatever the login result, so the ban panel that `Auth.PanelOnlyWhenBlocked` describes stays visible only until that reload.
- Rendering details are left out: JSX layout, CSS classes, animations, avatars and toasts.
- React's asynchronous state updates are left out. Each handler applies its update at once, and the requests a handler awaits do not interleave with other handlers.
- The push handler reads `userCache` as it was when the socket opened (shop-chat-page.tsx:111), and the `getUserInfo` it calls tests that same snapshot. This is modelled by `ChatPage.socketCache`. A sender cached after the socket opened is therefore looked up again, and the answer overwrites the cached record.
- The loading loop reads the snapshot of its own effect run. Because it visits each id once, this equals reading the live cache, and `LoadAll` reads it live. Its test of `shopStaffJoined` and the push handler's test only guard adding to a set, which is idempotent.
- Matching a route pattern against a concrete URL is left out: wouter's `:param` matching is not modelled. Each pattern is a token, and a location is the token it equals or `Unlisted`. Only the login page's spellings are written out (`App.AuthSpelling`, any letter case and an optional trailing slash), because the cart test compares the raw string.
- The `isLoading` flag of a disabled query depends on the React Query version, so `ChatPage.Poll` states only that a disabled query leaves the log alone, not what the spinner does then.
- `parseInt` of the chat route's parameters is left out. The chat and shop ids arrive as integers, and `NaN` behaves like a non-positive id.
- `Text.LowerChar`: Unicode case mapping is modelled only for Latin A–Z and Cyrillic А–Я and Ё. Other characters keep their case.
- Zod's and react-hook-form's own machinery is left out. Only the schema's rules, the issue order and the first-issue-per-field display are modelled.
- `Auth.BanDate`: `toLocaleDateString()` is the parameter `today`.
- The logout action is left out.
- The `shopName` suffix on the profile label is left out.
- The theme and language toggles are left out.
- Shop fields that no logic reads are left out: ratings, images and counts.
- The spinner that replaces the message list while messages load is left out (shop-chat-page.tsx:442-448).
- The chat header's shop name is left out.
- The role enumeration and the user record come from the shared schema, which is not part of this model. `Roles` restates the nine role names the pages compare against.
- The shop list's mock data and its simulated delay are left out. The list is a parameter.

## Findings

| source | as written | input that shows it | evidently intended | confidence | as-written member | corrected member |
|---|---|---|---|---|---|---|
| client/src/pages/shop-chat-page.tsx:344-348 | the "joined" notice compares an index into the rendered `localMessages` with `findIndex` over the server's `messages` | a shop team member's first message arrives over the push channel while the server's list does not yet hold it (for example, an empty list): it is rendered at an index past the server's list and gets no notice | the notice precedes each shop team member's first message of the rendered log | medium, not executed | ShopChat.LiveJoinUnannounced | ShopChat.RenderInLog |

The announced set `shopStaffJoined` (`ChatPage.staffJoined`) is written by the push handler and
by the loading loop, and read only by their own `!shopStaffJoined.has(...)` guards (lines 120
and 213). Nothing rendered depends on it: the notice depends only on the index test above.
