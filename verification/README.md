# Ubion web front end: session cache, URL helpers and booking rules in Dafny

This project models the logic at the core of the Ubion web front end: a Next.js
site for a venue with a food court and bookable sport facilities. It proves
properties of that model. Most of the front end only presents a REST API's
data. The parts modelled here are the ones that hold rules:

- **The session cache** (`SessionCache` in `src/lib/sessionCache.ts`):
  - a key-to-entry store whose entries carry `timestamp` and `expiresAt`;
  - reads evict expired or unreadable entries;
  - a sweep drops every expired entry;
  - the remaining lifetime is given in whole minutes.

  The debug panel that clears page caches (`src/components/ui/cache-debug.tsx`) is modelled with it.
- **`ApiConfig`**: the base URL, the endpoint URLs and the `debug`/`prod` web-status switch.
- **The data hooks** `useWelcomeData` and `useRestaurantDetail`:
  - a cache-first fetch, whose outcome sets `data`, `loading` and `error` and writes the cache;
  - their `getCacheInfo` reports;
  - their image-URL and HTML-to-text helpers.
- **`formatImageUrl` and friends** (`src/lib/imageUtils.ts`): relative storage paths made into absolute image URLs.
- **The food-court section**:
  - the default tenant list;
  - the per-tenant location and name lookups with their fallbacks;
  - the location filter and its de-duplicated dropdown;
  - the five-card display and the floor-map title.
- **The sport-venue checkout**:
  - the 0..20 ticket counter and its checkout request;
  - the two-hour minimum of the hourly booking panel;
  - the checkout modal's submit gate, payment choice and summary;
  - the confirmation modal's method names and subtotal;
  - the transaction-history status badge.

How the browser and the network are represented:

- **Browser storage** is a `map<string, Entry<T>>`. An `Entry` is either
  `Valid(data, timestamp, expiresAt)` or `Corrupt` (a non-empty stored string that
  does not parse as a cache record). A key holding the empty string is modelled
  as an absent key: `getItem` answers null for it without removing it, and
  `clearExpired` skips it, exactly as for a key that is not there.
- **The clock** is a `now` parameter (milliseconds, as `Date.now()`).
- **Environment variables** are parameters:
  - `NEXT_PUBLIC_CACHE_TIMEOUT` is an `Option<int>` (`None` when unset);
  - the base URL and web status are strings (`""` when unset).
- **A `fetch`** is a `Network.Response<T>`:
  - `Ok(body)`;
  - `HttpError(status)`;
  - `Timeout` (the abort controller fired);
  - `Failure(message)` (another `Error`);
  - `NonError` (a thrown non-`Error`).

  Each hook method returns the URL it requested, or `None` when it answered from the cache.

Module layout, one file each:

- `wrappers.dfy` (`Option`);
- `text.dfy` (prefixes, decimal rendering, ASCII lower-casing);
- `html.dfy` (the tag stripper and the `&mdash;` replacement);
- `session_cache.dfy` (modules `Cache` and `ApiConfig`);
- `cache_debug.dfy`, `network.dfy`, `welcome_data.dfy`, `restaurant_detail.dfy`, `image_utils.dfy`;
- `food_court.dfy`, `ticket_checkout.dfy`, `booking_section.dfy`, `checkout_modal.dfy`, `payment_confirmation.dfy`, `transaction_history.dfy`.

## Model

| member | source | states |
|---|---|---|
| Cache.TimeoutMinutes | src/lib/sessionCache.ts:10-12 | NEXT_PUBLIC_CACHE_TIMEOUT when set, 30 minutes when unset or empty |
| Cache.EffectiveTimeout | src/lib/sessionCache.ts:18 | a non-zero custom timeout wins; an absent or zero one falls back to the configured timeout; with no negative setting the lifetime is positive |
| Cache.SessionCache.constructor | src/lib/sessionCache.ts:8-12 | the cache starts from the given storage contents and the configured timeout |
| Cache.SessionCache.SetItem | src/lib/sessionCache.ts:15-33 | writes `Valid(data, now, now + minutes*60000)` under the key and changes no other key; `minutes` is the custom timeout when it is non-zero, else NEXT_PUBLIC_CACHE_TIMEOUT, else 30 |
| Cache.SessionCache.GetItem | src/lib/sessionCache.ts:36-58 | returns the data of a live entry; a missing key gives null and no change; an expired (`now > expiresAt`) or corrupt entry gives null and removes exactly that key |
| Cache.SessionCache.RemoveItem | src/lib/sessionCache.ts:61-69 | the store loses that key and nothing else |
| Cache.SessionCache.HasValidItem | src/lib/sessionCache.ts:72-74 | true exactly when `getItem` returns data, with the same eviction |
| Cache.SessionCache.ClearExpired | src/lib/sessionCache.ts:77-101 | the loop over a snapshot of the keys leaves exactly the sweep of the old store: corrupt entries and entries with a set, passed `expiresAt` go, all others stay unchanged |
| Cache.SessionCache.GetRemainingTime | src/lib/sessionCache.ts:104-119 | never negative; 0 for a missing or corrupt key or a passed expiry; otherwise the least whole number of minutes covering `expiresAt - now` |
| Cache.CeilDivIsCeiling | src/lib/sessionCache.ts:115 | the rounded-up quotient is the least multiple of the minute length that reaches the remaining time |
| Cache.SetThenGet | src/lib/sessionCache.ts:15-58 | after a write, a read at any time up to and including `expiresAt` returns the data and changes nothing; a later read returns null and drops only that key |
| Cache.LookupEvictsOnlyItsKey | src/lib/sessionCache.ts:40-57 | a read keeps every other key and entry, keeps its own key exactly when it returns data, and leaves the store alone for a missing key |
| Cache.SweepSpec | src/lib/sessionCache.ts:84-97 | after a sweep only valid entries with no set, passed expiry remain, every entry not due for removal is kept unchanged, and every live entry survives |
| Cache.SweepPreservesLookup | src/lib/sessionCache.ts:47-50 | a sweep never changes what a read at the same instant returns |
| Cache.SweepIdempotent | src/lib/sessionCache.ts:77-101 | sweeping twice at one instant is sweeping once |
| Cache.RestaurantDetailKey | src/lib/sessionCache.ts:152-155 | every restaurant-detail key has the `restaurant-detail-` prefix and differs from `welcome-data` |
| Cache.RestaurantDetailKeyInjective | src/lib/sessionCache.ts:154 | different restaurant ids never share a cache key |
| Cache.CacheInfoConsistent | src/lib/sessionCache.ts:72-74 | after `hasValidItem` has run, a positive remaining time implies the entry is cached, and an uncached key reports 0 minutes |
| ApiConfig.BaseUrl | src/lib/sessionCache.ts:124-126 | NEXT_PUBLIC_API_BASE_URL when set, `http://127.0.0.1:8000` when unset or empty; never empty |
| ApiConfig.GetFullUrl | src/lib/sessionCache.ts:132-136 | an endpoint starting with '/' is appended to the base as it is, any other endpoint after one added '/'; so the URL is always the base followed by a '/' |
| ApiConfig.GetFullUrlSlashInsensitive | src/lib/sessionCache.ts:134 | an endpoint gives the same URL with or without its leading '/' |
| ApiConfig.WebStatus | src/lib/sessionCache.ts:138-140 | NEXT_PUBLIC_WEB_STATUS as given when set, and never empty |
| ApiConfig.IsDebugMode | src/lib/sessionCache.ts:142-144 | debug mode is only reached by setting the status to "debug" explicitly |
| ApiConfig.IsProdMode | src/lib/sessionCache.ts:146-148 | prod mode excludes debug mode |
| ApiConfig.ProdIsDefault | src/lib/sessionCache.ts:138-148 | prod mode holds exactly when the web status is unset or "prod" |
| CacheDebug.Renders | src/components/ui/cache-debug.tsx:16-18 | the panel renders exactly when the web status is set and is not "prod" |
| CacheDebug.WithoutPageCaches | src/components/ui/cache-debug.tsx:24-34 | no `welcome-data` or `restaurant-detail-` key remains; every other key keeps its entry; no key is added |
| CacheDebug.ClearedPagesMiss | src/components/ui/cache-debug.tsx:24-34 | after clearing, both hooks' cache reads miss |
| CacheDebug.CacheDebugPanel.constructor | src/components/ui/cache-debug.tsx:12 | the refresh counter starts at 0 |
| CacheDebug.CacheDebugPanel.ForceRefresh | src/components/ui/cache-debug.tsx:20 | the refresh counter goes up by one |
| CacheDebug.CacheDebugPanel.ClearAllCache | src/components/ui/cache-debug.tsx:24-36 | removing `welcome-data` and then every key with the detail prefix, one key at a time, leaves exactly the store without page caches, and bumps the counter |
| CacheDebug.CacheDebugPanel.ClearExpiredCache | src/components/ui/cache-debug.tsx:38-41 | the store becomes the sweep of the old store, and the counter goes up by one |
| Network.ErrorMessage | src/hooks/useRestaurantDetail.ts:72-88 | an HTTP failure reads `HTTP error! status: ` followed by the decimal status, a timeout `Request timeout. Please try again.`, another error its own message, anything else `Unknown error occurred`; the HTTP message is never one of the fixed ones |
| Network.HttpErrorNamesStatus | src/hooks/useRestaurantDetail.ts:73 | two HTTP failures with different statuses leave different messages |
| WelcomeData.WelcomeDataHook.constructor | src/hooks/useWelcomeData.ts:50-52 | no data, loading, no error |
| WelcomeData.WelcomeDataHook.FetchData | src/hooks/useWelcomeData.ts:54-103 | without force-refresh a live `welcome-data` entry becomes data with no request; otherwise `/api/welcome` is requested, success stores the body under `welcome-data` and as data, failure sets the error and keeps data; loading ends false |
| WelcomeData.WelcomeDataHook.Refetch | src/hooks/useWelcomeData.ts:114-116 | always requests `/api/welcome`, whatever the cache holds |
| WelcomeData.WelcomeDataHook.GetCacheInfo | src/hooks/useWelcomeData.ts:119-127 | `isCached` is whether the read finds a live entry (evicting a dead one), `remainingMinutes` is the remaining time afterwards, 0 when not cached |
| WelcomeData.GetFullImageUrl | src/hooks/useWelcomeData.ts:139-144 | a path starting with "http" is unchanged, any other gets the base URL and a '/' in front |
| WelcomeData.GetFullImageUrlIdempotent | src/hooks/useWelcomeData.ts:139-144 | with an http base, applying it twice is applying it once |
| WelcomeData.DefaultBaseIsHttp | src/lib/sessionCache.ts:125 | the default base URL starts with "http" |
| WelcomeData.ParseHtmlContent | src/hooks/useWelcomeData.ts:147-150 | no '<' followed later by '>' survives, the text never grows, text without '<' or without '>' is unchanged, and the output equals the input exactly when the input holds no tag |
| WelcomeData.ParseHtmlContentKeepsText | src/hooks/useWelcomeData.ts:147-150 | a tag is removed and the text before it and after it is kept: plain text `a`, then `<t>`, then `b` gives `a` followed by the result for `b` |
| RestaurantDetail.RestaurantDetailHook.constructor | src/hooks/useRestaurantDetail.ts:41-43 | no data, not loading, no error |
| RestaurantDetail.RestaurantDetailHook.FetchRestaurantDetail | src/hooks/useRestaurantDetail.ts:45-93 | a live `restaurant-detail-<id>` entry becomes data with no request and loading and error untouched; otherwise `/api/menuresto/<id>` is requested, success caches and sets data, failure sets the error and keeps data; loading ends false |
| RestaurantDetail.RestaurantDetailHook.GetCacheInfo | src/hooks/useRestaurantDetail.ts:114-123 | as the welcome hook's, for the restaurant's key |
| RestaurantDetail.GetFullImageUrl | src/hooks/useRestaurantDetail.ts:103-111 | null or empty gives the default food image, a path starting with "http" is unchanged, any other is put under `http://127.0.0.1:8000/`; every result starts with "http" |
| RestaurantDetail.GetFullImageUrlIdempotent | src/hooks/useRestaurantDetail.ts:103-111 | applying it to its own result changes nothing |
| RestaurantDetail.ParseHtmlContent | src/hooks/useRestaurantDetail.ts:96-101 | null or empty gives ""; no tag and no `&mdash;` survive the strip and the replacement; the text never grows; text with no complete tag and no `&mdash;` is unchanged |
| RestaurantDetail.ParseHtmlContentKeepsText | src/hooks/useRestaurantDetail.ts:96-101 | a tag is removed and the text on both sides of it reaches the `&mdash;` replacement unchanged |
| RestaurantDetail.ParseHtmlContentReplacesMdash | src/hooks/useRestaurantDetail.ts:96-101 | in text without tags, an `&mdash;` preceded by text without '&' becomes the replacement characters, and the text before and after it is kept |
| Html.StripTagsShrinks | src/hooks/useWelcomeData.ts:149 | removing tags never lengthens the text and introduces no character |
| Html.StripTagsNoTag | src/hooks/useWelcomeData.ts:149 | no '<' followed later by '>' remains |
| Html.StripTagsFixedPoint | src/hooks/useWelcomeData.ts:149 | the strip leaves a text unchanged exactly when it has no tag |
| Html.StripTagsIdempotent | src/hooks/useWelcomeData.ts:149 | stripping twice is stripping once |
| Html.StripTagsNoAngle | src/hooks/useWelcomeData.ts:149 | text without '<' passes through unchanged |
| Html.StripTagsNoClose | src/hooks/useWelcomeData.ts:149 | text without '>' passes through unchanged: an unclosed '<' is kept |
| Html.StripTagsPlainPrefix | src/hooks/useWelcomeData.ts:149 | text before the first '<' is kept as it is, in front of whatever the rest strips to |
| Html.StripTagsRemovesOneTag | src/hooks/useWelcomeData.ts:149 | a '<', then text without '>', then '>' is removed, and the text before and after it is kept |
| Html.ReplaceMdashFacts | src/hooks/useRestaurantDetail.ts:100 | the replacement never lengthens the text, adds no '<' or '>', and changes nothing without `&mdash;` |
| Html.ReplaceMdashKeepsNoTag | src/hooks/useRestaurantDetail.ts:100 | the replacement applied after stripping cannot create a tag |
| Html.ReplaceMdashSplices | src/hooks/useRestaurantDetail.ts:100 | an `&mdash;` after text without '&' is replaced where it stands, and the text on both sides is kept |
| Html.ReplaceMdashRemovesAll | src/hooks/useRestaurantDetail.ts:100 | no `&mdash;` is left after the global replacement |
| ImageUtils.ImageBaseUrl | src/lib/imageUtils.ts:8-10 | NEXT_PUBLIC_API_BASE_URL when set, the production host when unset or empty; never empty |
| ImageUtils.FormatImageUrl | src/lib/imageUtils.ts:17-34 | "" stays ""; an http:// or https:// path is unchanged; any other path becomes base + "/storage/" + the path with one leading '/' and one leading "storage/" removed |
| ImageUtils.DefaultBaseIsAbsolute | src/lib/imageUtils.ts:8-10 | the default image host is an absolute https URL |
| ImageUtils.FormatImageUrlIdempotent | src/lib/imageUtils.ts:17-34 | with an absolute base, formatting twice is formatting once |
| ImageUtils.FormatImageUrlSlashOptional | src/lib/imageUtils.ts:28-30 | a relative path gives the same URL with or without a leading '/' |
| ImageUtils.FormatImageUrlStorageOptional | src/lib/imageUtils.ts:30-33 | a relative path gives the same URL with or without a leading "storage/" |
| ImageUtils.FormatImageUrls | src/lib/imageUtils.ts:41-43 | same length and order, each element formatted |
| ImageUtils.ParseAndFormatImageList | src/lib/imageUtils.ts:50-61 | [] unless the text parses to an array, whose items are then formatted in order |
| FoodCourt.Restaurants | src/components/sections/FoodCourtSection.tsx:108-115 | the data when it has entries, else the one default tenant; never empty |
| FoodCourt.FallbackName | src/components/sections/FoodCourtSection.tsx:136 | `Restaurant ` followed by the decimal id; never empty |
| FoodCourt.FallbackNameInjective | src/components/sections/FoodCourtSection.tsx:136 | two tenants without a fetched name never share a fallback title |
| FoodCourt.FetchRestaurantData | src/components/sections/FoodCourtSection.tsx:126-145 | a missing location reads `Unknown Location`, a missing name `Restaurant <id>`, and a failure gives both; neither is ever empty |
| FoodCourt.MapSet | src/components/sections/FoodCourtSection.tsx:165-166 | `Map.set` makes the key answer the new value, leaves every other key's answer alone, and keeps keys distinct |
| FoodCourt.FillMaps | src/components/sections/FoodCourtSection.tsx:153-167 | the `forEach` leaves the location and name maps that setting each answer in turn gives |
| FoodCourt.LocationMapLastWins | src/components/sections/FoodCourtSection.tsx:164-167 | a tenant has a location exactly when some answer carries its id, and the last such answer's location wins |
| FoodCourt.LocationsNonEmpty | src/components/sections/FoodCourtSection.tsx:134-143 | when every answer has a location, no value in the location map is empty |
| FoodCourt.Dedup | src/components/sections/FoodCourtSection.tsx:182 | `new Set` keeps each value once and loses none |
| FoodCourt.NonEmpty | src/components/sections/FoodCourtSection.tsx:182 | `.filter(Boolean)` keeps exactly the non-empty values |
| FoodCourt.NonEmptyKeepsDistinct | src/components/sections/FoodCourtSection.tsx:182 | filtering distinct values leaves them distinct |
| FoodCourt.ValueIffGet | src/components/sections/FoodCourtSection.tsx:182 | a value is among the map's values exactly when some key maps to it |
| FoodCourt.UniqueLocations | src/components/sections/FoodCourtSection.tsx:182 | no duplicates, no empty string, and exactly the non-empty locations some tenant maps to |
| FoodCourt.FilterByLocation | src/components/sections/FoodCourtSection.tsx:187-189 | keeps exactly the tenants whose mapped location is the selection |
| FoodCourt.FilterByLocationAppend | src/components/sections/FoodCourtSection.tsx:187-189 | the filter keeps the tenants' order |
| FoodCourt.FilteredRestaurants | src/components/sections/FoodCourtSection.tsx:185-189 | "all" gives every tenant, any other selection the tenants at that location |
| FoodCourt.DisplayedCards | src/components/sections/FoodCourtSection.tsx:291 | at most five cards, the first five of the filtered list |
| FoodCourt.ShowNoRestaurants | src/components/sections/FoodCourtSection.tsx:323 | the message shows exactly when no card is drawn and no location lookup is in flight |
| FoodCourt.NoRestaurantsMessage | src/components/sections/FoodCourtSection.tsx:323 | the empty-list message never shows for "all" or for a location some tenant has |
| FoodCourt.CardName | src/components/sections/FoodCourtSection.tsx:303 | the fetched name when it is present and non-empty, else `Restaurant <id>` (FallbackName); never empty |
| FoodCourt.MapTitle | src/components/sections/FoodCourtSection.tsx:118-119 | index 0 is the underground floor, every other index the ground floor |
| TicketCheckout.Step | src/components/sections/sport-venue/CheckoutTicketHourly.tsx:100-119 | a disabled button (minus at 0, plus at 20) changes nothing; inside [0, 20] minus takes one away and plus adds one; minus never goes below 0, plus never above 20 |
| TicketCheckout.RunStaysInRange | src/components/sections/sport-venue/CheckoutTicketHourly.tsx:105-116 | from a count in [0, 20] every sequence of presses stays in [0, 20] |
| TicketCheckout.PlusRun | src/components/sections/sport-venue/CheckoutTicketHourly.tsx:115-116 | n presses of plus add n, capped at 20 |
| TicketCheckout.TicketCounter.constructor | src/components/sections/sport-venue/CheckoutTicketHourly.tsx:36-49 | the date starts at today and a non-empty one is handed to the parent |
| TicketCheckout.TicketCounter.PressButton | src/components/sections/sport-venue/CheckoutTicketHourly.tsx:96-120 | a press steps the count when the buttons are shown (a sub-facility is selected) and does nothing otherwise; the date is kept |
| TicketCheckout.TicketCounter.ChangeDate | src/components/sections/sport-venue/CheckoutTicketHourly.tsx:69-76 | the new date is stored and handed to the parent; the count is kept |
| TicketCheckout.TicketCounter.Checkout | src/components/sections/sport-venue/CheckoutTicketHourly.tsx:51-131 | a request exists exactly when checkout is enabled (sub-facility, count non-zero, date set); it is one untimed line of `ticketCount` tickets, total = count × price, with the date |
| TicketCheckout.CheckoutCountInRange | src/components/sections/sport-venue/CheckoutTicketHourly.tsx:126 | an enabled checkout reached by presses from a count in range carries 1 to 20 tickets |
| BookingSection.PanelView | src/components/sections/sport-venue/BookingSection.tsx:52-57 | the loading view wins, otherwise slots exactly when there are available times |
| BookingSection.SlotSelected | src/components/sections/sport-venue/BookingSection.tsx:89-93 | a slot drawn as selected means the selection is non-empty, so a note is shown |
| BookingSection.Note | src/components/sections/sport-venue/BookingSection.tsx:100-122 | no note without a selection; a check from two hours on, a warning below |
| BookingSection.DurationText | src/components/sections/sport-venue/BookingSection.tsx:164-177 | `Durasi: <n> jam` from two hours on, and the same followed by ` (minimal 2 jam)` below two hours |
| BookingSection.SubmitEnabled | src/components/sections/sport-venue/BookingSection.tsx:189 | an enabled button comes with the check note and the `Submit Payment` label |
| BookingSection.ButtonLabel | src/components/sections/sport-venue/BookingSection.tsx:195-200 | 0 hours: choose a time first; 1 hour: `Pilih 1 Jam Lagi (Min. 2 Jam)`; `Submit Payment` exactly from two hours on |
| BookingSection.LabelMatchesGate | src/components/sections/sport-venue/BookingSection.tsx:100-200 | with a date, the button is enabled exactly when it reads `Submit Payment` and exactly when the note is a check |
| CheckoutModal.HourUnit | src/components/sections/sport-venue/CheckoutModal.tsx:117 | "hours" exactly above one hour, "hour" otherwise |
| CheckoutModal.BookingSummary | src/components/sections/sport-venue/CheckoutModal.tsx:110-119 | the ticket summary exactly when a ticket count is given, with the ticket total or 0; otherwise the hours with their unit |
| CheckoutModal.DetailCodes | src/components/sections/sport-venue/CheckoutModal.tsx:231-283 | the detail choices are exactly the method's bank, provider and store codes |
| CheckoutModal.OfferedMethods | src/components/sections/sport-venue/CheckoutModal.tsx:205-206 | exactly the enabled methods are drawn |
| CheckoutModal.OfferedMethodsAppend | src/components/sections/sport-venue/CheckoutModal.tsx:205 | the methods keep the server's order |
| CheckoutModal.PaymentMethodsView | src/components/sections/sport-venue/CheckoutModal.tsx:201-292 | loading wins; a missing list shows the failure message; an offered list is exactly the enabled methods of the fetched list, in its order (OfferedMethods) |
| CheckoutModal.PaymentSelection.constructor | src/components/sections/sport-venue/CheckoutModal.tsx:56-59 | no type and no detail chosen |
| CheckoutModal.PaymentSelection.ChooseType | src/components/sections/sport-venue/CheckoutModal.tsx:217-220 | the type is set and the detail reset to "" |
| CheckoutModal.PaymentSelection.ChooseDetails | src/components/sections/sport-venue/CheckoutModal.tsx:238-276 | the detail is set and the type kept |
| CheckoutModal.ChooseTypeAfterDetails | src/components/sections/sport-venue/CheckoutModal.tsx:217-229 | changing the type after picking a detail clears the detail and hides the old method's choices |
| CheckoutModal.CancelEnabled | src/components/sections/sport-venue/CheckoutModal.tsx:300 | when Cancel is disabled, Complete Payment is disabled whatever the form holds |
| CheckoutModal.SubmitEnabled | src/components/sections/sport-venue/CheckoutModal.tsx:307 | an enabled submit button reads `Complete Payment` |
| CheckoutModal.SubmitCaption | src/components/sections/sport-venue/CheckoutModal.tsx:309 | `Processing...` exactly while submitting, `Complete Payment` exactly otherwise |
| CheckoutModal.SubmitIgnoresDetails | src/components/sections/sport-venue/CheckoutModal.tsx:300-307 | a first name, an email and a type enable submit with no detail chosen; submitting disables both buttons |
| PaymentConfirmation.PaymentMethodName | src/components/sections/sport-venue/PaymentConfirmationModal.tsx:63-76 | the four known keys get their labels, every other key is shown as it is |
| PaymentConfirmation.UnitPrice | src/components/sections/sport-venue/PaymentConfirmationModal.tsx:120 | the sub-facility's hourly price, or 0 without a sub-facility |
| PaymentConfirmation.Subtotal | src/components/sections/sport-venue/PaymentConfirmationModal.tsx:108-139 | price × tickets in ticket mode (facility "1" with a non-zero ticket count), price × hours otherwise, 0 without a sub-facility |
| PaymentConfirmation.SummariesAgreeOnTickets | src/components/sections/sport-venue/PaymentConfirmationModal.tsx:108 | ticket mode implies the checkout modal also shows tickets; a count of 0 shows tickets there but hours here |
| PaymentConfirmation.ActionsEnabled | src/components/sections/sport-venue/PaymentConfirmationModal.tsx:87-218 | the close cross, Batal and Konfirmasi are enabled exactly when the checkout modal's Cancel is |
| PaymentConfirmation.ConfirmCaption | src/components/sections/sport-venue/PaymentConfirmationModal.tsx:220 | `Memproses...` exactly while the buttons are disabled, `Konfirmasi & Bayar` exactly while they are enabled |
| TransactionHistory.StatusBadge | src/components/sections/TransactionHistory.tsx:26-38 | ignoring case: success, pending and expired each have their own badge; failed, deny and cancelled share red; refunded and partial_refunded share blue; everything else is neutral |
| TransactionHistory.ClassNameInjective | src/components/sections/TransactionHistory.tsx:28-36 | no two badges share a class list |
| TransactionHistory.StatusColor | src/components/sections/TransactionHistory.tsx:26-38 | the class list returned is that of exactly one badge, the status's own |
| TransactionHistory.MissingStatusIsNeutral | src/components/sections/TransactionHistory.tsx:27-36 | a missing status gets the neutral badge |
| TransactionHistory.StatusBadgeIgnoresCase | src/components/sections/TransactionHistory.tsx:27 | lower-casing a status first changes neither its badge nor its classes |
| TransactionHistory.UpperCaseSuccess | src/components/sections/TransactionHistory.tsx:27-28 | `SUCCESS` gets the success badge |

## Left out

- Network I/O is not modelled: `fetch`, the abort controller and `ApiConfig.getTimeout` (the timeout length). Each request's outcome is a `Response` parameter. The parallel `Promise.all` of the food-court section becomes the sequence of answers it resolves to.
- JSON is not modelled. Encoding is assumed faithful, so a written entry reads back as itself. A non-empty stored string that does not parse is the `Corrupt` entry (an empty one is an absent key), and a parse result is the `ParsedJson` parameter of `ParseAndFormatImageList`.
- The model assumes client-side rendering: the `typeof window` guards always see a browser.
- The calls that write to storage (`setItem`, `removeItem`) are assumed to succeed. Their swallowed exceptions are not modelled.
- Cache records whose JSON lacks `expiresAt` are not modelled; such a record would give `NaN` arithmetic. Every valid entry carries a number, and 0 counts as "unset", as in the sweep's truthiness test.
- `parseInt` of a non-numeric NEXT_PUBLIC_CACHE_TIMEOUT (`NaN`) is not modelled.
- Cache.SessionCache.HasValidItem, Cache.CacheInfoConsistent, WelcomeData.WelcomeDataHook.GetCacheInfo and RestaurantDetail.RestaurantDetailHook.GetCacheInfo: stored data that is JSON `null` is not modelled, because `Entry` has no null data value. In the source, a live entry whose `data` is null makes `getItem` return null. So `hasValidItem` and `isCached` are false while `getRemainingTime` is positive, and the consistency stated by `CacheInfoConsistent` fails for such an entry. The model treats every live entry as valid.
- JavaScript numbers are modelled as unbounded integers: ids, ticket counts, prices, timestamps, the custom timeout and HTTP statuses. Fractional values and the loss of precision beyond 2^53 are not modelled.
- WelcomeData.WelcomeDataHook.FetchData and RestaurantDetail.RestaurantDetailHook.FetchRestaurantDetail: a cached value that is itself falsy (null, 0, "", false) is treated as a hit, while the hooks' `if (cachedData)` would refetch.
- The mount effect of `useWelcomeData` is left out. It starts `fetchData()` and then runs `clearExpired()` while that request is in flight. The interleaving of the two is not modelled; each operation is modelled alone.
- Text.ToLower: `toLowerCase` is modelled for ASCII letters only.
- Html.ReplaceMdash: the replacement is the three characters U+00E2 U+20AC U+201D that the source text spells out.
- The food-court fetch URL is left out. It is built from NEXT_PUBLIC_API_BASE_URL without the default.
- Floating point and locale formatting are left out: the 10% discount lines of the confirmation modal, and `toLocaleString`.
- The following are props defined outside the modelled files, so they are left out: slot consecutiveness, `handleTimeSlotClick`, `calculateTotalPrice` and `getTimeRangeDisplay`. The modal's `isOpen` early return is also left out.
- Presentation-only parts are not modelled beyond the slot highlight, the badge classes and the button captions above: the remaining class names, layout and the other presentational sections.
- Navigation and the `setSelectedTimesForTicket` window event sent at ticket checkout are not modelled.
- The transaction history's `localStorage` load is I/O and is left out.
