# Muffa fridge store — a Dafny model

Muffa is a client-side food-inventory tracker. Its one piece of logic is
the fridge store (`useFridge`). The store holds an immutable `FridgeState`:
the food items in insertion order, a nullable user, the settings and the
current tab. It also computes two things from an item's expiry date: the
number of days left and a status bucket. The screens add a thin layer of
pure logic on top. HomeScreen sorts the expiring items into buckets.
FridgeScreen searches and toggles the layout. FoodCard picks badge text and
colour. AddScreen validates the form. AccountScreen and SettingsScreen build
the partial records they pass to the store.

This project models that logic as pure functions over immutable datatypes:

- `food.dfy` (module `Food`): the records. It also defines
  `SettingsPatch` and `UserPatch`, which model the `Partial<…>` objects the
  screens pass to the store.
- `fridge.dfy` (module `Fridge`): the default state, the load step, every
  store transition, and the date arithmetic and classification.
- `home_screen.dfy`, `food_card.dfy`, `fridge_screen.dfy`, `add_screen.dfy`,
  `account_screen.dfy`, `settings_screen.dfy`: one module per screen or
  component.
- `seqs.dfy` (module `Seqs`): an order-preserving `Filter`, the model of
  `Array.prototype.filter`. Its contract gives the exact multiset of kept
  elements and says they form a subsequence of the input.
- `text.dfy` (module `Text`): the string built-ins the screens use. These are
  `trim` (with ECMAScript's exact white-space set), ASCII case mapping,
  `includes`, decimal formatting, `parseInt` on digit strings, and `join`.
- `dates.dfy` (module `Dates`): calendar dates as milliseconds since the
  epoch. It holds the days-from-civil conversion that gives the sentinel
  date 2099-12-31 its value.
- `wrappers.dfy` (module `Wrappers`): `Option`, used for optional fields, the
  nullable user and absent keys in partial records.

Time is an integer number of milliseconds since the epoch. The caller
passes one `now` to every operation. Generated ids are parameters too.
A date-only string such as `2099-12-31` stands for midnight UTC of that day,
which is how `new Date(...)` reads it.

Three facts about the code shape the model:

- The expiry date stored for an empty date field is 2099-12-31
  (`Example/components/screens/AddScreen.tsx:63`).
- `updateSettings` (`Example/hooks/useFridge.ts:74-80`) has no range check.
  It stores any `homeDaysFilter`, including non-positive values. Only the
  settings screen, which offers just 3, 5, 7, 14 and 30, keeps the value
  positive (`SettingsScreen.ScreenKeepsFilterPositive`, and
  `SettingsScreen.StoreAcceptsNonPositive` for the store).
- Item ids are never checked for uniqueness. The lemmas that need distinct
  ids therefore take freshness or uniqueness as a hypothesis.

## Model

| member | source | states |
|---|---|---|
| Fridge.DefaultState | Example/hooks/useFridge.ts:8-26 | initial state: no items, tab home, settings it/grid/5, a user named "Utente" without email holding the given generated ids |
| Fridge.Load | Example/hooks/useFridge.ts:29-41 | a blob that parsed is adopted verbatim; a missing or unparseable blob leaves the default state |
| Fridge.AddedByName | Example/hooks/useFridge.ts:55 | addedBy is the user's name when a user exists and the name is non-empty, otherwise "Utente"; it is never empty |
| Fridge.AddFoodItem | Example/hooks/useFridge.ts:49-61 | exactly one item is appended at the end and the earlier items are unchanged and in order; the new item keeps the caller's name, category, expiry date and image, gets the given id, addedAt = now and addedBy as above; user, settings and tab are unchanged |
| Fridge.AddThenFind | Example/hooks/useFridge.ts:49-61 | after an add under a fresh id, looking that id up finds exactly the new item, even when earlier items share ids among themselves |
| Fridge.AddKeepsUnique | Example/hooks/useFridge.ts:49-61 | adding under a fresh id to a list with distinct ids keeps the ids distinct |
| Seqs.Filter | Example/hooks/useFridge.ts:70 | the generic `Array.filter`: keeps exactly the elements satisfying the predicate, each with its full multiplicity, as a subsequence in the original order |
| Fridge.RemoveFoodItem | Example/hooks/useFridge.ts:66-72 | keeps exactly the items whose id differs, each with all its copies, as a subsequence in the original order; no item with that id remains; an absent id leaves the state unchanged; other fields are untouched |
| Fridge.RemoveIdempotent | Example/hooks/useFridge.ts:66-72 | removing the same id twice equals removing it once |
| Fridge.RemoveUndoesAdd | Example/hooks/useFridge.ts:49-72 | adding under a fresh id and then removing that id gives back the original state |
| Fridge.RemoveKeepsUnique | Example/hooks/useFridge.ts:66-72 | removal preserves uniqueness of ids |
| Fridge.MergeSettings | Example/hooks/useFridge.ts:78 | the spread merge: each field takes the patch's value when present, the old value otherwise |
| Fridge.UpdateSettings | Example/hooks/useFridge.ts:74-80 | overwrites exactly the fields present in the patch, keeps the others, applies no range check, and leaves items, user and tab unchanged |
| Fridge.UpdateSettingsCompose | Example/hooks/useFridge.ts:74-80 | two successive updates equal one update with the patches merged, the later one winning per field |
| Fridge.UpdateSettingsIdempotent | Example/hooks/useFridge.ts:74-80 | applying a patch twice equals applying it once; the empty patch is the identity |
| Fridge.SetCurrentTab | Example/hooks/useFridge.ts:82-85 | sets the tab and changes nothing else |
| Fridge.MergeUser | Example/hooks/useFridge.ts:91 | the spread merge of a user patch, where an explicit undefined email clears the email |
| Fridge.UpdateUser | Example/hooks/useFridge.ts:87-93 | merges the patch into a present user field by field; a null user stays null; items (and so every addedBy), settings and tab are unchanged |
| Fridge.UpdateUserIdempotent | Example/hooks/useFridge.ts:87-93 | applying a user patch twice equals applying it once; the empty patch is the identity |
| Fridge.DaysUntilExpiry | Example/hooks/useFridge.ts:107-113 | the result is the ceiling of (expiry − now) / 86 400 000: the least integer d with d·day ≥ expiry − now |
| Fridge.GetExpiryStatus | Example/hooks/useFridge.ts:115-122 | total; expired iff expiry − now ≤ −1 day, today iff in (−1 day, 0], urgent iff in (0, 2 days], warning iff in (2, 5 days], fresh beyond; the thresholds are fixed and independent of homeDaysFilter |
| Fridge.StatusByDays | Example/hooks/useFridge.ts:115-122 | the same buckets stated on the day count: < 0, = 0, 1..2, 3..5, > 5 |
| Fridge.ExpiringItems | Example/hooks/useFridge.ts:96-105 | the order-preserving subsequence of items whose expiry is ≤ now + homeDaysFilter · 86 400 000 ms, each kept item with all its copies |
| Fridge.ExpiringByDays | Example/hooks/useFridge.ts:96-113 | an item is in the expiring list iff it is stored and its day count is ≤ homeDaysFilter (both directions) |
| Fridge.ExpiringMonotone | Example/hooks/useFridge.ts:96-105 | raising homeDaysFilter never removes an item: the old list is a subsequence of the new one |
| Fridge.BoundaryExamples | Example/hooks/useFridge.ts:96-122 | with now at 2024-06-10: 06-09 expired, 06-10 today, 06-12 urgent, 06-15 warning, 06-16 fresh; with a 5-day filter 06-15 is expiring and 06-16 is not |
| Food.NavigationTabsAreFive | Example/types/food.ts:24 | the tab type has exactly five distinct values: home, fridge, add, settings, account |
| HomeScreen.ExpiredItems | Example/components/screens/HomeScreen.tsx:25 | exactly the expiring items with days < 0 (expiry − now ≤ −1 day), in order, with multiplicities kept |
| HomeScreen.UrgentItems | Example/components/screens/HomeScreen.tsx:26-29 | exactly the expiring items with 0 ≤ days ≤ 2, so items due today are included, in order, with multiplicities kept |
| HomeScreen.WarningItems | Example/components/screens/HomeScreen.tsx:30-33 | exactly the expiring items with 2 < days ≤ settings.homeDaysFilter (the setting, not the fixed 5), in order, with multiplicities kept |
| HomeScreen.View | Example/components/screens/HomeScreen.tsx:25-150 | the all-clear view (showing the filter days) appears iff nothing is expiring; otherwise the expired, urgent and warning lists are the subsequences of the expiring items with days < 0, 0 ≤ days ≤ 2 and 2 < days ≤ homeDaysFilter, each with multiplicities kept |
| HomeScreen.BucketsDisjoint | Example/components/screens/HomeScreen.tsx:25-33 | no item belongs to two buckets |
| HomeScreen.EmptyExpiring | Example/components/screens/HomeScreen.tsx:25-49 | no expiring items gives three empty buckets and the all-clear branch |
| HomeScreen.ExpiringSplitsIntoBuckets | Example/components/screens/HomeScreen.tsx:25-33 | every item of the store's expiring list (computed with the same now) lands in a bucket, and the three bucket sizes add up to the list's length, so each item is in exactly one |
| HomeScreen.BucketStatuses | Example/components/screens/HomeScreen.tsx:25-33 | expired-bucket items have status expired; urgent-bucket items have status today or urgent; warning-bucket items have status warning or fresh, and fresh only when homeDaysFilter > 5 |
| HomeScreen.Cn | Example/components/screens/HomeScreen.tsx:156-158 | the result is empty iff every class name is empty |
| HomeScreen.CnSnoc | Example/components/screens/HomeScreen.tsx:156-158 | one more class leaves the result unchanged when empty, and otherwise is appended after a single space, or stands alone when nothing came before; class names may contain spaces |
| HomeScreen.CnPair | Example/components/screens/HomeScreen.tsx:156-158 | two non-empty classes give the first, one space, then the second |
| HomeScreen.BucketListClasses | Example/components/screens/HomeScreen.tsx:85-88 | each bucket list's class is "grid gap-3 grid-cols-2" in the grid layout and "grid gap-3 grid-cols-1" in the list layout |
| FoodCard.StatusColor | Example/components/FoodCard.tsx:18-31 | expired, today, urgent and warning each get their own class string; fresh, and only fresh, gets the default |
| FoodCard.StatusColorInjective | Example/components/FoodCard.tsx:18-31 | different statuses never share a colour |
| FoodCard.StatusText | Example/components/FoodCard.tsx:33-46 | expired gives "Scaduto {abs(days)} giorni fa", today gives "Scade oggi" whatever days is, every other status gives "{days} giorni" |
| FoodCard.ExpiredTextShowsMagnitude | Example/components/FoodCard.tsx:35-36 | the expired text never contains a minus sign, and its number parses back to abs(days) |
| FoodCard.TodayTextIgnoresDays | Example/components/FoodCard.tsx:37-38 | the today text does not depend on days |
| FoodCard.EffectiveLayout | Example/components/FoodCard.tsx:53 | a missing layout means grid |
| FoodCard.Initial | Example/components/FoodCard.tsx:66 | the avatar is one character iff the name is non-empty, never a lower-case ASCII letter, and equal to the name's first character up to case |
| FoodCard.Card | Example/components/FoodCard.tsx:53-135 | the list rendering is chosen iff layout is "list"; the badge colour follows the item's status; the badge text is the status text for the item's status and day count, so it reads "Scade oggi" iff the status is today and starts with "Scaduto " iff the item expired at least one day ago |
| FridgeScreen.FilteredItems | Example/components/screens/FridgeScreen.tsx:32-35 | an order-preserving subsequence of items with multiplicities kept; an item is kept iff the lower-cased query occurs in its lower-cased name or in its category when present; an item without a category is kept only through its name |
| FridgeScreen.EmptyQueryKeepsAll | Example/components/screens/FridgeScreen.tsx:32-35 | the empty query keeps every item |
| FridgeScreen.ToggleLayout | Example/components/screens/FridgeScreen.tsx:37-41 | the patch sets only the layout, to the other value |
| FridgeScreen.ToggleTwice | Example/components/screens/FridgeScreen.tsx:37-41 | toggling twice through the store restores the original state |
| FridgeScreen.CountLabel | Example/components/screens/FridgeScreen.tsx:66 | the count line opens with decimal digits, without leading zeros, that parse back to the number of items, followed by a space, the noun for that number and " in totale" |
| FridgeScreen.CountNoun | Example/components/screens/FridgeScreen.tsx:66 | the noun is singular "alimento" iff there is exactly one item, "alimenti" otherwise |
| FridgeScreen.View | Example/components/screens/FridgeScreen.tsx:43-122 | an empty fridge gives the empty message; otherwise the count line of all items is shown, above either the no-results message carrying the query when nothing matches, or exactly the filtered items in the settings' layout |
| AddScreen.Validate | Example/components/screens/AddScreen.tsx:49-69 | a blank name is rejected; otherwise the name is the trimmed input, the category is the trimmed input or absent when that is blank, an empty date becomes 2099-12-31 and a given date passes through, and there is no image |
| AddScreen.Submit | Example/components/screens/AddScreen.tsx:46-96 | a blank name changes neither store nor form; otherwise the validated item is added, name, category and date are cleared (the recognised list is kept) and the tab becomes fridge |
| AddScreen.SubmitAddsOne | Example/components/screens/AddScreen.tsx:46-96 | a successful submit appends one item carrying the trimmed name and the given id, switches to the fridge tab and changes nothing else |
| AddScreen.DefaultExpiryIsFarFuture | Example/components/screens/AddScreen.tsx:63 | the sentinel is day 47 481 after the epoch (2099-12-31), and an undated item is fresh until five days before it |
| AddScreen.ApplySuggestion | Example/components/screens/AddScreen.tsx:98-102 | a quick-add sets the name and category only |
| AddScreen.SuggestionThenSubmit | Example/components/screens/AddScreen.tsx:26-33 | submitting after any quick-add succeeds and adds that suggestion's name and category unchanged |
| AddScreen.SuggestedDate | Example/components/screens/AddScreen.tsx:123-125 | the suggested date is a UTC midnight, and it is the day that contains now + days |
| AddScreen.BestFrom | Example/components/screens/AddScreen.tsx:116-118 | the reduce from any prefix maximum ends at the first food of maximal confidence |
| AddScreen.BestFood | Example/components/screens/AddScreen.tsx:115-120 | for a non-empty list, the chosen food has maximal confidence and every earlier food strictly less: ties go to the first |
| AddScreen.FirstBestUnique | Example/components/screens/AddScreen.tsx:115-120 | that choice is unique |
| AddScreen.ImageAnalyzed | Example/components/screens/AddScreen.tsx:109-127 | the list is stored; an empty list leaves name, category and date unchanged; a non-empty one fills them from the first most confident food |
| AddScreen.SelectRecognized | Example/components/screens/AddScreen.tsx:129-141 | name, category and suggested date come from the chosen food and the recognised list is cleared |
| AccountScreen.IsLoggedIn | Example/components/screens/AccountScreen.tsx:83 | logged in iff a user exists whose email is neither null nor undefined; an empty email still counts (see LogoutEffect and LoginEffect) |
| AccountScreen.SaveNamePatch | Example/components/screens/AccountScreen.tsx:26-37 | a blank name gives no patch; otherwise the patch holds only the trimmed, non-empty name |
| AccountScreen.SaveName | Example/components/screens/AccountScreen.tsx:26-37 | a blank name leaves the store unchanged; otherwise a present user gets the trimmed name and keeps id, email and fridge id; a null user stays null; items, settings and tab are untouched |
| AccountScreen.RenameThenAdd | Example/components/screens/AccountScreen.tsx:37 | renaming keeps the stored items and their addedBy, and the next item added carries the new name |
| AccountScreen.LogoutPatch | Example/components/screens/AccountScreen.tsx:70-74 | the patch sets name "Utente", email undefined and the new id, and has no fridge id |
| AccountScreen.LoginPatch | Example/components/screens/AccountScreen.tsx:51-57 | the patch sets the login name, the email and the new id, and has no fridge id |
| AccountScreen.LogoutEffect | Example/components/screens/AccountScreen.tsx:68-83 | after logout nobody is logged in; a present user keeps the fridge id and gets name "Utente" and the new id |
| AccountScreen.LoginEffect | Example/components/screens/AccountScreen.tsx:46-83 | after the login patch the user is logged in iff a user existed, and the fridge id is kept |
| AccountScreen.LoginThenLogout | Example/components/screens/AccountScreen.tsx:46-83 | login followed by logout leaves nobody logged in and the fridge id unchanged |
| SettingsScreen.OptionValues | Example/components/screens/SettingsScreen.tsx:153-168 | the offered options parse to 3, 5, 7, 14 and 30 |
| SettingsScreen.PatchFor | Example/components/screens/SettingsScreen.tsx:101-157 | a language change sends only the language, a layout change only the layout, a days change only homeDaysFilter, set to parseInt of the chosen option, which is one of 3, 5, 7, 14, 30 |
| SettingsScreen.ScreenKeepsFilterPositive | Example/components/screens/SettingsScreen.tsx:153-168 | every action on the screen keeps a positive homeDaysFilter positive |
| SettingsScreen.StoreAcceptsNonPositive | Example/hooks/useFridge.ts:74-80 | the store sets homeDaysFilter to −1 when asked: no range check |
| SettingsScreen.FridgeIdPatch | Example/components/screens/SettingsScreen.tsx:70-72 | the patch holds only the fridge id |
| SettingsScreen.CopyFridgeId | Example/components/screens/SettingsScreen.tsx:29-34 | nothing happens iff there is no user or the fridge id is empty; otherwise the fridge id is copied |
| SettingsScreen.ShareFridgeId | Example/components/screens/SettingsScreen.tsx:49-64 | nothing happens iff there is no user or the fridge id is empty; otherwise the native share gets the title and the id-bearing text, or the copy runs when sharing is unavailable |
| SettingsScreen.ClearedIdDisablesSharing | Example/components/screens/SettingsScreen.tsx:30-72 | after the fridge-id field is cleared, copy and share do nothing |
| Text.Trim | Example/components/screens/AddScreen.tsx:49-67 | the result is a slice of the input with only white space outside it, starts and ends with non-space when non-empty, and is empty iff the input is blank |
| Text.TrimIdempotent | Example/components/screens/AddScreen.tsx:66 | trimming twice equals trimming once |
| Text.Lower | Example/components/screens/FridgeScreen.tsx:33-34 | same length as the input, each character lower-cased on its own |
| Text.Includes | Example/components/screens/FridgeScreen.tsx:33-34 | true iff the needle occurs at some index of the haystack |
| Text.IntToString | Example/components/FoodCard.tsx:39-43 | a non-empty decimal string that starts with '-' iff the number is negative, followed by the digits of its magnitude |
| Text.Join | Example/components/screens/HomeScreen.tsx:157 | no parts give the empty string; otherwise the result starts with the first part |
| Text.JoinSnoc | Example/components/screens/HomeScreen.tsx:157 | joining one more part appends the separator and the part, or gives the part alone when there were none |
| Text.NatToString | Example/components/FoodCard.tsx:36 | the decimal text of a natural number, as `${Math.abs(days)}` and `{items.length}` print it: non-empty, digits only, no leading zero unless the number is 0 |
| Text.ParseNat | Example/components/screens/SettingsScreen.tsx:154 | `parseInt` of a non-empty digit string: k digits give a value below 10^k, and at least 10^(k-1) when the first digit is not 0 |
| Text.ParseNatToString | Example/components/screens/SettingsScreen.tsx:154 | parsing the decimal form of n gives n |

## Left out

- JSON and `localStorage` (Example/hooks/useFridge.ts:29-47): serialisation and storage are foreign calls. Loading is modelled as `Option<FridgeState>`, where `None` stands for a missing blob, an empty blob or a parse failure. A blob that parses into something other than a well-typed state cannot be expressed. The save-on-every-change effect is not modelled.
- Id generation with `Math.random` and `Date.now` (Example/hooks/useFridge.ts:15-17 and 53, Example/components/screens/AccountScreen.tsx:54, 73): ids are parameters, and the code never checks them for uniqueness.
- Date strings, time zones, `toISOString` and `toLocaleDateString`: dates are integers of milliseconds. Local time is taken to be UTC in `AddScreen.SuggestedDate`. Invalid date strings, whose arithmetic yields NaN, are not represented.
- Floating point: timestamps, `homeDaysFilter` and day counts are integers, and confidences are exact reals. A fractional or NaN `homeDaysFilter` from a hand-edited blob and the `-0` of `Math.ceil` are not represented.
- Text.Lower: covers ASCII only, not full Unicode `toLowerCase`.
- Text.ParseNat: defined only on non-empty strings of decimal digits. `parseInt` of other strings gives NaN or parses a prefix, which the model leaves out because the only caller passes one of the five offered options.
- FoodCard.Initial: upper-cases ASCII only, not full Unicode `toUpperCase`. It also takes the first Unicode character of the name, whereas `charAt(0)` takes one UTF-16 code unit: for a name that starts outside the Basic Multilingual Plane, such as an emoji, the code gives a lone high surrogate and the model gives the whole character.
- A user patch cannot set `name`, `id` or `fridgeId` to `undefined`. No caller does this; only `email` is ever cleared.
- The `try`/`catch` in `handleSubmit` and the `isLoading` flag: `onAddItem` cannot fail in the model.
- Example/app/api/analyze-food/route.ts: the external vision API call and its random fallback list. The recognised foods enter the model as a parameter.
- Example/components/ImageCapture.tsx, Example/components/MuffaApp.tsx, Example/components/BottomNavigation.tsx and Example/app/layout.tsx: camera, canvas, fetch, wiring and markup.
- JSX rendering, toasts, `console.log`, `setTimeout`, the clipboard and share APIs, the editing flag of the account screen, and React's hook closure and staleness semantics.
