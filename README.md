# ChillCheck business rules in Dafny

ChillCheck is an iOS app that tracks what is in a refrigerator. For each item
it records a name, a quantity, a category and an optional expiration date. It
buckets items by how soon they expire, counts the urgent ones on the menu
button, writes the daily reminder text, and keeps a history of removals and
updates. This project models the rules behind those screens, with the UIKit
work stripped away, and proves what they guarantee.

Modules, one per source concern:

- `FridgeItems`: the `FridgeItem` record and its constructor defaults. `UUID()` is a `UuidSource` object that never hands out the same id twice. Also the list of predefined categories.
- `Defaults`: a `UserDefaults` object. It holds a map from key to stored value, with the `data(forKey:)`, `integer(forKey:)` and `bool(forKey:)` readings.
- `DataManager`: `FridgeDataManager`, which saves and loads the whole item list as one blob under the key `"FridgeItems"`. The JSON codec is a pair of partial functions (`Codec`), and `RoundTrips(codec)` is the hypothesis that decoding undoes encoding. History entries and the `addHistoryItem` calls are also here.
- `Expiry`: the per-item date predicates, and sorting by expiration date with `Date.distantFuture` for undated items. Calendar queries are read off a `Clock`, which gives:
  - `daysUntil(date)`, standing for `dateComponents([.day], from: now, to: date).day`;
  - `isSameDayAsToday(date)`, standing for `isDate(_:inSameDayAs:)`.
- `Notifications`: the reminder title and body, the badge count, the stored reminder time with its 8:00 default, `setNotificationTime`, and the fire-date rule.
- `Suggestions`: the "Use Today" screen. It covers bucketing, the section queries, the expiry text of a row, and remove/update.
- `AddEditItem`: form validation and `saveButtonTapped`.
- `FridgeScreen`: the main list screen's add, update, load and save.
- `HistoryScreen`: the segment filter and clearing the history.
- `Menu`: the urgent-count loop and the "Use Today (N)" title.
- `Wrappers`, `Seqs` and `Text` are support modules:
  - `Wrappers` has `Option`.
  - `Seqs` has filter, count and subsequence.
  - `Text` has decimal rendering, and `Int(String)` as `ParseInt`: optional sign, ASCII digits, 64-bit range.

Screens that change their own fields are classes with `modifies` clauses.
Pure logic is functions and lemmas. The loops in `categorizeItems` and
`updateSuggestionsButton` are `for` loops proved against `Filter` and `Count`.

Some behaviours of the code are easy to misread. The model states them as the
code has them:

- The form uses `"Other"` only when the category field has no text (`categoryTextField.text ?? "Other"`). An empty string is saved as the category.
- The edit flow fills the form from the existing item, so it reads as if editing keeps the item's identity. But saving always builds a new `FridgeItem`, so an edited item gets a new id and its `isFavorite` resets to false.
- The form saves without calling `addHistoryItem`. Removing and updating from the "Use Today" screen do call it.
- No history cap and no ordering rule are visible in the code, so none is modelled.
- Two reminder bodies start with a space (`" Milk, Eggs expire today!"`, `" Milk expires soon! Plan to use it."`), exactly as the code builds them.
- An invalid form is rejected silently. No message is shown.

## Model

| member | source | states |
|---|---|---|
| FridgeItems.NewFridgeItem | ChillCheck/ChillCheck/HistoryItem.swift:19-26 | the new item has an id never issued before, and copies name, quantity, date, category and favourite flag from the arguments |
| FridgeItems.NewFridgeItemWithDefaults | ChillCheck/ChillCheck/HistoryItem.swift:19 | omitted arguments give no expiration date, category "Other" and isFavorite false |
| FridgeItems.UuidSource.NewId | ChillCheck/ChillCheck/HistoryItem.swift:20 | each id is new, and the set of issued ids grows by exactly that id |
| FridgeItems.TwoNewItemsHaveDistinctIds | ChillCheck/ChillCheck/HistoryItem.swift:19-20 | two items constructed in turn never share an id |
| FridgeItems.PredefinedCategoriesShape | ChillCheck/ChillCheck/HistoryItem.swift:60-71 | ten categories, pairwise distinct, the last one "Other" |
| Defaults.DataFor | ChillCheck/ChillCheck/HistoryItem.swift:47 | a data value is returned exactly when the key holds data |
| Defaults.IntegerFor | ChillCheck/ChillCheck/NotificationManager.swift:45 | an absent key reads as 0, and a stored integer reads as itself |
| Defaults.BoolFor | ChillCheck/ChillCheck/NotificationManager.swift:31 | an absent key reads as false, and a stored flag reads as itself |
| DataManager.LoadFrom | ChillCheck/ChillCheck/HistoryItem.swift:46-58 | no data, or data that fails to decode, gives the empty list; any other result is exactly the decoded list, never a part of it |
| DataManager.SaveTo | ChillCheck/ChillCheck/HistoryItem.swift:37-44 | a failed encode leaves the store unchanged; otherwise the list's key holds the encoding; every other key is untouched |
| DataManager.SaveThenLoad | ChillCheck/ChillCheck/HistoryItem.swift:37-58 | with a round-tripping codec, loading after a successful save yields exactly the saved list |
| DataManager.SaveLoadedIsStable | ChillCheck/ChillCheck/HistoryItem.swift:46-53 | saving what was loaded does not change what a later load returns |
| DataManager.SaveIdempotent | ChillCheck/ChillCheck/HistoryItem.swift:38-40 | saving the same list twice leaves the store as saving it once |
| DataManager.FridgeDataManager.SaveFridgeItems | ChillCheck/ChillCheck/HistoryItem.swift:37-44 | the shared store becomes the result of saving the list into it |
| DataManager.FridgeDataManager.LoadFridgeItems | ChillCheck/ChillCheck/HistoryItem.swift:46-58 | no data or a failed decode gives the empty list; a successful decode gives exactly the decoded list |
| DataManager.FridgeDataManager.AddHistoryItem | ChillCheck/ChillCheck/SuggestionsViewController.swift:425 | exactly one call (item, action) is appended to the log; what it does to the stored history is left open |
| DataManager.FridgeDataManager.LoadHistoryItems | ChillCheck/ChillCheck/HistoryViewController.swift:47 | returns the history as last stored |
| DataManager.FridgeDataManager.SaveHistoryItems | ChillCheck/ChillCheck/HistoryViewController.swift:90 | the stored history becomes the given list; the call log is untouched |
| Expiry.SameDayIsWithinThreeDays | ChillCheck/ChillCheck/NotificationManager.swift:227-242 | if same-day implies 0 days, an item expiring on the same day expires today and within three days |
| Expiry.InsertByExpiration | ChillCheck/ChillCheck/SuggestionsViewController.swift:80 | inserting into a date-sorted list keeps it sorted and adds exactly that item |
| Expiry.SortByExpiration | ChillCheck/ChillCheck/SuggestionsViewController.swift:80-82 | the result is sorted ascending by date (undated items as the distant future) and is a permutation of the input |
| Notifications.ItemsExpiringToday | ChillCheck/ChillCheck/NotificationManager.swift:222-231 | exactly the dated items on the same day as today, in input order, as many as qualify |
| Notifications.ItemsExpiringSoon | ChillCheck/ChillCheck/NotificationManager.swift:233-243 | exactly the dated items with 0 to 3 days left, in input order, as many as qualify |
| Notifications.ExpiringMultiplicity | ChillCheck/ChillCheck/NotificationManager.swift:222-243 | each qualifying item occurs in the today and soon lists as often as in the input, and no other item occurs |
| Notifications.UrgentItemsCount | ChillCheck/ChillCheck/NotificationManager.swift:169-179 | the number of dated items with at most two days left |
| Notifications.Names | ChillCheck/ChillCheck/NotificationManager.swift:265 | one name per item, position by position |
| Notifications.GenerateNotificationContent | ChillCheck/ChillCheck/NotificationManager.swift:252-286 | the title is "Chill Check" on every path |
| Notifications.AllFreshExactly | ChillCheck/ChillCheck/NotificationManager.swift:256-258 | the "all fresh" body appears if and only if no item is same-day and none has 0 to 3 days left |
| Notifications.TodayItemsTakePriority | ChillCheck/ChillCheck/NotificationManager.swift:260-274 | once some item expires today, the content depends only on the items expiring today |
| Notifications.OneItemExpiringToday | ChillCheck/ChillCheck/NotificationManager.swift:261-263 | a single item today gives "{name} expires today! Consider using it soon." |
| Notifications.SeveralItemsExpiringToday | ChillCheck/ChillCheck/NotificationManager.swift:264-271 | two or three today give a space, the names joined by ", ", then " expire today!" |
| Notifications.ManyItemsExpiringToday | ChillCheck/ChillCheck/NotificationManager.swift:264-269 | more than three today give the first three names and " and N more items expire today!" with N the rest |
| Notifications.OneItemExpiringSoon | ChillCheck/ChillCheck/NotificationManager.swift:276-279 | with none today and one soon: " {name} expires soon! Plan to use it." |
| Notifications.SeveralItemsExpiringSoon | ChillCheck/ChillCheck/NotificationManager.swift:280-281 | with none today and several soon: "{count} items are expiring soon. Check your fridge!" |
| Notifications.FallbackBodyUnreachable | ChillCheck/ChillCheck/NotificationManager.swift:285 | every body ends in '.' or '!', so the fallback body, which ends in a space, is never produced |
| Notifications.TodayItemsAreSoonItems | ChillCheck/ChillCheck/NotificationManager.swift:253-256 | if same-day implies 0 days, every item expiring today is also a soon item |
| Notifications.UrgentCountIgnoresUndated | ChillCheck/ChillCheck/NotificationManager.swift:175 | adding an undated item does not change the badge count |
| Notifications.UrgentCountOfDatedItem | ChillCheck/ChillCheck/NotificationManager.swift:175-177 | adding a dated item raises the count by one exactly when it has at most two days left, expired included |
| Notifications.MilkExpiresToday | ChillCheck/ChillCheck/NotificationManager.swift:260-263 | milk alone, due today, gives "Milk expires today! Consider using it soon." |
| Notifications.MilkAndEggsButNotCheese | ChillCheck/ChillCheck/NotificationManager.swift:264-271 | milk and eggs due today with cheese four days out give " Milk, Eggs expire today!" |
| Notifications.WithDefaultTime | ChillCheck/ChillCheck/NotificationManager.swift:20-27 | when no hour is stored, hour 8 and minute 0 are written; otherwise nothing changes; every other key is kept |
| Notifications.DefaultTimeIdempotent | ChillCheck/ChillCheck/NotificationManager.swift:23-26 | running the default-time logic twice equals running it once |
| Notifications.NotificationManager.constructor | ChillCheck/ChillCheck/NotificationManager.swift:20-27 | the store after `init` is the default-time result of the store before |
| Notifications.NotificationManager.IsNotificationEnabled | ChillCheck/ChillCheck/NotificationManager.swift:30-32 | off until a flag is stored, then the stored flag |
| Notifications.NotificationManager.NotificationHour | ChillCheck/ChillCheck/NotificationManager.swift:45 | 0 until an hour is stored, then the stored hour |
| Notifications.NotificationManager.NotificationMinute | ChillCheck/ChillCheck/NotificationManager.swift:55 | 0 until a minute is stored, then the stored minute |
| Notifications.NotificationManager.SetNotificationEnabled | ChillCheck/ChillCheck/NotificationManager.swift:33-34 | the flag is stored and read back |
| Notifications.NotificationManager.SetNotificationHour | ChillCheck/ChillCheck/NotificationManager.swift:46-47 | the hour is stored and nothing else changes |
| Notifications.NotificationManager.SetNotificationMinute | ChillCheck/ChillCheck/NotificationManager.swift:56-57 | the minute is stored and nothing else changes |
| Notifications.NotificationManager.SetNotificationTime | ChillCheck/ChillCheck/NotificationManager.swift:79-89 | an in-range hour and minute are stored and read back; out of range, the store is unchanged |
| Notifications.ScheduledFireDate | ChillCheck/ChillCheck/NotificationManager.swift:118-132 | today at H:M:00 if that is after now, else one day later; for a valid time, strictly after now, within a day, and at H:M of its day |
| Text.NatToString | ChillCheck/ChillCheck/SuggestionsViewController.swift:161 | a non-empty string of ASCII digits with no leading zero |
| Text.ParseInt | ChillCheck/ChillCheck/AddEditItemViewController.swift:63 | accepted text contains a digit and gives a value in the 64-bit range |
| Text.ParseNatToString | ChillCheck/ChillCheck/AddEditItemViewController.swift:63 | the decimal text of any value in range parses back to that value |
| Text.ParseNegated | ChillCheck/ChillCheck/AddEditItemViewController.swift:63 | "-" before the decimal text parses to the negated value |
| Text.ParseIntRejects | ChillCheck/ChillCheck/AddEditItemViewController.swift:63 | empty text, a bare sign, and surrounding spaces are rejected |
| Text.ParseOverflow | ChillCheck/ChillCheck/AddEditItemViewController.swift:63 | a number above the 64-bit maximum is rejected |
| Suggestions.BucketMembership | ChillCheck/ChillCheck/SuggestionsViewController.swift:65-77 | an item is listed as expired, today or soon exactly when it is dated with under 0, exactly 0, or 1 to 2 days left |
| Suggestions.UndatedInNoBucket | ChillCheck/ChillCheck/SuggestionsViewController.swift:66 | an undated item is in none of the three lists |
| Suggestions.BucketsDisjoint | ChillCheck/ChillCheck/SuggestionsViewController.swift:70-76 | no item is in two lists |
| Suggestions.BucketsPartitionUrgent | ChillCheck/ChillCheck/SuggestionsViewController.swift:65-77 | together the three lists hold the dated items with at most two days left, each as often as in the input |
| Suggestions.BucketSizesAddUp | ChillCheck/ChillCheck/SuggestionsViewController.swift:65-77 | the three list sizes sum to the urgent count |
| Suggestions.FormatExpirationText | ChillCheck/ChillCheck/SuggestionsViewController.swift:152-167 | the text is empty exactly for an undated item |
| Suggestions.FormatExpirationTextCases | ChillCheck/ChillCheck/SuggestionsViewController.swift:159-166 | "Expired N day(s) ago" with N the absolute days, "Expires today", "Expires in N day(s)"; singular only for N = 1 |
| Suggestions.FormatExpirationTextInjective | ChillCheck/ChillCheck/SuggestionsViewController.swift:152-167 | equal texts for two dated items mean equal days left |
| Suggestions.FirstIndexWithId | ChillCheck/ChillCheck/SuggestionsViewController.swift:422 | none exactly when no element has the id; otherwise an index with the id and none before it |
| Suggestions.RemoveAt | ChillCheck/ChillCheck/SuggestionsViewController.swift:423 | one element fewer; earlier ones stay, later ones shift down by one; only that one element is gone |
| Suggestions.SuggestionsViewController.CategorizeItems | ChillCheck/ChillCheck/SuggestionsViewController.swift:57-83 | each list is date-sorted and a permutation of its bucket of the input, whatever the lists held before |
| Suggestions.SuggestionsViewController.LoadSuggestedItems | ChillCheck/ChillCheck/SuggestionsViewController.swift:51-55 | the lists are the categorization of what the store holds |
| Suggestions.SuggestionsViewController.ItemsForSection | ChillCheck/ChillCheck/SuggestionsViewController.swift:139-150 | sections 0, 1, 2 are the expired, today and soon lists; any other section is empty |
| Suggestions.SuggestionsViewController.SectionTitle | ChillCheck/ChillCheck/SuggestionsViewController.swift:100-111 | a section's title is empty exactly when its list is empty |
| Suggestions.SuggestionsViewController.NumberOfSections | ChillCheck/ChillCheck/SuggestionsViewController.swift:220-229 | 0 exactly when all three lists are empty, 3 otherwise |
| Suggestions.SuggestionsViewController.SectionsMatchUrgentCount | ChillCheck/ChillCheck/SuggestionsViewController.swift:220-229 | after categorizing, the screen is empty exactly when the urgent count is zero |
| Suggestions.SuggestionsViewController.RemoveItem | ChillCheck/ChillCheck/SuggestionsViewController.swift:420-428 | no id match: nothing changes and no history call; a match: the first match is removed, the list saved, one removed-call logged, lists rebuilt |
| Suggestions.SuggestionsViewController.DidUpdateItem | ChillCheck/ChillCheck/SuggestionsViewController.swift:436-442 | the in-range slot is replaced and saved, one updated-call is logged, and the lists are rebuilt |
| AddEditItem.ApplyEdit | ChillCheck/ChillCheck/AddEditItemViewController.swift:76-82 | edit mode replaces only the slot at the index, same length; add mode appends with the prefix unchanged |
| AddEditItem.ApplyEditMultiset | ChillCheck/ChillCheck/AddEditItemViewController.swift:76-82 | replacing swaps one occurrence of the old element for the new one; appending adds exactly the new one |
| AddEditItem.AddEditItemViewController.SaveButtonTapped | ChillCheck/ChillCheck/AddEditItemViewController.swift:59-86 | an invalid form changes nothing; otherwise the item has a fresh id, the form's fields, category "Other" only when the field is nil, isFavorite false; the store holds the edited list |
| FridgeScreen.FridgeViewController.LoadFridgeItems | ChillCheck/ChillCheck/ViewController.swift:39-42 | the screen's list becomes the store's contents |
| FridgeScreen.FridgeViewController.SaveFridgeItems | ChillCheck/ChillCheck/ViewController.swift:44-46 | the screen's list is saved and, when encoding succeeds, reads back unchanged |
| FridgeScreen.FridgeViewController.DidAddItem | ChillCheck/ChillCheck/ViewController.swift:75-79 | one longer, last element the item, prefix unchanged; persisted equals shown |
| FridgeScreen.FridgeViewController.DidUpdateItem | ChillCheck/ChillCheck/ViewController.swift:81-85 | only the in-range slot changes; persisted equals shown |
| HistoryScreen.HistoryForSegment | ChillCheck/ChillCheck/HistoryViewController.swift:51-61 | a subsequence of the history; segment 0 keeps every added entry as often as it occurs and nothing else, segment 1 likewise for removed, other segments everything |
| HistoryScreen.ShownEntries | ChillCheck/ChillCheck/HistoryViewController.swift:53-58 | every shown entry is in the history, and segments 0 and 1 show no updated entry |
| HistoryScreen.EmptyHistoryShowsNothing | ChillCheck/ChillCheck/HistoryViewController.swift:51-61 | an empty history shows nothing in any segment |
| HistoryScreen.HistoryViewController.FilterHistoryItems | ChillCheck/ChillCheck/HistoryViewController.swift:51-61 | the displayed list is the selection for the current segment |
| HistoryScreen.HistoryViewController.LoadHistoryItems | ChillCheck/ChillCheck/HistoryViewController.swift:46-49 | the full list is the stored history and the displayed list its selection |
| HistoryScreen.HistoryViewController.SegmentedControlValueChanged | ChillCheck/ChillCheck/HistoryViewController.swift:74-76 | the displayed list is the selection for the new segment |
| HistoryScreen.HistoryViewController.ClearHistory | ChillCheck/ChillCheck/HistoryViewController.swift:89-92 | the stored history, the full list and the displayed list are all empty |
| Menu.CountUrgentItems | ChillCheck/ChillCheck/MenuViewController.swift:108-117 | the loop counts the dated items with at most two days left, and equals the badge count |
| Menu.SuggestionsTitle | ChillCheck/ChillCheck/MenuViewController.swift:119-134 | "Use Today" for zero, "Use Today (N)" otherwise |
| Menu.SuggestionsTitleInjective | ChillCheck/ChillCheck/MenuViewController.swift:119-134 | different counts give different titles |
| Menu.MenuViewController.UpdateSuggestionsButton | ChillCheck/ChillCheck/MenuViewController.swift:101-139 | without a button nothing happens; otherwise the title shows the urgent count of the stored items |

## Left out

- Views, cells, colours, animations, alerts, segues and theme switching. These are presentation only. Section descriptions, colours and the empty-state view are among them.
- Calendar arithmetic is not modelled. The `Clock` supplies the day counts and the same-day answers. Its link between the two (`Coherent`: same day implies 0 days) is assumed only where a lemma says so.
- The `.day ?? 0` fallback is dropped, because a `[.day]` query always yields a day.
- Suggestions.FormatExpirationText: `abs` of the most negative 64-bit day count would trap in Swift. Integers here are unbounded, so that case is not modelled.
- Notifications.ScheduledFireDate: time is whole seconds of local wall-clock time, with 86400 seconds per day. It models no daylight-saving change, no time zone and no force-unwrap failure of `calendar.date`.
- Scheduling, cancelling and delivering notifications are left out: `UNUserNotificationCenter`, `scheduleNextDayNotification`, `updateNotificationContent`, `requestPermission`, `checkPermissionStatus`, the delegate callbacks, and the reschedule calls inside the property setters. These are OS calls with asynchronous completion.
- `notificationTimeString` is left out, because it depends on the `DateFormatter` locale.
- The JSON encoder, the JSON decoder and `UserDefaults` internals are represented by the abstract `Codec` and the key map.
- The history persistence format and any size cap are left out, because they are not in the modelled files. `addHistoryItem` is recorded as a call log, and `loadHistoryItems`/`saveHistoryItems` as one stored list.
- DataManager.FridgeDataManager.AddHistoryItem: promises only the appended call. The entry it adds to the stored history, its order and any cap are not in the modelled files, so the stored history after the call is left unconstrained. The same goes for `RemoveItem` and `DidUpdateItem` in `Suggestions`.
- Item dates (`FridgeItems.Date`) are whole seconds. Swift's `Date` is a floating-point count of seconds, and the fractional part is dropped. Sorting by date is unaffected, because rounding down keeps the order.
- `FilterDelegate.swift` and the lifecycle files (`SceneDelegate.swift`, `AppDelegate.swift`, `LoadingViewController.swift`) are not part of this model.
- `FridgeViewController.prepare(for:sender:)` and `SuggestionsViewController.editItem` are left out. They set `delegate`, `itemToEdit` and `editingIndex`, which the add/edit screen does not declare, and the `AddEditItemDelegate` protocol is not shown.
- An out-of-range array index traps in Swift (`fridgeItems[index] = item`, `allItems[index] = item`). Here it is a precondition: `0 <= index < |...|` on `FridgeScreen.FridgeViewController.DidUpdateItem` and `Suggestions.SuggestionsViewController.DidUpdateItem`, and the in-range `itemIndex` requirement on `AddEditItem.AddEditItemViewController.SaveButtonTapped`. The crash itself is not modelled.
- Suggestions.SuggestionsViewController.CategorizeItems: only sortedness and the permutation are stated, because Swift's `sort` is not stable. The order among items with equal dates is left open.
- `SuggestionsViewController.didAddItem` is left out, because its body is empty.
- `numberOfRowsInSection` is left out, because it is the size of `ItemsForSection`.
- AddEditItem.AddEditItemViewController.SaveButtonTapped: the Swift action returns nothing. The model returns the item it built, so that its contract can talk about it. Dismissing the screen is left out.
