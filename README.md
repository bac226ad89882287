# Guia Aventureiro client core, modelled in Dafny

Guia Aventureiro is a React Native travel planner. The client signs users in, generates and edits trip itineraries, lists them on a dashboard (online or from an offline cache), browses public itineraries, tracks a trip budget, rates trips and shows achievements. This project models the parts of the client that hold checkable logic, and proves what they promise:

- the offline cache service (`OfflineService`): the connectivity verdict cached for 10 s, the itinerary snapshot, per-record upsert and removal, the pending-action queue and its drain, the cache report;
- the dashboard's load-and-recover decision (online, offline, 401, other failures with or without a cache) and its filter and sort pipeline;
- the password-strength scorer, the login and signup form validation, and the profile's password and name guards;
- the `DD/MM/AAAA` date mask and date picker, the date helpers of the generate and edit screens (format, real calendar date, not in the past, ordering, the 365-day cap, the trip length, the automatic end date, the conversion to noon UTC);
- the budget tracker's category lookup and totals, the progress colour and the add-expense form;
- the explore screen's pages, like toggle and saved list; the mock place search and the place-details extraction;
- the event emitter and the one-retry rule of the HTTP client; the toast hook; the photo picker; the rating modal and the rating stars; the preferences screen; the achievements filter; the onboarding carousel and the root navigator's screen choice.

One Dafny module per source file, plus shared modules: `Wrappers` (`Option`), `Text` (whitespace, trimming, lower case, substring test, digits and numerals), `Lists` (filter, remove-all, toggle), `Itineraries` (the record types), `Alerts` and `Calendar` (civil dates, day numbers, the date-fns parse and format used with `dd/MM/yyyy`, `Date.UTC`). Screens and services whose fields change become classes; their methods say in `ensures` what each field becomes. Pure decisions become functions, with lemmas relating them to an independent statement of what they mean.

Everything outside the client is a parameter: the HTTP answers (or the failure and its status), the health probe's outcome, the platform, the current time and "today", device-storage contents (a map from key to value, JSON being the identity) and, for the root navigator's one read of the onboarding flag, whether that read failed. Every other storage read and write succeeds in the model (see "## Left out").

Where the code and its documentation differ, the model follows the code. The two defects listed under "## Findings" are the exception: there the code as written is modelled and its consequence proved beside the corrected definition, and the screens use the corrected one (`Calendar.AsWrittenAgreesIff` and `Places.SameCitiesOffered` say exactly how far the two differ). In `validateDates` of the generate screen, the end date's "in the past" check sits inside the branch that needs a valid start (src/screens/GenerateScreen.tsx:106-110). So an end date in the past gets no error while the start field is empty or malformed. In the same way, `syncPendingActions` does not replay the queued actions: when online it removes every action it read, and replay is still a to-do in the code (src/services/offlineService.ts:217-223).

## Model

| member | source | states |
|---|---|---|
| Offline.ProbeVerdict | src/services/offlineService.ts:36-77 | a fresh probe reports online only when the health request answered ok; on the web with `navigator.onLine` false it reports offline without a request |
| Offline.FindIndex | src/services/offlineService.ts:127 | `findIndex`: the first position holding the id, or -1 exactly when no record has it |
| Offline.RemainingStep | src/services/offlineService.ts:219-223 | removing the next action's id from what the drain left gives the state after one more step |
| Offline.RemainingEnds | src/services/offlineService.ts:219-227 | before the drain the whole queue remains; after every id read is removed nothing does |
| Offline.OfflineService.constructor | src/services/offlineService.ts:18-19 | a new service starts online with `lastCheck` 0 over the given storage |
| Offline.OfflineService.CheckConnection | src/services/offlineService.ts:25-81 | inside the 10 s window the cached verdict and check time are kept and nothing is probed; otherwise `lastCheck` becomes `now` and the verdict is the probe's |
| Offline.OfflineService.GetConnectionStatus | src/services/offlineService.ts:84-86 | returns the cached verdict and changes nothing |
| Offline.OfflineService.SaveItinerariesOffline | src/services/offlineService.ts:91-105 | a non-array leaves storage unchanged; an array overwrites the snapshot so the next read returns exactly it; the queue is untouched |
| Offline.OfflineService.GetOfflineItineraries | src/services/offlineService.ts:110-119 | the stored snapshot; `[]` when the key is absent or the value does not parse |
| Offline.OfflineService.SaveItineraryOffline | src/services/offlineService.ts:124-139 | storage changes only under the snapshot key: the first record with the same id is replaced (same length), otherwise the record is appended (one longer); the record is then in the snapshot and the queue is untouched |
| Offline.OfflineService.RemoveItineraryOffline | src/services/offlineService.ts:144-152 | every record with the id is dropped and the rest kept in order; the queue is untouched |
| Offline.OfflineService.AddPendingSync | src/services/offlineService.ts:157-170 | exactly one action, stamped with `now`, is appended after the existing ones; the snapshot is untouched |
| Offline.OfflineService.GetPendingSync | src/services/offlineService.ts:175-184 | the stored queue, oldest first; `[]` when absent or unparsable |
| Offline.OfflineService.RemovePendingSync | src/services/offlineService.ts:189-197 | every action with the id is removed and the rest kept in order; the snapshot is untouched |
| Offline.OfflineService.SyncPendingActions | src/services/offlineService.ts:202-228 | offline, storage is unchanged; online, the queue ends empty (storage unchanged when it was already empty) and the snapshot is untouched |
| Offline.OfflineService.DrainQueue | src/services/offlineService.ts:219-227 | removing each action read by its id, in order, leaves the stored queue empty |
| Offline.OfflineService.ClearOfflineCache | src/services/offlineService.ts:233-241 | both keys are removed, so both lists then read as empty |
| Offline.OfflineService.GetCacheInfo | src/services/offlineService.ts:246-260 | the snapshot length, the queue length and the verdict of a `checkConnection` step |
| Dashboard.Insert | src/screens/DashboardScreen.tsx:136-142 | one insertion step of the sort: the result holds the list's elements plus the new one |
| Dashboard.InsertSorted | src/screens/DashboardScreen.tsx:136-142 | inserting into a list ordered by the key keeps it ordered |
| Dashboard.SortSpec | src/screens/DashboardScreen.tsx:136-142 | `sort` with the order's comparator: a permutation of its input, ordered by the key (newest, oldest or earliest start first) |
| Dashboard.InsertStable | src/screens/DashboardScreen.tsx:136-142 | an insertion keeps the relative order of elements with equal keys |
| Dashboard.SortStable | src/screens/DashboardScreen.tsx:136-142 | the sort is stable: for every key, the itineraries with that key keep their loaded order |
| Dashboard.VisibleIsSelection | src/screens/DashboardScreen.tsx:117-133 | the search and status stages together keep exactly the itineraries meeting both active criteria, in order; an empty query or a null or empty status is inactive |
| Dashboard.FilteredSpec | src/screens/DashboardScreen.tsx:116-145 | the visible list is a permutation of the selected itineraries, ordered by the chosen key, with ties in loaded order |
| Dashboard.FilteredMembership | src/screens/DashboardScreen.tsx:116-145 | an itinerary is visible exactly when it was loaded and matches the lower-cased query in title, city or country and the status |
| Dashboard.NoCriteriaShowsAll | src/screens/DashboardScreen.tsx:120-133 | with no query and no status every loaded itinerary is shown, only reordered |
| Dashboard.DashboardScreen.constructor | src/screens/DashboardScreen.tsx:36-47 | the initial state: empty lists, loading, no filters, newest first, and the visible list derived |
| Dashboard.DashboardScreen.ApplyFilters | src/screens/DashboardScreen.tsx:116-145 | afterwards the visible list is the one derived from the loaded list and the three criteria |
| Dashboard.DashboardScreen.SetSearchQuery | src/screens/DashboardScreen.tsx:148-150 | a new query is stored and the visible list re-derived |
| Dashboard.DashboardScreen.SetStatusFilter | src/screens/DashboardScreen.tsx:148-150 | a new status filter is stored and the visible list re-derived |
| Dashboard.DashboardScreen.SetSortBy | src/screens/DashboardScreen.tsx:148-150 | a new order is stored and the visible list re-derived |
| Dashboard.DashboardScreen.LoadItineraries | src/screens/DashboardScreen.tsx:58-114 | online and answered: the normalised list (bare array, envelope, else `[]`) is shown and cached; offline: the cache is shown; on a 401 a non-empty cache is shown with no error; on another failure a non-empty cache is shown with the notice toast, an empty one sets the error state with the failure toast; loading and refreshing end false |
| Dashboard.DashboardScreen.LoadList | src/screens/DashboardScreen.tsx:59-109 | the `try`/`catch` of the load: online and answered, the normalised list is shown and cached; offline, the cache; on failure, the cache fallback below |
| Dashboard.DashboardScreen.FallBackToCache | src/screens/DashboardScreen.tsx:89-109 | after a failed load: a 401 shows a non-empty cache and no error; another failure shows a non-empty cache with the notice toast, or sets the error state with the failure toast when the cache is empty |
| Dashboard.DashboardScreen.OnRefresh | src/screens/DashboardScreen.tsx:152-155 | the refresh runs a whole load: the same connection check, list, cache write, `hasError` and toast as `loadItineraries` for each outcome, ending with refreshing and loading false and the filters applied |
| Password.ScoreCriteria | src/utils/passwordValidator.ts:24-57 | the five criterion checks give one point per met criterion and the hints of the unmet ones, in order |
| Password.ApplyPenalties | src/utils/passwordValidator.ts:67-77 | repetition and sequence each cost a point, never going below 0, and add their hint |
| Password.ValidatePasswordStrength | src/utils/passwordValidator.ts:14-82 | the stepwise computation agrees with the closed form `Strength`; the score lies in 0..4; the password is accepted exactly from score 2 |
| Password.StrengthBounds | src/utils/passwordValidator.ts:79-81 | every strength has a score in 0..4, and acceptance means a score of at least 2 |
| Password.ValidNeeds | src/utils/passwordValidator.ts:19-81 | an accepted password has at least 6 characters, is not a common password, and meets at least 2 more criteria than it has penalties |
| Password.RejectedHasFeedback | src/utils/passwordValidator.ts:14-82 | a rejected password always carries at least one hint |
| Password.MessagesDistinct | src/utils/passwordValidator.ts:20-75 | the hint texts of different criteria differ from each other and from the common, repeat and sequence hints |
| Password.HintIffUnmet | src/utils/passwordValidator.ts:24-77 | for a password of 6 or more characters, a criterion's hint is listed exactly when the criterion is not met |
| Password.FeedbackLength | src/utils/passwordValidator.ts:14-82 | at most 7 hints; from 6 characters the criteria contribute 5 minus the met count |
| Password.StrengthColor | src/utils/passwordValidator.ts:87-101 | grey exactly for scores outside 0..4 |
| Password.StrengthLabel | src/utils/passwordValidator.ts:106-121 | the empty label exactly for scores outside 0..4 |
| Password.StrengthDisplay | src/utils/passwordValidator.ts:79-121 | every computed strength has a label and a non-grey colour; the bar is red exactly when the password is rejected |
| Password.LabelsDistinct | src/utils/passwordValidator.ts:106-121 | the five scores have five different labels |
| Calendar.DayNumberOrder | src/screens/GenerateScreen.tsx:93-113 | for real dates, `isBefore` on local midnights is the calendar order (year, month, day), and equal day counts mean equal dates |
| Calendar.NextDayNumber | src/screens/GenerateScreen.tsx:153 | the following day of a real date is real and exactly one day later |
| Calendar.AddDaysNumber | src/screens/GenerateScreen.tsx:153 | `addDays(d, n)` of a real date is real and lies exactly `n` days later |
| Calendar.LeadingDigits | src/screens/GenerateScreen.tsx:71 | the run of digits a date-fns numeric token consumes: all digits, at most the token's width, and maximal |
| Calendar.ShapedParse | src/screens/GenerateScreen.tsx:65-76 | on an entry shaped `DD/MM/AAAA`, `parse(…, 'dd/MM/yyyy')` reads the three fixed fields and yields the date when it is real |
| Calendar.Fixed | src/screens/GenerateScreen.tsx:154 | a zero-padded field of `format`: exactly the requested number of digits |
| Calendar.FormatThenParse | src/screens/GenerateScreen.tsx:65-76 | `format(d, 'dd/MM/yyyy')` of a real date up to year 9999 passes `validateDate` and parses back to `d` |
| Calendar.ParseThenFormat | src/screens/GenerateScreen.tsx:65-76 | a valid entry is exactly the formatting of the date it parses to |
| Calendar.IndexOf | src/screens/GenerateScreen.tsx:59 | the first position of the separator, or the length when there is none |
| Calendar.Split | src/screens/GenerateScreen.tsx:59 | `split('/')` always yields at least one part |
| Calendar.LeadingHexDigits | src/screens/GenerateScreen.tsx:60 | the hexadecimal run `parseInt` reads after a `0x` prefix |
| Calendar.ParseIntOfDigits | src/screens/GenerateScreen.tsx:60 | `parseInt` of a plain run of decimal digits is its decimal value |
| Calendar.ShapedSplit | src/screens/GenerateScreen.tsx:59 | on an entry shaped `DD/MM/AAAA`, the split gives the day, month and year fields |
| Calendar.ShapedFields | src/screens/GenerateScreen.tsx:59-60 | on an entry shaped `DD/MM/AAAA`, the three `parseInt` values are the three fixed fields |
| Calendar.ValidEntry | src/screens/GenerateScreen.tsx:57-76 | a valid entry parses to a real date with a year of at most 9999, and the split-and-`parseInt` reading agrees with `parse` |
| Calendar.NoonUtcOfReal | src/screens/GenerateScreen.tsx:61-62 | noon UTC of a real date between years 1 and 9999 is a time value TimeClip keeps, on that very day |
| Calendar.ConvertToIsoOfValid | src/screens/GenerateScreen.tsx:57-63 | the corrected conversion sends exactly the day entered, for every valid entry |
| Calendar.AsWrittenAgreesFromYear100 | src/screens/GenerateScreen.tsx:57-63 | from year 100 on, the conversion as written agrees with the corrected one |
| Calendar.AsWrittenAgreesIff | src/screens/GenerateScreen.tsx:57-63 | for a valid entry, the conversion as written and the corrected one agree exactly when the year is 100 or later |
| Calendar.ShiftedDate | src/screens/GenerateScreen.tsx:61 | a real date moved from a year 1..99 to 1900 plus that year is still real, is kept by TimeClip, and is another day |
| Calendar.EarlyYearSent | src/screens/GenerateScreen.tsx:57-63 | for parsed parts with a year 1..99, the code as written sends the day in 1900 plus that year, while the corrected code sends the day entered, and the two differ |
| Calendar.AsWrittenShiftsEarlyYears | src/screens/GenerateScreen.tsx:57-63 | a valid entry with a year 1..99 is sent, as written, as another day than the one entered |
| Calendar.EarlyYearEntry | src/screens/GenerateScreen.tsx:65-76 | the entry 01/01/0050 passes `validateDate` as 1 January of year 50 |
| DateInput.FirstEight | src/components/DateInput.tsx:82 | cutting at ten characters keeps the first eight digits: a prefix of length min(n, 8) |
| DateInput.HandleTextChange | src/components/DateInput.tsx:72-84 | the stepwise mask equals `Mask`: the layout of the first eight digits typed |
| DateInput.LayoutDigits | src/components/DateInput.tsx:75-80 | inserting the separators loses and adds no digit |
| DateInput.MaskKeepsDigits | src/components/DateInput.tsx:72-84 | the field keeps, in order, the first eight digits typed and no other |
| DateInput.MaskIsShaped | src/components/DateInput.tsx:72-84 | the field holds at most ten characters: `/` at positions 2 and 5 only, digits elsewhere |
| DateInput.MaskSeparators | src/components/DateInput.tsx:75-80 | the first `/` appears once two digits are typed, the second once four are, and the length is the digit count plus the separators |
| DateInput.MaskIdempotent | src/components/DateInput.tsx:72-84 | masking the value already shown changes nothing |
| DateInput.FullMaskShaped | src/components/DateInput.tsx:72-84 | eight or more digits typed give a value shaped `DD/MM/AAAA` |
| DateInput.ParseDateFromString | src/components/DateInput.tsx:27-35 | null for the empty string; any date returned is a real calendar date |
| DateInput.ParseOfFullMask | src/components/DateInput.tsx:27-84 | on a full mask, the field's parse succeeds exactly when the form's `validateDate` accepts the value |
| DateInput.ParseOfFormatted | src/components/DateInput.tsx:27-48 | a picked real date written back with `format` parses to that same date |
| DateInput.GetPickerDate | src/components/DateInput.tsx:37-40 | the picker opens on a real date when today is one, and on a date other than today only when the field parses to it |
| DateInput.PickerReopensOnPicked | src/components/DateInput.tsx:37-48 | a date the picker wrote to the field, formatted, is the date it reopens on |
| DateInput.PickerOpensOnTyped | src/components/DateInput.tsx:37-40 | on a full mask the picker opens on the typed date when `validateDate` accepts it, and on today when it does not |
| DateInput.DatePicker.constructor | src/components/DateInput.tsx:23-24 | the picker starts closed with no held date |
| DateInput.DatePicker.OpenPicker | src/components/DateInput.tsx:86-97 | the picker opens holding the field's date, or today |
| DateInput.DatePicker.HandleDateChange | src/components/DateInput.tsx:42-56 | Android: the picker closes and a confirmed date is emitted formatted; iOS: a chosen date is only held and nothing is emitted |
| DateInput.DatePicker.HandleConfirmIos | src/components/DateInput.tsx:58-65 | the held date, if any, is emitted formatted; the picker closes and forgets it |
| DateInput.DatePicker.HandleCancelIos | src/components/DateInput.tsx:67-70 | the picker closes and forgets the held date without emitting |
| TripDates.Parsed | src/screens/GenerateScreen.tsx:91-108 | the date a valid field denotes is real, with a year of at most 9999 |
| TripDates.CalculateDuration | src/screens/GenerateScreen.tsx:129-141 | a duration exists exactly when both fields are valid dates |
| TripDates.SameDayLastsOne | src/screens/GenerateScreen.tsx:137 | a trip starting and ending on the same day lasts 1 day |
| TripDates.DurationPositive | src/screens/GenerateScreen.tsx:113-137 | the duration is at least 1 exactly when the end is not before the start |
| TripDates.DurationCountsDays | src/screens/GenerateScreen.tsx:137 | an end `n` days after the start gives a duration of `n + 1`, counting both ends |
| TripDates.AdjustedEndFollowsStart | src/screens/GenerateScreen.tsx:143-157 | after a start-date change the end field is valid and not before the start; a moved end gives a 7-day trip |
| TripDates.SuggestedEndLastsAWeek | src/screens/GenerateScreen.tsx:152-154 | the suggested end (start plus 6 days, formatted) passes validation and gives a 7-day trip |
| TripDates.AdjustedEndKeepsOrderedEnd | src/screens/GenerateScreen.tsx:147-151 | an end that is not before the new start, or a pair that is not fully valid, is left as typed |
| TripDates.ValidFieldConverts | src/screens/GenerateScreen.tsx:171-172 | a valid field is sent as the day typed, at noon UTC |
| GenerateScreen.StartErrorCases | src/screens/GenerateScreen.tsx:83-97 | each start-date message is given exactly in its case: empty, bad format, before today, otherwise none |
| GenerateScreen.EndErrorCases | src/screens/GenerateScreen.tsx:99-123 | each end-date message is given exactly in its case; the past, order and 365-day messages only when the start is valid too |
| GenerateScreen.DatesValidMeans | src/screens/GenerateScreen.tsx:78-127 | the dates pass exactly when both are valid, neither is before today, the end is not before the start and the trip lasts at most 365 days, so between 1 and 365 |
| GenerateScreen.ValidDatesSendTypedDays | src/screens/GenerateScreen.tsx:165-177 | dates that pass are sent as the days typed; with today in year 100 or later, the conversion as written sends the same |
| GenerateScreen.NoDateProcessingError | src/screens/GenerateScreen.tsx:174-177 | the "Erro ao processar datas" refusal is unreachable: dates that pass always convert |
| GenerateScreen.GenerateForm.constructor | src/screens/GenerateScreen.tsx:30-40 | the form starts empty with medium budget, solo style, no date errors, not loading |
| GenerateScreen.GenerateForm.OnFocus | src/screens/GenerateScreen.tsx:43-54 | gaining focus clears every field to its default and bumps the reset key |
| GenerateScreen.GenerateForm.ValidateDates | src/screens/GenerateScreen.tsx:78-127 | the stored messages are `StartError` and `EndError`, and the result is true exactly when both are empty |
| GenerateScreen.GenerateForm.HandleStartDateChange | src/screens/GenerateScreen.tsx:143-157 | the start takes the new value and the end becomes `AdjustedEnd` of the old end |
| GenerateScreen.GenerateForm.HandleGenerate | src/screens/GenerateScreen.tsx:159-206 | a request is sent exactly when there is a destination and the dates pass and convert; it carries the form's fields, BRL, no interests and moderate pace; each refusal and each outcome gives its toast; loading ends false |
| GenerateScreen.GenerateForm.GenerateFilled | src/screens/GenerateScreen.tsx:165-206 | with the destination filled: the date errors are recomputed; invalid dates give the fix-the-dates toast and a date that does not convert the processing-error toast, with nothing sent; otherwise the request with both converted dates is sent and its outcome gives the created toast and the itinerary shown, or the error toast |
| EditItinerary.DatesValidMeans | src/screens/EditItineraryScreen.tsx:101-139 | the dates pass exactly when both are valid, the end is not before the start and the trip lasts at most 365 days, so between 1 and 365, whatever today is |
| EditItinerary.GenerateValidIsEditValid | src/screens/EditItineraryScreen.tsx:101-139 | every pair of dates the Generate form accepts, the Edit form accepts too |
| EditItinerary.PastPairAccepted | src/screens/EditItineraryScreen.tsx:105-112 | a start before today that the Edit form accepts is refused by the Generate form: only Generate has the past rule |
| EditItinerary.EarlyYearPasses | src/screens/EditItineraryScreen.tsx:101-139 | the entry 01/01/0050 as both dates passes the Edit checks, so it reaches the conversion |
| EditItinerary.LevelOf | src/screens/EditItineraryScreen.tsx:64 | the record's budget level when set and non-empty, otherwise `medio`; never empty |
| EditItinerary.EditForm.constructor | src/screens/EditItineraryScreen.tsx:32-46 | no record, loading, not saving, empty fields, medium budget, draft status, no date errors |
| EditItinerary.EditForm.LoadItinerary | src/screens/EditItineraryScreen.tsx:48-72 | a loaded record sets title, city and country (`""` when missing); each day `format` can show is written in turn, and the first that cannot stops the prefill, leaving the later fields, and goes back; a fully shown record also sets budget level and status; a failed request goes back and changes nothing; loading ends false |
| EditItinerary.EditForm.ValidateDates | src/screens/EditItineraryScreen.tsx:101-139 | the stored messages are `StartError` and `EndError`, and the result is true exactly when both are empty |
| EditItinerary.EditForm.HandleStartDateChange | src/screens/EditItineraryScreen.tsx:155-169 | the start takes the new value and the end becomes `AdjustedEnd` of the old end |
| EditItinerary.EditForm.HandleSave | src/screens/EditItineraryScreen.tsx:171-228 | an update is sent exactly when title, city and country are set, the dates pass and convert, and the loaded record (if any) has a destination and a budget; it carries the form's fields, BRL and the record's estimated total; each refusal and each outcome gives its toast; success goes back; `saving` ends false once the send is reached, even when the body cannot be built, and is untouched by every earlier refusal |
| EditItinerary.EditForm.SaveFilled | src/screens/EditItineraryScreen.tsx:177-227 | with the required fields filled: the date errors are recomputed; invalid dates give the fix-the-dates toast and a date that does not convert the processing-error toast, with nothing sent and `saving` untouched; otherwise the update with both converted dates is sent exactly when the body can be built (the generic failure toast when it cannot) and `saving` ends false |
| EditItinerary.EditForm.SendUpdate | src/screens/EditItineraryScreen.tsx:193-227 | the body is built from the form and the loaded record (a record without a destination or a budget throws: generic failure toast, nothing sent); success gives the updated toast and goes back, failure the server message or the generic one; saving ends false |
| EditItinerary.PrefillParsesBack | src/screens/EditItineraryScreen.tsx:59-62 | prefilled days up to year 9999 pass validation and parse back to the same days |
| Budget.FindCategory | src/components/BudgetTracker.tsx:66 | `find` by id: the first entry with that id, or past the end when there is none |
| Budget.GetCategoryInfo | src/components/BudgetTracker.tsx:56-67 | a known id gives its entry; an unknown one gives `outro` |
| Budget.CategoryTotals | src/components/BudgetTracker.tsx:148-152 | the totals have a key for exactly the categories that occur, each holding the sum of that category's amounts |
| Budget.KeyOrderLists | src/components/BudgetTracker.tsx:148-152 | the keys, in first-occurrence order, list each category present exactly once |
| Budget.AbsentSumsZero | src/components/BudgetTracker.tsx:151 | a category that does not occur totals 0 |
| Budget.SumOverStep | src/components/BudgetTracker.tsx:151 | one more expense raises the sum over distinct categories by its amount when its category is among them |
| Budget.TotalsAddUp | src/components/BudgetTracker.tsx:148-152 | the category totals add up to the sum of all expenses |
| Budget.ProgressColorCases | src/components/BudgetTracker.tsx:86-94 | error exactly when over budget; warning exactly when spending is above 80 % of a positive estimate without passing it; the remainder is negative exactly when over budget |
| Budget.RecentExpenses | src/components/BudgetTracker.tsx:219 | the first five expenses, or all when there are fewer |
| Budget.MoreCount | src/components/BudgetTracker.tsx:248-250 | the "+ n mais gastos" line appears exactly beyond five expenses and counts the hidden ones |
| Budget.ExpenseForm.constructor | src/components/BudgetTracker.tsx:80-84 | the modal starts closed with empty fields, not loading |
| Budget.ExpenseForm.HandleAddExpense | src/components/BudgetTracker.tsx:96-125 | an expense is sent exactly when category, description and amount are filled and the amount is positive, with the trimmed description; success resets and closes the form; each refusal and failure shows its alert; loading ends false |
| Profile.CountriesBound | src/screens/ProfileScreen.tsx:87-91 | never more distinct countries than itineraries |
| Profile.CountrySetMembers | src/screens/ProfileScreen.tsx:87-91 | a country is counted exactly when some itinerary has it as a non-empty destination country |
| Profile.StatsBounds | src/screens/ProfileScreen.tsx:76-99 | no itinerary gives the empty statistics; otherwise the total is the list's length, the last title is the first item's, and completed trips and countries are between 0 and the total |
| Profile.CompletedCounts | src/screens/ProfileScreen.tsx:86 | for every list, the empty one included, completed trips and the others add up to the total |
| Profile.SentNameTrimmed | src/screens/ProfileScreen.tsx:154-161 | the name sent is non-empty and has no white space at either end |
| Profile.PasswordAccepted | src/screens/ProfileScreen.tsx:179-192 | the password reaches `updatePassword` exactly when the three fields are filled, the two entries agree and it has at least 6 characters; each alert only in its case |
| Profile.ProfileScreen.constructor | src/screens/ProfileScreen.tsx:33-47 | zero statistics while loading; the edit, password and preferences modals closed, with empty fields |
| Profile.ProfileScreen.LoadStats | src/screens/ProfileScreen.tsx:68-115 | the statistics of the normalised list, or the empty statistics when the request fails; loading ends false |
| Profile.ProfileScreen.HandleEditProfile | src/screens/ProfileScreen.tsx:134-138 | the form starts from the user's name (`""` when none) and avatar, and the modal opens |
| Profile.ProfileScreen.HandleSaveProfile | src/screens/ProfileScreen.tsx:153-169 | a blank name is refused with its alert; otherwise the trimmed name and the avatar are sent, and the modal closes only on success |
| Profile.ProfileScreen.HandleChangePassword | src/screens/ProfileScreen.tsx:171-176 | the three fields are cleared and the modal opens |
| Profile.ProfileScreen.HandleSavePassword | src/screens/ProfileScreen.tsx:178-205 | the first failing guard's alert and nothing sent; otherwise the current and new password are sent, and the modal closes only on success |
| Profile.ProfileScreen.HandleOpenPreferences | src/screens/ProfileScreen.tsx:207-215 | the chosen interests start from the user's saved ones, none when unset, and the preferences modal opens |
| Profile.ProfileScreen.ToggleInterest | src/screens/ProfileScreen.tsx:764-768 | a chosen interest is removed, another appended; membership flips and no other interest changes |
| UseToast.ToastHook.constructor | src/hooks/useToast.ts:10-14 | the toast starts hidden, with an empty message of kind info |
| UseToast.ToastHook.ShowToast | src/hooks/useToast.ts:16-18 | the toast becomes visible with the message and the kind, info when none is given |
| UseToast.ToastHook.HideToast | src/hooks/useToast.ts:20-22 | the toast is hidden and keeps its last message and kind |
| UseToast.ToastHook.Success | src/hooks/useToast.ts:24 | a visible success toast with the message |
| UseToast.ToastHook.Error | src/hooks/useToast.ts:25 | a visible error toast with the message |
| UseToast.ToastHook.Info | src/hooks/useToast.ts:26 | a visible info toast with the message |
| UseToast.ToastHook.Warning | src/hooks/useToast.ts:27 | a visible warning toast with the message |
| Text.TrimStartShape | src/screens/ProfileScreen.tsx:154 | the first half of `trim` keeps a suffix, drops only white space and leaves none in front |
| Text.TrimEndShape | src/screens/ProfileScreen.tsx:154 | the second half of `trim` keeps a prefix, drops only white space and leaves none at the end |
| Text.TrimSlice | src/screens/ProfileScreen.tsx:154 | `trim()` keeps one contiguous slice of the text; everything before and after it is white space |
| Text.BlankIffAllSpace | src/screens/ProfileScreen.tsx:154 | `!s.trim()` holds exactly when every character is white space |
| Text.TrimHasNoOuterSpace | src/screens/ProfileScreen.tsx:161 | a trimmed string has no white space at either end |
| Text.LowerChar | src/screens/DashboardScreen.tsx:120-128 | `toLowerCase` maps A..Z to a..z and leaves lower-case letters and digits alone |
| Text.DigitsOf | src/components/DateInput.tsx:73 | `replace(/\D/g, '')` gives only digits, never more characters than the input, and leaves an all-digit string alone |
| Text.DigitsOfCount | src/components/DateInput.tsx:73 | every digit of the input is kept as often as it occurs, and no other character is; with `DigitsOfAppend` this fixes the result, order included |
| Text.DigitsOfAppend | src/components/DateInput.tsx:73 | stripping non-digits distributes over concatenation |
| Text.LowerIdempotent | src/screens/DashboardScreen.tsx:120-128 | lowering a lowered text changes nothing |
| Text.LowerAppend | src/screens/DashboardScreen.tsx:120-128 | lowering distributes over concatenation, character by character |
| Text.NatToString | src/components/PhotoPicker.tsx:35 | a number renders as a non-empty run of digits |
| Text.NatToStringValue | src/services/placesService.ts:155 | reading back a rendered number gives the number |
| Text.NatToStringInjective | src/services/placesService.ts:155 | different numbers render differently, so `mock_${index}` ids differ |
| Lists.RemoveAll | src/screens/ProfileScreen.tsx:766 | `filter(i => i !== x)`: `x` is gone and every other element stays |
| Lists.Toggle | src/screens/ProfileScreen.tsx:765-767 | membership flips: a present value is removed everywhere, an absent one appended |
| Lists.ToggleKeepsOthers | src/screens/ProfileScreen.tsx:765-767 | a toggle leaves every other value, in order and in count |
| Lists.ToggleTwiceRestores | src/screens/ProfileScreen.tsx:765-767 | toggling an absent value twice restores the list |
| Signup.HintsNonEmpty | src/utils/passwordValidator.ts:14-82 | every strength hint is a non-empty message |
| Signup.PasswordErrorIsFirstHint | src/screens/SignupScreen.tsx:51-60 | an empty password is required; a rejected one shows its first strength hint, so the "Senha muito fraca" fallback never appears; an accepted one shows none |
| Signup.SignupValidMeans | src/screens/SignupScreen.tsx:34-72 | the form passes exactly when the name is not blank, the e-mail matches the pattern, the password is accepted and the confirmation repeats it |
| Signup.CheckPassword | src/screens/SignupScreen.tsx:51-60 | the password branch gives `PasswordError`, non-empty exactly when the strength check rejects the password |
| Signup.SignupScreen.constructor | src/screens/SignupScreen.tsx:21-32 | empty fields, not loading, the zero strength, no errors |
| Signup.SignupScreen.HandlePasswordChange | src/screens/SignupScreen.tsx:74-78 | the field takes the text and the meter shows its strength |
| Signup.SignupScreen.Validate | src/screens/SignupScreen.tsx:34-72 | the four messages are those of the field checks, and the result is true exactly when all are empty |
| Signup.SignupScreen.HandleSignup | src/screens/SignupScreen.tsx:80-91 | `signup` is called exactly when the form passes, with the trimmed name and e-mail and the password as typed; loading ends false |
| Email.PlainAddressMatches | src/screens/LoginScreen.tsx:32 | a plain address such as ana@mail.com passes the pattern |
| Email.NeedsAtAndDot | src/screens/LoginScreen.tsx:32 | text without an `@` or without a `.` never passes |
| Email.SurroundedMatches | src/screens/LoginScreen.tsx:32 | the pattern is not anchored: text around a match does not matter |
| Email.MatchNotBlank | src/screens/LoginScreen.tsx:29-35 | a matching text is never blank, so the two e-mail messages never compete |
| Email.SliceMatches | src/screens/LoginScreen.tsx:32 | a match survives cutting the text anywhere outside it |
| Email.TrimmedStillMatches | src/screens/LoginScreen.tsx:32-54 | the trimmed text that is sent still matches |
| Email.EmailErrorMeans | src/screens/LoginScreen.tsx:29-35 | the field passes exactly when the text matches; "required" exactly when it is blank; a passing text still matches once trimmed |
| Login.LoginValidMeans | src/screens/LoginScreen.tsx:25-47 | the form passes exactly when the e-mail matches and the password has at least 6 characters |
| Login.LoginScreen.constructor | src/screens/LoginScreen.tsx:20-23 | empty fields, not loading, no errors |
| Login.LoginScreen.Validate | src/screens/LoginScreen.tsx:25-47 | the two messages are those of the field checks, and the result is true exactly when both are empty |
| Login.LoginScreen.HandleLogin | src/screens/LoginScreen.tsx:49-60 | `login` is called exactly when the form passes, with the trimmed e-mail, which still matches, and the password; loading ends false |
| Explore.MergePage | src/screens/ExploreScreen.tsx:52-56 | page 1 replaces the list; a later page is appended after what is shown |
| Explore.PagesAccumulate | src/screens/ExploreScreen.tsx:130-139 | loading page 1 and then pages 2, 3, … in turn shows every item of every page, in page order, whatever was shown before |
| Explore.Liked | src/screens/ExploreScreen.tsx:160-167 | the liked item keeps its id and always has a likes list; `'user'` is in it exactly when it was not before |
| Explore.UpdateLikes | src/screens/ExploreScreen.tsx:158-170 | the list keeps its length and ids; only the items with the id have their like toggled |
| Explore.LikeTwiceRestores | src/screens/ExploreScreen.tsx:158-170 | liking twice restores every item whose likes list does not hold `'user'` |
| Explore.WithoutId | src/screens/ExploreScreen.tsx:188 | no item with the id is left; every other item is kept as often as before; a list without the id is unchanged |
| Explore.ExploreScreen.constructor | src/screens/ExploreScreen.tsx:24-41 | the discover tab, loading, empty lists, page 1 with no next page |
| Explore.ExploreScreen.LoadDiscover | src/screens/ExploreScreen.tsx:43-66 | success merges the page and replaces the pagination; failure keeps the list, shows the toast unless 401, and rethrows; loading-more ends false |
| Explore.ExploreScreen.LoadFeatured | src/screens/ExploreScreen.tsx:68-77 | success replaces the list; failure keeps it and shows the toast unless 401 |
| Explore.ExploreScreen.LoadSaved | src/screens/ExploreScreen.tsx:79-96 | as for discover, but a failure is not rethrown |
| Explore.ExploreScreen.LoadData | src/screens/ExploreScreen.tsx:98-115 | only the active tab's list and pagination change: page 1 and the server's pagination, or the featured list, when the load answers, and both kept otherwise; the tab's own failure toast unless 401; `loadingMore` ends false after a discover or saved load and is untouched on the featured tab; loading and refreshing end false |
| Explore.ExploreScreen.HandleRefresh | src/screens/ExploreScreen.tsx:125-128 | the same outcome as `loadData` for the active tab: its list and pagination from page 1 (or the featured list) or kept, the other tabs' lists and paginations unchanged, the tab's failure toast unless 401, and loading and refreshing end false |
| Explore.ExploreScreen.HandleSearch | src/screens/ExploreScreen.tsx:142-151 | the discover list and its pagination become page 1 of the answer, or stay on failure with the toast unless 401; the failure is not passed on; loading ends false |
| Explore.ExploreScreen.HandleLoadMore | src/screens/ExploreScreen.tsx:130-140 | nothing while a page loads; otherwise the next page of the discover or saved tab exactly when the server reported one; never for the featured tab |
| Explore.ExploreScreen.HandleToggleLike | src/screens/ExploreScreen.tsx:153-180 | after a successful call the like is toggled in the active discover or featured list only; a failure shows its toast and changes no list |
| Explore.ExploreScreen.HandleToggleSave | src/screens/ExploreScreen.tsx:182-193 | the saved list loses the item exactly when the answer says it is no longer saved and the saved tab is active; a failure shows its toast |
| Places.MockIdInjective | src/services/placesService.ts:155 | different numbers give different `mock_n` ids |
| Places.Suggest | src/services/placesService.ts:154-159 | a suggestion shows the city as main text, the country as secondary text, and "city, country" as description |
| Places.NumberedByMatch | src/services/placesService.ts:148-159 | the matching places, each numbered by its position among the matches |
| Places.MatchingIndices | src/services/placesService.ts:148-152 | table positions whose city or country contains the typed text, ignoring case |
| Places.NumberedByTable | src/services/placesService.ts:148-159 | the matching places, each numbered by its position in the table |
| Places.MockSuggestionsAsWritten | src/services/placesService.ts:148-159 | as written, the i-th suggestion is `mock_i`, whichever city it shows |
| Places.MockSuggestions | src/services/placesService.ts:129-160 | corrected: each suggestion is a matching city numbered by its place in the table |
| Places.MockPlaceDetails | src/services/placesService.ts:165-203 | only `mock_0`, `mock_1` and `mock_7` have records; any other id gives the unknown place; no photo |
| Places.AsWrittenLondonResolvesToParis | src/services/placesService.ts:148-174 | as written, typing "londres" offers London as `mock_0`, whose details are Paris |
| Places.LondonResolvesToLondon | src/services/placesService.ts:148-182 | with table numbering, London is offered under an id whose details are London |
| Places.TableIdResolves | src/services/placesService.ts:130-191 | a table position with a fixed record resolves to that position's city and country |
| Places.SuggestionsResolveToTheirCity | src/services/placesService.ts:129-203 | with table numbering, every suggestion with a fixed record resolves to the city and country it showed |
| Places.SameCitiesOffered | src/services/placesService.ts:148-159 | both numberings offer the same cities in the same order |
| Places.IndexFilter | src/services/placesService.ts:148-152 | filtering the positions and then reading the table is filtering the table |
| Places.FindFirst | src/services/placesService.ts:96-102 | `find`: the first component satisfying the test, or none exactly when none does |
| Places.DetailsOf | src/services/placesService.ts:92-119 | name, address and coordinates from the answer; city from the first locality or second-level area, else the name; country from the first country component, else `""`; a photo link only when there is a photo |
| Places.CityFallback | src/services/placesService.ts:113-114 | without a city component the city is the place's name; without a country component the country is empty |
| Places.SearchPlaces | src/services/placesService.ts:31-67 | nothing below three characters; without a key or on a failed or non-OK answer, the table's suggestions under the corrected numbering; otherwise the service's predictions |
| Places.GetPlaceDetails | src/services/placesService.ts:72-124 | without a key the table's record; otherwise details exactly when the answer is OK |
| Api.EventEmitter.constructor | src/services/api.ts:8 | an emitter starts with no listeners |
| Api.EventEmitter.On | src/services/api.ts:10-15 | the callback is appended to the event's listeners, the list created when missing; other events are unchanged |
| Api.EventEmitter.Off | src/services/api.ts:17-20 | an unknown event is a no-op; otherwise every registration of the callback is removed and the rest kept in order; other events are unchanged |
| Api.EventEmitter.Emit | src/services/api.ts:22-25 | the event's listeners are called once each, in registration order; none for an unknown event |
| Api.OffUndoesOn | src/services/api.ts:10-20 | `off` after `on` leaves the listeners as `off` alone would, and restores them when the callback was not registered before |
| Api.AuthorizationFor | src/services/api.ts:40-46 | the Bearer header is added exactly when a non-empty access token is stored, and carries that token |
| Api.Client.constructor | src/services/api.ts:28 | the client shares the given emitter and starts from the given storage |
| Api.Client.HandleError | src/services/api.ts:53-84 | only a first 401 tries a refresh, and a resent request is marked retried; with no refresh token the original error is rejected; a refresh stores both tokens and resends with the new Bearer header; a failed refresh removes the three keys, notifies the `unauthorized` listeners and rejects with the refresh error |
| PhotoPicker.WithoutPosition | src/components/PhotoPicker.tsx:88-89 | the list loses exactly the entry at an in-range index, the rest keeping their order; an out-of-range index removes nothing |
| PhotoPicker.Picker.constructor | src/components/PhotoPicker.tsx:22-30 | the picker starts from the existing photos, not uploading, with no progress shown |
| PhotoPicker.Picker.RemainingSlots | src/components/PhotoPicker.tsx:47 | below the cap the free slots and the photos add up to the cap, and at least one slot is free |
| PhotoPicker.Picker.HandleAddPhoto | src/components/PhotoPicker.tsx:33-54 | at or over the cap the alert naming the cap is shown, exactly when the add button is hidden; otherwise the gallery is limited to the free slots |
| PhotoPicker.Picker.UploadPhoto | src/components/PhotoPicker.tsx:56-66 | an upload that answered with a URL appends it and reports the new list; an answer without one changes nothing and reports nothing; both end not uploading; a rejected upload leaves the picker uploading with the add button disabled, the photos unchanged and nothing reported |
| PhotoPicker.Picker.UploadPhotos | src/components/PhotoPicker.tsx:68-86 | when every upload answers, the progress is reset, uploading ends, the uploaded URLs follow the existing photos in order and the new list is reported (no URL changes nothing), and a pick within the free slots stays within the cap; a rejected upload at position k leaves the picker uploading with progress k+1 of the batch shown, the photos unchanged and nothing reported |
| PhotoPicker.Picker.RemovePhoto | src/components/PhotoPicker.tsx:88-92 | the list becomes the list without that position, is always reported, and as a multiset loses exactly the removed photo |
| RatingStars.Fills | src/components/RatingStars.tsx:22-45 | five stars are drawn and the one at position i is filled exactly when i + 1 is at most the rating |
| RatingStars.TapFillsUpToStar | src/components/RatingStars.tsx:24-50 | tapping star i of an editable row with a callback reports the rating i + 1, which fills exactly the stars up to the tapped one and shows its non-empty label |
| RatingStars.Label | src/components/RatingStars.tsx:30-39 | the label is non-empty exactly for the whole scores 1 to 5 |
| RatingStars.LabelsDistinct | src/components/RatingStars.tsx:31-37 | different scores from 1 to 5 have different labels |
| RatingStars.ShownLabel | src/components/RatingStars.tsx:63-65 | the label is shown exactly when asked for and the rating is positive, and is then the rating's label, non-empty up to 5 |
| RatingModal.FormOf | src/components/RatingModal.tsx:65-73 | an existing rating fills the form field by field; an absent comment, photo list or highlight list becomes empty and an absent recommendation becomes yes |
| RatingModal.ReopenRestoresForm | src/components/RatingModal.tsx:58-93 | a submitted form handed back as the existing rating reopens as the same form |
| RatingModal.Dialog.constructor | src/components/RatingModal.tsx:58-63 | without an existing rating the form is empty (no score, recommended); with one it is that rating's form |
| RatingModal.Dialog.SyncExisting | src/components/RatingModal.tsx:65-73 | a new existing rating replaces the whole form; none leaves the form as it was |
| RatingModal.Dialog.ToggleHighlight | src/components/RatingModal.tsx:75-83 | the chip is chosen afterwards exactly when it was not before, and every other chip keeps its count |
| RatingModal.Dialog.HandleSubmit | src/components/RatingModal.tsx:85-100 | without a score nothing is sent and the warning is shown; otherwise the form is sent, the dialog closes exactly when the submit succeeded, a failure raises the error alert, and loading is over |
| EditPreferences.InitialPreferences | src/screens/EditPreferencesScreen.tsx:19-24 | each field starts from the saved preference, empty where the user, the preferences or the field is missing |
| EditPreferences.SavedFormReloads | src/screens/EditPreferencesScreen.tsx:19-69 | a saved form read back as the user's preferences gives the same form |
| EditPreferences.PreferencesScreen.constructor | src/screens/EditPreferencesScreen.tsx:17-24 | the form is the initial preferences of the signed-in user, not saving |
| EditPreferences.PreferencesScreen.ToggleInterest | src/screens/EditPreferencesScreen.tsx:57-64 | only the interests change; the interest is present exactly when it was absent, other interests keep their counts, and toggling an absent interest twice gives the list back |
| EditPreferences.PreferencesScreen.ChooseTravelStyle | src/screens/EditPreferencesScreen.tsx:100 | only the travel style changes |
| EditPreferences.PreferencesScreen.ChooseBudgetLevel | src/screens/EditPreferencesScreen.tsx:136 | only the budget level changes |
| EditPreferences.PreferencesScreen.ChoosePace | src/screens/EditPreferencesScreen.tsx:171 | only the pace changes |
| EditPreferences.PreferencesScreen.HandleSave | src/screens/EditPreferencesScreen.tsx:66-78 | the whole form is sent with the user's name (empty when missing) and avatar; the alert is the success one exactly when the save succeeded; saving is over |
| Achievements.Filtered | src/screens/AchievementsScreen.tsx:74-78 | `all` shows the whole list; `unlocked` shows only unlocked ones and `locked` only locked ones; every kept achievement appears as often as in the list and every other one not at all |
| Achievements.FilterAll | src/screens/AchievementsScreen.tsx:74-78 | the filter with the tab's test keeps the list for `all` and keeps each achievement's count exactly when the test accepts it |
| Achievements.UnlockedAndLockedPartition | src/screens/AchievementsScreen.tsx:74-78 | the unlocked view and the locked view together are the whole list, as a multiset and in length |
| Achievements.ProgressPercentage | src/screens/AchievementsScreen.tsx:80 | 0 when there are no achievements, between 0 and 100 for consistent counts, and 100 when all are unlocked |
| Achievements.AchievementsScreen.constructor | src/screens/AchievementsScreen.tsx:25-31 | the screen starts loading, with an empty list, zero counters and the `all` filter |
| Achievements.AchievementsScreen.LoadAchievements | src/screens/AchievementsScreen.tsx:33-46 | an answer replaces the list and all three counters without a toast; a failure keeps them and shows the load error toast; loading and refreshing are over either way |
| Achievements.AchievementsScreen.HandleRefresh | src/screens/AchievementsScreen.tsx:55-58 | the pull-to-refresh runs a load: an answer replaces the list and the three counters; a failure keeps them and gives the load-error toast; loading and refreshing end false |
| Achievements.AchievementsScreen.ChooseFilter | src/screens/AchievementsScreen.tsx:143-169 | the chosen tab becomes the filter |
| Achievements.AchievementsScreen.HandleCheckAchievements | src/screens/AchievementsScreen.tsx:60-72 | the list is reloaded exactly when new achievements were reported: the toast names their number and the answer replaces the list and counters, while a failed reload keeps them and shows the load-error toast instead; none gives the alert and no reload; a failed check gives the error toast; without a reload the list, counters and flags are unchanged |
| Onboarding.OnboardingScreen.constructor | src/screens/OnboardingScreen.tsx:69-70 | the carousel starts on the first slide with the switch off |
| Onboarding.OnboardingScreen.LabelMatchesSkip | src/screens/OnboardingScreen.tsx:124-168 | on a slide, the main button reads "Começar" exactly when the skip button is hidden, which is on the last slide |
| Onboarding.OnboardingScreen.SetDontShowAgain | src/screens/OnboardingScreen.tsx:153-155 | the switch sets the flag to the chosen value |
| Onboarding.OnboardingScreen.HandleComplete | src/screens/OnboardingScreen.tsx:88-94 | the skip flag is stored exactly when the switch is on, nothing else is stored, and the carousel always completes |
| Onboarding.OnboardingScreen.HandleNext | src/screens/OnboardingScreen.tsx:74-82 | the press completes exactly when the button read "Começar"; before the last slide it moves exactly one slide on and stores nothing; on the last slide it completes as `handleComplete` does; the index always names a slide |
| Onboarding.OnboardingScreen.HandleSkip | src/screens/OnboardingScreen.tsx:84-86 | skipping completes from any slide as `handleComplete` does |
| RootNavigator.OnboardingDue | src/navigation/RootNavigator.tsx:25 | the onboarding is due exactly when no flag, or an empty one, is stored |
| RootNavigator.ScreenFor | src/navigation/RootNavigator.tsx:32-47 | the splash shows while loading, before the flag is read or during a transition; the onboarding only for a visitor without a session who has it due; the main navigator exactly for a signed-in user once ready; the sign-in navigator otherwise |
| RootNavigator.Root.constructor | src/navigation/RootNavigator.tsx:14 | nothing is known about the onboarding before storage is read |
| RootNavigator.Root.CheckOnboarding | src/navigation/RootNavigator.tsx:20-30 | the flag read decides whether the onboarding is due; a storage error makes it due |
| RootNavigator.Root.CompleteOnboarding | src/navigation/RootNavigator.tsx:38 | after completion the onboarding is never the screen shown, whatever the session |
| RootNavigator.SwitchOnSkipsNextStart | src/screens/OnboardingScreen.tsx:90-92 | completing with the switch on stores a flag that makes the next start skip the onboarding |

## Left out

- Network, device storage and concurrency: the HTTP calls, the health-probe `fetch` with its abort timer, token refresh, photo upload and the Google Places requests are replaced by their outcomes, passed in as parameters. Storage calls run one after another, so the lost update between two unawaited `addPendingSync` calls is not modelled.
- Timers and scheduling: debouncing, the toast's auto-hide, the `setTimeout` before navigating back, the artificial delays and the focus effects that trigger loads (a load is modelled as a method call).
- Rendering, styles, navigation stacks, animations, the global alert instance, logging and the thin REST wrappers. A screen's alert is returned as a value and its navigation as a flag.
- Floating point and locale formatting: currency formatting, `toFixed` percentages and the cache size in megabytes. Percentages are exact ratios (`real`), and amounts are whole cents.
- Budget.ExpenseForm.HandleAddExpense: the amount is kept exactly in cents. The source's `Number(digits) / 100` can round for very long digit strings, and the model does not follow that rounding.
- Time zones and daylight saving: a date is a (day, month, year) triple with a day number, and "today" is the start of the current local day, passed in.
- date-fns `parse` is modelled for the `dd/MM/yyyy` pattern: one or two digits for day and month, one to four for the year; other date-fns patterns and locales are not part of this model. The fields the forms check first pass a `^\d{2}\/\d{2}\/\d{4}$` test, so the lenient corners are reached only by `parseDateFromString`.
- Text is a sequence of characters: lengths count characters where JavaScript counts UTF-16 code units. Lower-casing maps ASCII and the Latin-1 capitals (U+00C0 to U+00DE, except U+00D7), which cover the mock places and messages. There is no Unicode normalisation.
- Places.DetailsOf: latitude and longitude are kept as integers scaled by 10^4, not as JavaScript numbers, and the Google predictions answer is reduced to its status and the fields the client reads.
- The Places API URLs and query strings, and the request URL and headers the HTTP client builds beyond the `Authorization` value.
- Explore.ExploreScreen.LoadData: a discover failure shows the same error toast twice in the source (once in `loadDiscoverItineraries`, once in `loadData`'s `catch`); the model shows it twice as well, but the toast state cannot tell one showing from two.
- The onboarding's swipe handler (`onMomentumScrollEnd`), which derives the slide index from the scroll offset and the screen width.
- PhotoPicker.Picker.UploadPhotos: the source's callbacks may read a stale `photos` list captured by the closure. The model reads the current list.
- `photoService` itself (device pickers and upload). Its `uploadPhoto` returns a string while `PhotoPicker` checks for an object with a `url`; the picker is modelled against its own check, with the upload result as a parameter. A failed upload, which `photoService` rethrows, is the `UploadRejected` or `BatchRejected` outcome.
- RatingStars.Fills: the rating is an integer. A fractional average rating, which the source's `s <= rating` test also accepts, is not modelled; nor are star sizes and colours.
- Api.Client.HandleError: storage writes always succeed. In the source, a failing `setItem` after a successful refresh would take the failed-refresh path.
- PhotoPicker.Picker.constructor: `maxPhotos` is a natural number; a negative prop value is not modelled.
- EditItinerary.EditForm.LoadItinerary: on a load failure, or a server date that `format` cannot show, the screen goes back (`wentBack`), but the alert's text is not returned. A day is a (day, month, year) triple from year 1 on, so a parsed instant before year 1, which `format` would still show, counts as one it cannot.
- EditItinerary.EditForm.HandleSave: the update carries the corrected conversion `ConvertToIso`. The code as written is `ConvertToIsoAsWritten`, which sends the same day exactly from year 100 on (`Calendar.AsWrittenAgreesIff`); an entry such as 01/01/0050, which this screen accepts (`EditItinerary.EarlyYearPasses`), is sent by the code as 1950 (Findings).
- EditItinerary.EditForm.SaveFilled: as for `HandleSave` above.
- GenerateScreen.GenerateForm.HandleGenerate: the request carries the corrected `ConvertToIso`; for any today from year 100 on, dates that pass send the same days as the conversion as written (`GenerateScreen.ValidDatesSendTypedDays`).
- GenerateScreen.GenerateForm.GenerateFilled: as for `HandleGenerate` above.
- Places.SearchPlaces: the table fallback is the corrected `MockSuggestions`. The code as written numbers the suggestions by their position among the matches (`Places.MockSuggestionsAsWritten`): the same cities in the same order (`Places.SameCitiesOffered`), under ids whose details can be another city's (Findings).
- Offline.OfflineService.SaveItinerariesOffline: storage writes always succeed. In the source a failing `setItem` is caught and logged, and the snapshot keeps its old value.
- Offline.OfflineService.SyncPendingActions: storage reads and writes always succeed, so the queue always ends empty. In the source a failing `removePendingSync` inside the loop is caught, and that action stays queued.
- Offline.OfflineService.DrainQueue: as for `SyncPendingActions` above.
- Offline.OfflineService: the other methods also model storage that never fails. In the source each one catches a failing read or write, and the read methods then return `[]`.
- Onboarding.OnboardingScreen.HandleComplete: the write of the skip flag always succeeds, so the carousel always completes. In the source a rejected `setItem` skips `onComplete()`.
- Profile.ProfileScreen: only the interests among the preferences are toggled here; avatar selection (`handleSelectAvatar`, a device picker) and the cache-size display are not part of this model.
- RatingModal.Dialog: the `wouldRecommend` buttons and the comment and photo setters are plain field assignments and are not modelled as separate methods; their values are read by `HandleSubmit` through the form.
- Itinerary fields that no modelled logic reads (cover image, days, activities) are left out of the records, and so are the delete dialogs.

## Findings

| source | as written | input that shows it | evidently intended | confidence | as-written member | corrected member |
|---|---|---|---|---|---|---|
| src/screens/GenerateScreen.tsx:57-63 | `Date.UTC(parseInt(year), …)` maps a year from 0 to 99 to 1900 plus that year; src/screens/EditItineraryScreen.tsx:80-86 repeats the same code | the start date "01/01/0050", which passes `validateDate`, is sent as 1 January 1950 | the day typed is sent, as for every later year | not executed | Calendar.ConvertToIsoAsWritten, Calendar.AsWrittenShiftsEarlyYears | Calendar.ConvertToIso, Calendar.ConvertToIsoOfValid |
| src/services/placesService.ts:148-159 | mock suggestions are numbered `mock_${index}` by their position among the matches, while the mock details are keyed by their place in the table | typing "londres" offers London as `mock_0`, whose details are those of Paris | each suggestion's id resolves to its own city | not executed | Places.MockSuggestionsAsWritten, Places.AsWrittenLondonResolvesToParis | Places.MockSuggestions, Places.SuggestionsResolveToTheirCity, Places.LondonResolvesToLondon |
