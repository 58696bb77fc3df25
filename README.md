# SplitSmart ledger, modelled in Dafny

SplitSmart is a shared-expense tracker for roommates. Its server keeps an in-memory ledger of users, expense categories, expenses, households, household memberships (roommates) and splits; a split is one member's share of one expense, with a paid flag. The server answers a few JSON routes over that ledger: user lookup and creation, login, a payment-status update and a per-user dashboard. The browser client then computes shares when a bill is split and filters, groups and totals what it shows.

This project models that core:

- the record shapes and their insert forms (`schema.dfy`);
- the ledger store as a class with six tables and six id counters, with its queries as functions of a snapshot and its seed data (`storage.dfy`);
- the login, user, payment-status and dashboard routes (`routes.dfy`), with the in-place sort they use (`sorting.dfy`);
- the two split dialogs (`new_split.dfy`, `add_expense.dfy`) and the participant list both keep (`participants.dfy`);
- the split-bills, roommates and expenses pages, the category chart and the settings page (`split_bills.dfy`, `roommates.dfy`, `expenses_page.dfy`, `category_chart.dfy`, `settings.dfy`);
- the client's string and number helpers (`utils.dfy`).

Supporting modules:

- `wrappers.dfy`: `Option`.
- `seqs.dfy`: filter, sum, find, stable insertion sort and deduplication over sequences, with their lemmas.
- `grouping.dfy`: the "push into a dictionary" grouping loop the pages use.
- `text.dfy`: case mapping, substring search, splitting on spaces and decimal digits.
- `money.dfy`: cents, `parseFloat` results and `toFixed(2)`.

Modelling conventions:

- Money is whole cents (`int`).
  - `x.toFixed(2)` of a quotient rounds to the nearest cent, halves away from zero (`Money.RoundCents`); its text keeps the sign of a negative quotient that rounds to zero (`Money.FixedText`).
  - `Math.round(t / g * 100)` is `(200t + g) / (2g)` with floor division.
  - The one place that divides without rounding (the "Add New Expense" dialog) uses exact `real` cents.
- Dates are integers. The month an expense falls in is a function passed in.
- `parseInt` results are `Option<int>`; `NaN` is `None`. `parseFloat` results are `Money.Number`, that is `Num(cents)` or `NaN`. A body that fails schema parsing is `None`.
- A JavaScript `Map` whose keys come from a counter lists its entries in ascending key order. `Storage.Listing(m, next)` lists keys `1 .. next-1` in that order.
- The signed-in user is user 1 throughout the client (`Participants.CurrentUserId`).
- The store starts from the seed as the seeding code builds it (`Storage.SeedAsWritten`), in which six splits sit under a key one below their id. `Storage.Seed` is the seed with every split under its own id, used to state what the seeding code evidently intended.

## Model

| member | source | states |
|---|---|---|
| Schema.InsertShapesOmitId | shared/schema.ts:15-17 | each insert shape is its record without `id`: building a record from the insert fields and an id and taking the fields back gives the same insert, and every record is rebuilt from its fields and id (users, categories, expenses, roommates, households, splits; lines 27-29, 42-44, 53-55, 64-66, 78-80 likewise) |
| Schema.SplitInsertDefaultsUnpaid | shared/schema.ts:69-80 | a split inserted without `isPaid` is stored unpaid; with it, the stored flag is the given one |
| Storage.ListingMember | server/storage.ts:49-61 | a record is listed by a table exactly when it is stored under its own id |
| Storage.ListingAscending | server/storage.ts:49-61 | a table lists its records in strictly increasing id order, with distinct ids |
| Storage.LookupById | server/storage.ts:324-326 | `get` by id finds a record exactly when the key is present, and the record found carries that id |
| Storage.GetUserByUsername | server/storage.ts:328-332 | the result is the first user, in id order, with that username, and none is returned only when no user has it |
| Storage.ExpensesByUserSpec | server/storage.ts:391-409 | the user's expenses are the ones they created, in id order, then the other expenses they have a split in; ids are distinct, and an expense is listed exactly when it was created by the user or has a split for them |
| Storage.OwedAmountNone | server/storage.ts:432-435 | with no unpaid split of the user, the amount owed is 0 |
| Storage.RoommatesByHouseholdSpec | server/storage.ts:423-445 | the memberships returned are exactly that household's memberships whose user exists, in order; each carries its stored user and owes the sum of that user's unpaid splits over all expenses |
| Storage.SplitsByUserSpec | server/storage.ts:476-494 | the splits returned are exactly the user's splits whose expense and user both exist, in order, each joined with its stored expense and user |
| Storage.SplitsByExpenseMember | server/storage.ts:471-474 | a split is returned for an expense exactly when it is stored with that expense id |
| Storage.ExpenseWithDetailsSpec | server/storage.ts:366-389 | no details exactly when the expense, its category or its creator is missing; otherwise the details carry those three records and exactly the expense's splits whose user exists, in order |
| Storage.SetPaidSpec | server/storage.ts:503-510 | a missing id leaves the ledger as it is; otherwise only the paid flag of the split stored under that key changes; the ledger stays well formed, splits that all sat under their own id still do, and repeating the update changes nothing more |
| Storage.MemStorage.constructor | server/storage.ts:63-80 | a new store is well formed (every key below its counter, every record other than a split under its own id) and holds exactly the seed as the seeding code files it (`SeedAsWritten`) |
| Storage.MemStorage.CreateUser | server/storage.ts:334-339 | the user gets the current counter as id, which exceeds every id in use; it is stored under that key, the counter grows by one, nothing else changes, and the user listing gains it at the end |
| Storage.MemStorage.CreateCategory | server/storage.ts:350-355 | as for users, on the category table |
| Storage.MemStorage.CreateExpense | server/storage.ts:411-416 | as for users, on the expense table |
| Storage.MemStorage.CreateRoommate | server/storage.ts:447-452 | as for users, on the membership table |
| Storage.MemStorage.CreateHousehold | server/storage.ts:463-468 | as for users, on the household table |
| Storage.MemStorage.CreateSplit | server/storage.ts:496-501 | the split gets the current counter as id and is stored under it, a key above every key in use; the counter grows by one, nothing else changes, the split listing gains it at the end, and a table whose splits all sat under their own id still has that property |
| Storage.MemStorage.UpdateSplitPaymentStatus | server/storage.ts:503-510 | returns the split with the new flag exactly when something is stored under the id, and the new state is `SetPaid` of the old one, still well formed |
| Storage.MemStorage.InitializeDefaultData | server/storage.ts:82-321 | run on an empty store, it leaves exactly the seed as written: the rent and grocery splits under their own id, the electricity and internet splits under a key one below their id |
| Storage.MemStorage.SeedPeople | server/storage.ts:84-144 | fills in the seeded users, their household and one membership per user, and leaves every other field as it was on the empty store |
| Storage.MemStorage.SeedUserRows | server/storage.ts:84-114 | stores the three seeded users under ids 1 to 3 and moves the user counter to 4, changing nothing else |
| Storage.MemStorage.SeedMemberships | server/storage.ts:123-144 | stores one membership of household 1 for each of users 1 to 3 and moves the membership counter to 4, changing nothing else |
| Storage.MemStorage.SeedCategoryRows | server/storage.ts:146-162 | stores the five default categories under ids 1 to 5 in their listed order and moves the category counter to 6, changing nothing else |
| Storage.MemStorage.SeedExpense | server/storage.ts:168-320 | adds the next seeded expense under its own id, then its splits: under their id where the code reads the counter once, and under the key read before the increment, with the id read after it, where the key expression increments it |
| Storage.SeedValid | server/storage.ts:82-321 | the seed as written is well formed: every key lies below its counter and every record other than a split sits under its own id; in the corrected seed every split sits under its own id too |
| Storage.SeedRowTotals | server/storage.ts:181-320 | the seeded splits of the four expenses add up to 1800.00, 156.88, 124.87 and 79.99 |
| Storage.SeedSplitsCoverAmounts | server/storage.ts:168-320 | in the seed as written, and in the corrected one, every seeded expense's splits sum exactly to its amount |
| Storage.SeedAsWrittenMisfiled | server/storage.ts:256-320 | with the seed as written, key 11 holds the split with id 12 and no split is stored under 12, so a payment update of split 12 changes nothing; the splits are not all under their own id; and the next split created takes id 12, which key 11 already carries |
| Storage.SeedSplitsFindable | server/storage.ts:181-320 | in the corrected seed, every listed split is found under its own id, and a payment update of that id marks exactly it paid |
| Routes.WithoutPasswordKeepsRest | server/routes.ts:51-57 | the public view of a user drops only the password: putting it back rebuilds the user, and a different password leaves the same public view |
| Routes.GetUserRoute | server/routes.ts:12-26 | 400 exactly for an unreadable id, 404 exactly for an unknown user, otherwise the user without the password |
| Routes.CreateUserRoute | server/routes.ts:28-42 | an unparseable body gives 400 and changes nothing; otherwise the user is stored under the next id, the user counter grows by one, nothing else changes, and the user is answered without the password |
| Routes.Login | server/routes.ts:44-65 | 400 exactly for an unparseable body; 401 exactly when the first user with that username is missing or has a different password; a success answers exactly that first user, without the password |
| Routes.PatchSplitStatus | server/routes.ts:230-253 | 400 exactly when the id or body is unreadable, 404 exactly when no split is stored under the id, 200 otherwise, answering the record stored under that key with the new flag; that record carries the requested id whenever every split sits under its own id |
| Routes.PatchSeededSplitSeven | server/routes.ts:230-253 | on the store as seeded, PATCH /api/splits/7, the id listed for user 1's electricity split, answers 200 with user 2's electricity split, whose id is 8 |
| Routes.PatchSplit | server/routes.ts:230-253 | the answer is that outcome; the store changes only on success, and then by `SetPaid` |
| Routes.Percentage | server/routes.ts:311 | for a positive grand total the result is `total / grand * 100` rounded to the nearest integer, halves up; otherwise 0 |
| Routes.PercentageBounds | server/routes.ts:311 | a part of the grand total gets a percentage between 0 and 100 |
| Routes.Dashboard | server/routes.ts:256-329 | the handler, which sorts two arrays in place, answers 400 for an unparsable id, 404 for an unknown user, and otherwise exactly the dashboard computed from the store's state |
| Routes.TotalExpensesCountsOnce | server/routes.ts:268-274 | the total is the sum over the expenses the user created plus the sum over the other expenses they have a split in, so each expense counts once |
| Routes.ShareAndOutstanding | server/routes.ts:271-282 | the user share is the sum of the user's split amounts, the outstanding amount is the sum over the unpaid ones, and the share is outstanding plus paid |
| Routes.OutstandingWithinShare | server/routes.ts:271-282 | with non-negative amounts, 0 <= outstanding <= share |
| Routes.RoommateCountSpec | server/routes.ts:285-292 | 0 when the user created no household, otherwise the number of live members of the first household they created |
| Routes.RecentExpensesSpec | server/routes.ts:295-304 | at most 5 entries, in date-descending order, being the first five of a stable descending sort with entries whose details fail dropped; no left-out expense is later than a listed one |
| Routes.RecentDetailsKept | server/routes.ts:301-304 | the entries are exactly the top five expenses whose details lookup succeeds, each carrying its own expense |
| Routes.BreakdownRow | server/routes.ts:307-319 | a row is in the breakdown exactly when its category is listed, its total is that category's positive sum and its percentage is the rounded share |
| Routes.ExpensesByCategorySpec | server/routes.ts:307-319 | the breakdown is sorted by total, descending; each row is a known category with a positive total; every category with a positive total has its row |
| Routes.CategoryTotalsPartition | server/routes.ts:307-311 | the per-category totals add up to the sum over the expenses whose category is listed |
| Routes.CategorySharesBounded | server/routes.ts:307-319 | with non-negative amounts, the category totals sum to at most the total expenses and each percentage lies in 0..100 |
| Sorting.SortDescInPlace | server/routes.ts:295-297 | sorts the array in place into the stable descending order of its key, the order `SortDesc` defines and proves sorted and a permutation |
| Sorting.SortedCopy | server/routes.ts:295-297 | a fresh array holding the list in the stable descending order of its key, as sorting the freshly fetched array leaves it |
| Participants.ToggledSpec | client/src/pages/split-bills/NewSplitModal.tsx:148-154 | checking adds one occurrence of the id; unchecking removes every occurrence; every other id keeps its count |
| Participants.ToggledKeepsCurrentUser | client/src/pages/split-bills/NewSplitModal.tsx:328 | toggling any other id keeps the current user in the list |
| Money.RoundCents | client/src/pages/split-bills/NewSplitModal.tsx:114 | the result is the nearest cent to the quotient, halves away from zero |
| Money.RoundCentsNearest | client/src/pages/split-bills/NewSplitModal.tsx:114 | the rounded share is within half a cent of the exact one |
| Money.RoundCentsExact | client/src/pages/split-bills/NewSplitModal.tsx:114 | a whole number of cents is left as it is |
| Money.FixedText | client/src/pages/split-bills/NewSplitModal.tsx:78-80 | the two-decimal text of a quotient is the text of its rounded amount, except that a negative quotient rounding to zero prints "-0.00" |
| Money.CentsTextInjective | client/src/pages/split-bills/NewSplitModal.tsx:78-80 | different amounts print differently with two decimals |
| NewSplit.SplitRequestsSpec | client/src/pages/split-bills/NewSplitModal.tsx:100-117 | one request per participant in order, all for the new expense; paid exactly for user 1; the given due date or null; in equal mode the rounded equal share; in custom mode a non-blank entry's value and otherwise the equal share |
| NewSplit.EqualSharesResidual | client/src/pages/split-bills/NewSplitModal.tsx:103-114 | no residual is assigned: equal shares sum to n times the rounded share, within n/2 cents of the amount |
| NewSplit.ThreeWayHundred | client/src/pages/split-bills/NewSplitModal.tsx:103-114 | 100.00 among three gives 33.33 each, 99.99 in all |
| NewSplit.CustomTotalAfterChange | client/src/pages/split-bills/NewSplitModal.tsx:156-158 | editing one entry moves the custom total by the new value minus that entry's previous value; all other entries still count, including those of deselected participants (lines 177-182) |
| NewSplit.IsCustomSplitsValid | client/src/pages/split-bills/NewSplitModal.tsx:185 | the totals agree within 0.01 exactly when the amount is a number equal to the custom total in cents |
| NewSplit.SubmitEnabled | client/src/pages/split-bills/NewSplitModal.tsx:400-403 | enabled exactly when not saving and either in equal mode or with agreeing custom totals |
| NewSplit.EqualSplitDisplay | client/src/pages/split-bills/NewSplitModal.tsx:78-80 | "0.00" with nobody selected, "NaN" for an unreadable amount, otherwise the equal share as `toFixed(2)` prints it |
| NewSplit.EqualSplitDisplaySigned | client/src/pages/split-bills/NewSplitModal.tsx:78-80 | a typed -0.01 shared three ways shows "-0.00", since `toFixed` keeps the sign of a share that rounds to zero |
| NewSplit.NewSplitForm.constructor | client/src/pages/split-bills/NewSplitModal.tsx:53-65 | the defaults: equal mode, only the current user, no custom entries |
| NewSplit.NewSplitForm.Open | client/src/pages/split-bills/NewSplitModal.tsx:160-175 | opening resets to equal mode, only the current user and no custom entries |
| NewSplit.NewSplitForm.HandleRoommateSelection | client/src/pages/split-bills/NewSplitModal.tsx:148-154 | the list is toggled; custom entries and mode stay; toggling another id keeps the current user in |
| NewSplit.NewSplitForm.HandleCustomSplitChange | client/src/pages/split-bills/NewSplitModal.tsx:156-158 | the user's entry becomes the new one and every other user's entry is unchanged |
| NewSplit.NewSplitForm.ChooseSplitType | client/src/pages/split-bills/NewSplitModal.tsx:70-75 | switching to equal clears the custom entries; switching to custom keeps them |
| AddExpense.CreatedExpenseListedForUser | client/src/pages/expenses/AddExpenseModal.tsx:68-75 | once the store has created the posted expense under the next id, the store is still well formed, the expense is listed last among all expenses, and it is among the current user's expenses |
| AddExpense.ShareFor | client/src/pages/expenses/AddExpenseModal.tsx:80-89 | `n` shares make up the amount exactly |
| AddExpense.ShareRequestsSpec | client/src/pages/expenses/AddExpenseModal.tsx:80-90 | one request per participant in order, all for the new expense, due on the expense date, paid exactly for user 1, all shares equal and each exactly amount / n |
| AddExpense.AddExpenseForm.constructor | client/src/pages/expenses/AddExpenseModal.tsx:48-58 | the defaults: dated today, only the current user |
| AddExpense.AddExpenseForm.Open | client/src/pages/expenses/AddExpenseModal.tsx:127-133 | opening dates the form today and resets the participants to the current user |
| AddExpense.AddExpenseForm.HandleRoommateSelection | client/src/pages/expenses/AddExpenseModal.tsx:119-125 | the list is toggled and the date kept; toggling another id keeps the current user in |
| AddExpense.AddExpenseForm.SplitRequests | client/src/pages/expenses/AddExpenseModal.tsx:80-90 | in a valid form there is at least one participant, so no division by zero; one request per participant, due on the form's date, each exactly amount / n |
| Grouping.GroupBy | client/src/pages/split-bills/SplitBillsPage.tsx:160-166 | every element's key has a group; each group is the non-empty, order-preserving run of the elements with its key; the key list is duplicate-free and names exactly the groups |
| Grouping.GroupsPartition | client/src/pages/split-bills/SplitBillsPage.tsx:160-166 | an element is in a group exactly when it has that group's key |
| Grouping.GroupKeys | client/src/pages/expenses/ExpensesPage.tsx:92-102 | every member of a group comes from the input and has that group's key |
| SplitBills.TotalAmount | client/src/pages/split-bills/SplitBillsPage.tsx:146-157 | 0 while no splits are loaded |
| SplitBills.TotalsAddUp | client/src/pages/split-bills/SplitBillsPage.tsx:146-157 | all = pending + paid; pending sums the unpaid splits, paid the paid ones, all every split |
| SplitBills.FilteredSplitsSpec | client/src/pages/split-bills/SplitBillsPage.tsx:73-78 | "pending" keeps exactly the unpaid splits, "paid" exactly the paid ones, any other tab all, in order |
| SplitBills.GroupSplits | client/src/pages/split-bills/SplitBillsPage.tsx:160-166 | each filtered split is in exactly the group of its expense id, groups keep order and partition the list |
| SplitBills.SplitsByUserConsistent | server/storage.ts:476-494 | splits of one expense returned by the store carry the same expense record |
| SplitBills.GroupTotalSpec | client/src/pages/split-bills/SplitBillsPage.tsx:271-273 | a group's displayed total is the amount of the expense every split in it belongs to |
| SplitBills.MarkAsPaid | client/src/pages/split-bills/SplitBillsPage.tsx:90-92 | the update always sets the flag to paid |
| SplitBills.MarkAsPaidSpec | client/src/pages/split-bills/SplitBillsPage.tsx:274-317 | the button is offered exactly when the current user's first split in the group is unpaid, and it updates that split |
| Roommates.FilteredRoommatesSpec | client/src/pages/roommates/RoommatesPage.tsx:66-69 | a member is kept exactly when the lowercased term occurs in their lowercased name or email; an empty term keeps everyone |
| Roommates.TotalOutstanding | client/src/pages/roommates/RoommatesPage.tsx:205 | 0 with no data |
| Roommates.TotalOutstandingCovers | client/src/pages/roommates/RoommatesPage.tsx:205 | with nothing negative owed, the total is non-negative and at least what each member owes |
| Roommates.StandingOf | client/src/pages/roommates/RoommatesPage.tsx:164-183 | "Owes" with the amount exactly when something is owed by someone other than the current user; the current user's own row is always settled |
| Roommates.TotalMembers | client/src/pages/roommates/RoommatesPage.tsx:200 | the member count, 0 with no data |
| Roommates.ShareRatioSpec | client/src/pages/roommates/RoommatesPage.tsx:211 | "N/A" exactly with no members; otherwise "1/" followed by the decimal member count |
| ExpensesPage.FilteredExpenses | client/src/pages/expenses/ExpensesPage.tsx:52-59 | empty while no expenses are loaded |
| ExpensesPage.FilteredExpensesSpec | client/src/pages/expenses/ExpensesPage.tsx:52-59 | an expense is listed exactly when both the category filter and the search accept it; "all" with an empty search lists everything |
| ExpensesPage.CategoryFilterExact | client/src/pages/expenses/ExpensesPage.tsx:53 | the decimal text of a category id selects exactly the expenses of that category |
| ExpensesPage.GetCategoryIcon | client/src/pages/expenses/ExpensesPage.tsx:75-89 | a listed name gets its icon, any other name gets "tag", and the result is always a listed icon |
| ExpensesPage.GetCategoryDetails | client/src/pages/expenses/ExpensesPage.tsx:48-50 | a category found has the requested id |
| ExpensesPage.GetCategoryDetailsSpec | client/src/pages/expenses/ExpensesPage.tsx:48-50 | nothing found exactly when the categories are not loaded or none has the id; otherwise the first one with the id |
| ExpensesPage.GroupByMonth | client/src/pages/expenses/ExpensesPage.tsx:91-109 | every expense's month has a group holding, in order, exactly that month's expenses; the month list names each group once and is strictly decreasing |
| CategoryChart.ChartData | client/src/pages/dashboard/CategoryChart.tsx:38-51 | no rows give exactly the placeholder; otherwise one entry per row, in order, with its name, colour, percentage and total |
| CategoryChart.NoPlaceholderForData | client/src/pages/dashboard/CategoryChart.tsx:38-51 | fed from a non-empty dashboard breakdown, the chart contains no placeholder |
| CategoryChart.ChartState.HandleTimeRangeChange | client/src/pages/dashboard/CategoryChart.tsx:32-36 | only the selected range changes |
| Settings.CheckPassword | client/src/pages/settings/SettingsPage.tsx:94-114 | a mismatch is rejected first, then a password shorter than 6; otherwise accepted; the current password plays no part |
| Settings.SettingsPage.constructor | client/src/pages/settings/SettingsPage.tsx:18-55 | the initial profile, household, forms and every notification on |
| Settings.SettingsPage.HandleProfileChange | client/src/pages/settings/SettingsPage.tsx:58-61 | only the named profile field changes |
| Settings.SettingsPage.HandlePasswordChange | client/src/pages/settings/SettingsPage.tsx:63-66 | only the named password field changes |
| Settings.SettingsPage.HandleHouseholdChange | client/src/pages/settings/SettingsPage.tsx:68-71 | only the household-name field changes |
| Settings.SettingsPage.HandleNotificationChange | client/src/pages/settings/SettingsPage.tsx:73-75 | only the named switch changes, and every switch keeps a value |
| Settings.SettingsPage.HandleProfileSubmit | client/src/pages/settings/SettingsPage.tsx:78-92 | only the display name and email change; id, username and initials stay |
| Settings.SettingsPage.HandlePasswordSubmit | client/src/pages/settings/SettingsPage.tsx:94-128 | answers the verdict of the checks; on success all three fields are cleared, otherwise they stay as typed; nothing else changes |
| Settings.SettingsPage.HandleHouseholdSubmit | client/src/pages/settings/SettingsPage.tsx:130-143 | only the household's name changes |
| Utils.InitialsAsWrittenCounterexample | client/src/lib/utils.ts:36-43 | as written, "Jamie " gives "JUNDEFINED" and " " throws |
| Utils.CreateUserInitials | client/src/lib/utils.ts:36-43 | the intended initials are one or two characters |
| Utils.InitialsCorrected | client/src/lib/utils.ts:42 | the intended initials of "Jamie " are "JA" |
| Utils.InitialsOfBlank | client/src/lib/utils.ts:37 | a name without words, empty or blank, gives "??" |
| Utils.InitialsAgree | client/src/lib/utils.ts:36-43 | on a name without empty pieces, the code as written and the intended initials agree |
| Utils.TruncateTextSpec | client/src/lib/utils.ts:31-34 | text that fits is unchanged; longer text keeps its first maxLength characters plus "...", maxLength + 3 in all |
| Utils.CalculatePercentageChange | client/src/lib/utils.ts:26-29 | from 0 the change is 100 for a positive figure and 0 otherwise |
| Utils.PercentageChangeInverse | client/src/lib/utils.ts:26-29 | applying the change to the previous figure gives the current one; its sign follows the direction of the change for a positive previous figure; it is 0 exactly when the figures are equal |
| Utils.GenerateShareableLink | client/src/lib/utils.ts:57-60 | the link starts with origin + "/share/" + type + "/" |
| Utils.ShareableLinkInjective | client/src/lib/utils.ts:57-60 | two items of one type get the same link exactly when their ids are equal |

## Left out

- The 500 answers of the routes are not modelled. The in-memory store never throws, so they cannot occur.
- Network, Express routing, react-query fetching and cache invalidation are not modelled. Requests are values, and the routes are functions or methods over the store.
- Creating an expense and then its splits with parallel requests is not modelled. The model has no atomicity and no ordering among those requests.
- Schema parsing and JavaScript number parsing are not modelled. Their results are inputs: `Option` for a body or integer, `Money.Number` for a float field.
- Floating point is not modelled. Amounts are whole cents and rounding is exact; binary-double artefacts of `toFixed` are not represented.
- AddExpense.ShareFor: the unrounded share is an exact rational, not a double, so the statement that `n` shares make up the amount holds only in exact arithmetic. No lemma says the stored shares sum to the amount, because the code does not guarantee it.
- Custom split entries are whole cents. A typed value with more than two decimals, which `toFixed(2)` would round, is not represented. With whole cents the 0.01 tolerance means equality.
- Dates, `new Date` parsing, `toLocaleString` month names and all Intl currency/date formatting are not modelled. Dates are integers and a month is a function passed in.
- The order in which split groups are displayed (integer object keys in ascending order) is not modelled. The groups are a map.
- getCategoryIcon looks names up in a plain object, so inherited names such as "toString" also hit; the model looks only at the nine listed names.
- Case mapping is ASCII only, and string lengths count characters rather than UTF-16 code units.
- The generic `[name]: value` form handlers of the Settings page are modelled with one enumeration of field names per form. `handleSaveNotifications` only shows a toast and is not modelled.
- Toasts, dialogs, rendering, Tailwind classes, layout components, `debounce`, `getRandomColor` and `cn` are not modelled. The mock-data pages are not modelled: reports, the dashboard's sample widgets and social sharing.
- The reminder and sharing buttons of the split-bills page and the add-roommate dialog only send requests and are not modelled.
- Storage.MemStorage.CreateSplit: a split created without `isPaid` is stored unpaid (`false`). The store as written keeps the field missing until the schema default is applied at parse time; the model applies the default at once.
- The equal allocation assigns no residual to anyone, although a residual assignment could be expected. The model follows the code, and `NewSplit.EqualSharesResidual` bounds the resulting gap.

## Findings

| source | as written | input that shows it | evidently intended | confidence | as-written member | corrected member |
|---|---|---|---|---|---|---|
| server/storage.ts:256-320 | the six seeded splits of the electricity and internet expenses are stored under key `k` while their `id` field is `k + 1`, because the key expression increments the counter before the id is read | a direct PATCH /api/splits/12 answers 404, because no split is stored under key 12; PATCH /api/splits/7, the id listed for user 1's electricity split, marks and answers user 2's split with id 8 (`Routes.PatchSeededSplitSeven`); and the first split created afterwards takes id 12, which the split under key 11 already carries | every record is stored under its own id, as `create*` does | not executed | Storage.SeedAsWrittenMisfiled | Storage.SeedSplitsFindable |
| client/src/lib/utils.ts:42 | the first and last space-separated pieces are indexed without checking that they are non-empty | "Jamie " gives "JUNDEFINED"; " " throws a TypeError | initials of the first and last non-empty words | not executed | Utils.InitialsAsWrittenCounterexample | Utils.InitialsCorrected |
