# Token-guarded cache and sync of a personal-finance app, in Dafny

This project models the data layer of a personal-finance web app: the
part that keeps a local copy of a user's data and decides when that copy
can be trusted.

The app keeps its data in a remote document store (Firestore). It keeps a
local copy in an IndexedDB snapshot, or in localStorage for reminders.
Each part of the data has a token: a timestamp string minted on every
write. It is stored both remotely (a document under
`users/<uid>/tokens/...`) and locally. A read compares the two tokens. When
they agree it answers from the local copy; otherwise it re-reads the
remote data and records the remote token locally.

The model covers:

- **The local snapshot.** `CacheService` in `cache.dfy` holds one optional
  `CacheStore` record. `updateCategories` and `updateTransactions` both
  read the record, change it and write it back.
- **The transaction sync.** `SyncService` in `sync.dfy` decides hit or
  miss for categories and for one year of transactions. It also writes a
  transaction, mints that year's token, re-reads the year and writes the
  result through to the cache. The remote transaction adapter it relies on
  is in `user_transactions.dfy`.
- **Recurring expenses.**
  - `user_recurring_expenses.dfy` is the remote adapter.
  - `recurring_sync.dfy` is the token-guarded cache of the active
    definitions: the per-definition catch-up loop, clearing the cache, and
    delete.
  - `recurring_processor.dfy` turns every overdue occurrence of every
    definition into a transaction, advancing `nextOccurrence` weekly,
    monthly or yearly. Civil dates are in `dates.dfy`.
- **Reminders.**
  - `reminder_sync.dfy` is the localStorage token cache, cleared on every
    write.
  - `reminders_store.dfy` is the in-memory store with its 30-second
    freshness window, its grouping by date and its future list.
  - `reminder_notifications.dfy` holds the notification windows and texts.
  - `user_reminders.dfy` is the remote adapter the sync calls.
- **Category trees.**
  - `category_options.dfy` covers the cascader options of
    `getCascaderCategoryOptions`.
  - `tree_chart.dfy` covers the chart trees of `buildCategoryTree`.

**The remote store.** It is the class `Firestore` (`firestore.dfy`), whose
collections are maps keyed by user, by (user, year) or by (user, token
name). Each collection is a sequence of documents `Doc(id, data)` in the
order they were first written.

**Failures.** Failure is modelled by the field `budget: Option<nat>`.
`Some(n)` means the connection serves the next `n` remote calls and every
later call throws; `None` means it never fails. Every awaited remote call
spends one unit. This lets each contract say exactly which writes
happened before a call failed: for example, a transaction was written but
its token was not. Failures therefore always form a suffix of the calls:
once a call fails, every later call fails too. A transient failure that
the source catches and that is followed by served calls is not modelled;
"Transient failures" under "Left out" names the operations where this
matters.

**Values passed in as parameters.**
- Minted tokens (`new Date().toISOString()`), new document ids and
  `crypto.randomUUID()` values.
- Clock readings.
- The `processFn` callback: a function on definitions.
- `getCategoriesWithType`: an opaque function on category lists.

**What is proved.** The contracts of the sync operations give their
effect on the remote maps, the cache snapshot and localStorage, including
on a failure after which the connection stays down. Transient failures
are not covered (see "Transient failures" under "Left out"). Two exceptions are listed under "Left out": the recurring
processor states the cache only through its invariant, and the catch-up
of one definition leaves the budget unstated. The lemmas next to the
operations relate several calls. For example:
- a miss followed by an unchanged remote is a hit;
- the catch-up plan produces exactly the occurrences up to today;
- every category reachable from a root appears exactly once among the
  cascader options, and every other category (an orphan, or a member of a
  parent cycle) is left out;
- when no parent cycle is reachable from its root, a chart tree holds each
  descendant of the root exactly once.

**Where the code and its stated intent differ, the model follows the code.**
- `addReminder` in the reminders store stamps `createdAt` and `updatedAt`
  with two separate clock readings, so they are not guaranteed equal.
- The notification check drops every reminder more than 24 hours ahead
  before it looks at the schedules, so only a `1_DAY` schedule can ever
  fire (`ReminderNotifications.OnlyOneDayFires`).

## Model

| member | source | states |
|---|---|---|
| Cache.WithCategories | src/services/cache.ts:39-49 | the snapshot after `updateCategories`: the given list and token, every other field (transactions, year tokens, recurring list and token) as in the old snapshot or the empty default; the invariant is kept |
| Cache.WithTransactions | src/services/cache.ts:51-65 | the snapshot after `updateTransactions`: the year's list and token are the given ones, every other year's list and token and the categories are unchanged |
| Cache.CacheService.constructor | src/services/cache.ts:18-21 | a new cache holds no snapshot |
| Cache.CacheService.GetStore | src/services/cache.ts:31-33 | returns the stored snapshot, or none |
| Cache.CacheService.SetStore | src/services/cache.ts:35-37 | the whole record is replaced by the given snapshot |
| Cache.CacheService.UpdateCategories | src/services/cache.ts:39-49 | the stored snapshot becomes `WithCategories` of the old one; the well-formedness invariant is preserved |
| Cache.CacheService.UpdateTransactions | src/services/cache.ts:51-65 | the stored snapshot becomes `WithTransactions` of the old one; the invariant is preserved |
| Cache.SetThenGet | src/services/cache.ts:31-37 | `setStore(s)` then `getStore()` returns exactly `s` |
| Cache.UpdatesIdempotent | src/services/cache.ts:39-65 | applying either update twice with the same arguments gives the snapshot a single call gives |
| Cache.UpdatesOnAbsentStore | src/services/cache.ts:40-60 | on an absent snapshot both updates start from the empty default record |
| Cache.UpdateTransactionsAsWritten | src/services/cache.ts:62-63 | the update as written throws exactly when the snapshot lacks the transactions map or the year-token map |
| Cache.LocalYearTokenAsWritten | src/services/sync.ts:47 | reading a year's local token throws exactly when a snapshot exists without the year-token map |
| Cache.WithRecurring | src/services/recurringSync.ts:61-68 | the record the recurring sync writes: the new list and local token, every other field kept; from an absent snapshot it has only the recurring fields |
| Cache.RecurringSnapshotBreaksYearOperations | src/services/recurringSync.ts:61-68 | a snapshot first written by the recurring sync makes the next `updateTransactions` and year-token read throw `TypeError` |
| Sync.SyncService.constructor | src/services/sync.ts:15-18 | the service is bound to its user, cache and store |
| Sync.SyncService.ReadRemoteToken | src/services/sync.ts:22-25 | one remote read; on success the `token` field of the named token document, if any |
| Sync.SyncService.SyncCategories | src/services/sync.ts:20-42 | on a hit (remote token present and equal to the local one) returns the cached list and writes nothing; on a miss refetches and caches the list under the remote token; a failure leaves the cache unchanged |
| Sync.SyncService.SyncTransactionsYear | src/services/sync.ts:44-67 | without a local year token goes straight to the refetch; on equal tokens returns the cached year without writing; otherwise refetches and caches the year under the remote token |
| Sync.SyncService.SyncFromFirebase | src/services/sync.ts:70-83 | reads the year's list and then its token, and caches both; on failure the cache is unchanged |
| Sync.SyncService.RefreshYear | src/services/sync.ts:92-102 | the re-read after a write caches the year's current list under its current remote token, or changes nothing when a read fails |
| Sync.SyncService.UpdateTransactionAndCache | src/services/sync.ts:85-103 | four calls: the transaction is stored under its timestamp's year, then that year's remote token becomes the minted one, then the year is re-read and cached under it; each store changes exactly when its call was served; on failure the cache is unchanged |
| Sync.SyncService.DeleteTransactionAndCache | src/services/sync.ts:105-124 | removes the id from the given year, then sets that year's remote token to the minted one, each exactly when its call was served; an adapter failure is rethrown after two calls; on success the cached year no longer holds the id and carries the new token |
| Sync.SyncService.WriteAndCache | src/services/sync.ts:131-166 | document write, then token mint, then year re-read and cache write, with the effect of each step that completed before a failure |
| Sync.SyncService.CreateTransaction | src/services/sync.ts:126-171 | writes only the timestamp's year, sets that year's remote token to the new one, caches the re-read year under it; returns the transaction, or null on any failure |
| Sync.SyncService.UpdateTransaction | src/services/sync.ts:173-219 | as create, with a merge write |
| Sync.SyncService.DeleteTransaction | src/services/sync.ts:221-259 | deletes from the given year only, mints that year's token, caches the re-read year; rethrows on failure |
| Sync.CategoriesMissThenHit | src/services/sync.ts:20-41 | after a miss under a truthy remote token, a repeated call with no remote change is a hit returning the same list |
| Sync.YearMissThenHit | src/services/sync.ts:44-82 | after a refetch under a truthy remote token, the next `syncTransactionsYear` is a hit returning the fetched list |
| SyncFindings.JsArrayKey | src/services/sync.ts:81 | the property key a list becomes: empty exactly for the empty list, otherwise starting with `[` |
| SyncFindings.SwappedCallTokens | src/services/sync.ts:81 | the swapped call files the token under the list's key |
| SyncFindings.SwappedCallNeverEstablishesYearToken | src/services/sync.ts:81 | the swapped call never stores a token under the four-digit year key |
| SyncFindings.SwappedCallExample | src/services/sync.ts:81 | with one transaction, the intended call records the token under "2024" and the swapped call does not |
| UserTransactions.Merged | src/api/database/modules/subcollections/user.transactions.ts:79-91 | a merge write keeps the stored description only where the new transaction has none |
| UserTransactions.AfterWrite | src/api/database/modules/subcollections/user.transactions.ts:41-52 | the year's documents after a set: the id maps to the (merged) transaction, every other id is unchanged, unique ids are kept |
| UserTransactions.GetUserTransactionsByYear | src/api/database/modules/subcollections/user.transactions.ts:20-30 | returns exactly the documents of that year |
| UserTransactions.WriteTransactionAndToken | src/api/database/modules/subcollections/user.transactions.ts:38-59 | the transaction is filed under its timestamp's year, then that year's token becomes the minted value; no other year changes |
| UserTransactions.CreateUserTransaction | src/api/database/modules/subcollections/user.transactions.ts:35-68 | files the transaction under its year by id and mints the year token; null on error |
| UserTransactions.UpdateUserTransaction | src/api/database/modules/subcollections/user.transactions.ts:73-107 | merge-writes only into the new timestamp's year, so a copy under an old year stays; null on error |
| UserTransactions.DeleteTransactionAndToken | src/api/database/modules/subcollections/user.transactions.ts:120-136 | removes only that id from that year, then mints that year's token |
| UserTransactions.DeleteTransaction | src/api/database/modules/subcollections/user.transactions.ts:112-143 | as above, rethrowing on failure |
| UserTransactions.GetYearToken | src/api/database/modules/subcollections/user.transactions.ts:148-156 | the stored token, or null when it is absent or empty |
| UserRecurringExpenses.Apply | src/api/database/modules/subcollections/user.recurringExpenses.ts:107-120 | a partial update takes each given field from the patch and keeps every other field, and never changes the id |
| UserRecurringExpenses.ApplyPatches | src/api/database/modules/subcollections/user.recurringExpenses.ts:107-120 | a full patch stores the given definition; an empty patch changes nothing |
| UserRecurringExpenses.ApplyIdempotent | src/api/database/modules/subcollections/user.recurringExpenses.ts:107-120 | applying the same patch twice is applying it once |
| UserRecurringExpenses.ActiveExpensesExactly | src/api/database/modules/subcollections/user.recurringExpenses.ts:57-65 | the active query returns exactly the definitions with `isActive`, each carrying its document id |
| UserRecurringExpenses.ActiveExpenseIds | src/api/database/modules/subcollections/user.recurringExpenses.ts:60-65 | every returned definition's id is a stored document id |
| UserRecurringExpenses.FindById | src/services/recurringSync.ts:116 | `find` by id: none exactly when no element has the id, else an element with it |
| UserRecurringExpenses.FindInActive | src/services/recurringSync.ts:114-117 | with unique ids, finding an id among the active definitions gives the stored definition if it is active, and none otherwise |
| UserRecurringExpenses.AddRecurringExpense | src/api/database/modules/subcollections/user.recurringExpenses.ts:25-45 | stores the data with the user id under a fresh id and returns it; a failure is rethrown with the fixed message |
| UserRecurringExpenses.CollectActive | src/api/database/modules/subcollections/user.recurringExpenses.ts:59-65 | the `forEach`/`push` loop builds exactly the active list |
| UserRecurringExpenses.GetActiveRecurringExpenses | src/api/database/modules/subcollections/user.recurringExpenses.ts:48-71 | returns the active definitions, or the fixed error |
| UserRecurringExpenses.GetRecurringExpenseById | src/api/database/modules/subcollections/user.recurringExpenses.ts:74-104 | the stored definition with its id, or null when absent; the fixed error on failure |
| UserRecurringExpenses.UpdateRecurringExpense | src/api/database/modules/subcollections/user.recurringExpenses.ts:107-131 | patches only that definition; a missing document or failed call gives the fixed error and no change |
| RecurringSync.GetRemoteToken | src/services/recurringSync.ts:15-25 | the remote token when the document exists, else none |
| RecurringSync.SetRemoteToken | src/services/recurringSync.ts:28-37 | the token document becomes `{token}` |
| RecurringSync.Reload | src/services/recurringSync.ts:57-69 | the fetch path: the cache holds the active list under the new token, other fields kept, and the remote token equals it |
| RecurringSync.Lookup | src/services/recurringSync.ts:44-69 | a hit needs all four of not forced, truthy cached token, equal remote token and cached data, and writes nothing; a failed token read changes nothing; every other path reloads: the snapshot becomes `Reloaded` of the old one, the remote token the new one on success, with the error of the call that failed; afterwards local and remote agree |
| RecurringSync.GetRecurringExpensesAsWritten | src/services/recurringSync.ts:40-70 | as written, a defined list is returned exactly on a hit; every reload, after a token mismatch too, returns `undefined` while it caches the list and publishes the token as `Lookup` does |
| RecurringSync.GetRecurringExpenses | src/services/recurringSync.ts:40-70 | with the missing `return` added: the cached list on a hit, otherwise the freshly read active list, cached and published, with the snapshot, tokens, budget and error of each path as `Lookup` states |
| RecurringSync.UpdateRecurringExpenseAndCache | src/services/recurringSync.ts:73-97 | a missing definition fails with the fixed message and changes nothing else; otherwise the full patch is applied to the stored definition, the active list is re-read and cached, and the remote token becomes the new one on success; other users untouched |
| RecurringSync.CatchUpEnds | src/services/recurringSync.ts:108-120 | the loop ends on the same id, either not due or about to be deactivated; a definition that is not due is returned at once with count 0 |
| RecurringSync.DeactivationIsUndone | src/services/recurringSync.ts:108-125 | when processing deactivates a due definition, the loop stops on the stale copy, which is written back still active and due |
| RecurringSync.ProcessOnce | src/services/recurringSync.ts:112-117 | one round: processFn's write, the active query, `find` by id |
| RecurringSync.ReachedStep | src/services/recurringSync.ts:108-117 | a round on a due definition keeps the loop invariant while the refreshed copy stays active, and never exceeds `Rounds` |
| RecurringSync.ReachedEnd | src/services/recurringSync.ts:108-120 | where the loop stops, its count, rounds and last write are those of `CatchUp`, `Rounds` and `LastWrite` |
| RecurringSync.RunStep | src/services/recurringSync.ts:108-120 | rounds and last write follow the loop round by round: none for a definition not due, one more per due round, a later write replacing an earlier one |
| RecurringSync.WrittenBackFrame | src/services/recurringSync.ts:112-113 | processFn's write under one id touches no other user and no other definition, and keeps ids unique |
| RecurringSync.WriteAgain | src/services/recurringSync.ts:112-113 | a second write under the same id replaces the first |
| RecurringSync.ExpiredEffect | src/services/recurringSync.ts:100-127 | the final update after the loop finds the last definition processFn wrote, else the one stored before, and replaces it in place; budget and outcome follow |
| RecurringSync.CatchUpLoop | src/services/recurringSync.ts:105-120 | loops while active and due at the fixed `now`, two calls a round; the count rises only when the refreshed definition is found; ends where `CatchUp` does, and the store holds exactly the last definition processFn wrote, `LastWrite` when no call failed |
| RecurringSync.ProcessExpiredRecurringExpense | src/services/recurringSync.ts:100-127 | succeeds exactly when all `2*Rounds+3` calls are served and a definition is stored under the id; then returns the catch-up count, the stored definition is the last one written patched with the definition the loop ended on, the remote token and the cached list are refreshed; no other definition of any user changes |
| RecurringSync.Cleared | src/services/recurringSync.ts:129-139 | the cleared snapshot: empty list, empty token, other fields kept |
| RecurringSync.ClearRecurringExpensesCache | src/services/recurringSync.ts:129-139 | stores the cleared snapshot, after which no lookup can be a hit |
| RecurringSync.DeleteRecurringExpense | src/api/database/modules/subcollections/user.recurringExpenses.ts:134-179 | deletes the definition, sets a new remote token, force-refreshes; on success local and remote tokens agree and the id is gone; every failure has the fixed message |
| Dates.DaysInMonth | src/services/recurringProcessor.ts:7-11 | month lengths between 28 and 31 |
| Dates.YearLength | src/services/recurringProcessor.ts:13-17 | consecutive year starts are a year length apart (Gregorian leap rule) |
| Dates.NextMonthStart | src/services/recurringProcessor.ts:7-11 | a month starts where the previous month ends |
| Dates.Normalize | src/services/recurringProcessor.ts:7-23 | the overflowing day of a `setDate`/`setMonth` rolls into the following months, keeping the day number |
| Dates.AddWeeks | src/services/recurringProcessor.ts:19-23 | advances by exactly `7*n` days, time of day kept |
| Dates.AddMonths | src/services/recurringProcessor.ts:7-11 | advances the month field, rolling an overflowing day into the next month |
| Dates.AddYears | src/services/recurringProcessor.ts:13-17 | advances the year field, 29 February rolling to 1 March |
| Dates.AddWeeksIsLater | src/services/recurringProcessor.ts:19-23 | a positive step is strictly later |
| Dates.AddMonthsIsLater | src/services/recurringProcessor.ts:7-11 | a positive step is strictly later |
| Dates.AddYearsIsLater | src/services/recurringProcessor.ts:13-17 | a positive step is strictly later |
| RecurringProcessor.Step | src/services/recurringProcessor.ts:79-92 | the next occurrence per frequency: none exactly for an unknown frequency, otherwise strictly later |
| RecurringProcessor.OccurrencesProperties | src/services/recurringProcessor.ts:61-109 | the occurrences processed start at `nextOccurrence`, are all at or before today, strictly increase, follow the step, and the next one is after today |
| RecurringProcessor.UnknownFrequencyOnce | src/services/recurringProcessor.ts:89-108 | with an unknown frequency an overdue definition yields exactly one occurrence |
| RecurringProcessor.MakeTransaction | src/services/recurringProcessor.ts:66-73 | the generated transaction copies amount, category and description, is dated at the occurrence and carries the user id |
| RecurringProcessor.ExpensePlanMatchesOccurrences | src/services/recurringProcessor.ts:57-109 | one definition's plan creates one transaction per occurrence up to today, in order, with consecutive UUIDs |
| RecurringProcessor.ExpensePlanCarriesDefinition | src/services/recurringProcessor.ts:95-103 | every persisted definition is the original with `nextOccurrence` stepped from the transaction just created |
| RecurringProcessor.MaterializedAppend | src/services/recurringProcessor.ts:75 | materialising actions in two batches is materialising them at once |
| RecurringProcessor.PersistedAppend | src/services/recurringProcessor.ts:97-100 | persisting actions in two batches is persisting them at once |
| RecurringProcessor.LostOccurrenceKeepsDefinitions | src/services/recurringProcessor.ts:75-102 | a lost transaction write, with the write-backs around it landing, leaves the stored definitions as if it had landed: `nextOccurrence` still moves past that occurrence |
| RecurringProcessor.Resume | src/services/recurringProcessor.ts:61-108 | where a definition's `nextOccurrence` ends up: never before the first date, and after today for a known frequency |
| RecurringProcessor.ApplyOver | src/services/recurringProcessor.ts:97-100 | a full patch over an earlier full patch of the same description is that patch alone |
| RecurringProcessor.PutDefinitionFind | src/services/recurringProcessor.ts:97-100 | a definition write changes only that id of that user, applying the full patch to the stored definition |
| RecurringProcessor.ExpensePlanPersists | src/services/recurringProcessor.ts:58-109 | after one definition's plan, its stored definition carries the final `nextOccurrence` (after today for a known frequency), every other definition and user unchanged |
| RecurringProcessor.PlanPersists | src/services/recurringProcessor.ts:57-110 | after the whole plan, each stored definition is rewritten by the definitions of the list with its id, in order |
| RecurringProcessor.RewrittenByDistinct | src/services/recurringProcessor.ts:57-110 | with distinct ids in the list, each definition is rewritten by its own list entry only, and a definition not in the list is untouched |
| RecurringProcessor.RoundStepped | src/services/recurringProcessor.ts:94-102 | a round on a known frequency completes one more full round of the plan, still a prefix of it |
| RecurringProcessor.ExpensePlanStep | src/services/recurringProcessor.ts:61-108 | one loop round: a transaction, then, for a known frequency, the persisted definition and the rest of the plan from the stepped date |
| RecurringProcessor.RoundsEnd | src/services/recurringProcessor.ts:61 | once the occurrence passes today the completed rounds are the whole plan |
| RecurringProcessor.WriteTransaction | src/services/recurringProcessor.ts:75 | a served first call stores the transaction, extending the transactions along the plan by one `Materialize`; the whole call succeeds exactly when its four calls are served |
| RecurringProcessor.WriteDefinition | src/services/recurringProcessor.ts:97-100 | a served first call applies the stepped definition, as a full patch, to the stored one (`PutDefinition`), and nothing when none is stored; succeeds exactly when a definition is stored and three calls are served |
| RecurringProcessor.Round | src/services/recurringProcessor.ts:61-108 | one round of the inner loop against the plan: threw, stopped on an unknown frequency, or continues from the stepped date; both stores hold exactly the writes that reached them |
| RecurringProcessor.ProcessExpense | src/services/recurringProcessor.ts:58-109 | the inner `while` reaches a prefix of the definition's plan, all of it unless a call threw; transactions and definitions in the store are the plan's writes that reached it |
| RecurringProcessor.Visit | src/services/recurringProcessor.ts:57-109 | one pass of the outer loop keeps the writes that reached the store a prefix of the whole plan, and both stores equal to their effect |
| RecurringProcessor.ProcessAll | src/services/recurringProcessor.ts:57-110 | the outer `for`: the writes that reached the store are a prefix of the plan, all of it when nothing threw, and the transactions and definitions are their effect; an exception ends all remaining definitions |
| RecurringProcessor.ProcessRecurringExpenses | src/services/recurringProcessor.ts:26-116 | no user id processes nothing; the list is the cached one on a hit and the stored active definitions on a served reload; both stores hold exactly the prefix of the plan whose writes reached them, all of it when nothing threw |
| UserReminders.Patched | src/api/database/modules/subcollections/user.reminders.ts:69-72 | a patch keeps id, owner and creation time and stamps `updatedAt` |
| UserReminders.Listed | src/api/database/modules/subcollections/user.reminders.ts:30-33 | each listed reminder is its document with the document id |
| UserReminders.SortByDuePermutes | src/api/database/modules/subcollections/user.reminders.ts:27 | ordering by due time is a permutation |
| UserReminders.SortByDueSorted | src/api/database/modules/subcollections/user.reminders.ts:27 | the order is ascending by due time |
| UserReminders.SortByDueStable | src/api/database/modules/subcollections/user.reminders.ts:27 | reminders with equal due times keep their stored order |
| UserReminders.GetUserReminders | src/api/database/modules/subcollections/user.reminders.ts:24-38 | the user's reminders ordered by due time, or the error rethrown |
| UserReminders.NewReminder | src/api/database/modules/subcollections/user.reminders.ts:45-50 | the added reminder carries the data, the owner and equal creation and update stamps |
| UserReminders.AddReminder | src/api/database/modules/subcollections/user.reminders.ts:40-58 | adds the reminder under a fresh id and returns it |
| UserReminders.UpdateReminder | src/api/database/modules/subcollections/user.reminders.ts:60-77 | patches the reminder; a missing document is an error and changes nothing |
| UserReminders.DeleteReminder | src/api/database/modules/subcollections/user.reminders.ts:79-87 | removes the reminder |
| ReminderSync.LocalStorage.constructor | src/services/reminderSync.ts:38 | localStorage starts empty |
| ReminderSync.LocalStorage.SetItem | src/services/reminderSync.ts:52-54 | sets one key |
| ReminderSync.LocalStorage.RemoveItem | src/services/reminderSync.ts:70-71 | removes one key |
| ReminderSync.KeysDistinct | src/services/reminderSync.ts:38-42 | the list key and token key never collide, and two users never share a key |
| ReminderSync.FromCache | src/services/reminderSync.ts:41-46 | a hit needs all of not forced, a cached token, a server token, the two equal and a cached list, and returns the cached list |
| ReminderSync.NoTokenMeansMiss | src/services/reminderSync.ts:41 | without a server token the cache is never used |
| ReminderSync.StoredIsReadBack | src/services/reminderSync.ts:48-57 | a list cached under a server token is what the next unforced read under that token returns |
| ReminderSync.ClearedMeansMiss | src/services/reminderSync.ts:108-111 | after a user's keys are removed, that user's next read fetches |
| ReminderSync.OtherUsersUntouched | src/services/reminderSync.ts:52-54 | a fetch or clear for one user leaves every key of another user unchanged |
| ReminderSync.OtherUsersReadAsBefore | src/services/reminderSync.ts:38-54 | so another user's reads are answered as before |
| ReminderSync.ServerToken | src/services/reminderSync.ts:15 | the server token is a truthy `timestamp`, never empty |
| ReminderSync.GetRemindersToken | src/services/reminderSync.ts:11-22 | the `timestamp` field, or null when absent or when the read fails |
| ReminderSync.UpdateRemindersToken | src/services/reminderSync.ts:24-33 | the token document becomes a new timestamp; a failure is rethrown |
| ReminderSync.ReadCache | src/services/reminderSync.ts:38-46 | the two `getItem` reads answer as `FromCache` |
| ReminderSync.GetReminders | src/services/reminderSync.ts:35-62 | the cached list on a hit, with no writes; on a miss the fetched list, cached, with the token key written only when a server token exists |
| ReminderSync.FetchAndStore | src/services/reminderSync.ts:48-57 | the miss path: fetch, store the list, store the token when present |
| ReminderSync.Invalidate | src/services/reminderSync.ts:70-71 | both keys of the user are removed |
| ReminderSync.AddReminder | src/services/reminderSync.ts:64-78 | adds, bumps the server token, then clears the user's cache; errors rethrown |
| ReminderSync.UpdateReminder | src/services/reminderSync.ts:80-92 | patches, bumps the token, clears the cache; errors rethrown |
| ReminderSync.DeleteReminder | src/services/reminderSync.ts:94-106 | deletes, bumps the token, clears the cache; errors rethrown |
| ReminderSync.ClearCache | src/services/reminderSync.ts:108-111 | both keys of the user are removed |
| RemindersStore.FutureMembers | src/stores/modules/reminders.ts:14-16 | the filter keeps exactly the reminders due after now, with their multiplicities |
| RemindersStore.FutureRemindersCorrect | src/stores/modules/reminders.ts:12-19 | `futureReminders` is exactly the reminders due after now, sorted ascending by due time |
| RemindersStore.OnDateMembers | src/stores/modules/reminders.ts:23-29 | a date's group holds exactly the reminders on that date |
| RemindersStore.ExactlyOneGroup | src/stores/modules/reminders.ts:21-31 | every reminder is in its own date's group and in no other |
| RemindersStore.WithoutIdMembers | src/stores/modules/reminders.ts:95 | the delete filter removes every entry with the id and keeps the rest |
| RemindersStore.IndexOf | src/stores/modules/reminders.ts:78 | `findIndex`: -1 exactly when no entry has the id, else the first such index |
| RemindersStore.UpdatedList | src/stores/modules/reminders.ts:78-85 | only the first entry with the id is patched; with no match nothing changes |
| RemindersStore.RemindersStore.constructor | src/stores/modules/reminders.ts:7-8 | empty list, never synced |
| RemindersStore.RemindersStore.FetchReminders | src/stores/modules/reminders.ts:34-51 | a fresh unforced store does nothing; otherwise success sets the list and sync time, and failure rethrows with both unchanged; the budget spent (one call on a cache hit, two otherwise) and the localStorage write of `getReminders` are stated |
| RemindersStore.RemindersStore.AddReminder | src/stores/modules/reminders.ts:53-69 | the remote reminder is added when the first call is served; once the token write also succeeds the token is bumped, the user's localStorage keys are cleared and exactly one local reminder with the returned id is appended; on failure the local list is unchanged |
| RemindersStore.RemindersStore.UpdateReminder | src/stores/modules/reminders.ts:71-90 | the stored reminder is patched when found and the first call is served; success needs both; then the token is bumped, the user's localStorage keys are cleared and the local list is `UpdatedList` of the old one; errors are the missing document or the failed call |
| RemindersStore.RemindersStore.DeleteReminder | src/stores/modules/reminders.ts:92-100 | the remote reminder is removed when the first call is served; on success the token is bumped, the user's localStorage keys are cleared, every local entry with the id is removed and the rest keep their order |
| RemindersStore.RemindersStore.RemindersByDate | src/stores/modules/reminders.ts:21-31 | the `forEach` fills a grouping of the list by date |
| RemindersStore.RemindersStore.GetRemindersForDate | src/stores/modules/reminders.ts:102-105 | the reminders on that date, or the empty list |
| RemindersStore.RemindersStore.ClearCache | src/stores/modules/reminders.ts:107-110 | empty list and no sync time |
| RemindersStore.GroupStep | src/stores/modules/reminders.ts:24-28 | one `forEach` step keeps the grouping of the prefix |
| ReminderNotifications.ShouldShowNotification | src/services/reminderNotifications.ts:54-70 | true exactly when some schedule's window `threshold - 1 < hours <= threshold` contains the time left |
| ReminderNotifications.OnlyOneDayFires | src/services/reminderNotifications.ts:40-45 | within the 24-hour filter, only a `1_DAY` schedule can notify, and only in the last hour before the day mark |
| ReminderNotifications.CheckReminderSchedule | src/services/reminderNotifications.ts:86-107 | the schedules whose threshold covers the time left, in the order 1_DAY, 2_DAYS, 1_WEEK, 1_MONTH |
| ReminderNotifications.WithinOrder | src/services/reminderNotifications.ts:93-104 | the result spelled out with the thresholds 24, 48, 168, 720 hours |
| ReminderNotifications.ScheduleReported | src/services/reminderNotifications.ts:93-104 | a schedule is reported exactly when `0 < hours <= threshold` |
| ReminderNotifications.ReportIsSuffix | src/services/reminderNotifications.ts:91-106 | the result is a suffix of the order, empty exactly when the due time is past or more than 720 hours away |
| ReminderNotifications.RoundDiv | src/services/reminderNotifications.ts:76-77 | `Math.round` of a quotient: the nearest whole number, halves up |
| ReminderNotifications.MessageIs | src/services/reminderNotifications.ts:81 | the warning text `Reminder: <name> is due in <time text>` |
| ReminderNotifications.DueText | src/services/reminderNotifications.ts:72-77 | every warning the check can show reads "23 hours", "24 hours" or "1 days" |
| ReminderNotifications.WarnOne | src/services/reminderNotifications.ts:34-47 | one reminder yields its warning exactly when it is due within 24 hours and inside a schedule window |
| ReminderNotifications.DueMessagesFrom | src/services/reminderNotifications.ts:33-48 | every warning shown belongs to a due reminder of the list |
| ReminderNotifications.WarnAll | src/services/reminderNotifications.ts:33-48 | the loop shows the warnings of the due reminders, in list order |
| ReminderNotifications.CheckForDueReminders | src/services/reminderNotifications.ts:25-52 | refreshes the store unless fresh, then shows the warnings of the due reminders of the list it holds; a failed refresh is swallowed, keeps the list and sync time, and shows nothing; the list, sync time, budget and localStorage afterwards are stated on every path |
| UserCategories.GetUserCategories | src/api/database/modules/subcollections/user.categories.ts:26-32 | the user's categories, in stored order |
| UserCategories.GetCategoriesWithType | src/services/sync.ts:33-35 | the categories passed through the opaque type function |
| UserCategories.BuildNodes | src/api/database/modules/subcollections/user.categories.ts:44-51 | the first `forEach` maps every id to its title, last duplicate winning, with empty children |
| UserCategories.LinkOne | src/api/database/modules/subcollections/user.categories.ts:55-65 | one step of the second `forEach`: a root is pushed to the top level, a child to its parent's list when the parent exists |
| UserCategories.LinkHierarchy | src/api/database/modules/subcollections/user.categories.ts:41-66 | after both loops the top level is the categories without a parent, in input order, and each parent's list its children in input order |
| UserCategories.Clean | src/api/database/modules/subcollections/user.categories.ts:69-79 | `cleanTree` copies each node, leaves lose their `children` key and no node keeps an empty one |
| UserCategories.GetCascaderCategoryOptions | src/api/database/modules/subcollections/user.categories.ts:38-82 | the options built from the fetched categories, or the read error |
| UserCategories.TitlesLastWins | src/api/database/modules/subcollections/user.categories.ts:45-51 | an option's text is the title of the last category with its id |
| UserCategories.LinkedMembers | src/api/database/modules/subcollections/user.categories.ts:58-64 | a child list holds exactly the categories whose parent link is that id |
| UserCategories.BuiltFaithful | src/api/database/modules/subcollections/user.categories.ts:45-79 | every option carries `text = title` and `value = id`, and its children are the categories naming it as parent |
| UserCategories.CascaderSucceeds | src/api/database/modules/subcollections/user.categories.ts:53-81 | with unique ids `cleanTree` terminates on the linked forest, whatever cycles the parent links hold |
| UserCategories.CascaderOccurrences | src/api/database/modules/subcollections/user.categories.ts:53-81 | with unique ids each category appears once if its ancestor chain reaches a root, and never otherwise |
| UserCategories.OrphanUnreached | src/api/database/modules/subcollections/user.categories.ts:61-65 | a category whose parent id is not in the list never reaches a root |
| UserCategories.OrphanOmitted | src/api/database/modules/subcollections/user.categories.ts:61-65 | such a category is dropped from the options |
| UserCategories.CycleUnreached | src/api/database/modules/subcollections/user.categories.ts:53-66 | a member of a parent cycle never reaches a root |
| UserCategories.CycleOmitted | src/api/database/modules/subcollections/user.categories.ts:53-81 | so members of parent cycles are omitted |
| TreeChart.FindById | src/pages/category-tree/charts/treeChart.ts:8 | the first category with the id, or none exactly when there is no such category |
| TreeChart.ChildIds | src/pages/category-tree/charts/treeChart.ts:11-12 | the ids of the categories whose parent is the given id |
| TreeChart.NodeFor | src/pages/category-tree/charts/treeChart.ts:16-23 | name is the title, value is `budget || 1`, colour is `color || '#909399'`, and the `children` key is present exactly when there are children |
| TreeChart.BuildNode | src/pages/category-tree/charts/treeChart.ts:7-24 | `buildNode` is null exactly when no category has the id; a found node is named by its title; defined whenever the descent from the id ends |
| TreeChart.BuildCategoryTree | src/pages/category-tree/charts/treeChart.ts:5-27 | null exactly when no category has the root id |
| TreeChart.NodeShape | src/pages/category-tree/charts/treeChart.ts:11-22 | a node's children are the nodes of its child categories, one each, in input order; the key is present exactly when one exists |
| TreeChart.GeneratedTrees | src/pages/category-tree/charts/treeChart.ts:33-35 | one tree per built-in root id present, in `BASE_CATEGORIES_ID` order, missing roots left out |
| TreeChart.TreesPerPresentRoot | src/pages/category-tree/charts/treeChart.ts:33-35 | the same for any list of root ids |
| TreeChart.FlattenIsPreorder | src/pages/category-tree/charts/treeChart.ts:7-24 | the nodes of a built tree, depth first, are the nodes of its categories in preorder |
| TreeChart.TreeHoldsEachDescendantOnce | src/pages/category-tree/charts/treeChart.ts:5-26 | with unique ids and no parent cycle reachable from the root, the tree holds the root and each of its descendants exactly once, and nothing else |
| TreeChart.PreorderDistinct | src/pages/category-tree/charts/treeChart.ts:7-24 | with unique ids no category occurs twice in a tree |
| TreeChart.PreorderBelow | src/pages/category-tree/charts/treeChart.ts:7-24 | every category of a tree lies at or below its root |
| TreeChart.BelowInPreorder | src/pages/category-tree/charts/treeChart.ts:7-24 | every category at or below the root is in its tree |
| TreeChart.AncestorRank | src/pages/category-tree/charts/treeChart.ts:11-13 | when the category `k` parent links above `x` has a descent that ends, so does `x`, at a rank at least `k` lower |
| TreeChart.DetachedCycleLeftOut | src/pages/category-tree/charts/treeChart.ts:7-24 | a category that is its own parent, away from the root, is left out and does not stop the tree from being built |

## Left out

- Asynchrony. Every `await` is one atomic step, so interleaved callers and
  the un-awaited `initDB()` in the cache constructor
  (src/services/cache.ts:18-29) are not modelled.
- Per-user cache databases. `createCacheService()` is called without a
  user id, so there is one cache instance and its database name is not
  modelled.
- Local storage failures. IndexedDB and localStorage never fail in the
  model; only remote calls do.
- UI and logging. `setLoading`, console logging, `showNotify`, and the
  `setInterval` timer of `startNotificationService` and
  `stopNotificationService` are left out. The warnings a check would
  show are returned as a list of texts instead.
- Local time. Dates are civil UTC dates, so a local time zone's offset
  and daylight-saving shifts, which `setMonth`/`setFullYear`/`setDate`
  apply in local time, are not modelled. `toISOString()` is represented
  by the date value it prints.
- `getCategoriesWithType` is opaque (a function parameter). Its
  type and colour inheritance is not part of this model.
- `getReminderById` of the reminder adapter is not modelled: nothing in
  the core calls it.
- Firestore `orderBy` ties. Reminders with equal due times keep their
  stored order; Firestore's tie-break by document id is not modelled.
- Server timestamps. `serverTimestamp()` is a parameter string; how the
  server fills it in is not modelled.
- The chart files other than the category tree, and the rest of the
  repository (routing, i18n, configuration, build scripts), are not part
  of this model.
- TreeChart.BuildNode: requires that the descent by child links from the
  id ends. A set of ids closed under child links and holding the id, with
  a rank falling strictly from parent to child, witnesses this. A parent
  cycle away from the root is allowed and left out of the tree, as in the
  source (`TreeChart.DetachedCycleLeftOut`). A cycle the descent reaches
  makes the source recurse until the stack overflows; that case is not
  modelled.
- Document order. Collections keep documents in the order they were
  first written, and unordered queries return them in that order. Firestore
  returns such a query sorted by document id. So the order of the cached
  transaction and category lists, of the active recurring definitions and
  of the cascader's top level is not the one Firestore would give.
- Number types. `Transaction.amount`, `RecurringExpense.amount` and
  `Category.budget` are integers. The source's JavaScript numbers may be
  fractions or `NaN`, which `budget || 1` would replace by 1; those values
  are not modelled.
- Transient failures. Once a call fails, the model fails every later call.
  So a failure that the source swallows is never followed by a call that
  succeeds. The source can reach that case, and the members below assume
  it away:
- Sync.SyncService.UpdateTransactionAndCache: `createUserTransaction`
  catches a failed `setDoc` and returns `null`, and the method goes on to
  re-read the year. If those later calls are served, the source returns
  normally without the transaction. The model's `r.Ok? ==> Find(…) ==
  Some(t)` holds only because those calls fail here.
- RecurringProcessor.WriteTransaction: inherits this. `ok <==> Serves(…,
  4)` excludes a lost document write followed by a successful re-read.
- RecurringProcessor.Round: in the source, a round whose transaction write
  was swallowed continues. It writes the stepped `nextOccurrence`, so that
  occurrence's transaction is lost and no error is raised. The model's
  round throws instead. `RecurringProcessor.LostOccurrenceKeepsDefinitions`
  states the definitions store in that case: it is the same as if the
  write had landed.
- RecurringProcessor.ProcessExpense: "the whole plan unless a call threw"
  relies on the same assumption. The source can finish with occurrences
  skipped.
- RecurringProcessor.Visit: inherits this from `ProcessExpense`.
- RecurringProcessor.ProcessAll: `completed ==> done == Plan(…)` relies on
  the same assumption.
- RecurringProcessor.ProcessRecurringExpenses: inherits this from
  `ProcessAll`.
- ReminderSync.GetReminders: `getRemindersToken` swallows a failed read and
  returns `null`. In the source, the fetch after it can still succeed, and
  the list is then cached without a token. The model fails that fetch too.
- RemindersStore.RemindersStore.FetchReminders: inherits this from
  `GetReminders`.
- ReminderNotifications.CheckForDueReminders: inherits this from
  `FetchReminders`.
- Due times. `Reminder.dueTime` is a moment in milliseconds. The source
  stores an ISO string taken from form data, and nothing normalises it.
  The model assumes every due time is a valid moment written in one fixed
  format. These behaviours are not modelled:
- UserReminders.GetUserReminders: `orderBy('dueTime')` sorts the strings.
  That matches the order of the moments only for the `toISOString` format.
- RemindersStore.RemindersStore.RemindersByDate: an unparsable due time
  makes `toISOString()` throw `RangeError`. That case is not modelled.
- RemindersStore.FutureRemindersCorrect: an unparsable due time is a
  `NaN` moment, which `futureReminders` silently drops. Here every due
  time is compared as a number.
- ReminderNotifications.WarnOne: an unparsable due time gives a `NaN`
  number of hours, so no warning is shown. That case is not modelled.
- RecurringSync.ProcessExpiredRecurringExpense: does not state the budget
  left afterwards, nor the snapshot after a failed update.
- RecurringProcessor.ProcessAll: like `Round`, `ProcessExpense`, `Visit`
  and `ProcessRecurringExpenses`, states the cache only through its
  well-formedness invariant and leaves the remote tokens and the budget
  unstated; the transactions and definitions are stated in full.
- UserCategories.Clean: carries a fuel bound and returns `RangeError`
  when the fuel runs out. `UserCategories.CascaderSucceeds` proves that
  the fuel given always suffices when ids are unique. With duplicate ids
  the source's shared child arrays can make `cleanTree` recurse without
  end, and that case is not modelled beyond the fuel.
- RecurringSync.ProcessExpiredRecurringExpense: the `processFn` callback
  is modelled as a function whose effect is to store `advance(e)` under
  the definition's id. The requirement that it move an active
  definition strictly later stands in for the source's reliance on
  `processFn` to make progress. Any other effect processFn could have is
  not modelled.
- RecurringProcessor.ProcessRecurringExpenses: uses the corrected
  `getRecurringExpenses`, so it processes the list on the fetch path too.
  The code as written receives `undefined` there and processes nothing;
  that behaviour is `RecurringSync.GetRecurringExpensesAsWritten`.

## Findings

| source | as written | input that shows it | evidently intended | confidence | as-written member | corrected member |
|---|---|---|---|---|---|---|
| src/services/sync.ts:81 | `this.cache.updateTransactions(transactions, year, remoteToken)` passes the list where the signature expects the year (also at lines 102, 123, 164, 212, 254) | any year read whose fetched list holds one transaction: the token is filed under the key `String(list)`, which starts with `[`, and never under the year | `updateTransactions(year, transactions, token)` | high, not executed | SyncFindings.SwappedCallNeverEstablishesYearToken | Sync.YearMissThenHit |
| src/services/recurringSync.ts:57-70 | the fetch path of `getRecurringExpenses` ends without `return` | an empty cache: the call fetches and caches the list but returns `undefined`, so `processRecurringExpenses` skips every definition | `return recurringExpenses;` after the token write | high, not executed | RecurringSync.GetRecurringExpensesAsWritten | RecurringSync.GetRecurringExpenses |
| src/services/recurringSync.ts:61-68 | on an absent snapshot the spread writes a record with only `recurringExpenses` and `tokens.recurringTransactionToken` | an empty cache, then `getRecurringExpenses`, then any year sync: `store.transactions[year]` and `store.tokens.transactionTokens[year]` throw `TypeError` | start from the default record, with empty transaction maps | medium, not executed | Cache.RecurringSnapshotBreaksYearOperations | Cache.WithTransactions |
