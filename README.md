# hoze-frontend: a Dafny model of the user store and the financial sheets

This project models the logic under the React markup of the hoze-frontend
management panel and proves properties of it. It covers two parts.

- **The local user store and activity log** of the `useAuth` hook
  (`auth.dfy`). This is a class `AuthStore` with three fields:
  - `users`, the user table;
  - `session`, the logged-in user;
  - `logs`, the activity log, newest first and capped at 1000 entries.

  The panel that drives this store (`permissions.dfy`) holds:
  - the guard chain in front of `addUser` and `updateUser`;
  - the permission checkboxes;
  - the activity-log filter.
- **The financial sheets and the list editors that feed them:**
  - the concert breakdown (`concert.dfy`): the category-total precedence, the
    80/20 net-profit split, the storage-key sanitiser, the seeding of the
    override map, and override and line-item editing;
  - the monthly digital-income sheet (`digital.dfy`): the tax, share and
    exchange-rate chain, the per-month defaults, and load, cancel and save;
  - the dashboard (`dashboard.dfy`): the per-month digital figures, the income,
    expense and net totals, the per-category totals and percentages, and click
    routing;
  - the income list (`income.dfy`): the hard-coded concert table, checked
    against the split formula, and income editing;
  - the expense list (`expense.dfy`): add, edit and delete, notes kept by
    position, the structured-note row filter, the notes storage keys, and the
    advertising cost line;
  - the to-do list of the home page (`home.dfy`).

Shared helpers:
- `wrappers.dfy`: the `Option` type;
- `seqs.dfy`: filter, find-index, remove-at and update-at on sequences;
- `text.dfy`: the JavaScript string operations used, namely `\s`, `trim`,
  `replace(/\s+/g,'_')`, `replace(/[^a-zA-Z0-9_]/g,'')`, `toLowerCase` and
  `includes`;
- `numbers.dfy`: `parseFloat(x) || 0` and `Math.round`.

Modelling conventions:
- Every React component whose handlers update state is a class. Its state
  variables are fields, and each handler is a method whose `ensures` gives the
  whole new state. The contracts that carry the meaning live on pure functions
  and lemmas beside the class. Each method is tied to those functions.
- Amounts and rates are exact `real` numbers.
- Local storage is a map from key to `Option<value>`:
  - a missing key means nothing is stored;
  - `None` means the stored text does not parse;
  - `Some(v)` is the parsed value.
- Clock readings (`Date.now()` ids, ISO time stamps, today's date) are
  parameters. So is the answer to `window.confirm`, and so are
  `parseFloat` results, as `Option<real>` where `None` stands for NaN.
- `window.dispatchEvent` becomes a `notified` flag.
- `onIncomesUpdate` and `onExpensesUpdate` become a `published` field holding
  the list last handed to the parent.

Two figures worth knowing:
- **The Haziran digital default.** The defaults (13871 USD, 20 %, 30 %,
  38.2 TRY/USD) give exactly 127169.328 TRY (`Digital.HaziranDefaultSplit`).
- **The super-user's session name.** The super-user logs in as `admin`, but
  the session records the name `Admin` (src/hooks/useAuth.ts:191,
  `Auth.AdminSession`).

## Model

| member | source | states |
|---|---|---|
| Auth.PageIds | src/hooks/useAuth.ts:195 | the permission list of the super-user is the ids of `ALL_PAGES`, in order |
| Seqs.LoadList | src/hooks/useAuth.ts:63-74 | a stored list that parses is returned; an absent or unparseable one gives the empty default |
| Auth.FindUser | src/hooks/useAuth.ts:113 | None exactly when no record has the username; otherwise the first index whose username matches exactly |
| Auth.Stamp | src/hooks/useAuth.ts:95-98 | the new record is the input with every field kept and `createdAt` set |
| Auth.AddedUsers | src/hooks/useAuth.ts:86-107 | fails exactly when the username is taken (case-sensitive); otherwise exactly one stamped record is appended at the end, and unique usernames stay unique |
| Auth.Merge | src/hooks/useAuth.ts:119 | every field present in the patch overwrites the stored one; every absent field is kept |
| Auth.UpdatedUsers | src/hooks/useAuth.ts:110-126 | fails exactly when the username is unknown; otherwise only the first matching record is merged with the patch, and all other records and the length are unchanged |
| Auth.UpdateKeepsUnique | src/hooks/useAuth.ts:110-126 | a patch that leaves the username alone keeps the usernames unique |
| Auth.RemainingUsers | src/hooks/useAuth.ts:129-139 | afterwards no record has the username, and every other record is kept |
| Auth.RemoveKeepsUnique | src/hooks/useAuth.ts:132-133 | deleting keeps the usernames unique |
| Auth.RemoveKeepsOrder | src/hooks/useAuth.ts:132 | deleting distributes over concatenation, so the remaining records keep their relative order |
| Auth.PrependLog | src/hooks/useAuth.ts:156-160 | the new entry is at index 0; the new length is min(old + 1, 1000); the rest is a prefix of the old log |
| Auth.RecordAllBounded | src/hooks/useAuth.ts:142-164 | any number of entries recorded from an empty log leave min(n, 1000) entries, the most recent first |
| Auth.FullLogEvictsOldest | src/hooks/useAuth.ts:156-159 | on a full log, recording one more entry drops exactly the oldest |
| Auth.PageAccessCases | src/hooks/useAuth.ts:181-185 | without a session access is denied; an admin may see every page; otherwise access holds exactly when the page is in the permission list |
| Auth.AdminSession | src/hooks/useAuth.ts:189-197 | the super-user session is an admin with full access, every `ALL_PAGES` id as permission, and `lastLogin` set |
| Auth.AdminSeesEveryPage | src/hooks/useAuth.ts:189-197 | after the super-user logs in, every page of `ALL_PAGES` is accessible and named in the permission list |
| Auth.FindCredential | src/hooks/useAuth.ts:206 | None exactly when no record has both the username and the password; otherwise the first matching index, as `find` returns |
| Auth.LoginResult | src/hooks/useAuth.ts:187-224 | the super-user credentials succeed without reading the table; otherwise login succeeds exactly on an exact username and password match. The session is then the first matching record with `lastLogin` set, and the table changes only in the first row with that username, whose `lastLogin` is set. A failure leaves session and table unchanged |
| Auth.LoginSessionMatchesTable | src/hooks/useAuth.ts:204-221 | with unique usernames, after a successful table login the session is a row of the new table and the usernames stay unique |
| Auth.AuthStore.Open | src/hooks/useAuth.ts:41-60 | a saved session that parses is restored and one that does not is dropped; the table and the log are the stored lists or empty |
| Auth.AuthStore.AddUser | src/hooks/useAuth.ts:86-107 | returns true exactly when the username is new; then appends the stamped record, otherwise leaves the table unchanged; keeps unique usernames unique |
| Auth.AuthStore.UpdateUser | src/hooks/useAuth.ts:110-126 | returns true exactly when the username exists; the table becomes `UpdatedUsers` or stays as it was |
| Auth.AuthStore.DeleteUser | src/hooks/useAuth.ts:129-139 | always returns true; the table becomes the records with another username; uniqueness is kept |
| Auth.AuthStore.LogActivity | src/hooks/useAuth.ts:142-164 | without a session nothing changes; otherwise the entry of the session's username is prepended and the log capped at 1000 |
| Auth.AuthStore.Login | src/hooks/useAuth.ts:187-224 | the result, session and table are exactly those of `LoginResult`; the log is untouched |
| Auth.AuthStore.Logout | src/hooks/useAuth.ts:226-233 | the session is cleared; a logout entry is logged only when someone was logged in |
| Text.Trim | src/components/UserPermissionsModal.tsx:83-91 | `trim()` is a slice of the string with only whitespace cut from its two ends; it is empty exactly when the string is all whitespace, and otherwise starts and ends with a non-space |
| Text.ReplaceSpaceRuns | src/components/ExpenseDetailModal.tsx:65 | `replace(/\s+/g,'_')` leaves no whitespace, never lengthens, and changes nothing in a string without whitespace |
| Text.ReplaceSpaceRunsKeepsPlain | src/components/ExpenseDetailModal.tsx:65 | a stretch without whitespace is copied through unchanged and in order, in front of the replaced rest |
| Text.ReplaceSpaceRunsCollapsesRun | src/components/ExpenseDetailModal.tsx:65 | a maximal whitespace run of any length becomes exactly one `_` |
| Text.ReplaceSpaceRunsContents | src/components/ExpenseDetailModal.tsx:65 | the result holds exactly the non-space characters of the input, plus `_` when the input has whitespace |
| Text.KeepWordChars | src/components/ConcertDetailModal.tsx:67 | `replace(/[^a-zA-Z0-9_]/g,'')` leaves only `[A-Za-z0-9_]` characters |
| Text.KeepWordCharsContents | src/components/ConcertDetailModal.tsx:67 | a character is in the result exactly when it is in the input and in `[A-Za-z0-9_]` |
| Text.WordCharsKept | src/components/ConcertDetailModal.tsx:67 | a string made of `[A-Za-z0-9_]` characters only is left unchanged |
| Text.KeepWordCharsSingle | src/components/ConcertDetailModal.tsx:67 | one character is kept exactly when it is in `[A-Za-z0-9_]` |
| Text.KeepWordCharsAppend | src/components/ConcertDetailModal.tsx:67 | the filter distributes over concatenation, so the kept characters stay in their order |
| Text.SanitizeName | src/components/ConcertDetailModal.tsx:67 | the concert-name sanitiser yields only `[A-Za-z0-9_]` characters and never lengthens; its characters are exactly the name's `[A-Za-z0-9_]` characters, plus `_` when the name has whitespace |
| Text.SanitizePlain | src/components/ConcertDetailModal.tsx:67 | a stretch of the name without whitespace is sanitised by the character filter alone, in front of the sanitised rest |
| Text.SanitizeRun | src/components/ConcertDetailModal.tsx:67 | a whitespace run in the name becomes exactly one `_` in front of the sanitised rest |
| Text.SanitizeIdempotent | src/components/ConcertDetailModal.tsx:67 | sanitising twice equals sanitising once |
| Text.ToLower | src/components/UserPermissionsModal.tsx:203-206 | `toLowerCase` maps every character and keeps the length |
| Text.Contains | src/components/UserPermissionsModal.tsx:203-206 | `includes` holds exactly when the substring occurs at some position |
| Numbers.ParseOrZero | src/components/ConcertDetailModal.tsx:247 | `parseFloat(x) \|\| 0`: the parsed value, or 0 when the text does not parse |
| Numbers.Round | src/components/Dashboard.tsx:53 | `Math.round` gives the integer within half a unit, with halves rounded up |
| Seqs.RemoveAt | src/components/IncomeDetailModal.tsx:339 | `filter((_, i) => i !== index)` removes exactly that index and keeps the rest in order; an out-of-range index changes nothing |
| Seqs.UpdateAt | src/components/ConcertDetailModal.tsx:218-222 | `map((d, i) => i === index ? y : d)` changes only that index and keeps the length |
| Seqs.FindFirst | src/hooks/useAuth.ts:113 | `findIndex`: None exactly when no element passes the test; otherwise the first index that does |
| Seqs.Keep | src/hooks/useAuth.ts:132 | `filter`: never longer than the input, and every element kept passes the test |
| Concert.DefaultEkipSum | src/components/ConcertDetailModal.tsx:39-55 | the default Ekip line items add up to 122000 |
| Concert.DefaultLineItems | src/components/ConcertDetailModal.tsx:39-55 | the initial breakdown has a list for Ekip only, adding up to 122000 |
| Concert.CategoryTotalPrecedence | src/components/ConcertDetailModal.tsx:92-113 | an override wins; otherwise a non-empty breakdown is summed; otherwise the `details` value for the seven known labels; otherwise 0 |
| Concert.ConcertShares | src/components/ConcertDetailModal.tsx:116-141 | total expenses are the six categories from override or `details`; net = fee − expenses; emre + hoze = net; emre = 4·hoze; net may be negative, and then hoze is negative too |
| Concert.SharesIgnoreLineItems | src/components/ConcertDetailModal.tsx:117-125 | the shares never read the line items: with the default crew list the Ekip total shown is 122000, while the split uses `details.ekip` |
| Concert.BuyukcekmeceShares | src/components/IncomeDetailModal.tsx:71-82 | the Büyükçekmece figures split into 166400 and 41600 of a 208000 net profit |
| Concert.StorageKey | src/components/ConcertDetailModal.tsx:67 | the key is `concertAmounts_` followed by `[A-Za-z0-9_]` characters only: exactly the name's `[A-Za-z0-9_]` characters, plus `_` when the name has whitespace |
| Concert.StorageKeyCollision | src/components/ConcertDetailModal.tsx:257 | two different concert names (`Kıbrıs`, `Kbrs`) share one storage key |
| Concert.SeedOverrides | src/components/ConcertDetailModal.tsx:73-80 | the first-open seed has exactly Kaşe, Ulaşım, Reklam, Konaklama, Ekstra and Yemek from `details`, and not Ekip |
| Concert.SeedingPreservesFigures | src/components/ConcertDetailModal.tsx:68-83 | right after seeding, every seeded category shows its `details` value and the split equals the unedited split |
| Concert.LoadedOverrides | src/components/ConcertDetailModal.tsx:64-89 | a stored map is loaded unchanged; an unparseable one gives the empty map; a missing one is seeded |
| Concert.SeededStorage | src/components/ConcertDetailModal.tsx:68-83 | afterwards the key is stored and loads what the open effect loaded; every other key is unchanged; a key already stored changes nothing |
| Concert.ReopenIsStable | src/components/ConcertDetailModal.tsx:64-89 | opening the same concert again stores nothing new and loads the map the first opening loaded or seeded |
| Concert.FooterIsSevenCategories | src/components/ConcertDetailModal.tsx:537 | the footer total equals the sum over the seven real categories, because Emre and Hoze fall through to 0 |
| Concert.ConcertEditor.Open | src/components/ConcertDetailModal.tsx:64-89 | the line items start with the default crew; a non-empty name loads `LoadedOverrides` and stores only a seed; an empty name reads and writes nothing and leaves the overrides empty |
| Concert.ConcertEditor.Reopen | src/components/ConcertDetailModal.tsx:64-89 | reopening, for this or another concert, loads or seeds as opening does for a non-empty name and keeps the line items; an empty name changes neither the overrides nor storage |
| Concert.ConcertEditor.SaveCategoryAmount | src/components/ConcertDetailModal.tsx:245-266 | only the edited key changes (an unparseable amount gives 0); every other override is kept; the whole map is stored and reloads as the new map |
| Concert.ConcertEditor.AddDetail | src/components/ConcertDetailModal.tsx:196-202 | appends `{Yeni Kişi, 0}`; the category sum is unchanged |
| Concert.ConcertEditor.SaveDetail | src/components/ConcertDetailModal.tsx:213-228 | replaces only the given line; an unparseable amount gives 0 |
| Concert.ConcertEditor.DeleteDetail | src/components/ConcertDetailModal.tsx:230-235 | removes only the given line |
| Digital.StorageKey | src/components/DigitalIncomeModal.tsx:31 | the key is `digitalIncomeData_` followed by the month |
| Digital.StorageKeyInjective | src/components/DigitalIncomeModal.tsx:85 | different months use different keys |
| Digital.DefaultRecord | src/components/DigitalIncomeModal.tsx:49-56 | the month default: income 13871 for Haziran and 0 otherwise; tax 20, share 30, rate 38.2 |
| Digital.ComputeSplit | src/components/DigitalIncomeModal.tsx:78-81 | tax·100 = income·taxRate; tax + afterTax = income; share·100 = afterTax·shareRate; TRY = share·rate |
| Digital.SplitBounds | src/components/DigitalIncomeModal.tsx:78-80 | with income ≥ 0 and both rates in [0,100]: 0 ≤ tax ≤ income and 0 ≤ share ≤ afterTax |
| Digital.HaziranDefaultSplit | src/components/DigitalIncomeModal.tsx:78-81 | the Haziran defaults give 2774.2, 11096.8, 3329.04 and 127169.328 exactly |
| Digital.LoadRecord | src/components/DigitalIncomeModal.tsx:29-58 | a stored record that parses is loaded; a missing or unparseable one gives the month default |
| Digital.SaveThenLoad | src/components/DigitalIncomeModal.tsx:83-96 | a record saved for a month is what that month loads next; other months' loads are unchanged |
| Digital.WithField | src/components/DigitalIncomeModal.tsx:199-273 | an input changes only its own field; a value that does not parse becomes 0 |
| Digital.DigitalIncomeEditor.Open | src/components/DigitalIncomeModal.tsx:29-58 | opening loads `LoadRecord` for the month, not editing |
| Digital.DigitalIncomeEditor.StartEditing | src/components/DigitalIncomeModal.tsx:142 | enters editing mode and changes nothing else |
| Digital.DigitalIncomeEditor.Edit | src/components/DigitalIncomeModal.tsx:199-273 | the record becomes `WithField` of the old one |
| Digital.DigitalIncomeEditor.Save | src/components/DigitalIncomeModal.tsx:83-96 | stores the record under the month's key, so it is what loads next; notifies; leaves editing |
| Digital.DigitalIncomeEditor.Cancel | src/components/DigitalIncomeModal.tsx:98-128 | reloads exactly what opening loads and leaves editing |
| Dashboard.MonthValue | src/components/Dashboard.tsx:43-60 | a stored record that parses gives its rounded TRY share, computed as the sheet computes it; otherwise 159000 for Haziran and 0 for other months |
| Dashboard.FallbackDiffersFromSheetDefault | src/components/Dashboard.tsx:54-59 | the 159000 fall-back is not derived from the sheet default, whose rounded figure is 127169 |
| Dashboard.SavedRecordIsShown | src/components/Dashboard.tsx:46-53 | after the sheet saves a record, the dashboard shows its rounded TRY share |
| Dashboard.LoadDigitalIncomeData | src/components/Dashboard.tsx:39-64 | exactly the seven listed months get an entry, each equal to `MonthValue` |
| Dashboard.ReadMonth | src/components/Dashboard.tsx:44-60 | one month's loop body computes `MonthValue` |
| Dashboard.MonthlyData | src/components/Dashboard.tsx:78-128 | ledgers exist for Haziran and Temmuz only |
| Dashboard.CurrentData | src/components/Dashboard.tsx:130-131 | the current month is fixed, so the figures shown are the Haziran ledger's |
| Dashboard.ItemsTotalNonNegative | src/components/Dashboard.tsx:134-135 | lines without a negative amount never give a negative total |
| Dashboard.DigitalItems | src/components/Dashboard.tsx:87-89 | the Dijital Gelir category has one line of the month's value exactly when that value is non-zero, otherwise none |
| Dashboard.CategoryTotals | src/components/Dashboard.tsx:244-245 | each category's figure is the sum of its lines |
| Dashboard.CategoryTotalsSum | src/components/Dashboard.tsx:134-136 | the per-category totals add up to the total over all lines of all categories |
| Dashboard.MonthTotals | src/components/Dashboard.tsx:133-136 | income and expense are the sums of the category totals; net = income − expense |
| Dashboard.HaziranTotals | src/components/Dashboard.tsx:78-136 | the Haziran headline is 78740 plus the digital value in income and 104200 in expenses |
| Dashboard.HaziranConcertIncome | src/components/Dashboard.tsx:81-86 | the four Haziran concert lines add up to 78740 |
| Dashboard.HaziranExpenses | src/components/Dashboard.tsx:91-101 | the three Haziran expense categories add up to 104200 |
| Dashboard.Percentage | src/components/Dashboard.tsx:259 | a percentage is computed exactly when the overall total is positive, and then equals total/overall·100 |
| Dashboard.Percentages | src/components/Dashboard.tsx:244-260 | one computed percentage per category, each the category's `Percentage` |
| Dashboard.PercentagesSumTo100 | src/components/Dashboard.tsx:259 | with a positive overall total, the percentages of the categories add up to 100 |
| Dashboard.DashboardView.Open | src/components/Dashboard.tsx:37-75 | mounting selects nothing and loads every month's `MonthValue` |
| Dashboard.DashboardView.Refresh | src/components/Dashboard.tsx:69-71 | the update event reloads every month and changes no selection |
| Dashboard.DashboardView.HandleIncomeClick | src/components/Dashboard.tsx:146-154 | Dijital Gelir opens the digital sheet; any other category opens the income list; the month is recorded |
| Dashboard.DashboardView.HandleExpenseClick | src/components/Dashboard.tsx:156-159 | any expense category opens the expense list for the month |
| Income.GetConcertDetails | src/components/IncomeDetailModal.tsx:69-275 | a known name gives its table entry; an unknown name gives the all-zero record |
| Income.UnknownConcertIsZero | src/components/IncomeDetailModal.tsx:272-274 | an unknown concert has every share 0 |
| Income.TableAgreesWithSplit | src/components/IncomeDetailModal.tsx:70-270 | for every entry with an Emre share, emre and hoze are 4/5 and 1/5 of the fee less the six expenses |
| Income.TuanaEntriesSplitNet | src/components/IncomeDetailModal.tsx:170-268 | the entries without an Emre share give the whole net profit to Tuana and Hoze together |
| Income.HaziranIncomesAgainstTable | src/components/Dashboard.tsx:81-86 | each Haziran concert income equals the table's Hoze share, except Büyükçekmece, which is 2000 more |
| Income.TemmuzIncomesAgainstTable | src/components/Dashboard.tsx:105-114 | each Temmuz concert income equals the table's Hoze share |
| Income.IncomeEditor.Open | src/components/IncomeDetailModal.tsx:43-53 | opens on the given incomes with empty forms and nothing published |
| Income.IncomeEditor.HandleConcertClick | src/components/IncomeDetailModal.tsx:277-286 | opens and shows the breakdown with the table details of the income's description; every other field is unchanged |
| Income.IncomeEditor.CloseConcertModal | src/components/IncomeDetailModal.tsx:557 | closing hides the breakdown but keeps the selected concert, so the breakdown stays mounted; every other field is unchanged |
| Income.IncomeEditor.HandleEditConcertName | src/components/IncomeDetailModal.tsx:288-291 | starts editing the given row with its current name; every other field is unchanged |
| Income.IncomeEditor.HandleSaveConcertName | src/components/IncomeDetailModal.tsx:293-305 | only that row's description changes; the length and all other rows are unchanged; the list is published; every other field is unchanged |
| Income.IncomeEditor.HandleCancelEdit | src/components/IncomeDetailModal.tsx:307-310 | leaves editing; the list is unchanged; every other field is unchanged |
| Income.IncomeEditor.SetTempConcertName | src/components/IncomeDetailModal.tsx:455 | typing in the rename input sets only the name being edited; the index being edited, the list and every other field are unchanged |
| Income.IncomeEditor.EditNewConcert | src/components/IncomeDetailModal.tsx:389-409 | typing changes only the add form; every other field is unchanged |
| Income.IncomeEditor.OpenAddForm | src/components/IncomeDetailModal.tsx:374 | the add button shows the add form; every other field is unchanged |
| Income.IncomeEditor.HandleAddConcert | src/components/IncomeDetailModal.tsx:312-330 | nothing changes unless name and amount are non-empty; then exactly one income is appended and the form reset; every other field is unchanged |
| Income.IncomeEditor.HandleCancelAdd | src/components/IncomeDetailModal.tsx:332-335 | resets the add form; the list is unchanged; every other field is unchanged |
| Income.IncomeEditor.HandleDeleteIncome | src/components/IncomeDetailModal.tsx:337-347 | when confirmed, removes exactly that index and keeps the order; otherwise nothing changes; every other field is unchanged |
| Expense.NotesKey | src/components/ExpenseDetailModal.tsx:65 | `expenseNotes_` followed by the category with whitespace runs replaced by `_` |
| Expense.StructuredKey | src/components/ExpenseDetailModal.tsx:72 | `structuredNotes_` followed by the category with whitespace runs replaced by `_` |
| Expense.NotesKeyKeepsOtherCharacters | src/components/ExpenseDetailModal.tsx:137 | a category without whitespace is used as it is; no other character is stripped |
| Expense.NotesKeyDiffersFromConcertKey | src/components/ExpenseDetailModal.tsx:156 | a character outside `[A-Za-z0-9_]` in a category without whitespace (the `&` of `Reklam&PR`) stays in both notes keys but is dropped by the concert sanitiser |
| Expense.IsAdvertisement | src/components/ExpenseDetailModal.tsx:297 | true exactly when the lower-cased category contains `reklam` |
| Expense.AdvertisementExamples | src/components/ExpenseDetailModal.tsx:297 | the test ignores ASCII case and finds the word anywhere |
| Expense.ValidRows | src/components/ExpenseDetailModal.tsx:151 | every kept row has a field that is not all whitespace |
| Expense.ValidRowsContents | src/components/ExpenseDetailModal.tsx:261-263 | a row is kept iff it is in the input and some field is non-empty after trimming; a list without blank rows is kept whole |
| Expense.BlankRowDropped | src/components/ExpenseDetailModal.tsx:147-151 | the single blank row the editor opens with is filtered away |
| Expense.WithRowField | src/components/ExpenseDetailModal.tsx:172-176 | only the named field of the row changes |
| Expense.PercentOr100 | src/components/ExpenseDetailModal.tsx:243 | `parseFloat(x) \|\| 100`: the parsed percentage, or 100 when it does not parse or is 0; never 0 |
| Expense.NewEntry | src/components/ExpenseDetailModal.tsx:180-188 | the appended expense has the form's fields; an advertising one is counted at 100 %, any other has neither field |
| Expense.EditedEntry | src/components/ExpenseDetailModal.tsx:233-245 | name, amount (0 when unparseable) and date from the form; for advertising also link, flag and percentage (100 when unparseable or 0); otherwise those are kept |
| Expense.WithInput | src/components/ExpenseDetailModal.tsx:434-519 | each input of the edit form sets exactly the field it is bound to (name, date, amount, link, counted flag, percentage, note); which expense or note is being edited and the note rows never change |
| Expense.CostDisplay | src/components/ExpenseDetailModal.tsx:619-626 | an explicit false flag means not counted; a recorded percentage below 100 shows amount·pct/100; otherwise the full amount |
| Expense.PartialCostBounded | src/components/ExpenseDetailModal.tsx:623-625 | for a non-negative amount and percentage, the counted part lies between 0 and the amount |
| Expense.OpenNotes | src/components/ExpenseDetailModal.tsx:59-84 | with no category nothing is loaded; otherwise both stored maps, absent ones empty, and both empty if either does not parse |
| Expense.ExpenseEditor.Open | src/components/ExpenseDetailModal.tsx:59-84 | opens on the given expenses with the notes of `OpenNotes` and the two keys of the category |
| Expense.ExpenseEditor.OpenAddForm | src/components/ExpenseDetailModal.tsx:323 | the add button shows the add form; every other field is unchanged |
| Expense.ExpenseEditor.HandleAddLink | src/components/ExpenseDetailModal.tsx:100-103 | starts editing the link with the stored link or `""`; every other field is unchanged; no control in the list reaches this handler (see "## Left out") |
| Expense.ExpenseEditor.HandleSaveLink | src/components/ExpenseDetailModal.tsx:105-111 | only that expense's link changes; every other field is unchanged; no control in the list reaches this handler (see "## Left out") |
| Expense.ExpenseEditor.HandleAddNote | src/components/ExpenseDetailModal.tsx:127-130 | starts editing the note with the stored note or `""`; every other field is unchanged; no control in the list reaches this handler (see "## Left out") |
| Expense.ExpenseEditor.HandleSaveNote | src/components/ExpenseDetailModal.tsx:132-143 | stores the note at that position, even an empty one, and writes the whole map; every other field is unchanged; no control in the list reaches this handler (see "## Left out") |
| Expense.ExpenseEditor.HandleAddStructuredNote | src/components/ExpenseDetailModal.tsx:145-148 | starts editing with the stored rows or one blank row; every other field is unchanged; no control in the list reaches this handler (see "## Left out") |
| Expense.ExpenseEditor.HandleSaveStructuredNote | src/components/ExpenseDetailModal.tsx:150-162 | stores the filtered rows at that position, even when none is left, and writes the whole map; every other field is unchanged; no control in the list reaches this handler (see "## Left out") |
| Expense.ExpenseEditor.AddNoteRow | src/components/ExpenseDetailModal.tsx:164-166 | appends one blank row; every other field is unchanged |
| Expense.ExpenseEditor.RemoveNoteRow | src/components/ExpenseDetailModal.tsx:168-170 | drops only that row; every other field is unchanged |
| Expense.ExpenseEditor.UpdateNoteRow | src/components/ExpenseDetailModal.tsx:172-176 | changes one field of one row; the length and the other rows are unchanged; every other field is unchanged |
| Expense.ExpenseEditor.EditNewExpense | src/components/ExpenseDetailModal.tsx:338-358 | typing changes only the add form; every other field is unchanged |
| Expense.ExpenseEditor.HandleAddExpense | src/components/ExpenseDetailModal.tsx:178-200 | nothing changes unless description and amount are non-empty; then exactly one `NewEntry` is appended and the form reset; every other field is unchanged |
| Expense.ExpenseEditor.HandleCancelAdd | src/components/ExpenseDetailModal.tsx:202-205 | resets the add form; the list is unchanged; every other field is unchanged |
| Expense.ExpenseEditor.HandleDeleteExpense | src/components/ExpenseDetailModal.tsx:207-217 | when confirmed, removes exactly that index and keeps the order; otherwise nothing changes; every other field is unchanged |
| Expense.ExpenseEditor.HandleEditExpense | src/components/ExpenseDetailModal.tsx:219-231 | loads the form from the expense and its notes; link, flag and percentage only for an advertising category; every other field is unchanged |
| Expense.ExpenseEditor.EditExpenseForm | src/components/ExpenseDetailModal.tsx:434-519 | typing in the edit form changes the form by `WithInput` and nothing else; the expenses, the notes and the add form are unchanged |
| Expense.ExpenseEditor.HandleSaveExpense | src/components/ExpenseDetailModal.tsx:233-289 | only that expense changes, to `EditedEntry`; the note is stored only when not blank, the rows only when some survive the filter; the list is published and the form reset |
| Expense.ExpenseEditor.StoreNote | src/components/ExpenseDetailModal.tsx:249-258 | a note that is not blank is stored at that position and persisted; a blank one changes nothing |
| Expense.ExpenseEditor.StoreRows | src/components/ExpenseDetailModal.tsx:261-273 | the filtered rows are stored and persisted only when some are left |
| Expense.ExpenseEditor.HandleCancelEdit | src/components/ExpenseDetailModal.tsx:113-125 | every edit in progress is closed and every input reset; every other field is unchanged |
| Expense.NotesStayByPosition | src/components/ExpenseDetailModal.tsx:207-217 | after a deletion at position i, the expense at position j ≥ i is the one that was at j + 1, so the note stored for position j now shows beside a different expense |
| Permissions.ValidationOrder | src/components/UserPermissionsModal.tsx:82-101 | each error is reported exactly when its check fails and all earlier checks pass, in the order blank username, blank password, mismatch, no permissions; a form passes when all four checks do |
| Permissions.NewUserRecord | src/components/UserPermissionsModal.tsx:103-109 | the record passed to `addUser` has the untrimmed username and password, is not an admin and has no full access |
| Permissions.UsernameStoredUntrimmed | src/components/UserPermissionsModal.tsx:83-105 | a username with surrounding spaces passes the check and is stored with its spaces |
| Permissions.DefaultPermissionIsNotAPage | src/components/UserPermissionsModal.tsx:50 | the default permission `dashboard` is not an `ALL_PAGES` id |
| Permissions.TogglePermission | src/components/UserPermissionsModal.tsx:180-196 | a present id is removed everywhere it occurs; an absent one is appended; membership flips |
| Permissions.ToggleOffKeepsOthers | src/components/UserPermissionsModal.tsx:185 | removing an id keeps every other id as often as before |
| Permissions.ToggleTwiceRestores | src/components/UserPermissionsModal.tsx:184-186 | toggling an absent id twice restores the list |
| Permissions.ToLowerIdempotent | src/components/UserPermissionsModal.tsx:204 | lower-casing twice is lower-casing once |
| Permissions.MatchIgnoresCase | src/components/UserPermissionsModal.tsx:203-206 | the text filter ignores ASCII case on both sides |
| Permissions.FilterLogs | src/components/UserPermissionsModal.tsx:202-220 | every log shown passes the username, action and date tests |
| Permissions.EmptyFilterKeepsAll | src/components/UserPermissionsModal.tsx:202-220 | the empty filter shows every log, in order |
| Permissions.FilterLogsContents | src/components/UserPermissionsModal.tsx:202-220 | a log is shown exactly when it is stored and passes the filter |
| Permissions.SameDayBounds | src/components/UserPermissionsModal.tsx:209-216 | the bounds are inclusive: one day as both bounds covers its first millisecond up to 23:59:59.000 |
| Permissions.InvalidBoundHidesAll | src/components/UserPermissionsModal.tsx:209-216 | a bound that is not a date hides every log |
| Permissions.PermissionsPanel.Open | src/components/UserPermissionsModal.tsx:60-75 | opening loads the users and logs from the store, with blank forms |
| Permissions.PermissionsPanel.OpenAddForm | src/components/UserPermissionsModal.tsx:288 | the add-user button shows the add form; every other field is unchanged |
| Permissions.PermissionsPanel.EditNewUser | src/components/UserPermissionsModal.tsx:306-326 | typing changes only the add form; every other field is unchanged |
| Permissions.PermissionsPanel.CancelAddUser | src/components/UserPermissionsModal.tsx:357-361 | the add form is hidden and reset to the blank form with the default permission; every other field is unchanged |
| Permissions.PermissionsPanel.SetEditPassword | src/components/UserPermissionsModal.tsx:457 | typing in the edit dialog changes only the form's password; the user being edited and every other field are unchanged |
| Permissions.PermissionsPanel.CancelEditUser | src/components/UserPermissionsModal.tsx:488 | the edit dialog closes (no user being edited); the edit form keeps what was typed; every other field is unchanged |
| Permissions.PermissionsPanel.HandleAddUser | src/components/UserPermissionsModal.tsx:82-120 | the first failed check sets its message and changes nothing else; otherwise the result is `SubmitNewUser`'s; every other field is unchanged |
| Permissions.PermissionsPanel.SubmitNewUser | src/components/UserPermissionsModal.tsx:103-119 | a taken name leaves the store unchanged with an error; otherwise the user is appended, the form reset, the list reloaded and the addition logged; every other field is unchanged |
| Permissions.PermissionsPanel.HandleEditUser | src/components/UserPermissionsModal.tsx:122-132 | a listed user is loaded into the edit form; an unknown name changes nothing; every other field is unchanged |
| Permissions.PermissionsPanel.HandleSaveEdit | src/components/UserPermissionsModal.tsx:134-158 | a blank password or an empty permission list is refused with its message; otherwise only password and permissions go to `updateUser`; every other field is unchanged |
| Permissions.PermissionsPanel.SubmitEdit | src/components/UserPermissionsModal.tsx:145-157 | a missing user leaves the store unchanged with an error; otherwise the user is updated, editing ends, the list is reloaded and the update logged; every other field is unchanged |
| Permissions.PermissionsPanel.EditSaved | src/components/UserPermissionsModal.tsx:150-154 | the success branch: success reported, editing ended, the update logged and the list reloaded; the table and every other field unchanged |
| Permissions.PermissionsPanel.HandleDeleteUser | src/components/UserPermissionsModal.tsx:160-171 | when confirmed, the user is deleted, the list reloaded, success reported and the deletion logged; otherwise nothing changes; every other field is unchanged |
| Permissions.PermissionsPanel.HandlePermissionToggle | src/components/UserPermissionsModal.tsx:180-196 | toggles the id in the add form or the edit form only; every other field is unchanged |
| Permissions.PermissionsPanel.SetFilter | src/components/UserPermissionsModal.tsx:512-541 | changing the filter keeps the logs; every other field is unchanged |
| Home.Added | src/components/Home.tsx:38-51 | a blank text adds nothing; otherwise one pending, medium-priority to-do with the trimmed text is prepended |
| Home.Toggled | src/components/Home.tsx:53-57 | `completed` flips only on the to-dos with the id; the length is kept |
| Home.Deleted | src/components/Home.tsx:59-61 | exactly the to-dos with another id remain |
| Home.DeleteKeepsOrder | src/components/Home.tsx:59-61 | deleting distributes over concatenation, so the remaining to-dos keep their relative order |
| Home.Edited | src/components/Home.tsx:68-76 | a blank text changes nothing; otherwise the to-dos with the id get the trimmed text and the others are unchanged |
| Home.Completed | src/components/Home.tsx:101 | exactly the completed to-dos |
| Home.Pending | src/components/Home.tsx:102 | exactly the pending to-dos |
| Home.ToggleTwice | src/components/Home.tsx:53-57 | toggling twice is the identity |
| Home.CompletedPendingPartition | src/components/Home.tsx:101-102 | completed and pending partition the list; their lengths sum to the total |
| Home.AddThenDelete | src/components/Home.tsx:38-61 | a just-added to-do is pending, and deleting its id undoes the addition |
| Home.DeleteAbsent | src/components/Home.tsx:59-61 | deleting an id no to-do carries changes nothing |
| Home.TodoList.Open | src/components/Home.tsx:21-36 | a stored list that parses is loaded, otherwise the list is empty; storage then equals the list |
| Home.TodoList.OpenAddForm | src/components/Home.tsx:162 | the add button shows the add form; the list and the edit are unchanged |
| Home.TodoList.CancelAdd | src/components/Home.tsx:197-200 | cancelling hides and clears the add form; the list and the edit are unchanged |
| Home.TodoList.SetNewTodo | src/components/Home.tsx:177 | typing changes only the add field; every other field is unchanged |
| Home.TodoList.AddTodo | src/components/Home.tsx:38-51 | the list becomes `Added`; the form is cleared only when something was added; storage follows the list |
| Home.TodoList.ToggleTodo | src/components/Home.tsx:53-57 | the list becomes `Toggled`; storage follows the list; every other field is unchanged |
| Home.TodoList.DeleteTodo | src/components/Home.tsx:59-61 | the list becomes `Deleted`; storage follows the list; every other field is unchanged |
| Home.TodoList.StartEdit | src/components/Home.tsx:63-66 | starts editing the to-do with its text; every other field is unchanged |
| Home.TodoList.SetEditText | src/components/Home.tsx:245 | typing changes only the edit text; every other field is unchanged |
| Home.TodoList.SaveEdit | src/components/Home.tsx:68-76 | the list becomes `Edited`; editing always ends; every other field is unchanged |
| Home.TodoList.CancelEdit | src/components/Home.tsx:78-81 | editing ends; the list is unchanged; every other field is unchanged |

## Left out

- Numbers: JavaScript numbers are IEEE doubles, and the model uses exact reals. Rounding error, overflow to Infinity and NaN arithmetic are not reproduced. A `parseFloat` that yields NaN is `None`.
- Income.IncomeEditor.HandleAddConcert and Expense.ExpenseEditor.HandleAddExpense take `parseFloat` of the amount text as a real. A NaN amount (text such as `abc`) is not modelled.
- Text.ToLower lower-cases ASCII letters only. `toLowerCase` also maps other Unicode letters (for example `İ`), and that is not modelled.
- Concert.CategoryTotal and Income.GetConcertDetails: a label or concert name equal to an `Object.prototype` member name (`constructor`, `toString`, …) would read an inherited property in JavaScript (`editedCategoryAmounts[label]`, `concertDetailsMap[name] || …`). The model treats every label and name as an own key.
- Permissions.MatchesDate: the time zone is reduced to one offset parameter, and date strings to day numbers. `new Date("yyyy-mm-dd")` is read as UTC midnight, and `"yyyy-mm-ddT23:59:59"` is read in local time. Daylight-saving changes within the range are not modelled.
- Browser side effects are not modelled:
  - `window.confirm` becomes a `confirmed` parameter;
  - `alert` and the 3-second `setTimeout` that clears a message;
  - `window.open` in the expense list's `handleExpenseClick` (src/components/ExpenseDetailModal.tsx:291-295);
  - `console` logging;
  - `window.dispatchEvent` and `addEventListener`, which become a `notified` flag and `Dashboard.DashboardView.Refresh`.
- Storage write failures are not modelled. The model assumes that `localStorage.setItem` succeeds (the `try/catch` around quota errors).
- An empty stored string is treated as an absent key, as the `if (saved)` tests do.
- Several `useAuth()` instances share local storage but keep separate `user` states. The model gives each panel one `AuthStore`, and does not model two instances interleaving writes.
- Concert.ConcertEditor.SaveDetail and Concert.ConcertEditor.DeleteDetail require the category to have a breakdown. The source would throw on `prev[category].map` or `filter` otherwise, and its buttons exist only for listed lines.
- Income.IncomeEditor.HandleSaveConcertName, Expense.ExpenseEditor.HandleSaveLink, Expense.ExpenseEditor.HandleEditExpense and Expense.ExpenseEditor.HandleSaveExpense require an index inside the list. In JavaScript an index past the end would extend the array with holes. The rename and edit buttons exist only for listed rows; HandleSaveLink has no caller at all (next line).
- Expense.ExpenseEditor.HandleAddLink, HandleSaveLink, HandleAddNote, HandleSaveNote, HandleAddStructuredNote and HandleSaveStructuredNote model handlers that no user can reach. Nothing in the markup calls `handleAddLink`, `handleSaveLink`, `handleAddNote` or `handleAddStructuredNote` (src/components/ExpenseDetailModal.tsx:100-148). Only the last two set `editingNote` and `editingStructuredNote`, so the note editors gated on them (lines 650 and 741) never render, and neither do their save buttons (lines 708 and 767). The methods state what each handler would do if called. On the reachable path, Expense.ExpenseEditor.HandleSaveExpense stores a note only when it is not blank, and rows only when some survive the filter.
- The ConcertDetailModal's free-text category notes, category expansion toggles, `handleEditDetail` and `handleEditCategoryAmount` only fill text fields for display. They are not modelled.
- `handleSaveCategoryAmountOld` (src/components/ConcertDetailModal.tsx:273-285) is dead code that refers to an undefined `prev`. It is not modelled.
- The Temmuz ledger is modelled (`Dashboard.TemmuzData`) but never displayed, because the current month is fixed to Haziran.
- Rendering and formatting are not modelled: JSX, `Intl.NumberFormat`, `toLocaleString`, `toFixed`, and the `Math.round` of the Emre and Hoze display rows (src/components/ConcertDetailModal.tsx:169-170).
- The following files have no logic in this model:
  - src/components/Calendar.tsx (Google API and OAuth network calls);
  - src/App.tsx;
  - src/components/Navigation.tsx;
  - src/components/AccessDenied.tsx;
  - src/components/UserBadge.tsx;
  - src/components/Navbar.tsx;
  - src/components/TransactionForm.tsx;
  - types/index.ts.
- Passwords are stored and compared in plain text, as the source does. No security property is claimed.
