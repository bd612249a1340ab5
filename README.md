# Expense Tracker — a verified model of its core logic

This project models the parts of the Expense Tracker mobile app that decide what gets stored, sent or shown. It is written in Dafny 4.11.

The modelled parts are:

- **The expense store** (`ExpenseStore`). It holds the in-memory lists of expenses, categories and budgets. Its mutation calls forward to the remote store and then patch the local lists from the `{ data, error }` reply. On first load it seeds the seven default categories (`Categories`).
- **The expense parser** (`Ai`). It covers:
  - the API-key check;
  - input precedence: audio, then image, then text;
  - removal of the `data:image/<subtype>;base64,` prefix;
  - cleanup of markdown fences around the model's reply;
  - defaults for missing fields.
- **The entry screens**:
  - the manual form (`AddExpense`): smart default category, receipt auto-fill, save validation;
  - the capture sheet (`AddExpenseModal`): chat, voice and photo handlers, and the reset on becoming visible;
  - the demo seeding service (`DemoData`).
- **Small display helpers**:
  - the budget card's progress, remainder and label (`BudgetCard`);
  - the web charts' sorting, percentages and bar widths (`AnalyticsCharts`);
  - the overflow menu's placement and item-press order (`OverflowMenu`).
- **The sign-in form** (`Login`): its ordered validation chain and the sign-up/sign-in switch.

Shared JavaScript built-ins live in `Js`. These are `null`, truthiness, `find`, `trim`, `toLowerCase`, `includes`, and IEEE `NaN`/`Infinity` where a division can produce them. The row and payload shapes of the remote store live in `Records`.

Stateful parts become classes whose methods say what they change:

- the store;
- the form screen;
- the capture sheet;
- the menu;
- the sign-in screen.

Loops are methods proved equal to a specification function: the category seeding loop and the two demo loops. Pure computations are functions with lemmas about them.

Every external call is a parameter of the operation that makes it. This covers:

- remote store replies;
- the model's reply;
- `JSON.parse`, `parseFloat`, `Number#toString` and `toFixed(2)`;
- the current time and the date for "n days ago";
- permissions, the recorder, the file reader and the image picker;
- the authentication service.

Amounts are `real`.

## Model

| member | source | states |
|---|---|---|
| Js.FindIndex | app/add-expense.tsx:31 | `find` picks the first element satisfying the predicate; none means no element does. |
| Js.Find | app/add-expense.tsx:31 | `find` returns an element satisfying the predicate with none before it, and `undefined` only when no element satisfies it. |
| Js.Includes | app/add-expense.tsx:31 | Definition of `includes`: the needle starts at the current position or later. Its meaning is stated by `Js.IncludesIffOccurs`. |
| Js.IncludesIffOccurs | app/add-expense.tsx:31 | `includes` holds exactly when the needle occurs at some offset of the string. |
| Js.Lower | app/add-expense.tsx:31 | `toLowerCase` keeps the length and lower-cases every character in place (ASCII letters). |
| Js.TrimStart | services/ai.ts:71 | The result is a suffix of the input. Every dropped character is whitespace, and the result does not start with whitespace. |
| Js.TrimEnd | services/ai.ts:71 | The result is a prefix of the input. Every dropped character is whitespace, and the result does not end with whitespace. |
| Js.Trim | services/ai.ts:71 | `trim()` returns an infix of the input with only whitespace outside it, and no whitespace at either of its own ends. |
| Js.TrimKeepsTrimmed | services/ai.ts:71 | A string with no whitespace at either end is unchanged by `trim()`. |
| Js.TrimIdempotent | services/ai.ts:71 | Trimming twice equals trimming once. |
| Categories.Names | constants/categories.ts:10-18 | The name list has one entry per template, in template order. |
| Categories.DefaultCategoriesShape | constants/categories.ts:10-18 | There are exactly seven defaults. Their names in order are Food, Transport, Shopping, Entertainment, Bills, Health, Other. The names are pairwise distinct and include the fallback "Other". |
| ExpenseStore.MapWhere | contexts/ExpenseContext.tsx:92 | A conditional `map` keeps the length. |
| ExpenseStore.MapWhereAt | contexts/ExpenseContext.tsx:92 | Entry k of a conditional `map` is the rewritten entry when it matches, and the old entry otherwise. |
| ExpenseStore.Filter | contexts/ExpenseContext.tsx:99 | An element survives `filter` exactly when it was in the list and passes the predicate. |
| ExpenseStore.FilterAppend | contexts/ExpenseContext.tsx:99 | Filtering distributes over concatenation, so survivors keep their relative order. |
| ExpenseStore.MergeExpense | contexts/ExpenseContext.tsx:92 | Definition of `{ ...exp, ...updates }`: each key the update carries replaces the row's value. Its use is stated by `UpdatedExpensesAt` and `UpdatedExpensesTwice`. |
| ExpenseStore.MergeBudget | contexts/ExpenseContext.tsx:119 | Definition of `{ ...b, ...updates }`. Its use is stated by `UpdatedBudgetsAt`. |
| ExpenseStore.UpdatedExpenses | contexts/ExpenseContext.tsx:92 | Definition of the list `updateExpense` installs. Its properties are stated by `UpdatedExpensesAt` and `UpdatedExpensesTwice`. |
| ExpenseStore.UpdatedBudgets | contexts/ExpenseContext.tsx:119 | Definition of the list `updateBudget` installs. Its properties are stated by `UpdatedBudgetsAt`. |
| ExpenseStore.WithoutExpense | contexts/ExpenseContext.tsx:99 | Definition of the list `deleteExpense` installs. Its properties are stated by `DeleteRemovesExactly`. |
| ExpenseStore.SeedRequests | contexts/ExpenseContext.tsx:51-55 | Definition of the seeding requests: one per default, with the user id. Used by `SeedDefaultCategories` and `SeedingYieldsDefaultNames`. |
| ExpenseStore.UpdatedExpensesAt | contexts/ExpenseContext.tsx:89-94 | `updateExpense` keeps length and order. Each entry with the id becomes that entry merged with the update; every other entry is unchanged. |
| ExpenseStore.UpdatedBudgetsAt | contexts/ExpenseContext.tsx:116-121 | The same for `updateBudget`. |
| ExpenseStore.UpdatedExpensesTwice | contexts/ExpenseContext.tsx:92 | Applying the same update twice equals applying it once, even when the update rewrites the id. |
| ExpenseStore.DeleteRemovesExactly | contexts/ExpenseContext.tsx:96-101 | Delete removes exactly the entries with that id, and the rest keep their order. |
| ExpenseStore.SeededRows | contexts/ExpenseContext.tsx:50-57 | Seeding keeps at most one row per request. |
| ExpenseStore.SeededRowsAppend | contexts/ExpenseContext.tsx:51-57 | A failed create is skipped rather than aborting the loop. The rows of a later batch follow those of an earlier one. |
| ExpenseStore.SeededRowsAllCreated | contexts/ExpenseContext.tsx:51-58 | When every create returns a row, the local categories are exactly those rows, in request order. |
| ExpenseStore.SeedingYieldsDefaultNames | contexts/ExpenseContext.tsx:49-58 | Against a store that echoes names, first-run seeding yields the seven default names in default order. |
| ExpenseStore.SeedDefaultCategories | contexts/ExpenseContext.tsx:50-58 | The loop issues one create per default, in order, and keeps the rows returned (the `SeededRows` specification). |
| ExpenseStore.Store.constructor | contexts/ExpenseContext.tsx:24-27 | The lists start empty, with `loading` set. |
| ExpenseStore.Store.LoadData | contexts/ExpenseContext.tsx:29-70 | With no user, everything is cleared and no category is seeded. Otherwise each fetch with data replaces its list and a fetch without data leaves the list alone. An empty category list triggers the default seeding. `loading` ends false. |
| ExpenseStore.Store.AddExpense | contexts/ExpenseContext.tsx:76-87 | With no user, no request and no change. Otherwise the draft goes out with the user id. A returned row with no error is prepended; on error the list is unchanged. |
| ExpenseStore.Store.UpdateExpense | contexts/ExpenseContext.tsx:89-94 | The `(id, updates)` request is always sent. Without an error the list becomes the merged-by-id list; with an error it is unchanged. |
| ExpenseStore.Store.DeleteExpense | contexts/ExpenseContext.tsx:96-101 | The delete request for the id is always sent. Without an error the entries with that id are removed; with an error the list is unchanged. |
| ExpenseStore.Store.AddBudget | contexts/ExpenseContext.tsx:103-114 | Like `AddExpense`, but the new row is appended at the end. |
| ExpenseStore.Store.UpdateBudget | contexts/ExpenseContext.tsx:116-121 | The `(id, updates)` request is always sent. Without an error the budgets are merged by id; with an error they are unchanged. |
| Ai.SelectPayload | services/ai.ts:37-65 | Audio wins over an image and an image over text. An image loses its data-URL prefix. No non-empty input means no request. |
| Ai.WordRun | services/ai.ts:50 | `\w+` takes the longest run of word characters at the start. |
| Ai.StripDataUrlPrefix | services/ai.ts:50 | The result is the input or a proper suffix of it. |
| Ai.WordRunOfSubtype | services/ai.ts:50 | A subtype followed by a non-word character is taken whole by `\w+`. |
| Ai.StripDataUrlRoundTrip | services/ai.ts:50 | `data:image/<subtype>;base64,` is removed from a data URL, whatever the subtype and payload. |
| Ai.StripDataUrlChanged | services/ai.ts:50 | When the strip changes anything, the string began with `data:image/`, a word run and `;base64,`. |
| Ai.StripDataUrlOnlyPrefix | services/ai.ts:50 | Whatever the strip removes is exactly such a prefix at the start of the string. |
| Ai.RemoveAll | services/ai.ts:71 | A global `replace` by `''` never lengthens the text. Its behaviour is stated by `RemoveAllOfFree`, `RemoveFenceIsFree` and `RemoveAllSkipsPlain`. |
| Ai.CleanFences | services/ai.ts:71 | The cleaned reply has no whitespace at either end. |
| Ai.RemoveAllOfFree | services/ai.ts:71 | Removing a pattern from text that does not contain it changes nothing. |
| Ai.RemoveJsonFenceOfFree | services/ai.ts:71 | Text without a plain fence has no json fence to remove. |
| Ai.FreePrefix | services/ai.ts:71 | A prefix of fence-free text is fence-free. |
| Ai.FreeSuffix | services/ai.ts:71 | A suffix of fence-free text is fence-free. |
| Ai.RemoveFenceKeepsHead | services/ai.ts:71 | A first character that is not a backtick survives fence removal. |
| Ai.RemoveFenceKeepsTwo | services/ai.ts:71 | A backtick followed by a non-backtick survives fence removal. |
| Ai.RemoveFenceIsFree | services/ai.ts:71 | Removing every fence cannot leave a new fence behind. |
| Ai.TrimKeepsFree | services/ai.ts:71 | Trimming keeps text fence-free. |
| Ai.CleanFencesIsFree | services/ai.ts:71 | The cleaned reply contains no fence. |
| Ai.CleanFencesIdempotent | services/ai.ts:71 | Cleaning twice equals cleaning once. |
| Ai.RemoveAllSkipsPlain | services/ai.ts:71 | Removing a backtick pattern passes over a backtick-free prefix unchanged. |
| Ai.CleanFencesUnwraps | services/ai.ts:71 | A reply wrapped in a json code block cleans to its trimmed body. |
| Ai.WithDefaults | services/ai.ts:75-83 | The amount is 0 exactly when the conversion is missing or zero. The description falls back to "Expense", the category to "Other" and the date to now, each used only when the field is falsy. |
| Ai.WithDefaultsFixed | services/ai.ts:77-80 | A defaulted record read back is left as it is. |
| Ai.ErrorText | services/ai.ts:87 | The error is the exception's message when it is truthy, and otherwise "Failed to parse expense with Gemini". It is never empty. |
| Ai.ParseExpense | services/ai.ts:15-89 | Exactly one of data and error is set, and an error is never empty. A missing key gives "Gemini API key not found" before any input is examined. No input gives "No input provided". Otherwise the chosen payload is sent, and a throw, a bad parse or a defaulted record follows the cleaned reply. |
| AddExpense.DefaultIndex | app/add-expense.tsx:31-32 | The default is the first category whose lower-cased name contains "food". With none, it is the first category. |
| AddExpense.SmartDefault | app/add-expense.tsx:28-34 | A truthy selection or an empty category list is kept; otherwise the default category's id is selected. |
| AddExpense.SmartDefaultSettles | app/add-expense.tsx:28-34 | Running the effect again on the same categories changes nothing. |
| AddExpense.EqualNameIsContained | app/add-expense.tsx:74-75 | A case-insensitive equal name is also a case-insensitive substring match. |
| AddExpense.MatchIndex | app/add-expense.tsx:73-76 | The match prefers the first case-insensitive exact match, then the first substring match. No match exactly when no name contains the parsed one. |
| AddExpense.AddExpenseScreen.constructor | app/add-expense.tsx:21-26 | The fields start empty and all flags are off. |
| AddExpense.AddExpenseScreen.ApplySmartDefault | app/add-expense.tsx:28-34 | The selection becomes `SmartDefault` of the old selection. |
| AddExpense.AddExpenseScreen.SetRecurring | app/add-expense.tsx:210-211 | The switch sets the recurring flag. |
| AddExpense.AddExpenseScreen.AnalyzeReceipt | app/add-expense.tsx:55-80 | A failed scan changes no field. Otherwise a non-zero amount and a non-empty description are filled in, and a matched category is selected. |
| AddExpense.AddExpenseScreen.HandleSave | app/add-expense.tsx:82-107 | No record when the amount is empty or nothing is selected. Otherwise the record is manual, uses the selected category, the parsed amount and now, and falls back to "Expense" for an empty note. It has no photo and no recurring flag. |
| AddExpenseModal.CategoryIdFor | components/feature/AddExpenseModal.tsx:55-59 | The first category with exactly that name (case-sensitive) decides the result: its id, or null when that id is empty. With no such category the result is null. |
| AddExpenseModal.BuildRecord | components/feature/AddExpenseModal.tsx:55-63 | Definition of the record a parse result becomes, tagged with the capture mode. The handlers' contracts state its use. |
| AddExpenseModal.ChatTextReachesModel | components/feature/AddExpenseModal.tsx:42-46 | Chat text that passes the trimmed blank check reaches the model verbatim, untrimmed, never as missing input. |
| AddExpenseModal.PhotoDataReachesModel | components/feature/AddExpenseModal.tsx:157-159 | The prefix the sheet adds is the one the parser removes, so the model gets exactly the picked base64. |
| AddExpenseModal.ExpenseSheet.constructor | components/feature/AddExpenseModal.tsx:24-28 | The sheet starts in the initial mode, with empty text, not loading and no recording. |
| AddExpenseModal.ExpenseSheet.OnVisibility | components/feature/AddExpenseModal.tsx:30-38 | Becoming visible resets every field; otherwise nothing changes. |
| AddExpenseModal.ExpenseSheet.SetMode | components/feature/AddExpenseModal.tsx:24 | The mode becomes the chosen one. |
| AddExpenseModal.ExpenseSheet.SetChatInput | components/feature/AddExpenseModal.tsx:25 | The chat text becomes the typed text. |
| AddExpenseModal.ExpenseSheet.HandleChatSubmit | components/feature/AddExpenseModal.tsx:41-75 | Blank text does nothing. An error is alerted without a record. Data becomes a chat record without a photo, followed by the success alert, a clear, a reset to select mode and a close. Loading always ends false. |
| AddExpenseModal.ExpenseSheet.HandleVoiceRecord | components/feature/AddExpenseModal.tsx:77-138 | While recording it stops and parses. The outcome is an error alert, a voice record, or nothing (no file: still loading). Otherwise it starts recording: denied permission starts nothing, and a throw clears the recording. |
| AddExpenseModal.ExpenseSheet.HandlePhotoScan | components/feature/AddExpenseModal.tsx:140-188 | Denied permission is alerted. A cancelled pick does nothing. A picked image is sent with the jpeg data-URL prefix. Data becomes a photo record carrying the asset URI. |
| DemoData.Lookup | services/demoData.ts:51 | The category map's lookup with a null fallback is the recorded id when it exists and is non-empty, and null otherwise. |
| DemoData.CategoryPhase | services/demoData.ts:32-41 | Specification of the category loop. Its properties are stated by `CategoryPhaseCalls`, `CategoryPhaseStopsAtFirstError`, `CategoryPhaseRecordsAll`, `CategoryPhaseRecordsReturned` and `CategoryPhaseKeepsKeys`. |
| DemoData.ExpensePhase | services/demoData.ts:44-58 | Specification of the expense loop. Its properties are stated by `ExpensePhaseCalls` and `ExpensePhaseStopsAtFirstError`. |
| DemoData.SeedWith | services/demoData.ts:28-64 | Specification of a seeding run over any two lists. Its properties are stated by the `SeedWith…` lemmas. |
| DemoData.Seed | services/demoData.ts:28-64 | `SeedWith` over the demo lists. Its properties are stated by `DemoSeedSucceeds`. |
| DemoData.CategoryPhaseCalls | services/demoData.ts:32-41 | The category loop creates the templates in order, all of them unless it stopped on an error. |
| DemoData.CategoryPhaseStopsAtFirstError | services/demoData.ts:32-41 | Each create follows only successful ones. A failure is the last call's error. |
| DemoData.ExpensePhaseCalls | services/demoData.ts:44-58 | The expense loop creates the expenses in order, all of them unless it stopped on an error. |
| DemoData.ExpensePhaseStopsAtFirstError | services/demoData.ts:44-58 | The loop stops exactly at the first create error and reports it. |
| DemoData.CreateCategories | services/demoData.ts:31-41 | The category loop equals its specification `CategoryPhase`. |
| DemoData.CreateExpenses | services/demoData.ts:44-58 | The expense loop equals its specification `ExpensePhase`. |
| DemoData.SeedDemoData | services/demoData.ts:28-64 | The run equals `Seed`: categories first, then expenses unless that failed, with the first error reported. |
| DemoData.SeedWithReportsFirstError | services/demoData.ts:39-62 | Success holds exactly when there is no error. A failure carries the failing create's message. A category failure means no expense create. Success means every create was made. |
| DemoData.SeedWithAccepting | services/demoData.ts:32-60 | A store that accepts everything receives every category, then every expense, in list order, and the run succeeds. |
| DemoData.SeedWithExpensesAreManual | services/demoData.ts:48-56 | Every expense create is manual, has no photo, belongs to the user, and carries its entry's amount, description and date. |
| DemoData.CategoryPhaseRecordsAll | services/demoData.ts:40 | When every create returns a non-empty id, every template's name is mapped to a non-empty id. |
| DemoData.CategoryPhaseRecordsReturned | services/demoData.ts:32-41 | When every create succeeds with a row, each template's name maps to the id the store returned for the last template of that name. |
| DemoData.CategoryPhaseKeepsKeys | services/demoData.ts:40 | The category loop only adds to its map, and a key no template names keeps its id. |
| DemoData.SeedWithLinksCategories | services/demoData.ts:51 | With an accepting store, every expense whose category is a template name gets the id the store returned for the last template of that name. |
| DemoData.DemoExpenseCategoriesKnown | services/demoData.ts:3-25 | There are six categories and twelve expenses, and every expense names a demo category. |
| DemoData.DemoSeedSucceeds | services/demoData.ts:3-62 | Against an accepting store, the run succeeds after 6 category creates and 12 expense creates, each expense linked to the id the store returned for its demo category. |
| BudgetCard.Percentage | components/ui/BudgetCard.tsx:17 | The width is never above 100 and never +∞. It is NaN exactly for 0/0. For a non-zero budget it is min(spent/amount·100, 100). |
| BudgetCard.Remaining | components/ui/BudgetCard.tsx:18 | The remainder is never negative. It is either 0 or amount − spent. |
| BudgetCard.IsOverBudget | components/ui/BudgetCard.tsx:19 | Definition: spent strictly above the amount. Used by `LabelMatchesState`, `RemainingAddsUp` and `OverBudgetIsFull`. |
| BudgetCard.LabelText | components/ui/BudgetCard.tsx:71 | Definition of the label. Its properties are stated by `LabelMatchesState`. |
| BudgetCard.RemainingAddsUp | components/ui/BudgetCard.tsx:18-19 | When not over budget, remaining + spent equals the amount. |
| BudgetCard.OverBudgetIsFull | components/ui/BudgetCard.tsx:17-19 | Over a non-negative budget, nothing remains and the bar is at 100. |
| BudgetCard.WithinBudgetShare | components/ui/BudgetCard.tsx:17-19 | Within a positive budget, the bar is exactly the share spent, between 0 and 100. |
| BudgetCard.LabelMatchesState | components/ui/BudgetCard.tsx:71 | The label reads "Over budget" exactly when over budget; otherwise it shows the remainder. |
| BudgetCard.ZeroBudgetPercentageIsNaN | components/ui/BudgetCard.tsx:16-17 | A zero budget with nothing spent gives a NaN width. |
| BudgetCard.ProgressPercentage | components/ui/BudgetCard.tsx:17 | With 0/0 read as an empty bar, the width is finite and in [0, 100] for non-negative inputs. It agrees with the original everywhere else. |
| BudgetCard.ProgressIsShare | components/ui/BudgetCard.tsx:17-19 | For non-negative inputs other than 0/0, the original width is finite and in [0, 100]. |
| AnalyticsCharts.FormatCurrency | components/analytics/AnalyticsCharts.web.tsx:8-11 | The text starts with "$". A finite amount is formatted as is. |
| AnalyticsCharts.NonFiniteFormatsAsZero | components/analytics/AnalyticsCharts.web.tsx:9 | A non-finite amount is shown as 0. |
| AnalyticsCharts.Insert | components/analytics/AnalyticsCharts.web.tsx:14 | Insertion adds one element at the front or after the old head. |
| AnalyticsCharts.InsertPermutes | components/analytics/AnalyticsCharts.web.tsx:14 | Insertion adds exactly that element. |
| AnalyticsCharts.InsertKeepsOrder | components/analytics/AnalyticsCharts.web.tsx:14 | Insertion keeps a list non-increasing. |
| AnalyticsCharts.SortedByValue | components/analytics/AnalyticsCharts.web.tsx:14 | The sorted list is a permutation of the input, non-increasing by value. |
| AnalyticsCharts.WithValueInsert | components/analytics/AnalyticsCharts.web.tsx:14 | Insertion places the element before every entry of equal value already present. Since the sort inserts the input from the right, this keeps equal values in input order. |
| AnalyticsCharts.SortIsStable | components/analytics/AnalyticsCharts.web.tsx:14 | The sort is stable: entries of equal value keep their input order. |
| AnalyticsCharts.Total | components/analytics/AnalyticsCharts.web.tsx:15 | Definition of the `reduce` sum. Its properties are stated by `TotalInsert`, `TotalOfSorted` and `NonNegativeBelowTotal`. |
| AnalyticsCharts.TotalInsert | components/analytics/AnalyticsCharts.web.tsx:15 | Insertion adds the element's value to the total. |
| AnalyticsCharts.TotalOfSorted | components/analytics/AnalyticsCharts.web.tsx:14-15 | The total of the sorted list is the sum of all input values. |
| AnalyticsCharts.NonNegativeBelowTotal | components/analytics/AnalyticsCharts.web.tsx:15 | With non-negative values, each value lies between 0 and the total. |
| AnalyticsCharts.Round | components/analytics/AnalyticsCharts.web.tsx:32 | `Math.round` is within one half of its argument (halves go up). |
| AnalyticsCharts.PercentLabel | components/analytics/AnalyticsCharts.web.tsx:32 | A total ≤ 0 gives 0. Otherwise the label is the share·100 rounded to the nearest integer (halves up). |
| AnalyticsCharts.PercentLabelsBounded | components/analytics/AnalyticsCharts.web.tsx:14-32 | With non-negative values, every row's percent lies in [0, 100]. |
| AnalyticsCharts.ShareBounded | components/analytics/AnalyticsCharts.web.tsx:32 | A value between 0 and the total gets a percent in [0, 100]. |
| AnalyticsCharts.ShareSumIsScaledTotal | components/analytics/AnalyticsCharts.web.tsx:32 | The unrounded shares add up to total/T·100. |
| AnalyticsCharts.SharesAddToHundred | components/analytics/AnalyticsCharts.web.tsx:14-32 | For a positive total, the unrounded shares of the sorted rows add up to 100. |
| AnalyticsCharts.DailyMax | components/analytics/AnalyticsCharts.web.tsx:41 | The maximum is ≥ 0 and ≥ every amount, and it is attained unless it is 0. |
| AnalyticsCharts.BarPct | components/analytics/AnalyticsCharts.web.tsx:47 | A bar width lies in [0, 100] and is 0 when the maximum is ≤ 0. |
| AnalyticsCharts.BarPctIsShare | components/analytics/AnalyticsCharts.web.tsx:47 | An amount between 0 and the maximum needs no clamping. |
| AnalyticsCharts.DailyBars | components/analytics/AnalyticsCharts.web.tsx:41-47 | There is one bar per input entry, in input order. Each keeps its label and amount, with width in [0, 100] scaled to the largest day. |
| AnalyticsCharts.LargestDayFillsBar | components/analytics/AnalyticsCharts.web.tsx:41-47 | The largest day with positive spending fills its bar. |
| AnalyticsCharts.FullShare | components/analytics/AnalyticsCharts.web.tsx:47 | An amount equal to a positive maximum gives 100. |
| OverflowMenu.Clamp | components/ui/OverflowMenu.tsx:44 | The result lies in [min, max] when min ≤ max and is the value itself when in range. When the bounds cross, max wins. |
| OverflowMenu.EffectiveWidth | components/ui/OverflowMenu.tsx:47-48 | Definition of `menuWidth ?? fallbackWidth`. Its use is stated by `UnmeasuredMenuUsesFallback`. |
| OverflowMenu.MaxLeft | components/ui/OverflowMenu.tsx:58 | The upper bound is the larger of the padding and the window width minus the menu and the padding. |
| OverflowMenu.MenuPosition | components/ui/OverflowMenu.tsx:46-62 | No anchor gives {0, 8}. Otherwise top = y + height + 8, and left is right-aligned to the anchor and clamped to [8, max(8, window − width − 8)]. |
| OverflowMenu.MenuFitsInWindow | components/ui/OverflowMenu.tsx:55-59 | A window wide enough for the menu and both paddings holds the whole menu. |
| OverflowMenu.UnmeasuredMenuUsesFallback | components/ui/OverflowMenu.tsx:47-48 | Until measured, the menu is placed as if 220 wide. |
| OverflowMenu.Menu.constructor | components/ui/OverflowMenu.tsx:31-33 | The menu starts hidden, with no anchor and no width. |
| OverflowMenu.Menu.Open | components/ui/OverflowMenu.tsx:35-40 | A measured anchor is stored and the menu shows. In every window width it is placed by `MenuPosition` for that anchor, just below it. With no measurement nothing happens. |
| OverflowMenu.Menu.Close | components/ui/OverflowMenu.tsx:42 | The menu is hidden. |
| OverflowMenu.Menu.OnLayout | components/ui/OverflowMenu.tsx:89 | The measured width is stored. |
| OverflowMenu.Menu.PressItem | components/ui/OverflowMenu.tsx:97-100 | The menu hides, then that item's handler runs exactly once. |
| Login.EmptyFieldsComeFirst | app/login.tsx:21-24 | An empty email or password gives "Please fill in all fields" and no call, in either mode. |
| Login.MismatchIsRejected | app/login.tsx:26-30 | Signing up with a different confirmation gives "Passwords do not match" and no call. |
| Login.CallOnlyWhenValid | app/login.tsx:20-42 | A call is made exactly when both fields are filled and, when signing up, confirmed. It is the current mode's call with the typed credentials. |
| Login.SignInIgnoresConfirmation | app/login.tsx:36-40 | Signing in does not depend on the confirmation field. |
| Login.AuthErrorIsShown | app/login.tsx:32-40 | After a call, an alert appears exactly when the service returned an error, and it shows that error. |
| Login.SubmitOutcome | app/login.tsx:20-42 | Specification of `handleSubmit`. Its properties are stated by `EmptyFieldsComeFirst`, `MismatchIsRejected`, `CallOnlyWhenValid`, `SignInIgnoresConfirmation` and `AuthErrorIsShown`. |
| Login.LoginScreen.constructor | app/login.tsx:15-18 | The screen starts in sign-in mode with empty fields. |
| Login.LoginScreen.SetFields | app/login.tsx:16-18 | The email, password and confirmation fields take the typed values (their `onChangeText` setters).  |
| Login.LoginScreen.HandleSubmit | app/login.tsx:20-42 | The submit equals `SubmitOutcome` on the current fields and leaves the form unchanged. |
| Login.LoginScreen.ToggleMode | app/login.tsx:134-135 | The switch flips the mode unless an operation is running. |

## Left out

- The remote store (services/database.ts) is not part of this model, beyond its row shapes. Supabase's filtering and ordering happen in a library that cannot be seen. Each call's `{ data, error }` reply is an input.
- The `Promise.all` in `loadData` and all async interleavings are left out. Each operation runs as one atomic step, so the possible double seeding by two overlapping loads is not modelled. The `try/catch` in `loadData` has nothing to catch, because store calls return their errors.
- The prompt text and the model call (`generateContent`) are reduced to a function from payload to reply.
- `JSON.parse` together with the field reads is a function from the cleaned text to fields or an exception. A field that is not a string is taken as already converted.
- `Number`, `parseFloat`, `toString`, `toFixed` and `toISOString` are parameters.
- Amounts are finite reals. `NaN`, infinities and `-0` as inputs are not modelled. `NaN`/`Infinity` appear only where a division by zero produces them (`BudgetCard.Percentage`).
- `Js.Lower` folds ASCII letters only, so non-ASCII case mappings of `toLowerCase` are not modelled.
- Ai.ParseExpense ignores the `inputMethod` argument. The source never reads it either.
- Haptics, alerts, navigation (`router.back`, `onClose`), permissions, the recorder, the file reader, the image picker and biometrics (hooks/useBiometrics.ts) are left out. Their results are inputs, and the alerts and record handed to `addExpense` are outputs.
- AddExpense.AddExpenseScreen.HandleSave returns the record rather than awaiting `addExpense`. The `submitting` flag it sets and clears, and the catch branch for a throwing `addExpense`, are left out because the store's `addExpense` never throws.
- The capture sheet's handlers also return the record instead of calling the store. The `catch` around `addExpense` in `handleChatSubmit` is left out for the same reason.
- Rendering, styles, dark mode and theme colours are left out, except the seven category colours.
- The native and WebView charts (AnalyticsCharts.native.tsx), the platform dispatch, and the budgets, analytics and profile screens are left out.
- AnalyticsCharts.PercentLabel gives the rounded number instead of the `"NN%"` string, and `Math.round` is modelled only for finite shares.
- AnalyticsCharts.DailyBars takes each amount as already converted, so the `Number(value) || 0` step on a string value is not modelled.
- In DemoData, the date for "n days ago" is a function of `daysAgo`. The source takes a fresh `new Date()` on each iteration, which could cross midnight mid-run.
- In `app/login.tsx`, `operationLoading` disables the submit button. That affects only whether `handleSubmit` is reachable, so it is not modelled.
- OverflowMenu.Menu.Open: `measureInWindow` is asynchronous, and a callback arriving after a close is not modelled.

## Findings

| source | as written | input that shows it | evidently intended | confidence | as-written member | corrected member |
|---|---|---|---|---|---|---|
| components/ui/BudgetCard.tsx:16-17 | `Math.min((spent / budgetAmount) * 100, 100)` divides by the budget amount without a guard. | A budget of amount 0 (the budget form rejects only an empty amount) with nothing spent: 0/0 is NaN, and `Math.min` with NaN is NaN, so the bar width is `"NaN%"`. | An empty bar: a finite width in [0, 100]. | low — not executed | BudgetCard.ZeroBudgetPercentageIsNaN | BudgetCard.ProgressPercentage |
