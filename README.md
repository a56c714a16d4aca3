# Coinc monthly ledger — a Dafny model

Coinc is a personal-finance tracker. A signed-in user picks a month, adds
and deletes income (`receita`) and expense (`despesa`) records for it, and
sees that month's totals. With storage, authentication and live queries left
to the hosted provider, what remains is a set of small rules, and the model
covers these:

- the field rules of `TransactionSchema` as `safeParse` applies them;
- the two server actions against one document store: parse `isPaid`, validate, write, report; and check the id, delete, report;
- the summary cards' filter-then-reduce aggregation;
- the snapshot callback, which collects the documents, sorts them in place newest first and clears the loading flag;
- the month taken from the URL or the clock, and the month menu;
- row decoration and the delete button's toast;
- the add dialog's `FormData` serialisation, its scope-sync effect and its reaction to the action's message;
- `getInitials`;
- the redirect and render decisions of the home and login pages.

Where JavaScript semantics matter they are written out in module `Js`:

- `Number` coercion (`null` is 0, `undefined` is NaN, blank text is 0, otherwise a decimal literal or NaN);
- `String(v)`;
- truthiness;
- `split(' ')`;
- out-of-range indexing printing as `undefined`;
- `includes`.

Module layout follows the source. Each module is named after the file it models:

- `Types`: `src/lib/types.ts`
- `Actions`: `src/lib/actions.ts`. The store is the class `TransactionStore` over a `map` from id to document.
- `SummaryCards`: `src/components/summary-cards.tsx`
- `MonthContext`: the month table and `selectedMonth`. Both `main-app.tsx` and `month-selector.tsx` define them, with identical code.
- `MainApp`: `src/components/main-app.tsx`. It has an in-place insertion sort on an `array` and the class `MainAppState`.
- `MonthSelector`: `src/components/month-selector.tsx`
- `TransactionTable`: `src/components/transaction-table.tsx`
- `AddTransactionDialog`: `src/components/add-transaction-dialog.tsx`. It has a serialisation loop and the class `DialogState`.
- `UserNav`: `src/components/user-nav.tsx`
- `HomePage`: `src/app/page.tsx`
- `LoginPage`: `src/app/login/page.tsx`
- `Router`: navigations
- `Toasts`: toast values
- `Wrappers`: `Option`/`Result`

Outside the program, the provider supplies several things. Each becomes a parameter:

- the id `addDoc` assigns;
- the server timestamp;
- whether a write or delete succeeds;
- the snapshot's documents;
- the current month index;
- the sign-in outcome;
- `String(number)`, the shortest round-trip float printing, as the function `numberText`.

Amounts are `real`. `createdAt` is an integer timestamp that stands for
`toMillis()`; the sort only compares timestamps, so only their order matters.

Points where the code's behaviour is easy to misread:

- **Type tags.** The schema's tags are `receita`/`despesa`.
- **Tags in the dialog.** The dialog's own choices `"expense"`/`"income"` and its default `"expense"` are rejected by the schema's enum. So the resolver never lets the dialog submit: `DialogTypeChoicesRejected`, `DefaultFormRejected`.
- **Required fields.** `month` and `userId` are required strings.
- **Absent optional fields.** An absent `account`, `card` or `installments` reaches `safeParse` as `null`, because `formData.get` returns `null`. `z.string().optional()` rejects `null`, so the action rejects a form without them: `MissingAccountRejected`.
- **Description length.** `min(2)` counts UTF-16 code units, so one character above U+FFFF is long enough: `AstralCharacterDescriptionAccepted`.
- **A single expense.** One `despesa` of 4.50 gives income 0, expenses 4.50 and balance -4.50: `SingleExpenseScenario`.

## Model

| member | source | states |
|---|---|---|
| Types.ParseDescription | src/lib/types.ts:5-7 | accepted iff a string of at least 2 UTF-16 code units; a shorter string fails with the schema's message |
| Js.Utf16Length | src/lib/types.ts:5-7 | JavaScript's `length`: at least the number of characters and at most twice it, equal to it when no character is above U+FFFF |
| Js.StringToNumber | src/lib/actions.ts:19 | definition: `Number(text)` for decimal literals with an optional sign, blank text 0, anything else NaN; its properties are `Js.DigitTextNumber` |
| Js.DigitTextNumber | src/lib/actions.ts:19 | `Number(text)`: blank text is 0 and a run of digits reads as its decimal value |
| Js.ToNumber | src/lib/types.ts:8-10 | definition: `Number(v)` by the type of `v` (`undefined` NaN, `null` 0, booleans 1 and 0, a string through `StringToNumber`) |
| Js.ToText | src/components/add-transaction-dialog.tsx:87 | definition: `String(v)`, with numbers printed by the `numberText` parameter |
| Js.Truthy | src/lib/actions.ts:55 | falsy exactly for `undefined`, `null`, `false`, NaN, 0 and the empty string |
| Js.Includes | src/components/transaction-table.tsx:64-66 | `includes`: a match needs the text to be at least as long, and a prefix always matches |
| Js.CharAt | src/components/user-nav.tsx:31-33 | `s[i]` is a character iff the index is in range, and then it is that character |
| Js.TemplateText | src/components/user-nav.tsx:31-33 | definition: `${c}` prints the character, or `undefined` for an index out of range |
| Types.AstralCharacterDescriptionAccepted | src/lib/types.ts:5-7 | a description of one character above U+FFFF is accepted, since it is two code units |
| Types.ParseAmount | src/lib/types.ts:8-10 | accepted iff `Number(v)` is a number strictly above 0; NaN is a type error |
| Types.ParseType | src/lib/types.ts:11 | accepted iff exactly `"receita"` or `"despesa"`; any other string is an enum error |
| Types.ParseIsPaid | src/lib/types.ts:12 | `undefined` becomes `false`, a boolean passes, anything else fails |
| Types.ParseOptionalString | src/lib/types.ts:13-15 | `undefined` is absent, a string is kept, `null` and other values fail |
| Types.ParseString | src/lib/types.ts:16-17 | accepted iff a string |
| Types.FieldErrors | src/lib/types.ts:4-18 | holds exactly the failing keys, each with its issue, every key checked |
| Types.SafeParse | src/lib/types.ts:4-18 | succeeds iff no key has an issue; failure carries the non-empty field errors; a success satisfies the record invariants (description of at least 2 UTF-16 code units, amount above 0) |
| Types.SafeParseKeepsValues | src/lib/types.ts:4-18 | a success carries the input's own values, coerced as the rules say: all nine keys, with an absent optional field exactly when the input was `undefined` |
| Types.FailingFieldReported | src/lib/types.ts:4-18 | one failing key makes the parse fail and is reported with its issue |
| Types.NullRejected | src/lib/types.ts:13-17 | `null` under `month`, `userId`, `account`, `card` or `installments` makes the parse fail with a type error on that key |
| Types.ShortDescriptionRejected | src/lib/types.ts:5-7 | a description under 2 UTF-16 code units is rejected with its message |
| Types.NonPositiveAmountRejected | src/lib/types.ts:8-10 | an amount that coerces to NaN, 0 or below is rejected |
| Types.TypeTagsOnly | src/lib/types.ts:11 | success implies one of the two tags; `"expense"`/`"income"` give an enum error |
| Types.IsPaidDefaultsToFalse | src/lib/types.ts:12 | an absent `isPaid` parses to `false` |
| Types.PresenceRules | src/lib/types.ts:13-17 | optional keys pass iff undefined or a string; `month`/`userId` pass iff strings |
| Actions.FormGet | src/lib/actions.ts:15-26 | `null` iff no entry has the key, otherwise a string |
| Actions.FormGetFirst | src/lib/actions.ts:15-26 | the value read is the first one appended under the key |
| Actions.PaidFlag | src/lib/actions.ts:15-16 | definition: the raw value is exactly `"true"` or `"on"`; its properties are `Actions.IsPaidParse` |
| Actions.ActionInput | src/lib/actions.ts:15-27 | definition: the object handed to `safeParse`, each key read with `formData.get`; its shape is `Actions.ActionInputShape` |
| Actions.ActionInputShape | src/lib/actions.ts:15-27 | `amount` is a number after `Number(...)`, `isPaid` a boolean, and every other key `null` or a string, never `undefined` |
| Actions.IsPaidParse | src/lib/actions.ts:15-16 | `isPaid` is true iff the raw value is exactly `"true"` or `"on"`; absent gives false |
| Actions.MissingAmountRejected | src/lib/actions.ts:19 | a missing amount coerces to 0 and is rejected with the positive-amount message |
| Actions.MissingMonthRejected | src/lib/actions.ts:25 | a form without `month` is rejected with a type error on it |
| Actions.MissingUserIdRejected | src/lib/actions.ts:26 | a form without `userId` is rejected with a type error on it |
| Actions.MissingAccountRejected | src/lib/actions.ts:22 | a form without `account` is rejected, because `null` is not an optional string |
| Actions.MissingCardRejected | src/lib/actions.ts:23 | a form without `card` is rejected, because `null` is not an optional string |
| Actions.MissingInstallmentsRejected | src/lib/actions.ts:24 | a form without `installments` is rejected, because `null` is not an optional string |
| Actions.AddResponse | src/lib/actions.ts:30-47 | `"Invalid form data."` with non-empty field errors iff validation fails; added iff valid and written; otherwise the failure message; errors empty unless invalid |
| Actions.DeleteTarget | src/lib/actions.ts:53-55 | an id iff `transactionId` is present and non-empty |
| Actions.DeleteResponse | src/lib/actions.ts:53-68 | missing-id message iff no id; deleted iff an id and the delete succeeds; otherwise the failure message |
| Actions.TransactionStore.AddTransaction | src/lib/actions.ts:14-48 | returns `AddResponse`; invalid input leaves store and request log untouched; a successful write adds exactly the validated record with `createdAt`; a failed write changes no document |
| Actions.TransactionStore.DeleteTransaction | src/lib/actions.ts:49-69 | returns `DeleteResponse`; a missing id issues no request; otherwise one delete request is issued with no existence check, removing the id on success |
| Js.Split | src/components/user-nav.tsx:29 | at least one piece, none holds the separator; one piece iff the text has no separator |
| Js.SplitJoin | src/components/user-nav.tsx:29 | joining the pieces with the separator gives the text back |
| Js.SplitAfterHead | src/components/user-nav.tsx:29 | splitting after a separator-free head gives the head and the split of the rest |
| Js.IntegerTextReadsBack | src/components/add-transaction-dialog.tsx:87 | `Number` reads a printed whole number back as itself |
| SummaryCards.Filter | src/components/summary-cards.tsx:23-24 | a record is kept iff it is in the input with the tag |
| SummaryCards.FilterCounts | src/components/summary-cards.tsx:23-24 | each record of the tag is kept as often as it occurs in the input, others not at all |
| SummaryCards.FilterAppend | src/components/summary-cards.tsx:23-24 | the filter distributes over concatenation, so it keeps the list's order |
| SummaryCards.Reduce | src/components/summary-cards.tsx:25-28 | definition: the left fold of `reduce`; `SummaryCards.FilterReduceIsTotal` ties it to the reference sum |
| SummaryCards.Summarize | src/components/summary-cards.tsx:29-33 | balance equals income minus expenses for every list |
| SummaryCards.FilterReduceIsTotal | src/components/summary-cards.tsx:23-28 | filter-then-reduce from 0 equals the reference sum over the tag |
| SummaryCards.SummarizeIsTotals | src/components/summary-cards.tsx:23-28 | income is exactly the sum of `receita` amounts, expenses exactly the sum of `despesa` amounts |
| SummaryCards.EmptyListSummary | src/components/summary-cards.tsx:23-28 | the empty list gives 0, 0, 0 |
| SummaryCards.SummarizeAppend | src/components/summary-cards.tsx:23-28 | income and expenses distribute over concatenation |
| SummaryCards.SummarizeSingle | src/components/summary-cards.tsx:23-28 | one record counts toward its own tag only |
| SummaryCards.AppendExpense | src/components/summary-cards.tsx:26-28 | appending a `despesa` raises expenses by its amount and leaves income unchanged |
| SummaryCards.AppendIncome | src/components/summary-cards.tsx:23-25 | appending a `receita` raises income by its amount and leaves expenses unchanged |
| SummaryCards.TotalsNonNegative | src/components/summary-cards.tsx:23-28 | with all amounts positive both totals are at least 0 |
| SummaryCards.View | src/components/summary-cards.tsx:36-101 | skeletons iff loading; otherwise the cards show the aggregated income and expenses, their difference as the balance, and the red style iff income is below expenses |
| SummaryCards.ViewShowsTotals | src/components/summary-cards.tsx:22-101 | the cards show exactly the sums of the `receita` and the `despesa` amounts |
| SummaryCards.RedBalanceIffNegative | src/components/summary-cards.tsx:96-99 | the balance is red iff it is below 0 |
| SummaryCards.SingleExpenseScenario | src/components/summary-cards.tsx:22-34 | one `despesa` of 4.50 gives 0, 4.50, -4.50 |
| SummaryCards.IncomeAndExpenseScenario | src/components/summary-cards.tsx:22-34 | a `receita` of 100 and a `despesa` of 30 give 100, 30, 70 |
| MonthContext.MonthsDistinct | src/components/main-app.tsx:28-41 | the twelve month names are pairwise distinct |
| MonthContext.SelectedMonth | src/components/main-app.tsx:45-46 | the URL parameter when present and non-empty, otherwise the current month's name |
| MonthSelector.Entries | src/components/month-selector.tsx:41-53 | twelve entries in table order, each linking to `/?month=` plus its name, active iff its name is the selected month |
| MonthSelector.Href | src/components/month-selector.tsx:44 | definition: the link `/?month=` followed by the month's name |
| MonthSelector.Menu | src/components/month-selector.tsx:29-53 | the menu for the URL parameter and current month, computed as in the main view |
| MonthSelector.AtMostOneActive | src/components/month-selector.tsx:41-53 | at most one entry is active |
| MonthSelector.SomeActiveIffKnown | src/components/month-selector.tsx:41-53 | some entry is active iff the selected month is one of the twelve names |
| MonthSelector.DefaultActivatesCurrent | src/components/month-selector.tsx:31-53 | with no parameter exactly the current month's entry is active |
| MonthSelector.ParamActivatesItsEntry | src/components/month-selector.tsx:32-53 | a month name in the URL activates exactly its own entry |
| MainApp.FromDoc | src/components/main-app.tsx:65-68 | the record carries the document's id, its server timestamp and every one of its nine stored fields |
| MainApp.Records | src/components/main-app.tsx:63-69 | one record per document, in delivery order |
| MainApp.InScope | src/components/main-app.tsx:56-60 | definition: the two `where` clauses, user id and month equal |
| MainApp.Query | src/components/main-app.tsx:56-60 | an id is selected iff it is stored and its document matches the user and the month |
| MainApp.IsSnapshotOf | src/components/main-app.tsx:56-62 | definition: a snapshot holds each selected document once, as stored |
| MainApp.InsertAt | src/components/main-app.tsx:70-72 | one insertion pass extends the ordered prefix by one and permutes the array |
| MainApp.SortNewestFirst | src/components/main-app.tsx:70-72 | the array ends ordered by `createdAt` non-increasing and is a permutation of its old contents |
| MainApp.CollectSnapshot | src/components/main-app.tsx:62-72 | the list is newest first and a permutation of the snapshot's records |
| MainApp.ListRecordsComeFromDocs | src/components/main-app.tsx:63-69 | every listed record is one snapshot document's record, with that document's id |
| MainApp.DeliveredRecordsInScope | src/components/main-app.tsx:56-60 | for a snapshot of the query, every listed record belongs to the user and the month and is a stored document the query selects |
| MainApp.ContentView | src/components/main-app.tsx:128-137 | skeleton rows iff loading, otherwise the table over the list |
| MainApp.MainAppState.constructor | src/components/main-app.tsx:48-49 | starts with an empty list, loading, no query |
| MainApp.MainAppState.StartEffect | src/components/main-app.tsx:52-60 | sets loading; opens the query for the user and month only when there is a user |
| MainApp.MainAppState.OnSnapshot | src/components/main-app.tsx:62-75 | clears loading; the list becomes newest first and a permutation of the snapshot's records |
| MainApp.MainAppState.Content | src/components/main-app.tsx:128-137 | the table is shown iff not loading |
| TransactionTable.Badge | src/components/transaction-table.tsx:206-221 | a badge iff the label is present and non-empty, showing that label |
| TransactionTable.RowOf | src/components/transaction-table.tsx:154-246 | keyed by id; `"+"` iff `receita`, else `"-"`; `"Pago"` iff paid, else `"Pendente"`; the delete form carries the id |
| TransactionTable.Table | src/components/transaction-table.tsx:114-154 | the empty state iff the list is empty, otherwise one row per record in order |
| TransactionTable.RowKeysAreIds | src/components/transaction-table.tsx:153-154 | the rows are keyed by the records' ids in list order |
| TransactionTable.BadgesShowLabels | src/components/transaction-table.tsx:206-221 | card and account badges appear iff the label is non-empty and show it |
| TransactionTable.DeleteToast | src/components/transaction-table.tsx:60-69 | no toast iff the message is empty; title `"Sucesso"` iff the message includes `"sucesso"`; otherwise the destructive `"Erro"` toast; the description is the message |
| TransactionTable.EveryDeleteResultIsError | src/components/transaction-table.tsx:63-69 | each of the delete action's three messages is toasted as a destructive `"Erro"` |
| TransactionTable.InitialStateShowsNothing | src/components/transaction-table.tsx:54-61 | the initial empty message shows no toast |
| AddTransactionDialog.DefaultValues | src/components/add-transaction-dialog.tsx:69-82 | the defaults: empty description, amount 0, type `"expense"`, the props' month and user |
| AddTransactionDialog.Entries | src/components/add-transaction-dialog.tsx:86 | one entry per schema key, in schema order |
| AddTransactionDialog.Appended | src/components/add-transaction-dialog.tsx:86-88 | each entry becomes its key with `String(value)` |
| AddTransactionDialog.BuildFormData | src/components/add-transaction-dialog.tsx:84-88 | the loop appends every entry as its key and `String(value)`, in order |
| AddTransactionDialog.HandleFormSubmit | src/components/add-transaction-dialog.tsx:83-94 | nothing is submitted iff the resolver rejects the values; otherwise the serialised resolver output |
| AddTransactionDialog.DefaultFormRejected | src/components/add-transaction-dialog.tsx:70-82 | the defaults fail on exactly description, amount and type |
| AddTransactionDialog.DialogTypeChoicesRejected | src/components/add-transaction-dialog.tsx:197-200 | the dialog's type choices fail the resolver with an enum error |
| AddTransactionDialog.FormGetAppended | src/components/add-transaction-dialog.tsx:86-88 | under a key not used earlier, the action reads that entry's printed value |
| AddTransactionDialog.SerialisedTexts | src/components/add-transaction-dialog.tsx:86-88 | the action reads back the description and the type tag |
| AddTransactionDialog.SerialisedFlags | src/components/add-transaction-dialog.tsx:86-88 | the action reads back the printed amount and `"true"`/`"false"` for `isPaid` |
| AddTransactionDialog.SerialisedScope | src/components/add-transaction-dialog.tsx:86-88 | the action reads back the month and the user id |
| AddTransactionDialog.SerialisedOptionals | src/components/add-transaction-dialog.tsx:86-88 | the action reads back the optional fields' texts, `"undefined"` for a field whose value is undefined |
| AddTransactionDialog.SerialisedFields | src/components/add-transaction-dialog.tsx:86-88 | the object the action validates holds each field's printed value |
| AddTransactionDialog.SerialisedInput | src/components/add-transaction-dialog.tsx:86-88 | given that the printed amount reads back, that object is the record's own input |
| AddTransactionDialog.ReadBack | src/components/add-transaction-dialog.tsx:87 | a label is kept; an optional field whose value is undefined arrives as the text `"undefined"` |
| AddTransactionDialog.ResubmittedParses | src/components/add-transaction-dialog.tsx:83-94 | the schema accepts the read-back input and yields the record, with an optional field whose value is undefined read back as the text `"undefined"` |
| AddTransactionDialog.SubmitRoundTrip | src/components/add-transaction-dialog.tsx:83-94 | validated data, sent when the amount prints readably, is parsed back by the action to the record, with an optional field whose value is undefined read back as the text `"undefined"` |
| AddTransactionDialog.SubmitRoundTripExact | src/components/add-transaction-dialog.tsx:83-94 | with all labels present the round trip gives exactly the record |
| AddTransactionDialog.WholeAmountRoundTrip | src/components/add-transaction-dialog.tsx:83-94 | a whole amount printed as digits passes the action's validation |
| AddTransactionDialog.IsPaidRoundTrip | src/components/add-transaction-dialog.tsx:87 | `String(isPaid)` read by the action's rule gives `isPaid` back |
| AddTransactionDialog.ReactionTo | src/components/add-transaction-dialog.tsx:103-119 | close and reset iff the added message; nothing iff empty or invalid; an error toast otherwise |
| AddTransactionDialog.ReactionToAddResponse | src/components/add-transaction-dialog.tsx:103-119 | against the add action: closes iff the record was written, silent iff validation failed, error iff the write failed |
| AddTransactionDialog.DialogState.constructor | src/components/add-transaction-dialog.tsx:69-82 | closed, form at its defaults, no toasts |
| AddTransactionDialog.DialogState.SyncScope | src/components/add-transaction-dialog.tsx:95-101 | month and user take the props, every other field is kept, and those become the defaults |
| AddTransactionDialog.DialogState.OnActionState | src/components/add-transaction-dialog.tsx:103-119 | success toasts, closes and resets to the defaults; another non-invalid message toasts an error and keeps the dialog; otherwise nothing changes |
| AddTransactionDialog.SyncThenAdded | src/components/add-transaction-dialog.tsx:95-111 | after a scope change and a success, the form holds the new month and user and the dialog is closed |
| UserNav.GetInitials | src/components/user-nav.tsx:27-34 | `"U"` for a missing or empty name; the first character of a name without a space |
| UserNav.FirstTwoPieces | src/components/user-nav.tsx:29-31 | the first two pieces of two space-separated words are those words |
| UserNav.TwoWordInitials | src/components/user-nav.tsx:29-31 | two non-empty words give their first letters; later words are ignored |
| UserNav.LeadingSpaceInitials | src/components/user-nav.tsx:29-31 | a leading space prints `undefined` for the empty first piece |
| UserNav.TrailingSpaceInitials | src/components/user-nav.tsx:29-31 | a trailing space prints `undefined` for the empty second piece |
| UserNav.DoubleSpaceInitials | src/components/user-nav.tsx:29-31 | a double space prints `undefined` for the empty second piece |
| HomePage.Redirect | src/app/page.tsx:13-17 | replace with `/login` iff not loading and no user |
| HomePage.Render | src/app/page.tsx:19-23 | the loading screen iff loading or no user; the main view only ever for the present user |
| LoginPage.Redirect | src/app/login/page.tsx:37-41 | replace with `/` iff not loading and a user |
| LoginPage.Render | src/app/login/page.tsx:53-79 | the sign-in card iff not loading and no user, the spinner otherwise |
| LoginPage.AtMostOneRedirect | src/app/login/page.tsx:37-41 | at most one page redirects, neither while loading, and one does once settled |
| LoginPage.LoginPageState.HandleSignIn | src/app/login/page.tsx:43-51 | success pushes `/`; failure logs the error and does not navigate |

## Left out

- JSX markup, styling, icons, the dialog and sidebar widgets, and the mobile sidebar toggle: presentation only.
- Currency formatting with `Intl.NumberFormat("pt-BR", "BRL")`: it depends on a locale library.
- Floating point: amounts are exact `real`s, so sums do not round.
- `Number`'s full grammar: the `0x`, `0b` and `0o` prefixes, exponents, `Infinity`, and whitespace other than space, tab, `\n` and `\r` (such as `\v`, `\f`, U+00A0, U+2028 and U+2029) are not modelled.
- `String(number)`: JavaScript's float printing is the parameter `numberText`. `SubmitRoundTrip` assumes that `Number` reads the printed amount back; `Js.IntegerTextReadsBack` proves this only for whole numbers.
- `onSnapshot` and `unsubscribe`: the subscription lifecycle and the asynchronous order of delivery are not modelled. A snapshot is a parameter, and `IsSnapshotOf` states what it holds.
- MainApp.SortNewestFirst: `Array.prototype.sort` is modelled by an insertion sort. The contract states ordering and permutation, not that records with equal `createdAt` keep their delivery order.
- The null `createdAt` of a write that is still pending locally: every document has a timestamp.
- The split between the client SDK (add) and the Admin SDK (delete): both act on the one `TransactionStore`.
- `revalidatePath`, `console.log`, and `console.error` in the actions.
- Actions.TransactionStore.AddTransaction: the log records the request, not the document sent.
- `src/lib/firebase.ts`, `src/app/layout.tsx` and `src/app/loading.tsx`: initialisation and markup. `src/lib/firebase-admin.ts` and the auth provider are not part of this model.
- The Google popup and `signOut` in the user menu: the sign-in outcome is a parameter, and sign-out is not modelled.
- zod's and react-hook-form's internals beyond the field rules: zod's own message texts (an issue here is only its kind), the resolver's per-field state, `startTransition`, and the order in which React runs effects.
- UserNav.GetInitials: indexes characters, not UTF-16 code units, so a name starting with a character outside the basic plane is not split into halves.
- Toast class names: only the title, the description and the variant are kept.
