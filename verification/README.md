# Tenant ledger dashboard — Dafny model

The dashboard lists tenants and, for one selected tenant, shows a ledger of
transactions with three totals: total charges, total payments and the
balance. This project models the two pieces of logic behind that screen, plus
the small display helpers:

- **Ledger aggregation** (`ledger.dfy`, module `Ledger`). A transaction's
  type is lower-cased (`text.dfy`, module `Text`, ASCII only) and
  classified as a charge, a payment or neither. The reducer folds the list
  left to right. A charge adds the magnitude of its amount. A payment adds
  its signed amount. The balance is payments minus charges. Amounts are
  exact integer cents. The fold is proved equal to independent per-transaction
  sums. It is additive over concatenation, independent of order, blind to
  letter case and to unknown types.
- **Ledger panel** (`panel.dfy`, module `Panel`). The model's state is
  the tenant list, the selected tenant, the transactions, the ledger error
  and the loading flag. View Ledger, Retry, the fetch outcomes and Close are
  pure functions on that record. `DisplayMode` picks what is rendered: no
  panel, or a panel with an optional totals summary and one of spinner,
  error, empty message or table. A run of events without overlapping fetches
  keeps a consistency invariant. In that invariant the summary appears
  exactly when the table does, so totals are never shown beside the
  spinner, an error or the empty message.
- **Amount display** (`format.dfy`, module `Format`). The model decides
  when a minus is prefixed and which magnitude is formatted. It also picks
  the colour of an amount and the style of the balance and of the type
  badge.

Three points of the code's behaviour that the model keeps as written:
- Selecting a tenant does not discard the previous transactions. They stay
  in the state until the new fetch settles, and the spinner hides them and
  their totals meanwhile (`Panel.ViewLedger`).
- Close does not reset the loading flag (`Panel.Close`).
- A successful fetch does not clear the ledger error; only a new request
  or Close does (`Panel.FetchOk`).

## Model

| member | source | states |
|---|---|---|
| Text.ToLower | frontend/src/TenantList.js:58-60 | lower-casing keeps the length, maps each character by the ASCII rule, and leaves no upper-case letter |
| Text.ToLowerEqualIff | frontend/src/TenantList.js:58-60 | two types have equal lower-cased forms exactly when they are equal letter by letter ignoring case |
| Ledger.Classify | frontend/src/TenantList.js:58-62 | a type is a charge exactly when it equals "charge" ignoring case, and a payment exactly when it equals "payment" ignoring case; anything else is neither |
| Ledger.ClassifyIgnoresCase | frontend/src/TenantList.js:58-60 | types that differ only in letter case classify identically |
| Ledger.ChargeSpellings | frontend/src/TenantList.js:58-59 | "charge", "Charge" and "CHARGE" all classify as a charge |
| Ledger.PaymentSpelling | frontend/src/TenantList.js:60 | "Payment" classifies as a payment |
| Ledger.RefundIsOther | frontend/src/TenantList.js:58-63 | "refund" is neither a charge nor a payment |
| Ledger.Step | frontend/src/TenantList.js:57-63 | one reducer step adds exactly the transaction's charge share (its magnitude if a charge, else 0) and payment share (its signed amount if a payment, else 0) |
| Ledger.ChargeTotalCoversEach | frontend/src/TenantList.js:58-59 | the charge total is at least the magnitude of every single charge in the list |
| Ledger.Reduce | frontend/src/TenantList.js:56-64 | the left fold from any accumulator adds exactly the independent per-transaction charge and payment sums to it |
| Ledger.Aggregate | frontend/src/TenantList.js:51-73 | the totals equal the independent charge and payment sums, total charges are non-negative, balance is payments minus charges, and an empty list gives all zeros |
| Ledger.EmptyGuardRedundant | frontend/src/TenantList.js:51-64 | the empty-list shortcut agrees with folding the empty list from the initial accumulator |
| Ledger.AggregateAppend | frontend/src/TenantList.js:56-71 | each total of a concatenation is the sum of that total over the two parts |
| Ledger.AggregateOrderIrrelevant | frontend/src/TenantList.js:56-71 | swapping two blocks of transactions leaves all totals unchanged |
| Ledger.AggregatePermutation | frontend/src/TenantList.js:56-71 | any reordering of the transactions (equal multisets) leaves every total unchanged |
| Ledger.AggregateSingle | frontend/src/TenantList.js:57-63 | one charge contributes its magnitude to charges and its negation to the balance; one payment contributes its signed amount to payments and balance; any other type contributes nothing |
| Ledger.UnknownKindIgnored | frontend/src/TenantList.js:58-63 | inserting a transaction of unknown type anywhere leaves every total unchanged |
| Ledger.AggregateIgnoresCase | frontend/src/TenantList.js:56-64 | changing the letter case of any transaction types leaves every total unchanged |
| Ledger.ScenarioChargeAndPayment | frontend/src/TenantList.js:51-73 | a charge of -50.00 and a payment of 200.00 give charges 50.00, payments 200.00, balance 150.00 |
| Ledger.ScenarioTwoCharges | frontend/src/TenantList.js:51-73 | charges of 30.00 and 20.00 give charges 50.00, payments 0, balance -50.00 |
| Format.FormatAmount | frontend/src/TenantList.js:75-86 | a minus is prefixed exactly when signs are requested and the amount is negative; with signs the text reads back as the amount, without signs as its magnitude |
| Format.UnsignedHidesSign | frontend/src/TenantList.js:75-86 | without signs an amount and its negation display identically, with no minus |
| Format.FormatExample | frontend/src/TenantList.js:75-86 | -1234.50 displays as magnitude 1234.50, with a minus only in signed mode |
| Format.AmountColor | frontend/src/TenantList.js:97-100 | the warning colour, `#dc3545`, is chosen exactly for negative amounts, which is exactly when the signed text has a minus; every other amount gets `#28a745` |
| Format.BalanceStyle | frontend/src/TenantList.js:167 | the balance is styled as a charge exactly when its signed text has a minus, which is when its colour is the warning colour |
| Format.BadgeStyle | frontend/src/TenantList.js:88-91 | the charge badge goes exactly to types the totals count as charges; unknown types get the payment badge |
| Panel.Init | frontend/src/TenantList.js:4-9 | the initial state has no transactions, no ledger error and no fetch in flight, so it shows no panel and holds zero totals |
| Panel.DisplayMode | frontend/src/TenantList.js:148-188 | the panel shows exactly when a tenant is selected; the summary is shown exactly when there are transactions and loading is over; every non-spinner body needs loading to be over; the table needs transactions and no error |
| Panel.DisplayFollowsPriority | frontend/src/TenantList.js:174-188 | the body shown is the highest-priority one whose condition holds, in the order spinner, error, empty, table |
| Panel.ViewLedger | frontend/src/TenantList.js:26-29 | viewing a ledger selects the tenant, starts loading, clears the error, and shows the spinner without a summary; the old transactions stay in the state but are hidden |
| Panel.Retry | frontend/src/TenantList.js:182 | retry re-requests the same tenant: loading starts, the error is cleared, the old transactions are kept but hidden, and the spinner shows |
| Panel.FetchOk | frontend/src/TenantList.js:37-42 | a resolved fetch ends loading and installs the data, leaving the ledger error as it was; with no error, the table and summary appear for non-empty data and the empty message otherwise |
| Panel.FetchFail | frontend/src/TenantList.js:38-42 | a rejected fetch ends loading, records the error, empties the transactions so the totals are zero, and shows the error without a summary |
| Panel.Close | frontend/src/TenantList.js:45-49 | closing deselects the tenant and hides the panel, empties the transactions so the totals are zero, clears the error, and keeps the tenant list and the loading flag |
| Panel.ViewThenFail | frontend/src/TenantList.js:26-42 | a request followed by a failure always ends with loading over, the error shown and zero totals |
| Panel.ViewThenLoad | frontend/src/TenantList.js:26-42 | a request followed by success always ends with loading over and the new data shown, as table and summary or as the empty message |
| Panel.NextKeepsConsistent | frontend/src/TenantList.js:26-49 | every enabled event preserves consistency and the tenant list |
| Panel.RunKeepsConsistent | frontend/src/TenantList.js:26-49 | every run of enabled events preserves consistency and the tenant list |
| Panel.SummaryOnlyWithTable | frontend/src/TenantList.js:154-188 | in a consistent state the summary is shown exactly when the table is |
| Panel.NoStaleTotals | frontend/src/TenantList.js:154-188 | in every state reached from the start without overlapping fetches, the summary is shown exactly when the table is |

## Left out

- The tenant-list fetch, its HTTP status check and its error screen with a page reload (frontend/src/TenantList.js:11-24, 102-112): network I/O and a browser reload. The tenant list is a parameter of `Panel.Init`.
- The ledger fetch, its status check and `response.json()`: network I/O. Their outcomes are the `FetchResolved` and `FetchRejected` events.
- Overlapping ledger fetches, where the last response to settle wins. `Panel.Enabled` admits a new request only when no fetch is in flight. Without that, a stale success can land after a failure and show the summary beside the error, because a success does not clear the error.
- `parseFloat` coercion, NaN propagation and floating-point rounding: amounts are exact integer cents.
- A transaction whose `type` is missing, `null` or not a string (frontend/src/TenantList.js:58, 60, 89): `toLowerCase()` throws during render, and with no error boundary around it the whole tenant list, directory included, unmounts. `Ledger.Transaction.kind` is always a string, so the model has no such failure.
- A `null` transaction list (frontend/src/TenantList.js:52, 154, 184): the guard at :52 lets the totals through, but the render reads `transactions.length` and throws, which unmounts the whole tenant list. The model's list is always a sequence.
- Text.ToLower: lower-cases ASCII letters only; JavaScript's `toLowerCase` also maps non-ASCII letters.
- The currency text of `Intl.NumberFormat` and the date text of `toLocaleDateString`: library formatting. `Format.AmountText` keeps only the minus decision and the magnitude.
- JSX markup, CSS classes other than the charge/payment styles, and the capitalised badge label (frontend/src/TenantList.js:92).
- frontend/src/App.js: a layout wrapper with no logic.
