# AESCOMPT point of sale — a verified model of its core

AESCOMPT is a point-of-sale and bookkeeping app for small West African
businesses, written in TypeScript and React. It keeps its books (sales and
expenses, stock, customer debts, suppliers, the owner's profile) in the
browser's `localStorage`. This project models the core of the app in
Dafny and proves properties of that model:

- **SentinelX**, the start-up scrubber. It resets unreadable stored lists
  to `[]`, removes duplicate transactions by id, and counts its repairs.
  `heal` logs that count in the audit trail.
- **The ledger store of `App.tsx`**. This is a class whose methods are
  the app's handlers: adding a transaction (with its audit entry and
  receipt), signing in and out, adding and repaying debts, adding
  suppliers and moving their balances, adding products and setting stock,
  and profile edits. The persist effect writes the books back to storage.
- **The screens' logic**, each stated as functions and lemmas:
  - the home screen's totals, quick sale and QR lookup;
  - the history screen's filter and CSV export;
  - the searches, forms and phone-number cleaning of the debts, suppliers
    and stock screens;
  - the receipt's defaults, net total, ticket number and shared text;
  - the settings screen's receipt-setting merges.
- **Four small input state machines**, each a class: the pattern lock, the
  sign-in screen, the stock screen's add-product dialog, and the live
  assistant's transcript.

Module layout:

| file | module | models |
|---|---|---|
| `wrappers.dfy` | `Wrappers` | `Option` |
| `arrays.dfy` | `Arrays` | `Array.prototype.filter` and `find` |
| `strings.dfy` | `Strings` | `includes`, ASCII `toLowerCase`, `trim`, `join`, `split`, the `/\D/g` digit filter, `Number(text)`, `String(n)` |
| `storage.dfy` | `Storage` | JSON values and an abstract codec, the storage keys, `localStorage` |
| `types.dfy` | `Types` | the records of `types.ts` and their JSON shapes |
| `sentinel.dfy` | `SentinelX` | `services/SentinelX.ts` |
| `ledger.dfy` | `Ledger` | the state and handlers of `App.tsx` |
| `dashboard.dfy` | `Dashboard` | `components/Dashboard.tsx` |
| `transactions.dfy` | `TxHistory` | `components/Transactions.tsx` |
| `debts.dfy` | `Debts` | `components/DebtsModule.tsx` |
| `suppliers.dfy` | `Suppliers` | `components/SuppliersModule.tsx` |
| `inventory.dfy` | `Inventory` | `components/Inventory.tsx` |
| `receipt.dfy` | `Receipt` | `components/Receipt.tsx` |
| `admin.dfy` | `AdminConsole` | `components/AdminConsole.tsx` |
| `gesture.dfy` | `Gesture` | `components/GestureLock.tsx` |
| `auth.dfy` | `Auth` | `components/Auth.tsx` |
| `console.dfy` | `LiveConsole` | `components/FloatingConsole.tsx` |

Conventions used throughout:

- **Storage and JSON.** Storage is a `map<string, string>`. JSON text is
  handled by a `Codec` with two fields, `parse` and `stringify`.
  `Lawful(c)` states that parsing what was stringified gives the value
  back. The JSON grammar itself is not modelled.
- **Money and dates** are `int`. `Math.random` ids and `new Date()`
  timestamps are parameters.
- **Text.** A number is printed with `Strings.IntToString`. A date is
  printed by a `dateText` parameter. `Number(text)` is `Strings.NumberOf`.
- **Ledger class frames.** Each method of `Ledger.Ledger` states its whole
  new state as `State() == old(State()).(field := ...)`, so anything not
  named there is unchanged.

## Model

| member | source | states |
|---|---|---|
| SentinelX.KeysDistinct | services/SentinelX.ts:7 | The three checked keys (transactions, products, profile) are distinct. The debts and suppliers keys are not among them. |
| SentinelX.ResetPassFacts | services/SentinelX.ts:10-21 | The key loop rewrites with `[]` exactly the checked keys whose present, non-empty value fails to parse. It adds one to the count per rewrite. The key set and every other entry are unchanged. |
| SentinelX.FromItems | services/SentinelX.ts:27 | The `Map` built from the list has distinct keys in insertion order. Its key set is the set of ids in the list. Each entry is stored under its own id. |
| SentinelX.FromItemsKeepsLast | services/SentinelX.ts:27 | Each id of the `Map` holds the last record with that id. |
| SentinelX.FromItemsFirstOrder | services/SentinelX.ts:27 | The `Map`'s ids are ordered by where each id first occurs in the list. |
| SentinelX.DedupSemantics | services/SentinelX.ts:27 | `Array.from(map.values())` keeps exactly one record per distinct id. That record is the id's last occurrence, placed at the position of its first occurrence. |
| SentinelX.DedupLength | services/SentinelX.ts:27-28 | The deduplicated list is as long as the input if and only if the ids were already distinct. This is the condition for the rewrite. |
| SentinelX.DedupDistinct | services/SentinelX.ts:27 | A list whose ids are distinct comes back unchanged. |
| SentinelX.DedupIdempotent | services/SentinelX.ts:27 | Deduplicating twice gives the same list as deduplicating once. |
| SentinelX.DedupById | services/SentinelX.ts:27 | The insertion loop over the records returns the deduplicated list. |
| SentinelX.BuildMap | services/SentinelX.ts:27 | Inserting the records one by one builds exactly the `Map` described by `FromItems`. |
| SentinelX.ReadValues | services/SentinelX.ts:27 | Reading the values out gives them in insertion order. |
| SentinelX.ScrubWrites | services/SentinelX.ts:7-34 | The final value of every entry: `[]` for a corrupt checked key; for the transactions key, the deduplicated list when deduplication shortens it; the old value otherwise. The count is the number of corrupt keys plus one for deduplication. A transactions entry that was reset never also needs deduplication. |
| SentinelX.ScrubCountBound | services/SentinelX.ts:8-34 | The count is at most 4. It is 0 exactly when the store is left unchanged. |
| SentinelX.ScrubCountIsRewrites | services/SentinelX.ts:18-30 | The count equals the number of checked entries whose stored text changed. |
| SentinelX.ScrubLeavesClean | services/SentinelX.ts:10-32 | After a scrub, no checked key is corrupt and the stored transaction ids are distinct. |
| SentinelX.CleanStoreUntouched | services/SentinelX.ts:12-15 | A store with no corrupt checked key and distinct transaction ids is left untouched, with count 0. |
| SentinelX.ScrubIdempotent | services/SentinelX.ts:4-35 | A second scrub repairs nothing and changes nothing. |
| SentinelX.CheckIntegrity | services/SentinelX.ts:5-35 | Storage afterwards is the scrubbed store, and the returned count is the scrub's count. |
| SentinelX.HealMessage | services/SentinelX.ts:40 | The log message contains the count written in decimal. |
| SentinelX.HealCalls | services/SentinelX.ts:39-41 | Exactly one "Système" entry of medium severity, naming the count, when the count is positive. No entry otherwise. |
| SentinelX.Heal | services/SentinelX.ts:37-42 | Storage afterwards is the scrubbed store, and the log calls are those of the scrub's count. |
| SentinelX.HealTwiceLogsOnce | services/SentinelX.ts:37-42 | A second heal right after the first logs nothing. |
| Ledger.Ledger.constructor | App.tsx:22-32 | The app starts signed out, with empty lists and no receipt open. |
| Ledger.Ledger.AddAudit | App.tsx:34-41 | The new audit entry goes first. Nothing else changes. |
| Ledger.NewTransaction | App.tsx:70-77 | The new transaction keeps the draft's fields and gets the given id and date. An empty category becomes 'Vente Directe' and an empty payment method becomes 'Cash', so neither is ever empty. |
| Ledger.FinanceDetails | App.tsx:79 | The audit text starts with "Encaissement" for a sale and "Décaissement" otherwise, and it contains the amount. |
| Ledger.Ledger.AddTransaction | App.tsx:70-84 | The transaction goes first in the list and its "Finance" audit entry (low severity, stamped by its own clock reading) goes first in the log. For a sale, the receipt opens on the new transaction. Nothing else changes. |
| Ledger.NewProfile | App.tsx:86-99 | A signed-in user gets the default profile: id, name and role from the sign-in, type general, full mode, header note equal to the business name, the thanks line as footer. |
| Ledger.Ledger.HandleAuthSuccess | App.tsx:86-102 | The profile is replaced by the default profile and the session is authenticated. Nothing else changes. |
| Ledger.NewDebt | App.tsx:174 | A new debt is pending, and all of it is still owed. |
| Ledger.Repaid | App.tsx:174 | The remaining amount is clamped at 0. The debt is paid exactly when the old balance minus the repayment is at most 0, which is exactly when nothing remains. No other field changes. |
| Ledger.PayDebts | App.tsx:174 | Every debt with the id is repaid. The others are unchanged, and so are the order and the ids. |
| Ledger.SettledClearedKept | App.tsx:174 | "A paid debt owes nothing" holds after adding a debt and after any repayment. |
| Ledger.ZeroDebtPending | App.tsx:174 | A debt of 0 is created pending, not paid. |
| Ledger.NegativeRepaymentRaises | App.tsx:174 | A negative repayment increases what is owed and leaves the debt pending. |
| Ledger.RepaidWithinAmount | App.tsx:174 | A non-negative repayment keeps the remainder between 0 and the amount lent, and leaves the amount alone. |
| Ledger.DebtsStayWithinAmount | App.tsx:174 | With non-negative amounts, "0 ≤ remaining ≤ amount" holds for every debt after adding a debt and after any repayment. |
| Ledger.NegativeDebtBelowZero | App.tsx:174 | A debt created with a negative amount starts with a negative remainder, outside those bounds. |
| Ledger.Ledger.AddDebt | App.tsx:174 | The new debt goes at the end of the list. Nothing else changes. |
| Ledger.Ledger.PayDebt | App.tsx:174 | The debt list becomes `PayDebts` of the old list. Nothing else changes. |
| Ledger.NewSupplier | App.tsx:177 | A new supplier has no business and a balance of 0. |
| Ledger.AdjustBalances | App.tsx:177 | Every supplier with the id has the amount added to its balance. The others are unchanged. |
| Ledger.Ledger.AddSupplier | App.tsx:177 | The new supplier goes at the end of the list. Nothing else changes. |
| Ledger.Ledger.UpdateBalance | App.tsx:177 | The supplier list becomes `AdjustBalances` of the old list. Nothing else changes. |
| Ledger.Ledger.AppendDebt | App.tsx:194 | The assistant's debt is appended as given. Nothing else changes. |
| Ledger.Ledger.AppendSupplier | App.tsx:194 | The assistant's supplier is appended as given. Nothing else changes. |
| Ledger.Ledger.AddProduct | App.tsx:170 | The product goes at the end of the list. Nothing else changes. |
| Ledger.SetStock | App.tsx:194 | Every product with the id gets the new stock. The others are unchanged. |
| Ledger.SetStockIdempotent | App.tsx:194 | Setting the same stock twice is the same as setting it once. |
| Ledger.Ledger.UpdateStock | App.tsx:194 | The product list becomes `SetStock` of the old list. Nothing else changes. |
| Ledger.EditProfile | App.tsx:182-184 | A profile edit applies only when someone is signed in. With no profile, there is still no profile. |
| Ledger.ToggleSimplified | App.tsx:167 | The simplified-mode flag flips and nothing else in the profile changes. |
| Ledger.ToggleTwice | App.tsx:167 | Toggling twice restores the profile. |
| Ledger.Ledger.ToggleSimplifiedMode | App.tsx:167 | The profile becomes its toggled copy, if there is one. Nothing else changes. |
| Ledger.Ledger.UpdateBusiness | App.tsx:182 | Only the business type of the profile changes. |
| Ledger.Ledger.UpdateName | App.tsx:183 | Only the business name of the profile changes. |
| Ledger.Ledger.UpdateReceiptConfig | App.tsx:184 | Only the receipt settings of the profile change. |
| Ledger.Ledger.ShowReceipt | App.tsx:172 | The receipt opens on the chosen transaction. Nothing else changes. |
| Ledger.Ledger.CloseReceipt | App.tsx:191 | The receipt closes. Nothing else changes. |
| Ledger.Ledger.Logout | App.tsx:137 | The session ends and the profile is dropped from memory. Nothing else changes. |
| Ledger.TransactionsJson | App.tsx:63 | One JSON record per transaction, in order. |
| Ledger.PersistedValues | App.tsx:62-68 | The four lists are written under their keys. The profile is written only while someone is signed in; otherwise the stored profile stays. Every other key is unchanged. |
| Ledger.Ledger.Persist | App.tsx:62-68 | Storage afterwards is the persisted image of the books. |
| Ledger.TransactionsJsonDistinct | App.tsx:63 | Transactions with distinct ids are stored as records with distinct `id` fields. |
| Ledger.PersistedNeedsNoRepair | App.tsx:62-68 | Books written by the persist effect, with distinct transaction ids and a readable profile, give the scrubber nothing to repair. |
| Ledger.LogoutKeepsStoredProfile | App.tsx:137 | Signing out leaves the stored profile entry as it was. |
| Dashboard.SumFilter | components/Dashboard.tsx:45-47 | `filter` then `reduce` with `+` is the sum over the selected elements. |
| Dashboard.ComputeStats | components/Dashboard.tsx:44-50 | The balance is sales minus expenses. Sales, expenses and customer debt are sums over sales, over expenses, and over unpaid debts' remaining amounts. The supplier debt is the sum of every supplier's balance. |
| Dashboard.OtherKindsIgnored | components/Dashboard.tsx:45-49 | Purchases, repayments and the other kinds count neither as sales nor as expenses. |
| Dashboard.StatsSplit | components/Dashboard.tsx:45-46 | Sales and expenses add up over concatenated lists. |
| Dashboard.AddTransactionMovesBalance | components/Dashboard.tsx:44-50 | Adding a transaction raises sales, or expenses, by its amount, and moves the balance by it. Other kinds leave all three alone. |
| Dashboard.RepaymentLowersDebt | components/Dashboard.tsx:47 | A non-negative repayment never raises the total customer debt. |
| Dashboard.BalanceUpdateMovesSupplierDebt | components/Dashboard.tsx:48 | A balance update raises the supplier total by the amount times the number of suppliers with that id. |
| Dashboard.SupplierStatsAfterUpdate | components/Dashboard.tsx:44-50 | After a balance update the dashboard differs only in its supplier debt, which moves by the amount per matching supplier. |
| Dashboard.QuickKind | components/Dashboard.tsx:202 | The quick entry is an expense exactly when the text contains "Achat", or, on the full screen, "Dépense". |
| Dashboard.QuickEntry | components/Dashboard.tsx:102-104 | No transaction without an amount. Otherwise the draft has the classified kind, `Number` of the amount, and the text as its description. |
| Dashboard.SimplifiedButtons | components/Dashboard.tsx:66-75 | The simplified screen's two buttons give a sale and an expense. |
| Dashboard.ScreensDisagree | components/Dashboard.tsx:104 | "Dépense" is a sale on the simplified screen and an expense on the full one. |
| Dashboard.FullScreenAgreesOnExpenses | components/Dashboard.tsx:202 | What the simplified screen calls an expense, the full screen does too. |
| Dashboard.Scan | components/Dashboard.tsx:30-37 | A code matching no sku or id leaves the form alone. Otherwise the first matching product fills in its price and name and opens the form. |
| Dashboard.ScanThenConfirm | components/Dashboard.tsx:31-37 | Confirming a scanned product records a transaction of its price, described by its name. |
| TxHistory.Filtered | components/Transactions.tsx:16-24 | The shown list is the ordered sublist of transactions matching the type and lying within both optional inclusive date bounds. "All" with no bounds shows everything. |
| TxHistory.PurchasesOnlyUnderAll | components/Transactions.tsx:18 | The two typed tabs show only sales and expenses. |
| TxHistory.TypeLabel | components/Transactions.tsx:30 | "Vente" exactly for a sale; "Depense" for every other kind. |
| TxHistory.Row | components/Transactions.tsx:28-35 | Every row has six cells. |
| TxHistory.RowLines | components/Transactions.tsx:36 | One CSV line per shown transaction, in order. |
| TxHistory.RowLineNoNewline | components/Transactions.tsx:28-36 | A row line has no line break when its text cells have none. |
| TxHistory.CsvLines | components/Transactions.tsx:36 | Splitting the CSV on line breaks gives the header line followed by the rows: one more line than there are transactions. |
| TxHistory.HeaderColumns | components/Transactions.tsx:27 | The header line has six columns. |
| TxHistory.RowColumns | components/Transactions.tsx:28-36 | A row splits on commas into six pieces plus one per comma in its date, description, category and payment method. Unquoted commas shift the columns. |
| Debts.Search | components/DebtsModule.tsx:33-36 | The listed debts are the ordered sublist whose lower-cased name contains the lower-cased term, or whose non-empty phone contains the term. An empty term lists all. |
| Debts.NewDebtFoundByName | components/DebtsModule.tsx:33-34 | A debt just added is found by its customer's name. |
| Debts.ReminderNumber | components/DebtsModule.tsx:28 | The reminder number is exactly the phone's digits, in order: each digit appears as often as in the phone, and nothing else appears. A phone that is all digits is kept as is. |
| Debts.ReminderNumberStable | components/DebtsModule.tsx:28 | Cleaning an already cleaned number changes nothing. |
| Debts.SubmitDebt | components/DebtsModule.tsx:130-134 | Refused, with the form kept, when the name, amount or phone is empty. Otherwise the draft carries the fields with `Number` of the amount, and the form is cleared. |
| Debts.SubmitTwiceRefused | components/DebtsModule.tsx:131-134 | Submitting the cleared form again is refused. |
| Debts.SubmitPayment | components/DebtsModule.tsx:154-156 | No payment without an amount. Otherwise the chosen debt's id with `Number` of the amount. |
| Debts.PayInFullSettles | components/DebtsModule.tsx:154-156 | Typing the remaining balance settles the debt: it becomes paid with nothing left. |
| Suppliers.Search | components/SuppliersModule.tsx:17-20 | The listed suppliers are the ordered sublist whose lower-cased name or category contains the lower-cased term. An empty term lists all. |
| Suppliers.SearchListsOnce | components/SuppliersModule.tsx:17-20 | A matching supplier is listed as often as it occurs, and a non-matching one never. |
| Suppliers.ContactNumber | components/SuppliersModule.tsx:22-25 | The WhatsApp number is exactly the contact's digits, in order: each digit appears as often as in the contact, and nothing else appears. |
| Suppliers.SubmitSupplier | components/SuppliersModule.tsx:109 | The form is handed over as typed, with no check, and reset to blank. |
| Suppliers.BlankSupplierAccepted | components/SuppliersModule.tsx:109 | Even an all-blank supplier is handed over. |
| Inventory.Search | components/Inventory.tsx:125 | The listed products are the ordered sublist whose lower-cased name contains the lower-cased term. |
| Inventory.ProductId | components/Inventory.tsx:76 | A new id is "AES-" followed by the random token. |
| Inventory.BuildProduct | components/Inventory.tsx:86-96 | The added product uses one id as both id and sku, holds the QR image and photo, reads the numbers with `Number`, and keeps the texts. |
| Inventory.MergeLens | components/Inventory.tsx:61-67 | Name, category and price are replaced only by non-empty results. Every other field is unchanged. |
| Inventory.DefaultsReachProduct | components/Inventory.tsx:23-25 | The form defaults give minimum 5, 'Général' and 'pcs'. A blank stock is 0, so the product is flagged low at once (`stock <= minStock`, line 133). |
| Inventory.SuggestedPriceSaved | components/Inventory.tsx:66 | A suggested price is exactly the price the product is saved with. |
| Inventory.NewProductScannable | components/Inventory.tsx:76-89 | A new product is found by the home screen's scanner through its id, unless an earlier product has that code. |
| Inventory.ProductEditor.constructor | components/Inventory.tsx:23-25 | The dialog starts on the default form, closed, with no photo. |
| Inventory.ProductEditor.ApplyLens | components/Inventory.tsx:57-70 | Without a photo, or with no result, nothing changes. Otherwise the result is merged into the form. |
| Inventory.ProductEditor.GenerateAndAdd | components/Inventory.tsx:72-104 | Nothing is added and nothing changes when the name or price is empty or the QR code fails. Otherwise the built product is added, and the form, photo and dialog are reset. |
| Receipt.TextOr | components/Receipt.tsx:14-17 | The `or` default on an optional text: an absent or empty text falls back to the default. |
| Receipt.PlainSaleDefaults | components/Receipt.tsx:14-19 | Without a customer or discount, the sheet shows "Client Passager" and the full amount. |
| Receipt.FooterNote | components/Receipt.tsx:17 | The footer is never empty. |
| Receipt.FreshProfileNotes | components/Receipt.tsx:16-17 | A fresh profile's receipts show the business name and the thanks line. |
| Receipt.FinalTotal | components/Receipt.tsx:19 | Total plus discount is the amount. The total is negative exactly when the discount exceeds the amount; there is no floor. |
| Receipt.TicketNumber | components/Receipt.tsx:69 | "#AES-" followed by the id's first eight characters, or all of a shorter id. |
| Receipt.TicketNumberPrefix | components/Receipt.tsx:69 | Ids that agree on their first eight characters share a ticket number. |
| Receipt.ShareLines | components/Receipt.tsx:22 | Five lines, ending with the footer. |
| Receipt.ShareTextLines | components/Receipt.tsx:22 | The shared text splits back into header, date, client, total and footer lines, in that order, when no value breaks a line and the footer ends visibly. |
| AdminConsole.InitialNotes | components/AdminConsole.tsx:18-20 | The fields start from the business name and the same header and footer fallbacks the receipt uses. |
| AdminConsole.SaveTexts | components/AdminConsole.tsx:44-49 | The settings sent back have only the two notes replaced. |
| AdminConsole.WithLogo | components/AdminConsole.tsx:38 | The settings sent back have only the logo replaced. |
| AdminConsole.SavedNotesShown | components/AdminConsole.tsx:44-49 | Saved notes are what the screen opens with next time. An emptied note falls back again. |
| AdminConsole.SaveUneditedKeepsReceipt | components/AdminConsole.tsx:44-49 | Saving the notes unedited changes nothing the receipt shows. |
| AdminConsole.LogoKeepsNotes | components/AdminConsole.tsx:38 | A logo upload leaves the notes alone. |
| AdminConsole.ChoicesComplete | components/AdminConsole.tsx:23-30 | Every business type is offered, each once. |
| Gesture.NodesOfPattern | components/GestureLock.tsx:31 | A non-empty trace is read back exactly from its '-'-joined pattern. |
| Gesture.GridFacts | components/GestureLock.tsx:47 | The grid is the nine dots 0 to 8. |
| Gesture.GestureLock.constructor | components/GestureLock.tsx:11-12 | The lock starts with no trace, not drawing. |
| Gesture.GestureLock.Start | components/GestureLock.tsx:15-19 | A trace of just the pressed dot, with drawing on. |
| Gesture.GestureLock.Move | components/GestureLock.tsx:21-27 | Ignored when not drawing. Otherwise a dot not yet in the trace is appended, so the trace stays free of repeats. |
| Gesture.GestureLock.End | components/GestureLock.tsx:29-37 | Three dots or more are reported as the joined pattern and kept. A shorter trace is cleared and nothing is reported. Drawing always stops. |
| Gesture.TraceBounded | components/GestureLock.tsx:23-24 | A trace never holds more than nine dots. |
| Gesture.FullTraceCoversGrid | components/GestureLock.tsx:23-24 | Once nine dots are traced, every dot is in the trace, so no move adds one. |
| Gesture.PatternSize | components/GestureLock.tsx:30-31 | A reported pattern names between three and nine dots. |
| Auth.NextPin | components/Auth.tsx:179-181 | A digit is appended only while the PIN is shorter than four. |
| Auth.TypeDigitsKeepsFirstFour | components/Auth.tsx:176-181 | Whatever digits are pressed, the PIN is their first four. |
| Auth.PinReachable | components/Auth.tsx:86 | The accepted PIN can be typed from an empty pad. |
| Auth.BiometricError | components/Auth.tsx:74-77 | The PIN hint appears exactly for NotAllowedError and SecurityError. Every other failure reads "Accès biométrique non disponible.". |
| Auth.Succeeded | components/Auth.tsx:39-47 | Success shows the loading screen, clears the error and reports the fixed owner user. |
| Auth.AfterPin | components/Auth.tsx:85-92 | "0000" signs in. Any other PIN reads "Code PIN incorrect" and clears the pad. |
| Auth.AfterKey | components/Auth.tsx:176-182 | 'C' clears the PIN, 'OK' submits it, and a digit goes through `NextPin`. |
| Auth.AfterPassword | components/Auth.tsx:94-101 | "admin" signs in. Anything else reads "Mot de passe incorrect" and keeps the password. |
| Auth.AfterBiometric | components/Auth.tsx:49-83 | An assertion signs in. A failure shows its message, stops loading and falls back to the PIN pad. An empty answer leaves the loading screen up. |
| Auth.StepsKeepSane | components/Auth.tsx:176-181 | Every step keeps the PIN at four digits or fewer and reports only the owner. |
| Auth.RefusedPinStaysRefused | components/Auth.tsx:85-91 | After a refused PIN, pressing OK again is refused too. |
| Auth.AuthScreen.constructor | components/Auth.tsx:16-20 | The screen starts on the method choice, with nothing typed and no error. |
| Auth.AuthScreen.Navigate | components/Auth.tsx:163 | The mode buttons and back arrows change only the mode. |
| Auth.AuthScreen.TriggerBiometric | components/Auth.tsx:49-83 | The screen becomes `AfterBiometric` of the old screen. |
| Auth.AuthScreen.Press | components/Auth.tsx:176-182 | The screen becomes `AfterKey` of the old screen. |
| Auth.AuthScreen.TypePassword | components/Auth.tsx:216 | Only the password changes. |
| Auth.AuthScreen.SubmitPassword | components/Auth.tsx:94-101 | The screen becomes `AfterPassword` of the old screen. |
| Auth.AuthScreen.CompleteGesture | components/Auth.tsx:200 | Any completed pattern signs in. |
| LiveConsole.OnInput | components/FloatingConsole.tsx:125-129 | While the last exchange is unanswered, only its user line changes, to the trimmed join with the new words, and the length is kept. Otherwise exactly one new exchange is appended, with no answer. Earlier exchanges never change. |
| LiveConsole.Answer | components/FloatingConsole.tsx:135 | The placeholder is dropped rather than joined. Any other answer is extended and trimmed. |
| LiveConsole.OnOutput | components/FloatingConsole.tsx:132-139 | On a non-empty list, only the last answer changes; its user line and the length are kept. On an empty list, one exchange is appended with no user line. Earlier exchanges never change. |
| LiveConsole.Sent | components/FloatingConsole.tsx:70-72 | A typed message adds one exchange, holding the trimmed text and the placeholder. |
| LiveConsole.PlaceholderMarked | components/FloatingConsole.tsx:72 | The placeholder carries the marker the output rule looks for. |
| LiveConsole.AnswerReplacesPlaceholder | components/FloatingConsole.tsx:132-136 | The first answer to a typed message replaces the placeholder. |
| LiveConsole.InputFragmentsMerge | components/FloatingConsole.tsx:125-129 | Two input fragments after an answered exchange form one new exchange. |
| LiveConsole.StepKeepsSettled | components/FloatingConsole.tsx:124-140 | One event keeps every earlier exchange and adds at most one. |
| LiveConsole.HistoryIsStable | components/FloatingConsole.tsx:124-140 | Over any run of events, earlier exchanges are never rewritten, and the list grows by at most one per event. |
| LiveConsole.FloatingConsole.constructor | components/FloatingConsole.tsx:27-30 | The console starts closed and idle, with nothing typed or shown. |
| LiveConsole.FloatingConsole.StopLive | components/FloatingConsole.tsx:57-66 | The session is dropped and the transcript kept. |
| LiveConsole.FloatingConsole.StartLive | components/FloatingConsole.tsx:91-95 | A running session is stopped. Otherwise the console goes live and closes its menu, and the transcript holds only the greeting. |
| LiveConsole.FloatingConsole.TypeText | components/FloatingConsole.tsx:264 | Only the typed text changes. |
| LiveConsole.FloatingConsole.SendHybridText | components/FloatingConsole.tsx:68-74 | Blank text, or no session, changes nothing. Otherwise the trimmed text is sent and shown awaiting an answer, and the field is cleared. |
| LiveConsole.FloatingConsole.OnInputTranscription | components/FloatingConsole.tsx:124-130 | The transcript becomes `OnInput` of the old one. |
| LiveConsole.FloatingConsole.OnOutputTranscription | components/FloatingConsole.tsx:131-140 | The transcript becomes `OnOutput` of the old one. |

## Left out

- **JSON.** The JSON grammar is abstract: a codec with a round-trip law.
  Ids are compared as JSON values, with no special case for object ids.
  An absent optional field is left out of its JSON object. The source
  writes some of them as `null` instead: a product added without a photo
  is stored with `"image":null`.
- **SentinelX's array assumption.** A transactions value that parses but
  is not an array makes `txs.map` throw in the source. The model's
  `TxShapeOk` precondition excludes that case instead of modelling the
  exception.
- **The order of App's effects.** App parses the stored lists itself, with
  an unguarded `JSON.parse`, before the scrub runs (App.tsx:43-60). The
  model makes no claim that the scrub protects that load, and it does not
  model React's effect ordering.
- **`Number` and NaN.** `Number` is modelled for optionally signed
  decimal integers. Any other text is taken as 0. That covers exponent
  notation and fractions, which number fields accept and JavaScript reads
  as numbers (`Number("1e3")` is 1000), and text that JavaScript reads
  as NaN.
- **Negative debts.** Nothing refuses a negative amount typed into the
  debt form, so such a debt starts with a negative remainder
  (`Ledger.NegativeDebtBelowZero`). The "0 ≤ remaining ≤ amount" bound is
  proved only for non-negative amounts and repayments.
- **Locale formatting.** `toLocaleString` is written as a plain integer.
  `toLocaleDateString` and ISO date strings become a `dateText` parameter
  and integer timestamps.
- **Case folding.** `toLowerCase` folds only ASCII letters.
- **Browser hand-offs.** Timers are not modelled: `handleSuccess` reports
  at once instead of after 800 ms. Vibration, `alert`, `window.open`,
  the clipboard, `navigator.share` and printing are left out, and so is
  the text of the WhatsApp reminder and promotion messages.
- **The network and the AI.** The Gemini clients, the live session's
  audio, its tool calls and the base64 helpers are not modelled. The
  session appears only as a flag. An answer of `undefined` for a
  transcription's text is not modelled either.
- **Device and library calls.** Not modelled: the camera, QR image
  generation (its result or failure is a parameter), the scanner widget
  (the decoded text is a parameter), WebAuthn (its answer is a parameter,
  and availability, which only greys the button, is ignored) and
  `FileReader` (the logo arrives as text).
- **Fields with no behaviour.** The `emotion` field of transcript entries
  is not modelled, nor are the sidebar, tabs and modal-visibility flags
  other than the add-product dialog's.
- **Auth emergency mode.** `Auth.Mode.Emergency` is declared in the
  source but no handler enters it.
