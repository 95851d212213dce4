# RERO ILS: acquisition orders, patron transactions, contribution labels, item dumpers

A Dafny model of four small pieces of the RERO ILS library system.

- **Acquisition orders** (`acq_orders.dfy`, module `AcqOrders`). An order's status is never stored. It is derived from the distinct statuses of its order lines. `StatusOf` follows the code: CANCELLED is dropped only when more than one distinct status is present. Two or more remaining statuses are then decided by precedence: a (partially) received line gives PARTIALLY_RECEIVED, else an ordered line gives ORDERED, else PENDING. A single status maps one to one. The property's docstring and the code disagree on {RECEIVED, CANCELLED}. The docstring's PARTIALLY_RECEIVED rule (several statuses, at least one of them RECEIVED) gives PARTIALLY_RECEIVED. The code first drops CANCELLED, leaving the single status RECEIVED, so it gives RECEIVED. The docstring also does not cover {APPROVED, CANCELLED}, which the code maps to PENDING. The model follows the code (`ReceivedIff`, `PendingIff`). The module also models note validation and lookup, `order_date`, the quantity and amount sums over non-cancelled lines, the link counter, and the deletion guard. Order lines do not block deletion because they are deleted with the order; receipts and any status other than PENDING do. It also models `send_order`, which dates every APPROVED line of the order when the dispatcher reports a sent message, and the indexer's cascading delete. The search index is modelled as an in-memory store (`AcqStore`) of orders, lines, receipts and notifications, and each query is a filter or fold over it.
- **Patron transactions** (`patron_transactions.dfy`, module `PatronTransactions`). Only an `overdue` notification yields a transaction, of type `overdue` and status `open`. The transaction carries references of the form `{base_url}/api/{resource}s/{pid}` to the notification, the patron and the organisation. Every creation appends exactly one ledger event to an append-only sequence. Any event blocks deletion. The accessors `notification_pid`, `loan_pid` and `document_pid` resolve the notification reference.
- **Contribution labels** (`contributions.dfy`, module `Contributions`). The lookup returns the first non-empty value of a key among the authority sources configured for a language. A language missing from the configuration uses the fallback language's list. When no source has a value, the lookup returns the contribution's own value.
- **Item dumpers** (`item_dumpers.dfy`, module `ItemDumpers`). There are two dumpers: one for notifications and one for circulation. Both drop falsy entries. In the circulation dump, an item with neither call number inherits its holding's call numbers.
- `records.dfy` (module `Records`) holds the shared JSON-like `Value`, Python truthiness, `dict.get`, and the falsy-entry filter.

Records are `map<string, Value>`, and `Null` stands for Python's `None`. Money is in integer cents.

## Model

| member | source | states |
|---|---|---|
| `AcqOrders.StatusOf` | rero_ils/modules/acq_orders/api.py:154-184 | no line gives PENDING; only cancelled lines give CANCELLED |
| `AcqOrders.StatusMatchesTable` | rero_ils/modules/acq_orders/api.py:154-184 | for every set of line statuses, the derived status equals an independent decision table over which statuses are present |
| `AcqOrders.OrderStatusOf` | rero_ils/modules/acq_orders/api.py:154-158 | the status of an order in the store: PENDING when it has no line; CANCELLED if and only if it has lines and all of them are cancelled |
| `AcqOrders.SingleStatusTable` | rero_ils/modules/acq_orders/api.py:172-182 | a single distinct status maps APPROVED→PENDING, ORDERED→ORDERED, RECEIVED→RECEIVED, PARTIALLY_RECEIVED→PARTIALLY_RECEIVED, CANCELLED→CANCELLED |
| `AcqOrders.CancelledIffAllCancelled` | rero_ils/modules/acq_orders/api.py:162-182 | the order is CANCELLED if and only if every line is cancelled |
| `AcqOrders.ReceivedIff` | rero_ils/modules/acq_orders/api.py:162-182 | RECEIVED if and only if the non-cancelled statuses are exactly {RECEIVED} |
| `AcqOrders.OrderedIff` | rero_ils/modules/acq_orders/api.py:162-182 | ORDERED if and only if a line is ordered and none is received or partially received |
| `AcqOrders.PartiallyReceivedIff` | rero_ils/modules/acq_orders/api.py:162-182 | PARTIALLY_RECEIVED if and only if a line is partially received, or a received line sits beside an approved or ordered one |
| `AcqOrders.PendingIff` | rero_ils/modules/acq_orders/api.py:154-182 | PENDING if and only if there is no line or the non-cancelled statuses are exactly {APPROVED}, so {APPROVED, CANCELLED} gives PENDING |
| `AcqOrders.CancelledIgnoredBesideOthers` | rero_ils/modules/acq_orders/api.py:160-182 | adding CANCELLED to a set that has a non-cancelled status does not change the result, so {X, CANCELLED} gives the same as {X} |
| `AcqOrders.ElementsCount` | rero_ils/modules/acq_orders/api.py:98-99 | a list has as many distinct elements as entries if and only if no entry repeats |
| `AcqOrders.ExtendedValidation` | rero_ils/modules/acq_orders/api.py:91-102 | the notes are rejected, with the duplicate-type message, if and only if two of them share a type |
| `AcqOrders.GetNote` | rero_ils/modules/acq_orders/api.py:216-227 | None if and only if no note has the type; otherwise the content of the first note of that type |
| `AcqOrders.GetNoteOfValidNotes` | rero_ils/modules/acq_orders/api.py:216-227 | on notes that pass validation, the lookup returns `c` if and only if the note (type, `c`) is present |
| `AcqOrders.LinesOf` | rero_ils/modules/acq_orders/api.py:275-291 | the order's lines are exactly the stored lines that reference it, each as often as stored, so their number is the count `get_order_lines` reports |
| `AcqOrders.ReceiptsOf` | rero_ils/modules/acq_orders/api.py:229-241 | the order's receipts are exactly the stored receipts that reference it, each as often as stored, so their number is the count `get_receipts` reports |
| `AcqOrders.OrderDate` | rero_ils/modules/acq_orders/api.py:186-194 | None if and only if no line of the order has an order date; otherwise the date of one of its lines |
| `AcqOrders.SumNonCancelled` | rero_ils/modules/acq_orders/api.py:196-214 | `item_quantity`, `item_received_quantity` and the provisional total (api.py:293-305) are not negative when the non-cancelled lines' values are not, and are 0 when every line of the order is cancelled |
| `AcqOrders.SumNonCancelledAppend` | rero_ils/modules/acq_orders/api.py:196-214 | the quantity (and received quantity, and provisional amount) sum over two parts of the store is the sum of the parts |
| `AcqOrders.SumNonCancelledOfOwnLines` | rero_ils/modules/acq_orders/api.py:196-214 | the sums depend only on the order's own lines |
| `AcqOrders.ReceiptsTotal` | rero_ils/modules/acq_orders/api.py:307-317 | the expenditure total is not negative when the order's receipt amounts are not, and is 0 for an order without receipts |
| `AcqOrders.ReceiptsTotalAppend` | rero_ils/modules/acq_orders/api.py:307-317 | a new receipt adds its amount to its own order's expenditure total and nothing to any other order's |
| `AcqOrders.LinkCounts` | rero_ils/modules/acq_orders/api.py:337-352 | `order_lines` and `receipts` are present if and only if their counts are positive, hold those counts, and no entry is zero |
| `AcqOrders.LinkPids` | rero_ils/modules/acq_orders/api.py:337-352 | with pids requested, each entry is present if and only if the order has such records, holds their pids, and is never empty |
| `AcqOrders.AcqStore.ReasonsNotToDelete` | rero_ils/modules/acq_orders/api.py:354-369 | never reports order lines; has `others` (the status) if and only if the status is not PENDING; has `links` (the receipt count) if and only if there is a receipt; is empty if and only if the status is PENDING and there are no receipts |
| `AcqOrders.AcqStore.SendOrder` | rero_ils/modules/acq_orders/api.py:371-407 | always appends exactly one acquisition-order notification for the order with the given recipients; with `sent == 0` no line changes; otherwise the lines become `StampOrderDate` of the old lines; orders and receipts are unchanged |
| `AcqOrders.StampOrderDate` | rero_ils/modules/acq_orders/api.py:397-403 | the stamped store has the same length, and each line is stamped on its own |
| `AcqOrders.StampOrderDateEffect` | rero_ils/modules/acq_orders/api.py:397-403 | every APPROVED line of the order gets `order_date = today`; lines that are not APPROVED and lines of other orders are unchanged; no field but `order_date` changes |
| `AcqOrders.StampKeepsStatuses` | rero_ils/modules/acq_orders/api.py:397-403 | stamping writes only `order_date`, so within this model it changes no line status and no order's status; this holds only because the later move of a dated line to ORDERED is not modelled |
| `AcqOrders.StampKeepsSums` | rero_ils/modules/acq_orders/api.py:397-403 | stamping changes no quantity or amount sum of any order |
| `AcqOrders.StampIdempotent` | rero_ils/modules/acq_orders/api.py:397-403 | sending twice on the same day stamps the lines as sending once |
| `AcqOrders.AcqStore.DeleteOrder` | rero_ils/modules/acq_orders/api.py:422-432 | the lines of the order are removed (others kept in order), then the order; receipts and notifications are unchanged |
| `AcqOrders.LinesNotOf` | rero_ils/modules/acq_orders/api.py:427-430 | the lines kept by the cascade are exactly those of other orders, each as often as stored |
| `AcqOrders.LinesNotOfNone` | rero_ils/modules/acq_orders/api.py:429-430 | when the order has no line, the cascade changes nothing |
| `AcqOrders.CascadeEffect` | rero_ils/modules/acq_orders/api.py:422-432 | after the cascade the order has no line and derives PENDING, and every other order keeps exactly its lines |
| `PatronTransactions.LastSegment` | rero_ils/modules/patron_transactions/api.py:103-108 | the pid read from a reference is a slash-free suffix of its URL |
| `PatronTransactions.LastSegmentOfApiUrl` | rero_ils/modules/patron_transactions/api.py:103-108 | the pid read back from `prefix/pid` is `pid` when `pid` has no slash |
| `PatronTransactions.PidOfApiUrl` | rero_ils/modules/patron_transactions/api.py:215-227 | the pid read back from `{base_url}/api/{resource}s/{pid}` is `pid` |
| `PatronTransactions.RefFields` | rero_ils/modules/patron_transactions/api.py:200-228 | writes exactly the schema, the three references built from the notification's own pid, patron pid and organisation pid, and the fee |
| `PatronTransactions.BuildPatronTransactionRef` | rero_ils/modules/patron_transactions/api.py:200-228 | the loop over the three resources leaves `data` overlaid with exactly `RefFields` |
| `PatronTransactions.OverdueTransaction` | rero_ils/modules/patron_transactions/api.py:146-151 | the created record has type `overdue`, status `open`, the given creation date and pid, and every reference field |
| `PatronTransactions.NotificationPid` | rero_ils/modules/patron_transactions/api.py:103-108 | None when the transaction has no notification |
| `PatronTransactions.LinkedNotification` | rero_ils/modules/patron_transactions/api.py:110-117 | a notification is found only through a non-empty notification pid, and it is the record stored under that pid |
| `PatronTransactions.LoanPid` | rero_ils/modules/patron_transactions/api.py:75-82 | None when the transaction has no notification |
| `PatronTransactions.DocumentPid` | rero_ils/modules/patron_transactions/api.py:84-91 | None when the transaction has no notification |
| `PatronTransactions.NotificationPidOfOverdue` | rero_ils/modules/patron_transactions/api.py:103-108 | a created transaction's notification pid is read from its notification reference |
| `PatronTransactions.CreatedTransactionResolvesNotification` | rero_ils/modules/patron_transactions/api.py:75-108 | a transaction created from notification `n` has notification pid `n.pid`, and its loan and document are `n`'s |
| `PatronTransactions.EventCount` | rero_ils/modules/patron_transactions/api.py:177-181 | the count is positive if and only if some event has the transaction as parent |
| `PatronTransactions.EventCountAppend` | rero_ils/modules/patron_transactions/api.py:177-181 | a new event adds one to its parent's count and nothing to any other transaction's |
| `PatronTransactions.LinksToMe` | rero_ils/modules/patron_transactions/api.py:183-189 | has an `events` key if and only if the event count is positive, and its value is that count |
| `PatronTransactions.ReasonsNotToDelete` | rero_ils/modules/patron_transactions/api.py:191-197 | empty if and only if no event has the transaction as parent; otherwise exactly `links` with the event count |
| `PatronTransactions.TransactionStore.Create` | rero_ils/modules/patron_transactions/api.py:64-73 | appends the record with its pid, then exactly one event whose parent is the new transaction, so the new transaction is never deletable |
| `PatronTransactions.TransactionStore.CreateFromNotification` | rero_ils/modules/patron_transactions/api.py:141-158 | a non-overdue notification yields the empty record and creates nothing; an overdue one creates `OverdueTransaction` and exactly one event |
| `Contributions.SourceOrder` | rero_ils/modules/contributions/utils.py:33-35 | the language's own source list; for a language missing from the configuration, the fallback language's list, or none |
| `Contributions.ObjectsAreReached` | rero_ils/modules/contributions/utils.py:36-37 | when every held source is an object, the loop never reaches a source it would fail on |
| `Contributions.FirstValue` | rero_ils/modules/contributions/utils.py:36-39 | None if and only if no source has a non-empty value; otherwise the value of the first source that has one |
| `Contributions.LocalizedValue` | rero_ils/modules/contributions/utils.py:25-40 | the value of the first source, in the language's order, with a non-empty value; the contribution's own value when there is none |
| `Contributions.LaterSourcesIgnored` | rero_ils/modules/contributions/utils.py:36-39 | sources after the first non-empty hit are never read: they may hold anything, and they do not affect the result |
| `Contributions.NonObjectAfterHitIsNotRead` | rero_ils/modules/contributions/utils.py:36-39 | a non-object source after the first hit is accepted, and the lookup returns the first hit's value |
| `Contributions.UnknownLanguageUsesFallback` | rero_ils/modules/contributions/utils.py:35 | a language missing from the configuration gets the fallback language's result, or the top-level value when the fallback has no list |
| `Contributions.Walk` | rero_ils/modules/contributions/utils.py:36 | a configured list is walked item by item |
| `ItemDumpers.NotificationDump` | rero_ils/modules/items/dumpers.py:29-46 | no falsy value; keys within the six notification keys; each key is present exactly when its source value is truthy, and then holds that value |
| `ItemDumpers.CirculationDump` | rero_ils/modules/items/dumpers.py:52-71 | no falsy value; the item's truthy fields override `data`; without inheritance the dump is the filtered merge; when the item has neither call number, both come from the holding and only when truthy; nothing else is added; the caller's `data` ends up updated with the item's fields |
| `Records.DropFalsy` | rero_ils/modules/items/dumpers.py:45 | keeps exactly the entries whose value is truthy, unchanged |
| `Records.Filter` | rero_ils/modules/acq_orders/api.py:282 | the term filter keeps exactly the elements that pass, each as often as in the input |
| `Records.Get` | rero_ils/modules/items/dumpers.py:39 | the stored value, or `None` for a missing key |

## Left out

- The search engine: terms aggregations, sums, scans, counts, `flush_and_refresh` and reindexing. Each query is a filter or fold over the in-memory sequences of `AcqStore` and `TransactionStore`. The terms aggregation yields distinct keys, so it is modelled as a set.
- `AcqOrders.AcqStore.SendOrder`: the notification collaborators are parameters or left out. Creating the notification is an append to `notifications`. The dispatcher's result is the `sent` parameter. Reloading the notification returns the created record. The current date is the `today` parameter. A later change of a line's status to ORDERED after its update is also not modelled, because the order line module is not part of this model. Stamping therefore keeps each line's status.
- AcqOrders.AcqStore.SendOrder: because a dated line stays APPROVED in the model, the order's status does not move to ORDERED after a successful send. In the system it does.
- AcqOrders.AcqStore.SendOrder: a second successful send on a later day dates the same lines again in the model. In the system those lines are ORDERED by then, and the APPROVED filter skips them.
- AcqOrders.StampKeepsStatuses: holds only because the status change of dated lines is not modelled. It is not a property of sending in the system.
- `RECEIVED_STATUSES` is defined in the order line module, which is not part of this model. It is taken to be {RECEIVED, PARTIALLY_RECEIVED}, as its name and the status docstring say.
- Float amounts and the rounding of the provisional and expenditure totals. Amounts are integer cents, so rounding to two decimals has no effect.
- `calculate_overdue_amount` is an input (`amount`). The current UTC timestamp is an input (`now`). The configured base URL and schema parts are an input (`AppConfig`). The minted pid is an input.
- The content of a ledger event beyond its parent, because `create_event_from_patron_transaction` is not part of this model.
- `PatronTransactions.NotificationPid`: a reference that is not an object with a string `$ref` gives None, where resolving it would fail. Resolution is modelled as reading the last path segment of the URL.
- `PatronTransactions.LoanPid`: when no notification record is stored under the pid, the result is None, where the source fails on the missing record. The same applies to `PatronTransactions.DocumentPid`.
- `get_related_notes`, which imports classes dynamically from endpoint configuration, and `get_account_statement`, which only composes the modelled sums.
- Currency population, vendor, library and organisation lookups, `create`'s currency hook, gettext message text, minters, fetchers and providers. The `others` reason carries the status rather than its translated message.
- AcqOrders.LinkPids: lists pids in store order; the source sorts them with `sorted_pids`.
- Item dumpers: `get_location`, `get_library`, the `call_numbers` property, `replace_refs().dumps()` and the holding lookup are inputs.
- The item CLI data generator, the files service configuration, and the HTTP/UI tests.
- Contributions: the configuration must name its fallback language. Each source the loop reads before it stops must be an object when the contribution holds it. The loop stops at the first non-empty value, so later sources may hold anything. The source raises in both failing cases, so both are preconditions (`HasFallback`, `ReachedAreObjects`).
