# orderIN point-of-sale core, in Dafny

orderIN is a café point-of-sale web application. Its core is three client-side
stores over PouchDB databases (orders, tables, menu items), the screens that
drive them (the order form, the order card, the orders page), the QR helpers
that give each table an ordering URL, and a demo login with a role-checking
route guard. This project models that core and proves what it guarantees.

Layout, one module per file:

- `docdb.dfy` (`DocDb`): the document database the stores rely on. It maps keys (`_id`) to documents and revisions, and offers `get`, `put` (revision-checked, so a stale `_rev` is a conflict), `remove` and `allDocs` (rows ordered by key). A fault schedule stands for everything outside the store's control. A call can fail with a given error, or another writer can commit just before the call, which makes a conflict real. Every call is logged, so contracts can count calls. The class `Db` is specified by one pure step function per call.
- `record_store.dfy` (`RecordStore`): the protocol the order store and the table store share. A cached list sits beside the database, with `loading`, `error` and `updatingId`. Load lists every document newest key first. Add makes one `put` of a record with id `PREFIX-<ms>`. Update is optimistic, retries once on a conflict, and searches `allDocs` when the first read misses. Delete reads and then removes. Each operation is a pure function of the view and the database state. The class `Store` performs the same steps on its fields and on a `Db` object, and is proved to end in exactly that state.
- `orders.dfy` (`Orders`): the order store. It uses prefix `ORD-` and its own messages, and it refuses to drop lines of an order in `Preparing`.
- `tables.dfy` (`Tables`): the table store. It uses prefix `TABLE-`, never refuses an update, and adds `regenerateQR`.
- `menu.dfy` (`Menu`): the menu store. It has two backends, chosen once: the database, or a whole-list snapshot in local storage. `addItem` and `updateItem` call each other.
- `order_form.dfy` (`OrderForm`): the order form's selected lines, its handlers, the total, and the request a submit makes.
- `order_card.dfy` (`OrderCard`): the buttons a card offers for each status, when they are disabled, and the amounts it shows.
- `orders_management.dfy` (`OrdersManagement`): the orders page's tab and search filters and the counts on its tabs.
- `qr.dfy` (`Qr`): the table ordering URL, built with `encodeURIComponent` (section 19.2.6.4 of ECMA-262) and proved decodable by `decodeURIComponent` (section 19.2.6.2). It also holds the QR SVG with its placeholder, the data-URL helper and the PNG conversion's environment checks.
- `auth.dfy` (`Auth`): the demo accounts (environment variables with defaults), `login`, `logout` and `updateUser`.
- `protected_route.dfy` (`ProtectedRoute`): the route guard that compares roles after trimming and lower-casing.
- `text.dfy` (`Text`): the string functions the code uses: `trim`, `toLowerCase`, `includes`, the decimal rendering of `Date.now()`, and the key order of `allDocs`.
- `wrappers.dfy` (`Wrappers`): `Option` and the subsequence relation.

## Model

| member | source | states |
|---|---|---|
| DocDb.Begin | src/stores/orderStore.ts:117 | Every database call is logged and consumes one scheduled fault; an undisturbed call leaves the documents and the revision counter alone; freshness of the counter is kept |
| DocDb.GetStep | src/stores/orderStore.ts:117 | `db.get(key)` logs one read, keeps revisions fresh, and a success returns exactly what is stored under the key |
| DocDb.PutStep | src/stores/orderStore.ts:126 | `db.put` logs one write; a success stores the document under its key with a revision no stored document had before |
| DocDb.RemoveStep | src/stores/orderStore.ts:204-205 | `db.remove` logs one call and on success the key is gone |
| DocDb.AllDocsStep | src/stores/orderStore.ts:28-31 | `allDocs` logs one call, changes nothing unless another writer interleaves, and on success returns exactly the rows of the stored documents in key order |
| DocDb.MaxKeyExists | src/stores/orderStore.ts:28-31 | Every non-empty set of keys has a greatest key, so the key order is total |
| DocDb.KeysDescending | src/stores/orderStore.ts:28-31 | Lists every key exactly once, each below all keys before it |
| DocDb.KeysInOrder | src/stores/orderStore.ts:28-31 | Lists every key exactly once, strictly decreasing when `descending` and strictly increasing otherwise |
| DocDb.ReverseAscending | src/stores/menuStore.ts:51 | Reversing a descending key list gives the same keys in ascending order, the default order of `allDocs` |
| DocDb.Rows | src/stores/orderStore.ts:28-32 | One row per stored document; each row carries its key, document and current revision; rows follow the requested key order |
| DocDb.RowsCover | src/stores/orderStore.ts:28-32 | Every stored key appears among the rows |
| DocDb.RowsOrdered | src/stores/orderStore.ts:28-31 | Row keys strictly decrease when `descending` is set and strictly increase otherwise |
| DocDb.Db.constructor | src/stores/orderStore.ts:28 | A database object starts in the given documents, counter and fault schedule, with an empty log |
| DocDb.Db.Assign | src/stores/orderStore.ts:28 | Resets the database object to a given state |
| DocDb.Db.Get | src/stores/orderStore.ts:117 | The object's `get` returns and leaves exactly what `GetStep` describes |
| DocDb.Db.Put | src/stores/orderStore.ts:126 | The object's `put` returns and leaves exactly what `PutStep` describes |
| DocDb.Db.Remove | src/stores/orderStore.ts:205 | The object's `remove` returns and leaves exactly what `RemoveStep` describes |
| DocDb.Db.AllDocs | src/stores/orderStore.ts:28-31 | The object's `allDocs` returns and leaves exactly what `AllDocsStep` describes |
| Text.TrimStart | src/components/auth/ProtectedRoute.tsx:12 | The result is a suffix of the input and does not start with white space |
| Text.TrimEnd | src/components/auth/ProtectedRoute.tsx:12 | The result is a prefix of the input and does not end with white space |
| Text.Trim | src/components/auth/ProtectedRoute.tsx:12 | `trim()` leaves no ECMAScript white space or line terminator at either end |
| Text.Lower | src/pages/OrdersManagement.tsx:37-38 | `toLowerCase()` keeps the length and maps each character on its own |
| Text.LowerIdempotent | src/pages/OrdersManagement.tsx:37-38 | Lower-casing twice is lower-casing once |
| Text.LowerKeepsSpace | src/components/auth/ProtectedRoute.tsx:12 | Lower-casing neither creates nor removes white space |
| Text.TrimmedIsFixed | src/components/auth/ProtectedRoute.tsx:12 | A string without white space at either end is its own trim |
| Text.TrimLowerIdempotent | src/components/auth/ProtectedRoute.tsx:12 | `trim().toLowerCase()` applied twice equals applying it once |
| Text.IncludesAt | src/pages/OrdersManagement.tsx:37-38 | An occurrence at a position makes `includes` true |
| Text.IncludesSuffix | src/pages/OrdersManagement.tsx:37-38 | A string includes each of its suffixes |
| Text.IncludesExtend | src/pages/OrdersManagement.tsx:37-38 | Appending text keeps every occurrence |
| Text.IncludesLower | src/pages/OrdersManagement.tsx:37-38 | An occurrence survives lower-casing both strings, so an exact match is also a case-insensitive one |
| Text.Digit | src/stores/orderStore.ts:45 | A digit below ten renders as a character from `0` to `9` |
| Text.Decimal | src/stores/orderStore.ts:45 | The rendering of `Date.now()` is non-empty and made of digits only |
| Text.DecimalLength | src/stores/orderStore.ts:45 | The rendering has one digit exactly for values below ten |
| Text.DecimalSplit | src/stores/orderStore.ts:45 | The rendering of a value of ten or more is the rendering of its tens followed by its last digit |
| Text.DecimalInjective | src/stores/orderStore.ts:45 | Two clock values have the same rendering exactly when they are equal, so ids made in distinct milliseconds differ |
| Text.LessIrreflexive | src/stores/orderStore.ts:28-31 | No key sorts before itself |
| Text.LessTransitive | src/stores/orderStore.ts:28-31 | The key order is transitive |
| Text.LessTotal | src/stores/orderStore.ts:28-31 | Any two distinct keys are ordered one way or the other |
| Text.LessAsymmetric | src/stores/orderStore.ts:28-31 | No two keys each sort before the other |
| RecordStore.Merge | src/stores/orderStore.ts:120-124 | `{...doc, ...updates, updatedAt}`: every field present in the patch wins, every absent one keeps the document's value, and `updatedAt` is the call time |
| RecordStore.FindById | src/stores/orderStore.ts:76 | `find` returns nothing exactly when no record has the id; otherwise it returns the first record with that id |
| RecordStore.ReplaceById | src/stores/orderStore.ts:107-111 | The map keeps the length; records with the id become the new record and all others stay |
| RecordStore.ReplaceFinds | src/stores/orderStore.ts:129-132 | After a replacement by a record with the same id, `find` returns that record |
| RecordStore.RemoveById | src/stores/orderStore.ts:209 | Every kept record has another id and every record with another id is kept |
| RecordStore.RemoveByIdKeepsOrder | src/stores/orderStore.ts:209 | The filter keeps the records with another id in their order and with their multiplicity, and drops every copy of the removed id |
| RecordStore.Loaded | src/stores/orderStore.ts:32 | Loading gives one record per row, each carrying the row's key and revision |
| RecordStore.FindRow | src/stores/orderStore.ts:147 | The row search finds nothing exactly when no row's document has the id, and otherwise returns the first such row |
| RecordStore.AttemptStep | src/stores/orderStore.ts:115-126 | One attempt reads once and writes at most once; a success leaves the saved document stored under its key at the returned revision |
| RecordStore.ReplaceTwice | src/stores/orderStore.ts:107-132 | Replacing the optimistic entry by the saved one equals replacing the original entry by the saved one |
| RecordStore.TryUpdateOutcomes | src/stores/orderStore.ts:113-185 | `tryUpdate` ends in one of three states. Saved: only the entry changes, to what the database now holds. Reverted: the snapshot returns with the update message. Stuck: only on a first-attempt miss whose search failed, the view untouched |
| RecordStore.UpdateOutcomes | src/stores/orderStore.ts:72-188 | An update the guard lets through ends saved, reverted to the start-of-call list with the update message and settled, or left optimistic with `loading` and `updatingId` set after a miss |
| RecordStore.SecondAttemptIsLast | src/stores/orderStore.ts:167-183 | The second attempt makes one read and at most one write, and then either saves or reverts |
| RecordStore.ConflictRetriedOnce | src/stores/orderStore.ts:167-171 | After a conflict on the first attempt, exactly one more read and at most one more write follow |
| RecordStore.CleanAttempt | src/stores/orderStore.ts:115-126 | An undisturbed attempt saves the patch merged onto the stored document, under a fresh revision |
| RecordStore.InterruptedAttempt | src/stores/orderStore.ts:117-126 | A foreign write between the read and the write makes the write conflict, and leaves that foreign document stored |
| RecordStore.ForeignWriteRetried | src/stores/orderStore.ts:113-171 | With a foreign write between the first read and write, the retry merges the patch onto the foreign document, not the cached copy, and saves it with two reads and two writes |
| RecordStore.ForeignWriteResult | src/stores/orderStore.ts:113-171 | The whole view and database state after a retried foreign-write conflict, as one value |
| RecordStore.InterleavedTry | src/stores/orderStore.ts:113-171 | The attempts of `tryUpdate` when another writer commits before its first write: a conflict, then a saved retry |
| RecordStore.RetriedShape | src/stores/orderStore.ts:129-135 | The view a saved retry leaves: settled, and the entry with the id is the merged document with the new revision |
| RecordStore.UpdateRuns | src/stores/orderStore.ts:84-111 | An update the guard lets through replaces the entry optimistically and starts attempt 1 with the start-of-call list as its snapshot |
| RecordStore.ConflictGoesToSecond | src/stores/orderStore.ts:167-171 | A conflict on attempt 1 continues as attempt 2 from the state attempt 1 left |
| RecordStore.RetrySaves | src/stores/orderStore.ts:113-135 | A second attempt that meets no fault saves the patch merged onto the stored document |
| RecordStore.SecondConflictReverts | src/stores/orderStore.ts:167-183 | Foreign writes before both of our writes make both conflict, and the list returns to its start with the update message |
| RecordStore.TwiceInterleavedTry | src/stores/orderStore.ts:113-183 | The attempts when a foreign write lands before each write: two conflicts, then the revert |
| RecordStore.FallbackFailureEscapes | src/stores/orderStore.ts:143-146 | A miss followed by a failed `allDocs` escapes the error handler, so the optimistic view stays with `loading` and `updatingId` set |
| RecordStore.SearchLocates | src/stores/orderStore.ts:146-149 | When exactly one stored document has the id, the search finds it under its key |
| RecordStore.SearchFinds | src/stores/orderStore.ts:143-156 | A missed read, then a listing that holds the record under another key, then an attempt under that key that saves |
| RecordStore.FallbackFindsMovedRecord | src/stores/orderStore.ts:143-166 | A record stored under another key is found by the search and saved there, with no revert |
| RecordStore.MissingRecordReverts | src/stores/orderStore.ts:143-183 | A record stored nowhere leads to a revert of the list with the update message after the fruitless search |
| RecordStore.AddOutcome | src/stores/orderStore.ts:43-70 | Add writes once under `PREFIX-<ms>`. Success prepends exactly the stored record with its new revision; failure keeps the list and sets the create message |
| RecordStore.SameMillisecondCollides | src/stores/orderStore.ts:45-57 | Two adds in the same millisecond produce the same id; the second is refused and the list keeps one record |
| RecordStore.DeleteOutcome | src/stores/orderStore.ts:190-220 | Delete of an unknown id sets the not-found message and calls nothing. Otherwise it reads and removes under the record's key, then drops exactly the records with that id; on failure it keeps the list and sets the delete message |
| RecordStore.LoadedListing | src/stores/orderStore.ts:28-32 | A load lists each stored document exactly once, as a read returns it, in strictly decreasing key order |
| RecordStore.LoadOutcome | src/stores/orderStore.ts:25-41 | Load makes one `allDocs` call; success lists exactly the stored documents and failure keeps the list and sets the load message |
| RecordStore.Store.constructor | src/stores/orderStore.ts:19-23 | A new store is empty, not loading, with no error and nothing updating |
| RecordStore.Store.Load | src/stores/orderStore.ts:25-41 | The store's load ends in exactly the state `AfterLoad` gives |
| RecordStore.Store.Add | src/stores/orderStore.ts:43-70 | The store's add ends in exactly the state `AfterAdd` gives |
| RecordStore.Store.Attempt | src/stores/orderStore.ts:115-126 | One attempt on the database object returns and leaves what `AttemptStep` gives |
| RecordStore.Store.TryUpdate | src/stores/orderStore.ts:113-185 | The retry loop ends in exactly the state `AfterTryUpdate` gives |
| RecordStore.Store.Update | src/stores/orderStore.ts:72-188 | The store's update ends in exactly the state `AfterUpdate` gives |
| RecordStore.Store.Delete | src/stores/orderStore.ts:190-220 | The store's delete ends in exactly the state `AfterDelete` gives |
| RecordStore.Store.SetRecords | src/stores/orderStore.ts:222-224 | `setOrders` replaces the list and nothing else |
| Orders.RemovedItems | src/stores/orderStore.ts:96-98 | A current line is removed exactly when no new line has its id |
| Orders.NewOrderStore | src/stores/orderStore.ts:19-23 | The order store starts empty, with the `ORD-` configuration |
| Orders.PreparingGuardExact | src/stores/orderStore.ts:90-105 | An update is refused exactly when the order is Preparing, the update replaces the items, and some current line's id is missing from them; the message is the fixed one |
| Orders.UpdateUnknownOrder | src/stores/orderStore.ts:75-81 | Updating an id that is not cached sets "Order not found", settles, and calls nothing |
| Orders.RemovalWhilePreparingRefused | src/stores/orderStore.ts:90-105 | Dropping a line of a Preparing order is refused before the list or the database changes |
| Orders.AdditionWhilePreparingProceeds | src/stores/orderStore.ts:90-111 | Keeping every line of a Preparing order passes the guard, and the update then saves, reverts or stays optimistic |
| Tables.NewTableStore | src/stores/tableStore.ts:19-24 | The table store starts empty, with the `TABLE-` configuration |
| Tables.UpdateUnknownTable | src/stores/tableStore.ts:80-86 | Updating an id that is not cached sets "Table not found", settles, and calls nothing |
| Tables.TableUpdateOutcomes | src/stores/tableStore.ts:77-188 | Every update of a cached table runs, and ends saved, reverted with "Failed to update table", or left optimistic |
| Tables.RegenerateQR | src/stores/tableStore.ts:226-273 | The store object's `regenerateQR` ends in exactly the state `AfterRegenerateQR` gives |
| Tables.RegenerateQROutcome | src/stores/tableStore.ts:226-273 | Always settles and writes once for a cached id. On success, entries with the id get the ordering URL and a picture, and nothing else changes but `updatedAt`; otherwise the list stays and the error is the QR message |
| Tables.RegenerateSaves | src/stores/tableStore.ts:241-262 | A write with the stored revision and no fault stores the regenerated table under its key at a fresh revision, and caches it |
| Tables.RegenerateStale | src/stores/tableStore.ts:253-271 | A cached revision that is not the stored one makes the write fail, with the QR message and the list unchanged |
| Tables.RegenerateTwiceConflicts | src/stores/tableStore.ts:245-262 | The cache keeps the old revision after a success, so a second regeneration of the same table is refused |
| Tables.RegeneratedPictureUsesStoredUrl | src/stores/tableStore.ts:241-250 | A table with an earlier URL gets a picture of that earlier URL, while the stored URL is the fresh ordering URL |
| Menu.LoadedItems | src/stores/menuStore.ts:52-57 | One item per row; the document's own `id` wins over the key; the revision comes from the row |
| Menu.PutAttempt | src/stores/menuStore.ts:133-141 | Reads once and writes at most once; a successful write stores the item overlaid on the read document |
| Menu.RemoveAbsent | src/stores/menuStore.ts:116 | Filtering out an id no entry has leaves the list as it was |
| Menu.RemoveAfterReplace | src/stores/menuStore.ts:103-116 | Replacing the entries with an id and then filtering them out is the same as filtering them out |
| Menu.AddOutcomes | src/stores/menuStore.ts:77-126 | `addItem` resolves with the given item. Success leaves it written and listed, once for a new id; a rejection or the recursion bound leaves the list as it was |
| Menu.AddOfCachedUpdates | src/stores/menuStore.ts:80-86 | `addItem` of a cached id is `updateItem` of the item, resolving with the item as given |
| Menu.AddFresh | src/stores/menuStore.ts:89-125 | `addItem` of a new id writes once. Success lists the item once more; failure leaves the list unchanged |
| Menu.AddFreshWrites | src/stores/menuStore.ts:92-116 | After the one write of a new item, the list holds it with the new revision, or, on failure, the filtered list, which is also saved |
| Menu.UpdateOutcomes | src/stores/menuStore.ts:128-195 | `updateItem` ends written on success (a cached item stays listed); any other ending leaves the list unchanged; a cached item's count of entries never changes |
| Menu.UpdateOfMissingAdds | src/stores/menuStore.ts:152-156 | A missing document hands the item to `addItem` with the state after the failed read |
| Menu.ReplacedWritten | src/stores/menuStore.ts:144-150 | The list after a successful write holds the item with the stored revision wherever its id is, and nothing else changes |
| Menu.CachedButMissingDiverges | src/stores/menuStore.ts:80-156 | An id that is cached but has no document makes `addItem` and `updateItem` call each other without end, whatever the bound |
| Menu.ForeignWriteRetried | src/stores/menuStore.ts:157-174 | A foreign write before the first write is recovered from when the item carries no revision: two reads, two writes, and the entry gets the retry's revision |
| Menu.CachedRevisionLosesRetry | src/stores/menuStore.ts:157-177 | The retry re-sends the item's own revision over the fresh one, so an item carrying its loaded revision loses the retry too and rejects with the list unchanged |
| Menu.AddThenToggle | src/stores/menuStore.ts:77-227 | Adding a new item and then toggling it writes twice with one read between, and leaves its availability inverted |
| Menu.ToggleOutcome | src/stores/menuStore.ts:220-227 | Toggling an unknown id does nothing. Otherwise success inverts the cached availability on every entry with the id, and failure keeps the list |
| Menu.DeleteOutcome | src/stores/menuStore.ts:197-218 | Success drops exactly the entries with the id and its document; a rejection changes nothing; without the database the filtered list is also saved |
| Menu.LoadItemsOutcome | src/stores/menuStore.ts:45-75 | Load never empties a non-empty list and never touches the snapshot. A non-empty read of the snapshot or of an undisturbed database becomes the list; a failed read keeps the list and the whole state |
| Menu.LoadedCovers | src/stores/menuStore.ts:51-57 | Every stored document appears once loaded, with its own id, revision and fields |
| Menu.FallbackWritesThrough | src/stores/menuStore.ts:106-212 | Without the database, add, update and delete resolve, leave the database alone, and save exactly the list they leave |
| Menu.FallbackReloadStable | src/stores/menuStore.ts:58-66 | Loading from a snapshot equal to the list changes nothing |
| Menu.MenuStore.constructor | src/stores/menuStore.ts:229-231 | A new menu store is empty, with the backend chosen once |
| Menu.MenuStore.LoadItems | src/stores/menuStore.ts:45-75 | The store's load ends in exactly the state `AfterLoadItems` gives and returns the resulting list |
| Menu.MenuStore.Attempt | src/stores/menuStore.ts:133-141 | One get-and-put on the database object returns and leaves what `PutAttempt` gives |
| Menu.MenuStore.AddItem | src/stores/menuStore.ts:77-126 | The store's `addItem` ends in exactly the state and result `AfterAddItem` gives |
| Menu.MenuStore.UpdateItem | src/stores/menuStore.ts:128-195 | The store's `updateItem` ends in exactly the state and outcome `AfterUpdateItem` gives |
| Menu.MenuStore.DeleteItem | src/stores/menuStore.ts:197-218 | The store's `deleteItem` ends in exactly the state and outcome `AfterDeleteItem` gives |
| Menu.MenuStore.ToggleAvailability | src/stores/menuStore.ts:220-227 | The store's `toggleAvailability` ends in exactly the state and outcome `AfterToggle` gives |
| OrderForm.TotalAppend | src/components/orders/OrderForm.tsx:33-35 | The total of two lists of lines joined is the sum of their totals |
| OrderForm.AddedItem | src/components/orders/OrderForm.tsx:37-56 | An unknown menu id changes nothing. A selected line gains one unit; otherwise a new line with quantity 1 goes at the end |
| OrderForm.Incremented | src/components/orders/OrderForm.tsx:43-47 | Lines with the id gain one unit and all others stay |
| OrderForm.WithoutLine | src/components/orders/OrderForm.tsx:63 | Keeps exactly the lines whose id differs |
| OrderForm.QuantitySet | src/components/orders/OrderForm.tsx:66-74 | A quantity of zero or less acts as removal; otherwise lines with the id take the quantity and all others stay |
| OrderForm.Submission | src/components/orders/OrderForm.tsx:76-99 | No request exactly when nothing is selected. Editing keeps the order's status; a new order is Pending. Both carry the lines and their total |
| OrderForm.Offered | src/components/orders/OrderForm.tsx:183 | The menu buttons show exactly the available items |
| OrderForm.AddedItemTotal | src/components/orders/OrderForm.tsx:33-56 | Picking a known menu item raises the total by one unit price |
| OrderForm.IncrementTotal | src/components/orders/OrderForm.tsx:33-47 | Adding one unit raises the total by that line's price |
| OrderForm.IncrementAbsent | src/components/orders/OrderForm.tsx:43-47 | Incrementing an id that no line has changes nothing |
| OrderForm.AddedItemUnique | src/components/orders/OrderForm.tsx:37-56 | Picking an item never creates a second line with the same id |
| OrderForm.WithoutLineUnique | src/components/orders/OrderForm.tsx:63 | Removing a line keeps line ids unique |
| OrderForm.QuantitySetUnique | src/components/orders/OrderForm.tsx:66-74 | Changing a quantity keeps line ids unique |
| OrderForm.WithoutLineTotal | src/components/orders/OrderForm.tsx:33-64 | Removing a line lowers the total by exactly that line's amount |
| OrderForm.LockedEditPasses | src/components/orders/OrderForm.tsx:58-99 | Submitting an edit of a Preparing order that kept its lines is never refused by the store's guard |
| OrderForm.Form.constructor | src/components/orders/OrderForm.tsx:19-24 | The form starts with the edited order's lines, or none |
| OrderForm.Form.HandleAddItem | src/components/orders/OrderForm.tsx:37-56 | The selection becomes `AddedItem` of the old one, and no line of a Preparing order is lost |
| OrderForm.Form.HandleRemoveItem | src/components/orders/OrderForm.tsx:58-64 | Removes the line unless the edited order is Preparing |
| OrderForm.Form.HandleQuantityChange | src/components/orders/OrderForm.tsx:66-74 | The selection becomes `QuantitySet` of the old one, and no line of a Preparing order is lost |
| OrderForm.Form.HandleSubmit | src/components/orders/OrderForm.tsx:76-99 | The request is `Submission` of the selection; for a Preparing order it passes the store's guard when the store's cached copy of the order agrees with the form's |
| OrderCard.Actions | src/components/orders/OrderCard.tsx:54-136 | Edit always comes first |
| OrderCard.Buttons | src/components/orders/OrderCard.tsx:34-136 | One button per action, in the same order |
| OrderCard.TransitionsMatchWorkflow | src/components/orders/OrderCard.tsx:65-104 | The card offers a status change exactly when the kitchen workflow allows it |
| OrderCard.CancelAndDelete | src/components/orders/OrderCard.tsx:65-136 | Cancel is offered exactly for unfinished orders and Delete exactly for Served or Cancelled ones, which offer no status change |
| OrderCard.ForwardSteps | src/components/orders/OrderCard.tsx:81-104 | Start Preparing is offered exactly for Pending and Mark Served exactly for Preparing |
| OrderCard.DisabledWhileUpdating | src/components/orders/OrderCard.tsx:34-131 | Every button is disabled exactly while this order is the one being updated |
| OrderCard.Click | src/components/orders/OrderCard.tsx:58-129 | Cancel and Delete ask for nothing unless confirmed; status requests are for this order and the clicked status |
| OrderCard.ClicksFollowWorkflow | src/components/orders/OrderCard.tsx:65-104 | No click on an offered button asks for a change the workflow forbids |
| OrderCard.LineAmounts | src/components/orders/OrderCard.tsx:146-153 | One amount per line |
| OrderCard.AmountsSumToTotal | src/components/orders/OrderCard.tsx:153 | The shown line amounts add up to the form's total of those lines |
| OrderCard.ShownTotalIsStored | src/components/orders/OrderCard.tsx:161 | The card shows the stored total. It matches the line amounts for an order the form submitted, but not for every order |
| OrdersManagement.ByTab | src/pages/OrdersManagement.tsx:25-33 | Keeps exactly the orders in the tab, and can only shorten the list |
| OrdersManagement.SearchIgnoresCase | src/pages/OrdersManagement.tsx:35-40 | The term's case does not matter, and an exact occurrence in the id or a line name is found |
| OrdersManagement.BySearch | src/pages/OrdersManagement.tsx:35-40 | Keeps exactly the orders whose id or some line name contains the term, ignoring case |
| OrdersManagement.Filtered | src/pages/OrdersManagement.tsx:22-42 | Shows exactly the orders in the tab that match a non-empty term; the All tab with no term shows the list as it is |
| OrdersManagement.TwoFiltersAreOne | src/pages/OrdersManagement.tsx:22-42 | Filtering by tab and then by term is one filter by both |
| OrdersManagement.KeepSubsequence | src/pages/OrdersManagement.tsx:22-42 | The combined filter keeps the orders' relative order |
| OrdersManagement.FilteredSubsequence | src/pages/OrdersManagement.tsx:22-42 | The shown list is a subsequence of the orders |
| OrdersManagement.TabCountIsShown | src/pages/OrdersManagement.tsx:68-143 | With no search term each tab shows as many orders as its label counts |
| OrdersManagement.StatusCountsPartition | src/pages/OrdersManagement.tsx:68-70 | The four status counts add up to the number of orders |
| Qr.Utf8 | src/lib/qr.ts:18 | Each code point has one to four UTF-8 bytes |
| Qr.HexDigit | src/lib/qr.ts:18 | Each upper-case hexadecimal digit reads back as its value |
| Qr.EscapeAll | src/lib/qr.ts:18 | Each byte becomes three characters |
| Qr.HexValue | src/lib/qr.ts:18 | A hexadecimal digit's value is below 16 |
| Qr.EscapedByte | src/lib/qr.ts:18 | A leading escape spells a byte |
| Qr.EscapedBytes | src/lib/qr.ts:18 | `n` leading escapes spell `n` bytes |
| Qr.Utf8Valid | src/lib/qr.ts:18 | The UTF-8 bytes of a code point are a valid shortest form that decodes to that code point |
| Qr.EscapedByteOf | src/lib/qr.ts:18 | The escape of a byte reads back as that byte |
| Qr.EscapeAllDecodes | src/lib/qr.ts:18 | Escaped bytes read back as those bytes |
| Qr.DecodeEscaped | src/lib/qr.ts:18 | The escapes of a valid UTF-8 sequence decode to its code point |
| Qr.EncodeCharDecodes | src/lib/qr.ts:18 | The encoding of one character decodes to that character |
| Qr.DecodeEncode | src/lib/qr.ts:18 | `decodeURIComponent` undoes `encodeURIComponent` for every string of code points |
| Qr.EncodeInjective | src/lib/qr.ts:18 | Distinct strings encode differently |
| Qr.EncodeUnreserved | src/lib/qr.ts:18 | An id of unreserved characters only is written as it is |
| Qr.EscapeAllSafe | src/lib/qr.ts:18 | Escapes use only unreserved characters and `%` |
| Qr.EncodeSafe | src/lib/qr.ts:18 | The encoded id consists of unreserved characters and `%` only, so it cannot end the query parameter or change the path |
| Qr.OrderUrl | src/lib/qr.ts:17-18 | The ordering URL starts with the base and `/order?tableId=`, and the rest decodes back to the table id |
| Qr.OrderUrlInjective | src/lib/qr.ts:18 | For one base, distinct tables get distinct ordering URLs |
| Qr.PlaceholderText | src/lib/qr.ts:39-48 | The placeholder names the table and says "Scan to order" |
| Qr.LibraryFailure | src/lib/qr.ts:35-128 | When the QR library fails, the SVG helper still returns a picture naming the table, while the data-URL helper fails |
| Qr.TargetChoice | src/lib/qr.ts:17-20 | The QR code encodes a non-empty `qrUrl` if the table has one, and otherwise the ordering URL on `baseUrl`, falling back to the origin |
| Qr.PngEnvironmentGuard | src/lib/qr.ts:59-97 | The conversion is refused with the canvas message exactly when there is no document or window; it resolves exactly when every step succeeds |
| Auth.OrDefault | src/stores/authStore.ts:25-37 | An unset or empty variable gives the default; otherwise its value |
| Auth.DemoUsers | src/stores/authStore.ts:23-39 | Three accounts, admin, staff and kitchen in that order, each with a non-empty username and PIN |
| Auth.Find | src/stores/authStore.ts:41 | Finds nothing exactly when no account has both the username and the PIN; otherwise returns the first account that has both |
| Auth.AfterLogin | src/stores/authStore.ts:41-63 | Login succeeds exactly when some account has both. Success signs in that username with id `user-<name>`; failure changes nothing |
| Auth.AfterLogout | src/stores/authStore.ts:66-68 | Logout leaves no user and not authenticated |
| Auth.AfterUpdateUser | src/stores/authStore.ts:70-72 | `updateUser` replaces the user and keeps `isAuthenticated` |
| Auth.FirstMatchWins | src/stores/authStore.ts:41-53 | The role signed in with is that of the first fitting account, so an earlier account shadows a later one |
| Auth.DefaultUsers | src/stores/authStore.ts:23-39 | With no variables set, the accounts are admin, staff and kitchen, each with PIN 1234 |
| Auth.DefaultAccounts | src/stores/authStore.ts:23-54 | With no variables set, each default account signs in with PIN 1234 and its own role and id |
| Auth.DefaultsMatchExactly | src/stores/authStore.ts:41 | A wrong PIN, or a username in another case, is refused and changes nothing |
| Auth.RenamedAccount | src/stores/authStore.ts:25-41 | Renaming the staff account to `admin` leaves `admin` signing in as admin and `staff` refused |
| Auth.LogoutThenLogin | src/stores/authStore.ts:41-68 | After logout, the user is authenticated exactly when the next login succeeds |
| Auth.AuthStore.constructor | src/stores/authStore.ts:16-18 | The store starts signed out |
| Auth.AuthStore.Login | src/stores/authStore.ts:19-64 | The store's login ends in the state and result `AfterLogin` gives |
| Auth.AuthStore.Logout | src/stores/authStore.ts:66-68 | The store's logout ends in the state `AfterLogout` gives |
| Auth.AuthStore.UpdateUser | src/stores/authStore.ts:70-72 | The store's `updateUser` ends in the state `AfterUpdateUser` gives |
| ProtectedRoute.Normalize | src/components/auth/ProtectedRoute.tsx:12 | An absent role normalizes to the empty string, and normalizing never lengthens a role |
| ProtectedRoute.NormalizedAll | src/components/auth/ProtectedRoute.tsx:29 | Each allowed role is normalized, in place |
| ProtectedRoute.Route | src/components/auth/ProtectedRoute.tsx:14-38 | No user redirects to the fallback path, `/login` by default. A signed-in user is rendered exactly when no roles are required or some allowed role normalizes to theirs; otherwise they go to `/unauthorized` |
| ProtectedRoute.NormalizeIdempotent | src/components/auth/ProtectedRoute.tsx:12 | Normalizing a normalized role changes nothing |
| ProtectedRoute.Admits | src/components/auth/ProtectedRoute.tsx:27-37 | One allowed role matching after normalization is enough to render |
| ProtectedRoute.Refuses | src/components/auth/ProtectedRoute.tsx:27-33 | No allowed role matching after normalization means `/unauthorized` |
| ProtectedRoute.NormalAdmin | src/components/auth/ProtectedRoute.tsx:12 | `admin` normalizes to itself |
| ProtectedRoute.NormalKitchen | src/components/auth/ProtectedRoute.tsx:12 | `kitchen` normalizes to itself |
| ProtectedRoute.NormalPaddedAdmin | src/components/auth/ProtectedRoute.tsx:12 | `Admin ` normalizes to `admin` |
| ProtectedRoute.NormalShoutedAdmin | src/components/auth/ProtectedRoute.tsx:12 | ` ADMIN` normalizes to `admin` |
| ProtectedRoute.NormalCapitalKitchen | src/components/auth/ProtectedRoute.tsx:12 | `Kitchen` normalizes to `kitchen` |
| ProtectedRoute.NormalBlank | src/components/auth/ProtectedRoute.tsx:12 | A blank role normalizes to the empty string |
| ProtectedRoute.CaseAndSpacesIgnored | src/components/auth/ProtectedRoute.tsx:12-37 | Case and surrounding spaces do not matter on either side |
| ProtectedRoute.NoRolesRenders | src/components/auth/ProtectedRoute.tsx:27-37 | An absent or empty role list renders for any signed-in user |
| ProtectedRoute.MissingRole | src/components/auth/ProtectedRoute.tsx:12-33 | A user without a role is refused by `admin`, but admitted by a blank allowed role |
| ProtectedRoute.SignedOutRedirects | src/components/auth/ProtectedRoute.tsx:17-24 | After logout every guarded route redirects to the fallback, `/login` by default |
| ProtectedRoute.KitchenRole | src/components/auth/ProtectedRoute.tsx:27-37 | A kitchen user is refused the admin routes and admitted by `Kitchen` |
| ProtectedRoute.KitchenAccount | src/components/auth/ProtectedRoute.tsx:27-37 | The default kitchen login is refused the admin routes and admitted to the kitchen routes |

## Left out

- PouchDB, IndexedDB, local storage, JSON and the zustand `persist` middleware are not modelled as such. The database is the abstract `DocDb` state; the local-storage snapshot is a field of the menu state; the persisted auth state is the two store fields.
- Concurrency is not modelled. `tryUpdate(1)` is not awaited in the source, but here it runs to completion inside the update. The 100 ms backoff is a plain retry. Interleaving with other writers appears only as scheduled foreign writes.
- The menu store puts the new item first before writing. Here that intermediate list is visible only inside `Menu.MenuStore.AddItem`, because no other operation can run in between.
- Prices, quantities and totals are integers in minor units, not floating point; `toFixed(2)` formatting is out.
- `toLowerCase` is modelled on ASCII letters only; other letters keep their case.
- Strings are sequences of Unicode code points. The key order `Text.Less` compares code points, whereas IndexedDB compares UTF-16 code units; the two differ only for keys that mix characters above U+FFFF with characters in U+E000 to U+FFFF.
- `Qr.DecodeEncode`: a lone UTF-16 surrogate, on which `encodeURIComponent` throws, cannot occur in a string here, so that error path is out.
- The QR library (`QRCode.toString`, `QRCode.toDataURL`), the canvas, `Image`, `btoa` and the window origin are foreign calls or host values. They are parameters that return a value or fail.
- The clock (`Date.now()`, `new Date()`) and `crypto.randomUUID()` are parameters; dates are strings. Each operation takes one clock reading, so where the source reads the clock more than once in one call (the optimistic and the written `updatedAt` of an order or table update, the cached and the written `updatedAt` of a menu item, the signed-in user's `createdAt` and `updatedAt`) the model gives all of them the same value.
- `Tables.RegenerateQROutcome`: the dynamic `import('../lib/qr')` is taken to succeed; if loading that module rejected, the source would set the QR message and make no `put`, whereas the model always writes once for a cached id.
- A patch field is an `Option`, and `None` keeps the document's value. In the source's object spread, a property explicitly set to `undefined` (as the table form sends for a blank number) is present and erases the field; the model treats it as absent.
- The menu store's `isLoading` field is never set by the source, so it is not modelled.
- Local-storage quota and JSON parse errors are not modelled: the helper swallows them, and reading gives the snapshot or nothing.
- Menu fuel: `addItem` and `updateItem` call each other, and the model bounds that recursion by a `fuel` count, ending with `OutOfFuel` when it runs out. `Menu.CachedButMissingDiverges` shows that the source really does not terminate there.
- The `catch` of `login` is not modelled, because nothing inside its `try` can throw.
- `User.role` is `Option<string>`: the type says one of three strings, but the guard normalizes whatever is held.
- Menu items carry name, description, price, category, image URL and availability. Modifiers are out.
- Tables carry number, name, zone, status, `qrUrl` and `qrSvg`. Orders carry lines, total and status.
- `OrdersManagement`'s modal and side-panel state, its `loadOrders()` on mount, the `confirm` dialog before a delete, and the delayed reloads after save and delete are screen plumbing and are out; so is the `loadItems()` that `OrderForm` makes on mount when the menu is empty.
- `RecordStore.UpdateOutcomes`: assumes the patch does not change the record's id (`p.id` is absent or equal to it), as every screen's patch does.
- `RecordStore.ForeignWriteRetried`: assumes the patch carries no `_id`, `_rev` or differing id.
- `Menu.AddOutcomes`: assumes a non-empty id and no `_id` on the item, as the menu screens send.
- `Menu.UpdateOutcomes`: assumes a non-empty id and no `_id` on the item.
- `Menu.ToggleOutcome`: states the success case only for a cached item without `_id`.
