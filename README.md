# customer_club: soft delete, loyalty score and response cache

A Dafny model of the core of a small Django REST app that manages customers and
their transactions. The model covers three pieces of behaviour.

- **The record store with soft delete** (`customers/models.py`). Rows are never
  removed. A row whose `deleted_at` is set is hidden from the default manager
  `objects`, and `all_objects` shows every row. `Customer.delete` stamps the
  customer, then bulk-stamps its related transactions with the same instant.
  `Customer.restore` clears the customer's stamp, then runs the same bulk clear
  over its related transactions; that bulk clear reaches only transactions that
  are already active, so it changes none. `Transaction.delete` and `Transaction.restore` touch one row.
- **The loyalty score** (`customers/signals.py`). A `post_save` receiver on
  `Transaction` adds 1 to the owner's `loyalty_score` when the save created the
  row. No other save changes a score.
- **The response cache** (`customers/views.py`). List and detail reads return a
  cached value when the stored value is truthy. Otherwise they render from the
  store and cache the result. Create, update and destroy delete fixed keys, and
  only after the write has succeeded. Creating a transaction returns 404 for a
  missing customer, takes the owner from the URL, and deletes only
  `transactions_list`. The customer search answers 400 to a missing or empty
  `query`.

Modules follow the source: `Records` and `Lookup` (the models and the primary-key
lookup), `Loyalty` (the receiver), `Payloads` and `ResponseCache` (what the views
render and cache), and `Api`. `Api` holds the class `Club`. Its fields are the
two tables, the cache and the two id sequences. It has one method per model
method and per view handler. `Scenarios` drives `Club` through the situations
that `customers/tests.py` exercises.

Behaviour of the code that the model makes explicit:

- The related manager `customer.transactions` is built on `Transaction`'s first
  manager, which is the soft-delete one. So the delete cascade reaches only the
  customer's active transactions, and the restore cascade changes nothing.
  Restoring a customer does not bring back the transactions its deletion hid,
  although the doc-comment of `Customer.restore` says it does
  (`Records.RestoreDoesNotRevive`, `Scenarios.RestoreKeepsTransactionsDeleted`).
- A cache hit is decided by truthiness, so a stored false value is a miss and is
  overwritten.
- Detail keys are built from the raw URL text of `pk`, but the lookup converts
  it with `int()`. So `/customers/01/` and `/customers/1/` show the same
  customer under two keys. An update through one leaves the other cached
  (`ResponseCache.PaddedPkHasOwnKey`, `Scenarios.PaddedPkStaysStale`).
- Creating a transaction raises the owner's score but keeps every customer key.
  A cached customer detail therefore keeps showing the old score
  (`Scenarios.TransactionLeavesCustomerDetailStale`).
- `loyalty_score` is a writable field of the customer serializer. A create or
  update body may set it, so the score is "starting value plus creations", not
  "number of transactions ever created".

Inputs the model takes as parameters: the current instant (`timezone.now()`),
and the serializer's accept/reject verdict on a request body (`valid`).

## Model

| member | source | states |
|---|---|---|
| `Records.Active` | customers/models.py:5-7 | the default manager shows exactly the rows whose `deleted_at` is null, each unchanged |
| `Records.Stamp` | customers/models.py:55-63 | stamping one row sets its `deleted_at`, keeps its columns, keeps every other row and removes no row |
| `Records.RelatedActive` | customers/models.py:44-49 | `customer.transactions.all()` is exactly the owner's transactions whose `deleted_at` is null |
| `Records.CascadeStamp` | customers/models.py:29-37 | the bulk update sets `deleted_at` on the owner's active transactions only; already-deleted and other customers' transactions are unchanged, and no row is added or removed |
| `Records.StampHides` | customers/models.py:27-30 | soft-deleting a row keeps the table's key set and hides exactly that row from the default manager |
| `Records.StampRevives` | customers/models.py:60-63 | clearing a row's stamp makes that row visible again and changes no other row's visibility |
| `Records.StampIdempotent` | customers/models.py:60-63 | restoring twice is restoring once |
| `Records.CascadeDeleteHides` | customers/models.py:27-31 | after the delete cascade the visible transactions are the previous ones minus the owner's |
| `Records.CascadeRestoreIsIdentity` | customers/models.py:33-37 | the restore cascade changes no transaction |
| `Records.RestoreDoesNotRevive` | customers/models.py:33-37 | a transaction hidden by a customer's delete keeps the delete's instant after the customer's restore, and stays hidden |
| `Loyalty.AfterTransactionSave` | customers/signals.py:6-11 | a created save adds exactly 1 to the owner's score and changes no other column; any other customer, and every customer on a non-created save, is unchanged |
| `Loyalty.ApplySaves` | customers/signals.py:6-11 | a run of saves never adds or removes a customer |
| `Loyalty.LoyaltyCountsCreations` | customers/signals.py:8-11 | after any run of saves, a score equals its starting value plus the number of creations for that customer; non-created saves never lower it |
| `Loyalty.SavesTouchOnlyScores` | customers/signals.py:10-11 | saves never change a customer's other columns or its `deleted_at` |
| `Loyalty.OnlyOwnersChange` | customers/signals.py:10-11 | a customer for whom no transaction was created keeps its row unchanged |
| `Lookup.ParsePk` | customers/urls.py:9-11 | a pk text parses only when non-empty, and to a non-negative id when unsigned |
| `Lookup.ParseDecimal` | customers/tests.py:43-44 | the pk text `str(id)` used by the tests parses back to that id |
| `Lookup.PaddedPkParses` | customers/urls.py:9-11 | a zero-padded pk text parses to the same id as the plain one |
| `Lookup.FindActive` | customers/views.py:31-32 | a detail lookup finds a row iff the pk text parses to the id of an active row, and then it is that id |
| `Payloads.RenderCustomers` | customers/views.py:32-42 | the customer list shows exactly the active customers with their columns, and is truthy |
| `Payloads.RenderCustomer` | customers/views.py:54-55 | the customer detail (also the create and update body) shows that customer's id and columns, and is truthy |
| `Payloads.RenderTransaction` | customers/serializers.py:24-31 | the transaction detail (also the create body) shows its id and columns, and as `customer_info` the owner's columns, read through the foreign key without the soft-delete filter |
| `Payloads.RenderTransactions` | customers/views.py:98-108 | the transaction list shows exactly the active transactions with their columns, each with its owner's columns as `customer_info`, and is truthy |
| `ResponseCache.Get` | customers/views.py:37 | a missing key reads as a false value; a present key reads as its stored value |
| `ResponseCache.Invalidate` | customers/views.py:66-67 | deleting keys removes exactly those keys and keeps every other entry's value |
| `ResponseCache.InvalidateMisses` | customers/views.py:64-74 | after invalidation the next read of a deleted key misses and every other key reads as before |
| `ResponseCache.FalsyIsMiss` | customers/views.py:39 | a stored false value is not a hit |
| `ResponseCache.KeysDistinct` | customers/views.py:36-114 | list keys, customer detail keys and transaction detail keys never collide |
| `ResponseCache.DetailKeysInjective` | customers/views.py:48 | two pk texts share a detail key only if they are equal |
| `ResponseCache.PaddedPkHasOwnKey` | customers/views.py:64-67 | "0"+str(n) and str(n) reach the same customer under two different cache keys |
| `Api.NewCustomerFields` | customers/models.py:23 | a new customer has the body's name, email and phone, and score 0 unless the body gives one |
| `Api.UpdatedCustomerFields` | customers/serializers.py:11-15 | an update writes the body's name, email and phone, and keeps the score unless the body gives one |
| `Api.CheckSearchQuery` | customers/views.py:84-87 | the search is refused with 400 and the error body iff `query` is missing or empty |
| `Api.Club.InsertCustomer` | customers/views.py:60 | a created customer gets the next id, which was unused, with `deleted_at` null |
| `Api.Club.TransactionSaved` | customers/signals.py:6-11 | the receiver changes the customers exactly as `AfterTransactionSave` on the saved row's owner |
| `Api.Club.InsertTransaction` | customers/views.py:137 | a created transaction gets the next unused id and `deleted_at` null, and its owner's score rises by 1 |
| `Api.Club.DeleteCustomer` | customers/models.py:27-31 | Customer.delete stamps the customer and cascades the same instant to its active transactions |
| `Api.Club.RestoreCustomer` | customers/models.py:33-37 | Customer.restore clears the customer's stamp and leaves every transaction unchanged |
| `Api.Club.DeleteTransaction` | customers/models.py:55-58 | Transaction.delete stamps that row only; no customer changes |
| `Api.Club.RestoreTransaction` | customers/models.py:60-63 | Transaction.restore clears that row's stamp only; no customer changes |
| `Api.Club.ListCustomers` | customers/views.py:35-45 | a hit returns the stored `customers_list` value and keeps the cache; a miss returns the active customers and stores them under that key alone |
| `Api.Club.RetrieveCustomer` | customers/views.py:47-57 | a hit on `customer_<pk>` returns the stored value; a miss returns 404 without caching, or the row, which is then stored under that key |
| `Api.Club.CreateCustomer` | customers/views.py:59-62 | a rejected body changes nothing; otherwise the row is added and only `customers_list` is deleted |
| `Api.Club.UpdateCustomer` | customers/views.py:64-68 | 404 or 400 change nothing; otherwise the row's columns are replaced and exactly `customers_list` and `customer_<pk>` are deleted |
| `Api.Club.DestroyCustomer` | customers/views.py:70-74 | 404 changes nothing; otherwise the soft delete with cascade runs and exactly `customers_list` and `customer_<pk>` are deleted |
| `Api.Club.ListTransactions` | customers/views.py:101-111 | as ListCustomers, over the active transactions and `transactions_list` |
| `Api.Club.RetrieveTransaction` | customers/views.py:113-123 | as RetrieveCustomer, over the active transactions and `transaction_<pk>` |
| `Api.Club.CreateTransaction` | customers/views.py:125-140 | no active customer: 404 with its own body, nothing changes; rejected body: 400, nothing changes; otherwise one transaction owned by the URL's customer is added, that customer's score rises by 1, and only `transactions_list` is deleted |

## Left out

- Search: the Elasticsearch documents, the transaction search view and the execution of the customer query (`customers/views.py:88-91`) run on a foreign engine. Only the 400 guard is modelled.
- Request validation: the serializer's verdict is the parameter `valid`. The rules behind it are not modelled: email format and uniqueness, the column lengths, the decimal precision of `amount`, and the `customer` field check.
- Rendering: payloads record which rows and which column values a response shows. Timestamps (`created_at`, `updated_at`, `date`), decimal formatting, pagination and response headers are not modelled.
- The list keys `customers_list` and `transactions_list` ignore the query string. With pagination on, every page shares one entry, so a cached first page also answers `?page=2`. The model has one unpaginated list per key and does not show this.
- Cache entry time-outs (300 seconds) and cache or database failures are not modelled.
- The wall clock: instants are parameters. `updated_at` and `created_at` are not modelled.
- Concurrency is not modelled: the lost update in the receiver's read-modify-write, two reads filling the same key, and the process stopping between a write and its invalidation.
- Partial updates (PATCH) go through the same `update` override, so they invalidate the same keys. The model takes full bodies and does not merge fields.
- Hard deletion and its foreign-key cascade: no handler performs it.
- Routing, admin registration and migrations are not modelled. The migration's `transaction_date` column no longer exists in the model class.
- `Api.Club.CreateTransaction`: the router also exposes `create` at `/transactions/` (`customers/urls.py:11`), where there is no `customer_id` and `Customer.objects.get(id=None)` always answers 404 "Customer not found.". The parameter `customerId: int` cannot express the missing value; any unused id gives the same 404.
- Integer width: `loyalty_score` is a database integer column (`customers/models.py:23`), so an increment past the column's maximum fails at `save()`. The model's scores are unbounded integers.
- `Lookup.ParsePk`: `int()` also accepts surrounding whitespace, underscores between digits and non-ASCII digits. The model rejects those texts, which then read as "not found".
- `Api.Club.DeleteCustomer`: `self.save()` writes every column of the in-memory instance. The model writes only `deleted_at`. The two differ only under concurrent writes.
