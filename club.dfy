/** The customers app as one object: the two tables, the response cache, and the
    id sequences. The model methods (soft delete, restore, the post_save receiver)
    and the view handlers are its methods; each handler performs its reads,
    writes and cache calls in the order the view does. */
module Api {
  import opened Records
  import opened Loyalty
  import opened Lookup
  import opened Payloads
  import opened ResponseCache

  datatype Status = Ok200 | Created201 | NoContent204 | BadRequest400 | NotFound404

  datatype Response = Response(status: Status, body: Payload)

  /** The body of a customer POST or PUT; `loyalty_score` is an optional writable field. */
  datatype CustomerInput = CustomerInput(name: string, email: string, phone: string, loyaltyScore: Option<int>)

  /** The body of a transaction POST; its `customer` field, if any, is overridden by the URL. */
  datatype TransactionInput = TransactionInput(customer: Option<int>, amount: int, description: Option<string>)

  const NoQueryError: Payload := ErrorMessage("error", "No query parameter provided.")
  const CustomerNotFound: Payload := ErrorMessage("detail", "Customer not found.")

  /** The columns of a customer created from `input`: an omitted score takes the
      column default. */
  function NewCustomerFields(input: CustomerInput): (f: CustomerFields)
    ensures f.name == input.name && f.email == input.email && f.phone == input.phone
    ensures input.loyaltyScore.None? ==> f.loyaltyScore == DefaultLoyaltyScore
    ensures input.loyaltyScore.Some? ==> f.loyaltyScore == input.loyaltyScore.value
  {
    CustomerFields(input.name, input.email, input.phone,
      match input.loyaltyScore case Some(s) => s case None => DefaultLoyaltyScore)
  }

  /** The columns of a customer after an update with `input`: an omitted score
      keeps the stored one. */
  function UpdatedCustomerFields(current: CustomerFields, input: CustomerInput): (f: CustomerFields)
    ensures f.name == input.name && f.email == input.email && f.phone == input.phone
    ensures input.loyaltyScore.None? ==> f.loyaltyScore == current.loyaltyScore
    ensures input.loyaltyScore.Some? ==> f.loyaltyScore == input.loyaltyScore.value
  {
    CustomerFields(input.name, input.email, input.phone,
      match input.loyaltyScore case Some(s) => s case None => current.loyaltyScore)
  }

  /** The guard of the customer search view: a missing or empty `query` is a 400
      with an error body and no search; otherwise the search runs. */
  function CheckSearchQuery(query: Option<string>): (r: Option<Response>)
    ensures r.Some? <==> query.None? || query.value == ""
    ensures r.Some? ==> r.value.status == BadRequest400 && r.value.body == NoQueryError
  {
    match query
    case None => Some(Response(BadRequest400, NoQueryError))
    case Some(q) => if q == "" then Some(Response(BadRequest400, NoQueryError)) else None
  }

  class Club {
    var customers: map<int, CustomerRow>
    var transactions: map<int, TransactionRow>
    var cache: Cache
    /** The next values of the two auto-increment primary keys. */
    var nextCustomerId: int
    var nextTransactionId: int

    /** Ids are positive and below their sequence, and every transaction's owner
        row exists (the foreign key; rows are never hard-deleted here). */
    ghost predicate Valid()
      reads this
    {
      && 0 < nextCustomerId && 0 < nextTransactionId
      && (forall id :: id in customers ==> 0 < id < nextCustomerId)
      && (forall id :: id in transactions ==> 0 < id < nextTransactionId)
      && OwnersPresent(transactions, customers)
    }

    constructor ()
      ensures Valid()
      ensures customers == map[] && transactions == map[] && cache == map[]
      ensures nextCustomerId == 1 && nextTransactionId == 1
    {
      customers, transactions, cache := map[], map[], map[];
      nextCustomerId, nextTransactionId := 1, 1;
    }

    // ---------------------------------------------------------------- models

    /** Insert a customer row (no receiver listens for Customer saves). */
    method InsertCustomer(fields: CustomerFields) returns (id: int)
      requires Valid()
      modifies this`customers, this`nextCustomerId
      ensures Valid()
      ensures id == old(nextCustomerId) && id !in old(customers)
      ensures customers == old(customers)[id := Record(fields, None)]
    {
      id := nextCustomerId;
      customers := customers[id := Record(fields, None)];
      nextCustomerId := nextCustomerId + 1;
    }

    /** The post_save receiver for Transaction, after the row `id` was saved. */
    method TransactionSaved(id: int, created: bool)
      requires Valid() && id in transactions
      modifies this`customers
      ensures Valid()
      ensures customers == AfterTransactionSave(old(customers), transactions[id].fields.customer, created)
    {
      var owner := transactions[id].fields.customer;
      if created {
        var row := customers[owner];
        customers := customers[owner := row.(fields := row.fields.(loyaltyScore := row.fields.loyaltyScore + 1))];
      }
    }

    /** Insert a transaction row; the save fires post_save with `created` set. */
    method InsertTransaction(fields: TransactionFields) returns (id: int)
      requires Valid() && fields.customer in customers
      modifies this`transactions, this`nextTransactionId, this`customers
      ensures Valid()
      ensures id == old(nextTransactionId) && id !in old(transactions)
      ensures transactions == old(transactions)[id := Record(fields, None)]
      ensures customers == AfterTransactionSave(old(customers), fields.customer, true)
    {
      id := nextTransactionId;
      transactions := transactions[id := Record(fields, None)];
      nextTransactionId := nextTransactionId + 1;
      TransactionSaved(id, true);
    }

    /** Customer.delete: stamp the customer, save it, then bulk-stamp its active
        transactions with the same instant. */
    method DeleteCustomer(id: int, now: Instant)
      requires Valid() && id in customers
      modifies this`customers, this`transactions
      ensures Valid()
      ensures customers == Stamp(old(customers), id, Some(now))
      ensures transactions == CascadeStamp(old(transactions), id, Some(now))
    {
      customers := Stamp(customers, id, Some(now));
      transactions := CascadeStamp(transactions, id, Some(now));
    }

    /** Customer.restore: clear the customer's stamp; the bulk clear reaches only
        transactions that are already active, so no transaction changes. */
    method RestoreCustomer(id: int)
      requires Valid() && id in customers
      modifies this`customers, this`transactions
      ensures Valid()
      ensures customers == Stamp(old(customers), id, None)
      ensures transactions == old(transactions)
    {
      customers := Stamp(customers, id, None);
      CascadeRestoreIsIdentity(transactions, id);
      transactions := CascadeStamp(transactions, id, None);
    }

    /** Transaction.delete: stamp this row only; its save is not a creation, so
        no score changes. */
    method DeleteTransaction(id: int, now: Instant)
      requires Valid() && id in transactions
      modifies this`transactions, this`customers
      ensures Valid()
      ensures transactions == Stamp(old(transactions), id, Some(now))
      ensures customers == old(customers)
    {
      transactions := Stamp(transactions, id, Some(now));
      TransactionSaved(id, false);
    }

    /** Transaction.restore: clear this row's stamp only; no score changes. */
    method RestoreTransaction(id: int)
      requires Valid() && id in transactions
      modifies this`transactions, this`customers
      ensures Valid()
      ensures transactions == Stamp(old(transactions), id, None)
      ensures customers == old(customers)
    {
      transactions := Stamp(transactions, id, None);
      TransactionSaved(id, false);
    }

    // ---------------------------------------------------------------- views

    /** GET /customers/: serve a truthy cached list; otherwise render the active
        customers and store the result under `customers_list`. */
    method ListCustomers() returns (r: Response)
      requires Valid()
      modifies this`cache
      ensures Valid() && r.status == Ok200
      ensures Hit(old(cache), CustomersListKey) ==> r.body == old(cache)[CustomersListKey] && cache == old(cache)
      ensures !Hit(old(cache), CustomersListKey) ==>
        r.body == RenderCustomers(customers) && cache == old(cache)[CustomersListKey := r.body]
    {
      var cached := Get(cache, CustomersListKey);
      if IsTruthy(cached) {
        return Response(Ok200, cached);
      }
      r := Response(Ok200, RenderCustomers(customers));
      cache := cache[CustomersListKey := r.body];
    }

    /** GET /customers/<pk>/: serve a truthy cached `customer_<pk>` (whatever the
        store now holds); otherwise look the row up, 404 without caching, or
        render it and store it under that key. */
    method RetrieveCustomer(pk: string) returns (r: Response)
      requires Valid()
      modifies this`cache
      ensures Valid()
      ensures Hit(old(cache), CustomerKey(pk)) ==>
        r == Response(Ok200, old(cache)[CustomerKey(pk)]) && cache == old(cache)
      ensures !Hit(old(cache), CustomerKey(pk)) && FindActive(customers, pk).None? ==>
        r.status == NotFound404 && cache == old(cache)
      ensures !Hit(old(cache), CustomerKey(pk)) && FindActive(customers, pk).Some? ==>
        var id := FindActive(customers, pk).value;
        r == Response(Ok200, RenderCustomer(id, customers[id])) && cache == old(cache)[CustomerKey(pk) := r.body]
    {
      var key := CustomerKey(pk);
      var cached := Get(cache, key);
      if IsTruthy(cached) {
        return Response(Ok200, cached);
      }
      var found := FindActive(customers, pk);
      if found.None? {
        return Response(NotFound404, FrameworkError);
      }
      r := Response(Ok200, RenderCustomer(found.value, customers[found.value]));
      cache := cache[key := r.body];
    }

    /** POST /customers/: a rejected body is a 400 that changes nothing; otherwise
        the row is inserted and only then `customers_list` is deleted. */
    method CreateCustomer(input: CustomerInput, valid: bool) returns (r: Response)
      requires Valid()
      modifies this`customers, this`nextCustomerId, this`cache
      ensures Valid()
      ensures !valid ==>
        r == Response(BadRequest400, FrameworkError)
        && customers == old(customers) && nextCustomerId == old(nextCustomerId) && cache == old(cache)
      ensures valid ==>
        var id := old(nextCustomerId);
        && id !in old(customers)
        && customers == old(customers)[id := Record(NewCustomerFields(input), None)]
        && cache == Invalidate(old(cache), {CustomersListKey})
        && r == Response(Created201, RenderCustomer(id, customers[id]))
    {
      if !valid {
        return Response(BadRequest400, FrameworkError);
      }
      var id := InsertCustomer(NewCustomerFields(input));
      r := Response(Created201, RenderCustomer(id, customers[id]));
      cache := cache - {CustomersListKey};
    }

    /** PUT /customers/<pk>/: 404 for a pk that names no active customer, 400 for a
        rejected body, each changing nothing; otherwise the row is saved and only
        then `customers_list` and `customer_<pk>` are deleted. */
    method UpdateCustomer(pk: string, input: CustomerInput, valid: bool) returns (r: Response)
      requires Valid()
      modifies this`customers, this`cache
      ensures Valid()
      ensures FindActive(old(customers), pk).None? ==>
        r == Response(NotFound404, FrameworkError) && customers == old(customers) && cache == old(cache)
      ensures FindActive(old(customers), pk).Some? && !valid ==>
        r == Response(BadRequest400, FrameworkError) && customers == old(customers) && cache == old(cache)
      ensures FindActive(old(customers), pk).Some? && valid ==>
        var id := FindActive(old(customers), pk).value;
        && customers == old(customers)[id := old(customers)[id].(fields := UpdatedCustomerFields(old(customers)[id].fields, input))]
        && cache == Invalidate(old(cache), {CustomersListKey, CustomerKey(pk)})
        && r == Response(Ok200, RenderCustomer(id, customers[id]))
    {
      var found := FindActive(customers, pk);
      if found.None? {
        return Response(NotFound404, FrameworkError);
      }
      if !valid {
        return Response(BadRequest400, FrameworkError);
      }
      var id := found.value;
      var row := customers[id];
      customers := customers[id := row.(fields := UpdatedCustomerFields(row.fields, input))];
      r := Response(Ok200, RenderCustomer(id, customers[id]));
      cache := cache - {CustomersListKey};
      cache := cache - {CustomerKey(pk)};
      assert cache == Invalidate(old(cache), {CustomersListKey, CustomerKey(pk)});
    }

    /** DELETE /customers/<pk>/: 404 for a pk that names no active customer,
        changing nothing; otherwise Customer.delete runs and only then
        `customers_list` and `customer_<pk>` are deleted. Transaction keys stay. */
    method DestroyCustomer(pk: string, now: Instant) returns (r: Response)
      requires Valid()
      modifies this`customers, this`transactions, this`cache
      ensures Valid()
      ensures FindActive(old(customers), pk).None? ==>
        r == Response(NotFound404, FrameworkError)
        && customers == old(customers) && transactions == old(transactions) && cache == old(cache)
      ensures FindActive(old(customers), pk).Some? ==>
        var id := FindActive(old(customers), pk).value;
        && customers == Stamp(old(customers), id, Some(now))
        && transactions == CascadeStamp(old(transactions), id, Some(now))
        && cache == Invalidate(old(cache), {CustomersListKey, CustomerKey(pk)})
        && r == Response(NoContent204, Falsy)
    {
      var found := FindActive(customers, pk);
      if found.None? {
        return Response(NotFound404, FrameworkError);
      }
      DeleteCustomer(found.value, now);
      r := Response(NoContent204, Falsy);
      cache := cache - {CustomersListKey};
      cache := cache - {CustomerKey(pk)};
      assert cache == Invalidate(old(cache), {CustomersListKey, CustomerKey(pk)});
    }

    /** GET /transactions/: serve a truthy cached list; otherwise render the
        active transactions and store the result under `transactions_list`. */
    method ListTransactions() returns (r: Response)
      requires Valid()
      modifies this`cache
      ensures Valid() && r.status == Ok200
      ensures Hit(old(cache), TransactionsListKey) ==> r.body == old(cache)[TransactionsListKey] && cache == old(cache)
      ensures !Hit(old(cache), TransactionsListKey) ==>
        r.body == RenderTransactions(transactions, customers) && cache == old(cache)[TransactionsListKey := r.body]
    {
      var cached := Get(cache, TransactionsListKey);
      if IsTruthy(cached) {
        return Response(Ok200, cached);
      }
      r := Response(Ok200, RenderTransactions(transactions, customers));
      cache := cache[TransactionsListKey := r.body];
    }

    /** GET /transactions/<pk>/: as RetrieveCustomer, under `transaction_<pk>`. */
    method RetrieveTransaction(pk: string) returns (r: Response)
      requires Valid()
      modifies this`cache
      ensures Valid()
      ensures Hit(old(cache), TransactionKey(pk)) ==>
        r == Response(Ok200, old(cache)[TransactionKey(pk)]) && cache == old(cache)
      ensures !Hit(old(cache), TransactionKey(pk)) && FindActive(transactions, pk).None? ==>
        r.status == NotFound404 && cache == old(cache)
      ensures !Hit(old(cache), TransactionKey(pk)) && FindActive(transactions, pk).Some? ==>
        var id := FindActive(transactions, pk).value;
        r == Response(Ok200, RenderTransaction(id, transactions[id], customers))
        && cache == old(cache)[TransactionKey(pk) := r.body]
    {
      var key := TransactionKey(pk);
      var cached := Get(cache, key);
      if IsTruthy(cached) {
        return Response(Ok200, cached);
      }
      var found := FindActive(transactions, pk);
      if found.None? {
        return Response(NotFound404, FrameworkError);
      }
      r := Response(Ok200, RenderTransaction(found.value, transactions[found.value], customers));
      cache := cache[key := r.body];
    }

    /** POST /customers/<customer_id>/transactions/: 404 with its own body when no
        active customer has that id, 400 for a rejected body, each changing nothing;
        otherwise a transaction owned by the URL's customer is inserted (raising
        its score through post_save) and only `transactions_list` is deleted. */
    method CreateTransaction(customerId: int, input: TransactionInput, valid: bool) returns (r: Response)
      requires Valid()
      modifies this`transactions, this`nextTransactionId, this`customers, this`cache
      ensures Valid()
      ensures customerId !in Active(old(customers)) ==>
        r == Response(NotFound404, CustomerNotFound)
        && customers == old(customers) && transactions == old(transactions)
        && nextTransactionId == old(nextTransactionId) && cache == old(cache)
      ensures customerId in Active(old(customers)) && !valid ==>
        r == Response(BadRequest400, FrameworkError)
        && customers == old(customers) && transactions == old(transactions)
        && nextTransactionId == old(nextTransactionId) && cache == old(cache)
      ensures customerId in Active(old(customers)) && valid ==>
        var id := old(nextTransactionId);
        var fields := TransactionFields(customerId, input.amount, input.description);
        && id !in old(transactions)
        && transactions == old(transactions)[id := Record(fields, None)]
        && customers == AfterTransactionSave(old(customers), customerId, true)
        && cache == Invalidate(old(cache), {TransactionsListKey})
        && r == Response(Created201, RenderTransaction(id, transactions[id], customers))
    {
      if !(customerId in customers && IsActive(customers[customerId])) {
        return Response(NotFound404, CustomerNotFound);
      }
      if !valid {
        return Response(BadRequest400, FrameworkError);
      }
      var fields := TransactionFields(customerId, input.amount, input.description);
      var id := InsertTransaction(fields);
      r := Response(Created201, RenderTransaction(id, transactions[id], customers));
      cache := cache - {TransactionsListKey};
    }
  }
}
