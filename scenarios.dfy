/** Client code that drives the handlers through the situations the app's tests
    describe, and the behaviour listed in README; each assertion follows from the
    handlers' contracts. */
module Scenarios {
  import opened Records
  import opened Lookup
  import opened Payloads
  import opened ResponseCache
  import opened Api

  const Milad := CustomerInput("milad", "milad.mohammadian@gamil.com", "09382061246", None)
  const Mehrdad := CustomerInput("mehrdad", "mehrdad.azad@gamil.com", "09382061246", None)

  /** A first list read fills `customers_list`; the second is served from it. */
  method ListIsCachedThenServed() {
    var club := new Club();
    var created := club.CreateCustomer(Milad, true);
    assert created.status == Created201 && created.body.customer.loyaltyScore == 0;
    var first := club.ListCustomers();
    assert first.body.customers.Keys == {1};
    assert Hit(club.cache, CustomersListKey);
    var second := club.ListCustomers();
    assert second == first;
  }

  /** Creating a customer deletes the list entry and keeps the detail entries. */
  method CreateInvalidatesOnlyTheList() {
    var club := new Club();
    var _ := club.CreateCustomer(Milad, true);
    ParseDecimal(1);
    var detail := club.RetrieveCustomer(Decimal(1));
    var _ := club.ListCustomers();
    var created := club.CreateCustomer(Mehrdad, true);
    assert created.status == Created201;
    assert CustomersListKey !in club.cache;
    assert club.cache[CustomerKey(Decimal(1))] == detail.body;
  }

  /** Updating a customer deletes its detail entry and the list entry. */
  method UpdateInvalidates() {
    var club := new Club();
    var _ := club.CreateCustomer(Milad, true);
    ParseDecimal(1);
    var pk := Decimal(1);
    var _ := club.RetrieveCustomer(pk);
    var _ := club.ListCustomers();
    var updated := club.UpdateCustomer(pk, Mehrdad, true);
    assert updated.status == Ok200 && club.customers[1].fields.name == "mehrdad";
    assert CustomerKey(pk) !in club.cache && CustomersListKey !in club.cache;
  }

  /** Deleting a customer deletes its detail entry and the list entry; the
      default manager then no longer shows it. */
  method DestroyInvalidates(now: Instant) {
    var club := new Club();
    var _ := club.CreateCustomer(Milad, true);
    ParseDecimal(1);
    var pk := Decimal(1);
    var _ := club.RetrieveCustomer(pk);
    var _ := club.ListCustomers();
    var deleted := club.DestroyCustomer(pk, now);
    assert deleted.status == NoContent204;
    assert CustomerKey(pk) !in club.cache && CustomersListKey !in club.cache;
    assert 1 !in Active(club.customers);
    var again := club.RetrieveCustomer(pk);
    assert again.status == NotFound404;
  }

  /** A transaction raises its customer's score, deletes `transactions_list` only,
      and leaves a cached customer detail showing the old score. */
  method TransactionLeavesCustomerDetailStale() {
    var club := new Club();
    var _ := club.CreateCustomer(Milad, true);
    ParseDecimal(1);
    var pk := Decimal(1);
    var before := club.RetrieveCustomer(pk);
    assert before.body.customer.loyaltyScore == 0;
    var _ := club.ListTransactions();
    assert Hit(club.cache, TransactionsListKey);
    var created := club.CreateTransaction(1, TransactionInput(None, 11000000, Some("Test")), true);
    assert created.status == Created201 && created.body.transaction.customerInfo.loyaltyScore == 1;
    KeysDistinct(pk, "");
    assert TransactionsListKey !in club.cache;
    assert club.customers[1].fields.loyaltyScore == 1;
    var after := club.RetrieveCustomer(pk);
    assert after.body.customer.loyaltyScore == 0;
  }

  /** A transaction for a missing customer is a 404 that changes nothing. */
  method TransactionForMissingCustomer() {
    var club := new Club();
    var r := club.CreateTransaction(7, TransactionInput(Some(7), 7500, None), true);
    assert r == Response(NotFound404, CustomerNotFound);
    assert club.transactions == map[];
  }

  /** Updating through "1" leaves the entry cached under "01" in place. */
  method PaddedPkStaysStale() {
    var club := new Club();
    var _ := club.CreateCustomer(Milad, true);
    PaddedPkHasOwnKey(1);
    var padded := "0" + Decimal(1);
    var before := club.RetrieveCustomer(padded);
    var _ := club.UpdateCustomer(Decimal(1), Mehrdad, true);
    var after := club.RetrieveCustomer(padded);
    assert after == before && after.body.customer.name == "milad";
  }

  /** Deleting then restoring a customer leaves its transactions deleted. */
  method RestoreKeepsTransactionsDeleted(now: Instant) {
    var club := new Club();
    var _ := club.CreateCustomer(Milad, true);
    var _ := club.CreateTransaction(1, TransactionInput(None, 5000000, None), true);
    ParseDecimal(1);
    var _ := club.DestroyCustomer(Decimal(1), now);
    club.RestoreCustomer(1);
    assert 1 in Active(club.customers);
    assert club.transactions[1].deletedAt == Some(now);
    assert Active(club.transactions) == map[];
  }

  /** The search guard refuses a missing or empty query and lets any other through. */
  method SearchGuard() {
    assert CheckSearchQuery(None).Some?;
    assert CheckSearchQuery(Some("")).value.status == BadRequest400;
    assert CheckSearchQuery(Some("milad")) == None;
  }
}
