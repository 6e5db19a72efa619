/** Response data as the serializers render it and as the cache stores it. The
    field-by-field rendering (formatting of decimals and dates, pagination) is
    not modelled: a payload records which rows, with which column values, a
    response shows. */
module Payloads {
  import opened Records

  /** A serialized transaction: its columns plus `customer_info`, the owner as
      the customer serializer renders it. */
  datatype TransactionInfo = TransactionInfo(fields: TransactionFields, customerInfo: CustomerFields)

  datatype Payload =
    | Falsy                                                  // None, {}, [], 0, "": anything Python reads as false
    | CustomerList(customers: map<int, CustomerFields>)      // the (paginated) customer list
    | CustomerDetail(id: int, customer: CustomerFields)
    | TransactionList(transactions: map<int, TransactionInfo>)
    | TransactionDetail(id: int, transaction: TransactionInfo)
    | ErrorMessage(key: string, message: string)             // a body the views build themselves
    | FrameworkError                                         // a 400/404 body the framework builds

  /** Python truthiness of a stored value: the list responses are paginated
      dicts and the detail responses are dicts with keys, so only `Falsy` is false. */
  predicate IsTruthy(p: Payload) {
    !p.Falsy?
  }

  ghost predicate OwnersPresent(txns: map<int, TransactionRow>, customers: map<int, CustomerRow>) {
    forall id :: id in txns ==> txns[id].fields.customer in customers
  }

  /** The detail response of one customer: its id and its columns, a truthy body. */
  function RenderCustomer(id: int, row: CustomerRow): (p: Payload)
    ensures p.CustomerDetail? && IsTruthy(p)
    ensures p.id == id && p.customer == row.fields
  {
    CustomerDetail(id, row.fields)
  }

  /** The list response over `Customer.objects`: exactly the active customers. */
  function RenderCustomers(customers: map<int, CustomerRow>): (p: Payload)
    ensures p.CustomerList? && IsTruthy(p)
    ensures forall id :: id in p.customers <==> id in customers && customers[id].deletedAt.None?
    ensures forall id :: id in p.customers ==> p.customers[id] == customers[id].fields
  {
    var active := Active(customers);
    CustomerList(map id | id in active :: active[id].fields)
  }

  /** A transaction with its owner's row embedded; the owner is read through the
      foreign key, which does not filter soft-deleted customers. */
  function RenderTransaction(id: int, row: TransactionRow, customers: map<int, CustomerRow>): (p: Payload)
    requires row.fields.customer in customers
    ensures p.TransactionDetail? && IsTruthy(p)
    ensures p.id == id && p.transaction.fields == row.fields
    ensures p.transaction.customerInfo == customers[row.fields.customer].fields
  {
    TransactionDetail(id, TransactionInfo(row.fields, customers[row.fields.customer].fields))
  }

  /** The list response over `Transaction.objects`: exactly the active transactions,
      each with its owner's columns whether or not that owner is soft-deleted. */
  function RenderTransactions(txns: map<int, TransactionRow>, customers: map<int, CustomerRow>): (p: Payload)
    requires OwnersPresent(txns, customers)
    ensures p.TransactionList? && IsTruthy(p)
    ensures forall id :: id in p.transactions <==> id in txns && txns[id].deletedAt.None?
    ensures forall id :: id in p.transactions ==> p.transactions[id].fields == txns[id].fields
    ensures forall id :: id in p.transactions ==>
      p.transactions[id].customerInfo == customers[txns[id].fields.customer].fields
  {
    var active := Active(txns);
    TransactionList(map id | id in active :: TransactionInfo(active[id].fields, customers[active[id].fields.customer].fields))
  }
}
