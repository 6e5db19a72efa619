/** The record store of the customers app: Customer and Transaction rows with a
    soft-delete timestamp, the soft-delete manager that hides stamped rows, and
    the bulk updates that Customer.delete and Customer.restore run over a
    customer's related transactions. */
module Records {

  datatype Option<T> = None | Some(value: T)

  /** An abstract point in time; the wall clock (timezone.now()) is a parameter of the model. */
  type Instant = int

  /** A stored row: the model's own columns plus the `deleted_at` soft-delete marker
      (None is SQL NULL, i.e. the row is active). */
  datatype Record<F> = Record(fields: F, deletedAt: Option<Instant>)

  datatype CustomerFields = CustomerFields(name: string, email: string, phone: string, loyaltyScore: int)

  /** `amount` is a decimal with two places, held here as integer cents. */
  datatype TransactionFields = TransactionFields(customer: int, amount: int, description: Option<string>)

  type CustomerRow = Record<CustomerFields>
  type TransactionRow = Record<TransactionFields>

  /** The default value of `loyalty_score` for a new customer. */
  const DefaultLoyaltyScore := 0

  predicate IsActive<F>(row: Record<F>) {
    row.deletedAt.None?
  }

  /** SoftDeleteManager.get_queryset: the rows of the default manager `objects`.
      The `all_objects` manager is the table itself. */
  function Active<F>(rows: map<int, Record<F>>): (r: map<int, Record<F>>)
    ensures forall id :: id in r <==> id in rows && rows[id].deletedAt.None?
    ensures forall id :: id in r ==> r[id] == rows[id]
  {
    map id | id in rows && IsActive(rows[id]) :: rows[id]
  }

  /** Assign `deleted_at := stamp` to one row and save it. */
  function Stamp<F>(rows: map<int, Record<F>>, id: int, stamp: Option<Instant>): (r: map<int, Record<F>>)
    requires id in rows
    ensures r.Keys == rows.Keys
    ensures r[id].fields == rows[id].fields && r[id].deletedAt == stamp
    ensures forall other :: other in rows && other != id ==> r[other] == rows[other]
  {
    rows[id := rows[id].(deletedAt := stamp)]
  }

  /** The ids reached by `customer.transactions.all()`: the related manager is built
      on Transaction's first manager, the soft-delete one, so only the owner's
      ACTIVE transactions are in it. */
  function RelatedActive(txns: map<int, TransactionRow>, owner: int): (ids: set<int>)
    ensures forall id :: id in ids <==> id in txns && txns[id].fields.customer == owner && txns[id].deletedAt.None?
  {
    set id | id in txns && txns[id].fields.customer == owner && IsActive(txns[id])
  }

  /** `customer.transactions.all().update(deleted_at=stamp)`: one bulk UPDATE over the
      related active transactions; no row is saved one by one, so no post_save fires. */
  function CascadeStamp(txns: map<int, TransactionRow>, owner: int, stamp: Option<Instant>): (r: map<int, TransactionRow>)
    ensures r.Keys == txns.Keys
    ensures forall id :: id in txns ==> r[id].fields == txns[id].fields
    ensures forall id :: id in RelatedActive(txns, owner) ==> r[id].deletedAt == stamp
    ensures forall id :: id in txns && id !in RelatedActive(txns, owner) ==> r[id] == txns[id]
  {
    var related := RelatedActive(txns, owner);
    map id | id in txns :: if id in related then txns[id].(deletedAt := stamp) else txns[id]
  }

  /** Soft-deleting one row never removes it from the table, and hides exactly that
      row from the default manager. */
  lemma StampHides<F>(rows: map<int, Record<F>>, id: int, t: Instant)
    requires id in rows
    ensures Stamp(rows, id, Some(t)).Keys == rows.Keys
    ensures Active(Stamp(rows, id, Some(t))) == Active(rows) - {id}
  {
  }

  /** Clearing one row's stamp makes it visible again and leaves the visibility of
      every other row as it was. */
  lemma StampRevives<F>(rows: map<int, Record<F>>, id: int)
    requires id in rows
    ensures Active(Stamp(rows, id, None)) == Active(rows)[id := rows[id].(deletedAt := None)]
  {
  }

  /** Stamping twice with the same value is stamping once (restore is idempotent). */
  lemma StampIdempotent<F>(rows: map<int, Record<F>>, id: int, stamp: Option<Instant>)
    requires id in rows
    ensures Stamp(Stamp(rows, id, stamp), id, stamp) == Stamp(rows, id, stamp)
  {
  }

  /** The delete cascade: every active transaction of the owner is stamped with the
      one timestamp and disappears from the default manager; the visibility of every
      other transaction is unchanged. */
  lemma CascadeDeleteHides(txns: map<int, TransactionRow>, owner: int, t: Instant)
    ensures var after := CascadeStamp(txns, owner, Some(t));
      Active(after) == Active(txns) - RelatedActive(txns, owner)
  {
  }

  /** The restore cascade `transactions.all().update(deleted_at=None)` only reaches
      transactions that are already active, so it changes nothing. */
  lemma CascadeRestoreIsIdentity(txns: map<int, TransactionRow>, owner: int)
    ensures CascadeStamp(txns, owner, None) == txns
  {
  }

  /** Deleting then restoring a customer does not bring back the transactions the
      delete cascaded to: each keeps the delete's timestamp, contrary to what the
      doc-comment of Customer.restore says. */
  lemma RestoreDoesNotRevive(txns: map<int, TransactionRow>, owner: int, id: int, t: Instant)
    requires id in txns && txns[id].fields.customer == owner && txns[id].deletedAt.None?
    ensures var deleted := CascadeStamp(txns, owner, Some(t));
      && CascadeStamp(deleted, owner, None)[id].deletedAt == Some(t)
      && id !in Active(CascadeStamp(deleted, owner, None))
  {
  }
}
