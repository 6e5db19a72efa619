/** The response cache in front of the list and detail routes: its keys, the
    truthiness test that decides a hit, and invalidation by key. Entry
    time-outs are not modelled. */
module ResponseCache {
  import opened Records
  import opened Lookup
  import opened Payloads

  type Cache = map<string, Payload>

  const CustomersListKey: string := "customers_list"
  const TransactionsListKey: string := "transactions_list"

  /** The detail keys use the singular noun and the raw URL text of `pk`. */
  function CustomerKey(pk: string): string {
    "customer_" + pk
  }

  function TransactionKey(pk: string): string {
    "transaction_" + pk
  }

  /** cache.get(key): the stored value, or None (which is false) when absent. */
  function Get(cache: Cache, key: string): (p: Payload)
    ensures key !in cache ==> !IsTruthy(p)
    ensures key in cache ==> p == cache[key]
  {
    if key in cache then cache[key] else Falsy
  }

  /** `if cached_data:` — a stored value counts only when it is truthy. */
  predicate Hit(cache: Cache, key: string) {
    IsTruthy(Get(cache, key))
  }

  /** A run of cache.delete calls; deleting an absent key does nothing. */
  function Invalidate(cache: Cache, keys: set<string>): (r: Cache)
    ensures forall k :: k in r <==> k in cache && k !in keys
    ensures forall k :: k in r ==> r[k] == cache[k]
  {
    cache - keys
  }

  /** After an invalidation, the next read of every deleted key misses, and every
      other key reads as before. */
  lemma InvalidateMisses(cache: Cache, keys: set<string>, k: string)
    ensures k in keys ==> !Hit(Invalidate(cache, keys), k)
    ensures k !in keys ==> Get(Invalidate(cache, keys), k) == Get(cache, k)
  {
  }

  /** A stored value that is false is no hit, however it got there. */
  lemma FalsyIsMiss(cache: Cache, key: string)
    requires key in cache && cache[key] == Falsy
    ensures !Hit(cache, key)
  {
  }

  /** The four key families never collide: no detail key is a list key, and a
      customer key is never a transaction key. */
  lemma KeysDistinct(p: string, q: string)
    ensures CustomerKey(p) != CustomersListKey && CustomerKey(p) != TransactionsListKey
    ensures TransactionKey(p) != CustomersListKey && TransactionKey(p) != TransactionsListKey
    ensures CustomerKey(p) != TransactionKey(q)
    ensures CustomersListKey != TransactionsListKey
  {
    assert CustomerKey(p)[8] == '_' && CustomersListKey[8] == 's';
    assert TransactionKey(p)[11] == '_' && TransactionsListKey[11] == 's';
    assert CustomerKey(p)[0] != TransactionKey(q)[0];
    assert CustomerKey(p)[0] != TransactionsListKey[0];
    assert TransactionKey(p)[0] != CustomersListKey[0];
  }

  /** Each detail key names one pk text. */
  lemma DetailKeysInjective(p: string, q: string)
    ensures CustomerKey(p) == CustomerKey(q) ==> p == q
    ensures TransactionKey(p) == TransactionKey(q) ==> p == q
  {
    if CustomerKey(p) == CustomerKey(q) {
      assert p == CustomerKey(p)[9..] && q == CustomerKey(q)[9..];
    }
    if TransactionKey(p) == TransactionKey(q) {
      assert p == TransactionKey(p)[12..] && q == TransactionKey(q)[12..];
    }
  }

  /** The key is built from the URL text, not from the id: "0" + str(n) reaches
      the same customer as str(n) under a different cache key, so invalidating
      one leaves the other in place. */
  lemma PaddedPkHasOwnKey(n: nat)
    ensures ParsePk("0" + Decimal(n)) == ParsePk(Decimal(n)) == Some(n)
    ensures CustomerKey("0" + Decimal(n)) != CustomerKey(Decimal(n))
    ensures TransactionKey("0" + Decimal(n)) != TransactionKey(Decimal(n))
  {
    ParseDecimal(n);
    PaddedPkParses(n);
    assert |CustomerKey("0" + Decimal(n))| != |CustomerKey(Decimal(n))|;
    assert |TransactionKey("0" + Decimal(n))| != |TransactionKey(Decimal(n))|;
  }
}
