/** The post_save receiver on Transaction that maintains a customer's loyalty
    score, and what a run of Transaction saves does to the scores. */
module Loyalty {
  import opened Records

  /** update_customer_loyalty_score: on a Transaction save with `created` set, the
      owning customer's `loyalty_score` goes up by one and the customer is saved;
      any other save leaves the customers as they are. */
  function AfterTransactionSave(customers: map<int, CustomerRow>, owner: int, created: bool): (r: map<int, CustomerRow>)
    requires owner in customers
    ensures r.Keys == customers.Keys
    ensures created ==> r[owner].fields.loyaltyScore == customers[owner].fields.loyaltyScore + 1
    ensures r[owner].deletedAt == customers[owner].deletedAt
    ensures r[owner].fields.(loyaltyScore := 0) == customers[owner].fields.(loyaltyScore := 0)
    ensures forall c :: c in customers && (c != owner || !created) ==> r[c] == customers[c]
  {
    if created then
      var row := customers[owner];
      customers[owner := row.(fields := row.fields.(loyaltyScore := row.fields.loyaltyScore + 1))]
    else
      customers
  }

  /** One post_save notification for a Transaction: its owner and the `created` flag. */
  datatype Save = Save(owner: int, created: bool)

  ghost predicate OwnersExist(customers: map<int, CustomerRow>, saves: seq<Save>) {
    forall i :: 0 <= i < |saves| ==> saves[i].owner in customers
  }

  /** Handling the first save keeps every later save's owner present. */
  lemma OwnersExistAfterFirst(customers: map<int, CustomerRow>, saves: seq<Save>)
    requires OwnersExist(customers, saves) && saves != []
    ensures OwnersExist(AfterTransactionSave(customers, saves[0].owner, saves[0].created), saves[1..])
  {
  }

  /** The customers after the receiver has handled `saves` in order. */
  function ApplySaves(customers: map<int, CustomerRow>, saves: seq<Save>): (r: map<int, CustomerRow>)
    requires OwnersExist(customers, saves)
    ensures r.Keys == customers.Keys
    decreases |saves|
  {
    if saves == [] then customers
    else ApplySaves(AfterTransactionSave(customers, saves[0].owner, saves[0].created), saves[1..])
  }

  /** The number of creations for customer `c` among `saves`. */
  function CreationsFor(saves: seq<Save>, c: int): (n: nat)
    ensures n <= |saves|
  {
    if saves == [] then 0
    else (if saves[0].owner == c && saves[0].created then 1 else 0) + CreationsFor(saves[1..], c)
  }

  /** After any run of Transaction saves, a customer's score is its starting score
      plus the number of transactions created for it, in a sequential run of saves:
      no double count, and deletes and restores (non-created saves) never decrement it. */
  lemma {:induction false} LoyaltyCountsCreations(customers: map<int, CustomerRow>, saves: seq<Save>, c: int)
    requires OwnersExist(customers, saves)
    requires c in customers
    ensures ApplySaves(customers, saves)[c].fields.loyaltyScore
         == customers[c].fields.loyaltyScore + CreationsFor(saves, c)
    decreases |saves|
  {
    if saves != [] {
      var next := AfterTransactionSave(customers, saves[0].owner, saves[0].created);
      OwnersExistAfterFirst(customers, saves);
      LoyaltyCountsCreations(next, saves[1..], c);
    }
  }

  /** Saves only ever touch the score: every other column and every soft-delete
      stamp of every customer is as before. */
  lemma {:induction false} SavesTouchOnlyScores(customers: map<int, CustomerRow>, saves: seq<Save>, c: int)
    requires OwnersExist(customers, saves)
    requires c in customers
    ensures var r := ApplySaves(customers, saves)[c];
      r.deletedAt == customers[c].deletedAt
      && r.fields.(loyaltyScore := 0) == customers[c].fields.(loyaltyScore := 0)
    decreases |saves|
  {
    if saves != [] {
      var next := AfterTransactionSave(customers, saves[0].owner, saves[0].created);
      OwnersExistAfterFirst(customers, saves);
      SavesTouchOnlyScores(next, saves[1..], c);
    }
  }

  /** A customer for whom none of the saves is a creation keeps its row unchanged. */
  lemma {:induction false} OnlyOwnersChange(customers: map<int, CustomerRow>, saves: seq<Save>, c: int)
    requires OwnersExist(customers, saves)
    requires c in customers
    requires CreationsFor(saves, c) == 0
    ensures ApplySaves(customers, saves)[c] == customers[c]
    decreases |saves|
  {
    if saves != [] {
      var next := AfterTransactionSave(customers, saves[0].owner, saves[0].created);
      OwnersExistAfterFirst(customers, saves);
      OnlyOwnersChange(next, saves[1..], c);
    }
  }
}
