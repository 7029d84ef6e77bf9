// The Postgres tables and Redis keys the use cases write, as objects with the
// commands' own semantics (internal/adapter/repository/postgres,
// internal/adapter/idempotency/redis/store.go, internal/adapter/queue/redis/dlq.go).

module Stores {
  import opened Domain
  import opened UseCases
  import opened Lifecycle

  // ---- the notifications table ----

  // An update touches no key, so the unique index stays right.
  lemma KeysKept(rows: map<Id, Notification>, index: map<Key, Id>, id: Id, s: Status, lastError: Option<string>,
                 providerId: Option<string>, attempts: nat)
    requires Indexed(rows, index)
    ensures Indexed(UpdatedRows(rows, id, s, lastError, providerId, attempts), index)
  {
  }

  class NotificationRepo {
    var rows: map<Id, Notification>
    var index: map<Key, Id>

    ghost predicate Valid()
      reads this
    {
      Indexed(rows, index)
    }

    constructor ()
      ensures Valid() && rows == map[] && index == map[]
    {
      rows := map[];
      index := map[];
    }

    // The primary key and the unique index on the idempotency key both refuse duplicates.
    method Create(id: Id, n: Notification) returns (r: Outcome<()>)
      requires Valid()
      modifies this
      ensures Valid()
      ensures r == Err(Duplicate) <==>
              id in old(rows) || (n.key.Some? && exists i :: i in old(rows) && old(rows)[i].key == n.key)
      ensures r.Err? <==> id in old(rows) || (n.key.Some? && n.key.value in old(index))
      ensures r.Err? ==> r.error == Duplicate && rows == old(rows) && index == old(index)
      ensures r.Ok? ==> rows == old(rows)[id := n]
      ensures r.Ok? ==> index == if n.key.Some? then old(index)[n.key.value := id] else old(index)
    {
      if id in rows || (n.key.Some? && n.key.value in index) {
        return Err(Duplicate);
      }
      rows := rows[id := n];
      if n.key.Some? {
        index := index[n.key.value := id];
      }
      return Ok(());
    }

    method Get(id: Id) returns (r: Outcome<Notification>)
      ensures r == if id in rows then Ok(rows[id]) else Err(NotFound)
    {
      return if id in rows then Ok(rows[id]) else Err(NotFound);
    }

    // The one row with the key, if there is one.
    method GetByIdempotencyKey(key: Key) returns (r: Outcome<(Id, Notification)>)
      requires Valid()
      ensures r.Ok? ==> r.value.0 in rows && rows[r.value.0] == r.value.1 && r.value.1.key == Some(key)
      ensures r.Ok? ==> forall id :: id in rows && rows[id].key == Some(key) ==> id == r.value.0
      ensures r.Ok? <==> key in index
      ensures r.Ok? ==> r.value.0 == index[key]
      ensures r.Err? ==> r.error == NotFound && forall id :: id in rows ==> rows[id].key != Some(key)
    {
      return if key in index then Ok((index[key], rows[index[key]])) else Err(NotFound);
    }

    // The provider id is kept unless a new one is given; a missing row is no error.
    method UpdateStatus(id: Id, s: Status, lastError: Option<string>, providerId: Option<string>, attempts: nat)
      requires Valid()
      modifies this
      ensures Valid() && index == old(index)
      ensures rows == UpdatedRows(old(rows), id, s, lastError, providerId, attempts)
      ensures id !in old(rows) ==> rows == old(rows)
      ensures id in old(rows) ==>
                rows == old(rows)[id := old(rows)[id].(
                  status := s, lastError := lastError, attempts := attempts,
                  providerId := if providerId.Some? then providerId else old(rows)[id].providerId)]
    {
      hide Indexed;
      KeysKept(rows, index, id, s, lastError, providerId, attempts);
      if id in rows {
        var n := rows[id].(status := s, lastError := lastError, attempts := attempts);
        rows := rows[id := if providerId.Some? then n.(providerId := providerId) else n];
      }
    }
  }

  // ---- idempotency leases ----

  class IdempotencyStore {
    const ttl: int
    var keys: map<Key, Lease>

    constructor (ttl: int)
      ensures this.ttl == ttl && keys == map[]
    {
      this.ttl := ttl;
      keys := map[];
    }

    // Sets the key if it is absent, and otherwise reads it at a later instant, by
    // which it may have expired: that is an error, and never a second claim.
    method Remember(key: Key, id: Id, now: int, later: int) returns (r: Outcome<Option<Id>>)
      requires now <= later
      modifies this
      ensures r == Ok(None) <==> LeaseAt(old(keys), key, now).None?
      ensures r == Ok(None) ==> keys == old(keys)[key := Lease(id, now + ttl)]
      ensures r != Ok(None) ==> keys == old(keys)
      ensures r.Ok? && r.value.Some? ==> r.value == LeaseAt(old(keys), key, now) == LeaseAt(old(keys), key, later)
      ensures r.Err? <==> LeaseAt(old(keys), key, now).Some? && LeaseAt(old(keys), key, later).None?
    {
      if LeaseAt(keys, key, now).None? {
        keys := keys[key := Lease(id, now + ttl)];
        return Ok(None);
      }
      var existing := LeaseAt(keys, key, later);
      return if existing.Some? then Ok(existing) else Err(NotFound);
    }
  }

  // ---- the dead-letter list ----

  class DeadLetters {
    var list: seq<DeadLetter>

    constructor ()
      ensures list == []
    {
      list := [];
    }

    method Push(id: Id, reason: string)
      modifies this
      ensures list == [DeadLetter(id, reason)] + old(list)
    {
      list := [DeadLetter(id, reason)] + list;
    }

    method Size() returns (n: nat)
      ensures n == |list|
    {
      n := |list|;
    }
  }
}
