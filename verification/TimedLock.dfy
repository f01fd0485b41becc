// The bus's time-bounded lock (crates/catalerum-bus/src/lock.rs, in-process backend).
// A grant is a random token with an expiry; only its holder can refresh or release it.

module TimedLock {
  import opened Collections

  /** Tokens are random in the source; here each grant draws the next unused number. */
  datatype Held = Held(token: nat, expiresAt: int)
  datatype Guard<K> = Guard(resource: K, token: nat)

  /** Locks by resource name, or by whatever names a resource one to one. */
  type Table<K> = map<K, Held>

  /** Acquirable: never taken, or its time is up. */
  predicate Free<K>(t: Table<K>, resource: K, now: int) {
    resource !in t || t[resource].expiresAt <= now
  }

  predicate Owns<K>(t: Table<K>, g: Guard<K>) {
    g.resource in t && t[g.resource].token == g.token
  }

  function Acquired<K>(t: Table<K>, resource: K, token: nat, ttl: nat, now: int): Table<K> {
    if Free(t, resource, now) then t[resource := Held(token, now + ttl)] else t
  }

  function Released<K>(t: Table<K>, g: Guard<K>): Table<K> {
    if Owns(t, g) then t - {g.resource} else t
  }

  /** There is no expiry test here: an expired lease nobody retook is revived. The Valkey
      backend deletes expired keys by itself, which is `Purged` before the refresh. */
  function Refreshed<K>(t: Table<K>, g: Guard<K>, ttl: nat, now: int): Table<K> {
    if Owns(t, g) then t[g.resource := Held(g.token, now + ttl)] else t
  }

  function Purged<K>(t: Table<K>, resource: K, now: int): Table<K> {
    if Free(t, resource, now) then t - {resource} else t
  }

  class InProcessLock {
    var locks: Table<string>
    var nextToken: nat

    constructor ()
      ensures locks == map[] && nextToken == 0
    {
      locks, nextToken := map[], 0;
    }

    /** Every token in the table was drawn earlier. */
    ghost predicate Valid()
      reads this
    {
      forall r :: r in locks ==> locks[r].token < nextToken
    }

    method TryAcquire(resource: string, ttl: nat, now: int) returns (guard: Option<Guard<string>>)
      requires Valid()
      modifies this
      ensures Valid()
      ensures guard.Some? <==> Free(old(locks), resource, now)
      ensures guard.Some? ==> guard.value == Guard(resource, old(nextToken)) && nextToken == old(nextToken) + 1
      ensures guard.None? ==> nextToken == old(nextToken)
      ensures locks == Acquired(old(locks), resource, old(nextToken), ttl, now)
      ensures guard.Some? ==>
        && Owns(locks, guard.value)
        && forall r :: r in old(locks) ==> !Owns(old(locks), Guard(r, guard.value.token))
    {
      if resource in locks {
        var held := locks[resource];
        if held.expiresAt > now {
          return None;
        }
      }
      var token := nextToken;
      nextToken := nextToken + 1;
      locks := locks[resource := Held(token, now + ttl)];
      return Some(Guard(resource, token));
    }

    method Release(guard: Guard<string>) returns (ok: bool)
      requires Valid()
      modifies this`locks
      ensures Valid() && ok == Owns(old(locks), guard)
      ensures locks == Released(old(locks), guard)
    {
      if guard.resource in locks && locks[guard.resource].token == guard.token {
        locks := locks - {guard.resource};
        return true;
      }
      return false;
    }

    method Refresh(guard: Guard<string>, ttl: nat, now: int) returns (ok: bool)
      requires Valid()
      modifies this`locks
      ensures Valid() && ok == Owns(old(locks), guard)
      ensures locks == Refreshed(old(locks), guard, ttl, now)
    {
      if guard.resource in locks && locks[guard.resource].token == guard.token {
        locks := locks[guard.resource := Held(guard.token, now + ttl)];
        return true;
      }
      return false;
    }
  }

  /** Between its grant and its expiry a resource is taken away only by its own guard:
      a call naming another resource or another token leaves the grant in place. */
  lemma GrantStands<K>(t: Table<K>, resource: K, now: int, g: Guard<K>, other: K, token: nat, ttl: nat)
    requires !Free(t, resource, now)
    requires g != Guard(resource, t[resource].token)
    ensures Released(t, g).Keys >= {resource} && Released(t, g)[resource] == t[resource]
    ensures resource in Refreshed(t, g, ttl, now) && Refreshed(t, g, ttl, now)[resource] == t[resource]
    ensures var after := Acquired(t, other, token, ttl, now);
      resource in after && after[resource] == t[resource]
    ensures resource in Purged(t, other, now) && Purged(t, other, now)[resource] == t[resource]
  {
  }

  /** The in-process backend revives an expired lease nobody retook, for its holder alone; where the
      expired key was deleted first, as Valkey does by itself, nothing is revived. */
  lemma RefreshRevivesIff<K>(t: Table<K>, g: Guard<K>, ttl: nat, now: int)
    requires Free(t, g.resource, now) && ttl > 0
    ensures !Free(Refreshed(t, g, ttl, now), g.resource, now) <==> Owns(t, g)
    ensures Refreshed(Purged(t, g.resource, now), g, ttl, now) == Purged(t, g.resource, now)
  {
    assert g.resource !in Purged(t, g.resource, now);
  }

  /** What others see of the operations: a free resource that is acquired is not free until the time is
      up, a release by its owner frees it, a refresh by its owner keeps it for as long again, and an
      attempt by anybody else changes nothing. No other resource is touched. */
  lemma WhatOthersSee<K>(t: Table<K>, g: Guard<K>, ttl: nat, now: int, later: int)
    ensures Free(Acquired(t, g.resource, g.token, ttl, now), g.resource, later) <==>
            if Free(t, g.resource, now) then now + ttl <= later else Free(t, g.resource, later)
    ensures Owns(Acquired(t, g.resource, g.token, ttl, now), g) <==> Free(t, g.resource, now) || Owns(t, g)
    ensures Free(Released(t, g), g.resource, later) <==> Owns(t, g) || Free(t, g.resource, later)
    ensures Free(Refreshed(t, g, ttl, now), g.resource, later) <==>
            if Owns(t, g) then now + ttl <= later else Free(t, g.resource, later)
    ensures Owns(Refreshed(t, g, ttl, now), g) <==> Owns(t, g)
    ensures forall r :: r != g.resource ==>
      && (Free(Acquired(t, g.resource, g.token, ttl, now), r, later) <==> Free(t, r, later))
      && (Free(Released(t, g), r, later) <==> Free(t, r, later))
      && (Free(Refreshed(t, g, ttl, now), r, later) <==> Free(t, r, later))
  {
  }
}
