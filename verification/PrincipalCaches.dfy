/** The principal cache: role sets under (user, epoch), in bounded shards that expire and evict. */
module PrincipalCaches {
  import opened Types
  import opened Roles

  const PRINCIPAL_SHARDS: nat := 16
  const ENTRIES_PER_SHARD: nat := 512

  datatype AuthzKey = AuthzKey(user: User, epoch: nat)

  /** `authz` is None for a negative entry: the user has no row. */
  datatype Entry = Entry(authz: Option<Authz>, expires: int)

  /** What the three reads came back with. */
  datatype Fetch = Rows(authz: Authz) | NoRows | Failed

  type Contents = map<AuthzKey, Entry>

  function Unexpired(m: Contents, now: int): Contents {
    map k | k in m && now <= m[k].expires :: m[k]
  }

  /** `n` holds nothing but entries of `m`. */
  predicate Within(n: Contents, m: Contents) {
    forall k :: k in n ==> k in m && n[k] == m[k]
  }

  lemma FewerKeys(n: Contents, m: Contents)
    requires Within(n, m)
    ensures |n| <= |m| && (|n| == |m| ==> n == m)
  {
    assert n.Keys <= m.Keys;
    assert m.Keys == n.Keys + (m.Keys - n.Keys);
    assert |m.Keys| == |n.Keys| + |m.Keys - n.Keys|;
    if |n| == |m| {
      assert m.Keys - n.Keys == {};
      assert n.Keys == m.Keys;
    }
  }

  class PrincipalShard {
    var m: Contents

    ghost predicate Valid()
      reads this
    {
      |m| <= ENTRIES_PER_SHARD
    }

    constructor ()
      ensures Valid() && m == map[]
    {
      m := map[];
    }

    /** A hit is an entry that has not expired; an expired one is dropped and missed. */
    method Get(key: AuthzKey, now: int) returns (hit: Option<Option<Authz>>)
      requires Valid()
      modifies this
      ensures Valid() && Within(m, old(m))
      ensures hit == if key in old(m) && now <= old(m)[key].expires then Some(old(m)[key].authz) else None
      ensures hit.Some? ==> m == old(m)
      ensures hit.None? ==> key !in m && m == old(m) - {key}
    {
      if key !in m {
        return None;
      }
      var entry := m[key];
      if now > entry.expires {
        FewerKeys(m - {key}, m);
        m := m - {key};
        return None;
      }
      hit := Some(entry.authz);
    }

    /** Expired entries go first; live ones only while the shard is still full. */
    method EvictLocked(now: int)
      modifies this
      ensures Within(m, old(m)) && |m| < ENTRIES_PER_SHARD
      ensures |Unexpired(old(m), now)| < ENTRIES_PER_SHARD ==> m == Unexpired(old(m), now)
      ensures Within(m, Unexpired(old(m), now))
    {
      DropExpired(now);
      while |m| >= ENTRIES_PER_SHARD
        invariant Within(m, Unexpired(old(m), now))
        invariant |Unexpired(old(m), now)| < ENTRIES_PER_SHARD ==> m == Unexpired(old(m), now)
        decreases |m|
      {
        assert m.Keys != {};
        var key :| key in m.Keys;
        FewerKeys(m - {key}, m);
        m := m - {key};
      }
    }

    /** The first loop: every entry is visited, in any order. */
    method DropExpired(now: int)
      modifies this
      ensures m == Unexpired(old(m), now)
    {
      var rest := m.Keys;
      while rest != {}
        invariant rest <= old(m).Keys && rest <= m.Keys
        invariant forall k :: k in m <==> k in old(m) && (k in rest || now <= old(m)[k].expires)
        invariant forall k :: k in m ==> m[k] == old(m)[k]
      {
        var key :| key in rest;
        if now > m[key].expires {
          m := m - {key};
        }
        rest := rest - {key};
      }
    }

    /** The entry is in afterwards, the shard is within its bound, and nothing else is new. */
    method Put(key: AuthzKey, authz: Option<Authz>, now: int, ttl: int)
      requires Valid()
      modifies this
      ensures Valid() && key in m && m[key] == Entry(authz, now + ttl)
      ensures Within(m - {key}, old(m))
      ensures |old(m)| < ENTRIES_PER_SHARD ==> m == old(m)[key := Entry(authz, now + ttl)]
    {
      if |m| >= ENTRIES_PER_SHARD {
        EvictLocked(now);
      }
      m := m[key := Entry(authz, now + ttl)];
    }
  }

  /** Any fixed function from keys to shards. */
  type Hash = AuthzKey -> nat

  class PrincipalCache {
    const hash: Hash
    const shards: seq<PrincipalShard>
    const ttl: int

    ghost predicate Valid()
      reads this, shards
    {
      && |shards| == PRINCIPAL_SHARDS
      && (forall i, j :: 0 <= i < j < PRINCIPAL_SHARDS ==> shards[i] != shards[j])
      && (forall i :: 0 <= i < PRINCIPAL_SHARDS ==> shards[i].Valid())
    }

    constructor (h: Hash, horizon: int)
      ensures Valid() && fresh(shards) && hash == h && ttl == horizon
      ensures forall i :: 0 <= i < PRINCIPAL_SHARDS ==> shards[i].m == map[]
    {
      var built: seq<PrincipalShard> := [];
      while |built| < PRINCIPAL_SHARDS
        invariant |built| <= PRINCIPAL_SHARDS && fresh(built)
        invariant forall i, j :: 0 <= i < j < |built| ==> built[i] != built[j]
        invariant forall i :: 0 <= i < |built| ==> built[i].Valid() && built[i].m == map[]
      {
        var s := new PrincipalShard();
        built := built + [s];
      }
      hash, shards, ttl := h, built, horizon;
    }

    function Shard(key: AuthzKey): (i: nat)
      ensures i < PRINCIPAL_SHARDS
    {
      hash(key) % PRINCIPAL_SHARDS
    }

    /**
     load: an unexpired entry answers; a miss answers with what the reads return and caches
     it, the absence of the user included; a failed read caches nothing.
     */
    method Load(key: AuthzKey, now: int, fetched: Fetch) returns (authz: Option<Authz>, failed: bool)
      requires Valid()
      modifies shards[Shard(key)]
      ensures Valid()
      ensures var was, after := old(shards[Shard(key)].m), shards[Shard(key)].m;
              if key in was && now <= was[key].expires then !failed && authz == was[key].authz && after == was
              else
                && failed == fetched.Failed?
                && (fetched.Rows? ==> authz == Some(fetched.authz)) && (!fetched.Rows? ==> authz.None?)
                && Within(after - {key}, was)
                && (if failed then key !in after else key in after && after[key] == Entry(authz, now + ttl))
    {
      var shard := shards[Shard(key)];
      var hit := shard.Get(key, now);
      if hit.Some? {
        return hit.value, false;
      }
      match fetched
      case Rows(a) =>
        shard.Put(key, Some(a), now, ttl);
        return Some(a), false;
      case NoRows =>
        shard.Put(key, None, now, ttl);
        return None, false;
      case Failed =>
        return None, true;
    }
  }
}
