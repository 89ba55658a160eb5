/** Deleting a pool (routes.rs) from a state that `State::validate` accepts (state.rs). */
module Admin {
  import opened Text
  import opened Listeners

  const STATE_VERSION: nat := 1

  type Grants = seq<string>

  /** The users in key order, each with the pools it may reach. */
  type Users = seq<(string, Grants)>

  predicate HasPool(pools: Pools, name: string) { exists i :: 0 <= i < |pools| && pools[i].0 == name }

  predicate GoodUser(pools: Pools, user: (string, Grants)) {
    IsValidName(user.0) && user.1 != [] && forall k :: 0 <= k < |user.1| ==> HasPool(pools, user.1[k])
  }

  predicate GoodPool(ok: (string, Pool) -> bool, pool: (string, Pool)) { IsValidName(pool.0) && ok(pool.0, pool.1) }

  /** What the pooler relies on; `ok` is the check of one pool's own settings. */
  predicate ValidState(ok: (string, Pool) -> bool, version: nat, pools: Pools, users: Users) {
    && version <= 1 && Routable(pools)
    && (forall i :: 0 <= i < |pools| ==> GoodPool(ok, pools[i]))
    && (forall i :: 0 <= i < |users| ==> GoodUser(pools, users[i]))
  }

  // ---------- what deleting means ----------

  function Without(pools: Pools, name: string): Pools {
    if pools == [] then []
    else (if pools[0].0 == name then [] else [pools[0]]) + Without(pools[1..], name)
  }

  function Kept(grants: Grants, name: string): Grants {
    if grants == [] then [] else (if grants[0] == name then [] else [grants[0]]) + Kept(grants[1..], name)
  }

  function Revoked(users: Users, name: string): Users {
    if users == [] then []
    else
      var grants := Kept(users[0].1, name);
      (if grants == [] then [] else [(users[0].0, grants)]) + Revoked(users[1..], name)
  }

  // ---------- stored credentials ----------

  datatype SecretRef = SecretRef(kind: string, owner: string, field: string)

  type Secrets = map<SecretRef, string>

  /** `retain_owners`: entries of another kind stay, entries of this kind if their owner lives. */
  function RetainOwners(secrets: Secrets, kind: string, live: seq<string>): Secrets {
    map r | r in secrets && (r.kind != kind || r.owner in live) :: secrets[r]
  }

  function Key(pool: (string, Pool)): string { pool.0 }

  const POOL := "pool"

  class State {
    var version: nat
    var pools: Pools
    var users: Users
    var secrets: Secrets

    constructor (version: nat, pools: Pools, users: Users, secrets: Secrets)
      ensures this.version == version && this.pools == pools && this.users == users && this.secrets == secrets
    {
      this.version, this.pools, this.users, this.secrets := version, pools, users, secrets;
    }

    /** `validate` accepts exactly the valid states. */
    method Validate(ok: (string, Pool) -> bool) returns (error: Option<StateError>)
      ensures error.None? <==> ValidState(ok, version, pools, users)
    {
      hide Routable, IsValidName;
      if version > STATE_VERSION { return Some(UnsupportedVersion(version)); }
      error := ValidateListeners(pools);
      if error.Some? { return; }
      for i := 0 to |pools|
        invariant forall j :: 0 <= j < i ==> GoodPool(ok, pools[j])
      {
        if !IsValidName(pools[i].0) { return Some(BadPoolName(pools[i].0)); }
        if !ok(pools[i].0, pools[i].1) { return Some(BadPool(pools[i].0)); }
      }
      for i := 0 to |users|
        invariant forall j :: 0 <= j < i ==> GoodUser(pools, users[j])
      {
        var (name, grants) := users[i];
        if !IsValidName(name) { return Some(BadUserName(name)); }
        if grants == [] { return Some(NoGrants(name)); }
        for k := 0 to |grants|
          invariant forall l :: 0 <= l < k ==> HasPool(pools, grants[l])
        {
          if !HasPool(pools, grants[k]) { return Some(UnknownPoolGrant(name, grants[k])); }
        }
      }
      error := None;
    }

    /** The closure of `delete_pool`: the pool goes, its grants go, and so do the users left
        with none and the credentials left without a pool. */
    method DeletePool(name: string) returns (removed: bool)
      modifies this`pools, this`users, this`secrets
      ensures removed <==> HasPool(old(pools), name)
      ensures pools == Without(old(pools), name)
      ensures users == Revoked(old(users), name)
      ensures secrets == RetainOwners(old(secrets), "pool", Map(Key, pools))
    {
      removed := HasPool(pools, name);
      pools := Without(pools, name);
      var was := users;
      for i := 0 to |users|
        modifies this`users
        invariant |users| == |was|
        invariant forall j :: i <= j < |was| ==> users[j] == was[j]
        invariant forall j :: 0 <= j < i ==> users[j] == (was[j].0, Kept(was[j].1, name))
      {
        users := users[i := (users[i].0, Kept(users[i].1, name))];
      }
      RevokedIsNonEmpty(was, users, name);
      users := NonEmpty(users);
      secrets := RetainOwners(secrets, POOL, Map(Key, pools));
    }
  }

  /** `users.retain(|_, u| !u.pools.is_empty())`. */
  function NonEmpty(users: Users): Users {
    if users == [] then [] else (if users[0].1 == [] then [] else [users[0]]) + NonEmpty(users[1..])
  }

  lemma {:induction false} RevokedIsNonEmpty(was: Users, users: Users, name: string)
    requires |users| == |was| && forall j :: 0 <= j < |was| ==> users[j] == (was[j].0, Kept(was[j].1, name))
    ensures NonEmpty(users) == Revoked(was, name)
  {
    if was != [] { RevokedIsNonEmpty(was[1..], users[1..], name); }
  }

  // ---------- the rest of a user's grants, in order ----------

  /** Where the grants that stay were. */
  function Places(grants: Grants, name: string, from: nat): (r: seq<nat>)
    requires from <= |grants|
    ensures forall k :: 0 <= k < |r| ==> from <= r[k] < |grants| && grants[r[k]] != name
    ensures forall k, l :: 0 <= k < l < |r| ==> r[k] < r[l]
    ensures forall i :: from <= i < |grants| && grants[i] != name ==> i in r
    decreases |grants| - from
  {
    if from == |grants| then []
    else if grants[from] == name then Places(grants, name, from + 1)
    else [from] + Places(grants, name, from + 1)
  }

  lemma KeptStep(grants: Grants, name: string)
    ensures Kept(grants, name) ==
            if grants == [] then []
            else if grants[0] == name then Kept(grants[1..], name)
            else [grants[0]] + Kept(grants[1..], name)
  {}

  lemma {:induction false} KeptFrom(grants: Grants, name: string, from: nat)
    requires from <= |grants|
    ensures var p := Places(grants, name, from);
            && |Kept(grants[from..], name)| == |p|
            && forall k :: 0 <= k < |p| ==> Kept(grants[from..], name)[k] == grants[p[k]]
    decreases |grants| - from
  {
    hide Kept;
    KeptStep(grants[from..], name);
    if from < |grants| {
      KeptFrom(grants, name, from + 1);
      assert grants[from..][1..] == grants[from + 1..];
    }
  }

  /** What stays of a grant list is exactly its other entries, in their order. */
  lemma KeptInOrder(grants: Grants, name: string)
    ensures var p := Places(grants, name, 0);
            && |Kept(grants, name)| == |p|
            && (forall k :: 0 <= k < |p| ==> Kept(grants, name)[k] == grants[p[k]])
            && (forall i :: 0 <= i < |grants| ==> (i in p <==> grants[i] != name))
            && (forall k, l :: 0 <= k < l < |p| ==> p[k] < p[l])
  {
    KeptFrom(grants, name, 0);
    assert grants[0..] == grants;
  }

  lemma KeptMembers(grants: Grants, name: string)
    ensures forall g :: g in Kept(grants, name) <==> g in grants && g != name
    ensures Kept(grants, name) == [] <==> forall k :: 0 <= k < |grants| ==> grants[k] == name
  {
    KeptInOrder(grants, name);
    var p := Places(grants, name, 0);
    var kept := Kept(grants, name);
    forall i | 0 <= i < |grants| && grants[i] != name ensures grants[i] in kept {
      var k :| 0 <= k < |p| && p[k] == i;
      assert kept[k] == grants[i];
    }
  }

  lemma {:induction false} KeptAll(grants: Grants, name: string)
    requires name !in grants
    ensures Kept(grants, name) == grants
  {
    if grants != [] { KeptAll(grants[1..], name); }
  }

  // ---------- users ----------

  /** A user survives exactly when it had another grant, and then keeps exactly those. */
  lemma {:induction false} RevokedMembers(users: Users, name: string, user: string, grants: Grants)
    ensures (user, grants) in Revoked(users, name) <==>
            grants != [] && exists i :: 0 <= i < |users| && users[i].0 == user && Kept(users[i].1, name) == grants
  {
    hide Kept;
    if users != [] {
      RevokedMembers(users[1..], name, user, grants);
      if i :| 0 <= i < |users| && users[i].0 == user && Kept(users[i].1, name) == grants {
        if i > 0 { assert users[1..][i - 1] == users[i]; }
      }
      if i :| 0 <= i < |users[1..]| && users[1..][i].0 == user && Kept(users[1..][i].1, name) == grants {
        assert users[i + 1] == users[1..][i];
      }
    }
  }

  predicate DistinctUsers(users: Users) { forall i, j :: 0 <= i < j < |users| ==> users[i].0 != users[j].0 }

  /** The users removed are exactly those whose only grants were the pool. */
  lemma RemovedUsers(users: Users, name: string, i: nat)
    requires DistinctUsers(users) && i < |users|
    ensures (exists g :: (users[i].0, g) in Revoked(users, name)) <==> exists k :: 0 <= k < |users[i].1| && users[i].1[k] != name
  {
    hide Kept, Revoked;
    var user := users[i].0;
    KeptMembers(users[i].1, name);
    RevokedMembers(users, name, user, Kept(users[i].1, name));
    if g :| (user, g) in Revoked(users, name) { RevokedMembers(users, name, user, g); }
  }

  // ---------- pools ----------

  lemma {:induction false} WithoutMembers(pools: Pools, name: string, p: (string, Pool))
    ensures p in Without(pools, name) <==> p in pools && p.0 != name
  {
    if pools != [] { WithoutMembers(pools[1..], name, p); }
  }

  lemma {:induction false} WithoutAll(pools: Pools, name: string)
    requires !HasPool(pools, name)
    ensures Without(pools, name) == pools
  {
    if pools != [] {
      assert forall i :: 0 <= i < |pools[1..]| ==> pools[1..][i] == pools[i + 1];
      WithoutAll(pools[1..], name);
    }
  }

  lemma {:induction false} WithoutKeepsOrder(pools: Pools, name: string)
    requires KeyOrder(pools)
    ensures KeyOrder(Without(pools, name))
  {
    hide StrLt;
    if pools != [] {
      var rest := Without(pools[1..], name);
      WithoutKeepsOrder(pools[1..], name);
      forall j | 0 <= j < |rest| ensures StrLt(pools[0].0, rest[j].0) {
        WithoutMembers(pools[1..], name, rest[j]);
        var i :| 0 <= i < |pools[1..]| && pools[1..][i] == rest[j];
        assert pools[i + 1] == rest[j];
      }
    }
  }

  lemma {:induction false} ClaimsWithin(pools: Pools, name: string, c: Claim)
    requires c in Claims(Without(pools, name))
    ensures c in Claims(pools)
  {
    if pools != [] {
      ClaimsSplit(pools, name);
      if c in Claims(Without(pools[1..], name)) { ClaimsWithin(pools[1..], name, c); }
    }
  }

  lemma ClaimsSplit(pools: Pools, name: string)
    requires pools != []
    ensures Claims(Without(pools, name)) ==
            (if pools[0].0 == name then [] else PoolClaims(pools[0].0, pools[0].1)) + Claims(Without(pools[1..], name))
  {
    var rest := Without(pools[1..], name);
    if pools[0].0 == name {
      assert Without(pools, name) == rest;
    } else {
      assert ([pools[0]] + rest)[1..] == rest;
    }
  }

  lemma {:induction false} WithoutKeepsClaims(pools: Pools, name: string)
    requires NoTwoClaims(Claims(pools))
    ensures NoTwoClaims(Claims(Without(pools, name)))
  {
    hide Claims, Without;
    ClaimsStep(pools);
    if pools == [] {
      assert Without(pools, name) == [] by { WithoutAll(pools, name); }
    } else {
      var head, tail := PoolClaims(pools[0].0, pools[0].1), Claims(pools[1..]);
      var all, rest := Claims(pools), Claims(Without(pools[1..], name));
      assert all == head + tail;
      assert forall i :: 0 <= i < |tail| ==> all[|head| + i] == tail[i];
      WithoutKeepsClaims(pools[1..], name);
      ClaimsSplit(pools, name);
      forall i, j | 0 <= i < |head| && 0 <= j < |rest| ensures !SameName(head[i], rest[j]) {
        ClaimsWithin(pools[1..], name, rest[j]);
        var k :| 0 <= k < |tail| && tail[k] == rest[j];
        assert !SameName(all[i], all[|head| + k]);
      }
      forall i, j | 0 <= i < j < |head| ensures !SameName(head[i], head[j]) {
        assert all[i] == head[i] && all[j] == head[j];
      }
    }
  }

  lemma WithoutFrom(pools: Pools, name: string)
    ensures forall i :: 0 <= i < |Without(pools, name)| ==> Without(pools, name)[i] in pools
  {
    forall i | 0 <= i < |Without(pools, name)| ensures Without(pools, name)[i] in pools {
      WithoutMembers(pools, name, Without(pools, name)[i]);
    }
  }

  lemma WithoutKeepsRoutable(pools: Pools, name: string)
    requires Routable(pools)
    ensures Routable(Without(pools, name))
  {
    hide Without, Claims, IsValidName;
    var left := Without(pools, name);
    WithoutFrom(pools, name);
    WithoutKeepsClaims(pools, name);
    forall i | 0 <= i < |Claims(left)| ensures GoodClaim(left, Claims(left)[i]) {
      ClaimsWithin(pools, name, Claims(left)[i]);
    }
  }

  /** Deleting a pool, or a name that is no pool, never leaves a state the store would refuse,
      and keeps the pools in key order. */
  lemma DeleteKeepsValid(ok: (string, Pool) -> bool, version: nat, pools: Pools, users: Users, name: string)
    requires ValidState(ok, version, pools, users)
    ensures ValidState(ok, version, Without(pools, name), Revoked(users, name))
    ensures KeyOrder(pools) ==> KeyOrder(Without(pools, name))
  {
    hide Without, Revoked, Kept, Routable, IsValidName, StrLt;
    if KeyOrder(pools) { WithoutKeepsOrder(pools, name); }
    var left := Without(pools, name);
    WithoutKeepsRoutable(pools, name);
    WithoutFrom(pools, name);
    forall u | u in Revoked(users, name) ensures GoodUser(left, u) {
      RevokedMembers(users, name, u.0, u.1);
      var i :| 0 <= i < |users| && users[i].0 == u.0 && Kept(users[i].1, name) == u.1;
      KeptMembers(users[i].1, name);
      forall k | 0 <= k < |u.1| ensures HasPool(left, u.1[k]) {
        assert u.1[k] in users[i].1 && u.1[k] != name;
        var j :| 0 <= j < |pools| && pools[j].0 == u.1[k];
        WithoutMembers(pools, name, pools[j]);
      }
    }
  }

  /** The "not found" answer has changed nothing. */
  lemma NothingToDelete(pools: Pools, users: Users, name: string)
    requires !HasPool(pools, name) && forall i :: 0 <= i < |users| ==> GoodUser(pools, users[i])
    ensures Without(pools, name) == pools && Revoked(users, name) == users
  {
    WithoutAll(pools, name);
    RevokedNone(users, name, pools);
  }

  lemma {:induction false} RevokedNone(users: Users, name: string, pools: Pools)
    requires !HasPool(pools, name) && forall i :: 0 <= i < |users| ==> GoodUser(pools, users[i])
    ensures Revoked(users, name) == users
  {
    hide IsValidName;
    if users != [] {
      assert forall k :: 0 <= k < |users[0].1| ==> HasPool(pools, users[0].1[k]);
      KeptAll(users[0].1, name);
      RevokedNone(users[1..], name, pools);
    }
  }

  // ---------- credentials ----------

  /** Every pool credential belongs to a pool. */
  predicate AllOwned(secrets: Secrets, pools: Pools) {
    forall r :: r in secrets && r.kind == "pool" ==> HasPool(pools, r.owner)
  }

  /** From a state without orphans exactly the credentials of the deleted pool go, whatever
      other kinds there are, and no orphan is left. */
  lemma CredentialsGoWithThePool(secrets: Secrets, pools: Pools, name: string)
    requires AllOwned(secrets, pools)
    ensures var left := Without(pools, name);
            var after := RetainOwners(secrets, "pool", Map(Key, left));
            && AllOwned(after, left)
            && (forall r :: r in after <==> r in secrets && !(r.kind == "pool" && r.owner == name))
            && (forall r :: r in after ==> after[r] == secrets[r])
  {
    hide Without;
    var left := Without(pools, name);
    forall owner ensures owner in Map(Key, left) <==> HasPool(pools, owner) && owner != name {
      if HasPool(pools, owner) && owner != name {
        var i :| 0 <= i < |pools| && pools[i].0 == owner;
        WithoutMembers(pools, name, pools[i]);
        var j :| 0 <= j < |left| && left[j] == pools[i];
        assert Map(Key, left)[j] == owner;
      }
      if owner in Map(Key, left) {
        var j :| 0 <= j < |left| && Map(Key, left)[j] == owner;
        WithoutMembers(pools, name, left[j]);
      }
    }
    forall owner ensures owner in Map(Key, left) ==> HasPool(left, owner) {}
  }
}
