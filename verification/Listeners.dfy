/** The routing table (state.rs, family.rs): when a configuration is accepted, and what its
    listeners then promise every client. */
module Listeners {
  import opened Text

  /** A pool's routing fields; `settings` stands for everything else it is configured with. */
  datatype Pool = Pool(port: nat, family: string, aliases: seq<string>, disabled: bool, settings: string)

  /** The pools of a state in key order, as a `BTreeMap` yields them. */
  type Pools = seq<(string, Pool)>

  predicate KeyOrder(pools: Pools) { forall i, j :: 0 <= i < j < |pools| ==> StrLt(pools[i].0, pools[j].0) }

  datatype StateError =
    | ZeroListenPort(pool: string)
    | MixedFamiliesOnPort(first: string, second: string)
    | BadAliasName(pool: string, alias: string)
    | AliasIsOwnPool(pool: string, alias: string)
    | RoutableNameCollides(name: string, first: string, second: string)
    | UnsupportedVersion(found: nat)
    | BadPoolName(pool: string)
    | BadPool(pool: string)
    | BadUserName(user: string)
    | NoGrants(user: string)
    | UnknownPoolGrant(user: string, pool: string)

  predicate NameChar(c: char) { IsAlnum(c) || c == '_' || c == '-' }

  predicate IsValidName(name: string) {
    0 < |name| <= 63 && (forall i :: 0 <= i < |name| ==> NameChar(name[i])) && IsAlnum(name[0])
  }

  const LETTERS := "abcdefghijklm" + "nopqrstuvwxyz" + "ABCDEFGHIJKLM" + "NOPQRSTUVWXYZ" + "0123456789"

  lemma LettersAre(c: char)
    ensures IsAlnum(c) <==> c in LETTERS
  {
    LowerAre(c);
    UpperAre(c);
    assert IsDigit(c) <==> c in "0123456789";
    assert c in LETTERS <==> c in "abcdefghijklm" || c in "nopqrstuvwxyz" || c in "ABCDEFGHIJKLM" || c in "NOPQRSTUVWXYZ" || c in "0123456789";
  }

  lemma LowerAre(c: char)
    ensures 'a' <= c <= 'm' <==> c in "abcdefghijklm"
    ensures 'n' <= c <= 'z' <==> c in "nopqrstuvwxyz"
  {}

  lemma UpperAre(c: char)
    ensures 'A' <= c <= 'M' <==> c in "ABCDEFGHIJKLM"
    ensures 'N' <= c <= 'Z' <==> c in "NOPQRSTUVWXYZ"
  {}

  /** A name has at most 63 characters, all of them letters, digits, `-` or `_`, and begins with a
      letter or a digit. */
  lemma ValidNameIff(name: string)
    ensures IsValidName(name) <==>
            name != "" && |name| < 64 && name[0] in LETTERS && forall c :: c in name ==> c in LETTERS + "-_"
  {
    forall c ensures NameChar(c) <==> c in LETTERS + "-_" { LettersAre(c); }
    if name != "" { LettersAre(name[0]); }
    assert (forall i :: 0 <= i < |name| ==> NameChar(name[i])) <==> (forall c :: c in name ==> NameChar(c));
  }

  // ---------- what a good configuration is ----------

  predicate OneFamilyPerPort(pools: Pools) {
    forall i, j :: 0 <= i < |pools| && 0 <= j < |pools| && pools[i].1.port == pools[j].1.port ==>
      pools[i].1.family == pools[j].1.family
  }

  predicate PortsAreReal(pools: Pools) { forall i :: 0 <= i < |pools| ==> pools[i].1.port != 0 }

  /** An alias as it occurs: the pool's port, the alias, the pool's name. */
  datatype Claim = Claim(port: nat, alias: string, pool: string)

  function PoolClaims(name: string, pool: Pool): (r: seq<Claim>)
    ensures |r| == |pool.aliases|
    ensures forall k :: 0 <= k < |r| ==> r[k] == Claim(pool.port, pool.aliases[k], name)
  {
    seq(|pool.aliases|, k requires 0 <= k < |pool.aliases| => Claim(pool.port, pool.aliases[k], name))
  }

  function Claims(pools: Pools): seq<Claim> {
    if pools == [] then [] else PoolClaims(pools[0].0, pools[0].1) + Claims(pools[1..])
  }

  predicate IsPool(pools: Pools, port: nat, name: string) {
    exists i :: 0 <= i < |pools| && pools[i].0 == name && pools[i].1.port == port
  }

  /** The claim is well formed and shadows no pool of its port. */
  predicate GoodClaim(pools: Pools, c: Claim) {
    IsValidName(c.alias) && c.alias != c.pool && !IsPool(pools, c.port, c.alias)
  }

  predicate SameName(a: Claim, b: Claim) { a.port == b.port && a.alias == b.alias }

  predicate NoTwoClaims(claims: seq<Claim>) {
    forall i, j :: 0 <= i < j < |claims| ==> !SameName(claims[i], claims[j])
  }

  predicate GoodClaims(pools: Pools, claims: seq<Claim>) {
    (forall i :: 0 <= i < |claims| ==> GoodClaim(pools, claims[i])) && NoTwoClaims(claims)
  }

  /** Every port is real and speaks one protocol, and no two things on a port answer to one
      name. */
  predicate Routable(pools: Pools) {
    PortsAreReal(pools) && OneFamilyPerPort(pools) && GoodClaims(pools, Claims(pools))
  }

  // ---------- validate_listeners ----------

  /** The first loop: ports, families, and the pool names as routable strings. */
  method CheckPorts(pools: Pools) returns (error: Option<StateError>, routable: map<(nat, string), string>)
    ensures error.None? <==> PortsAreReal(pools) && OneFamilyPerPort(pools)
    ensures error.None? ==> forall port: nat, name: string :: (port, name) in routable <==> IsPool(pools, port, name)
  {
    var ports: map<nat, (string, string)> := map[];
    routable := map[];
    for i := 0 to |pools|
      invariant forall j :: 0 <= j < i ==> pools[j].1.port != 0 && pools[j].1.port in ports
      invariant forall j :: 0 <= j < i ==> ports[pools[j].1.port].1 == pools[j].1.family
      invariant forall p :: p in ports ==> exists j :: 0 <= j < i && pools[j].1.port == p
      invariant forall port: nat, name: string :: (port, name) in routable <==>
                  exists j :: 0 <= j < i && pools[j].0 == name && pools[j].1.port == port
    {
      var (name, pool) := pools[i];
      if pool.port == 0 {
        return Some(ZeroListenPort(name)), routable;
      }
      if pool.port !in ports {
        ports := ports[pool.port := (name, pool.family)];
      }
      var (first, family) := ports[pool.port];
      if family != pool.family {
        var j :| 0 <= j <= i && pools[j].1.port == pool.port && pools[j].1.family == family;
        return Some(MixedFamiliesOnPort(first, name)), routable;
      }
      routable := routable[(pool.port, name) := name];
    }
    error := None;
  }

  /** The second loop over one pool's aliases: each must be new on the port. */
  method CheckAliases(name: string, pool: Pool, before: map<(nat, string), string>)
    returns (error: Option<StateError>, routable: map<(nat, string), string>)
    ensures error.None? <==>
              forall k :: 0 <= k < |pool.aliases| ==>
                && IsValidName(pool.aliases[k]) && pool.aliases[k] != name
                && (pool.port, pool.aliases[k]) !in before
                && forall l :: 0 <= l < k ==> pool.aliases[l] != pool.aliases[k]
    ensures error.None? ==>
              forall port: nat, n: string :: (port, n) in routable <==> (port, n) in before || (port == pool.port && n in pool.aliases)
  {
    routable := before;
    for k := 0 to |pool.aliases|
      invariant forall port: nat, n: string :: (port, n) in routable <==>
                  (port, n) in before || (port == pool.port && n in pool.aliases[..k])
      invariant forall m :: 0 <= m < k ==>
                  && IsValidName(pool.aliases[m]) && pool.aliases[m] != name
                  && (pool.port, pool.aliases[m]) !in before
                  && forall l :: 0 <= l < m ==> pool.aliases[l] != pool.aliases[m]
    {
      var alias := pool.aliases[k];
      if !IsValidName(alias) { return Some(BadAliasName(name, alias)), routable; }
      if alias == name { return Some(AliasIsOwnPool(name, alias)), routable; }
      if (pool.port, alias) in routable {
        if (pool.port, alias) !in before {
          assert alias in pool.aliases[..k];
          var l :| 0 <= l < k && pool.aliases[l] == alias;
        }
        return Some(RoutableNameCollides(alias, routable[(pool.port, alias)], name)), routable;
      }
      routable := routable[(pool.port, alias) := name];
      assert pool.aliases[..k + 1] == pool.aliases[..k] + [alias];
    }
    assert pool.aliases[..|pool.aliases|] == pool.aliases;
    error := None;
  }

  lemma {:induction false} ClaimsAppend(pools: Pools, i: nat)
    requires i < |pools|
    ensures Claims(pools[..i + 1]) == Claims(pools[..i]) + PoolClaims(pools[i].0, pools[i].1)
    decreases i
  {
    var a, b := pools[..i + 1], pools[..i];
    if i == 0 {
      assert a[1..] == [];
    } else {
      ClaimsAppend(pools[1..], i - 1);
      assert a[1..] == pools[1..][..i] && b[1..] == pools[1..][..i - 1];
    }
  }

  lemma {:induction false} ClaimsPrefix(pools: Pools, i: nat)
    requires i <= |pools|
    ensures Claims(pools[..i]) <= Claims(pools)
    decreases |pools| - i
  {
    if i == |pools| {
      assert pools[..i] == pools;
    } else {
      ClaimsPrefix(pools, i + 1);
      ClaimsAppend(pools, i);
    }
  }

  lemma GoodPrefix(pools: Pools, a: seq<Claim>, b: seq<Claim>)
    requires a <= b && GoodClaims(pools, b)
    ensures GoodClaims(pools, a)
  {}

  /** The name is taken on the port, by a pool or by an earlier claim. */
  predicate Taken(pools: Pools, claims: seq<Claim>, port: nat, name: string) {
    IsPool(pools, port, name) || exists i :: 0 <= i < |claims| && claims[i].port == port && claims[i].alias == name
  }

  predicate FreshAliases(pools: Pools, claims: seq<Claim>, name: string, pool: Pool) {
    forall k :: 0 <= k < |pool.aliases| ==>
      && IsValidName(pool.aliases[k]) && pool.aliases[k] != name
      && !Taken(pools, claims, pool.port, pool.aliases[k])
      && forall l :: 0 <= l < k ==> pool.aliases[l] != pool.aliases[k]
  }

  lemma GoodExtension(pools: Pools, claims: seq<Claim>, name: string, pool: Pool)
    requires GoodClaims(pools, claims)
    ensures GoodClaims(pools, claims + PoolClaims(name, pool)) <==> FreshAliases(pools, claims, name, pool)
  {
    hide IsValidName, IsPool;
    var more := PoolClaims(name, pool);
    var all := claims + more;
    if FreshAliases(pools, claims, name, pool) {
      forall i | 0 <= i < |all| ensures GoodClaim(pools, all[i]) {
        if i >= |claims| { assert all[i] == more[i - |claims|]; }
      }
      forall i, j | 0 <= i < j < |all| ensures !SameName(all[i], all[j]) {
        if j >= |claims| { assert all[j] == more[j - |claims|]; }
      }
    }
    if GoodClaims(pools, all) {
      forall k | 0 <= k < |pool.aliases|
        ensures IsValidName(pool.aliases[k]) && pool.aliases[k] != name
        ensures !Taken(pools, claims, pool.port, pool.aliases[k])
        ensures forall l :: 0 <= l < k ==> pool.aliases[l] != pool.aliases[k]
      {
        var j := |claims| + k;
        assert all[j] == more[k] && GoodClaim(pools, all[j]);
        assert forall i :: 0 <= i < |claims| ==> all[i] == claims[i] && !SameName(all[i], all[j]);
        assert forall l :: 0 <= l < k ==> all[|claims| + l] == more[l] && !SameName(all[|claims| + l], all[j]);
      }
    }
  }

  /** `validate_listeners` accepts exactly the routable configurations. */
  method ValidateListeners(pools: Pools) returns (error: Option<StateError>)
    ensures error.None? <==> Routable(pools)
  {
    hide IsValidName, Claims;
    var routable;
    error, routable := CheckPorts(pools);
    if error.Some? { return; }
    ClaimsEmpty();
    assert pools[..0] == [];
    for i := 0 to |pools|
      invariant error.None?
      invariant GoodClaims(pools, Claims(pools[..i]))
      invariant forall port: nat, n: string :: (port, n) in routable <==> Taken(pools, Claims(pools[..i]), port, n)
    {
      var (name, pool) := pools[i];
      var claims := Claims(pools[..i]);
      ClaimsAppend(pools, i);
      GoodExtension(pools, claims, name, pool);
      var before := routable;
      error, routable := CheckAliases(name, pool, before);
      assert FreshAliases(pools, claims, name, pool) <==> error.None?;
      if error.Some? {
        if Routable(pools) {
          ClaimsPrefix(pools, i + 1);
          GoodPrefix(pools, Claims(pools[..i + 1]), Claims(pools));
        }
        return;
      }
      TakenExtends(pools, claims, name, pool);
    }
    assert pools[..|pools|] == pools;
  }

  lemma ClaimsEmpty()
    ensures Claims([]) == []
  {}

  lemma TakenExtends(pools: Pools, claims: seq<Claim>, name: string, pool: Pool)
    ensures forall port: nat, n: string ::
              Taken(pools, claims + PoolClaims(name, pool), port, n) <==>
              Taken(pools, claims, port, n) || (port == pool.port && n in pool.aliases)
  {
    hide IsPool;
    var more := PoolClaims(name, pool);
    var all := claims + more;
    forall port: nat, n: string
      ensures Taken(pools, all, port, n) <==>
              Taken(pools, claims, port, n) || (port == pool.port && n in pool.aliases)
    {
      if port == pool.port && n in pool.aliases {
        var k :| 0 <= k < |pool.aliases| && pool.aliases[k] == n;
        assert all[|claims| + k] == more[k];
      }
      if i :| 0 <= i < |claims| && claims[i].port == port && claims[i].alias == n {
        assert all[i] == claims[i];
      }
      if i :| 0 <= i < |all| && all[i].port == port && all[i].alias == n {
        assert if i < |claims| then all[i] == claims[i] else all[i] == more[i - |claims|];
      }
    }
  }

  // ---------- listeners ----------

  datatype Listener = Listener(port: nat, family: string, pools: seq<string>, aliases: seq<(string, string)>)

  function PoolsOn(pools: Pools, port: nat): seq<string> {
    if pools == [] then []
    else (if On(pools[0].1, port) then [pools[0].0] else []) + PoolsOn(pools[1..], port)
  }

  function Pairs(name: string, pool: Pool): (r: seq<(string, string)>)
    ensures |r| == |pool.aliases| && forall k :: 0 <= k < |r| ==> r[k] == (pool.aliases[k], name)
  {
    seq(|pool.aliases|, k requires 0 <= k < |pool.aliases| => (pool.aliases[k], name))
  }

  function AliasesOn(pools: Pools, port: nat): seq<(string, string)> {
    if pools == [] then []
    else (if On(pools[0].1, port) then Pairs(pools[0].0, pools[0].1) else [])
         + AliasesOn(pools[1..], port)
  }

  /** The family of the first enabled pool on the port. */
  function FamilyOn(pools: Pools, port: nat): string {
    if pools == [] then ""
    else if On(pools[0].1, port) then pools[0].1.family
    else FamilyOn(pools[1..], port)
  }

  predicate PairLe(a: (string, string), b: (string, string)) {
    if a.0 == b.0 then StrLe(a.1, b.1) else StrLe(a.0, b.0)
  }

  predicate SortedPairs(s: seq<(string, string)>) { forall i, j :: 0 <= i < j < |s| ==> PairLe(s[i], s[j]) }

  function InsertPair(p: (string, string), s: seq<(string, string)>): (r: seq<(string, string)>)
    ensures multiset(r) == multiset(s) + multiset{p}
  {
    if s == [] then [p]
    else if PairLe(p, s[0]) then [p] + s
    else
      var rest := InsertPair(p, s[1..]);
      assert s == [s[0]] + s[1..];
      [s[0]] + rest
  }

  function SortPairs(s: seq<(string, string)>): (r: seq<(string, string)>)
    ensures multiset(r) == multiset(s)
  {
    if s == [] then [] else
      assert s == [s[0]] + s[1..];
      InsertPair(s[0], SortPairs(s[1..]))
  }

  lemma PairOrder(a: (string, string), b: (string, string), c: (string, string))
    ensures PairLe(a, b) || PairLe(b, a)
    ensures PairLe(a, b) && PairLe(b, c) ==> PairLe(a, c)
  {
    hide StrLe;
    StrTotal(a.0, b.0);
    StrTotal(a.1, b.1);
    StrTotal(b.0, c.0);
    StrTotal(a.0, c.0);
    if StrLe(a.0, b.0) && StrLe(b.0, c.0) { StrTransitive(a.0, b.0, c.0); }
    if StrLe(a.1, b.1) && StrLe(b.1, c.1) { StrTransitive(a.1, b.1, c.1); }
  }

  lemma {:induction false} InsertSorted(p: (string, string), s: seq<(string, string)>)
    requires SortedPairs(s)
    ensures SortedPairs(InsertPair(p, s))
  {
    hide PairLe;
    if s != [] {
      PairOrder(p, s[0], p);
      if PairLe(p, s[0]) {
        forall j | 0 <= j < |s| ensures PairLe(p, s[j]) { PairOrder(p, s[0], s[j]); }
      } else {
        InsertSorted(p, s[1..]);
        var rest := InsertPair(p, s[1..]);
        forall j | 0 <= j < |rest| ensures PairLe(s[0], rest[j]) {
          assert rest[j] in multiset(rest);
          assert rest[j] == p || rest[j] in s[1..];
        }
      }
    }
  }

  lemma {:induction false} SortIsSorted(s: seq<(string, string)>)
    ensures SortedPairs(SortPairs(s))
  {
    hide PairLe;
    if s != [] {
      SortIsSorted(s[1..]);
      InsertSorted(s[0], SortPairs(s[1..]));
    }
  }

  /** The listener a configuration asks for on a port. */
  function ListenerFor(pools: Pools, port: nat): Listener {
    Listener(port, FamilyOn(pools, port), PoolsOn(pools, port), SortPairs(AliasesOn(pools, port)))
  }

  predicate On(pool: Pool, port: nat) { !pool.disabled && pool.port == port }

  /** What one more pool adds to the port's listener. */
  lemma {:induction false} OnAppend(pools: Pools, i: nat, port: nat)
    requires i < |pools|
    ensures PoolsOn(pools[..i + 1], port) == PoolsOn(pools[..i], port) + if On(pools[i].1, port) then [pools[i].0] else []
    ensures AliasesOn(pools[..i + 1], port) ==
            AliasesOn(pools[..i], port) + if On(pools[i].1, port) then Pairs(pools[i].0, pools[i].1) else []
    ensures FamilyOn(pools[..i + 1], port) ==
            if PoolsOn(pools[..i], port) == [] && On(pools[i].1, port) then pools[i].1.family
            else FamilyOn(pools[..i], port)
    decreases i
  {
    var a, b := pools[..i + 1], pools[..i];
    if i == 0 {
      assert a[1..] == [] && b == [];
    } else {
      OnAppend(pools[1..], i - 1, port);
      assert a[1..] == pools[1..][..i] && b[1..] == pools[1..][..i - 1];
    }
  }

  /** The listener before its aliases are sorted. */
  function Gathered(pools: Pools, port: nat): Listener {
    Listener(port, FamilyOn(pools, port), PoolsOn(pools, port), AliasesOn(pools, port))
  }

  /** `listeners`: exactly the ports with an enabled pool, each with its pools in key order and
      its aliases sorted. */
  method BuildListeners(pools: Pools) returns (out: map<nat, Listener>)
    ensures forall port: nat :: port in out <==> PoolsOn(pools, port) != []
    ensures forall port: nat :: port in out ==> out[port] == ListenerFor(pools, port)
  {
    hide PoolsOn, AliasesOn, FamilyOn, SortPairs;
    out := map[];
    assert pools[..0] == [];
    NothingOn();
    for i := 0 to |pools|
      invariant forall port: nat :: port in out <==> PoolsOn(pools[..i], port) != []
      invariant forall port: nat :: port in out ==> out[port] == Gathered(pools[..i], port)
    {
      var (name, pool) := pools[i];
      forall port: nat { OnAppend(pools, i, port); }
      if !pool.disabled {
        NothingGathered(pools[..i], pool.port);
        var listener :=
          if pool.port in out then out[pool.port] else Listener(pool.port, pool.family, [], []);
        out := out[pool.port := listener.(pools := listener.pools + [name],
                                          aliases := listener.aliases + Pairs(name, pool))];
      }
    }
    assert pools[..|pools|] == pools;
    var left := out.Keys;
    while left != {}
      invariant left <= out.Keys
      invariant forall port: nat :: port in out <==> PoolsOn(pools, port) != []
      invariant forall port: nat :: port in out ==>
                  out[port] == if port in left then Gathered(pools, port) else ListenerFor(pools, port)
      decreases left
    {
      var port :| port in left;
      out := out[port := out[port].(aliases := SortPairs(out[port].aliases))];
      left := left - {port};
    }
  }

  lemma NothingOn()
    ensures forall port: nat :: PoolsOn([], port) == []
  {}

  lemma {:induction false} NothingGathered(pools: Pools, port: nat)
    ensures PoolsOn(pools, port) == [] ==> AliasesOn(pools, port) == []
  {
    if pools != [] { NothingGathered(pools[1..], port); }
  }

  // ---------- what the table promises ----------

  predicate ServedAt(pools: Pools, i: nat, port: nat, name: string) {
    i < |pools| && pools[i].0 == name && On(pools[i].1, port)
  }

  /** An enabled pool of that name listens on the port. */
  ghost predicate Served(pools: Pools, port: nat, name: string) { exists i: nat :: ServedAt(pools, i, port, name) }

  ghost predicate AliasServed(pools: Pools, port: nat, alias: string, name: string) {
    exists i: nat :: ServedAt(pools, i, port, name) && alias in pools[i].1.aliases
  }

  /** A client that writes `asked` in its database field on the port may mean this pool. */
  ghost predicate Answers(pools: Pools, port: nat, asked: string, name: string) {
    Served(pools, port, name) && (asked == name || AliasServed(pools, port, asked, name))
  }

  lemma {:induction false} PoolsOnMember(pools: Pools, port: nat, name: string)
    ensures name in PoolsOn(pools, port) <==> Served(pools, port, name)
  {
    if pools != [] {
      PoolsOnMember(pools[1..], port, name);
      if i: nat :| ServedAt(pools, i, port, name) {
        if i > 0 { assert ServedAt(pools[1..], i - 1, port, name); }
      }
      if i: nat :| ServedAt(pools[1..], i, port, name) { assert ServedAt(pools, i + 1, port, name); }
      if On(pools[0].1, port) && pools[0].0 == name { assert ServedAt(pools, 0, port, name); }
    }
  }

  lemma {:induction false} AliasesOnMember(pools: Pools, port: nat, alias: string, name: string)
    ensures (alias, name) in AliasesOn(pools, port) <==> AliasServed(pools, port, alias, name)
  {
    if pools != [] {
      AliasesOnMember(pools[1..], port, alias, name);
      if i: nat :| ServedAt(pools, i, port, name) && alias in pools[i].1.aliases {
        if i > 0 {
          assert ServedAt(pools[1..], i - 1, port, name);
        } else {
          var k :| 0 <= k < |pools[0].1.aliases| && pools[0].1.aliases[k] == alias;
          assert Pairs(name, pools[0].1)[k] == (alias, name);
        }
      }
      if i: nat :| ServedAt(pools[1..], i, port, name) && alias in pools[1..][i].1.aliases {
        assert ServedAt(pools, i + 1, port, name);
      }
      if On(pools[0].1, port) && (alias, name) in Pairs(pools[0].0, pools[0].1) {
        assert ServedAt(pools, 0, port, name);
      }
    }
  }

  lemma {:induction false} FamilyOnFirst(pools: Pools, port: nat)
    requires PoolsOn(pools, port) != []
    ensures exists i :: 0 <= i < |pools| && On(pools[i].1, port) && pools[i].1.family == FamilyOn(pools, port)
  {
    if !On(pools[0].1, port) {
      FamilyOnFirst(pools[1..], port);
      var i :| 0 <= i < |pools[1..]| && On(pools[1..][i].1, port) && pools[1..][i].1.family == FamilyOn(pools[1..], port);
      assert pools[i + 1] == pools[1..][i];
    }
  }

  lemma {:induction false} PoolsOnAscend(pools: Pools, port: nat)
    requires KeyOrder(pools)
    ensures forall i, j :: 0 <= i < j < |PoolsOn(pools, port)| ==> StrLt(PoolsOn(pools, port)[i], PoolsOn(pools, port)[j])
  {
    hide StrLt;
    if pools != [] {
      var rest := PoolsOn(pools[1..], port);
      PoolsOnAscend(pools[1..], port);
      forall j | 0 <= j < |rest| ensures StrLt(pools[0].0, rest[j]) {
        PoolsOnMember(pools[1..], port, rest[j]);
        assert rest[j] in rest;
        var i: nat :| ServedAt(pools[1..], i, port, rest[j]);
        assert pools[i + 1] == pools[1..][i];
      }
    }
  }

  predicate DistinctAliases(s: seq<(string, string)>) { forall i, j :: 0 <= i < j < |s| ==> s[i].0 != s[j].0 }

  lemma {:induction false} AliasesAreClaims(pools: Pools, port: nat, alias: string, name: string)
    requires (alias, name) in AliasesOn(pools, port)
    ensures Claim(port, alias, name) in Claims(pools)
  {
    var head := PoolClaims(pools[0].0, pools[0].1);
    if On(pools[0].1, port) && (alias, name) in Pairs(pools[0].0, pools[0].1) {
      var k :| 0 <= k < |head| && Pairs(pools[0].0, pools[0].1)[k] == (alias, name);
      assert head[k] == Claim(port, alias, name);
    } else {
      AliasesAreClaims(pools[1..], port, alias, name);
    }
  }

  lemma {:induction false} AliasesAreDistinct(pools: Pools, port: nat)
    requires NoTwoClaims(Claims(pools))
    ensures DistinctAliases(AliasesOn(pools, port))
  {
    hide Claims, AliasesOn;
    ClaimsStep(pools);
    AliasesOnStep(pools, port);
    if pools != [] {
      var head, tail := PoolClaims(pools[0].0, pools[0].1), Claims(pools[1..]);
      var all := Claims(pools);
      assert forall i :: 0 <= i < |tail| ==> all[|head| + i] == tail[i];
      AliasesAreDistinct(pools[1..], port);
      if On(pools[0].1, port) {
        var mine, rest := Pairs(pools[0].0, pools[0].1), AliasesOn(pools[1..], port);
        forall i, j | 0 <= i < |mine| && 0 <= j < |rest| ensures mine[i].0 != rest[j].0 {
          AliasesAreClaims(pools[1..], port, rest[j].0, rest[j].1);
          var k :| 0 <= k < |tail| && tail[k] == Claim(port, rest[j].0, rest[j].1);
          assert !SameName(all[i], all[|head| + k]);
        }
        forall i, j | 0 <= i < j < |mine| ensures mine[i].0 != mine[j].0 {
          assert !SameName(all[i], all[j]);
        }
      }
    }
  }

  lemma ClaimsStep(pools: Pools)
    ensures Claims(pools) == if pools == [] then [] else PoolClaims(pools[0].0, pools[0].1) + Claims(pools[1..])
  {}

  lemma AliasesOnStep(pools: Pools, port: nat)
    ensures AliasesOn(pools, port) ==
            if pools == [] then []
            else (if On(pools[0].1, port) then Pairs(pools[0].0, pools[0].1) else []) + AliasesOn(pools[1..], port)
  {}

  lemma {:induction false} InsertDistinct(p: (string, string), s: seq<(string, string)>)
    requires DistinctAliases(s) && forall i :: 0 <= i < |s| ==> s[i].0 != p.0
    ensures DistinctAliases(InsertPair(p, s))
  {
    hide PairLe;
    if s != [] && !PairLe(p, s[0]) {
      InsertDistinct(p, s[1..]);
      var rest := InsertPair(p, s[1..]);
      forall j | 0 <= j < |rest| ensures s[0].0 != rest[j].0 {
        assert rest[j] in multiset(rest);
        assert rest[j] == p || rest[j] in s[1..];
      }
    }
  }

  lemma {:induction false} SortDistinct(s: seq<(string, string)>)
    requires DistinctAliases(s)
    ensures DistinctAliases(SortPairs(s))
  {
    if s != [] {
      var rest := SortPairs(s[1..]);
      SortDistinct(s[1..]);
      forall i | 0 <= i < |rest| ensures rest[i].0 != s[0].0 {
        assert rest[i] in multiset(rest);
        assert rest[i] in s[1..];
      }
      InsertDistinct(s[0], rest);
    }
  }

  lemma SortKeepsMembers(s: seq<(string, string)>, p: (string, string))
    ensures p in SortPairs(s) <==> p in s
  {
    assert p in multiset(SortPairs(s)) <==> p in multiset(s);
  }

  /** The shape of every listener of an accepted configuration. */
  lemma ListenersAreSound(pools: Pools, port: nat)
    requires KeyOrder(pools) && Routable(pools) && PoolsOn(pools, port) != []
    ensures var l := ListenerFor(pools, port);
            && (forall i :: 0 <= i < |pools| && On(pools[i].1, port) ==> pools[i].0 in l.pools && pools[i].1.family == l.family)
            && (forall i, j :: 0 <= i < j < |l.pools| ==> StrLt(l.pools[i], l.pools[j]))
            && (forall i, j :: 0 <= i < j < |l.aliases| ==> StrLt(l.aliases[i].0, l.aliases[j].0))
            && (forall i :: 0 <= i < |l.aliases| ==> l.aliases[i].1 in l.pools && l.aliases[i].0 !in l.pools)
  {
    hide PoolsOn, AliasesOn, FamilyOn, SortPairs, Claims, IsValidName, StrLe;
    var l := ListenerFor(pools, port);
    FamilyOnFirst(pools, port);
    forall i | 0 <= i < |pools| && On(pools[i].1, port) ensures pools[i].0 in l.pools {
      assert ServedAt(pools, i, port, pools[i].0);
      PoolsOnMember(pools, port, pools[i].0);
    }
    PoolsOnAscend(pools, port);
    var gathered := AliasesOn(pools, port);
    AliasesAreDistinct(pools, port);
    SortDistinct(gathered);
    SortIsSorted(gathered);
    forall i | 0 <= i < |l.aliases| ensures l.aliases[i].1 in l.pools && l.aliases[i].0 !in l.pools {
      SortKeepsMembers(gathered, l.aliases[i]);
      AliasTargets(pools, port, l.aliases[i].0, l.aliases[i].1);
    }
  }

  /** An alias points at a pool of its listener and is no pool there. */
  lemma AliasTargets(pools: Pools, port: nat, alias: string, name: string)
    requires Routable(pools) && (alias, name) in AliasesOn(pools, port)
    ensures name in PoolsOn(pools, port) && alias !in PoolsOn(pools, port)
  {
    hide PoolsOn, AliasesOn, Claims, IsValidName;
    AliasesOnMember(pools, port, alias, name);
    PoolsOnMember(pools, port, name);
    PoolsOnMember(pools, port, alias);
    assert Served(pools, port, alias) ==> IsPool(pools, port, alias);
    AliasesAreClaims(pools, port, alias, name);
  }

  /** An enabled pool is in the listener of its own port and in no other. */
  lemma OneListenerEach(pools: Pools, i: nat, port: nat)
    requires KeyOrder(pools) && i < |pools|
    ensures pools[i].0 in ListenerFor(pools, port).pools <==> On(pools[i].1, port)
  {
    PoolsOnMember(pools, port, pools[i].0);
    if On(pools[i].1, port) { assert ServedAt(pools, i, port, pools[i].0); }
    assert forall j: nat :: ServedAt(pools, j, port, pools[i].0) ==> j == i;
  }

  function FindAlias(aliases: seq<(string, string)>, asked: string): (r: Option<string>)
    ensures r.Some? ==> (asked, r.value) in aliases
    ensures r.None? ==> forall i :: 0 <= i < |aliases| ==> aliases[i].0 != asked
  {
    if aliases == [] then None
    else if aliases[0].0 == asked then Some(aliases[0].1)
    else FindAlias(aliases[1..], asked)
  }

  /** `PoolRoute::resolve`: pool names first, then aliases. */
  function Resolve(l: Listener, asked: string): Option<string> {
    if asked in l.pools then Some(asked) else FindAlias(l.aliases, asked)
  }

  /** `sole_pool`: what a client that names nothing reaches. */
  function SolePool(l: Listener): (r: Option<string>)
    ensures r.Some? <==> exists name :: l.pools == [name]
    ensures r.Some? ==> l.pools == [r.value]
  {
    if |l.pools| == 1 then assert l.pools == [l.pools[0]]; Some(l.pools[0]) else None
  }

  /** On an accepted configuration a name reaches a pool exactly when that pool answers to it,
      so no name ever means two pools. */
  lemma ResolvesToTheOneAnswer(pools: Pools, port: nat, asked: string, name: string)
    requires Routable(pools)
    ensures Resolve(ListenerFor(pools, port), asked) == Some(name) <==> Answers(pools, port, asked, name)
  {
    hide PoolsOn, AliasesOn, SortPairs, Claims, IsValidName, FamilyOn;
    var l := ListenerFor(pools, port);
    var gathered := AliasesOn(pools, port);
    PoolsOnMember(pools, port, asked);
    PoolsOnMember(pools, port, name);
    SortKeepsMembers(gathered, (asked, name));
    AliasesOnMember(pools, port, asked, name);
    if (asked, name) in gathered { AliasTargets(pools, port, asked, name); }
    if asked !in l.pools {
      AliasesAreDistinct(pools, port);
      SortDistinct(gathered);
    }
  }

  /** A client that names nothing reaches a pool exactly when it is the port's only one. */
  lemma SoleIsUnambiguous(pools: Pools, port: nat, name: string)
    requires KeyOrder(pools)
    ensures SolePool(ListenerFor(pools, port)) == Some(name) <==>
            Served(pools, port, name) && forall other :: Served(pools, port, other) ==> other == name
  {
    hide PoolsOn, AliasesOn, SortPairs, FamilyOn;
    var names := PoolsOn(pools, port);
    forall n ensures n in names <==> Served(pools, port, n) { PoolsOnMember(pools, port, n); }
    PoolsOnAscend(pools, port);
    if |names| > 1 { assert names[0] in names && names[1] in names && StrLt(names[0], names[1]); }
    if |names| == 1 { assert names[0] in names; }
  }
}
