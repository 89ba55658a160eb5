/** The cancel registry (cancel.rs): keys handed to clients, and the one shared map behind
    every session's scope. */
module Cancel {
  import opened Text

  datatype Key = Key(processId: int, secret: int)

  /** The backend a key points at: its address and the key pair the server gave it. */
  datatype Target = Target(host: string, port: nat, backendPid: int, backendSecret: int)

  const I32_MAX: nat := 0x7fff_ffff

  /** `i32::wrapping_add(1)`. */
  function WrappingNext(n: int): int { if n == I32_MAX then -0x8000_0000 else n + 1 }

  datatype Registry = Registry(entries: map<Key, Option<Target>>, next: int)

  function Issue(r: Registry, secret: int): (Registry, Key) {
    var key := Key(r.next, secret);
    var next := WrappingNext(r.next);
    (Registry(r.entries[key := None], if next < 1 then 1 else next), key)
  }

  function Aim(r: Registry, key: Key, target: Option<Target>): Registry {
    if key in r.entries then r.(entries := r.entries[key := target]) else r
  }

  function Forget(r: Registry, key: Key): Registry { r.(entries := r.entries - {key}) }

  function Lookup(r: Registry, key: Key): Option<Target> { if key in r.entries then r.entries[key] else None }

  class CancelRegistry {
    var entries: map<Key, Option<Target>>
    var next: int

    function Value(): Registry
      reads this
    {
      Registry(entries, next)
    }

    constructor ()
      ensures Value() == Registry(map[], 1)
    {
      entries, next := map[], 1;
    }

    method Scope(secret: int) returns (key: Key)
      modifies this
      ensures (Value(), key) == Issue(old(Value()), secret)
    {
      var id := next;
      next := WrappingNext(next);
      if next < 1 { next := 1; }
      key := Key(id, secret);
      entries := entries[key := None];
    }

    method Retarget(key: Key, target: Option<Target>)
      modifies this`entries
      ensures Value() == Aim(old(Value()), key, target)
    {
      if key in entries { entries := entries[key := target]; }
    }

    method Unregister(key: Key)
      modifies this`entries
      ensures Value() == Forget(old(Value()), key)
    {
      entries := entries - {key};
    }
  }

  // ---------- runs ----------

  /** A session's scope: the key it owns and how many clones of it are held. */
  datatype Scope = Scope(key: Key, clones: nat)

  datatype World = World(registry: Registry, scopes: seq<Scope>)

  /** Sessions come and go; a step names the scope it is taken through. */
  datatype Op = Open(secret: int) | Clone(s: nat) | Drop(s: nat) | Retarget(s: nat, target: Option<Target>)

  predicate Held(w: World, s: nat) { s < |w.scopes| && w.scopes[s].clones > 0 }

  /** A step through a scope nobody holds cannot be taken, and changes nothing. */
  function Step(w: World, op: Op): World {
    match op
    case Open(secret) =>
      var (registry, key) := Issue(w.registry, secret);
      World(registry, w.scopes + [Scope(key, 1)])
    case Clone(s) =>
      if Held(w, s) then w.(scopes := w.scopes[s := w.scopes[s].(clones := w.scopes[s].clones + 1)]) else w
    case Drop(s) =>
      if !Held(w, s) then w
      else
        var scope := w.scopes[s].(clones := w.scopes[s].clones - 1);
        World(if scope.clones == 0 then Forget(w.registry, scope.key) else w.registry, w.scopes[s := scope])
    case Retarget(s, target) =>
      if Held(w, s) then w.(registry := Aim(w.registry, w.scopes[s].key, target)) else w
  }

  function Run(w: World, ops: seq<Op>): World decreases |ops| { if ops == [] then w else Run(Step(w, ops[0]), ops[1..]) }

  const Start: World := World(Registry(map[], 1), [])

  /** The reference: each scope has a slot of its own, and there are no keys and no map. */
  datatype Slot = Slot(clones: nat, target: Option<Target>)

  function SlotStep(slots: seq<Slot>, op: Op): seq<Slot> {
    match op
    case Open(_) => slots + [Slot(1, None)]
    case Clone(s) =>
      if s < |slots| && slots[s].clones > 0 then slots[s := slots[s].(clones := slots[s].clones + 1)] else slots
    case Drop(s) =>
      if s < |slots| && slots[s].clones > 0 then slots[s := slots[s].(clones := slots[s].clones - 1)] else slots
    case Retarget(s, target) =>
      if s < |slots| && slots[s].clones > 0 then slots[s := slots[s].(target := target)] else slots
  }

  function SlotRun(slots: seq<Slot>, ops: seq<Op>): seq<Slot> decreases |ops| {
    if ops == [] then slots else SlotRun(SlotStep(slots, ops[0]), ops[1..])
  }

  predicate DistinctKeys(w: World) {
    forall i, j :: 0 <= i < j < |w.scopes| ==> w.scopes[i].key != w.scopes[j].key
  }

  predicate SlotMatches(r: Registry, scope: Scope, slot: Slot) {
    && scope.clones == slot.clones
    && (scope.clones > 0 ==> scope.key in r.entries && r.entries[scope.key] == slot.target)
  }

  predicate LiveIsRegistered(w: World, slots: seq<Slot>) {
    && |w.scopes| == |slots|
    && forall s :: 0 <= s < |slots| ==> SlotMatches(w.registry, w.scopes[s], slots[s])
  }

  ghost predicate Owned(w: World, key: Key) { exists s: nat :: Held(w, s) && w.scopes[s].key == key }

  ghost predicate RegisteredIsLive(w: World) { forall key :: key in w.registry.entries ==> Owned(w, key) }

  ghost predicate Matches(w: World, slots: seq<Slot>) { LiveIsRegistered(w, slots) && RegisteredIsLive(w) }

  /** Scopes are only added, and keep their keys. */
  lemma StepKeepsKeys(w: World, op: Op)
    ensures |w.scopes| <= |Step(w, op).scopes|
    ensures forall s :: 0 <= s < |w.scopes| ==> Step(w, op).scopes[s].key == w.scopes[s].key
    ensures forall s :: 0 <= s < |w.scopes| && w.scopes[s].clones == 0 ==> Step(w, op).scopes[s].clones == 0
  {}

  lemma {:induction false} RunKeepsKeys(w: World, ops: seq<Op>)
    ensures |w.scopes| <= |Run(w, ops).scopes|
    ensures forall s :: 0 <= s < |w.scopes| ==> Run(w, ops).scopes[s].key == w.scopes[s].key
    ensures forall s :: 0 <= s < |w.scopes| && w.scopes[s].clones == 0 ==> Run(w, ops).scopes[s].clones == 0
    decreases |ops|
  {
    if ops != [] {
      StepKeepsKeys(w, ops[0]);
      RunKeepsKeys(Step(w, ops[0]), ops[1..]);
    }
  }

  lemma StepOwned(w: World, op: Op)
    requires RegisteredIsLive(w) && DistinctKeys(Step(w, op))
    ensures RegisteredIsLive(Step(w, op))
  {
    var n := Step(w, op);
    forall key | key in n.registry.entries ensures Owned(n, key) {
      if op.Open? && key == n.scopes[|w.scopes|].key {
        assert Held(n, |w.scopes|);
      } else {
        assert Owned(w, key);
        var s: nat :| Held(w, s) && w.scopes[s].key == key;
        assert Held(n, s) && n.scopes[s].key == key;
      }
    }
  }

  lemma StepSlotMatches(w: World, slots: seq<Slot>, op: Op, s: nat)
    requires LiveIsRegistered(w, slots) && DistinctKeys(Step(w, op)) && s < |SlotStep(slots, op)|
    ensures |Step(w, op).scopes| == |SlotStep(slots, op)|
    ensures SlotMatches(Step(w, op).registry, Step(w, op).scopes[s], SlotStep(slots, op)[s])
  {
    var n := Step(w, op);
    if s < |slots| {
      assert SlotMatches(w.registry, w.scopes[s], slots[s]);
      var other := if op.Open? then |slots| else op.s;
      if other < |n.scopes| && other != s {
        assert n.scopes[s].key == w.scopes[s].key;
        assert n.scopes[other].key != n.scopes[s].key;
      }
    }
  }

  lemma StepMatches(w: World, slots: seq<Slot>, op: Op)
    requires Matches(w, slots) && DistinctKeys(Step(w, op))
    ensures Matches(Step(w, op), SlotStep(slots, op))
  {
    StepOwned(w, op);
    StepKeepsKeys(w, op);
    var n, next := Step(w, op), SlotStep(slots, op);
    forall s | 0 <= s < |next| ensures SlotMatches(n.registry, n.scopes[s], next[s]) {
      StepSlotMatches(w, slots, op, s);
    }
  }

  /** On every run with distinct keys the shared map behaves as one private slot per scope. */
  lemma {:induction false} RunMatches(w: World, slots: seq<Slot>, ops: seq<Op>)
    requires Matches(w, slots) && DistinctKeys(Run(w, ops))
    ensures Matches(Run(w, ops), SlotRun(slots, ops))
    decreases |ops|
  {
    if ops != [] {
      var n := Step(w, ops[0]);
      RunKeepsKeys(n, ops[1..]);
      StepMatches(w, slots, ops[0]);
      RunMatches(n, SlotStep(slots, ops[0]), ops[1..]);
    }
  }

  /** An entry exists exactly while some clone lives; a lookup finds the scope's own last
      target; any other key, dropped or never issued, finds nothing. */
  lemma LookupIsPrivate(ops: seq<Op>, key: Key)
    requires DistinctKeys(Run(Start, ops))
    ensures var w, slots := Run(Start, ops), SlotRun([], ops);
            && (key in w.registry.entries <==> Owned(w, key))
            && (!Owned(w, key) ==> Lookup(w.registry, key) == None)
            && |slots| == |w.scopes|
            && forall s: nat :: Held(w, s) ==> Lookup(w.registry, w.scopes[s].key) == slots[s].target
  {
    RunMatches(Start, [], ops);
  }

  /** A key whose last clone was dropped finds nothing, whatever happens afterwards. */
  lemma DroppedIsGone(before: seq<Op>, after: seq<Op>, s: nat)
    requires DistinctKeys(Run(Run(Start, before), after))
    requires s < |Run(Start, before).scopes| && !Held(Run(Start, before), s)
    ensures Lookup(Run(Run(Start, before), after).registry, Run(Start, before).scopes[s].key) == None
  {
    hide Run, SlotRun;
    var w := Run(Start, before);
    var n := Run(w, after);
    RunKeepsKeys(w, after);
    StartMatches();
    RunMatches(Start, [], before);
    RunMatches(w, SlotRun([], before), after);
    assert n.scopes[s].key == w.scopes[s].key && n.scopes[s].clones == 0;
    assert !Owned(n, w.scopes[s].key);
  }

  lemma StartMatches()
    ensures Matches(Start, [])
  {}

  // ---------- process ids ----------

  /** The id of the n-th scope, counting from none. */
  function IdOf(n: nat): int { n % I32_MAX + 1 }

  predicate Numbered(w: World) {
    w.registry.next == IdOf(|w.scopes|) && forall s :: 0 <= s < |w.scopes| ==> w.scopes[s].key.processId == IdOf(s)
  }

  lemma NextId(n: nat)
    ensures IdOf(n + 1) == if IdOf(n) == I32_MAX then 1 else IdOf(n) + 1
  {}

  lemma {:induction false} RunNumbers(w: World, ops: seq<Op>)
    requires Numbered(w)
    ensures Numbered(Run(w, ops))
    decreases |ops|
  {
    if ops != [] {
      NextId(|w.scopes|);
      StepKeepsKeys(w, ops[0]);
      RunNumbers(Step(w, ops[0]), ops[1..]);
    }
  }

  /** Process ids are positive on every run, and the first 2^31 - 1 scopes have distinct keys
      whatever secrets were drawn. */
  lemma IdsArePositiveAndDistinct(ops: seq<Op>)
    ensures forall s :: 0 <= s < |Run(Start, ops).scopes| ==> 1 <= Run(Start, ops).scopes[s].key.processId <= I32_MAX
    ensures |Run(Start, ops).scopes| <= I32_MAX ==> DistinctKeys(Run(Start, ops))
  {
    hide Run;
    RunNumbers(Start, ops);
    var w := Run(Start, ops);
    if |w.scopes| <= I32_MAX {
      assert forall s :: 0 <= s < |w.scopes| ==> w.scopes[s].key.processId == s + 1;
    }
  }

  /** One more scope than that and an id comes round again, so only the secret tells the two
      sessions apart. */
  /** The ids themselves: one, two, and so on, and after 2^31 - 1 one again. */
  lemma IdsAre(ops: seq<Op>, s: nat)
    requires s < |Run(Start, ops).scopes|
    ensures Run(Start, ops).scopes[s].key.processId == 1 + s % 0x7fff_ffff
  {
    hide Run;
    RunNumbers(Start, ops);
  }

  /** Pointing a key nobody has changes nothing, and pointing one that is there changes only it. */
  lemma AimSays(r: Registry, key: Key, target: Option<Target>, other: Key)
    ensures Lookup(Aim(r, key, target), key) == if key in r.entries then target else None
    ensures other != key ==> Lookup(Aim(r, key, target), other) == Lookup(r, other)
    ensures other in Aim(r, key, target).entries <==> other in r.entries
  {}

  lemma IdsComeRound(w: World, i: nat)
    requires Numbered(w) && i + I32_MAX < |w.scopes|
    ensures w.scopes[i + I32_MAX].key.processId == w.scopes[i].key.processId
  {
    assert (i + I32_MAX) % I32_MAX == i % I32_MAX;
  }
}
