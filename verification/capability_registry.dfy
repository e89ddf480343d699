/** The capability registry: unique ids and unique names, in registration order. */

module Capabilities {
  import opened Wrappers
  import opened Seqs
  import opened Dicts
  import opened Intents

  datatype Capability = Capability(
    name: string,
    description: string,
    intentTypes: seq<IntentType>,
    actionKind: string,
    id: string,
    workflowId: Option<string>,
    enabled: bool,
    version: string)

  datatype RegistryError = InvalidCapability | DuplicateCapability | CapabilityNotFound

  type Registry = Dict<string, Capability>

  function IdOf(): Capability -> string {
    (c: Capability) => c.id
  }

  predicate WellFormed(c: Capability) {
    && c.id != "" && c.name != "" && c.intentTypes != [] && c.actionKind != ""
    && (c.actionKind == "workflow" ==> c.workflowId.Some? && c.workflowId.value != "")
  }

  /** The scan register makes over existing names. */
  predicate NameTaken(registry: Registry, name: string) {
    exists i :: 0 <= i < |Values(registry)| && Values(registry)[i].name == name
  }

  function Register(registry: Registry, c: Capability): Result<Registry, RegistryError> {
    if !WellFormed(c) then Err(InvalidCapability)
    else if c.id in registry.vals || NameTaken(registry, c.name) then Err(DuplicateCapability)
    else Ok(Put(registry, c.id, c))
  }

  function Unregister(registry: Registry, id: string): Result<Registry, RegistryError> {
    if id in registry.vals then Ok(Del(registry, id)) else Err(CapabilityNotFound)
  }

  function FirstWhere<T>(keep: T -> bool, s: seq<T>): Option<T> {
    if s == [] then None
    else if keep(s[0]) then Some(s[0])
    else FirstWhere(keep, s[1..])
  }

  function Named(name: string): Capability -> bool {
    (c: Capability) => c.name == name
  }

  function Supports(kind: IntentType): Capability -> bool {
    (c: Capability) => kind in c.intentTypes
  }

  function Enabled(): Capability -> bool {
    (c: Capability) => c.enabled
  }

  function GetByName(registry: Registry, name: string): Option<Capability> {
    FirstWhere(Named(name), Values(registry))
  }

  function FindByIntentType(registry: Registry, kind: IntentType): seq<Capability> {
    Filter(Supports(kind), Values(registry))
  }

  /** The dispatcher's policy: the first enabled capability supporting the intent type. */
  function Resolve(registry: Registry, kind: IntentType): Option<Capability> {
    FirstWhere(Enabled(), FindByIntentType(registry, kind))
  }

  // ---- Unique names ---------------------------------------------------------------

  ghost predicate Valid(registry: Registry) {
    && KeyedBy(registry, IdOf())
    && forall k, l :: k in registry.vals && l in registry.vals && registry.vals[k].name == registry.vals[l].name ==>
         k == l
  }

  lemma TakenIffSomeoneHasIt(registry: Registry, name: string)
    ensures NameTaken(registry, name) <==> exists k :: k in registry.vals && registry.vals[k].name == name
  {
    if exists k :: k in registry.vals && registry.vals[k].name == name {
      var k :| k in registry.vals && registry.vals[k].name == name;
      MemberOfValues(registry, registry.vals[k]);
    }
    if NameTaken(registry, name) {
      var i :| 0 <= i < |Values(registry)| && Values(registry)[i].name == name;
      assert registry.keys[i] in registry.vals;
    }
  }

  lemma RegisterKeepsValid(registry: Registry, c: Capability)
    requires Valid(registry) && Register(registry, c).Ok?
    ensures Valid(Register(registry, c).value)
  {
    TakenIffSomeoneHasIt(registry, c.name);
  }

  lemma UnregisterKeepsValid(registry: Registry, id: string)
    requires Valid(registry) && Unregister(registry, id).Ok?
    ensures Valid(Unregister(registry, id).value)
  {
    hide Filter;
  }

  /** The map from names to capabilities that the scans stand in for. */
  ghost predicate IsNameIndex(registry: Registry, names: map<string, Capability>) {
    && (forall k :: k in registry.vals ==>
          registry.vals[k].name in names && names[registry.vals[k].name] == registry.vals[k])
    && (forall n :: n in names ==>
          names[n].name == n && names[n].id in registry.vals && registry.vals[names[n].id] == names[n])
  }

  lemma {:induction false} FirstWhereFinds<T(!new)>(keep: T -> bool, s: seq<T>)
    ensures FirstWhere(keep, s).None? <==> forall i :: 0 <= i < |s| ==> !keep(s[i])
    ensures FirstWhere(keep, s).Some? ==>
      exists i :: 0 <= i < |s| && s[i] == FirstWhere(keep, s).value && keep(s[i])
        && forall j :: 0 <= j < i ==> !keep(s[j])
  {
    if s != [] && !keep(s[0]) {
      FirstWhereFinds(keep, s[1..]);
      if FirstWhere(keep, s).Some? {
        var i :| 0 <= i < |s[1..]| && s[1..][i] == FirstWhere(keep, s).value && keep(s[1..][i])
          && forall j :: 0 <= j < i ==> !keep(s[1..][j]);
        assert s[i + 1] == FirstWhere(keep, s).value;
        forall j | 0 <= j < i + 1
          ensures !keep(s[j])
        {
          assert j > 0 ==> s[j] == s[1..][j - 1];
        }
      } else {
        forall i | 0 <= i < |s|
          ensures !keep(s[i])
        {
          assert i > 0 ==> s[i] == s[1..][i - 1];
        }
      }
    }
  }

  /** Looking a name up by scanning gives what the name index holds. */
  lemma ScanIsIndexLookup(registry: Registry, names: map<string, Capability>, name: string)
    requires IsNameIndex(registry, names)
    ensures GetByName(registry, name) == if name in names then Some(names[name]) else None
    ensures NameTaken(registry, name) <==> name in names
  {
    var vs := Values(registry);
    FirstWhereFinds(Named(name), vs);
    TakenIffSomeoneHasIt(registry, name);
    if name in names {
      MemberOfValues(registry, names[name]);
      var i :| 0 <= i < |vs| && vs[i] == names[name];
      assert Named(name)(vs[i]);
    }
    if GetByName(registry, name).Some? {
      MemberOfValues(registry, GetByName(registry, name).value);
    }
  }

  // ---- Runs: the registry with scans refines one with two maps -------------------------

  datatype Op = Add(capability: Capability) | Drop(id: string)

  function Apply(registry: Registry, op: Op): Registry {
    match op
    case Add(c) => (match Register(registry, c) case Ok(more) => more case Err(_) => registry)
    case Drop(id) => (match Unregister(registry, id) case Ok(less) => less case Err(_) => registry)
  }

  function ApplyAll(registry: Registry, ops: seq<Op>): Registry {
    if ops == [] then registry else Apply(ApplyAll(registry, ops[..|ops| - 1]), ops[|ops| - 1])
  }

  /** The two-map registry accepts by index lookup and updates both maps. */
  function Index(names: map<string, Capability>, registry: Registry, op: Op): map<string, Capability> {
    match op
    case Add(c) =>
      if WellFormed(c) && c.id !in registry.vals && c.name !in names then names[c.name := c] else names
    case Drop(id) =>
      if id in registry.vals then names - {registry.vals[id].name} else names
  }

  function IndexAll(names: map<string, Capability>, registry: Registry, ops: seq<Op>): map<string, Capability> {
    if ops == [] then names
    else
      var front := ops[..|ops| - 1];
      Index(IndexAll(names, registry, front), ApplyAll(registry, front), ops[|ops| - 1])
  }

  lemma AddKeepsIndex(registry: Registry, names: map<string, Capability>, c: Capability)
    requires Valid(registry) && IsNameIndex(registry, names)
    requires WellFormed(c) && c.id !in registry.vals && c.name !in names
    ensures IsNameIndex(Put(registry, c.id, c), names[c.name := c])
  {
    hide Filter, Valid, WellFormed;
  }

  lemma DropKeepsIndex(registry: Registry, names: map<string, Capability>, id: string)
    requires Valid(registry) && IsNameIndex(registry, names) && id in registry.vals
    ensures IsNameIndex(Del(registry, id), names - {registry.vals[id].name})
  {
    hide Filter, WellFormed;
    assert Del(registry, id).vals == registry.vals - {id};
  }

  lemma ApplyKeepsIndex(registry: Registry, names: map<string, Capability>, op: Op)
    requires Valid(registry) && IsNameIndex(registry, names)
    ensures Valid(Apply(registry, op)) && IsNameIndex(Apply(registry, op), Index(names, registry, op))
  {
    match op
    case Add(c) =>
      ScanIsIndexLookup(registry, names, c.name);
      if Register(registry, c).Ok? {
        RegisterKeepsValid(registry, c);
        AddKeepsIndex(registry, names, c);
      }
      hide Valid, IsNameIndex, NameTaken, WellFormed, Put;
    case Drop(id) =>
      if id in registry.vals {
        UnregisterKeepsValid(registry, id);
        DropKeepsIndex(registry, names, id);
      }
      hide Valid, IsNameIndex, Del, Only;
  }

  /** Over every run of registrations and removals, refused ones included, ids and names stay
      unique and the name scans agree with the name index. */
  lemma {:induction false} RunKeepsIndex(registry: Registry, names: map<string, Capability>, ops: seq<Op>)
    requires Valid(registry) && IsNameIndex(registry, names)
    ensures Valid(ApplyAll(registry, ops)) && IsNameIndex(ApplyAll(registry, ops), IndexAll(names, registry, ops))
  {
    hide Apply, Index, Valid, IsNameIndex;
    if ops != [] {
      var front := ops[..|ops| - 1];
      RunKeepsIndex(registry, names, front);
      ApplyKeepsIndex(ApplyAll(registry, front), IndexAll(names, registry, front), ops[|ops| - 1]);
    }
  }

  // ---- Resolution ---------------------------------------------------------------------

  predicate Candidate(c: Capability, kind: IntentType) {
    kind in c.intentTypes && c.enabled
  }

  function CandidateFor(kind: IntentType): Capability -> bool {
    (c: Capability) => Candidate(c, kind)
  }

  lemma {:induction false} FirstOfFilter<T(!new)>(f: T -> bool, g: T -> bool, both: T -> bool, s: seq<T>)
    requires forall x :: both(x) == (f(x) && g(x))
    ensures FirstWhere(g, Filter(f, s)) == FirstWhere(both, s)
  {
    if s != [] {
      assert s == [s[0]] + s[1..];
      FilterConcat(f, [s[0]], s[1..]);
      FirstOfFilter(f, g, both, s[1..]);
      assert Filter(f, [s[0]]) == if f(s[0]) then [s[0]] else [];
      if f(s[0]) {
        assert ([s[0]] + Filter(f, s[1..]))[1..] == Filter(f, s[1..]);
      } else {
        assert [] + Filter(f, s[1..]) == Filter(f, s[1..]);
      }
    }
  }

  /** resolve returns the first registered capability that is enabled and supports the type,
      and nothing exactly when there is none. */
  lemma ResolveIsFirstEnabledMatch(registry: Registry, kind: IntentType)
    ensures Resolve(registry, kind).None? <==>
      forall i :: 0 <= i < |Values(registry)| ==> !Candidate(Values(registry)[i], kind)
    ensures Resolve(registry, kind).Some? ==>
      exists i :: 0 <= i < |Values(registry)| && Values(registry)[i] == Resolve(registry, kind).value
        && Candidate(Values(registry)[i], kind)
        && forall j :: 0 <= j < i ==> !Candidate(Values(registry)[j], kind)
  {
    FirstOfFilter(Supports(kind), Enabled(), CandidateFor(kind), Values(registry));
    FirstWhereFinds(CandidateFor(kind), Values(registry));
    if Resolve(registry, kind).Some? {
      var vs := Values(registry);
      var i :| 0 <= i < |vs| && vs[i] == Resolve(registry, kind).value && CandidateFor(kind)(vs[i])
        && forall j :: 0 <= j < i ==> !CandidateFor(kind)(vs[j]);
      assert forall j :: 0 <= j < i ==> CandidateFor(kind)(vs[j]) == Candidate(vs[j], kind);
      assert Candidate(vs[i], kind);
    }
  }

  lemma {:induction false} FirstSurvives<T(!new)>(first: T -> bool, keep: T -> bool, s: seq<T>)
    requires FirstWhere(first, s).Some? ==> keep(FirstWhere(first, s).value)
    ensures FirstWhere(first, Filter(keep, s)) == FirstWhere(first, s)
  {
    if s != [] {
      assert s == [s[0]] + s[1..];
      FilterConcat(keep, [s[0]], s[1..]);
      assert Filter(keep, [s[0]]) == if keep(s[0]) then [s[0]] else [];
      if !first(s[0]) {
        FirstSurvives(first, keep, s[1..]);
        if keep(s[0]) {
          assert ([s[0]] + Filter(keep, s[1..]))[1..] == Filter(keep, s[1..]);
        } else {
          assert [] + Filter(keep, s[1..]) == Filter(keep, s[1..]);
        }
      }
    }
  }

  function NotWithId(id: string): Capability -> bool {
    (c: Capability) => c.id != id
  }

  lemma UnregisterFilters(registry: Registry, id: string)
    requires KeyedBy(registry, IdOf())
    ensures Values(Del(registry, id)) == Filter(NotWithId(id), Values(registry))
  {
    OnlyAgree(registry, Except(id), KeyPasses(registry, NotWithId(id)));
    ValuesWhere(registry, NotWithId(id));
  }

  /** Unregistering any capability other than the one resolved leaves resolution unchanged. */
  lemma ResolveIgnoresOthers(registry: Registry, kind: IntentType, other: string)
    requires Valid(registry) && Unregister(registry, other).Ok?
    requires Resolve(registry, kind).Some? ==> Resolve(registry, kind).value.id != other
    ensures Resolve(Unregister(registry, other).value, kind) == Resolve(registry, kind)
  {
    var less := Del(registry, other);
    UnregisterFilters(registry, other);
    FirstOfFilter(Supports(kind), Enabled(), CandidateFor(kind), Values(registry));
    FirstOfFilter(Supports(kind), Enabled(), CandidateFor(kind), Values(less));
    FirstSurvives(CandidateFor(kind), NotWithId(other), Values(registry));
  }
}

/** What registering, removing and finding capabilities comes to. */
module CapabilityEffects {
  import opened Wrappers
  import opened Seqs
  import opened Dicts
  import opened Intents
  import opened Capabilities

  predicate Malformed(c: Capability) {
    || c.id == "" || c.name == "" || c.intentTypes == [] || c.actionKind == ""
    || (c.actionKind == "workflow" && (c.workflowId == None || c.workflowId == Some("")))
  }

  /** register: a malformed capability is refused first, then one whose id or name is in use;
      otherwise it goes last and nothing else changes. */
  lemma RegisterEffect(registry: Registry, c: Capability)
    ensures var clash := exists k :: k in registry.vals && (k == c.id || registry.vals[k].name == c.name);
      match Register(registry, c)
      case Err(e) => if Malformed(c) then e == InvalidCapability else clash && e == DuplicateCapability
      case Ok(more) =>
        && !Malformed(c) && !clash
        && Binds(registry, more, c.id, c) && more.keys == registry.keys + [c.id]
  {
    TakenIffSomeoneHasIt(registry, c.name);
    PutBinds(registry, c.id, c);
    hide NameTaken, Put;
  }

  /** unregister: that capability goes and the others keep their order. */
  lemma UnregisterEffect(registry: Registry, id: string)
    ensures match Unregister(registry, id)
      case Err(e) => id !in registry.vals && e == CapabilityNotFound
      case Ok(less) =>
        id in registry.vals && Unbinds(registry, less, id) && less.keys == Filter(Except(id), registry.keys)
  {
    DelUnbinds(registry, id);
    hide Filter, Del;
  }

  /** find_by_intent_type: exactly the capabilities that list the type, enabled or not, in
      registration order. */
  lemma FindEffect(registry: Registry, kind: IntentType) returns (places: seq<int>)
    ensures Picks(Values(registry), places, FindByIntentType(registry, kind))
    ensures forall i, j :: 0 <= i < j < |places| ==> places[i] < places[j]
    ensures forall n :: n in places <==> 0 <= n < |registry.keys| && kind in Values(registry)[n].intentTypes
  {
    places := FilterPicks(Supports(kind), Values(registry));
    hide Filter, Picks, Values;
  }
}

module CapabilityRegistries {
  import opened Wrappers
  import opened Seqs
  import opened Dicts
  import opened Intents
  import opened Capabilities

  datatype Notice = CapabilityRegistered(id: string, name: string) | CapabilityUnregistered(id: string, name: string)

  class CapabilityRegistry {
    var capabilities: Registry
    var notices: seq<Notice>

    ghost predicate Valid()
      reads this
    {
      Capabilities.Valid(capabilities)
    }

    constructor ()
      ensures Valid() && capabilities == Empty() && notices == []
    {
      capabilities, notices := Empty(), [];
    }

    method Register(c: Capability) returns (r: Result<(), RegistryError>)
      requires Valid()
      modifies this
      ensures Valid()
      ensures match Capabilities.Register(old(capabilities), c)
        case Ok(more) =>
          r == Ok(()) && capabilities == more
          && notices == old(notices) + [CapabilityRegistered(c.id, c.name)]
        case Err(error) => r == Err(error) && unchanged(this)
    {
      if !WellFormed(c) {
        return Err(InvalidCapability);
      }
      if c.id in capabilities.vals {
        return Err(DuplicateCapability);
      }
      var existing := Values(capabilities);
      for i := 0 to |existing|
        invariant forall j :: 0 <= j < i ==> existing[j].name != c.name
      {
        if existing[i].name == c.name {
          return Err(DuplicateCapability);
        }
      }
      RegisterKeepsValid(capabilities, c);
      capabilities := Put(capabilities, c.id, c);
      notices := notices + [CapabilityRegistered(c.id, c.name)];
      return Ok(());
    }

    method Unregister(id: string) returns (r: Result<(), RegistryError>)
      requires Valid()
      modifies this
      ensures Valid()
      ensures match Capabilities.Unregister(old(capabilities), id)
        case Ok(less) =>
          r == Ok(()) && capabilities == less
          && var c := old(capabilities).vals[id]; notices == old(notices) + [CapabilityUnregistered(c.id, c.name)]
        case Err(error) => r == Err(error) && unchanged(this)
    {
      hide Filter;
      if id !in capabilities.vals {
        return Err(CapabilityNotFound);
      }
      UnregisterKeepsValid(capabilities, id);
      var c := capabilities.vals[id];
      capabilities := Del(capabilities, id);
      notices := notices + [CapabilityUnregistered(c.id, c.name)];
      return Ok(());
    }

    method GetByName(name: string) returns (r: Result<Capability, RegistryError>)
      ensures r == match Capabilities.GetByName(capabilities, name)
        case Some(c) => Ok(c)
        case None => Err(CapabilityNotFound)
    {
      var existing := Values(capabilities);
      assert existing[0..] == existing;
      for i := 0 to |existing|
        invariant Capabilities.GetByName(capabilities, name) == FirstWhere(Named(name), existing[i..])
      {
        assert existing[i..][1..] == existing[i + 1..];
        if existing[i].name == name {
          return Ok(existing[i]);
        }
      }
      return Err(CapabilityNotFound);
    }

    method FindByIntentType(kind: IntentType) returns (r: seq<Capability>)
      ensures r == Capabilities.FindByIntentType(capabilities, kind)
    {
      r := Filter(Supports(kind), Values(capabilities));
    }

    function Contains(id: string): bool
      reads this
    {
      id in capabilities.vals
    }
  }
}
