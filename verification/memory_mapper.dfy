/** Translation of memory records into entities and relationships. */

module MemoryMapper {
  import opened Wrappers
  import opened Seqs
  import opened Data
  import opened Graphs

  datatype MapperError = InvalidMemoryRecord

  function EntityId(key: string): string {
    "memory:" + key
  }

  function AttributesOf(record: MemoryRecord): Attributes {
    Attributes(map[
      "value" := record.value,
      "memory_id" := Text(record.id),
      "version" := Int(record.version),
      "created_at" := Time(record.createdAt),
      "updated_at" := Time(record.updatedAt),
      "expires_at" := match record.expiresAt case None => Null case Some(t) => Time(t)
    ])
  }

  function MemoryToEntity(record: MemoryRecord): Result<Entity, MapperError> {
    if record.key == "" then Err(InvalidMemoryRecord)
    else Ok(Entity(EntityId(record.key), "memory", record.key, AttributesOf(record)))
  }

  function UpdateEntity(existing: Entity, record: MemoryRecord): Result<Entity, MapperError> {
    if record.key == "" then Err(InvalidMemoryRecord)
    else Ok(Entity(existing.id, "memory", record.key, AttributesOf(record)))
  }

  function RemoveEntityId(key: string): Result<string, MapperError> {
    if key == "" then Err(InvalidMemoryRecord) else Ok(EntityId(key))
  }

  // ---- The related_keys convention --------------------------------------------

  function Get(entries: seq<(Value, Value)>, key: Value): Option<Value> {
    if entries == [] then None
    else if entries[0].0 == key then Some(entries[0].1)
    else Get(entries[1..], key)
  }

  function Strings(values: seq<Value>): seq<string> {
    if values == [] then []
    else
      var last := values[|values| - 1];
      Strings(values[..|values| - 1]) + (if last.Text? then [last.s] else [])
  }

  function FirstOf(): ((Value, Value)) -> Value {
    (entry: (Value, Value)) => entry.0
  }

  /** Iterating a mapping yields its keys; iterating anything else that is not an
      iterable raises TypeError, which the mapper turns into no keys. */
  function RelatedKeys(value: Value): seq<string> {
    if !value.Mapping? then []
    else
      match Get(value.entries, Text("related_keys"))
      case None => []
      case Some(Items(elements)) => Strings(elements)
      case Some(Mapping(entries)) => Strings(Map(FirstOf(), entries))
      case Some(_) => []
  }

  /** One relationship per related key, in order, under consecutive fresh ids. */
  function Relationships(record: MemoryRecord, first: nat): (rs: seq<Relationship>)
    ensures |rs| == |RelatedKeys(record.value)|
  {
    var related := RelatedKeys(record.value);
    seq(|related|, i requires 0 <= i < |related| => Reference(record.key, related[i], Drawn(first + i)))
  }

  function Reference(source: string, target: string, id: Id): Relationship {
    Relationship(id, EntityId(source), EntityId(target), "related_to",
                 Attributes(map["source_key" := Text(source), "target_key" := Text(target)]))
  }

  /** Distinct keys never share an entity. */
  lemma EntityIdInjective(a: string, b: string)
    requires EntityId(a) == EntityId(b)
    ensures a == b
  {
    assert EntityId(a)[7..] == a && EntityId(b)[7..] == b;
  }

  /** Rebuilding an entity this mapper made gives what translating the record afresh gives. */
  lemma UpdateIsRebuild(existing: Entity, record: MemoryRecord)
    requires existing.id == EntityId(record.key)
    ensures UpdateEntity(existing, record) == MemoryToEntity(record)
  {
  }

  /** A key is related exactly when it is a string the record's "related_keys" entry yields. */
  lemma {:induction false} StringsAreTheTexts(values: seq<Value>, s: string)
    ensures s in Strings(values) <==> Text(s) in values
  {
    if values != [] {
      StringsAreTheTexts(values[..|values| - 1], s);
    }
  }

  // ---- What the related_keys convention means ------------------------------------------

  /** Entry i is the first one under "related_keys". */
  ghost predicate ConventionAt(entries: seq<(Value, Value)>, i: int) {
    && 0 <= i < |entries| && entries[i].0 == Text("related_keys")
    && forall j :: 0 <= j < i ==> entries[j].0 != Text("related_keys")
  }

  function IsText(): Value -> bool {
    (v: Value) => v.Text?
  }

  function AsText(): string -> Value {
    (s: string) => Text(s)
  }

  /** Iterating the candidate yields these strings: those among the elements of a collection, or
      among the keys of a mapping, in order, one for each occurrence; nothing else yields any. */
  ghost predicate Yields(candidate: Value, keys: seq<string>) {
    match candidate
    case Items(es) => Map(AsText(), keys) == Filter(IsText(), es)
    case Mapping(ms) =>
      Map(AsText(), keys) == Filter(IsText(), seq(|ms|, i requires 0 <= i < |ms| => ms[i].0))
    case _ => keys == []
  }

  /** The keys a record with this value is related to. */
  ghost predicate RelatedTo(value: Value, keys: seq<string>) {
    && (forall i :: value.Mapping? && ConventionAt(value.entries, i) ==> Yields(value.entries[i].1, keys))
    && ((value.Mapping? ==> forall i :: 0 <= i < |value.entries| ==> value.entries[i].0 != Text("related_keys")) ==>
          keys == [])
  }

  /** t is one of them. */
  ghost predicate Names(value: Value, t: string) {
    value.Mapping? && exists i :: ConventionAt(value.entries, i) && YieldsKey(value.entries[i].1, t)
  }

  ghost predicate YieldsKey(candidate: Value, t: string) {
    || (candidate.Items? && Text(t) in candidate.elements)
    || (candidate.Mapping? && exists j :: 0 <= j < |candidate.entries| && candidate.entries[j].0 == Text(t))
  }

  lemma {:induction false} GetFindsTheFirst(entries: seq<(Value, Value)>, key: Value)
    ensures Get(entries, key).None? <==> forall i :: 0 <= i < |entries| ==> entries[i].0 != key
    ensures Get(entries, key).Some? ==>
      exists i :: 0 <= i < |entries| && entries[i].0 == key && entries[i].1 == Get(entries, key).value
        && forall j :: 0 <= j < i ==> entries[j].0 != key
  {
    if entries != [] && entries[0].0 != key {
      var rest := entries[1..];
      GetFindsTheFirst(rest, key);
      assert forall i :: 0 < i < |entries| ==> entries[i] == rest[i - 1];
      if Get(entries, key).Some? {
        var i :| 0 <= i < |rest| && rest[i].0 == key && rest[i].1 == Get(rest, key).value
          && forall j :: 0 <= j < i ==> rest[j].0 != key;
        assert entries[i + 1].0 == key;
      } else {
        assert forall i :: 0 <= i < |rest| ==> rest[i].0 != key;
      }
    } else if entries != [] {
      assert entries[0].0 == key;
    }
  }

  lemma {:induction false} StringsInOrder(values: seq<Value>)
    ensures Map(AsText(), Strings(values)) == Filter(IsText(), values)
  {
    if values != [] {
      var front, last := values[..|values| - 1], values[|values| - 1];
      StringsInOrder(front);
      if last.Text? {
        assert Map(AsText(), Strings(front) + [last.s]) == Map(AsText(), Strings(front)) + [last];
      } else {
        assert Strings(front) + [] == Strings(front);
      }
    }
  }

  /** What the mapper computes is what the convention says. */
  lemma RelatedKeysFollowTheConvention(value: Value)
    ensures RelatedTo(value, RelatedKeys(value))
  {
    hide Get, Strings;
    if value.Mapping? {
      var entries := value.entries;
      GetFindsTheFirst(entries, Text("related_keys"));
      forall i | ConventionAt(entries, i)
        ensures Yields(entries[i].1, RelatedKeys(value))
      {
        FirstIsUnique(entries, i);
        CandidateYields(value, entries[i].1);
      }
    }
  }

  lemma FirstIsUnique(entries: seq<(Value, Value)>, i: int)
    requires ConventionAt(entries, i)
    ensures Get(entries, Text("related_keys")) == Some(entries[i].1)
  {
    hide Get;
    GetFindsTheFirst(entries, Text("related_keys"));
    assert entries[i].0 == Text("related_keys");
    var k :| 0 <= k < |entries| && entries[k].0 == Text("related_keys")
      && entries[k].1 == Get(entries, Text("related_keys")).value
      && forall j :: 0 <= j < k ==> entries[j].0 != Text("related_keys");
  }

  lemma CandidateYields(value: Value, candidate: Value)
    requires value.Mapping? && Get(value.entries, Text("related_keys")) == Some(candidate)
    ensures Yields(candidate, RelatedKeys(value))
  {
    hide Get, Strings, Filter;
    match candidate
    case Items(es) => StringsInOrder(es);
    case Mapping(ms) =>
      StringsInOrder(Map(FirstOf(), ms));
      assert Map(FirstOf(), ms) == seq(|ms|, i requires 0 <= i < |ms| => ms[i].0);
    case _ =>
  }

  lemma SameTexts(a: seq<string>, b: seq<string>)
    requires Map(AsText(), a) == Map(AsText(), b)
    ensures a == b
  {
    assert |a| == |Map(AsText(), a)| == |b|;
    forall i | 0 <= i < |a|
      ensures a[i] == b[i]
    {
      assert Map(AsText(), a)[i] == Map(AsText(), b)[i];
    }
  }

  /** The convention leaves no choice. */
  lemma RelatedKeysAreThoseKeys(value: Value, keys: seq<string>)
    requires RelatedTo(value, keys)
    ensures keys == RelatedKeys(value)
  {
    hide Get, Strings, Filter, RelatedKeys;
    RelatedKeysFollowTheConvention(value);
    if value.Mapping? {
      FirstIfAny(value.entries);
      if i :| ConventionAt(value.entries, i) {
        assert Yields(value.entries[i].1, keys) && Yields(value.entries[i].1, RelatedKeys(value));
        if value.entries[i].1.Items? || value.entries[i].1.Mapping? {
          SameTexts(keys, RelatedKeys(value));
        }
      }
    }
  }

  lemma FirstIfAny(entries: seq<(Value, Value)>)
    ensures (exists i :: ConventionAt(entries, i)) ||
      forall i :: 0 <= i < |entries| ==> entries[i].0 != Text("related_keys")
  {
    hide Get;
    GetFindsTheFirst(entries, Text("related_keys"));
    if Get(entries, Text("related_keys")).Some? {
      var i :| 0 <= i < |entries| && entries[i].0 == Text("related_keys")
        && entries[i].1 == Get(entries, Text("related_keys")).value
        && forall j :: 0 <= j < i ==> entries[j].0 != Text("related_keys");
      assert ConventionAt(entries, i);
    }
  }

  lemma YieldsIff(candidate: Value, keys: seq<string>, t: string)
    requires Yields(candidate, keys)
    ensures t in keys <==> YieldsKey(candidate, t)
  {
    match candidate
    case Items(es) => TextAmong(es, keys, t);
    case Mapping(ms) =>
      var firsts := seq(|ms|, i requires 0 <= i < |ms| => ms[i].0);
      TextAmong(firsts, keys, t);
      if YieldsKey(candidate, t) {
        var j :| 0 <= j < |ms| && ms[j].0 == Text(t);
        assert firsts[j] == Text(t);
      }
    case _ =>
  }

  lemma TextAmong(values: seq<Value>, keys: seq<string>, t: string)
    requires Map(AsText(), keys) == Filter(IsText(), values)
    ensures t in keys <==> Text(t) in values
  {
    FilterMembers(IsText(), values);
    hide Filter;
    if t in keys {
      var i :| 0 <= i < |keys| && keys[i] == t;
      assert Map(AsText(), keys)[i] == Text(t);
    }
    if Text(t) in values {
      assert Text(t) in Map(AsText(), keys);
      var i :| 0 <= i < |keys| && Map(AsText(), keys)[i] == Text(t);
      assert keys[i] == t;
    }
  }

  /** A key is related exactly when the convention names it. */
  lemma NamesIff(value: Value, t: string)
    ensures t in RelatedKeys(value) <==> Names(value, t)
  {
    hide Get, Strings, Yields, YieldsKey;
    RelatedKeysFollowTheConvention(value);
    if value.Mapping? {
      FirstIfAny(value.entries);
      if i :| ConventionAt(value.entries, i) {
        YieldsIff(value.entries[i].1, RelatedKeys(value), t);
        forall k | ConventionAt(value.entries, k)
          ensures k == i
        {
        }
      }
    }
    hide RelatedKeys;
  }

  // ---- What the mapper writes ------------------------------------------------------------

  /** The entity of a record carries it field by field. */
  lemma EntityCarriesTheRecord(r: MemoryRecord)
    ensures MemoryToEntity(r) == Err(InvalidMemoryRecord) <==> r.key == ""
    ensures MemoryToEntity(r).Ok? ==>
      var e := MemoryToEntity(r).value; var written := e.attributes.entries;
      && e.id == "memory:" + r.key && e.entityType == "memory" && e.name == r.key
      && written.Keys == {"value", "memory_id", "version", "created_at", "updated_at", "expires_at"}
      && written["value"] == r.value && written["memory_id"] == Text(r.id) && written["version"] == Int(r.version)
      && written["created_at"] == Time(r.createdAt) && written["updated_at"] == Time(r.updatedAt)
      && written["expires_at"] == if r.expiresAt.Some? then Time(r.expiresAt.value) else Null
  {
  }

  /** There is one relationship per related key, in order, from the record's entity to the
      key's, under ids drawn one after the other. */
  lemma ReferencesFollowTheKeys(r: MemoryRecord, first: nat, keys: seq<string>)
    requires RelatedTo(r.value, keys)
    ensures |Relationships(r, first)| == |keys|
    ensures forall i :: 0 <= i < |keys| ==>
      var x := Relationships(r, first)[i];
      && x.id == Drawn(first + i) && x.kind == "related_to"
      && x.source == "memory:" + r.key && x.target == "memory:" + keys[i]
      && x.attributes.entries == map["source_key" := Text(r.key), "target_key" := Text(keys[i])]
  {
    RelatedKeysAreThoseKeys(r.value, keys);
    hide RelatedKeys;
  }
}
