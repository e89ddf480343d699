/** The categorised knowledge service: one index over many per-category files. */

module Knowledges {
  import opened Wrappers
  import opened Seqs
  import opened Dicts
  import opened Data

  datatype KnowledgeRecord = KnowledgeRecord(
    category: string,
    key: string,
    value: Value,
    id: string,
    createdAt: int,
    updatedAt: int,
    version: int)

  type Index = Dict<string, KnowledgeRecord>

  /** What storage holds for each category that has a file. */
  type Files = map<string, seq<KnowledgeRecord>>

  datatype KnowledgeError = EmptyKey | EmptyCategory | Duplicate | NotFound | SaveFailed

  datatype Operation = Created | Updated | Deleted

  datatype Notice = KnowledgeChanged(operation: Operation, key: string, category: string, version: int)

  datatype Knowledge = Knowledge(index: Index, files: Files, notices: seq<Notice>)

  function KeyOf(): KnowledgeRecord -> string {
    (r: KnowledgeRecord) => r.key
  }

  function InCategory(category: string): KnowledgeRecord -> bool {
    (r: KnowledgeRecord) => r.category == category
  }

  function NotKeyed(key: string): KnowledgeRecord -> bool {
    (r: KnowledgeRecord) => r.key != key
  }

  function File(files: Files, category: string): seq<KnowledgeRecord> {
    if category in files then files[category] else []
  }

  function ListCategory(index: Index, category: string): seq<KnowledgeRecord> {
    Filter(InCategory(category), Values(index))
  }

  function Touch(r: KnowledgeRecord, value: Value, stamp: int): KnowledgeRecord {
    r.(value := value, updatedAt := stamp, version := r.version + 1)
  }

  function Notify(operation: Operation, r: KnowledgeRecord): Notice {
    KnowledgeChanged(operation, r.key, r.category, r.version)
  }

  // ---- One call -------------------------------------------------------------------

  datatype Op =
    | PutRecord(record: KnowledgeRecord)
    | DeleteKey(key: string)
    | UpdateKey(key: string, value: Value, stamp: int)

  /** A write, and whether storage would accept the save it leads to. */
  datatype Call = Call(op: Op, saves: bool)

  datatype Answer = Done | Changed(record: KnowledgeRecord) | Failed(error: KnowledgeError)

  /** The record a call writes or removes, the index it leaves and what it announces. */
  datatype Write = Write(record: KnowledgeRecord, index: Index, operation: Operation)

  function Effect(index: Index, op: Op): Result<Write, KnowledgeError> {
    match op
    case PutRecord(record) =>
      if record.key == "" then Err(EmptyKey)
      else if record.category == "" then Err(EmptyCategory)
      else if record.key in index.vals then Err(Duplicate)
      else Ok(Write(record, Put(index, record.key, record), Created))
    case DeleteKey(key) =>
      if key !in index.vals then Err(NotFound)
      else Ok(Write(index.vals[key], Del(index, key), Deleted))
    case UpdateKey(key, value, stamp) =>
      if key !in index.vals then Err(NotFound)
      else
        var updated := Touch(index.vals[key], value, stamp);
        Ok(Write(updated, Put(index, key, updated), Updated))
  }

  /** The index changes, then the record's category is saved whole; a failed save leaves the
      change in the index, the old file in storage, and nothing published. */
  function Step(k: Knowledge, c: Call): (Knowledge, Answer) {
    match Effect(k.index, c.op)
    case Err(e) => (k, Failed(e))
    case Ok(w) =>
      if !c.saves then (k.(index := w.index), Failed(SaveFailed))
      else
        (Knowledge(w.index, k.files[w.record.category := ListCategory(w.index, w.record.category)],
                   k.notices + [Notify(w.operation, w.record)]),
         if w.operation.Updated? then Changed(w.record) else Done)
  }

  // ---- Loading ----------------------------------------------------------------------

  /** The records of the listed categories, file after file. */
  function Stored(files: Files, categories: seq<string>): seq<KnowledgeRecord> {
    if categories == [] then []
    else Stored(files, categories[..|categories| - 1]) + File(files, categories[|categories| - 1])
  }

  function Load(files: Files, categories: seq<string>): Index {
    FromValues(Stored(files, categories), KeyOf())
  }

  /** list_categories names each file once, in whatever order. */
  ghost predicate Enumerates(categories: seq<string>, files: Files) {
    NoDup(categories) && forall c :: c in categories <==> c in files
  }

  /** Every record is in its own category's file and keys are unique across all files. */
  ghost predicate WellFormed(files: Files) {
    && (forall c :: c in files ==> DistinctOn(KeyOf(), files[c]) && forall r :: r in files[c] ==> r.category == c)
    && (forall c, d, r, s :: c in files && d in files && r in files[c] && s in files[d] && r.key == s.key ==> c == d)
  }

  /** The categories outside `dirty` have files that hold exactly their records, in index order. */
  ghost predicate Aligned(k: Knowledge, dirty: set<string>) {
    && KeyedBy(k.index, KeyOf())
    && forall c :: c !in dirty ==> File(k.files, c) == ListCategory(k.index, c)
  }

  // ---- One write changes one category -----------------------------------------------------

  lemma FilterIgnoresUpdate<T(!new)>(keep: T -> bool, s: seq<T>, i: nat, x: T)
    requires i < |s| && !keep(s[i]) && !keep(x)
    ensures Filter(keep, s[i := x]) == Filter(keep, s)
  {
    var a, b := s[..i], s[i + 1..];
    assert s == a + [s[i]] + b && s[i := x] == a + [x] + b;
    FilterConcat(keep, a + [s[i]], b);
    FilterConcat(keep, a + [x], b);
    FilterSnoc(keep, a, s[i]);
    FilterSnoc(keep, a, x);
  }

  lemma PutLeavesOthers(index: Index, r: KnowledgeRecord, c: string)
    requires r.key !in index.vals && c != r.category
    ensures ListCategory(Put(index, r.key, r), c) == ListCategory(index, c)
  {
    ValuesPutFresh(index, r.key, r);
    FilterSnoc(InCategory(c), Values(index), r);
    hide Filter, Values;
    assert Filter(InCategory(c), Values(index)) + [] == Filter(InCategory(c), Values(index));
  }

  lemma DeleteLeavesOthers(index: Index, key: string, c: string)
    requires KeyedBy(index, KeyOf()) && key in index.vals && c != index.vals[key].category
    ensures ListCategory(Del(index, key), c) == ListCategory(index, c)
  {
    OnlyAgree(index, Except(key), KeyPasses(index, NotKeyed(key)));
    ValuesWhere(index, NotKeyed(key));
    forall r | r in Values(index)
      ensures InCategory(c)(r) == (NotKeyed(key)(r) && InCategory(c)(r))
    {
      MemberOfValues(index, r);
    }
    FilterTwice(NotKeyed(key), InCategory(c), InCategory(c), Values(index));
    hide Filter, Values;
  }

  lemma UpdateLeavesOthers(index: Index, key: string, r: KnowledgeRecord, c: string)
    requires key in index.vals && r.category == index.vals[key].category && c != r.category
    ensures ListCategory(Put(index, key, r), c) == ListCategory(index, c)
  {
    ValuesPutExisting(index, key, r);
    FilterIgnoresUpdate(InCategory(c), Values(index), IndexOf(index.keys, key), r);
  }

  lemma EffectTouchesOneCategory(index: Index, op: Op, c: string)
    requires KeyedBy(index, KeyOf()) && Effect(index, op).Ok?
    ensures KeyedBy(Effect(index, op).value.index, KeyOf())
    ensures c != Effect(index, op).value.record.category ==>
      ListCategory(Effect(index, op).value.index, c) == ListCategory(index, c)
  {
    hide ListCategory, Filter;
    if c != Effect(index, op).value.record.category {
      match op
      case PutRecord(record) => PutLeavesOthers(index, record, c);
      case DeleteKey(key) => DeleteLeavesOthers(index, key, c);
      case UpdateKey(key, value, stamp) => UpdateLeavesOthers(index, key, Touch(index.vals[key], value, stamp), c);
    }
  }

  /** The categories whose last save failed. */
  function DirtyAfter(dirty: set<string>, index: Index, c: Call): set<string> {
    match Effect(index, c.op)
    case Err(_) => dirty
    case Ok(w) => if c.saves then dirty - {w.record.category} else dirty + {w.record.category}
  }

  lemma StepStaysAligned(k: Knowledge, c: Call, dirty: set<string>)
    requires Aligned(k, dirty)
    ensures Aligned(Step(k, c).0, DirtyAfter(dirty, k.index, c))
  {
    hide ListCategory, Effect, KeyedBy;
    if Effect(k.index, c.op).Ok? {
      var w := Effect(k.index, c.op).value;
      EffectTouchesOneCategory(k.index, c.op, "");
      forall category | category !in DirtyAfter(dirty, k.index, c)
        ensures File(Step(k, c).0.files, category) == ListCategory(w.index, category)
      {
        EffectTouchesOneCategory(k.index, c.op, category);
      }
    }
  }

  function Run(k: Knowledge, calls: seq<Call>): Knowledge {
    if calls == [] then k else Step(Run(k, calls[..|calls| - 1]), calls[|calls| - 1]).0
  }

  function Dirty(dirty: set<string>, k: Knowledge, calls: seq<Call>): set<string> {
    if calls == [] then dirty
    else
      var front := calls[..|calls| - 1];
      DirtyAfter(Dirty(dirty, k, front), Run(k, front).index, calls[|calls| - 1])
  }

  /** Over every run and every pattern of failing saves, each category whose last save did not
      fail has a file holding exactly its records, in index order. */
  lemma {:induction false} RunStaysAligned(k: Knowledge, calls: seq<Call>, dirty: set<string>)
    requires Aligned(k, dirty)
    ensures Aligned(Run(k, calls), Dirty(dirty, k, calls))
  {
    hide Step, DirtyAfter, Aligned;
    if calls != [] {
      var front := calls[..|calls| - 1];
      RunStaysAligned(k, front, dirty);
      StepStaysAligned(Run(k, front), calls[|calls| - 1], Dirty(dirty, k, front));
    }
  }

  /** The call writes to this category and its save is accepted. */
  predicate SavesTo(index: Index, c: Call, category: string) {
    c.saves && Effect(index, c.op).Ok? && Effect(index, c.op).value.record.category == category
  }

  /** The category's listing right after its last accepted save; its first file if there was none. */
  function LastSaved(k: Knowledge, calls: seq<Call>, category: string): seq<KnowledgeRecord> {
    if calls == [] then File(k.files, category)
    else
      var front := calls[..|calls| - 1];
      if SavesTo(Run(k, front).index, calls[|calls| - 1], category) then ListCategory(Run(k, calls).index, category)
      else LastSaved(k, front, category)
  }

  /** Whatever saves fail, each category's file, unsaved changes or not, holds its listing as of
      its last accepted save. */
  lemma {:induction false} FilesHoldLastSaved(k: Knowledge, calls: seq<Call>, category: string)
    ensures File(Run(k, calls).files, category) == LastSaved(k, calls, category)
  {
    hide ListCategory, Effect;
    if calls != [] {
      FilesHoldLastSaved(k, calls[..|calls| - 1], category);
    }
  }

  lemma {:induction false} NothingDirtyIfSavesSucceed(k: Knowledge, calls: seq<Call>)
    requires forall i :: 0 <= i < |calls| ==> calls[i].saves
    ensures Dirty({}, k, calls) == {}
  {
    if calls != [] {
      NothingDirtyIfSavesSucceed(k, calls[..|calls| - 1]);
    }
  }

  // ---- Reloading -----------------------------------------------------------------------------

  lemma DistinctConcat<T(!new), K>(key: T -> K, a: seq<T>, b: seq<T>)
    requires DistinctOn(key, a) && DistinctOn(key, b)
    requires forall x, y :: x in a && y in b ==> key(x) != key(y)
    ensures DistinctOn(key, a + b)
  {
    forall i, j | 0 <= i < j < |a + b|
      ensures key((a + b)[i]) != key((a + b)[j])
    {
      if i < |a| <= j {
        assert a[i] in a && b[j - |a|] in b;
      }
    }
  }

  lemma {:induction false} StoredMembers(files: Files, categories: seq<string>)
    ensures forall r :: r in Stored(files, categories) <==> exists c :: c in categories && r in File(files, c)
  {
    if categories != [] {
      var front, last := categories[..|categories| - 1], categories[|categories| - 1];
      assert categories == front + [last];
      StoredMembers(files, front);
    }
  }

  lemma {:induction false} StoredDistinct(files: Files, categories: seq<string>)
    requires WellFormed(files) && NoDup(categories)
    ensures DistinctOn(KeyOf(), Stored(files, categories))
  {
    if categories != [] {
      var front, last := categories[..|categories| - 1], categories[|categories| - 1];
      StoredDistinct(files, front);
      StoredMembers(files, front);
      DistinctConcat(KeyOf(), Stored(files, front), File(files, last));
    }
  }

  lemma FileByCategory(files: Files, file: string, c: string)
    requires WellFormed(files)
    ensures Filter(InCategory(c), File(files, file)) == if c == file then File(files, file) else []
  {
    if c == file {
      FilterAll(InCategory(c), File(files, file));
    } else {
      FilterNone(InCategory(c), File(files, file));
    }
  }

  lemma {:induction false} StoredByCategory(files: Files, categories: seq<string>, c: string)
    requires WellFormed(files) && NoDup(categories)
    ensures Filter(InCategory(c), Stored(files, categories)) == if c in categories then File(files, c) else []
  {
    hide Filter, WellFormed, File;
    if categories != [] {
      var front, last := categories[..|categories| - 1], categories[|categories| - 1];
      assert categories == front + [last];
      StoredByCategory(files, front, c);
      FilterConcat(InCategory(c), Stored(files, front), File(files, last));
      FileByCategory(files, last, c);
    } else {
      assert Filter(InCategory(c), Stored(files, categories)) == [] by {
        FilterNone(InCategory(c), []);
      }
    }
  }

  /** A service loaded from well-formed storage starts with every file aligned. */
  lemma LoadIsAligned(files: Files, categories: seq<string>)
    requires WellFormed(files) && Enumerates(categories, files)
    ensures Aligned(Knowledge(Load(files, categories), files, []), {})
  {
    hide Filter, WellFormed, Stored;
    StoredDistinct(files, categories);
    FromValuesKeys(Stored(files, categories), KeyOf());
    FromDistinctValues(Stored(files, categories), KeyOf());
    forall c
      ensures File(files, c) == ListCategory(Load(files, categories), c)
    {
      StoredByCategory(files, categories, c);
    }
  }

  lemma FileMember(k: Knowledge, c: string, r: KnowledgeRecord)
    requires Aligned(k, {})
    ensures r in File(k.files, c) <==> r.category == c && r.key in k.index.vals && k.index.vals[r.key] == r
  {
    hide Filter;
    FilterMembers(InCategory(c), Values(k.index));
    MemberOfValues(k.index, r);
  }

  lemma AlignedFilesAreWellFormed(k: Knowledge)
    requires Aligned(k, {})
    ensures WellFormed(k.files)
  {
    hide ListCategory, DistinctOn;
    forall c | c in k.files
      ensures DistinctOn(KeyOf(), k.files[c])
      ensures forall r :: r in k.files[c] ==> r.category == c
    {
      CategoryIsDistinct(k.index, c);
      forall r | r in k.files[c]
        ensures r.category == c
      {
        FileMember(k, c, r);
      }
    }
    forall c, d, r, s | c in k.files && d in k.files && r in k.files[c] && s in k.files[d] && r.key == s.key
      ensures c == d
    {
      FileMember(k, c, r);
      FileMember(k, d, s);
    }
  }

  lemma CategoryIsDistinct(index: Index, c: string)
    requires KeyedBy(index, KeyOf())
    ensures DistinctOn(KeyOf(), ListCategory(index, c))
  {
    ValuesAreDistinct(index, KeyOf());
    FilterDistinct(KeyOf(), InCategory(c), Values(index));
  }

  lemma StoredIsTheIndex(k: Knowledge, categories: seq<string>, r: KnowledgeRecord)
    requires Aligned(k, {}) && Enumerates(categories, k.files)
    ensures r in Stored(k.files, categories) <==> r in Values(k.index)
  {
    hide ListCategory, Aligned;
    StoredMembers(k.files, categories);
    MemberOfValues(k.index, r);
    FileMember(k, r.category, r);
    KeysMatch(k);
    if r in Stored(k.files, categories) {
      var c :| c in categories && r in File(k.files, c);
      FileMember(k, c, r);
    }
  }

  lemma KeysMatch(k: Knowledge)
    requires Aligned(k, {})
    ensures KeyedBy(k.index, KeyOf())
  {
  }

  /** When nothing is dirty, a restarted service, listing the files in any order, has the same
      record under every key and answers list(category) the same, and again nothing is dirty. */
  lemma RestartRebuilds(k: Knowledge, categories: seq<string>)
    requires Aligned(k, {}) && Enumerates(categories, k.files)
    ensures Load(k.files, categories).vals == k.index.vals
    ensures forall c :: ListCategory(Load(k.files, categories), c) == ListCategory(k.index, c)
    ensures Aligned(Knowledge(Load(k.files, categories), k.files, []), {})
  {
    AlignedFilesAreWellFormed(k);
    LoadIsAligned(k.files, categories);
    StoredDistinct(k.files, categories);
    FromDistinctValues(Stored(k.files, categories), KeyOf());
    hide ListCategory, Stored, WellFormed, Enumerates, FromValues, Values;
    forall r
      ensures r in Values(Load(k.files, categories)) <==> r in Values(k.index)
    {
      StoredIsTheIndex(k, categories, r);
    }
    SameMembersSameMapping(Load(k.files, categories), k.index, KeyOf());
    forall c
      ensures ListCategory(Load(k.files, categories), c) == ListCategory(k.index, c)
    {
      assert ListCategory(k.index, c) == File(k.files, c);
    }
  }

  /** From well-formed storage, after any run of writes whose saves succeed: the files are well
      formed, each is the in-order filter of the index, and reloading rebuilds the mapping. */
  lemma FilesFollowTheIndex(files: Files, categories: seq<string>, calls: seq<Call>, again: seq<string>)
    requires WellFormed(files) && Enumerates(categories, files)
    requires forall i :: 0 <= i < |calls| ==> calls[i].saves
    requires Enumerates(again, Run(Knowledge(Load(files, categories), files, []), calls).files)
    ensures var k := Run(Knowledge(Load(files, categories), files, []), calls);
      && WellFormed(k.files)
      && (forall c :: File(k.files, c) == ListCategory(k.index, c))
      && Load(k.files, again).vals == k.index.vals
  {
    hide WellFormed, Enumerates, ListCategory, Load, Run;
    var start := Knowledge(Load(files, categories), files, []);
    LoadIsAligned(files, categories);
    RunStaysAligned(start, calls, {});
    NothingDirtyIfSavesSucceed(start, calls);
    AlignedFilesAreWellFormed(Run(start, calls));
    RestartRebuilds(Run(start, calls), again);
  }
}

/** What the service does, against a plain map of records that knows nothing of saves. */
module KnowledgeEffects {
  import opened Wrappers
  import opened Seqs
  import opened Dicts
  import opened Data
  import opened Knowledges

  /** The records by key, and the order in which the keys are listed. */
  datatype Plain = Plain(order: seq<string>, records: map<string, KnowledgeRecord>)

  /** The source's guards, in the order it checks them. */
  function Refusal(m: map<string, KnowledgeRecord>, op: Op): Option<KnowledgeError> {
    match op
    case PutRecord(r) =>
      if r.key == "" then Some(EmptyKey)
      else if r.category == "" then Some(EmptyCategory)
      else if r.key in m then Some(Duplicate)
      else None
    case DeleteKey(key) => if key in m then None else Some(NotFound)
    case UpdateKey(key, _, _) => if key in m then None else Some(NotFound)
  }

  /** The record as an update leaves it. */
  function NextVersion(r: KnowledgeRecord, value: Value, stamp: int): KnowledgeRecord {
    KnowledgeRecord(r.category, r.key, value, r.id, r.createdAt, stamp, r.version + 1)
  }

  function PlainStep(m: Plain, op: Op): Plain {
    if Refusal(m.records, op).Some? then m
    else
      match op
      case PutRecord(r) => Plain(m.order + [r.key], m.records[r.key := r])
      case DeleteKey(key) => Plain(Filter((k: string) => k != key, m.order), m.records - {key})
      case UpdateKey(key, value, stamp) =>
        if key in m.records then Plain(m.order, m.records[key := NextVersion(m.records[key], value, stamp)]) else m
  }

  function PlainRun(m: Plain, calls: seq<Call>): Plain {
    if calls == [] then m else PlainStep(PlainRun(m, calls[..|calls| - 1]), calls[|calls| - 1].op)
  }

  function PlainOf(index: Index): Plain {
    Plain(index.keys, index.vals)
  }

  lemma DeleteIsPlain(index: Index, key: string)
    ensures PlainOf(Del(index, key)) == Plain(Filter((k: string) => k != key, index.keys), index.vals - {key})
  {
    FilterAgree(Except(key), (k: string) => k != key, index.keys);
    hide Filter;
    assert Del(index, key).vals == index.vals - {key};
  }

  lemma StepIsPlain(k: Knowledge, c: Call)
    ensures PlainOf(Step(k, c).0.index) == PlainStep(PlainOf(k.index), c.op)
  {
    match c.op
    case DeleteKey(key) =>
      DeleteIsPlain(k.index, key);
      hide Filter, Del, ListCategory;
    case _ =>
      hide Filter, ListCategory;
  }

  /** Over every run, failing saves included, the index is the plain map after the same writes,
      listed in the same order. */
  lemma {:induction false} RunIsPlain(k: Knowledge, calls: seq<Call>)
    ensures PlainOf(Run(k, calls).index) == PlainRun(PlainOf(k.index), calls)
  {
    hide Step, PlainStep;
    if calls != [] {
      RunIsPlain(k, calls[..|calls| - 1]);
      StepIsPlain(Run(k, calls[..|calls| - 1]), calls[|calls| - 1]);
    }
  }

  /** A refused call changes nothing. An accepted one whose save fails reports that and publishes
      nothing. Otherwise the category's file holds its listing, the other files stay, the change
      is published, and an update gives the record now stored. */
  lemma CallEffect(k: Knowledge, c: Call)
    requires KeyedBy(k.index, KeyOf())
    ensures var (after, a) := Step(k, c);
      match Refusal(k.index.vals, c.op)
      case Some(e) => after == k && a == Failed(e)
      case None =>
        if !c.saves then a == Failed(SaveFailed) && after.files == k.files && after.notices == k.notices
        else Published(k, c.op, after, a)
  {
    hide ListCategory, Del;
  }

  ghost predicate Published(k: Knowledge, op: Op, after: Knowledge, a: Answer) {
    match op
    case PutRecord(r) =>
      && a == Done && SavedOnly(k, after, r.category)
      && after.notices == k.notices + [KnowledgeChanged(Created, r.key, r.category, r.version)]
    case DeleteKey(key) =>
      && key in k.index.vals
      && var r := k.index.vals[key];
         && a == Done && SavedOnly(k, after, r.category)
         && after.notices == k.notices + [KnowledgeChanged(Deleted, key, r.category, r.version)]
    case UpdateKey(key, _, _) =>
      && key in k.index.vals && key in after.index.vals
      && var r := after.index.vals[key];
         && a == Changed(r) && SavedOnly(k, after, r.category)
         && after.notices == k.notices + [KnowledgeChanged(Updated, key, r.category, r.version)]
  }

  ghost predicate SavedOnly(k: Knowledge, after: Knowledge, category: string) {
    && category in after.files && after.files[category] == ListCategory(after.index, category)
    && forall c :: c != category ==> File(after.files, c) == File(k.files, c)
  }

  /** A category's listing has exactly its records, in index order. */
  lemma ListEffect(index: Index, category: string) returns (places: seq<int>)
    ensures Picks(Values(index), places, ListCategory(index, category))
    ensures forall i, j :: 0 <= i < j < |places| ==> places[i] < places[j]
    ensures forall n :: n in places <==> 0 <= n < |index.keys| && Values(index)[n].category == category
  {
    places := FilterPicks(InCategory(category), Values(index));
    hide Filter, Picks, Values;
  }
}

/** The service itself. */
module KnowledgeServices {
  import opened Wrappers
  import opened Seqs
  import opened Dicts
  import opened Data
  import opened Knowledges

  class KnowledgeService {
    var index: Index
    var files: Files
    var notices: seq<Notice>

    ghost function State(): Knowledge
      reads this
    {
      Knowledge(index, files, notices)
    }

    constructor (stored: Files, categories: seq<string>)
      ensures State() == Knowledge(Load(stored, categories), stored, [])
    {
      var loaded: Index := Empty();
      for i := 0 to |categories|
        invariant loaded == Load(stored, categories[..i])
      {
        var records := File(stored, categories[i]);
        StoredSnoc(stored, categories, i);
        LoadNothing(Stored(stored, categories[..i]), records);
        for j := 0 to |records|
          invariant loaded == FromValues(Stored(stored, categories[..i]) + records[..j], KeyOf())
        {
          LoadOneMore(Stored(stored, categories[..i]), records, j);
          loaded := Put(loaded, records[j].key, records[j]);
        }
        assert records[..|records|] == records;
      }
      assert categories[..|categories|] == categories;
      index, files, notices := loaded, stored, [];
    }

    /** Rebuilds the category's records from the index and hands them to storage. */
    method PersistCategory(category: string, saves: bool) returns (ok: bool)
      modifies this`files
      ensures ok == saves
      ensures files == if saves then old(files)[category := ListCategory(index, category)] else old(files)
    {
      var records := Filter(InCategory(category), Values(index));
      if saves {
        files := files[category := records];
      }
      ok := saves;
    }

    method PutRecord(record: KnowledgeRecord, saves: bool) returns (a: Answer)
      modifies this
      ensures (State(), a) == Step(old(State()), Call(Op.PutRecord(record), saves))
    {
      hide Filter, Values, ListCategory;
      if record.key == "" {
        return Failed(EmptyKey);
      }
      if record.category == "" {
        return Failed(EmptyCategory);
      }
      if record.key in index.vals {
        return Failed(Duplicate);
      }
      index := Put(index, record.key, record);
      var ok := PersistCategory(record.category, saves);
      if !ok {
        return Failed(SaveFailed);
      }
      notices := notices + [Notify(Created, record)];
      return Done;
    }

    method Get(key: string) returns (r: Result<KnowledgeRecord, KnowledgeError>)
      ensures r == match Lookup(index, key) case Some(record) => Ok(record) case None => Err(NotFound)
    {
      if key !in index.vals {
        return Err(NotFound);
      }
      return Ok(index.vals[key]);
    }

    method Delete(key: string, saves: bool) returns (a: Answer)
      modifies this
      ensures (State(), a) == Step(old(State()), Call(DeleteKey(key), saves))
    {
      hide Filter, Values, ListCategory;
      if key !in index.vals {
        return Failed(NotFound);
      }
      var record := index.vals[key];
      index := Del(index, key);
      var ok := PersistCategory(record.category, saves);
      if !ok {
        return Failed(SaveFailed);
      }
      notices := notices + [Notify(Deleted, record)];
      return Done;
    }

    method Update(key: string, value: Value, stamp: int, saves: bool) returns (a: Answer)
      modifies this
      ensures (State(), a) == Step(old(State()), Call(UpdateKey(key, value, stamp), saves))
    {
      hide Filter, Values, ListCategory;
      if key !in index.vals {
        return Failed(NotFound);
      }
      var updated := Touch(index.vals[key], value, stamp);
      index := Put(index, key, updated);
      var ok := PersistCategory(updated.category, saves);
      if !ok {
        return Failed(SaveFailed);
      }
      notices := notices + [Notify(Updated, updated)];
      return Changed(updated);
    }

    method List(category: Option<string>) returns (records: seq<KnowledgeRecord>)
      ensures records == match category case None => Values(index) case Some(c) => ListCategory(index, c)
    {
      records := Values(index);
      if category.Some? {
        records := Filter(InCategory(category.value), records);
      }
    }
  }

  lemma StoredSnoc(files: Files, categories: seq<string>, i: nat)
    requires i < |categories|
    ensures Stored(files, categories[..i + 1]) == Stored(files, categories[..i]) + File(files, categories[i])
  {
    assert categories[..i + 1][..i] == categories[..i];
  }

  lemma LoadNothing(before: seq<KnowledgeRecord>, records: seq<KnowledgeRecord>)
    ensures before + records[..0] == before
  {
  }

  lemma LoadOneMore(before: seq<KnowledgeRecord>, records: seq<KnowledgeRecord>, j: nat)
    requires j < |records|
    ensures FromValues(before + records[..j + 1], KeyOf())
         == Put(FromValues(before + records[..j], KeyOf()), records[j].key, records[j])
  {
    var more := before + records[..j + 1];
    assert more[..|more| - 1] == before + records[..j];
  }
}
