/** `JsonTrustStore`: a write-back cache of trust records over one JSON file
    (src/core/trust/storage/JsonTrustStore.ts), and when it is indistinguishable from a plain
    insertion-ordered map. */
module JsonTrustStore {
  import opened OrderedMap
  import opened Symbolic
  import Trust

  /** A stored record: its `id` and all its other members. */
  datatype Record = Record(id: string, members: map<string, Json>)

  /** What create and update are given: members, and an `id` if the caller put one in. */
  datatype Patch = Patch(id: Option<string>, members: map<string, Json>)

  type Records = seq<Entry<Record>>

  datatype Contents = Flat(records: seq<Record>) | Keyed(byEntity: map<string, seq<Record>>)

  datatype File = Missing | Present(contents: Contents, mtime: nat)

  /** The in-memory fields together with the file they cache. No entity name is "". */
  datatype Store = Store(entity: string, recordMap: Records, dirty: bool, lastMtime: nat, file: File)

  /** File-system time at the writes one call may make: creating the file and flushing. */
  datatype Clock = Clock(create: nat, flush: nat)

  datatype Op =
    | GetById(id: string)
    | Create(record: Patch, computedId: Option<string>)
    | Update(id: string, patch: Patch)
    | Delete(id: string)
    | GetAll(receiverId: Option<string>)
    | Flush
    | FlushAndReload

  datatype Answer =
    | Found(record: Option<Record>)
    | Stored(newRecord: Record)
    | All(records: seq<Record>)
    | Done
    | HasId
    | AlreadyExists
    | NotFound

  // ---------- pieces shared with the plain map ----------

  function MemberText(members: map<string, Json>, name: string): string {
    if name in members && members[name].Str? && members[name].text.Raw? then members[name].text.chars else "undefined"
  }

  function NewId(record: Patch, computedId: Option<string>): string {
    match computedId
    case Some(id) => id
    case None => Trust.ComputeTrustId(MemberText(record.members, "senderId"), MemberText(record.members, "receiverId"))
  }

  function Merge(record: Record, patch: Patch): Record {
    Record(if patch.id.Some? then patch.id.value else record.id, record.members + patch.members)
  }

  function ForReceiver(records: seq<Record>, receiverId: string): seq<Record> {
    if records == [] then []
    else
      var rest := ForReceiver(records[1..], receiverId);
      if "receiverId" in records[0].members && records[0].members["receiverId"] == Str(Raw(receiverId))
      then [records[0]] + rest else rest
  }

  /** The filter is skipped for an absent and for an empty receiver. */
  function Select(records: seq<Record>, receiverId: Option<string>): seq<Record> {
    if receiverId.Some? && receiverId.value != "" then ForReceiver(records, receiverId.value) else records
  }

  // ---------- the plain insertion-ordered map ----------

  function PlainStep(m: Records, op: Op): (Records, Answer) {
    match op
    case GetById(id) => (m, Found(Find(m, id)))
    case Create(record, computedId) =>
      if record.id.Some? then (m, HasId)
      else
        var id := NewId(record, computedId);
        if Has(m, id) then (m, AlreadyExists)
        else (m + [Entry(id, Record(id, record.members))], Stored(Record(id, record.members)))
    case Update(id, patch) =>
      if !Has(m, id) then (m, NotFound)
      else (Put(m, id, Merge(Find(m, id).value, patch)), Stored(Merge(Find(m, id).value, patch)))
    case Delete(id) => (Remove(m, id), Done)
    case GetAll(receiverId) => (m, All(Select(Values(m), receiverId)))
    case Flush => (m, Done)
    case FlushAndReload => (m, Done)
  }

  // ---------- the store ----------

  /** The loop of `init`: later records replace earlier ones with the same id. */
  function LoadOnto(m: Records, records: seq<Record>): Records
    decreases |records|
  {
    if records == [] then m else LoadOnto(Put(m, records[0].id, records[0]), records[1..])
  }

  function Wrap(entity: string, records: seq<Record>): Contents {
    if entity != "" then Keyed(map[entity := records]) else Flat(records)
  }

  /** A file without an entity name must hold a list; anything else makes `init` throw. */
  predicate Readable(entity: string, file: File) {
    file.Present? && entity == "" ==> file.contents.Flat?
  }

  function RecordsIn(entity: string, contents: Contents): seq<Record>
    requires entity == "" ==> contents.Flat?
  {
    if entity == "" then contents.records
    else if contents.Keyed? && entity in contents.byEntity then contents.byEntity[entity]
    else []
  }

  function Init(s: Store, now: nat): Store
    requires Readable(s.entity, s.file)
  {
    var file := if s.file.Missing? then Present(Wrap(s.entity, []), now) else s.file;
    s.(file := file, recordMap := LoadOnto([], RecordsIn(s.entity, file.contents)))
  }

  function WriteToFile(s: Store, now: nat): Store {
    if !s.dirty then s
    else s.(dirty := false, file := Present(Wrap(s.entity, Values(s.recordMap)), now), lastMtime := now)
  }

  function Reload(s: Store, t: Clock): Store
    requires Readable(s.entity, s.file)
  {
    Init(WriteToFile(s, t.flush).(recordMap := []), t.create)
  }

  /** The recorded time is the one read before the flush, even when the flush wrote the file. */
  function ReloadIfChanged(s: Store, t: Clock): Store
    requires s.file.Present? && Readable(s.entity, s.file)
  {
    if s.file.mtime != s.lastMtime then Reload(s, t).(lastMtime := s.file.mtime) else s
  }

  /** An empty map is taken for one that was never loaded. */
  function EnsureLoaded(s: Store, now: nat): Store
    requires Readable(s.entity, s.file)
  {
    if s.recordMap == [] then Init(s, now) else s
  }

  function Access(s: Store, t: Clock): Store
    requires Inv(s)
  {
    ReloadIfChanged(EnsureLoaded(s, t.create), t)
  }

  function Step(s: Store, op: Op, t: Clock): (Store, Answer)
    requires Inv(s)
  {
    match op
    case GetById(id) =>
      var s' := Access(s, t);
      (s', Found(Find(s'.recordMap, id)))
    case Create(record, computedId) =>
      if record.id.Some? then (s, HasId)
      else
        var id := NewId(record, computedId);
        var s' := Access(s, t);
        if Has(s'.recordMap, id) then (s', AlreadyExists)
        else
          var created := Record(id, record.members);
          (s'.(recordMap := Put(s'.recordMap, id, created), dirty := true), Stored(created))
    case Update(id, patch) =>
      var s' := Access(s, t);
      if !Has(s'.recordMap, id) then (s', NotFound)
      else
        var updated := Merge(Find(s'.recordMap, id).value, patch);
        (s'.(recordMap := Put(s'.recordMap, id, updated), dirty := true), Stored(updated))
    case Delete(id) =>
      var s' := EnsureLoaded(s, t.create);
      if Has(s'.recordMap, id) then (s'.(recordMap := Remove(s'.recordMap, id), dirty := true), Done)
      else (s', Done)
    case GetAll(receiverId) =>
      var s' := Access(s, t);
      (s', All(Select(Values(s'.recordMap), receiverId)))
    case Flush => (WriteToFile(s, t.flush), Done)
    case FlushAndReload => (Reload(s, t), Done)
  }

  // ---------- invariant and abstraction ----------

  predicate KeyedById(m: Records) {
    forall i | 0 <= i < |m| :: m[i].key == m[i].value.id
  }

  /** The map the file stands for. */
  function OnDisk(s: Store): Records
    requires Readable(s.entity, s.file)
  {
    if s.file.Missing? then [] else LoadOnto([], RecordsIn(s.entity, s.file.contents))
  }

  /** A clean loaded map mirrors the file. */
  predicate Inv(s: Store) {
    && Readable(s.entity, s.file)
    && Distinct(s.recordMap) && KeyedById(s.recordMap)
    && (s.dirty || s.recordMap != [] ==> s.file.Present?)
    && (!s.dirty && s.recordMap != [] ==> s.recordMap == OnDisk(s))
  }

  /** The plain map a store stands for: unsaved changes win, otherwise the file does. */
  function Abs(s: Store): Records
    requires Inv(s)
  {
    if s.dirty then s.recordMap else OnDisk(s)
  }

  /** Every record was deleted, and the file does not know it yet. */
  predicate EmptyUnsaved(s: Store)
    requires Inv(s)
  {
    s.dirty && s.recordMap == [] && OnDisk(s) != []
  }

  /** The exact condition under which one step is the plain map's step. */
  predicate Harmless(s: Store, op: Op)
    requires Inv(s)
  {
    EmptyUnsaved(s) ==>
      match op
      case Flush => true
      case FlushAndReload => true
      case Create(record, _) => record.id.Some?
      case Delete(id) => |OnDisk(s)| == 1 && OnDisk(s)[0].key == id
      case _ => false
  }

  predicate KeepsId(op: Op) {
    op.Update? && op.patch.id.Some? ==> op.patch.id.value == op.id
  }

  // ---------- helper lemmas ----------

  lemma KeyedByIdTail(m: Records)
    requires m != [] && KeyedById(m)
    ensures KeyedById(m[1..])
  {
    assert forall i | 0 <= i < |m[1..]| :: m[1..][i] == m[i + 1];
  }

  lemma {:induction false} KeyedByIdPut(m: Records, record: Record)
    requires KeyedById(m)
    ensures KeyedById(Put(m, record.id, record))
  {
    if m != [] {
      KeyedByIdTail(m);
      KeyedByIdPut(m[1..], record);
    }
  }

  lemma {:induction false} KeyedByIdRemove(m: Records, key: string)
    requires KeyedById(m)
    ensures KeyedById(Remove(m, key))
  {
    if m != [] {
      KeyedByIdTail(m);
      KeyedByIdRemove(m[1..], key);
    }
  }

  lemma {:induction false} FindKeyed(m: Records, key: string)
    requires KeyedById(m) && Has(m, key)
    ensures Find(m, key).value.id == key
  {
    if m[0].key != key {
      KeyedByIdTail(m);
      FindKeyed(m[1..], key);
    }
  }

  lemma {:induction false} LoadedIsMap(m: Records, records: seq<Record>)
    requires Distinct(m) && KeyedById(m)
    ensures Distinct(LoadOnto(m, records)) && KeyedById(LoadOnto(m, records))
    decreases |records|
  {
    if records != [] {
      DistinctPut(m, records[0].id, records[0]);
      KeyedByIdPut(m, records[0]);
      LoadedIsMap(Put(m, records[0].id, records[0]), records[1..]);
    }
  }

  /** Loading what a map wrote gives the map back, in its order. */
  lemma {:induction false} LoadWritten(done: Records, m: Records)
    requires Distinct(done + m) && KeyedById(m)
    ensures LoadOnto(done, Values(m)) == done + m
    decreases |m|
  {
    if m == [] {
      assert done + m == done;
    } else {
      DistinctAppend(done, m);
      PutAppends(done, m[0].key, m[0].value);
      assert done + m == (done + [m[0]]) + m[1..];
      assert Entry(m[0].key, m[0].value) == m[0];
      KeyedByIdTail(m);
      LoadWritten(done + [m[0]], m[1..]);
      assert Values(m)[1..] == Values(m[1..]);
    }
  }

  lemma OnDiskIsMap(s: Store)
    requires Readable(s.entity, s.file)
    ensures Distinct(OnDisk(s)) && KeyedById(OnDisk(s))
  {
    if s.file.Present? {
      LoadedIsMap([], RecordsIn(s.entity, s.file.contents));
    }
  }

  lemma FlushKeeps(s: Store, now: nat)
    requires Inv(s)
    ensures var s' := WriteToFile(s, now);
            Inv(s') && !s'.dirty && Abs(s') == Abs(s) && s'.entity == s.entity && (s.file.Present? ==> s'.file.Present?)
  {
    if s.dirty {
      assert [] + s.recordMap == s.recordMap;
      LoadWritten([], s.recordMap);
    }
  }

  lemma InitLoads(s: Store, now: nat)
    requires Readable(s.entity, s.file)
    ensures var s' := Init(s, now);
            && s'.file.Present? && Readable(s'.entity, s'.file)
            && s'.recordMap == OnDisk(s) == OnDisk(s')
            && Distinct(s'.recordMap) && KeyedById(s'.recordMap)
  {
    OnDiskIsMap(s);
  }

  /** After any access the map holds what the store stood for, or the file's records again
      when the deletion of them all was unsaved. */
  lemma AccessLoads(s: Store, t: Clock)
    requires Inv(s)
    ensures var s' := Access(s, t);
            && Inv(s') && s'.file.Present? && Abs(s') == s'.recordMap
            && s'.recordMap == (if EmptyUnsaved(s) then OnDisk(s) else Abs(s))
  {
    InitLoads(s, t.create);
    var loaded := EnsureLoaded(s, t.create);
    assert Inv(loaded);
    FlushKeeps(loaded, t.flush);
    InitLoads(WriteToFile(loaded, t.flush).(recordMap := []), t.create);
  }

  // ---------- main results ----------

  lemma PutKeepsInv(s: Store, record: Record)
    requires Inv(s) && s.file.Present?
    ensures Inv(s.(recordMap := Put(s.recordMap, record.id, record), dirty := true))
  {
    DistinctPut(s.recordMap, record.id, record);
    KeyedByIdPut(s.recordMap, record);
  }

  lemma RemoveKeepsInv(s: Store, id: string)
    requires Inv(s) && s.file.Present?
    ensures Inv(s.(recordMap := Remove(s.recordMap, id), dirty := true))
  {
    DistinctRemove(s.recordMap, id);
    KeyedByIdRemove(s.recordMap, id);
  }

  lemma ReloadKeeps(s: Store, t: Clock)
    requires Inv(s)
    ensures Inv(Reload(s, t)) && Abs(Reload(s, t)) == Abs(s)
  {
    FlushKeeps(s, t.flush);
    InitLoads(WriteToFile(s, t.flush).(recordMap := []), t.create);
  }

  /** Each step keeps the invariant, provided a patch keeps the id. */
  lemma StepKeepsInv(s: Store, op: Op, t: Clock)
    requires Inv(s) && KeepsId(op)
    ensures Inv(Step(s, op, t).0)
  {
    match op
    case Flush => FlushKeeps(s, t.flush);
    case FlushAndReload => ReloadKeeps(s, t);
    case Delete(id) =>
      InitLoads(s, t.create);
      RemoveKeepsInv(EnsureLoaded(s, t.create), id);
    case Create(record, computedId) =>
      AccessLoads(s, t);
      PutKeepsInv(Access(s, t), Record(NewId(record, computedId), record.members));
    case Update(id, patch) =>
      AccessLoads(s, t);
      var s' := Access(s, t);
      if Has(s'.recordMap, id) {
        FindKeyed(s'.recordMap, id);
        PutKeepsInv(s', Merge(Find(s'.recordMap, id).value, patch));
      }
    case _ => AccessLoads(s, t);
  }

  lemma PutNonEmpty(m: Records, key: string, value: Record)
    ensures |Put(m, key, value)| >= 1
    ensures !Has(m, key) ==> |Put(m, key, value)| == |m| + 1
  {
    if !Has(m, key) {
      PutAppends(m, key, value);
    }
  }

  lemma {:induction false} RemoveAllWhen(m: Records, key: string)
    requires Distinct(m) && m != []
    ensures Remove(m, key) == [] <==> |m| == 1 && m[0].key == key
  {
    if m[0].key == key {
      RemoveAbsent(m[1..], key);
    }
  }

  lemma CreateRefines(s: Store, op: Op, t: Clock)
    requires Inv(s) && op.Create?
    ensures Inv(Step(s, op, t).0)
    ensures Harmless(s, op) <==>
              Abs(Step(s, op, t).0) == PlainStep(Abs(s), op).0 && Step(s, op, t).1 == PlainStep(Abs(s), op).1
  {
    StepKeepsInv(s, op, t);
    AccessLoads(s, t);
    var m, id := Access(s, t).recordMap, NewId(op.record, op.computedId);
    PutNonEmpty(m, id, Record(id, op.record.members));
    if !Has(m, id) {
      PutAppends(m, id, Record(id, op.record.members));
    }
  }

  lemma DeleteRefines(s: Store, op: Op, t: Clock)
    requires Inv(s) && op.Delete?
    ensures Inv(Step(s, op, t).0)
    ensures Harmless(s, op) <==>
              Abs(Step(s, op, t).0) == PlainStep(Abs(s), op).0 && Step(s, op, t).1 == PlainStep(Abs(s), op).1
  {
    StepKeepsInv(s, op, t);
    InitLoads(s, t.create);
    var loaded := EnsureLoaded(s, t.create).recordMap;
    if !Has(loaded, op.id) {
      RemoveAbsent(loaded, op.id);
    }
    if EmptyUnsaved(s) {
      RemoveAllWhen(OnDisk(s), op.id);
    }
  }

  /** Refinement of one step, with the exact condition: the store answers and moves as the plain
      map does if and only if the step is harmless. */
  lemma StepRefinesExactly(s: Store, op: Op, t: Clock)
    requires Inv(s) && KeepsId(op)
    ensures Inv(Step(s, op, t).0)
    ensures Harmless(s, op) <==>
              Abs(Step(s, op, t).0) == PlainStep(Abs(s), op).0 && Step(s, op, t).1 == PlainStep(Abs(s), op).1
  {
    StepKeepsInv(s, op, t);
    match op
    case Flush => FlushKeeps(s, t.flush);
    case FlushAndReload => ReloadKeeps(s, t);
    case Create(_, _) => CreateRefines(s, op, t);
    case Update(id, patch) =>
      AccessLoads(s, t);
      var m := Access(s, t).recordMap;
      if Has(m, id) {
        PutNonEmpty(m, id, Merge(Find(m, id).value, patch));
      }
    case Delete(_) => DeleteRefines(s, op, t);
    case _ => AccessLoads(s, t);
  }

  /** A patch that changes the id of a stored record breaks the tie between key and id, and only
      such a patch does. */
  lemma UpdateKeepsTieExactly(s: Store, id: string, patch: Patch, t: Clock)
    requires Inv(s) && Has(Access(s, t).recordMap, id)
    ensures Inv(Step(s, Update(id, patch), t).0) <==> KeepsId(Update(id, patch))
  {
    if KeepsId(Update(id, patch)) {
      StepKeepsInv(s, Update(id, patch), t);
    } else {
      AccessLoads(s, t);
      var m := Access(s, t).recordMap;
      var updated := Merge(Find(m, id).value, patch);
      FindPut(m, id, updated, id);
      if KeyedById(Put(m, id, updated)) {
        FindKeyed(Put(m, id, updated), id);
      }
    }
  }

  // ---------- runs ----------

  datatype Event = Event(op: Op, at: Clock)

  function RunPlain(m: Records, events: seq<Event>): (Records, seq<Answer>)
    decreases |events|
  {
    if events == [] then (m, [])
    else
      var (m', answer) := PlainStep(m, events[0].op);
      var (m'', answers) := RunPlain(m', events[1..]);
      (m'', [answer] + answers)
  }

  /** A run in which patches keep ids; flushes are events and may stand anywhere. */
  predicate Runs(events: seq<Event>) {
    forall e | e in events :: KeepsId(e.op)
  }

  function RunStore(s: Store, events: seq<Event>): (Store, seq<Answer>)
    requires Inv(s) && Runs(events)
    decreases |events|
  {
    if events == [] then (s, [])
    else
      assert events[0] in events;
      StepKeepsInv(s, events[0].op, events[0].at);
      var (s', answer) := Step(s, events[0].op, events[0].at);
      var (s'', answers) := RunStore(s', events[1..]);
      (s'', [answer] + answers)
  }

  predicate HarmlessRun(s: Store, events: seq<Event>)
    requires Inv(s) && Runs(events)
    decreases |events|
  {
    events != [] ==>
      assert events[0] in events;
      StepKeepsInv(s, events[0].op, events[0].at);
      Harmless(s, events[0].op) && HarmlessRun(Step(s, events[0].op, events[0].at).0, events[1..])
  }

  lemma {:induction false} RunKeepsInv(s: Store, events: seq<Event>)
    requires Inv(s) && Runs(events)
    ensures Inv(RunStore(s, events).0)
    decreases |events|
  {
    if events != [] {
      assert events[0] in events;
      StepKeepsInv(s, events[0].op, events[0].at);
      RunKeepsInv(Step(s, events[0].op, events[0].at).0, events[1..]);
    }
  }

  /** The cache is invisible over whole runs: every answer, the order of getAll included, is the
      plain map's, with flushes anywhere and any file times. */
  lemma {:induction false} RunRefines(s: Store, events: seq<Event>)
    requires Inv(s) && Runs(events) && HarmlessRun(s, events)
    ensures RunStore(s, events).1 == RunPlain(Abs(s), events).1
    ensures Inv(RunStore(s, events).0) && Abs(RunStore(s, events).0) == RunPlain(Abs(s), events).0
    decreases |events|
  {
    if events != [] {
      assert events[0] in events;
      StepRefinesExactly(s, events[0].op, events[0].at);
      RunRefines(Step(s, events[0].op, events[0].at).0, events[1..]);
    }
  }

  // ---------- what the operations do to the records ----------

  /** The records a read goes by. */
  function Seen(s: Store): Records
    requires Inv(s)
  {
    if EmptyUnsaved(s) then OnDisk(s) else Abs(s)
  }

  lemma PutIsSeen(s: Store, record: Record, t: Clock)
    requires Inv(s) && s.file.Present?
    ensures var s' := s.(recordMap := Put(s.recordMap, record.id, record), dirty := true);
            && Inv(s')
            && Step(s', GetById(record.id), t).1 == Found(Some(record))
            && forall other | other != record.id :: Step(s', GetById(other), t).1 == Found(Find(s.recordMap, other))
  {
    var s' := s.(recordMap := Put(s.recordMap, record.id, record), dirty := true);
    PutKeepsInv(s, record);
    PutNonEmpty(s.recordMap, record.id, record);
    AccessLoads(s', t);
    FindPut(s.recordMap, record.id, record, record.id);
    forall other | other != record.id
      ensures Find(s'.recordMap, other) == Find(s.recordMap, other)
    {
      FindPut(s.recordMap, record.id, record, other);
    }
  }

  /** An update answers NotFound exactly for an absent id, and else the old record with the
      patch's values in it and nothing further. With the id kept, that is what a later read of this
      id finds, and every other record is as it was. */
  lemma UpdateMerges(s: Store, id: string, patch: Patch, t: Clock, later: Clock)
    requires Inv(s)
    ensures var (s', answer) := Step(s, Update(id, patch), t);
            if !Has(Seen(s), id) then answer == NotFound
            else
              var before := Find(Seen(s), id).value;
              && answer.Stored?
              && answer.newRecord.id == (if patch.id.Some? then patch.id.value else before.id)
              && (forall name | name in patch.members ::
                    name in answer.newRecord.members && answer.newRecord.members[name] == patch.members[name])
              && (forall name | name in before.members && name !in patch.members ::
                    name in answer.newRecord.members && answer.newRecord.members[name] == before.members[name])
              && (forall name | name in answer.newRecord.members :: name in patch.members || name in before.members)
              && (patch.id == None || patch.id == Some(id) ==>
                    && Inv(s')
                    && Step(s', GetById(id), later).1 == Found(Some(answer.newRecord))
                    && forall other | other != id :: Step(s', GetById(other), later).1 == Found(Find(Seen(s), other)))
  {
    AccessLoads(s, t);
    if Has(Seen(s), id) && (patch.id == None || patch.id == Some(id)) {
      FindKeyed(Seen(s), id);
      PutIsSeen(Access(s, t), Merge(Find(Seen(s), id).value, patch), later);
    }
  }

  /** A missing member reads as the text "undefined". */
  predicate ReadsAs(members: map<string, Json>, name: string, text: string) {
    if name in members then members[name] == Str(Raw(text)) else text == "undefined"
  }

  /** A record created without a computed id is found under the trust id of its sender and
      receiver; a given id or a taken one is refused; the other records stay. */
  lemma CreateStores(s: Store, record: Patch, computedId: Option<string>, sender: string, receiver: string, t: Clock, later: Clock)
    requires Inv(s)
    requires computedId.None? ==> ReadsAs(record.members, "senderId", sender) && ReadsAs(record.members, "receiverId", receiver)
    ensures var (s', answer) := Step(s, Create(record, computedId), t);
            var id := if computedId.Some? then computedId.value else Trust.ComputeTrustId(sender, receiver);
            if record.id.Some? then answer == HasId && s' == s
            else if Has(Seen(s), id) then answer == AlreadyExists
            else
              && answer == Stored(Record(id, record.members))
              && Inv(s')
              && Step(s', GetById(id), later).1 == Found(Some(Record(id, record.members)))
              && (forall other | other != id :: Step(s', GetById(other), later).1 == Found(Find(Seen(s), other)))
              && Abs(s') == Seen(s) + [Entry(id, Record(id, record.members))]
  {
    var id := if computedId.Some? then computedId.value else Trust.ComputeTrustId(sender, receiver);
    NewIdIs(record, computedId, sender, receiver);
    AccessLoads(s, t);
    if record.id.None? && !Has(Seen(s), id) {
      PutIsSeen(Access(s, t), Record(id, record.members), later);
      PutAppends(Seen(s), id, Record(id, record.members));
    }
  }

  lemma NewIdIs(record: Patch, computedId: Option<string>, sender: string, receiver: string)
    requires computedId.None? ==> ReadsAs(record.members, "senderId", sender) && ReadsAs(record.members, "receiverId", receiver)
    ensures NewId(record, computedId) == if computedId.Some? then computedId.value else Trust.ComputeTrustId(sender, receiver)
  {
  }

  predicate IsFor(record: Record, receiverId: string) {
    "receiverId" in record.members && record.members["receiverId"] == Str(Raw(receiverId))
  }

  lemma {:induction false} ForReceiverAppend(records: seq<Record>, last: Record, receiverId: string)
    ensures ForReceiver(records + [last], receiverId) ==
              ForReceiver(records, receiverId) + if IsFor(last, receiverId) then [last] else []
  {
    if records == [] {
      assert records + [last] == [last];
    } else {
      assert (records + [last])[1..] == records[1..] + [last];
      ForReceiverAppend(records[1..], last, receiverId);
    }
  }

  /** `out` are the records at these places: each place once, in order, and none left out that is
      for this receiver. */
  ghost predicate Lists(records: seq<Record>, receiverId: Option<string>, at: seq<nat>, out: seq<Record>) {
    && |at| == |out|
    && (forall i, j | 0 <= i < j < |at| :: at[i] < at[j])
    && (forall k | 0 <= k < |at| :: at[k] < |records| && out[k] == records[at[k]])
    && forall i: nat | i < |records| ::
         i in at <==> receiverId.None? || receiverId.value == "" || IsFor(records[i], receiverId.value)
  }

  lemma ListsOneMore(records: seq<Record>, last: Record, receiverId: string, at: seq<nat>, out: seq<Record>)
    requires receiverId != "" && Lists(records, Some(receiverId), at, out)
    ensures if IsFor(last, receiverId) then Lists(records + [last], Some(receiverId), at + [|records|], out + [last])
            else Lists(records + [last], Some(receiverId), at, out)
  {
    var at' := at + [|records|];
    assert forall i: nat :: i in at' <==> i in at || i == |records|;
  }

  lemma {:induction false} ForReceiverLists(records: seq<Record>, receiverId: string) returns (at: seq<nat>)
    requires receiverId != ""
    ensures Lists(records, Some(receiverId), at, ForReceiver(records, receiverId))
  {
    at := [];
    if records != [] {
      var front, last := records[..|records| - 1], records[|records| - 1];
      at := ForReceiverLists(front, receiverId);
      ForReceiverAppend(front, last, receiverId);
      ListsOneMore(front, last, receiverId, at, ForReceiver(front, receiverId));
      assert records == front + [last];
      if IsFor(last, receiverId) {
        at := at + [|front|];
      } else {
        assert ForReceiver(front, receiverId) + [] == ForReceiver(front, receiverId);
      }
    }
  }

  lemma AllListed(records: seq<Record>, receiverId: Option<string>) returns (at: seq<nat>)
    requires receiverId.None? || receiverId.value == ""
    ensures Lists(records, receiverId, at, records)
  {
    at := seq(|records|, k => k);
    forall i: nat | i < |records|
      ensures i in at
    {
      assert at[i] == i;
    }
  }

  /** With a receiver, exactly that receiver's records are listed, each once and in the order
      they came in; without one, or with an empty one, all are. */
  lemma GetAllLists(s: Store, receiverId: Option<string>, t: Clock) returns (at: seq<nat>)
    requires Inv(s)
    ensures Step(s, GetAll(receiverId), t).1.All?
    ensures Lists(Values(Seen(s)), receiverId, at, Step(s, GetAll(receiverId), t).1.records)
  {
    AccessLoads(s, t);
    var all := Values(Seen(s));
    if receiverId.Some? && receiverId.value != "" {
      at := ForReceiverLists(all, receiverId.value);
    } else {
      at := AllListed(all, receiverId);
    }
  }

  function Fresh(entity: string, file: File): Store {
    Store(entity, [], false, 0, file)
  }

  /** After a flush a new store opened on the file, flat or keyed, stands for the same map. */
  lemma FreshStoreAgrees(s: Store, now: nat)
    requires Inv(s)
    ensures var flushed := WriteToFile(s, now);
            Inv(Fresh(s.entity, flushed.file)) && Abs(Fresh(s.entity, flushed.file)) == Abs(s)
  {
    FlushKeeps(s, now);
  }

  /** So it answers every later run alike. */
  lemma FreshStoreAnswersAlike(s: Store, now: nat, events: seq<Event>)
    requires Inv(s) && Runs(events)
    requires Inv(Fresh(s.entity, WriteToFile(s, now).file)) && HarmlessRun(Fresh(s.entity, WriteToFile(s, now).file), events)
    requires HarmlessRun(s, events)
    ensures RunStore(Fresh(s.entity, WriteToFile(s, now).file), events).1 == RunStore(s, events).1
  {
    FreshStoreAgrees(s, now);
    RunRefines(Fresh(s.entity, WriteToFile(s, now).file), events);
    RunRefines(s, events);
  }

  /** The guard is needed: deleting the only saved record and reading it gives it back. */
  lemma DeletedRecordReturns(entity: string, id: string, t: Clock)
    ensures var record := Record(id, map[]);
            var s := Fresh(entity, Present(Wrap(entity, [record]), 1));
            var events := [Event(Delete(id), t), Event(GetById(id), t)];
            && Inv(s) && Runs(events)
            && RunStore(s, events).1 == [Done, Found(Some(record))]
            && RunPlain(Abs(s), events).1 == [Done, Found(None)]
  {
    var record := Record(id, map[]);
    var s := Fresh(entity, Present(Wrap(entity, [record]), 1));
    assert RecordsIn(entity, s.file.contents) == [record];
    assert LoadOnto([], [record]) == LoadOnto([Entry(id, record)], []) == [Entry(id, record)];
    assert OnDisk(s) == [Entry(id, record)];
    assert Remove([Entry(id, record)], id) == [];
    var s1 := Step(s, Delete(id), t).0;
    StepKeepsInv(s, Delete(id), t);
    assert s1 == s.(dirty := true);
    AccessLoads(s1, t);
    var events := [Event(Delete(id), t), Event(GetById(id), t)];
    assert events[1..] == [Event(GetById(id), t)] && events[1..][1..] == [];
    assert RunStore(s1, events[1..]).1 == [Found(Some(record))] + [];
    assert RunPlain([], events[1..]).1 == [Found(None)] + [];
  }

  /** The extra reload after a flush inside a read is harmless and happens once: after two
      reads the recorded time is the file's. */
  lemma ExtraReloadSettles(s: Store, t1: Clock, t2: Clock)
    requires Inv(s) && !EmptyUnsaved(s)
    ensures var once := Access(s, t1);
            && Inv(once)
            && Access(once, t2).recordMap == once.recordMap == Abs(s)
            && Access(once, t2).file.Present? && Access(once, t2).lastMtime == Access(once, t2).file.mtime
  {
    AccessLoads(s, t1);
    AccessLoads(Access(s, t1), t2);
  }

  // ---------- the class ----------

  class Disk {
    var file: File

    constructor (file: File)
      ensures this.file == file
    {
      this.file := file;
    }
  }

  class TrustStore {
    const entity: string
    const disk: Disk
    var recordMap: Records
    var dirty: bool
    var lastChangedMtime: nat

    ghost function View(): Store
      reads this, disk
    {
      Store(entity, recordMap, dirty, lastChangedMtime, disk.file)
    }

    constructor (entity: string, disk: Disk)
      ensures View() == Fresh(entity, disk.file) && this.disk == disk
    {
      this.entity := entity;
      this.disk := disk;
      recordMap, dirty, lastChangedMtime := [], false, 0;
    }

    method InitFromDisk(now: nat)
      requires Readable(entity, disk.file)
      modifies this, disk
      ensures View() == Init(old(View()), now)
    {
      if disk.file.Missing? {
        disk.file := Present(Wrap(entity, []), now);
      }
      var records := RecordsIn(entity, disk.file.contents);
      recordMap := [];
      for i := 0 to |records|
        invariant LoadOnto(recordMap, records[i..]) == LoadOnto([], records)
        invariant dirty == old(dirty) && lastChangedMtime == old(lastChangedMtime)
        invariant disk.file == Init(old(View()), now).file
      {
        assert records[i..][1..] == records[i + 1..];
        recordMap := Put(recordMap, records[i].id, records[i]);
      }
    }

    method Write(now: nat)
      modifies this, disk
      ensures View() == WriteToFile(old(View()), now)
    {
      if !dirty {
        return;
      }
      dirty := false;
      disk.file := Present(Wrap(entity, Values(recordMap)), now);
      lastChangedMtime := disk.file.mtime;
    }

    method FlushThenReload(t: Clock)
      requires Inv(View())
      modifies this, disk
      ensures View() == Reload(old(View()), t)
      ensures Inv(View()) && Abs(View()) == old(Abs(View()))
    {
      FlushKeeps(View(), t.flush);
      Write(t.flush);
      recordMap := [];
      InitLoads(View(), t.create);
      InitFromDisk(t.create);
    }

    method ReloadWhenChanged(t: Clock)
      requires Inv(View()) && disk.file.Present?
      modifies this, disk
      ensures View() == ReloadIfChanged(old(View()), t)
    {
      var mtime := disk.file.mtime;
      if mtime != lastChangedMtime {
        FlushThenReload(t);
        lastChangedMtime := mtime;
      }
    }

    method Load(t: Clock)
      requires Inv(View())
      modifies this, disk
      ensures View() == Access(old(View()), t)
      ensures Inv(View()) && Abs(View()) == recordMap
      ensures recordMap == if old(EmptyUnsaved(View())) then old(OnDisk(View())) else old(Abs(View()))
    {
      AccessLoads(View(), t);
      InitLoads(View(), t.create);
      if recordMap == [] {
        InitFromDisk(t.create);
      }
      ReloadWhenChanged(t);
    }

    method GetById(id: string, t: Clock) returns (record: Option<Record>)
      requires Inv(View())
      modifies this, disk
      ensures (View(), Found(record)) == Step(old(View()), Op.GetById(id), t)
      ensures Inv(View())
      ensures !old(EmptyUnsaved(View())) ==> record == Find(old(Abs(View())), id) && Abs(View()) == old(Abs(View()))
    {
      Load(t);
      record := Find(recordMap, id);
    }

    method Create(record: Patch, computedId: Option<string>, t: Clock) returns (answer: Answer)
      requires Inv(View())
      modifies this, disk
      ensures (View(), answer) == Step(old(View()), Op.Create(record, computedId), t)
      ensures Inv(View())
      ensures !old(EmptyUnsaved(View())) ==>
                (Abs(View()), answer) == PlainStep(old(Abs(View())), Op.Create(record, computedId))
    {
      StepRefinesExactly(View(), Op.Create(record, computedId), t);
      if record.id.Some? {
        return HasId;
      }
      var id := NewId(record, computedId);
      var existing := GetById(id, t);
      if existing.Some? {
        return AlreadyExists;
      }
      var newRecord := Record(id, record.members);
      recordMap := Put(recordMap, id, newRecord);
      dirty := true;
      return Stored(newRecord);
    }

    method Update(id: string, patch: Patch, t: Clock) returns (answer: Answer)
      requires Inv(View()) && KeepsId(Op.Update(id, patch))
      modifies this, disk
      ensures (View(), answer) == Step(old(View()), Op.Update(id, patch), t)
      ensures answer.NotFound? <==> !Has(old(Seen(View())), id)
      ensures answer.Stored? ==> answer.newRecord.id == id && Find(recordMap, id) == Some(answer.newRecord)
      ensures answer.Stored? ==> forall name | name in patch.members ::
                name in answer.newRecord.members && answer.newRecord.members[name] == patch.members[name]
      ensures Inv(View())
      ensures !old(EmptyUnsaved(View())) ==>
                (Abs(View()), answer) == PlainStep(old(Abs(View())), Op.Update(id, patch))
    {
      StepRefinesExactly(View(), Op.Update(id, patch), t);
      UpdateMerges(View(), id, patch, t, t);
      AccessLoads(View(), t);
      var record := GetById(id, t);
      if record.None? {
        return NotFound;
      }
      FindKeyed(recordMap, id);
      var updated := Merge(record.value, patch);
      FindPut(recordMap, id, updated, id);
      recordMap := Put(recordMap, id, updated);
      dirty := true;
      return Stored(updated);
    }

    method Delete(id: string, t: Clock)
      requires Inv(View())
      modifies this, disk
      ensures (View(), Done) == Step(old(View()), Op.Delete(id), t)
      ensures Inv(View())
      ensures !old(EmptyUnsaved(View())) ==> Abs(View()) == Remove(old(Abs(View())), id)
    {
      StepRefinesExactly(View(), Op.Delete(id), t);
      if recordMap == [] {
        InitFromDisk(t.create);
      }
      if Has(recordMap, id) {
        recordMap := Remove(recordMap, id);
        dirty := true;
      }
    }

    method GetAll(receiverId: Option<string>, t: Clock) returns (records: seq<Record>)
      requires Inv(View())
      modifies this, disk
      ensures (View(), All(records)) == Step(old(View()), Op.GetAll(receiverId), t)
      ensures exists at :: Lists(Values(old(Seen(View()))), receiverId, at, records)
      ensures Inv(View())
      ensures !old(EmptyUnsaved(View())) ==>
                records == Select(Values(old(Abs(View()))), receiverId) && Abs(View()) == old(Abs(View()))
    {
      ghost var at := GetAllLists(View(), receiverId, t);
      Load(t);
      records := Select(Values(recordMap), receiverId);
    }

    method FlushNow(now: nat)
      requires Inv(View())
      modifies this, disk
      ensures View() == WriteToFile(old(View()), now)
      ensures Inv(View()) && Abs(View()) == old(Abs(View())) == OnDisk(View())
    {
      FlushKeeps(View(), now);
      Write(now);
    }
  }
}
