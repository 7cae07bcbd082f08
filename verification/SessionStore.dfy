/** `InMemoryAuthSessionStore`: sessions by agent with an index from identity to agent
    (src/core/authentication/storage/InMemoryAuthSessionStore.ts). */
module SessionStore {
  import opened OrderedMap

  datatype Session = Session(agentId: string, userIdentity: string, expiresAt: int, refreshToken: string)

  type Sessions = seq<Entry<Session>>

  datatype State = State(sessions: Sessions, index: map<string, string>)

  const EMPTY := State([], map[])

  // ---------- the operations on values ----------

  function StoreStep(s: State, session: Session): State {
    State(Put(s.sessions, session.agentId, session), s.index[session.userIdentity := session.agentId])
  }

  function RemoveStep(s: State, agentId: string): State {
    match Find(s.sessions, agentId)
    case None => s
    case Some(session) => State(Remove(s.sessions, agentId), s.index - {session.userIdentity})
  }

  function GetStep(s: State, agentId: string, now: int): (State, Option<Session>) {
    match Find(s.sessions, agentId)
    case None => (s, None)
    case Some(session) => if now > session.expiresAt then (RemoveStep(s, agentId), None) else (s, Some(session))
  }

  /** An empty agent id is falsy and counts as not indexed. */
  function GetByIdentityStep(s: State, identity: string, now: int): (State, Option<Session>) {
    if identity !in s.index || s.index[identity] == "" then (s, None) else GetStep(s, s.index[identity], now)
  }

  function ExpiredIds(sessions: Sessions, now: int): seq<string> {
    if sessions == [] then []
    else (if now > sessions[0].value.expiresAt then [sessions[0].key] else []) + ExpiredIds(sessions[1..], now)
  }

  function RemoveEach(s: State, ids: seq<string>): State
    decreases |ids|
  {
    if ids == [] then s else RemoveEach(RemoveStep(s, ids[0]), ids[1..])
  }

  function CleanupStep(s: State, now: int): State {
    RemoveEach(s, ExpiredIds(s.sessions, now))
  }

  // ---------- the invariant ----------

  predicate KeyedByAgent(sessions: Sessions) {
    forall i | 0 <= i < |sessions| :: sessions[i].key == sessions[i].value.agentId
  }

  /** Every index entry points at a present session of that identity. */
  predicate IndexSound(s: State) {
    && Distinct(s.sessions) && KeyedByAgent(s.sessions)
    && forall identity | identity in s.index ::
         Has(s.sessions, s.index[identity]) && Find(s.sessions, s.index[identity]).value.userIdentity == identity
  }

  /** Every session is the one its identity's entry points at. */
  predicate IndexComplete(s: State) {
    forall e | e in s.sessions :: e.value.userIdentity in s.index && s.index[e.value.userIdentity] == e.key
  }

  /** Storing would move an agent away from an identity whose entry still names it. */
  predicate MovesIndexedAgent(s: State, session: Session) {
    Has(s.sessions, session.agentId) &&
    var before := Find(s.sessions, session.agentId).value.userIdentity;
    before != session.userIdentity && before in s.index && s.index[before] == session.agentId
  }

  /** Another agent already has a session of this identity. */
  predicate IdentityTaken(s: State, session: Session) {
    exists i :: 0 <= i < |s.sessions| && s.sessions[i].key != session.agentId && s.sessions[i].value.userIdentity == session.userIdentity
  }

  // ---------- helper lemmas ----------

  lemma {:induction false} FindEntry(sessions: Sessions, i: int)
    requires Distinct(sessions) && 0 <= i < |sessions|
    ensures Find(sessions, sessions[i].key) == Some(sessions[i].value)
  {
    if i > 0 {
      FindEntry(sessions[1..], i - 1);
      assert Has(sessions[1..], sessions[i].key);
    }
  }

  lemma {:induction false} EntryOfFind(sessions: Sessions, key: string) returns (i: nat)
    requires Has(sessions, key)
    ensures i < |sessions| && sessions[i].key == key && Find(sessions, key) == Some(sessions[i].value)
  {
    if sessions[0].key == key {
      i := 0;
    } else {
      i := EntryOfFind(sessions[1..], key);
      i := i + 1;
    }
  }

  lemma {:induction false} NoSuchKey(sessions: Sessions, key: string)
    requires forall i | 0 <= i < |sessions| :: sessions[i].key != key
    ensures !Has(sessions, key)
  {
    if sessions != [] {
      NoSuchKey(sessions[1..], key);
    }
  }

  lemma {:induction false} KeyedPut(sessions: Sessions, session: Session)
    requires KeyedByAgent(sessions)
    ensures KeyedByAgent(Put(sessions, session.agentId, session))
  {
    if sessions != [] {
      assert forall i | 0 <= i < |sessions[1..]| :: sessions[1..][i] == sessions[i + 1];
      KeyedPut(sessions[1..], session);
    }
  }

  lemma {:induction false} KeyedRemove(sessions: Sessions, key: string)
    requires KeyedByAgent(sessions)
    ensures KeyedByAgent(Remove(sessions, key))
    ensures forall e | e in Remove(sessions, key) :: e in sessions && e.key != key
  {
    if sessions != [] {
      assert forall i | 0 <= i < |sessions[1..]| :: sessions[1..][i] == sessions[i + 1];
      KeyedRemove(sessions[1..], key);
    }
  }

  lemma {:induction false} EntriesOfPut(sessions: Sessions, key: string, value: Session)
    requires Distinct(sessions)
    ensures forall e | e in Put(sessions, key, value) :: e == Entry(key, value) || (e in sessions && e.key != key)
    ensures Entry(key, value) in Put(sessions, key, value)
    ensures forall e | e in sessions && e.key != key :: e in Put(sessions, key, value)
  {
    if sessions != [] {
      if sessions[0].key == key {
        forall e | e in sessions[1..]
          ensures e.key != key
        {
          var i :| 0 <= i < |sessions[1..]| && sessions[1..][i] == e;
          FindEntry(sessions[1..], i);
        }
      } else {
        EntriesOfPut(sessions[1..], key, value);
      }
    }
  }

  // ---------- what each operation keeps ----------

  /** A store keeps the index sound exactly unless it moves an indexed agent to another identity. */
  lemma StoreKeepsSoundExactly(s: State, session: Session)
    requires IndexSound(s)
    ensures IndexSound(StoreStep(s, session)) <==> !MovesIndexedAgent(s, session)
  {
    var s' := StoreStep(s, session);
    DistinctPut(s.sessions, session.agentId, session);
    KeyedPut(s.sessions, session);
    forall key: string
      ensures Find(s'.sessions, key) == if key == session.agentId then Some(session) else Find(s.sessions, key)
    {
      FindPut(s.sessions, session.agentId, session, key);
    }
    if MovesIndexedAgent(s, session) {
      var before := Find(s.sessions, session.agentId).value.userIdentity;
      assert before in s'.index && s'.index[before] == session.agentId;
    }
  }

  lemma RemoveKeepsSound(s: State, agentId: string)
    requires IndexSound(s)
    ensures IndexSound(RemoveStep(s, agentId))
  {
    DistinctRemove(s.sessions, agentId);
    KeyedRemove(s.sessions, agentId);
    var s' := RemoveStep(s, agentId);
    forall identity | identity in s'.index
      ensures Has(s'.sessions, s'.index[identity]) && Find(s'.sessions, s'.index[identity]).value.userIdentity == identity
    {
      FindRemove(s.sessions, agentId, s.index[identity]);
    }
  }

  /** From an exact index a store keeps it exact if and only if the agent does not move and the
      identity is not another agent's. */
  lemma StoreKeepsCompleteExactly(s: State, session: Session)
    requires IndexSound(s) && IndexComplete(s)
    ensures IndexSound(StoreStep(s, session)) && IndexComplete(StoreStep(s, session))
       <==> !MovesIndexedAgent(s, session) && !IdentityTaken(s, session)
  {
    StoreKeepsSoundExactly(s, session);
    EntriesOfPut(s.sessions, session.agentId, session);
    var s' := StoreStep(s, session);
    if IdentityTaken(s, session) {
      var i :| 0 <= i < |s.sessions| && s.sessions[i].key != session.agentId && s.sessions[i].value.userIdentity == session.userIdentity;
      assert s.sessions[i] in s'.sessions;
    } else {
      forall e | e in s'.sessions
        ensures e.value.userIdentity in s'.index && s'.index[e.value.userIdentity] == e.key
      {
        if e.key != session.agentId {
          var i :| 0 <= i < |s.sessions| && s.sessions[i] == e;
        }
      }
    }
  }

  lemma RemoveKeepsComplete(s: State, agentId: string)
    requires IndexSound(s) && IndexComplete(s)
    ensures IndexComplete(RemoveStep(s, agentId))
  {
    KeyedRemove(s.sessions, agentId);
    if Has(s.sessions, agentId) {
      var i := EntryOfFind(s.sessions, agentId);
      assert s.sessions[i] in s.sessions;
      var gone := s.sessions[i].value.userIdentity;
      forall e | e in RemoveStep(s, agentId).sessions
        ensures e.value.userIdentity != gone
      {
        assert e in s.sessions && e.key != agentId;
      }
    }
  }

  lemma {:induction false} RemoveEachKeeps(s: State, ids: seq<string>)
    requires IndexSound(s)
    ensures IndexSound(RemoveEach(s, ids))
    ensures IndexComplete(s) ==> IndexComplete(RemoveEach(s, ids))
    decreases |ids|
  {
    if ids != [] {
      RemoveKeepsSound(s, ids[0]);
      if IndexComplete(s) {
        RemoveKeepsComplete(s, ids[0]);
      }
      RemoveEachKeeps(RemoveStep(s, ids[0]), ids[1..]);
    }
  }

  // ---------- runs ----------

  datatype Op =
    | Store(session: Session)
    | GetByAgentId(agentId: string, at: int)
    | GetByIdentity(identity: string, at: int)
    | RemoveAgent(agentId: string)
    | Cleanup(at: int)

  function Step(s: State, op: Op): State {
    match op
    case Store(session) => StoreStep(s, session)
    case GetByAgentId(agentId, at) => GetStep(s, agentId, at).0
    case GetByIdentity(identity, at) => GetByIdentityStep(s, identity, at).0
    case RemoveAgent(agentId) => RemoveStep(s, agentId)
    case Cleanup(at) => CleanupStep(s, at)
  }

  function Run(s: State, ops: seq<Op>): State
    decreases |ops|
  {
    if ops == [] then s else Run(Step(s, ops[0]), ops[1..])
  }

  /** Each agent is always stored with one identity. */
  predicate OneIdentityEach(ops: seq<Op>) {
    forall i, j | 0 <= i < |ops| && 0 <= j < |ops| && ops[i].Store? && ops[j].Store? ::
      ops[i].session.agentId == ops[j].session.agentId ==> ops[i].session.userIdentity == ops[j].session.userIdentity
  }

  /** Each identity has at most one agent. */
  predicate OneAgentEach(ops: seq<Op>) {
    forall i, j | 0 <= i < |ops| && 0 <= j < |ops| && ops[i].Store? && ops[j].Store? ::
      ops[i].session.userIdentity == ops[j].session.userIdentity ==> ops[i].session.agentId == ops[j].session.agentId
  }

  predicate StoredIn(ops: seq<Op>, session: Session) {
    exists i :: 0 <= i < |ops| && ops[i] == Store(session)
  }

  predicate AllStoredIn(s: State, ops: seq<Op>) {
    forall e | e in s.sessions :: StoredIn(ops, e.value)
  }

  lemma {:induction false} RemoveEachSubset(s: State, ids: seq<string>)
    requires KeyedByAgent(s.sessions)
    ensures forall e | e in RemoveEach(s, ids).sessions :: e in s.sessions
    decreases |ids|
  {
    if ids != [] {
      KeyedRemove(s.sessions, ids[0]);
      RemoveEachSubset(RemoveStep(s, ids[0]), ids[1..]);
    }
  }

  lemma StepStored(s: State, op: Op, all: seq<Op>)
    requires IndexSound(s) && AllStoredIn(s, all) && op in all
    ensures AllStoredIn(Step(s, op), all)
  {
    match op
    case Store(session) =>
      var i :| 0 <= i < |all| && all[i] == op;
      EntriesOfPut(s.sessions, session.agentId, session);
      assert StoredIn(all, session);
    case GetByAgentId(agentId, at) => KeyedRemove(s.sessions, agentId);
    case GetByIdentity(identity, at) =>
      if identity in s.index {
        KeyedRemove(s.sessions, s.index[identity]);
      }
    case RemoveAgent(agentId) => KeyedRemove(s.sessions, agentId);
    case Cleanup(at) => RemoveEachSubset(s, ExpiredIds(s.sessions, at));
  }

  lemma StepSound(s: State, op: Op, all: seq<Op>)
    requires IndexSound(s) && AllStoredIn(s, all) && op in all && OneIdentityEach(all)
    ensures IndexSound(Step(s, op))
    ensures OneAgentEach(all) && IndexComplete(s) ==> IndexComplete(Step(s, op))
  {
    match op
    case Store(session) =>
      var j :| 0 <= j < |all| && all[j] == op;
      StoreKeepsSoundExactly(s, session);
      if Has(s.sessions, session.agentId) {
        var i := EntryOfFind(s.sessions, session.agentId);
        assert s.sessions[i] in s.sessions && StoredIn(all, s.sessions[i].value);
      }
      if OneAgentEach(all) && IndexComplete(s) {
        StoreKeepsCompleteExactly(s, session);
        forall i | 0 <= i < |s.sessions| && s.sessions[i].value.userIdentity == session.userIdentity
          ensures s.sessions[i].key == session.agentId
        {
          assert s.sessions[i] in s.sessions && StoredIn(all, s.sessions[i].value);
        }
      }
    case GetByAgentId(agentId, at) => RemoveEachKeeps(s, [agentId]); assert RemoveEach(s, [agentId]) == RemoveStep(s, agentId);
    case GetByIdentity(identity, at) =>
      if identity in s.index {
        RemoveEachKeeps(s, [s.index[identity]]);
        assert RemoveEach(s, [s.index[identity]]) == RemoveStep(s, s.index[identity]);
      }
    case RemoveAgent(agentId) => RemoveEachKeeps(s, [agentId]); assert RemoveEach(s, [agentId]) == RemoveStep(s, agentId);
    case Cleanup(at) => RemoveEachKeeps(s, ExpiredIds(s.sessions, at));
  }

  lemma {:induction false} RunSound(s: State, ops: seq<Op>, all: seq<Op>)
    requires IndexSound(s) && AllStoredIn(s, all) && OneIdentityEach(all)
    requires forall op | op in ops :: op in all
    ensures IndexSound(Run(s, ops))
    ensures OneAgentEach(all) && IndexComplete(s) ==> IndexComplete(Run(s, ops))
    decreases |ops|
  {
    if ops != [] {
      assert ops[0] in ops;
      StepSound(s, ops[0], all);
      StepStored(s, ops[0], all);
      RunSound(Step(s, ops[0]), ops[1..], all);
    }
  }

  /** In every state reached while agents keep their identity, every index entry points at a
      present session of that identity. */
  lemma ReachableIndexSound(ops: seq<Op>)
    requires OneIdentityEach(ops)
    ensures IndexSound(Run(EMPTY, ops))
  {
    RunSound(EMPTY, ops, ops);
  }

  /** Searching the sessions in order. */
  function Search(sessions: Sessions, identity: string, now: int): Option<Session> {
    if sessions == [] then None
    else if sessions[0].value.userIdentity == identity && now <= sessions[0].value.expiresAt then Some(sessions[0].value)
    else Search(sessions[1..], identity, now)
  }

  lemma {:induction false} SearchUnique(sessions: Sessions, identity: string, now: int, i: int)
    requires 0 <= i < |sessions| && sessions[i].value.userIdentity == identity
    requires forall j | 0 <= j < |sessions| && j != i :: sessions[j].value.userIdentity != identity
    ensures Search(sessions, identity, now) == if now <= sessions[i].value.expiresAt then Some(sessions[i].value) else None
  {
    if i > 0 {
      assert forall j | 0 <= j < |sessions[1..]| :: sessions[1..][j] == sessions[j + 1];
      SearchUnique(sessions[1..], identity, now, i - 1);
    } else {
      SearchNone(sessions[1..], identity, now);
    }
  }

  lemma {:induction false} SearchNone(sessions: Sessions, identity: string, now: int)
    requires forall j | 0 <= j < |sessions| :: sessions[j].value.userIdentity != identity
    ensures Search(sessions, identity, now) == None
  {
    if sessions != [] {
      assert forall j | 0 <= j < |sessions[1..]| :: sessions[1..][j] == sessions[j + 1];
      SearchNone(sessions[1..], identity, now);
    }
  }

  /** With an exact index and no empty agent id the index lookup is the linear search. */
  lemma LookupIsSearch(s: State, identity: string, now: int)
    requires IndexSound(s) && IndexComplete(s) && !Has(s.sessions, "")
    ensures GetByIdentityStep(s, identity, now).1 == Search(s.sessions, identity, now)
  {
    if identity in s.index {
      var i := EntryOfFind(s.sessions, s.index[identity]);
      forall j | 0 <= j < |s.sessions| && j != i
        ensures s.sessions[j].value.userIdentity != identity
      {
        assert s.sessions[j] in s.sessions;
        if s.sessions[j].key == s.sessions[i].key {
          DistinctKeys(s.sessions, i, j);
        }
      }
      SearchUnique(s.sessions, identity, now, i);
    } else {
      assert forall j | 0 <= j < |s.sessions| :: s.sessions[j] in s.sessions;
      SearchNone(s.sessions, identity, now);
    }
  }

  lemma {:induction false} DistinctKeys(sessions: Sessions, i: int, j: int)
    requires Distinct(sessions) && 0 <= i < |sessions| && 0 <= j < |sessions| && i != j
    ensures sessions[i].key != sessions[j].key
  {
    if i == 0 {
      FindEntry(sessions[1..], j - 1);
    } else if j == 0 {
      FindEntry(sessions[1..], i - 1);
    } else {
      DistinctKeys(sessions[1..], i - 1, j - 1);
    }
  }

  lemma StoredAgents(s: State, ops: seq<Op>)
    requires AllStoredIn(s, ops) && KeyedByAgent(s.sessions)
    requires forall i | 0 <= i < |ops| && ops[i].Store? :: ops[i].session.agentId != ""
    ensures !Has(s.sessions, "")
  {
    forall i | 0 <= i < |s.sessions|
      ensures s.sessions[i].key != ""
    {
      assert s.sessions[i] in s.sessions;
      assert StoredIn(ops, s.sessions[i].value);
    }
    NoSuchKey(s.sessions, "");
  }

  lemma {:induction false} RunStored(s: State, ops: seq<Op>, all: seq<Op>)
    requires IndexSound(s) && AllStoredIn(s, all) && OneIdentityEach(all)
    requires forall op | op in ops :: op in all
    ensures AllStoredIn(Run(s, ops), all)
    decreases |ops|
  {
    if ops != [] {
      assert ops[0] in ops;
      StepSound(s, ops[0], all);
      StepStored(s, ops[0], all);
      RunStored(Step(s, ops[0]), ops[1..], all);
    }
  }

  /** If besides each identity has one agent, and no agent id is empty, getByIdentity finds in
      every reachable state what a search through the unexpired sessions finds. */
  lemma ReachableLookupIsSearch(ops: seq<Op>, identity: string, now: int)
    requires OneIdentityEach(ops) && OneAgentEach(ops)
    requires forall i | 0 <= i < |ops| && ops[i].Store? :: ops[i].session.agentId != ""
    ensures GetByIdentityStep(Run(EMPTY, ops), identity, now).1 == Search(Run(EMPTY, ops).sessions, identity, now)
  {
    RunSound(EMPTY, ops, ops);
    RunStored(EMPTY, ops, ops);
    StoredAgents(Run(EMPTY, ops), ops);
    LookupIsSearch(Run(EMPTY, ops), identity, now);
  }

  /** What a collection leaves: the unexpired sessions, in their order. */
  function Unexpired(sessions: Sessions, now: int): Sessions {
    if sessions == [] then []
    else (if now > sessions[0].value.expiresAt then [] else [sessions[0]]) + Unexpired(sessions[1..], now)
  }

  lemma {:induction false} RemoveEachSkips(e: Entry<Session>, sessions: Sessions, index: map<string, string>, ids: seq<string>)
    requires e.key !in ids
    ensures RemoveEach(State([e] + sessions, index), ids).sessions == [e] + RemoveEach(State(sessions, index), ids).sessions
    decreases |ids|
  {
    var s, t := State([e] + sessions, index), State(sessions, index);
    assert s.sessions[1..] == sessions;
    if ids != [] {
      assert e.key != ids[0];
      var s', t' := RemoveStep(s, ids[0]), RemoveStep(t, ids[0]);
      assert Find(s.sessions, ids[0]) == Find(t.sessions, ids[0]);
      assert s'.sessions == [e] + t'.sessions && s'.index == t'.index;
      RemoveEachSkips(e, t'.sessions, t'.index, ids[1..]);
    }
  }

  lemma {:induction false} ExpiredIdsPresent(sessions: Sessions, now: int, key: string)
    requires key in ExpiredIds(sessions, now)
    ensures Has(sessions, key)
  {
    if !(now > sessions[0].value.expiresAt && key == sessions[0].key) {
      ExpiredIdsPresent(sessions[1..], now, key);
    }
  }

  lemma {:induction false} CleanupLeaves(s: State, now: int)
    requires Distinct(s.sessions)
    ensures CleanupStep(s, now).sessions == Unexpired(s.sessions, now)
    decreases |s.sessions|
  {
    if s.sessions != [] {
      var e, rest, ids := s.sessions[0], s.sessions[1..], ExpiredIds(s.sessions[1..], now);
      assert s.sessions == [e] + rest;
      if now > e.value.expiresAt {
        var all := ExpiredIds(s.sessions, now);
        assert all == [e.key] + ids && all[1..] == ids;
        RemoveAbsent(rest, e.key);
        var s' := RemoveStep(s, e.key);
        assert s'.sessions == rest;
        CleanupLeaves(s', now);
      } else {
        if e.key in ids {
          ExpiredIdsPresent(rest, now, e.key);
        }
        assert ExpiredIds(s.sessions, now) == ids;
        RemoveEachSkips(e, rest, s.index, ids);
        CleanupLeaves(State(rest, s.index), now);
      }
    }
  }

  lemma ExpiredIdsFrom(sessions: Sessions, i: nat, now: int, before: seq<string>)
    requires i < |sessions|
    ensures before + ExpiredIds(sessions[i..], now)
         == (if now > sessions[i].value.expiresAt then before + [sessions[i].key] else before) + ExpiredIds(sessions[i + 1..], now)
  {
    assert sessions[i..][0] == sessions[i] && sessions[i..][1..] == sessions[i + 1..];
    var rest := ExpiredIds(sessions[i + 1..], now);
    if now > sessions[i].value.expiresAt {
      assert before + ([sessions[i].key] + rest) == (before + [sessions[i].key]) + rest;
    } else {
      assert [] + rest == rest;
    }
  }

  // ---------- what a lookup by agent answers ----------

  function Alive(held: Option<Session>, now: int): Option<Session> {
    if held.Some? && now <= held.value.expiresAt then held else None
  }

  predicate NotAfter(op: Op, now: int) {
    match op
    case GetByAgentId(_, at) => at <= now
    case GetByIdentity(_, at) => at <= now
    case Cleanup(at) => at <= now
    case _ => true
  }

  /** The latest store or removal of the agent; lookups and collections are not looked at. */
  function Latest(ops: seq<Op>, agentId: string, held: Option<Session>): Option<Session>
    decreases |ops|
  {
    if ops == [] then held
    else if ops[0].Store? && ops[0].session.agentId == agentId then Latest(ops[1..], agentId, Some(ops[0].session))
    else if ops[0].RemoveAgent? && ops[0].agentId == agentId then Latest(ops[1..], agentId, None)
    else Latest(ops[1..], agentId, held)
  }

  lemma {:induction false} UnexpiredKeeps(sessions: Sessions, at: int, agentId: string, now: int)
    requires Distinct(sessions) && at <= now
    ensures Distinct(Unexpired(sessions, at)) && (Has(Unexpired(sessions, at), agentId) ==> Has(sessions, agentId))
    ensures Alive(Find(Unexpired(sessions, at), agentId), now) == Alive(Find(sessions, agentId), now)
  {
    if sessions != [] {
      UnexpiredKeeps(sessions[1..], at, agentId, now);
      UnexpiredKeeps(sessions[1..], at, sessions[0].key, now);
      var rest := Unexpired(sessions[1..], at);
      if at <= sessions[0].value.expiresAt {
        assert Unexpired(sessions, at) == [sessions[0]] + rest && ([sessions[0]] + rest)[1..] == rest;
      } else {
        assert Unexpired(sessions, at) == rest;
      }
    }
  }

  lemma RemoveStepKeeps(s: State, gone: string, agentId: string)
    requires Distinct(s.sessions)
    ensures Distinct(RemoveStep(s, gone).sessions)
    ensures Find(RemoveStep(s, gone).sessions, agentId) == if agentId == gone then None else Find(s.sessions, agentId)
  {
    DistinctRemove(s.sessions, gone);
    FindRemove(s.sessions, gone, agentId);
  }

  lemma StepAlive(s: State, op: Op, agentId: string, now: int)
    requires Distinct(s.sessions) && NotAfter(op, now)
    ensures Distinct(Step(s, op).sessions)
    ensures Alive(Find(Step(s, op).sessions, agentId), now)
         == if op.Store? && op.session.agentId == agentId then Alive(Some(op.session), now)
            else if op.RemoveAgent? && op.agentId == agentId then None
            else Alive(Find(s.sessions, agentId), now)
  {
    match op
    case Store(session) =>
      DistinctPut(s.sessions, session.agentId, session);
      FindPut(s.sessions, session.agentId, session, agentId);
    case GetByAgentId(id, at) => RemoveStepKeeps(s, id, agentId);
    case GetByIdentity(identity, at) =>
      if identity in s.index {
        RemoveStepKeeps(s, s.index[identity], agentId);
      }
    case RemoveAgent(id) => RemoveStepKeeps(s, id, agentId);
    case Cleanup(at) =>
      CleanupLeaves(s, at);
      UnexpiredKeeps(s.sessions, at, agentId, now);
  }

  lemma {:induction false} RunAlive(s: State, ops: seq<Op>, agentId: string, held: Option<Session>, now: int)
    requires Distinct(s.sessions) && forall op | op in ops :: NotAfter(op, now)
    requires Alive(Find(s.sessions, agentId), now) == Alive(held, now)
    ensures Alive(Find(Run(s, ops).sessions, agentId), now) == Alive(Latest(ops, agentId, held), now)
    decreases |ops|
  {
    if ops != [] {
      var op := ops[0];
      assert op in ops;
      StepAlive(s, op, agentId, now);
      RunAlive(Step(s, op), ops[1..], agentId,
               if op.Store? && op.session.agentId == agentId then Some(op.session)
               else if op.RemoveAgent? && op.agentId == agentId then None else held, now);
    }
  }

  /** In every run, index trouble or not, a lookup by agent answers what was last stored for the
      agent, until it is removed or expires. */
  lemma AgentHistoryDecides(ops: seq<Op>, agentId: string, now: int)
    requires forall op | op in ops :: NotAfter(op, now)
    ensures GetStep(Run(EMPTY, ops), agentId, now).1 == Alive(Latest(ops, agentId, None), now)
  {
    RunAlive(EMPTY, ops, agentId, None, now);
  }

  // ---------- the class ----------

  class InMemoryAuthSessionStore {
    var sessions: Sessions
    var identityIndex: map<string, string>

    ghost function View(): State
      reads this
    {
      State(sessions, identityIndex)
    }

    constructor ()
      ensures View() == EMPTY
    {
      sessions, identityIndex := [], map[];
    }

    method Store(session: Session)
      modifies this
      ensures View() == StoreStep(old(View()), session)
      ensures old(IndexSound(View())) ==> (IndexSound(View()) <==> !old(MovesIndexedAgent(View(), session)))
    {
      if IndexSound(View()) {
        StoreKeepsSoundExactly(View(), session);
      }
      sessions := Put(sessions, session.agentId, session);
      identityIndex := identityIndex[session.userIdentity := session.agentId];
    }

    method GetByAgentId(agentId: string, now: int) returns (found: Option<Session>)
      modifies this
      ensures (View(), found) == GetStep(old(View()), agentId, now)
      ensures found.Some? ==> now <= found.value.expiresAt && found == Find(old(sessions), agentId)
      ensures old(IndexSound(View())) ==> IndexSound(View())
    {
      var session := Find(sessions, agentId);
      if session.None? {
        return None;
      }
      if now > session.value.expiresAt {
        RemoveAgent(agentId);
        return None;
      }
      return session;
    }

    method GetByIdentity(identity: string, now: int) returns (found: Option<Session>)
      modifies this
      ensures (View(), found) == GetByIdentityStep(old(View()), identity, now)
      ensures old(IndexSound(View()) && IndexComplete(View()) && !Has(sessions, "")) ==> found == Search(old(sessions), identity, now)
      ensures old(IndexSound(View())) ==> IndexSound(View())
    {
      if IndexSound(View()) && IndexComplete(View()) && !Has(sessions, "") {
        LookupIsSearch(View(), identity, now);
      }
      if identity !in identityIndex || identityIndex[identity] == "" {
        return None;
      }
      found := GetByAgentId(identityIndex[identity], now);
    }

    method RemoveAgent(agentId: string)
      modifies this
      ensures View() == RemoveStep(old(View()), agentId)
      ensures old(IndexSound(View())) ==> IndexSound(View())
    {
      if IndexSound(View()) {
        RemoveKeepsSound(View(), agentId);
      }
      var session := Find(sessions, agentId);
      if session.Some? {
        identityIndex := identityIndex - {session.value.userIdentity};
      } else {
        RemoveAbsent(sessions, agentId);
      }
      sessions := Remove(sessions, agentId);
    }

    /** The first loop of `cleanup`. */
    method CollectExpired(now: int) returns (expired: seq<string>)
      ensures expired == ExpiredIds(sessions, now)
    {
      expired := [];
      for i := 0 to |sessions|
        invariant expired + ExpiredIds(sessions[i..], now) == ExpiredIds(sessions, now)
      {
        ExpiredIdsFrom(sessions, i, now, expired);
        if now > sessions[i].value.expiresAt {
          expired := expired + [sessions[i].key];
        }
      }
      assert sessions[|sessions|..] == [];
    }

    method Cleanup(now: int)
      modifies this
      ensures View() == CleanupStep(old(View()), now)
      ensures old(IndexSound(View())) ==> IndexSound(View()) && sessions == Unexpired(old(sessions), now)
    {
      var expired := CollectExpired(now);
      assert expired[0..] == expired;
      if IndexSound(View()) {
        CleanupLeaves(View(), now);
      }
      for i := 0 to |expired|
        invariant RemoveEach(View(), expired[i..]) == CleanupStep(old(View()), now)
        invariant old(IndexSound(View())) ==> IndexSound(View())
      {
        assert expired[i..][1..] == expired[i + 1..];
        RemoveAgent(expired[i]);
      }
    }

    method GetAll(now: int) returns (all: seq<Session>)
      modifies this
      ensures View() == CleanupStep(old(View()), now) && all == Values(sessions)
      ensures old(IndexSound(View())) ==> all == Values(Unexpired(old(sessions), now))
    {
      Cleanup(now);
      all := Values(sessions);
    }
  }
}
