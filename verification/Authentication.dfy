/** `BtpsAuthentication`: creating agents and rotating their refresh tokens and keys
    (src/core/authentication/BtpsAuthentication.ts). */
module Authentication {
  import opened OrderedMap
  import opened Symbolic
  import Pem
  import Trust
  import TokenStore
  import Verification

  datatype Config = Config(authTokenExpiryMs: int, refreshTokenExpiryMs: int)

  datatype State = State(trust: Trust.TrustMap, tokens: TokenStore.Tokens)

  datatype CreateOptions = CreateOptions(userIdentity: string, publicKey: string, trustExpiryMs: Option<int>)

  datatype ReissueOptions = ReissueOptions(publicKey: Option<string>, trustExpiryMs: Option<int>, decryptBy: string)

  /** The clock readings of one reissue, in the order they are taken. */
  datatype Clock = Clock(validated: int, extended: int, seen: int, decided: int, stored: int)

  datatype Credentials = Credentials(agentId: string, refreshToken: string, expiresAt: int, decryptBy: string)

  datatype Outcome =
    | Issued(credentials: Credentials)
    | InvalidToken
    | NoRecord
    | BadPublicKey
    | RecordExists
    | UpdateFailed

  function ValueOr(x: Option<int>, default: int): int {
    if x.Some? then x.value else default
  }

  // ---------- the operations on values ----------

  /** `createAgentTrustRecord` then a first refresh token; a zero expiry means the default. */
  function Create(cfg: Config, s: State, o: CreateOptions, agentId: string, token: string, decryptBy: string,
                  decided: int, stored: int): (State, Outcome) {
    var id := Trust.ComputeTrustId(agentId, o.userIdentity);
    var expiry := ValueOr(o.trustExpiryMs, cfg.refreshTokenExpiryMs);
    var expiresAt := decided + if expiry != 0 then expiry else cfg.refreshTokenExpiryMs;
    if FingerprintOf(o.publicKey).None? then (s, BadPublicKey)
    else if id in s.trust then (s, RecordExists)
    else
      var record := Trust.TrustRecord(agentId, o.userIdentity, Trust.Accepted, decided, Trust.At(expiresAt),
                                      Pem.PemToBase64(o.publicKey), FingerprintOf(o.publicKey).value, [], Trust.Absent);
      (State(s.trust[id := record],
             TokenStore.StoreStep(s.tokens, token, Some(agentId), o.userIdentity, cfg.refreshTokenExpiryMs, decryptBy, stored)),
       Issued(Credentials(agentId, token, expiresAt, decryptBy)))
  }

  /** The key to rotate to: an absent or empty one is not looked at. */
  function NewKey(o: ReissueOptions): Option<string> {
    if o.publicKey.Some? && o.publicKey.value != "" then o.publicKey else None
  }

  predicate Rotates(record: Trust.TrustRecord, o: ReissueOptions) {
    NewKey(o).Some? && FingerprintOf(NewKey(o).value).Some? && FingerprintOf(NewKey(o).value).value != record.publicKeyFingerprint
  }

  /** The entry a rotation pushes onto the record's own history. */
  function Pushed(record: Trust.TrustRecord, o: ReissueOptions, seen: int): Trust.TrustRecord {
    if Rotates(record, o) then
      record.(keyHistory := record.keyHistory + [Trust.KeyEntry(record.publicKeyFingerprint, record.decidedAt, seen)])
    else record
  }

  function Patched(cfg: Config, record: Trust.TrustRecord, o: ReissueOptions, t: Clock): Trust.TrustRecord {
    var pushed := Pushed(record, o, t.seen);
    pushed.(
      expiresAt := Trust.At(t.extended + ValueOr(o.trustExpiryMs, cfg.refreshTokenExpiryMs)),
      publicKeyBase64 := if Rotates(record, o) then Pem.PemToBase64(NewKey(o).value) else record.publicKeyBase64,
      publicKeyFingerprint := if Rotates(record, o) then FingerprintOf(NewKey(o).value).value else record.publicKeyFingerprint,
      status := Trust.Accepted,
      decidedAt := t.decided)
  }

  /** `validateAndReissueRefreshToken`. The history is pushed in place before the update, so it
      stays pushed when the update fails. */
  function Reissue(cfg: Config, s: State, agentId: string, refreshToken: string, o: ReissueOptions, newToken: string,
                   updateOk: bool, t: Clock): (State, Outcome) {
    var (tokens, doc) := TokenStore.GetStep(s.tokens, agentId, refreshToken, t.validated);
    if doc.None? then (s.(tokens := tokens), InvalidToken)
    else
      var user := doc.value.userIdentity;
      var id := Trust.ComputeTrustId(agentId, user);
      if id !in s.trust then (s.(tokens := tokens), NoRecord)
      else if NewKey(o).Some? && FingerprintOf(NewKey(o).value).None? then (s.(tokens := tokens), BadPublicKey)
      else if !updateOk then (State(s.trust[id := Pushed(s.trust[id], o, t.seen)], tokens), UpdateFailed)
      else
        (State(s.trust[id := Patched(cfg, s.trust[id], o, t)],
               TokenStore.StoreStep(TokenStore.RemoveStep(tokens, agentId, refreshToken), newToken, Some(agentId), user,
                                    cfg.refreshTokenExpiryMs, o.decryptBy, t.stored)),
         Issued(Credentials(agentId, newToken, t.extended + ValueOr(o.trustExpiryMs, cfg.refreshTokenExpiryMs), o.decryptBy)))
  }

  /** `validateRefreshToken` answers yes. */
  predicate Accepts(s: State, agentId: string, token: string, now: int) {
    TokenStore.GetStep(s.tokens, agentId, token, now).1.Some?
  }

  // ---------- runs ----------

  datatype Action =
    | CreateAgent(o: CreateOptions, agentId: string, token: string, decryptBy: string, decided: int, stored: int)
    | ReissueToken(agentId: string, refreshToken: string, r: ReissueOptions, newToken: string, updateOk: bool, t: Clock)
    | StoreAuth(token: string, user: string, decryptBy: string, at: int)
    | ValidateAuth(user: string, token: string, at: int)
    | Cleanup(at: int)
    | Decide(id: string, status: Trust.Status, at: int)
    | Forget(id: string, at: int)

  function Begin(a: Action): int {
    match a
    case CreateAgent(_, _, _, _, decided, _) => decided
    case ReissueToken(_, _, _, _, _, t) => t.validated
    case StoreAuth(_, _, _, at) => at
    case ValidateAuth(_, _, at) => at
    case Cleanup(at) => at
    case Decide(_, _, at) => at
    case Forget(_, at) => at
  }

  function End(a: Action): int {
    match a
    case CreateAgent(_, _, _, _, _, stored) => stored
    case ReissueToken(_, _, _, _, _, t) => t.stored
    case _ => Begin(a)
  }

  /** The clock readings inside one action do not go back. */
  predicate Timed(a: Action) {
    match a
    case CreateAgent(_, _, _, _, decided, stored) => decided <= stored
    case ReissueToken(_, _, _, _, _, t) => t.validated <= t.extended <= t.seen <= t.decided <= t.stored
    case _ => true
  }

  function Step(cfg: Config, s: State, a: Action): (State, Outcome) {
    match a
    case CreateAgent(o, agentId, token, decryptBy, decided, stored) => Create(cfg, s, o, agentId, token, decryptBy, decided, stored)
    case ReissueToken(agentId, refreshToken, r, newToken, updateOk, t) => Reissue(cfg, s, agentId, refreshToken, r, newToken, updateOk, t)
    case StoreAuth(token, user, decryptBy, at) =>
      (s.(tokens := TokenStore.StoreStep(s.tokens, token, None, user, cfg.authTokenExpiryMs, decryptBy, at)), NoRecord)
    case ValidateAuth(user, token, at) => (s.(tokens := TokenStore.ValidateStep(s.tokens, user, token, at).0), NoRecord)
    case Cleanup(at) => (s.(tokens := TokenStore.CleanupStep(s.tokens, at)), NoRecord)
    case Decide(id, status, _) =>
      (if id in s.trust then s.(trust := s.trust[id := s.trust[id].(status := status)]) else s, NoRecord)
    case Forget(id, _) => (s.(trust := s.trust - {id}), NoRecord)
  }

  function RunState(cfg: Config, s: State, actions: seq<Action>): State
    decreases |actions|
  {
    if actions == [] then s else RunState(cfg, Step(cfg, s, actions[0]).0, actions[1..])
  }

  /** The record a reissue is about, once its token was accepted. */
  function ReissuedId(s: State, a: Action): string
    requires a.ReissueToken? && Accepts(s, a.agentId, a.refreshToken, a.t.validated)
  {
    Trust.ComputeTrustId(a.agentId, s.tokens[TokenStore.MakeKey(a.agentId, a.refreshToken)].userIdentity)
  }

  /** A reissue that gets as far as the record with this id. */
  predicate AboutRecord(s: State, a: Action, id: string) {
    a.ReissueToken? && Accepts(s, a.agentId, a.refreshToken, a.t.validated) && ReissuedId(s, a) == id && id in s.trust
  }

  /** A key to rotate to can be read, or there is none. */
  predicate ReadsKey(o: ReissueOptions) {
    o.publicKey.Some? && o.publicKey.value != "" ==> Pem.KeyOf(o.publicKey.value).Some?
  }

  /** What has to hold beforehand for a token to be issued. */
  predicate Issues(s: State, a: Action) {
    match a
    case CreateAgent(o, agentId, _, _, _, _) =>
      FingerprintOf(o.publicKey).Some? && Trust.ComputeTrustId(agentId, o.userIdentity) !in s.trust
    case ReissueToken(agentId, refreshToken, r, _, updateOk, t) =>
      updateOk && ReadsKey(r) && Accepts(s, agentId, refreshToken, t.validated) && AboutRecord(s, a, ReissuedId(s, a))
    case _ => false
  }

  lemma IssuesExactly(cfg: Config, s: State, a: Action)
    ensures Step(cfg, s, a).1.Issued? <==> Issues(s, a)
  {
  }

  // ---------- the refresh-token chain ----------

  /** An issued refresh token, by the key it is stored under. */
  datatype Issue = Issue(key: string, expiresAt: int)

  /** What was issued: a chain per agent, and the owners of auth tokens. */
  datatype Ledger = Ledger(chains: map<string, seq<Issue>>, users: set<string>)

  const EMPTY_STATE := State(map[], map[])
  const EMPTY_LEDGER := Ledger(map[], {})

  function Chain(l: Ledger, owner: string): seq<Issue> {
    if owner in l.chains then l.chains[owner] else []
  }

  /** The ledger goes by the credentials handed out. */
  function Record(cfg: Config, s: State, l: Ledger, a: Action): Ledger {
    match Step(cfg, s, a).1
    case Issued(Credentials(agentId, refreshToken, _, _)) =>
      var owner := Trust.Lower(agentId);
      var issue := Issue(TokenStore.MakeKey(agentId, refreshToken), End(a) + cfg.refreshTokenExpiryMs);
      l.(chains := l.chains[owner := (if a.CreateAgent? then [] else Chain(l, owner)) + [issue]])
    case _ =>
      if a.StoreAuth? then l.(users := l.users + {Trust.Lower(a.user)}) else l
  }

  predicate Unissued(l: Ledger, owner: string, key: string) {
    forall i | 0 <= i < |Chain(l, owner)| :: Chain(l, owner)[i].key != key
  }

  /** The freshness of random identifiers, and that users are not agents; nothing is asked of
      attempts that are refused. */
  predicate Admissible(s: State, l: Ledger, a: Action) {
    match a
    case CreateAgent(_, agentId, _, _, _, _) =>
      Issues(s, a) ==> ':' !in agentId && Trust.Lower(agentId) !in l.chains && Trust.Lower(agentId) !in l.users
    case ReissueToken(agentId, _, _, newToken, _, _) =>
      Issues(s, a) ==>
        ':' !in agentId && Trust.Lower(agentId) !in l.users && Unissued(l, Trust.Lower(agentId), TokenStore.MakeKey(agentId, newToken))
    case StoreAuth(_, user, _, _) => ':' !in user && Trust.Lower(user) !in l.chains
    case ValidateAuth(user, token, at) => Accepts(s, user, token, at) ==> ':' !in user && Trust.Lower(user) !in l.chains
    case _ => true
  }

  function OwnerOf(key: string): string {
    if key == "" || key[0] == ':' then "" else [key[0]] + OwnerOf(key[1..])
  }

  lemma {:induction false} OwnerOfConcat(owner: string, token: string)
    requires ':' !in owner
    ensures OwnerOf(owner + ":" + token) == owner
  {
    var key := owner + ":" + token;
    if owner != "" {
      assert key[0] == owner[0] && key[1..] == owner[1..] + ":" + token;
      OwnerOfConcat(owner[1..], token);
    }
  }

  lemma OwnerOfKey(owner: string, token: string)
    requires ':' !in owner
    ensures OwnerOf(TokenStore.MakeKey(owner, token)) == Trust.Lower(owner)
  {
    Trust.TrustIdParts(owner, token);
    Trust.LowerKeepsColon(owner);
    OwnerOfConcat(Trust.Lower(owner), Trust.Lower(token));
  }

  /** A stored key belongs to a user, or is the newest link of its agent's chain. */
  predicate Owned(l: Ledger, key: string, expiresAt: int) {
    var owner := OwnerOf(key);
    owner in l.users || (Chain(l, owner) != [] && Newest(l, owner) == Issue(key, expiresAt))
  }

  /** A link is stored until it expires. */
  predicate Stored(m: TokenStore.Tokens, issue: Issue, now: int) {
    now > issue.expiresAt || (issue.key in m && m[issue.key].expiresAt == issue.expiresAt)
  }

  function Newest(l: Ledger, owner: string): Issue
    requires Chain(l, owner) != []
  {
    Chain(l, owner)[|Chain(l, owner)| - 1]
  }

  ghost predicate LedgerOk(l: Ledger) {
    && (forall owner | owner in l.chains :: owner !in l.users && l.chains[owner] != [])
    && (forall owner, i | owner in l.chains && 0 <= i < |l.chains[owner]| :: OwnerOf(l.chains[owner][i].key) == owner)
    && (forall owner, i, j | owner in l.chains && 0 <= i < j < |l.chains[owner]| :: l.chains[owner][i].key != l.chains[owner][j].key)
  }

  ghost predicate Linked(m: TokenStore.Tokens, l: Ledger, now: int) {
    && LedgerOk(l)
    && (forall key | key in m :: Owned(l, key, m[key].expiresAt))
    && (forall owner | owner in l.chains :: Stored(m, Newest(l, owner), now))
  }

  /** Dropping expired tokens and users' tokens keeps the link. */
  lemma LinkedSub(m: TokenStore.Tokens, kept: TokenStore.Tokens, l: Ledger, now: int, later: int)
    requires Linked(m, l, now) && now <= later
    requires forall key | key in kept :: key in m && kept[key] == m[key]
    requires forall key | key in m && key !in kept :: m[key].expiresAt < later || OwnerOf(key) in l.users
    ensures Linked(kept, l, later)
  {
    forall owner | owner in l.chains
      ensures Stored(kept, Newest(l, owner), later)
    {
      assert Stored(m, Newest(l, owner), now);
    }
  }

  function Extend(l: Ledger, owner: string, issue: Issue): Ledger {
    l.(chains := l.chains[owner := Chain(l, owner) + [issue]])
  }

  lemma ExtendOk(l: Ledger, owner: string, issue: Issue)
    requires LedgerOk(l) && owner !in l.users && OwnerOf(issue.key) == owner && Unissued(l, owner, issue.key)
    ensures LedgerOk(Extend(l, owner, issue)) && Newest(Extend(l, owner, issue), owner) == issue
    ensures forall other | other != owner :: Chain(Extend(l, owner, issue), other) == Chain(l, other)
  {
    var l' := Extend(l, owner, issue);
    forall other, i, j | other in l'.chains && 0 <= i < j < |l'.chains[other]|
      ensures l'.chains[other][i].key != l'.chains[other][j].key
    {
      if other == owner && j == |Chain(l, owner)| {
        assert l'.chains[other][i] == Chain(l, owner)[i];
      }
    }
  }

  lemma IssueOwned(m: TokenStore.Tokens, l: Ledger, owner: string, key: string, doc: TokenStore.TokenDoc)
    requires forall k | k in m :: Owned(l, k, m[k].expiresAt) && OwnerOf(k) != owner
    requires OwnerOf(key) == owner
    ensures var m', l' := m[key := doc], Extend(l, owner, Issue(key, doc.expiresAt));
            forall k | k in m' :: Owned(l', k, m'[k].expiresAt)
  {
    var m', l' := m[key := doc], Extend(l, owner, Issue(key, doc.expiresAt));
    assert Newest(l', owner) == Issue(key, doc.expiresAt);
    forall k | k in m'
      ensures Owned(l', k, m'[k].expiresAt)
    {
      if k != key {
        assert Owned(l, k, m[k].expiresAt) && OwnerOf(k) != owner;
      }
    }
  }

  lemma IssueStored(m: TokenStore.Tokens, l: Ledger, owner: string, key: string, doc: TokenStore.TokenDoc, now: int)
    requires LedgerOk(l) && OwnerOf(key) == owner
    requires forall other | other in l.chains && other != owner :: Stored(m, Newest(l, other), now)
    ensures var l' := Extend(l, owner, Issue(key, doc.expiresAt));
            forall other | other in l'.chains :: Chain(l', other) != [] && Stored(m[key := doc], Newest(l', other), now)
  {
    var l' := Extend(l, owner, Issue(key, doc.expiresAt));
    forall other | other in l'.chains
      ensures Chain(l', other) != [] && Stored(m[key := doc], Newest(l', other), now)
    {
      if other != owner {
        OtherStillStored(m, l, key, doc, other, now);
      }
    }
  }

  /** A new link at the end of a chain none of whose tokens is stored. */
  lemma LinkedIssue(m: TokenStore.Tokens, l: Ledger, owner: string, key: string, doc: TokenStore.TokenDoc, now: int)
    requires LedgerOk(l) && owner !in l.users && OwnerOf(key) == owner && Unissued(l, owner, key)
    requires forall k | k in m :: Owned(l, k, m[k].expiresAt) && OwnerOf(k) != owner
    requires forall other | other in l.chains && other != owner :: Stored(m, Newest(l, other), now)
    ensures Linked(m[key := doc], Extend(l, owner, Issue(key, doc.expiresAt)), now)
  {
    ExtendOk(l, owner, Issue(key, doc.expiresAt));
    IssueOwned(m, l, owner, key, doc);
    IssueStored(m, l, owner, key, doc, now);
  }

  lemma OtherStillStored(m: TokenStore.Tokens, l: Ledger, key: string, doc: TokenStore.TokenDoc, other: string, now: int)
    requires LedgerOk(l) && other in l.chains && other != OwnerOf(key) && Stored(m, Newest(l, other), now)
    ensures Stored(m[key := doc], Newest(l, other), now)
  {
    var last := |l.chains[other]| - 1;
    assert OwnerOf(l.chains[other][last].key) == other;
  }

  lemma OwnedFreeOwner(m: TokenStore.Tokens, l: Ledger, now: int, owner: string, key: string)
    requires Linked(m, l, now) && key in m && owner !in l.chains && owner !in l.users
    ensures OwnerOf(key) != owner
  {
    assert Owned(l, key, m[key].expiresAt);
  }

  lemma LinkedFirst(m: TokenStore.Tokens, l: Ledger, now: int, agentId: string, token: string, doc: TokenStore.TokenDoc, later: int)
    requires Linked(m, l, now) && now <= later
    requires ':' !in agentId && Trust.Lower(agentId) !in l.chains && Trust.Lower(agentId) !in l.users
    ensures var key := TokenStore.MakeKey(agentId, token);
            Linked(m[key := doc], Extend(l, Trust.Lower(agentId), Issue(key, doc.expiresAt)), later)
  {
    OwnerOfKey(agentId, token);
    LinkedSub(m, m, l, now, later);
    forall k | k in m
      ensures Owned(l, k, m[k].expiresAt) && OwnerOf(k) != Trust.Lower(agentId)
    {
      OwnedFreeOwner(m, l, now, Trust.Lower(agentId), k);
    }
    LinkedIssue(m, l, Trust.Lower(agentId), TokenStore.MakeKey(agentId, token), doc, later);
  }

  lemma CreateShape(cfg: Config, s: State, l: Ledger, a: Action) returns (doc: TokenStore.TokenDoc)
    requires a.CreateAgent? && Step(cfg, s, a).1.Issued? && Trust.Lower(a.agentId) !in l.chains
    ensures var key := TokenStore.MakeKey(a.agentId, a.token);
            && Step(cfg, s, a).0.tokens == s.tokens[key := doc]
            && Record(cfg, s, l, a) == Extend(l, Trust.Lower(a.agentId), Issue(key, doc.expiresAt))
  {
    var key := TokenStore.MakeKey(a.agentId, a.token);
    doc := Step(cfg, s, a).0.tokens[key];
    assert [] + [Issue(key, doc.expiresAt)] == [Issue(key, doc.expiresAt)];
  }

  lemma ReissueShape(cfg: Config, s: State, l: Ledger, a: Action) returns (doc: TokenStore.TokenDoc)
    requires a.ReissueToken? && Step(cfg, s, a).1.Issued?
    ensures var key := TokenStore.MakeKey(a.agentId, a.newToken);
            && Step(cfg, s, a).0.tokens == (s.tokens - {TokenStore.MakeKey(a.agentId, a.refreshToken)})[key := doc]
            && Record(cfg, s, l, a) == Extend(l, Trust.Lower(a.agentId), Issue(key, doc.expiresAt))
    ensures Accepts(s, a.agentId, a.refreshToken, a.t.validated)
  {
    doc := Step(cfg, s, a).0.tokens[TokenStore.MakeKey(a.agentId, a.newToken)];
  }

  lemma UnissuedShape(cfg: Config, s: State, l: Ledger, a: Action)
    requires (a.CreateAgent? || a.ReissueToken?) && !Step(cfg, s, a).1.Issued?
    ensures Record(cfg, s, l, a) == l
    ensures a.CreateAgent? ==> Step(cfg, s, a).0 == s
    ensures a.ReissueToken? ==> Step(cfg, s, a).0.tokens == TokenStore.GetStep(s.tokens, a.agentId, a.refreshToken, a.t.validated).0
  {
  }

  lemma LinkedCreate(cfg: Config, s: State, l: Ledger, a: Action, now: int)
    requires Linked(s.tokens, l, now) && Admissible(s, l, a) && Timed(a) && now <= Begin(a) && a.CreateAgent?
    ensures Linked(Step(cfg, s, a).0.tokens, Record(cfg, s, l, a), End(a))
  {
    IssuesExactly(cfg, s, a);
    if Issues(s, a) {
      var doc := CreateShape(cfg, s, l, a);
      LinkedFirst(s.tokens, l, now, a.agentId, a.token, doc, End(a));
    } else {
      UnissuedShape(cfg, s, l, a);
      LinkedSub(s.tokens, s.tokens, l, now, End(a));
    }
  }

  /** The presented token of a successful validation is the newest one of the agent. */
  lemma AcceptedIsNewest(s: State, l: Ledger, now: int, agentId: string, token: string, at: int)
    requires Linked(s.tokens, l, now) && ':' !in agentId && Trust.Lower(agentId) !in l.users && Accepts(s, agentId, token, at)
    ensures Chain(l, Trust.Lower(agentId)) != [] && Newest(l, Trust.Lower(agentId)).key == TokenStore.MakeKey(agentId, token)
  {
    OwnerOfKey(agentId, token);
    var key := TokenStore.MakeKey(agentId, token);
    assert Owned(l, key, s.tokens[key].expiresAt);
  }

  lemma LinkedGet(s: State, l: Ledger, now: int, owner: string, token: string, at: int, later: int)
    requires Linked(s.tokens, l, now) && now <= at <= later
    ensures Linked(TokenStore.GetStep(s.tokens, owner, token, at).0, l, later)
  {
    LinkedSub(s.tokens, TokenStore.GetStep(s.tokens, owner, token, at).0, l, now, later);
  }

  /** Spending the newest token of a chain and storing its successor. */
  lemma LinkedRotate(m: TokenStore.Tokens, l: Ledger, now: int, owner: string, spent: string, key: string,
                     doc: TokenStore.TokenDoc, later: int)
    requires Linked(m, l, now) && now <= later
    requires owner !in l.users && OwnerOf(key) == owner && Unissued(l, owner, key)
    requires Chain(l, owner) != [] && Newest(l, owner).key == spent
    ensures Linked((m - {spent})[key := doc], Extend(l, owner, Issue(key, doc.expiresAt)), later)
  {
    var kept := m - {spent};
    forall k | k in kept
      ensures Owned(l, k, kept[k].expiresAt) && OwnerOf(k) != owner
    {
      assert Owned(l, k, m[k].expiresAt);
    }
    forall other | other in l.chains && other != owner
      ensures Stored(kept, Newest(l, other), later)
    {
      assert Stored(m, Newest(l, other), now);
      var last := |l.chains[other]| - 1;
      assert OwnerOf(l.chains[other][last].key) == other;
      assert OwnerOf(l.chains[owner][|l.chains[owner]| - 1].key) == owner;
    }
    LinkedIssue(kept, l, owner, key, doc, later);
  }

  lemma LinkedReissue(cfg: Config, s: State, l: Ledger, a: Action, now: int)
    requires Linked(s.tokens, l, now) && Admissible(s, l, a) && Timed(a) && now <= Begin(a) && a.ReissueToken?
    ensures Linked(Step(cfg, s, a).0.tokens, Record(cfg, s, l, a), End(a))
  {
    IssuesExactly(cfg, s, a);
    if Issues(s, a) {
      var doc := ReissueShape(cfg, s, l, a);
      AcceptedIsNewest(s, l, now, a.agentId, a.refreshToken, a.t.validated);
      OwnerOfKey(a.agentId, a.newToken);
      var spent, key := TokenStore.MakeKey(a.agentId, a.refreshToken), TokenStore.MakeKey(a.agentId, a.newToken);
      LinkedRotate(s.tokens, l, now, Trust.Lower(a.agentId), spent, key, doc, End(a));
    } else {
      UnissuedShape(cfg, s, l, a);
      LinkedGet(s, l, now, a.agentId, a.refreshToken, a.t.validated, End(a));
    }
  }

  lemma LinkedStoreAuth(m: TokenStore.Tokens, l: Ledger, now: int, owner: string, key: string, doc: TokenStore.TokenDoc, later: int)
    requires Linked(m, l, now) && now <= later && OwnerOf(key) == owner && owner !in l.chains
    ensures Linked(m[key := doc], l.(users := l.users + {owner}), later)
  {
    var m', l' := m[key := doc], l.(users := l.users + {owner});
    forall k | k in m'
      ensures Owned(l', k, m'[k].expiresAt)
    {
      if k in m {
        assert Owned(l, k, m[k].expiresAt);
      }
    }
    forall other | other in l'.chains
      ensures Stored(m', Newest(l', other), later)
    {
      assert Stored(m, Newest(l, other), now);
      var last := |l.chains[other]| - 1;
      assert OwnerOf(l.chains[other][last].key) == other;
    }
  }

  /** One-time validation only ever removes the owner's own token, or an expired one. */
  lemma LinkedValidate(s: State, l: Ledger, now: int, user: string, token: string, at: int)
    requires Linked(s.tokens, l, now) && now <= at
    requires Accepts(s, user, token, at) ==> ':' !in user && Trust.Lower(user) !in l.chains
    ensures Linked(TokenStore.ValidateStep(s.tokens, user, token, at).0, l, at)
  {
    if Accepts(s, user, token, at) {
      OwnerOfKey(user, token);
      var key := TokenStore.MakeKey(user, token);
      assert Owned(l, key, s.tokens[key].expiresAt);
    }
    LinkedSub(s.tokens, TokenStore.ValidateStep(s.tokens, user, token, at).0, l, now, at);
  }

  lemma LinkedStep(cfg: Config, s: State, l: Ledger, a: Action, now: int)
    requires Linked(s.tokens, l, now) && Admissible(s, l, a) && Timed(a) && now <= Begin(a)
    ensures Linked(Step(cfg, s, a).0.tokens, Record(cfg, s, l, a), End(a))
  {
    match a
    case CreateAgent(_, _, _, _, _, _) => LinkedCreate(cfg, s, l, a, now);
    case ReissueToken(_, _, _, _, _, _) => LinkedReissue(cfg, s, l, a, now);
    case StoreAuth(token, user, _, at) =>
      OwnerOfKey(user, token);
      var key := TokenStore.MakeKey(user, token);
      LinkedStoreAuth(s.tokens, l, now, Trust.Lower(user), key, Step(cfg, s, a).0.tokens[key], at);
    case ValidateAuth(user, token, at) => LinkedValidate(s, l, now, user, token, at);
    case Cleanup(at) => LinkedSub(s.tokens, TokenStore.CleanupStep(s.tokens, at), l, now, at);
    case Decide(_, _, at) => LinkedSub(s.tokens, s.tokens, l, now, at);
    case Forget(_, at) => LinkedSub(s.tokens, s.tokens, l, now, at);
  }

  /** State and ledger after a run. */
  function RunAll(cfg: Config, s: State, l: Ledger, actions: seq<Action>): (State, Ledger)
    decreases |actions|
  {
    if actions == [] then (s, l)
    else RunAll(cfg, Step(cfg, s, actions[0]).0, Record(cfg, s, l, actions[0]), actions[1..])
  }

  predicate AdmissibleRun(cfg: Config, s: State, l: Ledger, actions: seq<Action>, now: int)
    decreases |actions|
  {
    actions != [] ==>
      && Timed(actions[0]) && now <= Begin(actions[0]) && Admissible(s, l, actions[0])
      && AdmissibleRun(cfg, Step(cfg, s, actions[0]).0, Record(cfg, s, l, actions[0]), actions[1..], End(actions[0]))
  }

  function EndOfRun(actions: seq<Action>, now: int): int {
    if actions == [] then now else End(actions[|actions| - 1])
  }

  lemma {:induction false} LinkedRun(cfg: Config, s: State, l: Ledger, actions: seq<Action>, now: int)
    requires Linked(s.tokens, l, now) && AdmissibleRun(cfg, s, l, actions, now)
    ensures Linked(RunAll(cfg, s, l, actions).0.tokens, RunAll(cfg, s, l, actions).1, EndOfRun(actions, now))
    decreases |actions|
  {
    if actions != [] {
      var a := actions[0];
      LinkedStep(cfg, s, l, a, now);
      LinkedRun(cfg, Step(cfg, s, a).0, Record(cfg, s, l, a), actions[1..], End(a));
      assert actions[1..] == [] ==> actions[|actions| - 1] == a;
    }
  }

  lemma {:induction false} OwnerHasNoColon(key: string)
    ensures ':' !in OwnerOf(key)
  {
    if key != "" && key[0] != ':' {
      OwnerHasNoColon(key[1..]);
    }
  }

  /** Only agent ids without a colon ever have a chain. */
  lemma ChainOwner(l: Ledger, agentId: string)
    requires LedgerOk(l) && Chain(l, Trust.Lower(agentId)) != []
    ensures ':' !in agentId
  {
    var owner := Trust.Lower(agentId);
    assert OwnerOf(l.chains[owner][0].key) == owner;
    OwnerHasNoColon(l.chains[owner][0].key);
    Trust.LowerKeepsColon(agentId);
  }

  /** After any run from nothing, a token presented for an issued agent is accepted exactly if it
      has the key of the last one issued to it, which has not expired. */
  lemma LastTokenOnly(cfg: Config, actions: seq<Action>, start: int, now: int, agentId: string, token: string)
    requires AdmissibleRun(cfg, EMPTY_STATE, EMPTY_LEDGER, actions, start) && EndOfRun(actions, start) <= now
    requires Chain(RunAll(cfg, EMPTY_STATE, EMPTY_LEDGER, actions).1, Trust.Lower(agentId)) != []
    ensures var (s, l) := RunAll(cfg, EMPTY_STATE, EMPTY_LEDGER, actions);
            var newest := Newest(l, Trust.Lower(agentId));
            Accepts(s, agentId, token, now) <==> TokenStore.MakeKey(agentId, token) == newest.key && now <= newest.expiresAt
  {
    LinkedRun(cfg, EMPTY_STATE, EMPTY_LEDGER, actions, start);
    var (s, l) := RunAll(cfg, EMPTY_STATE, EMPTY_LEDGER, actions);
    var owner, key := Trust.Lower(agentId), TokenStore.MakeKey(agentId, token);
    ChainOwner(l, agentId);
    OwnerOfKey(agentId, token);
    assert Stored(s.tokens, Newest(l, owner), EndOfRun(actions, start));
    if key in s.tokens {
      assert Owned(l, key, s.tokens[key].expiresAt);
    }
  }

  /** In particular no token issued earlier in the chain is accepted. */
  lemma EarlierTokensRefused(cfg: Config, actions: seq<Action>, start: int, now: int, agentId: string, token: string, i: nat)
    requires AdmissibleRun(cfg, EMPTY_STATE, EMPTY_LEDGER, actions, start) && EndOfRun(actions, start) <= now
    requires var chain := Chain(RunAll(cfg, EMPTY_STATE, EMPTY_LEDGER, actions).1, Trust.Lower(agentId));
             i + 1 < |chain| && chain[i].key == TokenStore.MakeKey(agentId, token)
    ensures !Accepts(RunAll(cfg, EMPTY_STATE, EMPTY_LEDGER, actions).0, agentId, token, now)
  {
    LinkedRun(cfg, EMPTY_STATE, EMPTY_LEDGER, actions, start);
    LastTokenOnly(cfg, actions, start, now, agentId, token);
    var l := RunAll(cfg, EMPTY_STATE, EMPTY_LEDGER, actions).1;
    var chain := l.chains[Trust.Lower(agentId)];
    assert chain[i].key != chain[|chain| - 1].key;
  }

  /** A reissue that fails, for whatever reason, changes no answer about any token. */
  lemma FailedReissueKeepsTokens(cfg: Config, s: State, a: Action, key: string, later: int)
    requires a.ReissueToken? && !Issues(s, a) && a.t.validated <= later
    ensures TokenStore.Live(Step(cfg, s, a).0.tokens, key, later) == TokenStore.Live(s.tokens, key, later)
  {
    IssuesExactly(cfg, s, a);
  }

  /** The credentials handed out work, from then on until the token expires, for the user they
      were issued for. */
  lemma IssuedCredentialsWork(cfg: Config, s: State, a: Action, now: int)
    requires Issues(s, a)
    ensures var (s', outcome) := Step(cfg, s, a);
            && outcome.Issued?
            && var c := outcome.credentials;
               (Accepts(s', c.agentId, c.refreshToken, now) <==> now <= End(a) + cfg.refreshTokenExpiryMs)
               && TokenStore.MakeKey(c.agentId, c.refreshToken) in s'.tokens
               && s'.tokens[TokenStore.MakeKey(c.agentId, c.refreshToken)].userIdentity == IssuedTo(s, a)
               && c.decryptBy == s'.tokens[TokenStore.MakeKey(c.agentId, c.refreshToken)].decryptBy
                              == (if a.CreateAgent? then a.decryptBy else a.r.decryptBy)
  {
    IssuesExactly(cfg, s, a);
  }

  /** The user an agent is created for, or whose token is exchanged. */
  function IssuedTo(s: State, a: Action): string
    requires Issues(s, a)
  {
    if a.CreateAgent? then a.o.userIdentity else s.tokens[TokenStore.MakeKey(a.agentId, a.refreshToken)].userIdentity
  }

  /** A stored auth token validates for its user until it expires, and then never again. */
  lemma AuthTokenWorksOnce(cfg: Config, s: State, a: Action, at: int, again: int)
    requires a.StoreAuth?
    ensures var (m, found) := TokenStore.ValidateStep(Step(cfg, s, a).0.tokens, a.user, a.token, at);
            && (found.Some? <==> at <= a.at + cfg.authTokenExpiryMs)
            && (found.Some? ==> found.value.userIdentity == a.user && found.value.token == a.token)
            && TokenStore.ValidateStep(m, a.user, a.token, again).1.None?
  {
  }

  // ---------- keys and their history ----------

  /** The stored fingerprint is that of the stored key as the server will rebuild it. */
  predicate KeyAgrees(r: Trust.TrustRecord) {
    FingerprintOf(Pem.Base64ToPem(r.publicKeyBase64)) == Some(r.publicKeyFingerprint)
  }

  predicate HistoryOrdered(history: seq<Trust.KeyEntry>, decidedAt: int) {
    && (forall i | 0 <= i < |history| :: history[i].firstSeen <= history[i].lastSeen)
    && (forall i | 0 <= i < |history| - 1 :: history[i].lastSeen <= history[i + 1].firstSeen)
    && (history != [] ==> history[|history| - 1].lastSeen <= decidedAt)
  }

  /** No two neighbours in the history followed by the current key are the same key. */
  predicate HistoryChanges(history: seq<Trust.KeyEntry>, current: Text) {
    && (forall i | 0 <= i < |history| - 1 :: history[i].fingerprint != history[i + 1].fingerprint)
    && (history != [] ==> history[|history| - 1].fingerprint != current)
  }

  predicate HistoryOk(r: Trust.TrustRecord, now: int) {
    HistoryOrdered(r.keyHistory, r.decidedAt) && HistoryChanges(r.keyHistory, r.publicKeyFingerprint) && r.decidedAt <= now
  }

  /** A readable key other than the record's is named. */
  predicate NamesNewKey(r: Trust.TrustRecord, o: ReissueOptions) {
    && o.publicKey.Some? && o.publicKey.value != "" && Pem.KeyOf(o.publicKey.value).Some?
    && Fingerprint(Pem.KeyOf(o.publicKey.value).value) != r.publicKeyFingerprint
  }

  /** A rotation that takes effect. */
  predicate IssuedRotation(s: State, a: Action, id: string) {
    AboutRecord(s, a, id) && a.updateOk && NamesNewKey(s.trust[id], a.r)
  }

  /** A rotation that is pushed onto the history before its update fails. */
  predicate FailedRotation(s: State, a: Action, id: string) {
    AboutRecord(s, a, id) && !a.updateOk && NamesNewKey(s.trust[id], a.r)
  }

  predicate Forgets(a: Action, id: string) {
    a.Forget? && a.id == id
  }

  // ---------- what one action does to one record ----------

  lemma ReissueOfRecord(cfg: Config, s: State, a: Action, id: string)
    requires AboutRecord(s, a, id)
    ensures var s' := Step(cfg, s, a).0;
            && id in s'.trust
            && s'.trust[id] == if !ReadsKey(a.r) then s.trust[id]
                               else if a.updateOk then Patched(cfg, s.trust[id], a.r, a.t)
                               else Pushed(s.trust[id], a.r, a.t.seen)
  {
  }

  /** Any other action leaves everything of a record but its status, or forgets it. */
  lemma OtherActions(cfg: Config, s: State, a: Action, id: string)
    requires id in s.trust && !AboutRecord(s, a, id)
    ensures var s' := Step(cfg, s, a).0;
            && (id in s'.trust <==> !Forgets(a, id))
            && (id in s'.trust ==> s'.trust[id] == s.trust[id].(status := s'.trust[id].status))
  {
    if a.ReissueToken? && Accepts(s, a.agentId, a.refreshToken, a.t.validated) {
      assert ReissuedId(s, a) != id;
    }
  }

  lemma CreatedRecord(cfg: Config, s: State, a: Action, id: string)
    requires id !in s.trust && id in Step(cfg, s, a).0.trust
    ensures var r := Step(cfg, s, a).0.trust[id];
            a.CreateAgent? && KeyAgrees(r) && r.keyHistory == [] && r.decidedAt == a.decided
  {
    if a.CreateAgent? {
      StoredKeyAgrees(a.o.publicKey);
    }
  }

  lemma StoredKeyAgrees(pem: string)
    requires FingerprintOf(pem).Some?
    ensures FingerprintOf(Pem.Base64ToPem(Pem.PemToBase64(pem))) == FingerprintOf(pem)
  {
    Pem.SameKeyAfterStorage(pem);
  }

  // ---------- the stored key agrees with its fingerprint, always ----------

  lemma RecordKeyAgrees(cfg: Config, s: State, a: Action, id: string)
    requires id in s.trust ==> KeyAgrees(s.trust[id])
    requires id in Step(cfg, s, a).0.trust
    ensures KeyAgrees(Step(cfg, s, a).0.trust[id])
  {
    if id !in s.trust {
      CreatedRecord(cfg, s, a, id);
    } else if AboutRecord(s, a, id) {
      ReissueOfRecord(cfg, s, a, id);
      if Rotates(s.trust[id], a.r) {
        StoredKeyAgrees(NewKey(a.r).value);
      }
    } else {
      OtherActions(cfg, s, a, id);
    }
  }

  lemma {:induction false} RunKeyAgrees(cfg: Config, s: State, actions: seq<Action>, id: string)
    requires id in s.trust ==> KeyAgrees(s.trust[id])
    ensures id in RunState(cfg, s, actions).trust ==> KeyAgrees(RunState(cfg, s, actions).trust[id])
    decreases |actions|
  {
    if actions != [] {
      var s' := Step(cfg, s, actions[0]).0;
      if id in s'.trust {
        RecordKeyAgrees(cfg, s, actions[0], id);
      }
      RunKeyAgrees(cfg, s', actions[1..], id);
    }
  }

  /** In every reachable state each stored fingerprint is that of the stored key as the server
      rebuilds it, with any clock and whatever updates failed. */
  lemma ReachableKeysAgree(cfg: Config, actions: seq<Action>, id: string)
    requires id in RunState(cfg, EMPTY_STATE, actions).trust
    ensures KeyAgrees(RunState(cfg, EMPTY_STATE, actions).trust[id])
  {
    RunKeyAgrees(cfg, EMPTY_STATE, actions, id);
  }

  // ---------- the history over runs ----------

  /** A history changes by the one entry a rotation pushes, issued or failed, and not otherwise. */
  lemma HistoryStep(cfg: Config, s: State, a: Action, id: string)
    requires id in s.trust && !Forgets(a, id)
    ensures id in Step(cfg, s, a).0.trust
    ensures var r, r' := s.trust[id], Step(cfg, s, a).0.trust[id];
            r'.keyHistory == if IssuedRotation(s, a, id) || FailedRotation(s, a, id)
                             then r.keyHistory + [Trust.KeyEntry(r.publicKeyFingerprint, r.decidedAt, a.t.seen)]
                             else r.keyHistory
  {
    if AboutRecord(s, a, id) {
      ReissueOfRecord(cfg, s, a, id);
    } else {
      OtherActions(cfg, s, a, id);
    }
  }

  predicate NeverForgotten(actions: seq<Action>, id: string) {
    forall i | 0 <= i < |actions| :: !Forgets(actions[i], id)
  }

  /** Over every run in which it is not forgotten, a record's history only grows at its end,
      failed updates included. */
  lemma {:induction false} HistoryOnlyGrows(cfg: Config, s: State, actions: seq<Action>, id: string)
    requires id in s.trust && NeverForgotten(actions, id)
    ensures id in RunState(cfg, s, actions).trust
    ensures s.trust[id].keyHistory <= RunState(cfg, s, actions).trust[id].keyHistory
    decreases |actions|
  {
    if actions != [] {
      HistoryStep(cfg, s, actions[0], id);
      HistoryOnlyGrows(cfg, Step(cfg, s, actions[0]).0, actions[1..], id);
    }
  }

  lemma PushKeepsHistory(history: seq<Trust.KeyEntry>, current: Text, next: Text, decidedAt: int, seen: int, decided: int)
    requires HistoryOrdered(history, decidedAt) && HistoryChanges(history, current)
    requires current != next && decidedAt <= seen <= decided
    ensures HistoryOrdered(history + [Trust.KeyEntry(current, decidedAt, seen)], decided)
    ensures HistoryChanges(history + [Trust.KeyEntry(current, decidedAt, seen)], next)
  {
  }

  lemma PatchedOk(cfg: Config, r: Trust.TrustRecord, o: ReissueOptions, t: Clock)
    requires HistoryOk(r, t.seen) && t.seen <= t.decided <= t.stored
    ensures HistoryOk(Patched(cfg, r, o, t), t.stored)
  {
    if Rotates(r, o) {
      var next := FingerprintOf(NewKey(o).value).value;
      PushKeepsHistory(r.keyHistory, r.publicKeyFingerprint, next, r.decidedAt, t.seen, t.decided);
    }
  }

  /** An entry for the key that is still, or already was, the neighbour's spoils a history for good. */
  lemma PushSpoils(history: seq<Trust.KeyEntry>, current: Text, seen: int, decidedAt: int, next: Text)
    requires next == current || !HistoryChanges(history, current)
    ensures !HistoryChanges(history + [Trust.KeyEntry(current, decidedAt, seen)], next)
  {
    var pushed := history + [Trust.KeyEntry(current, decidedAt, seen)];
    assert pushed[|history|].fingerprint == current;
    if next != current {
      if history != [] && history[|history| - 1].fingerprint == current {
        assert pushed[|history| - 1] == history[|history| - 1];
      } else {
        var i :| 0 <= i < |history| - 1 && history[i].fingerprint == history[i + 1].fingerprint;
        assert pushed[i] == history[i] && pushed[i + 1] == history[i + 1];
      }
    }
  }

  /** An action keeps a record's history in order and free of equal neighbours exactly unless it is
      a rotation of that record whose update fails. */
  lemma HistoryStepExactly(cfg: Config, s: State, a: Action, now: int, id: string)
    requires id in s.trust ==> HistoryOk(s.trust[id], now)
    requires Timed(a) && now <= Begin(a) && id in Step(cfg, s, a).0.trust
    ensures HistoryOk(Step(cfg, s, a).0.trust[id], End(a)) <==> !FailedRotation(s, a, id)
  {
    if id !in s.trust {
      CreatedRecord(cfg, s, a, id);
    } else if AboutRecord(s, a, id) {
      var r := s.trust[id];
      ReissueOfRecord(cfg, s, a, id);
      PatchedOk(cfg, r, a.r, a.t);
      if FailedRotation(s, a, id) {
        PushSpoils(r.keyHistory, r.publicKeyFingerprint, a.t.seen, r.decidedAt, r.publicKeyFingerprint);
      }
    } else {
      OtherActions(cfg, s, a, id);
    }
  }

  /** Once spoilt, a history stays so until its record is forgotten. */
  lemma SpoiltStays(cfg: Config, s: State, a: Action, id: string)
    requires id in s.trust && !HistoryChanges(s.trust[id].keyHistory, s.trust[id].publicKeyFingerprint) && !Forgets(a, id)
    ensures id in Step(cfg, s, a).0.trust
    ensures var r := Step(cfg, s, a).0.trust[id]; !HistoryChanges(r.keyHistory, r.publicKeyFingerprint)
  {
    var r := s.trust[id];
    if AboutRecord(s, a, id) {
      ReissueOfRecord(cfg, s, a, id);
      PushSpoils(r.keyHistory, r.publicKeyFingerprint, a.t.seen, r.decidedAt, Step(cfg, s, a).0.trust[id].publicKeyFingerprint);
    } else {
      OtherActions(cfg, s, a, id);
    }
  }

  predicate TimedRun(actions: seq<Action>, now: int) {
    actions != [] ==> Timed(actions[0]) && now <= Begin(actions[0]) && TimedRun(actions[1..], End(actions[0]))
  }

  /** No rotation of this record failed since it was last created; `clean` tells of the time before. */
  predicate CleanRun(cfg: Config, s: State, actions: seq<Action>, id: string, clean: bool)
    decreases |actions|
  {
    if actions == [] then clean
    else CleanRun(cfg, Step(cfg, s, actions[0]).0, actions[1..], id,
                  Forgets(actions[0], id) || (clean && !FailedRotation(s, actions[0], id)))
  }

  ghost predicate HistoryIs(s: State, id: string, now: int, clean: bool) {
    if id !in s.trust then clean
    else if clean then HistoryOk(s.trust[id], now)
    else !HistoryChanges(s.trust[id].keyHistory, s.trust[id].publicKeyFingerprint)
  }

  lemma HistoryIsStep(cfg: Config, s: State, a: Action, now: int, id: string, clean: bool)
    requires HistoryIs(s, id, now, clean) && Timed(a) && now <= Begin(a)
    ensures HistoryIs(Step(cfg, s, a).0, id, End(a), Forgets(a, id) || (clean && !FailedRotation(s, a, id)))
  {
    if id in s.trust && Forgets(a, id) {
      OtherActions(cfg, s, a, id);
    } else if id in s.trust && !clean {
      SpoiltStays(cfg, s, a, id);
    } else if id in Step(cfg, s, a).0.trust {
      HistoryStepExactly(cfg, s, a, now, id);
      if FailedRotation(s, a, id) {
        ReissueOfRecord(cfg, s, a, id);
        var r := s.trust[id];
        PushSpoils(r.keyHistory, r.publicKeyFingerprint, a.t.seen, r.decidedAt, r.publicKeyFingerprint);
      }
    } else if id in s.trust {
      HistoryStep(cfg, s, a, id);
    }
  }

  lemma {:induction false} HistoryIsRun(cfg: Config, s: State, actions: seq<Action>, now: int, id: string, clean: bool)
    requires HistoryIs(s, id, now, clean) && TimedRun(actions, now)
    ensures HistoryIs(RunState(cfg, s, actions), id, EndOfRun(actions, now), CleanRun(cfg, s, actions, id, clean))
    decreases |actions|
  {
    if actions != [] {
      var a := actions[0];
      HistoryIsStep(cfg, s, a, now, id, clean);
      HistoryIsRun(cfg, Step(cfg, s, a).0, actions[1..], End(a), id, Forgets(a, id) || (clean && !FailedRotation(s, a, id)));
      assert actions[1..] == [] ==> actions[|actions| - 1] == a;
    }
  }

  /** After every run from nothing a record's history has its entries in order of time and no two
      equal neighbours exactly if no rotation of that record failed since it was created. */
  lemma ReachableHistoryExactly(cfg: Config, actions: seq<Action>, start: int, id: string)
    requires TimedRun(actions, start) && id in RunState(cfg, EMPTY_STATE, actions).trust
    ensures HistoryOk(RunState(cfg, EMPTY_STATE, actions).trust[id], EndOfRun(actions, start))
       <==> CleanRun(cfg, EMPTY_STATE, actions, id, true)
  {
    HistoryIsRun(cfg, EMPTY_STATE, actions, start, id, true);
  }

  lemma BareKey(base64: string)
    requires Pem.IsBase64(base64) && base64 != ""
    ensures FingerprintOf(Pem.Base64ToPem(base64)) == Some(Fingerprint(base64))
  {
    Pem.ChunksOfBase64(base64);
    Pem.PlainPemKey(Pem.Chunks(base64));
  }

  /** It does happen: an agent is created with one key, the update that is to bring another fails. */
  lemma FailedRotationHappens(cfg: Config, agentId: string, user: string, token: string, newToken: string)
    requires cfg.refreshTokenExpiryMs >= 0
    ensures var created := CreateAgent(CreateOptions(user, Pem.Base64ToPem("A"), None), agentId, token, "", 0, 0);
            var reissue := ReissueToken(agentId, token, ReissueOptions(Some(Pem.Base64ToPem("B")), None, ""), newToken, false,
                                        Clock(0, 0, 0, 0, 0));
            var id := Trust.ComputeTrustId(agentId, user);
            var s := RunState(cfg, EMPTY_STATE, [created]);
            && FailedRotation(s, reissue, id)
            && id in Step(cfg, s, reissue).0.trust && !HistoryOk(Step(cfg, s, reissue).0.trust[id], 0)
  {
    BareKey("A");
    BareKey("B");
    assert "A"[0] != "B"[0];
    var created := CreateAgent(CreateOptions(user, Pem.Base64ToPem("A"), None), agentId, token, "", 0, 0);
    var reissue := ReissueToken(agentId, token, ReissueOptions(Some(Pem.Base64ToPem("B")), None, ""), newToken, false,
                                Clock(0, 0, 0, 0, 0));
    assert [created][1..] == [];
    var s := Step(cfg, EMPTY_STATE, created).0;
    assert RunState(cfg, EMPTY_STATE, [created]) == s;
    HistoryStepExactly(cfg, EMPTY_STATE, created, 0, Trust.ComputeTrustId(agentId, user));
    HistoryStepExactly(cfg, s, reissue, 0, Trust.ComputeTrustId(agentId, user));
  }

  // ---------- agreement with the server ----------

  /** An artifact of this agent to this user, other than the two authentication actions. */
  predicate OrdinaryArtifact(fields: Fields, agentId: string, user: string) {
    && Verification.ValidAgent(fields)
    && PlainAt(fields, "agentId") == agentId && PlainAt(fields, "to") == user
    && PlainAt(fields, "action") != "auth.request" && PlainAt(fields, "action") != "auth.refresh"
  }

  /** For a record whose key agrees the server accepts an ordinary artifact exactly when it is
      signed with the key whose fingerprint the record stores. */
  lemma ServerUsesStoredKey(trust: Trust.TrustMap, fields: Fields, agentId: string, user: string, key: string)
    requires OrdinaryArtifact(fields, agentId, user) && Trust.ComputeTrustId(agentId, user) in trust
    requires KeyAgrees(trust[Trust.ComputeTrustId(agentId, user)])
    requires trust[Trust.ComputeTrustId(agentId, user)].publicKeyFingerprint == Fingerprint(key)
    ensures Verification.VerifyAgentSignature(trust, fields) == Some(Accepted)
       <==> Verification.SignatureOf(fields)
              == Signature(SignatureBy(key, Stringify(Obj(Remove(fields, "signature")))), Fingerprint(key))
  {
  }

  /** Neither forgotten nor given another key; a present record cannot be created anew. */
  predicate KeepsKey(s: State, a: Action, id: string) {
    !Forgets(a, id) && !IssuedRotation(s, a, id)
  }

  lemma KeyKeptExactly(cfg: Config, s: State, a: Action, id: string)
    requires id in s.trust
    ensures KeepsKey(s, a, id) <==>
              id in Step(cfg, s, a).0.trust && Step(cfg, s, a).0.trust[id].publicKeyFingerprint == s.trust[id].publicKeyFingerprint
  {
    if AboutRecord(s, a, id) {
      ReissueOfRecord(cfg, s, a, id);
    } else {
      OtherActions(cfg, s, a, id);
    }
  }

  predicate KeepsKeyRun(cfg: Config, s: State, actions: seq<Action>, id: string)
    decreases |actions|
  {
    actions != [] ==> KeepsKey(s, actions[0], id) && KeepsKeyRun(cfg, Step(cfg, s, actions[0]).0, actions[1..], id)
  }

  lemma {:induction false} KeyKeptOverRun(cfg: Config, s: State, actions: seq<Action>, id: string)
    requires id in s.trust && KeepsKeyRun(cfg, s, actions, id)
    ensures id in RunState(cfg, s, actions).trust
    ensures RunState(cfg, s, actions).trust[id].publicKeyFingerprint == s.trust[id].publicKeyFingerprint
    decreases |actions|
  {
    if actions != [] {
      KeyKeptExactly(cfg, s, actions[0], id);
      KeyKeptOverRun(cfg, Step(cfg, s, actions[0]).0, actions[1..], id);
    }
  }

  lemma ReissuedKey(cfg: Config, s: State, a: Action)
    requires a.ReissueToken? && Issues(s, a) && a.r.publicKey.Some? && a.r.publicKey.value != ""
    ensures var id, s' := ReissuedId(s, a), Step(cfg, s, a).0;
            id in s'.trust && FingerprintOf(a.r.publicKey.value) == Some(s'.trust[id].publicKeyFingerprint)
  {
    ReissueOfRecord(cfg, s, a, ReissuedId(s, a));
  }

  /** From a reissue that names a key on, for as long as the record is neither forgotten nor given
      another key: ordinary artifacts are accepted exactly if they are signed with that key. */
  lemma RotationAgreesWithServer(cfg: Config, s: State, a: Action, later: seq<Action>, fields: Fields, signer: PemKeys)
    requires a.ReissueToken? && Issues(s, a) && a.r.publicKey.Some? && a.r.publicKey.value != ""
    requires KeyAgrees(s.trust[ReissuedId(s, a)])
    requires KeepsKeyRun(cfg, Step(cfg, s, a).0, later, ReissuedId(s, a))
    requires OrdinaryArtifact(fields, a.agentId, s.tokens[TokenStore.MakeKey(a.agentId, a.refreshToken)].userIdentity)
    requires MatchingPair(signer) && SignPayload(Obj(Remove(fields, "signature")), signer) == Some(Verification.SignatureOf(fields))
    ensures Verification.VerifyAgentSignature(RunState(cfg, Step(cfg, s, a).0, later).trust, fields) == Some(Accepted)
       <==> Pem.KeyOf(a.r.publicKey.value) == Some(signer.privateKey)
  {
    var id, s' := ReissuedId(s, a), Step(cfg, s, a).0;
    ReissuedKey(cfg, s, a);
    RecordKeyAgrees(cfg, s, a, id);
    RunKeyAgrees(cfg, s', later, id);
    KeyKeptOverRun(cfg, s', later, id);
    ServerUsesStoredKey(RunState(cfg, s', later).trust, fields, a.agentId,
                        s.tokens[TokenStore.MakeKey(a.agentId, a.refreshToken)].userIdentity, Pem.KeyOf(a.r.publicKey.value).value);
  }

  /** So it is after every run from nothing, with any clock and whatever updates failed. */
  lemma RotationAgreesAfterRun(cfg: Config, before: seq<Action>, a: Action, later: seq<Action>, fields: Fields, signer: PemKeys)
    requires var s := RunState(cfg, EMPTY_STATE, before);
             && a.ReissueToken? && Issues(s, a) && a.r.publicKey.Some? && a.r.publicKey.value != ""
             && KeepsKeyRun(cfg, Step(cfg, s, a).0, later, ReissuedId(s, a))
             && OrdinaryArtifact(fields, a.agentId, s.tokens[TokenStore.MakeKey(a.agentId, a.refreshToken)].userIdentity)
    requires MatchingPair(signer) && SignPayload(Obj(Remove(fields, "signature")), signer) == Some(Verification.SignatureOf(fields))
    ensures var s := RunState(cfg, EMPTY_STATE, before);
            (Verification.VerifyAgentSignature(RunState(cfg, Step(cfg, s, a).0, later).trust, fields) == Some(Accepted)
             <==> Pem.KeyOf(a.r.publicKey.value) == Some(signer.privateKey))
  {
    var s := RunState(cfg, EMPTY_STATE, before);
    ReachableKeysAgree(cfg, before, ReissuedId(s, a));
    RotationAgreesWithServer(cfg, s, a, later, fields, signer);
  }

  /** An agent that was created is known by the key it was created with, under the same provisos. */
  lemma CreationAgreesWithServer(cfg: Config, s: State, a: Action, later: seq<Action>, fields: Fields, signer: PemKeys)
    requires a.CreateAgent? && Issues(s, a)
    requires KeepsKeyRun(cfg, Step(cfg, s, a).0, later, Trust.ComputeTrustId(a.agentId, a.o.userIdentity))
    requires OrdinaryArtifact(fields, a.agentId, a.o.userIdentity)
    requires MatchingPair(signer) && SignPayload(Obj(Remove(fields, "signature")), signer) == Some(Verification.SignatureOf(fields))
    ensures Verification.VerifyAgentSignature(RunState(cfg, Step(cfg, s, a).0, later).trust, fields) == Some(Accepted)
       <==> Pem.KeyOf(a.o.publicKey) == Some(signer.privateKey)
  {
    var id, s' := Trust.ComputeTrustId(a.agentId, a.o.userIdentity), Step(cfg, s, a).0;
    assert FingerprintOf(a.o.publicKey) == Some(s'.trust[id].publicKeyFingerprint);
    RecordKeyAgrees(cfg, s, a, id);
    RunKeyAgrees(cfg, s', later, id);
    KeyKeptOverRun(cfg, s', later, id);
    ServerUsesStoredKey(RunState(cfg, s', later).trust, fields, a.agentId, a.o.userIdentity, Pem.KeyOf(a.o.publicKey).value);
  }

  // ---------- how long the server trusts an agent ----------

  /** The record a token is issued under. */
  function IssuedId(s: State, a: Action): string
    requires Issues(s, a)
  {
    if a.CreateAgent? then Trust.ComputeTrustId(a.agentId, a.o.userIdentity) else ReissuedId(s, a)
  }

  lemma IssuedTerms(cfg: Config, s: State, a: Action)
    requires Issues(s, a)
    ensures var (s', outcome) := Step(cfg, s, a);
            && outcome.Issued? && IssuedId(s, a) in s'.trust
            && s'.trust[IssuedId(s, a)].status.Accepted?
            && s'.trust[IssuedId(s, a)].decidedAt == (if a.CreateAgent? then a.decided else a.t.decided)
            && s'.trust[IssuedId(s, a)].expiresAt == Trust.At(outcome.credentials.expiresAt)
            && (a.CreateAgent? ==>
                  s'.trust[IssuedId(s, a)].senderId == a.agentId && s'.trust[IssuedId(s, a)].receiverId == a.o.userIdentity)
  {
    IssuesExactly(cfg, s, a);
  }

  /** No decision on the record, no successful reissue and no forgetting. */
  predicate KeepsTerms(s: State, a: Action, id: string) {
    && !Forgets(a, id) && !(a.Decide? && a.id == id)
    && !(AboutRecord(s, a, id) && a.updateOk && ReadsKey(a.r))
  }

  lemma TermsKept(cfg: Config, s: State, a: Action, id: string)
    requires id in s.trust && KeepsTerms(s, a, id)
    ensures id in Step(cfg, s, a).0.trust
    ensures var r, r' := s.trust[id], Step(cfg, s, a).0.trust[id]; r'.status == r.status && r'.expiresAt == r.expiresAt
  {
    if AboutRecord(s, a, id) {
      ReissueOfRecord(cfg, s, a, id);
    } else {
      OtherActions(cfg, s, a, id);
      StatusKept(cfg, s, a, id);
    }
  }

  lemma StatusKept(cfg: Config, s: State, a: Action, id: string)
    requires id in s.trust && !AboutRecord(s, a, id) && !Forgets(a, id) && !(a.Decide? && a.id == id)
    ensures id in Step(cfg, s, a).0.trust && Step(cfg, s, a).0.trust[id].status == s.trust[id].status
  {
    if a.ReissueToken? && Accepts(s, a.agentId, a.refreshToken, a.t.validated) {
      assert ReissuedId(s, a) != id;
    }
  }

  predicate KeepsTermsRun(cfg: Config, s: State, actions: seq<Action>, id: string)
    decreases |actions|
  {
    actions != [] ==> KeepsTerms(s, actions[0], id) && KeepsTermsRun(cfg, Step(cfg, s, actions[0]).0, actions[1..], id)
  }

  lemma {:induction false} TermsKeptOverRun(cfg: Config, s: State, actions: seq<Action>, id: string)
    requires id in s.trust && KeepsTermsRun(cfg, s, actions, id)
    ensures id in RunState(cfg, s, actions).trust
    ensures var r, r' := s.trust[id], RunState(cfg, s, actions).trust[id]; r'.status == r.status && r'.expiresAt == r.expiresAt
    decreases |actions|
  {
    if actions != [] {
      TermsKept(cfg, s, actions[0], id);
      TermsKeptOverRun(cfg, Step(cfg, s, actions[0]).0, actions[1..], id);
    }
  }

  /** When the credentials say they expire. */
  function AgreedExpiry(cfg: Config, a: Action): int
    requires a.CreateAgent? || a.ReissueToken?
  {
    match a
    case CreateAgent(o, _, _, _, decided, _) =>
      decided + if o.trustExpiryMs.Some? && o.trustExpiryMs.value != 0 then o.trustExpiryMs.value else cfg.refreshTokenExpiryMs
    case ReissueToken(_, _, r, _, _, t) =>
      t.extended + if r.trustExpiryMs.Some? then r.trustExpiryMs.value else cfg.refreshTokenExpiryMs
  }

  /** From a creation or a reissue on, for as long as nobody decides otherwise: the server trusts
      the agent exactly until the expiry it was told, which is the one asked for. */
  lemma TrustedUntilExpiry(cfg: Config, s: State, a: Action, later: seq<Action>, dns: map<(string, string), string>,
                           fields: Fields, respondNow: bool, now: int)
    requires Issues(s, a) && KeepsTermsRun(cfg, Step(cfg, s, a).0, later, IssuedId(s, a))
    requires OrdinaryArtifact(fields, a.agentId, IssuedTo(s, a))
    ensures Step(cfg, s, a).1.Issued? && Step(cfg, s, a).1.credentials.expiresAt == AgreedExpiry(cfg, a)
    ensures var w := Verification.World(dns, RunState(cfg, Step(cfg, s, a).0, later).trust, now);
            (Verification.VerifyTrust(w, Verification.Agent(fields, respondNow)) <==> now <= Step(cfg, s, a).1.credentials.expiresAt)
  {
    IssuedTerms(cfg, s, a);
    TermsKeptOverRun(cfg, Step(cfg, s, a).0, later, IssuedId(s, a));
    var w := Verification.World(dns, RunState(cfg, Step(cfg, s, a).0, later).trust, now);
    Verification.TrustedExactly(w, Verification.Agent(fields, respondNow));
  }

  // ---------- the class ----------

  class BtpsAuthentication {
    const cfg: Config
    const tokenStore: TokenStore.InMemoryTokenStore
    var trust: Trust.TrustMap

    ghost function View(): State
      reads this, tokenStore
    {
      State(trust, tokenStore.tokens)
    }

    constructor (cfg: Config, tokenStore: TokenStore.InMemoryTokenStore)
      ensures this.cfg == cfg && this.tokenStore == tokenStore && trust == map[]
    {
      this.cfg := cfg;
      this.tokenStore := tokenStore;
      trust := map[];
    }

    method StoreAuthToken(token: string, user: string, decryptBy: string, now: int)
      modifies tokenStore
      ensures View() == Step(cfg, old(View()), StoreAuth(token, user, decryptBy, now)).0
    {
      tokenStore.Store(token, None, user, cfg.authTokenExpiryMs, decryptBy, now);
    }

    method ValidateAuthToken(user: string, token: string, now: int) returns (validFor: Option<string>)
      modifies tokenStore
      ensures View() == Step(cfg, old(View()), ValidateAuth(user, token, now)).0
      ensures var found := TokenStore.Live(old(tokenStore.tokens), TokenStore.MakeKey(user, token), now);
              validFor == if found.Some? then Some(found.value.userIdentity) else None
      ensures forall later | now <= later :: TokenStore.Live(tokenStore.tokens, TokenStore.MakeKey(user, token), later).None?
    {
      var found := tokenStore.Get(user, token, now);
      if found.None? {
        return None;
      }
      tokenStore.Remove(user, token);
      return Some(found.value.userIdentity);
    }

    method ValidateRefreshToken(agentId: string, token: string, now: int) returns (user: Option<string>)
      modifies tokenStore
      ensures tokenStore.tokens == TokenStore.GetStep(old(tokenStore.tokens), agentId, token, now).0
      ensures user.Some? <==> Accepts(old(View()), agentId, token, now)
      ensures user.Some? ==> user.value == old(tokenStore.tokens)[TokenStore.MakeKey(agentId, token)].userIdentity
    {
      var found := tokenStore.Get(agentId, token, now);
      if found.None? {
        return None;
      }
      return Some(found.value.userIdentity);
    }

    /** `agentId` and `token` are the fresh random values this call draws. */
    method CreateAgent(o: CreateOptions, agentId: string, token: string, decryptBy: string, decided: int, stored: int)
        returns (outcome: Outcome)
      modifies this, tokenStore
      ensures (View(), outcome) == Create(cfg, old(View()), o, agentId, token, decryptBy, decided, stored)
    {
      var expiry := ValueOr(o.trustExpiryMs, cfg.refreshTokenExpiryMs);
      var expiresAt := if expiry != 0 then decided + expiry else decided + cfg.refreshTokenExpiryMs;
      var fingerprint := FingerprintOf(o.publicKey);
      if fingerprint.None? {
        return BadPublicKey;
      }
      var id := Trust.ComputeTrustId(agentId, o.userIdentity);
      if id in trust {
        return RecordExists;
      }
      trust := trust[id := Trust.TrustRecord(agentId, o.userIdentity, Trust.Accepted, decided, Trust.At(expiresAt),
                                             Pem.PemToBase64(o.publicKey), fingerprint.value, [], Trust.Absent)];
      tokenStore.Store(token, Some(agentId), o.userIdentity, cfg.refreshTokenExpiryMs, decryptBy, stored);
      return Issued(Credentials(agentId, token, expiresAt, decryptBy));
    }

    /** `newToken` is the fresh random token, `updateOk` whether the trust store takes the update. */
    method ValidateAndReissueRefreshToken(agentId: string, refreshToken: string, o: ReissueOptions, newToken: string,
                                          updateOk: bool, t: Clock) returns (outcome: Outcome)
      modifies this, tokenStore
      ensures (View(), outcome) == Reissue(cfg, old(View()), agentId, refreshToken, o, newToken, updateOk, t)
    {
      var user := ValidateRefreshToken(agentId, refreshToken, t.validated);
      if user.None? {
        return InvalidToken;
      }
      var id := Trust.ComputeTrustId(agentId, user.value);
      if id !in trust {
        return NoRecord;
      }
      var record := trust[id];
      var expiresAt := t.extended + ValueOr(o.trustExpiryMs, cfg.refreshTokenExpiryMs);
      var patch := record.(expiresAt := Trust.At(expiresAt));
      if o.publicKey.Some? && o.publicKey.value != "" {
        var current := FingerprintOf(o.publicKey.value);
        if current.None? {
          return BadPublicKey;
        }
        if record.publicKeyFingerprint != current.value {
          var history := record.keyHistory + [Trust.KeyEntry(record.publicKeyFingerprint, record.decidedAt, t.seen)];
          // the array is the stored record's own
          trust := trust[id := record.(keyHistory := history)];
          patch := patch.(keyHistory := history,
                          publicKeyBase64 := Pem.PemToBase64(o.publicKey.value),
                          publicKeyFingerprint := current.value);
        }
      }
      patch := patch.(status := Trust.Accepted, decidedAt := t.decided);
      assert trust == old(trust)[id := Pushed(record, o, t.seen)];
      if !updateOk {
        return UpdateFailed;
      }
      assert patch == Patched(cfg, record, o, t);
      trust := trust[id := patch];
      assert trust == old(trust)[id := patch];
      tokenStore.Remove(agentId, refreshToken);
      tokenStore.Store(newToken, Some(agentId), user.value, cfg.refreshTokenExpiryMs, o.decryptBy, t.stored);
      return Issued(Credentials(agentId, newToken, expiresAt, o.decryptBy));
    }
  }
}
