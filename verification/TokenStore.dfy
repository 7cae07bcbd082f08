/** `InMemoryTokenStore`: tokens with an expiry, keyed by owner and token
    (src/core/authentication/storage/InMemoryTokenStore.ts), and the one-time validation of
    auth tokens built on it. */
module TokenStore {
  import opened OrderedMap
  import Trust

  datatype TokenDoc = TokenDoc(
    token: string,
    agentId: string,
    userIdentity: string,
    createdAt: int,
    expiresAt: int,
    decryptBy: string)

  type Tokens = map<string, TokenDoc>

  function MakeKey(owner: string, token: string): string {
    Trust.ComputeTrustId(owner, token)
  }

  function Owner(agentId: Option<string>, userIdentity: string): string {
    if agentId.Some? then agentId.value else userIdentity
  }

  function StoreStep(m: Tokens, token: string, agentId: Option<string>, userIdentity: string, expiryMs: int,
                     decryptBy: string, now: int): Tokens {
    m[MakeKey(Owner(agentId, userIdentity), token) :=
      TokenDoc(token, if agentId.Some? then agentId.value else "anonymous", userIdentity, now, now + expiryMs, decryptBy)]
  }

  function RemoveStep(m: Tokens, owner: string, token: string): Tokens {
    m - {MakeKey(owner, token)}
  }

  /** An expired token is removed on the way out. */
  function GetStep(m: Tokens, owner: string, token: string, now: int): (Tokens, Option<TokenDoc>) {
    var key := MakeKey(owner, token);
    if key !in m then (m, None)
    else if now > m[key].expiresAt then (RemoveStep(m, owner, token), None)
    else (m, Some(m[key]))
  }

  function CleanupStep(m: Tokens, now: int): Tokens {
    map k | k in m && !(now > m[k].expiresAt) :: m[k]
  }

  /** `validateAuthToken`: get, then remove what was found. */
  function ValidateStep(m: Tokens, userIdentity: string, token: string, now: int): (Tokens, Option<TokenDoc>) {
    var (m', found) := GetStep(m, userIdentity, token, now);
    if found.None? then (m', None) else (RemoveStep(m', userIdentity, token), found)
  }

  /** What a get at `now` would answer for a key. */
  function Live(m: Tokens, key: string, now: int): Option<TokenDoc> {
    if key in m && now <= m[key].expiresAt then Some(m[key]) else None
  }

  // ---------- runs ----------

  datatype Action =
    | Store(token: string, agentId: Option<string>, userIdentity: string, expiryMs: int, decryptBy: string)
    | Get(owner: string, token: string)
    | Validate(owner: string, token: string)
    | Remove(owner: string, token: string)
    | Cleanup

  datatype Event = Event(action: Action, at: int)

  function Step(m: Tokens, e: Event): (Tokens, Option<TokenDoc>) {
    match e.action
    case Store(token, agentId, user, expiry, decryptBy) => (StoreStep(m, token, agentId, user, expiry, decryptBy, e.at), None)
    case Get(owner, token) => GetStep(m, owner, token, e.at)
    case Validate(owner, token) => ValidateStep(m, owner, token, e.at)
    case Remove(owner, token) => (RemoveStep(m, owner, token), None)
    case Cleanup => (CleanupStep(m, e.at), None)
  }

  /** The store after a run from empty; the last event is the latest. */
  function After(events: seq<Event>): Tokens {
    if events == [] then map[] else Step(After(events[..|events| - 1]), events[|events| - 1]).0
  }

  predicate ClockTo(events: seq<Event>, now: int) {
    events != [] ==> events[|events| - 1].at <= now && ClockTo(events[..|events| - 1], events[|events| - 1].at)
  }

  function KeyOfAction(a: Action): string {
    match a
    case Store(token, agentId, user, _, _) => MakeKey(if agentId.Some? then agentId.value else user, token)
    case Get(owner, token) => MakeKey(owner, token)
    case Validate(owner, token) => MakeKey(owner, token)
    case Remove(owner, token) => MakeKey(owner, token)
    case Cleanup => ""
  }

  /** Reference reading of a history: the latest store, removal or validation of the key decides;
      gets and collections are not looked at. */
  function Expected(events: seq<Event>, key: string, now: int): Option<TokenDoc> {
    if events == [] then None
    else
      var last := events[|events| - 1];
      if last.action.Cleanup? || last.action.Get? || KeyOfAction(last.action) != key then
        Expected(events[..|events| - 1], key, now)
      else match last.action
        case Store(token, agentId, user, expiry, decryptBy) =>
          if now <= last.at + expiry then
            Some(TokenDoc(token, if agentId.Some? then agentId.value else "anonymous", user, last.at, last.at + expiry, decryptBy))
          else None
        case _ => None
  }

  lemma {:induction false} ExpectedLater(events: seq<Event>, key: string, now: int, later: int)
    requires now <= later
    ensures Expected(events, key, later) ==
              if Expected(events, key, now).Some? && later <= Expected(events, key, now).value.expiresAt
              then Expected(events, key, now) else None
  {
    if events != [] {
      ExpectedLater(events[..|events| - 1], key, now, later);
    }
  }

  lemma StepLive(m: Tokens, e: Event, key: string, now: int)
    requires e.at <= now
    ensures e.action.Cleanup? || e.action.Get? || KeyOfAction(e.action) != key ==>
              Live(Step(m, e).0, key, now) == Live(m, key, now)
    ensures (e.action.Remove? || e.action.Validate?) && KeyOfAction(e.action) == key ==> Live(Step(m, e).0, key, now).None?
  {
  }

  /** A get answers exactly what the history says: whatever collections and other gets happened
      before, the latest stored document of the key, until it expires, is removed or validated. */
  lemma {:induction false} HistoryDecides(events: seq<Event>, owner: string, token: string, now: int)
    requires ClockTo(events, now)
    ensures GetStep(After(events), owner, token, now).1 == Expected(events, MakeKey(owner, token), now)
  {
    if events != [] {
      var front, last, key := events[..|events| - 1], events[|events| - 1], MakeKey(owner, token);
      HistoryDecides(front, owner, token, last.at);
      ExpectedLater(front, key, last.at, now);
      StepLive(After(front), last, key, now);
    }
  }

  function WithoutCleanups(events: seq<Event>): seq<Event> {
    if events == [] then []
    else
      WithoutCleanups(events[..|events| - 1])
      + if events[|events| - 1].action.Cleanup? then [] else [events[|events| - 1]]
  }

  lemma ExpectedOfLast(front: seq<Event>, other: seq<Event>, last: Event, key: string, now: int)
    requires Expected(front, key, now) == Expected(other, key, now)
    ensures Expected(front + [last], key, now) == Expected(other + [last], key, now)
  {
    assert (front + [last])[..|front|] == front && (other + [last])[..|other|] == other;
  }

  lemma {:induction false} CleanupsNotLookedAt(events: seq<Event>, key: string, now: int)
    requires ClockTo(events, now)
    ensures Expected(WithoutCleanups(events), key, now) == Expected(events, key, now)
    ensures ClockTo(WithoutCleanups(events), now)
  {
    if events != [] {
      var front, last := events[..|events| - 1], events[|events| - 1];
      CleanupsNotLookedAt(front, key, last.at);
      ExpectedLater(front, key, last.at, now);
      ExpectedLater(WithoutCleanups(front), key, last.at, now);
      var kept := WithoutCleanups(front);
      if last.action.Cleanup? {
        assert kept + [] == kept;
        ClockMonotone(kept, last.at, now);
      } else {
        assert front + [last] == events;
        ExpectedOfLast(front, kept, last, key, now);
        assert (kept + [last])[..|kept|] == kept;
      }
    }
  }

  lemma ClockMonotone(events: seq<Event>, now: int, later: int)
    requires ClockTo(events, now) && now <= later
    ensures ClockTo(events, later)
  {
  }

  /** Inserting collections anywhere changes no answer. */
  lemma CleanupTransparent(events: seq<Event>, owner: string, token: string, now: int)
    requires ClockTo(events, now)
    ensures GetStep(After(events), owner, token, now).1 == GetStep(After(WithoutCleanups(events)), owner, token, now).1
  {
    CleanupsNotLookedAt(events, MakeKey(owner, token), now);
    HistoryDecides(events, owner, token, now);
    HistoryDecides(WithoutCleanups(events), owner, token, now);
  }

  /** A collection leaves exactly the documents that have not expired, each as it was. */
  lemma CollectionLeaves(m: Tokens, e: Event)
    requires e.action.Cleanup?
    ensures var kept := Step(m, e).0;
            && (forall key :: key in kept <==> key in m && e.at <= m[key].expiresAt)
            && forall key | key in kept :: kept[key] == m[key]
  {
  }

  function Validations(m: Tokens, events: seq<Event>, key: string): nat
    decreases |events|
  {
    if events == [] then 0
    else
      var (m', answer) := Step(m, events[0]);
      (if events[0].action.Validate? && KeyOfAction(events[0].action) == key && answer.Some? then 1 else 0)
      + Validations(m', events[1..], key)
  }

  /** From any store, until the key is stored again, it validates at most once, and never if
      it is absent. */
  lemma {:induction false} ValidatesAtMostOnce(m: Tokens, events: seq<Event>, key: string)
    requires forall e | e in events :: e.action.Store? ==> KeyOfAction(e.action) != key
    ensures Validations(m, events, key) <= if key in m then 1 else 0
    decreases |events|
  {
    if events != [] {
      assert events[0] in events;
      ValidatesAtMostOnce(Step(m, events[0]).0, events[1..], key);
    }
  }

  /** Two pairs share a key exactly up to letter case, for owners without a colon; every owner
      with one collides (`Trust.ColonOwnersCollide`). */
  lemma KeysInjective(a: string, s: string, b: string, t: string)
    requires ':' !in a && ':' !in b
    ensures MakeKey(a, s) == MakeKey(b, t) <==> Trust.Lower(a) == Trust.Lower(b) && Trust.Lower(s) == Trust.Lower(t)
  {
    Trust.TrustIdInjective(a, s, b, t);
  }

  // ---------- the class ----------

  class InMemoryTokenStore {
    var tokens: Tokens

    constructor ()
      ensures tokens == map[]
    {
      tokens := map[];
    }

    method Store(token: string, agentId: Option<string>, userIdentity: string, expiryMs: int, decryptBy: string, now: int)
      modifies this
      ensures tokens == StoreStep(old(tokens), token, agentId, userIdentity, expiryMs, decryptBy, now)
    {
      var expiresAt := now + expiryMs;
      var owner := if agentId.Some? then agentId.value else userIdentity;
      var shown := if agentId.Some? then agentId.value else "anonymous";
      tokens := tokens[MakeKey(owner, token) := TokenDoc(token, shown, userIdentity, now, expiresAt, decryptBy)];
    }

    method Get(owner: string, token: string, now: int) returns (found: Option<TokenDoc>)
      modifies this
      ensures (tokens, found) == GetStep(old(tokens), owner, token, now)
      ensures found == Live(old(tokens), MakeKey(owner, token), now)
      ensures forall key, later | now <= later :: Live(tokens, key, later) == Live(old(tokens), key, later)
    {
      var key := MakeKey(owner, token);
      if key !in tokens {
        return None;
      }
      if now > tokens[key].expiresAt {
        Remove(owner, token);
        return None;
      }
      return Some(tokens[key]);
    }

    method Remove(owner: string, token: string)
      modifies this
      ensures tokens == RemoveStep(old(tokens), owner, token)
    {
      tokens := tokens - {MakeKey(owner, token)};
    }

    /** The first loop of `cleanup`. */
    method CollectExpired(now: int) returns (expired: seq<string>)
      ensures forall k :: k in expired <==> k in tokens && now > tokens[k].expiresAt
    {
      expired := [];
      var todo := tokens.Keys;
      while todo != {}
        invariant todo <= tokens.Keys
        invariant forall k | k in tokens && k !in todo :: k in expired <==> now > tokens[k].expiresAt
        invariant forall k | k in expired :: k in tokens && now > tokens[k].expiresAt
        decreases |todo|
      {
        var k :| k in todo;
        if now > tokens[k].expiresAt {
          expired := expired + [k];
        }
        todo := todo - {k};
      }
    }

    /** Two loops: collect the expired keys, then delete them. */
    method Cleanup(now: int)
      modifies this
      ensures tokens == CleanupStep(old(tokens), now)
      ensures forall key :: key in tokens <==> key in old(tokens) && now <= old(tokens)[key].expiresAt
      ensures forall key | key in tokens :: tokens[key] == old(tokens)[key]
      ensures forall key, later | now <= later :: Live(tokens, key, later) == Live(old(tokens), key, later)
    {
      var expired := CollectExpired(now);
      for i := 0 to |expired|
        invariant forall k :: k in tokens <==> k in old(tokens) && k !in expired[..i]
        invariant forall k | k in tokens :: tokens[k] == old(tokens)[k]
      {
        tokens := tokens - {expired[i]};
        assert expired[..i + 1] == expired[..i] + [expired[i]];
      }
      assert expired[..|expired|] == expired;
    }
  }
}
