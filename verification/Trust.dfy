/** Trust records, their identifiers and the admission rules of src/core/trust/index.ts. */
module Trust {
  import opened OrderedMap
  import opened Symbolic

  datatype Status = Accepted | Rejected | Revoked | Pending | Blocked

  /** An optional ISO date; `Unparsable` is a present text that `new Date` turns into NaN. */
  datatype DateField = Absent | At(ms: int) | Unparsable

  datatype KeyEntry = KeyEntry(fingerprint: Text, firstSeen: int, lastSeen: int)

  datatype TrustRecord = TrustRecord(
    senderId: string,
    receiverId: string,
    status: Status,
    decidedAt: int,
    expiresAt: DateField,
    publicKeyBase64: string,
    publicKeyFingerprint: Text,
    keyHistory: seq<KeyEntry>,
    retryAfterDate: DateField)

  type TrustMap = map<string, TrustRecord>

  function LowerChar(c: char): char {
    if 'A' <= c <= 'Z' then ((c as int) + 32) as char else c
  }

  function Lower(s: string): (r: string)
    ensures |r| == |s| && forall i | 0 <= i < |s| :: r[i] == LowerChar(s[i])
  {
    if s == "" then "" else [LowerChar(s[0])] + Lower(s[1..])
  }

  /** The hash is collision-free, so the identifier is its input. */
  function ComputeTrustId(senderId: string, receiverId: string): string {
    Lower(senderId + ":" + receiverId)
  }

  function Lookup(store: TrustMap, id: string): Option<TrustRecord> {
    if id in store then Some(store[id]) else None
  }

  lemma LowerConcat(a: string, b: string)
    ensures Lower(a + b) == Lower(a) + Lower(b)
  {
  }

  lemma LowerKeepsColon(s: string)
    ensures ':' in Lower(s) <==> ':' in s
  {
    forall i | 0 <= i < |s|
      ensures Lower(s)[i] == ':' <==> s[i] == ':'
    {
      assert Lower(s)[i] == LowerChar(s[i]);
    }
  }

  lemma {:induction false} SplitAtColon(a: string, b: string, c: string, d: string)
    requires ':' !in a && ':' !in c && a + ":" + b == c + ":" + d
    ensures a == c && b == d
  {
    var x, y := a + ":" + b, c + ":" + d;
    assert x[0] == if a == "" then ':' else a[0];
    assert y[0] == if c == "" then ':' else c[0];
    assert a == "" <==> c == "";
    if a == "" {
      assert x[1..] == b && y[1..] == d;
    } else {
      assert x[1..] == a[1..] + ":" + b && y[1..] == c[1..] + ":" + d;
      SplitAtColon(a[1..], b, c[1..], d);
    }
  }

  lemma TrustIdParts(a: string, b: string)
    ensures ComputeTrustId(a, b) == Lower(a) + ":" + Lower(b)
  {
    LowerConcat(a + ":", b);
    LowerConcat(a, ":");
    assert Lower(":") == ":";
  }

  /** Identifiers agree exactly up to letter case when the owners have no colon. */
  lemma TrustIdInjective(a: string, b: string, c: string, d: string)
    requires ':' !in a && ':' !in c
    ensures ComputeTrustId(a, b) == ComputeTrustId(c, d) <==> Lower(a) == Lower(c) && Lower(b) == Lower(d)
  {
    TrustIdParts(a, b);
    TrustIdParts(c, d);
    LowerKeepsColon(a);
    LowerKeepsColon(c);
    if ComputeTrustId(a, b) == ComputeTrustId(c, d) {
      SplitAtColon(Lower(a), Lower(b), Lower(c), Lower(d));
    }
  }

  lemma {:induction false} FirstColon(s: string) returns (head: string, tail: string)
    requires ':' in s
    ensures s == head + ":" + tail && ':' !in head
  {
    if s[0] == ':' {
      head, tail := "", s[1..];
    } else {
      var rest;
      rest, tail := FirstColon(s[1..]);
      head := [s[0]] + rest;
      assert s == [s[0]] + (rest + ":" + tail);
    }
  }

  lemma Associates(head: string, tail: string, b: string)
    ensures head + ":" + (tail + ":" + b) == (head + ":" + tail) + ":" + b
  {
  }

  lemma MoveToReceiver(head: string, tail: string, b: string)
    ensures ComputeTrustId(head, tail + ":" + b) == ComputeTrustId(head + ":" + tail, b)
  {
    Associates(head, tail, b);
  }

  lemma LowerShorter(a: string, b: string)
    requires |a| < |b|
    ensures Lower(a) != Lower(b)
  {
    assert |Lower(a)| < |Lower(b)|;
  }

  /** The condition is needed of every owner: one with a colon shares each of its identifiers
      with an owner that has none. */
  lemma ColonOwnersCollide(a: string, b: string)
    requires ':' in a
    ensures exists c, d :: ':' !in c && Lower(c) != Lower(a) && ComputeTrustId(c, d) == ComputeTrustId(a, b)
  {
    var head, tail := FirstColon(a);
    LowerShorter(head, a);
    MoveToReceiver(head, tail, b);
  }

  // ---------- admission ----------

  function IsTrustActive(trust: Option<TrustRecord>, now: int): bool {
    match trust
    case None => false
    case Some(t) =>
      if !t.status.Accepted? then false
      else if t.expiresAt.At? && t.expiresAt.ms < now then false
      else true
  }

  datatype Admission = Admitted | AlreadyActive | TrustBlocked | NotAllowed

  function ValidateTrustRequest(trust: Option<TrustRecord>, now: int): Admission {
    if IsTrustActive(trust, now) then AlreadyActive
    else if trust.Some? && trust.value.status.Blocked? then TrustBlocked
    else if trust.Some? && trust.value.retryAfterDate.At? && trust.value.retryAfterDate.ms > now then NotAllowed
    else Admitted
  }

  function ValidateTrustResponse(senderId: string, receiverId: string, store: TrustMap): Admission {
    match Lookup(store, ComputeTrustId(receiverId, senderId))
    case None => NotAllowed
    case Some(t) =>
      if !t.status.Pending? then NotAllowed
      else if t.receiverId != senderId then NotAllowed
      else Admitted
  }

  function CanRetryTrust(trust: Option<TrustRecord>, now: int): bool {
    match trust
    case None => true
    case Some(t) =>
      if t.status.Accepted? || t.status.Blocked? then false
      else match t.retryAfterDate
           case Absent => true
           case At(ms) => ms <= now
           case Unparsable => false
  }

  datatype ArtifactType = TrustReq | TrustRes | Document

  /** The transporter branch of the server's `verifyTrust`. */
  function VerifyTransporterTrust(kind: ArtifactType, from: string, to: string, store: TrustMap, now: int): bool {
    match kind
    case TrustRes => ValidateTrustResponse(from, to, store).Admitted?
    case TrustReq => ValidateTrustRequest(Lookup(store, ComputeTrustId(from, to)), now).Admitted?
    case Document => IsTrustActive(Lookup(store, ComputeTrustId(from, to)), now)
  }

  datatype Phase = Documents | Neither | Requests

  function PhaseAt(from: string, to: string, store: TrustMap, now: int): Phase {
    if VerifyTransporterTrust(Document, from, to, store, now) then Documents
    else if VerifyTransporterTrust(TrustReq, from, to, store, now) then Requests
    else Neither
  }

  predicate NonDecreasing(times: seq<int>) {
    forall i, j | 0 <= i < j < |times| :: times[i] <= times[j]
  }

  /** Over an unchanged store a non-decreasing clock only ever sees documents admitted, then a
      possible gap, then requests admitted; at no moment are both. */
  lemma {:induction false} PhasesOverTime(from: string, to: string, store: TrustMap, times: seq<int>)
      returns (docsEnd: nat, requestsStart: nat)
    requires NonDecreasing(times)
    ensures docsEnd <= requestsStart <= |times|
    ensures forall i | 0 <= i < |times| ::
              && (VerifyTransporterTrust(Document, from, to, store, times[i]) <==> i < docsEnd)
              && (VerifyTransporterTrust(TrustReq, from, to, store, times[i]) <==> requestsStart <= i)
  {
    docsEnd, requestsStart := 0, 0;
    if times != [] {
      var n := |times| - 1;
      var front := times[..n];
      docsEnd, requestsStart := PhasesOverTime(from, to, store, front);
      match PhaseAt(from, to, store, times[n])
      case Documents =>
        assert forall i | 0 <= i < n :: times[i] == front[i] <= times[n];
        docsEnd, requestsStart := n + 1, n + 1;
      case Neither =>
        assert forall i | 0 <= i < n :: times[i] == front[i] <= times[n];
        requestsStart := n + 1;
      case Requests =>
        assert forall i | 0 <= i < n :: times[i] == front[i] <= times[n];
    }
  }

  /** Where the phases meet: without a gap the first request moment directly follows the last
      document moment; a gap is open at t exactly for these reasons. */
  lemma NothingAdmittedWhen(trust: Option<TrustRecord>, t: int)
    ensures !IsTrustActive(trust, t) && !ValidateTrustRequest(trust, t).Admitted?
       <==> trust.Some?
            && (trust.value.status.Blocked? || (trust.value.retryAfterDate.At? && t < trust.value.retryAfterDate.ms))
            && !(trust.value.status.Accepted? && (trust.value.expiresAt.At? ==> t <= trust.value.expiresAt.ms))
  {
  }

  /** Why a request is refused: an acceptance in force comes first, a block next, and a retry date
      still to come last. */
  lemma RequestRefusedExactly(trust: Option<TrustRecord>, now: int)
    ensures var accepted := trust.Some? && trust.value.status.Accepted?
                            && (trust.value.expiresAt.At? ==> now <= trust.value.expiresAt.ms);
            var blocked := trust.Some? && trust.value.status.Blocked?;
            var waiting := trust.Some? && trust.value.retryAfterDate.At? && now < trust.value.retryAfterDate.ms;
            var answer := ValidateTrustRequest(trust, now);
            && (answer.AlreadyActive? <==> accepted)
            && (answer.TrustBlocked? <==> blocked)
            && (answer.NotAllowed? <==> waiting && !accepted && !blocked)
            && (answer.Admitted? <==> !waiting && !accepted && !blocked)
  {
  }

  /** A retry the client may make is one the server admits; the reverse misses exactly expired
      acceptances and unreadable retry dates. */
  lemma RetryAdmitted(trust: Option<TrustRecord>, now: int)
    ensures CanRetryTrust(trust, now) <==>
              ValidateTrustRequest(trust, now).Admitted?
              && (trust.Some? ==> !trust.value.status.Accepted? && !trust.value.retryAfterDate.Unparsable?)
  {
  }

  /** A response is admitted only while documents from requester to responder are not, at any
      time, and only from the party the request was addressed to. */
  lemma ResponseExcludesDocuments(responder: string, requester: string, store: TrustMap, now: int, later: int)
    requires VerifyTransporterTrust(TrustRes, responder, requester, store, now)
    ensures !VerifyTransporterTrust(Document, requester, responder, store, later)
    ensures Lookup(store, ComputeTrustId(requester, responder)).value.receiverId == responder
  {
  }
}
