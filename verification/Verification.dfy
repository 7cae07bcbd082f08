/** The server's signature and trust judgements on one artifact: `verifySignature`,
    `verifyAgentSignature`, `getAgentPublicKey`, `verifyDelegation`, `verifyAttestation` and
    `verifyTrust` of src/server/btpsServer.ts. */
module Verification {
  import opened OrderedMap
  import opened Symbolic
  import Pem
  import Trust

  /** What the judgements read: the DNS keys by (identity, selector), the trust records, the clock. */
  datatype World = World(dns: map<(string, string), string>, trust: Trust.TrustMap, now: int)

  datatype Processed =
    | Transporter(fields: Fields)
    | Agent(fields: Fields, respondNow: bool)

  function ResolvePublicKey(dns: map<(string, string), string>, identity: string, selector: string): Option<string> {
    if (identity, selector) in dns then Some(dns[(identity, selector)]) else None
  }

  /** Is the field present and truthy? */
  predicate Given(fields: Fields, key: string) {
    Find(fields, key).Some? && Truthy(Find(fields, key).value)
  }

  // ---------- what the schema has already checked ----------

  predicate ValidSignature(fields: Fields) {
    ReadSignature(Find(fields, "signature")).Some?
  }

  function SignatureOf(fields: Fields): Signature
    requires ValidSignature(fields)
  {
    ReadSignature(Find(fields, "signature")).value
  }

  predicate ValidAttestation(fields: Fields) {
    IsPlainAt(fields, "signedBy") && IsPlainAt(fields, "selector") && ValidSignature(fields)
  }

  predicate ValidDelegation(fields: Fields) {
    && IsPlainAt(fields, "signedBy") && IsPlainAt(fields, "selector") && IsPlainAt(fields, "agentPubKey")
    && ValidSignature(fields)
    && (Has(fields, "attestation") ==>
          Find(fields, "attestation").value.Obj? && ValidAttestation(Find(fields, "attestation").value.fields))
  }

  predicate ValidTransporter(fields: Fields) {
    && IsPlainAt(fields, "from") && IsPlainAt(fields, "to") && IsPlainAt(fields, "selector") && IsPlainAt(fields, "type")
    && ValidSignature(fields)
    && (Has(fields, "delegation") ==>
          Find(fields, "delegation").value.Obj? && ValidDelegation(Find(fields, "delegation").value.fields))
  }

  predicate ValidAgent(fields: Fields) {
    IsPlainAt(fields, "agentId") && IsPlainAt(fields, "to") && IsPlainAt(fields, "action") && ValidSignature(fields)
  }

  predicate ValidProcessed(data: Processed) {
    match data
    case Transporter(fields) => ValidTransporter(fields)
    case Agent(fields, _) => ValidAgent(fields)
  }

  // ---------- delegation ----------

  function AttestationMessage(delegation: Fields): Json
    requires ValidDelegation(delegation) && Has(delegation, "attestation")
  {
    var attestation := Find(delegation, "attestation").value.fields;
    Obj(Put(Remove(delegation, "attestation"), "attestation", Obj(Remove(attestation, "signature"))))
  }

  function VerifyAttestation(dns: map<(string, string), string>, delegation: Fields): Verdict
    requires ValidDelegation(delegation) && Has(delegation, "attestation")
  {
    var attestation := Find(delegation, "attestation").value.fields;
    match ResolvePublicKey(dns, PlainAt(attestation, "signedBy"), PlainAt(attestation, "selector"))
    case None => Rejected(KeyNotResolved)
    case Some(pem) =>
      if VerifySignature(AttestationMessage(delegation), SignatureOf(attestation), pem).Accepted? then Accepted
      else Rejected(AttestationVerification)
  }

  /** The delegated artifact with the delegation signature taken out, in place. */
  function DelegationMessage(fields: Fields, delegation: Fields): Json {
    Obj(Put(fields, "delegation", Obj(Remove(delegation, "signature"))))
  }

  function OriginalMessage(fields: Fields): Json {
    Obj(Remove(Remove(fields, "delegation"), "signature"))
  }

  function VerifyDelegation(dns: map<(string, string), string>, fields: Fields): Verdict
    requires ValidTransporter(fields) && Has(fields, "delegation")
  {
    var delegation := Find(fields, "delegation").value.fields;
    var attested := Has(delegation, "attestation");
    if PlainAt(delegation, "signedBy") == PlainAt(fields, "from") && !attested then Rejected(DelegationInvalid)
    else
      var attestation := if attested then VerifyAttestation(dns, delegation) else Accepted;
      if attestation.Rejected? then attestation
      else match ResolvePublicKey(dns, PlainAt(delegation, "signedBy"), PlainAt(delegation, "selector"))
        case None => Rejected(KeyNotResolved)
        case Some(delegatorPem) =>
          if VerifySignature(DelegationMessage(fields, delegation), SignatureOf(delegation), delegatorPem).Rejected? then
            Rejected(DelegationSignature)
          else if VerifySignature(OriginalMessage(fields), SignatureOf(fields), PlainAt(delegation, "agentPubKey")).Rejected? then
            Rejected(DelegationSignature)
          else Accepted
  }

  /** The value really is the holder of this PEM signing this message. */
  predicate SignedUnder(pem: string, message: Json, signature: Signature) {
    Pem.KeyOf(pem).Some? && signature == Signature(SignatureBy(Pem.KeyOf(pem).value, Stringify(message)), Fingerprint(Pem.KeyOf(pem).value))
  }

  lemma AcceptedMeansSigned(payload: Json, signature: Signature, pem: string)
    ensures VerifySignature(payload, signature, pem).Accepted? <==> SignedUnder(pem, payload, signature)
  {
  }

  /** These parties signed these nested messages: the delegator, the agent, and the attestor, who
      must be named whenever the delegator speaks for itself. */
  predicate SignedByDelegation(dns: map<(string, string), string>, fields: Fields)
    requires ValidTransporter(fields) && Has(fields, "delegation")
  {
    var delegation := Find(fields, "delegation").value.fields;
    var delegator := (PlainAt(delegation, "signedBy"), PlainAt(delegation, "selector"));
    && delegator in dns
    && SignedUnder(dns[delegator], Obj(Put(fields, "delegation", Obj(Remove(delegation, "signature")))), SignatureOf(delegation))
    && SignedUnder(PlainAt(delegation, "agentPubKey"), Obj(Remove(Remove(fields, "delegation"), "signature")), SignatureOf(fields))
    && (delegator.0 == PlainAt(fields, "from") ==> Has(delegation, "attestation"))
    && (Has(delegation, "attestation") ==>
          var attestation := Find(delegation, "attestation").value.fields;
          var attestor := (PlainAt(attestation, "signedBy"), PlainAt(attestation, "selector"));
          var unsigned := Put(Remove(delegation, "attestation"), "attestation", Obj(Remove(attestation, "signature")));
          attestor in dns && SignedUnder(dns[attestor], Obj(unsigned), SignatureOf(attestation)))
  }

  lemma DelegationAcceptance(dns: map<(string, string), string>, fields: Fields)
    requires ValidTransporter(fields) && Has(fields, "delegation")
    ensures VerifyDelegation(dns, fields).Accepted? <==> SignedByDelegation(dns, fields)
  {
  }

  // ---------- agents ----------

  datatype KeyChoice = NoKey | Key(pem: string) | Throws

  /** `document?.publicKey || null` */
  function DocumentKey(fields: Fields): Option<string> {
    var document := Find(fields, "document");
    if document.Some? && document.value.Obj? && PlainAt(document.value.fields, "publicKey") != "" then
      Some(PlainAt(document.value.fields, "publicKey"))
    else None
  }

  function GetAgentPublicKey(trust: Trust.TrustMap, fields: Fields): KeyChoice {
    if PlainAt(fields, "action") == "auth.request" then
      match DocumentKey(fields)
      case Some(pem) => Key(pem)
      case None => NoKey
    else
      match Trust.Lookup(trust, Trust.ComputeTrustId(PlainAt(fields, "agentId"), PlainAt(fields, "to")))
      case None => NoKey
      case Some(record) =>
        if Given(fields, "document") && PlainAt(fields, "action") == "auth.refresh" then
          match DocumentKey(fields)
          case None => NoKey
          case Some(pem) =>
            if FingerprintOf(pem).None? then Throws
            else if record.publicKeyFingerprint != FingerprintOf(pem).value then Key(pem)
            else Key(Pem.Base64ToPem(record.publicKeyBase64))
        else Key(Pem.Base64ToPem(record.publicKeyBase64))
  }

  /** None where the call throws. */
  function VerifyAgentSignature(trust: Trust.TrustMap, fields: Fields): Option<Verdict>
    requires ValidAgent(fields)
  {
    match GetAgentPublicKey(trust, fields)
    case NoKey => Some(Rejected(SignatureVerification))
    case Throws => None
    case Key(pem) => Some(VerifySignature(Obj(Remove(fields, "signature")), SignatureOf(fields), pem))
  }

  // ---------- the two judgements of the pipeline ----------

  /** `verifySignature` of the server; None where it throws. */
  function VerifyArtifact(w: World, data: Processed): Option<Verdict>
    requires ValidProcessed(data)
  {
    match data
    case Agent(fields, _) => VerifyAgentSignature(w.trust, fields)
    case Transporter(fields) =>
      if Has(fields, "delegation") then Some(VerifyDelegation(w.dns, fields))
      else match ResolvePublicKey(w.dns, PlainAt(fields, "from"), PlainAt(fields, "selector"))
        case None => Some(Rejected(KeyNotResolved))
        case Some(pem) => Some(VerifySignature(Obj(Remove(fields, "signature")), SignatureOf(fields), pem))
  }

  function KindOf(fields: Fields): Trust.ArtifactType {
    if PlainAt(fields, "type") == "TRUST_RES" then Trust.TrustRes
    else if PlainAt(fields, "type") == "TRUST_REQ" then Trust.TrustReq
    else Trust.Document
  }

  /** `verifyTrust` of the server. */
  function VerifyTrust(w: World, data: Processed): bool {
    match data
    case Agent(fields, _) =>
      PlainAt(fields, "action") == "auth.request"
      || Trust.IsTrustActive(Trust.Lookup(w.trust, Trust.ComputeTrustId(PlainAt(fields, "agentId"), PlainAt(fields, "to"))), w.now)
    case Transporter(fields) =>
      Trust.VerifyTransporterTrust(KindOf(fields), PlainAt(fields, "from"), PlainAt(fields, "to"), w.trust, w.now)
  }

  // ---------- what the judgements decide, said over the artifact ----------

  /** Signed with the key the sender publishes under its selector. */
  predicate SignedBySender(dns: map<(string, string), string>, fields: Fields)
    requires ValidTransporter(fields)
  {
    var sender := (PlainAt(fields, "from"), PlainAt(fields, "selector"));
    sender in dns && SignedUnder(dns[sender], Obj(Remove(fields, "signature")), SignatureOf(fields))
  }

  /** The key an agent puts in its document, "" if it puts none. */
  function PresentedKey(fields: Fields): string {
    var document := Find(fields, "document");
    if document.Some? && document.value.Obj? then PlainAt(document.value.fields, "publicKey") else ""
  }

  predicate Refreshes(fields: Fields) {
    PlainAt(fields, "action") == "auth.refresh" && Given(fields, "document")
  }

  /** Onboarding agents sign with the key they present, all others with the key of their record,
      but for a refresh that presents a readable key other than the record's. */
  predicate SignedByAgent(trust: Trust.TrustMap, fields: Fields)
    requires ValidAgent(fields)
  {
    var message, signature := Obj(Remove(fields, "signature")), SignatureOf(fields);
    var id, presented := Trust.ComputeTrustId(PlainAt(fields, "agentId"), PlainAt(fields, "to")), PresentedKey(fields);
    if PlainAt(fields, "action") == "auth.request" then SignedUnder(presented, message, signature)
    else
      && id in trust
      && (Refreshes(fields) ==> FingerprintOf(presented).Some?)
      && if Refreshes(fields) && FingerprintOf(presented) != Some(trust[id].publicKeyFingerprint)
         then SignedUnder(presented, message, signature)
         else SignedUnder(Pem.Base64ToPem(trust[id].publicKeyBase64), message, signature)
  }

  predicate Authentic(w: World, data: Processed)
    requires ValidProcessed(data)
  {
    match data
    case Agent(fields, _) => SignedByAgent(w.trust, fields)
    case Transporter(fields) =>
      if Has(fields, "delegation") then SignedByDelegation(w.dns, fields) else SignedBySender(w.dns, fields)
  }

  /** A refresh that presents a key nobody can read. */
  predicate PresentsUnreadable(w: World, data: Processed) {
    && data.Agent? && Refreshes(data.fields)
    && Trust.ComputeTrustId(PlainAt(data.fields, "agentId"), PlainAt(data.fields, "to")) in w.trust
    && PresentedKey(data.fields) != "" && FingerprintOf(PresentedKey(data.fields)).None?
  }

  lemma AgentVerifiedExactly(trust: Trust.TrustMap, fields: Fields)
    requires ValidAgent(fields)
    ensures VerifyAgentSignature(trust, fields) == Some(Accepted) <==> SignedByAgent(trust, fields)
    ensures VerifyAgentSignature(trust, fields).None? <==> PresentsUnreadable(World(map[], trust, 0), Agent(fields, false))
  {
    assert "auth.request" != "auth.refresh" by {
      assert "auth.request"[7] != "auth.refresh"[7];
    }
    assert FingerprintOf("").None?;
  }

  /** `verifySignature` accepts an artifact exactly if it is signed by the party it has to come
      from, and throws exactly on an unreadable key of a refreshing agent. */
  lemma VerifiedExactly(w: World, data: Processed)
    requires ValidProcessed(data)
    ensures VerifyArtifact(w, data) == Some(Accepted) <==> Authentic(w, data)
    ensures VerifyArtifact(w, data).None? <==> PresentsUnreadable(w, data)
  {
    match data
    case Agent(fields, _) => AgentVerifiedExactly(w.trust, fields);
    case Transporter(fields) =>
      if Has(fields, "delegation") {
        DelegationAcceptance(w.dns, fields);
      }
  }

  /** An accepted record that has not expired. */
  predicate ActiveAt(trust: Trust.TrustMap, id: string, now: int) {
    id in trust && trust[id].status.Accepted? && (trust[id].expiresAt.At? ==> now <= trust[id].expiresAt.ms)
  }

  /** Whom the records entitle: onboarding agents and agents with an active record; responses by
      the party a pending request asked; requests unless active, blocked or too early; anything
      else under an active record from sender to receiver. */
  predicate Entitled(w: World, data: Processed) {
    match data
    case Agent(fields, _) =>
      PlainAt(fields, "action") == "auth.request"
      || ActiveAt(w.trust, Trust.ComputeTrustId(PlainAt(fields, "agentId"), PlainAt(fields, "to")), w.now)
    case Transporter(fields) =>
      var from, to, kind := PlainAt(fields, "from"), PlainAt(fields, "to"), PlainAt(fields, "type");
      var there, back := Trust.ComputeTrustId(from, to), Trust.ComputeTrustId(to, from);
      if kind == "TRUST_RES" then back in w.trust && w.trust[back].status.Pending? && w.trust[back].receiverId == from
      else if kind == "TRUST_REQ" then
        there in w.trust ==>
          && !ActiveAt(w.trust, there, w.now) && !w.trust[there].status.Blocked?
          && (w.trust[there].retryAfterDate.At? ==> w.trust[there].retryAfterDate.ms <= w.now)
      else ActiveAt(w.trust, there, w.now)
  }

  /** `verifyTrust` admits an artifact exactly if the records entitle its sender. */
  lemma TrustedExactly(w: World, data: Processed)
    ensures VerifyTrust(w, data) <==> Entitled(w, data)
  {
    assert "TRUST_RES"[8] != "TRUST_REQ"[8];
  }
}
