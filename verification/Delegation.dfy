/** `BtpsDelegator` (src/core/delegation/BtpsDelegator.ts) against the server that verifies what
    it produces. */
module Delegation {
  import opened OrderedMap
  import opened Symbolic
  import opened Verification
  import Pem

  type Dns = map<(string, string), string>

  /** Who a delegation is issued for, when not for the delegator itself. */
  datatype Party = Party(identity: string, keys: PemKeys, selector: string)

  datatype Stamp = Stamp(delegation: Text, attestation: Text)

  function Signing(delegatorIdentity: string, selector: string, agentId: string, agentPubKey: string, issuedAt: Text): Fields {
    [ Entry("agentId", Str(Raw(agentId))),
      Entry("agentPubKey", Str(Raw(agentPubKey))),
      Entry("signedBy", Str(Raw(delegatorIdentity))),
      Entry("issuedAt", Str(issuedAt)),
      Entry("selector", Str(Raw(selector))) ]
  }

  /** `createDelegation`: the signature covers the artifact with the unsigned delegation in it. */
  function CreateDelegation(artifact: Fields, identity: string, keys: PemKeys, agentId: string, agentPubKey: string,
                            selector: string, issuedAt: Text): Option<Fields> {
    var payload := Signing(identity, selector, agentId, agentPubKey, issuedAt);
    match SignPayload(Obj(Put(artifact, "delegation", Obj(payload))), keys)
    case None => None
    case Some(signature) => Some(Put(payload, "signature", SignatureJson(signature)))
  }

  /** What is in an attestation before it is signed. */
  function AttestationPayload(identity: string, selector: string, issuedAt: Text): Fields {
    [Entry("signedBy", Str(Raw(identity))), Entry("issuedAt", Str(issuedAt)), Entry("selector", Str(Raw(selector)))]
  }

  /** `createAttestation`: the signature covers the signed delegation and the unsigned attestation. */
  function CreateAttestation(delegation: Fields, identity: string, keys: PemKeys, selector: string, issuedAt: Text): Option<Fields> {
    var payload := AttestationPayload(identity, selector, issuedAt);
    match SignPayload(Obj(Put(delegation, "attestation", Obj(payload))), keys)
    case None => None
    case Some(signature) => Some(Put(payload, "signature", SignatureJson(signature)))
  }

  /** An initialised delegator. */
  datatype Delegator = Delegator(identity: string, keys: PemKeys, selector: string)

  /** `delegateArtifact`; None where signing throws. For another party the attestation carries
      that party's selector and is attached after the delegation was signed. */
  function Delegate(d: Delegator, artifact: Fields, agentId: string, agentPubKey: string, onBehalfOf: Option<Party>,
                    stamp: Stamp): Option<Fields> {
    var party := if onBehalfOf.Some? then onBehalfOf.value else Party(d.identity, d.keys, d.selector);
    match CreateDelegation(artifact, party.identity, party.keys, agentId, agentPubKey, party.selector, stamp.delegation)
    case None => None
    case Some(delegation) =>
      if onBehalfOf.None? then Some(Put(artifact, "delegation", Obj(delegation)))
      else match CreateAttestation(delegation, d.identity, d.keys, party.selector, stamp.attestation)
        case None => None
        case Some(attestation) =>
          Some(Put(artifact, "delegation", Obj(Put(delegation, "attestation", Obj(attestation)))))
  }

  /** What a successful `init` established about the DNS. */
  predicate Initialised(d: Delegator, dns: Dns) {
    ResolvePublicKey(dns, d.identity, d.selector) == Some(d.keys.publicKey) && MatchingPair(d.keys)
  }

  /** The artifact to delegate: schema-valid apart from any delegation it already carries. */
  predicate Delegatable(artifact: Fields) {
    && IsPlainAt(artifact, "from") && IsPlainAt(artifact, "to") && IsPlainAt(artifact, "selector") && IsPlainAt(artifact, "type")
    && ValidSignature(artifact)
  }

  // ---------- reading back what was built ----------

  lemma FindAppend(fields: Fields, last: Entry<Json>, key: string)
    ensures Find(fields + [last], key) ==
              if Has(fields, key) then Find(fields, key) else if last.key == key then Some(last.value) else None
  {
    if fields == [] {
      assert fields + [last] == [last];
    } else {
      assert (fields + [last])[1..] == fields[1..] + [last];
      FindAppend(fields[1..], last, key);
    }
  }

  lemma NamesDiffer()
    ensures "agentId" != "agentPubKey" && "signedBy" != "agentId" && "signedBy" != "agentPubKey"
    ensures "selector" != "agentId" && "selector" != "agentPubKey" && "selector" != "signedBy" && "selector" != "issuedAt"
    ensures "signature" != "agentId" && "signature" != "agentPubKey" && "signature" != "signedBy" && "signature" != "issuedAt"
    ensures "signature" != "selector" && "signature" != "attestation" && "signature" != "delegation"
    ensures "attestation" != "agentId" && "attestation" != "agentPubKey" && "attestation" != "signedBy"
    ensures "attestation" != "issuedAt" && "attestation" != "selector" && "issuedAt" != "signedBy"
    ensures "from" != "delegation" && "to" != "delegation" && "selector" != "delegation" && "type" != "delegation"
    ensures "issuedAt" != "agentId" && "issuedAt" != "agentPubKey"
  {
    assert |"agentId"| == 7 && |"agentPubKey"| == 11 && |"signedBy"| == 8 && |"issuedAt"| == 8 && |"selector"| == 8;
    assert |"signature"| == 9 && |"attestation"| == 11 && |"delegation"| == 10;
    assert "signedBy"[1] != "issuedAt"[1] && "signedBy"[1] != "selector"[1] && "issuedAt"[0] != "selector"[0];
    assert "agentPubKey"[1] != "attestation"[1];
  }

  lemma SigningFields(identity: string, selector: string, agentId: string, agentPubKey: string, issuedAt: Text)
    ensures var f := Signing(identity, selector, agentId, agentPubKey, issuedAt);
            && Find(f, "signedBy") == Some(Str(Raw(identity)))
            && Find(f, "selector") == Some(Str(Raw(selector)))
            && Find(f, "agentPubKey") == Some(Str(Raw(agentPubKey)))
            && Find(f, "agentId") == Some(Str(Raw(agentId))) && Find(f, "issuedAt") == Some(Str(issuedAt))
            && !Has(f, "signature") && !Has(f, "attestation")
  {
    NamesDiffer();
    var f := Signing(identity, selector, agentId, agentPubKey, issuedAt);
    var f1, f2, f3, f4 := f[1..], f[2..], f[3..], f[4..];
    assert f1[1..] == f2 && f2[1..] == f3 && f3[1..] == f4 && f4[1..] == [];
    forall key: string
      ensures Find(f, key) == (if key == "agentId" then Some(f[0].value) else if key == "agentPubKey" then Some(f[1].value)
              else if key == "signedBy" then Some(f[2].value) else if key == "issuedAt" then Some(f[3].value)
              else if key == "selector" then Some(f[4].value) else None)
    {
      assert Find(f4, key) == if key == f4[0].key then Some(f4[0].value) else None;
      assert Find(f3, key) == if key == f3[0].key then Some(f3[0].value) else Find(f4, key);
      assert Find(f2, key) == if key == f2[0].key then Some(f2[0].value) else Find(f3, key);
      assert Find(f1, key) == if key == f1[0].key then Some(f1[0].value) else Find(f2, key);
    }
  }

  // ---------- main results ----------

  /** Delegating for oneself: the server accepts exactly when the delegator is not the sender and
      the artifact, without any delegation it carried, was signed under the agent key. */
  lemma OwnDelegationExactly(d: Delegator, dns: Dns, artifact: Fields, agentId: string, agentPubKey: string, stamp: Stamp)
    requires Initialised(d, dns) && Delegatable(artifact)
    ensures Delegate(d, artifact, agentId, agentPubKey, None, stamp).Some?
    ensures var out := Delegate(d, artifact, agentId, agentPubKey, None, stamp).value;
            && ValidTransporter(out) && Has(out, "delegation")
            && (VerifyDelegation(dns, out).Accepted? <==>
                  d.identity != PlainAt(artifact, "from")
                  && SignedUnder(agentPubKey, Obj(Remove(Remove(artifact, "delegation"), "signature")), SignatureOf(artifact)))
  {
    var payload := Signing(d.identity, d.selector, agentId, agentPubKey, stamp.delegation);
    var message := Obj(Put(artifact, "delegation", Obj(payload)));
    var signature := SignPayload(message, d.keys).value;
    var delegation := Put(payload, "signature", SignatureJson(signature));
    var out := Put(artifact, "delegation", Obj(delegation));
    DelegationReads(payload, d.identity, d.selector, agentId, agentPubKey, stamp.delegation, signature);
    ArtifactReads(artifact, delegation);
    PutPut(artifact, "delegation", Obj(delegation), Obj(payload));
    assert DelegationMessage(out, delegation) == message;
    SignedVerifies(message, d.keys, message, d.keys.publicKey);
    AcceptedMeansSigned(OriginalMessage(out), SignatureOf(out), agentPubKey);
  }

  lemma DelegationReads(payload: Fields, identity: string, selector: string, agentId: string, agentPubKey: string, issuedAt: Text,
                        signature: Signature)
    requires payload == Signing(identity, selector, agentId, agentPubKey, issuedAt)
    ensures var delegation := Put(payload, "signature", SignatureJson(signature));
            && ValidDelegation(delegation) && !Has(delegation, "attestation")
            && PlainAt(delegation, "signedBy") == identity && PlainAt(delegation, "selector") == selector
            && PlainAt(delegation, "agentPubKey") == agentPubKey
            && Find(delegation, "agentId") == Some(Str(Raw(agentId))) && Find(delegation, "issuedAt") == Some(Str(issuedAt))
            && SignatureOf(delegation) == signature
            && Remove(delegation, "signature") == payload
  {
    NamesDiffer();
    SigningFields(identity, selector, agentId, agentPubKey, issuedAt);
    ReadSignatureJson(signature);
    FindPut(payload, "signature", SignatureJson(signature), "signedBy");
    FindPut(payload, "signature", SignatureJson(signature), "selector");
    FindPut(payload, "signature", SignatureJson(signature), "agentPubKey");
    FindPut(payload, "signature", SignatureJson(signature), "agentId");
    FindPut(payload, "signature", SignatureJson(signature), "issuedAt");
    FindPut(payload, "signature", SignatureJson(signature), "attestation");
    FindPut(payload, "signature", SignatureJson(signature), "signature");
    RemovePut(payload, "signature", SignatureJson(signature));
    RemoveAbsent(payload, "signature");
  }

  /** Putting a delegation in leaves the rest of the artifact as it was. */
  lemma ArtifactReads(artifact: Fields, delegation: Fields)
    requires Delegatable(artifact) && ValidDelegation(delegation)
    ensures var out := Put(artifact, "delegation", Obj(delegation));
            && ValidTransporter(out) && Find(out, "delegation") == Some(Obj(delegation))
            && PlainAt(out, "from") == PlainAt(artifact, "from")
            && SignatureOf(out) == SignatureOf(artifact)
            && OriginalMessage(out) == OriginalMessage(artifact)
  {
    NamesDiffer();
    FindPut(artifact, "delegation", Obj(delegation), "delegation");
    FindPut(artifact, "delegation", Obj(delegation), "from");
    FindPut(artifact, "delegation", Obj(delegation), "to");
    FindPut(artifact, "delegation", Obj(delegation), "selector");
    FindPut(artifact, "delegation", Obj(delegation), "type");
    FindPut(artifact, "delegation", Obj(delegation), "signature");
    RemovePut(artifact, "delegation", Obj(delegation));
  }

  lemma CheckedDiffersFromSigned(artifact: Fields, payload: Fields, delegation: Fields)
    requires !Has(payload, "attestation") && Has(delegation, "attestation")
    ensures DelegationMessage(Put(artifact, "delegation", Obj(delegation)), delegation)
         != Obj(Put(artifact, "delegation", Obj(payload)))
  {
    NamesDiffer();
    PutPut(artifact, "delegation", Obj(delegation), Obj(Remove(delegation, "signature")));
    FindRemove(delegation, "signature", "attestation");
    FindPut(artifact, "delegation", Obj(Remove(delegation, "signature")), "delegation");
    FindPut(artifact, "delegation", Obj(payload), "delegation");
  }

  /** What delegating on behalf of another party builds. */
  lemma OnBehalfShape(d: Delegator, artifact: Fields, agentId: string, agentPubKey: string, party: Party, stamp: Stamp)
      returns (payload: Fields, delegation: Fields, attestation: Fields)
    requires Delegate(d, artifact, agentId, agentPubKey, Some(party), stamp).Some?
    ensures Delegate(d, artifact, agentId, agentPubKey, Some(party), stamp).value == Put(artifact, "delegation", Obj(delegation))
    ensures !Has(payload, "attestation")
    ensures ValidDelegation(delegation) && Find(delegation, "attestation") == Some(Obj(attestation))
    ensures SignatureOf(delegation).value == SignatureBy(party.keys.privateKey, Printed(Obj(Put(artifact, "delegation", Obj(payload)))))
    ensures PlainAt(delegation, "signedBy") == party.identity && PlainAt(delegation, "selector") == party.selector
    ensures PlainAt(attestation, "signedBy") == d.identity && PlainAt(attestation, "selector") == party.selector
    ensures MatchingPair(d.keys) ==> SignedUnder(d.keys.publicKey, AttestationMessage(delegation), SignatureOf(attestation))
  {
    payload := Signing(party.identity, party.selector, agentId, agentPubKey, stamp.delegation);
    var signature := SignPayload(Obj(Put(artifact, "delegation", Obj(payload))), party.keys).value;
    var signed := Put(payload, "signature", SignatureJson(signature));
    attestation := CreateAttestation(signed, d.identity, d.keys, party.selector, stamp.attestation).value;
    delegation := Put(signed, "attestation", Obj(attestation));
    SigningFields(party.identity, party.selector, agentId, agentPubKey, stamp.delegation);
    DelegationReads(payload, party.identity, party.selector, agentId, agentPubKey, stamp.delegation, signature);
    AttestedReads(signed, d, party.selector, stamp.attestation);
  }

  /** Delegating on behalf of another party never verifies: the attestation is inside what the
      server checks and was not inside what was signed. With every key in place the attestation
      passes and it is the delegation signature that is refused. */
  lemma OnBehalfNeverVerifies(d: Delegator, dns: Dns, artifact: Fields, agentId: string, agentPubKey: string, party: Party, stamp: Stamp)
    requires Delegatable(artifact)
    requires Delegate(d, artifact, agentId, agentPubKey, Some(party), stamp).Some?
    ensures var out := Delegate(d, artifact, agentId, agentPubKey, Some(party), stamp).value;
            && ValidTransporter(out) && Has(out, "delegation")
            && VerifyDelegation(dns, out).Rejected?
            && (ResolvePublicKey(dns, d.identity, party.selector) == Some(d.keys.publicKey) && MatchingPair(d.keys)
                && (party.identity, party.selector) in dns
                ==> VerifyDelegation(dns, out) == Rejected(DelegationSignature))
  {
    var payload, delegation, attestation := OnBehalfShape(d, artifact, agentId, agentPubKey, party, stamp);
    ArtifactReads(artifact, delegation);
    CheckedDiffersFromSigned(artifact, payload, delegation);
    AcceptedMeansSigned(AttestationMessage(delegation), SignatureOf(attestation), d.keys.publicKey);
  }

  /** Both together: what `delegateArtifact` returns is accepted exactly in this case. */
  lemma DelegatedVerifiesExactly(d: Delegator, dns: Dns, artifact: Fields, agentId: string, agentPubKey: string,
                                 onBehalfOf: Option<Party>, stamp: Stamp)
    requires Initialised(d, dns) && Delegatable(artifact)
    requires Delegate(d, artifact, agentId, agentPubKey, onBehalfOf, stamp).Some?
    ensures var out := Delegate(d, artifact, agentId, agentPubKey, onBehalfOf, stamp).value;
            && ValidTransporter(out) && Has(out, "delegation")
            && (VerifyDelegation(dns, out).Accepted? <==>
                  && onBehalfOf.None?
                  && d.identity != PlainAt(artifact, "from")
                  && SignedUnder(agentPubKey, Obj(Remove(Remove(artifact, "delegation"), "signature")), SignatureOf(artifact)))
  {
    if onBehalfOf.None? {
      OwnDelegationExactly(d, dns, artifact, agentId, agentPubKey, stamp);
    } else {
      OnBehalfNeverVerifies(d, dns, artifact, agentId, agentPubKey, onBehalfOf.value, stamp);
    }
  }

  lemma AttestationPayloadReads(identity: string, selector: string, issuedAt: Text, signature: Signature)
    ensures var payload := AttestationPayload(identity, selector, issuedAt);
            var attestation := Put(payload, "signature", SignatureJson(signature));
            && ValidAttestation(attestation) && SignatureOf(attestation) == signature
            && PlainAt(attestation, "signedBy") == identity && PlainAt(attestation, "selector") == selector
            && Remove(attestation, "signature") == payload
  {
    NamesDiffer();
    var payload := AttestationPayload(identity, selector, issuedAt);
    var p1, p2 := payload[1..], payload[2..];
    assert p1[1..] == p2 && p2[1..] == [];
    assert payload[0].key == "signedBy" && p1[0].key == "issuedAt" && p2[0].key == "selector";
    var name, other := "signature", "selector";
    assert Find(p2, name) == None && Find(p1, name) == Find(p2, name) && Find(payload, name) == Find(p1, name);
    assert Find(p1, other) == Find(p2, other) && Find(payload, other) == Find(p1, other);
    ReadSignatureJson(signature);
    FindPut(payload, "signature", SignatureJson(signature), "signedBy");
    FindPut(payload, "signature", SignatureJson(signature), "selector");
    FindPut(payload, "signature", SignatureJson(signature), "signature");
    RemovePut(payload, "signature", SignatureJson(signature));
    RemoveAbsent(payload, "signature");
  }

  lemma AttachedReads(signed: Fields, attestation: Fields)
    requires ValidDelegation(signed) && !Has(signed, "attestation") && ValidAttestation(attestation)
    ensures var delegation := Put(signed, "attestation", Obj(attestation));
            && ValidDelegation(delegation) && Find(delegation, "attestation") == Some(Obj(attestation))
            && PlainAt(delegation, "signedBy") == PlainAt(signed, "signedBy")
            && PlainAt(delegation, "selector") == PlainAt(signed, "selector")
            && SignatureOf(delegation) == SignatureOf(signed)
            && Remove(delegation, "attestation") == signed
  {
    NamesDiffer();
    FindPut(signed, "attestation", Obj(attestation), "signedBy");
    FindPut(signed, "attestation", Obj(attestation), "selector");
    FindPut(signed, "attestation", Obj(attestation), "agentPubKey");
    FindPut(signed, "attestation", Obj(attestation), "attestation");
    FindPut(signed, "attestation", Obj(attestation), "signature");
    RemovePut(signed, "attestation", Obj(attestation));
    RemoveAbsent(signed, "attestation");
  }

  lemma AttestedReads(signed: Fields, d: Delegator, selector: string, issuedAt: Text)
    requires ValidDelegation(signed) && !Has(signed, "attestation")
    requires CreateAttestation(signed, d.identity, d.keys, selector, issuedAt).Some?
    ensures var attestation := CreateAttestation(signed, d.identity, d.keys, selector, issuedAt).value;
            var delegation := Put(signed, "attestation", Obj(attestation));
            && ValidDelegation(delegation) && Find(delegation, "attestation") == Some(Obj(attestation))
            && PlainAt(delegation, "signedBy") == PlainAt(signed, "signedBy")
            && PlainAt(delegation, "selector") == PlainAt(signed, "selector")
            && SignatureOf(delegation) == SignatureOf(signed)
            && PlainAt(attestation, "signedBy") == d.identity && PlainAt(attestation, "selector") == selector
            && (MatchingPair(d.keys) ==> SignedUnder(d.keys.publicKey, AttestationMessage(delegation), SignatureOf(attestation)))
  {
    var payload := AttestationPayload(d.identity, selector, issuedAt);
    var message := Obj(Put(signed, "attestation", Obj(payload)));
    var signature := SignPayload(message, d.keys).value;
    var attestation := Put(payload, "signature", SignatureJson(signature));
    var delegation := Put(signed, "attestation", Obj(attestation));
    AttestationPayloadReads(d.identity, selector, issuedAt, signature);
    AttachedReads(signed, attestation);
    assert AttestationMessage(delegation) == message;
  }

  // ---------- the class ----------

  datatype Outcome = NotInitialised | IdentityNotVerified | SigningFailed | Delegated(artifact: Fields)

  class BtpsDelegator {
    const identity: string
    const privateKey: string
    var publicKey: Option<string>
    var selector: string
    var isInitialized: bool

    constructor (identity: string, privateKey: string)
      ensures this.identity == identity && this.privateKey == privateKey
      ensures publicKey == None && selector == "btps1" && !isInitialized
    {
      this.identity := identity;
      this.privateKey := privateKey;
      publicKey, selector, isInitialized := None, "btps1", false;
    }

    function AsDelegator(): Delegator
      reads this
      requires publicKey.Some?
    {
      Delegator(identity, PemKeys(publicKey.value, privateKey), selector)
    }

    /** The host record names the selector, which is kept even when the key then fails. */
    method VerifyDelegatorIdentity(host: Option<string>, dns: Dns) returns (isValid: bool, resolved: Option<string>)
      modifies this`selector
      ensures selector == if host.Some? then host.value else old(selector)
      ensures resolved == if host.Some? then ResolvePublicKey(dns, identity, host.value) else None
      ensures isValid <==> resolved.Some? && Pem.KeyOf(resolved.value) == Some(privateKey)
    {
      if host.None? {
        return false, None;
      }
      selector := host.value;
      resolved := ResolvePublicKey(dns, identity, selector);
      isValid := resolved.Some? && Pem.KeyOf(resolved.value) == Some(privateKey);
    }

    method Init(host: Option<string>, dns: Dns) returns (ok: bool)
      modifies this
      ensures ok ==> isInitialized && publicKey.Some? && Initialised(AsDelegator(), dns)
      ensures !ok ==> publicKey == old(publicKey) && isInitialized == old(isInitialized)
      ensures ok <==> host.Some? && (identity, host.value) in dns && Pem.KeyOf(dns[(identity, host.value)]) == Some(privateKey)
    {
      var isValid, resolved := VerifyDelegatorIdentity(host, dns);
      if resolved.None? || !isValid {
        return false;
      }
      publicKey := resolved;
      isInitialized := true;
      return true;
    }

    /** `partyHost` is the host record looked up for the other party's identity. */
    method DelegateArtifact(agentId: string, agentPubKey: string, artifact: Fields, onBehalfOf: Option<(string, PemKeys)>,
                            partyHost: Option<string>, stamp: Stamp) returns (outcome: Outcome)
      ensures outcome.NotInitialised? <==> !isInitialized || publicKey.None?
      ensures outcome.IdentityNotVerified? <==> isInitialized && publicKey.Some? && onBehalfOf.Some? && partyHost.None?
      ensures outcome.Delegated? ==>
                var party := if onBehalfOf.None? then None else Some(Party(onBehalfOf.value.0, onBehalfOf.value.1, partyHost.value));
                Delegate(AsDelegator(), artifact, agentId, agentPubKey, party, stamp) == Some(outcome.artifact)
      ensures forall dns | outcome.Delegated? && Initialised(AsDelegator(), dns) && Delegatable(artifact) ::
                && ValidTransporter(outcome.artifact) && Has(outcome.artifact, "delegation")
                && (VerifyDelegation(dns, outcome.artifact).Accepted? <==>
                      && onBehalfOf.None?
                      && identity != PlainAt(artifact, "from")
                      && SignedUnder(agentPubKey, Obj(Remove(Remove(artifact, "delegation"), "signature")), SignatureOf(artifact)))
    {
      if !isInitialized || publicKey.None? {
        return NotInitialised;
      }
      var used := selector;
      if onBehalfOf.Some? {
        if partyHost.None? {
          return IdentityNotVerified;
        }
        used := partyHost.value;
      }
      var own := PemKeys(publicKey.value, privateKey);
      var signer := if onBehalfOf.Some? then onBehalfOf.value.0 else identity;
      var keys := if onBehalfOf.Some? then onBehalfOf.value.1 else own;
      var delegation := CreateDelegation(artifact, signer, keys, agentId, agentPubKey, used, stamp.delegation);
      if delegation.None? {
        return SigningFailed;
      }
      var signed := delegation.value;
      if onBehalfOf.Some? {
        var attestation := CreateAttestation(signed, identity, own, used, stamp.attestation);
        if attestation.None? {
          return SigningFailed;
        }
        signed := Put(signed, "attestation", Obj(attestation.value));
      }
      outcome := Delegated(Put(artifact, "delegation", Obj(signed)));
      ghost var party := if onBehalfOf.None? then None else Some(Party(onBehalfOf.value.0, onBehalfOf.value.1, partyHost.value));
      assert Delegate(AsDelegator(), artifact, agentId, agentPubKey, party, stamp) == Some(outcome.artifact);
      forall dns | Initialised(AsDelegator(), dns) && Delegatable(artifact) {
        DelegatedVerifiesExactly(AsDelegator(), dns, artifact, agentId, agentPubKey, party, stamp);
      }
    }
  }
}
