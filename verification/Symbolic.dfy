/** The shared symbolic layer: JSON values with ordered object keys, texts as free terms, and
    ideal cryptography over them. A key is named by the base64 of its public half; a private
    key is the same name. `Raw` stands for the texts that are not the print of a JSON value. */
module Symbolic {
  import opened OrderedMap
  import Pem

  datatype Text =
    | Raw(chars: string)
    | Printed(value: Json)
    | SignatureBy(key: string, message: Text)
    | Fingerprint(key: string)
    | Sealed(aesKey: nat, iv: nat, plain: Text)
    | WrappedKey(recipient: string, aesKey: nat)
    | AuthTag(aesKey: nat, iv: nat, plain: Text)
    | InitVector(iv: nat)

  datatype Json =
    | Null
    | Bool(b: bool)
    | Num(n: int)
    | Str(text: Text)
    | Arr(items: seq<Json>)
    | Obj(fields: Fields)

  /** A JavaScript object: own keys in insertion order. */
  type Fields = seq<Entry<Json>>

  const EMPTY := Raw("")

  /** `typeof payload !== 'string' ? JSON.stringify(payload) : payload` */
  function Stringify(payload: Json): Text {
    match payload
    case Str(text) => text
    case _ => Printed(payload)
  }

  /** JSON.parse; None where it throws. */
  function Parse(text: Text): Option<Json> {
    if text.Printed? then Some(text.value) else None
  }

  predicate Truthy(value: Json) {
    match value
    case Null => false
    case Bool(b) => b
    case Num(n) => n != 0
    case Str(text) => text != EMPTY
    case Arr(_) => true
    case Obj(_) => true
  }

  /** The falsy values are these four; an absent one is the caller's to treat. */
  lemma TruthyExactly(value: Json)
    ensures Truthy(value) <==> value != Null && value != Bool(false) && value != Num(0) && value != Str(Raw(""))
  {
  }

  /** The signature object that travels in an artifact. */
  datatype Signature = Signature(value: Text, fingerprint: Text)

  function SignatureJson(s: Signature): Json {
    Obj([Entry("algorithmHash", Str(Raw("sha256"))), Entry("value", Str(s.value)), Entry("fingerprint", Str(s.fingerprint))])
  }

  function TextAt(fields: Fields, key: string): Option<Text> {
    var value: Option<Json> := Find(fields, key);
    if value.Some? && value.value.Str? then Some(value.value.text) else None
  }

  /** A field read as a plain string, "" when it is not one. */
  function PlainAt(fields: Fields, key: string): string {
    if IsPlainAt(fields, key) then TextAt(fields, key).value.chars else ""
  }

  predicate IsPlainAt(fields: Fields, key: string) {
    TextAt(fields, key).Some? && TextAt(fields, key).value.Raw?
  }

  /** A schema-checked signature value; None where the schema refuses it. */
  function ReadSignature(value: Option<Json>): Option<Signature> {
    if value.Some? && value.value.Obj? then
      var fields := value.value.fields;
      var v, f := TextAt(fields, "value"), TextAt(fields, "fingerprint");
      if TextAt(fields, "algorithmHash") == Some(Raw("sha256")) && v.Some? && f.Some? then Some(Signature(v.value, f.value))
      else None
    else None
  }

  lemma ReadSignatureJson(s: Signature)
    ensures ReadSignature(Some(SignatureJson(s))) == Some(s)
  {
    var fields := SignatureJson(s).fields;
    assert |"algorithmHash"| != |"value"| && |"fingerprint"| != |"value"|;
    assert "algorithmHash"[0] != "fingerprint"[0];
    assert Find(fields, "value") == Find(fields[1..], "value") == Some(Str(s.value));
    assert Find(fields, "fingerprint") == Find(fields[1..], "fingerprint") == Find(fields[1..][1..], "fingerprint");
    assert fields[1..][1..][0].key == "fingerprint";
  }

  // ---------- ideal primitives (src/core/crypto/index.ts) ----------

  /** `getFingerprintFromPem`: the hash of the DER, None where it throws. */
  function FingerprintOf(pem: string): Option<Text> {
    match Pem.KeyOf(pem)
    case Some(key) => Some(Fingerprint(key))
    case None => None
  }

  datatype PemKeys = PemKeys(publicKey: string, privateKey: string)

  /** `signBtpPayload`: the value is made with the private key, the fingerprint from the
      public PEM; None where that PEM is refused. */
  function SignPayload(payload: Json, keys: PemKeys): Option<Signature> {
    match FingerprintOf(keys.publicKey)
    case Some(f) => Some(Signature(SignatureBy(keys.privateKey, Stringify(payload)), f))
    case None => None
  }

  datatype Verdict = Accepted | Rejected(reason: Reason)

  datatype Reason =
    | SignatureMismatch
    | SignatureVerification
    | KeyNotResolved
    | DelegationInvalid
    | DelegationSignature
    | AttestationVerification

  /** `verifySignature` of the crypto module: fingerprint first, then the signature itself. */
  function VerifySignature(payload: Json, signature: Signature, senderPem: string): Verdict {
    var fingerprint := FingerprintOf(senderPem);
    if fingerprint != Some(signature.fingerprint) then Rejected(SignatureMismatch)
    else if signature.value == SignatureBy(Pem.KeyOf(senderPem).value, Stringify(payload)) then Accepted
    else Rejected(SignatureVerification)
  }

  /** A foreign fingerprint is told before a wrong signature. */
  lemma RejectedExactly(payload: Json, signature: Signature, pem: string)
    ensures var named := Pem.KeyOf(pem).Some? && signature.fingerprint == Fingerprint(Pem.KeyOf(pem).value);
            var verdict := VerifySignature(payload, signature, pem);
            && (verdict == Rejected(SignatureMismatch) <==> !named)
            && (verdict == Rejected(SignatureVerification) <==>
                  named && signature.value != SignatureBy(Pem.KeyOf(pem).value, Stringify(payload)))
  {
  }

  predicate MatchingPair(keys: PemKeys) {
    Pem.KeyOf(keys.publicKey) == Some(keys.privateKey)
  }

  /** Unforgeability: what a matching pair signs verifies under a PEM exactly when the PEM holds
      that key and the message is the signed one. */
  lemma SignedVerifies(payload: Json, keys: PemKeys, message: Json, pem: string)
    requires MatchingPair(keys)
    ensures SignPayload(payload, keys).Some?
    ensures VerifySignature(message, SignPayload(payload, keys).value, pem).Accepted?
       <==> Pem.KeyOf(pem) == Some(keys.privateKey) && Stringify(message) == Stringify(payload)
  {
  }
}
