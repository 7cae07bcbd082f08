/** `signEncrypt` and `decryptVerify` (src/core/crypto): building a signed, optionally encrypted
    envelope and opening it. */
module Envelope {
  import opened OrderedMap
  import opened Symbolic
  import Pem

  /** What encryption is asked for and the randomness it draws; `None` is the empty option. */
  datatype Cipher = Cipher(mode: string, aesKey: nat, iv: nat)

  datatype Request = Request(
    to: string,
    receiverPem: Option<string>,   // the key the receiver's DNS record resolves to
    keys: PemKeys,                 // the sender's
    document: Option<Json>,
    rest: Fields,                  // the payload without its document
    encryption: Option<Cipher>,
    freshId: Json,
    now: Json)

  datatype Failure = BadIdentity | NoReceiverKey | BadReceiverKey | BadSenderKey

  datatype Built = Ok(payload: Fields) | Failed(failure: Failure)

  /** `identity.split('$')` with two non-empty leading parts. */
  function SplitDollar(s: string): (string, string) {
    if s == "" then ("", "")
    else if s[0] == '$' then ("", Until(s[1..]))
    else ([s[0]] + SplitDollar(s[1..]).0, SplitDollar(s[1..]).1)
  }

  function Until(s: string): string {
    if s == "" || s[0] == '$' then "" else [s[0]] + Until(s[1..])
  }

  predicate ParsesAsIdentity(s: string) {
    SplitDollar(s).0 != "" && SplitDollar(s).1 != ""
  }

  function EncryptionJson(c: Cipher, recipient: string, plain: Text): Json {
    Obj([ Entry("algorithm", Str(Raw("aes-256-gcm"))),
          Entry("encryptedKey", Str(WrappedKey(recipient, c.aesKey))),
          Entry("iv", Str(InitVector(c.iv))),
          Entry("authTag", Str(AuthTag(c.aesKey, c.iv, plain))),
          Entry("type", Str(Raw(c.mode))) ])
  }

  /** GCM is a stream mode: the empty text encrypts to the empty text. */
  function Seal(c: Cipher, plain: Text): Text {
    if plain == EMPTY then EMPTY else Sealed(c.aesKey, c.iv, plain)
  }

  /** An absent document is encrypted as the empty string. */
  function PlainText(document: Option<Json>): Text {
    if document.None? then EMPTY else Stringify(document.value)
  }

  /** `{ ...fields, [key]: value ?? fallback }` */
  function Default(fields: Fields, key: string, fallback: Json): Fields {
    if Find(fields, key).Some? && Find(fields, key).value != Null then fields else Put(fields, key, fallback)
  }

  /** The object that is signed; a document that is undefined prints as no document. */
  function DocToSign(r: Request, document: Option<Json>, encryption: Json): Fields {
    var base := Default(Default(r.rest, "id", r.freshId), "issuedAt", r.now);
    Put(if document.None? then base else Put(base, "document", document.value), "encryption", encryption)
  }

  /** A receiver and a selector: only then is encryption considered. */
  predicate Addressed(r: Request) {
    r.to != "" && Find(r.rest, "selector").Some? && Truthy(Find(r.rest, "selector").value)
  }

  predicate Encrypts(r: Request) {
    Addressed(r) && r.encryption.Some?
  }

  function Sign(fields: Fields, keys: PemKeys): Built {
    match SignPayload(Obj(fields), keys)
    case None => Failed(BadSenderKey)
    case Some(signature) => Ok(Put(fields, "signature", SignatureJson(signature)))
  }

  function SignEncrypt(r: Request): Built {
    if Addressed(r) && !ParsesAsIdentity(r.to) then Failed(BadIdentity)
    else if Addressed(r) && r.receiverPem.None? then Failed(NoReceiverKey)
    else if Encrypts(r) then
      match Pem.KeyOf(r.receiverPem.value)
      case None => Failed(BadReceiverKey)
      case Some(recipient) =>
        var plain := PlainText(r.document);
        Sign(DocToSign(r, Some(Str(Seal(r.encryption.value, plain))), EncryptionJson(r.encryption.value, recipient, plain)), r.keys)
    else Sign(DocToSign(r, r.document, Null), r.keys)
  }

  // ---------- opening ----------

  datatype OpenFailure = BadSignature(reason: Reason) | UnsupportedCipher | Unintended | CorruptText

  datatype Opened = Payload(fields: Fields) | Refused(failure: OpenFailure)

  datatype Decrypted = Data(value: Json) | Error(failure: OpenFailure)

  /** `decryptBtpPayload`: unwrap the key, authenticate and decrypt, then JSON.parse. */
  function DecryptPayload(cipherText: Text, encryption: Fields, privateKey: string): Decrypted {
    if TextAt(encryption, "algorithm") != Some(Raw("aes-256-gcm")) then Error(UnsupportedCipher)
    else
      var wrapped, iv, tag := TextAt(encryption, "encryptedKey"), TextAt(encryption, "iv"), TextAt(encryption, "authTag");
      if !(wrapped.Some? && wrapped.value.WrappedKey? && wrapped.value.recipient == privateKey) then Error(Unintended)
      else if !(cipherText.Sealed? && cipherText.aesKey == wrapped.value.aesKey && iv == Some(InitVector(cipherText.iv))
                && tag == Some(AuthTag(cipherText.aesKey, cipherText.iv, cipherText.plain))) then Error(CorruptText)
      else match Parse(cipherText.plain)
        case None => Error(CorruptText)
        case Some(value) => Data(value)
  }

  /** `isEmpty(encryption)` is false only for a non-empty object. */
  predicate EncryptionGiven(fields: Fields) {
    Find(fields, "encryption").Some? && Find(fields, "encryption").value.Obj? && Find(fields, "encryption").value.fields != []
  }

  predicate NeedsDecryption(fields: Fields, receiverKey: Option<string>) {
    EncryptionGiven(fields) && receiverKey.Some? && TextAt(fields, "document").Some? && TextAt(fields, "document") != Some(EMPTY)
  }

  /** What the signature is checked against: everything but itself and the delegation. */
  function SignedPart(payload: Fields): Fields {
    Remove(Remove(payload, "signature"), "delegation")
  }

  function DecryptVerify(senderPem: string, payload: Fields, receiverKey: Option<string>): Opened
    requires ReadSignature(Find(payload, "signature")).Some?
  {
    var rest := SignedPart(payload);
    var verdict := VerifySignature(Obj(rest), ReadSignature(Find(payload, "signature")).value, senderPem);
    if verdict.Rejected? then Refused(BadSignature(verdict.reason))
    else
      var decrypted :=
        if NeedsDecryption(rest, receiverKey) then
          DecryptPayload(TextAt(rest, "document").value, Find(rest, "encryption").value.fields, receiverKey.value)
        else Data(if Has(rest, "document") then Find(rest, "document").value else Null);
      if decrypted.Error? then Refused(decrypted.failure)
      else
        var signed := Put(rest, "signature", Find(payload, "signature").value);
        var out := if Truthy(decrypted.value) then Put(signed, "document", decrypted.value) else signed;
        if Has(payload, "delegation") && Truthy(Find(payload, "delegation").value) then
          Payload(Put(out, "delegation", Find(payload, "delegation").value))
        else Payload(out)
  }

  // ---------- conditions ----------

  /** Payload keys that the envelope itself uses. */
  predicate KeepsOwnNames(r: Request) {
    !Has(r.rest, "signature") && !Has(r.rest, "delegation") && !Has(r.rest, "document")
  }

  /** The documents an encrypted envelope gives back. */
  predicate Restorable(document: Option<Json>) {
    document.Some? && if document.value.Str? then document.value == Str(EMPTY) else Truthy(document.value)
  }

  // ---------- helper lemmas ----------

  lemma Names()
    ensures "id" != "signature" && "id" != "delegation" && "issuedAt" != "signature" && "issuedAt" != "delegation"
    ensures "document" != "signature" && "document" != "delegation" && "encryption" != "signature" && "encryption" != "delegation"
    ensures "document" != "encryption" && "signature" != "delegation" && "document" != "id" && "document" != "issuedAt"
  {
    assert |"id"| == 2 && |"issuedAt"| == 8 && |"signature"| == 9 && |"delegation"| == 10 && |"document"| == 8 && |"encryption"| == 10;
    assert "encryption"[0] != "delegation"[0] && "document"[0] != "issuedAt"[0];
  }

  lemma HasDefault(fields: Fields, key: string, fallback: Json, other: string)
    requires other != key
    ensures Find(Default(fields, key, fallback), other) == Find(fields, other)
  {
    FindPut(fields, key, fallback, other);
  }

  /** Own names are in the signed object exactly when the payload brought them. */
  lemma DocToSignHas(r: Request, document: Option<Json>, encryption: Json)
    requires !Has(r.rest, "document")
    ensures var d := DocToSign(r, document, encryption);
            && Has(d, "signature") == Has(r.rest, "signature") && Has(d, "delegation") == Has(r.rest, "delegation")
            && Find(d, "document") == document && Find(d, "encryption") == Some(encryption)
  {
    Names();
    var base1 := Default(r.rest, "id", r.freshId);
    var base := Default(base1, "issuedAt", r.now);
    forall key: string | key == "signature" || key == "delegation" || key == "document"
      ensures Find(base, key) == Find(r.rest, key)
    {
      HasDefault(r.rest, "id", r.freshId, key);
      HasDefault(base1, "issuedAt", r.now, key);
    }
    var mid := if document.None? then base else Put(base, "document", document.value);
    forall key: string | key == "signature" || key == "delegation" || key == "document"
      ensures Find(mid, key) == if key == "document" then document else Find(r.rest, key)
    {
      if document.Some? {
        FindPut(base, "document", document.value, key);
      }
    }
    FindPut(mid, "encryption", encryption, "signature");
    FindPut(mid, "encryption", encryption, "delegation");
    FindPut(mid, "encryption", encryption, "document");
    FindPut(mid, "encryption", encryption, "encryption");
  }

  /** Taking the names out again gives the signed object exactly if it had neither. */
  lemma SignedPartOf(fields: Fields, signature: Json)
    ensures SignedPart(Put(fields, "signature", signature)) == fields <==> !Has(fields, "signature") && !Has(fields, "delegation")
    ensures Find(Put(fields, "signature", signature), "signature") == Some(signature)
  {
    Names();
    FindPut(fields, "signature", signature, "signature");
    RemovePut(fields, "signature", signature);
    var out := Remove(Remove(fields, "signature"), "delegation");
    if !Has(fields, "signature") && !Has(fields, "delegation") {
      RemoveAbsent(fields, "signature");
      RemoveAbsent(fields, "delegation");
    } else {
      FindRemove(Remove(fields, "signature"), "delegation", "delegation");
      FindRemove(Remove(fields, "signature"), "delegation", "signature");
      FindRemove(fields, "signature", "signature");
    }
  }

  lemma SealOpens(c: Cipher, recipient: string, plain: Text)
    requires plain != EMPTY
    ensures DecryptPayload(Seal(c, plain), EncryptionJson(c, recipient, plain).fields, recipient)
         == if plain.Printed? then Data(plain.value) else Error(CorruptText)
  {
    var f := EncryptionJson(c, recipient, plain).fields;
    assert |"algorithm"| == 9 && |"encryptedKey"| == 12 && |"iv"| == 2 && |"authTag"| == 7;
    var f1, f2, f3 := f[1..], f[2..], f[3..];
    assert f1[1..] == f2 && f2[1..] == f3;
    assert Find(f, "algorithm") == Some(f[0].value);
    assert Find(f, "encryptedKey") == Find(f1, "encryptedKey") == Some(f[1].value);
    assert Find(f, "iv") == Find(f1, "iv") == Find(f2, "iv") == Some(f[2].value);
    assert Find(f, "authTag") == Find(f1, "authTag") == Find(f2, "authTag") == Find(f3, "authTag") == Some(f[3].value);
  }

  function Nesting(value: Json): nat {
    if value.Str? && value.text.Printed? then 1 + Nesting(value.text.value) else 0
  }

  lemma NoTextPrintsItself(value: Json)
    ensures value != Str(Printed(value))
  {
    assert Nesting(Str(Printed(value))) == 1 + Nesting(value);
  }

  // ---------- main results ----------

  /** The signature of a built envelope verifies exactly when the payload used neither of the
      envelope's own names. */
  lemma EnvelopeVerifiesExactly(r: Request)
    requires MatchingPair(r.keys) && SignEncrypt(r).Ok? && !Has(r.rest, "document")
    ensures var payload := SignEncrypt(r).payload;
            && ReadSignature(Find(payload, "signature")).Some?
            && (VerifySignature(Obj(SignedPart(payload)), ReadSignature(Find(payload, "signature")).value, r.keys.publicKey).Accepted?
                <==> !Has(r.rest, "signature") && !Has(r.rest, "delegation"))
  {
    var d := Signed(r);
    var signature := SignPayload(Obj(d), r.keys).value;
    SignedPartOf(d, SignatureJson(signature));
    ReadSignatureJson(signature);
    SignedVerifies(Obj(d), r.keys, Obj(SignedPart(SignEncrypt(r).payload)), r.keys.publicKey);
    SignedHas(r);
  }

  /** The object `SignEncrypt` signs when it succeeds. */
  function Signed(r: Request): Fields
    requires SignEncrypt(r).Ok?
  {
    if Encrypts(r) then
      var plain := PlainText(r.document);
      DocToSign(r, Some(Str(Seal(r.encryption.value, plain))),
                EncryptionJson(r.encryption.value, Pem.KeyOf(r.receiverPem.value).value, plain))
    else DocToSign(r, r.document, Null)
  }

  lemma SignedHas(r: Request)
    requires SignEncrypt(r).Ok? && !Has(r.rest, "document")
    ensures Has(Signed(r), "signature") == Has(r.rest, "signature") && Has(Signed(r), "delegation") == Has(r.rest, "delegation")
    ensures Encrypts(r) ==>
              && Find(Signed(r), "document") == Some(Str(Seal(r.encryption.value, PlainText(r.document))))
              && Find(Signed(r), "encryption")
                   == Some(EncryptionJson(r.encryption.value, Pem.KeyOf(r.receiverPem.value).value, PlainText(r.document)))
    ensures !Encrypts(r) ==> Find(Signed(r), "document") == r.document && Find(Signed(r), "encryption") == Some(Null)
  {
    if Encrypts(r) {
      var plain := PlainText(r.document);
      DocToSignHas(r, Some(Str(Seal(r.encryption.value, plain))),
                   EncryptionJson(r.encryption.value, Pem.KeyOf(r.receiverPem.value).value, plain));
    } else {
      DocToSignHas(r, r.document, Null);
    }
  }

  /** The signed envelope opened with the matching keys, before any decryption. */
  lemma OpensWithoutCipher(r: Request, receiverKey: Option<string>)
    requires MatchingPair(r.keys) && SignEncrypt(r).Ok? && KeepsOwnNames(r)
    ensures ReadSignature(Find(SignEncrypt(r).payload, "signature")).Some?
    ensures SignedPart(SignEncrypt(r).payload) == Signed(r)
    ensures VerifySignature(Obj(Signed(r)), ReadSignature(Find(SignEncrypt(r).payload, "signature")).value, r.keys.publicKey).Accepted?
    ensures Put(Signed(r), "signature", Find(SignEncrypt(r).payload, "signature").value) == SignEncrypt(r).payload
    ensures !Has(SignEncrypt(r).payload, "delegation")
    ensures Find(SignEncrypt(r).payload, "document") == Find(Signed(r), "document")
  {
    EnvelopeVerifiesExactly(r);
    SignedHas(r);
    Names();
    var signature := SignatureJson(SignPayload(Obj(Signed(r)), r.keys).value);
    SignedPartOf(Signed(r), signature);
    FindPut(Signed(r), "signature", signature, "delegation");
    FindPut(Signed(r), "signature", signature, "document");
  }

  /** A receiver is named, a selector given and encryption asked for, by the request's own fields. */
  predicate AsksEncryption(r: Request) {
    r.to != "" && r.encryption.Some?
    && Find(r.rest, "selector").Some? && Find(r.rest, "selector").value !in [Null, Bool(false), Num(0), Str(Raw(""))]
  }

  lemma AskedIsDone(r: Request)
    ensures Encrypts(r) <==> AsksEncryption(r)
  {
    if Find(r.rest, "selector").Some? {
      TruthyExactly(Find(r.rest, "selector").value);
    }
  }

  /** The text that is to be kept secret. */
  function Secret(document: Option<Json>): Text {
    match document
    case None => Raw("")
    case Some(Str(text)) => text
    case Some(value) => Printed(value)
  }

  lemma EncryptionReads(c: Cipher, recipient: string, plain: Text)
    ensures var e := EncryptionJson(c, recipient, plain).fields;
            && TextAt(e, "algorithm") == Some(Raw("aes-256-gcm")) && TextAt(e, "encryptedKey") == Some(WrappedKey(recipient, c.aesKey))
            && TextAt(e, "iv") == Some(InitVector(c.iv)) && TextAt(e, "authTag") == Some(AuthTag(c.aesKey, c.iv, plain))
            && TextAt(e, "type") == Some(Raw(c.mode))
  {
    var f := EncryptionJson(c, recipient, plain).fields;
    assert |"algorithm"| == 9 && |"encryptedKey"| == 12 && |"iv"| == 2 && |"authTag"| == 7 && |"type"| == 4;
    var f1, f2, f3, f4 := f[1..], f[2..], f[3..], f[4..];
    assert f1[1..] == f2 && f2[1..] == f3 && f3[1..] == f4;
    assert Find(f, "encryptedKey") == Find(f1, "encryptedKey") == Some(f[1].value);
    assert Find(f, "iv") == Find(f1, "iv") == Find(f2, "iv") == Some(f[2].value);
    assert Find(f, "authTag") == Find(f1, "authTag") == Find(f2, "authTag") == Find(f3, "authTag") == Some(f[3].value);
    assert Find(f, "type") == Find(f1, "type") == Find(f2, "type") == Find(f3, "type") == Find(f4, "type") == Some(f[4].value);
  }

  /** A document is sealed, under this request's key and for this receiver, exactly when the request
      asks for it; otherwise it travels as it is. */
  lemma EncryptsExactlyWhenAsked(r: Request)
    requires SignEncrypt(r).Ok? && !Has(r.rest, "document")
    ensures var payload := SignEncrypt(r).payload;
            var document, encryption := Find(payload, "document"), Find(payload, "encryption");
            if AsksEncryption(r) then
              var c, plain := r.encryption.value, Secret(r.document);
              && r.receiverPem.Some? && Pem.KeyOf(r.receiverPem.value).Some?
              && document == Some(Str(if plain == Raw("") then Raw("") else Sealed(c.aesKey, c.iv, plain)))
              && encryption.Some? && encryption.value.Obj?
              && TextAt(encryption.value.fields, "algorithm") == Some(Raw("aes-256-gcm"))
              && TextAt(encryption.value.fields, "encryptedKey") == Some(WrappedKey(Pem.KeyOf(r.receiverPem.value).value, c.aesKey))
              && TextAt(encryption.value.fields, "iv") == Some(InitVector(c.iv))
              && TextAt(encryption.value.fields, "authTag") == Some(AuthTag(c.aesKey, c.iv, plain))
              && TextAt(encryption.value.fields, "type") == Some(Raw(c.mode))
            else document == r.document && encryption == Some(Null)
  {
    AskedIsDone(r);
    SignedHas(r);
    Names();
    var signature := SignatureJson(SignPayload(Obj(Signed(r)), r.keys).value);
    FindPut(Signed(r), "signature", signature, "document");
    FindPut(Signed(r), "signature", signature, "encryption");
    if AsksEncryption(r) {
      EncryptionReads(r.encryption.value, Pem.KeyOf(r.receiverPem.value).value, PlainText(r.document));
    }
  }

  /** An envelope is built exactly if the sender's key can be read and, with a receiver and a
      selector given, the receiver parses, has a key, and one that can be read if it is needed. */
  lemma BuiltExactly(r: Request)
    ensures SignEncrypt(r).Ok? <==>
              && Pem.KeyOf(r.keys.publicKey).Some?
              && (r.to != "" && Find(r.rest, "selector").Some?
                  && Find(r.rest, "selector").value !in [Null, Bool(false), Num(0), Str(Raw(""))]
                  ==> && ParsesAsIdentity(r.to) && r.receiverPem.Some?
                      && (r.encryption.Some? ==> Pem.KeyOf(r.receiverPem.value).Some?))
  {
    if Find(r.rest, "selector").Some? {
      TruthyExactly(Find(r.rest, "selector").value);
    }
  }

  lemma {:induction false} UntilSplits(s: string) returns (rest: string)
    ensures '$' !in Until(s) && (s == Until(s) || s == Until(s) + "$" + rest)
  {
    rest := "";
    if s != "" && s[0] == '$' {
      rest := s[1..];
      assert s == "" + "$" + rest;
    } else if s != "" {
      rest := UntilSplits(s[1..]);
      assert s == [s[0]] + s[1..];
      assert [s[0]] + (Until(s[1..]) + "$" + rest) == ([s[0]] + Until(s[1..])) + "$" + rest;
    }
  }

  lemma {:induction false} SplitOf(account: string, after: string)
    requires '$' !in account
    ensures SplitDollar(account + "$" + after) == (account, Until(after))
  {
    var s := account + "$" + after;
    if account == "" {
      assert s[0] == '$' && s[1..] == after;
    } else {
      assert s[0] == account[0] && s[1..] == account[1..] + "$" + after;
      SplitOf(account[1..], after);
      assert account == [account[0]] + account[1..];
    }
  }

  lemma {:induction false} SplitParts(s: string) returns (after: string)
    ensures '$' !in SplitDollar(s).0
    ensures SplitDollar(s).1 != "" ==> s == SplitDollar(s).0 + "$" + after && SplitDollar(s).1 == Until(after)
  {
    after := "";
    if s != "" && s[0] == '$' {
      after := s[1..];
      assert s == "" + "$" + after;
    } else if s != "" {
      after := SplitParts(s[1..]);
      assert s == [s[0]] + s[1..];
      assert [s[0]] + (SplitDollar(s[1..]).0 + "$" + after) == ([s[0]] + SplitDollar(s[1..]).0) + "$" + after;
    }
  }

  lemma {:induction false} UntilOf(domain: string, rest: string)
    requires '$' !in domain
    ensures Until(domain) == domain && Until(domain + "$" + rest) == domain
  {
    var s := domain + "$" + rest;
    if domain == "" {
      assert s[0] == '$';
    } else {
      assert s[0] == domain[0] && s[1..] == domain[1..] + "$" + rest;
      UntilOf(domain[1..], rest);
      assert domain == [domain[0]] + domain[1..];
    }
  }

  /** An account and a domain with a dollar sign between them, and perhaps a second one with more. */
  predicate IsIdentity(s: string, account: string, domain: string, rest: string) {
    && account != "" && domain != "" && '$' !in account && '$' !in domain
    && (s == account + "$" + domain || s == account + "$" + (domain + "$" + rest))
  }

  /** Exactly such texts parse; whatever a second dollar sign brings is not looked at. */
  lemma ParsesExactly(s: string)
    ensures ParsesAsIdentity(s) <==> exists account, domain, rest :: IsIdentity(s, account, domain, rest)
  {
    if ParsesAsIdentity(s) {
      var after := SplitParts(s);
      var rest := UntilSplits(after);
      assert IsIdentity(s, SplitDollar(s).0, Until(after), rest);
    }
    forall account, domain, rest | IsIdentity(s, account, domain, rest)
      ensures ParsesAsIdentity(s)
    {
      UntilOf(domain, rest);
      SplitOf(account, domain);
      SplitOf(account, domain + "$" + rest);
    }
  }

  /** Everything else in the payload travels as given; a missing id and time are filled in. */
  lemma EnvelopeKeeps(r: Request, key: string)
    requires SignEncrypt(r).Ok? && key != "document" && key != "encryption" && key != "signature"
    ensures var given := Find(r.rest, key);
            Find(SignEncrypt(r).payload, key) ==
              if key == "id" && (given.None? || given.value == Null) then Some(r.freshId)
              else if key == "issuedAt" && (given.None? || given.value == Null) then Some(r.now)
              else given
  {
    var signature := SignatureJson(SignPayload(Obj(Signed(r)), r.keys).value);
    FindPut(Signed(r), "signature", signature, key);
    if Encrypts(r) {
      var plain := PlainText(r.document);
      BaseKeeps(r, Some(Str(Seal(r.encryption.value, plain))),
                EncryptionJson(r.encryption.value, Pem.KeyOf(r.receiverPem.value).value, plain), key);
    } else {
      BaseKeeps(r, r.document, Null, key);
    }
  }

  lemma BaseKeeps(r: Request, document: Option<Json>, encryption: Json, key: string)
    requires key != "document" && key != "encryption"
    ensures Find(DocToSign(r, document, encryption), key) == Find(Default(Default(r.rest, "id", r.freshId), "issuedAt", r.now), key)
    ensures var given := Find(r.rest, key);
            Find(DocToSign(r, document, encryption), key) ==
              if key == "id" && (given.None? || given.value == Null) then Some(r.freshId)
              else if key == "issuedAt" && (given.None? || given.value == Null) then Some(r.now)
              else given
  {
    assert |"id"| != |"issuedAt"|;
    var base1 := Default(r.rest, "id", r.freshId);
    var base := Default(base1, "issuedAt", r.now);
    FindPut(r.rest, "id", r.freshId, key);
    FindPut(base1, "issuedAt", r.now, key);
    var mid := if document.None? then base else Put(base, "document", document.value);
    if document.Some? {
      FindPut(base, "document", document.value, key);
    }
    FindPut(mid, "encryption", encryption, key);
  }

  /** Unencrypted, opening gives the envelope back unchanged, whatever the document. */
  lemma PlainRoundTrip(r: Request, receiverKey: Option<string>)
    requires MatchingPair(r.keys) && SignEncrypt(r).Ok? && KeepsOwnNames(r) && !AsksEncryption(r)
    ensures ReadSignature(Find(SignEncrypt(r).payload, "signature")).Some?
    ensures DecryptVerify(r.keys.publicKey, SignEncrypt(r).payload, receiverKey) == Payload(SignEncrypt(r).payload)
    ensures Find(SignEncrypt(r).payload, "document") == r.document
  {
    AskedIsDone(r);
    OpensWithoutCipher(r, receiverKey);
    SignedHas(r);
    var payload := SignEncrypt(r).payload;
    if r.document.Some? {
      PutSame(payload, "document", r.document.value);
    }
  }

  lemma OpenedWith(senderPem: string, payload: Fields, receiverKey: string, data: Decrypted)
    requires ReadSignature(Find(payload, "signature")).Some? && !Has(payload, "delegation")
    requires VerifySignature(Obj(SignedPart(payload)), ReadSignature(Find(payload, "signature")).value, senderPem).Accepted?
    requires NeedsDecryption(SignedPart(payload), Some(receiverKey))
    requires data == DecryptPayload(TextAt(SignedPart(payload), "document").value,
                                    Find(SignedPart(payload), "encryption").value.fields, receiverKey)
    ensures var signed := Put(SignedPart(payload), "signature", Find(payload, "signature").value);
            DecryptVerify(senderPem, payload, Some(receiverKey)) ==
              if data.Error? then Refused(data.failure)
              else Payload(if Truthy(data.value) then Put(signed, "document", data.value) else signed)
  {
  }

  /** A non-empty text sealed for a receiver is opened by that receiver and parsed. */
  lemma SealedIsOpened(r: Request)
    requires MatchingPair(r.keys) && SignEncrypt(r).Ok? && KeepsOwnNames(r) && Encrypts(r) && PlainText(r.document) != EMPTY
    ensures ReadSignature(Find(SignEncrypt(r).payload, "signature")).Some?
    ensures var payload, parsed := SignEncrypt(r).payload, Parse(PlainText(r.document));
            DecryptVerify(r.keys.publicKey, payload, Pem.KeyOf(r.receiverPem.value)) ==
              if parsed.None? then Refused(CorruptText)
              else Payload(if Truthy(parsed.value) then Put(payload, "document", parsed.value) else payload)
  {
    var recipient := Pem.KeyOf(r.receiverPem.value);
    OpensWithoutCipher(r, recipient);
    SignedHas(r);
    SealOpens(r.encryption.value, recipient.value, PlainText(r.document));
    assert NeedsDecryption(Signed(r), recipient);
    var parsed := Parse(PlainText(r.document));
    OpenedWith(r.keys.publicKey, SignEncrypt(r).payload, recipient.value,
               if parsed.None? then Error(CorruptText) else Data(parsed.value));
  }

  /** Encrypted, the receiver gets the document back exactly when it is a truthy value other than
      a string, or the empty string; nothing but the document differs from the envelope. */
  lemma EncryptedRoundTripExactly(r: Request)
    requires MatchingPair(r.keys) && SignEncrypt(r).Ok? && KeepsOwnNames(r) && AsksEncryption(r)
    ensures ReadSignature(Find(SignEncrypt(r).payload, "signature")).Some?
    ensures r.receiverPem.Some?
    ensures var out := DecryptVerify(r.keys.publicKey, SignEncrypt(r).payload, Pem.KeyOf(r.receiverPem.value));
            && (Restorable(r.document) <==> out.Payload? && Find(out.fields, "document") == r.document)
            && (Restorable(r.document) ==> out.fields == Put(SignEncrypt(r).payload, "document", r.document.value))
  {
    AskedIsDone(r);
    var recipient := Pem.KeyOf(r.receiverPem.value);
    OpensWithoutCipher(r, recipient);
    SignedHas(r);
    var c, plain, payload := r.encryption.value, PlainText(r.document), SignEncrypt(r).payload;
    var sealed := Str(Seal(c, plain));
    assert Find(payload, "document") == Some(sealed);
    if plain == EMPTY {
      PutSame(payload, "document", sealed);
    } else {
      SealedIsOpened(r);
      if plain.Printed? {
        FindPut(payload, "document", plain.value, "document");
        NoTextPrintsItself(plain.value);
      }
    }
  }

  /** Nobody else opens it: another key is refused, and without a key the document stays sealed. */
  lemma OnlyReceiverOpens(r: Request, key: string)
    requires MatchingPair(r.keys) && SignEncrypt(r).Ok? && KeepsOwnNames(r) && AsksEncryption(r) && Secret(r.document) != Raw("")
    requires Pem.KeyOf(r.receiverPem.value) != Some(key)
    ensures ReadSignature(Find(SignEncrypt(r).payload, "signature")).Some?
    ensures DecryptVerify(r.keys.publicKey, SignEncrypt(r).payload, Some(key)) == Refused(Unintended)
    ensures DecryptVerify(r.keys.publicKey, SignEncrypt(r).payload, None) == Payload(SignEncrypt(r).payload)
  {
    AskedIsDone(r);
    OpensWithoutCipher(r, Some(key));
    SignedHas(r);
    var c, plain, payload := r.encryption.value, PlainText(r.document), SignEncrypt(r).payload;
    EncryptionReads(c, Pem.KeyOf(r.receiverPem.value).value, plain);
    OpenedWith(r.keys.publicKey, payload, key, Error(Unintended));
    PutSame(payload, "document", Str(Seal(c, plain)));
  }

  /** An envelope is refused for its signature exactly if the holder of the sender's key did not
      sign everything in it but signature and delegation. */
  lemma RefusedExactlyUnsigned(senderPem: string, payload: Fields, receiverKey: Option<string>)
    requires ReadSignature(Find(payload, "signature")).Some?
    ensures var out, key := DecryptVerify(senderPem, payload, receiverKey), Pem.KeyOf(senderPem);
            var message := Printed(Obj(Remove(Remove(payload, "signature"), "delegation")));
            (out.Refused? && out.failure.BadSignature?) <==>
              !(key.Some? && ReadSignature(Find(payload, "signature"))
                               == Some(Signature(SignatureBy(key.value, message), Fingerprint(key.value))))
  {
  }

  lemma SignedPartIgnores(payload: Fields, delegation: Json)
    requires !Has(payload, "delegation")
    ensures var delegated := Put(payload, "delegation", delegation);
            && SignedPart(delegated) == SignedPart(payload)
            && Find(delegated, "signature") == Find(payload, "signature") && Find(delegated, "delegation") == Some(delegation)
  {
    Names();
    FindPut(payload, "delegation", delegation, "signature");
    FindPut(payload, "delegation", delegation, "delegation");
    RemovePutOther(payload, "delegation", delegation, "signature");
    RemovePut(Remove(payload, "signature"), "delegation", delegation);
  }

  /** Adding a delegation to any envelope changes nothing but that field: the same refusals, and
      the same opened payload with the delegation in it. */
  lemma DelegationIsIgnored(senderPem: string, payload: Fields, receiverKey: Option<string>, delegation: Fields)
    requires ReadSignature(Find(payload, "signature")).Some? && !Has(payload, "delegation")
    ensures var delegated := Put(payload, "delegation", Obj(delegation));
            && ReadSignature(Find(delegated, "signature")).Some?
            && DecryptVerify(senderPem, delegated, receiverKey) ==
                 match DecryptVerify(senderPem, payload, receiverKey)
                 case Refused(failure) => Refused(failure)
                 case Payload(fields) => Payload(Put(fields, "delegation", Obj(delegation)))
  {
    SignedPartIgnores(payload, Obj(delegation));
  }

  /** So a delegated envelope round-trips like the envelope it delegates. */
  lemma DelegatedRoundTrip(r: Request, delegation: Fields)
    requires MatchingPair(r.keys) && SignEncrypt(r).Ok? && KeepsOwnNames(r)
    requires AsksEncryption(r) ==> Restorable(r.document)
    ensures var receiverKey := if r.receiverPem.Some? then Pem.KeyOf(r.receiverPem.value) else None;
            var delegated := Put(SignEncrypt(r).payload, "delegation", Obj(delegation));
            && ReadSignature(Find(delegated, "signature")).Some?
            && DecryptVerify(r.keys.publicKey, delegated, receiverKey).Payload?
            && Find(DecryptVerify(r.keys.publicKey, delegated, receiverKey).fields, "document") == r.document
  {
    var receiverKey := if r.receiverPem.Some? then Pem.KeyOf(r.receiverPem.value) else None;
    var payload := SignEncrypt(r).payload;
    OpensWithoutCipher(r, receiverKey);
    DelegationIsIgnored(r.keys.publicKey, payload, receiverKey, delegation);
    if AsksEncryption(r) {
      EncryptedRoundTripExactly(r);
    } else {
      PlainRoundTrip(r, receiverKey);
    }
    Names();
    FindPut(DecryptVerify(r.keys.publicKey, payload, receiverKey).fields, "delegation", Obj(delegation), "document");
  }
}
