# Verified model of the BTPS SDK

BTPS is a trust-gated message protocol: an artifact sent to a server reaches its listeners only
if its signature verifies and a trust record admits it. This project models the stateful parts of
the TypeScript SDK in Dafny and proves what they guarantee over whole runs. `dafny verify
dfyconfig.toml` checks everything.

Code that updates fields is a class here; each method is proved against a function on values, and
the theorems are about that function, over every run. Where the code does not do what its
documentation or its evident purpose promises, the code is modelled as it is, and a theorem says
exactly when the promise is met.

| module | what it models |
|---|---|
| `OrderedMap`, `Symbolic`, `Pem` | insertion-ordered maps; JSON as terms with ideal cryptography over them; the concrete PEM text functions |
| `Trust`, `JsonTrustStore` | admission rules and identifiers; the write-back cache over a JSON file |
| `TokenStore`, `Authentication` | tokens with expiry; agents, refresh-token chains, key rotation |
| `Verification`, `Delegation`, `Envelope` | the server's two judgements; producing delegated artifacts; signed and encrypted envelopes |
| `Connection`, `MiddlewareManager`, `RateLimiter` | the per-connection protocol step by step; middleware order; the rate limiter |
| `Client`, `SessionStore` | the client's retry machine; sessions with an identity index |

## The symbolic layer

A key is named by the base64 of its public half, and a private key by the name of the public key
it belongs to. Texts are free terms, so printing is injective, a signature can be made only with
its key, sealing and opening are inverse and the hash has no collisions. The trust identifier is
the hashed text itself, lower-cased. Random values (tokens, agent ids, AES keys) and clock
readings are parameters; where a theorem needs a random value to be fresh or the clock not to go
back, it says so in its `requires` (`Admissible`, `Timed`, `ClockFrom`, `ClockTo`). Nothing is asked of
attempts that are refused.

## What the code does differently from what one might expect

- Deleting the last record of the trust store and then reading anything before the debounced
  flush brings the record back (`DeletedRecordReturns`); `StepRefinesExactly` gives the exact guard.
- `reloadIfChanged` overwrites the file time that the flush inside it just recorded, which costs
  one more reload and nothing else (`ExtraReloadSettles`).
- A patch that changes `id` breaks the tie between key and record (`UpdateKeepsTieExactly`).
- `delegateArtifact` with `onBehalfOf` never yields an artifact the server accepts
  (`OnBehalfNeverVerifies`), because the attestation is attached after the delegation was signed.
- An encrypted string or an encrypted falsy document does not come back from `decryptVerify`
  (`EncryptedRoundTripExactly`), and a payload that already uses `signature` or `delegation`
  produces an envelope that does not verify (`EnvelopeVerifiesExactly`).
- Middleware registered after `onError` never runs: the socket is torn down just before it
  (`AfterErrorNeverRuns`).
- A reissue whose trust-store update fails leaves the key in use in its own record's history,
  and that history stays irregular until the record is forgotten (`FailedRotationHappens`,
  `ReachableHistoryExactly`); key and fingerprint agree all the same (`ReachableKeysAgree`).
- A session stored for an agent under a new identity leaves the old index entry dangling
  (`StoreKeepsSoundExactly`).
- The client's list of non-retryable messages is compared with whole messages, and none of the
  client's own is on it: `invalid identity: x` counts as retryable (`NeverListed`,
  `OwnMessagesRetryable`). A retry is announced for failing connects and lookups too, but
  scheduled for socket failures only (`AnnouncedRetryScheduledExactly`).
- A connect or lookup that fails when no retry is allowed, as after the last one, leaves the
  client unable to connect until `end` or `destroy` (`FailedConnectFreesExactly`,
  `FailedLookupFreesExactly`, `StuckWhileConnecting`, `EndFrees`). A reconnect timer can be set
  after `destroy` (`TimerOutlivesDestroy`).
- Token keys ignore letter case, and every owner containing a colon collides with another
  (`KeysInjective`, `ColonOwnersCollide`).

## Model

| member | source | states |
|---|---|---|
| Pem.Base64RoundTrip | src/core/utils/index.ts:31-42 | for every base64 string, `pemToBase64` undoes `base64ToPem`, and the PEM lines in between are in the strict layout: full 64-character lines and one last line of 1 to 64 (RFC 7468, sections 2 and 13) |
| Pem.StrictPemReproduced | src/core/utils/index.ts:31-42 | a PEM in the strict layout is reproduced character for character by the two functions |
| Pem.ReproducedExactlyWhenStrict | src/core/utils/index.ts:31-42 | the two functions reproduce a readable public-key PEM if and only if it is in the strict layout |
| Pem.SameKeyAfterStorage | src/core/utils/index.ts:31-42 | storing an accepted PEM as base64 and rebuilding it names the same key, whatever its line breaks, line lengths and surrounding space |
| Pem.PemToBase64OfKey | src/core/utils/index.ts:31-37 | the stored base64 of an accepted PEM is the name of its key, character for character |
| Symbolic.SignedVerifies | src/core/crypto/index.ts:173-232 | what a matching pair signs verifies under a PEM if and only if the PEM holds that key and the message prints the same |
| Symbolic.RejectedExactly | src/core/crypto/index.ts:188-232 | a foreign fingerprint or an unreadable key is told first, a wrong signature under the right fingerprint second |
| Symbolic.ReadSignatureJson | src/core/crypto/index.ts:181-185 | the signature object survives travelling as JSON |
| Verification.AcceptedMeansSigned | src/core/crypto/index.ts:188-232 | acceptance is the same as being the holder's signature and fingerprint over that message |
| Trust.TrustIdInjective | src/core/trust/index.ts:75-79 | for colon-free owners two identifiers agree if and only if both parts agree up to letter case |
| Trust.ColonOwnersCollide | src/core/trust/index.ts:75-79 | that condition is needed of every owner: one with a colon shares each of its identifiers with an owner that has none |
| Trust.PhasesOverTime | src/core/trust/index.ts:29-59 | for an unchanged record and a non-decreasing clock the moments that admit documents come first, those that admit trust requests last, and they never overlap |
| Trust.NothingAdmittedWhen | src/core/trust/index.ts:44-59 | neither documents nor requests are admitted exactly for these reasons |
| Trust.RequestRefusedExactly | src/core/trust/index.ts:44-59 | each of the three refusals of a trust request is given exactly under its own condition on the record, in that order |
| Trust.RetryAdmitted | src/core/trust/index.ts:125-136 | `canRetryTrust` holds if and only if a request is admitted and the record is neither accepted nor carries an unreadable retry date |
| Trust.ResponseExcludesDocuments | src/core/trust/index.ts:90-116 | a trust response is admitted only from the party asked, and while, at any time, documents from requester to responder are not |
| JsonTrustStore.StepKeepsInv | src/core/trust/storage/JsonTrustStore.ts:117-194 | every operation keeps a clean loaded map equal to the file, provided a patch keeps the id |
| JsonTrustStore.StepRefinesExactly | src/core/trust/storage/JsonTrustStore.ts:117-194 | an operation answers and moves as a plain insertion-ordered map does if and only if no delete that emptied the map is unsaved over a non-empty file, or the operation is one of those that do not look |
| JsonTrustStore.UpdateKeepsTieExactly | src/core/trust/storage/JsonTrustStore.ts:147-157 | an update keeps records under their own ids if and only if the patch keeps the id |
| JsonTrustStore.RunRefines | src/core/trust/storage/JsonTrustStore.ts:57-194 | over every run with flushes anywhere and any file times, all answers including the order of `getAll` are the plain map's |
| JsonTrustStore.UpdateMerges | src/core/trust/storage/JsonTrustStore.ts:147-157 | an update answers the old record with every value of the patch in place of the old one and nothing further, NotFound exactly for an absent id; with the id kept a later read finds just that, and every other record as it was |
| JsonTrustStore.CreateStores | src/core/trust/storage/JsonTrustStore.ts:126-142 | a record goes to the end of the map under the given id, or else under the trust id of its own sender and receiver, where a later read finds it; its own id and a taken one are refused |
| JsonTrustStore.GetAllLists | src/core/trust/storage/JsonTrustStore.ts:173-178 | with a non-empty receiver the answer is exactly the records for that receiver, each once, in insertion order; else all of them |
| JsonTrustStore.FreshStoreAgrees | src/core/trust/storage/JsonTrustStore.ts:70-112 | after a flush a new store on the file, flat or keyed by entity, stands for the same map |
| JsonTrustStore.FreshStoreAnswersAlike | src/core/trust/storage/JsonTrustStore.ts:183-185 | after `flushNow` such a store answers every later run alike |
| JsonTrustStore.DeletedRecordReturns | src/core/trust/storage/JsonTrustStore.ts:162-168 | the guard is needed: the only saved record, deleted, is found by the next read |
| JsonTrustStore.ExtraReloadSettles | src/core/trust/storage/JsonTrustStore.ts:57-65 | overwriting the file time costs one reload, changes no record, and after two reads the times agree |
| JsonTrustStore.TrustStore.InitFromDisk | src/core/trust/storage/JsonTrustStore.ts:70-84 | the loading loop leaves exactly the map of the file, later records replacing earlier ones with the same id |
| JsonTrustStore.TrustStore.Write | src/core/trust/storage/JsonTrustStore.ts:89-112 | a dirty map is written in the file's form and its time recorded, a clean one is not |
| JsonTrustStore.TrustStore.FlushThenReload | src/core/trust/storage/JsonTrustStore.ts:190-194 | flush, forget, load again |
| JsonTrustStore.TrustStore.ReloadWhenChanged | src/core/trust/storage/JsonTrustStore.ts:57-65 | reloads exactly on a changed time, recording the time read before the flush |
| JsonTrustStore.TrustStore.GetById | src/core/trust/storage/JsonTrustStore.ts:117-121 | answers and moves as the step function says |
| JsonTrustStore.TrustStore.Create | src/core/trust/storage/JsonTrustStore.ts:126-142 | refuses a record with an id or a taken id, else appends, as the step function says |
| JsonTrustStore.TrustStore.Update | src/core/trust/storage/JsonTrustStore.ts:147-157 | as the step function says; the answer carries every value of the patch and is what the map then holds under the id |
| JsonTrustStore.TrustStore.Delete | src/core/trust/storage/JsonTrustStore.ts:162-168 | deletes without looking at the file unless the map is empty |
| JsonTrustStore.TrustStore.GetAll | src/core/trust/storage/JsonTrustStore.ts:173-178 | all records in insertion order, filtered by a non-empty receiver |
| JsonTrustStore.TrustStore.FlushNow | src/core/trust/storage/JsonTrustStore.ts:183-185 | writes unsaved changes now |
| RateLimiter.CollectorTransparent | src/server/libs/btpsSimpleRateLimiter.ts:36-67 | inserting collections anywhere in a run changes no decision |
| RateLimiter.KeysIndependent | src/server/libs/btpsSimpleRateLimiter.ts:50-67 | the decisions for one key and counter type are those of a limiter that only ever saw that key |
| RateLimiter.DecidedByPlace | src/server/libs/btpsSimpleRateLimiter.ts:50-67 | over every run with collections anywhere, a request passes if and only if its place among all requests of its key in its window, the refused ones counted, is within max(1, limit); a window is opened by the first request more than 1000 ms after the opening of the one before |
| RateLimiter.RateBound | src/server/libs/btpsSimpleRateLimiter.ts:50-67 | a run from a fresh limiter allows an IP address at most max(1, `ipAddress` limit) requests per started 1001 ms, and an identity at most max(1, `fromIdentity` limit) |
| RateLimiter.SpanBound | src/server/libs/btpsSimpleRateLimiter.ts:50-67 | any span of at most 1001 ms in any reachable run allows at most twice that |
| RateLimiter.RateBoundAttained | src/server/libs/btpsSimpleRateLimiter.ts:50-67 | for every limit and number of windows some run of a fresh limiter lets exactly the rate bound through |
| RateLimiter.SpanBoundAttained | src/server/libs/btpsSimpleRateLimiter.ts:50-67 | some run lets exactly twice that through within 1001 ms |
| RateLimiter.SimpleRateLimiter.IsAllowed | src/server/libs/btpsSimpleRateLimiter.ts:50-67 | answers and updates the counters in place as the step function says |
| RateLimiter.SimpleRateLimiter.FilterOld | src/server/libs/btpsSimpleRateLimiter.ts:40-44 | the loop deletes exactly the counters older than the window |
| RateLimiter.SimpleRateLimiter.Cleanup | src/server/libs/btpsSimpleRateLimiter.ts:36-48 | both maps lose exactly their old counters |
| TokenStore.HistoryDecides | src/core/authentication/storage/InMemoryTokenStore.ts:28-111 | after every run a `get` answers what the history of stores, removals and validations alone says: the last stored, unremoved, unexpired document |
| TokenStore.CleanupTransparent | src/core/authentication/storage/InMemoryTokenStore.ts:96-111 | inserting collections anywhere in a run changes no answer |
| TokenStore.CollectionLeaves | src/core/authentication/storage/InMemoryTokenStore.ts:96-111 | a collection leaves exactly the documents that have not expired, each as it was |
| TokenStore.ValidatesAtMostOnce | src/core/authentication/BtpsAuthentication.ts:239-265 | until it is stored again an auth token validates at most once |
| TokenStore.KeysInjective | src/core/authentication/storage/InMemoryTokenStore.ts:56-58 | for colon-free owners two pairs share a key if and only if they agree up to letter case |
| TokenStore.InMemoryTokenStore.Store | src/core/authentication/storage/InMemoryTokenStore.ts:28-48 | sets the document under the owner's key, the anonymous agent for none |
| TokenStore.InMemoryTokenStore.Get | src/core/authentication/storage/InMemoryTokenStore.ts:66-82 | returns the document only until its expiry and removes it after |
| TokenStore.InMemoryTokenStore.Remove | src/core/authentication/storage/InMemoryTokenStore.ts:89-91 | removes that one key |
| TokenStore.InMemoryTokenStore.CollectExpired | src/core/authentication/storage/InMemoryTokenStore.ts:97-105 | the first loop finds exactly the keys of the expired documents |
| TokenStore.InMemoryTokenStore.Cleanup | src/core/authentication/storage/InMemoryTokenStore.ts:96-111 | removes exactly the expired documents and no later answer changes |
| Authentication.LastTokenOnly | src/core/authentication/BtpsAuthentication.ts:274-404 | after every run, refused attempts of any kind included, a refresh token is accepted for an agent if and only if it has the key of the last one issued and that has not expired |
| Authentication.EarlierTokensRefused | src/core/authentication/BtpsAuthentication.ts:352-363 | every earlier token of the chain is refused |
| Authentication.AcceptedIsNewest | src/core/authentication/BtpsAuthentication.ts:473-507 | a token that is accepted is the newest of its chain |
| Authentication.FailedReissueKeepsTokens | src/core/authentication/BtpsAuthentication.ts:285-350 | a reissue that fails, for whatever reason, changes no answer about any token |
| Authentication.IssuedCredentialsWork | src/core/authentication/BtpsAuthentication.ts:352-404 | the refresh token in the credentials handed out, at creation or reissue, is accepted for their agent from then until it expires, and belongs to the user they were issued for |
| Authentication.AuthTokenWorksOnce | src/core/authentication/BtpsAuthentication.ts:217-265 | a stored auth token validates for its user until it expires, and never a second time |
| Authentication.IssuesExactly | src/core/authentication/BtpsAuthentication.ts:285-350 | a token is issued if and only if the presented one is accepted, the record is there, the named key is readable and the update goes through |
| Authentication.ReachableKeysAgree | src/core/authentication/BtpsAuthentication.ts:83-84 | in every reachable state, with any clock and whatever updates failed, a record's fingerprint is that of `base64ToPem(publicKeyBase64)` |
| Authentication.HistoryStep | src/core/authentication/BtpsAuthentication.ts:322-336 | an action changes a record's history only by the one entry a rotation pushes for the previous key |
| Authentication.HistoryStepExactly | src/core/authentication/BtpsAuthentication.ts:322-350 | an action keeps a record's history in order of time and free of equal neighbours if and only if it is not a rotation of that record whose update fails |
| Authentication.ReachableHistoryExactly | src/core/authentication/BtpsAuthentication.ts:322-350 | after every run a record's history is in order and free of equal neighbours if and only if no rotation of that record failed since it was created |
| Authentication.FailedRotationHappens | src/core/authentication/BtpsAuthentication.ts:327-350 | such a failure is reached by creating an agent and failing the update that brings another key |
| Authentication.HistoryOnlyGrows | src/core/authentication/BtpsAuthentication.ts:326-332 | over every run in which a record is not forgotten its history only grows at its end, failed updates included |
| Authentication.ServerUsesStoredKey | src/server/btpsServer.ts:381-449 | for such a record the server accepts an ordinary artifact if and only if it is signed with the stored key |
| Authentication.KeyKeptExactly | src/core/authentication/BtpsAuthentication.ts:322-336 | an action leaves a record's key as it is if and only if it neither forgets the record nor issues a rotation of it |
| Authentication.RotationAgreesWithServer | src/core/authentication/BtpsAuthentication.ts:322-336 | after a reissue that names a key, and any further run that keeps the record and its key, ordinary artifacts are accepted if and only if that key signed them |
| Authentication.RotationAgreesAfterRun | src/server/btpsServer.ts:415-449 | so it is after every run from nothing, with any clock and whatever updates failed |
| Authentication.CreationAgreesWithServer | src/core/authentication/BtpsAuthentication.ts:380-404 | after a creation, and any further run that keeps the record and its key, ordinary artifacts are accepted if and only if the key it was created with signed them |
| Authentication.TrustedUntilExpiry | src/core/authentication/BtpsAuthentication.ts:309-404 | from a creation or reissue on, until someone decides otherwise, the server trusts the agent exactly until the `expiresAt` it was told, which is the moment asked for or the default |
| Authentication.BtpsAuthentication.StoreAuthToken | src/core/authentication/BtpsAuthentication.ts:217-231 | stores an auth token for the user with the configured expiry |
| Authentication.BtpsAuthentication.ValidateAuthToken | src/core/authentication/BtpsAuthentication.ts:239-265 | answers for a live token and leaves it dead from then on |
| Authentication.BtpsAuthentication.ValidateRefreshToken | src/core/authentication/BtpsAuthentication.ts:473-507 | answers the user of a live refresh token without using it up |
| Authentication.BtpsAuthentication.CreateAgent | src/core/authentication/BtpsAuthentication.ts:380-404 | record and first token, or one of two refusals, as the step function says |
| Authentication.BtpsAuthentication.ValidateAndReissueRefreshToken | src/core/authentication/BtpsAuthentication.ts:274-373 | the whole reissue with its four refusals; the history is pushed in place before the update |
| Verification.VerifiedExactly | src/server/btpsServer.ts:381-669 | `verifySignature` accepts an artifact if and only if it is signed under the key published for its own sender and selector, or by the parties of its delegation; an agent's if the key presented (onboarding, or refresh with another key) or else the recorded key signed it; it throws exactly on an unreadable key in a refresh |
| Verification.TrustedExactly | src/server/btpsServer.ts:454-705 | `verifyTrust` holds if and only if, per kind of artifact: a response answers a pending record of the opposite direction addressed to its sender, a request meets no active, blocked or waiting record, anything else has an accepted, unexpired record; agents onboarding, or with such a record |
| Verification.DelegationAcceptance | src/server/btpsServer.ts:565-643 | a delegated artifact is accepted if and only if the delegator's published key signed artifact and unsigned delegation, the agent key signed the artifact without it, and an attestor, who must be named when the delegator is the sender, signed the delegation |
| Delegation.OwnDelegationExactly | src/core/delegation/BtpsDelegator.ts:101-178 | a delegation for oneself is accepted if and only if the delegator is not the sender and the artifact without any delegation is signed under the agent key |
| Delegation.OnBehalfNeverVerifies | src/core/delegation/BtpsDelegator.ts:134-148 | a delegation on behalf of another is never accepted; with all keys in place it is the delegation signature that is refused |
| Delegation.DelegatedVerifiesExactly | src/core/delegation/BtpsDelegator.ts:101-203 | both together: exactly when the server accepts what `delegateArtifact` returned |
| Delegation.AttestedReads | src/core/delegation/BtpsDelegator.ts:183-203 | the attestation made for a delegation verifies under the attestor's key once attached, and attaching it changes nothing else the server reads |
| Delegation.BtpsDelegator.VerifyDelegatorIdentity | src/core/delegation/BtpsDelegator.ts:73-81 | valid only if the DNS key matches the private key |
| Delegation.BtpsDelegator.Init | src/core/delegation/BtpsDelegator.ts:53-67 | sets the public key only after that |
| Delegation.BtpsDelegator.DelegateArtifact | src/core/delegation/BtpsDelegator.ts:101-149 | returns what the delegation function says, or refuses uninitialised |
| Envelope.EnvelopeVerifiesExactly | src/core/crypto/signEncrypt.ts:61-82 | the signature of a built envelope verifies if and only if the payload used neither `signature` nor `delegation` |
| Envelope.EncryptsExactlyWhenAsked | src/core/crypto/signEncrypt.ts:43-67 | with a receiver, a selector and encryption asked for in any mode, the document is sealed under the request's AES key, wrapped for the receiver's key with the mode asked for; in every other case the document is the given one and `encryption` is null |
| Envelope.BuiltExactly | src/core/crypto/signEncrypt.ts:43-74 | an envelope is built if and only if the sender's key is readable and, with a receiver and a selector, the receiver parses, has a key, and a readable one if encryption is asked for |
| Envelope.ParsesExactly | src/core/utils/index.ts:14-24 | an identity parses if and only if a non-empty account and a non-empty domain stand before and after its first dollar sign, whatever follows a second one |
| Envelope.EnvelopeKeeps | src/core/crypto/signEncrypt.ts:61-82 | every other field travels as given, a missing or null id and time are filled in |
| Envelope.OnlyReceiverOpens | src/core/crypto/decryptVerify.ts:36-50 | a sealed document is refused to every other key and stays sealed without one |
| Envelope.RefusedExactlyUnsigned | src/core/crypto/decryptVerify.ts:22-32 | opening refuses the signature if and only if the sender's key did not sign everything but signature and delegation |
| Envelope.PlainRoundTrip | src/core/crypto/decryptVerify.ts:17-64 | without encryption asked for, or without receiver or selector, opening gives the envelope back unchanged for every document |
| Envelope.EncryptedRoundTripExactly | src/core/crypto/index.ts:34-122 | with a receiver, a selector and encryption asked for in any mode, the receiver gets the document back if and only if it is truthy and no string, or the empty string; nothing but the document differs |
| Envelope.DelegationIsIgnored | src/core/crypto/decryptVerify.ts:22-58 | adding any delegation to any envelope changes nothing in the result but that field, refusals included |
| Envelope.DelegatedRoundTrip | src/core/crypto/decryptVerify.ts:17-64 | a delegated envelope gives its document back like the envelope it delegates |
| Connection.Gating | src/server/btpsServer.ts:251-332 | over every interleaving and any overwriting of the request context, an artifact is delivered only after that same artifact was judged while it was signed by the party it must come from, and, later, while the records entitled its sender, both said over the artifact itself |
| Connection.ClosedSocketStops | src/server/btpsServer.ts:338-376 | from any state in which a request waits for a handler or for listeners and the socket is closed, no continuation judges or delivers for it |
| Connection.MiddlewareAnswerStops | src/server/btpsServer.ts:366-375 | so a handler that answers, however the answer goes, ends its request |
| Connection.ExceptionStops | src/server/btpsServer.ts:203-244 | an exception in a handler, a judgement, an unawaited listener or the handler function leads to the error stage, and no continuation judges or delivers for the request |
| Connection.AwaitedListenersCannotFail | src/server/btpsServer.ts:710-746 | an exception in an awaited listener does not reach the request |
| Connection.HandlersInOrder | src/server/btpsServer.ts:251-332 | over every interleaving the handlers started for a request are a prefix of all stages' handlers in order, none skipped or repeated, then a prefix of the error handlers |
| Connection.NoneStartedWhenClosed | src/server/btpsServer.ts:338-347 | once the socket is closed no handler is started any more |
| Connection.HandlersComeFirst | src/server/btpsServer.ts:251-332 | over every interleaving a request is judged, trusted and delivered only after every handler of every earlier stage was started for it |
| Connection.ContextDataIsJudged | src/server/btpsServer.ts:156-265 | the parsed artifact goes into the context before the signature stage, and what the context holds after that stage is what is judged |
| Connection.JudgementsAreKept | src/server/btpsServer.ts:265-301 | both verdicts go to the context and to variables of their own, and say whether the artifact is signed by the right party and its sender entitled |
| Connection.DeliveredOnce | src/server/btpsServer.ts:748-770 | over every interleaving a request delivers its artifact at most once to the listeners and then at most once to the handler, and nothing else |
| Connection.OneResponse | src/server/btpsServer.ts:883-906 | over every interleaving at most one response is written, the socket is closed from then on, and a response worded by the pipeline tells what happened to its request: not parsed, not signed by the right party, not entitled, delivered, or failed for good |
| Connection.NoHangingLine | src/server/btpsServer.ts:139-214 | a line whose handling completed leaves the socket closed; handling crashes only where an error hook threw |
| Connection.AfterErrorNeverRuns | src/server/btpsServer.ts:838-857 | no handler registered after `onError` ever runs |
| Connection.ResumeDescends | src/server/btpsServer.ts:251-332 | every resumption of an unfinished request brings it nearer its end |
| Connection.EveryLineIsAnswered | src/server/btpsServer.ts:120-244 | from any reachable state, through any interleaving, a request resumed once per handler and await is done, and then the socket is closed or an error hook threw |
| Connection.QuietLine | src/server/btpsServer.ts:139-332 | a line on its own gets exactly one response: malformed, failed on an unreadable refresh key, a bad signature, not trusted, or success, by conditions on the artifact itself; on success alone the artifact goes once to the listeners and then once to the handler, if one is set |
| Connection.QuietFault | src/server/btpsServer.ts:216-244 | a timeout, socket error or failing listener on its own gets one error response and the socket is destroyed |
| Connection.ThrowingErrorHookHangs | src/server/btpsServer.ts:832-857 | an error hook that throws leaves the socket open and the line unanswered for good |
| Connection.ServerSocket.SendBtpsResponse | src/server/btpsServer.ts:883-906 | nothing on a closed socket; on an open one the response is written unless the schema or the write refuses it; closed afterwards in every case, and destroyed in every case but a clean end |
| Connection.ServerSocket.TearDown | src/server/btpsServer.ts:846-850 | an error response if still possible, then destroyed |
| Connection.ServerSocket.ExecuteMiddleware | src/server/btpsServer.ts:338-376 | with no other activity exactly the prefix up to the first handler that closes the socket or throws is run, and none on a closed socket |
| Connection.ServerConnection.EnterStage | src/server/btpsServer.ts:338-347 | a stage is skipped when empty, and stops a request but not the error path when the socket is closed |
| Connection.ServerConnection.OnLine | src/server/btpsServer.ts:139-155 | a line starts its own activation at the first stage |
| Connection.ServerConnection.OnFault | src/server/btpsServer.ts:216-237 | a timeout or socket error starts an activation at the error stage |
| Connection.ServerConnection.AfterVerifySignature | src/server/btpsServer.ts:265-276 | the verdict goes to a local variable and to the context, an exception to the error path |
| Connection.ServerConnection.AfterVerifyTrust | src/server/btpsServer.ts:290-301 | likewise for trust |
| Connection.ServerConnection.ProcessMessage | src/server/btpsServer.ts:748-770 | listeners get the artifact first; the handler at once only for transporter artifacts |
| Connection.ServerConnection.AfterBeforeError | src/server/btpsServer.ts:832-857 | teardown between the two error stages |
| Connection.ServerConnection.AfterHandler | src/server/btpsServer.ts:366-375 | the next handler, the end of the stage, a stop on a closed socket, or the error path |
| Connection.ServerConnection.AfterStage | src/server/btpsServer.ts:156-202 | what follows each stage, the three refusals and the success response included |
| Connection.ServerConnection.AfterListeners | src/server/btpsServer.ts:757-769 | after awaited listeners a closed socket ends the request, else the handler gets the artifact |
| Connection.ServerConnection.Advance | src/server/btpsServer.ts:251-332 | one step of any request is the step the run theorems are about |
| Connection.ServerConnection.Handle | src/server/btpsServer.ts:120-244 | any event on the connection likewise, and it keeps the invariant behind them |
| Connection.ServerConnection.Respond | src/server/btpsServer.ts:862-876 | the pipeline's own answer finishes the request and leaves the socket closed |
| MiddlewareManager.SortIsStable | src/server/libs/middlewareManager.ts:107-111 | the sort orders by priority, an absent one last, and keeps each priority class in its order |
| MiddlewareManager.StableSortUnique | src/server/libs/middlewareManager.ts:107-111 | there is only one such sequence |
| MiddlewareManager.FilterOfSort | src/server/libs/middlewareManager.ts:188-190 | selecting a stage commutes with sorting |
| MiddlewareManager.StageListIsStableSort | src/server/libs/middlewareManager.ts:86-190 | what `getMiddleware` returns is the stable sort of exactly the valid, enabled definitions of that stage, none lost or doubled |
| MiddlewareManager.StageIsArranged | src/server/libs/middlewareManager.ts:86-190 | at a stage are exactly the enabled definitions that meet every condition on phase, step, arity and priority; a lower number comes first, none after every number below 2^53 - 1, equal ones in the order of definition |
| MiddlewareManager.Manager.ValidateAndSort | src/server/libs/middlewareManager.ts:86-112 | the loop keeps exactly the valid and enabled definitions and sorts them stably |
| MiddlewareManager.Manager.LoadMiddleware | src/server/libs/middlewareManager.ts:57-67 | after loading every stage is arranged in that way |
| MiddlewareManager.Manager.GetMiddleware | src/server/libs/middlewareManager.ts:188-190 | only loaded definitions of that phase and step |
| MiddlewareManager.Manager.StageAfterLoading | src/server/libs/middlewareManager.ts:86-190 | loading then selecting gives the stable sort of the stage |
| SessionStore.StoreKeepsSoundExactly | src/core/authentication/storage/InMemoryAuthSessionStore.ts:22-26 | a store keeps every index entry pointing at a present session of that identity if and only if it does not move an indexed agent to another identity |
| SessionStore.StoreKeepsCompleteExactly | src/core/authentication/storage/InMemoryAuthSessionStore.ts:22-26 | it keeps the index exact if and only if moreover no other agent has that identity |
| SessionStore.RemoveKeepsSound | src/core/authentication/storage/InMemoryAuthSessionStore.ts:71-78 | removing a session keeps the index sound |
| SessionStore.ReachableIndexSound | src/core/authentication/storage/InMemoryAuthSessionStore.ts:22-109 | in every state reached while agents keep their identity, every index entry points at a present session of that identity |
| SessionStore.LookupIsSearch | src/core/authentication/storage/InMemoryAuthSessionStore.ts:57-65 | with an exact index the lookup is the linear search for the unexpired session |
| SessionStore.ReachableLookupIsSearch | src/core/authentication/storage/InMemoryAuthSessionStore.ts:57-65 | so it is in every state reached while each identity has one agent as well |
| SessionStore.AgentHistoryDecides | src/core/authentication/storage/InMemoryAuthSessionStore.ts:22-98 | after every run a lookup by agent answers the session last stored for the agent, unless it was removed or has expired; lookups and collections in between do not matter |
| SessionStore.CleanupLeaves | src/core/authentication/storage/InMemoryAuthSessionStore.ts:83-98 | a collection leaves exactly the unexpired sessions, in order |
| SessionStore.InMemoryAuthSessionStore.Store | src/core/authentication/storage/InMemoryAuthSessionStore.ts:22-26 | both maps set; soundness survives under the exact condition |
| SessionStore.InMemoryAuthSessionStore.GetByAgentId | src/core/authentication/storage/InMemoryAuthSessionStore.ts:33-49 | only an unexpired session is returned; an expired one is removed |
| SessionStore.InMemoryAuthSessionStore.GetByIdentity | src/core/authentication/storage/InMemoryAuthSessionStore.ts:57-65 | the linear search under an exact index |
| SessionStore.InMemoryAuthSessionStore.RemoveAgent | src/core/authentication/storage/InMemoryAuthSessionStore.ts:71-78 | session and index entry go together |
| SessionStore.InMemoryAuthSessionStore.CollectExpired | src/core/authentication/storage/InMemoryAuthSessionStore.ts:84-92 | the first loop finds exactly the expired sessions, in order |
| SessionStore.InMemoryAuthSessionStore.Cleanup | src/core/authentication/storage/InMemoryAuthSessionStore.ts:83-98 | leaves exactly the unexpired sessions and a sound index |
| SessionStore.InMemoryAuthSessionStore.GetAll | src/core/authentication/storage/InMemoryAuthSessionStore.ts:104-109 | the unexpired sessions, in order |
| Client.RetryBudget | src/client/btpsClient.ts:123-132 | over every run of overlapping events and re-entrant listeners retries stay within the maximum, and sockets opened are at most the user's connects plus the maximum |
| Client.BudgetAttained | src/client/btpsClient.ts:123-132 | one connect of the user's can open a socket for itself and one for each retry |
| Client.NoTimerAfterLine | src/client/btpsClient.ts:79-92 | once a line was handled no event sets a reconnect timer any more |
| Client.NoSocketAfterDestroy | src/client/btpsClient.ts:46-50 | once destroyed, from wherever, no event opens a socket |
| Client.RetryScheduledExactly | src/client/btpsClient.ts:56-77 | a socket failure sets one timer if and only if retries are left, the client is neither destroyed nor done with retrying, and the message is none of the six; the listeners find the client still connecting if and only if it was and no retry is allowed, and cannot change the outcome |
| Client.ListedSetsNoTimer | src/client/btpsClient.ts:238-249 | a socket error with one of the six messages sets no timer |
| Client.AnnouncedRetryScheduledExactly | src/client/btpsClient.ts:134-147 | a retry announced to the listeners is scheduled if and only if a socket failed; failing connects and lookups announce one and set no timer |
| Client.TimerOutlivesDestroy | src/client/btpsClient.ts:66-77 | a listener that destroys the client still leaves a timer, which opens nothing |
| Client.NeverListed | src/client/btpsClient.ts:238-249 | the message of an invalid identity is never on the list of non-retryable messages |
| Client.OwnMessagesRetryable | src/client/btpsClient.ts:238-249 | nor is any other message of the client's own |
| Client.FailedConnectFreesExactly | src/client/btpsClient.ts:251-266 | a connect refused or failing on its identity leaves the client connecting, when its listeners hear of it, if and only if it was and no retry is allowed, whatever callbacks do |
| Client.FailedLookupFreesExactly | src/client/btpsClient.ts:268-300 | and so does every lookup that ends without a connection |
| Client.StuckWhileConnecting | src/client/btpsClient.ts:251-255 | while the client counts as connecting and no retry is allowed, connects start nothing, those of their own error listeners included |
| Client.EndFrees | src/client/btpsClient.ts:307-310 | after `end` the next connect to a valid identity starts its lookup |
| Client.LineFrees | src/client/btpsClient.ts:79-92 | a handled line leaves the client free to connect, unless an error listener connects again |
| Client.BtpsClient.DoConnect | src/client/btpsClient.ts:251-266 | `connect` with everything its callbacks do meanwhile |
| Client.BtpsClient.DoDestroy | src/client/btpsClient.ts:312-319 | no connecting, no retrying, destroyed for good |
| Client.BtpsClient.DoEnd | src/client/btpsClient.ts:307-310 | no longer connecting |
| Client.BtpsClient.DoResolveError | src/client/btpsClient.ts:134-147 | whether to retry is settled before the listeners run |
| Client.BtpsClient.DoRetryConnect | src/client/btpsClient.ts:123-132 | one retry and one timer, within the budget |
| Client.BtpsClient.OnSocketError | src/client/btpsClient.ts:56-70 | resolve, then retry if that was allowed |
| Client.BtpsClient.OnSocketEnd | src/client/btpsClient.ts:72-77 | tell, stop connecting, then retry if that was allowed |
| Client.BtpsClient.OnLine | src/client/btpsClient.ts:79-92 | no retry and no timer, whether the line parses, and whether a listener throws |
| Client.BtpsClient.OnAddress | src/client/btpsClient.ts:46-54 | one socket unless destroyed |

## Left out

- TLS, DNS, the file system, real timers and signals are state and nondeterministic steps; DNS errors are steps that throw.
- Real cryptography, UUIDs and randomness are symbolic as described above; freshness is an explicit condition, as are agent ids without colons that are not also user identities.
- JSON text is a term: malformed JSON and files of another shape make the trust store throw and are excluded by `Readable`; members that are undefined and keys that look like integers, which JavaScript reorders, are not represented.
- The schemas are predicates (`ValidTransporter`, `ValidAgent`, `ValidDelegation`); identities, selectors and types are plain texts.
- Pem.SameKeyAfterStorage: is about the PEM texts the model reads (`Pem.KeyOf`), which leave out one with blanks or tabs inside or at the end of a body line; the crypto library reads such a key, and the model refuses it wherever a key is asked for.
- Pem.PemToBase64OfKey: has the same limit; for such a PEM the stored text keeps the inner blanks.
- Lower-casing and trimming are those of ASCII; the Unicode rules are not modelled.
- Interleavings inside one trust-store method, several stores on one file, a lock that cannot be taken, and callers that modify a record object they were given: each method is one step, and the debounced flush is a step of its own.
- Trust records keep the fields the rules read; `decidedBy`, `privacyType` and metadata are carried by none of the rules and left out, and so is the check for an empty record object.
- Rate limits are integers and the clock counts whole milliseconds; the collection interval is any.
- The request pipeline assumes that middleware replaces context fields but neither the artifact object nor the socket, answers through `sendRes`, `sendError`, `end` or `destroy`, does not send again from `onResponseSent`, and that the `onError` callback of the server does not throw. Each judgement reads one snapshot of DNS, trust records and clock. Blank lines are ignored before the model starts.
- The `data` a request keeps after the second stage is one the middleware may replace with any schema-valid artifact; artifacts that no longer fit the schema are not represented.
- Client backpressure, the promise plumbing of the agent and transporter classes, and listeners that throw, other than those of a message line, which the code catches.
- Queues, factories, registries, metrics, error classes, the splitting of DNS TXT records and the documentation site would add only easy members.
