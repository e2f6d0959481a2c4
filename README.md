# Raw-public-key certificate credential

A Dafny model of `BcTlsRawKeyCertificate`, the TLS credential that stands in for an
X.509 certificate when a peer presents a bare public key (RFC 7250). The credential
holds a SubjectPublicKeyInfo and parses it into a key only when a key is first needed.
It caches that key in its one mutable field, `pubKey`. It answers whether the key
supports a signature algorithm (the advisory form), and it builds a verifier or raises
a fatal alert (the committing form). It also checks that the key fits a key exchange
at a connection end, and it infers the certificate-verify algorithm for TLS versions
that do not negotiate one (section 7.4.6 of RFC 5246).

Files:

- `registry.dfy`: `Wrappers` (Option, Result, Outcome) and the protocol registries.
  `SignatureAlgorithm` lists the eleven algorithms: section 7.4.1.4.1 of RFC 5246, plus
  the RSASSA-PSS and EdDSA schemes of section 4.2.3 of RFC 8446. The other registries
  are `KeyExchangeAlgorithm`, `ConnectionEnd`, `KeyUsage` and `Alerts` (the
  unsupported_certificate, certificate_unknown and internal_error alerts of section
  7.2 of RFC 5246).
- `keys.dfy`: the key-info, the tagged key variant (one case per parameter class the
  credential tests or casts to, plus a catch-all), the factory's three outcomes, the escaping
  exceptions, the verifier tags, and `Collaborators`. `Collaborators` holds the foreign
  library code: the key factory and the three RSA algorithm-identifier predicates.
- `dispatch.dfy`: the switch/instanceof logic as pure functions of what `getPublicKey`
  yields. Reference tables (`RequiredFamily`, `AlgIdGate`, `RoleFamily`,
  `VerifierMatches`) state each rule once, and the dispatch functions are proved
  against them.
- `parse_cache.dfy`: the parse cache as a pure state machine. One `getPublicKey` step,
  which operations call `getPublicKey`, and what any sequence of operations does to
  the cache, with induction lemmas over sequences of operations.
- `raw_key_certificate.dfy`: the class. It has the `pubKey` field and a ghost count of
  factory runs. Each method is proved to return what the matching `Dispatch` function
  returns for the parse result, and to change the cache exactly as `ParseCache.After`
  says.

The foreign code (`PublicKeyFactory.createKey`, `RSAUtil.supportsPKCS1`,
`supportsPSS_RSAE`, `supportsPSS_PSS`) is not part of this model. It is held as
function-valued fields of `Collaborators`, so every property holds for every such
library. The factory either returns a key, throws an unchecked exception, or throws a
checked `IOException`.

Behaviour of the code the model keeps:

- An RSA algorithm-identifier mismatch in `createVerifier` raises certificate_unknown
  (lines 374-399).
- Only a successful parse is cached. After a failed parse, the cache stays empty and
  every later call that reaches `getPublicKey` runs the factory again. It fails again because the factory is a
  function of the key-info.
- `getPublicKey` catches only unchecked exceptions (line 290). A checked `IOException`
  from the factory escapes as it is (`ParserIOException`).
- `createVerifier` runs its RSA algorithm-identifier gate before it touches the key,
  so an `rsa` request against a key-info that fails `supportsPKCS1` is refused
  without parsing. The same holds for an unlisted algorithm, and for RSA key exchange
  at the client end in `useInRole`. The `...ConsultsKey` predicates capture this.

## Model

| member | source | states |
|---|---|---|
| Dispatch.RequiredFamily | tls/src/main/java/org/bouncycastle/tls/crypto/impl/bc/BcTlsRawKeyCertificate.java:330-362 | a family is required exactly for the eleven listed algorithms, and it is never DH or an unnamed class |
| Dispatch.AlgIdGate | tls/src/main/java/org/bouncycastle/tls/crypto/impl/bc/BcTlsRawKeyCertificate.java:303-319 | only the RSA-family algorithms are gated on the key's own algorithm identifier: `rsa` by `supportsPKCS1`, each `rsa_pss_rsae_*` scheme by `supportsPSS_RSAE`, each `rsa_pss_pss_*` scheme by `supportsPSS_PSS` for that very scheme; every other algorithm passes |
| Dispatch.SupportsKeyUsage | tls/src/main/java/org/bouncycastle/tls/crypto/impl/bc/BcTlsRawKeyCertificate.java:298-301 | a raw key allows every key usage |
| Dispatch.ValidateKeyUsage | tls/src/main/java/org/bouncycastle/tls/crypto/impl/bc/BcTlsRawKeyCertificate.java:365-372 | with `supportsKeyUsage` always true (lines 298-301), the usage check never raises |
| Dispatch.ValidateRsaPkcs1 | tls/src/main/java/org/bouncycastle/tls/crypto/impl/bc/BcTlsRawKeyCertificate.java:374-381 | passes exactly when the algorithm-identifier gate for `rsa` holds; otherwise certificate_unknown |
| Dispatch.ValidateRsaPssRsae | tls/src/main/java/org/bouncycastle/tls/crypto/impl/bc/BcTlsRawKeyCertificate.java:392-399 | passes exactly when the gate holds for each `rsa_pss_rsae_*` scheme; otherwise certificate_unknown |
| Dispatch.ValidateRsaPssPss | tls/src/main/java/org/bouncycastle/tls/crypto/impl/bc/BcTlsRawKeyCertificate.java:383-390 | passes exactly when the gate holds for the requested `rsa_pss_pss_*` scheme; otherwise certificate_unknown |
| Dispatch.PubKeyCast | tls/src/main/java/org/bouncycastle/tls/crypto/impl/bc/BcTlsRawKeyCertificate.java:162-232 | a typed accessor succeeds exactly for a key of its family and returns that very key; a wrong family is certificate_unknown; a parse failure passes through unchanged |
| Dispatch.KeyFitsAlgorithm | tls/src/main/java/org/bouncycastle/tls/crypto/impl/bc/BcTlsRawKeyCertificate.java:330-362 | the switch accepts exactly the pairs where the key's family is the algorithm's required family and the RSA algorithm-identifier gate holds |
| Dispatch.SupportsSignatureAlgorithmForUsage | tls/src/main/java/org/bouncycastle/tls/crypto/impl/bc/BcTlsRawKeyCertificate.java:321-363 | the key usage does not change the answer; its only failure is the parse failure, passed through; otherwise it answers the family/gate test |
| Dispatch.SupportsSignatureAlgorithm | tls/src/main/java/org/bouncycastle/tls/crypto/impl/bc/BcTlsRawKeyCertificate.java:234-237 | never raises for a parsed key; false for any algorithm outside the eleven; true exactly for the required family plus the gate; true exactly when `CreateVerifier` succeeds (advisory and committing forms agree) |
| Dispatch.SupportsSignatureAlgorithmCA | tls/src/main/java/org/bouncycastle/tls/crypto/impl/bc/BcTlsRawKeyCertificate.java:239-242 | the certificate-signing query answers exactly as the signing query |
| Dispatch.CreateVerifierConsultsKey | tls/src/main/java/org/bouncycastle/tls/crypto/impl/bc/BcTlsRawKeyCertificate.java:48-85 | `createVerifier` reaches the key exactly for a listed algorithm whose algorithm-identifier gate holds |
| Dispatch.CreateVerifier | tls/src/main/java/org/bouncycastle/tls/crypto/impl/bc/BcTlsRawKeyCertificate.java:48-85 | for a parsed key it succeeds exactly when the family/gate test holds; every refusal is certificate_unknown (default arm, RSA gate or failed accessor); the verifier is bound to the parsed key, is the kind belonging to the algorithm, and a PSS verifier carries the requested scheme; a parse failure surfaces only when the key is reached |
| Dispatch.UseInRoleConsultsKey | tls/src/main/java/org/bouncycastle/tls/crypto/impl/bc/BcTlsRawKeyCertificate.java:244-280 | `useInRole` reaches the key exactly for DH_DSS/DH_RSA, ECDH_ECDSA/ECDH_RSA, and RSA/RSA_PSK at the server end |
| Dispatch.UseInRole | tls/src/main/java/org/bouncycastle/tls/crypto/impl/bc/BcTlsRawKeyCertificate.java:244-280 | for a parsed key it passes exactly when the key's family is the role's family (DH for static DH, EC for static ECDH, RSA for server-side RSA key transport); every other combination is certificate_unknown |
| Dispatch.LegacySignatureAlgorithm | tls/src/main/java/org/bouncycastle/tls/crypto/impl/bc/BcTlsRawKeyCertificate.java:112-160 | internal_error for a private key; otherwise `rsa`, `dsa` or `ecdsa` for an RSA, DSA or EC key respectively (no curve or point-format check), and -1 exactly for any other key |
| Dispatch.LegacyAlgorithmIsSupported | tls/src/main/java/org/bouncycastle/tls/crypto/impl/bc/BcTlsRawKeyCertificate.java:134-157 | an inferred legacy algorithm is accepted by the advisory query exactly when its algorithm-identifier gate holds |
| ParseCache.ParseResult | tls/src/main/java/org/bouncycastle/tls/crypto/impl/bc/BcTlsRawKeyCertificate.java:284-293 | an unchecked factory failure becomes unsupported_certificate; the factory's checked IOException escapes unchanged; a parsed key is returned as parsed |
| ParseCache.GetPublicKeyStep | tls/src/main/java/org/bouncycastle/tls/crypto/impl/bc/BcTlsRawKeyCertificate.java:282-296 | a filled cache is left alone and the factory is not run; an empty cache runs the factory once and is filled exactly when parsing succeeds; the cache never holds a key other than the factory's |
| ParseCache.CachedKeyIsFinal | tls/src/main/java/org/bouncycastle/tls/crypto/impl/bc/BcTlsRawKeyCertificate.java:284-288 | once a key is cached, no sequence of operations replaces it or runs the factory again |
| ParseCache.RunKeepsCoherence | tls/src/main/java/org/bouncycastle/tls/crypto/impl/bc/BcTlsRawKeyCertificate.java:282-296 | over any sequence of operations, the cache only ever holds the factory's key for the key-info |
| ParseCache.SuccessfulParseRunsOnce | tls/src/main/java/org/bouncycastle/tls/crypto/impl/bc/BcTlsRawKeyCertificate.java:282-296 | for a parsable key-info, the factory runs once on the first operation that needs the key and never again, and that key stays cached |
| ParseCache.FailedParseRepeats | tls/src/main/java/org/bouncycastle/tls/crypto/impl/bc/BcTlsRawKeyCertificate.java:284-293 | for an unparsable key-info, the cache stays empty and each operation that needs the key runs the factory again |
| ParseCache.UnparsableKeyFailsEverywhere | tls/src/main/java/org/bouncycastle/tls/crypto/impl/bc/BcTlsRawKeyCertificate.java:284-293 | after an unchecked factory failure, every operation that reaches the key fails with unsupported_certificate |
| ParseCache.AtMostOneSuccessfulParse | tls/src/main/java/org/bouncycastle/tls/crypto/impl/bc/BcTlsRawKeyCertificate.java:282-296 | from a fresh credential, a parsable key-info is parsed at most once over any sequence of operations |
| RawKeyCredential.RawKeyCertificate.constructor | tls/src/main/java/org/bouncycastle/tls/crypto/impl/bc/BcTlsRawKeyCertificate.java:42-46 | a new credential keeps its key-info and starts with an empty cache and no factory runs |
| RawKeyCredential.RawKeyCertificate.GetPublicKey | tls/src/main/java/org/bouncycastle/tls/crypto/impl/bc/BcTlsRawKeyCertificate.java:282-296 | returns the parse result; a cached key is returned as it is, with no factory run and the field unchanged; `pubKey` is written only while empty, and only with a successfully parsed key |
| RawKeyCredential.RawKeyCertificate.GetPubKey | tls/src/main/java/org/bouncycastle/tls/crypto/impl/bc/BcTlsRawKeyCertificate.java:162-232 | the typed accessors return `PubKeyCast` of the parse result, and the cache changes as one `getPublicKey` call |
| RawKeyCredential.RawKeyCertificate.SupportsSignatureAlgorithmForUsage | tls/src/main/java/org/bouncycastle/tls/crypto/impl/bc/BcTlsRawKeyCertificate.java:321-363 | returns the advisory answer for the parse result and always consults the key |
| RawKeyCredential.RawKeyCertificate.SupportsSignatureAlgorithm | tls/src/main/java/org/bouncycastle/tls/crypto/impl/bc/BcTlsRawKeyCertificate.java:234-237 | returns `Dispatch.SupportsSignatureAlgorithm` of the parse result |
| RawKeyCredential.RawKeyCertificate.SupportsSignatureAlgorithmCA | tls/src/main/java/org/bouncycastle/tls/crypto/impl/bc/BcTlsRawKeyCertificate.java:239-242 | returns `Dispatch.SupportsSignatureAlgorithmCA` of the parse result |
| RawKeyCredential.RawKeyCertificate.CreateVerifier | tls/src/main/java/org/bouncycastle/tls/crypto/impl/bc/BcTlsRawKeyCertificate.java:48-85 | returns `Dispatch.CreateVerifier` of the parse result, and parses only when the algorithm gets past its gates |
| RawKeyCredential.RawKeyCertificate.UseInRole | tls/src/main/java/org/bouncycastle/tls/crypto/impl/bc/BcTlsRawKeyCertificate.java:244-280 | on success returns this same credential, exactly when `Dispatch.UseInRole` passes; otherwise its alert; parses only for the six role arms |
| RawKeyCredential.RawKeyCertificate.GetLegacySignatureAlgorithm | tls/src/main/java/org/bouncycastle/tls/crypto/impl/bc/BcTlsRawKeyCertificate.java:112-160 | returns `Dispatch.LegacySignatureAlgorithm` of the parse result |

## Left out

- Certificate-type negotiation (client/server certificate-type extensions, the X.509 default, omission of an X.509-only list, rejection when there is no common type) and the full-handshake test harness with its threads, piped streams and random data. The negotiator is in the protocol classes and mock peers, which are not part of this model.
- ASN.1/DER handling: building the key-info from bytes (line 39), `getEncoded` re-encoding (lines 87-90), and `getSigAlgOID`/`getSigAlgParams` (lines 102-110). These are thin calls into an ASN.1 library that is not part of this model.
- `getExtension` and `getSerialNumber` (lines 92-100) always return null. There is nothing to state beyond that.
- `PublicKeyFactory.createKey` and the `RSAUtil` predicates are kept abstract. So the RSA tri-state rule (rsaEncryption keys suit `rsa` and PSS-RSAE, RSASSA-PSS keys suit only the matching PSS-PSS scheme) is not modelled. The model only proves that the credential applies whichever predicate the library supplies. A factory that returns null is not modelled.
- The verifier classes and all signature mathematics. A verifier is a tag holding the key and, for PSS, the scheme. The `crypto` provider handed to them is not modelled.
- The exception cause that `TlsFatalAlert` wraps (the factory's or the cast's exception) is not modelled. Only the alert kind is.
- Concurrency: the Java cache is an unsynchronized field, so two threads may both run the factory. The model is single-threaded.
- The numeric values of the key-exchange, connection-end and key-usage constants follow the library's numbering. Their defining classes are not part of this model, and only the values' distinctness matters to the proofs.
- RawKeyCredential.RawKeyCertificate.GetPubKey: one method with a family parameter stands for the six typed accessors. `getPubKeyDH` catches `RuntimeException` where the others catch `ClassCastException`. Both behave the same, because the alerts `getPublicKey` raises are checked exceptions.
