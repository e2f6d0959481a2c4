/**
 * The credential's decisions, as pure functions of what `getPublicKey` yields
 * (`parsed`: the key, or the exception parsing raised). Each Java method that consults
 * the key is a function here; whether the Java method actually gets as far as calling
 * `getPublicKey` is told apart by the `...ConsultsKey` functions, because some paths
 * reject an algorithm before the key is ever parsed.
 *
 * Beside them stand reference tables (RequiredFamily, AlgIdGate, RoleFamily,
 * VerifierMatches): the rule stated once as a table, which the dispatch functions
 * are proved to follow.
 */
module Dispatch {
  import opened Wrappers
  import opened Alerts
  import opened Keys
  import SignatureAlgorithm
  import KeyExchangeAlgorithm
  import ConnectionEnd
  import KeyUsage

  const CertificateUnknown: Exception := FatalAlert(certificate_unknown)

  // ---------------------------------------------------------------------------
  // Reference tables

  /** The key family a signature algorithm needs; None for an algorithm outside the eleven. */
  function RequiredFamily(a: SignatureAlgorithm.Value): (f: Option<KeyFamily>)
    ensures f.Some? <==> SignatureAlgorithm.IsListed(a)
    ensures f != Some(DhFamily) && f != Some(OtherFamily)
  {
    if a == SignatureAlgorithm.rsa || SignatureAlgorithm.IsRsaPssRsae(a) || SignatureAlgorithm.IsRsaPssPss(a)
    then Some(RsaFamily)
    else if a == SignatureAlgorithm.dsa then Some(DsaFamily)
    else if a == SignatureAlgorithm.ecdsa then Some(EcFamily)
    else if a == SignatureAlgorithm.ed25519 then Some(Ed25519Family)
    else if a == SignatureAlgorithm.ed448 then Some(Ed448Family)
    else None
  }

  /**
   * The condition the key's own algorithm identifier must meet for an RSA-family
   * algorithm: PKCS#1 v1.5 for `rsa`, PSS-RSAE for the `rsa_pss_rsae_*` schemes and
   * PSS-PSS (for that very scheme) for the `rsa_pss_pss_*` schemes; no condition otherwise.
   */
  function AlgIdGate(lib: Collaborators, algId: AlgorithmIdentifier, a: SignatureAlgorithm.Value): (r: bool)
    ensures RequiredFamily(a) != Some(RsaFamily) ==> r
    ensures a == SignatureAlgorithm.rsa ==> (r <==> lib.supportsPKCS1(algId))
    ensures SignatureAlgorithm.IsRsaPssRsae(a) ==> (r <==> lib.supportsPSS_RSAE(algId))
    ensures SignatureAlgorithm.IsRsaPssPss(a) ==> (r <==> lib.supportsPSS_PSS(a, algId))
  {
    if a == SignatureAlgorithm.rsa then lib.supportsPKCS1(algId)
    else if SignatureAlgorithm.IsRsaPssRsae(a) then lib.supportsPSS_RSAE(algId)
    else if SignatureAlgorithm.IsRsaPssPss(a) then lib.supportsPSS_PSS(a, algId)
    else true
  }

  /**
   * The key family a key exchange needs at a connection end: DH for static DH,
   * EC for static ECDH, and RSA for RSA key transport, which only a server does
   * (section 7.4.2 of RFC 5246); None where the credential cannot serve at all.
   */
  function RoleFamily(connectionEnd: ConnectionEnd.Value, kex: KeyExchangeAlgorithm.Value): Option<KeyFamily> {
    if kex == KeyExchangeAlgorithm.DH_DSS || kex == KeyExchangeAlgorithm.DH_RSA then Some(DhFamily)
    else if kex == KeyExchangeAlgorithm.ECDH_ECDSA || kex == KeyExchangeAlgorithm.ECDH_RSA then Some(EcFamily)
    else if connectionEnd == ConnectionEnd.server
      && (kex == KeyExchangeAlgorithm.RSA || kex == KeyExchangeAlgorithm.RSA_PSK)
    then Some(RsaFamily)
    else None
  }

  /** The verifier kind that belongs to a signature algorithm; a PSS verifier carries the scheme itself. */
  predicate VerifierMatches(v: Verifier, a: SignatureAlgorithm.Value) {
    match v
    case RsaVerifier(_) => a == SignatureAlgorithm.rsa
    case DsaVerifier(_) => a == SignatureAlgorithm.dsa
    case EcdsaVerifier(_) => a == SignatureAlgorithm.ecdsa
    case Ed25519Verifier(_) => a == SignatureAlgorithm.ed25519
    case Ed448Verifier(_) => a == SignatureAlgorithm.ed448
    case RsaPssVerifier(_, s) => s == a && (SignatureAlgorithm.IsRsaPssRsae(a) || SignatureAlgorithm.IsRsaPssPss(a))
  }

  // ---------------------------------------------------------------------------
  // Usage and algorithm-identifier gates

  /** A raw key carries no key-usage extension, so every usage is allowed. */
  function SupportsKeyUsage(keyUsageBits: int): (allowed: bool)
    ensures allowed
  {
    true
  }

  /** Raises certificate_unknown when the usage is not allowed, which for a raw key never happens. */
  function ValidateKeyUsage(keyUsageBits: int): (r: Outcome<Exception>)
    ensures r == Pass
  {
    if SupportsKeyUsage(keyUsageBits) then Pass else Fail(CertificateUnknown)
  }

  function ValidateRsaPkcs1(lib: Collaborators, algId: AlgorithmIdentifier): (r: Outcome<Exception>)
    ensures r == Pass <==> AlgIdGate(lib, algId, SignatureAlgorithm.rsa)
    ensures r.Fail? ==> r.error == CertificateUnknown
  {
    if !lib.supportsPKCS1(algId) then Fail(CertificateUnknown) else Pass
  }

  function ValidateRsaPssRsae(lib: Collaborators, algId: AlgorithmIdentifier): (r: Outcome<Exception>)
    ensures forall a :: SignatureAlgorithm.IsRsaPssRsae(a) ==> (r == Pass <==> AlgIdGate(lib, algId, a))
    ensures r.Fail? ==> r.error == CertificateUnknown
  {
    if !lib.supportsPSS_RSAE(algId) then Fail(CertificateUnknown) else Pass
  }

  function ValidateRsaPssPss(lib: Collaborators, algId: AlgorithmIdentifier, a: SignatureAlgorithm.Value): (r: Outcome<Exception>)
    requires SignatureAlgorithm.IsRsaPssPss(a)
    ensures r == Pass <==> AlgIdGate(lib, algId, a)
    ensures r.Fail? ==> r.error == CertificateUnknown
  {
    if !lib.supportsPSS_PSS(a, algId) then Fail(CertificateUnknown) else Pass
  }

  // ---------------------------------------------------------------------------
  // The typed key accessors

  /**
   * A typed accessor: the parsed key when it belongs to `family`; certificate_unknown
   * when it belongs to another; a parse failure passes through unchanged.
   */
  function PubKeyCast(parsed: Result<AsymmetricKey, Exception>, family: KeyFamily): (r: Result<AsymmetricKey, Exception>)
    requires family != OtherFamily
    ensures r.Success? <==> parsed.Success? && parsed.value.Family() == family
    ensures r.Success? ==> r.value == parsed.value
    ensures r.Failure? && parsed.Failure? ==> r.error == parsed.error
    ensures r.Failure? && parsed.Success? ==> r.error == CertificateUnknown
  {
    match parsed
    case Failure(e) => Failure(e)
    case Success(k) => if k.Family() == family then Success(k) else Failure(CertificateUnknown)
  }

  // ---------------------------------------------------------------------------
  // The advisory form

  /** The family test of the advisory switch, for a key already parsed. */
  predicate KeyFitsAlgorithm(lib: Collaborators, algId: AlgorithmIdentifier, key: AsymmetricKey, a: SignatureAlgorithm.Value)
    ensures KeyFitsAlgorithm(lib, algId, key, a) <==> RequiredFamily(a) == Some(key.Family()) && AlgIdGate(lib, algId, a)
  {
    if a == SignatureAlgorithm.rsa then lib.supportsPKCS1(algId) && key.RsaKey?
    else if a == SignatureAlgorithm.dsa then key.DsaKey?
    else if a == SignatureAlgorithm.ecdsa then key.EcKey?
    else if a == SignatureAlgorithm.ed25519 then key.Ed25519Key?
    else if a == SignatureAlgorithm.ed448 then key.Ed448Key?
    else if SignatureAlgorithm.IsRsaPssRsae(a) then lib.supportsPSS_RSAE(algId) && key.RsaKey?
    else if SignatureAlgorithm.IsRsaPssPss(a) then lib.supportsPSS_PSS(a, algId) && key.RsaKey?
    else false
  }

  /**
   * Whether the key supports an algorithm for a usage. The key is parsed for every
   * algorithm, listed or not, so a parse failure is its only failure.
   */
  function SupportsSignatureAlgorithmForUsage(
    lib: Collaborators, algId: AlgorithmIdentifier, parsed: Result<AsymmetricKey, Exception>,
    a: SignatureAlgorithm.Value, keyUsage: int): (r: Result<bool, Exception>)
    ensures parsed.Failure? ==> r == Failure(parsed.error)
    ensures parsed.Success? ==> r == Success(KeyFitsAlgorithm(lib, algId, parsed.value, a))
  {
    if !SupportsKeyUsage(keyUsage) then Success(false)
    else
      match parsed
      case Failure(e) => Failure(e)
      case Success(k) => Success(KeyFitsAlgorithm(lib, algId, k, a))
  }

  /** The advisory query for a signing usage; false, never an alert, for an unfit key. */
  function SupportsSignatureAlgorithm(
    lib: Collaborators, algId: AlgorithmIdentifier, parsed: Result<AsymmetricKey, Exception>,
    a: SignatureAlgorithm.Value): (r: Result<bool, Exception>)
    ensures parsed.Failure? ==> r == Failure(parsed.error)
    ensures parsed.Success? ==> r.Success?
    ensures parsed.Success? && !SignatureAlgorithm.IsListed(a) ==> r == Success(false)
    ensures parsed.Success? ==>
      (r == Success(true) <==> RequiredFamily(a) == Some(parsed.value.Family()) && AlgIdGate(lib, algId, a))
    ensures parsed.Success? ==> (r == Success(true) <==> CreateVerifier(lib, algId, parsed, a).Success?)
  {
    SupportsSignatureAlgorithmForUsage(lib, algId, parsed, a, KeyUsage.digitalSignature)
  }

  /** The advisory query for a certificate-signing usage, which for a raw key answers the same. */
  function SupportsSignatureAlgorithmCA(
    lib: Collaborators, algId: AlgorithmIdentifier, parsed: Result<AsymmetricKey, Exception>,
    a: SignatureAlgorithm.Value): (r: Result<bool, Exception>)
    ensures r == SupportsSignatureAlgorithm(lib, algId, parsed, a)
  {
    SupportsSignatureAlgorithmForUsage(lib, algId, parsed, a, KeyUsage.keyCertSign)
  }

  // ---------------------------------------------------------------------------
  // The committing form

  /** The verifier the switch constructs for a listed algorithm. */
  function NewVerifier(key: AsymmetricKey, a: SignatureAlgorithm.Value): Verifier
    requires SignatureAlgorithm.IsListed(a)
  {
    if a == SignatureAlgorithm.rsa then RsaVerifier(key)
    else if a == SignatureAlgorithm.dsa then DsaVerifier(key)
    else if a == SignatureAlgorithm.ecdsa then EcdsaVerifier(key)
    else if a == SignatureAlgorithm.ed25519 then Ed25519Verifier(key)
    else if a == SignatureAlgorithm.ed448 then Ed448Verifier(key)
    else RsaPssVerifier(key, a)
  }

  /** One switch arm: run the gate, then the typed accessor, then construct. */
  function Construct(gate: Outcome<Exception>, cast: Result<AsymmetricKey, Exception>, a: SignatureAlgorithm.Value): Result<Verifier, Exception>
    requires SignatureAlgorithm.IsListed(a)
  {
    if gate.Fail? then Failure(gate.error)
    else
      match cast
      case Failure(e) => Failure(e)
      case Success(k) => Success(NewVerifier(k, a))
  }

  /**
   * Whether `createVerifier` reaches the key: every gate before the typed accessor
   * must pass, so an unlisted algorithm, or an RSA algorithm whose algorithm-identifier
   * condition fails, is rejected without parsing.
   */
  predicate CreateVerifierConsultsKey(lib: Collaborators, algId: AlgorithmIdentifier, a: SignatureAlgorithm.Value)
    ensures CreateVerifierConsultsKey(lib, algId, a) <==> RequiredFamily(a).Some? && AlgIdGate(lib, algId, a)
  {
    ValidateKeyUsage(KeyUsage.digitalSignature).Pass? &&
    if a == SignatureAlgorithm.rsa then ValidateRsaPkcs1(lib, algId).Pass?
    else if a == SignatureAlgorithm.dsa || a == SignatureAlgorithm.ecdsa
      || a == SignatureAlgorithm.ed25519 || a == SignatureAlgorithm.ed448 then true
    else if SignatureAlgorithm.IsRsaPssRsae(a) then ValidateRsaPssRsae(lib, algId).Pass?
    else if SignatureAlgorithm.IsRsaPssPss(a) then ValidateRsaPssPss(lib, algId, a).Pass?
    else false
  }

  /**
   * The committing query: a verifier bound to the key, or an alert. It succeeds for
   * exactly the algorithms the advisory query accepts; every refusal of a parsed key,
   * whether by the default arm, an RSA gate or a failed typed accessor, is
   * certificate_unknown.
   */
  function CreateVerifier(
    lib: Collaborators, algId: AlgorithmIdentifier, parsed: Result<AsymmetricKey, Exception>,
    a: SignatureAlgorithm.Value): (r: Result<Verifier, Exception>)
    ensures parsed.Success? ==> (r.Success? <==> KeyFitsAlgorithm(lib, algId, parsed.value, a))
    ensures r.Success? ==> parsed.Success? && r.value.key == parsed.value && VerifierMatches(r.value, a)
    ensures CreateVerifierConsultsKey(lib, algId, a) && parsed.Failure? ==> r == Failure(parsed.error)
    ensures !CreateVerifierConsultsKey(lib, algId, a) ==> r == Failure(CertificateUnknown)
    ensures r.Failure? && !(CreateVerifierConsultsKey(lib, algId, a) && parsed.Failure?) ==>
      r.error == CertificateUnknown
  {
    match ValidateKeyUsage(KeyUsage.digitalSignature)
    case Fail(e) => Failure(e)
    case Pass =>
      if a == SignatureAlgorithm.rsa then
        Construct(ValidateRsaPkcs1(lib, algId), PubKeyCast(parsed, RsaFamily), a)
      else if a == SignatureAlgorithm.dsa then
        Construct(Pass, PubKeyCast(parsed, DsaFamily), a)
      else if a == SignatureAlgorithm.ecdsa then
        Construct(Pass, PubKeyCast(parsed, EcFamily), a)
      else if a == SignatureAlgorithm.ed25519 then
        Construct(Pass, PubKeyCast(parsed, Ed25519Family), a)
      else if a == SignatureAlgorithm.ed448 then
        Construct(Pass, PubKeyCast(parsed, Ed448Family), a)
      else if SignatureAlgorithm.IsRsaPssRsae(a) then
        Construct(ValidateRsaPssRsae(lib, algId), PubKeyCast(parsed, RsaFamily), a)
      else if SignatureAlgorithm.IsRsaPssPss(a) then
        Construct(ValidateRsaPssPss(lib, algId, a), PubKeyCast(parsed, RsaFamily), a)
      else
        Failure(CertificateUnknown)
  }

  // ---------------------------------------------------------------------------
  // Role gating

  /** One role arm: the usage check, then the typed accessor, whose value is discarded. */
  function Commit(gate: Outcome<Exception>, cast: Result<AsymmetricKey, Exception>): Outcome<Exception> {
    if gate.Fail? then gate
    else if cast.Failure? then Fail(cast.error)
    else Pass
  }

  /** Whether `useInRole` reaches the key: only for the six key exchanges it names at their ends. */
  predicate UseInRoleConsultsKey(connectionEnd: ConnectionEnd.Value, kex: KeyExchangeAlgorithm.Value)
    ensures UseInRoleConsultsKey(connectionEnd, kex) <==> RoleFamily(connectionEnd, kex).Some?
  {
    if kex == KeyExchangeAlgorithm.DH_DSS || kex == KeyExchangeAlgorithm.DH_RSA then
      ValidateKeyUsage(KeyUsage.keyAgreement).Pass?
    else if kex == KeyExchangeAlgorithm.ECDH_ECDSA || kex == KeyExchangeAlgorithm.ECDH_RSA then
      ValidateKeyUsage(KeyUsage.keyAgreement).Pass?
    else if connectionEnd == ConnectionEnd.server
      && (kex == KeyExchangeAlgorithm.RSA || kex == KeyExchangeAlgorithm.RSA_PSK) then
      ValidateKeyUsage(KeyUsage.keyEncipherment).Pass?
    else false
  }

  /**
   * Commits the credential to a key exchange at a connection end. Pass stands for
   * "returns the same credential"; a key of the wrong family, or a key exchange the
   * credential cannot serve at that end, is certificate_unknown.
   */
  function UseInRole(
    connectionEnd: ConnectionEnd.Value, kex: KeyExchangeAlgorithm.Value,
    parsed: Result<AsymmetricKey, Exception>): (r: Outcome<Exception>)
    ensures parsed.Success? ==> (r == Pass <==> RoleFamily(connectionEnd, kex) == Some(parsed.value.Family()))
    ensures UseInRoleConsultsKey(connectionEnd, kex) && parsed.Failure? ==> r == Fail(parsed.error)
    ensures !UseInRoleConsultsKey(connectionEnd, kex) ==> r == Fail(CertificateUnknown)
    ensures r.Fail? && !(UseInRoleConsultsKey(connectionEnd, kex) && parsed.Failure?) ==>
      r.error == CertificateUnknown
  {
    if kex == KeyExchangeAlgorithm.DH_DSS || kex == KeyExchangeAlgorithm.DH_RSA then
      Commit(ValidateKeyUsage(KeyUsage.keyAgreement), PubKeyCast(parsed, DhFamily))
    else if kex == KeyExchangeAlgorithm.ECDH_ECDSA || kex == KeyExchangeAlgorithm.ECDH_RSA then
      Commit(ValidateKeyUsage(KeyUsage.keyAgreement), PubKeyCast(parsed, EcFamily))
    else if connectionEnd == ConnectionEnd.server
      && (kex == KeyExchangeAlgorithm.RSA || kex == KeyExchangeAlgorithm.RSA_PSK) then
      Commit(ValidateKeyUsage(KeyUsage.keyEncipherment), PubKeyCast(parsed, RsaFamily))
    else
      Fail(CertificateUnknown)
  }

  // ---------------------------------------------------------------------------
  // Legacy certificate-verify inference (section 7.4.6 of RFC 5246)

  /**
   * The signature algorithm a client's certificate-verify uses when none was
   * negotiated: internal_error for a private key; otherwise `rsa`, `dsa` or `ecdsa`
   * for a key of that family (an EC key's curve and point format are not checked),
   * and `none` (-1) for any other key.
   */
  function LegacySignatureAlgorithm(parsed: Result<AsymmetricKey, Exception>): (r: Result<SignatureAlgorithm.Value, Exception>)
    ensures parsed.Failure? ==> r == Failure(parsed.error)
    ensures parsed.Success? && parsed.value.IsPrivate() ==> r == Failure(FatalAlert(internal_error))
    ensures r.Success? <==> parsed.Success? && !parsed.value.IsPrivate()
    ensures r.Success? ==>
      (r.value == SignatureAlgorithm.none <==> parsed.value.Family() !in {RsaFamily, DsaFamily, EcFamily})
    ensures r.Success? && r.value != SignatureAlgorithm.none ==>
      (r.value == SignatureAlgorithm.rsa || r.value == SignatureAlgorithm.dsa || r.value == SignatureAlgorithm.ecdsa)
      && RequiredFamily(r.value) == Some(parsed.value.Family())
  {
    match parsed
    case Failure(e) => Failure(e)
    case Success(k) =>
      if k.IsPrivate() then Failure(FatalAlert(internal_error))
      else if !SupportsKeyUsage(KeyUsage.digitalSignature) then Success(SignatureAlgorithm.none)
      else if k.RsaKey? then Success(SignatureAlgorithm.rsa)
      else if k.DsaKey? then Success(SignatureAlgorithm.dsa)
      else if k.EcKey? then Success(SignatureAlgorithm.ecdsa)
      else Success(SignatureAlgorithm.none)
  }

  /**
   * The inferred legacy algorithm is one the advisory query accepts for the same key,
   * provided the key's algorithm identifier allows it (for `rsa`: PKCS#1 v1.5).
   */
  lemma LegacyAlgorithmIsSupported(lib: Collaborators, algId: AlgorithmIdentifier, parsed: Result<AsymmetricKey, Exception>)
    requires LegacySignatureAlgorithm(parsed).Success?
    requires LegacySignatureAlgorithm(parsed).value != SignatureAlgorithm.none
    ensures SupportsSignatureAlgorithm(lib, algId, parsed, LegacySignatureAlgorithm(parsed).value)
      == Success(AlgIdGate(lib, algId, LegacySignatureAlgorithm(parsed).value))
  {
  }
}
