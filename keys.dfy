/**
 * The entities a raw-public-key credential works with: the encoded key-info it is
 * built from, the tagged key value the key factory parses it into, the exceptions
 * that escape the credential, the verifiers it hands out, and the foreign library
 * code it calls (kept abstract: every property below holds for every such library).
 */
module Keys {
  import opened Wrappers
  import opened Alerts
  import SignatureAlgorithm

  type Byte = b: int | 0 <= b < 0x100

  /** An ASN.1 AlgorithmIdentifier: an object identifier and optional parameters. */
  datatype AlgorithmIdentifier = AlgorithmIdentifier(algorithm: seq<nat>, parameters: Option<seq<Byte>>)

  /** A SubjectPublicKeyInfo: the algorithm identifier and the encoded key bits. */
  datatype SubjectPublicKeyInfo = SubjectPublicKeyInfo(algorithm: AlgorithmIdentifier, publicKey: seq<Byte>)

  /** The key families the credential tells apart by run-time type. */
  datatype KeyFamily = RsaFamily | DsaFamily | EcFamily | Ed25519Family | Ed448Family | DhFamily | OtherFamily

  /**
   * A parsed asymmetric key. One variant per parameter class the credential tests
   * for; the RSA class is used for public and private keys alike, and OtherKey stands
   * for every class the credential never names (X25519, private DSA or EC keys, ...).
   * `material` is the key's algorithm-specific parameters, kept opaque.
   */
  datatype AsymmetricKey =
    | RsaKey(isPrivateKey: bool, material: seq<Byte>)
    | DsaKey(material: seq<Byte>)
    | EcKey(material: seq<Byte>)
    | Ed25519Key(material: seq<Byte>)
    | Ed448Key(material: seq<Byte>)
    | DhKey(material: seq<Byte>)
    | OtherKey(isPrivateKey: bool, material: seq<Byte>)
  {
    predicate IsPrivate() {
      (RsaKey? || OtherKey?) && isPrivateKey
    }

    function Family(): KeyFamily {
      match this
      case RsaKey(_, _) => RsaFamily
      case DsaKey(_) => DsaFamily
      case EcKey(_) => EcFamily
      case Ed25519Key(_) => Ed25519Family
      case Ed448Key(_) => Ed448Family
      case DhKey(_) => DhFamily
      case OtherKey(_, _) => OtherFamily
    }
  }

  /**
   * What the key factory does with a key-info: return a key, throw an unchecked
   * exception, or throw a checked IOException.
   */
  datatype ParseOutcome = Parsed(key: AsymmetricKey) | RuntimeFailure | IOFailure

  /** An exception that escapes the credential: a fatal TLS alert, or the factory's own IOException. */
  datatype Exception = FatalAlert(alert: AlertDescription) | ParserIOException

  /**
   * A signature verifier bound to the credential's key; the PSS verifier also carries
   * the signature scheme it was asked for. The verifiers' mathematics is not modelled.
   */
  datatype Verifier =
    | RsaVerifier(key: AsymmetricKey)
    | DsaVerifier(key: AsymmetricKey)
    | EcdsaVerifier(key: AsymmetricKey)
    | Ed25519Verifier(key: AsymmetricKey)
    | Ed448Verifier(key: AsymmetricKey)
    | RsaPssVerifier(key: AsymmetricKey, signatureAlgorithm: SignatureAlgorithm.Value)

  /**
   * The library code the credential calls but that is not part of this model: the
   * public-key factory and the three RSA algorithm-identifier predicates.
   */
  datatype Collaborators = Collaborators(
    createKey: SubjectPublicKeyInfo -> ParseOutcome,
    supportsPKCS1: AlgorithmIdentifier -> bool,
    supportsPSS_RSAE: AlgorithmIdentifier -> bool,
    supportsPSS_PSS: (SignatureAlgorithm.Value, AlgorithmIdentifier) -> bool)
}
