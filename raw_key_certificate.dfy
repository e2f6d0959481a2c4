/**
 * The raw-public-key credential that stands in for an X.509 certificate when a TLS
 * peer presents a bare public key (RFC 7250). It keeps the key-info it was built
 * from and parses it into a key on first use, caching the result. Every operation
 * is proved to give the answer the pure functions of Dispatch give for what parsing
 * yields, and to change the cache exactly as ParseCache.After says.
 */
module RawKeyCredential {
  import opened Wrappers
  import opened Alerts
  import opened Keys
  import Dispatch
  import ParseCache
  import SignatureAlgorithm
  import KeyExchangeAlgorithm
  import ConnectionEnd
  import KeyUsage

  class RawKeyCertificate {
    /** The foreign key factory and RSA algorithm-identifier predicates. */
    const collaborators: Collaborators
    const keyInfo: SubjectPublicKeyInfo

    /** The parse cache: None until a parse succeeds, then never replaced. */
    var pubKey: Option<AsymmetricKey>
    /** How often the key factory has been run on this credential. */
    ghost var parses: nat

    ghost function State(): ParseCache.CacheState
      reads this
    {
      ParseCache.CacheState(pubKey, parses)
    }

    ghost predicate Valid()
      reads this
    {
      ParseCache.Coherent(collaborators, keyInfo, State())
    }

    constructor (collaborators: Collaborators, keyInfo: SubjectPublicKeyInfo)
      ensures Valid()
      ensures this.collaborators == collaborators && this.keyInfo == keyInfo
      ensures State() == ParseCache.Fresh
    {
      this.collaborators := collaborators;
      this.keyInfo := keyInfo;
      pubKey := None;
      parses := 0;
    }

    /** What parsing this credential's key-info yields, cached or not. */
    ghost function Parsed(): Result<AsymmetricKey, Exception>
      reads this
    {
      ParseCache.ParseResult(collaborators, keyInfo)
    }

    /**
     * The parsed key. The first successful call runs the factory and caches its key;
     * every later call returns that very key without running the factory. A failed
     * parse leaves the cache empty.
     */
    method GetPublicKey() returns (r: Result<AsymmetricKey, Exception>)
      requires Valid()
      modifies this
      ensures Valid()
      ensures r == Parsed()
      ensures old(pubKey).Some? ==> r == Success(old(pubKey).value) && pubKey == old(pubKey) && parses == old(parses)
      ensures old(pubKey).None? ==> parses == old(parses) + 1 && (pubKey.Some? <==> r.Success?)
      ensures r.Success? ==> pubKey == Some(r.value)
      ensures State() == ParseCache.After(collaborators, keyInfo, old(State()), ParseCache.OpGetPublicKey)
    {
      if pubKey.None? {
        parses := parses + 1;
        var outcome := collaborators.createKey(keyInfo);
        match outcome
        case Parsed(k) =>
          pubKey := Some(k);
        case RuntimeFailure =>
          return Failure(FatalAlert(unsupported_certificate));
        case IOFailure =>
          return Failure(ParserIOException);
      }
      r := Success(pubKey.value);
    }

    /** The parsed key as one family's parameters (the getPubKeyDH, getPubKeyRSA, ... accessors). */
    method GetPubKey(family: KeyFamily) returns (r: Result<AsymmetricKey, Exception>)
      requires Valid()
      requires family != OtherFamily
      modifies this
      ensures Valid()
      ensures r == Dispatch.PubKeyCast(Parsed(), family)
      ensures State() == ParseCache.After(collaborators, keyInfo, old(State()), ParseCache.OpGetPubKey(family))
    {
      var parsed := GetPublicKey();
      r := Dispatch.PubKeyCast(parsed, family);
    }

    method SupportsSignatureAlgorithmForUsage(a: SignatureAlgorithm.Value, keyUsage: int) returns (r: Result<bool, Exception>)
      requires Valid()
      modifies this
      ensures Valid()
      ensures r == Dispatch.SupportsSignatureAlgorithmForUsage(collaborators, keyInfo.algorithm, Parsed(), a, keyUsage)
      ensures State() == ParseCache.After(collaborators, keyInfo, old(State()), ParseCache.OpSupportsSignatureAlgorithm(a, keyUsage))
    {
      if Dispatch.SupportsKeyUsage(keyUsage) {
        var parsed := GetPublicKey();
        r := Dispatch.SupportsSignatureAlgorithmForUsage(collaborators, keyInfo.algorithm, parsed, a, keyUsage);
      } else {
        r := Success(false);
      }
    }

    method SupportsSignatureAlgorithm(a: SignatureAlgorithm.Value) returns (r: Result<bool, Exception>)
      requires Valid()
      modifies this
      ensures Valid()
      ensures r == Dispatch.SupportsSignatureAlgorithm(collaborators, keyInfo.algorithm, Parsed(), a)
      ensures State() == ParseCache.After(
        collaborators, keyInfo, old(State()), ParseCache.OpSupportsSignatureAlgorithm(a, KeyUsage.digitalSignature))
    {
      r := SupportsSignatureAlgorithmForUsage(a, KeyUsage.digitalSignature);
    }

    method SupportsSignatureAlgorithmCA(a: SignatureAlgorithm.Value) returns (r: Result<bool, Exception>)
      requires Valid()
      modifies this
      ensures Valid()
      ensures r == Dispatch.SupportsSignatureAlgorithmCA(collaborators, keyInfo.algorithm, Parsed(), a)
      ensures State() == ParseCache.After(
        collaborators, keyInfo, old(State()), ParseCache.OpSupportsSignatureAlgorithm(a, KeyUsage.keyCertSign))
    {
      r := SupportsSignatureAlgorithmForUsage(a, KeyUsage.keyCertSign);
    }

    /**
     * A verifier for the algorithm, bound to the parsed key. An algorithm that fails
     * before the typed accessor (unlisted, or an RSA algorithm whose
     * algorithm-identifier condition fails) is rejected without parsing.
     */
    method CreateVerifier(a: SignatureAlgorithm.Value) returns (r: Result<Verifier, Exception>)
      requires Valid()
      modifies this
      ensures Valid()
      ensures r == Dispatch.CreateVerifier(collaborators, keyInfo.algorithm, Parsed(), a)
      ensures State() == ParseCache.After(collaborators, keyInfo, old(State()), ParseCache.OpCreateVerifier(a))
    {
      if Dispatch.CreateVerifierConsultsKey(collaborators, keyInfo.algorithm, a) {
        var parsed := GetPublicKey();
        r := Dispatch.CreateVerifier(collaborators, keyInfo.algorithm, parsed, a);
      } else {
        r := Failure(Dispatch.CertificateUnknown);
      }
    }

    /** This same credential, committed to a key exchange at a connection end, or an alert. */
    method UseInRole(connectionEnd: ConnectionEnd.Value, kex: KeyExchangeAlgorithm.Value)
      returns (r: Result<RawKeyCertificate, Exception>)
      requires Valid()
      modifies this
      ensures Valid()
      ensures r.Success? <==> Dispatch.UseInRole(connectionEnd, kex, Parsed()) == Pass
      ensures r.Success? ==> r.value == this
      ensures r.Failure? ==> r.error == Dispatch.UseInRole(connectionEnd, kex, Parsed()).error
      ensures State() == ParseCache.After(collaborators, keyInfo, old(State()), ParseCache.OpUseInRole(connectionEnd, kex))
    {
      var outcome: Outcome<Exception> := Fail(Dispatch.CertificateUnknown);
      if Dispatch.UseInRoleConsultsKey(connectionEnd, kex) {
        var parsed := GetPublicKey();
        outcome := Dispatch.UseInRole(connectionEnd, kex, parsed);
      }
      r := if outcome.Pass? then Success(this) else Failure(outcome.error);
    }

    method GetLegacySignatureAlgorithm() returns (r: Result<SignatureAlgorithm.Value, Exception>)
      requires Valid()
      modifies this
      ensures Valid()
      ensures r == Dispatch.LegacySignatureAlgorithm(Parsed())
      ensures State() == ParseCache.After(collaborators, keyInfo, old(State()), ParseCache.OpGetLegacySignatureAlgorithm)
    {
      var parsed := GetPublicKey();
      r := Dispatch.LegacySignatureAlgorithm(parsed);
    }
  }
}
