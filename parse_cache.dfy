/**
 * The credential's one piece of mutable state, the parsed-key cache, as a pure
 * state machine: what one call to `getPublicKey` does to it, which of the
 * credential's operations call `getPublicKey` at all, and what any sequence of
 * operations does to it. The lemmas hold for every key factory.
 */
module ParseCache {
  import opened Wrappers
  import opened Alerts
  import opened Keys
  import Dispatch
  import SignatureAlgorithm
  import KeyExchangeAlgorithm
  import ConnectionEnd

  /** The cached key (None until a parse succeeds) and how often the factory has run. */
  datatype CacheState = CacheState(pubKey: Option<AsymmetricKey>, parses: nat)

  const Fresh: CacheState := CacheState(None, 0)

  /**
   * What `getPublicKey` yields: the parsed key; unsupported_certificate when the
   * factory throws an unchecked exception; the factory's own IOException, which is
   * not caught, otherwise.
   */
  function ParseResult(lib: Collaborators, keyInfo: SubjectPublicKeyInfo): (r: Result<AsymmetricKey, Exception>)
    ensures r.Success? <==> lib.createKey(keyInfo).Parsed?
    ensures r.Success? ==> r.value == lib.createKey(keyInfo).key
    ensures lib.createKey(keyInfo).RuntimeFailure? ==> r == Failure(FatalAlert(unsupported_certificate))
    ensures lib.createKey(keyInfo).IOFailure? ==> r == Failure(ParserIOException)
  {
    match lib.createKey(keyInfo)
    case Parsed(k) => Success(k)
    case RuntimeFailure => Failure(FatalAlert(unsupported_certificate))
    case IOFailure => Failure(ParserIOException)
  }

  /** The cache holds nothing but what the factory yields for this key-info. */
  predicate Coherent(lib: Collaborators, keyInfo: SubjectPublicKeyInfo, s: CacheState) {
    s.pubKey.Some? ==> lib.createKey(keyInfo) == Parsed(s.pubKey.value)
  }

  /**
   * One call to `getPublicKey`: a filled cache is left alone and the factory is not
   * run; an empty one runs the factory and keeps its key, and stays empty on failure.
   */
  function GetPublicKeyStep(lib: Collaborators, keyInfo: SubjectPublicKeyInfo, s: CacheState): (r: CacheState)
    ensures s.pubKey.Some? ==> r == s
    ensures s.pubKey.None? ==> r.parses == s.parses + 1
    ensures s.pubKey.None? ==> (r.pubKey.Some? <==> ParseResult(lib, keyInfo).Success?)
    ensures Coherent(lib, keyInfo, s) ==> Coherent(lib, keyInfo, r)
  {
    if s.pubKey.Some? then s
    else
      match lib.createKey(keyInfo)
      case Parsed(k) => CacheState(Some(k), s.parses + 1)
      case _ => CacheState(None, s.parses + 1)
  }

  /** The credential's operations that may touch the cache. */
  datatype Call =
    | OpGetPublicKey
    | OpGetPubKey(family: KeyFamily)
    | OpSupportsSignatureAlgorithm(signatureAlgorithm: SignatureAlgorithm.Value, keyUsage: int)
    | OpCreateVerifier(signatureAlgorithm: SignatureAlgorithm.Value)
    | OpUseInRole(connectionEnd: ConnectionEnd.Value, keyExchangeAlgorithm: KeyExchangeAlgorithm.Value)
    | OpGetLegacySignatureAlgorithm

  /** Whether an operation calls `getPublicKey`. */
  predicate ConsultsKey(lib: Collaborators, algId: AlgorithmIdentifier, c: Call) {
    match c
    case OpGetPublicKey => true
    case OpGetPubKey(_) => true
    case OpSupportsSignatureAlgorithm(_, usage) => Dispatch.SupportsKeyUsage(usage)
    case OpCreateVerifier(a) => Dispatch.CreateVerifierConsultsKey(lib, algId, a)
    case OpUseInRole(e, kex) => Dispatch.UseInRoleConsultsKey(e, kex)
    case OpGetLegacySignatureAlgorithm => true
  }

  /** The cache after one operation. */
  function After(lib: Collaborators, keyInfo: SubjectPublicKeyInfo, s: CacheState, c: Call): CacheState {
    if ConsultsKey(lib, keyInfo.algorithm, c) then GetPublicKeyStep(lib, keyInfo, s) else s
  }

  /** The cache after a sequence of operations, first to last. */
  function Run(lib: Collaborators, keyInfo: SubjectPublicKeyInfo, s: CacheState, calls: seq<Call>): CacheState
    decreases |calls|
  {
    if calls == [] then s else Run(lib, keyInfo, After(lib, keyInfo, s, calls[0]), calls[1..])
  }

  /** How many operations of a sequence call `getPublicKey`. */
  function Consulting(lib: Collaborators, algId: AlgorithmIdentifier, calls: seq<Call>): nat
  {
    if calls == [] then 0
    else (if ConsultsKey(lib, algId, calls[0]) then 1 else 0) + Consulting(lib, algId, calls[1..])
  }

  /** Once the cache holds a key, no sequence of operations replaces it or runs the factory again. */
  lemma {:induction false} CachedKeyIsFinal(lib: Collaborators, keyInfo: SubjectPublicKeyInfo, s: CacheState, calls: seq<Call>)
    requires s.pubKey.Some?
    ensures Run(lib, keyInfo, s, calls) == s
    decreases |calls|
  {
    if calls != [] {
      CachedKeyIsFinal(lib, keyInfo, After(lib, keyInfo, s, calls[0]), calls[1..]);
    }
  }

  /** Whatever the operations, the cache only ever holds the key the factory yields. */
  lemma {:induction false} RunKeepsCoherence(lib: Collaborators, keyInfo: SubjectPublicKeyInfo, s: CacheState, calls: seq<Call>)
    requires Coherent(lib, keyInfo, s)
    ensures Coherent(lib, keyInfo, Run(lib, keyInfo, s, calls))
    decreases |calls|
  {
    if calls != [] {
      RunKeepsCoherence(lib, keyInfo, After(lib, keyInfo, s, calls[0]), calls[1..]);
    }
  }

  /**
   * When the key-info parses, the factory runs at most once over a whole sequence of
   * operations: on the first that consults the key, whose key is then cached for good.
   */
  lemma {:induction false} SuccessfulParseRunsOnce(lib: Collaborators, keyInfo: SubjectPublicKeyInfo, s: CacheState, calls: seq<Call>)
    requires lib.createKey(keyInfo).Parsed? && s.pubKey.None?
    ensures Run(lib, keyInfo, s, calls).parses == s.parses + (if Consulting(lib, keyInfo.algorithm, calls) == 0 then 0 else 1)
    ensures Run(lib, keyInfo, s, calls).pubKey ==
      (if Consulting(lib, keyInfo.algorithm, calls) == 0 then None else Some(lib.createKey(keyInfo).key))
    decreases |calls|
  {
    if calls != [] {
      var s' := After(lib, keyInfo, s, calls[0]);
      if ConsultsKey(lib, keyInfo.algorithm, calls[0]) {
        CachedKeyIsFinal(lib, keyInfo, s', calls[1..]);
      } else {
        SuccessfulParseRunsOnce(lib, keyInfo, s', calls[1..]);
      }
    }
  }

  /**
   * When the key-info does not parse, the cache stays empty and every operation that
   * consults the key runs the factory again (and fails again).
   */
  lemma {:induction false} FailedParseRepeats(lib: Collaborators, keyInfo: SubjectPublicKeyInfo, s: CacheState, calls: seq<Call>)
    requires !lib.createKey(keyInfo).Parsed? && s.pubKey.None?
    ensures Run(lib, keyInfo, s, calls) == CacheState(None, s.parses + Consulting(lib, keyInfo.algorithm, calls))
    decreases |calls|
  {
    if calls != [] {
      FailedParseRepeats(lib, keyInfo, After(lib, keyInfo, s, calls[0]), calls[1..]);
    }
  }

  /**
   * When the factory rejects the key-info with an unchecked exception, every
   * operation that consults the key fails with unsupported_certificate.
   */
  lemma UnparsableKeyFailsEverywhere(
    lib: Collaborators, keyInfo: SubjectPublicKeyInfo, a: SignatureAlgorithm.Value,
    connectionEnd: ConnectionEnd.Value, kex: KeyExchangeAlgorithm.Value)
    requires lib.createKey(keyInfo).RuntimeFailure?
    ensures var e := FatalAlert(unsupported_certificate);
      var parsed := ParseResult(lib, keyInfo);
      && Dispatch.SupportsSignatureAlgorithm(lib, keyInfo.algorithm, parsed, a) == Failure(e)
      && Dispatch.SupportsSignatureAlgorithmCA(lib, keyInfo.algorithm, parsed, a) == Failure(e)
      && Dispatch.LegacySignatureAlgorithm(parsed) == Failure(e)
      && (Dispatch.CreateVerifierConsultsKey(lib, keyInfo.algorithm, a) ==>
            Dispatch.CreateVerifier(lib, keyInfo.algorithm, parsed, a) == Failure(e))
      && (Dispatch.UseInRoleConsultsKey(connectionEnd, kex) ==>
            Dispatch.UseInRole(connectionEnd, kex, parsed) == Fail(e))
      && (forall f :: f != OtherFamily ==> Dispatch.PubKeyCast(parsed, f) == Failure(e))
  {
  }

  /** From a fresh credential, the factory runs at most once for a parsable key-info. */
  lemma AtMostOneSuccessfulParse(lib: Collaborators, keyInfo: SubjectPublicKeyInfo, calls: seq<Call>)
    requires lib.createKey(keyInfo).Parsed?
    ensures Run(lib, keyInfo, Fresh, calls).parses <= 1
    ensures Coherent(lib, keyInfo, Run(lib, keyInfo, Fresh, calls))
  {
    SuccessfulParseRunsOnce(lib, keyInfo, Fresh, calls);
  }
}
