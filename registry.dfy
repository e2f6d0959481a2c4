/** Small helper datatypes for values that may be absent or may carry an exception. */
module Wrappers {

  datatype Option<+T> = None | Some(value: T)

  /** The value a Java method returns, or the exception it throws. */
  datatype Result<+T, +E> = Success(value: T) | Failure(error: E)

  /** The outcome of a Java `void` method that may throw. */
  datatype Outcome<+E> = Pass | Fail(error: E)
}

/**
 * TLS signature algorithms as the library numbers them (a Java `short`): the
 * SignatureAlgorithm registry of section 7.4.1.4.1 of RFC 5246, extended with the
 * low bytes of the RSASSA-PSS and EdDSA signature schemes of section 4.2.3 of RFC 8446.
 * The registry's own lower-case names are kept.
 */
module SignatureAlgorithm {

  /** A Java `short`. */
  type Value = x: int | -0x8000 <= x < 0x8000

  const rsa: Value := 1
  const dsa: Value := 2
  const ecdsa: Value := 3
  const rsa_pss_rsae_sha256: Value := 4
  const rsa_pss_rsae_sha384: Value := 5
  const rsa_pss_rsae_sha512: Value := 6
  const ed25519: Value := 7
  const ed448: Value := 8
  const rsa_pss_pss_sha256: Value := 9
  const rsa_pss_pss_sha384: Value := 10
  const rsa_pss_pss_sha512: Value := 11

  /** The value `getLegacySignatureAlgorithm` returns when no algorithm applies. */
  const none: Value := -1

  predicate IsRsaPssRsae(a: Value) {
    a == rsa_pss_rsae_sha256 || a == rsa_pss_rsae_sha384 || a == rsa_pss_rsae_sha512
  }

  predicate IsRsaPssPss(a: Value) {
    a == rsa_pss_pss_sha256 || a == rsa_pss_pss_sha384 || a == rsa_pss_pss_sha512
  }

  /** The eleven algorithms a raw-key credential knows how to dispatch. */
  predicate IsListed(a: Value) {
    a == rsa || a == dsa || a == ecdsa || a == ed25519 || a == ed448
    || IsRsaPssRsae(a) || IsRsaPssPss(a)
  }
}

/**
 * Key-exchange algorithms (a Java `int`), with the library's numbering; only the six
 * that role gating names are listed, every other value falls to the rejecting case.
 */
module KeyExchangeAlgorithm {

  type Value = x: int | -0x8000_0000 <= x < 0x8000_0000

  const RSA: Value := 1
  const DH_DSS: Value := 7
  const DH_RSA: Value := 9
  const RSA_PSK: Value := 15
  const ECDH_ECDSA: Value := 16
  const ECDH_RSA: Value := 18
}

/** Which end of the connection a credential is used at (a Java `int`). */
module ConnectionEnd {

  type Value = x: int | -0x8000_0000 <= x < 0x8000_0000

  const server: Value := 0
  const client: Value := 1
}

/**
 * X.509 key-usage bits (section 4.2.1.3 of RFC 5280) in the library's encoding; a raw
 * key carries no key-usage extension, so the bits are only ever passed through.
 */
module KeyUsage {

  const digitalSignature: int := 0x80
  const keyEncipherment: int := 0x20
  const keyAgreement: int := 0x08
  const keyCertSign: int := 0x04
}

/** The three fatal alerts this credential raises (section 7.2 of RFC 5246). */
module Alerts {

  datatype AlertDescription = unsupported_certificate | certificate_unknown | internal_error
}
