/**
 * The TLS configuration the server builds when a certificate is configured:
 * a fixed protocol floor, curve and cipher-suite preferences, server-side
 * suite choice, and a severity for the certificate's remaining validity.
 * Protocol versions, curves and suites carry their IANA registry numbers.
 */
module TlsPolicy {
  import opened Wrappers
  import opened GoInts

  type Uint16 = x: int | 0 <= x < 0x1_0000

  /** TLS 1.2 (protocol version 3,3). */
  const VersionTLS12: Uint16 := 0x0303

  /** Named elliptic curves (secp256r1, secp384r1, secp521r1). */
  const CurveP256: Uint16 := 23
  const CurveP384: Uint16 := 24
  const CurveP521: Uint16 := 25

  /** TLS 1.3 suites. */
  const TLS_AES_128_GCM_SHA256: Uint16 := 0x1301
  const TLS_AES_256_GCM_SHA384: Uint16 := 0x1302
  const TLS_CHACHA20_POLY1305_SHA256: Uint16 := 0x1303
  /** TLS 1.2 suites with ECDHE key exchange and RSA authentication. */
  const TLS_ECDHE_RSA_WITH_AES_128_CBC_SHA256: Uint16 := 0xc027
  const TLS_ECDHE_RSA_WITH_AES_128_GCM_SHA256: Uint16 := 0xc02f
  const TLS_ECDHE_RSA_WITH_AES_256_GCM_SHA384: Uint16 := 0xc030

  datatype Protocol = Tls13 | Tls12EcdheRsa
  datatype BulkCipher = Aes128Gcm | Aes256Gcm | ChaCha20Poly1305 | Aes128Cbc

  /** What a suite number stands for, for the suites this policy names. */
  function Describe(suite: Uint16): Option<(Protocol, BulkCipher)> {
    if suite == TLS_AES_128_GCM_SHA256 then Some((Tls13, Aes128Gcm))
    else if suite == TLS_AES_256_GCM_SHA384 then Some((Tls13, Aes256Gcm))
    else if suite == TLS_CHACHA20_POLY1305_SHA256 then Some((Tls13, ChaCha20Poly1305))
    else if suite == TLS_ECDHE_RSA_WITH_AES_128_CBC_SHA256 then Some((Tls12EcdheRsa, Aes128Cbc))
    else if suite == TLS_ECDHE_RSA_WITH_AES_128_GCM_SHA256 then Some((Tls12EcdheRsa, Aes128Gcm))
    else if suite == TLS_ECDHE_RSA_WITH_AES_256_GCM_SHA384 then Some((Tls12EcdheRsa, Aes256Gcm))
    else None
  }

  /** An authenticated-encryption (AEAD) suite. */
  predicate IsAead(suite: Uint16) {
    Describe(suite).Some? && Describe(suite).value.1 != Aes128Cbc
  }

  /** A CBC-mode suite. */
  predicate IsCbc(suite: Uint16) {
    Describe(suite).Some? && Describe(suite).value.1 == Aes128Cbc
  }

  predicate IsTls13(suite: Uint16) {
    Describe(suite).Some? && Describe(suite).value.0 == Tls13
  }

  predicate IsEcdheRsa(suite: Uint16) {
    Describe(suite).Some? && Describe(suite).value.0 == Tls12EcdheRsa
  }

  /** The size in bits of a curve's field. */
  function CurveBits(curve: Uint16): nat {
    if curve == CurveP521 then 521
    else if curve == CurveP384 then 384
    else if curve == CurveP256 then 256
    else 0
  }

  /** The parts of the leaf certificate the server reports on. */
  datatype Leaf = Leaf(dnsNames: seq<string>, issuerCommonName: string, notAfter: int)

  datatype Config = Config(
    minVersion: Uint16,
    curvePreferences: seq<Uint16>,
    preferServerCipherSuites: bool,
    cipherSuites: seq<Uint16>,
    certificate: Leaf)

  /** The cipher suites in order of preference. */
  const CipherSuites: seq<Uint16> := [
    TLS_AES_256_GCM_SHA384,
    TLS_AES_128_GCM_SHA256,
    TLS_CHACHA20_POLY1305_SHA256,
    TLS_ECDHE_RSA_WITH_AES_256_GCM_SHA384,
    TLS_ECDHE_RSA_WITH_AES_128_GCM_SHA256,
    TLS_ECDHE_RSA_WITH_AES_128_CBC_SHA256]

  /**
   * The configuration built around a parsed leaf certificate. The floor is
   * TLS 1.2; curves go strongest first; the server picks the suite; there
   * are six suites, the three TLS 1.3 ones first, then the two ECDHE-RSA GCM
   * ones, and the one CBC suite last for older clients.
   */
  function PolicyFor(leaf: Leaf): (c: Config)
    ensures c.minVersion == VersionTLS12
    ensures c.curvePreferences == [CurveP521, CurveP384, CurveP256]
    ensures forall i, j :: 0 <= i < j < |c.curvePreferences| ==>
      CurveBits(c.curvePreferences[i]) > CurveBits(c.curvePreferences[j])
    ensures c.preferServerCipherSuites
    ensures |c.cipherSuites| == 6
    ensures forall i, j :: 0 <= i < j < 6 ==> c.cipherSuites[i] != c.cipherSuites[j]
    ensures forall i :: 0 <= i < 3 ==> IsTls13(c.cipherSuites[i]) && IsAead(c.cipherSuites[i])
    ensures forall i :: 3 <= i < 5 ==> IsEcdheRsa(c.cipherSuites[i]) && IsAead(c.cipherSuites[i])
    ensures c.cipherSuites[..3] == [TLS_AES_256_GCM_SHA384, TLS_AES_128_GCM_SHA256, TLS_CHACHA20_POLY1305_SHA256]
    ensures c.cipherSuites[3..5] == [TLS_ECDHE_RSA_WITH_AES_256_GCM_SHA384, TLS_ECDHE_RSA_WITH_AES_128_GCM_SHA256]
    ensures c.cipherSuites[5] == TLS_ECDHE_RSA_WITH_AES_128_CBC_SHA256
    ensures forall i :: 0 <= i < 6 ==> (IsCbc(c.cipherSuites[i]) <==> i == 5)
    ensures forall i :: 0 <= i < 6 ==> IsAead(c.cipherSuites[i]) || IsCbc(c.cipherSuites[i])
    ensures c.certificate == leaf
  {
    Config(VersionTLS12, [CurveP521, CurveP384, CurveP256], true, CipherSuites, leaf)
  }

  const Hour: int := 3600 * 1_000_000_000

  /** The warning threshold: thirty days. */
  const Month: int := Hour * 24 * 30

  /**
   * time.Until(notAfter) at instant now (both in nanoseconds): the
   * difference, saturated at the bounds of a Duration (an Int64).
   */
  function Until(notAfter: int, now: int): (d: Int64)
    ensures MinInt64 <= notAfter - now <= MaxInt64 ==> d == notAfter - now
    ensures notAfter - now > MaxInt64 ==> d == MaxInt64
    ensures notAfter - now < MinInt64 ==> d == MinInt64
  {
    var diff := notAfter - now;
    if diff > MaxInt64 then MaxInt64
    else if diff < MinInt64 then MinInt64
    else diff
  }

  datatype Severity = Warn | Debug

  /**
   * The severity of the certificate report at instant now. A certificate is
   * reported as a warning exactly when it has strictly less than thirty days
   * of validity left; saturation does not move the boundary.
   */
  function ExpirySeverity(notAfter: int, now: int): (s: Severity)
    ensures s == Warn <==> notAfter - now < Month
  {
    if Until(notAfter, now) < Month then Warn else Debug
  }

  /** Ten days left warns, exactly thirty days and ninety days do not. */
  lemma ExpiryExamples(now: int)
    ensures ExpirySeverity(now + 10 * 24 * Hour, now) == Warn
    ensures ExpirySeverity(now + 30 * 24 * Hour - 1, now) == Warn
    ensures ExpirySeverity(now + 30 * 24 * Hour, now) == Debug
    ensures ExpirySeverity(now + 90 * 24 * Hour, now) == Debug
  {
  }

  /** The configuration and the severity of the certificate report. */
  datatype Setup = Setup(config: Config, severity: Severity)

  /**
   * The exit status of a failed TLS setup. The recovery handler logs at fatal
   * level first, and a fatal-level log entry ends the process with status 1,
   * so the os.Exit(-1) after it is never reached.
   */
  const FatalExitCode: int := 1

  /**
   * tlsConfig. The parsed leaf is None when the key pair or the leaf
   * certificate cannot be parsed; either failure panics and the recovery
   * handler ends the process. Otherwise the policy is built around the leaf
   * and the expiry severity is computed at instant now.
   */
  function TlsConfig(leaf: Option<Leaf>, now: int): (r: Result<Setup>)
    ensures r.Exit? <==> leaf.None?
    ensures r.Exit? ==> r.code == FatalExitCode
    ensures r.Ok? ==> r.value.config == PolicyFor(leaf.value)
    ensures r.Ok? ==> (r.value.severity == Warn <==> leaf.value.notAfter - now < Month)
  {
    match leaf
    case None => Exit(FatalExitCode)
    case Some(l) =>
      Ok(Setup(PolicyFor(l), ExpirySeverity(l.notAfter, now)))
  }
}
