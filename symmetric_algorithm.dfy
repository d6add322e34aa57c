/**
 * The symmetric algorithms and the parser that turns an algorithm name into
 * one of them. Unlike option names, algorithm names are matched exactly,
 * case included.
 */
module Algorithms {
  import opened CryptoErrors
  import opened Lowercase

  /** `None` is a placeholder that no name parses to. */
  datatype SymmetricAlgorithm =
    | None
    | HmacSha256
    | HmacSha512
    | Sha256
    | Sha512
    | Sha512_256
    | Aes128Gcm
    | Aes256Gcm

  /** The exact name each real algorithm is known by. */
  function Name(a: SymmetricAlgorithm): string
    requires a != None
  {
    match a
    case HmacSha256 => "HMAC/SHA-256"
    case HmacSha512 => "HMAC/SHA-512"
    case Sha256 => "SHA-256"
    case Sha512 => "SHA-512"
    case Sha512_256 => "SHA-512/256"
    case Aes128Gcm => "AES-128-GCM"
    case Aes256Gcm => "AES-256-GCM"
  }

  /**
   * `try_from`: accepts exactly the seven names, each for its own algorithm,
   * never yields `None`, and rejects every other string with
   * `UnsupportedAlgorithm`.
   */
  function TryFrom(s: string): (r: Result<SymmetricAlgorithm>)
    ensures r.Ok? ==> r.value != None && Name(r.value) == s
    ensures r.Err? ==> r.error == UnsupportedAlgorithm
    ensures r.Err? ==> forall a :: a != None ==> Name(a) != s
  {
    match s
    case "HMAC/SHA-256" => Ok(HmacSha256)
    case "HMAC/SHA-512" => Ok(HmacSha512)
    case "SHA-256" => Ok(Sha256)
    case "SHA-512" => Ok(Sha512)
    case "SHA-512/256" => Ok(Sha512_256)
    case "AES-128-GCM" => Ok(Aes128Gcm)
    case "AES-256-GCM" => Ok(Aes256Gcm)
    case _ => Err(UnsupportedAlgorithm)
  }

  /** Parsing an algorithm's name gives back that algorithm. */
  lemma TryFromName(a: SymmetricAlgorithm)
    requires a != None
    ensures TryFrom(Name(a)) == Ok(a)
  {
  }

  /** Distinct accepted strings parse to distinct algorithms. */
  lemma TryFromInjective(s1: string, s2: string)
    requires TryFrom(s1).Ok? && TryFrom(s2).Ok?
    ensures TryFrom(s1) == TryFrom(s2) <==> s1 == s2
  {
  }

  /** Every accepted name starts with an ASCII capital. */
  lemma NameStartsUpper(a: SymmetricAlgorithm)
    requires a != None
    ensures |Name(a)| > 0 && IsAsciiUpper(Name(a)[0])
  {
  }

  /**
   * Matching is case-sensitive: a string with no ASCII capital in it, such as
   * "sha-256" or any lower-cased string, is rejected.
   */
  lemma LowerCaseNamesRejected(s: string)
    ensures TryFrom(ToLower(s)) == Err(UnsupportedAlgorithm)
    ensures TryFrom("sha-256") == Err(UnsupportedAlgorithm)
  {
    // An accepted name starts with a capital; no lower-cased string does.
    if TryFrom(ToLower(s)).Ok? {
      NameStartsUpper(TryFrom(ToLower(s)).value);
    }
  }
}
