/** The external Bolt client driver's configuration surface, as the migration
    driver sees it: `Config.ConfigBuilder` as a record of optional settings,
    the trust-strategy enum with its `valueOf`, and `AuthToken`. The builder's
    own validation and defaults belong to the external library and are not
    part of this model: an unset setting (`None`) stands for the library default. */
module BoltConfig {
  import opened Wrappers
  import opened JavaPlatform

  /** `java.util.concurrent.TimeUnit`, restricted to the two units the driver uses. */
  datatype TimeUnit = Milliseconds | Minutes

  /** An amount of time as the builder's `with...(long, TimeUnit)` methods receive it. */
  datatype Duration = Duration(amount: int, unit: TimeUnit)

  /** The policy objects built by `Config.TrustStrategy.trustAllCertificates()`,
      `trustSystemCertificates()` and `trustCustomCertificateSignedBy(File)`. */
  datatype Trust = TrustAll | TrustSystem | TrustCustomCa(certificateFile: string)

  /** `Config.TrustStrategy.Strategy`. */
  datatype Strategy =
    | TrustAllCertificates
    | TrustCustomCaSignedCertificates
    | TrustSystemCaSignedCertificates
  {
    /** `Enum.name()`: the constant's identifier in the Java source. */
    function Name(): string {
      match this
      case TrustAllCertificates => "TRUST_ALL_CERTIFICATES"
      case TrustCustomCaSignedCertificates => "TRUST_CUSTOM_CA_SIGNED_CERTIFICATES"
      case TrustSystemCaSignedCertificates => "TRUST_SYSTEM_CA_SIGNED_CERTIFICATES"
    }
  }

  const StrategyClassName := "org.neo4j.driver.Config.TrustStrategy.Strategy"

  /** `Strategy.valueOf(name)`: the constant with exactly that name, or the
      IllegalArgumentException `Enum.valueOf` throws for any other string. */
  function StrategyValueOf(name: string): (r: Result<Strategy, JavaException>)
    ensures r.Success? ==> r.value.Name() == name
    ensures r.Failure? ==> forall s: Strategy :: s.Name() != name
    ensures r.Failure? ==> r.error == IllegalArgumentException("No enum constant " + StrategyClassName + "." + name)
  {
    if name == TrustAllCertificates.Name() then Success(TrustAllCertificates)
    else if name == TrustCustomCaSignedCertificates.Name() then Success(TrustCustomCaSignedCertificates)
    else if name == TrustSystemCaSignedCertificates.Name() then Success(TrustSystemCaSignedCertificates)
    else Failure(IllegalArgumentException("No enum constant " + StrategyClassName + "." + name))
  }

  /** `valueOf` inverts `name()`: every constant is found again by its name. */
  lemma StrategyValueOfName(s: Strategy)
    ensures StrategyValueOf(s.Name()) == Success(s)
  {
  }

  /** The builder state: each setting the driver can change, unset until a
      `with...` call sets it. Encryption is tri-state (unset, on, off); leaked
      session logging can only be switched on. */
  datatype Config = Config(
    encryption: Option<bool>,
    trust: Option<Trust>,
    connectionAcquisitionTimeout: Option<Duration>,
    connectionLivenessCheckTimeout: Option<Duration>,
    connectionTimeout: Option<Duration>,
    leakedSessionsLogging: bool,
    maxConnectionLifetime: Option<Duration>,
    maxConnectionPoolSize: Option<int>,
    maxTransactionRetryTime: Option<Duration>)

  /** `Config.builder()`: nothing set. */
  const DefaultConfig := Config(None, None, None, None, None, false, None, None, None)

  /** `AuthTokens.none()` and `AuthTokens.basic(user, password)`; a password of
      `None` is the Java null the driver passes when no password is given. */
  datatype AuthToken = NoAuth | Basic(user: string, password: Option<string>)
}
