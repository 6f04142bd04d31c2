/** `Neo4JMigrationDriver`: the request-time translation of a JDBC URL and a
    property bag into the Bolt driver's connection settings. URL normalisation,
    credential selection, the property-to-configuration mapping with its
    validation, and the error shaping of `connect`. */
module Neo4JMigrationDriver {
  import opened Wrappers
  import opened JavaPlatform
  import opened BoltConfig

  /** `java.util.Properties`, all of whose keys and values are strings. */
  type Properties = map<string, string>

  /** The prefix this driver passes to its superclass; `getPrefix()` returns it. */
  const JdbcBoltPrefix := "bolt"
  /** `Neo4jDriver.JDBC_PREFIX`. */
  const JdbcPrefix := "jdbc:neo4j:"

  const NoSslKey := "nossl"
  const UserKey := "user"
  const PasswordKey := "password"
  /** The user name tried when only a password is given. */
  const DefaultUser := "neo4j"

  const InvalidTrustStrategyMessage := "Invalid value for trust.strategy param."
  const MissingCertificateMessage := "Missing parameter 'trusted.certificate.file' : A FILE IS REQUIRED"
  const NullUrlMessage := "null is not a valid url"
  const NotANumber := "is not a number"
  const NotABoolean := "is not a boolean"

  /** The property-key constants the driver inherits from its superclass. */
  datatype KeyNames = KeyNames(
    trustStrategy: string,
    trustedCertificate: string,
    connectionAcquisitionTimeout: string,
    connectionLivenessCheckTimeout: string,
    connectionTimeout: string,
    encryption: string,
    leakedSessionsLogging: string,
    maxConnectionLifetime: string,
    maxConnectionPoolSize: string,
    maxTransactionRetryTime: string)

  // ---------------------------------------------------------------------------
  // URL handling
  // ---------------------------------------------------------------------------

  /** A URL is in Bolt normal form unless it starts with `prefix:` followed by
      a character other than '/'. */
  predicate InBoltNormalForm(url: string, prefix: string) {
    var p := prefix + ":";
    !(|url| > |p| && url[..|p|] == p && url[|p|] != '/')
  }

  /** `url.replaceAll("^(" + prefix + ":)([^/])", "$1//$2")`: "//" is inserted
      right after a leading `prefix:` whose next character is not '/'. The
      pattern is anchored, so it matches at most once. */
  function InsertSlashesAfterPrefix(url: string, prefix: string): (r: string)
    ensures InBoltNormalForm(r, prefix)
    ensures InBoltNormalForm(url, prefix) ==> r == url
    ensures !InBoltNormalForm(url, prefix) ==>
      r == url[..|prefix| + 1] + "//" + url[|prefix| + 1..]
  {
    var p := prefix + ":";
    if |url| > |p| && url[..|p|] == p && url[|p|] != '/' then
      var r := p + "//" + url[|p|..];
      assert r[..|p|] == p && r[|p|] == '/';
      r
    else url
  }

  /** Line 79 of `connect`: every occurrence of the JDBC prefix is removed,
      then a `bolt:` scheme without slashes gets "//". The result is always in
      Bolt normal form. */
  function BoltUrl(url: string): (r: string)
    ensures InBoltNormalForm(r, JdbcBoltPrefix)
  {
    InsertSlashesAfterPrefix(Replace(url, JdbcPrefix, ""), JdbcBoltPrefix)
  }

  /** `removeUrlProperties`: the part of the URL before the first '?'. */
  function RemoveUrlProperties(url: string): (r: string)
    ensures r <= url
    ensures '?' !in r
    ensures r == url || url[|r|] == '?'
    ensures '?' !in url ==> r == url
  {
    if IndexOf(url, '?') != -1 then url[..IndexOf(url, '?')] else url
  }

  // ---------------------------------------------------------------------------
  // Credentials
  // ---------------------------------------------------------------------------

  /** `getAuthToken`: no authentication when neither user nor password is
      given; otherwise basic authentication with the given user, or with
      `neo4j` when only a password is given. */
  function GetAuthToken(properties: Properties): (r: AuthToken)
    ensures r.NoAuth? <==> UserKey !in properties && PasswordKey !in properties
    ensures r.Basic? && UserKey in properties ==> r.user == properties[UserKey]
    ensures r.Basic? && UserKey !in properties ==> r.user == DefaultUser
    ensures r.Basic? ==> r.password == Get(properties, PasswordKey)
  {
    if UserKey !in properties then
      if PasswordKey in properties then Basic(DefaultUser, Some(properties[PasswordKey]))
      else NoAuth
    else Basic(properties[UserKey], Get(properties, PasswordKey))
  }

  // ---------------------------------------------------------------------------
  // Parse-or-fail helpers
  // ---------------------------------------------------------------------------

  /** The message `setValueConfig` puts in the IllegalArgumentException it throws. */
  function InvalidValue(key: string, value: string, errorMessage: string): JavaException {
    IllegalArgumentException(key + ": " + value + " " + errorMessage)
  }

  /** `setValueConfig`: when `key` is present, apply `op` to its value; `op`
      returning `None` stands for `op` throwing, which becomes an
      IllegalArgumentException naming the key and the value. */
  function SetValueConfig(info: Properties, builder: Config, key: string,
                          op: string -> Option<Config>, errorMessage: string): (r: Result<Config, JavaException>)
    ensures key !in info ==> r == Success(builder)
    ensures key in info ==> (r.Success? <==> op(info[key]).Some?)
    ensures key in info && r.Success? ==> r.value == op(info[key]).value
    ensures key in info && r.Failure? ==> r.error == InvalidValue(key, info[key], errorMessage)
  {
    if key in info then
      var value := info[key];
      match op(value)
      case Some(b) => Success(b)
      case None => Failure(InvalidValue(key, value, errorMessage))
    else Success(builder)
  }

  /** `setLongConfig`: the value must be what `Long.parseLong` accepts. */
  function SetLongConfig(info: Properties, builder: Config, key: string, op: int -> Config): (r: Result<Config, JavaException>)
    ensures key !in info ==> r == Success(builder)
    ensures key in info && ParseLong(info[key]).Some? ==> r == Success(op(ParseLong(info[key]).value))
    ensures key in info && ParseLong(info[key]).None? ==> r == Failure(InvalidValue(key, info[key], NotANumber))
  {
    SetValueConfig(info, builder, key,
      (value: string) => match ParseLong(value) case Some(n) => Some(op(n)) case None => None,
      NotANumber)
  }

  /** The values `setBooleanConfig` accepts: "true" or "false", ignoring case. */
  predicate IsBooleanLiteral(value: string) {
    EqualsIgnoreCase("true", value) || EqualsIgnoreCase("false", value)
  }

  /** `setBooleanConfig`: the value must be "true" or "false" ignoring case,
      and is then read with `Boolean.parseBoolean`. */
  function SetBooleanConfig(info: Properties, builder: Config, key: string, op: bool -> Config): (r: Result<Config, JavaException>)
    ensures key !in info ==> r == Success(builder)
    ensures key in info && IsBooleanLiteral(info[key]) ==> r == Success(op(ParseBoolean(info[key])))
    ensures key in info && !IsBooleanLiteral(info[key]) ==> r == Failure(InvalidValue(key, info[key], NotABoolean))
  {
    SetValueConfig(info, builder, key,
      (value: string) => if IsBooleanLiteral(value) then Some(op(ParseBoolean(value))) else None,
      NotABoolean)
  }

  // ---------------------------------------------------------------------------
  // The per-key setters
  // ---------------------------------------------------------------------------

  /** `setTrustStrategy`: an absent key leaves the builder as it is; a value
      that is not the exact name of a strategy is rejected; the system-CA
      strategy trusts the system store, the custom-CA strategy needs a
      certificate file, and trust-all trusts everything. */
  function SetTrustStrategy(properties: Properties, keys: KeyNames, builder: Config): (r: Result<Config, JavaException>)
    ensures keys.trustStrategy !in properties ==> r == Success(builder)
    ensures keys.trustStrategy in properties ==>
      var strategy := StrategyValueOf(properties[keys.trustStrategy]);
      && (strategy.Failure? ==> r == Failure(SQLException(InvalidTrustStrategyMessage, Some(strategy.error))))
      && (strategy == Success(TrustSystemCaSignedCertificates) ==> r == Success(builder.(trust := Some(TrustSystem))))
      && (strategy == Success(TrustAllCertificates) ==> r == Success(builder.(trust := Some(TrustAll))))
      && (strategy == Success(TrustCustomCaSignedCertificates) && keys.trustedCertificate !in properties ==>
            r == Failure(SQLException(MissingCertificateMessage, None)))
      && (strategy == Success(TrustCustomCaSignedCertificates) && keys.trustedCertificate in properties ==>
            r == Success(builder.(trust := Some(TrustCustomCa(properties[keys.trustedCertificate])))))
  {
    if keys.trustStrategy in properties then
      match StrategyValueOf(properties[keys.trustStrategy])
      case Failure(e) => Failure(SQLException(InvalidTrustStrategyMessage, Some(e)))
      case Success(strategy) =>
        match strategy
        case TrustSystemCaSignedCertificates => Success(builder.(trust := Some(TrustSystem)))
        case TrustCustomCaSignedCertificates => HandleTrustStrategyWithFile(properties, keys, strategy, builder)
        case TrustAllCertificates => Success(builder.(trust := Some(TrustAll)))
    else Success(builder)
  }

  /** `handleTrustStrategyWithFile`: without a certificate file the call fails,
      whatever the strategy; with one, the custom-CA strategy trusts
      certificates signed by that file and any other strategy changes nothing. */
  function HandleTrustStrategyWithFile(properties: Properties, keys: KeyNames, strategy: Strategy, builder: Config): (r: Result<Config, JavaException>)
    ensures keys.trustedCertificate !in properties ==> r == Failure(SQLException(MissingCertificateMessage, None))
    ensures keys.trustedCertificate in properties && strategy == TrustCustomCaSignedCertificates ==>
      r == Success(builder.(trust := Some(TrustCustomCa(properties[keys.trustedCertificate]))))
    ensures keys.trustedCertificate in properties && strategy != TrustCustomCaSignedCertificates ==> r == Success(builder)
  {
    if keys.trustedCertificate in properties then
      match strategy
      case TrustCustomCaSignedCertificates =>
        Success(builder.(trust := Some(TrustCustomCa(properties[keys.trustedCertificate]))))
      case _ => Success(builder)
    else Failure(SQLException(MissingCertificateMessage, None))
  }

  /** `setConnectionAcquisitionTimeout`: the value is a number of milliseconds. */
  function SetConnectionAcquisitionTimeout(info: Properties, keys: KeyNames, builder: Config): (r: Result<Config, JavaException>)
    ensures keys.connectionAcquisitionTimeout !in info ==> r == Success(builder)
    ensures keys.connectionAcquisitionTimeout in info ==>
      var value := info[keys.connectionAcquisitionTimeout];
      match ParseLong(value)
      case Some(n) => r == Success(builder.(connectionAcquisitionTimeout := Some(Duration(n, Milliseconds))))
      case None => r == Failure(InvalidValue(keys.connectionAcquisitionTimeout, value, NotANumber))
  {
    SetLongConfig(info, builder, keys.connectionAcquisitionTimeout,
      ms => builder.(connectionAcquisitionTimeout := Some(Duration(ms, Milliseconds))))
  }

  /** `setIdleTimeBeforeConnectionTest`: the liveness-check timeout, in minutes. */
  function SetIdleTimeBeforeConnectionTest(info: Properties, keys: KeyNames, builder: Config): (r: Result<Config, JavaException>)
    ensures keys.connectionLivenessCheckTimeout !in info ==> r == Success(builder)
    ensures keys.connectionLivenessCheckTimeout in info ==>
      var value := info[keys.connectionLivenessCheckTimeout];
      match ParseLong(value)
      case Some(n) => r == Success(builder.(connectionLivenessCheckTimeout := Some(Duration(n, Minutes))))
      case None => r == Failure(InvalidValue(keys.connectionLivenessCheckTimeout, value, NotANumber))
  {
    SetLongConfig(info, builder, keys.connectionLivenessCheckTimeout,
      ms => builder.(connectionLivenessCheckTimeout := Some(Duration(ms, Minutes))))
  }

  /** `setConnectionTimeout`: the value is a number of milliseconds. */
  function SetConnectionTimeout(info: Properties, keys: KeyNames, builder: Config): (r: Result<Config, JavaException>)
    ensures keys.connectionTimeout !in info ==> r == Success(builder)
    ensures keys.connectionTimeout in info ==>
      var value := info[keys.connectionTimeout];
      match ParseLong(value)
      case Some(n) => r == Success(builder.(connectionTimeout := Some(Duration(n, Milliseconds))))
      case None => r == Failure(InvalidValue(keys.connectionTimeout, value, NotANumber))
  {
    SetLongConfig(info, builder, keys.connectionTimeout,
      ms => builder.(connectionTimeout := Some(Duration(ms, Milliseconds))))
  }

  /** `setEncryption`: "true" turns encryption on and "false" turns it off,
      overriding whatever was set before. */
  function SetEncryption(info: Properties, keys: KeyNames, builder: Config): (r: Result<Config, JavaException>)
    ensures keys.encryption !in info ==> r == Success(builder)
    ensures keys.encryption in info ==>
      var value := info[keys.encryption];
      && (EqualsIgnoreCase("true", value) ==> r == Success(builder.(encryption := Some(true))))
      && (EqualsIgnoreCase("false", value) ==> r == Success(builder.(encryption := Some(false))))
      && (!IsBooleanLiteral(value) ==> r == Failure(InvalidValue(keys.encryption, value, NotABoolean)))
  {
    SetBooleanConfig(info, builder, keys.encryption,
      condition => if condition then builder.(encryption := Some(true)) else builder.(encryption := Some(false)))
  }

  /** `setLakedSessionLogging`: "true" switches leaked-session logging on;
      "false" leaves the builder as it is. */
  function SetLakedSessionLogging(info: Properties, keys: KeyNames, builder: Config): (r: Result<Config, JavaException>)
    ensures keys.leakedSessionsLogging !in info ==> r == Success(builder)
    ensures keys.leakedSessionsLogging in info ==>
      var value := info[keys.leakedSessionsLogging];
      && (EqualsIgnoreCase("true", value) ==> r == Success(builder.(leakedSessionsLogging := true)))
      && (EqualsIgnoreCase("false", value) ==> r == Success(builder))
      && (!IsBooleanLiteral(value) ==> r == Failure(InvalidValue(keys.leakedSessionsLogging, value, NotABoolean)))
  {
    SetBooleanConfig(info, builder, keys.leakedSessionsLogging,
      condition => if condition then builder.(leakedSessionsLogging := true) else builder)
  }

  /** `setMaxConnectionLifetime`: the value is a number of milliseconds. */
  function SetMaxConnectionLifetime(info: Properties, keys: KeyNames, builder: Config): (r: Result<Config, JavaException>)
    ensures keys.maxConnectionLifetime !in info ==> r == Success(builder)
    ensures keys.maxConnectionLifetime in info ==>
      var value := info[keys.maxConnectionLifetime];
      match ParseLong(value)
      case Some(n) => r == Success(builder.(maxConnectionLifetime := Some(Duration(n, Milliseconds))))
      case None => r == Failure(InvalidValue(keys.maxConnectionLifetime, value, NotANumber))
  {
    SetLongConfig(info, builder, keys.maxConnectionLifetime,
      ms => builder.(maxConnectionLifetime := Some(Duration(ms, Milliseconds))))
  }

  /** `setMaxConnectionPoolSize`: the value must be what `Integer.parseInt` accepts. */
  function SetMaxConnectionPoolSize(info: Properties, keys: KeyNames, builder: Config): (r: Result<Config, JavaException>)
    ensures keys.maxConnectionPoolSize !in info ==> r == Success(builder)
    ensures keys.maxConnectionPoolSize in info ==>
      var value := info[keys.maxConnectionPoolSize];
      match ParseInt(value)
      case Some(n) => r == Success(builder.(maxConnectionPoolSize := Some(n)))
      case None => r == Failure(InvalidValue(keys.maxConnectionPoolSize, value, NotANumber))
  {
    SetValueConfig(info, builder, keys.maxConnectionPoolSize,
      (value: string) => match ParseInt(value) case Some(n) => Some(builder.(maxConnectionPoolSize := Some(n))) case None => None,
      NotANumber)
  }

  /** `setMaxTransactionRetryTime`: the value is a number of milliseconds. */
  function SetMaxTransactionRetryTime(info: Properties, keys: KeyNames, builder: Config): (r: Result<Config, JavaException>)
    ensures keys.maxTransactionRetryTime !in info ==> r == Success(builder)
    ensures keys.maxTransactionRetryTime in info ==>
      var value := info[keys.maxTransactionRetryTime];
      match ParseLong(value)
      case Some(n) => r == Success(builder.(maxTransactionRetryTime := Some(Duration(n, Milliseconds))))
      case None => r == Failure(InvalidValue(keys.maxTransactionRetryTime, value, NotANumber))
  {
    SetLongConfig(info, builder, keys.maxTransactionRetryTime,
      ms => builder.(maxTransactionRetryTime := Some(Duration(ms, Milliseconds))))
  }

  // ---------------------------------------------------------------------------
  // createConfigBuilder
  // ---------------------------------------------------------------------------

  /** One step of `createConfigBuilder`. */
  datatype Setting =
    | NoSsl
    | TrustStrategySetting
    | ConnectionAcquisitionTimeout
    | ConnectionLivenessCheckTimeout
    | ConnectionTimeout
    | Encryption
    | LeakedSessionsLogging
    | MaxConnectionLifetime
    | MaxConnectionPoolSize
    | MaxTransactionRetryTime

  /** The order in which `createConfigBuilder` applies the settings. */
  const SettingOrder: seq<Setting> := [
    NoSsl, TrustStrategySetting, ConnectionAcquisitionTimeout, ConnectionLivenessCheckTimeout,
    ConnectionTimeout, Encryption, LeakedSessionsLogging, MaxConnectionLifetime,
    MaxConnectionPoolSize, MaxTransactionRetryTime]

  /** The property key a setting reads (for the trust strategy, the strategy key). */
  function KeyOf(setting: Setting, keys: KeyNames): string {
    match setting
    case NoSsl => NoSslKey
    case TrustStrategySetting => keys.trustStrategy
    case ConnectionAcquisitionTimeout => keys.connectionAcquisitionTimeout
    case ConnectionLivenessCheckTimeout => keys.connectionLivenessCheckTimeout
    case ConnectionTimeout => keys.connectionTimeout
    case Encryption => keys.encryption
    case LeakedSessionsLogging => keys.leakedSessionsLogging
    case MaxConnectionLifetime => keys.maxConnectionLifetime
    case MaxConnectionPoolSize => keys.maxConnectionPoolSize
    case MaxTransactionRetryTime => keys.maxTransactionRetryTime
  }

  /** Apply one setting to the builder. `nossl` turns encryption off whatever its value. */
  function ApplySetting(setting: Setting, info: Properties, keys: KeyNames, builder: Config): Result<Config, JavaException> {
    match setting
    case NoSsl => Success(if NoSslKey in info then builder.(encryption := Some(false)) else builder)
    case TrustStrategySetting => SetTrustStrategy(info, keys, builder)
    case ConnectionAcquisitionTimeout => SetConnectionAcquisitionTimeout(info, keys, builder)
    case ConnectionLivenessCheckTimeout => SetIdleTimeBeforeConnectionTest(info, keys, builder)
    case ConnectionTimeout => SetConnectionTimeout(info, keys, builder)
    case Encryption => SetEncryption(info, keys, builder)
    case LeakedSessionsLogging => SetLakedSessionLogging(info, keys, builder)
    case MaxConnectionLifetime => SetMaxConnectionLifetime(info, keys, builder)
    case MaxConnectionPoolSize => SetMaxConnectionPoolSize(info, keys, builder)
    case MaxTransactionRetryTime => SetMaxTransactionRetryTime(info, keys, builder)
  }

  /** Apply the settings of SettingOrder from position `k` on, left to right,
      stopping at the first that throws. */
  function ApplySettingsFrom(k: nat, info: Properties, keys: KeyNames, builder: Config): Result<Config, JavaException>
    decreases |SettingOrder| - k
  {
    if k >= |SettingOrder| then Success(builder)
    else
      var next :- ApplySetting(SettingOrder[k], info, keys, builder);
      ApplySettingsFrom(k + 1, info, keys, next)
  }

  /** The configuration `createConfigBuilder` produces for a property bag. */
  function ConfigFor(info: Properties, keys: KeyNames): Result<Config, JavaException> {
    ApplySettingsFrom(0, info, keys, DefaultConfig)
  }

  /** `createConfigBuilder`: the builder is reassigned by each setter in turn;
      the first setter that throws ends the call with its exception. */
  method CreateConfigBuilder(info: Properties, keys: KeyNames) returns (r: Result<Config, JavaException>)
    ensures r == ConfigFor(info, keys)
  {
    var builder := DefaultConfig;
    if NoSslKey in info {
      builder := builder.(encryption := Some(false));
    }
    // Before each step, the result is what SettingOrder[k..] makes of `builder`.
    assert ConfigFor(info, keys) == ApplySettingsFrom(1, info, keys, builder);
    builder :- SetTrustStrategy(info, keys, builder);
    assert ConfigFor(info, keys) == ApplySettingsFrom(2, info, keys, builder);
    builder :- SetConnectionAcquisitionTimeout(info, keys, builder);
    assert ConfigFor(info, keys) == ApplySettingsFrom(3, info, keys, builder);
    builder :- SetIdleTimeBeforeConnectionTest(info, keys, builder);
    assert ConfigFor(info, keys) == ApplySettingsFrom(4, info, keys, builder);
    builder :- SetConnectionTimeout(info, keys, builder);
    assert ConfigFor(info, keys) == ApplySettingsFrom(5, info, keys, builder);
    builder :- SetEncryption(info, keys, builder);
    assert ConfigFor(info, keys) == ApplySettingsFrom(6, info, keys, builder);
    builder :- SetLakedSessionLogging(info, keys, builder);
    assert ConfigFor(info, keys) == ApplySettingsFrom(7, info, keys, builder);
    builder :- SetMaxConnectionLifetime(info, keys, builder);
    assert ConfigFor(info, keys) == ApplySettingsFrom(8, info, keys, builder);
    builder :- SetMaxConnectionPoolSize(info, keys, builder);
    assert ConfigFor(info, keys) == ApplySettingsFrom(9, info, keys, builder);
    builder :- SetMaxTransactionRetryTime(info, keys, builder);
    return Success(builder);
  }

  // ---------------------------------------------------------------------------
  // connect
  // ---------------------------------------------------------------------------

  /** What `buildDriver` hands to the driver cache. */
  datatype DriverParameters = DriverParameters(routingUris: seq<string>, authToken: AuthToken, config: Config)

  /** `new BoltNeo4jConnectionImpl(driver, info, url)`: keeps the URL as the caller gave it. */
  datatype Connection = Connection(driver: DriverParameters, info: Properties, url: string)

  /** `buildDriver`: the routing context is empty and the routing policy leaves
      the URL as it is, so the single routing URI is the URL itself. */
  function BuildDriver(boltUrl: string, info: Properties, config: Config): (r: DriverParameters)
    ensures r.routingUris == [boltUrl]
    ensures r.authToken == GetAuthToken(info) && r.config == config
  {
    DriverParameters([boltUrl], GetAuthToken(info), config)
  }

  /** `connect(url, props)`. A null URL is rejected; a URL the superclass does
      not accept yields no connection; any exception while configuring is
      wrapped, once, in an SQLException. `acceptsUrl` and `mergeUrlAndInfo` are
      the superclass's methods. */
  function Connect(url: Option<string>, props: Properties, keys: KeyNames,
                   acceptsUrl: string -> bool,
                   mergeUrlAndInfo: (string, Properties) -> Properties): (r: Result<Option<Connection>, JavaException>)
    ensures url.None? ==> r == Failure(SQLException(NullUrlMessage, None))
    ensures url.Some? && !acceptsUrl(url.value) ==> r == Success(None)
    ensures url.Some? && acceptsUrl(url.value) ==>
      (r.Failure? <==> ConfigFor(mergeUrlAndInfo(BoltUrl(url.value), props), keys).Failure?)
    ensures url.Some? && acceptsUrl(url.value) && r.Success? ==> r.value.Some?
    ensures url.Some? && r.Failure? ==>
      acceptsUrl(url.value) && ConfigFor(mergeUrlAndInfo(BoltUrl(url.value), props), keys).Failure?
      && r.error == WrapInSQLException(ConfigFor(mergeUrlAndInfo(BoltUrl(url.value), props), keys).error)
    ensures r.Success? && r.value.Some? ==>
      var c := r.value.value;
      && url.Some? && acceptsUrl(url.value)
      && c.url == url.value
      && c.info == mergeUrlAndInfo(BoltUrl(url.value), props)
      && c.driver.routingUris == [RemoveUrlProperties(BoltUrl(url.value))]
      && c.driver.authToken == GetAuthToken(c.info)
      && ConfigFor(c.info, keys) == Success(c.driver.config)
  {
    match url
    case None => Failure(SQLException(NullUrlMessage, None))
    case Some(u) =>
      if !acceptsUrl(u) then Success(None)
      else
        var boltUrl := BoltUrl(u);
        var info := mergeUrlAndInfo(boltUrl, props);
        var stripped := RemoveUrlProperties(boltUrl);
        match ConfigFor(info, keys)
        case Failure(e) => Failure(WrapInSQLException(e))
        case Success(config) => Success(Some(Connection(BuildDriver(stripped, info, config), info, u)))
  }
}
