/** What the migration driver's translation promises as a whole: URL
    normalisation, the trust-strategy choice by name, the validation of the
    property bag (the error reported is the one of the first invalid key in
    application order), the configuration produced from a valid bag, and the
    error shaping of `connect`. */
module Neo4JMigrationDriverProperties {
  import opened Wrappers
  import opened JavaPlatform
  import opened BoltConfig
  import opened Neo4JMigrationDriver

  // ---------------------------------------------------------------------------
  // URLs
  // ---------------------------------------------------------------------------

  /** Cutting the query a second time changes nothing. */
  lemma RemoveUrlPropertiesIdempotent(url: string)
    ensures RemoveUrlProperties(RemoveUrlProperties(url)) == RemoveUrlProperties(url)
  {
  }

  /** Inserting the slashes a second time changes nothing. */
  lemma InsertSlashesIdempotent(url: string, prefix: string)
    ensures InsertSlashesAfterPrefix(InsertSlashesAfterPrefix(url, prefix), prefix)
         == InsertSlashesAfterPrefix(url, prefix)
  {
  }

  /** Cutting the query keeps a URL in Bolt normal form. */
  lemma RemoveUrlPropertiesKeepsNormalForm(url: string, prefix: string)
    requires InBoltNormalForm(url, prefix)
    ensures InBoltNormalForm(RemoveUrlProperties(url), prefix)
  {
  }

  /** A URL that does not contain the JDBC prefix only gets the slashes. */
  lemma BoltUrlWithoutJdbcPrefix(url: string)
    requires !Contains(url, JdbcPrefix)
    ensures BoltUrl(url) == InsertSlashesAfterPrefix(url, JdbcBoltPrefix)
  {
    ReplaceAbsent(url, JdbcPrefix, "");
  }

  /** A JDBC URL `jdbc:neo4j:bolt:<rest>` whose rest does not start with '/'
      becomes `bolt://<rest>`, provided the JDBC prefix does not occur again
      further on (every occurrence is removed). */
  lemma BoltUrlOfJdbcUrl(rest: string)
    requires rest != [] && rest[0] != '/'
    requires !Contains("bolt:" + rest, JdbcPrefix)
    ensures BoltUrl(JdbcPrefix + "bolt:" + rest) == "bolt://" + rest
  {
    assert JdbcPrefix + "bolt:" + rest == JdbcPrefix + ("bolt:" + rest);
    StripJdbcPrefix("bolt:" + rest);
    SlashesAfterBareBolt(rest);
  }

  /** The JDBC prefix in front of a URL that does not contain it again is removed. */
  lemma StripJdbcPrefix(u: string)
    requires !Contains(u, JdbcPrefix)
    ensures BoltUrl(JdbcPrefix + u) == InsertSlashesAfterPrefix(u, JdbcBoltPrefix)
  {
    RemoveLeading(JdbcPrefix, u);
  }

  /** `bolt:` followed by a character other than '/' gets the slashes. */
  lemma SlashesAfterBareBolt(rest: string)
    requires rest != [] && rest[0] != '/'
    ensures InsertSlashesAfterPrefix("bolt:" + rest, JdbcBoltPrefix) == "bolt://" + rest
  {
    var u := "bolt:" + rest;
    assert u[..5] == "bolt:" && u[5..] == rest;
  }

  /** A JDBC URL that already has the slashes only loses its JDBC prefix. */
  lemma BoltUrlKeepsSlashes(rest: string)
    requires !Contains("bolt://" + rest, JdbcPrefix)
    ensures BoltUrl(JdbcPrefix + "bolt://" + rest) == "bolt://" + rest
  {
    RemoveLeading(JdbcPrefix, "bolt://" + rest);
    assert JdbcPrefix + "bolt://" + rest == JdbcPrefix + ("bolt://" + rest);
    var u := "bolt://" + rest;
    assert u[5] == '/';
  }

  // ---------------------------------------------------------------------------
  // Trust strategy, by the value's name
  // ---------------------------------------------------------------------------

  /** `trust.strategy` as the user writes it: only an exact constant name is
      accepted; the system-CA name trusts the system store, the trust-all
      name trusts everything, the custom-CA name needs the certificate file. */
  lemma TrustStrategyByName(properties: Properties, keys: KeyNames, builder: Config)
    requires keys.trustStrategy in properties
    ensures var value := properties[keys.trustStrategy];
      var r := SetTrustStrategy(properties, keys, builder);
      && (value !in {"TRUST_ALL_CERTIFICATES", "TRUST_CUSTOM_CA_SIGNED_CERTIFICATES", "TRUST_SYSTEM_CA_SIGNED_CERTIFICATES"} ==>
            r.Failure? && r.error.SQLException? && r.error.message == InvalidTrustStrategyMessage)
      && (value == "TRUST_SYSTEM_CA_SIGNED_CERTIFICATES" ==> r == Success(builder.(trust := Some(TrustSystem))))
      && (value == "TRUST_ALL_CERTIFICATES" ==> r == Success(builder.(trust := Some(TrustAll))))
      && (value == "TRUST_CUSTOM_CA_SIGNED_CERTIFICATES" && keys.trustedCertificate !in properties ==>
            r == Failure(SQLException(MissingCertificateMessage, None)))
      && (value == "TRUST_CUSTOM_CA_SIGNED_CERTIFICATES" && keys.trustedCertificate in properties ==>
            r == Success(builder.(trust := Some(TrustCustomCa(properties[keys.trustedCertificate])))))
  {
  }

  // ---------------------------------------------------------------------------
  // Validation: which key makes createConfigBuilder fail
  // ---------------------------------------------------------------------------

  /** A setting whose key is absent leaves the builder as it is. */
  lemma AbsentKeyChangesNothing(setting: Setting, info: Properties, keys: KeyNames, builder: Config)
    requires KeyOf(setting, keys) !in info
    ensures ApplySetting(setting, info, keys, builder) == Success(builder)
  {
  }

  /** The exception a setting throws, judged from the property bag alone:
      a numeric key whose value is not a number, a boolean key whose value is
      not "true" or "false", a trust strategy that is not a constant's name,
      or the custom-CA strategy without a certificate file. */
  function SettingError(setting: Setting, info: Properties, keys: KeyNames): Option<JavaException> {
    var key := KeyOf(setting, keys);
    match setting
    case NoSsl => None
    case TrustStrategySetting =>
      if key !in info then None
      else (
        match StrategyValueOf(info[key])
        case Failure(e) => Some(SQLException(InvalidTrustStrategyMessage, Some(e)))
        case Success(strategy) =>
          if strategy == TrustCustomCaSignedCertificates && keys.trustedCertificate !in info
          then Some(SQLException(MissingCertificateMessage, None))
          else None)
    case Encryption | LeakedSessionsLogging =>
      if key in info && !IsBooleanLiteral(info[key]) then Some(InvalidValue(key, info[key], NotABoolean)) else None
    case MaxConnectionPoolSize =>
      if key in info && ParseInt(info[key]).None? then Some(InvalidValue(key, info[key], NotANumber)) else None
    case _ =>
      if key in info && ParseLong(info[key]).None? then Some(InvalidValue(key, info[key], NotANumber)) else None
  }

  /** A setting throws exactly when the property bag has the error
      SettingError names, whatever the builder holds so far. */
  lemma ApplySettingFailsIff(setting: Setting, info: Properties, keys: KeyNames, builder: Config)
    ensures ApplySetting(setting, info, keys, builder).Failure? <==> SettingError(setting, info, keys).Some?
    ensures ApplySetting(setting, info, keys, builder).Failure? ==>
      ApplySetting(setting, info, keys, builder).error == SettingError(setting, info, keys).value
  {
  }

  /** The first error among the settings of SettingOrder from position `k` on. */
  function FirstError(k: nat, info: Properties, keys: KeyNames): Option<JavaException>
    decreases |SettingOrder| - k
  {
    if k >= |SettingOrder| then None
    else match SettingError(SettingOrder[k], info, keys)
      case Some(e) => Some(e)
      case None => FirstError(k + 1, info, keys)
  }

  /** Applying the settings from position `k` on fails exactly when one of
      them has an error, and then with the first such error. */
  lemma {:induction false} ApplySettingsFromFailsIff(k: nat, info: Properties, keys: KeyNames, builder: Config)
    ensures ApplySettingsFrom(k, info, keys, builder).Failure? <==> FirstError(k, info, keys).Some?
    ensures ApplySettingsFrom(k, info, keys, builder).Failure? ==>
      ApplySettingsFrom(k, info, keys, builder).error == FirstError(k, info, keys).value
    decreases |SettingOrder| - k
  {
    if k < |SettingOrder| {
      ApplySettingFailsIff(SettingOrder[k], info, keys, builder);
      var step := ApplySetting(SettingOrder[k], info, keys, builder);
      if step.Success? {
        ApplySettingsFromFailsIff(k + 1, info, keys, step.value);
      }
    }
  }

  /** `createConfigBuilder` fails exactly when some key is invalid, and then
      with the error of the first invalid key in application order. */
  lemma ConfigForFailsWithFirstError(info: Properties, keys: KeyNames)
    ensures ConfigFor(info, keys).Failure? <==> FirstError(0, info, keys).Some?
    ensures ConfigFor(info, keys).Failure? ==> ConfigFor(info, keys).error == FirstError(0, info, keys).value
  {
    ApplySettingsFromFailsIff(0, info, keys, DefaultConfig);
  }

  // ---------------------------------------------------------------------------
  // The configuration built from a valid property bag
  // ---------------------------------------------------------------------------

  /** The timeout a numeric key asks for, in the given unit. */
  function LongSetting(info: Properties, key: string, unit: TimeUnit): Option<Duration> {
    if key in info then
      match ParseLong(info[key])
      case Some(n) => Some(Duration(n, unit))
      case None => None
    else None
  }

  /** The trust policy the strategy key asks for. */
  function TrustFor(info: Properties, keys: KeyNames): Option<Trust> {
    if keys.trustStrategy !in info then None
    else
      match StrategyValueOf(info[keys.trustStrategy])
      case Success(TrustSystemCaSignedCertificates) => Some(TrustSystem)
      case Success(TrustAllCertificates) => Some(TrustAll)
      case Success(TrustCustomCaSignedCertificates) =>
        if keys.trustedCertificate in info then Some(TrustCustomCa(info[keys.trustedCertificate])) else None
      case Failure(_) => None
  }

  /** Field by field, the configuration a valid property bag describes: each
      setting comes from its own key, the liveness check in minutes and the
      other timeouts in milliseconds; an explicit `encryption` overrides
      `nossl`, and `nossl` alone turns encryption off whatever its value. */
  function ExpectedConfig(info: Properties, keys: KeyNames): Config {
    Config(
      encryption :=
        if keys.encryption in info then Some(ParseBoolean(info[keys.encryption]))
        else if NoSslKey in info then Some(false)
        else None,
      trust := TrustFor(info, keys),
      connectionAcquisitionTimeout := LongSetting(info, keys.connectionAcquisitionTimeout, Milliseconds),
      connectionLivenessCheckTimeout := LongSetting(info, keys.connectionLivenessCheckTimeout, Minutes),
      connectionTimeout := LongSetting(info, keys.connectionTimeout, Milliseconds),
      leakedSessionsLogging :=
        keys.leakedSessionsLogging in info && ParseBoolean(info[keys.leakedSessionsLogging]),
      maxConnectionLifetime := LongSetting(info, keys.maxConnectionLifetime, Milliseconds),
      maxConnectionPoolSize :=
        if keys.maxConnectionPoolSize in info then ParseInt(info[keys.maxConnectionPoolSize]) else None,
      maxTransactionRetryTime := LongSetting(info, keys.maxTransactionRetryTime, Milliseconds))
  }

  /** The builder after the first `k` settings of SettingOrder have been
      applied to a valid bag: each field takes its value from
      ExpectedConfig once the setting that writes it has run. */
  function ConfigAfter(k: nat, info: Properties, keys: KeyNames): Config {
    var e := ExpectedConfig(info, keys);
    Config(
      encryption :=
        if k > 5 then e.encryption
        else if k > 0 && NoSslKey in info then Some(false)
        else None,
      trust := if k > 1 then e.trust else None,
      connectionAcquisitionTimeout := if k > 2 then e.connectionAcquisitionTimeout else None,
      connectionLivenessCheckTimeout := if k > 3 then e.connectionLivenessCheckTimeout else None,
      connectionTimeout := if k > 4 then e.connectionTimeout else None,
      leakedSessionsLogging := k > 6 && e.leakedSessionsLogging,
      maxConnectionLifetime := if k > 7 then e.maxConnectionLifetime else None,
      maxConnectionPoolSize := if k > 8 then e.maxConnectionPoolSize else None,
      maxTransactionRetryTime := if k > 9 then e.maxTransactionRetryTime else None)
  }

  /** One valid step: when setting `k` has no error it takes the builder
      from ConfigAfter(k) to ConfigAfter(k + 1). */
  lemma ValidStep(k: nat, info: Properties, keys: KeyNames)
    requires k < |SettingOrder|
    requires SettingError(SettingOrder[k], info, keys) == None
    ensures ApplySetting(SettingOrder[k], info, keys, ConfigAfter(k, info, keys)) == Success(ConfigAfter(k + 1, info, keys))
  {
  }

  /** From ConfigAfter(k), the remaining settings of a valid bag produce ExpectedConfig. */
  lemma {:induction false} ValidFrom(k: nat, info: Properties, keys: KeyNames)
    requires k <= |SettingOrder|
    requires FirstError(k, info, keys) == None
    ensures ApplySettingsFrom(k, info, keys, ConfigAfter(k, info, keys)) == Success(ExpectedConfig(info, keys))
    decreases |SettingOrder| - k
  {
    if k < |SettingOrder| {
      ValidStep(k, info, keys);
      ValidFrom(k + 1, info, keys);
    }
  }

  /** On a valid property bag, `createConfigBuilder` returns exactly the
      configuration the bag describes. */
  lemma ConfigForValidProperties(info: Properties, keys: KeyNames)
    requires FirstError(0, info, keys) == None
    ensures ConfigFor(info, keys) == Success(ExpectedConfig(info, keys))
  {
    ValidFrom(0, info, keys);
  }

  /** On a valid bag, `nossl` turns encryption off whatever its value, and an
      `encryption` key, applied later, overrides it either way. */
  lemma NoSslAndEncryption(info: Properties, keys: KeyNames)
    requires FirstError(0, info, keys) == None
    ensures ConfigFor(info, keys).Success?
    ensures NoSslKey in info && keys.encryption !in info ==> ConfigFor(info, keys).value.encryption == Some(false)
    ensures keys.encryption in info ==>
      ConfigFor(info, keys).value.encryption == Some(EqualsIgnoreCase("true", info[keys.encryption]))
    ensures NoSslKey !in info && keys.encryption !in info ==> ConfigFor(info, keys).value.encryption == None
  {
    ConfigForValidProperties(info, keys);
  }

  /** On a valid bag, leaked-session logging is on exactly when its key says "true" up to case. */
  lemma LeakedSessionsLoggingOnlyWhenTrue(info: Properties, keys: KeyNames)
    requires FirstError(0, info, keys) == None
    ensures ConfigFor(info, keys).Success?
    ensures ConfigFor(info, keys).value.leakedSessionsLogging <==>
      keys.leakedSessionsLogging in info && EqualsIgnoreCase("true", info[keys.leakedSessionsLogging])
  {
    ConfigForValidProperties(info, keys);
  }

  /** The whole contract of `createConfigBuilder`: it succeeds exactly on a
      valid bag, with the configuration the bag describes. */
  lemma ConfigForSucceedsIff(info: Properties, keys: KeyNames, config: Config)
    ensures ConfigFor(info, keys) == Success(config) <==>
      FirstError(0, info, keys) == None && config == ExpectedConfig(info, keys)
  {
    ConfigForFailsWithFirstError(info, keys);
    if FirstError(0, info, keys) == None {
      ConfigForValidProperties(info, keys);
    }
  }

  /** An empty property bag yields the builder's defaults. */
  lemma NoPropertiesDefaultConfig(keys: KeyNames)
    ensures ConfigFor(map[], keys) == Success(DefaultConfig)
  {
    ConfigForValidProperties(map[], keys);
  }

  // ---------------------------------------------------------------------------
  // connect
  // ---------------------------------------------------------------------------

  /** A configuration error surfaces from `connect` as one SQLException whose
      cause is the first invalid key's exception. */
  lemma ConnectReportsFirstInvalidKey(url: string, props: Properties, keys: KeyNames,
                                      acceptsUrl: string -> bool,
                                      mergeUrlAndInfo: (string, Properties) -> Properties)
    requires acceptsUrl(url)
    requires FirstError(0, mergeUrlAndInfo(BoltUrl(url), props), keys).Some?
    ensures Connect(Some(url), props, keys, acceptsUrl, mergeUrlAndInfo)
         == Failure(WrapInSQLException(FirstError(0, mergeUrlAndInfo(BoltUrl(url), props), keys).value))
  {
    ConfigForFailsWithFirstError(mergeUrlAndInfo(BoltUrl(url), props), keys);
  }

  /** A connection is made exactly when the URL is accepted and the merged
      properties are valid; its single routing URI has no query and is in
      Bolt normal form, and its configuration is the one the properties describe. */
  lemma ConnectSucceeds(url: string, props: Properties, keys: KeyNames,
                        acceptsUrl: string -> bool,
                        mergeUrlAndInfo: (string, Properties) -> Properties)
    requires acceptsUrl(url)
    ensures var r := Connect(Some(url), props, keys, acceptsUrl, mergeUrlAndInfo);
      var info := mergeUrlAndInfo(BoltUrl(url), props);
      && (r.Success? <==> FirstError(0, info, keys) == None)
      && (r.Success? ==>
            && r.value.Some?
            && |r.value.value.driver.routingUris| == 1
            && '?' !in r.value.value.driver.routingUris[0]
            && InBoltNormalForm(r.value.value.driver.routingUris[0], JdbcBoltPrefix)
            && r.value.value.driver.config == ExpectedConfig(info, keys))
  {
    var info := mergeUrlAndInfo(BoltUrl(url), props);
    ConfigForFailsWithFirstError(info, keys);
    RemoveUrlPropertiesKeepsNormalForm(BoltUrl(url), JdbcBoltPrefix);
    if FirstError(0, info, keys) == None {
      ConfigForValidProperties(info, keys);
    }
  }
}
