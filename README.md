# Neo4J migration driver: connection settings

A Dafny model of the request-time logic of Flyway's `Neo4JMigrationDriver`.
This is the JDBC driver through which Flyway talks to Neo4j over the Bolt
protocol. When `connect(url, props)` is called, the driver does four things:

- it rewrites the JDBC URL into a Bolt URL: the `jdbc:neo4j:` prefix is
  removed, `//` is inserted after a bare `bolt:`, and the query part is cut off;
- it picks the credentials: no authentication, or basic authentication with
  the given user or with the default user `neo4j`;
- it translates up to ten optional properties, in a fixed order, into the
  Bolt client's configuration builder, and rejects malformed values;
- it wraps every failure in a single `SQLException`.

Files:

- `wrappers.dfy`: `Option` for Java's null, and `Result` for "returns or throws".
- `java_platform.dfy`: the Java library calls the driver relies on, with the
  Java semantics written out:
  - `String.indexOf` and `String.replace`;
  - `String.equalsIgnoreCase`, including the non-ASCII characters it equates
    with ASCII letters;
  - `Boolean.parseBoolean`;
  - `Long.parseLong` and `Integer.parseInt`, with their 64-bit and 32-bit ranges;
  - the two exception classes and their `toString`.
- `bolt_config.dfy`: the Bolt client's configuration surface. The builder is
  a record of optional settings. It also holds the trust-strategy enum with
  `valueOf`, and `AuthToken`.
- `migration_driver.dfy`: the driver itself.
  - `createConfigBuilder` is a method. It reassigns its builder through the
    ten steps, and is proved equal to a fold (`ConfigFor`) over the ordered
    list of settings.
  - Everything else is a function.
- `migration_driver_properties.dfy`: what the pieces promise together:
  - URL idempotence and normal form;
  - the trust strategy chosen by name;
  - validation: the first invalid key, in application order, is the one reported;
  - the exact configuration a valid property bag yields;
  - the shape of `connect`'s result.

The property-key names are constants of the superclass (`TRUST_STRATEGY_KEY`,
`CONNECTION_TIMEOUT`, ...), whose values are not part of this model; they are a
`KeyNames` parameter. Only `trusted.certificate.file` appears literally, in the
missing-certificate message.
`acceptsURL` and `mergeUrlAndInfo` are also superclass code, so `Connect`
takes them as function parameters. `getPrefix()` is the `"bolt"` the
constructor passes to the superclass.

## Model

| member | source | states |
|---|---|---|
| Wrappers.Get | flyway-core/src/main/java/org/flywaydb/core/internal/dbsupport/neo4j/Neo4JMigrationDriver.java:128-134 | `getProperty` gives a value exactly when the key is present, and that value is the stored one |
| JavaPlatform.JavaException.ToString | flyway-core/src/main/java/org/flywaydb/core/internal/dbsupport/neo4j/Neo4JMigrationDriver.java:89-91 | an exception's string form is longer than its message and ends with it |
| JavaPlatform.WrapInSQLException | flyway-core/src/main/java/org/flywaydb/core/internal/dbsupport/neo4j/Neo4JMigrationDriver.java:89-91 | `new SQLException(e)` has `e` as its cause and `e.toString()` as its message |
| JavaPlatform.IndexOf | flyway-core/src/main/java/org/flywaydb/core/internal/dbsupport/neo4j/Neo4JMigrationDriver.java:139-140 | the result is -1 exactly when the character is absent; otherwise it is a position of the character with no earlier occurrence |
| JavaPlatform.ReplaceAbsent | flyway-core/src/main/java/org/flywaydb/core/internal/dbsupport/neo4j/Neo4JMigrationDriver.java:79 | `String.replace` (`Replace`, which removes every non-overlapping occurrence from the left): a target that does not occur leaves the string unchanged |
| JavaPlatform.RemoveLeading | flyway-core/src/main/java/org/flywaydb/core/internal/dbsupport/neo4j/Neo4JMigrationDriver.java:79 | `String.replace` (`Replace`): removing a leading target that does not occur again yields the rest of the string |
| JavaPlatform.ParseBoolean | flyway-core/src/main/java/org/flywaydb/core/internal/dbsupport/neo4j/Neo4JMigrationDriver.java:261-262 | `Boolean.parseBoolean`, i.e. `"true".equalsIgnoreCase` (`EqualsIgnoreCase`): true exactly for the 16 spellings of t-r-u-e with each letter in either case |
| JavaPlatform.FalseSpellings | flyway-core/src/main/java/org/flywaydb/core/internal/dbsupport/neo4j/Neo4JMigrationDriver.java:261 | `"false".equalsIgnoreCase(s)` (`EqualsIgnoreCase`) holds exactly for f-a-l-s-e with each letter in either case, where U+017F (long s) also stands for the s |
| JavaPlatform.ParseLong | flyway-core/src/main/java/org/flywaydb/core/internal/dbsupport/neo4j/Neo4JMigrationDriver.java:248 | `Long.parseLong` accepts exactly an optional sign followed by digits whose value is in the 64-bit range, and returns that value |
| JavaPlatform.ParseInt | flyway-core/src/main/java/org/flywaydb/core/internal/dbsupport/neo4j/Neo4JMigrationDriver.java:336 | `Integer.parseInt` accepts exactly an optional sign followed by digits whose value is in the 32-bit range, and returns that value |
| JavaPlatform.DigitsRoundTrip | flyway-core/src/main/java/org/flywaydb/core/internal/dbsupport/neo4j/Neo4JMigrationDriver.java:248 | the decimal digits of a natural number read back as that number |
| JavaPlatform.ParseLongRoundTrip | flyway-core/src/main/java/org/flywaydb/core/internal/dbsupport/neo4j/Neo4JMigrationDriver.java:248 | every 64-bit value, written in decimal, is read back by `Long.parseLong` |
| JavaPlatform.ParseIntRoundTrip | flyway-core/src/main/java/org/flywaydb/core/internal/dbsupport/neo4j/Neo4JMigrationDriver.java:336 | every 32-bit value, written in decimal, is read back by `Integer.parseInt` |
| JavaPlatform.ParseLongRejectsOverflow | flyway-core/src/main/java/org/flywaydb/core/internal/dbsupport/neo4j/Neo4JMigrationDriver.java:248 | a well-formed numeral just outside the 64-bit range is rejected, so the value is reported as "is not a number" |
| BoltConfig.StrategyValueOf | flyway-core/src/main/java/org/flywaydb/core/internal/dbsupport/neo4j/Neo4JMigrationDriver.java:177 | `Strategy.valueOf` returns the constant with exactly that name; when no constant has it, it throws IllegalArgumentException with the enum's "No enum constant" message |
| BoltConfig.StrategyValueOfName | flyway-core/src/main/java/org/flywaydb/core/internal/dbsupport/neo4j/Neo4JMigrationDriver.java:177-192 | every strategy constant is found again by its name |
| Neo4JMigrationDriver.InsertSlashesAfterPrefix | flyway-core/src/main/java/org/flywaydb/core/internal/dbsupport/neo4j/Neo4JMigrationDriver.java:79 | the anchored `^(bolt:)([^/])` rewrite: the result is in normal form; a URL already in normal form is unchanged; otherwise `//` is inserted right after `bolt:` |
| Neo4JMigrationDriver.BoltUrl | flyway-core/src/main/java/org/flywaydb/core/internal/dbsupport/neo4j/Neo4JMigrationDriver.java:79 | the whole rewrite of line 79: the result is always in `bolt://` normal form |
| Neo4JMigrationDriver.RemoveUrlProperties | flyway-core/src/main/java/org/flywaydb/core/internal/dbsupport/neo4j/Neo4JMigrationDriver.java:137-143 | the result is a prefix of the URL with no '?'; it is either the whole URL or ends right before a '?', i.e. at the first '?'; a URL without '?' is unchanged |
| Neo4JMigrationDriver.GetAuthToken | flyway-core/src/main/java/org/flywaydb/core/internal/dbsupport/neo4j/Neo4JMigrationDriver.java:124-135 | no authentication exactly when neither user nor password is present; otherwise basic authentication with the given user, or `neo4j` when there is no user, and the password as given (null when absent) |
| Neo4JMigrationDriver.SetValueConfig | flyway-core/src/main/java/org/flywaydb/core/internal/dbsupport/neo4j/Neo4JMigrationDriver.java:226-237 | an absent key leaves the builder unchanged; a present key succeeds exactly when the operation does, with its result; otherwise it fails with IllegalArgumentException "`<key>: <value> <message>`" |
| Neo4JMigrationDriver.SetLongConfig | flyway-core/src/main/java/org/flywaydb/core/internal/dbsupport/neo4j/Neo4JMigrationDriver.java:247-249 | an absent key leaves the builder unchanged; a value `Long.parseLong` accepts is applied as a number; any other value fails with "`<key>: <value> is not a number`" |
| Neo4JMigrationDriver.SetBooleanConfig | flyway-core/src/main/java/org/flywaydb/core/internal/dbsupport/neo4j/Neo4JMigrationDriver.java:259-267 | an absent key leaves the builder unchanged; "true" or "false" up to case is applied as `parseBoolean` reads it; any other value fails with "`<key>: <value> is not a boolean`" |
| Neo4JMigrationDriver.SetTrustStrategy | flyway-core/src/main/java/org/flywaydb/core/internal/dbsupport/neo4j/Neo4JMigrationDriver.java:172-195 | an absent key leaves the builder unchanged; an unknown name fails with "Invalid value for trust.strategy param." caused by the `valueOf` error; the system-CA strategy sets system trust and trust-all sets trust-all; custom-CA sets that certificate file, or fails with the missing-certificate error when there is none |
| Neo4JMigrationDriver.HandleTrustStrategyWithFile | flyway-core/src/main/java/org/flywaydb/core/internal/dbsupport/neo4j/Neo4JMigrationDriver.java:197-214 | without a certificate file it fails with "Missing parameter 'trusted.certificate.file' : A FILE IS REQUIRED"; with one, custom-CA trusts that file and any other strategy leaves the builder unchanged |
| Neo4JMigrationDriver.SetConnectionAcquisitionTimeout | flyway-core/src/main/java/org/flywaydb/core/internal/dbsupport/neo4j/Neo4JMigrationDriver.java:275-277 | an absent key changes nothing; a number sets only the acquisition timeout, in milliseconds; anything else fails with "is not a number" |
| Neo4JMigrationDriver.SetIdleTimeBeforeConnectionTest | flyway-core/src/main/java/org/flywaydb/core/internal/dbsupport/neo4j/Neo4JMigrationDriver.java:285-287 | an absent key changes nothing; a number sets only the liveness-check timeout, in minutes; anything else fails with "is not a number" |
| Neo4JMigrationDriver.SetConnectionTimeout | flyway-core/src/main/java/org/flywaydb/core/internal/dbsupport/neo4j/Neo4JMigrationDriver.java:295-297 | an absent key changes nothing; a number sets only the connection timeout, in milliseconds; anything else fails with "is not a number" |
| Neo4JMigrationDriver.SetEncryption | flyway-core/src/main/java/org/flywaydb/core/internal/dbsupport/neo4j/Neo4JMigrationDriver.java:305-307 | an absent key changes nothing; "true" up to case turns encryption on and "false" turns it off, whatever was set before; anything else fails with "is not a boolean" |
| Neo4JMigrationDriver.SetLakedSessionLogging | flyway-core/src/main/java/org/flywaydb/core/internal/dbsupport/neo4j/Neo4JMigrationDriver.java:315-317 | an absent key changes nothing; "true" switches leaked-session logging on and "false" leaves the builder exactly as it was; anything else fails with "is not a boolean" |
| Neo4JMigrationDriver.SetMaxConnectionLifetime | flyway-core/src/main/java/org/flywaydb/core/internal/dbsupport/neo4j/Neo4JMigrationDriver.java:325-327 | an absent key changes nothing; a number sets only the maximum lifetime, in milliseconds; anything else fails with "is not a number" |
| Neo4JMigrationDriver.SetMaxConnectionPoolSize | flyway-core/src/main/java/org/flywaydb/core/internal/dbsupport/neo4j/Neo4JMigrationDriver.java:335-337 | an absent key changes nothing; a value `Integer.parseInt` accepts sets only the pool size; anything else fails with "is not a number" |
| Neo4JMigrationDriver.SetMaxTransactionRetryTime | flyway-core/src/main/java/org/flywaydb/core/internal/dbsupport/neo4j/Neo4JMigrationDriver.java:345-347 | an absent key changes nothing; a number sets only the retry time, in milliseconds; anything else fails with "is not a number" |
| Neo4JMigrationDriver.CreateConfigBuilder | flyway-core/src/main/java/org/flywaydb/core/internal/dbsupport/neo4j/Neo4JMigrationDriver.java:106-122 | the ten reassignments of the builder compute the fold of the ten settings in order, stopping at the first failure |
| Neo4JMigrationDriver.BuildDriver | flyway-core/src/main/java/org/flywaydb/core/internal/dbsupport/neo4j/Neo4JMigrationDriver.java:96-102 | the driver gets the single routing URI (the URL itself, since the routing context is empty and the routing policy leaves it alone), the credentials from the properties, and the configuration built |
| Neo4JMigrationDriver.Connect | flyway-core/src/main/java/org/flywaydb/core/internal/dbsupport/neo4j/Neo4JMigrationDriver.java:73-94 | a null URL fails with "null is not a valid url"; an unaccepted URL gives no connection; an accepted URL fails exactly when configuring the merged properties fails, with that error wrapped in one SQLException, and otherwise yields a connection; a connection keeps the caller's URL, routes to the rewritten URL without its query, and carries the merged properties' credentials and configuration |
| Neo4JMigrationDriverProperties.RemoveUrlPropertiesIdempotent | flyway-core/src/main/java/org/flywaydb/core/internal/dbsupport/neo4j/Neo4JMigrationDriver.java:137-143 | cutting the query twice is the same as cutting it once |
| Neo4JMigrationDriverProperties.InsertSlashesIdempotent | flyway-core/src/main/java/org/flywaydb/core/internal/dbsupport/neo4j/Neo4JMigrationDriver.java:79 | the `//` rewrite applied twice is the same as applied once |
| Neo4JMigrationDriverProperties.RemoveUrlPropertiesKeepsNormalForm | flyway-core/src/main/java/org/flywaydb/core/internal/dbsupport/neo4j/Neo4JMigrationDriver.java:79-83 | cutting the query keeps a rewritten URL in `bolt://` normal form |
| Neo4JMigrationDriverProperties.BoltUrlWithoutJdbcPrefix | flyway-core/src/main/java/org/flywaydb/core/internal/dbsupport/neo4j/Neo4JMigrationDriver.java:79 | a URL that does not contain the JDBC prefix is left alone by `replace` and only gets the slashes |
| Neo4JMigrationDriverProperties.BoltUrlOfJdbcUrl | flyway-core/src/main/java/org/flywaydb/core/internal/dbsupport/neo4j/Neo4JMigrationDriver.java:79 | `jdbc:neo4j:bolt:<rest>`, where rest does not start with '/' and the JDBC prefix does not occur again, becomes `bolt://<rest>` |
| Neo4JMigrationDriverProperties.BoltUrlKeepsSlashes | flyway-core/src/main/java/org/flywaydb/core/internal/dbsupport/neo4j/Neo4JMigrationDriver.java:79 | `jdbc:neo4j:bolt://<rest>`, where the JDBC prefix does not occur again, only loses its JDBC prefix |
| Neo4JMigrationDriverProperties.StripJdbcPrefix | flyway-core/src/main/java/org/flywaydb/core/internal/dbsupport/neo4j/Neo4JMigrationDriver.java:79 | a leading JDBC prefix that does not occur again is removed before the slashes are inserted |
| Neo4JMigrationDriverProperties.SlashesAfterBareBolt | flyway-core/src/main/java/org/flywaydb/core/internal/dbsupport/neo4j/Neo4JMigrationDriver.java:79 | `bolt:` followed by a character other than '/' becomes `bolt://` followed by that character |
| Neo4JMigrationDriverProperties.TrustStrategyByName | flyway-core/src/main/java/org/flywaydb/core/internal/dbsupport/neo4j/Neo4JMigrationDriver.java:172-214 | by the value's spelling: only the three exact constant names are accepted; the system-CA name sets system trust, the trust-all name sets trust-all, and the custom-CA name needs the certificate file |
| Neo4JMigrationDriverProperties.AbsentKeyChangesNothing | flyway-core/src/main/java/org/flywaydb/core/internal/dbsupport/neo4j/Neo4JMigrationDriver.java:226-237 | for each of the ten settings, one step of the fold (`ApplySetting`) with its key absent returns the builder unchanged |
| Neo4JMigrationDriverProperties.ApplySettingFailsIff | flyway-core/src/main/java/org/flywaydb/core/internal/dbsupport/neo4j/Neo4JMigrationDriver.java:172-347 | one step of the fold (`ApplySetting`, the dispatch to the ten setters) fails exactly when an independent validator of the property bag finds an error, whatever the builder holds, and fails with that error |
| Neo4JMigrationDriverProperties.ApplySettingsFromFailsIff | flyway-core/src/main/java/org/flywaydb/core/internal/dbsupport/neo4j/Neo4JMigrationDriver.java:112-121 | the fold over the remaining settings (`ApplySettingsFrom`) fails exactly when one of them is invalid, and with the first such error |
| Neo4JMigrationDriverProperties.ConfigForFailsWithFirstError | flyway-core/src/main/java/org/flywaydb/core/internal/dbsupport/neo4j/Neo4JMigrationDriver.java:106-122 | `createConfigBuilder` fails exactly when some key is invalid, reporting the first invalid key in the order nossl, trust, acquisition, liveness, connection timeout, encryption, leaked logging, lifetime, pool size, retry time |
| Neo4JMigrationDriverProperties.ValidStep | flyway-core/src/main/java/org/flywaydb/core/internal/dbsupport/neo4j/Neo4JMigrationDriver.java:107-120 | a valid step adds exactly its own setting to the partially built configuration |
| Neo4JMigrationDriverProperties.ValidFrom | flyway-core/src/main/java/org/flywaydb/core/internal/dbsupport/neo4j/Neo4JMigrationDriver.java:107-121 | on a valid bag, the remaining steps complete the configuration the bag describes |
| Neo4JMigrationDriverProperties.ConfigForValidProperties | flyway-core/src/main/java/org/flywaydb/core/internal/dbsupport/neo4j/Neo4JMigrationDriver.java:106-122 | on a valid bag the result is, field by field, the configuration the keys describe: the liveness check in minutes, the other timeouts in milliseconds, and the pool size as an int |
| Neo4JMigrationDriverProperties.NoSslAndEncryption | flyway-core/src/main/java/org/flywaydb/core/internal/dbsupport/neo4j/Neo4JMigrationDriver.java:108-116 | `nossl` turns encryption off whatever its value; a later `encryption` key overrides it either way; with neither, encryption stays unset |
| Neo4JMigrationDriverProperties.LeakedSessionsLoggingOnlyWhenTrue | flyway-core/src/main/java/org/flywaydb/core/internal/dbsupport/neo4j/Neo4JMigrationDriver.java:315-317 | leaked-session logging ends up on exactly when its key says "true" up to case |
| Neo4JMigrationDriverProperties.ConfigForSucceedsIff | flyway-core/src/main/java/org/flywaydb/core/internal/dbsupport/neo4j/Neo4JMigrationDriver.java:106-122 | `ConfigFor`, the fold `Connect` uses for `createConfigBuilder`, returns a configuration exactly when no key is invalid, and that configuration is the one the keys describe |
| Neo4JMigrationDriverProperties.NoPropertiesDefaultConfig | flyway-core/src/main/java/org/flywaydb/core/internal/dbsupport/neo4j/Neo4JMigrationDriver.java:106-122 | an empty property bag yields the builder's defaults |
| Neo4JMigrationDriverProperties.ConnectReportsFirstInvalidKey | flyway-core/src/main/java/org/flywaydb/core/internal/dbsupport/neo4j/Neo4JMigrationDriver.java:78-91 | with an accepted URL, `connect` fails with one SQLException whose cause is the first invalid key's exception |
| Neo4JMigrationDriverProperties.ConnectSucceeds | flyway-core/src/main/java/org/flywaydb/core/internal/dbsupport/neo4j/Neo4JMigrationDriver.java:78-94 | with an accepted URL, `connect` succeeds exactly when the merged properties are valid; the connection then has one routing URI, in normal form and without a query, and the configuration the properties describe |

## Left out

- The `driver` field, `getDriver` and the static `BoltDriverCache`: the model returns the driver's parameters instead of storing a cached driver.
- `driver.verifyConnectivity()`: this is network I/O. A server that cannot be reached is not modelled.
- `GraphDatabase.driver`, the static initialiser and `DriverManager.registerDriver`: these are process-wide registration in the Bolt client library.
- `acceptsURL`, `mergeUrlAndInfo` and `getPrefix`: they are superclass code. The first two are parameters of `Connect`; an exception thrown by `mergeUrlAndInfo` is not modelled. `getPrefix()` is taken to be `"bolt"`.
- Parsing the URL as a `java.net.URI` in `buildRoutingUris`: a `URISyntaxException` is not modelled, and the routing URI is the URL string.
- `new File(value)`: the certificate is the path string.
- `getRoutingContext` and `addRoutingPolicy`: they only return an empty context and the URL unchanged, so `BuildDriver` states that directly.
- Range checks inside the Bolt client's `ConfigBuilder` (e.g. a negative pool size): the builder is a plain record. In the driver, an exception from the builder would also be reported as "is not a number".
- `Neo4JConnectionEnhancer.java` is not part of this model. It is a reflective proxy that forwards calls.
- Property values that are not strings, and `Properties` defaults: the bag is a `map<string, string>`.
- GetAuthToken: `AuthTokens.basic` is treated as a plain constructor. The Bolt client's own null checks on its arguments are not modelled, so a user given without a password yields `Basic(user, None)` and no failure.
- ConnectSucceeds: its "exactly when" covers only configuration errors. It leaves out the failure the Bolt client would raise for a user without a password (see `GetAuthToken`), which is not modelled.
- JavaPlatform.ParseLong: accepts ASCII digits only. Java also accepts digits of other Unicode scripts.
- JavaPlatform.ParseInt: accepts ASCII digits only, for the same reason.
- JavaPlatform.CharEqualsIgnoreCase: exact only when one side is ASCII or one of the four non-ASCII characters Java case-maps to ASCII letters. That covers every comparison the driver makes, since one side is always "true" or "false". Case pairs between two non-ASCII letters are not modelled.
- The `default:` branch of `setTrustStrategy` is unreachable, because the enum has exactly three constants.
