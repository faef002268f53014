# Aspire Neo4j integration: a Dafny model

This project models the logic in the Aspire Neo4j integration.

On the client side, `AddNeo4jDriver` and `AddKeyedNeo4jDriver` do three things:
- They resolve a `Neo4jDriverSettings` object. They bind a configuration section, let a named connection string override it, let the user callback have the last word, and then reject a null or blank connection string.
- They register one driver factory, unkeyed or keyed, in the service collection. The keyed call may bind differently from its documentation; see "Findings".
- They register one logger bridge for the whole application.

The driver factory turns the connection string, read as a URI, into a `scheme://host:port` address and an authentication token. The token is `Basic(user, password)` for a `user:password` user-information part (section 3.2.1 of RFC 3986), and `None` otherwise.

On the AppHost side, `Neo4jServerResource` publishes the connection string `Host=…;Username=…;Password=…`.

Modules:
- `Wrappers`: `Option`, `Result` and `Outcome`. Nulls and thrown exceptions become values of these types.
- `Text`: the .NET string operations the code relies on: `String.Split(char)`, `IsNullOrWhiteSpace`, and the writing of an int inside an interpolated string. It also holds the searches and the integer parser used by the inverse functions.
- `ConnectionDetails`: the host address, the token and the driver configuration step of the `CreateDriver` closure. Each has an inverse or a characterisation.
- `DriverSettings`: the `Neo4jDriverSettings` class, with its three mutable properties.
- `AspireNeo4jExtensions`, which holds:
  - the configuration and the service collection;
  - the three registration methods;
  - the pure function `Register`, against which those methods are proved;
  - the driver factory;
  - the lemmas about registration.
- `Neo4jServer`: the server resource, its connection string, and a parser that reads that string back.

The model follows the code:
- The token comes from the URI's user information.
- Only `Basic` and `None` tokens exist.
- Only the unkeyed logger bridge is registered, never one under the service key.
- No health check, tracing or metrics are registered. The `HealthChecks` and `Tracing` flags are bound, but registration never reads them.

Things that come from outside the code enter as parameters:
- URI parsing (`new Uri(...)`) is the function parameter `parse` of `CreateDriver`. It returns `None` where the constructor throws. This parsing happens only when the factory runs, not at registration.
- The address allocated to the server's primary endpoint enters `GetConnectionString` as an already parsed URI.
- The user callbacks `configureSettings` and `configureDriver` are total functions. Each one maps the settings it is given, or the driver configuration it is given, to a new one.

## Model

| member | source | states |
|---|---|---|
| `Text.Split` | src/Aspire.Neo4j/AspireNeo4jExtensions.cs:77 | `Split(':')` gives one more part than there are separators, and no part contains the separator |
| `Text.JoinSplit` | src/Aspire.Neo4j/AspireNeo4jExtensions.cs:77 | joining the parts of `Split` with the separator gives back the original string, so `Split` loses nothing |
| `Text.SplitAtSeparator` | src/Aspire.Neo4j/AspireNeo4jExtensions.cs:77 | in `a + sep + b`, where `a` has no separator, the first part is `a` and the remaining parts are those of `b` |
| `Text.SplitWithoutSeparator` | src/Aspire.Neo4j/AspireNeo4jExtensions.cs:77 | a string without the separator splits into itself alone |
| `Text.IsWhiteSpace` | src/Aspire.Neo4j/AspireNeo4jExtensions.cs:71 | space, tab, newline and carriage return are white space; digits and the separators `:`, `;`, `/`, `=` are not |
| `Text.IsNullOrWhiteSpace` | src/Aspire.Neo4j/AspireNeo4jExtensions.cs:71 | null, the empty string and a string of white space only count as blank; a string with one non-white-space character does not |
| `Text.IntToString` | src/Aspire.Neo4j/AspireNeo4jExtensions.cs:76 | the port is written as at least one character, each a digit or a minus sign, so it never contains ':' or ';' |
| `Text.ParseIntToString` | src/Aspire.Neo4j/AspireNeo4jExtensions.cs:76 | the port text parses back to the port, including the -1 that `Uri.Port` reports when there is no port |
| `ConnectionDetails.HostAddress` | src/Aspire.Neo4j/AspireNeo4jExtensions.cs:76 | the driver address is the scheme, then `://`, then the host, then `:` and the port, and nothing else |
| `ConnectionDetails.Token` | src/Aspire.Neo4j/AspireNeo4jExtensions.cs:77-79 | null user information gives `None`; a `Basic` token has a non-empty user and password, both free of ':', and the user information is exactly `user:password` |
| `ConnectionDetails.TokenIsBasicIff` | src/Aspire.Neo4j/AspireNeo4jExtensions.cs:77-79 | the token is `Basic(u, p)` if and only if the user information is `u + ":" + p` with `u` and `p` non-empty and free of ':' |
| `ConnectionDetails.TokenWithoutUserInfo` | src/Aspire.Neo4j/AspireNeo4jExtensions.cs:77 | null user information (the `?.` branch) gives `None` |
| `ConnectionDetails.TokenNoneForManyColons` | src/Aspire.Neo4j/AspireNeo4jExtensions.cs:77-79 | user information with two or more ':' gives `None` |
| `ConnectionDetails.TokenOfEmptyUserInfo` | src/Aspire.Neo4j/AspireNeo4jExtensions.cs:77-79 | empty user information gives `None` |
| `ConnectionDetails.TokenOfUserOnly` | src/Aspire.Neo4j/AspireNeo4jExtensions.cs:77-79 | user information without ':' gives `None` |
| `ConnectionDetails.TokenOfThreeParts` | src/Aspire.Neo4j/AspireNeo4jExtensions.cs:77-79 | `"a:b:c"` gives `None` |
| `ConnectionDetails.TokenOfEmptyUser` | src/Aspire.Neo4j/AspireNeo4jExtensions.cs:77-79 | `":p"` gives `None` |
| `ConnectionDetails.TokenOfEmptyPassword` | src/Aspire.Neo4j/AspireNeo4jExtensions.cs:77-79 | `"u:"` gives `None` |
| `ConnectionDetails.TokenOfUserAndPassword` | src/Aspire.Neo4j/AspireNeo4jExtensions.cs:77-79 | `"u:p"` gives `Basic("u", "p")` |
| `ConnectionDetails.HostAddressRoundTrip` | src/Aspire.Neo4j/AspireNeo4jExtensions.cs:75-76 | scheme, host and port read back from the driver address `scheme://host:port`, and the address holds nothing else, so user information is dropped |
| `ConnectionDetails.ConfigBuilder.WithLogger` | src/Aspire.Neo4j/AspireNeo4jExtensions.cs:83 | attaching a logger sets the logger and leaves the other driver options alone |
| `ConnectionDetails.DriverConfig` | src/Aspire.Neo4j/AspireNeo4jExtensions.cs:81-85 | the logger bridge is attached first; without `configureDriver` the driver uses the bridge and its other options are untouched; with it, the callback receives a configuration that already has the bridge |
| `DriverSettings.Neo4jDriverSettings.constructor` | src/Aspire.Neo4j/Neo4jDriverSettings.cs:11-27 | fresh settings have `ConnectionString` null, `HealthChecks` true and `Tracing` true |
| `DriverSettings.Neo4jDriverSettings.SetConnectionString` | src/Aspire.Neo4j/Neo4jDriverSettings.cs:11 | sets `ConnectionString` and leaves the other two properties as they were |
| `DriverSettings.Neo4jDriverSettings.SetHealthChecks` | src/Aspire.Neo4j/Neo4jDriverSettings.cs:19 | sets `HealthChecks` and leaves the other two properties as they were |
| `DriverSettings.Neo4jDriverSettings.SetTracing` | src/Aspire.Neo4j/Neo4jDriverSettings.cs:27 | sets `Tracing` and leaves the other two properties as they were |
| `DriverSettings.Neo4jDriverSettings.Assign` | src/Aspire.Neo4j/AspireNeo4jExtensions.cs:69 | after the callback the object holds exactly the settings the callback produced |
| `AspireNeo4jExtensions.GetSection` | src/Aspire.Neo4j/AspireNeo4jExtensions.cs:59 | a configured path gives its section; a missing path gives a section with no keys |
| `AspireNeo4jExtensions.BindValue` | src/Aspire.Neo4j/AspireNeo4jExtensions.cs:62 | each property the section has a key for takes the section's value; every other property keeps its value |
| `AspireNeo4jExtensions.ResolveSettings` | src/Aspire.Neo4j/AspireNeo4jExtensions.cs:69 | without a callback the settings are those after binding and override; with one, the callback's result on them is final |
| `AspireNeo4jExtensions.GetConnectionString` | src/Aspire.Neo4j/AspireNeo4jExtensions.cs:64 | the named connection string is present exactly when the name is configured, and is then its configured value |
| `AspireNeo4jExtensions.Bind` | src/Aspire.Neo4j/AspireNeo4jExtensions.cs:62 | binding overwrites each property for which the section has a key, and keeps the others |
| `AspireNeo4jExtensions.Prepare` | src/Aspire.Neo4j/AspireNeo4jExtensions.cs:59-67 | a named connection string, when present, replaces the bound `ConnectionString`; when absent, the section's value is kept; `HealthChecks` and `Tracing` are the section's or default to true |
| `AspireNeo4jExtensions.Validate` | src/Aspire.Neo4j/AspireNeo4jExtensions.cs:71 | passes if and only if the connection string is neither null nor white space; null fails with `ArgumentNull`, blank with `ArgumentBlank`, both naming `settings.ConnectionString` |
| `AspireNeo4jExtensions.TryAdd` | src/Aspire.Neo4j/AspireNeo4jExtensions.cs:100 | appends an unkeyed registration exactly when none of that type exists; afterwards one exists |
| `AspireNeo4jExtensions.Dispatch` | src/Aspire.Neo4j/AspireNeo4jExtensions.cs:90-100 | keeps the existing registrations, appends the driver under the service key, and appends a logger bridge only if there was no unkeyed one |
| `AspireNeo4jExtensions.Register` | src/Aspire.Neo4j/AspireNeo4jExtensions.cs:49-101 | registration succeeds if and only if the connection string after the callback is not null or blank; no URI check happens; on failure the collection is unchanged; on success the driver and bridge are dispatched with a factory over the final connection string |
| `AspireNeo4jExtensions.ServiceCollection.AddSingleton` | src/Aspire.Neo4j/AspireNeo4jExtensions.cs:92 | appends one unkeyed driver registration |
| `AspireNeo4jExtensions.ServiceCollection.AddKeyedSingleton` | src/Aspire.Neo4j/AspireNeo4jExtensions.cs:33-34 | appends one driver registration under the key, as the summary of `AddKeyedNeo4jDriver` documents; line 96 as bound is `DispatchAsWritten` (see Findings) |
| `AspireNeo4jExtensions.ServiceCollection.TryAddSingleton` | src/Aspire.Neo4j/AspireNeo4jExtensions.cs:100 | the collection becomes `TryAdd` of the old one |
| `AspireNeo4jExtensions.HostApplicationBuilder.constructor` | src/Aspire.Neo4j/AspireNeo4jExtensions.cs:59 | a builder holds a configuration and a fresh, empty service collection |
| `AspireNeo4jExtensions.AddNeo4jDriverCore` | src/Aspire.Neo4j/AspireNeo4jExtensions.cs:49-101 | a null builder fails with `ArgumentNull("builder")`; otherwise the method builds fresh settings, binds them, overrides them and runs the callback on that object, and it leaves exactly `Register`'s outcome and collection |
| `AspireNeo4jExtensions.AddNeo4jDriver` | src/Aspire.Neo4j/AspireNeo4jExtensions.cs:24-31 | reads section `"Aspire:Neo4j:Driver"`, uses `name` as the connection-string name, and uses no service key; its effect is `RegisterCall` of an unkeyed `Call` |
| `AspireNeo4jExtensions.AddKeyedNeo4jDriver` | src/Aspire.Neo4j/AspireNeo4jExtensions.cs:40-47 | reads section `"Aspire:Neo4j:Driver:" + name` and uses `name` both as the connection-string name and as the service key; its effect is `RegisterCall` of a keyed `Call` |
| `AspireNeo4jExtensions.CreateDriver` | src/Aspire.Neo4j/AspireNeo4jExtensions.cs:73-88 | an unparsable connection string fails with `UriFormat`; a missing logger bridge fails with `MissingLoggerBridge`; otherwise the driver gets the parsed URI's address, its user-information token and the bridge-first configuration |
| `AspireNeo4jExtensions.DispatchAddsOneDriver` | src/Aspire.Neo4j/AspireNeo4jExtensions.cs:90-97 | each registration adds exactly one driver: one more under the service key, none more under any other key (the unkeyed one included), so unkeyed and keyed are never both added |
| `AspireNeo4jExtensions.DispatchKeepsSingleLoggerBridge` | src/Aspire.Neo4j/AspireNeo4jExtensions.cs:99-100 | when the collection holds at most one logger bridge, and that one unkeyed, a registration keeps it that way and leaves exactly one |
| `AspireNeo4jExtensions.RegisterAllKeepsSingleLoggerBridge` | src/Aspire.Neo4j/AspireNeo4jExtensions.cs:99-100 | over any sequence of keyed and unkeyed calls, including calls that fail and leave the collection unchanged, the single-unkeyed-bridge invariant holds throughout |
| `AspireNeo4jExtensions.LoggerBridgeAtMostOnce` | src/Aspire.Neo4j/AspireNeo4jExtensions.cs:99-100 | starting from an empty collection, any sequence of calls leaves at most one logger-bridge registration |
| `AspireNeo4jExtensions.OutcomeWithoutCallback` | src/Aspire.Neo4j/AspireNeo4jExtensions.cs:61-71 | without a callback, success means the named connection string is not blank when it is present, or the section supplies a connection string that is not blank when it is absent |
| `AspireNeo4jExtensions.CallbackHasFinalSay` | src/Aspire.Neo4j/AspireNeo4jExtensions.cs:69-71 | a callback that decides the connection string makes outcome and registrations independent of the configuration; it can supply a missing string or blank out a present one |
| `AspireNeo4jExtensions.RegisteredFactoryRuns` | src/Aspire.Neo4j/AspireNeo4jExtensions.cs:73-100 | after success, the new driver registration sits under the service key with a factory over the final connection string; whatever is added later, the modelled factory reaches `GraphDatabase.Driver` exactly when the string parses |
| `Neo4jServer.NewNeo4jServerResource` | src/AppHost/Neo4j/Neo4jServerResource.cs:5-12 | the constructor ties the primary endpoint `"bolt"` and the dashboard endpoint `"http"` to the new resource |
| `Neo4jServer.Neo4jServerResource.PrimaryEndpoint` | src/AppHost/Neo4j/Neo4jServerResource.cs:10-14 | every resource's primary endpoint belongs to that resource and is named `"bolt"` |
| `Neo4jServer.Neo4jServerResource.DashboardEndpoint` | src/AppHost/Neo4j/Neo4jServerResource.cs:11-16 | every resource's dashboard endpoint belongs to that resource and is named `"http"` |
| `Neo4jServer.Neo4jServerResource.Username` | src/AppHost/Neo4j/Neo4jServerResource.cs:18 | the user name is `"neo4j"` |
| `Neo4jServer.Neo4jServerResource.Password` | src/AppHost/Neo4j/Neo4jServerResource.cs:19 | the password is `"supersecretpassword"` |
| `Neo4jServer.Neo4jServerResource.GetConnectionString` | src/AppHost/Neo4j/Neo4jServerResource.cs:21-25 | the string starts with `Host=` and the primary endpoint's `scheme://host:port` address, and ends with `;Username=neo4j;Password=supersecretpassword` |
| `Neo4jServer.Neo4jServerResource.ConnectionStringExpression` | src/AppHost/Neo4j/Neo4jServerResource.cs:27 | the expression is `"wip"` |
| `Neo4jServer.CredentialsAreConstant` | src/AppHost/Neo4j/Neo4jServerResource.cs:18-19 | every resource's `Username` is `"neo4j"` and its `Password` is `"supersecretpassword"` |
| `Neo4jServer.ConnectionStringFields` | src/AppHost/Neo4j/Neo4jServerResource.cs:21-25 | the connection string is exactly three `;`-separated fields `Host=scheme://host:port`, `Username=…` and `Password=…`, in that order |
| `Neo4jServer.ConnectionStringRoundTrip` | src/AppHost/Neo4j/Neo4jServerResource.cs:18-24 | reading the connection string back gives the endpoint's host address, `"neo4j"` and `"supersecretpassword"` |
| `Neo4jServer.HostValueIsDriverAddress` | src/AppHost/Neo4j/Neo4jServerResource.cs:24 | the `Host` value has the same `scheme://host:port` shape the client builds, and reads back to the endpoint's scheme, host and port |
| `AspireNeo4jExtensions.DispatchAsWritten` | src/Aspire.Neo4j/AspireNeo4jExtensions.cs:90-100 | as line 96 binds: unkeyed calls dispatch as `Dispatch` does; a keyed call appends the delegate itself under the key, as a service of its own delegate type, then the bridge if there is none |
| `AspireNeo4jExtensions.AsWrittenKeyedAddsNoDriver` | src/Aspire.Neo4j/AspireNeo4jExtensions.cs:96 | as bound, a keyed call leaves the driver count under every key, and in total, unchanged |
| `AspireNeo4jExtensions.KeyedDriverMissingAsWritten` | src/Aspire.Neo4j/AspireNeo4jExtensions.cs:96 | for the key `"db"` in an empty collection, no driver is registered as bound, while the documented registration puts exactly one there |
| `Neo4jServer.ConnectionStringExpressionIsConstant` | src/AppHost/Neo4j/Neo4jServerResource.cs:27 | `ConnectionStringExpression` is `"wip"` for every resource, whatever its endpoints |

## Left out

- src/ApiService/Program.cs: HTTP endpoints and Cypher queries against the database, which are I/O only.
- src/AppHost/Program.cs and src/AppHost/Neo4j/Neo4jBuilderExtensions.cs: calls to the hosting framework's resource builder, including the default port 7687 and the `NEO4J_AUTH` variable. These are framework plumbing.
- src/Aspire.Neo4j/Neo4jHealthCheck.cs: a wrapper around the driver's network connectivity check.
- src/Aspire.Neo4j/Neo4jLoggerBridge.cs: one-line calls passed through to `ILogger`. The model only records whether the bridge is attached.
- `System.Uri` parsing (RFC 3986 grammar, default ports, percent-decoding) is the parameter `parse`. The URI is the record scheme, host, port, user information.
- `ConfigurationBinder.Bind` reflection and its conversion of text to bool. Section values are already typed, and a conversion failure is not modelled.
- Case-insensitive configuration keys. .NET ignores case when it looks up section paths, connection-string names and property keys. The model's maps hold each key as the configuration resolves it, so lookups compare exactly. For example, the model does not find a connection string configured as `db` when the code asks for `Db`, although .NET would.
- `Text.IntToString`: the model writes a negative port with the ASCII '-'. String interpolation uses the current culture's negative sign, which may be another character, such as U+2212 under some cultures. Only the port -1 is affected; `Uri.Port` reports it when there is no port.
- `GraphDatabase.Driver` itself is left out, including its rejection of unsupported URI schemes. The model stops at the arguments it receives.
- Resolving services from the container is left out: which of several registrations wins, and building the bridge's own dependency. The bridge's constructor takes a non-generic `ILogger` (src/Aspire.Neo4j/Neo4jLoggerBridge.cs:7), which a default host does not register, so there resolving the bridge may throw. The factory only checks that an unkeyed bridge registration exists.
- Callbacks with side effects or exceptions: a callback is a pure transformation of the settings or of the driver configuration.
- The endpoint value the hosting framework allocates for `PrimaryEndpoint.Value`, and its parsing. `GetConnectionString` receives the parsed URI.
- A null `name` argument: the C# parameter is a non-nullable `string`.
- `ActivitySourceName` is declared in the source but never used, so the model omits it.
- The client and server connection-string formats do not match: the server publishes `Host=…` and the client expects a URI with user information. Each side is modelled as written, and the two are not reconciled.
- `ConnectionDetails.HostAddressRoundTrip`: stated only for schemes without ':', which is what section 3.1 of RFC 3986 allows.
- `Neo4jServer.ConnectionStringRoundTrip`: stated only for endpoints whose scheme and host contain no ';'. With a ';' the string would not split back into three fields.
- `Neo4jServer.ConnectionStringFields`: the same restriction to endpoints without ';' in scheme or host.
- `Neo4jServer.HostValueIsDriverAddress`: the same restriction, plus a scheme without ':'.

## Findings

| source | as written | input that shows it | evidently intended | confidence | as-written member | corrected member |
|---|---|---|---|---|---|---|
| src/Aspire.Neo4j/AspireNeo4jExtensions.cs:96 | `AddKeyedSingleton(serviceKey, CreateDriver)` passes a one-parameter local function; the keyed factory overloads want a delegate of two parameters, so the call binds to the instance overload, with the type parameter inferred as `Func<IServiceProvider, IDriver>` | `AddKeyedNeo4jDriver(builder, "db")` on an empty collection: no `IDriver` is registered under `"db"` | an `IDriver` registered under the key, built by the factory, as the summary at lines 33-34 says | medium; not executed, a reading of C# overload resolution | `AspireNeo4jExtensions.DispatchAsWritten`, `AspireNeo4jExtensions.AsWrittenKeyedAddsNoDriver`, `AspireNeo4jExtensions.KeyedDriverMissingAsWritten` | `AspireNeo4jExtensions.Dispatch`, `AspireNeo4jExtensions.DispatchAddsOneDriver` |
