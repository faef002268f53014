/** AspireNeo4jExtensions (src/Aspire.Neo4j/AspireNeo4jExtensions.cs): the
    two public registration entry points, the settings resolution they share,
    the dispatch between an unkeyed and a keyed driver singleton, and the
    driver factory that registration leaves behind. */
module AspireNeo4jExtensions {
  import opened Wrappers
  import opened Text
  import CD = ConnectionDetails
  import opened DriverSettings

  const DefaultConfigSectionName := "Aspire:Neo4j:Driver"

  /** The parameter name the blank-string check reports: the settings
      variable's name and its property's name, joined by a dot. */
  const ConnectionStringParamName := "settings" + "." + "ConnectionString"

  // ---------------------------------------------------------------------
  // Configuration, as far as registration reads it

  /** The values a configuration section holds for the three settings
      properties; None where the section has no such key. */
  datatype ConfigSection = ConfigSection(connectionString: Option<string>, healthChecks: Option<bool>, tracing: Option<bool>)

  const EmptySection := ConfigSection(None, None, None)

  /** The application configuration: sections by path, and the
      ConnectionStrings area by name. */
  datatype Configuration = Configuration(sections: map<string, ConfigSection>, connectionStrings: map<string, string>)

  /** IConfiguration.GetSection: a missing path is an empty section. */
  function GetSection(config: Configuration, path: string): (s: ConfigSection)
    ensures path in config.sections ==> s == config.sections[path]
    ensures path !in config.sections ==> s.connectionString.None? && s.healthChecks.None? && s.tracing.None?
  {
    if path in config.sections then config.sections[path] else EmptySection
  }

  /** IConfiguration.GetConnectionString: null when the name is absent. */
  function GetConnectionString(config: Configuration, name: string): (r: Option<string>)
    ensures r.Some? <==> name in config.connectionStrings
    ensures r.Some? ==> r.value == config.connectionStrings[name]
  {
    if name in config.connectionStrings then Some(config.connectionStrings[name]) else None
  }

  /** ConfigurationBinder.Bind on values: a key present in the section
      overwrites its property, an absent key leaves it alone. */
  function BindValue(v: SettingsValue, section: ConfigSection): (r: SettingsValue)
    ensures section.connectionString.Some? ==> r.connectionString == section.connectionString
    ensures section.connectionString.None? ==> r.connectionString == v.connectionString
    ensures r.healthChecks == (if section.healthChecks.Some? then section.healthChecks.value else v.healthChecks)
    ensures r.tracing == (if section.tracing.Some? then section.tracing.value else v.tracing)
  {
    SettingsValue(
      if section.connectionString.Some? then section.connectionString else v.connectionString,
      section.healthChecks.GetOr(v.healthChecks),
      section.tracing.GetOr(v.tracing))
  }

  /** configSection.Bind(settings), changing the object in place. */
  method Bind(section: ConfigSection, settings: Neo4jDriverSettings)
    modifies settings
    ensures settings.Value() == BindValue(old(settings.Value()), section)
  {
    if section.connectionString.Some? {
      settings.SetConnectionString(section.connectionString);
    }
    if section.healthChecks.Some? {
      settings.SetHealthChecks(section.healthChecks.value);
    }
    if section.tracing.Some? {
      settings.SetTracing(section.tracing.value);
    }
  }

  // ---------------------------------------------------------------------
  // The service collection

  /** IDriver, Neo4jLoggerBridge, and the delegate type
      Func<IServiceProvider, IDriver> registered as a service of its own. */
  datatype ServiceType = DriverService | LoggerBridgeService | DriverFactoryService

  /** The CreateDriver closure. It holds the settings object and reads its
      connection string only when the factory runs; nothing changes that
      object after validation, because callbacks are pure here, so the
      closure holds the final connection string directly, together with the
      configureDriver callback. */
  datatype DriverFactory = DriverFactory(connectionString: string, configureDriver: Option<CD.ConfigBuilder -> CD.ConfigBuilder>)

  /** A service registration: its service type, its key (None for an
      unkeyed registration) and, for the driver, its factory. */
  datatype ServiceDescriptor = ServiceDescriptor(serviceType: ServiceType, key: Option<string>, factory: Option<DriverFactory>)

  predicate HasUnkeyed(ds: seq<ServiceDescriptor>, t: ServiceType) {
    exists i :: 0 <= i < |ds| && ds[i].serviceType == t && ds[i].key.None?
  }

  lemma HasUnkeyedAppend(ds: seq<ServiceDescriptor>, d: ServiceDescriptor, t: ServiceType)
    ensures HasUnkeyed(ds + [d], t) <==> HasUnkeyed(ds, t) || (d.serviceType == t && d.key.None?)
  {
    var r := ds + [d];
    if HasUnkeyed(r, t) {
      var i :| 0 <= i < |r| && r[i].serviceType == t && r[i].key.None?;
      if i < |ds| {
        assert ds[i] == r[i];
      }
    }
    if HasUnkeyed(ds, t) {
      var i :| 0 <= i < |ds| && ds[i].serviceType == t && ds[i].key.None?;
      assert r[i] == ds[i];
    }
    assert r[|ds|] == d;
  }

  /** TryAddSingleton: append an unkeyed registration of t unless an unkeyed
      registration of t is already there. */
  function TryAdd(ds: seq<ServiceDescriptor>, t: ServiceType): (r: seq<ServiceDescriptor>)
    ensures HasUnkeyed(r, t)
    ensures HasUnkeyed(ds, t) ==> r == ds
    ensures !HasUnkeyed(ds, t) ==> r == ds + [ServiceDescriptor(t, None, None)]
  {
    if HasUnkeyed(ds, t) then ds
    else
      var r := ds + [ServiceDescriptor(t, None, None)];
      assert r[|ds|].serviceType == t && r[|ds|].key.None?;
      r
  }

  /** Number of registrations of t under exactly this key. */
  function CountKeyed(ds: seq<ServiceDescriptor>, t: ServiceType, key: Option<string>): nat {
    if |ds| == 0 then 0
    else CountKeyed(ds[..|ds| - 1], t, key) + (if ds[|ds| - 1].serviceType == t && ds[|ds| - 1].key == key then 1 else 0)
  }

  /** Number of registrations of t under any key or none. */
  function CountType(ds: seq<ServiceDescriptor>, t: ServiceType): nat {
    if |ds| == 0 then 0
    else CountType(ds[..|ds| - 1], t) + (if ds[|ds| - 1].serviceType == t then 1 else 0)
  }

  class ServiceCollection {
    var descriptors: seq<ServiceDescriptor>

    constructor ()
      ensures descriptors == []
    {
      descriptors := [];
    }

    /** Registers the driver factory as an unkeyed singleton. */
    method AddSingleton(factory: DriverFactory)
      modifies this
      ensures descriptors == old(descriptors) + [ServiceDescriptor(DriverService, None, Some(factory))]
    {
      descriptors := descriptors + [ServiceDescriptor(DriverService, None, Some(factory))];
    }

    /** Registers the driver factory as a singleton under the key: the
        keyed registration that the summary of AddKeyedNeo4jDriver
        describes. DispatchAsWritten models how line 96 binds instead. */
    method AddKeyedSingleton(serviceKey: string, factory: DriverFactory)
      modifies this
      ensures descriptors == old(descriptors) + [ServiceDescriptor(DriverService, Some(serviceKey), Some(factory))]
    {
      descriptors := descriptors + [ServiceDescriptor(DriverService, Some(serviceKey), Some(factory))];
    }

    /** Registers an unkeyed singleton of t unless one is already there. */
    method TryAddSingleton(t: ServiceType)
      modifies this
      ensures descriptors == TryAdd(old(descriptors), t)
    {
      if !HasUnkeyed(descriptors, t) {
        descriptors := descriptors + [ServiceDescriptor(t, None, None)];
      }
    }
  }

  /** The parts of IHostApplicationBuilder registration uses. */
  class HostApplicationBuilder {
    const configuration: Configuration
    const services: ServiceCollection

    constructor (configuration: Configuration)
      ensures this.configuration == configuration
      ensures fresh(services) && services.descriptors == []
    {
      this.configuration := configuration;
      services := new ServiceCollection();
    }
  }

  // ---------------------------------------------------------------------
  // Registration as a function of the configuration and the collection

  datatype RegistrationError = ArgumentNull(paramName: string) | ArgumentBlank(paramName: string)

  /** Fresh settings, bound from the section, then overridden by the named
      connection string when there is one. */
  function Prepare(config: Configuration, sectionName: string, connectionName: string): (s: SettingsValue)
    ensures connectionName in config.connectionStrings ==>
              s.connectionString == Some(config.connectionStrings[connectionName])
    ensures connectionName !in config.connectionStrings ==>
              s.connectionString == GetSection(config, sectionName).connectionString
    ensures s.healthChecks == GetSection(config, sectionName).healthChecks.GetOr(true)
    ensures s.tracing == GetSection(config, sectionName).tracing.GetOr(true)
  {
    var bound := BindValue(Defaults, GetSection(config, sectionName));
    match GetConnectionString(config, connectionName)
    case Some(cs) => bound.(connectionString := Some(cs))
    case None => bound
  }

  /** The settings after the user callback, which runs last. */
  function ResolveSettings(config: Configuration, sectionName: string, connectionName: string,
                           configureSettings: Option<SettingsValue -> SettingsValue>): (s: SettingsValue)
    ensures configureSettings.None? ==> s == Prepare(config, sectionName, connectionName)
    ensures configureSettings.Some? ==> s == configureSettings.value(Prepare(config, sectionName, connectionName))
  {
    var prepared := Prepare(config, sectionName, connectionName);
    match configureSettings
    case None => prepared
    case Some(f) => f(prepared)
  }

  /** The check after the callback: a null connection string is an
      argument-null error, an empty or white-space one an argument error,
      both naming the connection-string parameter. */
  function Validate(s: SettingsValue): (r: Outcome<RegistrationError>)
    ensures r.Pass? <==> !IsNullOrWhiteSpace(s.connectionString)
    ensures s.connectionString.None? ==> r == Fail(ArgumentNull(ConnectionStringParamName))
    ensures s.connectionString.Some? && IsBlank(s.connectionString.value) ==> r == Fail(ArgumentBlank(ConnectionStringParamName))
  {
    match s.connectionString
    case None => Fail(ArgumentNull(ConnectionStringParamName))
    case Some(cs) => if IsBlank(cs) then Fail(ArgumentBlank(ConnectionStringParamName)) else Pass
  }

  /** One driver registration, unkeyed when the key is None and keyed
      otherwise, then the logger bridge if there is none yet. */
  function Dispatch(ds: seq<ServiceDescriptor>, serviceKey: Option<string>, factory: DriverFactory): (r: seq<ServiceDescriptor>)
    ensures |r| == |ds| + 1 + (if HasUnkeyed(ds, LoggerBridgeService) then 0 else 1)
    ensures r[..|ds|] == ds
    ensures r[|ds|] == ServiceDescriptor(DriverService, serviceKey, Some(factory))
    ensures |r| == |ds| + 2 ==> r[|ds| + 1] == ServiceDescriptor(LoggerBridgeService, None, None)
    ensures HasUnkeyed(r, LoggerBridgeService)
  {
    var withDriver := ds + [ServiceDescriptor(DriverService, serviceKey, Some(factory))];
    HasUnkeyedAppend(ds, ServiceDescriptor(DriverService, serviceKey, Some(factory)), LoggerBridgeService);
    TryAdd(withDriver, LoggerBridgeService)
  }

  datatype Registration = Registration(outcome: Outcome<RegistrationError>, services: seq<ServiceDescriptor>)

  /** The private AddNeo4jDriver on values: resolve, validate, dispatch. A
      failed validation leaves the collection as it was. */
  function Register(ds: seq<ServiceDescriptor>, config: Configuration, sectionName: string, connectionName: string,
                    serviceKey: Option<string>, configureSettings: Option<SettingsValue -> SettingsValue>,
                    configureDriver: Option<CD.ConfigBuilder -> CD.ConfigBuilder>): (r: Registration)
    ensures r.outcome.Pass? <==> !IsNullOrWhiteSpace(ResolveSettings(config, sectionName, connectionName, configureSettings).connectionString)
    ensures r.outcome.Fail? ==> r.services == ds
    ensures r.outcome.Pass? ==>
              var cs := ResolveSettings(config, sectionName, connectionName, configureSettings).connectionString;
              r.services == Dispatch(ds, serviceKey, DriverFactory(cs.value, configureDriver))
  {
    var settings := ResolveSettings(config, sectionName, connectionName, configureSettings);
    match Validate(settings)
    case Fail(e) => Registration(Fail(e), ds)
    case Pass => Registration(Pass, Dispatch(ds, serviceKey, DriverFactory(settings.connectionString.value, configureDriver)))
  }

  // ---------------------------------------------------------------------
  // The source's three methods

  method AddNeo4jDriverCore(builder: HostApplicationBuilder?, configurationSectionName: string,
                            configureSettings: Option<SettingsValue -> SettingsValue>,
                            configureDriver: Option<CD.ConfigBuilder -> CD.ConfigBuilder>,
                            connectionName: string, serviceKey: Option<string>)
    returns (outcome: Outcome<RegistrationError>)
    modifies if builder == null then {} else {builder.services}
    ensures builder == null ==> outcome == Fail(ArgumentNull("builder"))
    ensures builder != null ==>
              var r := Register(old(builder.services.descriptors), builder.configuration, configurationSectionName,
                                connectionName, serviceKey, configureSettings, configureDriver);
              outcome == r.outcome && builder.services.descriptors == r.services
  {
    if builder == null {
      return Fail(ArgumentNull("builder"));
    }
    var section := GetSection(builder.configuration, configurationSectionName);
    var settings := new Neo4jDriverSettings();
    Bind(section, settings);
    var connectionString := GetConnectionString(builder.configuration, connectionName);
    if connectionString.Some? {
      settings.SetConnectionString(connectionString);
    }
    assert settings.Value() == Prepare(builder.configuration, configurationSectionName, connectionName);
    if configureSettings.Some? {
      settings.Assign(configureSettings.value(settings.Value()));
    }
    var final := settings.connectionString;
    if final.None? {
      return Fail(ArgumentNull(ConnectionStringParamName));
    }
    if IsBlank(final.value) {
      return Fail(ArgumentBlank(ConnectionStringParamName));
    }
    var factory := DriverFactory(final.value, configureDriver);
    if serviceKey.None? {
      builder.services.AddSingleton(factory);
    } else {
      builder.services.AddKeyedSingleton(serviceKey.value, factory);
    }
    builder.services.TryAddSingleton(LoggerBridgeService);
    outcome := Pass;
  }

  /** AddNeo4jDriver(builder, name, ...): the default section, no key. */
  method AddNeo4jDriver(builder: HostApplicationBuilder?, name: string,
                        configureSettings: Option<SettingsValue -> SettingsValue>,
                        configureDriver: Option<CD.ConfigBuilder -> CD.ConfigBuilder>)
    returns (outcome: Outcome<RegistrationError>)
    modifies if builder == null then {} else {builder.services}
    ensures builder == null ==> outcome == Fail(ArgumentNull("builder"))
    ensures builder != null ==>
              var r := Register(old(builder.services.descriptors), builder.configuration, "Aspire:Neo4j:Driver",
                                name, None, configureSettings, configureDriver);
              outcome == r.outcome && builder.services.descriptors == r.services
    ensures builder != null ==>
              var r := RegisterCall(old(builder.services.descriptors), builder.configuration,
                                    Call(false, name, configureSettings, configureDriver));
              outcome == r.outcome && builder.services.descriptors == r.services
  {
    outcome := AddNeo4jDriverCore(builder, DefaultConfigSectionName, configureSettings, configureDriver, name, None);
  }

  /** AddKeyedNeo4jDriver(builder, name, ...): the section named after the
      connection, and the name as the service key. */
  method AddKeyedNeo4jDriver(builder: HostApplicationBuilder?, name: string,
                             configureSettings: Option<SettingsValue -> SettingsValue>,
                             configureDriver: Option<CD.ConfigBuilder -> CD.ConfigBuilder>)
    returns (outcome: Outcome<RegistrationError>)
    modifies if builder == null then {} else {builder.services}
    ensures builder == null ==> outcome == Fail(ArgumentNull("builder"))
    ensures builder != null ==>
              var r := Register(old(builder.services.descriptors), builder.configuration, "Aspire:Neo4j:Driver:" + name,
                                name, Some(name), configureSettings, configureDriver);
              outcome == r.outcome && builder.services.descriptors == r.services
    ensures builder != null ==>
              var r := RegisterCall(old(builder.services.descriptors), builder.configuration,
                                    Call(true, name, configureSettings, configureDriver));
              outcome == r.outcome && builder.services.descriptors == r.services
  {
    assert DefaultConfigSectionName + ":" + name == "Aspire:Neo4j:Driver:" + name;
    outcome := AddNeo4jDriverCore(builder, DefaultConfigSectionName + ":" + name, configureSettings, configureDriver, name, Some(name));
  }

  // ---------------------------------------------------------------------
  // The driver factory

  datatype FactoryError = UriFormat | MissingLoggerBridge

  /** What GraphDatabase.Driver is called with. */
  datatype Driver = Driver(host: string, token: CD.AuthToken, config: CD.ConfigBuilder)

  /** Running the factory: parse the captured connection string (the URI
      constructor throws on an unparsable one), build host and token, and configure the
      driver with the logger bridge resolved from the services. */
  function CreateDriver(factory: DriverFactory, services: seq<ServiceDescriptor>,
                        parse: string -> Option<CD.Uri>): (r: Result<Driver, FactoryError>)
    ensures parse(factory.connectionString).None? ==> r == Err(UriFormat)
    ensures parse(factory.connectionString).Some? && !HasUnkeyed(services, LoggerBridgeService) ==> r == Err(MissingLoggerBridge)
    ensures r.Ok? <==> parse(factory.connectionString).Some? && HasUnkeyed(services, LoggerBridgeService)
    ensures r.Ok? ==>
              var u := parse(factory.connectionString).value;
              r.value.host == CD.HostAddress(u) && r.value.token == CD.Token(u.userInfo) &&
              r.value.config == CD.DriverConfig(CD.DefaultConfig, factory.configureDriver)
  {
    match parse(factory.connectionString)
    case None => Err(UriFormat)
    case Some(u) =>
      if !HasUnkeyed(services, LoggerBridgeService) then Err(MissingLoggerBridge)
      else Ok(Driver(CD.HostAddress(u), CD.Token(u.userInfo), CD.DriverConfig(CD.DefaultConfig, factory.configureDriver)))
  }

  // ---------------------------------------------------------------------
  // Properties of registration

  lemma CountKeyedAppend(ds: seq<ServiceDescriptor>, d: ServiceDescriptor, t: ServiceType, key: Option<string>)
    ensures CountKeyed(ds + [d], t, key) == CountKeyed(ds, t, key) + (if d.serviceType == t && d.key == key then 1 else 0)
  {
    assert (ds + [d])[..|ds|] == ds;
  }

  lemma CountTypeAppend(ds: seq<ServiceDescriptor>, d: ServiceDescriptor, t: ServiceType)
    ensures CountType(ds + [d], t) == CountType(ds, t) + (if d.serviceType == t then 1 else 0)
  {
    assert (ds + [d])[..|ds|] == ds;
  }

  /** A collection without a registration of t counts none. */
  lemma {:induction false} CountTypeZero(ds: seq<ServiceDescriptor>, t: ServiceType)
    requires forall i :: 0 <= i < |ds| ==> ds[i].serviceType != t
    ensures CountType(ds, t) == 0
  {
    if |ds| > 0 {
      CountTypeZero(ds[..|ds| - 1], t);
    }
  }

  /** Each registration adds exactly one driver: under the given key, so the
      count under every other key (the unkeyed one included) stays as it
      was. An unkeyed and a keyed driver are never both added. */
  lemma DispatchAddsOneDriver(ds: seq<ServiceDescriptor>, serviceKey: Option<string>, factory: DriverFactory, key: Option<string>)
    ensures CountKeyed(Dispatch(ds, serviceKey, factory), DriverService, key)
            == CountKeyed(ds, DriverService, key) + (if key == serviceKey then 1 else 0)
    ensures CountType(Dispatch(ds, serviceKey, factory), DriverService) == CountType(ds, DriverService) + 1
  {
    var r := Dispatch(ds, serviceKey, factory);
    var driver := ServiceDescriptor(DriverService, serviceKey, Some(factory));
    var withDriver := ds + [driver];
    assert r[..|ds| + 1] == withDriver;
    CountKeyedAppend(ds, driver, DriverService, key);
    CountTypeAppend(ds, driver, DriverService);
    if |r| == |ds| + 2 {
      var bridge := ServiceDescriptor(LoggerBridgeService, None, None);
      assert r == withDriver + [bridge];
      CountKeyedAppend(withDriver, bridge, DriverService, key);
      CountTypeAppend(withDriver, bridge, DriverService);
    } else {
      assert r == withDriver;
    }
  }

  /** The collection holds at most one logger bridge, and it is unkeyed. */
  predicate SingleLoggerBridge(ds: seq<ServiceDescriptor>) {
    CountType(ds, LoggerBridgeService) <= 1 &&
    forall i :: 0 <= i < |ds| && ds[i].serviceType == LoggerBridgeService ==> ds[i].key.None?
  }

  /** A registration keeps the collection at one logger bridge, and leaves
      exactly one behind. */
  lemma DispatchKeepsSingleLoggerBridge(ds: seq<ServiceDescriptor>, serviceKey: Option<string>, factory: DriverFactory)
    requires SingleLoggerBridge(ds)
    ensures SingleLoggerBridge(Dispatch(ds, serviceKey, factory))
    ensures CountType(Dispatch(ds, serviceKey, factory), LoggerBridgeService) == 1
  {
    var r := Dispatch(ds, serviceKey, factory);
    var driver := ServiceDescriptor(DriverService, serviceKey, Some(factory));
    var withDriver := ds + [driver];
    assert r[..|ds| + 1] == withDriver;
    CountTypeAppend(ds, driver, LoggerBridgeService);
    if |r| == |ds| + 2 {
      var bridge := ServiceDescriptor(LoggerBridgeService, None, None);
      assert r == withDriver + [bridge];
      CountTypeAppend(withDriver, bridge, LoggerBridgeService);
      assert !HasUnkeyed(ds, LoggerBridgeService);
      CountTypeZero(ds, LoggerBridgeService);
    } else {
      assert r == withDriver;
      var i :| 0 <= i < |ds| && ds[i].serviceType == LoggerBridgeService && ds[i].key.None?;
      if CountType(ds, LoggerBridgeService) == 0 {
        CountTypePositive(ds, LoggerBridgeService, i);
      }
    }
  }

  /** A collection with a registration of t counts it. */
  lemma {:induction false} CountTypePositive(ds: seq<ServiceDescriptor>, t: ServiceType, i: nat)
    requires i < |ds| && ds[i].serviceType == t
    ensures CountType(ds, t) > 0
  {
    if i < |ds| - 1 {
      CountTypePositive(ds[..|ds| - 1], t, i);
    }
  }

  /** One call of either public entry point: AddKeyedNeo4jDriver when keyed,
      AddNeo4jDriver otherwise. Both methods state their effect as
      RegisterCall of the matching Call, so a sequence of calls below is a
      sequence of those methods. */
  datatype Call = Call(keyed: bool, name: string,
                       configureSettings: Option<SettingsValue -> SettingsValue>,
                       configureDriver: Option<CD.ConfigBuilder -> CD.ConfigBuilder>)

  function RegisterCall(ds: seq<ServiceDescriptor>, config: Configuration, c: Call): Registration {
    if c.keyed then
      Register(ds, config, DefaultConfigSectionName + ":" + c.name, c.name, Some(c.name), c.configureSettings, c.configureDriver)
    else
      Register(ds, config, DefaultConfigSectionName, c.name, None, c.configureSettings, c.configureDriver)
  }

  /** A sequence of calls. A call that throws leaves the collection as it
      was, so a caller that catches the exception may go on. */
  function RegisterAll(ds: seq<ServiceDescriptor>, config: Configuration, calls: seq<Call>): seq<ServiceDescriptor>
    decreases |calls|
  {
    if |calls| == 0 then ds
    else
      var step := RegisterCall(ds, config, calls[0]);
      RegisterAll(step.services, config, calls[1..])
  }

  /** After any number of calls, keyed or not, there is at most one logger
      bridge registration. */
  lemma {:induction false} RegisterAllKeepsSingleLoggerBridge(ds: seq<ServiceDescriptor>, config: Configuration, calls: seq<Call>)
    requires SingleLoggerBridge(ds)
    ensures SingleLoggerBridge(RegisterAll(ds, config, calls))
    decreases |calls|
  {
    if |calls| > 0 {
      var c := calls[0];
      var step := RegisterCall(ds, config, c);
      if step.outcome.Pass? {
        var key := if c.keyed then Some(c.name) else None;
        var section := if c.keyed then DefaultConfigSectionName + ":" + c.name else DefaultConfigSectionName;
        var cs := ResolveSettings(config, section, c.name, c.configureSettings).connectionString;
        DispatchKeepsSingleLoggerBridge(ds, key, DriverFactory(cs.value, c.configureDriver));
      }
      RegisterAllKeepsSingleLoggerBridge(step.services, config, calls[1..]);
    }
  }

  /** Starting from an empty collection, in particular. */
  lemma LoggerBridgeAtMostOnce(config: Configuration, calls: seq<Call>)
    ensures CountType(RegisterAll([], config, calls), LoggerBridgeService) <= 1
  {
    RegisterAllKeepsSingleLoggerBridge([], config, calls);
  }

  /** Without a callback: registration succeeds exactly when the named
      connection string, if present, is not blank, or, if absent, the bound
      section supplies one that is not blank. */
  lemma OutcomeWithoutCallback(ds: seq<ServiceDescriptor>, config: Configuration, sectionName: string, name: string,
                               serviceKey: Option<string>, configureDriver: Option<CD.ConfigBuilder -> CD.ConfigBuilder>)
    ensures Register(ds, config, sectionName, name, serviceKey, None, configureDriver).outcome.Pass? <==>
            if name in config.connectionStrings then !IsBlank(config.connectionStrings[name])
            else sectionName in config.sections && config.sections[sectionName].connectionString.Some? &&
                 !IsBlank(config.sections[sectionName].connectionString.value)
  {
  }

  /** The callback has the final say: when it decides the connection
      string, the configuration it was given makes no difference to the
      outcome or to what is registered. */
  lemma CallbackHasFinalSay(ds: seq<ServiceDescriptor>, config1: Configuration, config2: Configuration,
                            sectionName: string, name: string, serviceKey: Option<string>,
                            f: SettingsValue -> SettingsValue, configureDriver: Option<CD.ConfigBuilder -> CD.ConfigBuilder>)
    requires forall v :: f(v).connectionString == f(Defaults).connectionString
    ensures Register(ds, config1, sectionName, name, serviceKey, Some(f), configureDriver)
            == Register(ds, config2, sectionName, name, serviceKey, Some(f), configureDriver)
  {
    var p1 := Prepare(config1, sectionName, name);
    var p2 := Prepare(config2, sectionName, name);
    assert f(p1).connectionString == f(p2).connectionString;
  }

  lemma HasUnkeyedExtended(ds: seq<ServiceDescriptor>, extra: seq<ServiceDescriptor>, t: ServiceType)
    requires HasUnkeyed(ds, t)
    ensures HasUnkeyed(ds + extra, t)
  {
    var i :| 0 <= i < |ds| && ds[i].serviceType == t && ds[i].key.None?;
    assert (ds + extra)[i] == ds[i];
  }

  /** A successful registration appends the driver under the service key,
      with a factory over the final connection string. Whatever is
      registered afterwards, the logger bridge registration stays, so the
      modelled factory reaches GraphDatabase.Driver exactly when the
      connection string parses: parsing is deferred to the factory. */
  lemma RegisteredFactoryRuns(ds: seq<ServiceDescriptor>, config: Configuration, sectionName: string, name: string,
                              serviceKey: Option<string>, configureSettings: Option<SettingsValue -> SettingsValue>,
                              configureDriver: Option<CD.ConfigBuilder -> CD.ConfigBuilder>,
                              later: seq<ServiceDescriptor>, parse: string -> Option<CD.Uri>)
    requires Register(ds, config, sectionName, name, serviceKey, configureSettings, configureDriver).outcome.Pass?
    ensures var r := Register(ds, config, sectionName, name, serviceKey, configureSettings, configureDriver);
            var cs := ResolveSettings(config, sectionName, name, configureSettings).connectionString.value;
            |r.services| > |ds| &&
            r.services[|ds|] == ServiceDescriptor(DriverService, serviceKey, Some(DriverFactory(cs, configureDriver))) &&
            (CreateDriver(DriverFactory(cs, configureDriver), r.services + later, parse).Ok? <==> parse(cs).Some?)
  {
    var r := Register(ds, config, sectionName, name, serviceKey, configureSettings, configureDriver);
    HasUnkeyedExtended(r.services, later, LoggerBridgeService);
  }

  // ---------------------------------------------------------------------
  // The keyed registration as line 96 binds

  /** CreateDriver takes one parameter, so no keyed factory overload, which
      wants a delegate of two parameters (the provider and the key), applies
      to it. The overload that does apply takes an instance of a type
      parameter, inferred as the natural type Func<IServiceProvider, IDriver>
      of the method group: the delegate itself is registered under the key,
      as a service of the delegate type. The unkeyed call is unaffected,
      because the factory overload is the more specific one there. */
  function DispatchAsWritten(ds: seq<ServiceDescriptor>, serviceKey: Option<string>, factory: DriverFactory): (r: seq<ServiceDescriptor>)
    ensures serviceKey.None? ==> r == Dispatch(ds, serviceKey, factory)
    ensures serviceKey.Some? ==>
              |r| == |ds| + 1 + (if HasUnkeyed(ds, LoggerBridgeService) then 0 else 1) &&
              r[..|ds|] == ds &&
              r[|ds|] == ServiceDescriptor(DriverFactoryService, serviceKey, Some(factory)) &&
              (|r| == |ds| + 2 ==> r[|ds| + 1] == ServiceDescriptor(LoggerBridgeService, None, None))
    ensures HasUnkeyed(r, LoggerBridgeService)
  {
    if serviceKey.None? then Dispatch(ds, serviceKey, factory)
    else
      var instance := ServiceDescriptor(DriverFactoryService, serviceKey, Some(factory));
      HasUnkeyedAppend(ds, instance, LoggerBridgeService);
      TryAdd(ds + [instance], LoggerBridgeService)
  }

  /** As bound, a keyed call registers no driver at all: the driver count
      under every key, and in total, stays what it was. */
  lemma AsWrittenKeyedAddsNoDriver(ds: seq<ServiceDescriptor>, serviceKey: string, factory: DriverFactory, key: Option<string>)
    ensures CountKeyed(DispatchAsWritten(ds, Some(serviceKey), factory), DriverService, key) == CountKeyed(ds, DriverService, key)
    ensures CountType(DispatchAsWritten(ds, Some(serviceKey), factory), DriverService) == CountType(ds, DriverService)
  {
    var r := DispatchAsWritten(ds, Some(serviceKey), factory);
    var instance := ServiceDescriptor(DriverFactoryService, Some(serviceKey), Some(factory));
    var withInstance := ds + [instance];
    assert r[..|ds| + 1] == withInstance;
    CountKeyedAppend(ds, instance, DriverService, key);
    CountTypeAppend(ds, instance, DriverService);
    if |r| == |ds| + 2 {
      var bridge := ServiceDescriptor(LoggerBridgeService, None, None);
      assert r == withInstance + [bridge];
      CountKeyedAppend(withInstance, bridge, DriverService, key);
      CountTypeAppend(withInstance, bridge, DriverService);
    } else {
      assert r == withInstance;
    }
  }

  /** The discrepancy on AddKeyedNeo4jDriver(builder, "db") in an empty
      collection: as bound, no IDriver is registered under "db", while the
      documented registration puts exactly one there. */
  lemma KeyedDriverMissingAsWritten(factory: DriverFactory)
    ensures CountKeyed(DispatchAsWritten([], Some("db"), factory), DriverService, Some("db")) == 0
    ensures CountKeyed(Dispatch([], Some("db"), factory), DriverService, Some("db")) == 1
  {
    AsWrittenKeyedAddsNoDriver([], "db", factory, Some("db"));
    DispatchAddsOneDriver([], Some("db"), factory, Some("db"));
  }
}
