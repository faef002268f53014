/** Neo4jDriverSettings (src/Aspire.Neo4j/Neo4jDriverSettings.cs): three
    mutable properties that the configuration binder, the named connection
    string and the user callback change in place. */
module DriverSettings {
  import opened Wrappers

  /** A snapshot of the three properties. */
  datatype SettingsValue = SettingsValue(connectionString: Option<string>, healthChecks: bool, tracing: bool)

  /** The values of a freshly constructed settings object. */
  const Defaults := SettingsValue(None, true, true)

  class Neo4jDriverSettings {
    var connectionString: Option<string>
    var healthChecks: bool
    var tracing: bool

    function Value(): (v: SettingsValue)
      reads this
      ensures v.connectionString == connectionString && v.healthChecks == healthChecks && v.tracing == tracing
    {
      SettingsValue(connectionString, healthChecks, tracing)
    }

    /** ConnectionString starts null, HealthChecks and Tracing start true. */
    constructor ()
      ensures connectionString == None && healthChecks && tracing
      ensures Value() == Defaults
    {
      connectionString := None;
      healthChecks := true;
      tracing := true;
    }

    method SetConnectionString(v: Option<string>)
      modifies this
      ensures connectionString == v
      ensures healthChecks == old(healthChecks) && tracing == old(tracing)
    {
      connectionString := v;
    }

    method SetHealthChecks(v: bool)
      modifies this
      ensures healthChecks == v
      ensures connectionString == old(connectionString) && tracing == old(tracing)
    {
      healthChecks := v;
    }

    method SetTracing(v: bool)
      modifies this
      ensures tracing == v
      ensures connectionString == old(connectionString) && healthChecks == old(healthChecks)
    {
      tracing := v;
    }

    /** What a callback that sets every property leaves behind. */
    method Assign(v: SettingsValue)
      modifies this
      ensures Value() == v
    {
      SetConnectionString(v.connectionString);
      SetHealthChecks(v.healthChecks);
      SetTracing(v.tracing);
    }
  }
}
