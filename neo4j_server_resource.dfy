/** Neo4jServerResource (src/AppHost/Neo4j/Neo4jServerResource.cs): the
    AppHost's container resource, its two named endpoints, its constant
    credentials, and the connection string it publishes. */
module Neo4jServer {
  import opened Wrappers
  import opened Text
  import CD = ConnectionDetails

  const PrimaryEndpointName := "bolt"
  const DashboardEndpointName := "http"

  /** An endpoint of a resource, named by the resource and the endpoint name. */
  datatype EndpointReference = EndpointReference(resourceName: string, endpointName: string)

  /** A resource is its name; the get-only endpoint properties are derived
      from it, so every resource has them under "bolt" and "http". */
  datatype Neo4jServerResource = Neo4jServerResource(name: string) {

    function PrimaryEndpoint(): (e: EndpointReference)
      ensures e.resourceName == name && e.endpointName == "bolt"
    {
      EndpointReference(name, PrimaryEndpointName)
    }

    function DashboardEndpoint(): (e: EndpointReference)
      ensures e.resourceName == name && e.endpointName == "http"
    {
      EndpointReference(name, DashboardEndpointName)
    }

    function Username(): (s: string)
      ensures s == "neo4j"
    {
      "neo4j"
    }

    function Password(): (s: string)
      ensures s == "supersecretpassword"
    {
      "supersecretpassword"
    }

    /** primaryEndpointUri is the parsed address that the hosting framework
        allocated to the primary endpoint. The string starts with the Host
        field and ends with the two credential fields. */
    function GetConnectionString(primaryEndpointUri: CD.Uri): (s: string)
      ensures var host := "Host=" + CD.HostAddress(primaryEndpointUri);
              |host| <= |s| && s[..|host|] == host &&
              s[|host|..] == ";Username=" + Username() + ";Password=" + Password()
    {
      "Host=" + CD.HostAddress(primaryEndpointUri) + ";Username=" + Username() + ";Password=" + Password()
    }

    /** The same value for every resource, whatever its endpoints. */
    function ConnectionStringExpression(): (e: string)
      ensures e == "wip"
    {
      "wip"
    }
  }

  /** The constructor: both endpoints belong to the new resource, under the
      names "bolt" and "http". */
  function NewNeo4jServerResource(name: string): (r: Neo4jServerResource)
    ensures r.name == name
    ensures r.PrimaryEndpoint() == EndpointReference(name, "bolt")
    ensures r.DashboardEndpoint() == EndpointReference(name, "http")
  {
    Neo4jServerResource(name)
  }

  /** The three values a published connection string carries. */
  datatype ServerConnection = ServerConnection(host: string, username: string, password: string)

  /** A key=value field, split at its first '='. */
  function KeyValue(field: string): Option<(string, string)> {
    if '=' !in field then None
    else
      var i := IndexOf(field, '=');
      Some((field[..i], field[i + 1..]))
  }

  /** The value of a field whose key is the given one. */
  function Field(field: string, key: string): Option<string> {
    match KeyValue(field)
    case Some((k, v)) => if k == key then Some(v) else None
    case None => None
  }

  /** Reads a connection string of exactly three ';'-separated fields Host,
      Username and Password, in that order. */
  function ParseConnectionString(s: string): Option<ServerConnection> {
    var fields := Split(s, ';');
    if |fields| != 3 then None
    else
      var host := Field(fields[0], "Host");
      var user := Field(fields[1], "Username");
      var password := Field(fields[2], "Password");
      if host.Some? && user.Some? && password.Some? then Some(ServerConnection(host.value, user.value, password.value))
      else None
  }

  lemma KeyValueOf(key: string, value: string)
    requires '=' !in key
    ensures KeyValue(key + "=" + value) == Some((key, value))
  {
    var f := key + ['='] + value;
    assert key + "=" + value == f;
    IndexOfAfterPrefix(key, value, '=');
    assert f[..|key|] == key;
    assert f[|key| + 1..] == value;
  }

  /** Three separator-free fields joined by the separator split back into
      those three fields. */
  lemma SplitThree(a: string, b: string, c: string, sep: char)
    requires sep !in a && sep !in b && sep !in c
    ensures Split(a + [sep] + b + [sep] + c, sep) == [a, b, c]
  {
    SplitWithoutSeparator(c, sep);
    SplitAtSeparator(b, c, sep);
    assert a + [sep] + b + [sep] + c == a + [sep] + (b + [sep] + c);
    SplitAtSeparator(a, b + [sep] + c, sep);
  }

  lemma FieldOf(key: string, value: string)
    requires '=' !in key
    ensures Field(key + "=" + value, key) == Some(value)
  {
    KeyValueOf(key, value);
  }

  lemma ParseFields(s: string, host: string, user: string, password: string)
    requires Split(s, ';') == ["Host=" + host, "Username=" + user, "Password=" + password]
    ensures ParseConnectionString(s) == Some(ServerConnection(host, user, password))
  {
    assert "Host=" + host == "Host" + "=" + host;
    assert "Username=" + user == "Username" + "=" + user;
    assert "Password=" + password == "Password" + "=" + password;
    FieldOf("Host", host);
    FieldOf("Username", user);
    FieldOf("Password", password);
  }

  /** The published string is exactly three fields, Host, Username and
      Password in that order, as long as neither scheme nor host contains the
      field separator. */
  lemma ConnectionStringFields(r: Neo4jServerResource, u: CD.Uri)
    requires ';' !in u.scheme && ';' !in u.host
    ensures Split(r.GetConnectionString(u), ';') ==
            ["Host=" + CD.HostAddress(u), "Username=" + r.Username(), "Password=" + r.Password()]
  {
    var host := "Host=" + CD.HostAddress(u);
    var user := "Username=" + r.Username();
    var password := "Password=" + r.Password();
    HostFieldWithoutSemicolon(u);
    CredentialFieldsWithoutSemicolon(r);
    ConnectionStringShape(r, u);
    SplitThree(host, user, password, ';');
  }

  lemma HostFieldWithoutSemicolon(u: CD.Uri)
    requires ';' !in u.scheme && ';' !in u.host
    ensures ';' !in "Host=" + CD.HostAddress(u)
  {
    var digits := IntToString(u.port);
    assert ';' !in digits;
    assert "Host=" + CD.HostAddress(u) == "Host=" + u.scheme + "://" + u.host + ":" + digits;
  }

  lemma CredentialFieldsWithoutSemicolon(r: Neo4jServerResource)
    ensures ';' !in "Username=" + r.Username() && ';' !in "Password=" + r.Password()
  {
  }

  lemma ConnectionStringShape(r: Neo4jServerResource, u: CD.Uri)
    ensures r.GetConnectionString(u) ==
            ("Host=" + CD.HostAddress(u)) + [';'] + ("Username=" + r.Username()) + [';'] + ("Password=" + r.Password())
  {
  }

  /** Reading the published string back yields the endpoint's host address
      and the constant credentials. */
  lemma ConnectionStringRoundTrip(r: Neo4jServerResource, u: CD.Uri)
    requires ';' !in u.scheme && ';' !in u.host
    ensures ParseConnectionString(r.GetConnectionString(u)) ==
            Some(ServerConnection(CD.HostAddress(u), "neo4j", "supersecretpassword"))
  {
    ConnectionStringFields(r, u);
    ParseFields(r.GetConnectionString(u), CD.HostAddress(u), r.Username(), r.Password());
  }

  /** The Host value has the scheme://host:port shape the client builds for
      the driver: it reads back to the endpoint's scheme, host and port. */
  lemma HostValueIsDriverAddress(r: Neo4jServerResource, u: CD.Uri)
    requires ';' !in u.scheme && ';' !in u.host && ':' !in u.scheme
    ensures var c := ParseConnectionString(r.GetConnectionString(u));
            c.Some? && CD.ParseHostAddress(c.value.host) == Some(CD.Endpoint(u.scheme, u.host, u.port))
  {
    ConnectionStringRoundTrip(r, u);
    CD.HostAddressRoundTrip(u);
  }

  /** The connection string expression does not depend on the resource or
      its endpoints. */
  lemma ConnectionStringExpressionIsConstant(r1: Neo4jServerResource, r2: Neo4jServerResource)
    ensures r1.ConnectionStringExpression() == r2.ConnectionStringExpression() == "wip"
  {
  }

  /** Every resource carries the same credentials. */
  lemma CredentialsAreConstant(r: Neo4jServerResource)
    ensures r.Username() == "neo4j" && r.Password() == "supersecretpassword"
  {
  }
}
