/** What the driver factory reads from a parsed connection string: the host
    address it dials and the authentication token, and the driver
    configuration step that attaches the logger bridge
    (src/Aspire.Neo4j/AspireNeo4jExtensions.cs, the CreateDriver closure). */
module ConnectionDetails {
  import Wrappers
  import opened Text

  /** The parts of a parsed System.Uri that the closure reads. UserInfo is
      None where the closure's `?.` would see null. An absolute System.Uri
      reports the empty string, never null, when it has no user
      information, so the parser gives Some("") there; None covers the
      `?.` branch, which the code never takes, and yields the same token
      None as Some("") does (TokenOfEmptyUserInfo). */
  datatype Uri = Uri(scheme: string, host: string, port: int, userInfo: Wrappers.Option<string>)

  /** The only two tokens the code builds: AuthTokens.Basic and AuthTokens.None. */
  datatype AuthToken = Basic(username: string, password: string) | None

  /** The address handed to the driver: scheme, "://", host, ":" and port. */
  function HostAddress(u: Uri): (a: string)
    ensures |a| == |u.scheme| + 3 + |u.host| + 1 + |IntToString(u.port)|
    ensures a[..|u.scheme|] == u.scheme && a[|u.scheme|..|u.scheme| + 3] == "://"
    ensures a[|u.scheme| + 3..|u.scheme| + 3 + |u.host|] == u.host
    ensures a[|u.scheme| + 3 + |u.host|..] == ":" + IntToString(u.port)
  {
    u.scheme + "://" + u.host + ":" + IntToString(u.port)
  }

  /** Basic when the user information splits on ':' into exactly two
      non-empty parts, None otherwise. */
  function Token(userInfo: Wrappers.Option<string>): (t: AuthToken)
    ensures userInfo.None? ==> t == AuthToken.None
    ensures t.Basic? ==> |t.username| > 0 && |t.password| > 0 && ':' !in t.username && ':' !in t.password &&
                         userInfo == Wrappers.Some(t.username + ":" + t.password)
  {
    match userInfo
    case None => AuthToken.None
    case Some(info) =>
      var parts := Split(info, ':');
      JoinSplit(info, ':');
      if |parts| == 2 && |parts[0]| > 0 && |parts[1]| > 0 then Basic(parts[0], parts[1])
      else AuthToken.None
  }

  /** The token is Basic(u, p) exactly when the user information is the
      user:password form of section 3.2.1 of RFC 3986 with both halves
      non-empty and free of ':'. */
  lemma TokenIsBasicIff(info: string, u: string, p: string)
    ensures Token(Wrappers.Some(info)) == Basic(u, p) <==>
            (|u| > 0 && |p| > 0 && ':' !in u && ':' !in p && info == u + ":" + p)
  {
    if |u| > 0 && |p| > 0 && ':' !in u && ':' !in p && info == u + ":" + p {
      SplitAtSeparator(u, p, ':');
      SplitWithoutSeparator(p, ':');
    }
    if Token(Wrappers.Some(info)) == Basic(u, p) {
      var parts := Split(info, ':');
      assert parts == [u, p];
      JoinSplit(info, ':');
      assert Join(parts, ':') == u + [':'] + p;
    }
  }

  /** The null branch of `?.` gives None. System.Uri never takes it, since
      it reports missing user information as "", which gives None too. */
  lemma TokenWithoutUserInfo()
    ensures Token(Wrappers.None) == AuthToken.None
  {
  }

  /** The cases the pattern match rejects: no user information at all, no
      ':', more than one ':', or an empty half; and one it accepts. */
  lemma TokenOfEmptyUserInfo()
    ensures Token(Wrappers.Some("")) == AuthToken.None
  {
    assert Split("", ':') == [""];
  }

  lemma TokenOfUserOnly()
    ensures Token(Wrappers.Some("user")) == AuthToken.None
  {
    SplitWithoutSeparator("user", ':');
  }

  lemma TokenOfThreeParts()
    ensures Token(Wrappers.Some("a:b:c")) == AuthToken.None
  {
    SplitWithoutSeparator("c", ':');
    SplitAtSeparator("b", "c", ':');
    assert "b:c" == "b" + [':'] + "c";
    SplitAtSeparator("a", "b:c", ':');
    assert "a:b:c" == "a" + [':'] + "b:c";
  }

  lemma TokenOfEmptyUser()
    ensures Token(Wrappers.Some(":p")) == AuthToken.None
  {
    SplitWithoutSeparator("p", ':');
    SplitAtSeparator("", "p", ':');
    assert ":p" == "" + [':'] + "p";
  }

  lemma TokenOfEmptyPassword()
    ensures Token(Wrappers.Some("u:")) == AuthToken.None
  {
    SplitWithoutSeparator("u", ':');
    SplitAtSeparator("u", "", ':');
    assert "u:" == "u" + [':'] + "";
  }

  lemma TokenOfUserAndPassword()
    ensures Token(Wrappers.Some("u:p")) == Basic("u", "p")
  {
    SplitWithoutSeparator("p", ':');
    SplitAtSeparator("u", "p", ':');
    assert "u:p" == "u" + [':'] + "p";
  }

  /** More than one ':' in the user information always gives None. */
  lemma TokenNoneForManyColons(info: string)
    requires Occurrences(info, ':') >= 2
    ensures Token(Wrappers.Some(info)) == AuthToken.None
  {
  }

  /** The scheme, host and port recovered from a host address. */
  datatype Endpoint = Endpoint(scheme: string, host: string, port: int)

  /** Reads a host address back: the scheme ends at the first ':', which must
      be followed by "//"; the port follows the last ':'. */
  function ParseHostAddress(s: string): Wrappers.Option<Endpoint> {
    if ':' !in s then Wrappers.None
    else
      var i := IndexOf(s, ':');
      if i + 3 > |s| || s[i + 1] != '/' || s[i + 2] != '/' then Wrappers.None
      else
        var rest := s[i + 3..];
        if ':' !in rest then Wrappers.None
        else
          var j := LastIndexOf(rest, ':');
          match ParseInt(rest[j + 1..])
          case None => Wrappers.None
          case Some(port) => Wrappers.Some(Endpoint(s[..i], rest[..j], port))
  }

  /** The host address keeps exactly the scheme, host and port: they can be
      read back from it, and nothing else (user information, path, query)
      is in it. A URI scheme never contains ':'. */
  lemma HostAddressRoundTrip(u: Uri)
    requires ':' !in u.scheme
    ensures ParseHostAddress(HostAddress(u)) == Wrappers.Some(Endpoint(u.scheme, u.host, u.port))
  {
    var digits := IntToString(u.port);
    assert ':' !in digits;
    var rest := u.host + [':'] + digits;
    var s := u.scheme + [':'] + ("//" + rest);
    assert HostAddress(u) == s;
    SchemePrefix(u.scheme, rest);
    PortSuffix(u.host, u.port);
    ParseHostAddressParts(s, u.scheme, rest, u.host, u.port);
  }

  /** The scheme ends at the first ':' and is followed by "//". */
  lemma SchemePrefix(scheme: string, rest: string)
    requires ':' !in scheme
    ensures var s := scheme + [':'] + ("//" + rest);
      ':' in s && IndexOf(s, ':') == |scheme| && |s| >= |scheme| + 3 &&
      s[|scheme| + 1] == '/' && s[|scheme| + 2] == '/' &&
      s[..|scheme|] == scheme && s[|scheme| + 3..] == rest
  {
    var s := scheme + [':'] + ("//" + rest);
    IndexOfAfterPrefix(scheme, "//" + rest, ':');
    assert s[..|scheme|] == scheme;
    assert s[|scheme| + 3..] == rest;
  }

  /** The port follows the last ':' and parses back. */
  lemma PortSuffix(host: string, port: int)
    ensures var rest := host + [':'] + IntToString(port);
      ':' in rest && rest[..LastIndexOf(rest, ':')] == host &&
      ParseInt(rest[LastIndexOf(rest, ':') + 1..]) == Wrappers.Some(port)
  {
    var digits := IntToString(port);
    assert ':' !in digits;
    var rest := host + [':'] + digits;
    LastIndexOfBeforeSuffix(host, digits, ':');
    assert rest[..|host|] == host;
    assert rest[|host| + 1..] == digits;
    ParseIntToString(port);
  }

  lemma ParseHostAddressParts(s: string, scheme: string, rest: string, host: string, port: int)
    requires ':' in s && IndexOf(s, ':') == |scheme| && |s| >= |scheme| + 3
    requires s[|scheme| + 1] == '/' && s[|scheme| + 2] == '/'
    requires s[..|scheme|] == scheme && s[|scheme| + 3..] == rest
    requires ':' in rest && rest[..LastIndexOf(rest, ':')] == host
    requires ParseInt(rest[LastIndexOf(rest, ':') + 1..]) == Wrappers.Some(port)
    ensures ParseHostAddress(s) == Wrappers.Some(Endpoint(scheme, host, port))
  {
  }

  /** Which logger the driver's configuration uses. */
  datatype LoggerChoice = DriverDefaultLogger | LoggerBridge

  /** The part of the driver's ConfigBuilder the model tracks: the logger, and
      the remaining options a user callback may change. */
  datatype ConfigBuilder = ConfigBuilder(logger: LoggerChoice, options: map<string, string>) {
    function WithLogger(l: LoggerChoice): (c: ConfigBuilder)
      ensures c.logger == l && c.options == options
    {
      this.(logger := l)
    }
  }

  /** The driver's own starting configuration. */
  const DefaultConfig := ConfigBuilder(DriverDefaultLogger, map[])

  /** The configuration callback passed to GraphDatabase.Driver: attach the
      logger bridge, then run the user's configureDriver, which therefore
      sees the bridge already attached and may replace it. */
  function DriverConfig(initial: ConfigBuilder, configureDriver: Wrappers.Option<ConfigBuilder -> ConfigBuilder>): (c: ConfigBuilder)
    ensures configureDriver.None? ==> c.logger == LoggerBridge && c.options == initial.options
    ensures configureDriver.Some? ==> c == configureDriver.value(initial.WithLogger(LoggerBridge))
  {
    var withBridge := initial.WithLogger(LoggerBridge);
    match configureDriver
    case None => withBridge
    case Some(f) => f(withBridge)
  }
}
