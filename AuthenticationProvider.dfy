/**
 * Credential selection (`AuthenticationProvider`). Four configuration values are
 * captured once, when the provider is built; `get()` then returns the netrc entry
 * for the configured machine if it has both a login and a password, else the
 * configured username and password if both are set, else nothing.
 */
module AuthenticationProvider {
  import opened Wrappers
  import opened Requests

  /** `grunt.config(key)`: a string, or undefined. */
  type GruntConfig = string -> Option<string>

  /** One machine's entry in a parsed netrc file; either field may be missing. */
  datatype NetrcEntry = NetrcEntry(login: Option<string>, password: Option<string>)

  /** A parsed netrc file: machine name -> entry. */
  type Netrc = map<string, NetrcEntry>

  /** `netrcConstructor(location)`: the parsed netrc file at a location. */
  type NetrcReader = string -> Netrc

  /** JavaScript truthiness of a possibly undefined string: undefined and "" are falsy. */
  predicate Truthy(v: Option<string>): (b: bool)
    ensures b <==> v != None && v != Some("")
  {
    v.Some? && v.value != ""
  }

  /** What `get()` returns: `{}`, or `{username, password}`. */
  datatype Credentials = NoCredentials | UsernamePassword(username: string, password: string)

  const DefaultNetrcLocation := "~/.netrc"

  /** The property key `netrc[netrcMachine]` looks up: an undefined machine becomes "undefined". */
  function PropertyKey(machine: Option<string>): (k: string)
    ensures machine.Some? ==> k == machine.value
    ensures machine.None? ==> k == "undefined"
  {
    match machine
    case Some(name) => name
    case None => "undefined"
  }

  /** A netrc entry that `get()` accepts: present, with a non-empty login and a non-empty password. */
  predicate Usable(entry: Option<NetrcEntry>): (b: bool)
    ensures entry.None? ==> !b
    ensures entry.Some? ==> (b <==> entry.value.login.Some? && entry.value.login.value != "" &&
                                    entry.value.password.Some? && entry.value.password.value != "")
  {
    entry.Some? && Truthy(entry.value.login) && Truthy(entry.value.password)
  }

  /** The values captured at construction, and the netrc parser handed in. */
  datatype Provider = Provider(username: Option<string>, password: Option<string>, netrcLocation: string,
                               netrcMachine: Option<string>, netrcConstructor: NetrcReader)
  {
    /** The entry for the configured machine in the netrc file at the captured location. */
    function Entry(): (e: Option<NetrcEntry>)
      ensures e.Some? <==> PropertyKey(netrcMachine) in netrcConstructor(netrcLocation)
      ensures e.Some? ==> e.value == netrcConstructor(netrcLocation)[PropertyKey(netrcMachine)]
    {
      var netrc := netrcConstructor(netrcLocation);
      var key := PropertyKey(netrcMachine);
      if key in netrc then Some(netrc[key]) else None
    }

    /** Both configured values are set and non-empty. */
    predicate Configured(): (b: bool)
      ensures b <==> username.Some? && username.value != "" && password.Some? && password.value != ""
      ensures username == None || password == None ==> !b
    {
      Truthy(username) && Truthy(password)
    }

    /** `get()`. */
    function Get(): (r: Credentials)
      ensures r.UsernamePassword? <==> Usable(Entry()) || Configured()
      ensures r.UsernamePassword? ==> r.username != "" && r.password != ""
      ensures r.UsernamePassword? ==>
                (Entry().Some? && Entry().value.login == Some(r.username) && Entry().value.password == Some(r.password)) ||
                (username == Some(r.username) && password == Some(r.password))
    {
      var entry := Entry();
      if Usable(entry) then UsernamePassword(entry.value.login.value, entry.value.password.value)
      else if Configured() then UsernamePassword(username.value, password.value)
      else NoCredentials
    }
  }

  /** `new AuthenticationProvider(grunt, netrcConstructor)`: reads the four settings once. */
  function New(config: GruntConfig, netrcConstructor: NetrcReader): (p: Provider)
    ensures p.username == config("jenkins.username") && p.password == config("jenkins.password")
    ensures p.netrcMachine == config("jenkins.netrcMachine")
    ensures !Truthy(config("jenkins.netrcLocation")) ==> p.netrcLocation == DefaultNetrcLocation
    ensures Truthy(config("jenkins.netrcLocation")) ==> Some(p.netrcLocation) == config("jenkins.netrcLocation")
    ensures p.netrcConstructor == netrcConstructor
  {
    var location := config("jenkins.netrcLocation");
    Provider(config("jenkins.username"), config("jenkins.password"),
             if Truthy(location) then location.value else DefaultNetrcLocation,
             config("jenkins.netrcMachine"), netrcConstructor)
  }

  // ---------------------------------------------------------------------------
  // The priority rule, branch by branch
  // ---------------------------------------------------------------------------

  /** A complete netrc entry wins, even over a configured username and password. */
  lemma NetrcPreferred(p: Provider)
    requires Usable(p.Entry())
    ensures p.Get() == UsernamePassword(p.Entry().value.login.value, p.Entry().value.password.value)
  {
  }

  /** Without a complete netrc entry, a fully configured pair is returned as it is. */
  lemma ConfiguredPairUsed(p: Provider)
    requires !Usable(p.Entry()) && p.Configured()
    ensures p.Get() == UsernamePassword(p.username.value, p.password.value)
  {
  }

  /** Only one of username and password configured, and no complete netrc entry: nothing. */
  lemma OnlyOneConfiguredIsEmpty(p: Provider)
    requires !Usable(p.Entry())
    requires Truthy(p.username) != Truthy(p.password)
    ensures p.Get() == NoCredentials
  {
  }

  /** A netrc entry with an empty or missing login or password is as good as none. */
  lemma IncompleteNetrcIgnored(p: Provider)
    requires p.Entry().Some?
    requires !Truthy(p.Entry().value.login) || !Truthy(p.Entry().value.password)
    ensures p.Get() == p.(netrcConstructor := (location: string) => map[]).Get()
  {
  }

  /** The result depends on nothing but the four captured settings and the netrc file, so
      repeated `get()` calls on one provider agree while the netrc file is unchanged, and two
      providers built from settings that agree on those four keys agree too. */
  lemma CapturedSettingsDecide(c1: GruntConfig, c2: GruntConfig, netrcConstructor: NetrcReader)
    requires c1("jenkins.username") == c2("jenkins.username")
    requires c1("jenkins.password") == c2("jenkins.password")
    requires c1("jenkins.netrcLocation") == c2("jenkins.netrcLocation")
    requires c1("jenkins.netrcMachine") == c2("jenkins.netrcMachine")
    ensures New(c1, netrcConstructor).Get() == New(c2, netrcConstructor).Get()
  {
  }

  // ---------------------------------------------------------------------------
  // The shape of the result
  // ---------------------------------------------------------------------------

  /** `get()`'s result as the code builds it: `{}` or a bare `{username, password}`. */
  function AsWrittenOptions(c: Credentials): (o: Options)
    ensures "auth" !in o
    ensures c.NoCredentials? ==> o == map[]
    ensures c.UsernamePassword? ==> (o.Keys == {"username", "password"} &&
              o["username"] == Text(c.username) && o["password"] == Text(c.password))
  {
    match c
    case NoCredentials => map[]
    case UsernamePassword(u, pw) => map["username" := Text(u), "password" := Text(pw)]
  }

  /** The shape the tests expect: `{}` or `{auth: {username, password}}`, the `auth` option a
      request reads its credentials from. */
  function AuthOptions(c: Credentials): (o: Options)
    ensures c.NoCredentials? ==> o == map[]
    ensures c.UsernamePassword? ==> (o.Keys == {"auth"} &&
              o["auth"] == Fields(map["username" := c.username, "password" := c.password]))
  {
    match c
    case NoCredentials => map[]
    case UsernamePassword(u, pw) => map["auth" := Fields(map["username" := u, "password" := pw])]
  }

  /** Merged into request options that carry no `auth` key, the code's result never supplies one. */
  lemma AsWrittenNeverAttachesAuth(o: Options, c: Credentials)
    requires "auth" !in o
    ensures "auth" !in Extend(o, AsWrittenOptions(c))
  {
  }

  /** Merged into any request options, the expected shape attaches exactly the selected pair. */
  lemma AuthOptionsAttach(o: Options, c: Credentials)
    requires c.UsernamePassword?
    ensures Extend(o, AuthOptions(c))["auth"] == Fields(map["username" := c.username, "password" := c.password])
  {
  }

  // ---------------------------------------------------------------------------
  // The provider's test scenarios
  // ---------------------------------------------------------------------------

  function NoNetrc(location: string): Netrc
  {
    map[]
  }

  function ScenarioConfig(username: Option<string>, password: Option<string>, location: Option<string>,
                          machine: Option<string>): GruntConfig
  {
    (key: string) =>
      if key == "jenkins.username" then username
      else if key == "jenkins.password" then password
      else if key == "jenkins.netrcLocation" then location
      else if key == "jenkins.netrcMachine" then machine
      else None
  }

  /** Nothing configured: `{}`. */
  lemma NothingConfiguredIsEmpty()
    ensures New(ScenarioConfig(None, None, None, None), NoNetrc).Get() == NoCredentials
  {
  }

  /** Username and password configured: that pair, which the tests expect wrapped in `auth`
      and the code returns bare. */
  lemma ConfiguredPairScenario()
    ensures var r := New(ScenarioConfig(Some("un"), Some("pw"), None, None), NoNetrc).Get();
            r == UsernamePassword("un", "pw") &&
            AuthOptions(r) == map["auth" := Fields(map["username" := "un", "password" := "pw"])] &&
            AsWrittenOptions(r) != map["auth" := Fields(map["username" := "un", "password" := "pw"])]
  {
    var cfg := ScenarioConfig(Some("un"), Some("pw"), None, None);
    assert cfg("jenkins.password") == Some("pw");
  }

  /** Only a username, or only a password: `{}`. */
  lemma HalfConfiguredScenarios()
    ensures New(ScenarioConfig(Some("un"), None, None, None), NoNetrc).Get() == NoCredentials
    ensures New(ScenarioConfig(None, Some("pw"), None, None), NoNetrc).Get() == NoCredentials
  {
    var cfg := ScenarioConfig(None, Some("pw"), None, None);
    assert cfg("jenkins.username") == None;
  }

  function TestNetrc(location: string): Netrc
  {
    if location == "netrc" then map["testjenkins" := NetrcEntry(Some("un-netrc"), Some("pw-netrc"))] else map[]
  }

  /** Netrc and a configured pair both present: the netrc pair. */
  lemma NetrcPreferredScenario()
    ensures New(ScenarioConfig(Some("un-from-username"), Some("pw-from-password"), Some("netrc"), Some("testjenkins")),
                TestNetrc).Get() == UsernamePassword("un-netrc", "pw-netrc")
  {
    var p := New(ScenarioConfig(Some("un-from-username"), Some("pw-from-password"), Some("netrc"), Some("testjenkins")),
                 TestNetrc);
    assert p.netrcLocation == "netrc";
    assert p.netrcMachine == Some("testjenkins");
  }

  /** Netrc entry with an empty password, or an empty login: `{}`. */
  lemma IncompleteNetrcScenarios()
    ensures New(ScenarioConfig(None, None, None, Some("testjenkins")),
                (location: string) => map["testjenkins" := NetrcEntry(Some("un"), Some(""))]).Get() == NoCredentials
    ensures New(ScenarioConfig(None, None, None, Some("testjenkins")),
                (location: string) => map["testjenkins" := NetrcEntry(Some(""), Some("pw"))]).Get() == NoCredentials
  {
    var cfg := ScenarioConfig(None, None, None, Some("testjenkins"));
    assert cfg("jenkins.username") == None;
    assert cfg("jenkins.netrcMachine") == Some("testjenkins");
  }

  /** An undefined machine name is looked up as the key "undefined". */
  lemma UndefinedMachineKey()
    ensures New(ScenarioConfig(None, None, None, None),
                (location: string) => map["undefined" := NetrcEntry(Some("u"), Some("p"))]).Get() == UsernamePassword("u", "p")
  {
    var cfg := ScenarioConfig(None, None, None, None);
    assert cfg("jenkins.netrcMachine") == None;
  }
}
