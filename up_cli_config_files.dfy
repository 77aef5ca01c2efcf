/** Where the command-line tool keeps its own configuration: the choice of
    the configuration directory from environment variables and system
    properties, and the lookup of the hosts file in it. The environment and
    the system properties are passed in as maps (an absent key reads as
    null); the file system is a map from the hosts files that exist to what
    reading them yields. */
module UpCliConfigFiles {
  import opened Wrappers
  import opened JavaStrings

  const HostsFileName: string := "hosts.yml"
  const UpcliConfigDir: string := "UPCLI_CONFIG_DIR"
  const XdgConfigHome: string := "XDG_CONFIG_HOME"
  const AppData: string := "APP_DATA"
  const ConfigDirName: string := "springup"
  const OsName: string := "os.name"
  const UserHome: string := "user.home"

  /** A path as built by Path.of(first, more...). */
  datatype Path = Path(first: string, more: seq<string>)

  /** The credentials stored for one host. */
  datatype Host = Host(oauthToken: Option<string>, user: Option<string>)

  /** The exceptions getConfigDir can throw: a NullPointerException from
      Path.of on an unset system property, or the RuntimeException of
      isWindows. */
  datatype ConfigError = NullProperty(key: string) | OsNameMissing

  /** System.getenv / System.getProperty: null for an absent key. */
  function Lookup(m: map<string, string>, key: string): (v: Option<string>)
    ensures v.Some? <==> key in m
    ensures v.Some? ==> v.value == m[key]
  {
    if key in m then Some(m[key]) else None
  }

  /** isWindows: fails when os.name has no text, and otherwise tells
      whether it starts with "Windows". */
  function IsWindows(props: map<string, string>): (r: Result<bool, ConfigError>)
    ensures r.Failure? <==> !HasTextOpt(Lookup(props, OsName))
    ensures r.Failure? ==> r.error == OsNameMissing
    ensures r.Success? ==> (r.value <==> StartsWith(props[OsName], "Windows"))
  {
    var os := Lookup(props, OsName);
    if !HasTextOpt(os) then Failure(OsNameMissing)
    else Success(StartsWith(os.value, "Windows"))
  }

  /** Path.of(first, more...) on a system property that may be unset. */
  function PathOfProperty(props: map<string, string>, key: string, more: seq<string>): (r: Result<Path, ConfigError>)
    ensures r.Success? <==> key in props
    ensures r.Success? ==> r.value == Path(props[key], more)
    ensures r.Failure? ==> r.error == NullProperty(key)
  {
    if key in props then Success(Path(props[key], more)) else Failure(NullProperty(key))
  }

  /** getConfigDir: UPCLI_CONFIG_DIR when it has text; else, when the
      XDG_CONFIG_HOME variable has text, the XDG_CONFIG_HOME system property
      with "springup"; else, when APP_DATA has text and the system is
      Windows, the APP_DATA system property with "springup"; else
      "<user.home>/.config/springup". Every directory but an explicit
      UPCLI_CONFIG_DIR ends in "springup". */
  function ConfigDir(env: map<string, string>, props: map<string, string>): (r: Result<Path, ConfigError>)
    ensures HasTextOpt(Lookup(env, UpcliConfigDir)) ==> r == Success(Path(env[UpcliConfigDir], []))
    ensures r.Success? && !HasTextOpt(Lookup(env, UpcliConfigDir)) ==>
      r.value.more != [] && r.value.more[|r.value.more| - 1] == ConfigDirName
  {
    if HasTextOpt(Lookup(env, UpcliConfigDir)) then Success(Path(env[UpcliConfigDir], []))
    else if HasTextOpt(Lookup(env, XdgConfigHome)) then PathOfProperty(props, XdgConfigHome, [ConfigDirName])
    else if HasTextOpt(Lookup(env, AppData)) then
      match IsWindows(props)
      case Failure(e) => Failure(e)
      case Success(windows) =>
        if windows then PathOfProperty(props, AppData, [ConfigDirName])
        else PathOfProperty(props, UserHome, [".config", ConfigDirName])
    else PathOfProperty(props, UserHome, [".config", ConfigDirName])
  }

  /** When XDG_CONFIG_HOME is set in the environment, the directory is built
      from the system property of that name, never from the variable: the
      variable's value plays no part, and an unset property fails. */
  lemma XdgUsesSystemProperty(env: map<string, string>, props: map<string, string>, a: string, b: string)
    requires !HasTextOpt(Lookup(env, UpcliConfigDir))
    requires HasText(a) && HasText(b)
    ensures ConfigDir(env[XdgConfigHome := a], props) == ConfigDir(env[XdgConfigHome := b], props)
    ensures ConfigDir(env[XdgConfigHome := a], props)
         == if XdgConfigHome in props then Success(Path(props[XdgConfigHome], [ConfigDirName]))
            else Failure(NullProperty(XdgConfigHome))
  {
  }

  /** On Windows, when APP_DATA is set in the environment and neither
      earlier variable has text, the directory is built from the system
      property of that name, never from the variable: the variable's value
      plays no part, and an unset property fails. */
  lemma AppDataUsesSystemProperty(env: map<string, string>, props: map<string, string>, a: string, b: string)
    requires !HasTextOpt(Lookup(env, UpcliConfigDir)) && !HasTextOpt(Lookup(env, XdgConfigHome))
    requires HasText(a) && HasText(b)
    requires IsWindows(props) == Success(true)
    ensures ConfigDir(env[AppData := a], props) == ConfigDir(env[AppData := b], props)
    ensures ConfigDir(env[AppData := a], props)
         == if AppData in props then Success(Path(props[AppData], [ConfigDirName]))
            else Failure(NullProperty(AppData))
  {
  }

  /** os.name is read only when APP_DATA has text and neither earlier
      variable does: otherwise two property sets that differ only in
      os.name give the same directory. */
  lemma OsNameReadOnlyForAppData(env: map<string, string>, p1: map<string, string>, p2: map<string, string>)
    requires forall k :: k != OsName ==> Lookup(p1, k) == Lookup(p2, k)
    requires !HasTextOpt(Lookup(env, AppData))
    ensures ConfigDir(env, p1) == ConfigDir(env, p2)
  {
    assert Lookup(p1, XdgConfigHome) == Lookup(p2, XdgConfigHome);
    assert Lookup(p1, UserHome) == Lookup(p2, UserHome);
  }

  /** The only way getConfigDir fails on os.name is the APP_DATA branch
      reached with an os.name that has no text. */
  lemma OsNameFailure(env: map<string, string>, props: map<string, string>)
    ensures ConfigDir(env, props) == Failure(OsNameMissing) <==>
      && !HasTextOpt(Lookup(env, UpcliConfigDir))
      && !HasTextOpt(Lookup(env, XdgConfigHome))
      && HasTextOpt(Lookup(env, AppData))
      && !HasTextOpt(Lookup(props, OsName))
  {
  }

  /** With none of the three variables taking effect, the directory is
      "<user.home>/.config/springup". */
  lemma FallbackDir(env: map<string, string>, props: map<string, string>)
    requires !HasTextOpt(Lookup(env, UpcliConfigDir)) && !HasTextOpt(Lookup(env, XdgConfigHome))
    requires !HasTextOpt(Lookup(env, AppData)) || IsWindows(props) == Success(false)
    requires UserHome in props
    ensures ConfigDir(env, props) == Success(Path(props[UserHome], [".config", ConfigDirName]))
  {
  }

  /** Path.resolve of "hosts.yml" against the configuration directory. */
  function HostsFile(configDir: Path): (p: Path)
    ensures p.first == configDir.first
    ensures |p.more| == |configDir.more| + 1 && p.more[..|configDir.more|] == configDir.more
    ensures p.more[|configDir.more|] == HostsFileName
  {
    Path(configDir.first, configDir.more + [HostsFileName])
  }

  /** getHosts: the hosts read from "hosts.yml" in the configuration
      directory when that file exists, and no hosts when it does not.
      `files` maps each existing hosts file to what reading it yields. */
  function GetHosts(env: map<string, string>, props: map<string, string>, files: map<Path, map<string, Host>>)
    : (r: Result<map<string, Host>, ConfigError>)
    ensures r.Failure? <==> ConfigDir(env, props).Failure?
    ensures r.Success? && HostsFile(ConfigDir(env, props).value) !in files ==> r.value == map[]
    ensures r.Success? && HostsFile(ConfigDir(env, props).value) in files ==>
      r.value == files[HostsFile(ConfigDir(env, props).value)]
  {
    match ConfigDir(env, props)
    case Failure(e) => Failure(e)
    case Success(configDir) =>
      var configFile := HostsFile(configDir);
      if configFile in files then Success(files[configFile]) else Success(map[])
  }

  /** A hosts file under an explicit UPCLI_CONFIG_DIR is that directory's "hosts.yml". */
  lemma HostsUnderExplicitDir(env: map<string, string>, props: map<string, string>, files: map<Path, map<string, Host>>)
    requires HasTextOpt(Lookup(env, UpcliConfigDir))
    ensures GetHosts(env, props, files)
         == Success(if Path(env[UpcliConfigDir], [HostsFileName]) in files
                    then files[Path(env[UpcliConfigDir], [HostsFileName])] else map[])
  {
  }
}
