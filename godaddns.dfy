/** The entry script `godaddns.js`: the sample configuration, the GoDaddy authorization
    header, and the startup decision taken from the configuration file's accessibility,
    its parsed contents and the command line. The file-system calls themselves are inputs. */
module GoDaddns {
  import opened Wrappers
  import opened Strings
  import opened JsObjects
  import Argumented
  import Process

  /** The aliases that start the interactive setup. */
  const SetupArgs: seq<string> := ["-s", "--setup"]

  const SetupDescription: string :=
    "Starts the app in an interactive mode allowing you to select which records to update"

  /** `process.exit(~0)`: all bits set, that is -1. */
  const CannotCreateConfigExitCode: int := -1

  /** The exit status of a Node.js process ended by an uncaught exception. */
  const UncaughtExceptionExitCode: int := 1

  /** The configuration written when none can be read (`defaultConfig`). */
  function DefaultConfig(): (c: Object)
    ensures DistinctKeys(c)
    ensures Get(c, "domains") == Some(Arr([]))
    ensures Get(c, "autoUpdate") == Some(Obj([Member("enabled", Bool(true)), Member("interval", Num(3600))]))
    ensures Get(c, "apiKey") == Some(Str("Paste your API key here"))
    ensures Get(c, "apiSecret") == Some(Str("Paste your API secret here"))
  {
    [ Member("apiKey", Str("Paste your API key here")),
      Member("apiSecret", Str("Paste your API secret here")),
      Member("domains", Arr([])),
      Member("autoUpdate", Obj([Member("enabled", Bool(true)), Member("interval", Num(3600))])) ]
  }

  /** `getAuthHeader(config)`: the scheme, the key, a colon and the secret, each field
      converted to text the way JavaScript concatenation does. */
  function AuthHeader(config: Object): (h: string)
    ensures var key, secret := ToText(Lookup(config, "apiKey")), ToText(Lookup(config, "apiSecret"));
      && |h| == 9 + |key| + |secret|
      && h[..8] == "sso-key "
      && h[8..8 + |key|] == key
      && h[8 + |key|] == ':'
      && h[9 + |key|..] == secret
  {
    "sso-key " + ToText(Lookup(config, "apiKey")) + ":" + ToText(Lookup(config, "apiSecret"))
  }

  /** The text before and after the first occurrence of `c`. */
  function SplitAtFirst(s: string, c: char): Option<(string, string)> {
    if s == [] then None
    else if s[0] == c then Some(([], s[1..]))
    else match SplitAtFirst(s[1..], c)
      case None => None
      case Some(parts) => Some(([s[0]] + parts.0, parts.1))
  }

  lemma {:induction false} SplitAtFirstOf(a: string, b: string, c: char)
    requires c !in a
    ensures SplitAtFirst(a + [c] + b, c) == Some((a, b))
  {
    if a != [] {
      var s := a + [c] + b;
      assert s[0] == a[0] && a[0] != c;
      assert s[1..] == a[1..] + [c] + b;
      SplitAtFirstOf(a[1..], b, c);
      assert [a[0]] + a[1..] == a;
    } else {
      assert a + [c] + b == [c] + b;
    }
  }

  /** Reads a key and a secret back from an authorization header. */
  function ParseAuthHeader(h: string): Option<(string, string)> {
    if |h| >= 8 && h[..8] == "sso-key " then SplitAtFirst(h[8..], ':') else None
  }

  /** The header determines the key and the secret when the key has no colon. */
  lemma AuthHeaderRoundTrip(config: Object)
    requires ':' !in ToText(Lookup(config, "apiKey"))
    ensures ParseAuthHeader(AuthHeader(config)) ==
      Some((ToText(Lookup(config, "apiKey")), ToText(Lookup(config, "apiSecret"))))
  {
    var key, secret := ToText(Lookup(config, "apiKey")), ToText(Lookup(config, "apiSecret"));
    var h := AuthHeader(config);
    assert h[8..] == key + [':'] + secret;
    SplitAtFirstOf(key, secret, ':');
  }

  /** How startup ends or continues. */
  datatype Startup =
    | CannotCreateConfig                   // neither readable nor creatable: exit(~0)
    | SampleConfigCreated(written: Object) // the sample is written, then exit()
    | UncaughtException                    // the file could not be read or parsed
    | Setup(config: Value)                 // interactive setup with the parsed configuration
    | Run(config: Value)                   // the updater with the parsed configuration

  /** The value passed to `process.exit` (or, for an uncaught exception, the status Node.js
      uses), when startup ends the process. */
  function StartupExitArgument(s: Startup): Option<int> {
    match s
    case CannotCreateConfig => Some(CannotCreateConfigExitCode)
    case SampleConfigCreated(_) => Some(0)
    case UncaughtException => Some(UncaughtExceptionExitCode)
    case _ => None
  }

  /** The configuration file startup writes, if any. */
  function WrittenFile(s: Startup): Option<Object> {
    if s.SampleConfigCreated? then Some(s.written) else None
  }

  /** The startup branches as `godaddns.js` has them, with the call to `argumented.parse`
      at line 70: that function is not exported, so calling it throws, and a readable,
      parsable configuration never reaches `setup` or `run`. */
  function DecideAsWritten(readable: bool, writable: bool, contents: Option<Value>, argv: seq<string>): (s: Startup)
    ensures readable ==> s == UncaughtException
    ensures !readable ==> s == Decide(readable, writable, contents, argv)
  {
    if !readable then
      if !writable then CannotCreateConfig else SampleConfigCreated(DefaultConfig())
    else
      UncaughtException
  }

  /** The startup branches of `godaddns.js` as evidently intended, without the
      `argumented.parse` call. `readable` and `writable` are the outcomes of
      the two `fs.access` checks; `contents` is the parsed file, `None` when reading or
      `JSON.parse` fails. */
  function Decide(readable: bool, writable: bool, contents: Option<Value>, argv: seq<string>): (s: Startup)
    ensures s.CannotCreateConfig? <==> !readable && !writable
    ensures s.SampleConfigCreated? <==> !readable && writable
    ensures s.SampleConfigCreated? ==> s.written == DefaultConfig()
    ensures s.UncaughtException? <==> readable && contents.None?
    ensures s.Setup? <==> readable && contents.Some? && Argumented.AnyPresent(SetupArgs, argv)
    ensures s.Run? <==> readable && contents.Some? && !Argumented.AnyPresent(SetupArgs, argv)
    ensures s.Setup? || s.Run? ==> s.config == contents.value
  {
    if !readable then
      if !writable then CannotCreateConfig else SampleConfigCreated(DefaultConfig())
    else
      match contents
      case None => UncaughtException
      case Some(config) =>
        if Argumented.AnyPresent(SetupArgs, argv) then Setup(config) else Run(config)
  }

  /** Only an unreadable configuration with a writable directory writes a file, and what it
      writes is the sample; the process exits exactly when no configuration was obtained. */
  lemma StartupEffects(readable: bool, writable: bool, contents: Option<Value>, argv: seq<string>)
    ensures var s := Decide(readable, writable, contents, argv);
      && (WrittenFile(s).Some? <==> !readable && writable)
      && (WrittenFile(s).Some? ==> WrittenFile(s).value == DefaultConfig())
      && (!readable && !writable ==> StartupExitArgument(s) == Some(-1))
      && (!readable && writable ==> StartupExitArgument(s) == Some(0))
      && (StartupExitArgument(s).None? <==> readable && contents.Some?)
      && (!readable && !writable ==> Process.ExitStatus(StartupExitArgument(s).value) == 255)
  {
  }

  /** The startup sequence: the setup option is registered, then the branch is taken. */
  method Launch(reg: Argumented.Registry, readable: bool, writable: bool, contents: Option<Value>)
    returns (s: Startup)
    modifies reg`entries, reg`calls
    ensures reg.entries == old(reg.entries) + [Argumented.MakeEntry(SetupArgs, None, SetupDescription, false)]
    ensures reg.calls == old(reg.calls)
    ensures s == Decide(readable, writable, contents, reg.argv)
  {
    var _ := reg.Add(Some(SetupArgs), None, SetupDescription, false);
    s := Decide(readable, writable, contents, reg.argv);
  }
}
