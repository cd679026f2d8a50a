# GoDaddns core, modelled in Dafny

GoDaddns is a dynamic-DNS updater for GoDaddy written for Node.js. This project models
the three pieces of it that hold logic of their own:

- **`argumented.js`** — a small command-line option registry. Options are registered one
  at a time with `add`. Each one has aliases, an optional callback, a "required" flag and
  a description. Registering an option runs its callback at once on the command-line words
  that follow its first alias, unless `-h`/`--help` was given. `done` checks that every
  alias of every required option is present, and prints the help page when asked.
  `init` takes the program name from the script path. The model is the class
  `Argumented.Registry`. `argv` stands for `process.argv` and `calls` logs the callbacks
  invoked and their arguments.
- **`lib/upgrade.js`** — the config migration from schema v1 to schema v2. A config that
  still has `apiKey` or `apiSecret` is rewritten in place. It gains a `defaults` block,
  `schema: 'v2'` and a `credentials` object, and it loses the two v1 keys. The model is
  the class `Upgrade.ConfigStore`, whose method does the same assignments and deletions
  on an ordered JavaScript object. The method is proved equal to the spec function
  `Upgrade.Upgraded`, and the properties of the migration are proved about that function.
- **`godaddns.js`** — the sample config, the `Authorization` header, and the startup
  branch. Startup depends on three things: whether the config file is readable, whether
  the directory is writable, and whether `-s`/`--setup` was given. The file-system
  results are inputs to the pure function `GoDaddns.Decide`, which returns the outcome.

JavaScript objects are modelled in `JsObjects` as ordered member lists, because property
order is visible when a config is saved. Assigning to an existing key keeps its
position. Assigning to a new key appends it, except that JavaScript lists integer-like
keys such as `"0"` first, in ascending order; the model does not, which makes no
difference for the keys the upgrade assigns (`defaults`, `schema`, `credentials`).
`delete` removes the key.
`Wrappers` (Option, Outcome) and `Strings` (decimal rendering, `join`, character
counts) are helpers.

The script does no IP polling and updates no records: `run` (godaddns.js:94-101) only
logs the domain list and `setup` (godaddns.js:89-91) only prints.

## Model

| member | source | states |
|---|---|---|
| `Argumented.MakeEntry` | argumented.js:13-18 | the entry keeps the aliases, callback, description and required flag; `argNumber` is the callback's arity, or 0 without a callback |
| `Argumented.AnyPresent` | argumented.js:76-82 | `has(args)` is true exactly when some alias equals some command-line word |
| `Argumented.FirstMatchFrom` | argumented.js:22 | `findIndex`: the result is a matching position with no match before it; nothing is found exactly when no word from the start position on is an alias |
| `Argumented.Slice` | argumented.js:24 | `slice` with bounds clamped to the length: within bounds it is the plain subsequence; with only `end` past the length it is the rest from `start`; with `start` at or past the length, or `end <= start`, it is empty; never longer than `end - start` |
| `Argumented.ExecuteCall` | argumented.js:21-26 | the callback runs exactly when there is a callback and some word is an alias; it gets at most `argNumber` values, which are the words right after the first match, cut short only by the end of `argv` |
| `Argumented.Registry.Execute` | argumented.js:21-26 | the call log grows by exactly the invocation `ExecuteCall` describes and by nothing else |
| `Argumented.Registry.Add` | argumented.js:60-73 | with no alias list (`null`/`undefined`) it throws `No arguments provided` and changes nothing; otherwise the new entry is appended after the earlier ones, and its callback runs only when help was not requested |
| `Argumented.Registry.Init` | argumented.js:50-57 | succeeds exactly when `argv[1]` exists and ends in a non-separator; the name becomes its last path segment, a non-empty description replaces the old one, and the help entry is registered without running anything; on failure nothing changes |
| `Argumented.TrailingSegment` | argumented.js:51 | the longest suffix of the path with no separator character |
| `Argumented.ScriptName` | argumented.js:51 | the regular-expression match succeeds exactly when the path is non-empty and its last character is not a separator, and it yields that suffix |
| `Argumented.ScriptNameAfterSeparator` | argumented.js:51 | for `dir + sep + file`, where `file` has no separator, the program name is `file` |
| `Argumented.Registry.PrintHelpPage` | argumented.js:29-47 | the page is the description, the usage line `node ./name` followed by one fragment per entry, and the options list with one line per entry, all in registration order |
| `Argumented.ArgsSuffixShowsArity` | argumented.js:34-37 | the ` (+N args)` marker is empty exactly when `argNumber` is 0; otherwise the number it shows reads back as `argNumber` |
| `Argumented.OptionLinesOnePerEntry` | argumented.js:37-38 | the options list has exactly as many line breaks as there are entries, provided no alias or description contains one |
| `Argumented.UsageBracketsOptional` | argumented.js:34-35 | the usage line has exactly one `[` per optional entry and none for required ones, provided no alias contains `[` |
| `Argumented.FirstAbsent` | argumented.js:87-93 | the reported alias is not on the command line and is the first such alias, every alias before it being present; nothing is reported exactly when every alias is present |
| `Argumented.FirstMissingSound` | argumented.js:86-94 | nothing is missing exactly when every alias of every required entry is present, so one absent alias is enough to fail; a reported alias is absent and belongs to a required entry |
| `Argumented.Registry.Done` | argumented.js:85-98 | reports the first missing alias of a required entry (`process.exit(0xf000)`); otherwise shows the help page when help was requested; otherwise returns normally |
| `Argumented.MissingArgumentExitLooksSuccessful` | argumented.js:91 | the parent process sees `process.exit(0xf000)` as status 0, the same status as the help page's plain `process.exit()` |
| `Process.ExitStatus` | godaddns.js:58 | the status a parent process sees lies in 0..255 and agrees with the value passed to `process.exit` modulo 256 |
| `JsObjects.GetFindsFirst` | lib/upgrade.js:8 | the `in` test succeeds exactly when some member has the key, and the value found is that of the first such member |
| `JsObjects.Set` | lib/upgrade.js:39-40 | after the assignment the key holds the new value, other keys are unchanged, and the object grows only when the key is new |
| `JsObjects.Delete` | lib/upgrade.js:41-42 | after `delete` the key is absent and every other key is unchanged |
| `JsObjects.SetKeepsKeysDistinct` | lib/upgrade.js:39-40 | assignment never creates a duplicate key |
| `JsObjects.DeleteKeepsKeysDistinct` | lib/upgrade.js:41-42 | deletion never creates a duplicate key |
| `Upgrade.V2Defaults` | lib/upgrade.js:18-37 | the defaults block has `schema` v2, empty `domains`, `ttl` 3600, `resetOnExit` true, `autoUpdate` enabled with interval 60, and `crashCourse` disabled and carrying the given tag |
| `Upgrade.FromV1` | lib/upgrade.js:18-42 | afterwards `schema` is `'v2'`; `credentials` holds the old `apiKey` and `apiSecret`, with `undefined` for a missing one; neither v1 key remains; `defaults` is the v2 block; every other key is unchanged |
| `Upgrade.FromV1KeepsKeysDistinct` | lib/upgrade.js:18-42 | the rewritten config still has distinct keys |
| `Upgrade.UpgradeLeavesV2Alone` | lib/upgrade.js:8-10 | a config with neither `apiKey` nor `apiSecret` is left as it is |
| `Upgrade.UpgradeIdempotent` | lib/upgrade.js:8-42 | an upgraded config is no longer v1, so upgrading it again, with any tag, changes nothing |
| `Upgrade.ConfigStore.UpgradeConfig` | lib/upgrade.js:5-45 | the v1 updater runs exactly on a v1 config; the object afterwards is `Upgraded` of the old one, and it keeps distinct keys |
| `Upgrade.SampleConfigUpgrades` | godaddns.js:15-23 | the sample config is v1; once upgraded, its placeholder credentials move into `credentials`, and its own `domains` and `autoUpdate` stay |
| `Upgrade.AuthHeaderAfterUpgrade` | godaddns.js:84-86 | `getAuthHeader` reads the v1 keys, so on any upgraded config it yields `sso-key undefined:undefined` |
| `GoDaddns.DefaultConfig` | godaddns.js:15-23 | the sample has distinct keys, placeholder `apiKey` and `apiSecret`, empty `domains`, and `autoUpdate` enabled with interval 3600 |
| `GoDaddns.AuthHeader` | godaddns.js:84-86 | the header splits into `sso-key `, the key text, `:` and the secret text, so its length is 9 plus the lengths of key and secret |
| `GoDaddns.AuthHeaderRoundTrip` | godaddns.js:84-86 | when the key has no colon, the key and the secret are read back from the header |
| `GoDaddns.Decide` | godaddns.js:52-78 | unreadable and unwritable leads to exit(~0); unreadable and writable writes the sample; readable with `-s`/`--setup` leads to setup and not run; readable without either leads to run; unparsable contents throw; each outcome holds exactly under its condition |
| `GoDaddns.DecideAsWritten` | godaddns.js:66-78 | with the `argumented.parse` call as written, every readable config ends in an uncaught exception; the unreadable branches are those of `Decide` |
| `GoDaddns.StartupEffects` | godaddns.js:52-65 | a file is written only when the config is unreadable and the directory writable, and that file is the sample; the values passed to `process.exit` are -1 (seen as status 255) and 0; the process continues exactly when a config was parsed |
| `GoDaddns.Launch` | godaddns.js:48-81 | startup registers the `-s`/`--setup` option, runs no callback, and then takes the branch `Decide` gives |

## Left out

- Network: the `fetch` wrapper and `run`'s GoDaddy listing (godaddns.js:27-45, 94-101) are I/O. `Startup.Run` stands for calling `run`.
- `setup` only prints (godaddns.js:89-91). `Startup.Setup` stands for calling it.
- `lib/crash-course.js` is telemetry: an HTTP POST, patching of `console.*`, and process handlers. It is not part of this model.
- File system and process control: `fs.access`, `readFile` and `writeFile` are inputs or outcomes. `process.exit` becomes the value passed to it, in `DoneExitArgument` and `StartupExitArgument`. Console output is the text returned (`HelpPage`, `MissingArgumentMessage`), without the newline `console.log` appends.
- `JSON.parse` and `JSON.stringify` are not modelled. A read or parse failure is the `contents: None` input. The source ignores the `readFile` error, so `JSON.parse(undefined)` throws. `SampleConfigCreated` carries the object whose serialised form is written. `writeFile` errors are ignored by the source, and the model ignores them too.
- `argumented.parse(...)` at godaddns.js:70: `Decide` leaves the call out and takes the branch the code evidently means; `DecideAsWritten` keeps it (see Findings).
- `DoneExitArgument`, `StartupExitArgument`: these give the value passed to `process.exit`, not the status the parent process sees. Only its low eight bits reach the parent (`Process.ExitStatus`), so `0xf000` is seen as 0 and `~0` as 255; the outcomes do not carry that status.
- The `!args instanceof Array` checks (argumented.js:14, 64, 77) are always false, so aliases are always arrays (`seq<string>`). A missing alias list (`null`/`undefined`) is `None` and throws. An empty array is truthy, so `Some([])` is registered.
- Callbacks are a name plus their `Function.length`. Invoking one is a `Call` appended to `calls`; nothing the callback itself does is modelled.
- `config._save()` (lib/upgrade.js:44) is a foreign call, as is the wait on `configPromise` (lib/upgrade.js:6). `UpgradeConfig` returns whether the updater ran, which is when a save would happen. `crypto.randomUUID()` is the `tag` parameter.
- The `in` operator also sees inherited properties. Configs here are plain parsed objects, so only own members are modelled.
- JavaScript numbers are modelled as integers and rendered in decimal. A member whose value is `undefined` (a missing v1 key copied into `credentials`) is kept as `Undefined`; `JSON.stringify` would leave it out when saving.
- `Argumented.Registry.Done`: only the first missing alias is reported, because the source exits right there. The stderr text is `MissingArgumentMessage` and is not part of the outcome.

## Findings

| source | as written | input that shows it | evidently intended | confidence | as-written member | corrected member |
|---|---|---|---|---|---|---|
| godaddns.js:70 | calls `argumented.parse`, which argumented.js:101-106 does not export, so the call raises a TypeError | any readable config that parses, with or without `-s` | read the config, then run `setup` with `-s`/`--setup` and `run` otherwise | high, from reading; not executed | `GoDaddns.DecideAsWritten` | `GoDaddns.Decide` |
