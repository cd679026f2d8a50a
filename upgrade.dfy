/** The configuration schema migration of `lib/upgrade.js`: a configuration that still has
    the v1 credential keys is rewritten in place to schema v2. The random telemetry tag
    (`crypto.randomUUID()`) is a parameter. */
module Upgrade {
  import opened Wrappers
  import opened JsObjects
  import GoDaddns

  const CrashCourseHost: string := "https://crash-course.apps.mstefan99.com/api"
  const CrashCourseKey: string := "8e471c677e4523ab"

  /** The keys the v1 updater writes or deletes; every other key is left alone. */
  const MigratedKeys: set<string> := {"defaults", "schema", "credentials", "apiKey", "apiSecret"}

  /** The `defaults` block the v2 schema adds. */
  function V2Defaults(tag: string): (d: Object)
    ensures DistinctKeys(d)
    ensures Get(d, "schema") == Some(Str("v2"))
    ensures Get(d, "domains") == Some(Arr([]))
    ensures Get(d, "ttl") == Some(Num(3600))
    ensures Get(d, "resetOnExit") == Some(Bool(true))
    ensures Get(d, "autoUpdate") == Some(Obj([Member("enabled", Bool(true)), Member("interval", Num(60))]))
    ensures Get(d, "crashCourse").Some? && Get(d, "crashCourse").value.Obj?
    ensures var cc := Get(d, "crashCourse").value.members;
      Get(cc, "enabled") == Some(Bool(false)) && Get(cc, "tag") == Some(Str(tag))
  {
    var crashCourse := [ Member("enabled", Bool(false)),
                         Member("tag", Str(tag)),
                         Member("host", Str(CrashCourseHost)),
                         Member("key", Str(CrashCourseKey)) ];
    var d := [ Member("schema", Str("v2")),
               Member("credentials", Obj([ Member("key", Str("Paste your API key here")),
                                           Member("secret", Str("Paste your API secret here")) ])),
               Member("crashCourse", Obj(crashCourse)),
               Member("domains", Arr([])),
               Member("ttl", Num(3600)),
               Member("resetOnExit", Bool(true)),
               Member("autoUpdate", Obj([Member("enabled", Bool(true)), Member("interval", Num(60))])) ];
    GetMember(d, 2); GetMember(d, 3); GetMember(d, 4); GetMember(d, 5); GetMember(d, 6);
    GetMember(crashCourse, 1);
    d
  }

  /** A configuration in the v1 schema: it still has `apiKey` or `apiSecret`. */
  predicate IsV1(c: Object) {
    Has(c, "apiKey") || Has(c, "apiSecret")
  }

  /** `updaters.from.v1`: the v1 configuration rewritten to v2. */
  function FromV1(c: Object, tag: string): (r: Object)
    ensures Get(r, "schema") == Some(Str("v2"))
    ensures Get(r, "credentials") ==
      Some(Obj([Member("key", Lookup(c, "apiKey")), Member("secret", Lookup(c, "apiSecret"))]))
    ensures !Has(r, "apiKey") && !Has(r, "apiSecret")
    ensures Get(r, "defaults") == Some(Obj(V2Defaults(tag)))
    ensures forall k | k !in MigratedKeys :: Get(r, k) == Get(c, k)
  {
    var withDefaults := Set(c, "defaults", Obj(V2Defaults(tag)));
    var withSchema := Set(withDefaults, "schema", Str("v2"));
    var credentials := Obj([Member("key", Lookup(c, "apiKey")), Member("secret", Lookup(c, "apiSecret"))]);
    Delete(Delete(Set(withSchema, "credentials", credentials), "apiKey"), "apiSecret")
  }

  /** The rewrite keeps every key unique. */
  lemma FromV1KeepsKeysDistinct(c: Object, tag: string)
    requires DistinctKeys(c)
    ensures DistinctKeys(FromV1(c, tag))
  {
    var withDefaults := Set(c, "defaults", Obj(V2Defaults(tag)));
    SetKeepsKeysDistinct(c, "defaults", Obj(V2Defaults(tag)));
    var withSchema := Set(withDefaults, "schema", Str("v2"));
    SetKeepsKeysDistinct(withDefaults, "schema", Str("v2"));
    var credentials := Obj([Member("key", Lookup(c, "apiKey")), Member("secret", Lookup(c, "apiSecret"))]);
    var withCredentials := Set(withSchema, "credentials", credentials);
    SetKeepsKeysDistinct(withSchema, "credentials", credentials);
    DeleteKeepsKeysDistinct(withCredentials, "apiKey");
    DeleteKeepsKeysDistinct(Delete(withCredentials, "apiKey"), "apiSecret");
  }

  /** `upgradeConfig()`: the v1 updater runs only on a v1 configuration. */
  function Upgraded(c: Object, tag: string): Object {
    if IsV1(c) then FromV1(c, tag) else c
  }

  /** A configuration without the v1 keys is left as it is. */
  lemma UpgradeLeavesV2Alone(c: Object, tag: string)
    requires !IsV1(c)
    ensures Upgraded(c, tag) == c
  {
  }

  /** Upgrading twice is upgrading once: the rewrite removes the keys that trigger it. */
  lemma UpgradeIdempotent(c: Object, tag: string, tag': string)
    ensures !IsV1(Upgraded(c, tag))
    ensures Upgraded(Upgraded(c, tag), tag') == Upgraded(c, tag)
  {
  }

  /** The sample configuration written at first start is a v1 configuration; upgrading it
      moves its placeholder credentials and keeps its own `domains` and `autoUpdate`. */
  lemma SampleConfigUpgrades(tag: string)
    ensures IsV1(GoDaddns.DefaultConfig())
    ensures var r := Upgraded(GoDaddns.DefaultConfig(), tag);
      && DistinctKeys(r)
      && Get(r, "credentials") == Some(Obj([ Member("key", Str("Paste your API key here")),
                                             Member("secret", Str("Paste your API secret here")) ]))
      && Get(r, "domains") == Some(Arr([]))
      && Get(r, "autoUpdate") == Some(Obj([Member("enabled", Bool(true)), Member("interval", Num(3600))]))
  {
    FromV1KeepsKeysDistinct(GoDaddns.DefaultConfig(), tag);
  }

  /** `getAuthHeader` still reads the v1 keys, so after the upgrade it sees neither. */
  lemma AuthHeaderAfterUpgrade(c: Object, tag: string)
    requires IsV1(c)
    ensures GoDaddns.AuthHeader(Upgraded(c, tag)) == "sso-key undefined:undefined"
  {
  }

  /** The shared configuration object that the updater rewrites in place. */
  class ConfigStore {
    var config: Object

    constructor (config: Object)
      ensures this.config == config
    {
      this.config := config;
    }

    /** `upgradeConfig()` with `updaters.from.v1` inlined: assignments and deletions on the
        shared object, one statement at a time. `upgraded` says whether the v1 updater ran
        (and so whether the configuration would be saved). */
    method UpgradeConfig(tag: string) returns (upgraded: bool)
      modifies this
      ensures upgraded == IsV1(old(config))
      ensures config == Upgraded(old(config), tag)
      ensures DistinctKeys(old(config)) ==> DistinctKeys(config)
    {
      upgraded := Has(config, "apiKey") || Has(config, "apiSecret");
      if upgraded {
        ghost var original := config;
        config := Set(config, "defaults", Obj(V2Defaults(tag)));
        config := Set(config, "schema", Str("v2"));
        config := Set(config, "credentials",
          Obj([Member("key", Lookup(config, "apiKey")), Member("secret", Lookup(config, "apiSecret"))]));
        config := Delete(config, "apiKey");
        config := Delete(config, "apiSecret");
        if DistinctKeys(original) {
          FromV1KeepsKeysDistinct(original, tag);
        }
      }
    }
  }
}
