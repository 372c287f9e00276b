/**
 The backend's configuration object, resolved from the process environment
 (backend/src/config/envConfig.ts). The environment is an immutable map from
 variable names to values; an unset variable is a missing key.
 */
module EnvConfig {
  import opened Wrappers
  import opened ParseInt

  const BACKEND_PORT := "BACKEND_PORT"
  const MONGO_URI := "MONGO_URI"
  const MONGO_DATABASE := "MONGO_DATABASE"

  /** Port used when `BACKEND_PORT` is unset or empty. */
  const DEFAULT_PORT: string := "3847"
  /** Database name put into the default URI when `MONGO_DATABASE` is unset or empty. */
  const DEFAULT_DATABASE: string := "test"
  /** The compose-network address the default URI points at. */
  const DEFAULT_URI_PREFIX: string := "mongodb://mongo:27017/"

  type Env = map<string, string>

  datatype MongoConfig = MongoConfig(uri: string, dbName: Option<string>)

  /** `port` is `None` when `parseInt` yields `NaN`. */
  datatype Config = Config(port: Option<int>, mongo: MongoConfig)

  /** `process.env[name]`: `None` is `undefined`. */
  function Lookup(env: Env, name: string): (v: Option<string>)
    ensures v.Some? <==> name in env
    ensures v.Some? ==> v.value == env[name]
  {
    if name in env then Some(env[name]) else None
  }

  /** JavaScript truthiness of a possibly-undefined string: only `undefined`
      and `""` are falsy; white space is truthy. */
  predicate Truthy(v: Option<string>) {
    v.Some? && v.value != ""
  }

  /** `v || d` for a possibly-undefined string `v` and a string default `d`. */
  function OrDefault(v: Option<string>, d: string): (r: string)
    ensures Truthy(v) ==> r == v.value
    ensures !Truthy(v) ==> r == d
    // a non-empty default guarantees a non-empty (truthy) result
    ensures d != "" ==> r != ""
  {
    if Truthy(v) then v.value else d
  }

  /** The connection string used when `MONGO_URI` is falsy. */
  function DefaultUri(database: Option<string>): (u: string)
    ensures |u| >= |DEFAULT_URI_PREFIX| && u[..|DEFAULT_URI_PREFIX|] == DEFAULT_URI_PREFIX
    ensures Truthy(database) ==> u[|DEFAULT_URI_PREFIX|..] == database.value
    ensures !Truthy(database) ==> u[|DEFAULT_URI_PREFIX|..] == DEFAULT_DATABASE
    // the path always names a database, even when MONGO_DATABASE is ""
    ensures |u| > |DEFAULT_URI_PREFIX|
  {
    DEFAULT_URI_PREFIX + OrDefault(database, DEFAULT_DATABASE)
  }

  /** The `envConfig` object: the port, the connection string and the
      database name, each a pure function of the environment. */
  function Resolve(env: Env): (c: Config)
    // port: default only when BACKEND_PORT is unset or empty, otherwise parseInt of the raw value
    ensures !Truthy(Lookup(env, BACKEND_PORT)) ==> c.port == Some(3847)
    ensures Truthy(Lookup(env, BACKEND_PORT)) ==> c.port == ParseIntDecimal(env[BACKEND_PORT])
    // uri: MONGO_URI verbatim when non-empty, otherwise the compose-network default
    ensures Truthy(Lookup(env, MONGO_URI)) ==> c.mongo.uri == env[MONGO_URI]
    ensures !Truthy(Lookup(env, MONGO_URI)) && Truthy(Lookup(env, MONGO_DATABASE)) ==>
              c.mongo.uri == DEFAULT_URI_PREFIX + env[MONGO_DATABASE]
    ensures !Truthy(Lookup(env, MONGO_URI)) && !Truthy(Lookup(env, MONGO_DATABASE)) ==>
              c.mongo.uri == DEFAULT_URI_PREFIX + DEFAULT_DATABASE
    ensures c.mongo.uri != ""
    // dbName: the raw MONGO_DATABASE value, never defaulted
    ensures MONGO_DATABASE in env ==> c.mongo.dbName == Some(env[MONGO_DATABASE])
    ensures MONGO_DATABASE !in env ==> c.mongo.dbName == None
  {
    ParseDefaultPortExample();
    Config(
      ParseIntDecimal(OrDefault(Lookup(env, BACKEND_PORT), DEFAULT_PORT)),
      MongoConfig(
        OrDefault(Lookup(env, MONGO_URI), DefaultUri(Lookup(env, MONGO_DATABASE))),
        Lookup(env, MONGO_DATABASE)))
  }

  /** The three variables `Resolve` reads. */
  predicate IsConfigVariable(name: string) {
    name == BACKEND_PORT || name == MONGO_URI || name == MONGO_DATABASE
  }

  /** Two environments that agree on the three variables the resolver reads
      (present in both with equal values, or absent from both). */
  predicate AgreeOnConfig(env1: Env, env2: Env) {
    && Lookup(env1, BACKEND_PORT) == Lookup(env2, BACKEND_PORT)
    && Lookup(env1, MONGO_URI) == Lookup(env2, MONGO_URI)
    && Lookup(env1, MONGO_DATABASE) == Lookup(env2, MONGO_DATABASE)
  }

  /** Resolution depends on nothing but the three configuration variables:
      `NODE_ENV`, credentials and every other variable are ignored. */
  lemma ResolveDependsOnlyOnConfigVariables(env1: Env, env2: Env)
    requires AgreeOnConfig(env1, env2)
    ensures Resolve(env1) == Resolve(env2)
  {
  }

  /** Setting or changing any other variable leaves the result unchanged. */
  lemma ResolveIgnoresOtherVariables(env: Env, name: string, value: string)
    requires !IsConfigVariable(name)
    ensures Resolve(env[name := value]) == Resolve(env)
  {
    ResolveDependsOnlyOnConfigVariables(env[name := value], env);
  }

  /** Removing any other variable leaves the result unchanged. */
  lemma ResolveIgnoresRemovedVariables(env: Env, name: string)
    requires !IsConfigVariable(name)
    ensures Resolve(env - {name}) == Resolve(env)
  {
    ResolveDependsOnlyOnConfigVariables(env - {name}, env);
  }

  /** An unset or empty `BACKEND_PORT` gives port 3847. */
  lemma PortDefaultsWhenUnsetOrEmpty(env: Env)
    requires BACKEND_PORT !in env || env[BACKEND_PORT] == ""
    ensures Resolve(env).port == Some(3847)
  {
    ParseDefaultPortExample();
  }

  /** A `BACKEND_PORT` that begins with a run of decimal digits gives the
      value of that run; whatever follows the run (`"12ab"`) is ignored. */
  lemma PortFromDigitPrefix(env: Env, ds: string, rest: string)
    requires BACKEND_PORT in env && env[BACKEND_PORT] == ds + rest
    requires ds != [] && AllDigits(ds) && !StartsWithDigit(rest)
    ensures Resolve(env).port == Some(DigitsValue(ds))
  {
    assert env[BACKEND_PORT] == "" + SignText(NoSign) + ds + rest;
    ParseDigits("", NoSign, ds, rest);
  }

  /** `BACKEND_PORT` set to the decimal rendering of `n` gives port `n`. */
  lemma PortRoundTrip(env: Env, n: nat)
    requires BACKEND_PORT in env && env[BACKEND_PORT] == ToDecimal(n)
    ensures Resolve(env).port == Some(n)
  {
    assert env[BACKEND_PORT] == "" + SignText(NoSign) + ToDecimal(n) + "";
    ParseDecimalRoundTrip("", NoSign, n, "");
  }

  /** A non-empty `BACKEND_PORT` that does not start with a digit, white
      space or a sign (`"abc"`) gives `NaN`; it does not fall back to 3847. */
  lemma PortNaNWithoutLeadingDigits(env: Env)
    requires BACKEND_PORT in env && env[BACKEND_PORT] != ""
    requires !IsDigit(env[BACKEND_PORT][0]) && !IsJsWhiteSpace(env[BACKEND_PORT][0])
    requires !IsSignChar(env[BACKEND_PORT][0])
    ensures Resolve(env).port == None
  {
    var v := env[BACKEND_PORT];
    assert v == "" + SignText(NoSign) + v;
    ParseNoDigits("", NoSign, v);
  }

  /** Worked cases: `"12ab"` gives 12 and `"abc"` gives `NaN`. */
  lemma PortExamples(env: Env)
    ensures Resolve(env[BACKEND_PORT := "12ab"]).port == Some(12)
    ensures Resolve(env[BACKEND_PORT := "abc"]).port == None
  {
    ParseDigitPrefixExample();
    ParseNaNExample();
  }

  /** A non-empty `MONGO_URI` (white space included) is used verbatim. */
  lemma UriOverride(env: Env)
    requires MONGO_URI in env && env[MONGO_URI] != ""
    ensures Resolve(env).mongo.uri == env[MONGO_URI]
  {
  }

  /** Without a usable `MONGO_URI` the URI is the compose-network address
      followed by `MONGO_DATABASE`, or by `"test"` when that is unset or empty;
      the `dbName` field stays the raw variable all the same. */
  lemma UriDefault(env: Env)
    requires MONGO_URI !in env || env[MONGO_URI] == ""
    ensures MONGO_DATABASE in env && env[MONGO_DATABASE] != "" ==>
              Resolve(env).mongo.uri == DEFAULT_URI_PREFIX + env[MONGO_DATABASE]
    ensures MONGO_DATABASE !in env || env[MONGO_DATABASE] == "" ==>
              Resolve(env).mongo.uri == DEFAULT_URI_PREFIX + DEFAULT_DATABASE
  {
  }

  /** The database name is never defaulted: with `MONGO_DATABASE` unset the
      URI names `test` while `dbName` is `undefined`. */
  lemma DbNameNotDefaulted(env: Env)
    requires MONGO_URI !in env && MONGO_DATABASE !in env
    ensures Resolve(env).mongo.uri == DEFAULT_URI_PREFIX + DEFAULT_DATABASE
    ensures Resolve(env).mongo.dbName == None
  {
    UriDefault(env);
  }
}
