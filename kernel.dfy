/**
 * The application kernel: the base URI computed when the App is built, the
 * database configuration check run by `prepare` before the session is set
 * up, and `setResponse`, which compiles the view, filters the parameters,
 * injects the assets and renders the cached markup.
 */
module Kernel {
  import opened Php
  import opened Templating

  // ----------------------------------------------------------------- base URI

  /** The two `$_SERVER` entries the constructor reads. */
  datatype ServerVars = ServerVars(requestUri: string, phpSelf: string)

  const IndexScript := "/index.php"

  /**
   * `substr(REQUEST_URI, 0, strlen(REQUEST_URI) - strlen(substr(REQUEST_URI, strpos(PHP_SELF, '/index.php'))))`:
   * the first p characters of the request URI, where `/index.php` starts at
   * offset p of PHP_SELF; the whole URI when p is past its end; nothing when
   * PHP_SELF has no `/index.php` (strpos's false is read as offset 0).
   */
  function BaseUri(requestUri: string, phpSelf: string): (r: string)
    ensures r <= requestUri
    ensures StrPos(phpSelf, IndexScript).None? ==> r == ""
    ensures forall p: nat :: StrPos(phpSelf, IndexScript) == Some(p) && p <= |requestUri| ==> r == requestUri[..p]
    ensures forall p: nat :: StrPos(phpSelf, IndexScript) == Some(p) && p > |requestUri| ==> r == requestUri
  {
    var start := match StrPos(phpSelf, IndexScript) case None => 0 case Some(p) => p;
    var tail := SubstrFrom(requestUri, start);
    SubstrHead(requestUri, |requestUri| - |tail|)
  }

  // ------------------------------------------------------------ database setup

  /**
   * The DatabaseException messages of setupDatabase, the Error PHP 8 throws
   * when an object is used as an array, and the TypeError of
   * array_key_exists on a non-array.
   */
  datatype DbError =
    | ConfigMissing          // "Couldn't find database config file"
    | ConfigNotIndexable     // Error: an object config read with `$config['connect_on_load']`
    | ConfigNotArray         // "Database config file didn't return an array"
    | DriverMissing          // "Couldn't find database driver"
    | UnknownDriver          // "Unknown database driver"
    | DriverSectionNotArray  // `$config[$driver]` is not an array
    | CredentialInvalid(key: string)  // "Couldnt find database <key> or <key> isnt a string"

  /** The arguments of `Database::connect`, in its order. */
  datatype Credentials = Credentials(database: string, host: string, user: string, password: string)

  datatype DbPlan = NoConnection | Connect(credentials: Credentials)

  const CredentialKeys: seq<string> := ["host", "database", "user", "password"]

  /**
   * `$config['connect_on_load'] ?? false`: the entry unless it is missing or
   * null; a scalar config has no entries, so false. None where PHP 8 throws
   * instead: reading an object (one without ArrayAccess) as an array.
   */
  function ConnectOnLoad(config: Value): (r: Option<Value>)
    ensures r.None? <==> config.Object?
    ensures r.Some? ==> r.value != Null
    ensures config.Array? && HasKey(config.entries, "connect_on_load") && Get(config.entries, "connect_on_load").value != Null
            ==> r == Get(config.entries, "connect_on_load")
    ensures !config.Array? && !config.Object? ==> r == Some(Bool(false))
    ensures config.Array? && (!HasKey(config.entries, "connect_on_load") || Get(config.entries, "connect_on_load") == Some(Null))
            ==> r == Some(Bool(false))
  {
    match config
    case Array(entries) =>
      (match Get(entries, "connect_on_load")
       case Some(v) => if v != Null then Some(v) else Some(Bool(false))
       case None => Some(Bool(false)))
    case Object(_, _) => None
    case _ => Some(Bool(false))
  }

  /** `$driver != 'mysql'` is false (PHP 8 loose comparison) exactly for these two values. */
  function LooselyMysql(driver: Value): (r: bool)
    ensures r <==> LooseEqualsText(driver, "mysql")
  {
    driver == Str("mysql") || driver == Bool(true)
  }

  /** The array key `$config[$driver]` uses once the driver compares equal to 'mysql': true becomes key 1. */
  function SectionKey(driver: Value): (r: string)
    ensures LooselyMysql(driver) ==> KeyOf(driver) == Some(r)
  {
    if driver == Bool(true) then "1" else "mysql"
  }

  /** The `$config[$driver]` array, when the config is an array whose driver passes the 'mysql' test and that entry is an array. */
  function DriverSection(config: Value): (r: Option<Params>)
    ensures r.Some? <==>
              && config.Array? && HasKey(config.entries, "driver")
              && LooselyMysql(Get(config.entries, "driver").value)
              && Get(config.entries, SectionKey(Get(config.entries, "driver").value)).Some?
              && Get(config.entries, SectionKey(Get(config.entries, "driver").value)).value.Array?
    ensures r.Some? ==> Get(config.entries, SectionKey(Get(config.entries, "driver").value)) == Some(Array(r.value))
  {
    if !config.Array? then None
    else
      match Get(config.entries, "driver")
      case None => None
      case Some(driver) =>
        if !LooselyMysql(driver) then None
        else
          match Get(config.entries, SectionKey(driver))
          case Some(Array(section)) => Some(section)
          case _ => None
  }

  /** `array_key_exists($key, $section) && is_string($section[$key])`. */
  function StringField(section: Params, key: string): (r: bool)
    ensures r <==> HasKey(section, key) && Get(section, key).value.Str?
  {
    match Get(section, key)
    case Some(Str(_)) => true
    case _ => false
  }

  function StringAt(section: Params, key: string): string
    requires StringField(section, key)
  {
    Get(section, key).value.s
  }

  /**
   * The four credential guards of setupDatabase, in order: host, database,
   * user, password. The first key that is missing or not a string decides
   * the error; only when all four pass are the connection arguments formed.
   */
  function CheckCredentials(section: Params): (r: Result<DbPlan, DbError>)
    ensures r.Success? <==> forall k :: k in CredentialKeys ==> StringField(section, k)
    ensures r.Success? ==>
              r.value == Connect(Credentials(StringAt(section, "database"), StringAt(section, "host"),
                                             StringAt(section, "user"), StringAt(section, "password")))
    ensures r.Failure? ==>
              exists i :: 0 <= i < |CredentialKeys| && r.error == CredentialInvalid(CredentialKeys[i])
                          && !StringField(section, CredentialKeys[i])
                          && forall j :: 0 <= j < i ==> StringField(section, CredentialKeys[j])
  {
    if !StringField(section, "host") then
      assert CredentialKeys[0] == "host";
      Failure(CredentialInvalid("host"))
    else if !StringField(section, "database") then
      assert CredentialKeys[1] == "database";
      Failure(CredentialInvalid("database"))
    else if !StringField(section, "user") then
      assert CredentialKeys[2] == "user";
      Failure(CredentialInvalid("user"))
    else if !StringField(section, "password") then
      assert CredentialKeys[3] == "password";
      Failure(CredentialInvalid("password"))
    else
      Success(Connect(Credentials(StringAt(section, "database"), StringAt(section, "host"),
                                  StringAt(section, "user"), StringAt(section, "password"))))
  }

  /**
   * setupDatabase as a validator: the guards in the order the source runs
   * them, each with its own error. The `is_array` guard never fires: a
   * scalar config already returned at the `connect_on_load` test, and an
   * object config already threw there.
   */
  function CheckDatabaseConfig(config: Value): (r: Result<DbPlan, DbError>)
    ensures r == Failure(ConfigMissing) <==> config == Null
    ensures r == Failure(ConfigNotIndexable) <==> config.Object?
    ensures r == Success(NoConnection) <==> config != Null && ConnectOnLoad(config) == Some(Bool(false))
    ensures r != Failure(ConfigNotArray)
    ensures r == Failure(DriverMissing) <==>
              config.Array? && ConnectOnLoad(config) != Some(Bool(false)) && !HasKey(config.entries, "driver")
    ensures r == Failure(UnknownDriver) <==>
              && config.Array? && ConnectOnLoad(config) != Some(Bool(false)) && HasKey(config.entries, "driver")
              && !LooselyMysql(Get(config.entries, "driver").value)
    ensures r == Failure(DriverSectionNotArray) <==>
              && config.Array? && ConnectOnLoad(config) != Some(Bool(false)) && HasKey(config.entries, "driver")
              && LooselyMysql(Get(config.entries, "driver").value) && DriverSection(config).None?
    ensures r.Success? && r.value.Connect? ==> DriverSection(config).Some? && ConnectOnLoad(config) != Some(Bool(false))
    ensures DriverSection(config).Some? && ConnectOnLoad(config) != Some(Bool(false)) ==>
              r == CheckCredentials(DriverSection(config).value)
  {
    if config == Null then Failure(ConfigMissing)
    else if config.Object? then Failure(ConfigNotIndexable)
    else if ConnectOnLoad(config) == Some(Bool(false)) then Success(NoConnection)
    else if !config.Array? then Failure(ConfigNotArray)
    else if !HasKey(config.entries, "driver") then Failure(DriverMissing)
    else
      var driver := Get(config.entries, "driver").value;
      if !LooselyMysql(driver) then Failure(UnknownDriver)
      else
        match Get(config.entries, SectionKey(driver))
        case Some(Array(section)) => CheckCredentials(section)
        case _ => Failure(DriverSectionNotArray)
  }

  /** What prepare records, in order. */
  datatype Event = DatabaseConnected(credentials: Credentials) | SessionStarted

  function DatabaseEvents(plan: DbPlan): seq<Event>
  {
    match plan
    case NoConnection => []
    case Connect(c) => [DatabaseConnected(c)]
  }

  // --------------------------------------------------------------- the kernel

  /** `App::$root.'/Storage/Cache/template.php'`. */
  function CachePath(root: string): string
  {
    root + "/Storage/Cache/template.php"
  }

  /** The exceptions setResponse lets escape. */
  datatype KernelError =
    | ResponseFileNotFound(path: string)   // WizardRuntimeException
    | ParameterRejected(error: TemplateError)

  lemma PutLinksImagesRead(filtered: Params, meta: AssetMeta)
    ensures Get(Put(Put(filtered, "links", meta.links), "images", meta.images), "links") == Some(meta.links)
    ensures Get(Put(Put(filtered, "links", meta.links), "images", meta.images), "images") == Some(meta.images)
  {
    var withLinks := Put(filtered, "links", meta.links);
    GetPutSame(filtered, "links", meta.links);
    GetPutSame(withLinks, "images", meta.images);
    GetPutOther(withLinks, "images", meta.images, "links");
  }

  lemma PutLinksImagesAppend(filtered: Params, meta: AssetMeta)
    requires !HasKey(filtered, "links") && !HasKey(filtered, "images")
    ensures Put(Put(filtered, "links", meta.links), "images", meta.images)
            == filtered + [("links", meta.links), ("images", meta.images)]
  {
    var withLinks := Put(filtered, "links", meta.links);
    assert withLinks == filtered + [("links", meta.links)];
    assert !HasKey(withLinks, "images");
  }

  /** The parameters handed to the renderer: the filtered ones, then `links` and `images` from addAssets. */
  function Bound(filtered: Params, meta: AssetMeta): (r: Params)
    ensures Get(r, "links") == Some(meta.links) && Get(r, "images") == Some(meta.images)
    ensures !HasKey(filtered, "links") && !HasKey(filtered, "images") ==>
              r == filtered + [("links", meta.links), ("images", meta.images)]
  {
    PutLinksImagesRead(filtered, meta);
    if !HasKey(filtered, "links") && !HasKey(filtered, "images") then
      PutLinksImagesAppend(filtered, meta);
      Put(Put(filtered, "links", meta.links), "images", meta.images)
    else
      Put(Put(filtered, "links", meta.links), "images", meta.images)
  }

  /**
   * The renderer receives the caller's parameters unchanged and in order,
   * followed by exactly the four framework keys, and its keys are distinct.
   */
  lemma BoundParameters(ps: Params, dispatch: Dispatch, root: string, meta: AssetMeta)
    requires DistinctKeys(ps)
    requires Filtered(ps, dispatch, root).Success?
    ensures var bound := Bound(Filtered(ps, dispatch, root).value, meta);
            && bound == ps + [("controller", ControllerFor(dispatch, root)), ("models", dispatch.models),
                              ("links", meta.links), ("images", meta.images)]
            && DistinctKeys(bound)
  {
    var filtered := Filtered(ps, dispatch, root).value;
    assert DistinctKeys(filtered) by {
      forall i, j | 0 <= i < j < |filtered| ensures filtered[i].0 != filtered[j].0 {
        if j < |ps| {
          assert ps[i].0 != ps[j].0;
        } else if i < |ps| {
          assert !Reserved(ps[i].0);
        }
      }
    }
    PutKeepsKeysDistinct(filtered, "links", meta.links);
    PutKeepsKeysDistinct(Put(filtered, "links", meta.links), "images", meta.images);
  }

  /**
   * One App per PHP process: its own fields (uri and the request method) and the class's
   * static fields (response, responsePath, root, baseUri, dbConnection),
   * plus a trace of the steps prepare ran.
   */
  class App {
    var uri: string
    var httpMethod: string

    var response: string
    var responsePath: string
    var root: string
    var baseUri: string
    var dbConnection: Option<Credentials>
    var trace: seq<Event>

    const host: Host
    const loaderStatics: LoaderStatics
    const lib: Library
    /** `loadResponseFile`: runs the cached markup with the parameters in scope and returns what it printed. */
    const render: (string, Params) -> string

    constructor (uri: string, httpMethod: string, server: ServerVars, root: string,
                 host: Host, loaderStatics: LoaderStatics, lib: Library, render: (string, Params) -> string)
      ensures this.uri == uri && this.httpMethod == httpMethod && this.root == root
      ensures baseUri == BaseUri(server.requestUri, server.phpSelf)
      ensures response == "" && responsePath == "" && dbConnection == None && trace == []
      ensures this.host == host && this.loaderStatics == loaderStatics && this.lib == lib && this.render == render
    {
      this.uri := uri;
      this.httpMethod := httpMethod;
      this.root := root;
      this.response := "";
      this.responsePath := "";
      this.dbConnection := None;
      this.trace := [];
      this.host := host;
      this.loaderStatics := loaderStatics;
      this.lib := lib;
      this.render := render;
      this.baseUri := BaseUri(server.requestUri, server.phpSelf);
    }

    /** Database setup, then session setup; a database error stops prepare before the session. */
    method Prepare(config: Value) returns (r: Outcome<DbError>)
      modifies this`dbConnection, this`trace
      ensures r.Fail? <==> CheckDatabaseConfig(config).Failure?
      ensures r.Fail? ==> r.error == CheckDatabaseConfig(config).error && trace == old(trace)
      ensures r.Pass? ==> trace == old(trace) + DatabaseEvents(CheckDatabaseConfig(config).value) + [SessionStarted]
      ensures dbConnection == match CheckDatabaseConfig(config)
                              case Success(Connect(c)) => Some(c)
                              case _ => old(dbConnection)
    {
      r := SetupDatabase(config);
      if r.Fail? {
        return;
      }
      SetupSession();
    }

    /** Checks the database config and, when it asks for it, connects. */
    method SetupDatabase(config: Value) returns (r: Outcome<DbError>)
      modifies this`dbConnection, this`trace
      ensures match CheckDatabaseConfig(config)
              case Failure(e) => r == Fail(e) && dbConnection == old(dbConnection) && trace == old(trace)
              case Success(NoConnection) => r == Pass && dbConnection == old(dbConnection) && trace == old(trace)
              case Success(Connect(c)) => r == Pass && dbConnection == Some(c) && trace == old(trace) + [DatabaseConnected(c)]
    {
      match CheckDatabaseConfig(config)
      case Failure(e) =>
        r := Fail(e);
      case Success(NoConnection) =>
        r := Pass;
      case Success(Connect(c)) =>
        dbConnection := Some(c);
        trace := trace + [DatabaseConnected(c)];
        r := Pass;
    }

    /** The session handler is installed; what it does is not part of this model. */
    method SetupSession()
      modifies this`trace
      ensures trace == old(trace) + [SessionStarted]
    {
      trace := trace + [SessionStarted];
    }

    /**
     * Normalises the path, rejects a missing file before touching anything,
     * records the response path, compiles the view into the cache, filters
     * the parameters, injects the assets and renders the cache.
     */
    method SetResponse(absolutePath: string, parameters: Params, dispatch: Dispatch, bundle: AssetBundle)
      returns (r: Outcome<KernelError>)
      modifies this`response, this`responsePath, host, loaderStatics
      ensures var path := ReplaceChar(absolutePath, '\\', '/');
              path !in old(host.files) ==>
                && r == Fail(ResponseFileNotFound(path))
                && response == old(response) && responsePath == old(responsePath)
                && host.files == old(host.files) && host.errorPages == old(host.errorPages)
                && loaderStatics.useEngine == old(loaderStatics.useEngine)
      ensures var path := ReplaceChar(absolutePath, '\\', '/');
              path in old(host.files) ==>
                && responsePath == path && '\\' !in responsePath
                && loaderStatics.useEngine == UseEngine(old(host.files), path)
                && host.errorPages == PagesAfter(old(host.errorPages), Compile(old(host.files), path, lib.parse))
      ensures var path := ReplaceChar(absolutePath, '\\', '/');
              var cache := CachePath(root);
              var compiled := FilesAfter(old(host.files), cache, Compile(old(host.files), path, lib.parse));
              var content := lib.htmlentities(ReadFile(compiled, cache));
              path in old(host.files) ==>
                match Filtered(parameters, dispatch, root)
                case Failure(e) =>
                  r == Fail(ParameterRejected(e)) && host.files == compiled && response == old(response)
                case Success(filtered) =>
                  var markup := Enriched(content, bundle, lib.htmlEntityDecode);
                  && r == Pass
                  && host.files == compiled[cache := markup]
                  && response == render(markup, Bound(filtered, AssetMeta(bundle.links, bundle.images)))
    {
      var path := ReplaceChar(absolutePath, '\\', '/');
      if path !in host.files {
        return Fail(ResponseFileNotFound(path));
      }
      responsePath := path;

      var loader := new TemplateLoader(CachePath(root), root, host, loaderStatics, lib);
      var content := loader.LoadTemplate(path);

      var filtered := loader.FilterParameters(parameters, dispatch);
      if filtered.Failure? {
        return Fail(ParameterRejected(filtered.error));
      }

      var meta := loader.AddAssets(content, bundle);
      var bound := Put(filtered.value, "links", meta.links);
      bound := Put(bound, "images", meta.images);

      response := render(ReadFile(host.files, CachePath(root)), bound);
      r := Pass;
    }
  }
}
