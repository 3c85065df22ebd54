# Web-Package kernel: template pipeline and App, in Dafny

This project models the request-to-response core of the Wizard web kernel (a
small PHP framework). It covers two parts:

- **`TemplateLoader`**. It decides whether a view goes through the template
  engine. The rule is that the file name looks like `name.template.ext`. It
  compiles the view into the one shared cache file, then injects stylesheet
  tags after `<head>` and script tags before `</body>`. It also rejects render
  parameters that use the reserved keys `controller`, `images`, `links` and
  `models`, and then binds `controller` and `models` itself.
- **`App`**. It computes the base URI from `$_SERVER` in its constructor. It
  checks the database configuration in `prepare` before setting up the
  session. In `setResponse` it normalises the view path, records it, runs the
  loader steps, binds `links`/`images` and renders the cached markup.

Files:

- `php.dfy` (module `Php`): the PHP runtime pieces the code uses. These are
  dynamic values, ordered arrays with string keys, `empty()`, `strpos`,
  `explode`/`implode`, one-character `str_replace`, `substr`,
  `substr_replace`, and the file system plus the error pages already shown
  (class `Host`).
- `templating.dfy` (module `Templating`): the loader. `TemplateLoader` is a
  class whose methods update the cache file, `$path` and the static
  `$useEngine` (held by a `LoaderStatics` object, since Dafny has no static
  fields). `addCss`/`addJs` are loops rebuilding the markup. Each is proved
  against a closed-form function (`WithCss`, `WithJs`), and lemmas then state
  what that function does. `filterParameters` is a loop proved against
  `Filtered`.
- `kernel.dfy` (module `Kernel`): `App`. One `App` object holds the
  instance fields and the class's static fields (`response`, `response_path`,
  `root`, `base_uri`, the database connection). `setupDatabase`'s guards are
  the pure validator `CheckDatabaseConfig`. The method `SetupDatabase` applies
  it.

Code that is not shown is taken as given, and nothing is assumed about it:
`htmlentities`, `html_entity_decode`, `TemplateEngine::parse` (fields of
`Templating.Library`) and `loadResponseFile` (the `render` field of `App`).
In particular, no `decode(encode(x)) == x` is assumed or claimed.
`AssetsManager::load()` is replaced by its result, an `AssetBundle` input.
`ControllerHandler::$controllerObject` and `HttpKernel::$route['models']` are
replaced by a `Dispatch` input. `Config::getFile('database')` is replaced by
the config `Value` input, and `$_SERVER` by `ServerVars`.

PHP strings are byte strings. The model's `string` is a sequence of
`char`, and each `char` stands for one byte. This matters in `BaseUri`, which
takes an offset found in `PHP_SELF` and uses it to cut `REQUEST_URI`.

Behaviour a caller may not expect, as the code has it:

- **Bundle order is reversed.** Every tag is inserted at the same offset, so
  the tags come out in reverse bundle order (`CssBundleReversed`,
  `CssInjection`, `JsInjection`).
- **An anchor at offset 0 counts as missing.** The loose `$pos == 0` test
  skips injection both when the anchor is absent and when it sits at offset 0
  (`CssHeadAtStartSkipped`).
- **A failed engine leaves the old cache.** When the engine throws, the cache
  keeps whatever an earlier request left there. The model takes it that
  `showErrorPage` returns (see "Left out"). On that assumption, its error page
  is recorded and `setResponse` goes on to inject assets into the old markup
  and render it.
- **`addAssets` decodes twice.** The output of `addCss` goes through
  `html_entity_decode` once more before `addJs`.
- **The `is_array($config)` guard can never fire for a scalar or a plain
  object.** `$config['connect_on_load'] ?? false` is already `false` for a
  scalar config. For an object that does not implement ArrayAccess, PHP 8
  throws an Error at that read instead (`ConfigNotIndexable`). So
  `CheckDatabaseConfig` ensures `r != Failure(ConfigNotArray)`. An ArrayAccess
  object could reach the guard. Such objects are not modelled (see "Left
  out").
- **Only a literal `false` skips the connection.** Any other value of
  `connect_on_load`, including `0` or `""`, goes on to validate and connect.

More behaviour a caller may not expect:

- A template path that does not exist makes `loadTemplate` write `""` to the
  cache (`file_get_contents` gives `false`). It does not fail there. The
  not-found error comes only from `setResponse`'s own check. `Compile`
  states the empty cache.
- An engine failure does not end the request, provided `showErrorPage`
  returns (see above).
- Reserved keys are rejected only after the view has already been compiled
  into the cache.

PHP 8 semantics are used throughout:

- `$driver != 'mysql'` is false only for `"mysql"` and `true`. An object driver is taken to have no `__toString`.
- With a driver of `true`, `$config[$driver]` reads key `1`.
- `array_key_exists` on a non-array throws a `TypeError`
  (`DriverSectionNotArray`).
- `substr` past the end gives `""`.
- `strpos`'s `false` passed as an offset reads as 0.

## Model

| member | source | states |
|---|---|---|
| Php.StrPos | Templating/TemplateLoader.php:98 | the result is the first offset where the pattern occurs; None (PHP's false) exactly when it occurs nowhere |
| Php.Split | Templating/TemplateLoader.php:175-176 | explode gives at least one piece, no piece contains the separator, and imploding the pieces gives back the input |
| Php.SplitJoin | Templating/TemplateLoader.php:175-176 | explode undoes implode when no piece contains the separator |
| Php.SplitSnoc | Templating/TemplateLoader.php:175-176 | a separator followed by a separator-free tail adds exactly that tail as the last exploded piece |
| Php.ReplaceChar | Kernel/App.php:121 | str_replace of `\` by `/` keeps the length, maps each character, and leaves no `\` |
| Php.Get | Kernel/App.php:220-227 | a key's value is found exactly when array_key_exists holds, and it is the value stored under that key |
| Php.GetPutSame | Kernel/App.php:134-135 | after `$a[$k] = $v`, reading `$a[$k]` gives v |
| Php.GetPutOther | Kernel/App.php:134-135 | assigning to one key leaves what every other key reads unchanged |
| Php.Empty | Templating/TemplateLoader.php:154 | `empty()` holds iff the value is null or converts to boolean false (null, false, 0, "", "0", the empty array); an object is never empty |
| Php.SubstrFrom | Kernel/App.php:86 | `substr($s, $start)` is the suffix of s that starts at offset start, and (PHP 8) the empty string once start reaches the end |
| Php.SubstrHead | Kernel/App.php:86 | `substr($s, 0, $len)` is the prefix of s of length len, or all of s when s is shorter |
| Php.InsertAtLayout | Templating/TemplateLoader.php:104 | `substr_replace` with length 0 keeps the text before the offset, puts the piece there and keeps the rest after it; an offset past the end appends |
| Php.ReadAfterWrite | Templating/TemplateLoader.php:57-64 | file_get_contents after file_put_contents reads what was written, and every other path reads as before |
| Php.Put | Templating/TemplateLoader.php:155-159 | assigning to a key the array lacks appends the entry at the end |
| Php.PutReplaces | Kernel/App.php:134-135 | assigning to a present key replaces that entry in place and changes nothing else |
| Php.PutKeepsKeysDistinct | Kernel/App.php:134-135 | assignment keeps the array's keys distinct |
| Templating.UseEngine | Templating/TemplateLoader.php:170-181 | true iff the file exists and the path is a directory part, then `name.template.ext` with name and ext free of `.` and `/` |
| Templating.EngineNameShape | Templating/TemplateLoader.php:175-180 | the explode/count/compare test on the last path segment (`EngineName`) holds iff the path has the `…/name.template.ext` shape (both directions) |
| Templating.Compile | Templating/TemplateLoader.php:50-63 | without the engine the cache receives the view's raw text; with the engine and a successful parse it receives the engine's output; the engine fails only on a view it is used for; a missing view leaves an empty cache |
| Templating.LoaderStatics.constructor | Templating/TemplateLoader.php:19 | `$useEngine` starts out false |
| Templating.TemplateLoader.constructor | Templating/TemplateLoader.php:36-39 | the loader remembers the cache path it was given |
| Templating.TemplateLoader.LoadTemplate | Templating/TemplateLoader.php:45-65 | sets `$useEngine`; plain file: cache := raw contents; engine success: cache := parsed output; engine failure: cache untouched and the error page shown; returns the entity-encoding of the cache contents afterwards, which is the encoding of the text just written whenever the cache was written |
| Templating.TemplateLoader.AddAssets | Templating/TemplateLoader.php:74-86 | cache := addJs(decode(addCss(decode(content), css)), js); returns exactly the bundle's links and images |
| Templating.TemplateLoader.AddCss | Templating/TemplateLoader.php:96-107 | the loop's result equals the closed form `WithCss`: prefix through `<head>`, the inserted pieces as laid out by repeated insertion at one offset, then the rest |
| Templating.CssInjection | Templating/TemplateLoader.php:98-106 | no `<head>` or `<head>` at 0: unchanged; otherwise content[..p+6] + the newline-prefixed decoded tags in reverse bundle order + content[p+6..], longer by the tag count plus the decoded tags' lengths |
| Templating.CssBundleReversed | Templating/TemplateLoader.php:103-105 | with two tags a, b the markup reads `<head>` then b then a |
| Templating.CssHeadAtStartSkipped | Templating/TemplateLoader.php:98-102 | markup starting with `<head>` gets no stylesheet tags |
| Templating.RevJoinIsReversedConcat | Templating/TemplateLoader.php:103-105 | inserting pieces one by one at a fixed offset lays them out as the concatenation of the reversed sequence |
| Templating.TemplateLoader.AddJs | Templating/TemplateLoader.php:117-128 | the loop's result equals the closed form `WithJs`: text before `</body>`, the inserted pieces, then the text from `</body>` on |
| Templating.JsInjection | Templating/TemplateLoader.php:119-127 | no `</body>` or `</body>` at 0: unchanged; otherwise content[..p] + the newline-terminated decoded tags in reverse bundle order + content[p..], which starts with `</body>`; longer by the tag count plus the decoded lengths |
| Templating.Enriched | Templating/TemplateLoader.php:79-83 | with an empty bundle, the markup written is the content decoded twice, and no other change |
| Templating.ControllerFor | Templating/TemplateLoader.php:154-158 | the bound controller is never empty: it is the current controller object unless `empty()` holds for it, and otherwise a new Controller on the root |
| Templating.FirstReserved | Templating/TemplateLoader.php:140-153 | the index of the first reserved key in foreach order, or None when no key is reserved |
| Templating.Filtered | Templating/TemplateLoader.php:138-162 | fails iff some key is reserved, naming the first one; otherwise every entry kept in order, then `controller` (current controller unless empty, else a new Controller on the root) and `models` appended, and no `links` or `images` |
| Templating.TemplateLoader.FilterParameters | Templating/TemplateLoader.php:138-162 | the loop and the two assignments compute `Filtered` |
| Kernel.BaseUri | Kernel/App.php:86 | always a prefix of REQUEST_URI; its first p characters when `/index.php` starts at p ≤ its length in PHP_SELF; all of it when p is past its end; empty when PHP_SELF has no `/index.php` |
| Kernel.App.constructor | Kernel/App.php:82-87 | stores uri and method and sets base_uri to BaseUri of the server variables |
| Kernel.ConnectOnLoad | Kernel/App.php:214 | `??` gives the stored entry when it is set and not null, and never null; an array config with the key missing or null, and a scalar config, read as false; an object config throws (None) |
| Kernel.LooselyMysql | Kernel/App.php:224 | holds exactly when the driver is loosely equal to 'mysql' under PHP 8 comparison rules (null, bool, int, string, array and object cases) |
| Kernel.SectionKey | Kernel/App.php:227 | for a driver that passed the 'mysql' test, it is the array key PHP casts that driver to (`true` becomes `1`) |
| Kernel.DriverSection | Kernel/App.php:227-228 | the section exists iff the config is an array whose driver passes the 'mysql' test and the entry under the driver's key is an array; it is that array |
| Kernel.StringField | Kernel/App.php:228-238 | holds iff array_key_exists and is_string both hold for that key |
| Kernel.CheckDatabaseConfig | Kernel/App.php:208-227 | missing config iff null; an object config throws at the connect_on_load read; no connection iff connect_on_load is absent, null or false; the is_array guard never fires; missing driver and unknown driver each iff their guard is the first to fail; otherwise the credential checks decide |
| Kernel.CheckCredentials | Kernel/App.php:228-241 | succeeds iff host, database, user and password are all present strings, with the connect arguments taken from them; otherwise fails on the first of the four, in that order, that is missing or not a string |
| Kernel.App.SetupDatabase | Kernel/App.php:208-242 | fails with the validator's error and touches nothing; connects (records the connection) only when the validator asks to |
| Kernel.App.SetupSession | Kernel/App.php:193-201 | records that the session step ran |
| Kernel.App.Prepare | Kernel/App.php:94-98 | a database error stops before the session step; otherwise the database step's events come strictly before the session step; the connection is the validator's credentials when it asks to connect, and otherwise unchanged |
| Kernel.App.SetResponse | Kernel/App.php:119-141 | normalises `\` to `/`; a missing file fails before anything changes; otherwise response_path := normalised path (no `\`), the cache goes through compile, then (unless a reserved key fails the call) asset injection, and the response is the renderer applied to the cache and the bound parameters |
| Kernel.Bound | Kernel/App.php:134-135 | `links` and `images` read back as addAssets returned them; on filtered parameters without those keys they are appended, in that order |
| Kernel.BoundParameters | Kernel/App.php:130-135 | the renderer gets the caller's parameters unchanged and in order, followed by controller, models, links and images, with distinct keys |

## Left out

- `loadResponseFile` (`extract` + `require` + output buffering): it runs the cache file as PHP code. It is the abstract `render` function, so `EXTR_SKIP`'s skipping of colliding names happens inside it.
- `send`, `terminate`, `sendRequest` and `start`: output, `die`, `header` and routing through `HttpKernel`, which is not part of this model.
- `setupSession`: `SetupSession` records only that the step ran. The session handler and its `SessionException` error page are not part of this model.
- `Database::connect`: a connection is represented by the credentials it was opened with.
- `TemplateEngine::parse`, `htmlentities` and `html_entity_decode`: abstract functions. Parsing does not depend on the views directory in the model.
- `AssetsManager::load($asset_name)`: the bundle it returns is an input. The asset name is not modelled.
- Concurrency on the shared cache file: the model is one sequential process. The hazard of another request overwriting the cache between compile and render is not represented.
- Files are a map from path to contents. Directories (which `file_exists` accepts) are not modelled.
- PHP arrays have string keys only. Integer keys and the string-to-integer key conversion are not modelled, except key `1` for a driver of `true`.
- CheckDatabaseConfig: every object config is taken to be one without ArrayAccess, so it throws at the `connect_on_load` read. An ArrayAccess object is not modelled. Its `offsetGet` may return anything, and it can then reach the `is_array` guard.
- LoadTemplate: `showErrorPage` (in WizardRuntimeException, which is not part of this model) is taken to record its page and return. If it ends the request instead, nothing that `LoadTemplate` and `SetResponse` state about the engine-failure case after the page is shown happens.
- `App::$debug` and `App::$session_handler` are not modelled.
- Sessions/SessionException.php: only an exception constructor, so it is not part of this model.
