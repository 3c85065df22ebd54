/**
 * The template loader: which views go through the template engine, how a
 * view is compiled into the one shared cache file, how stylesheet and script
 * tags are injected into the cached markup, and which render parameters are
 * accepted.
 */
module Templating {
  import opened Php

  /**
   * Calls the loader makes into code that is not part of this model:
   * `htmlentities`, `html_entity_decode` and `TemplateEngine::parse` (whose
   * Failure carries the message of the TemplateEngineException it throws).
   * Nothing is assumed about them, in particular no round trip.
   */
  datatype Library = Library(
    htmlentities: string -> string,
    htmlEntityDecode: string -> string,
    parse: string -> Result<string, string>)

  /** What `AssetsManager::load()` returns for the route's asset group. */
  datatype AssetBundle = AssetBundle(css: seq<string>, js: seq<string>, links: Value, images: Value)

  /** The array `addAssets` returns. */
  datatype AssetMeta = AssetMeta(links: Value, images: Value)

  /** The TemplateException `filterParameters` throws. */
  datatype TemplateError = ReservedKey(key: string)

  /** State of other components that `filterParameters` reads: `ControllerHandler::$controllerObject` and `HttpKernel::$route['models']`. */
  datatype Dispatch = Dispatch(controllerObject: Value, models: Value)

  // ------------------------------------------------------ engine eligibility

  /** The file name test of `useEngine`: explode the last `/`-segment on `.`; three parts, the middle one `template`. */
  predicate EngineName(path: string)
  {
    var segments := Split(path, '/');
    var parts := Split(segments[|segments| - 1], '.');
    |parts| == 3 && parts[1] == "template"
  }

  /** path is a directory part (empty or ending in `/`) followed by `name.template.ext`, name and ext free of `.` and `/`. */
  ghost predicate TemplateShape(path: string, dir: string, name: string, ext: string)
  {
    && path == dir + name + ".template." + ext
    && (dir == "" || dir[|dir| - 1] == '/')
    && '.' !in name && '/' !in name
    && '.' !in ext && '/' !in ext
  }

  lemma FileNameParts(name: string, ext: string)
    requires '.' !in name && '/' !in name && '.' !in ext && '/' !in ext
    ensures '/' !in name + ".template." + ext
    ensures Split(name + ".template." + ext, '.') == [name, "template", ext]
  {
    var seg := name + ".template." + ext;
    assert seg == name + (['.'] + "template" + ['.'] + ext);
    assert Join(["template", ext], '.') == "template" + ['.'] + ext;
    assert Join([name, "template", ext], '.') == seg;
    SplitJoin([name, "template", ext], '.');
  }

  lemma LastSegment(dir: string, seg: string)
    requires dir == "" || dir[|dir| - 1] == '/'
    requires '/' !in seg
    ensures var segments := Split(dir + seg, '/'); segments[|segments| - 1] == seg
  {
    if dir == "" {
      assert dir + seg == seg;
      SplitNoSeparator(seg, '/');
    } else {
      var init := dir[..|dir| - 1];
      assert dir + seg == init + ['/'] + seg;
      SplitSnoc(init, '/', seg);
    }
  }

  lemma NameOfShape(dir: string, name: string, ext: string)
    requires TemplateShape(dir + name + ".template." + ext, dir, name, ext)
    ensures EngineName(dir + name + ".template." + ext)
  {
    var seg := name + ".template." + ext;
    FileNameParts(name, ext);
    assert dir + name + ".template." + ext == dir + seg;
    LastSegment(dir, seg);
  }

  lemma ShapeOfName(path: string) returns (dir: string, name: string, ext: string)
    requires EngineName(path)
    ensures TemplateShape(path, dir, name, ext)
  {
    var segments := Split(path, '/');
    var seg := segments[|segments| - 1];
    var parts := Split(seg, '.');
    name, ext := parts[0], parts[2];
    assert Join(parts, '.') == seg;
    assert Join(parts[1..], '.') == "template" + ['.'] + ext;
    assert seg == name + ".template." + ext by {
      assert ".template." + ext == ['.'] + "template" + ['.'] + ext;
    }
    if |segments| == 1 {
      dir := "";
      assert path == seg;
    } else {
      var init := segments[..|segments| - 1];
      assert segments == init + [seg];
      JoinSnoc(init, seg, '/');
      dir := Join(init, '/') + ['/'];
      assert path == dir + seg;
    }
  }

  /** The naming rule of `useEngine`, stated without explode: `…/name.template.ext`. */
  lemma EngineNameShape(path: string)
    ensures EngineName(path) <==> exists dir, name, ext :: TemplateShape(path, dir, name, ext)
  {
    if EngineName(path) {
      var dir, name, ext := ShapeOfName(path);
    }
    if exists dir, name, ext :: TemplateShape(path, dir, name, ext) {
      var dir, name, ext :| TemplateShape(path, dir, name, ext);
      NameOfShape(dir, name, ext);
    }
  }

  /** `useEngine($path)`: the file exists and its name has the form `name.template.ext`. */
  function UseEngine(files: map<string, string>, path: string): (r: bool)
    ensures r <==> path in files && exists dir, name, ext :: TemplateShape(path, dir, name, ext)
  {
    EngineNameShape(path);
    path in files && EngineName(path)
  }

  // --------------------------------------------------------- compile and cache

  /** What `loadTemplate` does to the cache: write some text, or (engine exception) nothing. */
  datatype Compilation = Cached(text: string) | EngineFailed(message: string)

  /**
   * What `loadTemplate` leaves for the cache: the view's raw text when the
   * engine is not used, the engine's output when it is used and succeeds; the
   * engine can fail only on a view it is used for; a missing view yields an
   * empty cache.
   */
  function Compile(files: map<string, string>, path: string, parse: string -> Result<string, string>): (c: Compilation)
    ensures !UseEngine(files, path) ==> c == Cached(ReadFile(files, path))
    ensures UseEngine(files, path) && parse(ReadFile(files, path)).Success? ==> c == Cached(parse(ReadFile(files, path)).value)
    ensures c.EngineFailed? <==> UseEngine(files, path) && parse(ReadFile(files, path)).Failure?
    ensures c.EngineFailed? ==> c.message == parse(ReadFile(files, path)).error
    ensures path !in files ==> c == Cached("")
  {
    var raw := ReadFile(files, path);
    if UseEngine(files, path) then
      match parse(raw)
      case Success(out) => Cached(out)
      case Failure(message) => EngineFailed(message)
    else Cached(raw)
  }

  function FilesAfter(files: map<string, string>, cache: string, c: Compilation): map<string, string>
  {
    match c
    case Cached(text) => files[cache := text]
    case EngineFailed(_) => files
  }

  function PagesAfter(pages: seq<string>, c: Compilation): seq<string>
  {
    match c
    case Cached(_) => pages
    case EngineFailed(message) => pages + [message]
  }

  // ---------------------------------------------------------- asset injection

  /** The pieces inserted one after another at one fixed offset, read off left to right. */
  function RevJoin(pieces: seq<string>): string
  {
    if |pieces| == 0 then "" else pieces[|pieces| - 1] + RevJoin(pieces[..|pieces| - 1])
  }

  function Concat(pieces: seq<string>): string
  {
    if |pieces| == 0 then "" else pieces[0] + Concat(pieces[1..])
  }

  function Reversed<T>(s: seq<T>): seq<T>
  {
    if |s| == 0 then [] else [s[|s| - 1]] + Reversed(s[..|s| - 1])
  }

  function SumLen(pieces: seq<string>): nat
  {
    if |pieces| == 0 then 0 else SumLen(pieces[..|pieces| - 1]) + |pieces[|pieces| - 1]|
  }

  lemma RevJoinSnoc(pieces: seq<string>, i: nat)
    requires i < |pieces|
    ensures RevJoin(pieces[..i + 1]) == pieces[i] + RevJoin(pieces[..i])
  {
    assert pieces[..i + 1][..i] == pieces[..i];
  }

  /** One more insertion at the fixed offset puts the next piece in front of those already inserted. */
  lemma InsertStep(content: string, at: nat, pieces: seq<string>, i: nat, r: string)
    requires at <= |content| && i < |pieces|
    requires r == content[..at] + RevJoin(pieces[..i]) + content[at..]
    ensures InsertAt(r, pieces[i], at) == content[..at] + RevJoin(pieces[..i + 1]) + content[at..]
  {
    RevJoinSnoc(pieces, i);
    assert r[..at] == content[..at];
    assert r[at..] == RevJoin(pieces[..i]) + content[at..];
  }

  /** Inserting at a fixed offset lays the pieces out in reverse order. */
  lemma {:induction false} RevJoinIsReversedConcat(pieces: seq<string>)
    ensures RevJoin(pieces) == Concat(Reversed(pieces))
  {
    if |pieces| > 0 {
      RevJoinIsReversedConcat(pieces[..|pieces| - 1]);
      assert Reversed(pieces)[1..] == Reversed(pieces[..|pieces| - 1]);
    }
  }

  lemma {:induction false} RevJoinLength(pieces: seq<string>)
    ensures |RevJoin(pieces)| == SumLen(pieces)
  {
    if |pieces| > 0 {
      RevJoinLength(pieces[..|pieces| - 1]);
    }
  }

  /** Total length of the decoded tags. */
  function DecodedLength(tags: seq<string>, decode: string -> string): nat
  {
    if |tags| == 0 then 0 else DecodedLength(tags[..|tags| - 1], decode) + |decode(tags[|tags| - 1])|
  }

  const HeadTag := "<head>"
  const BodyEndTag := "</body>"

  /** The `$pos == 0` test on strpos's result: true both for false (not found) and for offset 0. */
  predicate AnchorSkipped(pos: Option<nat>)
  {
    pos == None || pos == Some(0)
  }

  /** What addCss inserts for each tag: a newline, then the decoded tag. */
  function CssPieces(tags: seq<string>, decode: string -> string): (pieces: seq<string>)
    ensures |pieces| == |tags|
  {
    seq(|tags|, i requires 0 <= i < |tags| => "\n" + decode(tags[i]))
  }

  /** What addJs inserts for each tag: the decoded tag, then a newline. */
  function JsPieces(tags: seq<string>, decode: string -> string): (pieces: seq<string>)
    ensures |pieces| == |tags|
  {
    seq(|tags|, i requires 0 <= i < |tags| => decode(tags[i]) + "\n")
  }

  lemma {:induction false} CssPiecesLength(tags: seq<string>, decode: string -> string)
    ensures SumLen(CssPieces(tags, decode)) == |tags| + DecodedLength(tags, decode)
  {
    if |tags| > 0 {
      var n := |tags|;
      assert CssPieces(tags, decode)[..n - 1] == CssPieces(tags[..n - 1], decode);
      CssPiecesLength(tags[..n - 1], decode);
    }
  }

  lemma {:induction false} JsPiecesLength(tags: seq<string>, decode: string -> string)
    ensures SumLen(JsPieces(tags, decode)) == |tags| + DecodedLength(tags, decode)
  {
    if |tags| > 0 {
      var n := |tags|;
      assert JsPieces(tags, decode)[..n - 1] == JsPieces(tags[..n - 1], decode);
      JsPiecesLength(tags[..n - 1], decode);
    }
  }

  /** The markup addCss returns. */
  function WithCss(content: string, tags: seq<string>, decode: string -> string): string
  {
    var pos := StrPos(content, HeadTag);
    if AnchorSkipped(pos) then content
    else content[..pos.value + 6] + RevJoin(CssPieces(tags, decode)) + content[pos.value + 6..]
  }

  /** The markup addJs returns. */
  function WithJs(content: string, tags: seq<string>, decode: string -> string): string
  {
    var pos := StrPos(content, BodyEndTag);
    if AnchorSkipped(pos) then content
    else content[..pos.value] + RevJoin(JsPieces(tags, decode)) + content[pos.value..]
  }

  /**
   * addCss: with no `<head>`, or `<head>` at offset 0, the markup is
   * unchanged; otherwise everything up to and including the first `<head>`
   * is kept, then come the newline-prefixed tags in reverse bundle order,
   * then the rest, and the markup grows by one plus the decoded length per tag.
   */
  lemma CssInjection(content: string, tags: seq<string>, decode: string -> string)
    ensures (forall j: nat :: !OccursAt(content, HeadTag, j)) ==> WithCss(content, tags, decode) == content
    ensures OccursAt(content, HeadTag, 0) ==> WithCss(content, tags, decode) == content
    ensures forall p: nat :: 0 < p && StrPos(content, HeadTag) == Some(p) ==>
              && WithCss(content, tags, decode)
                 == content[..p + 6] + Concat(Reversed(CssPieces(tags, decode))) + content[p + 6..]
              && |WithCss(content, tags, decode)| == |content| + |tags| + DecodedLength(tags, decode)
  {
    RevJoinIsReversedConcat(CssPieces(tags, decode));
    RevJoinLength(CssPieces(tags, decode));
    CssPiecesLength(tags, decode);
  }

  /**
   * addJs: with no `</body>`, or `</body>` at offset 0, the markup is
   * unchanged; otherwise the text before the first `</body>` is kept, then
   * come the newline-terminated tags in reverse bundle order, then the text
   * from `</body>` on.
   */
  lemma JsInjection(content: string, tags: seq<string>, decode: string -> string)
    ensures (forall j: nat :: !OccursAt(content, BodyEndTag, j)) ==> WithJs(content, tags, decode) == content
    ensures OccursAt(content, BodyEndTag, 0) ==> WithJs(content, tags, decode) == content
    ensures forall p: nat :: 0 < p && StrPos(content, BodyEndTag) == Some(p) ==>
              && WithJs(content, tags, decode)
                 == content[..p] + Concat(Reversed(JsPieces(tags, decode))) + content[p..]
              && content[p..p + 7] == BodyEndTag
              && |WithJs(content, tags, decode)| == |content| + |tags| + DecodedLength(tags, decode)
  {
    RevJoinIsReversedConcat(JsPieces(tags, decode));
    RevJoinLength(JsPieces(tags, decode));
    JsPiecesLength(tags, decode);
  }

  lemma HeadFoundInSample()
    ensures StrPos("<p><head></head>", HeadTag) == Some(3)
  {
    var content := "<p><head></head>";
    assert OccursAt(content, HeadTag, 3);
    forall j: nat | j < 3 ensures !OccursAt(content, HeadTag, j) {
      assert content[j + 3] != HeadTag[3];
    }
  }

  lemma TwoPiecesReversed(pieces: seq<string>)
    requires |pieces| == 2
    ensures RevJoin(pieces) == pieces[1] + pieces[0]
  {
    RevJoinSnoc(pieces, 1);
    RevJoinSnoc(pieces, 0);
    assert pieces[..2] == pieces && pieces[..0] == [];
  }

  /** Two stylesheet tags come out in the opposite order to the bundle's. */
  lemma CssBundleReversed(first: string, second: string, decode: string -> string)
    ensures WithCss("<p><head></head>", [first, second], decode)
            == "<p><head>" + "\n" + decode(second) + "\n" + decode(first) + "</head>"
  {
    var content := "<p><head></head>";
    HeadFoundInSample();
    var pieces := CssPieces([first, second], decode);
    TwoPiecesReversed(pieces);
    assert content[..9] == "<p><head>";
    assert content[9..] == "</head>";
    assert WithCss(content, [first, second], decode) == content[..9] + pieces[1] + pieces[0] + content[9..];
  }

  /** A `<head>` at the very start of the markup is treated as missing: nothing is injected. */
  lemma CssHeadAtStartSkipped(tags: seq<string>, decode: string -> string)
    ensures WithCss("<head></head>", tags, decode) == "<head></head>"
  {
    assert OccursAt("<head></head>", HeadTag, 0);
  }

  /** What `addAssets` writes to the cache: addCss, then addJs, each on html_entity_decode of its input. */
  function Enriched(content: string, bundle: AssetBundle, decode: string -> string): (r: string)
    ensures |bundle.css| == 0 && |bundle.js| == 0 ==> r == decode(decode(content))
  {
    EmptyBundleNoChange(decode(content), decode);
    EmptyBundleNoChange(decode(WithCss(decode(content), bundle.css, decode)), decode);
    WithJs(decode(WithCss(decode(content), bundle.css, decode)), bundle.js, decode)
  }

  /** With no tags, addCss and addJs return the markup unchanged. */
  lemma EmptyBundleNoChange(content: string, decode: string -> string)
    ensures WithCss(content, [], decode) == content
    ensures WithJs(content, [], decode) == content
  {
    assert CssPieces([], decode) == [] && JsPieces([], decode) == [];
    var pos := StrPos(content, HeadTag);
    if !AnchorSkipped(pos) {
      assert content[..pos.value + 6] + "" + content[pos.value + 6..] == content;
    }
    var bpos := StrPos(content, BodyEndTag);
    if !AnchorSkipped(bpos) {
      assert content[..bpos.value] + "" + content[bpos.value..] == content;
    }
  }

  // ------------------------------------------------------- parameter filtering

  predicate Reserved(key: string)
  {
    key == "controller" || key == "images" || key == "links" || key == "models"
  }

  /** The index of the first reserved key, in the order foreach visits the array. */
  function FirstReserved(ps: Params): (r: Option<nat>)
    ensures r.Some? ==> r.value < |ps| && Reserved(ps[r.value].0)
    ensures r.Some? ==> forall j :: 0 <= j < r.value ==> !Reserved(ps[j].0)
    ensures r.None? ==> forall j :: 0 <= j < |ps| ==> !Reserved(ps[j].0)
  {
    if |ps| == 0 then None
    else if Reserved(ps[0].0) then Some(0)
    else
      match FirstReserved(ps[1..])
      case None => None
      case Some(i) => Some(i + 1)
  }

  /** `new Controller(App::$root)`. */
  function DefaultController(root: string): Value
  {
    Object("Wizard\\App\\Controller", root)
  }

  /** The controller filterParameters binds: the current controller object unless it is empty. */
  function ControllerFor(dispatch: Dispatch, root: string): (r: Value)
    ensures !Empty(r)
    ensures r == dispatch.controllerObject || r == DefaultController(root)
    ensures !Empty(dispatch.controllerObject) ==> r == dispatch.controllerObject
  {
    if !Empty(dispatch.controllerObject) then dispatch.controllerObject else DefaultController(root)
  }

  /**
   * filterParameters: fails, naming the key, at the first reserved key;
   * otherwise keeps every entry as it was and appends `controller` and `models`.
   */
  function Filtered(ps: Params, dispatch: Dispatch, root: string): (r: Result<Params, TemplateError>)
    ensures r.Failure? <==> exists i :: 0 <= i < |ps| && Reserved(ps[i].0)
    ensures r.Failure? ==> exists i :: 0 <= i < |ps| && Reserved(ps[i].0) && r.error == ReservedKey(ps[i].0)
                                      && forall j :: 0 <= j < i ==> !Reserved(ps[j].0)
    ensures r.Success? ==> r.value == ps + [("controller", ControllerFor(dispatch, root)), ("models", dispatch.models)]
    ensures r.Success? ==> !HasKey(r.value, "links") && !HasKey(r.value, "images")
  {
    match FirstReserved(ps)
    case Some(i) => Failure(ReservedKey(ps[i].0))
    case None =>
      var withController := Put(ps, "controller", ControllerFor(dispatch, root));
      assert !HasKey(ps, "controller");
      Success(Put(withController, "models", dispatch.models))
  }

  // ------------------------------------------------------------------ state

  /** The class-wide (static) fields of TemplateLoader. */
  class LoaderStatics {
    var useEngine: bool

    constructor ()
      ensures !useEngine
    {
      useEngine := false;
    }
  }

  class TemplateLoader {
    /** Path of the shared cache file. */
    const cache: string
    /** `App::$root`, read by filterParameters. */
    const root: string
    var path: string
    const host: Host
    const statics: LoaderStatics
    const lib: Library

    constructor (cache: string, root: string, host: Host, statics: LoaderStatics, lib: Library)
      ensures this.cache == cache && this.root == root && path == ""
      ensures this.host == host && this.statics == statics && this.lib == lib
    {
      this.cache := cache;
      this.root := root;
      this.path := "";
      this.host := host;
      this.statics := statics;
      this.lib := lib;
    }

    /**
     * Compiles the view at path into the cache file and returns the cache
     * contents entity-encoded. A plain view is copied unchanged; an engine
     * view is replaced by the engine's output, and when the engine fails its
     * error page is shown and the cache keeps its old contents.
     */
    method LoadTemplate(path: string) returns (content: string)
      modifies this`path, statics`useEngine, host
      ensures this.path == path
      ensures statics.useEngine == UseEngine(old(host.files), path)
      ensures var raw := ReadFile(old(host.files), path);
              && (!statics.useEngine ==>
                    host.files == old(host.files)[cache := raw] && host.errorPages == old(host.errorPages))
              && (statics.useEngine && lib.parse(raw).Success? ==>
                    host.files == old(host.files)[cache := lib.parse(raw).value]
                    && host.errorPages == old(host.errorPages))
              && (statics.useEngine && lib.parse(raw).Failure? ==>
                    host.files == old(host.files)
                    && host.errorPages == old(host.errorPages) + [lib.parse(raw).error])
      ensures content == lib.htmlentities(ReadFile(host.files, cache))
      ensures var raw := ReadFile(old(host.files), path);
              && (!statics.useEngine ==> content == lib.htmlentities(raw))
              && (statics.useEngine && lib.parse(raw).Success? ==> content == lib.htmlentities(lib.parse(raw).value))
    {
      this.path := path;
      statics.useEngine := UseEngine(host.files, path);

      var raw := ReadFile(host.files, path);
      if statics.useEngine {
        match lib.parse(raw)
        case Success(out) =>
          host.files := host.files[cache := out];
        case Failure(message) =>
          host.errorPages := host.errorPages + [message];
      } else {
        host.files := host.files[cache := raw];
      }
      ReadAfterWrite(old(host.files), cache, ReadFile(old(host.files), path), path);
      if lib.parse(raw).Success? {
        ReadAfterWrite(old(host.files), cache, lib.parse(raw).value, path);
      }
      content := lib.htmlentities(ReadFile(host.files, cache));
    }

    /**
     * Decodes the markup, injects the bundle's stylesheet tags and then its
     * script tags, writes the result to the cache, and hands back the
     * bundle's links and images.
     */
    method AddAssets(content: string, bundle: AssetBundle) returns (meta: AssetMeta)
      modifies host`files
      ensures host.files == old(host.files)[cache := Enriched(content, bundle, lib.htmlEntityDecode)]
      ensures meta == AssetMeta(bundle.links, bundle.images)
    {
      var withCss := AddCss(lib.htmlEntityDecode(content), bundle.css);
      var withJs := AddJs(lib.htmlEntityDecode(withCss), bundle.js);
      host.files := host.files[cache := withJs];
      meta := AssetMeta(bundle.links, bundle.images);
    }

    /** Inserts each decoded tag, after a newline, right behind the first `<head>`. */
    method AddCss(content: string, tags: seq<string>) returns (r: string)
      ensures r == WithCss(content, tags, lib.htmlEntityDecode)
    {
      var pos := StrPos(content, HeadTag);
      if pos == None || pos == Some(0) {
        return content;
      }
      var at := pos.value + 6;
      ghost var pieces := CssPieces(tags, lib.htmlEntityDecode);
      r := content;
      for i := 0 to |tags|
        invariant r == content[..at] + RevJoin(pieces[..i]) + content[at..]
      {
        InsertStep(content, at, pieces, i, r);
        r := InsertAt(r, "\n" + lib.htmlEntityDecode(tags[i]), at);
      }
      assert pieces[..|tags|] == pieces;
    }

    /** Inserts each decoded tag, followed by a newline, right before the first `</body>`. */
    method AddJs(content: string, tags: seq<string>) returns (r: string)
      ensures r == WithJs(content, tags, lib.htmlEntityDecode)
    {
      var pos := StrPos(content, BodyEndTag);
      if pos == None || pos == Some(0) {
        return content;
      }
      var at := pos.value;
      ghost var pieces := JsPieces(tags, lib.htmlEntityDecode);
      r := content;
      for i := 0 to |tags|
        invariant r == content[..at] + RevJoin(pieces[..i]) + content[at..]
      {
        InsertStep(content, at, pieces, i, r);
        r := InsertAt(r, lib.htmlEntityDecode(tags[i]) + "\n", at);
      }
      assert pieces[..|tags|] == pieces;
    }

    /** Rejects the reserved keys, then binds `controller` and `models`. */
    method FilterParameters(parameters: Params, dispatch: Dispatch) returns (r: Result<Params, TemplateError>)
      ensures r == Filtered(parameters, dispatch, root)
    {
      for i := 0 to |parameters|
        invariant forall j :: 0 <= j < i ==> !Reserved(parameters[j].0)
      {
        var key := parameters[i].0;
        if key == "controller" {
          return Failure(ReservedKey("controller"));
        }
        if key == "images" {
          return Failure(ReservedKey("images"));
        }
        if key == "links" {
          return Failure(ReservedKey("links"));
        }
        if key == "models" {
          return Failure(ReservedKey("models"));
        }
      }
      var filtered := parameters;
      if !Empty(dispatch.controllerObject) {
        filtered := Put(filtered, "controller", dispatch.controllerObject);
      } else {
        filtered := Put(filtered, "controller", DefaultController(root));
      }
      filtered := Put(filtered, "models", dispatch.models);
      return Success(filtered);
    }
  }
}
