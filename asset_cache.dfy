/**
 * The filesystem cache of glyph and sprite blobs (lib/assetCache.js): how a
 * request's parameters become a file path, when a stored file is served,
 * when it is flagged for refresh, and what reading and writing do to the
 * filesystem. The clock is the parameter `now` (milliseconds).
 */
module AssetCache {
  import opened Js
  import opened Files

  /** Request parameters (`kind` is the request's `type`); a field the
      caller leaves undefined is None. */
  datatype Params = Params(
    kind: Option<string>,
    layer: Option<string>,
    fontstack: Option<string>,
    range: Option<string>,
    filename: Option<string>)

  /** The `path` option: absent, a template string, or a caller-supplied function. */
  datatype PathOption =
    | NoPath
    | TemplatePath(template: string)
    | FunctionPath(resolve: Params -> string)

  /** Constructor options; `maxage` and `refreshage` are in seconds, None when unset. */
  datatype Options = Options(dir: Option<string>, path: PathOption, maxage: Option<int>, refreshage: Option<int>)

  /** The path resolver picked at construction. */
  datatype PathStrategy =
    | Custom(resolve: Params -> string)
    | Template(template: string)
    | Directory

  /** `NoPathResolved` is the TypeError `fs.open(undefined)` and
      `fs.outputFile(undefined)` throw when no path resolves: it is thrown,
      not handed to the callback. `Code` is an error the callback receives. */
  datatype IoError = NoPathResolved | Code(code: string)

  /** What `get` hands its callback: nothing, a buffer with its refresh flag, or an error. */
  datatype CacheRead = Miss | Hit(data: seq<byte>, refresh: bool) | Failed(error: IoError)

  /** The filesystem after `set`, and the error its callback receives. */
  datatype StoreOutcome = StoreOutcome(files: map<string, Node>, error: Option<IoError>)

  const ConfigErrorMessage := "\"refreshage\" param must be used in conjunction with \"maxage\""

  /** A numeric option is truthy when it is set and non-zero. */
  predicate IsSet(age: Option<int>)
  {
    age.Some? && age.value != 0
  }

  /** The constructor's validity check. */
  predicate ConfigError(o: Options)
  {
    IsSet(o.refreshage) && !IsSet(o.maxage)
  }

  /** A function `path` is used as is, a non-empty string `path` as a
      template, and anything else selects the fixed directory layout. */
  function ChooseStrategy(o: Options): (s: PathStrategy)
    ensures s.Custom? <==> o.path.FunctionPath?
    ensures s.Custom? ==> forall p :: s.resolve(p) == o.path.resolve(p)
    ensures s.Template? <==> o.path.TemplatePath? && o.path.template != ""
    ensures s.Template? ==> s.template == o.path.template
    ensures s.Directory? <==> o.path.NoPath? || (o.path.TemplatePath? && o.path.template == "")
  {
    match o.path
    case FunctionPath(f) => Custom(f)
    case TemplatePath(t) => if t != "" then Template(t) else Directory
    case NoPath => Directory
  }

  /** Each placeholder's first occurrence is replaced, in this order. */
  function FileFromTemplate(t: string, p: Params): (path: string)
    ensures '{' !in t ==> path == t
  {
    var withType := ReplaceFirst(t, "{type}", ParamString(p.kind));
    var withLayer := ReplaceFirst(withType, "{layer}", ParamString(p.layer));
    var withFontstack := ReplaceFirst(withLayer, "{fontstack}", ParamString(p.fontstack));
    var withRange := ReplaceFirst(withFontstack, "{range}", ParamString(p.range));
    ReplaceFirst(withRange, "{filename}", ParamString(p.filename))
  }

  /** The fixed layout; any type other than glyphs or sprite has no path. */
  function FileFromDirectory(dir: Option<string>, p: Params): (path: Option<string>)
    ensures path.Some? <==> p.kind == Some("glyphs") || p.kind == Some("sprite")
    ensures path.Some? ==> |path.value| > |ParamString(dir) + "/"|
                           && path.value[..|ParamString(dir) + "/"|] == ParamString(dir) + "/"
  {
    if p.kind == Some("glyphs") then
      Some(ParamString(dir) + "/glyphs/" + ParamString(p.fontstack) + "/" + ParamString(p.range) + ".pbf")
    else if p.kind == Some("sprite") then
      Some(ParamString(dir) + "/sprites/sprites" + ParamString(p.filename))
    else
      None
  }

  function ResolvePath(s: PathStrategy, o: Options, p: Params): Option<string>
  {
    match s
    case Custom(f) => Some(f(p))
    case Template(t) => Some(FileFromTemplate(t, p))
    case Directory => FileFromDirectory(o.dir, p)
  }

  /** An age option in milliseconds; None is NaN (the option is unset). */
  function AgeTolerance(age: Option<int>): (ms: Option<int>)
    ensures ms.None? <==> age.None?
    ensures ms == Some(0) <==> age == Some(0)
    ensures ms.Some? ==> (ms.value > 0 <==> age.value > 0)
  {
    match age
    case None => None
    case Some(seconds) => Some(seconds * 1000)
  }

  /** Is a file modified at `mtime` still served at `now`? */
  predicate ShouldServe(maxage: Option<int>, mtime: int, now: int)
    ensures maxage.None? ==> ShouldServe(maxage, mtime, now)
    ensures maxage.Some? && maxage.value <= 0 && ShouldServe(maxage, mtime, now) ==> mtime > now
  {
    match AgeTolerance(maxage)
    case None => true
    case Some(ms) => now - mtime < ms
  }

  /** Should a file modified at `mtime` be rebuilt in the background at `now`? */
  predicate ShouldRefresh(refreshage: Option<int>, mtime: int, now: int)
    ensures ShouldRefresh(refreshage, mtime, now) ==> refreshage.Some?
    ensures refreshage.Some? && refreshage.value >= 0 && ShouldRefresh(refreshage, mtime, now) ==> now > mtime
  {
    match AgeTolerance(refreshage)
    case None => false
    case Some(ms) => now - mtime > ms
  }

  /** The outcome of `get` on a filesystem, as a function of its state. */
  function Lookup(o: Options, s: PathStrategy, files: map<string, Node>, req: Params, now: int): (r: CacheRead)
    ensures AgeTolerance(o.maxage) == Some(0) ==> r == Miss
    ensures r == Failed(NoPathResolved) <==> AgeTolerance(o.maxage) != Some(0) && ResolvePath(s, o, req).None?
    ensures r.Hit? ==> var path := ResolvePath(s, o, req).value;
              && ResolvePath(s, o, req).Some? && path in files && !files[path].Unopenable?
              && ShouldServe(o.maxage, files[path].mtime, now)
              && r.refresh == ShouldRefresh(o.refreshage, files[path].mtime, now)
              && (files[path].File? ==> r.data == files[path].data)
    ensures && AgeTolerance(o.maxage) != Some(0) && ResolvePath(s, o, req).Some?
            && ResolvePath(s, o, req).value in files && files[ResolvePath(s, o, req).value].File?
            && ShouldServe(o.maxage, files[ResolvePath(s, o, req).value].mtime, now) ==>
              r == Hit(files[ResolvePath(s, o, req).value].data,
                       ShouldRefresh(o.refreshage, files[ResolvePath(s, o, req).value].mtime, now))
  {
    if AgeTolerance(o.maxage) == Some(0) then Miss
    else match ResolvePath(s, o, req)
      case None => Failed(NoPathResolved)
      case Some(path) =>
        if path !in files then Miss
        else match files[path]
          case Unopenable(code) =>
            if code == "ENOENT" then Miss else Failed(Code(code))
          case File(data, mtime) =>
            if !ShouldServe(o.maxage, mtime, now) then Miss
            else Hit(data, ShouldRefresh(o.refreshage, mtime, now))
          case Unreadable(size, mtime, code) =>
            if !ShouldServe(o.maxage, mtime, now) then Miss
            else if size == 0 then Hit([], ShouldRefresh(o.refreshage, mtime, now))
            else Failed(Code(code))
  }

  /** The outcome of `set`; `failure` is the error the write reports, if any
      (a failed write is modelled as leaving the filesystem as it was). */
  function Store(o: Options, s: PathStrategy, files: map<string, Node>, req: Params,
                 data: seq<byte>, now: int, failure: Option<string>): (r: StoreOutcome)
    ensures r.error.Some? ==> r.files == files
    ensures r.files != files ==> ResolvePath(s, o, req).Some?
                                 && r.files == files[ResolvePath(s, o, req).value := File(data, now)]
    ensures AgeTolerance(o.maxage) == Some(0) ==> r == StoreOutcome(files, None)
    ensures r.error.None? && AgeTolerance(o.maxage) != Some(0) ==>
              && ResolvePath(s, o, req).Some? && ResolvePath(s, o, req).value in r.files
              && r.files[ResolvePath(s, o, req).value] == File(data, now)
  {
    if AgeTolerance(o.maxage) == Some(0) then StoreOutcome(files, None)
    else match ResolvePath(s, o, req)
      case None => StoreOutcome(files, Some(NoPathResolved))
      case Some(path) =>
        if failure.Some? then StoreOutcome(files, Some(Code(failure.value)))
        else StoreOutcome(files[path := File(data, now)], None)
  }

  class FileSystemCache {
    const options: Options
    /** The path resolver (`_file`). */
    const strategy: PathStrategy

    constructor (o: Options)
      requires !ConfigError(o)
      ensures options == o && strategy == ChooseStrategy(o)
    {
      options := o;
      strategy := ChooseStrategy(o);
    }

    /** Reads the file for `req`. The filesystem is not modified, so an entry
        reported absent because it is stale stays stored. */
    method Get(fs: FileSystem, req: Params, now: int) returns (r: CacheRead)
      ensures r == Lookup(options, strategy, fs.files, req, now)
    {
      if AgeTolerance(options.maxage) == Some(0) {
        return Miss;
      }
      var file := ResolvePath(strategy, options, req);
      if file.None? {
        return Failed(NoPathResolved);
      }
      var path := file.value;
      if path !in fs.files {
        return Miss;
      }
      var node := fs.files[path];
      if node.Unopenable? {
        if node.code == "ENOENT" {
          return Miss;
        }
        return Failed(Code(node.code));
      }
      var mtime := node.mtime;
      if !ShouldServe(options.maxage, mtime, now) {
        return Miss;
      }
      var refresh := ShouldRefresh(options.refreshage, mtime, now);
      var size := if node.File? then |node.data| else node.size;
      if size == 0 {
        return Hit([], refresh);
      }
      if node.Unreadable? {
        return Failed(Code(node.code));
      }
      r := Hit(node.data, refresh);
    }

    /** Writes `data` to the file for `req`, stamped with `now`. */
    method Set(fs: FileSystem, req: Params, data: seq<byte>, now: int, failure: Option<string>)
      returns (error: Option<IoError>)
      modifies fs
      ensures Store(options, strategy, old(fs.files), req, data, now, failure)
              == StoreOutcome(fs.files, error)
    {
      if AgeTolerance(options.maxage) == Some(0) {
        return None;
      }
      var file := ResolvePath(strategy, options, req);
      if file.None? {
        return Some(NoPathResolved);
      }
      if failure.Some? {
        return Some(Code(failure.value));
      }
      fs.files := fs.files[file.value := File(data, now)];
      error := None;
    }
  }

  /** `new FileSystemCache(options)`: throws on a refresh window without a
      freshness window, before any request is served. */
  method Create(o: Options) returns (r: Result<FileSystemCache>)
    ensures r.Err? <==> ConfigError(o)
    ensures r.Err? ==> r.reason == ConfigErrorMessage
    ensures r.Ok? ==> fresh(r.value) && r.value.options == o && r.value.strategy == ChooseStrategy(o)
  {
    if IsSet(o.refreshage) && !IsSet(o.maxage) {
      return Err(ConfigErrorMessage);
    }
    var cache := new FileSystemCache(o);
    r := Ok(cache);
  }

  // ---------------------------------------------------------------------
  // Properties

  /** A path that resolves gets, after a successful `set` and with no
      freshness window, the same bytes back from `get`, with the refresh
      flag of the write time. */
  lemma SetThenGet(o: Options, files: map<string, Node>, req: Params, data: seq<byte>, written: int, now: int)
    requires AgeTolerance(o.maxage) != Some(0) && ShouldServe(o.maxage, written, now)
    requires ResolvePath(ChooseStrategy(o), o, req).Some?
    ensures var s := ChooseStrategy(o);
            var after := Store(o, s, files, req, data, written, None);
            after.error.None? && Lookup(o, s, after.files, req, now) == Hit(data, ShouldRefresh(o.refreshage, written, now))
  {
  }

  /** With maxage 5 (seconds), a file written at `t` is served 4 seconds
      later and reported absent 6 seconds later. */
  lemma FiveSecondWindow(o: Options, files: map<string, Node>, req: Params, data: seq<byte>, t: int)
    requires o.maxage == Some(5)
    requires ResolvePath(ChooseStrategy(o), o, req).Some?
    ensures var s := ChooseStrategy(o);
            var after := Store(o, s, files, req, data, t, None).files;
            && Lookup(o, s, after, req, t + 4000) == Hit(data, ShouldRefresh(o.refreshage, t, t + 4000))
            && Lookup(o, s, after, req, t + 6000) == Miss
  {
    SetThenGet(o, files, req, data, t, t + 4000);
  }

  /** maxage = 0 bypasses the cache: `get` never looks and `set` never writes. */
  lemma MaxAgeZeroBypasses(o: Options, files: map<string, Node>, req: Params, data: seq<byte>, now: int, failure: Option<string>)
    requires o.maxage == Some(0)
    ensures Lookup(o, ChooseStrategy(o), files, req, now) == Miss
    ensures Store(o, ChooseStrategy(o), files, req, data, now, failure) == StoreOutcome(files, None)
  {
  }

  /** An entry past its freshness window is reported absent (not as an
      error), and it becomes servable again only when rewritten. */
  lemma StaleEntryIsAbsent(o: Options, files: map<string, Node>, req: Params, data: seq<byte>, mtime: int, now: int)
    requires ResolvePath(ChooseStrategy(o), o, req).Some?
    requires ResolvePath(ChooseStrategy(o), o, req).value in files
    requires files[ResolvePath(ChooseStrategy(o), o, req).value] == File(data, mtime)
    requires !ShouldServe(o.maxage, mtime, now)
    ensures Lookup(o, ChooseStrategy(o), files, req, now) == Miss
  {
  }

  /** Freshness only decays: a file not served at some time is not served
      later, and a file flagged for refresh stays flagged. */
  lemma WindowsOnlyDecay(o: Options, mtime: int, t1: int, t2: int)
    requires t1 <= t2
    ensures !ShouldServe(o.maxage, mtime, t1) ==> !ShouldServe(o.maxage, mtime, t2)
    ensures ShouldRefresh(o.refreshage, mtime, t1) ==> ShouldRefresh(o.refreshage, mtime, t2)
  {
  }

  /** Missing files and files that fail to open with ENOENT are absent; any
      other failure to open is an error. */
  lemma MissingIsAbsentOtherErrorsPropagate(o: Options, files: map<string, Node>, req: Params, now: int)
    requires AgeTolerance(o.maxage) != Some(0)
    requires ResolvePath(ChooseStrategy(o), o, req).Some?
    ensures var path := ResolvePath(ChooseStrategy(o), o, req).value;
            var r := Lookup(o, ChooseStrategy(o), files, req, now);
            && (path !in files ==> r == Miss)
            && (path in files && files[path].Unopenable? ==>
                  (r == Miss <==> files[path].code == "ENOENT")
                  && (r != Miss ==> r == Failed(Code(files[path].code))))
  {
  }

  // Template resolution in the usual case

  /** No opening brace in `s` is followed by the second character of `pat`,
      so the braced pattern `pat` does not occur in `s`. */
  lemma BracedPatternAbsent(s: string, pat: string)
    requires 2 <= |pat| && pat[0] == '{'
    requires forall j :: 0 <= j < |s| - 1 && s[j] == '{' ==> s[j + 1] != pat[1]
    ensures forall j :: 0 <= j <= |s| ==> !OccursAt(s, pat, j)
  {
    forall j | 0 <= j <= |s|
      ensures !OccursAt(s, pat, j)
    {
      if j + |pat| <= |s| {
        assert s[j..j + |pat|][0] == s[j];
        assert s[j..j + |pat|][1] == s[j + 1];
      }
    }
  }

  /** In a template holding `{fontstack}` and then `{range}` and no other
      brace, a brace occurs only where one of those two opens. */
  lemma BracesOnlyAtSlots(pre: string, mid: string, post: string)
    requires '{' !in pre && '{' !in mid && '{' !in post
    ensures var t := pre + "{fontstack}" + mid + "{range}" + post;
            forall j :: 0 <= j < |t| && j != |pre| && j != |pre| + 11 + |mid| ==> t[j] != '{'
  {
    var t := pre + "{fontstack}" + mid + "{range}" + post;
    forall j | 0 <= j < |t| && j != |pre| && j != |pre| + 11 + |mid|
      ensures t[j] != '{'
    {
      if j < |pre| {
        assert t[j] == pre[j];
      } else if j < |pre| + 11 {
        assert t[j] == "{fontstack}"[j - |pre|];
      } else if j < |pre| + 11 + |mid| {
        assert t[j] == mid[j - |pre| - 11];
      } else if j < |pre| + 18 + |mid| {
        assert t[j] == "{range}"[j - |pre| - 11 - |mid|];
      } else {
        assert t[j] == post[j - |pre| - 18 - |mid|];
      }
    }
  }

  /** Text that starts with the braced name `slot` does not start with any
      other braced name. */
  lemma BracedNameDiffers(slot: string, name: string, s: string)
    requires '}' !in slot && '}' !in name && name != slot
    requires |slot| + 2 <= |s| && s[..|slot| + 2] == "{" + slot + "}"
    ensures |name| + 2 <= |s| ==> s[..|name| + 2] != "{" + name + "}"
  {
    var p := "{" + name + "}";
    var q := "{" + slot + "}";
    if |name| + 2 <= |s| {
      if |name| == |slot| {
        var i :| 0 <= i < |name| && name[i] != slot[i];
        assert s[i + 1] == q[i + 1] == slot[i];
        assert s[..|name| + 2][i + 1] != p[i + 1];
      } else if |name| < |slot| {
        assert s[|name| + 1] == q[|name| + 1] == slot[|name|];
        assert s[..|name| + 2][|name| + 1] != p[|name| + 1];
      } else {
        assert s[|slot| + 1] == q[|slot| + 1] == '}';
        assert s[..|name| + 2][|slot| + 1] != p[|slot| + 1];
      }
    }
  }

  /** Such a template holds no braced name other than its two: replacing any
      other one (`{type}`, `{layer}`, `{filename}`, …) leaves it as it is. */
  lemma OtherSlotAbsent(pre: string, mid: string, post: string, name: string, rep: string)
    requires '{' !in pre && '{' !in mid && '{' !in post
    requires '}' !in name && name != "fontstack" && name != "range"
    ensures ReplaceFirst(pre + "{fontstack}" + mid + "{range}" + post, "{" + name + "}", rep)
            == pre + "{fontstack}" + mid + "{range}" + post
  {
    var t := pre + "{fontstack}" + mid + "{range}" + post;
    var pat := "{" + name + "}";
    BracesOnlyAtSlots(pre, mid, post);
    forall j | 0 <= j <= |t|
      ensures !OccursAt(t, pat, j)
    {
      if j + |pat| <= |t| {
        assert t[j..j + |pat|] == t[j..][..|pat|];
        if j == |pre| {
          assert t[j..] == "{fontstack}" + mid + "{range}" + post;
          BracedNameDiffers("fontstack", name, t[j..]);
        } else if j == |pre| + 11 + |mid| {
          assert t[j..] == "{range}" + post;
          BracedNameDiffers("range", name, t[j..]);
        } else {
          assert t[j..j + |pat|][0] == t[j] != '{';
        }
      }
    }
    ReplaceFirstAbsent(t, pat, rep);
  }

  /** Filling `{fontstack}` and then `{range}` splices the two values in. */
  lemma SpliceTwoSlots(pre: string, mid: string, post: string, fs: string, rg: string)
    requires '{' !in pre && '{' !in mid
    requires '{' !in fs
    ensures ReplaceFirst(ReplaceFirst(pre + "{fontstack}" + mid + "{range}" + post, "{fontstack}", fs), "{range}", rg)
            == pre + fs + mid + rg + post
  {
    var rest := mid + "{range}" + post;
    var head := pre + fs + mid;
    assert ReplaceFirst(pre + "{fontstack}" + mid + "{range}" + post, "{fontstack}", fs) == pre + fs + rest by {
      assert pre + "{fontstack}" + mid + "{range}" + post == pre + "{fontstack}" + rest;
      ReplaceFirstAfterPlainText(pre, "{fontstack}", rest, fs);
    }
    assert ReplaceFirst(pre + fs + rest, "{range}", rg) == head + rg + post by {
      assert pre + fs + rest == head + "{range}" + post;
      ReplaceFirstAfterPlainText(head, "{range}", post, rg);
    }
    assert head + rg + post == pre + fs + mid + rg + post;
  }

  /** A template holding `{fontstack}` and then `{range}`, and no other
      brace, resolves by splicing in those two parameters, provided their
      values hold no brace themselves. */
  lemma TemplateSplicesFontstackAndRange(pre: string, mid: string, post: string, p: Params)
    requires '{' !in pre && '{' !in mid && '{' !in post
    requires '{' !in ParamString(p.fontstack) && '{' !in ParamString(p.range)
    ensures FileFromTemplate(pre + "{fontstack}" + mid + "{range}" + post, p)
            == pre + ParamString(p.fontstack) + mid + ParamString(p.range) + post
  {
    var fs, rg := ParamString(p.fontstack), ParamString(p.range);
    assert "{" + "type" + "}" == "{type}" && "{" + "layer" + "}" == "{layer}";
    OtherSlotAbsent(pre, mid, post, "type", ParamString(p.kind));
    OtherSlotAbsent(pre, mid, post, "layer", ParamString(p.layer));
    SpliceTwoSlots(pre, mid, post, fs, rg);
    var v := pre + fs + mid + rg + post;
    assert '{' !in v;
    BracedPatternAbsent(v, "{filename}");
    ReplaceFirstAbsent(v, "{filename}", ParamString(p.filename));
  }

  /** The template spelling of the glyph layout resolves a glyph request to
      the same file as the fixed directory layout. */
  lemma GlyphTemplateMatchesDirectory(dir: string, p: Params)
    requires p.kind == Some("glyphs")
    requires '{' !in dir && '{' !in ParamString(p.fontstack) && '{' !in ParamString(p.range)
    ensures Some(FileFromTemplate(dir + "/glyphs/{fontstack}/{range}.pbf", p)) == FileFromDirectory(Some(dir), p)
  {
    assert dir + "/glyphs/{fontstack}/{range}.pbf" == (dir + "/glyphs/") + "{fontstack}" + "/" + "{range}" + ".pbf";
    TemplateSplicesFontstackAndRange(dir + "/glyphs/", "/", ".pbf", p);
  }
}
