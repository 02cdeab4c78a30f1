/** The settings layer of the main process: a persistent key/value store, the
    library directory it keeps normalised, the directories and files derived
    from it, the ffmpeg discovery formula, and the IPC handlers that write to
    the store. Filesystem effects, the operating system and the Electron app
    object are inputs of the operations here. */
module Settings {
  import opened Wrappers

  /** A filesystem path as the sequence of its components: `path.join` is
      concatenation and `path.parse(p).base` is the last component. */
  type Path = seq<string>

  /** A value held by the store. A string is seen as its path components, so
      the empty string is the empty sequence. */
  datatype Value =
    | Str(parts: Path)
    | Null
    | Other(shown: Path)  // a number, boolean, object or array; `shown` is what toString() gives

  type Entries = map<string, Value>

  // Keys of the store.
  const LANGUAGE: string := "language"
  const LIBRARY: string := "library"
  const WHISPER_MODEL: string := "whisper.model"
  const LLAMA_MODEL: string := "llama.model"
  const USER_ID: string := "user.id"
  const FFMPEG_PATH: string := "ffmpeg.ffmpegPath"
  const FFPROBE_PATH: string := "ffmpeg.ffprobePath"

  const DEFAULT_LANGUAGE: Path := ["en"]

  /** The directory name every library path ends in, and the database's base
      name. Both come from the application's constants module, which is not
      part of this model; the proofs need only that the suffix is not empty. */
  const LIBRARY_PATH_SUFFIX: string := "EnjoyLibrary"
  const DATABASE_NAME: string := "enjoy_database"

  /** `getSync(key)`: the stored value, or None for `undefined`. */
  function Get(entries: Entries, key: string): Option<Value>
  {
    if key in entries then Some(entries[key]) else None
  }

  /** `setSync(key, v)`; storing `undefined` leaves the key absent. */
  function Put(entries: Entries, key: string, v: Option<Value>): (r: Entries)
    ensures Get(r, key) == v
    ensures forall k :: k != key ==> Get(r, k) == Get(entries, k)
  {
    match v
    case Some(x) => entries[key := x]
    case None => entries - {key}
  }

  /** `path.parse(p).base`. */
  function Base(p: Path): string
  {
    if p == [] then "" else p[|p| - 1]
  }

  /** The test `!v || typeof v !== "string"` fails exactly for non-empty strings. */
  predicate IsSetString(v: Option<Value>)
  {
    v.Some? && v.value.Str? && v.value.parts != []
  }

  /** The string a value is when cast `as string` and handed to `path.join`,
      or None when it is not a string and `path.join` throws. */
  function AsString(v: Option<Value>): (r: Option<Path>)
    ensures r.Some? <==> v.Some? && v.value.Str?
    ensures r.Some? ==> v == Some(Str(r.value))
  {
    if v.Some? && v.value.Str? then Some(v.value.parts) else None
  }

  /** `v.toString()`, or None when v is undefined or null and the call throws. */
  function ToText(v: Option<Value>): (r: Option<Path>)
    ensures r.None? <==> v.None? || v.value.Null?
  {
    match v
    case None => None
    case Some(Null) => None
    case Some(Str(p)) => Some(p)
    case Some(Other(s)) => Some(s)
  }

  // ---------------------------------------------------------------------
  // Language

  /** What `language()` returns for a store. */
  function LanguageOf(entries: Entries): (lang: Path)
    ensures lang != []
    ensures IsSetString(Get(entries, LANGUAGE)) ==> entries[LANGUAGE] == Str(lang)
    ensures !IsSetString(Get(entries, LANGUAGE)) ==> lang == DEFAULT_LANGUAGE
  {
    if IsSetString(Get(entries, LANGUAGE)) then entries[LANGUAGE].parts else DEFAULT_LANGUAGE
  }

  /** The store after `language()`: written only when the stored value is
      missing, not a string or empty. */
  function StoreLanguage(entries: Entries): (r: Entries)
    ensures Get(r, LANGUAGE) == Some(Str(LanguageOf(entries)))
    ensures forall k :: k != LANGUAGE ==> Get(r, k) == Get(entries, k)
    ensures r == entries <==> IsSetString(Get(entries, LANGUAGE))
  {
    if !IsSetString(Get(entries, LANGUAGE)) then entries[LANGUAGE := Str(DEFAULT_LANGUAGE)]
    else entries
  }

  /** `language()` changes the store at most once: a second call finds the
      value it stored and leaves everything as it is. */
  lemma LanguageIdempotent(entries: Entries)
    ensures StoreLanguage(StoreLanguage(entries)) == StoreLanguage(entries)
    ensures LanguageOf(StoreLanguage(entries)) == LanguageOf(entries)
  {
  }

  /** After `switchLanguage(lang)`, `language()` returns lang and writes
      nothing, unless lang is empty, in which case it falls back to "en". */
  lemma SwitchThenLanguage(entries: Entries, lang: Path)
    ensures var e := Put(entries, LANGUAGE, Some(Str(lang)));
      && LanguageOf(e) == (if lang == [] then DEFAULT_LANGUAGE else lang)
      && (StoreLanguage(e) == e <==> lang != [])
  {
  }

  // ---------------------------------------------------------------------
  // Library path

  /** A path forced to end in the library suffix: kept when it already does,
      otherwise extended by the suffix once. */
  function WithSuffix(p: Path): (r: Path)
    ensures Base(r) == LIBRARY_PATH_SUFFIX
    ensures p <= r && |r| <= |p| + 1
    ensures r == p <==> Base(p) == LIBRARY_PATH_SUFFIX
  {
    if Base(p) == LIBRARY_PATH_SUFFIX then p else p + [LIBRARY_PATH_SUFFIX]
  }

  /** What `libraryPath()` returns for a store, given the documents folder. */
  function LibraryOf(entries: Entries, documents: Path): (r: Path)
    ensures Base(r) == LIBRARY_PATH_SUFFIX && r != []
    ensures IsSetString(Get(entries, LIBRARY)) ==> entries[LIBRARY].parts <= r
    ensures !IsSetString(Get(entries, LIBRARY)) ==> documents <= r
  {
    if !IsSetString(Get(entries, LIBRARY)) then documents + [LIBRARY_PATH_SUFFIX]
    else WithSuffix(entries[LIBRARY].parts)
  }

  /** The store after `libraryPath()`: the library entry is rewritten unless
      it already is a string ending in the suffix. */
  function StoreLibrary(entries: Entries, documents: Path): (r: Entries)
    ensures Get(r, LIBRARY) == Some(Str(LibraryOf(entries, documents)))
    ensures forall k :: k != LIBRARY ==> Get(r, k) == Get(entries, k)
    ensures r == entries <==>
      IsSetString(Get(entries, LIBRARY)) && Base(entries[LIBRARY].parts) == LIBRARY_PATH_SUFFIX
  {
    var stored := Get(entries, LIBRARY);
    if !IsSetString(stored) then entries[LIBRARY := Str(documents + [LIBRARY_PATH_SUFFIX])]
    else if Base(stored.value.parts) != LIBRARY_PATH_SUFFIX then
      entries[LIBRARY := Str(stored.value.parts + [LIBRARY_PATH_SUFFIX])]
    else entries
  }

  /** The three cases of `libraryPath()`. */
  lemma LibraryPathCases(entries: Entries, documents: Path)
    ensures !IsSetString(Get(entries, LIBRARY)) ==>
      LibraryOf(entries, documents) == documents + [LIBRARY_PATH_SUFFIX]
    ensures IsSetString(Get(entries, LIBRARY)) && Base(entries[LIBRARY].parts) == LIBRARY_PATH_SUFFIX ==>
      LibraryOf(entries, documents) == entries[LIBRARY].parts
    ensures IsSetString(Get(entries, LIBRARY)) && Base(entries[LIBRARY].parts) != LIBRARY_PATH_SUFFIX ==>
      LibraryOf(entries, documents) == entries[LIBRARY].parts + [LIBRARY_PATH_SUFFIX]
  {
  }

  /** `libraryPath()` is idempotent: a second call, whatever the documents
      folder then is, leaves the store as the first call left it and returns
      the same path. */
  lemma LibraryPathIdempotent(entries: Entries, documents: Path, documents': Path)
    ensures var once := StoreLibrary(entries, documents);
      && StoreLibrary(once, documents') == once
      && LibraryOf(once, documents') == LibraryOf(entries, documents)
  {
  }

  /** The value `settings-set-library` stores for the directory it is given. */
  lemma SetLibraryStores(library: Path)
    ensures Base(library) == LIBRARY_PATH_SUFFIX ==> WithSuffix(library) == library
    ensures Base(library) != LIBRARY_PATH_SUFFIX ==> WithSuffix(library) == library + [LIBRARY_PATH_SUFFIX]
  {
  }

  /** After `settings-set-library`, `libraryPath()` returns what was stored
      and writes nothing. */
  lemma SetLibraryThenLibraryPath(entries: Entries, library: Path, documents: Path)
    ensures var e := entries[LIBRARY := Str(WithSuffix(library))];
      && LibraryOf(e, documents) == WithSuffix(library)
      && StoreLibrary(e, documents) == e
  {
  }

  // ---------------------------------------------------------------------
  // Derived paths and the ffmpeg configuration

  const CACHE_DIR: string := "cache"
  const WHISPER_DIR: string := "whisper"
  const LLAMA_DIR: string := "llama"
  const MODELS_DIR: string := "models"
  const FFMPEG_DIR: string := "ffmpeg"

  /** The database file name, which differs between packaged and development builds. */
  function DbFileName(isPackaged: bool): string
  {
    if isPackaged then DATABASE_NAME + ".sqlite" else DATABASE_NAME + "_dev.sqlite"
  }

  /** The cache, whisper-models and llama-models directories of one library
      never coincide, and each lies strictly inside the library. */
  lemma DerivedDirectoriesDistinct(library: Path)
    ensures var cache := library + [CACHE_DIR];
      var whisper := library + [WHISPER_DIR, MODELS_DIR];
      var llama := library + [LLAMA_DIR, MODELS_DIR];
      && cache != whisper && cache != llama && whisper != llama
      && library < cache && library < whisper && library < llama
  {
    var cache := library + [CACHE_DIR];
    var whisper := library + [WHISPER_DIR, MODELS_DIR];
    var llama := library + [LLAMA_DIR, MODELS_DIR];
    assert cache[|library|] == CACHE_DIR && whisper[|library|] == WHISPER_DIR && llama[|library|] == LLAMA_DIR;
  }

  /** The object `ffmpegConfig()` returns. */
  datatype FfmpegConfig = FfmpegConfig(
    os: string,
    arch: string,
    commandExists: bool,
    ffmpegPath: Path,
    ffprobePath: Path,
    ready: bool)

  /** The file name of a bundled tool on the given platform. */
  function BinaryName(tool: string, platform: string): string
  {
    if platform == "win32" then tool + ".exe" else tool
  }

  /** `ffmpegConfig()` for a library directory. `ffmpegFound` and
      `ffprobeFound` say whether the bundled binaries exist, the
      `...OnPath` flags whether the commands exist on the PATH. A bundled path
      is reported only when its file exists, and the tools are ready when both
      commands are on the PATH or both bundled binaries exist. */
  function FfmpegConfigOf(library: Path, platform: string, arch: string,
                          ffmpegFound: bool, ffprobeFound: bool,
                          ffmpegOnPath: bool, ffprobeOnPath: bool): (c: FfmpegConfig)
    ensures c.ready <==> (ffmpegOnPath && ffprobeOnPath) || (ffmpegFound && ffprobeFound)
    ensures c.commandExists <==> ffmpegOnPath && ffprobeOnPath
    ensures c.ffmpegPath != [] <==> ffmpegFound
    ensures c.ffprobePath != [] <==> ffprobeFound
    ensures ffmpegFound ==> c.ffmpegPath == library + [FFMPEG_DIR, BinaryName("ffmpeg", platform)]
    ensures ffprobeFound ==> c.ffprobePath == library + [FFMPEG_DIR, BinaryName("ffprobe", platform)]
    ensures c.os == platform && c.arch == arch
  {
    var bundledFfmpeg := library + [FFMPEG_DIR, BinaryName("ffmpeg", platform)];
    var bundledFfprobe := library + [FFMPEG_DIR, BinaryName("ffprobe", platform)];
    var ffmpegPath := if ffmpegFound then bundledFfmpeg else [];
    var ffprobePath := if ffprobeFound then bundledFfprobe else [];
    var commandExists := ffmpegOnPath && ffprobeOnPath;
    // Boolean(commandExists || (ffmpegPath && ffprobePath)): an empty path is falsy
    var ready := commandExists || (ffmpegPath != [] && ffprobePath != []);
    FfmpegConfig(platform, arch, commandExists, ffmpegPath, ffprobePath, ready)
  }

  // ---------------------------------------------------------------------
  // The store and the operations on it

  /** The persistent settings store, and the operations of the settings
      module that read and write it. */
  class SettingsStore {
    var entries: Entries

    constructor (initial: Entries)
      ensures entries == initial
    {
      entries := initial;
    }

    /** `language()`: puts "en" in place of a missing, non-string or empty
        value and returns the stored language. */
    method Language() returns (lang: Path)
      modifies this
      ensures lang == LanguageOf(old(entries))
      ensures entries == StoreLanguage(old(entries))
      ensures Get(entries, LANGUAGE) == Some(Str(lang))
    {
      var stored := Get(entries, LANGUAGE);
      if !IsSetString(stored) {
        entries := entries[LANGUAGE := Str(DEFAULT_LANGUAGE)];
      }
      lang := entries[LANGUAGE].parts;
    }

    /** `switchLanguage(lang)`, its store write only. */
    method SwitchLanguage(lang: Option<Value>)
      modifies this
      ensures entries == Put(old(entries), LANGUAGE, lang)
    {
      entries := Put(entries, LANGUAGE, lang);
    }

    /** `libraryPath()`: forces the stored library to end in the suffix and
        returns it. */
    method LibraryPath(documents: Path) returns (library: Path)
      modifies this
      ensures library == LibraryOf(old(entries), documents)
      ensures entries == StoreLibrary(old(entries), documents)
      ensures Get(entries, LIBRARY) == Some(Str(library)) && Base(library) == LIBRARY_PATH_SUFFIX
    {
      var stored := Get(entries, LIBRARY);
      if !IsSetString(stored) {
        entries := entries[LIBRARY := Str(documents + [LIBRARY_PATH_SUFFIX])];
      } else if Base(stored.value.parts) != LIBRARY_PATH_SUFFIX {
        entries := entries[LIBRARY := Str(stored.value.parts + [LIBRARY_PATH_SUFFIX])];
      }
      library := entries[LIBRARY].parts;
    }

    /** `cachePath()`. */
    method CachePath(documents: Path) returns (dir: Path)
      modifies this
      ensures dir == LibraryOf(old(entries), documents) + [CACHE_DIR]
      ensures entries == StoreLibrary(old(entries), documents)
    {
      var library := LibraryPath(documents);
      dir := library + [CACHE_DIR];
    }

    /** `whisperModelsPath()`. */
    method WhisperModelsPath(documents: Path) returns (dir: Path)
      modifies this
      ensures dir == LibraryOf(old(entries), documents) + [WHISPER_DIR, MODELS_DIR]
      ensures entries == StoreLibrary(old(entries), documents)
    {
      var library := LibraryPath(documents);
      dir := library + [WHISPER_DIR, MODELS_DIR];
    }

    /** `whisperModelPath()`: the stored whisper model's file inside the
        whisper models directory; None when the stored model is not a string
        and `path.join` throws. */
    method WhisperModelPath(documents: Path) returns (file: Option<Path>)
      modifies this
      ensures file.Some? <==> AsString(Get(old(entries), WHISPER_MODEL)).Some?
      ensures file.Some? ==>
        file.value == LibraryOf(old(entries), documents) + [WHISPER_DIR, MODELS_DIR]
                      + AsString(Get(old(entries), WHISPER_MODEL)).value
      ensures entries == StoreLibrary(old(entries), documents)
    {
      var dir := WhisperModelsPath(documents);
      var model := AsString(Get(entries, WHISPER_MODEL));
      if model.Some? {
        file := Some(dir + model.value);
      } else {
        file := None;
      }
    }

    /** `llamaModelsPath()`. */
    method LlamaModelsPath(documents: Path) returns (dir: Path)
      modifies this
      ensures dir == LibraryOf(old(entries), documents) + [LLAMA_DIR, MODELS_DIR]
      ensures entries == StoreLibrary(old(entries), documents)
    {
      var library := LibraryPath(documents);
      dir := library + [LLAMA_DIR, MODELS_DIR];
    }

    /** `llamaModelPath()`: the stored llama model's file inside the llama
        models directory; None when the stored model is not a string. */
    method LlamaModelPath(documents: Path) returns (file: Option<Path>)
      modifies this
      ensures file.Some? <==> AsString(Get(old(entries), LLAMA_MODEL)).Some?
      ensures file.Some? ==>
        file.value == LibraryOf(old(entries), documents) + [LLAMA_DIR, MODELS_DIR]
                      + AsString(Get(old(entries), LLAMA_MODEL)).value
      ensures entries == StoreLibrary(old(entries), documents)
    {
      var dir := LlamaModelsPath(documents);
      var model := AsString(Get(entries, LLAMA_MODEL));
      if model.Some? {
        file := Some(dir + model.value);
      } else {
        file := None;
      }
    }

    /** `userDataPath()`: the user's directory inside the library, named by
        the stored user id; None when the id is undefined or null and
        `toString()` throws. The library is normalised first either way. */
    method UserDataPath(documents: Path) returns (dir: Option<Path>)
      modifies this
      ensures dir.Some? <==> ToText(Get(old(entries), USER_ID)).Some?
      ensures dir.Some? ==>
        dir.value == LibraryOf(old(entries), documents) + ToText(Get(old(entries), USER_ID)).value
      ensures entries == StoreLibrary(old(entries), documents)
    {
      var library := LibraryPath(documents);
      var id := ToText(Get(entries, USER_ID));
      if id.Some? {
        dir := Some(library + id.value);
      } else {
        dir := None;
      }
    }

    /** `dbPath()`: the database file inside the user's directory. */
    method DbPath(documents: Path, isPackaged: bool) returns (file: Option<Path>)
      modifies this
      ensures file.Some? <==> ToText(Get(old(entries), USER_ID)).Some?
      ensures file.Some? ==>
        file.value == LibraryOf(old(entries), documents) + ToText(Get(old(entries), USER_ID)).value
                      + [DbFileName(isPackaged)]
      ensures entries == StoreLibrary(old(entries), documents)
    {
      var dbName := DbFileName(isPackaged);
      var userData := UserDataPath(documents);
      if userData.Some? {
        file := Some(userData.value + [dbName]);
      } else {
        file := None;
      }
    }

    /** `ffmpegConfig()`: both bundled paths come from `libraryPath()`, which
        is called twice; by idempotence the two calls agree. */
    method FfmpegConfigFor(documents: Path, platform: string, arch: string,
                           ffmpegFound: bool, ffprobeFound: bool,
                           ffmpegOnPath: bool, ffprobeOnPath: bool) returns (config: FfmpegConfig)
      modifies this
      ensures config == FfmpegConfigOf(LibraryOf(old(entries), documents), platform, arch,
                                       ffmpegFound, ffprobeFound, ffmpegOnPath, ffprobeOnPath)
      ensures entries == StoreLibrary(old(entries), documents)
    {
      var first := LibraryPath(documents);
      var ffmpegPath := first + [FFMPEG_DIR, BinaryName("ffmpeg", platform)];
      var second := LibraryPath(documents);
      LibraryPathIdempotent(old(entries), documents, documents);
      var ffprobePath := second + [FFMPEG_DIR, BinaryName("ffprobe", platform)];
      var foundFfmpeg: Path := if ffmpegFound then ffmpegPath else [];
      var foundFfprobe: Path := if ffprobeFound then ffprobePath else [];
      var commandExists := ffmpegOnPath && ffprobeOnPath;
      var ready := commandExists || (foundFfmpeg != [] && foundFfprobe != []);
      config := FfmpegConfig(platform, arch, commandExists, foundFfmpeg, foundFfprobe, ready);
    }

    /** The `settings-set-library` handler: stores the directory as given when
        it already ends in the suffix, and the directory joined with the
        suffix otherwise. An argument that is not a string makes
        `path.parse` throw (`ok` false) before anything is written. */
    method SetLibrary(library: Option<Value>) returns (ok: bool)
      modifies this
      ensures ok <==> AsString(library).Some?
      ensures ok ==> entries == old(entries)[LIBRARY := Str(WithSuffix(AsString(library).value))]
      ensures ok ==> Base(entries[LIBRARY].parts) == LIBRARY_PATH_SUFFIX
      ensures !ok ==> entries == old(entries)
    {
      var dir := AsString(library);
      if dir.None? {
        return false;
      }
      ok := true;
      if Base(dir.value) == LIBRARY_PATH_SUFFIX {
        entries := entries[LIBRARY := Str(dir.value)];
      } else {
        var joined := dir.value + [LIBRARY_PATH_SUFFIX];
        entries := entries[LIBRARY := Str(joined)];
      }
    }

    /** The `settings-set-llama-model` handler. As written it stores the model
        under the whisper key; the llama entry is never touched. */
    method SetLlamaModel(model: Option<Value>)
      modifies this
      ensures entries == Put(old(entries), WHISPER_MODEL, model)
      ensures Get(entries, LLAMA_MODEL) == Get(old(entries), LLAMA_MODEL)
    {
      entries := Put(entries, WHISPER_MODEL, model);
    }

    /** The `settings-set-ffmpeg-config` handler, given the fields of the
        config object, or None for a null or undefined config, whose first
        field access throws (`ok` false) before anything is written. The
        ffprobe entry receives the object's `ffrobePath` field, as the handler
        spells it; its `ffprobePath` field is ignored. */
    method SetFfmpegConfig(config: Option<map<string, Value>>) returns (ok: bool)
      modifies this
      ensures ok <==> config.Some?
      ensures ok ==> entries == Put(Put(old(entries), FFMPEG_PATH, Get(config.value, "ffmpegPath")),
                                    FFPROBE_PATH, Get(config.value, "ffrobePath"))
      ensures ok ==> Get(entries, FFMPEG_PATH) == Get(config.value, "ffmpegPath")
      ensures ok ==> Get(entries, FFPROBE_PATH) == Get(config.value, "ffrobePath")
      ensures !ok ==> entries == old(entries)
    {
      if config.None? {
        return false;
      }
      ok := true;
      entries := Put(entries, FFMPEG_PATH, Get(config.value, "ffmpegPath"));
      entries := Put(entries, FFPROBE_PATH, Get(config.value, "ffrobePath"));
    }
  }
}
