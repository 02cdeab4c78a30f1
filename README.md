# Settings paths and the speech player, modelled in Dafny

This project models two pieces of a desktop language-learning application
built on Electron and React:

- **The settings layer of the main process** (`enjoy/src/main/settings.ts`).
  The settings live in a persistent key/value store. `language()` and
  `libraryPath()` repair missing or malformed entries in place. A family of
  directories and files is derived from the library path: cache, whisper and
  llama models, user data, the database. `ffmpegConfig()` decides whether the
  ffmpeg tools are ready. IPC handlers write to the store.
- **The speech player** (`enjoy/src/renderer/components/conversations/speech-player.tsx`).
  Under its JSX it is a small state machine. A wavesurfer audio engine is
  created lazily, once, when the player becomes visible and has a source. Three
  engine listeners (play, pause, decode) drive the `isPlaying`, `duration` and
  `initialized` state. A click toggles playback. Cleanup unbinds every
  listener and then destroys the engine.

Files:

- `wrappers.dfy`: module `Wrappers`, the `Option` type.
- `settings.dfy`: module `Settings`. The class `SettingsStore` holds the store
  as a `map<string, Value>`. Its methods are the operations and handlers,
  each specified by pure functions (`LanguageOf`, `StoreLanguage`, `LibraryOf`,
  `StoreLibrary`, `WithSuffix`, `FfmpegConfigOf`). Lemmas state idempotence,
  the case split of `libraryPath()`, and set-then-get round trips.
- `speech_player.dfy`: module `SpeechPlayback`. The class `WaveSurfer` is the
  abstract engine: playing flag, live listener table, bind and unbind counts,
  destroyed flag. The class `SpeechPlayer` is the component's state. Its
  `Valid()` invariant says:
  - at most one engine is ever created;
  - the three listeners are bound at most once, by the subscription effect;
  - after cleanup nothing is live, the engine is destroyed, and unbind calls
    equal bind calls.

Modelling conventions:

- A path is a sequence of components. `path.join` is concatenation, and
  `path.parse(p).base` is the last component (`Base`).
- A string held by the store is seen the same way, so `""` is the empty
  sequence and the language `"en"` is `["en"]`.
- The JavaScript test `!v || typeof v !== "string"` is `!IsSetString(v)`.
- A missing key is `None`, the JavaScript `undefined`.
- Calls that throw are modelled as `None` results or a false `ok`:
  - `path.join` on a non-string (`AsString`);
  - `toString()` on `undefined` or `null` (`ToText`);
  - `path.parse` on a non-string argument of `settings-set-library`;
  - reading a field of a null or undefined config in `settings-set-ffmpeg-config`.
- IPC handler arguments are untyped. They are `Option<Value>`, where None is
  `undefined`, except the config object of `settings-set-ffmpeg-config`.
- The documents folder, `app.isPackaged`, `os.platform()`, `os.arch()`, the
  `fs.existsSync` results and the `commandExists.sync` results are parameters.
- In the player, the engine calls a listener only while it is bound. So the
  three event methods require a live listener for their event. This is why
  no event can reach the component after cleanup.

## Model

| member | source | states |
|---|---|---|
| `Settings.Put` | enjoy/src/main/settings.ts:193-196 | `setSync(key, v)` makes `key` read back as `v` (absent for `undefined`) and leaves every other key as it was |
| `Settings.LanguageOf` | enjoy/src/main/settings.ts:13-21 | `language()` returns a non-empty string: the stored one when it is a non-empty string, otherwise `"en"` |
| `Settings.StoreLanguage` | enjoy/src/main/settings.ts:13-20 | after `language()` the stored language equals the returned value and no other key changes; the store is unchanged if and only if it already held a non-empty string |
| `Settings.LanguageIdempotent` | enjoy/src/main/settings.ts:13-20 | a second `language()` call changes nothing and returns the same language |
| `Settings.SwitchThenLanguage` | enjoy/src/main/settings.ts:13-24 | after `switchLanguage(l)`, `language()` returns `l` and writes nothing; for the empty string it falls back to `"en"` |
| `Settings.WithSuffix` | enjoy/src/main/settings.ts:36-37 | the forced path ends in the suffix, extends its input by at most one component, and equals its input exactly when the input already ends in the suffix |
| `Settings.LibraryOf` | enjoy/src/main/settings.ts:28-43 | `libraryPath()` returns a path whose last component is the suffix; it extends the stored string, or the documents folder when no non-empty string is stored |
| `Settings.StoreLibrary` | enjoy/src/main/settings.ts:28-40 | after `libraryPath()` the stored library is a string equal to the returned path and no other key changes; the store is unchanged if and only if it already held a string ending in the suffix |
| `Settings.LibraryPathCases` | enjoy/src/main/settings.ts:31-38 | the three cases: unset or non-string gives documents ++ [suffix]; ending in the suffix, unchanged; otherwise the suffix appended once |
| `Settings.LibraryPathIdempotent` | enjoy/src/main/settings.ts:28-43 | a second `libraryPath()` call, with any documents folder, leaves the store unchanged and returns the same path |
| `Settings.SetLibraryStores` | enjoy/src/main/settings.ts:139-147 | `settings-set-library` stores its input unchanged when its base is the suffix, and input ++ [suffix] otherwise |
| `Settings.SetLibraryThenLibraryPath` | enjoy/src/main/settings.ts:134-147 | after `settings-set-library`, `libraryPath()` returns the stored directory and writes nothing |
| `Settings.DerivedDirectoriesDistinct` | enjoy/src/main/settings.ts:46-79 | the cache, whisper-models and llama-models directories are pairwise different and lie strictly inside the library |
| `Settings.FfmpegConfigOf` | enjoy/src/main/settings.ts:98-125 | `ready` holds if and only if both commands are on the PATH or both bundled binaries exist; a bundled path is non-empty exactly when its file exists, and then it is library ++ ["ffmpeg", name with `.exe` on win32] |
| `Settings.SettingsStore.Language` | enjoy/src/main/settings.ts:13-21 | returns `LanguageOf` of the old store, leaves `StoreLanguage` of it, and the stored language equals the result |
| `Settings.SettingsStore.SwitchLanguage` | enjoy/src/main/settings.ts:23-26 | stores whatever value it is given under the language key (absent for `undefined`) and nothing else |
| `Settings.SettingsStore.LibraryPath` | enjoy/src/main/settings.ts:28-44 | returns `LibraryOf` of the old store, leaves `StoreLibrary` of it; the stored library equals the result and ends in the suffix |
| `Settings.SettingsStore.CachePath` | enjoy/src/main/settings.ts:46-51 | the cache directory is library ++ ["cache"], with the library normalised in the store |
| `Settings.SettingsStore.WhisperModelsPath` | enjoy/src/main/settings.ts:60-65 | the directory is library ++ ["whisper", "models"] |
| `Settings.SettingsStore.WhisperModelPath` | enjoy/src/main/settings.ts:67-72 | the file is the whisper models directory ++ the stored `whisper.model`; no result when that value is not a string |
| `Settings.SettingsStore.LlamaModelsPath` | enjoy/src/main/settings.ts:74-79 | the directory is library ++ ["llama", "models"] |
| `Settings.SettingsStore.LlamaModelPath` | enjoy/src/main/settings.ts:81-86 | the file is the llama models directory ++ the stored `llama.model`; no result when that value is not a string |
| `Settings.SettingsStore.UserDataPath` | enjoy/src/main/settings.ts:88-96 | the directory is library ++ the user id's text; no result when the id is undefined or null, but the library is normalised either way |
| `Settings.SettingsStore.DbPath` | enjoy/src/main/settings.ts:53-58 | the database file is the user-data directory ++ [DATABASE_NAME + ".sqlite"] when packaged, or ++ [DATABASE_NAME + "_dev.sqlite"] otherwise |
| `Settings.SettingsStore.FfmpegConfigFor` | enjoy/src/main/settings.ts:98-130 | the configuration equals `FfmpegConfigOf` of the normalised library; the two `libraryPath()` calls agree because it is idempotent |
| `Settings.SettingsStore.SetLibrary` | enjoy/src/main/settings.ts:139-147 | for a string argument, stores `WithSuffix` of it under `library` and nothing else, so the stored value ends in the suffix; for any other argument `path.parse` throws and the store is unchanged |
| `Settings.SettingsStore.SetLlamaModel` | enjoy/src/main/settings.ts:169-171 | as written, stores the model (absent for `undefined`) under `whisper.model` and no other key; `llama.model` keeps its old value |
| `Settings.SettingsStore.SetFfmpegConfig` | enjoy/src/main/settings.ts:193-196 | for a config object, stores its `ffmpegPath` field and, as written, its `ffrobePath` field under `ffmpeg.ffprobePath`, a missing field leaving the key absent; for a null or undefined config it throws and the store is unchanged |
| `SpeechPlayback.UnbindAll` | enjoy/src/renderer/components/conversations/speech-player.tsx:77-78 | calling the unsubscribe functions in order removes exactly their handles from the listener table and keeps every other listener |
| `SpeechPlayback.UnbindAllClears` | enjoy/src/renderer/components/conversations/speech-player.tsx:77-78 | when the subscriptions cover every live listener, unsubscribing them all leaves none |
| `SpeechPlayback.WaveSurfer.Create` | enjoy/src/renderer/components/conversations/speech-player.tsx:34-47 | a new engine for the given url, not playing, with no listeners, no bind or unbind calls, not destroyed |
| `SpeechPlayback.WaveSurfer.On` | enjoy/src/renderer/components/conversations/speech-player.tsx:56-62 | `on` adds one listener under a fresh handle, counts one bind, and changes nothing else |
| `SpeechPlayback.WaveSurfer.Unsubscribe` | enjoy/src/renderer/components/conversations/speech-player.tsx:78 | an unsubscribe call removes its handle's listener, counts one unbind, and changes nothing else |
| `SpeechPlayback.WaveSurfer.StartPlayback` | enjoy/src/renderer/components/conversations/speech-player.tsx:24 | `play()` leaves the engine playing and changes nothing else |
| `SpeechPlayback.WaveSurfer.PausePlayback` | enjoy/src/renderer/components/conversations/speech-player.tsx:24 | `pause()` leaves the engine not playing and changes nothing else |
| `SpeechPlayback.WaveSurfer.Destroy` | enjoy/src/renderer/components/conversations/speech-player.tsx:79 | `destroy()` marks the engine destroyed and changes nothing else |
| `SpeechPlayback.SpeechPlayer.constructor` | enjoy/src/renderer/components/conversations/speech-player.tsx:14-21 | the component starts with no engine, not playing, not initialized, duration 0, no subscriptions |
| `SpeechPlayback.SpeechPlayer.Effect` | enjoy/src/renderer/components/conversations/speech-player.tsx:27-50 | a fresh engine for the source, idle, with no listeners and not destroyed, is created if and only if the entry is intersecting, the source is present and non-empty, and no engine exists; otherwise nothing changes; at most one engine is ever created |
| `SpeechPlayback.SpeechPlayer.Subscribe` | enjoy/src/renderer/components/conversations/speech-player.tsx:52-75 | with an engine it binds exactly three listeners (play, pause, decode) and records their handles; without one it does nothing |
| `SpeechPlayback.SpeechPlayer.OnPlay` | enjoy/src/renderer/components/conversations/speech-player.tsx:56-58 | sets `isPlaying` and changes no other field |
| `SpeechPlayback.SpeechPlayer.OnPause` | enjoy/src/renderer/components/conversations/speech-player.tsx:59-61 | clears `isPlaying` and changes no other field |
| `SpeechPlayback.SpeechPlayer.OnDecode` | enjoy/src/renderer/components/conversations/speech-player.tsx:62-74 | sets `duration` to the engine's duration and `initialized` to true; no method ever sets `initialized` back to false |
| `SpeechPlayback.SpeechPlayer.Click` | enjoy/src/renderer/components/conversations/speech-player.tsx:23-25 | pauses a playing engine and plays one that is not, and changes nothing else |
| `SpeechPlayback.SpeechPlayer.Cleanup` | enjoy/src/renderer/components/conversations/speech-player.tsx:77-80 | every listener is unbound, leaving none live, and then the engine is destroyed; unbind calls equal bind calls; the engine's playing flag is not touched |
| `SpeechPlayback.RecreationScenario` | enjoy/src/renderer/components/conversations/speech-player.tsx:30-49 | when the effect re-runs after the visibility flickers and the source changes, the first engine, with the first source, is kept |
| `SpeechPlayback.LifecycleScenario` | enjoy/src/renderer/components/conversations/speech-player.tsx:23-80 | a whole session (hidden, visible, subscribe, decode, click, play event, click, pause event, cleanup): the first click starts the engine and the second pauses it; the session ends initialized with the decoded duration, not playing, and with the engine destroyed, no listener live and three unbinds for three binds |

## Left out

- Filesystem effects (`fs.ensureDirSync`) are not modelled. `fs.existsSync` results are boolean parameters of `FfmpegConfigFor`.
- `app.getPath("documents")`, `app.isPackaged`, `os.platform()`, `os.arch()` and `commandExists.sync` are parameters, not calls.
- `logger.info` and `i18n.changeLanguage` are foreign calls without effect on the state modelled; `SwitchLanguage` models only the store write.
- IPC registration (`ipcMain.handle`) is left out: each handler with logic is a method of `SettingsStore`. The pass-through handlers have no logic and are not modelled: get/set user, get/set whisper model, get/set LLM, the getters that only call a modelled operation, and the re-export of the store.
- Node's normalisation in `path.join` and `path.parse` is not modelled: `.`, `..`, repeated or trailing separators, absolute versus relative paths. Paths are component sequences. For this reason a non-empty string with no components (such as "/") is treated like the empty string.
- `language()` holds the language, like every stored string, as a sequence of path components, so `"a/b"` and `"a//b"` are the same language and a stored `"/"` falls back to `"en"` as the empty string does. Language codes contain no separator, so this does not arise for them.
- `settings-set-ffmpeg-config` with a primitive that is not null or undefined (a number, a string) reads `undefined` fields in JavaScript; the model takes such an argument as an object without those fields.
- Store keys are flat strings. electron-settings reads a dotted key such as `user.id` as the `id` field of the stored `user` object; the model does not tie the two.
- Storing `undefined` (a missing field in `settings-set-ffmpeg-config`) is modelled as removing the key, as it reads back after the settings file is serialised.
- `LIBRARY_PATH_SUFFIX` and `DATABASE_NAME` are defined in the application's constants module, which is not part of this model. The values used here stand in for them. The proofs need only that the suffix is one non-empty component.
- `ffmpegConfig()` calls `commandExists.sync("ffprobe")` only when ffmpeg is found, by short-circuit. With the results as parameters, the order of the calls is not observable and is not modelled.
- The speech player's rendering is left out: JSX, CSS classes, the skeleton and the button, `secondsToTimestamp`.
- In the player, the pitch contour (`PitchContour`, `getDecodedData`, the sample rate) and its `appendChild` into the waveform are left out. Wavesurfer's decoding and rendering are left out too. The intersection-observer hook is reduced to its `isIntersecting` flag.
- `duration` is an opaque number. `OnDecode` takes the value `getDuration()` returns as a parameter.
- `WaveSurfer.Destroy` only marks the engine destroyed. What wavesurfer releases internally is not modelled.
- The effect's re-runs are driven by React. The model takes each run as a method call: `Effect` for every change of `speech` or `entry`, `Subscribe` once per value of `wavesurfer`, and `Cleanup` on unmount. Re-running effects in React's development strict mode is not modelled.
- The source has no decode-failure state, no refusal of `play()` before decode, no cancellation of a late decode after destroy, and no re-creation of the engine when `speech.src` changes. The model adds none of these.
