# Temple Player: media providers and playback queue, in Dafny

This project models the core of the Temple Player music application:

- the provider data model and its error taxonomy;
- the two providers: local files and the TIDAL catalog stub;
- the provider registry, which routes a content descriptor such as
  `local:/music/a.mp3` or `tidal:123` to the provider that owns its scheme;
- the playback controller, a queue and transport state machine
  (stopped / playing / paused) that drives an audio device.

Modules, one per source file, plus two helpers:

| module | models |
|---|---|
| `Wrappers` | `Option`, and `Result`/`Outcome` in place of thrown exceptions |
| `JsString` | the JavaScript string built-ins used: `indexOf`, `lastIndexOf`, `startsWith`, `split`, `join` |
| `ProviderTypes` | `src/providers/types.ts` |
| `LocalFiles` | `src/providers/LocalFilesProvider.ts` |
| `Tidal` | `src/providers/TidalProvider.ts` (class `TidalProvider` for the mutable auth state) |
| `Registry` | `src/providers/index.ts` (class `ProviderRegistry`) |
| `Player` | `src/player/PlayerController.ts` (class `PlayerController`) |

How the controller is modelled:

- The audio element is an abstract device.
- Each write or request of these kinds that the controller sends it (`src`,
  `load()`, `play()`, `pause()`, `currentTime`, `volume`, `muted`) is appended
  to `device`.
- The element's events (`play`, `pause`, `ended`, `error`, `timeupdate`,
  `loadedmetadata`) are explicit methods.
- Every `stateChanged` and `error` emission is appended to `events`.
- The pure functions `Player.*Step` give the effect of each operation on the
  whole observable controller (`Machine`). Each method of
  `Player.PlayerController` is proved to agree with its step function.
- The lemmas about the step functions carry the state-machine properties.
- The success of the device's `play()` promise is a boolean parameter.
- The controller receives the registry it routes through as a constructor
  argument. In the application this is the module-level `providerRegistry`
  singleton.

In these places the model follows the code as written:

- **Local file names.** The artist/title split applies whenever the stem
  contains `" - "` at least once: the artist is the text before the first
  separator and the rest is re-joined as the title. It is not limited to
  exactly one separator.
- **Stale current track.** `loadQueue([])` sets `queueIndex` to -1 but keeps
  the previous `currentTrack`. The invariant proved is therefore one
  direction only: `queueIndex >= 0` implies that `currentTrack` is the queue
  entry at `queueIndex`, and `queueIndex == -1` exactly when the queue is
  empty.
- **Provider initialization failures.** `initialize` awaits each provider in
  turn and does not isolate their failures. Neither provider's `initialize`
  can fail.
- **Seeking.** `seek` only writes the device position. The state's
  `currentTimeMs` changes only on the next `timeupdate` event.
- **Changing track while playing.** `next` and `previous` load the new track
  and then call `play`. Loading keeps the status at `playing`, so `play`
  returns at once and no start request reaches the device
  (`Player.NextWhilePlayingSendsNoStart`, `Player.PreviousWhilePlayingSendsNoStart`).
  From any other status the same operations end with a start request
  (`Player.NextWhenNotPlayingStarts`, `Player.PreviousWhenNotPlayingStarts`).
- **Intermediate snapshot.** `loadQueue` broadcasts a snapshot with the new
  queue and position 0 but the previous current track before loading the
  first track. Subscribers can see a snapshot that breaks the queue
  invariant (`Player.LoadQueueBroadcastsIntermediate`).

## Model

| member | source | states |
|---|---|---|
| `JsString.IndexOf` | src/providers/index.ts:62 | `indexOf(':')` is -1 exactly when there is no colon; otherwise it is the position of the first colon |
| `JsString.LastIndexOf` | src/providers/LocalFilesProvider.ts:17 | `lastIndexOf('.')` is -1 exactly when there is no dot; otherwise it is the position of the last dot |
| `JsString.Find` | src/providers/LocalFilesProvider.ts:60 | the separator search used by `split` finds the first occurrence, or -1 exactly when there is none |
| `JsString.Split` | src/providers/LocalFilesProvider.ts:60 | `split(" - ")` yields at least one piece, and more than one exactly when the separator occurs |
| `JsString.JoinSplit` | src/providers/LocalFilesProvider.ts:60-62 | re-joining the pieces of a split with the same separator gives back the original string |
| `JsString.SplitHeadTail` | src/providers/LocalFilesProvider.ts:60-62 | the first piece is the text before the first separator; the other pieces re-joined are the text after it |
| `ProviderTypes.ParseCode` | src/providers/types.ts:47-51 | a string denotes an error code only if it is that code's literal |
| `ProviderTypes.CodeNameRoundTrip` | src/providers/types.ts:47-51 | the four codes have distinct literals, and no other string is a code |
| `ProviderTypes.NewProviderError` | src/providers/types.ts:53-61 | a `ProviderError` keeps the code and message it was built with, and its name is `ProviderError` |
| `LocalFiles.GetAuthState` | src/providers/LocalFilesProvider.ts:50-52 | the local provider is always unauthenticated |
| `LocalFiles.InitializeCapabilities` | src/providers/LocalFilesProvider.ts:38-40 | `initialize` resolves to a record that announces only local files: every other flag is false |
| `LocalFiles.Basename` | src/providers/LocalFilesProvider.ts:12-14 | the basename is a suffix of the path with no `/` or `\`, and it is preceded by a separator unless it is the whole path |
| `LocalFiles.BasenameAfterDirectory` | src/providers/LocalFilesProvider.ts:12-14 | the basename of a directory followed by a separator-free name is that name |
| `LocalFiles.StripExtension` | src/providers/LocalFilesProvider.ts:16-20 | the name is unchanged exactly when it has no dot after position 0; otherwise it is cut at its last dot |
| `LocalFiles.StripsLastExtension` | src/providers/LocalFilesProvider.ts:16-20 | a non-empty stem plus `.` plus a dot-free extension gives back the stem |
| `LocalFiles.HiddenFileKeepsName` | src/providers/LocalFilesProvider.ts:17-18 | `.hidden` keeps its leading dot |
| `LocalFiles.ParseStemSplitsAtFirstSeparator` | src/providers/LocalFilesProvider.ts:60-62 | `ParseStem`, the artist/title split of a file stem: with a `" - "`, the artist is the text before the first one and the title the text after it; together they rebuild the stem |
| `LocalFiles.ArtistHasNoSeparator` | src/providers/LocalFilesProvider.ts:60-62 | the artist never contains `" - "`: with a separator it is the text before the first one, and without one it is `Unknown Artist` |
| `LocalFiles.ParseStemWithoutSeparator` | src/providers/LocalFilesProvider.ts:61-62 | without a separator, the artist is `Unknown Artist` and the title is the whole stem |
| `LocalFiles.ParseStemExample` | src/providers/LocalFilesProvider.ts:60-62 | `Artist - Title` parses to artist `Artist` and title `Title` |
| `LocalFiles.ArtistTitleExample` | src/providers/LocalFilesProvider.ts:54-73 | `/music/Artist - Title.mp3` resolves to artist `Artist` and title `Title` |
| `LocalFiles.ResolvePath` | src/providers/LocalFilesProvider.ts:59-71 | a resolved track's id is `local:` plus the path verbatim; album `Local Files`, duration 0, provider `local` |
| `LocalFiles.ResolveFromLocalPaths` | src/providers/LocalFilesProvider.ts:54-55 | one track per path, in order, each with id `local:` plus its own path |
| `LocalFiles.GetPlaybackSource` | src/providers/LocalFilesProvider.ts:75-88 | fails with `not_supported` exactly when the id lacks `local:`; otherwise a `file://` source with no MIME type, headers or DRM, whose URL gives back the id |
| `LocalFiles.ResolvedTrackPlaysItsPath` | src/providers/LocalFilesProvider.ts:65-87 | the source of the track resolved from path `p` is exactly `file://` + `p`, of type file |
| `LocalFiles.ResolvedTracksAllPlayable` | src/providers/LocalFilesProvider.ts:54-87 | every track from `resolveFromLocalPaths` plays the file at its own path |
| `Tidal.GetPlaybackSource` | src/providers/TidalProvider.ts:57-60 | always fails with `auth_required` |
| `Tidal.SearchTracks` | src/providers/TidalProvider.ts:62-65 | always fails with `auth_required` |
| `Tidal.GetArtworkUrl` | src/providers/TidalProvider.ts:67-77 | fails with `not_supported` exactly when the id lacks `tidal:` |
| `Tidal.ArtworkUrlOfKey` | src/providers/TidalProvider.ts:67-77 | the URL for `tidal:k` is the image base + `k` + `/640x640.jpg`, whatever size is asked for |
| `Tidal.ArtworkUrlInjective` | src/providers/TidalProvider.ts:76 | different TIDAL ids never get the same artwork URL |
| `Tidal.TidalProvider.constructor` | src/providers/TidalProvider.ts:26-28 | a new provider is unauthenticated |
| `Tidal.TidalProvider.BeginAuth` | src/providers/TidalProvider.ts:47-50 | always fails with `not_supported` and leaves the auth state alone |
| `Tidal.TidalProvider.EndAuth` | src/providers/TidalProvider.ts:52-55 | resets the auth state to unauthenticated |
| `Tidal.InitializeCapabilities` | src/providers/TidalProvider.ts:30-33 | `initialize` resolves to a record that announces everything except local files: every other flag is true |
| `Tidal.TidalProvider.GetCapabilities` | src/providers/TidalProvider.ts:39-41 | reports the same record `initialize` resolves to: everything except local files |
| `Tidal.TidalProvider.GetAuthState` | src/providers/TidalProvider.ts:43-45 | returns the stored state, which in every provider (only the constructor and `endAuth` write it) is unauthenticated with no user label |
| `Registry.CapabilitiesMatchMembers` | src/providers/types.ts:64-87 | each provider defines every required member, and defines an optional member exactly when its capability record announces it |
| `Registry.RouteSpec` | src/providers/index.ts:60-76 | `Route`, the body of `getProviderForDescriptor`: with no colon, the route is the `local` entry; otherwise it is the entry for the text before the first colon, or a no-provider-for-scheme error |
| `Registry.RouteByScheme` | src/providers/index.ts:62-75 | `scheme:rest` routes by `scheme` whatever `rest` contains |
| `Registry.RoutingExamples` | src/providers/index.ts:60-76 | `local:/a/b.mp3` goes to the local provider and `tidal:123` to TIDAL |
| `Registry.UnknownSchemeExample` | src/providers/index.ts:68-73 | `bogus:123` fails with no provider for scheme `bogus` |
| `Registry.SchemelessRoutingExample` | src/providers/index.ts:63-66 | `/a/b.mp3` goes to the local provider |
| `Registry.LocalIdPlaysFile` | src/player/PlayerController.ts:128-129 | a track whose id is `local:` plus a path routes to the local provider, and the source `ResolveSource` obtains for the player (route, then ask that provider) is `file://` plus that path |
| `Registry.LocalTrackPlaysFile` | src/providers/index.ts:68-75 | a local path's track routes to the local provider and resolves to that path's file |
| `Registry.SchemelessIdIsRefused` | src/providers/index.ts:62-66 | a colon-free id routes to local, which refuses it with `not_supported` |
| `Registry.ProviderRegistry.constructor` | src/providers/index.ts:12-18 | a new registry holds exactly `local` and `tidal`, in that order, with none active |
| `Registry.ProviderRegistry.RegisterProvider` | src/providers/index.ts:20-22 | maps the provider's id to it and overwrites any previous entry; other entries are unchanged |
| `Registry.ProviderRegistry.Initialize` | src/providers/index.ts:24-32 | initializes every provider once, in registration order, each resolving to its capability record; the local entry (if any) becomes active |
| `Registry.InitializeReportsCapabilities` | src/providers/index.ts:24-32 | for every provider the registry initializes, the record `initialize` resolves to is the one `getCapabilities` reports, and only the local provider announces local files while only TIDAL announces auth |
| `Registry.ProviderRegistry.Shutdown` | src/providers/index.ts:34-39 | shuts every provider down once, in registration order |
| `Registry.ProviderRegistry.GetProvider` | src/providers/index.ts:41-43 | finds a provider exactly when its id is registered, and that provider carries the id |
| `Registry.ProviderRegistry.GetActiveProvider` | src/providers/index.ts:45-50 | fails exactly when no provider is active |
| `Registry.ProviderRegistry.SetActiveProvider` | src/providers/index.ts:52-58 | an unknown id fails and leaves the active provider alone; a known id's entry becomes active |
| `Registry.ProviderRegistry.GetProviderForDescriptor` | src/providers/index.ts:60-76 | in a valid registry: a colon-free descriptor gets local; any failure is a no-provider-for-scheme error; every result is registered |
| `Registry.ProviderRegistry.EmitAuthStateChanged` | src/providers/index.ts:79-81 | appends the auth-state event to the rebroadcast log |
| `Registry.ProviderRegistry.EmitProviderError` | src/providers/index.ts:83-85 | appends the provider-error event to the rebroadcast log |
| `Player.Merge` | src/player/PlayerController.ts:76-79 | an update replaces exactly the fields it names; every other field is unchanged |
| `Player.MergeNoChange` | src/player/PlayerController.ts:76-79 | an empty update leaves the state unchanged |
| `Player.UpdateBroadcastsSnapshot` | src/player/PlayerController.ts:76-79 | every update broadcasts the complete new snapshot as the next event |
| `Player.Clamp` | src/player/PlayerController.ts:199 | the clamped volume lies in [0, 1] and equals `v` when `v` is already in range |
| `Player.InitialInvariant` | src/player/PlayerController.ts:24-34 | the initial state is stopped, has no track, queue index -1 and volume 0.7, and satisfies the invariant |
| `Player.LoadTrackInRange` | src/player/PlayerController.ts:114-124 | loading an in-range index makes that track current at time 0 and keeps status and volume |
| `Player.UpdateKeepsInvariant` | src/player/PlayerController.ts:76-79 | an update that leaves the queue, the position, the current track and the analyser alone, and stores an in-range volume if any, keeps the invariant |
| `Player.StepKeepsInvariant` | src/player/PlayerController.ts:44-207 | every operation and device event keeps the invariant (the queue index is in range, and the current track and volume match it) |
| `Player.NextKeepsInvariant` | src/player/PlayerController.ts:168-177 | `next` keeps the invariant |
| `Player.RunKeepsInvariant` | src/player/PlayerController.ts:44-207 | any sequence of operations and events keeps the invariant |
| `Player.LoadQueueLoadsFirst` | src/player/PlayerController.ts:103-112 | after `loadQueue(ts)`: the queue is `ts`; the index is 0 (or -1 when empty); `ts[0]` is current at time 0 even if loading fails; status is unchanged; no play request |
| `Player.LoadQueueSendsFirstSource` | src/player/PlayerController.ts:103-138 | when the first track resolves, exactly its URL is set and loaded on the device |
| `Player.LocalQueueLoadsFirstFile` | src/player/PlayerController.ts:126-133 | a queue from local paths hands the device `file://` plus the first path |
| `Player.LoadTrackOutOfRange` | src/player/PlayerController.ts:115-117 | an out-of-range index changes nothing |
| `Player.LoadTrackFailure` | src/player/PlayerController.ts:139-142 | a failed resolution keeps status and device, and emits a load error naming the cause |
| `Player.LoadTrackSuccess` | src/player/PlayerController.ts:126-138 | a resolved source's URL is set and loaded, and the audio graph then exists |
| `Player.LoadTrackKeepsStatus` | src/player/PlayerController.ts:114-143 | loading a track never changes the transport status |
| `Player.PlayLeavesState` | src/player/PlayerController.ts:145-154 | `play` never changes the state; while playing it does nothing; otherwise it sends one start request and appends a play error exactly when the device refuses |
| `Player.OnlyDevicePlayStartsPlaying` | src/player/PlayerController.ts:44 | no input except the device's `play` event enters `playing` |
| `Player.DeviceEvents` | src/player/PlayerController.ts:44-49 | device `pause` gives paused and `play` gives playing; `error` stops and reports a playback error |
| `Player.EndedIsNext` | src/player/PlayerController.ts:93-95 | the device's `ended` event does exactly what `next` does |
| `Player.ToggleChoosesByStatus` | src/player/PlayerController.ts:160-166 | `toggle` pauses when playing and plays otherwise |
| `Player.NextAtEndStops` | src/player/PlayerController.ts:168-177 | at the last index, or on an empty queue, `next` stops and keeps the queue, index and current track |
| `Player.NextAdvances` | src/player/PlayerController.ts:168-172 | before the end, `next` makes the following track current at time 0 |
| `Player.PreviousRestarts` | src/player/PlayerController.ts:181-184 | more than 3000 ms in, `previous` only seeks the device to 0 |
| `Player.PreviousGoesBack` | src/player/PlayerController.ts:186-191 | at 3000 ms or less, `previous` makes the preceding track current, or does nothing at index 0 |
| `Player.SetVolumeClamps` | src/player/PlayerController.ts:198-202 | `setVolume(v)` stores and sends the clamped volume, `v` when it is in [0, 1], 0 below and 1 above, and changes nothing else in the state |
| `Player.GraphBuiltOnce` | src/player/PlayerController.ts:55-56 | a second `initializeAudioContext` is a no-op: once the graph exists, the call changes nothing |
| `Player.LoadTrackKeepsGraph` | src/player/PlayerController.ts:135-138 | loading a track never tears the audio graph down |
| `Player.StepKeepsGraph` | src/player/PlayerController.ts:55-56 | no operation or device event tears the audio graph down |
| `Player.RunKeepsGraph` | src/player/PlayerController.ts:55-74 | once built, the graph stays built through any sequence of inputs and every later `initializeAudioContext` is a no-op, so the graph is built and the analyser published at most once |
| `Player.LoadTrackAppends` | src/player/PlayerController.ts:114-143 | loading a track only appends to the device and the events, and never asks the device to start |
| `Player.NextWhilePlayingSendsNoStart` | src/player/PlayerController.ts:168-172 | `next` while playing makes the following track current and stays playing, but sends no start request |
| `Player.PreviousWhilePlayingSendsNoStart` | src/player/PlayerController.ts:186-191 | `previous` near the start of a later track while playing makes the preceding track current, but sends no start request |
| `Player.NextWhenNotPlayingStarts` | src/player/PlayerController.ts:168-172 | `next` when not playing makes the following track current, keeps the status, ends with a start request, and reports a refusal as a play error |
| `Player.PreviousWhenNotPlayingStarts` | src/player/PlayerController.ts:186-191 | `previous` near the start of a later track when not playing makes the preceding track current, keeps the status, ends with a start request, and reports a refusal as a play error |
| `Player.LoadQueueBroadcastsIntermediate` | src/player/PlayerController.ts:103-107 | `loadQueue` first broadcasts the new queue at position 0 with the previous current track, a snapshot that is inconsistent unless that track is the new first one |
| `Player.PlayerController.constructor` | src/player/PlayerController.ts:24-53 | a new controller has the initial state and has sent the device its initial volume |
| `Player.PlayerController.UpdateState` | src/player/PlayerController.ts:76-79 | merges the patch and broadcasts the snapshot |
| `Player.PlayerController.InitializeAudioContext` | src/player/PlayerController.ts:55-74 | builds the graph once and publishes the analyser |
| `Player.PlayerController.LoadTrack` | src/player/PlayerController.ts:114-143 | agrees with `LoadTrackStep` over the registry's current providers |
| `Player.PlayerController.LoadQueue` | src/player/PlayerController.ts:103-112 | agrees with `LoadQueueStep` and keeps the invariant |
| `Player.PlayerController.Play` | src/player/PlayerController.ts:145-154 | agrees with `PlayStep` and keeps the invariant |
| `Player.PlayerController.Pause` | src/player/PlayerController.ts:156-158 | sends a pause request and changes nothing else |
| `Player.PlayerController.Toggle` | src/player/PlayerController.ts:160-166 | agrees with `ToggleStep` |
| `Player.PlayerController.Next` | src/player/PlayerController.ts:168-177 | agrees with `NextStep` and keeps the invariant |
| `Player.PlayerController.Previous` | src/player/PlayerController.ts:179-192 | agrees with `PreviousStep` and keeps the invariant |
| `Player.PlayerController.Seek` | src/player/PlayerController.ts:194-196 | sends the device a seek and changes no state |
| `Player.PlayerController.SetVolume` | src/player/PlayerController.ts:198-202 | agrees with `SetVolumeStep` |
| `Player.PlayerController.SetMuted` | src/player/PlayerController.ts:204-207 | sends and stores the muted flag |
| `Player.PlayerController.OnDevicePlay` | src/player/PlayerController.ts:44 | the device's `play` event sets status to playing |
| `Player.PlayerController.OnDevicePause` | src/player/PlayerController.ts:45 | the device's `pause` event sets status to paused |
| `Player.PlayerController.OnDeviceEnded` | src/player/PlayerController.ts:93-95 | the device's `ended` event runs `next` |
| `Player.PlayerController.OnDeviceError` | src/player/PlayerController.ts:97-101 | the device's `error` event stops and emits a playback error |
| `Player.PlayerController.OnDeviceTimeUpdate` | src/player/PlayerController.ts:81-85 | stores the reported position |
| `Player.PlayerController.OnDeviceMetadataLoaded` | src/player/PlayerController.ts:87-91 | stores the reported duration |
| `Player.PlayerController.GetState` | src/player/PlayerController.ts:209-211 | the returned snapshot satisfies the queue invariant and has volume in [0, 1] |

## Left out

- The constructor's `crossOrigin = 'anonymous'` setting on the audio element
  is not modelled: it governs how the browser fetches media and never
  changes the controller's state or the commands it sends.
- Asynchronous interleaving. Operations run one after another to completion.
  The code has no load-generation counter, so no superseding of late
  resolutions is modelled (none exists to model).
- Floating point. Time is whole milliseconds, supplied by the device events,
  so the `currentTime * 1000` and `duration * 1000` conversions are not
  modelled, nor are NaN or infinite durations.
- Player.Clamp: the volume is a real number, so the NaN case of
  `Math.max`/`Math.min` is not modelled.
- The Web Audio graph (context, source, analyser and gain nodes) is reduced
  to one flag, `graphEngaged`, plus the analyser handle's presence in the
  state. The graph is a foreign browser API.
- `destroy` is not modelled. It pauses the element, clears its source, closes
  the audio context and drops all listeners, all of which is foreign API or
  the event emitter.
- The event emitter's subscribe and unsubscribe are not modelled. Emissions
  are an appended log. Console logging is dropped.
- The audio element's own behaviour (decoding, its asynchronous events) is
  outside the model. Its events are inputs, and the outcome of its `play()`
  promise is a boolean parameter.
- The registry's providers are the two that this repository defines, as a
  closed set of values. Third-party providers are not modelled.
- Each TIDAL provider's mutable auth state lives in its own
  `Tidal.TidalProvider` object. The registry never reads that state, so its
  entries do not reference it.
- The `MusicProvider` interface is modelled as a set of members and a
  `Provider` dispatch, not as a type with optional methods.
- Strings are Dafny strings, whose characters are Unicode scalar values, not
  UTF-16 code units as in JavaScript. Three consequences follow.
  - Positions from `indexOf`, `lastIndexOf` and `substring` count scalar
    values here, where JavaScript counts code units: a character outside the
    Basic Multilingual Plane is one position here and two in JavaScript.
  - A lone surrogate is legal in a JavaScript string but cannot be
    represented in the model.
  - On every string the model can represent, the results agree, because
    every needle the code searches for (`:`, `.`, `/`, `\`, `" - "`,
    `local:`, `tidal:`) is ASCII.
- `split` is modelled only for the non-empty string separator that the code
  uses.
- Searching with pagination: the TIDAL stub always fails, so no result page
  is ever produced.
- The React UI, the Electron main and preload processes, the file browser and
  the build configuration are outside the core.
