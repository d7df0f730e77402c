/** The playback controller: the queue and transport state machine.

    The audio element is an abstract device. Commands sent to it are
    appended to `device`; the events it raises (play, pause, ended, error,
    timeupdate, loadedmetadata) are explicit operations. Everything the
    controller emits (`stateChanged` snapshots and `error` events) is
    appended to `events`. Time is whole milliseconds, volume a real number.

    The pure functions ending in `Step` say what each operation does to the
    whole observable controller (a `Machine`); the class `PlayerController`
    carries out the same operations on its fields and is proved to agree
    with them; the lemmas state the properties of the state machine. */
module Player {
  import opened Wrappers
  import opened ProviderTypes
  import Registry
  import LocalFiles

  datatype Status = Playing | Paused | Stopped

  /** The externally visible snapshot. `analyserAttached` stands for the
      analyser node handle, which is set once the audio graph exists. */
  datatype PlayerState = PlayerState(
    status: Status,
    currentTimeMs: nat,
    durationMs: nat,
    currentTrack: Option<Track>,
    queue: seq<Track>,
    queueIndex: int,
    volume: real,
    muted: bool,
    analyserAttached: bool)

  const InitialVolume: real := 0.7
  /** Within this many milliseconds of the start, `previous` changes track
      instead of restarting the current one. */
  const RestartThresholdMs: nat := 3000

  const InitialState: PlayerState :=
    PlayerState(Stopped, 0, 0, None, [], -1, InitialVolume, false, false)

  /** A `Partial<PlayerState>`: the fields an update replaces. */
  datatype StatePatch = StatePatch(
    status: Option<Status>,
    currentTimeMs: Option<nat>,
    durationMs: Option<nat>,
    currentTrack: Option<Option<Track>>,
    queue: Option<seq<Track>>,
    queueIndex: Option<int>,
    volume: Option<real>,
    muted: Option<bool>,
    analyserAttached: Option<bool>)

  const NoChange: StatePatch := StatePatch(None, None, None, None, None, None, None, None, None)

  /** `{ ...state, ...patch }`: a field named in the patch takes the patch's
      value, every other field keeps its value. */
  function Merge(s: PlayerState, p: StatePatch): (r: PlayerState)
    ensures r.status == if p.status.Some? then p.status.value else s.status
    ensures r.currentTimeMs == if p.currentTimeMs.Some? then p.currentTimeMs.value else s.currentTimeMs
    ensures r.durationMs == if p.durationMs.Some? then p.durationMs.value else s.durationMs
    ensures r.currentTrack == if p.currentTrack.Some? then p.currentTrack.value else s.currentTrack
    ensures r.queue == if p.queue.Some? then p.queue.value else s.queue
    ensures r.queueIndex == if p.queueIndex.Some? then p.queueIndex.value else s.queueIndex
    ensures r.volume == if p.volume.Some? then p.volume.value else s.volume
    ensures r.muted == if p.muted.Some? then p.muted.value else s.muted
    ensures r.analyserAttached == if p.analyserAttached.Some? then p.analyserAttached.value else s.analyserAttached
  {
    PlayerState(
      status := p.status.GetOr(s.status),
      currentTimeMs := p.currentTimeMs.GetOr(s.currentTimeMs),
      durationMs := p.durationMs.GetOr(s.durationMs),
      currentTrack := p.currentTrack.GetOr(s.currentTrack),
      queue := p.queue.GetOr(s.queue),
      queueIndex := p.queueIndex.GetOr(s.queueIndex),
      volume := p.volume.GetOr(s.volume),
      muted := p.muted.GetOr(s.muted),
      analyserAttached := p.analyserAttached.GetOr(s.analyserAttached))
  }

  /** An update that names no field leaves the state as it was. */
  lemma MergeNoChange(s: PlayerState)
    ensures Merge(s, NoChange) == s
  {
  }

  /** What the controller writes to, or asks of, the audio element. */
  datatype DeviceCommand =
    | SetSource(url: string)
    | LoadSource
    | StartPlayback
    | PausePlayback
    | SeekTo(ms: int)
    | SetDeviceVolume(volume: real)
    | SetDeviceMuted(muted: bool)

  datatype ErrorKind = PlaybackError | LoadError(cause: Registry.LoadFailure) | PlayError

  datatype PlayerEvent = StateChanged(state: PlayerState) | ErrorEvent(kind: ErrorKind)

  /** Everything observable about a controller. */
  datatype Machine = Machine(
    state: PlayerState,
    graphEngaged: bool,
    device: seq<DeviceCommand>,
    events: seq<PlayerEvent>)

  /** A new controller: the initial state, no audio graph, and the initial
      volume written to the device. */
  const Initial: Machine := Machine(InitialState, false, [SetDeviceVolume(InitialVolume)], [])

  /** `Math.max(0, Math.min(1, v))`. */
  function Clamp(v: real): (r: real)
    ensures 0.0 <= r <= 1.0
    ensures 0.0 <= v <= 1.0 ==> r == v
    ensures v < 0.0 ==> r == 0.0
    ensures v > 1.0 ==> r == 1.0
  {
    var upper := if v < 1.0 then v else 1.0;
    if upper > 0.0 then upper else 0.0
  }

  /** `updateState`: merge, then broadcast the whole new snapshot. */
  function UpdateStateStep(m: Machine, p: StatePatch): Machine {
    var s := Merge(m.state, p);
    m.(state := s, events := m.events + [StateChanged(s)])
  }

  function EmitError(m: Machine, kind: ErrorKind): Machine {
    m.(events := m.events + [ErrorEvent(kind)])
  }

  function Command(m: Machine, c: DeviceCommand): Machine {
    m.(device := m.device + [c])
  }

  /** `initializeAudioContext`: builds the audio graph once and publishes the analyser. */
  function InitializeAudioContextStep(m: Machine): Machine {
    if m.graphEngaged then m
    else UpdateStateStep(m.(graphEngaged := true), NoChange.(analyserAttached := Some(true)))
  }

  /** `loadTrack(index)`. */
  function LoadTrackStep(m: Machine, providers: map<string, Registry.Provider>, index: int): Machine {
    if index < 0 || index >= |m.state.queue| then m
    else
      var track := m.state.queue[index];
      var m1 := UpdateStateStep(m, NoChange.(currentTrack := Some(Some(track)), queueIndex := Some(index),
                                             currentTimeMs := Some(0)));
      match Registry.ResolveSource(providers, track)
      case Err(cause) => EmitError(m1, LoadError(cause))
      case Ok(src) =>
        InitializeAudioContextStep(Command(Command(m1, SetSource(src.url)), LoadSource))
  }

  /** `loadQueue(tracks)`. */
  function LoadQueueStep(m: Machine, providers: map<string, Registry.Provider>, tracks: seq<Track>): Machine {
    var m1 := UpdateStateStep(m, NoChange.(queue := Some(tracks), queueIndex := Some(if |tracks| > 0 then 0 else -1)));
    if |tracks| > 0 then LoadTrackStep(m1, providers, 0) else m1
  }

  /** `play()`; `accepted` is whether the device's play request succeeded. */
  function PlayStep(m: Machine, accepted: bool): Machine {
    if m.state.status == Playing then m
    else
      var m1 := Command(m, StartPlayback);
      if accepted then m1 else EmitError(m1, PlayError)
  }

  function PauseStep(m: Machine): Machine {
    Command(m, PausePlayback)
  }

  function ToggleStep(m: Machine, accepted: bool): Machine {
    if m.state.status == Playing then PauseStep(m) else PlayStep(m, accepted)
  }

  function NextStep(m: Machine, providers: map<string, Registry.Provider>, accepted: bool): Machine {
    var nextIndex := m.state.queueIndex + 1;
    if nextIndex < |m.state.queue| then PlayStep(LoadTrackStep(m, providers, nextIndex), accepted)
    else UpdateStateStep(m, NoChange.(status := Some(Stopped)))
  }

  function SeekStep(m: Machine, ms: int): Machine {
    Command(m, SeekTo(ms))
  }

  function PreviousStep(m: Machine, providers: map<string, Registry.Provider>, accepted: bool): Machine {
    if m.state.currentTimeMs > RestartThresholdMs then SeekStep(m, 0)
    else
      var prevIndex := m.state.queueIndex - 1;
      if prevIndex >= 0 then PlayStep(LoadTrackStep(m, providers, prevIndex), accepted)
      else m
  }

  function SetVolumeStep(m: Machine, v: real): Machine {
    var clamped := Clamp(v);
    UpdateStateStep(Command(m, SetDeviceVolume(clamped)), NoChange.(volume := Some(clamped)))
  }

  function SetMutedStep(m: Machine, muted: bool): Machine {
    UpdateStateStep(Command(m, SetDeviceMuted(muted)), NoChange.(muted := Some(muted)))
  }

  /** The device's `error` event: stop and report a playback error. */
  function DeviceErrorStep(m: Machine): Machine {
    EmitError(UpdateStateStep(m, NoChange.(status := Some(Stopped))), PlaybackError)
  }

  /** Everything that can happen to a controller: the public operations and
      the device's events. */
  datatype Input =
    | LoadQueue(tracks: seq<Track>)
    | Play(accepted: bool)
    | Pause
    | Toggle(accepted: bool)
    | Next(accepted: bool)
    | Previous(accepted: bool)
    | Seek(targetMs: int)
    | SetVolume(volume: real)
    | SetMuted(muted: bool)
    | DevicePlay
    | DevicePause
    | DeviceEnded(accepted: bool)
    | DeviceError
    | DeviceTimeUpdate(timeMs: nat)
    | DeviceMetadataLoaded(durationMs: nat)

  function Step(m: Machine, providers: map<string, Registry.Provider>, input: Input): Machine {
    match input
    case LoadQueue(tracks) => LoadQueueStep(m, providers, tracks)
    case Play(accepted) => PlayStep(m, accepted)
    case Pause => PauseStep(m)
    case Toggle(accepted) => ToggleStep(m, accepted)
    case Next(accepted) => NextStep(m, providers, accepted)
    case Previous(accepted) => PreviousStep(m, providers, accepted)
    case Seek(ms) => SeekStep(m, ms)
    case SetVolume(v) => SetVolumeStep(m, v)
    case SetMuted(b) => SetMutedStep(m, b)
    case DevicePlay => UpdateStateStep(m, NoChange.(status := Some(Playing)))
    case DevicePause => UpdateStateStep(m, NoChange.(status := Some(Paused)))
    case DeviceEnded(accepted) => NextStep(m, providers, accepted)
    case DeviceError => DeviceErrorStep(m)
    case DeviceTimeUpdate(ms) => UpdateStateStep(m, NoChange.(currentTimeMs := Some(ms)))
    case DeviceMetadataLoaded(ms) => UpdateStateStep(m, NoChange.(durationMs := Some(ms)))
  }

  function Run(m: Machine, providers: map<string, Registry.Provider>, inputs: seq<Input>): Machine
    decreases |inputs|
  {
    if inputs == [] then m else Run(Step(m, providers, inputs[0]), providers, inputs[1..])
  }

  /** The queue position and the current track agree, and the volume is in range. */
  ghost predicate Consistent(s: PlayerState) {
    && -1 <= s.queueIndex < |s.queue|
    && (s.queueIndex == -1 <==> s.queue == [])
    && (s.queueIndex >= 0 ==> s.currentTrack == Some(s.queue[s.queueIndex]))
    && 0.0 <= s.volume <= 1.0
  }

  ghost predicate Invariant(m: Machine) {
    Consistent(m.state) && m.state.analyserAttached == m.graphEngaged
  }

  lemma InitialInvariant()
    ensures Invariant(Initial)
    ensures Initial.state.status == Stopped && Initial.state.queueIndex == -1
    ensures Initial.state.currentTrack == None && Initial.state.volume == 0.7
  {
  }

  /** Loading an in-range track makes it current at time 0 and keeps the invariant. */
  lemma LoadTrackInRange(m: Machine, providers: map<string, Registry.Provider>, index: int)
    requires 0 <= index < |m.state.queue|
    requires 0.0 <= m.state.volume <= 1.0 && m.state.analyserAttached == m.graphEngaged
    ensures var r := LoadTrackStep(m, providers, index);
            && Invariant(r)
            && r.state.queue == m.state.queue && r.state.queueIndex == index
            && r.state.currentTrack == Some(m.state.queue[index]) && r.state.currentTimeMs == 0
            && r.state.status == m.state.status && r.state.volume == m.state.volume
  {
  }

  /** An update that leaves the queue, the position, the current track and
      the analyser alone, and stores an in-range volume if any, keeps the invariant. */
  lemma UpdateKeepsInvariant(m: Machine, p: StatePatch)
    requires Invariant(m)
    requires p.queue.None? && p.queueIndex.None? && p.currentTrack.None? && p.analyserAttached.None?
    requires p.volume.Some? ==> 0.0 <= p.volume.value <= 1.0
    ensures Invariant(UpdateStateStep(m, p))
  {
  }

  /** A device command alone keeps the invariant. */
  lemma CommandKeepsInvariant(m: Machine, c: DeviceCommand)
    requires Invariant(m)
    ensures Invariant(Command(m, c))
  {
  }

  /** Every input keeps the invariant. */
  lemma StepKeepsInvariant(m: Machine, providers: map<string, Registry.Provider>, input: Input)
    requires Invariant(m)
    ensures Invariant(Step(m, providers, input))
  {
    if Loads(input) {
      LoadingStepKeepsInvariant(m, providers, input);
    } else {
      LocalStepKeepsInvariant(m, providers, input);
    }
  }

  /** The inputs that may load a track through the registry. */
  predicate Loads(input: Input) {
    input.LoadQueue? || input.Next? || input.DeviceEnded? || input.Previous?
  }

  lemma LoadingStepKeepsInvariant(m: Machine, providers: map<string, Registry.Provider>, input: Input)
    requires Invariant(m) && Loads(input)
    ensures Invariant(Step(m, providers, input))
  {
    match input {
      case LoadQueue(tracks) =>
        LoadQueueKeepsInvariant(m, providers, tracks);
      case Next(accepted) =>
        NextKeepsInvariant(m, providers, accepted);
      case DeviceEnded(accepted) =>
        NextKeepsInvariant(m, providers, accepted);
      case Previous(accepted) =>
        PreviousKeepsInvariant(m, providers, accepted);
    }
  }

  lemma LocalStepKeepsInvariant(m: Machine, providers: map<string, Registry.Provider>, input: Input)
    requires Invariant(m) && !Loads(input)
    ensures Invariant(Step(m, providers, input))
  {
    match input {
      case Play(accepted) =>
        PlayKeepsInvariant(m, accepted);
      case Pause =>
        CommandKeepsInvariant(m, PausePlayback);
      case Toggle(accepted) =>
        PlayKeepsInvariant(m, accepted);
        CommandKeepsInvariant(m, PausePlayback);
      case Seek(ms) =>
        CommandKeepsInvariant(m, SeekTo(ms));
      case SetVolume(v) =>
        CommandKeepsInvariant(m, SetDeviceVolume(Clamp(v)));
        UpdateKeepsInvariant(Command(m, SetDeviceVolume(Clamp(v))), NoChange.(volume := Some(Clamp(v))));
      case SetMuted(b) =>
        CommandKeepsInvariant(m, SetDeviceMuted(b));
        UpdateKeepsInvariant(Command(m, SetDeviceMuted(b)), NoChange.(muted := Some(b)));
      case DevicePlay =>
        UpdateKeepsInvariant(m, NoChange.(status := Some(Playing)));
      case DevicePause =>
        UpdateKeepsInvariant(m, NoChange.(status := Some(Paused)));
      case DeviceError =>
        UpdateKeepsInvariant(m, NoChange.(status := Some(Stopped)));
      case DeviceTimeUpdate(ms) =>
        UpdateKeepsInvariant(m, NoChange.(currentTimeMs := Some(ms)));
      case DeviceMetadataLoaded(ms) =>
        UpdateKeepsInvariant(m, NoChange.(durationMs := Some(ms)));
    }
  }

  lemma PlayKeepsInvariant(m: Machine, accepted: bool)
    requires Invariant(m)
    ensures Invariant(PlayStep(m, accepted))
  {
  }

  lemma LoadQueueKeepsInvariant(m: Machine, providers: map<string, Registry.Provider>, tracks: seq<Track>)
    requires Invariant(m)
    ensures Invariant(LoadQueueStep(m, providers, tracks))
  {
    var m1 := UpdateStateStep(m, NoChange.(queue := Some(tracks), queueIndex := Some(if |tracks| > 0 then 0 else -1)));
    if |tracks| > 0 {
      LoadTrackInRange(m1, providers, 0);
      assert LoadQueueStep(m, providers, tracks) == LoadTrackStep(m1, providers, 0);
    } else {
      assert LoadQueueStep(m, providers, tracks) == m1;
    }
  }

  /** Loading an in-range track and then playing it keeps the invariant. */
  lemma LoadThenPlayKeepsInvariant(m: Machine, providers: map<string, Registry.Provider>, index: int, accepted: bool)
    requires Invariant(m) && 0 <= index < |m.state.queue|
    ensures Invariant(PlayStep(LoadTrackStep(m, providers, index), accepted))
  {
    var loaded := LoadTrackStep(m, providers, index);
    LoadTrackInRange(m, providers, index);
    PlayKeepsInvariant(loaded, accepted);
  }

  lemma PreviousKeepsInvariant(m: Machine, providers: map<string, Registry.Provider>, accepted: bool)
    requires Invariant(m)
    ensures Invariant(PreviousStep(m, providers, accepted))
  {
    if m.state.currentTimeMs > RestartThresholdMs {
      assert PreviousStep(m, providers, accepted) == Command(m, SeekTo(0));
      CommandKeepsInvariant(m, SeekTo(0));
    } else {
      PreviousNearStartKeepsInvariant(m, providers, accepted);
    }
  }

  lemma PreviousNearStartKeepsInvariant(m: Machine, providers: map<string, Registry.Provider>, accepted: bool)
    requires Invariant(m) && m.state.currentTimeMs <= RestartThresholdMs
    ensures Invariant(PreviousStep(m, providers, accepted))
  {
    var prevIndex := m.state.queueIndex - 1;
    if prevIndex >= 0 {
      assert PreviousStep(m, providers, accepted) == PlayStep(LoadTrackStep(m, providers, prevIndex), accepted);
      LoadThenPlayKeepsInvariant(m, providers, prevIndex, accepted);
    } else {
      assert PreviousStep(m, providers, accepted) == m;
    }
  }

  lemma NextKeepsInvariant(m: Machine, providers: map<string, Registry.Provider>, accepted: bool)
    requires Invariant(m)
    ensures Invariant(NextStep(m, providers, accepted))
  {
    var nextIndex := m.state.queueIndex + 1;
    if nextIndex < |m.state.queue| {
      assert NextStep(m, providers, accepted) == PlayStep(LoadTrackStep(m, providers, nextIndex), accepted);
      LoadThenPlayKeepsInvariant(m, providers, nextIndex, accepted);
    } else {
      assert NextStep(m, providers, accepted) == UpdateStateStep(m, NoChange.(status := Some(Stopped)));
      UpdateKeepsInvariant(m, NoChange.(status := Some(Stopped)));
    }
  }

  /** Any sequence of inputs keeps the invariant. */
  lemma {:induction false} RunKeepsInvariant(m: Machine, providers: map<string, Registry.Provider>, inputs: seq<Input>)
    requires Invariant(m)
    ensures Invariant(Run(m, providers, inputs))
    decreases |inputs|
  {
    if inputs != [] {
      StepKeepsInvariant(m, providers, inputs[0]);
      RunKeepsInvariant(Step(m, providers, inputs[0]), providers, inputs[1..]);
    }
  }

  /** Every update broadcasts its result: the last event is the new snapshot. */
  lemma UpdateBroadcastsSnapshot(m: Machine, p: StatePatch)
    ensures var r := UpdateStateStep(m, p);
            |r.events| == |m.events| + 1 && r.events[|m.events|] == StateChanged(r.state)
            && r.events[..|m.events|] == m.events
  {
  }

  /** After `loadQueue(tracks)` the queue is `tracks`, the position is 0 (or
      -1 for an empty queue), the first track is current at time 0 even if
      its source could not be resolved, and playback has not been started. */
  lemma LoadQueueLoadsFirst(m: Machine, providers: map<string, Registry.Provider>, tracks: seq<Track>)
    ensures var r := LoadQueueStep(m, providers, tracks);
            && r.state.queue == tracks
            && r.state.queueIndex == (if |tracks| > 0 then 0 else -1)
            && (|tracks| > 0 ==> r.state.currentTrack == Some(tracks[0]) && r.state.currentTimeMs == 0)
            && r.state.status == m.state.status
            && r.device[..|m.device|] == m.device
            && StartPlayback !in r.device[|m.device|..]
  {
    var r := LoadQueueStep(m, providers, tracks);
    if |tracks| > 0 {
      var m1 := UpdateStateStep(m, NoChange.(queue := Some(tracks), queueIndex := Some(0)));
      var track := tracks[0];
      var m2 := UpdateStateStep(m1, NoChange.(currentTrack := Some(Some(track)), queueIndex := Some(0),
                                               currentTimeMs := Some(0)));
      match Registry.ResolveSource(providers, track)
      case Err(cause) =>
        assert r.device == m.device;
      case Ok(src) =>
        assert r.device == m.device + [SetSource(src.url), LoadSource];
    } else {
      assert r.device == m.device;
    }
  }

  /** `loadTrack` with an index outside the queue changes nothing. */
  lemma LoadTrackOutOfRange(m: Machine, providers: map<string, Registry.Provider>, index: int)
    requires index < 0 || index >= |m.state.queue|
    ensures LoadTrackStep(m, providers, index) == m
  {
  }

  /** A track whose source cannot be resolved is still made current, a load
      error naming the cause is emitted last, and the transport status and
      the device are left alone. */
  lemma LoadTrackFailure(m: Machine, providers: map<string, Registry.Provider>, index: int)
    requires 0 <= index < |m.state.queue|
    requires Registry.ResolveSource(providers, m.state.queue[index]).Err?
    ensures var r := LoadTrackStep(m, providers, index);
            && r.state.status == m.state.status
            && r.state.currentTrack == Some(m.state.queue[index]) && r.state.queueIndex == index
            && r.device == m.device && r.graphEngaged == m.graphEngaged
            && r.events[|r.events| - 1]
               == ErrorEvent(LoadError(Registry.ResolveSource(providers, m.state.queue[index]).error))
  {
  }

  /** A resolved track's URL is handed to the device and loaded, and the audio
      graph exists afterwards. */
  lemma LoadTrackSuccess(m: Machine, providers: map<string, Registry.Provider>, index: int)
    requires 0 <= index < |m.state.queue| && m.state.analyserAttached == m.graphEngaged
    requires Registry.ResolveSource(providers, m.state.queue[index]).Ok?
    ensures var r := LoadTrackStep(m, providers, index);
            var url := Registry.ResolveSource(providers, m.state.queue[index]).value.url;
            && r.device == m.device + [SetSource(url), LoadSource]
            && r.graphEngaged && r.state.analyserAttached
            && r.state.status == m.state.status
  {
  }

  /** `play` never changes the state: while playing it does nothing at all,
      otherwise it asks the device to start and reports a refusal. */
  lemma PlayLeavesState(m: Machine, accepted: bool)
    ensures PlayStep(m, accepted).state == m.state
    ensures m.state.status == Playing ==> PlayStep(m, accepted) == m
    ensures m.state.status != Playing ==>
              PlayStep(m, accepted).device == m.device + [StartPlayback]
              && (accepted <==> PlayStep(m, accepted).events == m.events)
              && PlayStep(m, accepted).events == m.events + (if accepted then [] else [ErrorEvent(PlayError)])
  {
  }

  /** Only the device's own `play` event puts the controller into `playing`. */
  lemma OnlyDevicePlayStartsPlaying(m: Machine, providers: map<string, Registry.Provider>, input: Input)
    requires input != DevicePlay
    requires Step(m, providers, input).state.status == Playing
    ensures m.state.status == Playing
  {
    match input
    case LoadQueue(tracks) =>
      if |tracks| > 0 {
        var m1 := UpdateStateStep(m, NoChange.(queue := Some(tracks), queueIndex := Some(0)));
        LoadTrackKeepsStatus(m1, providers, 0);
      }
    case Next(accepted) =>
      LoadTrackKeepsStatus(m, providers, m.state.queueIndex + 1);
    case DeviceEnded(accepted) =>
      LoadTrackKeepsStatus(m, providers, m.state.queueIndex + 1);
    case Previous(accepted) =>
      LoadTrackKeepsStatus(m, providers, m.state.queueIndex - 1);
    case _ =>
  }

  lemma LoadTrackKeepsStatus(m: Machine, providers: map<string, Registry.Provider>, index: int)
    ensures LoadTrackStep(m, providers, index).state.status == m.state.status
  {
  }

  /** The device's `play` event plays, its `pause` event pauses, and its
      `error` event stops and reports a playback error. */
  lemma DeviceEvents(m: Machine, providers: map<string, Registry.Provider>)
    ensures Step(m, providers, DevicePause).state.status == Paused
    ensures Step(m, providers, DevicePlay).state.status == Playing
    ensures var r := Step(m, providers, DeviceError);
            r.state.status == Stopped && r.events[|r.events| - 1] == ErrorEvent(PlaybackError)
  {
  }

  /** The device's `ended` event does exactly what `next` does. */
  lemma EndedIsNext(m: Machine, providers: map<string, Registry.Provider>, accepted: bool)
    ensures Step(m, providers, DeviceEnded(accepted)) == Step(m, providers, Next(accepted))
  {
    assert Step(m, providers, DeviceEnded(accepted)) == NextStep(m, providers, accepted);
    assert Step(m, providers, Next(accepted)) == NextStep(m, providers, accepted);
  }

  /** `toggle` pauses a playing controller and otherwise plays. */
  lemma ToggleChoosesByStatus(m: Machine, accepted: bool)
    ensures m.state.status == Playing ==>
              ToggleStep(m, accepted) == m.(device := m.device + [PausePlayback])
    ensures m.state.status != Playing ==> ToggleStep(m, accepted) == PlayStep(m, accepted)
  {
  }

  /** At the end of the queue (or on an empty queue) `next` stops and keeps
      the queue, the position and the current track. */
  lemma NextAtEndStops(m: Machine, providers: map<string, Registry.Provider>, accepted: bool)
    requires Invariant(m)
    requires m.state.queueIndex == |m.state.queue| - 1
    ensures var r := NextStep(m, providers, accepted);
            && r.state.status == Stopped
            && r.state.queueIndex == m.state.queueIndex
            && r.state.currentTrack == m.state.currentTrack
            && r.state.queue == m.state.queue
  {
  }

  /** Before the end of the queue `next` moves one track forward, at time 0. */
  lemma NextAdvances(m: Machine, providers: map<string, Registry.Provider>, accepted: bool)
    requires Invariant(m)
    requires m.state.queueIndex < |m.state.queue| - 1
    ensures var r := NextStep(m, providers, accepted);
            && r.state.queueIndex == m.state.queueIndex + 1
            && r.state.currentTrack == Some(m.state.queue[m.state.queueIndex + 1])
            && r.state.currentTimeMs == 0
            && r.state.queue == m.state.queue
  {
    var loaded := LoadTrackStep(m, providers, m.state.queueIndex + 1);
    LoadTrackInRange(m, providers, m.state.queueIndex + 1);
    PlayLeavesState(loaded, accepted);
  }

  /** More than three seconds in, `previous` only rewinds the device to 0. */
  lemma PreviousRestarts(m: Machine, providers: map<string, Registry.Provider>, accepted: bool)
    requires m.state.currentTimeMs > 3000
    ensures PreviousStep(m, providers, accepted) == m.(device := m.device + [SeekTo(0)])
  {
  }

  /** Within three seconds, `previous` moves one track back, and does nothing
      at the head of the queue. */
  lemma PreviousGoesBack(m: Machine, providers: map<string, Registry.Provider>, accepted: bool)
    requires Invariant(m)
    requires m.state.currentTimeMs <= 3000
    ensures var r := PreviousStep(m, providers, accepted);
            if m.state.queueIndex > 0 then
              && r.state.queueIndex == m.state.queueIndex - 1
              && r.state.currentTrack == Some(m.state.queue[m.state.queueIndex - 1])
              && r.state.currentTimeMs == 0
            else r == m
  {
    if m.state.queueIndex > 0 {
      var loaded := LoadTrackStep(m, providers, m.state.queueIndex - 1);
      LoadTrackInRange(m, providers, m.state.queueIndex - 1);
      PlayLeavesState(loaded, accepted);
    }
  }

  /** `setVolume(v)` stores and sends the clamped volume: `v` itself when it
      is already in [0, 1], otherwise the nearer bound. */
  lemma SetVolumeClamps(m: Machine, v: real)
    ensures var r := SetVolumeStep(m, v);
            && 0.0 <= r.state.volume <= 1.0
            && r.state.volume == Clamp(v)
            && (0.0 <= v <= 1.0 ==> r.state.volume == v)
            && (v < 0.0 ==> r.state.volume == 0.0) && (v > 1.0 ==> r.state.volume == 1.0)
            && r.device == m.device + [SetDeviceVolume(r.state.volume)]
            && r.state == m.state.(volume := r.state.volume)
  {
  }

  /** A second `initializeAudioContext` is a no-op: once the graph is built,
      the call changes nothing and broadcasts nothing. */
  lemma GraphBuiltOnce(m: Machine)
    requires m.graphEngaged
    ensures InitializeAudioContextStep(m) == m
  {
  }

  /** Loading a track never tears the audio graph down. */
  lemma LoadTrackKeepsGraph(m: Machine, providers: map<string, Registry.Provider>, index: int)
    requires m.graphEngaged
    ensures LoadTrackStep(m, providers, index).graphEngaged
  {
  }

  /** No input tears the audio graph down. */
  lemma StepKeepsGraph(m: Machine, providers: map<string, Registry.Provider>, input: Input)
    requires m.graphEngaged
    ensures Step(m, providers, input).graphEngaged
  {
    match input {
      case LoadQueue(tracks) =>
        var m1 := UpdateStateStep(m, NoChange.(queue := Some(tracks), queueIndex := Some(if |tracks| > 0 then 0 else -1)));
        LoadTrackKeepsGraph(m1, providers, 0);
      case Next(accepted) =>
        LoadTrackKeepsGraph(m, providers, m.state.queueIndex + 1);
      case DeviceEnded(accepted) =>
        LoadTrackKeepsGraph(m, providers, m.state.queueIndex + 1);
      case Previous(accepted) =>
        LoadTrackKeepsGraph(m, providers, m.state.queueIndex - 1);
      case _ =>
    }
  }

  /** Once built, the audio graph stays built through any sequence of inputs,
      and every later `initializeAudioContext` is a no-op: the graph is built,
      and the analyser published, at most once in a controller's lifetime. */
  lemma {:induction false} RunKeepsGraph(m: Machine, providers: map<string, Registry.Provider>, inputs: seq<Input>)
    requires m.graphEngaged
    ensures var r := Run(m, providers, inputs);
            r.graphEngaged && InitializeAudioContextStep(r) == r
    decreases |inputs|
  {
    if inputs != [] {
      StepKeepsGraph(m, providers, inputs[0]);
      RunKeepsGraph(Step(m, providers, inputs[0]), providers, inputs[1..]);
    }
  }

  /** Loading a track only appends to the device and to the events, and it
      never asks the device to start playing. */
  lemma LoadTrackAppends(m: Machine, providers: map<string, Registry.Provider>, index: int)
    ensures var r := LoadTrackStep(m, providers, index);
            && |m.device| <= |r.device| && r.device[..|m.device|] == m.device
            && StartPlayback !in r.device[|m.device|..]
            && |m.events| <= |r.events| && r.events[..|m.events|] == m.events
  {
    var r := LoadTrackStep(m, providers, index);
    if 0 <= index < |m.state.queue| {
      var track := m.state.queue[index];
      var m1 := UpdateStateStep(m, NoChange.(currentTrack := Some(Some(track)), queueIndex := Some(index),
                                             currentTimeMs := Some(0)));
      assert m1.events[..|m.events|] == m.events;
      match Registry.ResolveSource(providers, track)
      case Err(cause) =>
        assert r.device == m.device;
        assert r.events == m1.events + [ErrorEvent(LoadError(cause))];
      case Ok(src) =>
        var m2 := Command(Command(m1, SetSource(src.url)), LoadSource);
        assert m2.device == m.device + [SetSource(src.url), LoadSource];
        assert r.device == m2.device;
        assert r.device[|m.device|..] == [SetSource(src.url), LoadSource];
        assert r.events == m1.events || r.events == m1.events + [StateChanged(r.state)];
    }
  }

  /** `next` while playing loads the following track but sends no start
      request: loading keeps the status at playing, so `play` returns at once. */
  lemma NextWhilePlayingSendsNoStart(m: Machine, providers: map<string, Registry.Provider>, accepted: bool)
    requires Invariant(m) && m.state.status == Playing
    requires m.state.queueIndex < |m.state.queue| - 1
    ensures var r := NextStep(m, providers, accepted);
            && r.state.currentTrack == Some(m.state.queue[m.state.queueIndex + 1])
            && r.state.status == Playing
            && r.device[..|m.device|] == m.device && StartPlayback !in r.device[|m.device|..]
  {
    var index := m.state.queueIndex + 1;
    var loaded := LoadTrackStep(m, providers, index);
    LoadTrackKeepsStatus(m, providers, index);
    PlayLeavesState(loaded, accepted);
    assert NextStep(m, providers, accepted) == PlayStep(loaded, accepted) == loaded;
    LoadTrackInRange(m, providers, index);
    LoadTrackAppends(m, providers, index);
  }

  /** `previous` while playing, near the start of a track that is not the
      first, likewise loads the preceding track without a start request. */
  lemma PreviousWhilePlayingSendsNoStart(m: Machine, providers: map<string, Registry.Provider>, accepted: bool)
    requires Invariant(m) && m.state.status == Playing
    requires m.state.currentTimeMs <= RestartThresholdMs && m.state.queueIndex > 0
    ensures var r := PreviousStep(m, providers, accepted);
            && r.state.currentTrack == Some(m.state.queue[m.state.queueIndex - 1])
            && r.state.status == Playing
            && r.device[..|m.device|] == m.device && StartPlayback !in r.device[|m.device|..]
  {
    var index := m.state.queueIndex - 1;
    var loaded := LoadTrackStep(m, providers, index);
    LoadTrackKeepsStatus(m, providers, index);
    PlayLeavesState(loaded, accepted);
    assert PreviousStep(m, providers, accepted) == PlayStep(loaded, accepted) == loaded;
    LoadTrackInRange(m, providers, index);
    LoadTrackAppends(m, providers, index);
  }

  /** `next` while not playing loads the following track and then asks the
      device to start it; a refusal is reported as a play error. */
  lemma NextWhenNotPlayingStarts(m: Machine, providers: map<string, Registry.Provider>, accepted: bool)
    requires Invariant(m) && m.state.status != Playing
    requires m.state.queueIndex < |m.state.queue| - 1
    ensures var r := NextStep(m, providers, accepted);
            && r.state.currentTrack == Some(m.state.queue[m.state.queueIndex + 1])
            && r.state.status == m.state.status
            && |m.device| < |r.device| && r.device[..|m.device|] == m.device
            && r.device[|r.device| - 1] == StartPlayback
            && (!accepted ==> r.events[|r.events| - 1] == ErrorEvent(PlayError))
  {
    var index := m.state.queueIndex + 1;
    var loaded := LoadTrackStep(m, providers, index);
    LoadTrackKeepsStatus(m, providers, index);
    assert NextStep(m, providers, accepted) == PlayStep(loaded, accepted);
    PlayLeavesState(loaded, accepted);
    LoadTrackInRange(m, providers, index);
    LoadTrackAppends(m, providers, index);
  }

  /** `previous` while not playing, near the start of a track that is not the
      first, loads the preceding track and asks the device to start it. */
  lemma PreviousWhenNotPlayingStarts(m: Machine, providers: map<string, Registry.Provider>, accepted: bool)
    requires Invariant(m) && m.state.status != Playing
    requires m.state.currentTimeMs <= RestartThresholdMs && m.state.queueIndex > 0
    ensures var r := PreviousStep(m, providers, accepted);
            && r.state.currentTrack == Some(m.state.queue[m.state.queueIndex - 1])
            && r.state.status == m.state.status
            && |m.device| < |r.device| && r.device[..|m.device|] == m.device
            && r.device[|r.device| - 1] == StartPlayback
            && (!accepted ==> r.events[|r.events| - 1] == ErrorEvent(PlayError))
  {
    var index := m.state.queueIndex - 1;
    var loaded := LoadTrackStep(m, providers, index);
    LoadTrackKeepsStatus(m, providers, index);
    assert PreviousStep(m, providers, accepted) == PlayStep(loaded, accepted);
    PlayLeavesState(loaded, accepted);
    LoadTrackInRange(m, providers, index);
    LoadTrackAppends(m, providers, index);
  }

  /** `loadQueue` first broadcasts a snapshot holding the new queue and
      position 0 next to the previous current track. Unless that track happens
      to be the new queue's first, subscribers see an inconsistent snapshot. */
  lemma LoadQueueBroadcastsIntermediate(m: Machine, providers: map<string, Registry.Provider>, tracks: seq<Track>)
    requires |tracks| > 0
    ensures var r := LoadQueueStep(m, providers, tracks);
            && |r.events| > |m.events| && r.events[|m.events|].StateChanged?
            && var s := r.events[|m.events|].state;
               && s.queue == tracks && s.queueIndex == 0 && s.currentTrack == m.state.currentTrack
               && (m.state.currentTrack != Some(tracks[0]) ==> !Consistent(s))
  {
    var m1 := UpdateStateStep(m, NoChange.(queue := Some(tracks), queueIndex := Some(0)));
    UpdateBroadcastsSnapshot(m, NoChange.(queue := Some(tracks), queueIndex := Some(0)));
    LoadTrackAppends(m1, providers, 0);
    var r := LoadTrackStep(m1, providers, 0);
    assert LoadQueueStep(m, providers, tracks) == r;
    assert r.events[|m.events|] == r.events[..|m1.events|][|m.events|] == m1.events[|m.events|];
  }

  /** When the first track's source resolves, `loadQueue` hands its URL to
      the device and loads it, and nothing else reaches the device. */
  lemma LoadQueueSendsFirstSource(m: Machine, providers: map<string, Registry.Provider>, tracks: seq<Track>)
    requires |tracks| > 0 && Registry.ResolveSource(providers, tracks[0]).Ok?
    ensures var r := LoadQueueStep(m, providers, tracks);
            && r.device == m.device + [SetSource(Registry.ResolveSource(providers, tracks[0]).value.url), LoadSource]
            && r.state.currentTrack == Some(tracks[0])
            && r.state.status == m.state.status
  {
    var m1 := UpdateStateStep(m, NoChange.(queue := Some(tracks), queueIndex := Some(0)));
    assert m1.state.queue[0] == tracks[0];
  }

  /** Loading the tracks resolved from local paths makes the first one
      current and hands the device the `file://` URL of the first path. */
  lemma LocalQueueLoadsFirstFile(m: Machine, providers: map<string, Registry.Provider>, paths: seq<string>)
    requires Registry.KeyedById(providers) && LocalFiles.Id in providers && |paths| > 0
    ensures var r := LoadQueueStep(m, providers, LocalFiles.ResolveFromLocalPaths(paths));
            && r.device == m.device + [SetSource(LocalFiles.FileScheme + paths[0]), LoadSource]
            && r.state.currentTrack == Some(LocalFiles.ResolvePath(paths[0]))
  {
    var tracks := LocalFiles.ResolveFromLocalPaths(paths);
    assert tracks[0] == LocalFiles.ResolvePath(paths[0]);
    Registry.LocalTrackPlaysFile(providers, paths[0]);
    LoadQueueSendsFirstSource(m, providers, tracks);
  }

  /** The controller object. */
  class PlayerController {
    /** The registry the controller routes tracks through. */
    const registry: Registry.ProviderRegistry
    var state: PlayerState
    /** Whether the audio graph (context, analyser, gain) has been built. */
    var graphEngaged: bool
    var device: seq<DeviceCommand>
    var events: seq<PlayerEvent>

    function Snapshot(): Machine
      reads this
    {
      Machine(state, graphEngaged, device, events)
    }

    ghost predicate Valid()
      reads this
    {
      Invariant(Snapshot())
    }

    constructor(registry: Registry.ProviderRegistry)
      ensures this.registry == registry
      ensures Snapshot() == Initial && Valid()
    {
      this.registry := registry;
      state := InitialState;
      graphEngaged := false;
      events := [];
      device := [SetDeviceVolume(InitialVolume)];
    }

    method UpdateState(p: StatePatch)
      modifies this
      ensures Snapshot() == UpdateStateStep(old(Snapshot()), p)
    {
      state := Merge(state, p);
      events := events + [StateChanged(state)];
    }

    method InitializeAudioContext()
      modifies this
      ensures Snapshot() == InitializeAudioContextStep(old(Snapshot()))
    {
      if graphEngaged {
        return;
      }
      graphEngaged := true;
      UpdateState(NoChange.(analyserAttached := Some(true)));
    }

    method LoadTrack(index: int)
      requires registry.Valid()
      modifies this
      ensures Snapshot() == LoadTrackStep(old(Snapshot()), registry.providers, index)
    {
      if index < 0 || index >= |state.queue| {
        return;
      }
      var track := state.queue[index];
      UpdateState(NoChange.(currentTrack := Some(Some(track)), queueIndex := Some(index), currentTimeMs := Some(0)));
      ghost var m1 := Snapshot();
      var provider := registry.GetProviderForDescriptor(track.id);
      assert provider == Registry.Route(registry.providers, track.id);
      if provider.Err? {
        assert Registry.ResolveSource(registry.providers, track) == Err(Registry.Routing(provider.error));
        events := events + [ErrorEvent(LoadError(Registry.Routing(provider.error)))];
        return;
      }
      var source := Registry.GetPlaybackSource(provider.value, ByTrack(track));
      if source.Err? {
        assert Registry.ResolveSource(registry.providers, track) == Err(Registry.ProviderFailed(source.error));
        events := events + [ErrorEvent(LoadError(Registry.ProviderFailed(source.error)))];
        return;
      }
      assert Registry.ResolveSource(registry.providers, track) == Ok(source.value);
      device := device + [SetSource(source.value.url), LoadSource];
      assert Snapshot() == Command(Command(m1, SetSource(source.value.url)), LoadSource);
      if !graphEngaged {
        InitializeAudioContext();
      }
    }

    method LoadQueue(tracks: seq<Track>)
      requires registry.Valid() && Valid()
      modifies this
      ensures Snapshot() == LoadQueueStep(old(Snapshot()), registry.providers, tracks) && Valid()
    {
      UpdateState(NoChange.(queue := Some(tracks), queueIndex := Some(if |tracks| > 0 then 0 else -1)));
      if |tracks| > 0 {
        LoadTrack(0);
      }
      StepKeepsInvariant(old(Snapshot()), registry.providers, Input.LoadQueue(tracks));
    }

    method Play(accepted: bool)
      requires Valid()
      modifies this
      ensures Snapshot() == PlayStep(old(Snapshot()), accepted) && Valid()
    {
      if state.status == Playing {
        return;
      }
      device := device + [StartPlayback];
      if !accepted {
        events := events + [ErrorEvent(PlayError)];
      }
    }

    method Pause()
      requires Valid()
      modifies this
      ensures Snapshot() == PauseStep(old(Snapshot())) && Valid()
    {
      device := device + [PausePlayback];
    }

    method Toggle(accepted: bool)
      requires Valid()
      modifies this
      ensures Snapshot() == ToggleStep(old(Snapshot()), accepted) && Valid()
    {
      if state.status == Playing {
        Pause();
      } else {
        Play(accepted);
      }
    }

    method Next(accepted: bool)
      requires registry.Valid() && Valid()
      modifies this
      ensures Snapshot() == NextStep(old(Snapshot()), registry.providers, accepted) && Valid()
    {
      ghost var m0 := Snapshot();
      var nextIndex := state.queueIndex + 1;
      if nextIndex < |state.queue| {
        ghost var loaded := LoadTrackStep(m0, registry.providers, nextIndex);
        LoadTrackInRange(m0, registry.providers, nextIndex);
        LoadTrack(nextIndex);
        assert Snapshot() == loaded;
        Play(accepted);
        assert NextStep(m0, registry.providers, accepted) == PlayStep(loaded, accepted);
      } else {
        UpdateState(NoChange.(status := Some(Stopped)));
      }
    }

    method Previous(accepted: bool)
      requires registry.Valid() && Valid()
      modifies this
      ensures Snapshot() == PreviousStep(old(Snapshot()), registry.providers, accepted) && Valid()
    {
      if state.currentTimeMs > RestartThresholdMs {
        Seek(0);
        return;
      }
      ghost var m0 := Snapshot();
      var prevIndex := state.queueIndex - 1;
      if prevIndex >= 0 {
        ghost var loaded := LoadTrackStep(m0, registry.providers, prevIndex);
        LoadTrackInRange(m0, registry.providers, prevIndex);
        LoadTrack(prevIndex);
        assert Snapshot() == loaded;
        Play(accepted);
        assert PreviousStep(m0, registry.providers, accepted) == PlayStep(loaded, accepted);
      }
    }

    method Seek(ms: int)
      requires Valid()
      modifies this
      ensures Snapshot() == SeekStep(old(Snapshot()), ms) && Valid()
    {
      device := device + [SeekTo(ms)];
    }

    method SetVolume(v: real)
      requires Valid()
      modifies this
      ensures Snapshot() == SetVolumeStep(old(Snapshot()), v) && Valid()
    {
      var clamped := Clamp(v);
      device := device + [SetDeviceVolume(clamped)];
      UpdateState(NoChange.(volume := Some(clamped)));
    }

    method SetMuted(muted: bool)
      requires Valid()
      modifies this
      ensures Snapshot() == SetMutedStep(old(Snapshot()), muted) && Valid()
    {
      device := device + [SetDeviceMuted(muted)];
      UpdateState(NoChange.(muted := Some(muted)));
    }

    /** The device's `play` event. */
    method OnDevicePlay()
      requires Valid()
      modifies this
      ensures Snapshot() == Step(old(Snapshot()), registry.providers, DevicePlay) && Valid()
    {
      UpdateState(NoChange.(status := Some(Playing)));
    }

    /** The device's `pause` event. */
    method OnDevicePause()
      requires Valid()
      modifies this
      ensures Snapshot() == Step(old(Snapshot()), registry.providers, DevicePause) && Valid()
    {
      UpdateState(NoChange.(status := Some(Paused)));
    }

    /** The device's `ended` event (`handleTrackEnded`). */
    method OnDeviceEnded(accepted: bool)
      requires registry.Valid() && Valid()
      modifies this
      ensures Snapshot() == Step(old(Snapshot()), registry.providers, DeviceEnded(accepted)) && Valid()
    {
      Next(accepted);
    }

    /** The device's `error` event (`handleError`). */
    method OnDeviceError()
      requires Valid()
      modifies this
      ensures Snapshot() == Step(old(Snapshot()), registry.providers, DeviceError) && Valid()
    {
      UpdateState(NoChange.(status := Some(Stopped)));
      events := events + [ErrorEvent(PlaybackError)];
    }

    /** The device's `timeupdate` event (`handleTimeUpdate`), at `ms` into the track. */
    method OnDeviceTimeUpdate(ms: nat)
      requires Valid()
      modifies this
      ensures Snapshot() == Step(old(Snapshot()), registry.providers, DeviceTimeUpdate(ms)) && Valid()
    {
      UpdateState(NoChange.(currentTimeMs := Some(ms)));
    }

    /** The device's `loadedmetadata` event (`handleMetadataLoaded`), for a track `ms` long. */
    method OnDeviceMetadataLoaded(ms: nat)
      requires Valid()
      modifies this
      ensures Snapshot() == Step(old(Snapshot()), registry.providers, DeviceMetadataLoaded(ms)) && Valid()
    {
      UpdateState(NoChange.(durationMs := Some(ms)));
    }

    /** `getState`: a copy of the snapshot, whose position and current track agree. */
    function GetState(): (s: PlayerState)
      reads this
      requires Valid()
      ensures -1 <= s.queueIndex < |s.queue|
      ensures s.queueIndex == -1 <==> s.queue == []
      ensures s.queueIndex >= 0 ==> s.currentTrack == Some(s.queue[s.queueIndex])
      ensures 0.0 <= s.volume <= 1.0
    {
      state
    }
  }
}
