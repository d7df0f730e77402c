/** The provider registry: a map from provider id to provider, in
    registration order, plus the active-provider slot. It routes a content
    descriptor to the provider that owns its scheme. */
module Registry {
  import opened Wrappers
  import opened JsString
  import opened ProviderTypes
  import LocalFiles
  import Tidal

  /** The providers this repository defines. */
  datatype Provider = LocalFilesEntry | TidalEntry

  /** The provider's `id` field, the key it is registered under. */
  function Id(p: Provider): string {
    match p
    case LocalFilesEntry => LocalFiles.Id
    case TidalEntry => Tidal.Id
  }

  function GetCapabilities(p: Provider): Capabilities {
    match p
    case LocalFilesEntry => LocalFiles.Caps
    case TidalEntry => Tidal.Caps
  }

  /** `provider.initialize()`, dispatched on the provider. */
  function InitializeProvider(p: Provider): Capabilities {
    match p
    case LocalFilesEntry => LocalFiles.InitializeCapabilities()
    case TidalEntry => Tidal.InitializeCapabilities()
  }

  /** `initialize` resolves to the provider's capability record, the one
      `getCapabilities` reports; only the local provider announces local files. */
  lemma InitializeReportsCapabilities(p: Provider)
    ensures InitializeProvider(p) == GetCapabilities(p)
    ensures InitializeProvider(p).canLocalFiles <==> p == LocalFilesEntry
    ensures InitializeProvider(p).canAuth <==> p == TidalEntry
  {
  }

  /** Whether the provider's class defines the interface member `op`. */
  predicate Implements(p: Provider, op: Operation) {
    IsRequired(op) ||
    match p
    case LocalFilesEntry => op == ResolveFromLocalPaths
    case TidalEntry => op in {BeginAuth, EndAuth, SearchTracks, GetArtworkUrl}
  }

  /** Each provider defines an optional member exactly when its capability
      record announces it, and defines every required member. */
  lemma CapabilitiesMatchMembers(p: Provider, op: Operation)
    ensures IsRequired(op) ==> Implements(p, op)
    ensures !IsRequired(op) ==> (Implements(p, op) <==> Announces(GetCapabilities(p), op))
  {
  }

  /** `provider.getPlaybackSource(track)`, dispatched on the provider. */
  function GetPlaybackSource(p: Provider, ref: TrackRef): Result<PlaybackSource, ProviderError> {
    match p
    case LocalFilesEntry => LocalFiles.GetPlaybackSource(ref)
    case TidalEntry => Tidal.GetPlaybackSource(ref)
  }

  /** Failures raised by the registry itself (plain `Error`s, not provider errors). */
  datatype RegistryError =
    | NoActiveProvider
    | ProviderNotFound(id: string)
    | NoProviderForScheme(scheme: string)
      /** A scheme-less descriptor while no `local` provider is registered: the
          source then yields `undefined` and its caller fails on it. */
    | LocalMissing

  /** `getProviderForDescriptor` over a provider map: the scheme is the text
      before the first `:`; with no `:` the descriptor is a local path. */
  function Route(providers: map<string, Provider>, descriptor: string): Result<Provider, RegistryError> {
    var colon := IndexOf(descriptor, ':');
    if colon == -1 then
      if LocalFiles.Id in providers then Ok(providers[LocalFiles.Id]) else Err(LocalMissing)
    else
      var scheme := descriptor[..colon];
      if scheme in providers then Ok(providers[scheme]) else Err(NoProviderForScheme(scheme))
  }

  /** With no colon, the route is the `local` entry; otherwise it is the entry
      for the text before the first colon, or a no-provider-for-scheme error. */
  lemma RouteSpec(providers: map<string, Provider>, descriptor: string)
    ensures ':' !in descriptor ==>
              Route(providers, descriptor)
              == (if LocalFiles.Id in providers then Ok(providers[LocalFiles.Id]) else Err(LocalMissing))
    ensures ':' in descriptor ==>
              exists i :: 0 <= i < |descriptor| && descriptor[i] == ':' && ':' !in descriptor[..i] &&
                Route(providers, descriptor)
                == (if descriptor[..i] in providers then Ok(providers[descriptor[..i]])
                    else Err(NoProviderForScheme(descriptor[..i])))
  {
    var colon := IndexOf(descriptor, ':');
    if colon != -1 {
      assert descriptor[colon] == ':' && ':' !in descriptor[..colon];
    }
  }

  /** A descriptor `<scheme>:<rest>` with a colon-free scheme routes by that
      scheme, whatever `rest` holds (further colons included). */
  lemma {:induction false} RouteByScheme(providers: map<string, Provider>, scheme: string, rest: string)
    requires ':' !in scheme
    ensures Route(providers, scheme + ":" + rest) ==
            if scheme in providers then Ok(providers[scheme]) else Err(NoProviderForScheme(scheme))
  {
    var d := scheme + ":" + rest;
    assert d[|scheme|] == ':';
    var i := IndexOf(d, ':');
    assert d[..|scheme|] == scheme;
    assert i == |scheme|;
  }

  /** The failures and the provider a routed descriptor and its track meet:
      routing, then the provider's own `getPlaybackSource`. */
  datatype LoadFailure = Routing(registryError: RegistryError) | ProviderFailed(providerError: ProviderError)

  /** The source the player obtains for a track: route its id, then ask that provider. */
  function ResolveSource(providers: map<string, Provider>, track: Track): Result<PlaybackSource, LoadFailure>
  {
    match Route(providers, track.id)
    case Err(e) => Err(Routing(e))
    case Ok(p) =>
      match GetPlaybackSource(p, ByTrack(track))
      case Ok(src) => Ok(src)
      case Err(e) => Err(ProviderFailed(e))
  }

  /** The built-in registrations. */
  function BuiltIn(): map<string, Provider> {
    map[LocalFiles.Id := LocalFilesEntry, Tidal.Id := TidalEntry]
  }

  /** Every entry is registered under its provider's own id. */
  ghost predicate KeyedById(providers: map<string, Provider>) {
    forall id :: id in providers ==> Id(providers[id]) == id
  }

  /** A track whose id is `local:` followed by a path routes to the local
      provider and plays the file at that path. */
  lemma LocalIdPlaysFile(providers: map<string, Provider>, track: Track, path: string)
    requires KeyedById(providers) && LocalFiles.Id in providers
    requires track.id == LocalFiles.Scheme + path
    ensures Route(providers, track.id) == Ok(LocalFilesEntry)
    ensures ResolveSource(providers, track)
            == Ok(PlaybackSource(LocalFiles.FileScheme + path, None, File, None, None))
  {
    assert track.id == LocalFiles.Id + ":" + path;
    assert providers[LocalFiles.Id] == LocalFilesEntry by {
      assert Id(providers[LocalFiles.Id]) == LocalFiles.Id;
    }
    RouteByScheme(providers, LocalFiles.Id, path);
    var src := LocalFiles.GetPlaybackSource(ByTrack(track));
    assert StartsWith(track.id, LocalFiles.Scheme);
    assert src.value.url[|LocalFiles.FileScheme|..] == path;
    assert src.value.url == LocalFiles.FileScheme + path;
  }

  /** A track resolved from any local path routes to the local provider and
      plays the file at that path. */
  lemma LocalTrackPlaysFile(providers: map<string, Provider>, path: string)
    requires KeyedById(providers) && LocalFiles.Id in providers
    ensures Route(providers, LocalFiles.ResolvePath(path).id) == Ok(LocalFilesEntry)
    ensures ResolveSource(providers, LocalFiles.ResolvePath(path))
            == Ok(PlaybackSource(LocalFiles.FileScheme + path, None, File, None, None))
  {
    LocalIdPlaysFile(providers, LocalFiles.ResolvePath(path), path);
  }

  /** A scheme-less descriptor routes to the local provider, which then
      refuses it: its id lacks the `local:` prefix. */
  lemma SchemelessIdIsRefused(providers: map<string, Provider>, track: Track)
    requires KeyedById(providers) && LocalFiles.Id in providers && ':' !in track.id
    ensures Route(providers, track.id) == Ok(LocalFilesEntry)
    ensures ResolveSource(providers, track) == Err(ProviderFailed(ProviderError(NotSupported, "Track is not a local file")))
  {
  }

  /** The routing examples: "local:/a/b.mp3" reaches the local provider and
      "tidal:123" the TIDAL provider. */
  lemma RoutingExamples(local: string, tidal: string)
    requires local == "local:/a/b.mp3" && tidal == "tidal:123"
    ensures Route(BuiltIn(), local) == Ok(LocalFilesEntry)
    ensures Route(BuiltIn(), tidal) == Ok(TidalEntry)
  {
    assert local == local[..5] + ":" + local[6..] && local[..5] == LocalFiles.Id;
    assert tidal == tidal[..5] + ":" + tidal[6..] && tidal[..5] == Tidal.Id;
    RouteByScheme(BuiltIn(), local[..5], local[6..]);
    RouteByScheme(BuiltIn(), tidal[..5], tidal[6..]);
  }

  /** "bogus:123" names a scheme no provider is registered under. */
  lemma UnknownSchemeExample(bogus: string)
    requires bogus == "bogus:123"
    ensures Route(BuiltIn(), bogus) == Err(NoProviderForScheme("bogus"))
  {
    assert bogus == bogus[..5] + ":" + bogus[6..] && bogus[..5] == "bogus";
    RouteByScheme(BuiltIn(), bogus[..5], bogus[6..]);
  }

  /** A bare path goes to the local-files provider. */
  lemma SchemelessRoutingExample(path: string)
    requires path == "/a/b.mp3"
    ensures Route(BuiltIn(), path) == Ok(LocalFilesEntry)
  {
    assert ':' !in path;
  }

  /** A call the registry makes into a provider's lifecycle. An initialize
      call records the capability record the provider resolved to, which the
      registry itself ignores. */
  datatype LifecycleCall =
    | InitializeCall(provider: Provider, resolved: Capabilities)
    | ShutdownCall(provider: Provider)

  /** An event the registry rebroadcasts. */
  datatype RegistryEvent =
    | AuthStateChanged(providerId: string, state: AuthState)
    | ProviderErrorEvent(providerId: string, code: ErrorCode, message: string)

  predicate Distinct(s: seq<string>) {
    forall i, j :: 0 <= i < j < |s| ==> s[i] != s[j]
  }

  function InitializeCalls(providers: map<string, Provider>, ids: seq<string>): (calls: seq<LifecycleCall>)
    requires forall id :: id in ids ==> id in providers
    ensures |calls| == |ids|
    ensures forall i :: 0 <= i < |ids| ==>
              calls[i] == InitializeCall(providers[ids[i]], GetCapabilities(providers[ids[i]]))
  {
    seq(|ids|, i requires 0 <= i < |ids| => InitializeCall(providers[ids[i]], InitializeProvider(providers[ids[i]])))
  }

  function ShutdownCalls(providers: map<string, Provider>, ids: seq<string>): (calls: seq<LifecycleCall>)
    requires forall id :: id in ids ==> id in providers
    ensures |calls| == |ids|
    ensures forall i :: 0 <= i < |ids| ==> calls[i] == ShutdownCall(providers[ids[i]])
  {
    seq(|ids|, i requires 0 <= i < |ids| => ShutdownCall(providers[ids[i]]))
  }

  class ProviderRegistry {
    /** `providers`: the registered providers by id. */
    var providers: map<string, Provider>
    /** The ids in registration order, the order a JavaScript `Map` iterates in. */
    var order: seq<string>
    var active: Option<Provider>
    /** The lifecycle calls made into providers, oldest first. */
    var calls: seq<LifecycleCall>
    /** The events rebroadcast to subscribers, oldest first. */
    var events: seq<RegistryEvent>

    /** The map and the registration order agree, and every provider sits
        under its own id. */
    ghost predicate WellFormed()
      reads this
    {
      && KeyedById(providers)
      && Distinct(order)
      && (forall id :: id in providers <==> id in order)
    }

    ghost predicate Valid()
      reads this
    {
      && WellFormed()
      && LocalFiles.Id in providers
      && (active.Some? ==> active.value in providers.Values)
    }

    /** A new registry holds exactly the local and TIDAL providers, in that order. */
    constructor()
      ensures Valid()
      ensures providers == BuiltIn() && order == [LocalFiles.Id, Tidal.Id]
      ensures active == None && calls == [] && events == []
    {
      providers := map[];
      order := [];
      active := None;
      calls := [];
      events := [];
      new;
      RegisterProvider(LocalFilesEntry);
      RegisterProvider(TidalEntry);
    }

    /** `registerProvider`: puts the provider under its id, replacing any
        earlier entry there; a replaced entry keeps its place in the order. */
    method RegisterProvider(p: Provider)
      requires WellFormed()
      modifies this
      ensures WellFormed()
      ensures providers == old(providers)[Id(p) := p]
      ensures order == if Id(p) in old(providers) then old(order) else old(order) + [Id(p)]
      ensures active == old(active) && calls == old(calls) && events == old(events)
      ensures old(Valid()) ==> Valid()
    {
      if Id(p) !in providers {
        order := order + [Id(p)];
      }
      providers := providers[Id(p) := p];
    }

    /** `initialize`: initializes every provider in registration order, then
        makes the local provider active (none if it is not registered). */
    method Initialize()
      requires WellFormed()
      modifies this
      ensures WellFormed()
      ensures providers == old(providers) && order == old(order) && events == old(events)
      ensures calls == old(calls) + InitializeCalls(providers, order)
      ensures active == if LocalFiles.Id in providers then Some(providers[LocalFiles.Id]) else None
      ensures old(Valid()) ==> Valid() && active == Some(LocalFilesEntry)
    {
      var i := 0;
      while i < |order|
        invariant 0 <= i <= |order|
        invariant providers == old(providers) && order == old(order) && active == old(active)
        invariant events == old(events)
        invariant calls == old(calls) + InitializeCalls(providers, order[..i])
      {
        var p := providers[order[i]];
        assert order[..i + 1] == order[..i] + [order[i]];
        calls := calls + [InitializeCall(p, InitializeProvider(p))];
        i := i + 1;
      }
      assert order[..i] == order;
      active := if LocalFiles.Id in providers then Some(providers[LocalFiles.Id]) else None;
    }

    /** `shutdown`: shuts every provider down in registration order. */
    method Shutdown()
      requires WellFormed()
      modifies this
      ensures providers == old(providers) && order == old(order) && active == old(active)
      ensures events == old(events)
      ensures calls == old(calls) + ShutdownCalls(providers, order)
      ensures WellFormed() && (old(Valid()) ==> Valid())
    {
      var i := 0;
      while i < |order|
        invariant 0 <= i <= |order|
        invariant providers == old(providers) && order == old(order) && active == old(active)
        invariant events == old(events)
        invariant calls == old(calls) + ShutdownCalls(providers, order[..i])
      {
        var p := providers[order[i]];
        assert order[..i + 1] == order[..i] + [order[i]];
        calls := calls + [ShutdownCall(p)];
        i := i + 1;
      }
      assert order[..i] == order;
    }

    /** `getProvider`: the entry under `id`, if any. */
    function GetProvider(id: string): (r: Option<Provider>)
      reads this
      requires WellFormed()
      ensures r.Some? <==> id in providers
      ensures r.Some? ==> r.value == providers[id] && Id(r.value) == id
    {
      if id in providers then Some(providers[id]) else None
    }

    /** `getActiveProvider`: fails exactly when no provider is active. */
    method GetActiveProvider() returns (r: Result<Provider, RegistryError>)
      ensures r.Err? <==> active.None?
      ensures r.Err? ==> r.error == NoActiveProvider
      ensures r.Ok? ==> Some(r.value) == active
    {
      if active.None? {
        return Err(NoActiveProvider);
      }
      return Ok(active.value);
    }

    /** `setActiveProvider`: an unregistered id fails and changes nothing;
        otherwise its entry becomes active. */
    method SetActiveProvider(id: string) returns (r: Outcome<RegistryError>)
      requires Valid()
      modifies this
      ensures Valid()
      ensures r.Fail? <==> id !in providers
      ensures r.Fail? ==> r.error == ProviderNotFound(id)
      ensures active == if id in providers then Some(providers[id]) else old(active)
      ensures providers == old(providers) && order == old(order)
      ensures calls == old(calls) && events == old(events)
    {
      if id !in providers {
        return Fail(ProviderNotFound(id));
      }
      active := Some(providers[id]);
      r := Pass;
    }

    /** `getProviderForDescriptor`. */
    function GetProviderForDescriptor(descriptor: string): (r: Result<Provider, RegistryError>)
      reads this
      requires Valid()
      ensures r.Err? ==> ':' in descriptor && r.error.NoProviderForScheme?
      ensures r.Ok? ==> r.value in providers.Values
      ensures ':' !in descriptor ==> r == Ok(LocalFilesEntry)
    {
      Route(providers, descriptor)
    }

    /** `emitAuthStateChanged`: rebroadcasts a provider's new auth state. */
    method EmitAuthStateChanged(providerId: string, state: AuthState)
      modifies this`events
      ensures events == old(events) + [AuthStateChanged(providerId, state)]
      ensures old(Valid()) ==> Valid()
    {
      events := events + [AuthStateChanged(providerId, state)];
    }

    /** `emitProviderError`: rebroadcasts a provider's error. */
    method EmitProviderError(providerId: string, code: ErrorCode, message: string)
      modifies this`events
      ensures events == old(events) + [ProviderErrorEvent(providerId, code, message)]
      ensures old(Valid()) ==> Valid()
    {
      events := events + [ProviderErrorEvent(providerId, code, message)];
    }
  }
}
