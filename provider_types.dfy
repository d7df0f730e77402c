/** The data exchanged between providers, the registry and the player:
    tracks, playback sources, authentication state, capability records and
    the provider error taxonomy. */
module ProviderTypes {
  import opened Wrappers

  /** A track as a provider produced it; `id` carries the provider's scheme prefix. */
  datatype Track = Track(
    id: string,
    title: string,
    artistName: string,
    albumName: string,
    durationMs: nat,
    artworkUrl: Option<string>,
    explicit: Option<bool>,
    providerId: string)

  /** Operations that take `Track | string` accept either form. */
  datatype TrackRef = ByTrack(track: Track) | ById(id: string)

  function TrackId(ref: TrackRef): string {
    match ref
    case ByTrack(t) => t.id
    case ById(id) => id
  }

  datatype StreamType = File | Http | Hls

  /** A DRM descriptor; its configuration is opaque to this layer. */
  datatype Drm = Drm(drmType: string, config: string)

  datatype PlaybackSource = PlaybackSource(
    url: string,
    mime: Option<string>,
    streamType: StreamType,
    headers: Option<map<string, string>>,
    drm: Option<Drm>)

  datatype SearchResult = SearchResult(tracks: seq<Track>, nextCursor: Option<string>)

  datatype AuthStatus = Unauthenticated | Authenticated | AuthError

  datatype AuthState = AuthState(status: AuthStatus, userLabel: Option<string>)

  datatype Capabilities = Capabilities(
    canLocalFiles: bool,
    canSearch: bool,
    canGetArtwork: bool,
    canAuth: bool,
    canStreamHttp: bool,
    supportsHls: bool,
    supportsHeaders: bool,
    supportsDrm: bool)

  /** The four provider error codes; no other code exists. */
  datatype ErrorCode = AuthRequired | ContentUnavailable | NotSupported | NetworkError

  /** The string literal the source uses for each code. */
  function CodeName(code: ErrorCode): string {
    match code
    case AuthRequired => "auth_required"
    case ContentUnavailable => "content_unavailable"
    case NotSupported => "not_supported"
    case NetworkError => "network_error"
  }

  /** The code a string literal denotes, if it denotes one. */
  function ParseCode(s: string): (r: Option<ErrorCode>)
    ensures r.Some? ==> CodeName(r.value) == s
  {
    if s == "auth_required" then Some(AuthRequired)
    else if s == "content_unavailable" then Some(ContentUnavailable)
    else if s == "not_supported" then Some(NotSupported)
    else if s == "network_error" then Some(NetworkError)
    else None
  }

  /** Every code has its own literal, and a string is a code exactly when it
      is one of the four literals. */
  lemma CodeNameRoundTrip(code: ErrorCode, s: string)
    ensures ParseCode(CodeName(code)) == Some(code)
    ensures ParseCode(s).Some? <==>
            s in {"auth_required", "content_unavailable", "not_supported", "network_error"}
  {
  }

  /** A thrown `ProviderError`: a code plus a human-readable message. */
  datatype ProviderError = ProviderError(code: ErrorCode, message: string) {
    /** The `name` the error class sets on every instance. */
    function Name(): string { "ProviderError" }
  }

  /** `new ProviderError(code, message)`. */
  function NewProviderError(code: ErrorCode, message: string): (e: ProviderError)
    ensures e.code == code && e.message == message && e.Name() == "ProviderError"
  {
    ProviderError(code, message)
  }

  /** The members of the provider interface. */
  datatype Operation =
    | Initialize | Shutdown | GetCapabilities | GetAuthState
    | BeginAuth | EndAuth | ResolveFromLocalPaths | GetPlaybackSource
    | SearchTracks | GetArtworkUrl

  /** Members every provider must implement; the others are optional. */
  predicate IsRequired(op: Operation) {
    op in {Initialize, Shutdown, GetCapabilities, GetAuthState, GetPlaybackSource}
  }

  /** The capability flag that announces an optional member. */
  function Announces(caps: Capabilities, op: Operation): bool
    requires !IsRequired(op)
  {
    match op
    case BeginAuth => caps.canAuth
    case EndAuth => caps.canAuth
    case ResolveFromLocalPaths => caps.canLocalFiles
    case SearchTracks => caps.canSearch
    case GetArtworkUrl => caps.canGetArtwork
  }
}
