/** The TIDAL catalog provider. It is a stub: it declares every capability
    except local files, keeps an authentication state that only `endAuth`
    writes, refuses playback and search for want of authentication, and
    builds artwork URLs from `tidal:` ids. */
module Tidal {
  import opened Wrappers
  import opened JsString
  import opened ProviderTypes

  const Id: string := "tidal"
  const Scheme: string := "tidal:"
  const ArtworkBase: string := "https://resources.tidal.com/images/"
  const ArtworkSuffix: string := "/640x640.jpg"

  /** The capability record: everything except local files. */
  const Caps: Capabilities := Capabilities(
    canLocalFiles := false, canSearch := true, canGetArtwork := true, canAuth := true,
    canStreamHttp := true, supportsHls := true, supportsHeaders := true, supportsDrm := true)

  /** `initialize` resolves to the capability record and changes nothing. */
  function InitializeCapabilities(): (caps: Capabilities)
    ensures !caps.canLocalFiles
    ensures caps.canSearch && caps.canGetArtwork && caps.canAuth
    ensures caps.canStreamHttp && caps.supportsHls && caps.supportsHeaders && caps.supportsDrm
  {
    Caps
  }

  /** `getPlaybackSource` fails with `auth_required` whatever it is given. */
  function GetPlaybackSource(ref: TrackRef): (r: Result<PlaybackSource, ProviderError>)
    ensures r.Err? && r.error.code == AuthRequired
  {
    Err(NewProviderError(AuthRequired, "TIDAL playback requires authentication"))
  }

  /** `searchTracks` fails with `auth_required` whatever the query and cursor. */
  function SearchTracks(query: string, cursor: Option<string>): (r: Result<SearchResult, ProviderError>)
    ensures r.Err? && r.error.code == AuthRequired
  {
    Err(NewProviderError(AuthRequired, "TIDAL search requires authentication"))
  }

  /** `getArtworkUrl`: the 640x640 image URL of a `tidal:` id; other ids are
      refused with `not_supported`. The requested size is ignored. */
  function GetArtworkUrl(ref: TrackRef, size: Option<int>): (r: Result<string, ProviderError>)
    ensures r.Err? <==> !StartsWith(TrackId(ref), Scheme)
    ensures r.Err? ==> r.error.code == NotSupported
  {
    var trackId := TrackId(ref);
    if !StartsWith(trackId, Scheme) then
      Err(NewProviderError(NotSupported, "Track is not from TIDAL"))
    else
      Ok(ArtworkBase + trackId[|Scheme|..] + ArtworkSuffix)
  }

  /** The artwork URL of `tidal:<key>` is the image base, the key and the
      fixed 640x640 suffix, for every requested size. */
  lemma ArtworkUrlOfKey(key: string, size: Option<int>)
    ensures GetArtworkUrl(ById(Scheme + key), size) == Ok(ArtworkBase + key + ArtworkSuffix)
    ensures GetArtworkUrl(ById(Scheme + key), size) == GetArtworkUrl(ById(Scheme + key), None)
  {
    assert (Scheme + key)[..|Scheme|] == Scheme;
    assert (Scheme + key)[|Scheme|..] == key;
  }

  /** Distinct TIDAL ids have distinct artwork URLs: the key can be read back
      from the URL. */
  lemma {:induction false} ArtworkUrlInjective(a: string, b: string)
    requires GetArtworkUrl(ById(a), None).Ok? && GetArtworkUrl(ById(a), None) == GetArtworkUrl(ById(b), None)
    ensures a == b
  {
    var url := GetArtworkUrl(ById(a), None).value;
    var ka, kb := a[|Scheme|..], b[|Scheme|..];
    assert url == ArtworkBase + ka + ArtworkSuffix;
    assert url == ArtworkBase + kb + ArtworkSuffix;
    assert |ka| == |kb|;
    assert ka == url[|ArtworkBase|..|url| - |ArtworkSuffix|];
    assert kb == url[|ArtworkBase|..|url| - |ArtworkSuffix|];
    assert a == a[..|Scheme|] + ka && b == b[..|Scheme|] + kb;
  }

  /** The provider object: its one mutable field is the authentication state. */
  class TidalProvider {
    var authState: AuthState

    /** The only writers of `authState` (the constructor and `endAuth`) store
        the unauthenticated state, so every provider satisfies this. */
    ghost predicate Valid()
      reads this
    {
      authState == AuthState(Unauthenticated, None)
    }

    constructor()
      ensures authState == AuthState(Unauthenticated, None) && Valid()
    {
      authState := AuthState(Unauthenticated, None);
    }

    /** `getCapabilities` reports the same record that `initialize` resolves
        to: every capability except local files. */
    function GetCapabilities(): (caps: Capabilities)
      ensures caps == InitializeCapabilities()
      ensures !caps.canLocalFiles
      ensures caps.canSearch && caps.canGetArtwork && caps.canAuth
      ensures caps.canStreamHttp && caps.supportsHls && caps.supportsHeaders && caps.supportsDrm
    {
      Caps
    }

    /** `getAuthState` returns the stored state; with no working `beginAuth`,
        that is always the unauthenticated state. */
    function GetAuthState(): (a: AuthState)
      reads this
      ensures a == authState
      ensures Valid() ==> a.status == Unauthenticated && a.userLabel == None
    {
      authState
    }

    /** `beginAuth` is not implemented: it always fails with `not_supported`
        and leaves the authentication state as it was. */
    method BeginAuth() returns (r: Outcome<ProviderError>)
      ensures r.Fail? && r.error.code == NotSupported
    {
      r := Fail(NewProviderError(NotSupported, "TIDAL authentication not yet implemented"));
    }

    /** `endAuth` resets the authentication state to unauthenticated. */
    method EndAuth()
      modifies this
      ensures authState == AuthState(Unauthenticated, None) && Valid()
    {
      authState := AuthState(Unauthenticated, None);
    }
  }
}
