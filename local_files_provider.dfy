/** The local-files provider: turns filesystem paths into tracks by parsing
    the file name, and turns a `local:` track id back into a `file://` source. */
module LocalFiles {
  import opened Wrappers
  import opened JsString
  import opened ProviderTypes

  const Id: string := "local"
  const Scheme: string := "local:"
  const FileScheme: string := "file://"
  const Separator: string := " - "
  const UnknownArtist: string := "Unknown Artist"

  /** The capability record: only local files. */
  const Caps: Capabilities := Capabilities(
    canLocalFiles := true, canSearch := false, canGetArtwork := false, canAuth := false,
    canStreamHttp := false, supportsHls := false, supportsHeaders := false, supportsDrm := false)

  /** `initialize` resolves to the capability record and changes nothing. */
  function InitializeCapabilities(): (caps: Capabilities)
    ensures caps.canLocalFiles
    ensures !caps.canSearch && !caps.canGetArtwork && !caps.canAuth
    ensures !caps.canStreamHttp && !caps.supportsHls && !caps.supportsHeaders && !caps.supportsDrm
  {
    Caps
  }

  /** `getAuthState`: this provider never authenticates. */
  function GetAuthState(): (a: AuthState)
    ensures a.status == Unauthenticated && a.userLabel == None
  {
    AuthState(Unauthenticated, None)
  }

  /** The characters the basename helper splits on. */
  predicate IsPathSeparator(c: char) { c == '/' || c == '\\' }

  /** `pathUtils.basename`: the text after the last `/` or `\`. */
  function Basename(path: string): (name: string)
    ensures |name| <= |path| && path[|path| - |name|..] == name
    ensures forall i :: 0 <= i < |name| ==> !IsPathSeparator(name[i])
    ensures |name| < |path| ==> IsPathSeparator(path[|path| - |name| - 1])
  {
    if path == [] then ""
    else
      var last := path[|path| - 1];
      if IsPathSeparator(last) then ""
      else
        var init := path[..|path| - 1];
        var name := Basename(init);
        assert init[|init| - |name|..] == name;
        assert path[|path| - |name| - 1..] == init[|init| - |name|..] + [last];
        name + [last]
  }

  /** `pathUtils.parse(fileName).name`: the file name without its extension.
      The extension is cut at the last dot, but only when that dot is not the
      first character, so `.hidden` stays whole. */
  function StripExtension(fileName: string): (stem: string)
    ensures |stem| <= |fileName| && fileName[..|stem|] == stem
    ensures stem != fileName ==>
              0 < |stem| && fileName[|stem|] == '.' && '.' !in fileName[|stem| + 1..]
    ensures stem == fileName <==> forall i :: 0 < i < |fileName| ==> fileName[i] != '.'
  {
    var dot := LastIndexOf(fileName, '.');
    if dot > 0 then
      CutAtLastDot(fileName, dot);
      fileName[..dot]
    else
      NoDotAfterFirst(fileName);
      fileName
  }

  /** Cutting a name at its last dot, found after position 0, gives a shorter
      non-empty prefix followed by the dot and a dot-free extension. */
  lemma CutAtLastDot(fileName: string, dot: int)
    requires 0 < dot < |fileName| && fileName[dot] == '.' && '.' !in fileName[dot + 1..]
    ensures var stem := fileName[..dot];
            && |stem| == dot && fileName[..|stem|] == stem && stem != fileName
            && fileName[|stem|] == '.' && '.' !in fileName[|stem| + 1..]
            && !(forall i :: 0 < i < |fileName| ==> fileName[i] != '.')
  {
  }

  /** With its last dot at position 0 at most, a name has no dot after position 0. */
  lemma NoDotAfterFirst(fileName: string)
    requires LastIndexOf(fileName, '.') <= 0
    ensures forall i :: 0 < i < |fileName| ==> fileName[i] != '.'
  {
    if LastIndexOf(fileName, '.') == 0 {
      var rest := fileName[1..];
      assert '.' !in rest;
      forall i | 0 < i < |fileName| ensures fileName[i] != '.' {
        assert fileName[i] == rest[i - 1];
      }
    }
  }

  /** The artist and title read from a file-name stem: split on " - ", the
      first piece is the artist and the rest, re-joined, is the title. */
  function ParseStem(stem: string): (string, string)
  {
    var parts := Split(stem, Separator);
    if |parts| > 1 then (parts[0], Join(parts[1..], Separator))
    else (UnknownArtist, stem)
  }

  /** With a " - " in the stem, the artist is the text before the first one
      and the title the text after it, so "A - B - C" gives "A" and "B - C";
      the three put back together give the stem. */
  lemma ParseStemSplitsAtFirstSeparator(stem: string)
    requires Occurs(stem, Separator)
    ensures var i := Find(stem, Separator);
            && ParseStem(stem).0 == stem[..i]
            && ParseStem(stem).1 == stem[i + |Separator|..]
            && ParseStem(stem).0 + Separator + ParseStem(stem).1 == stem
  {
    var i := Find(stem, Separator);
    var parts := Split(stem, Separator);
    SplitHeadTail(stem, Separator);
    assert |parts| > 1;
    assert ParseStem(stem) == (parts[0], Join(parts[1..], Separator));
    Reassemble(stem, Separator, i);
  }

  /** The artist read from a stem never contains the separator itself: it is
      either the text before the first one or "Unknown Artist". */
  lemma ArtistHasNoSeparator(stem: string)
    ensures !Occurs(ParseStem(stem).0, Separator)
  {
    if Occurs(stem, Separator) {
      var i := Find(stem, Separator);
      ParseStemSplitsAtFirstSeparator(stem);
      var artist := stem[..i];
      forall j | OccursAt(artist, Separator, j) ensures false {
        assert artist[j..j + |Separator|] == stem[j..j + |Separator|];
        assert OccursAt(stem, Separator, j);
      }
    } else {
      ParseStemWithoutSeparator(stem);
      NoDashNoSeparator(UnknownArtist);
    }
  }

  /** A string without a dash cannot contain the separator. */
  lemma NoDashNoSeparator(s: string)
    requires '-' !in s
    ensures !Occurs(s, Separator)
  {
    forall j ensures !OccursAt(s, Separator, j) {
      if 0 <= j && j + |Separator| <= |s| {
        assert s[j + 1] in s;
        assert s[j..j + |Separator|][1] == s[j + 1] != Separator[1];
      }
    }
  }

  /** Without a " - " the artist is "Unknown Artist" and the title the whole stem. */
  lemma ParseStemWithoutSeparator(stem: string)
    requires !Occurs(stem, Separator)
    ensures ParseStem(stem) == (UnknownArtist, stem)
  {
  }

  /** The basename of a directory (empty, or ending in a separator) followed
      by a name without separators is that name. */
  lemma {:induction false} BasenameAfterDirectory(dir: string, file: string)
    requires dir == [] || IsPathSeparator(dir[|dir| - 1])
    requires forall i :: 0 <= i < |file| ==> !IsPathSeparator(file[i])
    ensures Basename(dir + file) == file
    decreases |file|
  {
    if file == [] {
      assert dir + file == dir;
    } else {
      var init, last := file[..|file| - 1], file[|file| - 1];
      BasenameAfterDirectory(dir, init);
      assert file == init + [last];
      assert dir + file == (dir + init) + [last];
      BasenameKeepsLast(dir + init, last);
    }
  }

  /** A character other than a separator, appended to a path, extends its basename. */
  lemma BasenameKeepsLast(prefix: string, last: char)
    requires !IsPathSeparator(last)
    ensures Basename(prefix + [last]) == Basename(prefix) + [last]
  {
    assert (prefix + [last])[..|prefix|] == prefix;
  }

  /** A name with a non-empty stem and a dot-free extension loses exactly the extension. */
  lemma StripsLastExtension(stem: string, ext: string)
    requires |stem| > 0 && '.' !in ext
    ensures StripExtension(stem + "." + ext) == stem
  {
    var fileName := stem + "." + ext;
    assert fileName[|stem|] == '.';
    assert fileName[|stem| + 1..] == ext;
  }

  /** A hidden file's leading dot is not an extension. */
  lemma HiddenFileKeepsName()
    ensures StripExtension(".hidden") == ".hidden"
  {
    assert forall i :: 0 < i < |".hidden"| ==> ".hidden"[i] != '.';
  }

  /** The track `resolveFromLocalPaths` builds for one path. */
  function ResolvePath(path: string): (t: Track)
    ensures t.id == Scheme + path
    ensures t.albumName == "Local Files" && t.durationMs == 0 && t.providerId == Id
    ensures t.artworkUrl == None && t.explicit == None
  {
    var (artist, title) := ParseStem(StripExtension(Basename(path)));
    Track(
      id := Scheme + path,
      title := title,
      artistName := artist,
      albumName := "Local Files",
      durationMs := 0,
      artworkUrl := None,
      explicit := None,
      providerId := Id)
  }

  /** `resolveFromLocalPaths`: one track per path, in order. */
  function ResolveFromLocalPaths(paths: seq<string>): (tracks: seq<Track>)
    ensures |tracks| == |paths|
    ensures forall i :: 0 <= i < |paths| ==> tracks[i].id == Scheme + paths[i] && tracks[i].providerId == Id
  {
    seq(|paths|, i requires 0 <= i < |paths| => ResolvePath(paths[i]))
  }

  /** `getPlaybackSource`: a `local:` id becomes a `file://` URL of the rest
      of the id; any other id is refused with `not_supported`. */
  function GetPlaybackSource(ref: TrackRef): (r: Result<PlaybackSource, ProviderError>)
    ensures !StartsWith(TrackId(ref), Scheme) <==> r.Err?
    ensures r.Err? ==> r.error.code == NotSupported
    ensures r.Ok? ==> && StartsWith(r.value.url, FileScheme)
                      && TrackId(ref) == Scheme + r.value.url[|FileScheme|..]
                      && r.value.streamType == File
                      && r.value.mime == None && r.value.headers == None && r.value.drm == None
  {
    var trackId := TrackId(ref);
    if !StartsWith(trackId, Scheme) then
      Err(NewProviderError(NotSupported, "Track is not a local file"))
    else
      var filePath := trackId[|Scheme|..];
      assert trackId == Scheme + filePath;
      Ok(PlaybackSource(FileScheme + filePath, None, File, None, None))
  }

  /** Round trip: the source for the track resolved from any path `p` is the
      file URL of `p` itself, with no MIME type, headers or DRM. */
  lemma {:induction false} ResolvedTrackPlaysItsPath(path: string)
    ensures GetPlaybackSource(ByTrack(ResolvePath(path)))
            == Ok(PlaybackSource(FileScheme + path, None, File, None, None))
  {
    var id := ResolvePath(path).id;
    assert StartsWith(id, Scheme) && id[|Scheme|..] == path;
  }

  /** Every track `resolveFromLocalPaths` returns has a file source. */
  lemma ResolvedTracksAllPlayable(paths: seq<string>, i: int)
    requires 0 <= i < |paths|
    ensures GetPlaybackSource(ByTrack(ResolveFromLocalPaths(paths)[i])).Ok?
    ensures GetPlaybackSource(ByTrack(ResolveFromLocalPaths(paths)[i])).value.url == FileScheme + paths[i]
  {
    ResolvedTrackPlaysItsPath(paths[i]);
  }

  /** The stem "Artist - Title" parses to artist "Artist" and title "Title". */
  lemma ParseStemExample(stem: string)
    requires stem == "Artist - Title"
    ensures ParseStem(stem) == ("Artist", "Title")
  {
    assert stem[6..9] == Separator;
    assert OccursAt(stem, Separator, 6);
    forall j | 0 <= j < 6 ensures !OccursAt(stem, Separator, j) {
      assert stem[j + 1] != '-';
    }
    ParseStemSplitsAtFirstSeparator(stem);
    assert stem[..6] == "Artist" && stem[9..] == "Title";
  }

  /** The example "/music/Artist - Title.mp3" gives artist "Artist" and title "Title". */
  lemma ArtistTitleExample(path: string)
    requires path == "/music/Artist - Title.mp3"
    ensures ResolvePath(path).artistName == "Artist" && ResolvePath(path).title == "Title"
  {
    var dir, stem, ext := "/music/", "Artist - Title", "mp3";
    var file := stem + "." + ext;
    assert path == dir + file;
    BasenameAfterDirectory(dir, file);
    assert Basename(path) == file;
    StripsLastExtension(stem, ext);
    assert StripExtension(Basename(path)) == stem;
    ParseStemExample(stem);
    assert ParseStem(StripExtension(Basename(path))) == ("Artist", "Title");
  }
}
