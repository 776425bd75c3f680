/** The background-music helper of js/music-player.js: resolving a genre key through the
    configured audio map, choosing a track, the bookkeeping of a user-loaded file's object
    URL, and the player fields `currentSrc`, `loadedObjectUrl`, `isPlaying` and `volume`.
    The audio map (`AppConfig.AUDIO_MAP`, None when it is not configured), the URL that
    `URL.createObjectURL` returns and whether `audio.play()` succeeds are parameters. The
    HTML audio element is a record of the fields the helper sets, and the object URLs
    passed to `URL.revokeObjectURL` are kept in the log `revoked`. */
module MusicPlayer {
  import opened JsBase

  const DefaultVolume: real := 0.85

  /** A value passed as a key, URL or track list, or found in the audio map. */
  datatype Src = Null | Str(s: string) | Tracks(items: seq<string>)

  /** JavaScript truthiness: null and "" are falsy, every array is truthy. */
  predicate Truthy(x: Src)
  {
    x.Tracks? || (x.Str? && x.s != "")
  }

  predicate TruthyUrl(u: Option<string>)
  {
    u.Some? && u.value != ""
  }

  type AudioMap = map<string, Src>

  /** The fields of the audio element the helper sets; `paused` is what pause() and a
      successful play() change. */
  datatype AudioElement = AudioElement(src: string, loop: bool, volume: real, currentTime: real, paused: bool)

  /** `new Audio()`. */
  const FreshAudio: AudioElement := AudioElement("", false, 1.0, 0.0, true)

  datatype PlayerState = PlayerState(
    audio: Option<AudioElement>,
    currentSrc: Option<string>,
    loadedObjectUrl: Option<string>,
    isPlaying: bool,
    volume: real,
    revoked: seq<string>)

  const Initial: PlayerState := PlayerState(None, None, None, false, DefaultVolume, [])

  /** Playing needs an audio element, and the element's volume is always a valid one. */
  predicate Valid(st: PlayerState)
  {
    (st.isPlaying ==> st.audio.Some?) && (st.audio.Some? ==> 0.0 <= st.audio.value.volume <= 1.0)
  }

  // ---------------------------------------------------------------------------
  // Source resolution

  /** _resolveSrc(keyOrUrl): null for a falsy input; a string is lowercased and looked
      up, and a truthy entry replaces it; otherwise the input itself. */
  function ResolveSrc(keyOrUrl: Src, audioMap: Option<AudioMap>): Src
  {
    if !Truthy(keyOrUrl) then Null
    else if keyOrUrl.Str? && audioMap.Some? && ToLower(keyOrUrl.s) in audioMap.value
            && Truthy(audioMap.value[ToLower(keyOrUrl.s)]) then
      audioMap.value[ToLower(keyOrUrl.s)]
    else keyOrUrl
  }

  /** getTracksForKey(key): nothing for a falsy resolution, a copy of a track list, or the
      single resolved URL. */
  function TracksForKey(key: Src, audioMap: Option<AudioMap>): seq<string>
  {
    var v := ResolveSrc(key, audioMap);
    if !Truthy(v) then [] else if v.Tracks? then v.items else [v.s]
  }

  /** Math.max(0, Math.min(length - 1, index || 0)). */
  function ClampIndex(length: nat, index: int): int
  {
    var upper := length - 1;
    var m := if index < upper then index else upper;
    if m < 0 then 0 else m
  }

  // ---------------------------------------------------------------------------
  // Operations

  datatype PlayResult = Played | NoTrackForIndex | NoAudioSource | PlayRejected

  /** _ensureAudio(). */
  function WithAudio(st: PlayerState): PlayerState
  {
    if st.audio.Some? then st else st.(audio := Some(FreshAudio))
  }

  /** The object URL is revoked and forgotten when a different source is going to play. */
  function ReleasedFor(st: PlayerState, src: string): PlayerState
  {
    if TruthyUrl(st.loadedObjectUrl) && st.loadedObjectUrl.value != src then
      st.(revoked := st.revoked + [st.loadedObjectUrl.value], loadedObjectUrl := None)
    else st
  }

  function WithSource(st: PlayerState, src: string): PlayerState
    requires st.audio.Some?
  {
    st.(audio := Some(st.audio.value.(src := src)), currentSrc := Some(src))
  }

  /** Where play() gets to before it starts the element: the state with the source set,
      or the rejection, which leaves only the created audio element behind. */
  function SourceChosen(st: PlayerState, keyOrUrl: Src, audioMap: Option<AudioMap>, index: int): (PlayerState, PlayResult)
    requires st.audio.Some?
  {
    var resolved := ResolveSrc(keyOrUrl, audioMap);
    if !Truthy(resolved) && TruthyUrl(st.loadedObjectUrl) then
      (WithSource(st, st.loadedObjectUrl.value), Played)
    else if resolved.Tracks? then
      var idx := ClampIndex(|resolved.items|, index);
      if idx >= |resolved.items| || resolved.items[idx] == "" then (st, NoTrackForIndex)
      else (WithSource(ReleasedFor(st, resolved.items[idx]), resolved.items[idx]), Played)
    else
      var src := if Truthy(resolved) then resolved else keyOrUrl;
      if !Truthy(src) then (st, NoAudioSource)
      else (WithSource(ReleasedFor(st, src.s), src.s), Played)
  }

  /** play(keyOrUrl, {loop, volume, index}) with `playSucceeds` the outcome of
      audio.play(). A given volume is stored as it is and applied clamped to [0, 1]. */
  function AfterPlay(st: PlayerState, keyOrUrl: Src, audioMap: Option<AudioMap>, loop: bool,
                     volume: Option<real>, index: int, playSucceeds: bool): (PlayerState, PlayResult)
  {
    var (chosen, result) := SourceChosen(WithAudio(st), keyOrUrl, audioMap, index);
    if result != Played then (chosen, result)
    else
      var v := if volume.Some? then volume.value else chosen.volume;
      var a := chosen.audio.value.(loop := loop, volume := Clamp(0.0, 1.0, v));
      if playSucceeds then (chosen.(audio := Some(a.(paused := false)), volume := v, isPlaying := true), Played)
      else (chosen.(audio := Some(a), volume := v, isPlaying := false), PlayRejected)
  }

  /** pause(): nothing without an audio element. */
  function Paused(st: PlayerState): PlayerState
  {
    if st.audio.None? then st
    else st.(audio := Some(st.audio.value.(paused := true)), isPlaying := false)
  }

  /** stop(): pause and rewind, nothing without an audio element. */
  function Stopped(st: PlayerState): PlayerState
  {
    if st.audio.None? then st
    else st.(audio := Some(st.audio.value.(paused := true, currentTime := 0.0)), isPlaying := false)
  }

  /** setVolume(v). */
  function VolumeSet(st: PlayerState, v: real): PlayerState
  {
    var c := Clamp(0.0, 1.0, v);
    st.(volume := c, audio := if st.audio.Some? then Some(st.audio.value.(volume := c)) else None)
  }

  /** loadFile(file) with `url` the object URL created for it; the second component is
      the returned URL, None for a missing file. */
  function FileLoaded(st: PlayerState, hasFile: bool, url: string): (PlayerState, Option<string>)
  {
    if !hasFile then (st, None)
    else
      var released := if TruthyUrl(st.loadedObjectUrl) && st.loadedObjectUrl.value != url
                      then st.(revoked := st.revoked + [st.loadedObjectUrl.value]) else st;
      var t := WithAudio(released.(loadedObjectUrl := Some(url), currentSrc := Some(url)));
      (t.(audio := Some(t.audio.value.(src := url))), Some(url))
  }

  /** unload(). */
  function Unloaded(st: PlayerState): PlayerState
  {
    var a := if st.audio.Some? then Some(st.audio.value.(paused := true, src := "")) else None;
    var r := if TruthyUrl(st.loadedObjectUrl) then st.revoked + [st.loadedObjectUrl.value] else st.revoked;
    st.(audio := a, revoked := r, loadedObjectUrl := None, currentSrc := None, isPlaying := false)
  }

  /** The element's `ended` listener. */
  function AudioEnded(st: PlayerState): PlayerState
  {
    st.(isPlaying := false)
  }

  // ---------------------------------------------------------------------------
  // Properties

  /** _resolveSrc: a falsy input gives null, a string key is lowercased and looked up,
      and anything else comes back unchanged. */
  lemma ResolveRule(x: Src, audioMap: Option<AudioMap>)
    ensures !Truthy(x) ==> ResolveSrc(x, audioMap) == Null
    ensures (Truthy(x) && x.Str? && audioMap.Some? && ToLower(x.s) in audioMap.value
             && Truthy(audioMap.value[ToLower(x.s)])) ==> ResolveSrc(x, audioMap) == audioMap.value[ToLower(x.s)]
    ensures x.Tracks? || (Truthy(x) && audioMap.None?) ==> ResolveSrc(x, audioMap) == x
    ensures Truthy(x) ==> Truthy(ResolveSrc(x, audioMap))
  {
  }

  /** A key is lowercased before the lookup, so case does not matter. */
  lemma ResolveIgnoresCase(a: string, b: string, audioMap: Option<AudioMap>)
    requires a != "" && b != "" && ToLower(a) == ToLower(b)
    requires audioMap.Some? && ToLower(a) in audioMap.value && Truthy(audioMap.value[ToLower(a)])
    ensures ResolveSrc(Str(a), audioMap) == ResolveSrc(Str(b), audioMap)
  {
  }

  /** getTracksForKey is empty exactly for a falsy key or an empty track list; an unknown
      key k gives [k]. */
  lemma TracksRule(key: Src, audioMap: Option<AudioMap>)
    ensures TracksForKey(key, audioMap) == [] <==> !Truthy(key) || ResolveSrc(key, audioMap) == Tracks([])
    ensures key.Str? && key.s != "" && (audioMap.None? || ToLower(key.s) !in audioMap.value) ==>
      TracksForKey(key, audioMap) == [key.s]
  {
  }

  /** The chosen index lies in [0, length - 1] for a non-empty list and is the requested
      one when that is in range. */
  lemma ClampIndexRange(length: nat, index: int)
    ensures length > 0 ==> 0 <= ClampIndex(length, index) < length
    ensures 0 <= index < length ==> ClampIndex(length, index) == index
    ensures length == 0 ==> ClampIndex(length, index) == 0
  {
  }

  /** Playing an empty track list rejects and starts nothing; a non-empty list of
      non-empty URLs plays the track at the clamped index. */
  lemma PlayTrackList(st: PlayerState, items: seq<string>, audioMap: Option<AudioMap>, index: int, ok: bool)
    requires forall i :: 0 <= i < |items| ==> items[i] != ""
    ensures |items| == 0 ==>
      && AfterPlay(st, Tracks(items), audioMap, true, None, index, ok).1 == NoTrackForIndex
      && AfterPlay(st, Tracks(items), audioMap, true, None, index, ok).0 == WithAudio(st)
    ensures |items| > 0 ==>
      var (t, r) := AfterPlay(st, Tracks(items), audioMap, true, None, index, ok);
      t.currentSrc == Some(items[ClampIndex(|items|, index)]) && t.audio.value.src == items[ClampIndex(|items|, index)]
      && (r == Played <==> ok) && t.isPlaying == ok
  {
  }

  /** The element gets the clamped volume, while `volume` keeps what was passed; setVolume
      stores the clamped value. */
  lemma VolumeRule(st: PlayerState, keyOrUrl: Src, audioMap: Option<AudioMap>, loop: bool, v: real, index: int, ok: bool)
    ensures var (t, r) := AfterPlay(st, keyOrUrl, audioMap, loop, Some(v), index, ok);
      r == Played || r == PlayRejected ==> t.volume == v && t.audio.value.volume == Clamp(0.0, 1.0, v)
    ensures VolumeSet(st, v).volume == Clamp(0.0, 1.0, v) && 0.0 <= VolumeSet(st, v).volume <= 1.0
    ensures st.audio.Some? ==> VolumeSet(st, v).audio.value.volume == VolumeSet(st, v).volume
  {
  }

  /** Playing a source other than the loaded file's URL revokes that URL once and forgets
      it; playing the loaded URL itself keeps it. */
  lemma RevokeRule(st: PlayerState, url: string, audioMap: Option<AudioMap>, other: string, ok: bool)
    requires url != "" && other != "" && other != url
    requires st.loadedObjectUrl == Some(url)
    requires audioMap.None?
    ensures var (t, _) := AfterPlay(st, Str(other), audioMap, true, None, 0, ok);
      t.loadedObjectUrl == None && t.revoked == st.revoked + [url] && t.currentSrc == Some(other)
    ensures var (t, _) := AfterPlay(st, Str(url), audioMap, true, None, 0, ok);
      t.loadedObjectUrl == Some(url) && t.revoked == st.revoked
    ensures var (t, _) := AfterPlay(st, Null, audioMap, true, None, 0, ok);
      t.currentSrc == Some(url) && t.loadedObjectUrl == Some(url) && t.revoked == st.revoked
  {
  }

  /** Whatever source play() chooses — a loaded file, a track from a list, a key resolved
      through the audio map or a direct URL — a truthy loaded object URL is revoked once and
      forgotten exactly when the chosen source differs from it, and kept otherwise; a
      rejection before the element starts revokes nothing. */
  lemma PlayReleasesLoaded(st: PlayerState, keyOrUrl: Src, audioMap: Option<AudioMap>, loop: bool,
                           volume: Option<real>, index: int, ok: bool)
    ensures var (t, r) := AfterPlay(st, keyOrUrl, audioMap, loop, volume, index, ok);
      && (r == Played || r == PlayRejected ==>
            && t.currentSrc.Some?
            && (TruthyUrl(st.loadedObjectUrl) && t.currentSrc != st.loadedObjectUrl ==>
                  t.loadedObjectUrl == None && t.revoked == st.revoked + [st.loadedObjectUrl.value])
            && (t.currentSrc == st.loadedObjectUrl ==>
                  t.loadedObjectUrl == st.loadedObjectUrl && t.revoked == st.revoked))
      && (!TruthyUrl(st.loadedObjectUrl) ==> t.loadedObjectUrl == st.loadedObjectUrl && t.revoked == st.revoked)
      && (r == NoTrackForIndex || r == NoAudioSource ==>
            t.loadedObjectUrl == st.loadedObjectUrl && t.revoked == st.revoked)
  {
  }

  /** play sets isPlaying on success and clears it when audio.play() fails; a rejection
      for a missing track or source leaves it as it was. Pause and stop clear it and do
      nothing at all without an element. */
  lemma PlayingRule(st: PlayerState, keyOrUrl: Src, audioMap: Option<AudioMap>, loop: bool,
                    volume: Option<real>, index: int, ok: bool)
    ensures var (t, r) := AfterPlay(st, keyOrUrl, audioMap, loop, volume, index, ok);
      && (r == Played ==> ok && t.isPlaying && t.audio.Some? && !t.audio.value.paused)
      && (r == PlayRejected ==> !ok && !t.isPlaying)
      && (r == NoTrackForIndex || r == NoAudioSource ==> t.isPlaying == st.isPlaying)
    ensures st.audio.None? ==> Paused(st) == st && Stopped(st) == st
    ensures st.audio.Some? ==>
      && !Paused(st).isPlaying && !Stopped(st).isPlaying
      && Stopped(st).audio.value.currentTime == 0.0
  {
  }

  /** After unload nothing is current, nothing is loaded, nothing plays, and a loaded URL
      has been revoked. */
  lemma UnloadRule(st: PlayerState)
    ensures var t := Unloaded(st);
      && t.currentSrc == None && t.loadedObjectUrl == None && !t.isPlaying
      && (TruthyUrl(st.loadedObjectUrl) ==> t.revoked == st.revoked + [st.loadedObjectUrl.value])
      && (st.audio.Some? ==> t.audio.value.src == "" && t.audio.value.paused)
  {
  }

  /** loadFile makes the new URL the loaded and current source and revokes a different
      earlier one; without a file it does nothing. */
  lemma LoadFileRule(st: PlayerState, hasFile: bool, url: string)
    ensures !hasFile ==> FileLoaded(st, hasFile, url) == (st, None)
    ensures hasFile ==>
      var (t, r) := FileLoaded(st, hasFile, url);
      r == Some(url) && t.loadedObjectUrl == Some(url) && t.currentSrc == Some(url)
      && t.audio.value.src == url && t.isPlaying == st.isPlaying
      && (TruthyUrl(st.loadedObjectUrl) && st.loadedObjectUrl.value != url ==> t.revoked == st.revoked + [st.loadedObjectUrl.value])
      && (!TruthyUrl(st.loadedObjectUrl) || st.loadedObjectUrl.value == url ==> t.revoked == st.revoked)
  {
  }

  /** Every operation keeps the player invariant. */
  lemma ValidPreserved(st: PlayerState, keyOrUrl: Src, audioMap: Option<AudioMap>, loop: bool,
                       volume: Option<real>, index: int, ok: bool, v: real, hasFile: bool, url: string)
    requires Valid(st)
    ensures Valid(Initial)
    ensures Valid(AfterPlay(st, keyOrUrl, audioMap, loop, volume, index, ok).0)
    ensures Valid(Paused(st)) && Valid(Stopped(st)) && Valid(VolumeSet(st, v))
    ensures Valid(FileLoaded(st, hasFile, url).0) && Valid(Unloaded(st)) && Valid(AudioEnded(st))
  {
  }

  // ---------------------------------------------------------------------------
  // The player object

  class Player {
    var audio: Option<AudioElement>
    var currentSrc: Option<string>
    var loadedObjectUrl: Option<string>
    var isPlaying: bool
    var volume: real
    var revoked: seq<string>

    function State(): PlayerState
      reads this
    {
      PlayerState(audio, currentSrc, loadedObjectUrl, isPlaying, volume, revoked)
    }

    constructor ()
      ensures State() == Initial
    {
      audio, currentSrc, loadedObjectUrl, isPlaying, volume, revoked := None, None, None, false, DefaultVolume, [];
    }

    method EnsureAudio()
      modifies this
      ensures State() == WithAudio(old(State()))
    {
      if audio.None? {
        audio := Some(FreshAudio);
      }
    }

    method RevokeLoadedIfOther(src: string)
      modifies this
      ensures State() == ReleasedFor(old(State()), src)
    {
      if loadedObjectUrl.Some? && loadedObjectUrl.value != "" && loadedObjectUrl.value != src {
        revoked := revoked + [loadedObjectUrl.value];
        loadedObjectUrl := None;
      }
    }

    /** The part of play() that picks and sets the source. */
    method ChooseSource(keyOrUrl: Src, audioMap: Option<AudioMap>, index: int) returns (result: PlayResult)
      modifies this
      requires audio.Some?
      ensures (State(), result) == SourceChosen(old(State()), keyOrUrl, audioMap, index)
    {
      var resolved := ResolveSrc(keyOrUrl, audioMap);
      if !Truthy(resolved) && loadedObjectUrl.Some? && loadedObjectUrl.value != "" {
        audio := Some(audio.value.(src := loadedObjectUrl.value));
        currentSrc := loadedObjectUrl;
      } else if resolved.Tracks? {
        var idx := ClampIndex(|resolved.items|, index);
        if idx >= |resolved.items| || resolved.items[idx] == "" {
          return NoTrackForIndex;
        }
        var chosen := resolved.items[idx];
        RevokeLoadedIfOther(chosen);
        audio := Some(audio.value.(src := chosen));
        currentSrc := Some(chosen);
      } else {
        var src := if Truthy(resolved) then resolved else keyOrUrl;
        if !Truthy(src) {
          return NoAudioSource;
        }
        RevokeLoadedIfOther(src.s);
        audio := Some(audio.value.(src := src.s));
        currentSrc := Some(src.s);
      }
      result := Played;
    }

    method Play(keyOrUrl: Src, audioMap: Option<AudioMap>, loop: bool, vol: Option<real>, index: int,
                playSucceeds: bool) returns (result: PlayResult)
      modifies this
      ensures (State(), result) == AfterPlay(old(State()), keyOrUrl, audioMap, loop, vol, index, playSucceeds)
    {
      EnsureAudio();
      result := ChooseSource(keyOrUrl, audioMap, index);
      if result != Played {
        return;
      }
      if vol.Some? {
        volume := vol.value;
      }
      var element := audio.value.(loop := loop, volume := Clamp(0.0, 1.0, volume));
      if playSucceeds {
        audio := Some(element.(paused := false));
        isPlaying := true;
        result := Played;
      } else {
        audio := Some(element);
        isPlaying := false;
        result := PlayRejected;
      }
    }

    method Pause()
      modifies this
      ensures State() == Paused(old(State()))
    {
      if audio.None? {
        return;
      }
      audio := Some(audio.value.(paused := true));
      isPlaying := false;
    }

    method Stop()
      modifies this
      ensures State() == Stopped(old(State()))
    {
      if audio.None? {
        return;
      }
      audio := Some(audio.value.(paused := true, currentTime := 0.0));
      isPlaying := false;
    }

    method SetVolume(v: real)
      modifies this
      ensures State() == VolumeSet(old(State()), v)
    {
      volume := Clamp(0.0, 1.0, v);
      if audio.Some? {
        audio := Some(audio.value.(volume := volume));
      }
    }

    method LoadFile(hasFile: bool, url: string) returns (r: Option<string>)
      modifies this
      ensures (State(), r) == FileLoaded(old(State()), hasFile, url)
    {
      if !hasFile {
        return None;
      }
      if loadedObjectUrl.Some? && loadedObjectUrl.value != "" && loadedObjectUrl.value != url {
        revoked := revoked + [loadedObjectUrl.value];
      }
      loadedObjectUrl := Some(url);
      currentSrc := Some(url);
      EnsureAudio();
      audio := Some(audio.value.(src := url));
      r := Some(url);
    }

    method Unload() returns (ok: bool)
      modifies this
      ensures ok && State() == Unloaded(old(State()))
    {
      if audio.Some? {
        audio := Some(audio.value.(paused := true, src := ""));
      }
      if loadedObjectUrl.Some? && loadedObjectUrl.value != "" {
        revoked := revoked + [loadedObjectUrl.value];
      }
      loadedObjectUrl := None;
      currentSrc := None;
      isPlaying := false;
      ok := true;
    }

    method OnEnded()
      modifies this
      ensures State() == AudioEnded(old(State()))
    {
      isPlaying := false;
    }
  }
}
