/** org.cooder.appcan.plugin.EUExMediaPlayer: materialise a bundled asset in the cache directory,
    bind it to the player, and forward the transport commands. */
module MediaPlayerPlugin {
  import opened Streams
  import opened StreamUtil
  import opened AndroidMedia
  import PreparedPayload

  /** java.io.File.separator on Android. */
  const SEPARATOR: string := "/"
  /** The directory of the application package that holds the bundled media. */
  const ASSET_DIR: string := "widget"

  /** Where `open` keeps the cached copy of the media called `name`. */
  function MediaPath(cacheDir: string, name: string): (p: string)
    ensures |p| == |cacheDir| + 1 + |name|
    ensures p[..|cacheDir|] == cacheDir && p[|cacheDir|] == '/' && p[|cacheDir| + 1..] == name
  {
    cacheDir + SEPARATOR + name
  }

  /** Where `open` finds the media called `name` among the package's assets. */
  function AssetPath(name: string): (p: string)
    ensures |p| == |ASSET_DIR| + 1 + |name|
    ensures p[..|ASSET_DIR|] == ASSET_DIR && p[|ASSET_DIR|] == '/' && p[|ASSET_DIR| + 1..] == name
  {
    ASSET_DIR + SEPARATOR + name
  }

  /** Different media names never share a cache path string (paths are compared as written,
      without normalisation). */
  lemma MediaPathInjective(cacheDir: string, a: string, b: string)
    requires MediaPath(cacheDir, a) == MediaPath(cacheDir, b)
    ensures a == b
  {
    assert a == MediaPath(cacheDir, a)[|cacheDir| + 1..];
    assert b == MediaPath(cacheDir, b)[|cacheDir| + 1..];
  }

  /** The cache file and the asset are the same name under two roots. */
  lemma MediaPathNames(cacheDir: string, name: string)
    ensures MediaPath(cacheDir, name)[..|cacheDir| + 1] == cacheDir + SEPARATOR
    ensures MediaPath(cacheDir, name)[|cacheDir| + 1..] == name
    ensures AssetPath(name)[..|ASSET_DIR| + 1] == ASSET_DIR + SEPARATOR
    ensures AssetPath(name)[|ASSET_DIR| + 1..] == name
  {
    assert MediaPath(cacheDir, name) == (cacheDir + SEPARATOR) + name;
    assert AssetPath(name) == (ASSET_DIR + SEPARATOR) + name;
  }

  /** The calls `init` makes on the player: reset and select the music stream, then, once the
      cached file is open, bind it, register the prepared listener and request preparation. */
  function InitCalls(path: string, bound: bool): seq<PlayerCall>
  {
    [CallReset, CallSetAudioStreamType(STREAM_MUSIC)]
      + if bound then [CallSetDataSource(path), CallSetOnPreparedListener, CallPrepareAsync] else []
  }

  /** The player's state after `init` from state `s`: reset, on the music stream, and, when the
      cached file could be opened, bound to it with the listener set and preparation requested. */
  function AfterInit(s: PlayerState, path: string, bound: bool): PlayerState
  {
    var r := AfterReset(s).(streamType := Some(STREAM_MUSIC));
    if bound then r.(dataSource := Some(path), listenerSet := true, prepareRequested := true) else r
  }

  /** The arity guard of `setVolume`: exactly two arguments. */
  predicate VolumeArity(params: Option<seq<string>>)
  {
    params.Some? && |params.value| == 2
  }

  /** The arity guard of `seekTo`: exactly one argument. */
  predicate SeekArity(params: Option<seq<string>>)
  {
    params.Some? && |params.value| == 1
  }

  /** True when `open` gets as far as naming a media file (`param[0]` exists). */
  predicate Named(param: Option<seq<string>>)
  {
    param.Some? && |param.value| >= 1
  }

  class Plugin {
    const player: MediaPlayer
    /** `context.getCacheDir().getAbsolutePath()`. */
    const cacheDir: string
    /** The package's assets, by asset path. */
    const assets: map<string, seq<byte>>
    /** Whether `new FileOutputStream(mediaPath)` can create a file in the cache directory. */
    const cacheWritable: bool
    /** How many bytes a new cache file can take before a write throws (None: unbounded). */
    const cacheCapacity: Option<nat>
    var mediaPath: Option<string>
    /** The files of the cache directory, by absolute path. */
    var files: map<string, seq<byte>>

    constructor (cacheDir: string, assets: map<string, seq<byte>>, files: map<string, seq<byte>>,
                 cacheWritable: bool, cacheCapacity: Option<nat>)
      ensures fresh(player) && player.State() == PlayerState(0, false, (1.0, 1.0), None, None, false, false)
      ensures player.calls == [] && mediaPath == None && this.files == files
      ensures this.cacheDir == cacheDir && this.assets == assets
      ensures this.cacheWritable == cacheWritable && this.cacheCapacity == cacheCapacity
    {
      player := new MediaPlayer();
      this.cacheDir := cacheDir;
      this.assets := assets;
      this.cacheWritable := cacheWritable;
      this.cacheCapacity := cacheCapacity;
      mediaPath := None;
      this.files := files;
    }

    /** `init()`: reset the player, select the music stream, open the cached file and bind it,
        register the listener and request preparation; a failure to open the file is caught after
        the reset, and the file stream `fis` is closed whenever it was opened. */
    method Init() returns (ghost fis: Source?<byte>)
      modifies player
      ensures var bound := mediaPath.Some? && mediaPath.value in files;
              && player.State() == AfterInit(old(player.State()), if bound then mediaPath.value else "", bound)
              && player.calls == old(player.calls) + InitCalls(if bound then mediaPath.value else "", bound)
              && (fis != null <==> bound)
      ensures fis != null ==> fresh(fis) && fis.closed
    {
      player.Reset();
      player.SetAudioStreamType(STREAM_MUSIC);
      var stream: Source?<byte> := null;
      if mediaPath.Some? && mediaPath.value in files {
        stream := new Source<byte>(files[mediaPath.value], false, false);
        player.SetDataSource(mediaPath.value);
        player.SetOnPreparedListener();
        player.PrepareAsync();
      }
      if stream != null {
        var ignored := stream.Close();
      }
      fis := stream;
    }

    /** `open(param)`: name the cache file after `param[0]`; unless it already exists, copy the
        asset `widget/param[0]` into it; then `init()`. Every exception is caught and ends `open`:
        a missing `param[0]`, a missing asset, an uncreatable cache file, or a failed copy (which
        leaves the partial file in place and skips `init`). */
    method Open(param: Option<seq<string>>) returns (ghost asset: Source?<byte>, ghost fis: Source?<byte>)
      modifies this, player
      ensures !Named(param) ==> mediaPath == old(mediaPath) && files == old(files) && unchanged(player)
      ensures Named(param) ==> mediaPath == Some(MediaPath(cacheDir, param.value[0]))
      // The cache file already exists: the assets are not read, the file is kept, the player bound.
      ensures Named(param) && MediaPath(cacheDir, param.value[0]) in old(files) ==>
                var path := MediaPath(cacheDir, param.value[0]);
                && files == old(files) && asset == null
                && player.State() == AfterInit(old(player.State()), path, true)
                && player.calls == old(player.calls) + InitCalls(path, true)
                && fis != null && fis.closed
      // No cache file and no such asset: nothing but `mediaPath` changes.
      ensures Named(param) && MediaPath(cacheDir, param.value[0]) !in old(files)
                && AssetPath(param.value[0]) !in assets ==>
                files == old(files) && asset == null && fis == null && unchanged(player)
      // The cache file cannot be created: the asset stream is left open.
      ensures Named(param) && MediaPath(cacheDir, param.value[0]) !in old(files)
                && AssetPath(param.value[0]) in assets && !cacheWritable ==>
                && files == old(files) && fis == null && unchanged(player)
                && asset != null && fresh(asset) && !asset.closed
      // The copy: the cache file receives a prefix of the asset, all of it exactly when it fits;
      // only a complete copy goes on to `init`.
      ensures Named(param) && MediaPath(cacheDir, param.value[0]) !in old(files)
                && AssetPath(param.value[0]) in assets && cacheWritable ==>
                var path := MediaPath(cacheDir, param.value[0]);
                var data := assets[AssetPath(param.value[0])];
                && path in files && files == old(files)[path := files[path]]
                && files[path] <= data
                && (files[path] == data <==> Fits(|data|, cacheCapacity))
                && asset != null && fresh(asset) && asset.closed
                && (Fits(|data|, cacheCapacity) ==>
                      && player.State() == AfterInit(old(player.State()), path, true)
                      && player.calls == old(player.calls) + InitCalls(path, true)
                      && fis != null && fis.closed)
                && (!Fits(|data|, cacheCapacity) ==> fis == null && unchanged(player))
    {
      asset, fis := null, null;
      if param.None? || |param.value| == 0 {
        return;
      }
      var name := param.value[0];
      var path := MediaPath(cacheDir, name);
      mediaPath := Some(path);
      if path !in files {
        var cached;
        cached, asset := CacheAsset(name, path);
        if !cached {
          return;
        }
      }
      fis := Init();
    }

    /** The branch of `open` for a cache file that does not exist yet: open the asset, create the
        file, and copy the asset into it. `cached` says whether `open` goes on to `init`, which it
        does only when no exception was thrown. */
    method CacheAsset(name: string, path: string) returns (cached: bool, ghost asset: Source?<byte>)
      requires path !in files
      modifies this
      ensures mediaPath == old(mediaPath)
      ensures AssetPath(name) !in assets ==> !cached && files == old(files) && asset == null
      ensures AssetPath(name) in assets && !cacheWritable ==>
                && !cached && files == old(files)
                && asset != null && fresh(asset) && !asset.closed
      ensures AssetPath(name) in assets && cacheWritable ==>
                var data := assets[AssetPath(name)];
                && path in files && files == old(files)[path := files[path]]
                && files[path] <= data
                && (files[path] == data <==> Fits(|data|, cacheCapacity))
                && (cached <==> Fits(|data|, cacheCapacity))
                && asset != null && fresh(asset) && asset.closed
    {
      cached, asset := false, null;
      if AssetPath(name) !in assets {
        return;
      }
      var input := new Source<byte>(assets[AssetPath(name)], false, false);
      asset := input;
      if !cacheWritable {
        return;
      }
      var output := new Sink<byte>(cacheCapacity, false, false);
      files := files[path := []];
      var outcome, _ := CopyStreamDefault(input, output);
      files := files[path := output.written];
      cached := outcome.Completed?;
    }

    /** `play`: one `start()`, whatever state the player is in. */
    method Play(params: Option<seq<string>>)
      modifies player
      ensures player.State() == old(player.State()).(playing := true)
      ensures player.calls == old(player.calls) + [CallStart]
    {
      player.Start();
    }

    /** `stop`: `pause()` then `seekTo(0)`. */
    method Stop(params: Option<seq<string>>)
      modifies player
      ensures player.State() == old(player.State()).(playing := false, position := 0)
      ensures player.calls == old(player.calls) + [CallPause, CallSeekTo(0)]
    {
      player.Pause();
      player.SeekTo(0);
    }

    /** `pause`: one `pause()`; the position is kept. */
    method Pause(params: Option<seq<string>>)
      modifies player
      ensures player.State() == old(player.State()).(playing := false)
      ensures player.calls == old(player.calls) + [CallPause]
    {
      player.Pause();
    }

    /** `resume`: the same single `start()` as `play`. */
    method Resume(params: Option<seq<string>>)
      modifies player
      ensures player.State() == old(player.State()).(playing := true)
      ensures player.calls == old(player.calls) + [CallStart]
    {
      player.Start();
    }

    /** `setVolume(params)`: with exactly two arguments, parsed as `left` and `right`, set both
        channels; otherwise (no arguments array, or the wrong number) do nothing. */
    method SetVolume(params: Option<seq<string>>, left: real, right: real)
      modifies player
      ensures VolumeArity(params) ==> player.State() == old(player.State()).(volume := (left, right))
      ensures VolumeArity(params) ==> player.calls == old(player.calls) + [CallSetVolume(left, right)]
      ensures !VolumeArity(params) ==> unchanged(player)
    {
      if params.None? || |params.value| != 2 {
        return;
      }
      player.SetVolume(left, right);
    }

    /** `seekTo(params)`: with exactly one argument, parsed as `msec`, seek there (no bounds
        check); otherwise do nothing. */
    method SeekTo(params: Option<seq<string>>, msec: int)
      modifies player
      ensures SeekArity(params) ==> player.State() == old(player.State()).(position := msec)
      ensures SeekArity(params) ==> player.calls == old(player.calls) + [CallSeekTo(msec)]
      ensures !SeekArity(params) ==> unchanged(player)
    {
      if params.None? || |params.value| != 1 {
        return;
      }
      player.SeekTo(msec);
    }

    /** `clean()`: reset the player and report success. */
    method Clean() returns (r: bool)
      modifies player
      ensures r
      ensures player.State() == AfterReset(old(player.State())) && player.calls == old(player.calls) + [CallReset]
    {
      player.Reset();
      r := true;
    }

    /** `onPrepared(mp)`: the JSON handed to the host, for the `duration` the player reports. */
    method OnPrepared(duration: int) returns (json: string)
      ensures PreparedPayload.ParsePayload(json) == Some(duration)
      ensures |json| > |PreparedPayload.PREFIX| + |PreparedPayload.SUFFIX|
      ensures json[..|PreparedPayload.PREFIX|] == PreparedPayload.PREFIX && json[|json| - 1] == '}'
      ensures PreparedPayload.IsJsonInteger(json[|PreparedPayload.PREFIX|..|json| - 1])
      ensures json[|PreparedPayload.PREFIX|] == '-' <==> duration < 0
    {
      json := PreparedPayload.Payload(duration);
      PreparedPayload.PayloadRoundTrip(duration);
    }
  }
}
