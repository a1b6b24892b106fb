/** The part of android.media.MediaPlayer the plugin drives, as an abstract object: where playback
    stands, what it is bound to, and the log of calls made on it (decoding is not modelled). */
module AndroidMedia {
  import opened Streams

  /** AudioManager.STREAM_MUSIC. */
  const STREAM_MUSIC: int := 3

  datatype PlayerCall =
    | CallReset
    | CallSetAudioStreamType(streamType: int)
    | CallSetDataSource(path: string)
    | CallSetOnPreparedListener
    | CallPrepareAsync
    | CallStart
    | CallPause
    | CallSeekTo(msec: int)
    | CallSetVolume(left: real, right: real)

  /** A snapshot of a player's fields, so that a call can be specified as an update of it. */
  datatype PlayerState = PlayerState(
    position: int,
    playing: bool,
    volume: (real, real),
    dataSource: Option<string>,
    streamType: Option<int>,
    listenerSet: bool,
    prepareRequested: bool)

  /** What `reset()` does to a player: back to the idle state, unbound, not playing, at position 0;
      volume, stream type and listener are settings it keeps. */
  function AfterReset(s: PlayerState): PlayerState
  {
    s.(position := 0, playing := false, dataSource := None, prepareRequested := false)
  }

  class MediaPlayer {
    var position: int
    var playing: bool
    var volume: (real, real)
    var dataSource: Option<string>
    var streamType: Option<int>
    var listenerSet: bool
    var prepareRequested: bool
    var calls: seq<PlayerCall>

    ghost function State(): PlayerState
      reads this
    {
      PlayerState(position, playing, volume, dataSource, streamType, listenerSet, prepareRequested)
    }

    constructor ()
      ensures State() == PlayerState(0, false, (1.0, 1.0), None, None, false, false) && calls == []
    {
      position, playing, volume := 0, false, (1.0, 1.0);
      dataSource, streamType, listenerSet, prepareRequested := None, None, false, false;
      calls := [];
    }

    method Reset()
      modifies this
      ensures State() == AfterReset(old(State())) && calls == old(calls) + [CallReset]
    {
      position, playing, dataSource, prepareRequested := 0, false, None, false;
      calls := calls + [CallReset];
    }

    method SetAudioStreamType(streamType: int)
      modifies this
      ensures State() == old(State()).(streamType := Some(streamType))
      ensures calls == old(calls) + [CallSetAudioStreamType(streamType)]
    {
      this.streamType := Some(streamType);
      calls := calls + [CallSetAudioStreamType(streamType)];
    }

    /** `setDataSource(fd)`, with the descriptor's file named by its path. */
    method SetDataSource(path: string)
      modifies this
      ensures State() == old(State()).(dataSource := Some(path))
      ensures calls == old(calls) + [CallSetDataSource(path)]
    {
      dataSource := Some(path);
      calls := calls + [CallSetDataSource(path)];
    }

    method SetOnPreparedListener()
      modifies this
      ensures State() == old(State()).(listenerSet := true)
      ensures calls == old(calls) + [CallSetOnPreparedListener]
    {
      listenerSet := true;
      calls := calls + [CallSetOnPreparedListener];
    }

    /** `prepareAsync()`: only records the request; preparation itself happens elsewhere. */
    method PrepareAsync()
      modifies this
      ensures State() == old(State()).(prepareRequested := true)
      ensures calls == old(calls) + [CallPrepareAsync]
    {
      prepareRequested := true;
      calls := calls + [CallPrepareAsync];
    }

    method Start()
      modifies this
      ensures State() == old(State()).(playing := true) && calls == old(calls) + [CallStart]
    {
      playing := true;
      calls := calls + [CallStart];
    }

    method Pause()
      modifies this
      ensures State() == old(State()).(playing := false) && calls == old(calls) + [CallPause]
    {
      playing := false;
      calls := calls + [CallPause];
    }

    method SeekTo(msec: int)
      modifies this
      ensures State() == old(State()).(position := msec) && calls == old(calls) + [CallSeekTo(msec)]
    {
      position := msec;
      calls := calls + [CallSeekTo(msec)];
    }

    method SetVolume(left: real, right: real)
      modifies this
      ensures State() == old(State()).(volume := (left, right))
      ensures calls == old(calls) + [CallSetVolume(left, right)]
    {
      volume := (left, right);
      calls := calls + [CallSetVolume(left, right)];
    }
  }
}
