# uexMediaPlayer: stream copying and the media-player plugin

This project models two parts of the AppCan `uexMediaPlayer` plugin and proves properties of the model.

- **`org.cooder.util.StreamUtil`** copies a byte or char stream into another. It reads into a buffer
  until `read` returns -1. When a read returns a count of 0, it falls back to reading one element.
  Afterwards it flushes the destination and closes both streams, ignoring any exception those calls
  throw. Built on this copy are `writeToByteArray`, `backupStream` and `writeToString`.
- **`org.cooder.appcan.plugin.EUExMediaPlayer`** handles `open(name)`:
  - it names a cache file `cacheDir/name`;
  - unless that file already exists, it copies the packaged asset `widget/name` into it;
  - it then resets an `android.media.MediaPlayer` and binds the player to the file.

  It also forwards the transport commands (play, pause, resume, stop, setVolume, seekTo, clean).
  When the player is prepared, it reports `{"duration":<ms>}` to the host.

The files:

- `streams.dfy` (module `Streams`): the java.io streams, modelled as two classes.
  - A `Source` holds the elements still to be read.
  - A `Sink` holds what it has accepted, whether that has been flushed, and a log of every call made
    on it.
  - Faults are configuration of a stream:
    - a source whose read throws once its data is exhausted (`failsAtEnd`);
    - a sink with a bounded `capacity`, whose writes throw when they would exceed it;
    - flushes or closes that throw.
  - `read(buffer)` may return any count from 0 up to what is available. It returns -1 only at the end
    of the stream.
- `stream_util.dfy` (module `StreamUtil`): the copy loop `Pump` and every public `StreamUtil` method.
  The byte copy and the char copy share the loop; `flushAfterPut` switches on the char copy's
  `flush()` after a single-char write.
- `android_media.dfy` (module `AndroidMedia`): the part of `MediaPlayer` the plugin drives. It records
  the fields the plugin's calls change, plus a log of those calls.
- `payload.dfy` (module `PreparedPayload`): how Java renders an `int`, and the `onPrepared` JSON text,
  with a parser it round-trips through.
- `plugin.dfy` (module `MediaPlayerPlugin`): the plugin object, over a cache directory (a map from
  path to bytes) and the package's assets (a map from asset path to bytes).

The javadoc of `copyStream(InputStream, OutputStream[, int])` and of `backupStream` says that neither
stream is closed. The code closes both, in a `finally` block. The model follows the code:
`CopyStream` ensures `source.closed && dest.closed`. Only `copyStreamNoClose` leaves the destination
open.

## Model

| member | source | states |
|---|---|---|
| Streams.Source.ReadInto | uexMediaPlayer/src/org/cooder/util/StreamUtil.java:48-51 | `read(buffer)` throws exactly when the stream is closed or exhausted-and-failing. It returns -1 only at the end of the stream. Otherwise it returns a count n, possibly 0, and moves the next n elements into `buffer[0..n)`. |
| Streams.Source.Read | uexMediaPlayer/src/org/cooder/util/StreamUtil.java:52-54 | `read()` returns the next element and consumes it, or None (the -1 of java.io) exactly at the end of the stream. |
| Streams.Source.Close | uexMediaPlayer/src/org/cooder/util/StreamUtil.java:68-72 | The source is closed afterwards even when `close()` throws. It throws exactly when it is configured to. |
| Streams.Sink.Put | uexMediaPlayer/src/org/cooder/util/StreamUtil.java:55 | The call is logged. It throws exactly when the sink is closed or full. On success the element is appended; on failure nothing is accepted. |
| Streams.Sink.PutAll | uexMediaPlayer/src/org/cooder/util/StreamUtil.java:58 | The same for `write(buffer, 0, len)`: `buffer[0..len)` is accepted all or nothing. |
| Streams.Sink.Flush | uexMediaPlayer/src/org/cooder/util/StreamUtil.java:63-67 | The call is logged. The accepted elements are unchanged. The sink is flushed unless the flush throws. |
| Streams.Sink.Close | uexMediaPlayer/src/org/cooder/util/StreamUtil.java:73-77 | The call is logged. The sink is closed afterwards even when `close()` throws. |
| StreamUtil.EffectiveBufferSize | uexMediaPlayer/src/org/cooder/util/StreamUtil.java:40-42 | A positive buffer size is kept. Zero or a negative size becomes `DEFAULT_BUFFER_SIZE` (2048). The result is always at least 1. |
| StreamUtil.LoopCallsWrite | uexMediaPlayer/src/org/cooder/util/StreamUtil.java:55-58 | When the loop may write, appending a write keeps the loop's call-order invariant. |
| StreamUtil.LoopCallsFlush | uexMediaPlayer/src/org/cooder/util/StreamUtil.java:146-147 | In the char copy, a flush right after a single-char write keeps the call-order invariant. |
| StreamUtil.LoopCallsThenFlush | uexMediaPlayer/src/org/cooder/util/StreamUtil.java:139-156 | In the char copy's call log followed by the final flush and close, every single-char write is immediately followed by a flush. |
| StreamUtil.PutOne | uexMediaPlayer/src/org/cooder/util/StreamUtil.java:146-148 | The single-element write, followed by a flush in the char copy when the write succeeded. The sink gains the element or nothing. It fails only because the sink is closed or full, or because the flush throws. |
| StreamUtil.PumpOne | uexMediaPlayer/src/org/cooder/util/StreamUtil.java:51-57 | The fallback after a zero count. At the end of the stream the loop ends with nothing written. Otherwise one element moves from the source to the sink, and the loop goes on unless a call threw. |
| StreamUtil.PutChunk | uexMediaPlayer/src/org/cooder/util/StreamUtil.java:58 | The chunk write: the log gains one chunk of exactly `buffer[0..len)`. The sink gains the chunk, or nothing when the write throws for lack of room. |
| StreamUtil.PumpStep | uexMediaPlayer/src/org/cooder/util/StreamUtil.java:48-58 | One pass of the loop. What it takes from the source is exactly what it hands to the sink. The sink gains all of that, or on an exception a prefix of it. An exception is traced to its cause: a failing read, a closed or full sink, or a failing flush. A pass that continues the loop consumed input. |
| StreamUtil.ProgressStep | uexMediaPlayer/src/org/cooder/util/StreamUtil.java:48-59 | One pass keeps the loop invariant. The start of the source handed over so far equals what the sink gained. Everything the sink accepted fits its capacity. |
| StreamUtil.WriteFailureInfeasible | uexMediaPlayer/src/org/cooder/util/StreamUtil.java:55-58 | A write that throws for lack of room shows that the whole source did not fit the sink in the first place. |
| StreamUtil.CompletionFeasible | uexMediaPlayer/src/org/cooder/util/StreamUtil.java:48-59 | A loop that ends normally has copied all of the source, which needs the whole source to fit. |
| StreamUtil.Pump | uexMediaPlayer/src/org/cooder/util/StreamUtil.java:48-59 | The loop terminates. Everything read is written, in order. It ends normally only when the copy was feasible: readable to the end, with a sink that is open and large enough. It does end normally whenever the copy is feasible and no flush inside the loop fails. |
| StreamUtil.CopyStream | uexMediaPlayer/src/org/cooder/util/StreamUtil.java:39-79 | It succeeds exactly when the copy is feasible, and then the destination holds its old contents followed by all of the source. On failure it holds a prefix of that, within capacity. Both streams are closed on every path. The calls end with flush then close, and every earlier call is a write of the source's data in order. |
| StreamUtil.CopyStreamNoClose | uexMediaPlayer/src/org/cooder/util/StreamUtil.java:81-116 | As `CopyStream`, except that the destination is only flushed and stays as open as it was. |
| StreamUtil.CopyChars | uexMediaPlayer/src/org/cooder/util/StreamUtil.java:130-171 | The char copy. It succeeds only when the copy is feasible, and it does succeed when the copy is feasible and flushes do not fail. It copies the data in order. Every single-char write is immediately followed by a flush, and inside the loop a flush comes only right after a single-char write. Both streams are closed on every path. |
| StreamUtil.CopyCharsDefault | uexMediaPlayer/src/org/cooder/util/StreamUtil.java:183-185 | The contract of `CopyChars` with the default buffer size: its outcome clauses, the in-order copy, the logged writes carrying a prefix of the reader's data, and each single-char write flushed. |
| StreamUtil.CopyStreamDefault | uexMediaPlayer/src/org/cooder/util/StreamUtil.java:200-202 | The contract of `CopyStream` with the default buffer size, including that the logged writes carry a prefix of the source's data. |
| StreamUtil.BackupStream | uexMediaPlayer/src/org/cooder/util/StreamUtil.java:215-219 | It succeeds exactly when the source can be read to its end. It then returns a new, open, fault-free stream over exactly the source's bytes. The source is closed on every path. |
| StreamUtil.WriteToByteArrayDefault | uexMediaPlayer/src/org/cooder/util/StreamUtil.java:231-233 | As `WriteToByteArray` with the default buffer size. |
| StreamUtil.WriteToByteArray | uexMediaPlayer/src/org/cooder/util/StreamUtil.java:247-251 | It returns exactly the stream's remaining bytes, and throws exactly when the stream cannot be read to its end. The stream is closed on every path. |
| StreamUtil.WriteToString | uexMediaPlayer/src/org/cooder/util/StreamUtil.java:262-266 | It returns exactly the reader's remaining chars, and throws exactly when the reader cannot be read to its end. The reader is closed on every path. |
| PreparedPayload.Digits | uexMediaPlayer/src/org/cooder/appcan/plugin/EUExMediaPlayer.java:107 | The decimal rendering of a natural number is a non-empty run of digits with no leading zero. |
| PreparedPayload.Decimal | uexMediaPlayer/src/org/cooder/appcan/plugin/EUExMediaPlayer.java:107 | Java's rendering of an `int`: non-empty, starting with `-` exactly for a negative number, never `-0`, and starting with `0` only for zero. |
| PreparedPayload.Payload | uexMediaPlayer/src/org/cooder/appcan/plugin/EUExMediaPlayer.java:107 | The payload starts with `{"duration":` and ends with `}`, and its number carries a minus sign exactly when the duration is negative. |
| PreparedPayload.DigitsRoundTrip | uexMediaPlayer/src/org/cooder/appcan/plugin/EUExMediaPlayer.java:107 | Reading the digits back gives the number. |
| PreparedPayload.DecimalRoundTrip | uexMediaPlayer/src/org/cooder/appcan/plugin/EUExMediaPlayer.java:107 | The rendering of every `int`, negative ones included, parses back to that `int`. |
| PreparedPayload.DecimalIsJsonInteger | uexMediaPlayer/src/org/cooder/appcan/plugin/EUExMediaPlayer.java:107 | The rendering is a JSON integer as section 6 of RFC 8259 defines one: an optional minus, then 0 or a digit run without a leading zero. |
| PreparedPayload.PayloadRoundTrip | uexMediaPlayer/src/org/cooder/appcan/plugin/EUExMediaPlayer.java:107 | The payload parses back to the duration it was built from, and between the `{"duration":` and `}` it holds a JSON integer, signed exactly when the duration is negative. |
| MediaPlayerPlugin.MediaPath | uexMediaPlayer/src/org/cooder/appcan/plugin/EUExMediaPlayer.java:34 | The cache path is the cache directory, one `/`, then the media name, and nothing else. |
| MediaPlayerPlugin.AssetPath | uexMediaPlayer/src/org/cooder/appcan/plugin/EUExMediaPlayer.java:37 | The asset path is `widget`, one `/`, then the media name, and nothing else. |
| MediaPlayerPlugin.MediaPathInjective | uexMediaPlayer/src/org/cooder/appcan/plugin/EUExMediaPlayer.java:34 | Two media names with the same cache path string are the same name. |
| MediaPlayerPlugin.MediaPathNames | uexMediaPlayer/src/org/cooder/appcan/plugin/EUExMediaPlayer.java:34-37 | The cache file and the asset are the same name under the cache directory and under `widget/`. |
| MediaPlayerPlugin.Plugin.constructor | uexMediaPlayer/src/org/cooder/appcan/plugin/EUExMediaPlayer.java:23-30 | The plugin owns a new, idle player with no calls made on it, and no media path. |
| MediaPlayerPlugin.Plugin.Open | uexMediaPlayer/src/org/cooder/appcan/plugin/EUExMediaPlayer.java:32-45 | With no `param[0]`, nothing changes. If the cache file exists, the assets are untouched and the player is bound. A missing asset changes nothing else. An uncreatable cache file leaves the asset stream open. Otherwise the cache file gets a prefix of the asset, all of it exactly when it fits, and only then is the player bound. |
| MediaPlayerPlugin.Plugin.CacheAsset | uexMediaPlayer/src/org/cooder/appcan/plugin/EUExMediaPlayer.java:36-40 | For a cache file that does not exist yet: a missing asset changes nothing. An uncreatable cache file leaves the files unchanged and the asset stream open. Otherwise the new file holds a prefix of the asset, all of it exactly when it fits. `open` goes on to `init` exactly when the copy fitted, and the asset stream is then closed. |
| MediaPlayerPlugin.Plugin.Init | uexMediaPlayer/src/org/cooder/appcan/plugin/EUExMediaPlayer.java:47-66 | The calls are reset and music stream, then, when the cache file exists, setDataSource, setOnPreparedListener and prepareAsync, in that order. The player's state follows those calls. The file stream is opened only when the file exists, and it is closed. |
| MediaPlayerPlugin.Plugin.Play | uexMediaPlayer/src/org/cooder/appcan/plugin/EUExMediaPlayer.java:68-70 | Exactly one `start()`; the player plays and nothing else changes. |
| MediaPlayerPlugin.Plugin.Stop | uexMediaPlayer/src/org/cooder/appcan/plugin/EUExMediaPlayer.java:72-75 | `pause()` then `seekTo(0)`: stopped at position 0, still bound. |
| MediaPlayerPlugin.Plugin.Pause | uexMediaPlayer/src/org/cooder/appcan/plugin/EUExMediaPlayer.java:77-79 | Exactly one `pause()`; the position is kept. |
| MediaPlayerPlugin.Plugin.Resume | uexMediaPlayer/src/org/cooder/appcan/plugin/EUExMediaPlayer.java:81-83 | The same single `start()` as play. |
| MediaPlayerPlugin.Plugin.SetVolume | uexMediaPlayer/src/org/cooder/appcan/plugin/EUExMediaPlayer.java:85-90 | With exactly two arguments, both channels are set. With a null array or any other count, the player is untouched. |
| MediaPlayerPlugin.Plugin.SeekTo | uexMediaPlayer/src/org/cooder/appcan/plugin/EUExMediaPlayer.java:92-97 | With exactly one argument, the player seeks to it; otherwise the player is untouched. |
| MediaPlayerPlugin.Plugin.Clean | uexMediaPlayer/src/org/cooder/appcan/plugin/EUExMediaPlayer.java:99-103 | One `reset()`, and the result is `true`. |
| MediaPlayerPlugin.Plugin.OnPrepared | uexMediaPlayer/src/org/cooder/appcan/plugin/EUExMediaPlayer.java:105-109 | The JSON text parses back to the reported duration. It starts with `{"duration":`, ends with `}`, and holds a JSON integer between them, with a minus sign exactly when the duration is negative. These clauses admit only the text Java builds. |
| AndroidMedia.MediaPlayer.Reset | uexMediaPlayer/src/org/cooder/appcan/plugin/EUExMediaPlayer.java:48 | Back to idle: unbound, not playing, at position 0, with no prepare pending. |
| AndroidMedia.MediaPlayer.SetAudioStreamType | uexMediaPlayer/src/org/cooder/appcan/plugin/EUExMediaPlayer.java:49 | Selects the stream type and changes nothing else. |
| AndroidMedia.MediaPlayer.SetDataSource | uexMediaPlayer/src/org/cooder/appcan/plugin/EUExMediaPlayer.java:53 | Binds the player to the file and changes nothing else. |
| AndroidMedia.MediaPlayer.SetOnPreparedListener | uexMediaPlayer/src/org/cooder/appcan/plugin/EUExMediaPlayer.java:54 | Registers the plugin as listener and changes nothing else. |
| AndroidMedia.MediaPlayer.PrepareAsync | uexMediaPlayer/src/org/cooder/appcan/plugin/EUExMediaPlayer.java:55 | Records the prepare request and changes nothing else. |
| AndroidMedia.MediaPlayer.Start | uexMediaPlayer/src/org/cooder/appcan/plugin/EUExMediaPlayer.java:69 | Playing, and nothing else changes. |
| AndroidMedia.MediaPlayer.Pause | uexMediaPlayer/src/org/cooder/appcan/plugin/EUExMediaPlayer.java:78 | Not playing, and nothing else changes. |
| AndroidMedia.MediaPlayer.SeekTo | uexMediaPlayer/src/org/cooder/appcan/plugin/EUExMediaPlayer.java:96 | The position is the target, and nothing else changes. |
| AndroidMedia.MediaPlayer.SetVolume | uexMediaPlayer/src/org/cooder/appcan/plugin/EUExMediaPlayer.java:89 | The two channel volumes, and nothing else changes. |

## Left out

- `android.media.MediaPlayer` itself is abstract here. The model records the fields the plugin's calls
  change and the order of the calls. Decoding, audio routing and the real state machine are not
  modelled; illegal-state exceptions are left out because the plugin never guards against them.
- `AndroidMedia.MediaPlayer.Reset`: `reset()` is taken to keep the volume, the stream type and the
  listener. The platform's behaviour for those settings is not modelled.
- The duration that `getDuration()` reports becomes a parameter of `OnPrepared`. The
  `jsCallback` delivery to the host, and `Log.e`, are output and are not modelled.
- `Float.parseFloat` and `Integer.parseInt` in `setVolume` and `seekTo` are not modelled. The parsed
  values become parameters. The `NumberFormatException` a malformed argument raises escapes the
  plugin and is not modelled either.
- Asynchronous preparation and threads: `onPrepared` is a separate call, not a callback.
- `Plugin.Open`: a null `param[0]` is not modelled, because strings are sequences and cannot be null.
  A missing or empty `param` array is modelled.
- `Plugin.Init`: opening an existing cache file and `setDataSource` are assumed not to throw. The
  catch in `init` is modelled only for a missing file.
- Reading an asset is assumed not to fail, and the cache file is the only place a copy can run out of
  room (`cacheCapacity`). Disk and storage errors beyond that are not modelled.
- After `open` copies a file, `init` opens it by path. The model does not separately check that the
  cached bytes are readable.
- Single `read()` results are Option values rather than Java's `int` coding of bytes and chars. `int`
  is unbounded; no Java arithmetic here can overflow.
- `StreamUtil.CopyChars`: when flushes throw, the contract states only implications for the outcome.
  Whether the copy then fails depends on whether any read returns 0, which the model leaves open.
- File paths are compared as the strings the code builds. Path normalisation is not modelled, so
  `a.mp3` and `./a.mp3` are different cache entries here although they name one file on a device.
  The same holds for `MediaPathInjective`.
- Reader and Writer elements are Dafny `char`, which is a Unicode scalar value. A Java `char` is a
  UTF-16 code unit, so a reader holding an unpaired surrogate cannot be modelled. The copy is generic
  in its element type, so nothing in its contract depends on this.
- The exception objects are not modelled; an outcome records only whether a call threw
  `IOException`.
