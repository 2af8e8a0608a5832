# sfeMovie playback orchestrator in Dafny

This project models `sfe::Movie`, the playback orchestrator of sfeMovie. It sits between an FFmpeg demuxer and two tracks, one audio and one video. The model covers the following:

- **Playback state machine** (`Playback.Movie`). `play`, `pause`, `stop`/`internalStop` and `close` move the status between Stopped, Playing and Paused. Along the way they update the progress recorded at the last pause, the end-of-file flag, the stop condition and the watch thread.
- **Clock rule** (`Clock`). The playing offset is the recorded progress plus the overall timer's elapsed time, but only while playing. All times are integer microseconds, as `sf::Time` stores them.
- **Packet dispatch** (`Dispatch`). `readFrameAndQueue` reads the container's next packet with a cursor. `saveFrame` routes it to the audio queue (checked first), to the video queue, or drops it.
- **Starvation** (`Watchdog`, `Movie.Starvation`, `Movie.WatchStep`). The stop condition is raised only when every present track is starving; an absent track counts as starving. The watch thread then stops the movie.
- **Seeking** (`Seeking`). The three strategies are modelled with their corrective control flow:
  - the any-frame retry when the key-frame landing is too far from the target;
  - the one-second rewind loop;
  - the frame-by-frame undershoot loop.

  `av_seek_frame` and `av_rescale_q` are oracle inputs. A successful seek gives the new read position and the timestamps of the images the decoder yields next, and `loadNextImage` consumes those timestamps.

The watch thread and the locks are modelled as sequential steps. `Movie.Starvation` sets the condition. `Movie.WatchStep` is one wake-up of `watch`: it calls `internalStop(true)` once the condition is 1, and it ends the thread once the condition is invalidated. The class invariant `Movie.Valid` states that a playing or paused movie always has its watch thread waiting on a live stop condition. `CombinedStarvationScenario` is a client that shows two things. With both tracks present, video starvation alone leaves the movie playing. Starvation of both stops it.

Behaviour of `Movie.cpp` worth noting, which the model keeps:

- The key-frame error limit is 20000 in the unit of the video track's latest timestamp. That unit is milliseconds, since the target is `ref_position / 1000`, so the limit is 20 seconds.
- `openFromFile` does not call `close()` when no usable track is found. A movie whose video preload failed and that has no audio returns false but keeps `hasVideo` set.
- Nothing in `Movie.cpp` flushes the packet queues on stop or seek. Nothing there clears the end-of-file flag on a seek either. The model therefore leaves the queues and the flag alone on both paths.
- The last rewind of the overshoot loop can seek to a negative position. `seek_pos > 0` is tested only after the seek.
- `close()` sets the status to Stopped without invalidating the stop condition. A watch thread launched by an earlier `play` then keeps waiting, and a later `stop` does nothing.

`ref_position / 1000` and `asMilliseconds()` are 64-bit C++ divisions, which truncate toward zero. `MediaTypes.Millis` models them explicitly.

## Model

| member | source | states |
|---|---|---|
| `MediaTypes.Millis` | src/Movie.cpp:610-617 | `ref_position / 1000` truncates toward zero: the result times 1000 lies between 0 and the input and is within 1000 of it, for either sign |
| `Clock.Offset` | src/Movie.cpp:311-321 | the offset is never below the recorded progress, and equals it while paused or stopped |
| `Clock.OffsetFollowsTimerWhilePlaying` | src/Movie.cpp:311-321 | while playing, the offset advances exactly as much as the timer |
| `Clock.OffsetNonDecreasingWhilePlaying` | src/Movie.cpp:311-321 | while playing, a later reading of the offset is never smaller |
| `Clock.OffsetFrozenUnlessPlaying` | src/Movie.cpp:311-321 | while paused or stopped, the offset does not depend on the timer |
| `Clock.PauseResumeWithoutAudioIsContinuous` | src/Movie.cpp:127-172 | without audio, pause folds the elapsed time into the progress and play restarts the timer, so the offset is continuous across pause and resume |
| `Dispatch.RouteOf` | src/Movie.cpp:644-668 | a packet goes to the audio queue only if it is of the audio stream, to the video queue only if it is of the video stream, and is dropped exactly when it is of neither |
| `Dispatch.Save` | src/Movie.cpp:644-668 | saving leaves the end-of-file flag and the read position alone and appends the packet to the queue of its route only |
| `Dispatch.ReadFrame` | src/Movie.cpp:400-440 | the flag is true exactly when end of file was not set and a packet was left; end of file is set afterwards exactly when the flag is false; the read position advances by one exactly when the flag is true |
| `Dispatch.ReadFrames` | src/Movie.cpp:400-440 | n reads advance the read position by at most n, and never clear end of file |
| `Dispatch.ReadFrameAtEof` | src/Movie.cpp:407-409 | with end of file set, a read returns false and changes nothing |
| `Dispatch.ReadFrameExhausted` | src/Movie.cpp:416-425 | a failed read sets end of file, returns false, and leaves the queues and the read position unchanged |
| `Dispatch.ReadFrameRoutesOnePacket` | src/Movie.cpp:400-440 | a read returns true exactly when a packet was read, even if it matched no track; that packet is appended to the audio queue if its stream is the audio track's, else to the video queue if it is the video track's, else to neither |
| `Dispatch.EofIsSticky` | src/Movie.cpp:400-440 | once end of file is set, any number of further reads changes nothing |
| `Dispatch.ReadFramesQueueInOrder` | src/Movie.cpp:400-440 | n successful reads extend each queue by exactly the packets routed to its track, in container order |
| `Dispatch.RoutedPartitions` | src/Movie.cpp:644-668 | every packet goes to one queue or is dropped: the multisets of the audio part, the video part and the dropped part add up to the input |
| `Dispatch.RoutedMatchesTrack` | src/Movie.cpp:644-668 | the audio queue only receives audio-stream packets; the video queue only receives video-stream packets that are not audio-stream packets |
| `Watchdog.StopRequested` | src/Movie.cpp:675-688 | the stop condition is raised exactly when every present track is starving |
| `Watchdog.OneStarvingTrackDoesNotStop` | src/Movie.cpp:675-688 | with both tracks present, one starving track does not raise the condition |
| `Watchdog.SingleTrackDecides` | src/Movie.cpp:675-688 | with one track, that track's starvation alone decides |
| `Watchdog.NoTrackAlwaysStarves` | src/Movie.cpp:675-688 | a movie without tracks always raises the condition |
| `Seeking.DoFastApproximativeSeeking` | src/Movie.cpp:462-511 | with video: a key-frame seek of the video stream, then one image, then a second, any-frame seek to the same target exactly when that image is more than 20000 ms from the target. Without video: one key-frame seek of the audio stream. Without tracks: nothing. Every seek is backward exactly when the position is before the offset |
| `Seeking.DoFastLossySeeking` | src/Movie.cpp:514-551 | exactly one any-frame seek, of the video stream if present else the audio stream, in the direction given by the offset; with video, the latest timestamp is that of the image after it |
| `Seeking.FirstRequest` | src/Movie.cpp:472-473 | the first seek of every strategy goes to the given stream, at the position rescaled into its time base, backward exactly when the position is before the current offset, any-frame as the strategy asks |
| `Seeking.TooFar` | src/Movie.cpp:577 | a landing is too far exactly when it lies more than 20000 ms before or after `ref_position / 1000` |
| `Seeking.FrameThreshold` | src/Movie.cpp:615 | three frame times in whole milliseconds, truncated toward zero as `asMilliseconds()` does |
| `Seeking.SeekFrame` | src/Movie.cpp:568-571 | one `av_seek_frame` call is recorded with its request and whether it succeeded; the latest image timestamp is not changed by the seek itself. A failed seek (only logged, no flush) leaves the read position and the decoder where they were; a successful one moves the read position to the landing and the decoder to the images that follow it |
| `Seeking.LoadNextImage` | src/Movie.cpp:574 | decoding consumes exactly the next upcoming image, in order, and makes it the latest; with no image left nothing changes |
| `Seeking.Load` | src/Movie.cpp:574 | decoding an image makes no seek call |
| `Seeking.ApproximativeRetryIsLossySeek` | src/Movie.cpp:485-494 | the approximative strategy's retry is the lossy strategy's seek |
| `Seeking.RewindPosition` | src/Movie.cpp:592-596 | `seek_pos` after j rewinds: below the target once at least one rewind has been made, and no longer positive exactly when j seconds reach back to the target or beyond |
| `Seeking.RewindPositionStep` | src/Movie.cpp:596 | each rewind moves the seek position back by exactly one second (`AV_TIME_BASE`), the first one from the target itself |
| `Seeking.Rewound` | src/Movie.cpp:594-610 | after k rewinds exactly k seek calls have been added to the run |
| `Seeking.RewoundCalls` | src/Movie.cpp:594-610 | the rewinds keep the earlier calls, and the i-th added one is a key-frame seek, in the given direction, to position minus i seconds |
| `Seeking.RewoundOnStream` | src/Movie.cpp:594-610 | the rewinds seek the same stream, in the same direction, as the run they extend |
| `Seeking.RewindStopIsUnique` | src/Movie.cpp:594-610 | the rewind loop has a single stopping point |
| `Seeking.RewindUntilBefore` | src/Movie.cpp:589-611 | it makes exactly the rewinds of `Rewound`, the k-th seeking position minus k seconds, and stops at the first n after which the seek position is no longer positive or the image is at or before the target: every earlier rewind had a positive seek position and an image after the target. The run is the one after the n-th rewind, and the seek position is position minus n seconds |
| `Seeking.DecodeUntil` | src/Movie.cpp:613-621 | it stops after the first k images at which the latest timestamp is at or past the target, or when no image is left; every decoder state before it was before the target; the decoder is the one after k images |
| `Seeking.Decoded` | src/Movie.cpp:617-620 | after k images, the latest timestamp is the k-th upcoming one and the rest are still to come |
| `Seeking.DecodeStopIsUnique` | src/Movie.cpp:617-620 | the undershoot loop has a single stopping point |
| `Seeking.CorrectLanding` | src/Movie.cpp:588-621 | after a landing that is not too far: no rewind when the landing is not after the target, else the rewind loop, ending at its first stopping point; then, only when the settled image is more than three frame times from the target, the undershoot loop ending at its first stopping point, else the settled state unchanged. Its calls are the landing's followed by the rewinds' |
| `Seeking.CorrectedIsUnique` | src/Movie.cpp:588-621 | the corrections have a single outcome: the loop counts and the run are determined |
| `Seeking.DoSlowExactSeeking` | src/Movie.cpp:554-641 | with video, the first call is the key-frame seek of the target and the run makes one call per rewind after it, plus the any-frame retry when the landing is too far. Without video, or when the landing is too far, it is exactly the approximative strategy; otherwise it is the landing followed by the corrections of `CorrectLanding`. Every seek is on the video stream when present, else the audio stream, and backward exactly when the position is before the offset |
| `Seeking.SlowExactOutcomeIsUnique` | src/Movie.cpp:554-641 | the slow exact outcome determines the loop counts and the run: the strategy is deterministic given the demuxer |
| `Seeking.SeekToPosition` | src/Movie.cpp:443-472 | every strategy seeks the video stream when present (else audio) and is backward exactly when the position is before the offset; the lossy and approximative choices run those strategies, and the slow exact choice has the slow exact outcome for some loop counts |
| `Playback.Usable` | src/Movie.cpp:124 | opening succeeds only with a track; with audio always; without audio exactly when video preloaded |
| `Playback.Movie.GetPlayingOffset` | src/Movie.cpp:311-321 | progress plus elapsed while playing, progress otherwise |
| `Playback.Movie.constructor` | src/Movie.cpp:47-63 | a new movie is stopped with zero progress and duration, no tracks, no end of file, and no running watch thread |
| `Playback.Movie.Elapse` | src/Movie.cpp:311-321 | as time passes, the offset grows with it while playing and stays frozen otherwise |
| `Playback.Movie.Play` | src/Movie.cpp:127-145 | a no-op when playing; otherwise it ends Playing with the timer at 0 and the offset unchanged. From Stopped it also re-arms the condition to 0 and launches the watch thread; from Paused it leaves both alone |
| `Playback.Movie.Pause` | src/Movie.cpp:147-172 | a no-op unless playing; then it ends Paused, with the offset snapped to the audio track's offset when there is audio, and otherwise with progress plus elapsed, so the offset is unchanged |
| `Playback.Movie.InternalStop` | src/Movie.cpp:179-197 | a no-op from Stopped; otherwise it ends Stopped with zero progress, end of file cleared and the condition invalidated, and waits for the watch thread unless called from it |
| `Playback.Movie.Stop` | src/Movie.cpp:174-177 | the user's stop, `internalStop(false)`: a no-op from Stopped; from Playing or Paused it ends Stopped with zero progress, end of file cleared, the condition invalidated and the watch thread finished |
| `Playback.Movie.Close` | src/Movie.cpp:365-378 | no tracks, no end of file, container closed, Stopped, zero duration and progress |
| `Playback.Movie.OpenFromFile` | src/Movie.cpp:74-125 | success exactly when the open and the stream probe succeed and there is audio or preloaded video. It ends Stopped with zero progress and end of file cleared, and the duration reset to 0 by `close()` (what the tracks set afterwards is not modelled), finishing a running playback's watch thread. After a successful probe, the tracks, their streams, the frame time, packets, read position and demuxer are those of the file; after a failed one, nothing is open. Queues, the timer and the condition value are untouched |
| `Playback.Movie.OpenContainer` | src/Movie.cpp:86-124 | on a stopped, closed movie: success exactly when the open and the probe succeed and the file is usable; after a successful probe the container, read position, demuxer and tracks are those of the file; after a failed probe (src/Movie.cpp:99-104) it closes again, so nothing is open; it stays Stopped with zero progress, and the duration stays as `close()` left it, since what the tracks set is not modelled |
| `Playback.Movie.AttachStreams` | src/Movie.cpp:109-124 | the tracks present are those the file has, with their streams and, for video, the frame time; video starts from the file's first images; the result is the usability of audio, video and the preload result |
| `Playback.Movie.SetPlayingOffset` | src/Movie.cpp:297-309 | whatever the method, the progress becomes the position, the timer 0 and the status is unchanged, and every seek's direction is backward exactly when the position is before the old offset. The calls and the new read position and decoder are those of the chosen strategy run from the old state; for slow exact seeking, its outcome for some loop counts |
| `Playback.Movie.SaveFrame` | src/Movie.cpp:644-668 | the packet is saved exactly when it routes to a track, and is appended to that track's queue only |
| `Playback.Movie.ReadFrameAndQueue` | src/Movie.cpp:400-440 | the flag and the new end-of-file flag, cursor and queues are those of one read of the container |
| `Playback.Movie.Starvation` | src/Movie.cpp:675-688 | the condition becomes 1 when every present track starves, and is otherwise unchanged |
| `Playback.Movie.WatchStep` | src/Movie.cpp:690-696 | once the condition is 1, the running watch thread stops the movie and ends; once it is invalidated, the thread ends; otherwise nothing changes |

## Left out

- FFmpeg calls are not modelled; only their results are. `avformat_open_input`, `avformat_find_stream_info`, `av_read_frame`, `av_seek_frame` and `av_rescale_q` are inputs or oracles. `avcodec_flush_buffers` appears only as the success flag of a seek call. `av_dump_format` and `av_strerror` are logging.
- Threads, locks and `Condition` are not modelled as such; they become sequential steps. `Condition.hpp` is not part of this model. Its wait is taken to return true once the value is 1 and false once the condition is invalidated. SFML's `Thread::launch` waiting for a previous run is not modelled.
- `ref_position = position.asSeconds() * AV_TIME_BASE` is a single-precision float computation. The model takes the position in microseconds as `ref_position` directly.
- 64-bit wrap-around of `sf::Int64` and the 32-bit result of `asMilliseconds()` are not modelled. Integers in the model are unbounded.
- `Movie_audio.cpp` and `Movie_video.cpp` are not part of this model. The tracks' own behaviour becomes inputs:
  - `isStarving` results are method parameters;
  - the audio track's playing offset is a parameter of `Pause`;
  - `preLoad`'s result and the decodable images are file inputs;
  - `loadNextImage` consumes the decoder's upcoming images.
  Their `play`, `pause`, `stop`, `close`, `preSeek` and `postSeek` have no effect in the model, so packet queues are never flushed or consumed.
- Seeking.DecodeUntil: it also stops when the decoder has no upcoming image. The source's `while` loop has no such exit and would not end if the stream ran out before the target.
- The seek-accuracy ordering between strategies is not stated, because it depends on the demuxer oracle.
- `resizeToFrame` and `getFramerate` (floating-point geometry and rates), `draw` and `getCurrentFrame` (rendering), volume, sample-rate and channel accessors, `useDebugMessages`, `outputError` and the error output are not modelled.
- The destructor is not modelled; it only calls `stop` and `close` and frees memory.
- `setDuration` is called by the tracks and is not modelled beyond `close` resetting the duration.
