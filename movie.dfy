/** `sfe::Movie`: the playback orchestrator. Its fields are the members that
    `Movie.cpp` updates in place; the demuxer's packets, the seek oracle and the
    audio track's own clock are inputs. The stop condition and the watch thread are
    modelled sequentially: `Starvation` raises the condition and `WatchStep` is one
    wake-up of the watch thread. */
module Playback {
  import opened MediaTypes
  import Clock
  import Dispatch
  import Watchdog
  import Seeking

  /** What opening a file yields: the results of `avformat_open_input` and
      `avformat_find_stream_info`, what the tracks' `initialize` found (the stream
      and, for video, the wanted frame time in µs), the result of the video
      track's `preLoad`, and the container's content as the demuxer sees it. */
  datatype MediaFile = MediaFile(
    openError: int,
    streamInfoError: int,
    video: Option<(int, int)>,
    audio: Option<int>,
    preloads: bool,
    packets: seq<Packet>,
    images: seq<int>,
    demuxer: Seeking.Demuxer)

  /** The return expression of `openFromFile`: a movie is usable when it has
      audio, or video whose first images preloaded. */
  function Usable(hasAudio: bool, hasVideo: bool, preloaded: bool): (ok: bool)
    ensures ok ==> hasAudio || hasVideo
    ensures hasAudio ==> ok
    ensures !hasAudio ==> (ok <==> hasVideo && preloaded)
  {
    hasAudio || (hasVideo && preloaded)
  }

  class Movie {
    var status: Status
    /** `m_progressAtPause` (µs). */
    var progressAtPause: int
    /** `m_overallTimer.getElapsedTime()` (µs); `restart()` sets it to 0. */
    var elapsed: nat
    var eofReached: bool
    var hasAudio: bool
    var hasVideo: bool
    var audioStreamID: int
    var videoStreamID: int
    /** `m_video->getWantedFrameTime()` (µs). */
    var wantedFrameTime: int
    var duration: int
    /** Whether `m_avFormatCtx` holds an open container. */
    var isOpen: bool
    /** The container's packets, the demuxer's read position and its seek oracle. */
    var packets: seq<Packet>
    var cursor: nat
    var demuxer: Seeking.Demuxer
    /** The packets pushed to the audio and video tracks (`pushFrame`). */
    var audioQueue: seq<Packet>
    var videoQueue: seq<Packet>
    var video: Seeking.VideoDecoder
    /** `*m_shouldStopCond`: its value and whether it is valid (restored) or
        invalidated. */
    var stopCond: int
    var condValid: bool
    /** Whether `m_watchThread` is running (waiting on the stop condition). */
    var watchRunning: bool

    /** A playing or paused movie always has its watch thread waiting on a live
        stop condition; only an open movie has tracks. */
    ghost predicate Valid()
      reads this
    {
      && (status != Stopped ==> watchRunning && condValid)
      && (hasAudio || hasVideo ==> isOpen)
      && 0 <= stopCond <= 1
    }

    function TracksOf(): Tracks
      reads this
    {
      Tracks(hasAudio, audioStreamID, hasVideo, videoStreamID)
    }

    function ReaderOf(): Dispatch.Reader
      reads this
    {
      Dispatch.Reader(eofReached, cursor, audioQueue, videoQueue)
    }

    function HeadOf(): Seeking.Playhead
      reads this
    {
      Seeking.Playhead(cursor, video)
    }

    /** `getPlayingOffset`. */
    function GetPlayingOffset(): (offset: int)
      reads this
      ensures status == Playing ==> offset == progressAtPause + elapsed
      ensures status != Playing ==> offset == progressAtPause
    {
      Clock.Offset(status, progressAtPause, elapsed)
    }

    constructor ()
      ensures Valid()
      ensures status == Stopped && progressAtPause == 0 && elapsed == 0 && duration == 0
      ensures !eofReached && !hasAudio && !hasVideo && !isOpen && !watchRunning
      ensures audioQueue == [] && videoQueue == []
    {
      status := Stopped;
      progressAtPause := 0;
      elapsed := 0;
      eofReached := false;
      hasAudio, hasVideo := false, false;
      audioStreamID, videoStreamID := 0, 0;
      wantedFrameTime := 0;
      duration := 0;
      isOpen := false;
      packets, cursor := [], 0;
      demuxer := Seeking.Demuxer(req => Seeking.SeekFailed, (stream, us) => us);
      audioQueue, videoQueue := [], [];
      video := Seeking.VideoDecoder(0, []);
      stopCond, condValid := 0, true;
      watchRunning := false;
    }

    /** Time passes on the overall timer. */
    method Elapse(d: nat)
      requires Valid()
      modifies this`elapsed
      ensures Valid()
      ensures elapsed == old(elapsed) + d
      ensures status == Playing ==> GetPlayingOffset() == old(GetPlayingOffset()) + d
      ensures status != Playing ==> GetPlayingOffset() == old(GetPlayingOffset())
    {
      elapsed := elapsed + d;
    }

    /** `play`: from Stopped or Paused, restart the timer and play; only from
        Stopped re-arm the stop condition and launch the watch thread. */
    method Play()
      requires Valid()
      modifies this`status, this`elapsed, this`stopCond, this`condValid, this`watchRunning
      ensures Valid()
      ensures old(status) == Playing ==> unchanged(this)
      ensures old(status) != Playing ==>
        && status == Playing && elapsed == 0
        && GetPlayingOffset() == old(GetPlayingOffset())
      ensures old(status) == Stopped ==> stopCond == 0 && condValid && watchRunning
      ensures old(status) == Paused ==>
        stopCond == old(stopCond) && condValid == old(condValid) && watchRunning == old(watchRunning)
    {
      if status != Playing {
        elapsed := 0;
        if status != Paused {
          stopCond := 0;
          condValid := true;
          watchRunning := true;
        }
        status := Playing;
      }
    }

    /** `pause`, where `audioOffset` is what the audio track reports as its own
        playing offset at that moment. */
    method Pause(audioOffset: int)
      requires Valid()
      modifies this`status, this`progressAtPause
      ensures Valid()
      ensures old(status) != Playing ==> unchanged(this)
      ensures old(status) == Playing ==>
        && status == Paused
        && progressAtPause == (if hasAudio then audioOffset else old(progressAtPause) + elapsed)
      ensures old(status) == Playing && hasAudio ==> GetPlayingOffset() == audioOffset
      ensures old(status) == Playing && !hasAudio ==> GetPlayingOffset() == old(GetPlayingOffset())
    {
      if status == Playing {
        if hasAudio {
          progressAtPause := audioOffset;
        } else {
          progressAtPause := progressAtPause + elapsed;
        }
        status := Paused;
      }
    }

    /** `internalStop`: from Playing or Paused, stop, forget the progress, clear
        the end-of-file flag and invalidate the stop condition, which lets the
        watch thread end; a caller other than the watch thread waits for it. */
    method InternalStop(calledFromWatchThread: bool)
      requires Valid()
      modifies this`status, this`progressAtPause, this`eofReached, this`condValid, this`watchRunning
      ensures Valid()
      ensures old(status) == Stopped ==> unchanged(this)
      ensures old(status) != Stopped ==>
        && status == Stopped && progressAtPause == 0 && !eofReached && !condValid
        && watchRunning == (calledFromWatchThread && old(watchRunning))
    {
      if status != Stopped {
        status := Stopped;
        progressAtPause := 0;
        eofReached := false;
        condValid := false;
        if !calledFromWatchThread {
          watchRunning := false;
        }
      }
    }

    /** `stop`. */
    method Stop()
      requires Valid()
      modifies this`status, this`progressAtPause, this`eofReached, this`condValid, this`watchRunning
      ensures Valid()
      ensures old(status) == Stopped ==> unchanged(this)
      ensures old(status) != Stopped ==>
        status == Stopped && progressAtPause == 0 && !eofReached && !condValid && !watchRunning
    {
      InternalStop(false);
    }

    /** `close`: forget the tracks and the container and return to Stopped. */
    method Close()
      requires Valid()
      modifies this`hasAudio, this`hasVideo, this`eofReached, this`status, this`duration,
               this`progressAtPause, this`isOpen
      ensures Valid()
      ensures !hasAudio && !hasVideo && !eofReached && !isOpen
      ensures status == Stopped && duration == 0 && progressAtPause == 0
    {
      hasAudio := false;
      hasVideo := false;
      eofReached := false;
      isOpen := false;
      status := Stopped;
      duration := 0;
      progressAtPause := 0;
    }

    /** `openFromFile`: stop and close whatever was open, then open `file`. */
    method OpenFromFile(file: MediaFile) returns (ok: bool)
      requires Valid()
      modifies this`status, this`progressAtPause, this`eofReached, this`condValid, this`watchRunning,
               this`hasAudio, this`hasVideo, this`duration, this`isOpen, this`packets, this`cursor,
               this`demuxer, this`videoStreamID, this`wantedFrameTime, this`video, this`audioStreamID
      ensures Valid()
      ensures status == Stopped && progressAtPause == 0 && !eofReached && duration == 0
      ensures audioQueue == old(audioQueue) && videoQueue == old(videoQueue)
      ensures elapsed == old(elapsed) && stopCond == old(stopCond)
      ensures old(status) == Stopped ==> condValid == old(condValid) && watchRunning == old(watchRunning)
      ensures old(status) != Stopped ==> !condValid && !watchRunning
      ensures ok <==> file.openError == 0 && file.streamInfoError >= 0
                      && (file.audio.Some? || (file.video.Some? && file.preloads))
      ensures ok ==> hasAudio || hasVideo
      ensures file.openError == 0 && file.streamInfoError >= 0 ==>
        && isOpen && packets == file.packets && cursor == 0 && demuxer == file.demuxer
        && hasVideo == file.video.Some? && hasAudio == file.audio.Some?
        && (hasVideo ==> && videoStreamID == file.video.value.0 && wantedFrameTime == file.video.value.1
                         && video == Seeking.VideoDecoder(0, file.images))
        && (hasAudio ==> audioStreamID == file.audio.value)
      ensures !(file.openError == 0 && file.streamInfoError >= 0) ==> !isOpen && !hasAudio && !hasVideo
    {
      Stop();
      Close();
      ok := OpenContainer(file);
    }

    /** The part of `openFromFile` after the movie has been stopped and closed:
        open the container, probe its streams and attach the tracks it has. */
    method OpenContainer(file: MediaFile) returns (ok: bool)
      requires Valid() && status == Stopped && progressAtPause == 0 && !eofReached && duration == 0
      requires !isOpen && !hasAudio && !hasVideo
      modifies this`hasAudio, this`hasVideo, this`eofReached, this`status, this`duration,
               this`progressAtPause, this`isOpen, this`packets, this`cursor, this`demuxer,
               this`videoStreamID, this`wantedFrameTime, this`video, this`audioStreamID
      ensures Valid()
      ensures status == Stopped && progressAtPause == 0 && !eofReached && duration == 0
      ensures ok <==> file.openError == 0 && file.streamInfoError >= 0
                      && (file.audio.Some? || (file.video.Some? && file.preloads))
      ensures file.openError == 0 && file.streamInfoError >= 0 ==>
        && isOpen && packets == file.packets && cursor == 0 && demuxer == file.demuxer
        && hasVideo == file.video.Some? && hasAudio == file.audio.Some?
        && (hasVideo ==> && videoStreamID == file.video.value.0 && wantedFrameTime == file.video.value.1
                         && video == Seeking.VideoDecoder(0, file.images))
        && (hasAudio ==> audioStreamID == file.audio.value)
      ensures !(file.openError == 0 && file.streamInfoError >= 0) ==> !isOpen && !hasAudio && !hasVideo
    {
      ok := false;
      if file.openError == 0 {
        isOpen := true;
        packets, cursor := file.packets, 0;
        demuxer := file.demuxer;
        if file.streamInfoError < 0 {
          Close();
        } else {
          ok := AttachStreams(file);
        }
      }
    }

    /** The part of `openFromFile` after a successful stream probe: initialize
        the tracks that `file` has, preload video, and decide usability. */
    method AttachStreams(file: MediaFile) returns (ok: bool)
      requires Valid() && isOpen
      modifies this`hasAudio, this`hasVideo, this`videoStreamID, this`wantedFrameTime, this`video,
               this`audioStreamID
      ensures Valid()
      ensures ok == Usable(file.audio.Some?, file.video.Some?, file.preloads)
      ensures hasVideo == file.video.Some? && hasAudio == file.audio.Some?
      ensures hasVideo ==>
        && videoStreamID == file.video.value.0 && wantedFrameTime == file.video.value.1
        && video == Seeking.VideoDecoder(0, file.images)
      ensures hasAudio ==> audioStreamID == file.audio.value
    {
      hasVideo := file.video.Some?;
      if hasVideo {
        videoStreamID := file.video.value.0;
        wantedFrameTime := file.video.value.1;
        video := Seeking.VideoDecoder(0, file.images);
      }
      hasAudio := file.audio.Some?;
      if hasAudio {
        audioStreamID := file.audio.value;
      }
      var preloaded := false;
      if hasVideo {
        preloaded := file.preloads;
      }
      ok := Usable(hasAudio, hasVideo, preloaded);
    }

    /** `setPlayingOffset`: seek with the chosen method, then make `position` the
        progress and restart the timer. Returns the `av_seek_frame` calls made. */
    method SetPlayingOffset(position: int, seekMethod: SeekingMethod) returns (calls: seq<Seeking.SeekCall>)
      requires Valid()
      modifies this`progressAtPause, this`elapsed, this`cursor, this`video
      ensures Valid()
      ensures status == old(status)
      ensures progressAtPause == position && elapsed == 0 && GetPlayingOffset() == position
      ensures Seeking.Directed(calls, position < old(GetPlayingOffset()))
      ensures seekMethod == FastApproximativeSeeking ==>
        Seeking.SeekRun(HeadOf(), calls)
        == Seeking.DoFastApproximativeSeeking(demuxer, TracksOf(), position, old(GetPlayingOffset()), old(HeadOf()))
      ensures seekMethod == FastLossySeeking ==>
        Seeking.SeekRun(HeadOf(), calls)
        == Seeking.DoFastLossySeeking(demuxer, TracksOf(), position, old(GetPlayingOffset()), old(HeadOf()))
      ensures seekMethod == SlowExactSeeking ==>
        exists n: nat, k: nat :: Seeking.SlowExactOutcome(demuxer, TracksOf(), wantedFrameTime, position,
                                                         old(GetPlayingOffset()), old(HeadOf()), n, k,
                                                         Seeking.SeekRun(HeadOf(), calls))
    {
      var offset, head := GetPlayingOffset(), HeadOf();
      var run := Seeking.SeekToPosition(demuxer, TracksOf(), wantedFrameTime, position, offset, seekMethod, head);
      cursor, video := run.head.cursor, run.head.video;
      calls := run.calls;
      progressAtPause := position;
      elapsed := 0;
      assert Seeking.SeekRun(HeadOf(), calls) == run;
      if seekMethod == SlowExactSeeking {
        ghost var n: nat, k: nat :|
          Seeking.SlowExactOutcome(demuxer, TracksOf(), wantedFrameTime, position, offset, head, n, k, run);
      }
    }

    /** `saveFrame`: push the packet to the track it belongs to, audio first. */
    method SaveFrame(p: Packet) returns (saved: bool)
      requires Valid()
      modifies this`audioQueue, this`videoQueue
      ensures Valid()
      ensures saved <==> Dispatch.RouteOf(TracksOf(), p) != Dispatch.Dropped
      ensures ReaderOf() == Dispatch.Save(TracksOf(), old(ReaderOf()), p)
    {
      saved := false;
      if hasAudio && p.streamIndex == audioStreamID {
        audioQueue := audioQueue + [p];
        saved := true;
      } else if hasVideo && p.streamIndex == videoStreamID {
        videoQueue := videoQueue + [p];
        saved := true;
      }
    }

    /** `readFrameAndQueue`. */
    method ReadFrameAndQueue() returns (flag: bool)
      requires Valid() && isOpen
      modifies this`eofReached, this`cursor, this`audioQueue, this`videoQueue
      ensures Valid()
      ensures (flag, ReaderOf()) == Dispatch.ReadFrame(TracksOf(), packets, old(ReaderOf()))
    {
      flag := true;
      if eofReached {
        flag := false;
      } else if cursor >= |packets| {
        eofReached := true;
        flag := false;
      } else {
        var pkt := packets[cursor];
        cursor := cursor + 1;
        var saved := SaveFrame(pkt);
      }
    }

    /** `starvation`, given what each track's `isStarving` reports. */
    method Starvation(audioStarving: bool, videoStarving: bool)
      requires Valid()
      modifies this`stopCond
      ensures Valid()
      ensures stopCond == if Watchdog.StopRequested(TracksOf(), audioStarving, videoStarving) then 1 else old(stopCond)
    {
      if Watchdog.StopRequested(TracksOf(), audioStarving, videoStarving) {
        stopCond := 1;
      }
    }

    /** One wake-up of `watch`: the wait on the stop condition returns true once
        the value is 1, after which the thread stops the movie and ends; it
        returns false once the condition is invalidated, and the thread ends. */
    method WatchStep()
      requires Valid()
      modifies this`status, this`progressAtPause, this`eofReached, this`condValid, this`watchRunning
      ensures Valid()
      ensures old(watchRunning && condValid && stopCond == 1) ==>
        && status == Stopped && !watchRunning
        && (old(status) != Stopped ==> progressAtPause == 0 && !eofReached && !condValid)
        && (old(status) == Stopped ==> progressAtPause == old(progressAtPause) && eofReached == old(eofReached))
      ensures old(watchRunning && !condValid) ==>
        !watchRunning && status == old(status) && progressAtPause == old(progressAtPause)
        && eofReached == old(eofReached) && condValid == old(condValid)
      ensures old(!watchRunning || (condValid && stopCond != 1)) ==> unchanged(this)
    {
      if watchRunning {
        if condValid && stopCond == 1 {
          InternalStop(true);
          watchRunning := false;
        } else if !condValid {
          watchRunning := false;
        }
      }
    }
  }

  /** With both tracks present, video starving alone leaves the movie playing;
      both starving stops it at the watch thread's next wake-up. */
  method CombinedStarvationScenario(file: MediaFile)
    requires file.openError == 0 && file.streamInfoError >= 0
    requires file.audio.Some? && file.video.Some?
  {
    var m := new Movie();
    var ok := m.OpenFromFile(file);
    assert ok && m.hasAudio && m.hasVideo;
    m.Play();
    m.Starvation(false, true);
    m.WatchStep();
    assert m.status == Playing;
    m.Starvation(true, true);
    m.WatchStep();
    assert m.status == Stopped && !m.watchRunning;
  }
}
