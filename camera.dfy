/** The camera viewer: the `MM:SS` clock shown while recording, and the
    flags of the stream, the recorder and the view. The browser's media
    objects are represented only by whether they exist. */
module Camera {
  import opened Wrappers
  import opened Decimal

  /** `n.toString().padStart(2, "0")`: at least two digits, exactly two
      below 100, reading back as `n`. */
  function Field(n: nat): (p: string)
    ensures |p| >= 2 && AllDigits(p) && ParseNat(p) == n
    ensures n < 100 ==> |p| == 2
    ensures n >= 10 ==> p == NatToString(n)
  {
    PaddedNat(n);
    PadStart2(NatToString(n))
  }

  /** `formatTime(s)`: whole minutes and the remaining seconds, each padded
      to two digits, joined by a colon. */
  function FormatTime(s: nat): (r: string)
    ensures |r| >= 5 && r[|r| - 3] == ':'
    ensures r[..|r| - 3] == Field(s / 60) && r[|r| - 2..] == Field(s % 60)
    ensures AllDigits(r[..|r| - 3]) && AllDigits(r[|r| - 2..])
    ensures s < 6000 ==> |r| == 5 && r[2] == ':'
  {
    var minutes, seconds := Field(s / 60), Field(s % 60);
    JoinedClock(minutes, seconds);
    minutes + ":" + seconds
  }

  /** Joining two padded fields with a colon: the colon sits third from the
      end, with the first field before it and the second after it. */
  lemma JoinedClock(minutes: string, seconds: string)
    requires |minutes| >= 2 && |seconds| == 2
    ensures var r := minutes + ":" + seconds;
      |r| == |minutes| + 3 && r[|r| - 3] == ':' && r[..|r| - 3] == minutes && r[|r| - 2..] == seconds
  {
  }

  /** The number of seconds a clock `M..M:SS` stands for. */
  function ClockSeconds(t: string): nat
    requires |t| >= 3 && AllDigits(t[..|t| - 3]) && AllDigits(t[|t| - 2..])
  {
    ParseNat(t[..|t| - 3]) * 60 + ParseNat(t[|t| - 2..])
  }

  /** A clock whose fields are the padded texts of two numbers reads back
      as the first times 60 plus the second. */
  lemma ClockReadsBack(t: string, m: nat, sec: nat)
    requires |t| >= 3 && t[..|t| - 3] == Field(m) && t[|t| - 2..] == Field(sec)
    ensures AllDigits(t[..|t| - 3]) && AllDigits(t[|t| - 2..])
    ensures ClockSeconds(t) == m * 60 + sec && ParseNat(t[|t| - 2..]) == sec
  {
  }

  /** The clock shows the elapsed time exactly, with fewer than sixty
      seconds after the colon, for every recording length. */
  lemma FormatTimeRoundTrip(s: nat)
    ensures ClockSeconds(FormatTime(s)) == s
    ensures ParseNat(FormatTime(s)[|FormatTime(s)| - 2..]) < 60
  {
    var t, m, sec := FormatTime(s), s / 60, s % 60;
    ClockReadsBack(t, m, sec);
    assert m * 60 + sec == s;
  }

  datatype CameraError = AccessDenied | RecordingFailed

  /** How `startCamera`'s calls into the browser turn out: access refused,
      the stream plays at once, or autoplay is blocked and playback waits
      for the video's metadata. */
  datatype StartOutcome = Denied | Plays | AutoplayBlocked

  class CameraView {
    var hasStream: bool          // `stream !== null`
    var tracksLive: bool         // the stream's tracks have not been stopped
    var isStreamActive: bool
    var isFullscreen: bool
    var isRecording: bool
    var isMuted: bool
    var recordingTime: nat
    var hasRecorder: bool        // `mediaRecorderRef.current !== null`
    var chunks: seq<nat>         // sizes of the recorded chunks
    var error: Option<CameraError>

    /** A recording always has a recorder, and live tracks belong to the
        stream the view holds. */
    ghost predicate Valid()
      reads this
    {
      (isRecording ==> hasRecorder) && (tracksLive ==> hasStream)
    }

    constructor ()
      ensures Valid()
      ensures !hasStream && !tracksLive && !isStreamActive && !isFullscreen && !isRecording
      ensures isMuted && recordingTime == 0 && !hasRecorder && chunks == [] && error == None
    {
      hasStream, tracksLive, isStreamActive := false, false, false;
      isFullscreen, isRecording, isMuted := false, false, true;
      recordingTime, hasRecorder, chunks, error := 0, false, [], None;
    }

    /** `startCamera`: the error is cleared first; a refused request records
        the error and marks the view inactive; a granted one holds the new
        stream, which is active once it plays. */
    method StartCamera(outcome: StartOutcome)
      requires Valid()
      modifies this`hasStream, this`tracksLive, this`isStreamActive, this`error
      ensures Valid()
      ensures outcome == Denied ==>
        error == Some(AccessDenied) && !isStreamActive &&
        hasStream == old(hasStream) && tracksLive == old(tracksLive)
      ensures outcome != Denied ==> error == None && hasStream && tracksLive
      ensures outcome == Plays ==> isStreamActive
      ensures outcome == AutoplayBlocked ==> isStreamActive == old(isStreamActive)
    {
      error := None;
      if outcome == Denied {
        error := Some(AccessDenied);
        isStreamActive := false;
        return;
      }
      hasStream, tracksLive := true, true;
      if outcome == Plays {
        isStreamActive := true;
      }
    }

    /** `startRecording`. Without a stream it returns at once. Otherwise
        `created` says whether `new MediaRecorder` succeeded and `started`
        whether `start()` did; a failure records the error. */
    method StartRecording(created: bool, started: bool)
      requires Valid()
      modifies this
      ensures Valid()
      ensures !old(hasStream) ==> unchanged(this)
      ensures old(hasStream) && created && started ==>
        hasRecorder && chunks == [] && isRecording && recordingTime == 0 && error == old(error)
      ensures old(hasStream) && created && !started ==>
        hasRecorder && chunks == [] && isRecording == old(isRecording) &&
        recordingTime == old(recordingTime) && error == Some(RecordingFailed)
      ensures old(hasStream) && !created ==>
        hasRecorder == old(hasRecorder) && chunks == old(chunks) && isRecording == old(isRecording) &&
        recordingTime == old(recordingTime) && error == Some(RecordingFailed)
      ensures hasStream == old(hasStream) && tracksLive == old(tracksLive)
      ensures isStreamActive == old(isStreamActive) && isFullscreen == old(isFullscreen)
      ensures isMuted == old(isMuted)
    {
      if !hasStream {
        return;
      }
      if !created {
        error := Some(RecordingFailed);
        return;
      }
      hasRecorder := true;
      chunks := [];
      if !started {
        error := Some(RecordingFailed);
        return;
      }
      isRecording := true;
      recordingTime := 0;
    }

    /** The recorder's `ondataavailable`: non-empty chunks are kept. */
    method DataAvailable(size: nat)
      modifies this`chunks
      ensures chunks == if size > 0 then old(chunks) + [size] else old(chunks)
    {
      if size > 0 {
        chunks := chunks + [size];
      }
    }

    /** `stopRecording`: acts only with a recorder while recording. The
        recorder reference itself is kept. */
    method StopRecording()
      requires Valid()
      modifies this`isRecording, this`recordingTime
      ensures Valid()
      ensures old(hasRecorder && isRecording) ==> !isRecording && recordingTime == 0
      ensures !old(hasRecorder && isRecording) ==>
        isRecording == old(isRecording) && recordingTime == old(recordingTime)
    {
      if hasRecorder && isRecording {
        isRecording := false;
        recordingTime := 0;
      }
    }

    /** `stopCamera`: the tracks are stopped and the stream dropped if there
        was one, the view is inactive and a recording in progress ends.
        With no stream it is harmless. */
    method StopCamera()
      requires Valid()
      modifies this`hasStream, this`tracksLive, this`isStreamActive, this`isRecording, this`recordingTime
      ensures Valid()
      ensures !hasStream && !tracksLive && !isStreamActive && !isRecording
      ensures old(isRecording) ==> recordingTime == 0
      ensures !old(isRecording) ==> recordingTime == old(recordingTime)
    {
      if hasStream {
        tracksLive := false;
        hasStream := false;
      }
      isStreamActive := false;
      if isRecording {
        StopRecording();
      }
    }

    method ToggleFullscreen()
      modifies this`isFullscreen
      ensures isFullscreen == !old(isFullscreen)
    {
      isFullscreen := !isFullscreen;
    }

    method ToggleMute()
      modifies this`isMuted
      ensures isMuted == !old(isMuted)
    {
      isMuted := !isMuted;
    }

    /** One second of the recording timer. The interval exists only while
        recording, so a tick at any other time changes nothing. */
    method TimerTick()
      modifies this`recordingTime
      ensures isRecording ==> recordingTime == old(recordingTime) + 1
      ensures !isRecording ==> recordingTime == old(recordingTime)
    {
      if isRecording {
        recordingTime := recordingTime + 1;
      }
    }
  }
}
