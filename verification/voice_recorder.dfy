/** The voice-activity gated recording loop of `VoiceRecorder.record_numpy`.

    The audio device and its callback queue are replaced by the sequence of frames
    the loop reads, in order; the clock is replaced by the integer tick stamped on
    each frame when it is read. A finite sequence is a prefix of the stream: if the
    loop has not stopped by its end, the recorder is still listening. */
module VoiceRecorder {
  import opened Common

  /** A signed 16-bit PCM sample. */
  type Int16 = x: int | -0x8000 <= x < 0x8000

  /** A root-mean-square loudness: never negative. */
  type Level = v: real | v >= 0.0

  /** One block read from the queue: its samples, the loudness the floating-point
      RMS computation reports for it when it is non-empty, and the tick at which
      the loop read it. */
  datatype Frame = Frame(samples: seq<Int16>, rms: Level, time: int)

  /** Thresholds of the recorder, durations in ticks. */
  datatype Config = Config(silenceThreshold: real, silenceMaxDuration: int, maxRecordTime: int)

  /** The recorder's defaults (threshold 100, one second of silence, one minute in
      all), with ticks in milliseconds. */
  const Defaults := Config(100.0, 1000, 60000)

  /** `_audio_rms`: an empty frame has volume 0, whatever the measurement says. */
  function AudioRms(f: Frame): (v: Level)
    ensures |f.samples| == 0 ==> v == 0.0
    ensures |f.samples| > 0 ==> v == f.rms
  {
    if |f.samples| == 0 then 0.0 else f.rms
  }

  /** The frame counts as voice. */
  predicate Loud(cfg: Config, f: Frame) {
    AudioRms(f) > cfg.silenceThreshold
  }

  /** The loop's state: `is_speaking`, `last_voice_time`, `record_start_time` and
      `audio_buffer`. */
  datatype Session = Session(isSpeaking: bool, lastVoiceTime: int, startTime: int,
                             buffer: seq<seq<Int16>>)

  /** The state before the first frame; both clock readings are `t0`. */
  function Start(t0: int): Session {
    Session(false, t0, t0, [])
  }

  /** The silence stop: a quiet frame after speech has begun, later than the
      allowed silence after the last voiced frame. */
  predicate SilenceExpired(cfg: Config, s: Session, f: Frame) {
    !Loud(cfg, f) && s.isSpeaking && f.time - s.lastVoiceTime > cfg.silenceMaxDuration
  }

  /** The absolute stop: the frame was read after the recording time ran out. */
  predicate TimedOut(cfg: Config, s: Session, f: Frame) {
    f.time - s.startTime > cfg.maxRecordTime
  }

  /** The state after one frame and whether the loop breaks there. */
  datatype Step = Step(next: Session, stop: bool)

  /** One iteration of the loop body. */
  function StepFrame(cfg: Config, s: Session, f: Frame): (r: Step)
    ensures Loud(cfg, f) ==>
              && r.next.buffer == s.buffer + [f.samples]
              && r.next.isSpeaking
              && r.next.lastVoiceTime == f.time
    ensures !Loud(cfg, f) ==> r.next == s
    ensures r.next.startTime == s.startTime
    ensures r.stop <==> SilenceExpired(cfg, s, f) || TimedOut(cfg, s, f)
  {
    var volume := AudioRms(f);
    var currentTime := f.time;
    if volume > cfg.silenceThreshold then
      var s' := s.(isSpeaking := true, buffer := s.buffer + [f.samples], lastVoiceTime := currentTime);
      Step(s', currentTime - s.startTime > cfg.maxRecordTime)
    else if s.isSpeaking && currentTime - s.lastVoiceTime > cfg.silenceMaxDuration then
      Step(s, true)
    else
      Step(s, currentTime - s.startTime > cfg.maxRecordTime)
  }

  /** Reference definition: the samples of the voiced frames, in order. */
  function Voiced(cfg: Config, frames: seq<Frame>): seq<seq<Int16>> {
    if frames == [] then []
    else (if Loud(cfg, frames[0]) then [frames[0].samples] else []) + Voiced(cfg, frames[1..])
  }

  /** Reference definition: the tick of the last voiced frame, or `t` when no
      frame is voiced. */
  function LastVoice(cfg: Config, t: int, frames: seq<Frame>): int
    decreases |frames|
  {
    if frames == [] then t
    else LastVoice(cfg, if Loud(cfg, frames[0]) then frames[0].time else t, frames[1..])
  }

  /** `np.concatenate(chunks)` for a non-empty list. */
  function Concat(chunks: seq<seq<Int16>>): seq<Int16> {
    if chunks == [] then [] else chunks[0] + Concat(chunks[1..])
  }

  /** The state after the loop: the session, how many frames were read, and
      whether the loop broke out. */
  datatype Fold = Fold(session: Session, consumed: nat, stopped: bool)

  /** The loop from frame `i` on, as a fold. */
  function RunFrom(cfg: Config, s: Session, frames: seq<Frame>, i: nat): (r: Fold)
    requires i <= |frames|
    ensures i <= r.consumed <= |frames|
    ensures r.stopped ==> i < r.consumed
    ensures !r.stopped ==> r.consumed == |frames|
    ensures r.session.buffer == s.buffer + Voiced(cfg, Slice(frames, i, r.consumed))
    ensures r.session.startTime == s.startTime
    ensures r.session.lastVoiceTime == LastVoice(cfg, s.lastVoiceTime, Slice(frames, i, r.consumed))
    ensures r.session.isSpeaking <==> s.isSpeaking || Voiced(cfg, Slice(frames, i, r.consumed)) != []
    decreases |frames| - i
  {
    if i == |frames| then
      Fold(s, i, false)
    else
      var step := StepFrame(cfg, s, frames[i]);
      if step.stop then
        assert frames[i..i + 1][1..] == [];
        Fold(step.next, i + 1, true)
      else
        var r := RunFrom(cfg, step.next, frames, i + 1);
        assert frames[i..r.consumed][0] == frames[i];
        assert frames[i..r.consumed][1..] == frames[i + 1..r.consumed];
        r
  }

  /** What `record_numpy` produces from the frames it was given. */
  datatype Recording =
    | Audio(samples: seq<Int16>, framesRead: nat) // the concatenated buffer
    | NoAudio(framesRead: nat)                    // `np.concatenate([])` raises
    | Listening(session: Session)                 // no stop yet: still reading frames

  /** Packs the buffer the loop broke out with. */
  function Finish(buffer: seq<seq<Int16>>, framesRead: nat): Recording {
    if buffer == [] then NoAudio(framesRead) else Audio(Concat(buffer), framesRead)
  }

  /** `VoiceRecorder.record_numpy` over a prefix of the frame stream. */
  function Record(cfg: Config, t0: int, frames: seq<Frame>): (r: Recording)
    ensures r.Listening? ==>
              && r.session.buffer == Voiced(cfg, frames)
              && r.session.lastVoiceTime == LastVoice(cfg, t0, frames)
              && (r.session.isSpeaking <==> Voiced(cfg, frames) != [])
              && r.session.startTime == t0
    ensures !r.Listening? ==> 0 < r.framesRead <= |frames|
    ensures r.Audio? ==>
              && Voiced(cfg, Slice(frames, 0, r.framesRead)) != []
              && r.samples == Concat(Voiced(cfg, Slice(frames, 0, r.framesRead)))
    ensures r.NoAudio? ==> Voiced(cfg, Slice(frames, 0, r.framesRead)) == []
  {
    var run := RunFrom(cfg, Start(t0), frames, 0);
    assert frames[0..run.consumed] == frames[..run.consumed];
    assert frames[..|frames|] == frames;
    assert run.session.buffer == Voiced(cfg, frames[..run.consumed]);
    if run.stopped then Finish(run.session.buffer, run.consumed) else Listening(run.session)
  }

  /** `record_numpy` as written: a `while True` loop with two `break`s, then the
      concatenation. */
  method RecordNumpy(cfg: Config, t0: int, frames: seq<Frame>) returns (r: Recording)
    ensures r == Record(cfg, t0, frames)
  {
    var lastVoiceTime := t0;
    var recordStartTime := t0;
    var isSpeaking := false;
    var audioBuffer: seq<seq<Int16>> := [];
    var i := 0;
    var stopped := false;
    ghost var run := RunFrom(cfg, Start(t0), frames, 0);
    while i < |frames|
      invariant i <= |frames|
      invariant RunFrom(cfg, Session(isSpeaking, lastVoiceTime, recordStartTime, audioBuffer), frames, i) == run
      decreases |frames| - i
    {
      var frame := frames[i];
      var volume := AudioRms(frame);
      var currentTime := frame.time;
      i := i + 1;
      if volume > cfg.silenceThreshold {
        isSpeaking := true;
        audioBuffer := audioBuffer + [frame.samples];
        lastVoiceTime := currentTime;
      } else if isSpeaking && currentTime - lastVoiceTime > cfg.silenceMaxDuration {
        stopped := true;
        break;
      }
      if currentTime - recordStartTime > cfg.maxRecordTime {
        stopped := true;
        break;
      }
    }
    if stopped {
      r := Finish(audioBuffer, i);
    } else {
      r := Listening(Session(isSpeaking, lastVoiceTime, recordStartTime, audioBuffer));
    }
  }

  // ---------------------------------------------------------------------------
  // Properties.

  /** With a non-negative threshold an empty frame is never voice: it leaves any
      session as it was, and it ends the loop only through the silence stop or the
      time limit. */
  lemma EmptyFrameIsSilent(cfg: Config, s: Session, f: Frame)
    requires |f.samples| == 0 && cfg.silenceThreshold >= 0.0
    ensures !Loud(cfg, f)
    ensures StepFrame(cfg, s, f) == Step(s, (s.isSpeaking && f.time - s.lastVoiceTime > cfg.silenceMaxDuration)
                                            || TimedOut(cfg, s, f))
  {
  }

  /** The loop stops exactly at the first frame whose step stops: every frame `n`
      read before the last one is reached in the state the loop built from the
      frames before it, and its step stops if and only if it is the last frame
      read and the loop broke out there. */
  lemma {:induction false} RunStopsAtFirstStop(cfg: Config, s: Session, frames: seq<Frame>, i: nat, n: nat)
    requires i <= n < |frames|
    requires n < RunFrom(cfg, s, frames, i).consumed
    ensures var r := RunFrom(cfg, s, frames, i);
            var p := RunFrom(cfg, s, frames[..n], i);
            && !p.stopped
            && (StepFrame(cfg, p.session, frames[n]).stop <==> r.stopped && n == r.consumed - 1)
    decreases n - i
  {
    var step := StepFrame(cfg, s, frames[i]);
    assert frames[..n][i..] == frames[i..n];
    if n == i {
      assert RunFrom(cfg, s, frames[..n], i) == Fold(s, i, false);
      if !step.stop {
        assert RunFrom(cfg, s, frames, i) == RunFrom(cfg, step.next, frames, i + 1);
      }
    } else {
      assert frames[..n][i] == frames[i];
      assert !step.stop;
      assert RunFrom(cfg, s, frames[..n], i) == RunFrom(cfg, step.next, frames[..n], i + 1);
      RunStopsAtFirstStop(cfg, step.next, frames, i + 1, n);
    }
  }

  /** `record_numpy` breaks out at the first frame whose step stops, and not
      before: every frame read, or every frame of a recorder still listening, is
      reached in the state built from the frames before it, and its step stops if
      and only if it is the last frame the recording read. */
  lemma RecordStopsAtFirstStop(cfg: Config, t0: int, frames: seq<Frame>, n: nat)
    requires n < |frames|
    requires Record(cfg, t0, frames).Listening? || n < Record(cfg, t0, frames).framesRead
    ensures var r := Record(cfg, t0, frames);
            var p := RunFrom(cfg, Start(t0), frames[..n], 0);
            && !p.stopped
            && (StepFrame(cfg, p.session, frames[n]).stop <==> !r.Listening? && n == r.framesRead - 1)
  {
    RunStopsAtFirstStop(cfg, Start(t0), frames, 0, n);
  }

  /** Any frame read after the recording time ran out ends the loop there or
      earlier, whatever the state. */
  lemma {:induction false} RunStopsByDeadline(cfg: Config, s: Session, frames: seq<Frame>, i: nat, k: nat)
    requires i <= k < |frames|
    requires frames[k].time - s.startTime > cfg.maxRecordTime
    ensures RunFrom(cfg, s, frames, i).stopped
    ensures RunFrom(cfg, s, frames, i).consumed <= k + 1
    decreases k - i
  {
    var step := StepFrame(cfg, s, frames[i]);
    if !step.stop {
      RunStopsByDeadline(cfg, step.next, frames, i + 1, k);
    }
  }

  /** The recording always ends once a frame arrives past `maxRecordTime`, even if
      no voice was ever heard. */
  lemma RecordEndsByDeadline(cfg: Config, t0: int, frames: seq<Frame>, k: nat)
    requires k < |frames| && frames[k].time - t0 > cfg.maxRecordTime
    ensures !Record(cfg, t0, frames).Listening?
    ensures Record(cfg, t0, frames).framesRead <= k + 1
  {
    RunStopsByDeadline(cfg, Start(t0), frames, 0, k);
  }

  /** Once speaking, a run of quiet frames that outlasts `silenceMaxDuration` ends
      the loop without adding anything to the buffer. */
  lemma {:induction false} RunStopsAfterSilence(cfg: Config, s: Session, frames: seq<Frame>, i: nat, k: nat)
    requires s.isSpeaking
    requires i <= k < |frames|
    requires forall j :: i <= j <= k ==> !Loud(cfg, frames[j])
    requires frames[k].time - s.lastVoiceTime > cfg.silenceMaxDuration
    ensures RunFrom(cfg, s, frames, i).stopped
    ensures RunFrom(cfg, s, frames, i).consumed <= k + 1
    ensures RunFrom(cfg, s, frames, i).session.buffer == s.buffer
    decreases k - i
  {
    var step := StepFrame(cfg, s, frames[i]);
    assert !Loud(cfg, frames[i]);
    if !step.stop {
      RunStopsAfterSilence(cfg, step.next, frames, i + 1, k);
    }
  }

  /** Before any voice, quiet frames read within the time limit never stop the
      loop and never reach the buffer: the silence stop needs speech first. */
  lemma {:induction false} IdleSilenceNeverStops(cfg: Config, s: Session, frames: seq<Frame>, i: nat)
    requires !s.isSpeaking
    requires i <= |frames|
    requires forall j :: i <= j < |frames| ==> !Loud(cfg, frames[j])
    requires forall j :: i <= j < |frames| ==> !TimedOut(cfg, s, frames[j])
    ensures RunFrom(cfg, s, frames, i) == Fold(s, |frames|, false)
    decreases |frames| - i
  {
    if i < |frames| {
      assert !Loud(cfg, frames[i]) && !TimedOut(cfg, s, frames[i]);
      IdleSilenceNeverStops(cfg, s, frames, i + 1);
    }
  }

  /** While idle, `last_voice_time` is never read: the first clock reading can be
      anything without changing what the loop does. */
  lemma {:induction false} IdleVoiceTimeIsUnread(cfg: Config, s: Session, t: int, frames: seq<Frame>, i: nat)
    requires !s.isSpeaking
    requires i <= |frames|
    ensures var a := RunFrom(cfg, s, frames, i);
            var b := RunFrom(cfg, s.(lastVoiceTime := t), frames, i);
            a.stopped == b.stopped && a.consumed == b.consumed && a.session.buffer == b.session.buffer
            && a.session.isSpeaking == b.session.isSpeaking
    decreases |frames| - i
  {
    if i < |frames| {
      var sa := StepFrame(cfg, s, frames[i]);
      var sb := StepFrame(cfg, s.(lastVoiceTime := t), frames[i]);
      if Loud(cfg, frames[i]) {
        assert sa == sb;
      } else if !sa.stop {
        IdleVoiceTimeIsUnread(cfg, s, t, frames, i + 1);
      }
    }
  }

  /** With the default settings: speech, a short pause, speech, then a pause of
      more than a second. The loop stops at the long pause; the audio holds the two
      voiced frames only, and the frame after the stop is never read. */
  lemma SpeechThenSilenceExample()
    ensures Record(Defaults, 0, [
              Frame([1000], 1000.0, 200), Frame([0], 0.0, 400), Frame([-1000], 1000.0, 600),
              Frame([0], 0.0, 1700), Frame([1000], 1000.0, 1900)])
            == Audio([1000, -1000], 4)
  {
    var frames := [
      Frame([1000], 1000.0, 200), Frame([0], 0.0, 400), Frame([-1000], 1000.0, 600),
      Frame([0], 0.0, 1700), Frame([1000], 1000.0, 1900)];
    var s1 := Session(true, 200, 0, [[1000]]);
    var s3 := Session(true, 600, 0, [[1000], [-1000]]);
    assert StepFrame(Defaults, Start(0), frames[0]) == Step(s1, false);
    assert StepFrame(Defaults, s1, frames[1]) == Step(s1, false);
    assert StepFrame(Defaults, s1, frames[2]) == Step(s3, false);
    assert StepFrame(Defaults, s3, frames[3]) == Step(s3, true);
    assert RunFrom(Defaults, Start(0), frames, 0) == Fold(s3, 4, true);
    assert Concat([[1000], [-1000]]) == [1000, -1000];
  }

  /** With the default settings: speech that lasts longer than the silence limit is
      not cut off, because every voiced frame moves the silence deadline. Voiced
      frames at 200, 600, 1000 and 1400 and a quiet frame at 1500 leave the
      recorder speaking and still listening. */
  lemma LongSpeechKeepsListening()
    ensures Record(Defaults, 0, [
              Frame([1000], 1000.0, 200), Frame([1000], 1000.0, 600), Frame([1000], 1000.0, 1000),
              Frame([1000], 1000.0, 1400), Frame([0], 0.0, 1500)])
            == Listening(Session(true, 1400, 0, [[1000], [1000], [1000], [1000]]))
  {
    var frames := [
      Frame([1000], 1000.0, 200), Frame([1000], 1000.0, 600), Frame([1000], 1000.0, 1000),
      Frame([1000], 1000.0, 1400), Frame([0], 0.0, 1500)];
    var s4 := Session(true, 1400, 0, [[1000], [1000], [1000], [1000]]);
    assert StepFrame(Defaults, Start(0), frames[0]) == Step(Session(true, 200, 0, [[1000]]), false);
    assert StepFrame(Defaults, s4, frames[4]) == Step(s4, false);
    assert RunFrom(Defaults, Start(0), frames, 0) == Fold(s4, 5, false);
  }
}
