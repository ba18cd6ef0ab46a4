/**
 The `G8AudioKitWrapper` class (GenAudio/G8AudioKitWrapper.swift): a rolling
 buffer of the last amplitude readings, averaged on every timer tick and
 handed to an optional callback, plus the start/stop lifecycle of the timer
 and the AudioKit graph.

 The AudioKit nodes, the audio session and the run loop are foreign code. The
 model keeps only what the class itself decides about them: which stage
 parameters it builds the graph with, whether the engine is running, whether
 the graph is wired to the output, and whether its timer is still valid. The
 amplitude that `amplitudeTracker.amplitude` would return is a parameter of
 `AudioAnalysis`, and the value handed to `onAmplitudeUpdate` is its result.
 */
module AudioKitWrapper {

  import opened Options
  import opened ArrayExtension
  import opened RealSeqs
  import opened RollingBuffer

  /** The stage parameters `startAudioAnalysis` builds the graph with. */
  datatype SignalChain = SignalChain(
    boostGain: real,       // AKBooster in front of the filters
    highPassCutoff: real,  // AKHighPassFilter, Hz
    lowPassCutoff: real,   // AKLowPassFilter, Hz
    outputGain: real)      // the muting AKBooster routed to the output

  const StartChain := SignalChain(5.0, 55.0, 255.0, 0.0)

  class G8AudioKitWrapper {

    /** Number of amplitude readings averaged per tick. */
    const amplitudeBuffSize: nat := 10

    /** The rolling window, most recent write at index 1 (see RollingBuffer). */
    var amplitudeBuffer: seq<real>

    /** The graph's stage settings; `None` until the first start, while the
        implicitly unwrapped node fields are still nil. */
    var chain: Option<SignalChain>

    /** `AudioKit.start()` has run more recently than `AudioKit.stop()`. */
    var engineRunning: bool

    /** The graph is routed to `AudioKit.output` and not yet disconnected. */
    var outputConnected: bool

    /** `audioAnalysisTimer` holds a scheduled timer not yet invalidated. */
    var timerValid: bool

    /** Timers scheduled and never invalidated, whether or not the field still
        refers to them: each of these would keep calling `audioAnalysis`. */
    ghost var liveTimers: nat

    /** `onAmplitudeUpdate` is not nil. */
    var observerRegistered: bool

    /** The class invariant: the buffer keeps the length `init` gives it, so
        the average never divides by zero, and exactly the timer the field
        refers to (if any) is live. */
    ghost predicate Valid()
      reads this
      ensures Valid() ==> |amplitudeBuffer| == 10
    {
      |amplitudeBuffer| == amplitudeBuffSize &&
      liveTimers == (if timerValid then 1 else 0)
    }

    /** `init`: the buffer holds `amplitudeBuffSize` zeros and nothing runs. */
    constructor ()
      ensures Valid()
      ensures amplitudeBuffer == Repeat(0.0, amplitudeBuffSize)
      ensures chain == None && !engineRunning && !outputConnected && !timerValid
      ensures liveTimers == 0 && !observerRegistered
    {
      amplitudeBuffer := Repeat(0.0, amplitudeBuffSize);
      chain := None;
      engineRunning, outputConnected, timerValid := false, false, false;
      liveTimers := 0;
      observerRegistered := false;
    }

    /**
     `startAudioAnalysis`: stops first, then builds the graph, connects it to
     the output, starts the engine and schedules a new timer. The buffer is
     not reset, so its contents carry over from an earlier run. Exactly one
     timer is live afterwards, however often it is called.
     */
    method StartAudioAnalysis()
      requires Valid()
      modifies this
      ensures Valid()
      ensures chain == Some(StartChain)
      ensures engineRunning && outputConnected && timerValid && liveTimers == 1
      ensures amplitudeBuffer == old(amplitudeBuffer)
      ensures observerRegistered == old(observerRegistered)
    {
      StopAudioAnalysis();
      chain := Some(StartChain);
      outputConnected := true;
      engineRunning := true;
      timerValid := true;
      liveTimers := liveTimers + 1;
    }

    /**
     `stopAudioAnalysis`: invalidates the timer (if any), disconnects the
     graph and stops the engine. Node settings and the buffer stay as they
     are; calling it again, or before any start, changes nothing more.
     */
    method StopAudioAnalysis()
      requires Valid()
      modifies this
      ensures Valid()
      ensures !engineRunning && !outputConnected && !timerValid && liveTimers == 0
      ensures chain == old(chain)
      ensures amplitudeBuffer == old(amplitudeBuffer)
      ensures observerRegistered == old(observerRegistered)
    {
      if timerValid {
        timerValid := false;
        liveTimers := liveTimers - 1;
      }
      outputConnected := false;
      engineRunning := false;
    }

    /**
     `writeToBuffer(val:)`, loop for loop. The `for` runs over the indices
     of the array as it was on entry; the count in the condition is read on
     every iteration. Every `rearrange` call it makes meets the extension's
     precondition, and the result is `Shifted`, not the FIFO push the
     source's comment describes.
     */
    method WriteToBuffer(val: real)
      modifies this`amplitudeBuffer
      ensures amplitudeBuffer == Shifted(old(amplitudeBuffer), val)
    {
      ghost var b := amplitudeBuffer;
      var count := |amplitudeBuffer|;
      var index := 0;
      while index < count
        invariant 0 <= index <= count
        invariant amplitudeBuffer == LoopState(b, val, index)
      {
        if index == 0 {
          amplitudeBuffer := InsertAt(amplitudeBuffer, val, 0);
          amplitudeBuffer := PopLast(amplitudeBuffer).0;
        } else if index < |amplitudeBuffer| - 1 {
          amplitudeBuffer := Rearrange(amplitudeBuffer, index - 1, index + 1);
        }
        index := index + 1;
      }
      LoopEnd(b, val);
    }

    /** `getBufferAverage`: the running sum over the buffer, divided by the count. */
    method GetBufferAverage() returns (avg: real)
      requires Valid()
      ensures avg == Mean(amplitudeBuffer)
    {
      avg := 0.0;
      for i := 0 to |amplitudeBuffer|
        invariant avg == Sum(amplitudeBuffer[..i])
      {
        assert amplitudeBuffer[..i + 1][..i] == amplitudeBuffer[..i];
        avg := avg + amplitudeBuffer[i];
      }
      assert amplitudeBuffer[..|amplitudeBuffer|] == amplitudeBuffer;
      avg := avg / (|amplitudeBuffer| as real);
    }

    /**
     `audioAnalysis`, one timer tick: write the tracker's amplitude, average
     the updated buffer and hand the average to the callback. The result is
     what the callback receives, `None` when `onAmplitudeUpdate` is nil. The
     tracker is an implicitly unwrapped field, so the graph must have been
     built by a start.
     */
    method AudioAnalysis(amplitude: real) returns (delivered: Option<real>)
      requires Valid() && chain.Some?
      modifies this`amplitudeBuffer
      ensures Valid()
      ensures amplitudeBuffer == Shifted(old(amplitudeBuffer), amplitude)
      ensures delivered == if observerRegistered then Some(Mean(amplitudeBuffer)) else None
      ensures observerRegistered ==>
        delivered == Some((Sum(old(amplitudeBuffer)) - old(amplitudeBuffer)[amplitudeBuffSize - 1] + amplitude)
                          / (amplitudeBuffSize as real))
    {
      ShiftedSum(amplitudeBuffer, amplitude);
      WriteToBuffer(amplitude);
      var val := GetBufferAverage();
      if observerRegistered {
        delivered := Some(val);
      } else {
        delivered := None;
      }
    }
  }

  /** A fresh wrapper averages to 0.0. */
  method InitialAverage() returns (avg: real)
    ensures avg == 0.0
  {
    var w := new G8AudioKitWrapper();
    avg := w.GetBufferAverage();
    MeanRepeat(0.0, w.amplitudeBuffSize);
  }

  /**
   The host's use of the class: create it, register a callback, start, and
   let the timer tick ten times while the tracker reads a steady 1.0. The
   last value delivered is 0.8: slots 0 and 8 of the buffer keep the zeros
   they were created with.
   */
  method TenTicksOfOne() returns (last: Option<real>)
    ensures last == Some(0.8)
  {
    var w := new G8AudioKitWrapper();
    w.observerRegistered := true;
    w.StartAudioAnalysis();
    var ticks := 0;
    last := None;
    while ticks < 10
      invariant 0 <= ticks <= 10
      invariant w.Valid() && w.chain.Some? && w.observerRegistered
      invariant w.amplitudeBuffer == PushAll(Repeat(0.0, 10), Repeat(1.0, ticks))
      invariant ticks > 0 ==> last == Some(Mean(w.amplitudeBuffer))
    {
      assert Repeat(1.0, ticks + 1)[..ticks] == Repeat(1.0, ticks);
      last := w.AudioAnalysis(1.0);
      ticks := ticks + 1;
    }
    TenWritesOfOne();
  }
}
