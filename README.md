# G8AudioKitWrapper rolling amplitude buffer, in Dafny

`G8AudioKitWrapper` (GenAudio/G8AudioKitWrapper.swift) taps the device
microphone through an AudioKit graph. A timer ticks every 10 ms. On each tick
the wrapper:

- reads the amplitude the graph's tracker reports;
- writes that reading into a rolling buffer of `amplitudeBuffSize` = 10
  doubles;
- averages the buffer;
- hands the average to an optional `onAmplitudeUpdate` callback.

This project models that buffer and the code around it:

- the zero-filled buffer built by `init`;
- `writeToBuffer(val:)`, which works in place through `insert`, `popLast` and
  the project's `Array.rearrange(from:to:)` extension;
- `getBufferAverage`;
- the per-tick `audioAnalysis`;
- the effect of `startAudioAnalysis` and `stopAudioAnalysis` on the timer and
  on the wrapper's state.

The model has five files:

- `options.dfy`: Swift's `Optional`.
- `array_extension.dfy`: the array operations, as functions on sequences.
  Swift arrays are values. `insert(_:at:)`, `remove(at:)`, `popLast()` and
  `rearrange(from:to:)` are pure functions with their Swift preconditions.
- `real_seqs.dfy`: sums, means, minimum and maximum of amplitude sequences.
- `rolling_buffer.dfy`: what one write does to the buffer, in closed form
  (`Shifted`). It also holds the body of the loop in `writeToBuffer` as a
  function (`WriteIteration`) and the buffer at the top of each iteration
  (`LoopState`), with the proof by induction that the loop ends in
  `Shifted`. Then come the consequences: the multiset and the sum a write
  keeps, the slots that keep their old value, and the average of a constant stream.
- `wrapper.dfy`: the class `G8AudioKitWrapper`. `amplitudeBuffer` is a
  `seq<real>` field, which `WriteToBuffer` updates through a `while` loop
  that mirrors the Swift `for … in enumerated()` loop. `GetBufferAverage` is
  a summing loop. `AudioAnalysis`, `StartAudioAnalysis` and
  `StopAudioAnalysis` are methods that change the object. The datatype
  `SignalChain` holds the four stage settings `startAudioAnalysis` builds
  the graph with (GenAudio/G8AudioKitWrapper.swift:55-69), and the constant
  `StartChain` their values: booster gain 5.0, high-pass cutoff 55 Hz,
  low-pass cutoff 255 Hz and output gain 0.

## What the code does, as opposed to what it says

The comment on `writeToBuffer` promises a FIFO push: write at index 0, shift
the rest right, drop the last (GenAudio/G8AudioKitWrapper.swift:101). A
window like that, fed a constant input, would average to that input once
full. The loop does something else. It iterates over the indices of
the array as it was on entry. At index 0 it inserts `val` at the front and
pops the last element. At every index `1 <= index < count - 1` it calls
`rearrange(from: index - 1, to: index + 1)`. Those calls overlap, so `val`
moves on to slot 2 and then comes back to slot 1, while the pair behind it
is swapped along the buffer. For `n >= 4` the buffer
`[b0, b1, ..., b(n-1)]` becomes
`[b0, val, b1, ..., b(n-4), b(n-2), b(n-3)]` (`Shifted`, `ShiftedAt`,
`WriteToBuffer`).

Consequences:

- Slots 0 and `n - 2` hold their old value after every write
  (`PushAllKeepsFixedSlots`). Inside the loop they are touched: slot 0 holds
  `val` until `rearrange(from: 0, to: 2)` moves it on, and the last call
  `rearrange(from: n - 3, to: n - 1)` shifts slot `n - 2`; the value it
  ends with is the one it had before the write.
- Starting from the zeros of `init`, those two slots stay 0.0 for ever. Ten
  ticks of amplitude 1.0 therefore deliver 0.8, not 1.0 (`TenWritesOfOne`,
  `TenTicksOfOne`). A constant stream's average is bounded by
  `(n - 2) / n` of the input (`ConstantStreamAverage`,
  `ConstantStreamAverageBound`).
- The result equals the FIFO push only in degenerate cases
  (`ShiftedVersusFifo`).
- Each write still evicts exactly the element that was last
  (`ShiftedMultiset`). The sum changes by `val` minus that element
  (`ShiftedSum`).

A restart does not begin with a fresh buffer. Neither `startAudioAnalysis`
nor `stopAudioAnalysis` touches `amplitudeBuffer`, so its contents carry over
from one run to the next: both methods ensure
`amplitudeBuffer == old(amplitudeBuffer)` (`StartAudioAnalysis`,
`StopAudioAnalysis`).

The model follows the code throughout.

## Model

| member | source | states |
|---|---|---|
| ArrayExtension.InsertAt | GenAudio/G8AudioKitWrapper.swift:105 | `insert(x, at: i)` for `0 <= i <= count`: one element longer, `x` at `i`, the elements before `i` in place and those from `i` on one slot later |
| ArrayExtension.InsertAtMultiset | GenAudio/G8AudioKitWrapper.swift:105 | `insert` adds exactly one occurrence of `x` to the multiset of elements |
| ArrayExtension.RemoveAt | GenAudio/G8AudioKitWrapper.swift:130 | `remove(at: i)` for an index in range: one element shorter, the elements before `i` in place and those after it one slot earlier |
| ArrayExtension.RemoveAtMultiset | GenAudio/G8AudioKitWrapper.swift:130 | `remove(at: i)` takes exactly one occurrence of `s[i]` out of the multiset of elements |
| ArrayExtension.PopLast | GenAudio/G8AudioKitWrapper.swift:106 | `popLast()` on an empty array gives the empty array and `nil`; otherwise it returns the last element, and the remaining array followed by that element is the original |
| ArrayExtension.CanRearrange | GenAudio/G8AudioKitWrapper.swift:129 | the `precondition` `rearrange` checks: `from != to` and both indices valid; it can hold only for an array of at least two elements |
| ArrayExtension.Rearrange | GenAudio/G8AudioKitWrapper.swift:127-131 | defined only under the extension's precondition (`from != to`, both indices valid); the result has the same length |
| ArrayExtension.RearrangeMultiset | GenAudio/G8AudioKitWrapper.swift:127-131 | `rearrange` keeps the multiset of elements: nothing is gained or lost |
| ArrayExtension.RearrangeMoves | GenAudio/G8AudioKitWrapper.swift:127-131 | the element at `from` ends at `to`; the elements strictly between move one slot towards `from`; the elements outside both indices keep their place |
| RealSeqs.Sum | GenAudio/G8AudioKitWrapper.swift:116-119 | the running sum of the `for val in` loop, accumulated front to back from 0.0; what it satisfies is stated by `SumConcat`, `SumRepeat` and `SumBounds` |
| RealSeqs.Mean | GenAudio/G8AudioKitWrapper.swift:120 | the average of a non-empty buffer is the value that, multiplied by the element count, gives the sum; the reference `GetBufferAverage` is proved against |
| RealSeqs.Repeat | GenAudio/G8AudioKitWrapper.swift:28 | `[Double](repeating: x, count: n)` has `n` elements, each `x` |
| RealSeqs.SumRepeat | GenAudio/G8AudioKitWrapper.swift:115-122 | `count` copies of `c` sum to `count * c` |
| RealSeqs.SumConcat | GenAudio/G8AudioKitWrapper.swift:117-119 | the front-to-back running sum is additive over concatenation |
| RealSeqs.MeanBounds | GenAudio/G8AudioKitWrapper.swift:115-122 | sum divided by count lies within any bounds that every element satisfies |
| RealSeqs.MeanRepeat | GenAudio/G8AudioKitWrapper.swift:115-122 | the average of `count > 0` copies of `c` is `c` |
| RealSeqs.MeanOfConstant | GenAudio/G8AudioKitWrapper.swift:115-122 | a non-empty buffer whose every element is `c` averages to `c` |
| RealSeqs.Min | GenAudio/G8AudioKitWrapper.swift:115-122 | the smallest element of a non-empty buffer: an element that bounds all others from below |
| RealSeqs.Max | GenAudio/G8AudioKitWrapper.swift:115-122 | the largest element of a non-empty buffer: an element that bounds all others from above |
| RealSeqs.MeanBetweenMinAndMax | GenAudio/G8AudioKitWrapper.swift:115-122 | the average lies between the smallest and the largest element |
| RollingBuffer.Shifted | GenAudio/G8AudioKitWrapper.swift:103-111 | one write keeps the buffer length; for three or more elements, slots 0 and `n - 2` keep their old values |
| RollingBuffer.ShiftedAt | GenAudio/G8AudioKitWrapper.swift:103-111 | for `n >= 4`, element by element: slot 0 is `b0`, slot 1 is `val`, slot `k` for `2 <= k <= n - 3` is `b(k-1)`, slot `n - 2` is `b(n-2)` and slot `n - 1` is `b(n-3)` |
| RollingBuffer.FifoPush | GenAudio/G8AudioKitWrapper.swift:101 | the push the comment describes: same length, `val` at index 0, every old element one slot to the right, the last one dropped |
| RollingBuffer.ShiftedVersusFifo | GenAudio/G8AudioKitWrapper.swift:101-111 | the loop agrees with the commented FIFO push for buffers of up to two elements; for three or more, it agrees exactly when `val == b0` and `b(n-2) == b(n-3)` |
| RollingBuffer.AfterRearranges | GenAudio/G8AudioKitWrapper.swift:104-110 | the closed-form buffer once the index-0 iteration and the `rearrange` calls up to index `j` have run still has `n` elements |
| RollingBuffer.WriteIteration | GenAudio/G8AudioKitWrapper.swift:104-110 | one pass of the loop body, with the same three branches as the source (insert and pop at index 0, `rearrange` while `index < count - 1` with the count read afresh, nothing otherwise); it keeps the length |
| RollingBuffer.LoopState | GenAudio/G8AudioKitWrapper.swift:103-111 | the buffer at the top of each iteration, the loop running over the indices of the buffer on entry, has the length it had on entry |
| RollingBuffer.FirstIteration | GenAudio/G8AudioKitWrapper.swift:104-107 | `insert(val, at: 0)` then `popLast()` on a non-empty buffer gives `val` followed by all but the last element |
| RollingBuffer.RearrangeStep | GenAudio/G8AudioKitWrapper.swift:108-110 | for `1 <= index < count - 1`, `rearrange(from: index - 1, to: index + 1)` on the closed-form state gives the closed-form state of the next index; that the call meets the extension's precondition is immediate from the closed form's length |
| RollingBuffer.LoopStateClosedForm | GenAudio/G8AudioKitWrapper.swift:103-110 | by induction over the iterations: for `1 <= index < count`, the buffer at the top of iteration `index` is the closed form after the `rearrange` of index `index - 1` |
| RollingBuffer.LastIteration | GenAudio/G8AudioKitWrapper.swift:108 | the iteration with `index == count - 1` fails the `index < count - 1` test and leaves the buffer as it was |
| RollingBuffer.AfterAllRearranges | GenAudio/G8AudioKitWrapper.swift:103-111 | the closed form after the last `rearrange` call (index `count - 2`) is `Shifted` |
| RollingBuffer.LoopEnd | GenAudio/G8AudioKitWrapper.swift:103-111 | once every original index has been visited, the buffer is `Shifted(b, val)` for every length, the empty buffer included (on which the loop does nothing) |
| RollingBuffer.ShiftedMultiset | GenAudio/G8AudioKitWrapper.swift:105-110 | a write on a non-empty buffer removes exactly the element that was last and adds `val`; nothing else enters or leaves |
| RollingBuffer.ShiftedSum | GenAudio/G8AudioKitWrapper.swift:105-110 | a write changes the buffer's sum by `val - b(n-1)` |
| RollingBuffer.PushAll | GenAudio/G8AudioKitWrapper.swift:102-111 | a sequence of writes, first to last, keeps the buffer length |
| RollingBuffer.PushAllKeepsFixedSlots | GenAudio/G8AudioKitWrapper.swift:103-111 | for three or more elements, no number of writes changes slot 0 or slot `n - 2` |
| RollingBuffer.ConstantStreamFromZeros | GenAudio/G8AudioKitWrapper.swift:103-111 | `k` writes of `c` into `n >= 4` zeros give zero, then `k` copies of `c`, then zeros while `k <= n - 3`; from then on, the fixed buffer with zeros in slots 0 and `n - 2` and `c` everywhere else |
| RollingBuffer.ConstantStreamAverage | GenAudio/G8AudioKitWrapper.swift:102-122 | after `n - 2` or more writes of `c` into `n >= 4` zeros, the average is exactly `(n - 2) * c / n` for ever, not `c` |
| RollingBuffer.FillingAverageBound | GenAudio/G8AudioKitWrapper.swift:102-122 | for `c >= 0`, while at most `n - 3` writes of `c` have filled the zeros, the average is at most `(n - 2) * c / n` |
| RollingBuffer.ConstantStreamAverageBound | GenAudio/G8AudioKitWrapper.swift:102-122 | for `c >= 0`, after any number of writes of `c` into `n >= 4` zeros, the average never exceeds `(n - 2) * c / n` |
| RollingBuffer.TenWritesOfOne | GenAudio/G8AudioKitWrapper.swift:102-122 | ten writes of 1.0 into the ten initial zeros average to 0.8 |
| RollingBuffer.OneWriteOfOne | GenAudio/G8AudioKitWrapper.swift:102-122 | one write of 1.0 into the ten initial zeros averages to 0.1 |
| AudioKitWrapper.G8AudioKitWrapper.Valid | GenAudio/G8AudioKitWrapper.swift:12-28 | the class invariant: the buffer has `amplitudeBuffSize` = 10 elements, as `init` makes it, so the average never divides by zero; exactly one timer is live when `audioAnalysisTimer` holds a valid one, and none otherwise |
| AudioKitWrapper.G8AudioKitWrapper.constructor | GenAudio/G8AudioKitWrapper.swift:26-31 | `init`: the buffer is `amplitudeBuffSize` (10) zeros; no graph, no engine, no timer, no callback |
| AudioKitWrapper.G8AudioKitWrapper.StartAudioAnalysis | GenAudio/G8AudioKitWrapper.swift:35-83 | stops first, then builds the graph with booster gain 5.0, high-pass 55 Hz, low-pass 255 Hz and output gain 0. It connects the output, starts the engine and arms a timer. Exactly one timer is live afterwards, however often it is called, and the buffer and the callback are unchanged |
| AudioKitWrapper.G8AudioKitWrapper.StopAudioAnalysis | GenAudio/G8AudioKitWrapper.swift:86-91 | invalidates any timer, disconnects and stops the engine; no live timer remains; the graph settings, the buffer and the callback are unchanged; calling it again or before any start is harmless |
| AudioKitWrapper.G8AudioKitWrapper.WriteToBuffer | GenAudio/G8AudioKitWrapper.swift:102-112 | the loop as written updates the buffer field in place, and every iteration keeps it equal to `LoopState`. It leaves exactly `Shifted(old buffer, val)` and touches no other field |
| AudioKitWrapper.G8AudioKitWrapper.GetBufferAverage | GenAudio/G8AudioKitWrapper.swift:115-122 | the running-sum loop divided by the count returns the mean of the buffer, and changes nothing |
| AudioKitWrapper.G8AudioKitWrapper.AudioAnalysis | GenAudio/G8AudioKitWrapper.swift:94-98 | one tick writes the amplitude first. With a callback registered, it delivers the mean of the updated buffer, which is `(old sum - old last + amplitude) / 10`. Without one it delivers nothing. The buffer keeps 10 elements |
| AudioKitWrapper.InitialAverage | GenAudio/G8AudioKitWrapper.swift:26-31 | a freshly created wrapper averages to 0.0 |
| AudioKitWrapper.TenTicksOfOne | GenAudio/G8AudioKitWrapper.swift:94-98 | create, register a callback, start, then ten ticks at amplitude 1.0: the last value delivered is 0.8 |

## Left out

- The AudioKit graph (GenAudio/G8AudioKitWrapper.swift:50-75, :88-89) is
  foreign library code. The model keeps only the four stage settings
  `startAudioAnalysis` chooses, as `SignalChain`, plus three flags: whether
  the engine runs, whether the output is connected, and whether the timer is
  valid.
- `amplitudeTracker.amplitude` is an input parameter of `AudioAnalysis`; what
  the tracker measures is not modelled.
- `onAmplitudeUpdate` is modelled as the flag `observerRegistered`.
  `AudioAnalysis` returns the value it would pass to the callback. What the
  callback does is not modelled.
- `amplitudeTracker` is implicitly unwrapped, so a tick before the first
  start would trap. `AudioAnalysis` therefore requires that the graph has
  been built (`chain.Some?`).
- `AKSettings.bufferLength` and the audio-session category, with its logged
  failure (:40-45), are platform configuration with no effect on the buffer.
- Timer scheduling, the 0.01 s interval and the `RunLoop` registration
  (:76-82) are runtime scheduling, so ticks are explicit calls.
  `TenTicksOfOne` stands in for ten timer firings. The ghost count
  `liveTimers` stands in for timers still scheduled.
- AudioAnalysis: amplitudes are `real`, so double-precision rounding in the
  sum and division is not modelled, nor is the `Float(val)` narrowing before
  the callback (:97).
- GetBufferAverage: the division `avg / amplitudeBuffer.count` (:120) is
  modelled as real division by the count, without the numeric conversion
  Swift would need.
- GenAudio/ViewController.swift is the sample's UI wiring (buttons and a
  logging callback) and is not part of this model.
