# wavetrx-rs in Dafny

This project models the core of wavetrx-rs. wavetrx-rs is an acoustic link that sends bytes as frequency-shift-keyed tones and recovers them from recorded or live audio. Two generations of the code are modelled side by side:

- the old `src/` crate (`transmitter.rs`, `receiver.rs`, `rx/`, `protocol/`);
- the newer `wavetrx/` library (`protocol/tx`, `protocol/rx`, `tx`, `audio`, `utils`).

## Framing

A frame is sent as tones:

- the start tone, then a "next" tone;
- every bit of the payload, most significant bit first, each followed by a next tone;
- the end tone, then a next tone.

The library's file transmitter pads the frame with silence on both sides. `Framing.Symbols` is the one definition of this symbol sequence. Every transmitter's `Create` contract is stated in terms of it:

- `ProtocolTransmitter` (float samples);
- `IntTransmitter` and `TxTransmitter` (integer samples);
- `StreamTransmitter` (chunked);
- `ProtocolFileTransmitter`;
- `LegacyTransmitter` (the old `WaveFile`).

## Receiving

The receivers cut audio into windows of one tone plus one gap. They turn each window's tone magnitudes into a verdict (`Resolver.Window`) and feed the verdicts to a resolver state machine:

- `Resolver` is the compiled `wavetrx` resolver. The old crate's `rx` resolver and `ReceiverStates` in `src/receiver.rs` run the same machine.
- `MarkerResolver` and `UnsetResolver` are the two draft resolvers (`__resolver.rs`, `_resolver.rs`).

`ResolverTrace.Collect` is the functional meaning of running a resolver over a sequence of windows. The receive loops are each proved to compute exactly `Collect` over the windows they visit:

- `ReceiveLoop.ReceiveBits` (file receivers);
- `LegacyReceiver.Receive`;
- `LiveReceiver.AddSamples`.

The headline property is `Link.PayloadRoundTrip`. Windows that each hear the tone sent in their slot are collected to the payload's bits and an end report, and `bits_to_bytes` of those bits is the payload.

## State constructors

The resolvers' `new()` and `reset()` both produce one constant state in each module, `Initial`. The three `profile.rs` files differ only in struct names and are modelled once, in `Profile`. Likewise `get_bit_depth_magnitudes` in `wavetrx/src/utils.rs` is the same function as in `wavetrx/src/audio/utils.rs` and is modelled once, as `AudioUtils.GetBitDepthMagnitudes`.

## Stale buffer offset

The live receiver keeps its stale buffer offset as written: resetting the resolver does not reset the offset. `LiveReceiver.StaleOffsetAfterReset` states the consequence.

## What the code sends and accepts

- One bit per tone: a high frequency for 1 and a low frequency for 0. There are no multi-bit data symbols.
- A tone is accepted when its level in dB lies within a threshold of the expected level. There is no ratio test against the runner-up tone.
- The frame carries no checksum. A corrupted bit is caught only when the resolver's expectations break.

## Inputs the source never finishes on

- The decoding loops advance by `tone + gap` samples, and the start searches advance by a coarse `skip` before a capture.
- When either stride is zero, the source loops forever.
- The model requires `tsz + gsz >= 1` and `skip >= 1` for this reason. The profiles and sample rates the source uses give positive strides.

## Model

| member | source | states |
|---|---|---|
| Bytes.SentBit | wavetrx/src/protocol/tx/transmitter.rs:62-74 | the bit sent at position `i` of a byte is 1 exactly when bit `7 - i` of the byte is set, and 0 otherwise |
| Bytes.ByteBits | wavetrx/src/protocol/tx/transmitter.rs:62-74 | a byte is sent as eight bits, position `i` carrying bit `7 - i` (most significant first) |
| Bytes.ExpandAt | wavetrx/src/protocol/tx/transmitter.rs:26-42 | bit `i` of payload byte `j` is bit `8j + i` of the payload's bit stream |
| Bytes.ExpandAppend | wavetrx/src/protocol/tx/transmitter.rs:26-42 | the bit stream of a concatenation is the concatenation of the bit streams |
| BitPacking.Pack | src/protocol/utils.rs:1-13 | `bits_to_bytes` yields ⌈n/8⌉ bytes |
| BitPacking.PackChunkBits | src/protocol/utils.rs:3-9 | bit `7 - i` of a chunk's byte is set exactly when element `i` of the chunk is 1; any other value counts as 0 and missing elements leave zeros |
| BitPacking.PackBits | src/receiver.rs:408-420 | bit `7 - i` of byte `j` is set exactly when element `8j + i` of the stream is 1 |
| BitPacking.PackExpand | wavetrx/src/utils.rs:68-80 | packing the most-significant-first expansion of any payload gives the payload back |
| BitPacking.PackChunkBytes | wavetrx/src/utils.rs:71-77 | the inner loop sets bit `7 - i` exactly when element `i` of the chunk equals 1 |
| BitPacking.BitsToBytes | wavetrx/src/utils.rs:68-80 | the loop returns ⌈n/8⌉ bytes, bit `7 - i` of byte `j` set exactly when element `8j + i` is 1 |
| BitPacking.BitsToString | wavetrx/src/utils.rs:82-86 | `bits_to_string` succeeds exactly when the packed bytes are well-formed UTF-8, and then its text is those bytes; otherwise it panics |
| BitPacking.AsciiRoundTrip | src/protocol/utils.rs:15-19 | an ASCII payload sent as bits comes back as the same text |
| BitPacking.InvalidTextPanics | src/protocol/utils.rs:15-19 | the bits of the single byte 0xFF make `bits_to_string` panic |
| Utf8.AsciiIsValid | wavetrx/src/utils.rs:84 | every ASCII byte string is accepted by `String::from_utf8` |
| Ints.TruncateToI32 | wavetrx/src/audio/utils.rs:23-25 | `as i32` on a float truncates toward zero: within one of the value when in range, never away from zero |
| AudioUtils.UsizeBitDepth | wavetrx/src/audio/utils.rs:35-39 | `usize as u32` is the identity below 2^32 and otherwise keeps the value modulo 2^32 |
| AudioUtils.BitDepthsAgree | wavetrx/src/audio/utils.rs:41-63 | the `IntoBitDepth` of a WAV header and of the `AudioSpec` converted from it (either way) are the same number |
| AudioUtils.GetBitDepthMagnitudes | wavetrx/src/audio/utils.rs:65-70 | defined exactly for bit depths 1 to 31 (0 underflows `bd - 1`, 32 and up overflow `2i32.pow`); the negative magnitude is −positive − 1 and the range holds 2^bd values |
| AudioUtils.MagnitudesAgree | wavetrx/src/audio/types.rs:142-146 | `get_bit_depth_magnitudes` of an `AudioSpec`, of its WAV header, and the spec's own `get_magnitudes` agree, panics included |
| AudioUtils.F32ToI32 | wavetrx/src/audio/utils.rs:22-29 | `Scalar::to_i32` on a float truncates toward zero |
| AudioUtils.F32ToI32OnIntegers | wavetrx/src/audio/utils.rs:22-29 | a whole number in the `i32` range passes `Scalar::to_i32` unchanged |
| AudioTypes.BitDepthMagnitudes | src/audio/utils.rs:57-62 | (2^(bd−1) − 1, −2^(bd−1)), defined exactly for 1 ≤ bd ≤ 31, both within `i32` |
| AudioTypes.GetMagnitudes | wavetrx/src/audio/types.rs:142-146 | defined exactly for 1 ≤ bps ≤ 31; the negative magnitude is −positive − 1 and the range holds 2^bps values |
| AudioTypes.NormScale | wavetrx/src/audio/types.rs:22-28 | a divisor exists exactly for 16 and 32 bits per sample, and it is positive |
| AudioTypes.Scaled | wavetrx/src/audio/types.rs:22-28 | each normalised sample times the divisor is the original sample, in order |
| AudioTypes.NewNormSamples | wavetrx/src/audio/types.rs:32-35 | a new buffer is empty |
| AudioTypes.Extend | wavetrx/src/audio/types.rs:56-58 | `extend` keeps the existing samples as a prefix and appends the new ones in order |
| AudioTypes.ExtendI32 | wavetrx/src/audio/types.rs:60-65 | `extend_i32` panics exactly when the input is non-empty and the bit depth is neither 16 nor 32; otherwise it keeps the prefix and appends each sample scaled by the divisor |
| AudioTypes.FromI32 | wavetrx/src/audio/types.rs:46-54 | `from_i32` panics under the same condition and otherwise holds one sample per input |
| AudioTypes.ExtendI32Append | wavetrx/src/audio/types.rs:60-65 | extending with `a + b` is extending with `a` and then with `b` |
| SpecConversions.EncodingOf | src/audio/conversions.rs:36-43 | `Float` maps to `F32` and `Int` to `I32` |
| SpecConversions.FormatOf | src/audio/conversions.rs:45-52 | `F32` maps to `Float` and `I32` to `Int` |
| SpecConversions.AudioSpecOf | src/audio/conversions.rs:7-17 | the sample rate, bits per sample and channels are copied and the format converted |
| SpecConversions.WavSpecOf | src/audio/conversions.rs:19-34 | the four fields are copied back |
| SpecConversions.EncodingRoundTrips | src/audio/conversions.rs:36-52 | both encoding round trips are the identity |
| SpecConversions.SpecRoundTrips | src/audio/conversions.rs:7-34 | both header round trips are the identity on all four fields |
| LegacyAudio.GetBitDepthMagnitudes | src/audio/utils.rs:45-62 | for a `SampleSpec`: defined exactly for 1 ≤ bps ≤ 31, negative = −positive − 1, 2^bps values |
| LegacyAudio.EncodingOf | src/impls/protocol_impls/audio.rs:36-43 | `Float` maps to `Float` and `Int` to `Int` |
| LegacyAudio.FormatOf | src/impls/protocol_impls/audio.rs:45-52 | and back |
| LegacyAudio.SampleSpecOf | src/impls/protocol_impls/audio.rs:7-17 | the sample rate, bits per sample and channels are copied and the format converted |
| LegacyAudio.WavSpecOf | src/impls/protocol_impls/audio.rs:19-34 | the four fields are copied back |
| LegacyAudio.EncodingRoundTrips | src/impls/protocol_impls/audio.rs:36-52 | both encoding round trips are the identity |
| LegacyAudio.SpecRoundTrips | src/impls/protocol_impls/audio.rs:7-34 | both header round trips are the identity on all four fields |
| Profile.PulseDuration.AsUnits | wavetrx/src/protocol/profile.rs:52-78 | `as_nanos`/`as_micros`/`as_millis`/`as_secs` succeed exactly when the whole number of units fits the target type, and then return the duration rounded down to whole units; otherwise they panic |
| Profile.PulseDuration.SampleSize | wavetrx/src/protocol/profile.rs:80-92 | `sample_size` is ⌊sr·µs/10⁶⌋, and panics exactly when the microseconds, the factor 10⁶ or the product do not fit the type |
| Profile.FromNanos | wavetrx/src/protocol/profile.rs:24-29 | `from_nanos(n)` reads back `n` nanoseconds and ⌊n/1000⌋ microseconds |
| Profile.FromMicros | wavetrx/src/protocol/profile.rs:31-36 | `from_micros(m)` holds `m` microseconds |
| Profile.FromMillis | wavetrx/src/protocol/profile.rs:38-43 | `from_millis(m)` holds 1000·m microseconds |
| Profile.FromSecs | wavetrx/src/protocol/profile.rs:45-50 | `from_secs(s)` holds 10⁶·s microseconds |
| Profile.MicrosRoundTrip | wavetrx/src/profile.rs:30-63 | `from_micros(m).as_micros()` is `m` in any type that holds `m` |
| Profile.SampleSizeMonotone | src/protocol/profile.rs:77-89 | `sample_size` never decreases when the sample rate or the duration grows |
| Profile.Bits.FromBoolean | wavetrx/src/protocol/profile.rs:130-135 | `from_boolean` picks `high` for true and `low` for false |
| Profile.Pulses.IntoSized | wavetrx/src/protocol/profile.rs:145-174 | `into_sized` holds ⌊sr·tone/10⁶⌋ and ⌊sr·gap/10⁶⌋ samples, computed in `usize`, and panics when either computation does |
| Profile.DefaultSizesAt48k | wavetrx/src/consts.rs:7-18 | the default 1 ms tone and 2 ms gap are 48 and 96 samples at 48 kHz |
| Resolver.ProminentBit | wavetrx/src/protocol/rx/resolver.rs:50-55 | the prominent bit is 1 exactly when high > low, so a tie gives 0; the draft resolvers' `get_prominent_bit` (`__resolver.rs`, `_resolver.rs`) is the same function and uses this one |
| Resolver.RxMagnitudes.Verdict | wavetrx/src/protocol/rx/resolver.rs:37-55 | a window is acceptable as a marker exactly when `state_within_threshold` holds, i.e. the tone is within [−T, T] (a tone louder than +T is rejected like a missing one), and for a bit either bit tone is; the bit value is 1 exactly when high > low |
| Resolver.SetExpectation | wavetrx/src/protocol/rx/resolver.rs:116-127 | an accepted start or bit becomes the selection and a next marker is expected; a next marker after a start or a bit leads to expecting a bit; the end fields are untouched |
| Resolver.Resolve | wavetrx/src/protocol/rx/resolver.rs:80-162 | from a reachable state it reaches only (None,Start), (Start,Next), (Start,Bit), (Bit,Next), (Bit,Bit), with a pending end only after a bit; a rejected window never moves the position; a bit is emitted exactly when a bit was expected and is heard, carrying the window's bit and moving to (Bit,Next); the end exactly when an end is pending, the next tone is heard, the expected tone is not and no end marker is captured now; an error exactly when the expected tone is rejected, no end marker is captured now and no pending end fires |
| Resolver.ResolveMagnitudes | wavetrx/src/protocol/rx/resolver.rs:80-105 | the same bit and error conditions in terms of the magnitudes and the threshold |
| ResolverTrace.After | wavetrx/src/protocol/rx/resolver.rs:116-127 | every state reached from a reachable state by a run of windows is reachable |
| ResolverTrace.SelectingBitEmitsIt | wavetrx/src/protocol/rx/resolver.rs:90-99 | a resolver only comes to select a bit on a window that emits one |
| ResolverTrace.PendingEndWasCaptured | wavetrx/src/protocol/rx/resolver.rs:129-162 | an end marker is pending after a window that did not report the end only if that window captured it in state (Bit,Bit) |
| ResolverTrace.SelectionMeansBitEmitted | wavetrx/src/protocol/rx/resolver.rs:90-99 | a resolver started at `new` that has selected a bit emitted a bit on some earlier window |
| ResolverTrace.EndNeedsBit | wavetrx/src/protocol/rx/resolver.rs:129-162 | the end is never reported before the first bit since `new` |
| ResolverTrace.FirstEndFollowsCapture | wavetrx/src/protocol/rx/resolver.rs:129-162 | the first end is reported on the window right after an end-marker window heard in state (Bit,Bit) |
| ResolverTrace.Collect | wavetrx/src/protocol/rx/receiver.rs:186-207 | the receive loop collects at most one bit per window |
| ResolverTrace.EndedRunHasBits | wavetrx/src/protocol/rx/receiver.rs:186-207 | a run from `new` that ends cleanly collected at least one bit |
| ResolverTrace.CollectIgnoresTail | wavetrx/src/protocol/rx/receiver.rs:199-205 | windows after the end or an error are never looked at |
| MarkerResolver.StatePredicates | wavetrx/src/protocol/rx/__resolver.rs:10-40 | `is_start_or_bit` holds exactly for Start and Bit, `is_next` exactly for Next, and never both |
| MarkerResolver.RxMagnitudes.ProminentBitMagnitude | wavetrx/src/protocol/rx/__resolver.rs:75-81 | the magnitude of the louder bit tone |
| MarkerResolver.RxMagnitudes.Verdict | wavetrx/src/protocol/rx/__resolver.rs:83-95 | a window is acceptable as a marker exactly when `within_threshold_from_state` holds, which for a bit tests the louder bit tone only |
| MarkerResolver.ProminentRuleIsStricter | wavetrx/src/protocol/rx/__resolver.rs:87-95 | a bit window this draft accepts is accepted by the compiled resolver too |
| MarkerResolver.ProminentRuleRejectsQuieterTone | wavetrx/src/protocol/rx/__resolver.rs:75-95 | a window whose louder bit tone is out of range but whose quieter one is in range is rejected here and accepted by the compiled resolver |
| MarkerResolver.SetExpectation | wavetrx/src/protocol/rx/__resolver.rs:226-239 | accepting Start or Bit selects it and expects Next; Next after Start or Bit expects Bit; anything else leaves the marker alone |
| MarkerResolver.Resolve | wavetrx/src/protocol/rx/__resolver.rs:193-275 | the draft is, window for window, the compiled machine run on its own verdicts: same next position, same pending end, same output |
| MarkerResolver.ResolveKeepsGuarantees | wavetrx/src/protocol/rx/__resolver.rs:193-275 | reachable positions are kept; a bit is returned exactly for an accepted bit window; an error exactly when the expected tone is rejected, no end marker is captured now and no pending end fires; the end only after a capture in state (Bit,Bit), with an in-range next tone while the expected tone is rejected |
| UnsetResolver.RxMagnitudes.WithinThresholdFromState | wavetrx/src/protocol/rx/_resolver.rs:54-63 | the `Unset` state is never within the threshold |
| UnsetResolver.SetExpectation | wavetrx/src/protocol/rx/_resolver.rs:167-181 | Start or Bit is selected and Next expected; Next after Start or Bit leads to expecting Bit |
| UnsetResolver.Resolve | wavetrx/src/protocol/rx/_resolver.rs:134-215 | reachable positions are kept; `resolve` always answers; Bit exactly for an accepted bit window, carrying the prominent bit and moving to (Bit,Next); End exactly when no end marker is captured now, an end marker is pending, the next tone is in range and the expected one is not; accepted Start and Next windows still answer Error; a window that neither captures nor reports the end clears the end marker to (Unset,Unset); an end marker is captured only in state (Bit,Bit) with the end tone in range |
| UnsetResolver.CaptureWindowReportsError | wavetrx/src/protocol/rx/_resolver.rs:134-155 | the window that captures the end marker, with no bit tone in range, is answered with Error |
| LegacyResolver.RxMagnitudes.Verdict | src/rx/states.rs:37-55 | the older `evaluate` (within ±`DB_THRESHOLD` = 8) and `get_bit` give exactly the verdicts of the newer magnitudes with an 8 dB threshold |
| LegacyResolver.Resolve | src/rx/resolver.rs:25-107 | reachable positions are kept; a bit exactly when a bit is expected and a bit tone is in range, 1 exactly when high > low; the end exactly when an end marker is pending, the next tone is in range, the expected tone is not and no end marker is captured now; an error exactly when the expected tone is rejected, nothing is captured and no pending end fires |
| LegacyReceiver.ReceiverMagnitudes.Verdict | src/receiver.rs:132-146 | a state is accepted exactly when `evaluate` holds (its tone, or either bit tone, reaches `MAGNITUDE_THRESHOLD`); the bit is 1 exactly when on > off |
| LegacyReceiver.HandleMagnitudes | src/receiver.rs:171-244 | reachable positions are kept; a bit exactly when a bit is expected and a bit tone reaches the threshold, 1 exactly when on > off; an error exactly when the expected tone is below the threshold, no end marker is captured and no pending end's next tone reaches it |
| LegacyReceiver.FirstAbove | src/receiver.rs:314-318 | the first window from `i` whose start magnitude reaches the threshold, every earlier one below it, or none at all |
| LegacyReceiver.GetStartingIndex | src/receiver.rs:293-322 | panics exactly when the samples are shorter than one window (the `len - size` underflow); otherwise returns the search function `StartingIndex`: nothing exactly when no window reaches the threshold, and what is found reaches it, is the loudest window since the first that did, and is louder than each of the next 51 windows |
| LegacyReceiver.Receive | src/receiver.rs:324-406 | panics exactly when the samples are shorter than one tone; otherwise bits are returned exactly when `get_starting_index` finds a start and decoding from that start stops at the end marker, and they are the bits that decoding collects; they are never empty; without a window reaching the threshold nothing is returned |
| FileReceiver.FromFile | wavetrx/src/protocol/rx/receiver.rs:35-65 | panics exactly when the samples are shorter than one tone window (the start search's `len - tsz` underflow); otherwise bits are returned exactly when the start search finds a start and the decoding loop from it stops at the end marker; they are the bits that loop collects, never empty, and only returned when the coarse grid has a capture |
| LegacyRxReceiver.SampleSize | src/rx/receiver.rs:189-199 | the whole number of samples in `micros` microseconds at the sample rate, rounded down |
| LegacyRxReceiver.FromFile | src/rx/receiver.rs:25-53 | as `FileReceiver.FromFile` (a panic exactly on fewer samples than one tone, otherwise bits exactly when the search finds a start and decoding ends at the end marker), with up to ten failures in a row after the capture and the fixed 8 dB resolver |
| StartSearch.UpdateSearch | wavetrx/src/protocol/rx/receiver.rs:120-150 | the search gives up exactly when a captured search meets a non-improving window after `maxFails` failures; the best magnitude never drops and stays within the threshold; only the current window can become the best |
| StartSearch.FirstCapture | wavetrx/src/protocol/rx/receiver.rs:142-147 | the first window on the coarse grid whose start magnitude is within ±threshold |
| StartSearch.SearchFromSpec | wavetrx/src/protocol/rx/receiver.rs:85-166 | the search finds nothing exactly when the coarse grid has no capture; otherwise its window is within the threshold, at or after the capture, the loudest in-range window since it, and not replaced by any of the `maxFails + 1` windows after it |
| StartSearch.FindStartingIndex | wavetrx/src/protocol/rx/receiver.rs:85-118 | panics exactly when the samples are shorter than one window; otherwise the loop computes the search function, so the start it returns has every property `SearchFromSpec` states |
| ReceiveLoop.WindowsFrom | wavetrx/src/protocol/rx/receiver.rs:190-197 | the loop visits a window exactly while `idx + tsz` fits in the samples, the first at `idx` |
| ReceiveLoop.Emitted | wavetrx/src/protocol/rx/receiver.rs:199-205 | a bit output adds its one bit, any other output adds nothing |
| ReceiveLoop.RunIsCollect | wavetrx/src/protocol/rx/receiver.rs:178-208 | the loop read off the sample positions is the resolver trace over the windows it visits, after the bits already collected |
| ReceiveLoop.ReceiveBits | wavetrx/src/protocol/rx/receiver.rs:178-208 | the bits and last output are the resolver trace of the windows `tsz + gsz` apart from the start; an end output comes with at least one bit |
| ReceiveLoop.ClampEndingIndex | wavetrx/src/protocol/rx/receiver.rs:304-309 | the index cut to the length: at most both, and equal to one of them |
| ReceiveLoop.MuteSamplesGap | wavetrx/src/protocol/rx/receiver.rs:295-302 | the gap after the window is zeroed up to the end of the samples; every other sample is unchanged |
| LiveReceiver.New | wavetrx/src/protocol/rx/live_receiver.rs:33-53 | empty buffer, no bits, the initial resolver, no offset, no start signal |
| LiveReceiver.NewConfig | wavetrx/src/protocol/rx/live_receiver.rs:239-245 | the resolver reads each chunk through its tone magnitudes and the 8 dB threshold |
| LiveReceiver.Chunk | wavetrx/src/protocol/rx/live_receiver.rs:319-337 | at most `size` samples, exactly the window when it fits in the buffer |
| LiveReceiver.FindStartingIndex | wavetrx/src/protocol/rx/live_receiver.rs:157-237 | nothing is found exactly when the coarse grid has no capture; what is found leaves a full window in the buffer, is within the threshold, is the loudest window within the threshold since the capture, and is not replaced by the next six windows |
| LiveReceiver.DrainBufferToStartingIndex | wavetrx/src/protocol/rx/live_receiver.rs:118-124 | the buffer loses its first `idx` samples, or all of them, and keeps its tail |
| LiveReceiver.RefreshBuffer | wavetrx/src/protocol/rx/live_receiver.rs:109-116 | with an offset the buffer is drained to it; without one the last eight windows' worth of samples are kept; what remains is a tail of the buffer |
| LiveReceiver.RefreshAllStates | wavetrx/src/protocol/rx/live_receiver.rs:101-107 | the receiver is idle again and keeps a tail of its buffer, at most eight windows long when it had no offset |
| LiveReceiver.HandleRxOutput | wavetrx/src/protocol/rx/live_receiver.rs:140-155 | a bit is appended; the end prints the bits as text, failing exactly when they do not pack into UTF-8, and resets; an error resets |
| LiveReceiver.LockedStep | wavetrx/src/protocol/rx/live_receiver.rs:68-75 | one round moves the offset one stride on and never grows the buffer |
| LiveReceiver.Handled | wavetrx/src/protocol/rx/live_receiver.rs:69-74 | no output or a bit keeps the buffer and lock and collects the bit; an end or an error clears the start signal |
| LiveReceiver.LockedLoop | wavetrx/src/protocol/rx/live_receiver.rs:65-76 | the loop stops with its offset past the last full window; the offset only grows, the buffer never grows, and a start signal is never set by it |
| LiveReceiver.AddSamples | wavetrx/src/protocol/rx/live_receiver.rs:55-89 | unlocked, the search runs only once eight windows' worth of samples are buffered and locks exactly when the coarse grid has a capture, otherwise it resets; locked, windows are read only while one fits strictly inside the buffer; the buffer grows at most by the chunk |
| LiveReceiver.LockedLoopCollects | wavetrx/src/protocol/rx/live_receiver.rs:65-76 | the decoding loop collects exactly the resolver trace over the windows that fit strictly inside the buffer, keeping buffer and lock until an end or an error, which clears the lock |
| LiveReceiver.StaleOffsetAfterReset | wavetrx/src/protocol/rx/live_receiver.rs:68-75 | after a reset inside the loop the loop goes on with the old offset and leaves it set past the end of the drained buffer while the start signal is cleared |
| Framing.ByteSymbolsDownIsByteSymbols | wavetrx/src/protocol/tx/transmitter.rs:62-74 | the loop over bits 7 down to 0, each followed by a next marker, sends the byte most significant bit first |
| Framing.ByteSymbolsDownAt | wavetrx/src/protocol/tx/transmitter.rs:68-72 | step `j` of the loop sends bit `k - 1 - j` (`byte & (1 << i) != 0`) then a next marker |
| Framing.DataSymbolsAt | wavetrx/src/protocol/tx/transmitter.rs:34-36 | bit `i` of byte `j` is symbol `16j + 2i`, followed by a next marker |
| Framing.Symbols | wavetrx/src/protocol/tx/transmitter.rs:26-42 | a frame is start and next, the data symbols, then end and next: `4 + 16n` symbols |
| Framing.SymbolsAt | wavetrx/src/protocol/tx/transmitter.rs:26-42 | bit `i` of byte `j` is frame symbol `2 + 16j + 2i`, followed by a next marker |
| Framing.PulseTrainAt | wavetrx/src/protocol/tx/transmitter.rs:76-138 | symbol `k` becomes its tone, then a 0 Hz gap |
| Framing.PulseTrainAppend | wavetrx/src/protocol/tx/transmitter.rs:26-42 | sending two runs of symbols in turn is sending their concatenation |
| Framing.PulseTrainTotal | wavetrx/src/protocol/tx/transmitter.rs:76-138 | every symbol takes `⌊sr·t/10⁶⌋ + ⌊sr·g/10⁶⌋` samples whatever its frequency |
| Framing.PaddedFrameTotal | wavetrx/src/protocol/tx/transmitter.rs:26-42 | the padded frame takes `2·⌊sr·4g/10⁶⌋ + (4 + 16n)·(⌊sr·t/10⁶⌋ + ⌊sr·g/10⁶⌋)` samples |
| Tone.SampleCount | wavetrx/src/protocol/tx/tone.rs:36 | the whole number of samples in the duration, rounded down |
| Tone.FadeSize | wavetrx/src/protocol/tx/tone.rs:56 | a fade ratio in [0, 1] gives at most the tone's samples, a non-positive one none |
| Tone.SineNorm | wavetrx/src/protocol/tx/tone.rs:89-91 | within [-1, 1], and 0 for a 0 Hz tone |
| Tone.LinearFadeCoeff | wavetrx/src/protocol/tx/tone.rs:105-114 | within [0, 1]; 1 in the middle; `idx / fade` on the way up and `(size - idx) / fade` on the way down |
| Tone.LinearFadeSymmetric | wavetrx/src/protocol/tx/tone.rs:105-114 | the linear ramp is symmetric: sample `idx` and sample `size - idx` get the same coefficient |
| Tone.SineFadeCoeff | wavetrx/src/protocol/tx/tone.rs:93-103 | within [0, 1]; 1 in the middle; 0 at the first sample of a fade |
| Tone.ToneSample | wavetrx/src/protocol/tx/tone.rs:58-62 | a faded sample stays within [-1, 1] and is 0 for a 0 Hz tone |
| Tone.ToneSamples | wavetrx/src/protocol/tx/tone.rs:29-85 | one append yields `⌊sr·d/10⁶⌋` samples, all within [-1, 1], all 0 for a 0 Hz tone |
| Tone.Append | wavetrx/src/protocol/tx/tone.rs:29-85 | the tone's samples go after the existing ones, which are kept; a 0 Hz tone appends silence |
| Tone.TakeSamples | wavetrx/src/protocol/tx/tone.rs:23-27 | everything accumulated is handed back and the generator is left empty at the same rate |
| Tone.TakeLosesNothing | wavetrx/src/protocol/tx/tone.rs:19-27 | what was taken followed by a later append is what the generator would have held without the take |
| ToneI32.New | wavetrx/src/tx/tone.rs:16-26 | a generator exists exactly for bit depths 1 to 31, with the range `[-2^(b-1), 2^(b-1) - 1]` |
| ToneI32.SineMagnitude | wavetrx/src/tx/tone.rs:94-100 | the scaled sine lies in the bit depth's range |
| ToneI32.ToneSample | wavetrx/src/tx/tone.rs:61-65 | the sample cast with `as i32` lies in the bit depth's range |
| ToneI32.Append | wavetrx/src/tx/tone.rs:32-90 | the tone's `⌊sr·d/10⁶⌋` samples go after the existing ones, which are kept, and every sample stays in range |
| ToneI32.SilenceIsZero | wavetrx/src/tx/tone.rs:32-48 | a 0 Hz tone writes zeros |
| ToneI32.ToneSamplesScaleFloat | wavetrx/src/tx/tone.rs:32-124 | each integer sample is the floating-point generator's sample, scaled by the positive or negative magnitude and truncated |
| ProtocolTransmitter.RenderedAppend | wavetrx/src/protocol/tx/tone.rs:29-85 | rendering two runs of tone calls in turn is rendering their concatenation |
| ProtocolTransmitter.AppendByte | wavetrx/src/protocol/tx/transmitter.rs:62-74 | appends exactly the pulses of the byte's sixteen symbols |
| ProtocolTransmitter.AppendBytes | wavetrx/src/protocol/tx/transmitter.rs:34-36 | appends exactly the pulses of the payload's data symbols |
| ProtocolTransmitter.AppendSilence | wavetrx/src/protocol/tx/transmitter.rs:118-123 | appends four gaps of 0 Hz |
| ProtocolTransmitter.Create | wavetrx/src/protocol/tx/transmitter.rs:26-42 | the samples are the rendered padded frame of the payload, every tone raised-cosine faded at 0.1 |
| ProtocolTransmitter.CreateLength | wavetrx/src/protocol/tx/transmitter.rs:26-42 | the output has `2·⌊sr·4g/10⁶⌋ + (4 + 16n)·(⌊sr·t/10⁶⌋ + ⌊sr·g/10⁶⌋)` samples |
| IntTransmitter.RenderedInRange | wavetrx/src/tx/tone.rs:32-90 | every rendered integer sample lies in the bit depth's range |
| IntTransmitter.RenderedScalesFloat | wavetrx/src/tx/tone.rs:94-100 | the integer rendering of any tone calls is the floating-point rendering, scaled and truncated sample by sample |
| IntTransmitter.AppendByte | wavetrx/src/tx/transmitter.rs:60-72 | appends exactly the pulses of the byte's sixteen symbols |
| IntTransmitter.AppendFrame | src/protocol/tx/transmitter.rs:136-151 | appends exactly the pulses of the frame's symbols |
| TxTransmitter.Create | wavetrx/src/tx/transmitter.rs:23-40 | fails exactly when the spec's bit depth is outside 1 to 31; otherwise the samples are the padded frame rendered by the integer generator |
| TxTransmitter.CreateLength | wavetrx/src/tx/transmitter.rs:23-40 | the same sample count as the floating-point transmitter |
| TxTransmitter.CreateInRange | wavetrx/src/tx/transmitter.rs:23-40 | every sample lies in `[-2^(b-1), 2^(b-1) - 1]` |
| TxTransmitter.CreateOpensWithSilence | wavetrx/src/tx/transmitter.rs:28 | the first four gaps' worth of samples are zero |
| TxTransmitter.CreateScalesFloat | wavetrx/src/tx/transmitter.rs:23-40 | the integer output is the floating-point transmitter's output, scaled and truncated sample by sample |
| StreamTransmitter.NewStream | wavetrx/src/protocol/tx/transmitter.rs:157-173 | a new stream holds nothing, starts at the start stage with fade 0 and is open |
| StreamTransmitter.Step | wavetrx/src/protocol/tx/transmitter.rs:188-212 | one stage keeps transmitter, fade and rate; it closes the stream exactly at the end stage |
| StreamTransmitter.StepMatchesGenerator | wavetrx/src/protocol/tx/transmitter.rs:188-212 | each stage holds exactly what the generator calls of that stage append: silence, start and next; a byte; end, next and silence |
| StreamTransmitter.Next | wavetrx/src/protocol/tx/transmitter.rs:183-216 | a closed stream answers nothing; an open one answers the rendering of up to `N` stages and is left holding nothing |
| StreamTransmitter.FillProgress | wavetrx/src/protocol/tx/transmitter.rs:188-212 | a call with `N` ≥ 1 on an open stream always advances it |
| StreamTransmitter.FillEmits | wavetrx/src/protocol/tx/transmitter.rs:188-212 | what was handed out plus what remains is the same before and after any number of stages |
| StreamTransmitter.DrainEmits | wavetrx/src/protocol/tx/transmitter.rs:183-216 | the chunks, concatenated until the stream closes, are the rendering of everything the stream had left to send |
| StreamTransmitter.StreamRendersFrame | wavetrx/src/protocol/tx/transmitter.rs:157-216 | the chunks of a new stream, concatenated, are the padded frame at the stream's fade, for every `N` ≥ 1 |
| StreamTransmitter.StreamIsCreate | wavetrx/src/protocol/tx/transmitter.rs:26-42 | at fade 0.1 the stream's chunks, concatenated, are exactly `create`'s output |
| StreamTransmitter.ZeroChunksNeverClose | wavetrx/src/protocol/tx/transmitter.rs:183-216 | with `N` = 0 an open stream answers an empty chunk and never advances |
| StreamTransmitter.ClosedStaysClosed | wavetrx/src/protocol/tx/transmitter.rs:184-186 | once closed, every call answers nothing |
| ProtocolFileTransmitter.GetWaveSpec | src/protocol/tx/transmitter.rs:155-163 | mono integer samples, with the sample rate cut to 32 bits and the bit depth cut to 16 bits |
| ProtocolFileTransmitter.WaveSpecKeepsFittingValues | src/protocol/tx/transmitter.rs:155-163 | a rate and a depth that fit are kept as they are |
| ProtocolFileTransmitter.WaveSpecTruncatesBitDepth | src/protocol/tx/transmitter.rs:159 | a bit depth of 65552 is written as 16 |
| ProtocolFileTransmitter.GetFrequencyBit | src/protocol/tx/transmitter.rs:224-229 | a 1 bit is sent on the high tone and a 0 bit on the low tone |
| ProtocolFileTransmitter.CreateFile | src/protocol/tx/transmitter.rs:136-151 | fails exactly when the truncated bit depth is outside 1 to 31; otherwise the file holds the unpadded pulse train of the frame |
| ProtocolFileTransmitter.CreateFileLength | src/protocol/tx/transmitter.rs:136-151 | the file holds `(4 + 16n)·(⌊sr·t/10⁶⌋ + ⌊sr·g/10⁶⌋)` samples |
| ProtocolFileTransmitter.CreateFileInRange | src/protocol/tx/transmitter.rs:136-151 | every written sample lies in the bit depth's range |
| ProtocolFileTransmitter.LibraryPadsTheFileFrame | wavetrx/src/tx/transmitter.rs:23-40 | the library's `create`, with the same keying and header, is the older file's samples between two silences of four gaps |
| LegacyTransmitter.SamplingMagnitudeOfDepth | src/transmitter.rs:37 | 32767 is the largest 16-bit sample |
| LegacyTransmitter.Sample | src/transmitter.rs:36-37 | each sample lies within ±32767 |
| LegacyTransmitter.SampleIsPlainTone | src/transmitter.rs:31-42 | a sample is the integer generator's unfaded sample at 48 kHz and ±32767 |
| LegacyTransmitter.AddTone | src/transmitter.rs:31-42 | `add_tone` appends the integer generator's unfaded tone |
| LegacyTransmitter.TransmitByte | src/transmitter.rs:45-60 | `transmit_byte` writes the pulses of the byte's sixteen symbols |
| LegacyTransmitter.TransmitBytesTrain | src/transmitter.rs:70-75 | the byte loop writes the pulses of the payload's data symbols |
| LegacyTransmitter.GenerateAudioData | src/transmitter.rs:62-81 | the file holds the pulses of the frame's symbols, without padding |
| LegacyTransmitter.GenerateLength | src/transmitter.rs:62-81 | `960·(4 + 16n)` samples: 480 for each tone and 480 for each gap |
| LegacyTransmitter.GenerateInRange | src/transmitter.rs:62-81 | every sample lies within ±32767 |
| Link.ClearMagnitudesAreHeard | wavetrx/src/protocol/rx/resolver.rs:80-105 | magnitudes with exactly the symbol's tone in range, and the sent bit tone the louder, give a window that hears the symbol |
| Link.HeardBits | wavetrx/src/protocol/rx/resolver.rs:129-162 | a heard run of bit and next markers emits its bits in order, whatever follows |
| Link.HeardEnd | wavetrx/src/protocol/rx/resolver.rs:129-162 | an end marker then a next marker between bits report the end |
| Link.DataPairs | wavetrx/src/protocol/tx/transmitter.rs:62-74 | the data symbols alternate bits and next markers and carry the payload's bits, most significant first |
| Link.FrameIsReceived | wavetrx/src/protocol/rx/receiver.rs:178-208 | windows that hear a frame of a non-empty payload, whatever follows, are collected into the payload's bits and the end |
| Link.PayloadRoundTrip | wavetrx/src/utils.rs:68-80 | `bits_to_bytes` of what the receiver collects from a heard frame is the payload sent |
| Link.EmptyFrameIsError | wavetrx/src/protocol/rx/resolver.rs:129-162 | a frame without payload is answered with an error: the end marker arrives while the first bit is expected |

## Left out

- FFT and magnitude computation (`audio/fft`, `get_magnitudes`, normalisers, filters): a window's tone magnitudes are an oracle argument (`nat -> ToneMagnitudes`), so receivers are proved correct relative to whatever magnitudes the analysis yields.
- Sine and cosine: `Tone.Trig` is an oracle bounded by 1; sample counts, fades, silence and ranges are exact, waveform values are not.
- Floating-point rounding: `f32` values are modelled as reals, including the `(2^(bd-1) - 1) as f32` scale of the integer generators.
- `usize` arithmetic in the transmitters is not modelled. This covers three things:
  - the overflow of `sample_rate * duration_us` in the tone generators;
  - the `as_micros::<usize>()` conversion, which panics when a duration's microseconds exceed `usize` (wavetrx/src/protocol/tx/transmitter.rs:81-82, 95-96, 109-110, 119, 132-133, and the same calls in wavetrx/src/tx/transmitter.rs);
  - the `gap_duration * 4` overflow of `append_silence` (wavetrx/src/protocol/tx/transmitter.rs:120).

  `ProtocolTransmitter.ToneMicros`, `GapMicros` and the integer transmitters use the exact microsecond count. Each of these failures needs a pulse of more than 2^64 microseconds.
- File, device and thread I/O (`hound` readers and writers, `cpal` streams, channels, `save`, `println!`/logging, timestamps): audio comes in and goes out as sequences.
- `generate_audio_data` in `src/transmitter.rs` prints and swallows per-byte write errors; writes cannot fail in the model, so that path does not exist here.
- `src/transmitter.rs` mixes integer and float types in ways that do not compile as written; the evidently intended arithmetic is modelled.
- `MAGNITUDE_THRESHOLD` used by `src/receiver.rs` is not defined in `src/consts.rs` and is a parameter of the model.
- `Scalar::to_f32` / `to_i32` and `NormSamples::from_slice` / `from_vec` are identities on the modelled values and have no member of their own.
- Constructors and getters of `Profile`, `Markers`, `Bits`, `AudioSpec`, `SampleSpec` and `ProtocolProfile` are datatype constructors and fields.
- `min_frequency_separation` and the difference between `ProtocolProfile` and `Profile` fields not used by the link.
- The re-normalisation of each chunk in `get_samples_chunk` and the live receiver's normaliser are left out with the FFT.
- `get_minimum_chunk_size` is the `skip` parameter of the start search rather than a member.
- The live receiver's `Config.windows` is tied to the magnitudes oracle by `LiveReceiver.NewConfig` rather than computed from samples.
- The stream transmitter's generator is modelled by whole segments (one tone or silence at a time) rather than sample by sample inside a segment.
- AudioUtils.GetBitDepthMagnitudes, AudioTypes.BitDepthMagnitudes, LegacyAudio.GetBitDepthMagnitudes, ToneI32.New, TxTransmitter.Create, ProtocolFileTransmitter.CreateFile: integer overflow is modelled as the debug-build panic. For bit depth 32, `2i32.pow(31)` therefore gives `None`, while a release build wraps twice to about the full `i32` range.
