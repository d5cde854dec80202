# MuTate core, modelled in Dafny

MuTate is an audio visualiser. An audio-server callback writes captured stereo samples into a
byte ring. A raw-audio node reads frames out of the ring and paces itself against how full the
ring is. Graph buffers carry the samples to the analysis nodes: RMS, K-weighting, a constant-Q
bank and a colour node. A Vulkan front end draws the results and presents them through a
swapchain. The library half (`mutate-lib`) holds the DSP building blocks that the workbench
binary measures: IIR cascades, a sliding DFT with window functions, a log-spaced filter bank,
the ISO 226 equal-loudness table and sine generators.

This project models the sequential rules threaded through that code:

- The streaming buffers and the pacing of the raw node.
- The ring and decimation bookkeeping of the analysis nodes.
- The selection and lookup rules around Vulkan: queue families, memory types, layout
  transitions, the presentation frame ring and present ids, composite alpha, dispatch sizing.
- The workbench's filter selection.

Floating-point values are `real`. Transcendental functions (sin, cos, tan, exp2, log2, log10,
sqrt, powf), division and the `f64 -> f32` cast are fields of one `Float.Math` record that every
operation receives. They are uninterpreted. Where a property needs a fact about one of them, the
lemma requires a named predicate stating it, for example `Exp2Increasing` or `Division`.
Handles into the windowing system and the GPU are opaque numbers. Anything the driver or the
audio server returns is passed in as a parameter.

One module per source file:

| Module | Source file |
|---|---|
| `Graph` | `graph/mod.rs` |
| `RawAudio` | `audio/raw.rs` |
| `ConstantQ` | `audio/cqt.rs` |
| `RmsNode` | `audio/rms.rs` |
| `KWeight` | `node/audio/kweight.rs` |
| `Colors` | `node/audio/colors.rs` |
| `Iso226` | `audio/iso226.rs` |
| `Bank` | `dsp/bank.rs` |
| `Dft` | the DFT filter of `dsp/dft.rs` |
| `Windows` | the window functions of `dsp/dft.rs` |
| `Iir` | `dsp/iir.rs` |
| `Dsp` | `dsp/mod.rs` |
| `AudioContext` | `lib.rs` |
| `Queue` | `queue.rs` |
| `Memory` | `util.rs` |
| `Image` | `image.rs` |
| `Present` | `present.rs` |
| `Swapchain` | `swapchain.rs` |
| `Spectrum` | `video/spectrum.rs` |
| `Workbench` | `bin/workbench.rs` |

`Common` and `Float` hold shared helpers and the floating-point record.

The model's form follows the source:

- Structs whose methods update fields become classes with `modifies` clauses.
- Examples are `GraphBuffer`, `RawAudioNode`, `CqtBin`, `RmsNode`, `KWeightsNode`,
  `AudioColorsNode`, `Dft`, `Sos`, `Cascade`, `SineSweeper`, `AudioConnection`,
  `WindowPresent` and `SwapChain`.
- Each loop of the source becomes a method with invariants. Every such method is proved equal
  to a specification function: `Shifted`, `NextState`, `Channel`, `Run`, `WindowedSum`,
  `Normalized`, `Symmetrized`, `Payload`, `FindInterval` and others. Functions that need a loop's
  result, such as `Iso226.Lookup`, use its specification function, since a function cannot call
  a method.
- Pure code becomes functions and lemmas.

## Model

| member | source | states |
|---|---|---|
| `Graph.GraphBuffer.constructor` | mutate-visualizer/src/graph/mod.rs:114-119 | `size` default elements and offset 0 |
| `Graph.GraphBuffer.Fresh` | mutate-visualizer/src/graph/mod.rs:122-124 | the fresh slice is the tail from `offset`, of length `len - offset` |
| `Graph.GraphBuffer.Recycled` | mutate-visualizer/src/graph/mod.rs:127-129 | the recycled slice has length `offset`, and recycled ++ fresh is the whole buffer |
| `Graph.Shifted` | mutate-visualizer/src/graph/mod.rs:133-141 | the shift-and-append of `write` keeps the buffer length |
| `Graph.GraphBuffer.Write` | mutate-visualizer/src/graph/mod.rs:133-141 | the length is unchanged and the data becomes `Shifted(old, incoming)`; `fresh()` is the first min(length of incoming, len) incoming elements, so oversized input is cut at its end; `recycled()` is the old data without its first min(length of incoming, len) elements; an empty write leaves the data alone and `fresh()` empty |
| `Graph.GraphBuffer.ShiftDown` | mutate-visualizer/src/graph/mod.rs:137 | `copy_within(n.., 0)`: every element moves `n` places to the head, and the last `n` keep their old values |
| `Graph.GraphBuffer.FillTail` | mutate-visualizer/src/graph/mod.rs:138 | `copy_from_slice` on the tail: the head is kept and the tail becomes the values |
| `Graph.ShiftedForSlice` | mutate-visualizer/src/graph/mod.rs:146-151 | the shift of `writeable_slice` keeps the buffer length |
| `Graph.GraphBuffer.WriteableSlice` | mutate-visualizer/src/graph/mod.rs:146-154 | as written: the same shift as `write` and a returned tail of `min(size, len)`, but offset set to `min(size, len)` |
| `Graph.SliceOffsetAgreesOnlyAtHalf` | mutate-visualizer/src/graph/mod.rs:147-152 | the offset as written equals the intended `len - min(size, len)` exactly when `2·min(size, len) == len` |
| `Graph.SliceOffsetCounterexample` | mutate-visualizer/src/graph/mod.rs:152 | for `len = 800` and `size = 100`, the written offset exposes 700 fresh elements instead of 100 |
| `Graph.GraphBuffer.WriteableSliceCorrected` | mutate-visualizer/src/graph/mod.rs:146-154 | with the offset at the returned tail's start: fresh() has `min(size, len)` elements and recycled() is the shifted old data |
| `RawAudio.Add` | mutate-visualizer/src/audio/raw.rs:55-64 | channel-wise sum of two samples |
| `RawAudio.RawAudioNode.constructor` | mutate-visualizer/src/audio/raw.rs:91-107 | an 800-sample buffer, state OnTime, bottom 0, min 51200, allowance 9600, no bytes read, zero frames |
| `RawAudio.RawAudioNode.Consume` | mutate-visualizer/src/audio/raw.rs:113-139 | returns exactly the state it stores; `upstream_min` becomes the fill level in both branches; falling branch: the bottom is untouched and the state is OnTime iff `avail > 6400`, else OverProduced; rising branch: `bottom = max(old min - 6400, 0)` and the state is UnderProduced iff `bottom > allowance`; `Valid` carries UnderProduced only with `bottom > allowance`, so the assert of `produce` holds |
| `RawAudio.SeekBytes` | mutate-visualizer/src/audio/raw.rs:170-175 | the catch-up read is a multiple of 8 in [0, 6400], the clamped error rounded down to whole samples |
| `RawAudio.ReadRequest` | mutate-visualizer/src/audio/raw.rs:143-199 | bytes requested per state: `min(occupied, 6400)` when over-produced, `SeekBytes` when under-produced, 6400 on time |
| `RawAudio.Intent` | mutate-visualizer/src/audio/raw.rs:158-212 | the intent map OverProduced→Partial, UnderProduced→Seek, OnTime→Full, in both directions |
| `RawAudio.RawAudioNode.Produce` | mutate-visualizer/src/audio/raw.rs:141-231 | `frames` grows by exactly 1; the request follows `ReadRequest` and is at most 6400 bytes; a read error is returned with the state, byte count and buffer unchanged; a successful read writes the samples into the buffer and reports `Intent(old state)`; UnderProduced moves to OnTime |
| `ConstantQ.ZeroRing` | mutate-visualizer/src/audio/cqt.rs:106-111 | a ring of `n` default (zero) terms |
| `ConstantQ.ZeroRingSumsToZero` | mutate-visualizer/src/audio/cqt.rs:210-215 | the per-channel sum of a zero ring is zero |
| `ConstantQ.CqtBin.constructor` | mutate-visualizer/src/audio/cqt.rs:102-121 | ring capacity `ceil(size/decimation)`, covering at least `size` and at least 800 samples; the ring is all zero terms with its oldest term at slot 0; phase and skip start at 0; the offset is the ISO 226 gain at the center |
| `ConstantQ.CqtBin.EffectiveLen` | mutate-visualizer/src/audio/cqt.rs:251-253 | `len·decimation`: at least 800 and a multiple of the decimation |
| `ConstantQ.NextSkip` | mutate-visualizer/src/audio/cqt.rs:133 | the carried skip is below the decimation |
| `ConstantQ.SkipCarryAligned` | mutate-visualizer/src/audio/cqt.rs:128-133 | the samples after the skip plus the new skip are a multiple of the decimation: the next read starts on the grid |
| `ConstantQ.LastGridSampleUnread` | mutate-visualizer/src/audio/cqt.rs:128-133 | when the rest is not a whole number of steps, the next grid sample lies past this input, exactly `skip` into the next |
| `ConstantQ.StreamReadsOnGrid` | mutate-visualizer/src/audio/cqt.rs:96-98 | across successive calls, every sample read lies at a multiple of the decimation in the concatenated stream, given each skip fits its input |
| `ConstantQ.GridPositions` | mutate-visualizer/src/audio/cqt.rs:167-170 | the positions `start, start + d, …` of `step_by(d).take(n)` |
| `ConstantQ.GridShift` | mutate-visualizer/src/audio/cqt.rs:128-133 | moving the origin by a whole number of steps keeps a position on the grid |
| `ConstantQ.Unskipped` | mutate-visualizer/src/audio/cqt.rs:127-131 | the input after the skip; the whole input when the skip is 0 |
| `ConstantQ.Decimated` | mutate-visualizer/src/audio/cqt.rs:167-170 | `len / d` samples, `step_by(d).take(read_len)` with `read_len` the slice's length divided by `d` |
| `ConstantQ.DecimatedAt` | mutate-visualizer/src/audio/cqt.rs:167-170 | the k-th decimated sample is the input sample at `k·d`, which lies inside the slice |
| `ConstantQ.NewTerms` | mutate-visualizer/src/audio/cqt.rs:172-192 | one term per decimated sample |
| `ConstantQ.NewTermsAt` | mutate-visualizer/src/audio/cqt.rs:172-192 | the k-th new term is the sample's term at the phase `k` steps on, wrapped at τ |
| `ConstantQ.Rolled` | mutate-visualizer/src/audio/cqt.rs:135-147 | after the read and write indices both move on by `n`, the oldest-first ring is the survivors followed by the `n` slots handed back to the writer, which still hold the dropped terms |
| `ConstantQ.Written` | mutate-visualizer/src/audio/cqt.rs:149-171 | the chain `head[hi..]` then `tail[tail_len - min(n, tail_len)..]` takes the `n` new terms in order, and every other slot keeps its term; the ring length is kept |
| `ConstantQ.HeadIndexFits` | mutate-visualizer/src/audio/cqt.rs:154-165 | under either head-index rule the chain has room for all `read_len` terms, so `zip` writes every one |
| `ConstantQ.RingAsWritten` | mutate-visualizer/src/audio/cqt.rs:135-171 | the ring `consume` leaves from a read slot and the new terms, with `head_index` as written: 0 when `read_len < tail_len`; the ring length is kept |
| `ConstantQ.RingCorrected` | mutate-visualizer/src/audio/cqt.rs:135-171 | the same with the head index that skips the whole head when the write fits in the tail; the ring length is kept |
| `ConstantQ.WrittenAsWritten` | mutate-visualizer/src/audio/cqt.rs:149-171 | a chain write from the rolled ring, the moved read slot and the as-written head index is `RingAsWritten` |
| `ConstantQ.WrittenCorrected` | mutate-visualizer/src/audio/cqt.rs:149-171 | the same for the corrected head index and `RingCorrected` |
| `ConstantQ.RingCorrectedSlides` | mutate-visualizer/src/audio/cqt.rs:135-171 | with the corrected head index the ring is a sliding window: the survivors in order, then the new terms |
| `ConstantQ.RingAsWrittenSlides` | mutate-visualizer/src/audio/cqt.rs:158-165 | as written the ring is the same sliding window whenever `read_len ≥ tail_len` or nothing is written |
| `ConstantQ.WrittenFromHeadStart` | mutate-visualizer/src/audio/cqt.rs:158-171 | a write chained from the head's first slot puts its first terms on the oldest survivors |
| `ConstantQ.RingAsWrittenOverwrites` | mutate-visualizer/src/audio/cqt.rs:158-165 | as written, a non-empty write shorter than the tail lands its first terms, as many as the head holds, on the oldest slots; if the head holds them all, the ring is the new terms followed by the rest of the rolled ring |
| `ConstantQ.RingsAgree` | mutate-visualizer/src/audio/cqt.rs:158-165 | the two rings are equal when `read_len ≥ tail_len` or `read_len = 0`; otherwise the as-written ring's oldest slots hold the terms the corrected ring keeps at its newest end |
| `ConstantQ.ThreeSlicesAsWritten` | mutate-visualizer/src/audio/cqt.rs:158-165 | a 2400-term ring at read slot 0 fed three 800-term writes ends, as written, as the first block, 800 of the initial terms and the third block |
| `ConstantQ.ThreeSlicesCorrected` | mutate-visualizer/src/audio/cqt.rs:158-165 | the corrected ring after the same three writes is the three blocks in order |
| `ConstantQ.ThreeSlicesCounterexample` | mutate-visualizer/src/audio/cqt.rs:158-165 | the two rings after those writes differ whenever the second block differs from the initial terms it should have replaced |
| `ConstantQ.CqtBin.Added` | mutate-visualizer/src/audio/cqt.rs:145-193 | the terms `consume` writes: `read_len` of them, one per decimated sample after the skip |
| `ConstantQ.CqtBin.NextStateAsWritten` | mutate-visualizer/src/audio/cqt.rs:124-196 | the state `consume` leaves as written: the ring stays full; the ring is `RingAsWritten`; the read slot moves on by `read_len` modulo the capacity; the skip is `NextSkip` and below the decimation; the phase is one step past the skip and then `read_len` steps on |
| `ConstantQ.CqtBin.NextState` | mutate-visualizer/src/audio/cqt.rs:124-196 | the intended next state: the same read slot, skip and phase, and the ring is the old ring minus its `read_len` oldest terms followed by the new terms |
| `ConstantQ.CqtBin.NextStatesAgree` | mutate-visualizer/src/audio/cqt.rs:158-165 | the as-written and intended next states are equal when `read_len ≥` the new read slot, or `read_len = 0` |
| `ConstantQ.CqtBin.NextStatesDiffer` | mutate-visualizer/src/audio/cqt.rs:158-165 | otherwise, as written, the oldest slots of the ring hold the first new terms, as many as the head holds, where `NextState` keeps survivors |
| `ConstantQ.CqtBin.StepsAsWritten` | mutate-visualizer/src/audio/cqt.rs:124-196 | the skip, the roll-off and the chain write from the as-written head index together give `NextStateAsWritten` |
| `ConstantQ.CqtBin.StepsCorrected` | mutate-visualizer/src/audio/cqt.rs:124-196 | the same steps with the corrected head index give `NextState` |
| `ConstantQ.CqtBin.Consume` | mutate-visualizer/src/audio/cqt.rs:124-196 | `consume` as written: the new state is `NextStateAsWritten` of the old one, given the skip fits the input and `read_len ≤ len` |
| `ConstantQ.CqtBin.ConsumeCorrected` | mutate-visualizer/src/audio/cqt.rs:124-196 | `consume` with the corrected head index: the new state is `NextState` of the old one |
| `ConstantQ.CqtBin.TakeSkip` | mutate-visualizer/src/audio/cqt.rs:127-133 | a non-zero skip drops that many samples and adds one phase step; `read_len` is the rest's length divided by the decimation; the new skip is `NextSkip` |
| `ConstantQ.CqtBin.RollOff` | mutate-visualizer/src/audio/cqt.rs:135-141 | the ring becomes `Rolled` by `read_len`, and the read slot moves on by `read_len` modulo the capacity; `clear` at `read_len = len` leaves the slot where it was |
| `ConstantQ.CqtBin.RollOn` | mutate-visualizer/src/audio/cqt.rs:143-195 | the ring becomes `Written` with the new terms through the chain from the given head index; the phase moves on one step per term |
| `ConstantQ.CqtBin.WriteBlock` | mutate-visualizer/src/audio/cqt.rs:163-193 | the zip loop over one slice of the chain: that block of slots takes the block of new terms, and every other slot is kept |
| `ConstantQ.CqtBin.WriteTerm` | mutate-visualizer/src/audio/cqt.rs:172-192 | one loop step: the slot takes the term of sample `k·d` at the running phase; the phase moves on one step, less τ when past τ |
| `ConstantQ.CqtBin.Produce` | mutate-visualizer/src/audio/cqt.rs:202-247 | sums every ring term per channel, reports the center, and changes nothing |
| `ConstantQ.States` | mutate-visualizer/src/audio/cqt.rs:272-277 | the bins' states, in order |
| `ConstantQ.CqtNode.constructor` | mutate-visualizer/src/audio/cqt.rs:312-316 | an output of one entry per bin |
| `ConstantQ.CqtNode.Resolution` | mutate-visualizer/src/audio/cqt.rs:340-342 | the number of bins, which equals the number of outputs |
| `ConstantQ.CqtNode.ConsumeBin` | mutate-visualizer/src/audio/cqt.rs:322-324 | one loop step: bin `i` moves to its as-written next state for the input and the other bins keep their states |
| `ConstantQ.CqtNode.Consume` | mutate-visualizer/src/audio/cqt.rs:319-325 | every bin moves to `NextStateAsWritten` of its old state for the same fresh() slice |
| `ConstantQ.CqtNode.Produce` | mutate-visualizer/src/audio/cqt.rs:327-335 | `output[i]` is bin i's output, for every bin |
| `RmsNode.SumSqLeft` | mutate-visualizer/src/audio/rms.rs:46-52 | the left sum of squares is non-negative |
| `RmsNode.SumSqRight` | mutate-visualizer/src/audio/rms.rs:46-52 | the right sum of squares is non-negative |
| `RmsNode.RmsNode.constructor` | mutate-visualizer/src/audio/rms.rs:26-32 | zero sums and zero count |
| `RmsNode.RmsNode.Consume` | mutate-visualizer/src/audio/rms.rs:34-59 | any intent but Seek resets before accumulating; Seek adds onto the totals; `n` grows by the whole buffer's length, not only fresh(), and both sums add the squares of the whole buffer |
| `RmsNode.RmsNode.MeanSquares` | mutate-visualizer/src/audio/rms.rs:61-66 | each sum divided by `max(n, 1)`, non-negative and never a division by zero |
| `RmsNode.RmsNode.Produce` | mutate-visualizer/src/audio/rms.rs:61-66 | both channels are non-negative when sqrt is, and the state is not changed |
| `KWeight.Shift` | mutate-visualizer/src/node/audio/kweight.rs:41-44 | the history shift x1→x2, x→x1, y1→y2, y→y1 |
| `KWeight.Biquad.constructor` | mutate-visualizer/src/node/audio/kweight.rs:68-89 | the given coefficients with a silent history |
| `KWeight.Biquad.Process` | mutate-visualizer/src/node/audio/kweight.rs:36-47 | `y = b0·x + b1·x1 + b2·x2 - a1·y1 - a2·y2`, then the history shift |
| `KWeight.Filter` | mutate-visualizer/src/node/audio/kweight.rs:36-47 | a sample stream through one biquad yields one output per input |
| `KWeight.Channel` | mutate-visualizer/src/node/audio/kweight.rs:108-112 | one channel's shelf-then-high-pass yields one output per input |
| `KWeight.ChannelIsCascade` | mutate-visualizer/src/node/audio/kweight.rs:108-112 | sample-by-sample filtering equals the shelf over the whole stream followed by the high-pass over its output |
| `KWeight.ChannelExtend` | mutate-visualizer/src/node/audio/kweight.rs:107-113 | one more sample extends a channel's output by one step and advances both histories |
| `KWeight.Zeros` | mutate-visualizer/src/node/audio/kweight.rs:37-46 | `n` zero samples |
| `KWeight.SilenceStaysSilent` | mutate-visualizer/src/node/audio/kweight.rs:37-46 | zero input on a silent history gives zero output and leaves the history silent |
| `KWeight.Lefts` | mutate-visualizer/src/node/audio/kweight.rs:108 | the left channel of each sample |
| `KWeight.Rights` | mutate-visualizer/src/node/audio/kweight.rs:109 | the right channel of each sample |
| `KWeight.Zip` | mutate-visualizer/src/node/audio/kweight.rs:110-113 | pairs filtered channels back into samples |
| `KWeight.KWeightsNode.constructor` | mutate-visualizer/src/node/audio/kweight.rs:63-100 | four silent biquads (two shelves, two high-passes) and an 800-sample zero output |
| `KWeight.KWeightsNode.FilterSample` | mutate-visualizer/src/node/audio/kweight.rs:108-113 | one loop step: left shelf, right shelf, left high-pass, right high-pass; the channels never mix |
| `KWeight.KWeightsNode.FilterInto` | mutate-visualizer/src/node/audio/kweight.rs:107-114 | the output tail becomes the zipped channel outputs, the head is kept, and each filter ends in its channel's final history |
| `KWeight.KWeightsNode.Consume` | mutate-visualizer/src/node/audio/kweight.rs:102-117 | as written: an empty fresh() changes nothing; otherwise the data becomes the old data shifted left by `n` followed by the `n` filtered samples, the offset becomes `n` (from `writeable_slice`), so fresh() is the last `len - n` elements, and each filter's history is its channel's final one |
| `KWeight.KWeightsNode.ConsumeCorrected` | mutate-visualizer/src/node/audio/kweight.rs:102-117 | with the corrected `writeable_slice`: fresh() holds exactly the filtered fresh input, recycled() the shifted old output, and each filter's history is its channel's |
| `KWeight.KWeightsNode.Produce` | mutate-visualizer/src/node/audio/kweight.rs:118-123 | always intent Full, over the node's own output buffer |
| `Colors.HillAtZero` | mutate-visualizer/src/node/audio/colors.rs:94-97 | the Hill function starts at zero when the half point is positive |
| `Colors.HillBounded` | mutate-visualizer/src/node/audio/colors.rs:94-97 | for non-negative input the Hill function lies in [0, max) |
| `Colors.Hill` | mutate-visualizer/src/node/audio/colors.rs:94-97 | where the denominator is not zero, the result times `x^c + half^c` is `max·x^c`: the quotient the source divides out |
| `Colors.HillAtHalf` | mutate-visualizer/src/node/audio/colors.rs:94-97 | at `x = half` the Hill function is `max/2`, as its doc comment promises |
| `Colors.WrapHue` | mutate-visualizer/src/node/audio/colors.rs:41-43 | the hue lands in [0, 1], is unchanged when already there, and differs from the input by a whole number |
| `Colors.AudioColorsNode.constructor` | mutate-visualizer/src/node/audio/colors.rs:28-33 | the random hue (given) and zero amplitude |
| `Colors.AudioColorsNode.Consume` | mutate-visualizer/src/node/audio/colors.rs:36-45 | amplitude is the Hill function of the channel average; the hue steps by `0.01·(0.2·amplitude - 0.5)` and is wrapped into [0, 1]; the amplitude lies in [0, 1.5) for non-negative RMS |
| `Colors.AudioColorsNode.Produce` | mutate-visualizer/src/node/audio/colors.rs:47-81 | value is `clamp(0.666667·amplitude, 0, 1)` for both colours, at full saturation; the clear hue is `360·hue` and the drawing hue its complement in (0, 360]; `scale = 2.5·amplitude - 0.5`; the state is not changed |
| `Iso226.Table1WellFormed` | mutate-visualizer/src/audio/iso226.rs:83-103 | the table's 29 frequencies strictly increase from 20 Hz to 12.5 kHz, with 1 kHz at row 17, and every exponent is at least 0.289 |
| `Iso226.FreqIncreasing` | mutate-visualizer/src/audio/iso226.rs:83-87 | strict order between any two rows |
| `Iso226.FindInterval` | mutate-visualizer/src/audio/iso226.rs:68-76 | the search's answer is an interval containing the frequency; it finds nothing only when none does |
| `Iso226.SearchInterval` | mutate-visualizer/src/audio/iso226.rs:66-77 | the search loop returns `FindInterval`'s answer, and between the first and last frequency it always finds an interval, so `unreachable!()` is not reached |
| `Iso226.IntervalUnique` | mutate-visualizer/src/audio/iso226.rs:68-76 | at most one interval contains a frequency |
| `Iso226.IntervalExists` | mutate-visualizer/src/audio/iso226.rs:68-77 | an in-range frequency always has an interval, so `unreachable!()` is unreachable |
| `Iso226.LerpBetween` | mutate-visualizer/src/audio/iso226.rs:70-73 | `(b - a)·k + a` lies between `a` and `b` for `k` in [0, 1] |
| `Iso226.Interpolate` | mutate-visualizer/src/audio/iso226.rs:70-74 | each interpolated column lies between its two neighbouring entries, and a table frequency gives its own row |
| `Iso226.Lookup` | mutate-visualizer/src/audio/iso226.rs:58-78 | clamps to the first row at or below 20 Hz and to the last at or above 12.5 kHz; in range each column lies between neighbours |
| `Iso226.TableFrequencyGivesRow` | mutate-visualizer/src/audio/iso226.rs:70-73 | at `FREQ[i]` the result is exactly row i |
| `Iso226.InterpolateTable` | mutate-visualizer/src/audio/iso226.rs:58-78 | the same clamping over the ISO 226 table itself, with an exponent of at least 0.289 |
| `Iso226.Spl` | mutate-visualizer/src/audio/iso226.rs:47-54 | the level `L` satisfies `10^((L + lu - 94)·af/10) = A_f`, the loudness term of ISO 226:2023 for the 70-phon curve, whenever `log10` inverts powers of ten and `A_f` is positive |
| `Iso226.Phon2Spl` | mutate-visualizer/src/audio/iso226.rs:47-54 | at or below 20 Hz the level is that of the table's first row, at or above 12.5 kHz that of its last row |
| `Iso226.Gain` | mutate-visualizer/src/audio/iso226.rs:37-44 | always `Ok`, and zero at 1 kHz, where reference and target are the same computation |
| `Iso226.GainClamped` | mutate-visualizer/src/audio/iso226.rs:59-65 | all frequencies at or above 12.5 kHz share one gain, and so do all at or below 20 Hz |
| `Bank.Bandwidth` | mutate-lib/src/dsp/bank.rs:29-31 | positive exactly when `min < max` |
| `Bank.Q` | mutate-lib/src/dsp/bank.rs:34-36 | Q times the bandwidth is the center |
| `Bank.Freq` | mutate-lib/src/dsp/bank.rs:60-61 | the walk of half steps starts at `min`: `freq(0) = min` when `exp2(0) = 1` |
| `Bank.FreqStep` | mutate-lib/src/dsp/bank.rs:60-61 | with `exp2` increasing and positive `min` and step, each half step raises the frequency |
| `Bank.BinAt` | mutate-lib/src/dsp/bank.rs:76-86 | the bin's gain is the ISO 226 gain at its center, and with `exp2` increasing `min < center < max` |
| `Bank.Bins` | mutate-lib/src/dsp/bank.rs:41-88 | exactly `count` bins with shared edges, the first edge at `freq(0)`, bin i centred at `freq(2i + 1)` and gained at its own center |
| `Bank.FreqIncreasing` | mutate-lib/src/dsp/bank.rs:55-61 | with exp2 increasing, the log-spaced frequencies increase |
| `Bank.BinsWellOrdered` | mutate-lib/src/dsp/bank.rs:76-86 | every bin has `min < center < max` |
| `Bank.FreqAt` | mutate-lib/src/dsp/bank.rs:61 | `freq(n)` is `min·exp2(n·log_step)` |
| `Bank.LastEdgeIsMax` | mutate-lib/src/dsp/bank.rs:55-61 | in exact arithmetic `freq(2·count)` is `max` |
| `Bank.BinsCoverRange` | mutate-lib/src/dsp/bank.rs:55-86 | the first bin starts at `min` and the last ends at `max` |
| `Bank.BandwidthTelescopes` | mutate-lib/src/dsp/bank.rs:29-31 | the bandwidths of contiguous bins sum to `last.max - first.min` |
| `Bank.Distances` | mutate-lib/src/dsp/bank.rs:94-96 | each bin's distance is the absolute value of `1 - center/b.center` |
| `Bank.Closest` | mutate-lib/src/dsp/bank.rs:92-101 | the argmin loop returns the first index of least distance (strict `<`) |
| `Bank.BinLookup` | mutate-lib/src/dsp/bank.rs:90-103 | the bin at the first index of least distance |
| `Dft.Norm2` | mutate-lib/src/dsp/dft.rs:249 | the squared norm is non-negative |
| `Dft.RotateNorm` | mutate-lib/src/dsp/dft.rs:232-235 | the phase rotation multiplies squared norms |
| `Dft.ZeroTermsSumToZero` | mutate-lib/src/dsp/dft.rs:239-245 | a ring of zero terms sums to zero under any window |
| `Dft.AmplitudeNonNegative` | mutate-lib/src/dsp/dft.rs:246 | twice the magnitude of the sum over `window_norm` is non-negative for a positive norm |
| `Dft.RenormalizedIsUnit` | mutate-lib/src/dsp/dft.rs:249-251 | dividing the phase by its norm gives a unit phase |
| `Dft.NextRepeated` | mutate-lib/src/dsp/dft.rs:237-253 | the pacing counter stays in `1..=window_repeat` |
| `Dft.RepeatedClosedForm` | mutate-lib/src/dsp/dft.rs:237-253 | after k calls the counter is `(k - 1) mod window_repeat + 1` |
| `Dft.ResumSchedule` | mutate-lib/src/dsp/dft.rs:237-253 | the output is re-summed on call k exactly when `k > 1` and `window_repeat` divides `k - 1` |
| `Dft.SumWindow` | mutate-lib/src/dsp/dft.rs:239-245 | the fold computes the windowed sum of the ring |
| `Dft.Dft.constructor` | mutate-lib/src/dsp/dft.rs:265-297 | `length` f32 window factors and `length` zero terms, norm the factors' sum; repeat from the window choice; counter and output 0; phase (1, 0); gain 1; velocity `(cos, sin)` of `TAU·center/fs` |
| `Dft.Dft.Length` | mutate-lib/src/dsp/dft.rs:300-302 | the window length, which is also the ring's |
| `Dft.Dft.Process` | mutate-lib/src/dsp/dft.rs:205-255 | the ring becomes `ring[1..] + [new term]` and the counter follows `NextRepeated`, staying in `1..=window_repeat`; when the old counter equals `window_repeat` the output is the windowed amplitude and the rotated phase is renormalised; otherwise the last output is returned again and the phase only rotates |
| `Dft.ArgsLength` | mutate-lib/src/dsp/dft.rs:258 | the window length is at least `q·fs/center` |
| `Dft.FromArgs` | mutate-lib/src/dsp/dft.rs:257-261 | a filter of that length with the requested window |
| `Windows.Repeat` | mutate-lib/src/dsp/dft.rs:104-114 | `ceil(len/2)` for BoxCar, Bartlett and Hamming, `ceil(0.293·len)` for Welch, `ceil(len/4)` for Dolph–Chebyshev |
| `Windows.RepeatPositive` | mutate-lib/src/dsp/dft.rs:104-114 | a non-empty window repeats at least once and at most `len` times |
| `Windows.RawWeights` | mutate-lib/src/dsp/dft.rs:336-347 | one averaged weight per bin |
| `Windows.IntegrateBin` | mutate-lib/src/dsp/dft.rs:337-346 | the 512-sample midpoint loop computes the bin's average |
| `Windows.SampleSumStep` | mutate-lib/src/dsp/dft.rs:342-345 | each sample adds the window at `start + (s + 0.5)·step` |
| `Windows.SampleSumOfOne` | mutate-lib/src/dsp/dft.rs:305-307 | the boxcar's samples sum to their count |
| `Windows.FoldMax` | mutate-lib/src/dsp/dft.rs:349 | the fold from 0.0 bounds every weight and is non-negative |
| `Windows.FoldMaxAttained` | mutate-lib/src/dsp/dft.rs:349 | a positive maximum is one of the weights |
| `Windows.FoldMaxLoop` | mutate-lib/src/dsp/dft.rs:349 | the fold computes `FoldMax` |
| `Windows.FindOne` | mutate-lib/src/dsp/dft.rs:348 | the search finds a weight equal to 1.0 exactly when one exists |
| `Windows.Scaled` | mutate-lib/src/dsp/dft.rs:351-353 | every weight times the factor |
| `Windows.ScaleLoop` | mutate-lib/src/dsp/dft.rs:351-353 | the in-place scaling computes `Scaled` |
| `Windows.ScaledAtMostOne` | mutate-lib/src/dsp/dft.rs:350-352 | `x·(1/max) ≤ 1`, with equality at the maximum |
| `Windows.ScaledPeak` | mutate-lib/src/dsp/dft.rs:350-353 | scaling by `1/max` leaves every weight at most 1 and the maximum at 1 |
| `Windows.Normalized` | mutate-lib/src/dsp/dft.rs:348-357 | weights are kept when one equals 1.0, otherwise scaled by `1/max` |
| `Windows.NormalizedPeakIsOne` | mutate-lib/src/dsp/dft.rs:348-357 | with a positive maximum the normalised weights are at most 1 and one equals 1 |
| `Windows.Normalize` | mutate-lib/src/dsp/dft.rs:348-357 | the normalising branch computes `Normalized` |
| `Windows.BinWeights` | mutate-lib/src/dsp/dft.rs:332-358 | `bin_weights` computes the normalised raw weights |
| `Windows.BoxcarWeightsAreOne` | mutate-lib/src/dsp/dft.rs:305-307 | the boxcar window is all ones |
| `Windows.Symmetrized` | mutate-lib/src/dsp/dft.rs:533-537 | each mirrored pair becomes its average and an odd middle is kept |
| `Windows.AveragedEnds` | mutate-lib/src/dsp/dft.rs:533-537 | the first `k` pairs averaged |
| `Windows.AveragedEndsStep` | mutate-lib/src/dsp/dft.rs:534-536 | one loop step averages pair `k` |
| `Windows.SymmetrizedMirror` | mutate-lib/src/dsp/dft.rs:533-537 | after the averaging loop `out[i] == out[n - 1 - i]` |
| `Windows.Symmetrize` | mutate-lib/src/dsp/dft.rs:533-537 | the in-place loop computes `Symmetrized` |
| `Windows.MaxOf` | mutate-lib/src/dsp/dft.rs:540 | the fold from `-inf` bounds every value |
| `Windows.MaxOfAttained` | mutate-lib/src/dsp/dft.rs:540 | the maximum is one of the values |
| `Windows.MaxLoop` | mutate-lib/src/dsp/dft.rs:540 | the fold computes `MaxOf` |
| `Windows.DividedBy` | mutate-lib/src/dsp/dft.rs:541 | every value divided by the maximum |
| `Windows.DividedAtMostOne` | mutate-lib/src/dsp/dft.rs:541 | `x/max ≤ 1`, with equality at the maximum |
| `Windows.DividedPeak` | mutate-lib/src/dsp/dft.rs:540-541 | dividing by the maximum leaves every value at most 1 and the maximum at 1 |
| `Windows.DivideLoop` | mutate-lib/src/dsp/dft.rs:541 | the in-place division computes `DividedBy` |
| `Windows.DolphWindow` | mutate-lib/src/dsp/dft.rs:523-543 | the window has the input's length and is symmetric |
| `Windows.DolphPeakIsOne` | mutate-lib/src/dsp/dft.rs:540-541 | with a positive maximum the window is at most 1 and reaches 1 |
| `Windows.DolphChebyshevWindow` | mutate-lib/src/dsp/dft.rs:523-543 | given `n ≥ 2` and a positive attenuation, the symmetrise-then-divide pass computes `DolphWindow` |
| `Windows.Window` | mutate-lib/src/dsp/dft.rs:78-88 | the window of each choice has the requested size |
| `Windows.MakeWindow` | mutate-lib/src/dsp/dft.rs:78-88 | `make_window` computes `Window` |
| `Windows.MakeWindow32` | mutate-lib/src/dsp/dft.rs:92-97 | the same length as `make_window`, each entry cast to f32 |
| `Windows.Boxcar` | mutate-lib/src/dsp/dft.rs:305-307 | the boxcar is 1 everywhere |
| `Windows.WelchShape` | mutate-lib/src/dsp/dft.rs:309-312 | in [0, 1] on the unit interval, zero at both ends and 1 at the middle |
| `Windows.BartlettShape` | mutate-lib/src/dsp/dft.rs:314-320 | in [0, 1] on the unit interval, zero at both ends and 1 at the middle |
| `Windows.HammingShape` | mutate-lib/src/dsp/dft.rs:324-328 | with `cos` in [-1, 1], the value lies in [4/46, 1], since `a0 = 25/46` |
| `Windows.ShapesSymmetric` | mutate-lib/src/dsp/dft.rs:309-320 | the Welch and Bartlett shapes are symmetric about the middle: `x` and `1 - x` give the same value |
| `Iir.Design` | mutate-lib/src/dsp/iir.rs:82-181 | each section type's constructor yields coefficients of that type |
| `Iir.StepAtRest` | mutate-lib/src/dsp/iir.rs:105-198 | for Biquad, Svf and CytomicSvf, zero input on a zero state gives zero output and keeps the state zero |
| `Iir.BiquadStep` | mutate-lib/src/dsp/iir.rs:105-111 | on zero input from zero registers, zero output and zero registers |
| `Iir.SvfStep` | mutate-lib/src/dsp/iir.rs:139-152 | on zero input from zero registers, zero output and zero registers |
| `Iir.CytomicStep` | mutate-lib/src/dsp/iir.rs:184-198 | on zero input from zero registers, zero output and zero registers |
| `Iir.BiquadDifferenceEquation` | mutate-lib/src/dsp/iir.rs:105-111 | three successive biquad steps obey `y[n] = b0·x[n] + b1·x[n-1] + b2·x[n-2] - a1·y[n-1] - a2·y[n-2]` whatever the starting registers |
| `Iir.BiquadLinear` | mutate-lib/src/dsp/iir.rs:105-111 | the biquad step is linear: the mix `a·s + b·t` of registers and `a·x + b·y` of inputs gives the same mix of outputs and of new registers |
| `Iir.SvfLinear` | mutate-lib/src/dsp/iir.rs:139-152 | the same superposition for the Svf step |
| `Iir.CytomicLinear` | mutate-lib/src/dsp/iir.rs:184-198 | the same superposition for the CytomicSvf step |
| `Iir.StepLinear` | mutate-lib/src/dsp/iir.rs:105-198 | every section type is linear in its input and registers |
| `Iir.Sos.constructor` | mutate-lib/src/dsp/iir.rs:82-181 | the designed coefficients with zero state |
| `Iir.Sos.ProcessBiquad` | mutate-lib/src/dsp/iir.rs:105-111 | the transposed direct form II update of `s1`, `s2` |
| `Iir.Sos.ProcessSvf` | mutate-lib/src/dsp/iir.rs:139-152 | the two-integrator update and the band-pass output `bp·r` |
| `Iir.Sos.ProcessCytomic` | mutate-lib/src/dsp/iir.rs:184-198 | the Cytomic update with `mul_add` and the output `v1·norm` |
| `Iir.Sos.Process` | mutate-lib/src/dsp/iir.rs:277-279 | dispatches to the section's own update |
| `Iir.SosFromArgs` | mutate-lib/src/dsp/iir.rs:281-283 | a section at `args.center`, `args.fs`, `args.q`, at rest |
| `Iir.RunPrefix` | mutate-lib/src/dsp/iir.rs:251-254 | the first `n` sections run in order, each fed the previous output |
| `Iir.Run` | mutate-lib/src/dsp/iir.rs:250-256 | all sections run in vector order, with one new state per section |
| `Iir.RunAtRest` | mutate-lib/src/dsp/iir.rs:250-256 | a cascade at rest maps zero to zero and stays at rest |
| `Iir.Cascade.Coeffs` | mutate-lib/src/dsp/iir.rs:207-211 | the stages' coefficients, in order |
| `Iir.Cascade.States` | mutate-lib/src/dsp/iir.rs:207-211 | the stages' states, in order |
| `Iir.Cascade.Advance` | mutate-lib/src/dsp/iir.rs:252-254 | one loop step: stage `i` processes the running value, the other stages keep their states |
| `Iir.Cascade.RunSections` | mutate-lib/src/dsp/iir.rs:251-254 | the loop over stages computes `Run` |
| `Iir.Cascade.Process` | mutate-lib/src/dsp/iir.rs:250-256 | the stages in order, then the post gain |
| `Iir.ButterworthQFactors` | mutate-lib/src/dsp/iir.rs:293-304 | even order only, `order/2` values |
| `Iir.ButterworthQAt` | mutate-lib/src/dsp/iir.rs:297-302 | entry `i` is the pole Q of index `order/2 - 1 - i` |
| `Iir.ThetaBounds` | mutate-lib/src/dsp/iir.rs:300 | the pole angles increase in (0, π/2) |
| `Iir.ButterworthAscending` | mutate-lib/src/dsp/iir.rs:297-302 | with sin rising on (0, π/2), the Q factors are positive and strictly ascending |
| `Iir.ButterworthPositive` | mutate-lib/src/dsp/iir.rs:297-302 | every Q factor is positive |
| `Iir.StaggerButters` | mutate-lib/src/dsp/iir.rs:315 | `stages - 1` Butterworth factors for the stagger |
| `Iir.StaggerButtersPositive` | mutate-lib/src/dsp/iir.rs:315-316 | those factors and their normaliser are positive |
| `Iir.Pushed` | mutate-lib/src/dsp/iir.rs:317-326 | `stages - 1` pushed factors |
| `Iir.Reverse` | mutate-lib/src/dsp/iir.rs:327 | the reversed list |
| `Iir.StaggerFactors` | mutate-lib/src/dsp/iir.rs:310-329 | none for one stage; otherwise `stages - 1` factors, the pushed ones reversed |
| `Iir.StaggerAlternates` | mutate-lib/src/dsp/iir.rs:320-321 | the last pushed factor grows, and neighbours alternate between shrinking and growing |
| `Iir.ExponentSign` | mutate-lib/src/dsp/iir.rs:319-325 | the exponent's sign follows the alternation, and its size is `b·norm·log2(scale)` |
| `Iir.ExponentsOrdered` | mutate-lib/src/dsp/iir.rs:319-325 | larger Butterworth factors give larger exponents |
| `Iir.StaggerMagnitudes` | mutate-lib/src/dsp/iir.rs:319-325 | for scale > 1 the pushed exponents grow strictly in size along the list |
| `Iir.StaggerSides` | mutate-lib/src/dsp/iir.rs:321-325 | for scale > 1 a pushed factor is below 1 exactly when it shrinks, and above 1 exactly when it grows |
| `Iir.Pops` | mutate-lib/src/dsp/iir.rs:223-231 | what `n` successive pops of the optional stack give |
| `Iir.PopsFromTop` | mutate-lib/src/dsp/iir.rs:224 | pop k takes the k-th factor from the top, or nothing once the stack is empty |
| `Iir.PopsWithoutStack` | mutate-lib/src/dsp/iir.rs:229-230 | without a stagger nothing is popped |
| `Iir.PopStagger` | mutate-lib/src/dsp/iir.rs:223-231 | one pop is the head of the pops sequence and leaves the rest |
| `Iir.StaggeredCenters` | mutate-lib/src/dsp/iir.rs:221-231 | stage `i < stages - 1` is at `center·factor`, and the last at `center` |
| `Iir.FinalStageAtCenter` | mutate-lib/src/dsp/iir.rs:221-231 | the final stage is always at `args.center` |
| `Iir.UnstaggeredCenters` | mutate-lib/src/dsp/iir.rs:222-230 | with no stagger every stage is at `args.center` |
| `Iir.StageQAscending` | mutate-lib/src/dsp/iir.rs:233-238 | with Butterworth on, stage Qs strictly ascend |
| `Iir.CollectStageParameters` | mutate-lib/src/dsp/iir.rs:221-241 | the map over stages yields each stage's center and Q |
| `Iir.StageParameterLists` | mutate-lib/src/dsp/iir.rs:214-241 | `args.stages` centers and Qs, as `StageCenter` and `StageQ` define |
| `Iir.PushStage` | mutate-lib/src/dsp/iir.rs:239 | appends one fresh section at rest with the next designed coefficients |
| `Iir.BuildStages` | mutate-lib/src/dsp/iir.rs:221-241 | one distinct fresh section per parameter pair, each at rest with its coefficients |
| `Iir.Cascade.constructor` | mutate-lib/src/dsp/iir.rs:214-247 | exactly `args.stages` stages at their centers and Qs, at rest, with `post_gain = gain_factor` as f32 |
| `Dsp.CycleSamples` | mutate-lib/src/dsp/mod.rs:226-228 | `ceil(fs/f0·w)`: at least `fs/f0·w` and less than one above it |
| `Dsp.ArgsSamples` | mutate-lib/src/dsp/mod.rs:131-133 | `FilterArgs::nsamples`, the same rounding |
| `Dsp.Start` | mutate-lib/src/dsp/mod.rs:200-211 | the oscillator starts at (1, 0) |
| `Dsp.Step` | mutate-lib/src/dsp/mod.rs:236-239 | the rotation keeps cos and sin |
| `Dsp.Emitted` | mutate-lib/src/dsp/mod.rs:234-241 | `n` outputs, the first being `im` before any rotation |
| `Dsp.StepKeepsPower` | mutate-lib/src/dsp/mod.rs:236-239 | with `cos² + sin² = 1`, a rotation keeps `re² + im²` |
| `Dsp.PowerInvariant` | mutate-lib/src/dsp/mod.rs:234-241 | the same for any number of rotations |
| `Dsp.SineGen.constructor` | mutate-lib/src/dsp/mod.rs:165-171 | `sine_gen` starts at (1, 0) |
| `Dsp.SineGen.Next` | mutate-lib/src/dsp/mod.rs:172-179 | returns `im` as f32, then rotates |
| `Dsp.SineSweeper.constructor` | mutate-lib/src/dsp/mod.rs:200-211 | starts at (1, 0) with `omega = TAU·f0/fs` |
| `Dsp.SineSweeper.SetFrequency` | mutate-lib/src/dsp/mod.rs:214-218 | changes only omega, cos and sin |
| `Dsp.SineSweeper.Center` | mutate-lib/src/dsp/mod.rs:221-223 | the constructor's `f0`, whatever `set_frequency` did |
| `Dsp.SineSweeper.NSamples` | mutate-lib/src/dsp/mod.rs:226-228 | the rounding of `CycleSamples` at the constructor's `f0` |
| `Dsp.SineSweeper.Next` | mutate-lib/src/dsp/mod.rs:234-241 | returns `im` as f32, then rotates, keeping omega |
| `Dsp.ArgsSineGen` | mutate-lib/src/dsp/mod.rs:124-128 | a sweeper at `args.center` and `args.fs` |
| `Dsp.DrawSweeper` | mutate-lib/src/dsp/mod.rs:234-241 | `n` calls of `next` emit `Emitted` |
| `Dsp.DrawSineGen` | mutate-lib/src/dsp/mod.rs:172-179 | `n` calls of the generator emit `Emitted` |
| `Dsp.EmittedUnfold` | mutate-lib/src/dsp/mod.rs:234-241 | emission is the current `im`, then the rotated oscillator's emissions |
| `Dsp.SameSamples` | mutate-lib/src/dsp/mod.rs:165-180 | `sine_gen(f0, fs)` and `SineSweeper::new(f0, fs)` yield the same samples |
| `AudioContext.ChunkBytes` | mutate-lib/src/lib.rs:536-540 | a chunk contributes at most its declared size |
| `AudioContext.Payload` | mutate-lib/src/lib.rs:535-541 | the bytes of all chunks are at most their total declared size, so the capacity check on the total bounds what is pushed |
| `AudioContext.AudioConnection.constructor` | mutate-lib/src/lib.rs:453-466 | an empty ring, a zero chunk counter and no tombstone |
| `AudioContext.AudioConnection.Write` | mutate-lib/src/lib.rs:513-545 | a tombstoned connection returns `Dropped`, and a total above capacity returns `AudioSource`; both leave the ring alone; otherwise exactly `total - vacant` oldest bytes are skipped and the payload is appended; the ring never overflows, the counter grows by 1, and the result is the bytes pushed |
| `AudioContext.AudioConnection.PushChunks` | mutate-lib/src/lib.rs:534-541 | the loop appends the payload and counts its bytes |
| `AudioContext.AudioConnection.PushChunk` | mutate-lib/src/lib.rs:536-540 | one chunk's bytes appended and counted |
| `AudioContext.PrefixStep` | mutate-lib/src/lib.rs:520 | sizes and payload of a prefix extend by one chunk |
| `AudioContext.PrefixSize` | mutate-lib/src/lib.rs:520 | a prefix's size is at most the total |
| `AudioContext.ParseU32` | mutate-lib/src/lib.rs:399-401 | a successful parse starts with a digit or a plus sign |
| `AudioContext.Decimal` | mutate-lib/src/lib.rs:392-394 | the canonical decimal string of `n`: digits only, with value `n` and no leading zero |
| `AudioContext.ParseDecimal` | mutate-lib/src/lib.rs:399-401 | a u32 printed in decimal parses back to itself, so `id()` and the serial agree |
| `AudioContext.CanonicalDecimalUnique` | mutate-lib/src/lib.rs:392-394 | a natural has only one canonical decimal string, so `to_string` and `format!("{}")` are pinned down by it |
| `AudioContext.FirstPresent` | mutate-lib/src/lib.rs:408-413 | the first present key's value, and nothing only when no key is present |
| `AudioContext.FirstPresentIs` | mutate-lib/src/lib.rs:408-413 | when a key is the first present one, the chain of `or_else` returns its value |
| `AudioContext.TryNew` | mutate-lib/src/lib.rs:398-423 | fails with `AudioSource("invalid or missing object.serial")` exactly when `object.serial` is missing or not a u32; otherwise the serial is the parsed one and the global id is kept; the name is `device.description` if present, else `device.nick`, else `device.name`, else `object.path`, and absent exactly when none of them is present; the description is node.description when present |
| `AudioContext.Name` | mutate-lib/src/lib.rs:384-389 | the name, else the description, else the canonical decimal of the serial, which parses back to it |
| `AudioContext.Id` | mutate-lib/src/lib.rs:392-394 | the canonical decimal of the serial, which parses back to it |
| `AudioContext.ChoiceRegistry.constructor` | mutate-lib/src/lib.rs:90-99 | no choices |
| `AudioContext.ChoiceRegistry.OnGlobal` | mutate-lib/src/lib.rs:228-253 | only Node objects whose media.class starts with "Audio/" and whose `try_new` succeeds are appended; anything else is skipped |
| `AudioContext.ChoiceRegistry.OnGlobalRemove` | mutate-lib/src/lib.rs:259-266 | deletes the first choice with the id, and is a no-op when none has it |
| `Queue.MinCapsFamily` | crates/vulkan/src/queue.rs:156-174 | None iff no family has the flags; otherwise one with the flags and least popcount, ties to the lowest index |
| `Queue.MinCapsUnique` | crates/vulkan/src/queue.rs:160-171 | that answer is unique |
| `Queue.Unless` | crates/vulkan/src/queue.rs:136-137 | the filter that drops a family equal to graphics and keeps any other |
| `Queue.Assemble` | crates/vulkan/src/queue.rs:131-138 | transfer is cleared when it equals compute; both are filtered against graphics; the three are pairwise distinct |
| `Queue.NewQueueFamilies` | crates/vulkan/src/queue.rs:122-139 | graphics is the min-caps graphics family; compute and transfer are min-caps searches passed through `Assemble` |
| `Queue.Present` | crates/vulkan/src/queue.rs:142-144 | graphics first, then compute and transfer when present |
| `Queue.QueueCis` | crates/vulkan/src/queue.rs:141-152 | one create info with one queue per present family, in that order |
| `Queue.QueueCisDistinct` | crates/vulkan/src/queue.rs:141-152 | graphics, compute, transfer with pairwise distinct family indices, as VUID-VkDeviceCreateInfo-queueFamilyIndex-02802 requires |
| `Queue.NewQueues` | crates/vulkan/src/queue.rs:62-70 | one queue opened per present family |
| `Queue.GraphicsQueue` | crates/vulkan/src/queue.rs:26-28 | the graphics queue is the compute queue when there is no compute family, and the transfer queue when there is neither compute nor transfer |
| `Queue.GraphicsPool` | crates/vulkan/src/queue.rs:44-46 | the same sharing for the command pool |
| `Queue.ComputeQueue` | crates/vulkan/src/queue.rs:30-35 | falls back to the graphics queue |
| `Queue.ComputePool` | crates/vulkan/src/queue.rs:48-53 | falls back to the graphics pool |
| `Queue.TransferQueue` | crates/vulkan/src/queue.rs:37-42 | falls back to the compute queue |
| `Queue.TransferPool` | crates/vulkan/src/queue.rs:55-60 | falls back to the compute pool |
| `Queue.GettersFollowFamilies` | crates/vulkan/src/queue.rs:26-70 | each getter returns the queue and pool opened for its fallback family |
| `Queue.DestroyedPools` | crates/vulkan/src/queue.rs:72-76 | graphics first, then each present optional queue once |
| `Queue.DestroyMatchesCreate` | crates/vulkan/src/queue.rs:72-76 | `destroy` visits exactly the pools created from the create infos, in order |
| `Memory.FindMemoryTypeIndex` | crates/vulkan/src/util.rs:16-31 | finds nothing iff no reported type is accepted with the required flags; otherwise the least such index below the count |
| `Memory.FirstSuitableUnique` | crates/vulkan/src/util.rs:21-28 | that answer is unique |
| `Memory.TailIgnored` | crates/vulkan/src/util.rs:21-23 | entries at or past `memory_type_count` never change the answer |
| `Image.Settings` | mutate-visualizer/src/image.rs:258-348 | defined exactly on the 12 supported pairs, none with `old == new`; transitions out of UNDEFINED use TOP_OF_PIPE and no access; transitions into PRESENT_SRC_KHR use BOTTOM_OF_PIPE and MEMORY_READ |
| `Image.SupportedCount` | mutate-visualizer/src/image.rs:258-343 | 12 pairs are supported |
| `Image.BothDirections` | mutate-visualizer/src/image.rs:277-317 | TRANSFER_DST↔TRANSFER_SRC, COLOR_ATTACHMENT↔SHADER_READ_ONLY and PRESENT_SRC↔COLOR_ATTACHMENT each work both ways |
| `Image.SettingsFollowScopes` | mutate-visualizer/src/image.rs:258-343 | each side's stage and access depend only on that side's layout |
| `Image.ChainedTransitionsAgree` | mutate-visualizer/src/image.rs:258-343 | two chained transitions agree on the scope of the layout between them |
| `Image.Range` | mutate-visualizer/src/image.rs:226-234 | colour aspect, mip 0 and layer 0, counts of 1 |
| `Image.RangeStencil` | mutate-visualizer/src/image.rs:237-245 | depth and stencil aspects, mip 0 and layer 0, counts of 1 |
| `Image.TransitionLayout` | mutate-visualizer/src/image.rs:249-361 | no barrier (a panic) off the table; otherwise old and new layouts, image and range unchanged, QUEUE_FAMILY_IGNORED on both sides, and the table's stages and accesses |
| `Image.HelpersSupported` | mutate-visualizer/src/image.rs:147-205 | every `Image::transition_*` helper uses a supported pair, and only the depth helper uses `range_stencil` |
| `Present.PickAlpha` | mutate-visualizer/src/present.rs:613-632 | a supported mode or INHERIT, preferred to every supported mode (OPAQUE > PRE > POST > INHERIT) |
| `Present.CreateInfo` | mutate-visualizer/src/present.rs:99-119 | three images at the chosen extent with `pick_alpha`; both holders' `new` and `recreate_images` ask for this request |
| `Present.PickAlphaUnique` | mutate-visualizer/src/present.rs:613-632 | that contract singles out one mode |
| `Present.ChooseExtent` | mutate-visualizer/src/present.rs:268-275 | the current extent is used and stored unless its width is u32::MAX; then the window size is used and the stored extent kept |
| `Present.FallbackLeavesStaleExtent` | mutate-visualizer/src/present.rs:268-275 | with the fallback, the stored extent can differ from the one built |
| `Present.AfterPresentWait` | mutate-visualizer/src/present.rs:343-362 | the id after `present_wait` is even, and an even id is kept |
| `Present.AfterPostDraw` | mutate-visualizer/src/present.rs:565-571 | the id grows and changes parity; from an even id, the next `present_wait` lands on the next even id |
| `Present.PresentWaitIdempotent` | mutate-visualizer/src/present.rs:343-362 | waiting twice is waiting once |
| `Present.PresentedIds` | mutate-visualizer/src/present.rs:565-571 | one presented id per `post_draw`/`present_wait` round |
| `Present.AlternationPresentsEvenIds` | mutate-visualizer/src/present.rs:52-54 | alternating from an even id presents `id, id + 2, …`: only even ids |
| `Present.WindowPresent.constructor` | mutate-visualizer/src/present.rs:159-221 | three frames from index 0, present id 0, at the current extent |
| `Present.WindowPresent.RenderTarget` | mutate-visualizer/src/present.rs:374-402 | the sync objects at the old index, `frame_index = (idx + 1) mod frames`; image, command buffer and extent at the acquired index |
| `Present.WindowPresent.PostDraw` | mutate-visualizer/src/present.rs:565-571 | presents the current id, then increments it |
| `Present.WindowPresent.PresentWait` | mutate-visualizer/src/present.rs:332-365 | on an odd id waits on `id - 1` and increments; on an even id does nothing |
| `Present.WindowPresent.RecreateImages` | mutate-visualizer/src/present.rs:245-329 | new swapchain, images and views at `ChooseExtent`; frames, frame index and present id untouched |
| `Swapchain.SwapChain.constructor` | mutate-visualizer/src/swapchain.rs:29-133 | three frames from index 0, at the window size |
| `Swapchain.SwapChain.RecreateImages` | mutate-visualizer/src/swapchain.rs:155-238 | extent by `ChooseExtent`; the window-size fallback leaves the stored extent; the frame index is untouched |
| `Swapchain.SwapChain.RenderTarget` | mutate-visualizer/src/swapchain.rs:240-244 | the image and the view at the same index |
| `Spectrum.DispatchSize` | mutate-visualizer/src/video/spectrum.rs:271-275 | `⌈w/8⌉` by `⌈h/16⌉` groups: `dispatch·size ≥ extent` and `(dispatch - 1)·size < extent` in each direction, so no group fewer would do |
| `Spectrum.DispatchCoversExtent` | mutate-visualizer/src/video/spectrum.rs:271-275 | every pixel's workgroup index lies inside the dispatch |
| `Spectrum.SampleOf` | mutate-visualizer/src/video/spectrum.rs:228-233 | a slot copies both perceptual levels and both magnitudes of its bin |
| `Spectrum.FillBoundIsExact` | mutate-visualizer/src/video/spectrum.rs:221-234 | every slot's `k mod 599` is in range iff the input has at least `min(599, slots)` entries |
| `Spectrum.WrapIndexInBounds` | mutate-visualizer/src/video/spectrum.rs:227 | under that bound the wrapped index is in range |
| `Spectrum.PushedExtent` | mutate-visualizer/src/video/spectrum.rs:255-267 | the push constants are `[width, height]` |
| `Spectrum.DrawTransitionsSupported` | mutate-visualizer/src/video/spectrum.rs:210-219 | both transitions of `draw` are in the layout table |
| `Spectrum.TransferPassLayouts` | mutate-visualizer/src/video/spectrum.rs:297-317 | the copy runs in TRANSFER_DST and the target ends in PRESENT_SRC_KHR, each barrier matching the layout it leaves |
| `Spectrum.DrawCommands` | mutate-visualizer/src/video/spectrum.rs:195-317 | ten commands; the fifth pushes `[width, height]` as f32, the seventh dispatches one deep a grid of 8 x 16 groups covering the extent |
| `Spectrum.DrawLeavesTargetPresentable` | mutate-visualizer/src/video/spectrum.rs:194-318 | `draw` leaves the target presentable |
| `Spectrum.SpectrumNode.constructor` | mutate-visualizer/src/video/spectrum.rs:123-133 | no buffers yet |
| `Spectrum.SpectrumNode.Provision` | mutate-visualizer/src/video/spectrum.rs:138-184 | a failed allocation returns `AllocationFailed` and keeps both buffers; otherwise a fresh spectrum buffer of `height` entries and an output of `width·height` entries |
| `Spectrum.SpectrumNode.FillSpectrum` | mutate-visualizer/src/video/spectrum.rs:221-234 | slot k is filled from `input[k mod 599]` |
| `Spectrum.SpectrumNode.Draw` | mutate-visualizer/src/video/spectrum.rs:194-318 | the fill, then the command list `DrawCommands` |
| `Workbench.SelectorOf` | mutate-lib/src/bin/workbench.rs:93-103 | the selector naming a choice is never `All` |
| `Workbench.ChoiceOf` | mutate-lib/src/bin/workbench.rs:576-583 | the per-selector map, inverse to `SelectorOf` |
| `Workbench.ConvertEach` | mutate-lib/src/bin/workbench.rs:574-585 | without `All` the map is one-to-one and order-preserving |
| `Workbench.ExpandFilterChoices` | mutate-lib/src/bin/workbench.rs:564-587 | any `All` gives [Complex, Svf, Biquad, Cytomic, Dft]; otherwise one choice per selector in order, and `unreachable!()` is never reached |
| `Workbench.AllChoicesComplete` | mutate-lib/src/bin/workbench.rs:565-572 | that list holds every choice once |
| `Workbench.ExpandInvertsSelectors` | mutate-lib/src/bin/workbench.rs:573-586 | expanding the selectors of a choice list gives the list back |
| `Workbench.Instantiate` | mutate-lib/src/bin/workbench.rs:80-91 | Complex has no filter (`todo!()`); Dft is a DFT; each cascade choice has its section type |
| `Workbench.ExpandThenInstantiate` | mutate-lib/src/bin/workbench.rs:293-298 | after `all`, instantiation reaches `todo!()`; it does so exactly when `all` or `complex` was selected |
| `Workbench.WorkbenchArgs` | mutate-lib/src/bin/workbench.rs:601-612 | q 8, center 1000, fs 48000, gain 1, one stage, no Butterworth, stagger 1.01, Dolph–Chebyshev 22.5 dB |
| `Workbench.WorkbenchArgsBuildCascades` | mutate-lib/src/bin/workbench.rs:619-664 | those arguments meet the cascade's demand that a stagger comes with a stage, differ from `FilterArgs::default`, and keep its center and sample rate |

## Left out

- Floating point is `real`. The model has no NaN, no infinities and no f32/f64 rounding, and `mul_add` is exact. The `as f32` cast is the uninterpreted `toF32`.
- The transcendental functions and the division are uninterpreted. This covers the IIR coefficient formulas, the window shape functions, the Goertzel rotation and renormalisation, `iso226_phon2spl`, the bank's log spacing and the constant-Q phase terms. Properties that need a fact about them require it as a named predicate.
- Iir.Design: states only that a constructor yields coefficients of its own section type. The coefficient formulas stay uninterpreted.
- The three section types of the IIR module are one `Sos` class over a coefficient datatype. Each type's update is its own method, and `Process` dispatches on the type.
- The IIR module's `ComplexResonator` is not part of this model. No core operation names it; the workbench's `Complex` choice only reaches `todo!()`.
- The numeric-accuracy tests of the DFT, the constant-Q node and the IIR bandwidth are not modelled. Filter linearity is proved for one section step, not for a whole cascade.
- Integer widths: `usize`, `u32` and `i32` are unbounded. This covers spectrum's `width·height` and `width + 7`, the u32 fold of chunk sizes in `AudioProducer::write`, and `frames` and `bytes_read` in the raw node. None of them wraps in the model.
- The raw node's `i32` divisions are modelled with Dafny's division. Its operands are non-negative wherever they are used, so truncation and Euclidean division agree.
- The raw node's stdin source selection, the audio-server connection and its clock-driven debug statistics are left out. `rx.occupied()` and `rx.read` are parameters.
- The read buffer's byte-to-sample reinterpretation is left out. Reads come back as samples, and the read size must be a whole number of samples.
- The audio thread, the mutex and condition variable, the poison error and the drop tombstones' concurrency are left out. The tombstone is a plain field of the connection.
- CqtNode's constructor (the log-spaced layout of the bins, their decimations and sizes) is not modelled. The node is built over bins already constructed.
- The ISO 226 gain of each bank bin is a function parameter. The bank uses the library's copy of the table, which is not part of this model.
- The Dolph–Chebyshev spectrum, its inverse DFT and the Chebyshev polynomials are left out. Their real parts enter the window as an input sequence.
- `bandwidth_norm_factor` and `amplitude_norm_factor` return 1.0 for every window and are left out.
- The colour node's HSV to RGB conversion is left out. Colours are kept as hue, saturation and value. The random initial hue is a constructor parameter.
- Vulkan handles are numbers and Vulkan calls are left out: barrier recording, command submission, acquiring and presenting, descriptor updates.
- The spectrum node's `draw` records a list of commands in place of the command buffer. The compute shader's own computation is not modelled.
- `QueueFamilies::new` unwraps the graphics family. The model requires that some family supports graphics.
- `find_memory_type_index` requires the device's report to be well formed: at most 32 types in an array of 32 entries.
- The layout table's panic is a `None` result.
- Present.WindowPresent.RenderTarget: requires the acquired index to be below the number of images and of command buffers. The source indexes both and panics otherwise.
- Spectrum.SpectrumNode.Provision: allocation failure is a parameter. The old buffers are replaced without being destroyed, as in the source, and this is not otherwise stated.
- Workbench.Instantiate: returns a description of the filter (section type or DFT), not the filter object built from the arguments.
- RmsNode.RmsNode.Produce: states only that both channels are non-negative. The square root is uninterpreted, so the root-mean-square value is not computed.
- Dft.FromArgs: states the window length and choice of the filter built. The constructor's contract gives the rest of its state.
- `swapchain.rs` has its own copy of `pick_alpha` and `window_size`. The copy is identical to `present.rs`'s, and `Present.PickAlpha` describes both.
- The `from_args` of the cascade is split into computing the per-stage parameter lists and building the stages from them.
- ConstantQ.CqtBin.Consume: follows the source's `head_index` rule, so its ring is not the sliding window `NextState` describes (see Findings); `ConstantQ.CqtNode.Consume` calls this as-written update, and `ConsumeCorrected` is the intended one.
- ConstantQ.CqtBin.Accepts: requires the carried skip to be at most the input's length. `&input[self.skip..]` at cqt.rs:130 panics otherwise, which a short fresh() after a partial read can reach. The panic is not modelled.
- ConstantQ.CqtBin.Accepts: requires `read_len ≤ len`. An input longer than the ring is, by the source's own note at cqt.rs:137, not handled correctly; the model does not describe what it does then.
- KWeight.KWeightsNode.Consume: follows `writeable_slice` as written, so the output's fresh() is not the filtered input (see the graph Findings row); `ConsumeCorrected` states the intended result.
- AudioContext.ChunksInBounds: states that every mapped chunk's range lies inside its data. `&input[offset..offset + size]` at lib.rs:539 panics otherwise; the panic is not modelled, and the members below require this predicate instead.
- AudioContext.Payload: requires `ChunksInBounds`, so the slicing panic at lib.rs:539 is not modelled.
- AudioContext.AudioConnection.Write: requires `ChunksInBounds`, so the slicing panic at lib.rs:539 is not modelled.
- AudioContext.AudioConnection.PushChunks: requires `ChunksInBounds`, so the slicing panic at lib.rs:539 is not modelled.
- Iir.StageParameterLists: requires at least one stage when staggering. `stages - 1` underflows at iir.rs:315-317 for zero stages; that panic is not modelled.
- Iir.Cascade.constructor: requires at least one stage when staggering, for the same underflow at iir.rs:315-317.
- Iir.InitialStaggers: requires at least one stage when staggering, for the same underflow at iir.rs:315-317.
- Iir.StageCenter: requires at least one stage when staggering, for the same underflow at iir.rs:315-317.

## Findings

| source | as written | input that shows it | evidently intended | confidence | as-written member | corrected member |
|---|---|---|---|---|---|---|
| mutate-visualizer/src/graph/mod.rs:152 | `writeable_slice` sets `offset = size` | a buffer of 800 and a slice of 100: `fresh()` reports 700 elements, 600 of them old | `offset = old` (`len - min(size, len)`), as `write` does, so `fresh()` is exactly the returned slice; the two agree only when `2·size == len`; its caller `KWeightsNode::consume` (`KWeight.KWeightsNode.Consume`, corrected in `KWeight.KWeightsNode.ConsumeCorrected`) then publishes `len - n` elements for `n` fresh ones, none on a full 800-sample frame | not executed | `Graph.SliceOffsetCounterexample` | `Graph.GraphBuffer.WriteableSliceCorrected` |
| mutate-visualizer/src/audio/cqt.rs:158-165 | when `read_len < tail_len` the head index is 0, so the chain starts at the head's first slot, where the oldest surviving terms sit | a bin of capacity 2400 and decimation 1, skip 0, fed three 800-sample slices A, B, C from a zero ring: the ring ends as [A, 800 zero terms, C], where a sliding window holds [A, B, C] | the head index is `head_len` in that case, so the new terms go into the slots just rolled off and the ring stays a sliding window over the decimated input | not executed | `ConstantQ.ThreeSlicesCounterexample` | `ConstantQ.CqtBin.ConsumeCorrected` |
