# alo: a model of the looper core

alo is an LV2 audio plugin: a looper that records the live input into a storage
arena and plays recorded loops back over it, driven by a single momentary
button. The repository holds two generations of the plugin, and this project
models the core of both:

- `source/alo.cpp`, the C++ looper. `MomentaryButton` turns a control-port level
  into press and release events with double-click detection. `Looper` is a
  state machine (IDLE, RECORDING, PLAYING) over a flat storage arena of
  samples, in which each `Loop` is a view (offset, length, start index).
  `Looper::run` processes one block: it polls the button, advances the clock,
  and then either passes the input through (IDLE) or, sample by sample, records,
  mixes the playing loops into the output, and advances the main loop, finishing
  the recording when the main loop wraps or the arena is full.
  `finishRecording` fades the ends of the finished loop in and out.
- `source/alo.c`, the earlier C plugin. It copies the input to the output,
  writes every input sample to a recording buffer, and follows the host's
  transport: time:Position events carry a tempo, a speed and a bar beat, and
  `update_position` turns them into a loop length in samples, a loop-beat
  counter and a write position.

Each source file is modelled twice:

- as values: `LooperSpec`, `TransportSpec` and `Button.Step`, one function per
  operation, with the properties proved as lemmas;
- as the imperative code it is: `LooperPlugin.Looper`, `TransportPlugin.Alo`
  and `Button.MomentaryButton`, whose fields the methods update in place, with
  arrays for the arena, the loop slots and the recording buffer. Every method is
  proved to change the object's abstract value `Abs()` exactly as the
  corresponding function says.

The model follows the code as written, including the behaviours below. Where a
behaviour would index out of bounds or divide by zero, the operation has a
precondition that excludes it.

- The button handler installed by `connectPort` (`source/alo.cpp:187-204`)
  guards only the log call with `if (!pressed)`. The `return` after it runs on
  every event, so the handler never resets, starts or finishes a recording.
  `LooperPlugin.Looper.OnButton` therefore changes nothing. As a consequence a
  looper that starts in IDLE stays in IDLE and passes its input through.
- Outside IDLE, every sample of `Looper::run` sets the state to RECORDING and
  overwrites the current slot's start index before it records. Every sample is
  therefore recorded, and a loop finishes each time the main loop wraps.
- The sample is written to the arena before the check for a full arena, and the
  used-sample count is never rewound by `run` or `finishRecording` (only `reset`
  rewinds it).
- The source has one loop slot (`m_loops[1]`). The model has `capacity` slots.
  A wrap moves the recording on to the next slot as it was left, without
  `startRecording`.
- `Looper.Run` requires `LooperSpec.RunSafe` of its block: each sample, run
  from the looper as the samples before it left it, needs a free sample of the
  arena and a current slot that exists and whose view lies in the recorded part
  of the arena. This is exactly what keeps every write of the block in bounds;
  `FirstRecordingEndsOnlyWhenFull` shows that a first recording with one slot
  meets it for every block that leaves a free sample of the arena.
- A double click is a press less than a second after the previous press. It is
  measured from the last press, not from the last release.
- The fade in `finishRecording` covers `NR_OF_BLEND_SAMPLES` = 64 samples at each
  end of the loop (the comment beside it says 32). Gain `s / m` applies to
  sample `s` from either end. In a loop shorter than 128 samples the two ramps
  overlap and the middle samples are scaled twice.
- `Reset` rewinds the arena but leaves the old views in the loop slots.
- In `alo.c`, `run` writes input sample `pos` at `pos + loop_index` while
  `loop_index` itself moves on by one per sample. The samples of a block
  therefore land two places apart. Nothing bounds the write by
  `STORAGE_MEMORY`, so `TransportPlugin.Alo.Run` requires that every write is
  inside the buffer.
- A new tempo divides by the tempo, and a tempo of 0 is not rejected.
  `TransportSpec.UpdatePosition` requires that a new, different tempo is not 0.
  `Alo.Run` requires this for every event, as `EventsSafe`.

## Model

| member | source | states |
|---|---|---|
| Button.Step | source/alo.cpp:105-123 | without a connected input or a level change nothing is reported and nothing changes; an edge reports pressed = level > 0, the interval since the previous change, and a double click exactly when a press comes less than a second after the previous press; the click time moves only on presses |
| Button.SameLevelIsQuiet | source/alo.cpp:110-113 | polling again at the same level reports nothing: one event per edge |
| Button.ReleaseIsNeverDoubleClick | source/alo.cpp:114-120 | a release is never a double click and never moves the click time |
| Button.MomentaryButton.constructor | source/alo.cpp:131-137 | a new button is unconnected, released, with both times at 0 |
| Button.MomentaryButton.Connect | source/alo.cpp:95-99 | connecting marks the input present and changes nothing else |
| Button.MomentaryButton.Run | source/alo.cpp:105-123 | the new fields and the event passed to the callback are exactly those of Button.Step |
| LooperSpec.Reset | source/alo.cpp:360-369 | reset leaves the looper valid and IDLE with no loops, no used samples and the main loop at 0; slots and samples are kept |
| LooperSpec.ResetIdempotent | source/alo.cpp:360-369 | resetting twice is resetting once |
| LooperSpec.StartRecording | source/alo.cpp:372-386 | with the arena full nothing changes; otherwise the current slot becomes an empty view at the end of the recorded part, no other slot changes, the state is RECORDING, the looper invariant is kept, and the recording can take its first sample (LooperSpec.CanRecord) |
| LooperSpec.StartAfterReset | source/alo.cpp:360-386 | after a reset a recording always starts, in the first slot, at the start of the arena |
| LooperSpec.BlendCount | source/alo.cpp:405 | the fade length is the loop length capped at NR_OF_BLEND_SAMPLES |
| LooperSpec.FadePass | source/alo.cpp:408-415 | one pass of the fade scales the two given samples by the factor (a single sample twice when the two meet) and no other sample |
| LooperSpec.FadeSteps | source/alo.cpp:405-415 | the fade after `s` passes keeps the arena's size |
| LooperSpec.FadeStepsFrame | source/alo.cpp:405-415 | a sample that passes s0 to s-1 do not reach keeps the value it had after pass s0 |
| LooperSpec.FadedFrame | source/alo.cpp:402-415 | the fade changes no sample outside the loop's view, nor the middle of the view beyond the fade length at either end |
| LooperSpec.FadedSilencesEnds | source/alo.cpp:405-415 | the first and the last sample of a finished non-empty loop are 0, since they get factor 0 |
| LooperSpec.FadedRamp | source/alo.cpp:405-415 | in a loop of at least 128 samples, the sample k < 64 from either end is scaled by exactly k / 64: a linear fade-in and fade-out |
| LooperSpec.Faded | source/alo.cpp:402-415 | the faded arena has the size of the arena; what it holds is stated by FadedFrame, FadedSilencesEnds and FadedRamp |
| LooperSpec.FinishRecording | source/alo.cpp:389-423 | the state becomes PLAYING; one more loop plays and the redo count equals it; the first loop sets the main-loop length and restarts the main loop, and later loops change neither; the slots and the used-sample count are kept; the arena is the faded arena over the finished loop's view; the invariant is kept when the finished slot's view lies in the recorded part |
| LooperSpec.ReadIndex | source/alo.cpp:246-251 | a loop is read exactly while the main-loop index lies in its window [start, start + length), and the sample read is inside its view, at the same distance from the view's start as the index is from the window's start |
| LooperSpec.Contribution | source/alo.cpp:246-251 | a loop adds nothing outside its window [start, start + length), and inside it adds the sample of its view at the index's distance from the window's start |
| LooperSpec.Playback | source/alo.cpp:243-253 | with no playing loop's window holding the index, the loops add nothing to the output |
| LooperSpec.PlaybackFrame | source/alo.cpp:243-253 | playback depends only on the playing loops and the samples of their views |
| LooperSpec.Advance | source/alo.cpp:258-260 | the main-loop index moves by one per sample once a loop plays, and stands still before |
| LooperSpec.Wraps | source/alo.cpp:258-267 | a sample that fills the arena always ends the recording; before any loop plays, with the index within the main-loop length, it is the only thing that does |
| LooperSpec.StepMainLoop | source/alo.cpp:258-277 | without a wrap only the main-loop index advances; on a wrap it goes back to 0, a recording finishes (one more playing loop), and a non-recording looper is otherwise unchanged; the invariant is kept and afterwards the index is within the main-loop length |
| LooperSpec.StepMainLoopFinishes | source/alo.cpp:267-276 | a wrap while recording is finishRecording of the looper with the index at 0: the arena is faded over the loop's view, and a first loop sets the main-loop length to its own |
| LooperSpec.Record | source/alo.cpp:228-240 | the sample is stored at the first free sample of the arena, the count grows by one, the current slot starts at the main-loop index and grows by one, no other slot changes, the state is RECORDING, and the invariant and the current slot's freshness are kept |
| LooperSpec.Sample | source/alo.cpp:225-277 | one sample outputs dry * input plus the loops playing at the old index, without the sample being recorded; it records the sample and keeps the invariant; without a wrap it is still recording with the index advanced and can record again, and on a wrap the slot becomes a playing loop and the index is 0 |
| LooperSpec.SampleParts | source/alo.cpp:225-277 | a sample is the recording step, then the mix over the recorded looper, then the end-of-sample step |
| LooperSpec.SampleWraps | source/alo.cpp:225-277 | a sample that wraps finishes the recording: the arena holds the sample and is faded over the finished loop's view, now one sample longer, and a first loop sets the main-loop length to that length |
| LooperSpec.RunSamples | source/alo.cpp:225-278 | for a block whose every write stays in bounds (RunSafe), the block outputs one sample per input sample, records every sample, finishes at most one loop per sample, keeps the invariant, and leaves a non-empty block's looper out of IDLE with the index within the main-loop length |
| LooperSpec.RunSafePrefix | source/alo.cpp:225-278 | a prefix of a block whose writes stay in bounds has writes in bounds too |
| LooperSpec.RunSamplesStep | source/alo.cpp:225-278 | the block up to sample k + 1 is the block up to sample k followed by one more sample, which can be recorded |
| LooperSpec.FirstRecordingEndsOnlyWhenFull | source/alo.cpp:225-277 | before any loop plays the main-loop index does not move, so the first recording is ended only by the arena filling up: every block that leaves a free sample of the arena keeps its writes in bounds, with any number of slots, finishes no loop and leaves the main loop where it was |
| LooperPlugin.Looper.constructor | source/alo.cpp:149-159 | a new looper is valid and IDLE, with an arena of sampleRate * 360 * 2 samples, empty slots, the clock at 0 and the dry amount 1 |
| LooperPlugin.Looper.ConnectButton | source/alo.cpp:185-187 | connecting the button port connects the button |
| LooperPlugin.Looper.OnButton | source/alo.cpp:187-204 | the handler as written leaves the looper unchanged on every event |
| LooperPlugin.Looper.Reset | source/alo.cpp:360-369 | the looper becomes LooperSpec.Reset of what it was |
| LooperPlugin.Looper.StartRecording | source/alo.cpp:372-386 | the looper becomes LooperSpec.StartRecording of what it was |
| LooperPlugin.Looper.FinishRecording | source/alo.cpp:389-423 | the looper becomes LooperSpec.FinishRecording of what it was |
| LooperPlugin.Looper.FadeLoop | source/alo.cpp:405-415 | the in-place fade loop leaves the arena equal to the faded arena |
| LooperPlugin.Looper.Mix | source/alo.cpp:243-253 | the playback loop outputs dry * input plus what every playing loop contributes at the main-loop index |
| LooperPlugin.Looper.RunSample | source/alo.cpp:225-277 | one pass of the sample loop changes the looper and outputs as LooperSpec.Sample says |
| LooperPlugin.Looper.RecordSample | source/alo.cpp:228-240 | the recording part of a sample changes the looper as LooperSpec.Record says |
| LooperPlugin.Looper.StepMainLoop | source/alo.cpp:258-277 | the end of a sample changes the looper as LooperSpec.StepMainLoop says |
| LooperPlugin.Looper.Run | source/alo.cpp:211-279 | the button is polled with the clock as it was before the block, and the clock then advances by the block's duration; in IDLE the input passes through and the looper is unchanged; otherwise, for a block that is RunSafe, the looper and the output are those of LooperSpec.RunSamples; the invariant is kept and output beyond the block is untouched |
| LooperPlugin.Looper.PassThrough | source/alo.cpp:216-223 | the output block is a copy of the input block, and nothing beyond it changes |
| LooperPlugin.Looper.Process | source/alo.cpp:225-278 | for a RunSafe block, the sample loop leaves the looper and the output as LooperSpec.RunSamples says |
| LooperPlugin.Looper.ProcessOne | source/alo.cpp:225-277 | one input sample extends the output by the mixed sample and steps the looper, as LooperSpec.Sample says |
| TransportSpec.Initial | source/alo.c:157-166 | a new record is in STATE_PLAYING at the start of the buffer, with 16 loop beats |
| TransportSpec.Trunc | source/alo.c:288-292 | the float-to-int conversion truncates toward zero |
| TransportSpec.LoopSamples | source/alo.c:267 | the loop length in samples is non-negative for a positive tempo |
| TransportSpec.ApplyBpm | source/alo.c:263-271 | only a present, different tempo is taken, and it recomputes the loop length; nothing else changes |
| TransportSpec.ApplySpeed | source/alo.c:272-284 | only a present, different speed is taken; it restarts the loop beat and the write position, and a stop turns the plugin off; nothing else changes |
| TransportSpec.ApplyBeat | source/alo.c:285-302 | a bar beat whose truncation differs moves onto the next loop beat, restarting the loop after its last beat; otherwise nothing changes |
| TransportSpec.UpdatePosition | source/alo.c:252-313 | a position keeps the rate and the loop length in beats |
| TransportSpec.Dispatch | source/alo.c:348-357 | an event that is not a time:Position object or blank changes nothing |
| TransportSpec.HandleEvents | source/alo.c:341-361 | the event loop keeps the rate and the loop length in beats |
| TransportSpec.HandleEventsAppend | source/alo.c:341-361 | handling two event sequences in turn is handling their concatenation |
| TransportSpec.OnlyPositionsMatter | source/alo.c:348-357 | a control sequence without position objects leaves the transport unchanged |
| TransportSpec.LoopBeatInRange | source/alo.c:285-302 | the loop beat stays in [0, loop beats], and in [1, loop beats] after a beat crossing |
| TransportSpec.HandleEventsKeepsLoopBeat | source/alo.c:341-361 | the whole event loop keeps the loop beat in [0, loop beats] |
| TransportSpec.HandleEventsRewindsOnly | source/alo.c:272-302 | the event loop moves the write position only back to 0 |
| TransportSpec.SpeedChangeThenBeat | source/alo.c:272-302 | a speed change followed by a beat crossing in one event restarts the loop on its first beat |
| TransportSpec.StopTurnsOff | source/alo.c:272-284 | a change of speed to 0 turns the plugin off; without a stop the state is kept |
| TransportSpec.TempoChange | source/alo.c:263-271 | after a position the tempo and loop length are the new ones exactly when a different tempo was present |
| TransportSpec.UnchangedPositionIsIgnored | source/alo.c:263-302 | a position whose present properties all match the transport changes nothing |
| TransportSpec.UpdatePositionIdempotent | source/alo.c:252-313 | receiving the same position twice is receiving it once |
| TransportPlugin.Alo.constructor | source/alo.c:157-166 | the new record is TransportSpec.Initial with a buffer of STORAGE_MEMORY samples |
| TransportPlugin.Alo.UpdatePosition | source/alo.c:252-313 | the record changes as TransportSpec.UpdatePosition says |
| TransportPlugin.Alo.Run | source/alo.c:321-364 | the output block is a copy of the input block; input sample pos is written at the old write position + 2 * pos and no other buffer sample changes; the transport is that of the event loop run from the write position advanced by the block |
| TransportPlugin.Alo.RecordBlock | source/alo.c:328-332 | the sample loop copies the input, writes every second buffer sample from the write position, and advances the write position by the block length |
| TransportPlugin.Alo.HandleEventLoop | source/alo.c:341-361 | the event loop changes the transport as TransportSpec.HandleEvents says |

## Left out

- The LV2 glue is not modelled: the descriptor, `connect_port`, `activate`, `deactivate`, `cleanup`, URID mapping and the `instantiate` feature scan. Events reach the model decoded, as `AtomBody`, and a position property that is not an atom:Float is `None`.
- Logging, `timestamp()` and the log file are left out: they do not affect the state.
- `dbToFloat`, the threshold and the dry-amount parameter ports are left out, because the core never reads them; `m_dryAmount` is the constant 1.
- Floating point: samples, gains, the tempo, the speed and the clock are reals. Single- and double-precision rounding is not modelled.
- Integer widths: counters are unbounded. The `size_t`, `uint32_t` and `int` wrap-around of `loop_index`, `loop_samples` and `current_bb` is not modelled.
- The `loop` buffer, the wave, envelope and `elapsed_len` fields and `last_t` of `alo.c` are left out: they are never read.
- The destructor, `new`/`delete`, and the modgui JavaScript user interface are left out.
- LooperPlugin.Looper.Run: requires a non-idle block to be RunSafe: every sample needs a free sample of the arena and a current slot whose view lies in the recorded part. The source instead writes past the arena once the count reaches its size, and past its single slot after the first loop finishes. A slot that a wrap moves on to, left with an old view by `Reset`, is excluded when that view is not in the recorded part, since finishing it would fade samples outside the recording.
- LooperPlugin.Looper.OnButton: the branches after the unconditional `return` cannot be reached, so they are not modelled.
- LooperSpec.FadedRamp: states the exact ramp only for loops of at least 128 samples. In shorter loops the two ramps overlap; for those the model proves only that the ends are silenced and that the rest of the arena is untouched.
- TransportPlugin.Alo.Run: requires every write to land inside the recording buffer and every new tempo to be non-zero. The source checks neither.
- The `MomentaryButton` callback is an event returned by `Run` rather than a `std::function` call. The button's level pointer is a parameter of `Run`.
