/**
 * The Looper class of source/alo.cpp: a record/playback state machine over one
 * storage arena, driven once per block by `Run`.
 *
 * The storage arena and the loop slots are arrays the methods update in place.
 * `Abs()` reads every field the methods change into a LooperState, and each
 * method is proved to change it exactly as the function of the same name in
 * LooperSpec says. Input and output ports are the arrays passed to `Run`; the
 * button's control port is the level passed to `Run`.
 */
module LooperPlugin {
  import opened Wrappers
  import opened LooperSpec
  import Button

  class Looper {
    /** The sample rate the looper was created with (m_sampleRate). */
    const sampleRate: nat
    /** The storage arena for recorded audio (m_storage, m_storageSize samples). */
    const storage: array<real>
    /** The loop slots (m_loops). */
    const loops: array<Loop>
    /** The all-purpose button (m_Button). */
    const button: Button.MomentaryButton
    /** How much of the live input is mixed into the output (m_dryAmount); never updated. */
    const dryAmount: real

    /** The looper's clock in seconds, advanced by every block (m_now). */
    var now: real
    var state: State
    var currentLoopIndex: nat
    var loopLength: nat
    var nrOfUsedSamples: nat
    var nrOfLoops: nat
    var maxUsedLoops: nat

    /** The looper's state as a value. */
    ghost function Abs(): LooperState
      reads this, loops, storage
    {
      LooperState(state, currentLoopIndex, loopLength, nrOfUsedSamples, nrOfLoops, maxUsedLoops,
                  loops[..], storage[..])
    }

    /** The object invariant: a positive rate, at least one slot, and LooperSpec.Valid. */
    ghost predicate Valid()
      reads this, loops, storage
    {
      sampleRate > 0 && loops.Length > 0 && LooperSpec.Valid(Abs())
    }

    /** The constructor: an arena of STORAGE_SECONDS * 2 seconds and `capacity` empty slots. */
    constructor (sampleRate: nat, capacity: nat)
      requires sampleRate > 0 && capacity > 0
      ensures Valid() && fresh(storage) && fresh(loops) && fresh(button)
      ensures storage.Length == sampleRate * STORAGE_SECONDS * 2 && loops.Length == capacity
      ensures Abs().state == Idle && Abs().nrOfLoops == 0 && Abs().nrOfUsedSamples == 0
      ensures Abs().currentLoopIndex == 0 && Abs().loopLength == 0 && Abs().maxUsedLoops == 0
      ensures forall t :: 0 <= t < capacity ==> loops[t] == Loop(0, 0, 0)
      ensures now == 0.0 && dryAmount == 1.0 && button.State() == Button.Initial
    {
      this.sampleRate := sampleRate;
      storage := new real[sampleRate * STORAGE_SECONDS * 2];
      loops := new Loop[capacity](_ => Loop(0, 0, 0));
      button := new Button.MomentaryButton();
      dryAmount := 1.0;
      now := 0.0;
      state := Idle;
      currentLoopIndex, loopLength := 0, 0;
      nrOfUsedSamples, nrOfLoops, maxUsedLoops := 0, 0, 0;
    }

    /** Connecting the button port (the ALO_BUTTON case of connectPort). */
    method ConnectButton()
      modifies button
      ensures button.State() == old(button.State()).(connected := true)
    {
      button.Connect();
    }

    /** The button callback installed by connectPort. As written, the `return` after the
        `!pressed` test is not guarded by it, so the handler returns on every event and
        its double-click, finish and start branches are never reached. */
    method OnButton(event: Button.ButtonEvent)
      ensures Abs() == old(Abs())
    {
      if !event.pressed {
        // Only the log call is guarded by this test.
      }
    }

    /** Looper::reset. */
    method Reset()
      modifies this
      ensures Abs() == LooperSpec.Reset(old(Abs()))
      ensures now == old(now) && (sampleRate > 0 && loops.Length > 0 ==> Valid())
    {
      nrOfLoops := 0;
      maxUsedLoops := 0;
      nrOfUsedSamples := 0;
      state := Idle;
      currentLoopIndex := 0;
      loopLength := 0;
      nrOfUsedSamples := 0;
    }

    /** Looper::startRecording. */
    method StartRecording()
      requires nrOfUsedSamples < storage.Length ==> nrOfLoops < loops.Length
      modifies this, loops
      ensures Abs() == LooperSpec.StartRecording(old(Abs()))
      ensures now == old(now)
    {
      if nrOfUsedSamples >= storage.Length {
        return;
      }
      loops[nrOfLoops] := loops[nrOfLoops].(storageOffset := nrOfUsedSamples, length := 0);
      state := Recording;
    }

    /** Looper::finishRecording, with its fade loop over the ends of the loop's view. */
    method FinishRecording()
      requires nrOfLoops < loops.Length
      requires loops[nrOfLoops].length > 0 ==>
        loops[nrOfLoops].storageOffset + loops[nrOfLoops].length <= storage.Length
      modifies this, storage
      ensures Abs() == LooperSpec.FinishRecording(old(Abs()))
      ensures now == old(now)
    {
      ghost var s0 := Abs();
      state := Playing;
      var loop := loops[nrOfLoops];
      if nrOfLoops == 0 {
        loopLength := loop.length;
        currentLoopIndex := 0;
      }
      FadeLoop(loop.storageOffset, loop.length);
      nrOfLoops := nrOfLoops + 1;
      maxUsedLoops := nrOfLoops;
      assert Abs().storage == Faded(s0.storage, loop.storageOffset, loop.length);
    }

    /** The fade loop of finishRecording: pass `s` scales the sample `s` from the start of the
        view [offset, offset + length), and then the sample `s` from its end, by s / BlendCount(length). */
    method FadeLoop(offset: nat, length: nat)
      requires length > 0 ==> offset + length <= storage.Length
      modifies storage
      ensures storage[..] == Faded(old(storage[..]), offset, length)
    {
      ghost var st := storage[..];
      var m := if length > NR_OF_BLEND_SAMPLES then NR_OF_BLEND_SAMPLES else length;
      var startIndex := offset;
      var endIndex: int := offset + length - 1;
      for s := 0 to m
        invariant startIndex == offset + s && endIndex == offset + length - 1 - s
        invariant storage[..] == FadeSteps(st, offset, length, s)
      {
        var factor := s as real / m as real;
        storage[startIndex] := Scale(storage[startIndex], factor);
        startIndex := startIndex + 1;
        storage[endIndex] := Scale(storage[endIndex], factor);
        endIndex := endIndex - 1;
      }
    }

    /** The playback loop of run: the dry input plus every finished loop whose window
        holds the main-loop index. */
    method Mix(x: real) returns (out: real)
      requires LooperSpec.Valid(Abs())
      ensures out == dryAmount * x + Playback(loops[..], storage[..], nrOfLoops, currentLoopIndex)
    {
      out := dryAmount * x;
      for t := 0 to nrOfLoops
        invariant out == dryAmount * x + Playback(loops[..], storage[..], t, currentLoopIndex)
      {
        var loop := loops[t];
        if currentLoopIndex < loop.startIndex {
          continue;
        }
        if currentLoopIndex >= loop.startIndex + loop.length {
          continue;
        }
        var index := loop.storageOffset + (currentLoopIndex - loop.startIndex);
        out := out + storage[index];
      }
    }

    /** One pass of run's sample loop outside IDLE. */
    method RunSample(x: real) returns (out: real)
      requires CanRecord(Abs())
      modifies this, loops, storage
      ensures (Abs(), out) == Sample(old(Abs()), x, dryAmount)
      ensures now == old(now)
    {
      ghost var s0 := Abs();
      RecordSample(x);
      ghost var s1 := Abs();
      out := Mix(x);
      StepMainLoop();
      SampleParts(s0, x, dryAmount, s1, out);
    }

    /** The recording part of a pass of run's sample loop: the current slot starts at the
        main-loop index, the state is forced to RECORDING, and `x` is recorded. */
    method RecordSample(x: real)
      requires CanRecord(Abs())
      modifies this, loops, storage
      ensures Abs() == Record(old(Abs()), x)
      ensures now == old(now)
    {
      var cur := nrOfLoops;
      loops[cur] := loops[cur].(startIndex := currentLoopIndex);
      state := Recording;
      if state == Recording {
        storage[nrOfUsedSamples] := x;
        nrOfUsedSamples := nrOfUsedSamples + 1;
        loops[cur] := loops[cur].(length := loops[cur].length + 1);
      }
    }

    /** The end of a sample of run: the main-loop index advances once a loop plays, and when
        it runs past the main loop or the arena is full it goes back to 0 and the recording
        finishes. */
    method StepMainLoop()
      requires LooperSpec.Valid(Abs()) && CurrentSlotFresh(Abs())
      modifies this, storage
      ensures Abs() == LooperSpec.StepMainLoop(old(Abs()))
      ensures now == old(now)
    {
      if nrOfLoops > 0 {
        currentLoopIndex := currentLoopIndex + 1;
      }
      if currentLoopIndex > loopLength || nrOfUsedSamples >= storage.Length {
        currentLoopIndex := 0;
        if state == Recording {
          FinishRecording();
        }
      }
    }

    /** Looper::run for a block of `nrOfSamples` samples. */
    method Run(input: array<real>, output: array<real>, nrOfSamples: nat, buttonLevel: real)
      requires Valid()
      requires input.Length >= nrOfSamples && output.Length >= nrOfSamples
      requires input != storage && output != storage
      requires state != Idle ==> RunSafe(Abs(), input[..nrOfSamples], dryAmount)
      modifies this, loops, storage, output, button
      ensures Valid()
      // The button is polled with the clock as it was before the block; its event changes nothing.
      ensures button.State() == Button.Step(old(button.State()), old(now), buttonLevel).0
      ensures now == old(now) + nrOfSamples as real / sampleRate as real
      // IDLE: the input passes through and the looper stays as it was.
      ensures old(state) == Idle ==>
        Abs() == old(Abs()) && output[..nrOfSamples] == old(input[..nrOfSamples])
      // Otherwise every sample is recorded and mixed, as RunSamples says.
      ensures old(state) != Idle ==>
        (Abs(), output[..nrOfSamples]) == RunSamples(old(Abs()), old(input[..nrOfSamples]), dryAmount)
      ensures forall j :: nrOfSamples <= j < output.Length ==> output[j] == old(output[j])
    {
      var event := button.Run(now, buttonLevel);
      if event.Some? {
        OnButton(event.value);
      }
      now := now + nrOfSamples as real / sampleRate as real;
      if state == Idle {
        PassThrough(input, output, nrOfSamples);
      } else {
        Process(input, output, nrOfSamples);
      }
    }

    /** The IDLE branch of Looper::run: the input is copied to the output. */
    static method PassThrough(input: array<real>, output: array<real>, nrOfSamples: nat)
      requires input.Length >= nrOfSamples && output.Length >= nrOfSamples
      modifies output
      ensures output[..nrOfSamples] == old(input[..nrOfSamples])
      ensures forall j :: nrOfSamples <= j < output.Length ==> output[j] == old(output[j])
    {
      ghost var xs := input[..nrOfSamples];
      for s := 0 to nrOfSamples
        invariant forall j :: 0 <= j < s ==> output[j] == xs[j]
        invariant forall j :: s <= j < nrOfSamples ==> input[j] == xs[j]
        invariant forall j :: nrOfSamples <= j < output.Length ==> output[j] == old(output[j])
      {
        output[s] := input[s];
      }
    }

    /** The recording and playback loop of Looper::run, one RunSample per input sample. */
    method Process(input: array<real>, output: array<real>, nrOfSamples: nat)
      requires input.Length >= nrOfSamples && output.Length >= nrOfSamples
      requires input != storage && output != storage
      requires RunSafe(Abs(), input[..nrOfSamples], dryAmount)
      modifies this, loops, storage, output
      ensures (Abs(), output[..nrOfSamples]) == RunSamples(old(Abs()), old(input[..nrOfSamples]), dryAmount)
      ensures forall j :: nrOfSamples <= j < output.Length ==> output[j] == old(output[j])
      ensures now == old(now)
    {
      ghost var xs := input[..nrOfSamples];
      ghost var s0 := Abs();
      RunSafePrefix(s0, xs, 0, dryAmount);
      ghost var run := RunSamples(s0, [], dryAmount);
      for s := 0 to nrOfSamples
        invariant RunSafe(s0, xs[..s], dryAmount) && run == RunSamples(s0, xs[..s], dryAmount)
        invariant Abs() == run.0 && output[..s] == run.1
        invariant forall j :: s <= j < nrOfSamples ==> input[j] == xs[j]
        invariant forall j :: nrOfSamples <= j < output.Length ==> output[j] == old(output[j])
        invariant now == old(now)
      {
        RunSamplesStep(s0, xs, s, dryAmount);
        ghost var q := Sample(run.0, xs[s], dryAmount);
        ProcessOne(input, output, s, run, xs[s]);
        run := (q.0, run.1 + [q.1]);
      }
      assert xs[..nrOfSamples] == xs;
    }

    /** One pass of the loop of Process: input sample `s`, which is `x`, is recorded, and
        the mix is written to output sample `s`, after the `s` samples of `run`. */
    method ProcessOne(input: array<real>, output: array<real>, s: nat,
                      ghost run: (LooperState, seq<real>), ghost x: real)
      requires s < input.Length && s < output.Length
      requires input != storage && output != storage
      requires CanRecord(run.0) && Abs() == run.0 && output[..s] == run.1 && input[s] == x
      modifies this, loops, storage, output
      ensures var q := Sample(run.0, x, dryAmount);
              Abs() == q.0 && output[..s + 1] == run.1 + [q.1]
      ensures forall j :: 0 <= j < output.Length && j != s ==> output[j] == old(output[j])
      ensures forall j :: 0 <= j < input.Length && (input != output || j != s) ==> input[j] == old(input[j])
      ensures now == old(now)
    {
      var out := RunSample(input[s]);
      assert output[..s] == run.1;
      output[s] := out;
      assert output[..s + 1] == run.1 + [out];
    }
  }
}
