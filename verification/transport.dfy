/** The plugin record of alo.c and its run function: the audio passes through, every input
    sample is written to the recording buffer, and the host's position events move the
    transport. */
module TransportPlugin {
  import opened Wrappers
  import opened TransportSpec

  class Alo {
    const rate: real
    const loopBeats: int
    var bpm: real
    var speed: real
    var loopSamples: int
    var currentBb: int
    var currentLb: int
    var state: PlayState
    /** The recording buffer of STORAGE_MEMORY samples. */
    const recording: array<real>
    var loopIndex: nat

    /** The transport fields of the record as a value. */
    function Abs(): Transport
      reads this
    {
      Transport(rate, bpm, speed, loopBeats, loopSamples, currentBb, currentLb, loopIndex, state)
    }

    /** The part of instantiate that sets up the record: zero-filled, the sample rate, 16 loop
        beats and a recording buffer. */
    constructor (rate: real)
      ensures Abs() == Initial(rate)
      ensures recording.Length == STORAGE_MEMORY && fresh(recording)
    {
      this.rate := rate;
      loopBeats := INITIAL_LOOP_BEATS;
      bpm, speed := 0.0, 0.0;
      loopSamples, currentBb, currentLb := 0, 0, 0;
      state := StatePlaying;
      recording := new real[STORAGE_MEMORY];
      loopIndex := 0;
    }

    /** update_position: the tempo, the speed and the bar beat of one position object, in
        that order. */
    method UpdatePosition(p: Position)
      requires BpmSafe(Abs(), p.beatsPerMinute)
      modifies this
      ensures Abs() == TransportSpec.UpdatePosition(old(Abs()), p)
    {
      ghost var t0 := Abs();
      if p.beatsPerMinute.Some? {
        if bpm != p.beatsPerMinute.value {
          bpm := p.beatsPerMinute.value;
          loopSamples := LoopSamples(loopBeats, rate, bpm);
        }
      }
      assert Abs() == ApplyBpm(t0, p.beatsPerMinute);
      if p.speed.Some? {
        if speed != p.speed.value {
          speed := p.speed.value;
          currentLb := 0;
          loopIndex := 0;
          if speed == 0.0 {
            state := StateOff;
          }
        }
      }
      assert Abs() == ApplySpeed(ApplyBpm(t0, p.beatsPerMinute), p.speed);
      if p.barBeat.Some? {
        var barBeat := p.barBeat.value;
        if currentBb != Trunc(barBeat) {
          currentBb := Trunc(barBeat);
          if currentLb == loopBeats {
            currentLb := 0;
            loopIndex := 0;
          }
          currentLb := currentLb + 1;
        }
      }
    }

    /** run: the sample loop, then the event loop over the decoded control sequence. */
    method Run(input: array<real>, output: array<real>, nrOfSamples: nat, events: seq<AtomBody>)
      requires input.Length >= nrOfSamples && output.Length >= nrOfSamples
      requires recording.Length == STORAGE_MEMORY && input != recording && output != recording
      // Every write lands inside the recording buffer.
      requires nrOfSamples > 0 ==> loopIndex + 2 * (nrOfSamples - 1) < STORAGE_MEMORY
      requires EventsSafe(Abs().(loopIndex := loopIndex + nrOfSamples), events)
      modifies this, output, recording
      ensures output[..nrOfSamples] == old(input[..nrOfSamples])
      ensures forall j :: nrOfSamples <= j < output.Length ==> output[j] == old(output[j])
      // Sample `pos` is written `pos` places past the write position, which has itself
      // already moved on by `pos`.
      ensures forall pos :: 0 <= pos < nrOfSamples ==>
        recording[old(loopIndex) + 2 * pos] == old(input[pos])
      ensures forall j ::
        (0 <= j < recording.Length &&
         (j < old(loopIndex) || (j - old(loopIndex)) % 2 == 1 || old(loopIndex) + 2 * nrOfSamples <= j)) ==>
        recording[j] == old(recording[j])
      ensures Abs() == HandleEvents(old(Abs()).(loopIndex := old(loopIndex) + nrOfSamples), events)
    {
      RecordBlock(input, output, nrOfSamples);
      HandleEventLoop(events);
    }

    /** The sample loop of run: each input sample goes to the output and to the recording
        buffer, and the write position moves on by one. */
    method RecordBlock(input: array<real>, output: array<real>, nrOfSamples: nat)
      requires input.Length >= nrOfSamples && output.Length >= nrOfSamples
      requires input != recording && output != recording
      requires nrOfSamples > 0 ==> loopIndex + 2 * (nrOfSamples - 1) < recording.Length
      modifies this`loopIndex, output, recording
      ensures loopIndex == old(loopIndex) + nrOfSamples
      ensures output[..nrOfSamples] == old(input[..nrOfSamples])
      ensures forall j :: nrOfSamples <= j < output.Length ==> output[j] == old(output[j])
      ensures forall pos :: 0 <= pos < nrOfSamples ==>
        recording[old(loopIndex) + 2 * pos] == old(input[pos])
      ensures forall j ::
        (0 <= j < recording.Length &&
         (j < old(loopIndex) || (j - old(loopIndex)) % 2 == 1 || old(loopIndex) + 2 * nrOfSamples <= j)) ==>
        recording[j] == old(recording[j])
    {
      ghost var li := loopIndex;
      ghost var xs := input[..nrOfSamples];
      for pos := 0 to nrOfSamples
        invariant loopIndex == li + pos
        invariant forall j :: 0 <= j < pos ==> output[j] == xs[j]
        invariant forall j :: pos <= j < nrOfSamples ==> input[j] == xs[j]
        invariant forall j :: nrOfSamples <= j < output.Length ==> output[j] == old(output[j])
        invariant forall j :: 0 <= j < pos ==> recording[li + 2 * j] == xs[j]
        invariant forall j ::
          (0 <= j < recording.Length && (j < li || (j - li) % 2 == 1 || li + 2 * pos <= j)) ==>
          recording[j] == old(recording[j])
      {
        output[pos] := input[pos];
        recording[pos + loopIndex] := input[pos];
        loopIndex := loopIndex + 1;
      }
    }

    /** The event loop of run: position objects go to update_position, in sequence order. */
    method HandleEventLoop(events: seq<AtomBody>)
      requires EventsSafe(Abs(), events)
      modifies this
      ensures Abs() == HandleEvents(old(Abs()), events)
    {
      ghost var t0 := Abs();
      for i := 0 to |events|
        invariant EventsSafe(t0, events[..i])
        invariant Abs() == HandleEvents(t0, events[..i])
      {
        EventsSafePrefix(t0, events, i + 1);
        assert events[..i + 1] == events[..i] + [events[i]];
        EventsSnoc(t0, events[..i], events[i]);
        var body := events[i];
        if (body.ObjectBody? || body.BlankBody?) && body.otype == TimePosition {
          UpdatePosition(body.props);
        }
      }
      assert events[..|events|] == events;
    }
  }
}
