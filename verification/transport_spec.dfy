/** The tempo-synchronised recorder of alo.c, as values: the transport fields of the
    plugin record and how a decoded host position event updates them. */
module TransportSpec {
  import opened Wrappers

  /** Size, in samples, of the recording buffer. */
  const STORAGE_MEMORY: nat := 2880000
  /** Length of the loop in beats, as the plugin is instantiated. */
  const INITIAL_LOOP_BEATS: int := 16

  /** The plugin states. STATE_PLAYING is the first enumerator, so a zero-filled record starts in it. */
  datatype PlayState = StatePlaying | StateIdle | StateOff

  /** The properties of a time:Position object that the plugin asks for. A property is
      present only when the host sent it as an atom:Float. */
  datatype Position = Position(barBeat: Option<real>, beatsPerMinute: Option<real>, speed: Option<real>)

  /** The object type of an atom object. */
  datatype ObjectType = TimePosition | OtherObject

  /** The body of an event of the control sequence, decoded. An atom:Blank is the older
      spelling of an atom:Object. */
  datatype AtomBody =
    | ObjectBody(otype: ObjectType, props: Position)
    | BlankBody(otype: ObjectType, props: Position)
    | OtherBody

  /** The transport fields of the plugin record. */
  datatype Transport = Transport(
    rate: real,          // sample rate
    bpm: real,           // tempo, beats per minute
    speed: real,         // transport speed (0 stopped, 1 playing)
    loopBeats: int,      // loop length in beats
    loopSamples: int,    // loop length in samples
    currentBb: int,      // the beat of the bar we are on
    currentLb: int,      // the beat of the loop we are on
    loopIndex: nat,      // write position in the recording buffer
    state: PlayState)

  /** The record as instantiate leaves it: zero-filled, then the rate and 16 loop beats. */
  function Initial(rate: real): (t: Transport)
    ensures t.state == StatePlaying && t.loopIndex == 0 && t.currentLb == 0 && t.currentBb == 0
    ensures t.loopBeats == INITIAL_LOOP_BEATS && t.rate == rate
  {
    Transport(rate, 0.0, 0.0, INITIAL_LOOP_BEATS, 0, 0, 0, 0, StatePlaying)
  }

  /** The C conversion of a float to an int: truncation toward zero. */
  function Trunc(x: real): (r: int)
    ensures 0.0 <= x ==> 0 <= r && r as real <= x < r as real + 1.0
    ensures x < 0.0 ==> r <= 0 && r as real - 1.0 < x <= r as real
  {
    if x >= 0.0 then x.Floor else -((-x).Floor)
  }

  /** The length of a loop of `loopBeats` beats, in samples, at `bpm` beats per minute. */
  function LoopSamples(loopBeats: int, rate: real, bpm: real): (r: int)
    requires bpm != 0.0
    ensures loopBeats >= 0 && rate >= 0.0 && bpm > 0.0 ==> r >= 0
  {
    Trunc(loopBeats as real * rate * 60.0 / bpm)
  }

  /** A bpm property does not make update_position divide by zero. */
  predicate BpmSafe(t: Transport, bpm: Option<real>)
  {
    bpm.Some? && bpm.value != t.bpm ==> bpm.value != 0.0
  }

  /** The tempo part of update_position: a new tempo recomputes the loop length in samples. */
  function ApplyBpm(t: Transport, bpm: Option<real>): (r: Transport)
    requires BpmSafe(t, bpm)
    ensures bpm.None? || bpm.value == t.bpm ==> r == t
    ensures bpm.Some? && bpm.value != t.bpm ==>
      r.bpm == bpm.value && r.loopSamples == LoopSamples(t.loopBeats, t.rate, bpm.value)
    // Only the tempo and the loop length change.
    ensures r.(bpm := t.bpm, loopSamples := t.loopSamples) == t
  {
    if bpm.Some? && t.bpm != bpm.value then
      t.(bpm := bpm.value, loopSamples := LoopSamples(t.loopBeats, t.rate, bpm.value))
    else t
  }

  /** The speed part of update_position: a new speed restarts the loop, and a stop turns the
      plugin off. */
  function ApplySpeed(t: Transport, speed: Option<real>): (r: Transport)
    ensures speed.None? || speed.value == t.speed ==> r == t
    ensures speed.Some? && speed.value != t.speed ==>
      r.speed == speed.value && r.currentLb == 0 && r.loopIndex == 0 &&
      (speed.value == 0.0 ==> r.state == StateOff)
    // The state changes only on a stop.
    ensures speed.None? || speed.value != 0.0 ==> r.state == t.state
    // Only the speed, the loop beat, the write position and the state change.
    ensures r.(speed := t.speed, currentLb := t.currentLb, loopIndex := t.loopIndex, state := t.state) == t
  {
    if speed.Some? && t.speed != speed.value then
      var t1 := t.(speed := speed.value, currentLb := 0, loopIndex := 0);
      if speed.value == 0.0 then t1.(state := StateOff) else t1
    else t
  }

  /** The bar-beat part of update_position: moving onto another beat advances the loop beat,
      restarting the loop after its last beat. */
  function ApplyBeat(t: Transport, barBeat: Option<real>): (r: Transport)
    ensures barBeat.None? || Trunc(barBeat.value) == t.currentBb ==> r == t
    ensures barBeat.Some? && Trunc(barBeat.value) != t.currentBb ==>
      r.currentBb == Trunc(barBeat.value) &&
      (t.currentLb == t.loopBeats ==> r.currentLb == 1 && r.loopIndex == 0) &&
      (t.currentLb != t.loopBeats ==> r.currentLb == t.currentLb + 1 && r.loopIndex == t.loopIndex)
    // Only the bar beat, the loop beat and the write position change.
    ensures r.(currentBb := t.currentBb, currentLb := t.currentLb, loopIndex := t.loopIndex) == t
  {
    if barBeat.Some? && t.currentBb != Trunc(barBeat.value) then
      var t1 := t.(currentBb := Trunc(barBeat.value));
      var t2 := if t1.currentLb == t1.loopBeats then t1.(currentLb := 0, loopIndex := 0) else t1;
      t2.(currentLb := t2.currentLb + 1)
    else t
  }

  /** update_position: the tempo, then the speed, then the bar beat. */
  function UpdatePosition(t: Transport, p: Position): (r: Transport)
    requires BpmSafe(t, p.beatsPerMinute)
    ensures r.rate == t.rate && r.loopBeats == t.loopBeats
  {
    ApplyBeat(ApplySpeed(ApplyBpm(t, p.beatsPerMinute), p.speed), p.barBeat)
  }

  /** The event is a time:Position object (or blank), the only kind run hands to update_position. */
  predicate IsPosition(e: AtomBody)
  {
    (e.ObjectBody? || e.BlankBody?) && e.otype == TimePosition
  }

  /** Handling one event of the control sequence does not divide by zero. */
  predicate DispatchSafe(t: Transport, e: AtomBody)
  {
    IsPosition(e) ==> BpmSafe(t, e.props.beatsPerMinute)
  }

  /** One event of the control sequence: position objects update the transport, everything
      else is ignored. */
  function Dispatch(t: Transport, e: AtomBody): (r: Transport)
    requires DispatchSafe(t, e)
    ensures !IsPosition(e) ==> r == t
    ensures r.rate == t.rate && r.loopBeats == t.loopBeats
  {
    if IsPosition(e) then UpdatePosition(t, e.props) else t
  }

  /** Every event of `es`, handled in order from `t`, is safe. */
  predicate EventsSafe(t: Transport, es: seq<AtomBody>)
    decreases |es|, 0
  {
    es == [] ||
    (EventsSafe(t, es[..|es| - 1]) && DispatchSafe(HandleEvents(t, es[..|es| - 1]), es[|es| - 1]))
  }

  /** The event loop of run: the events of the control sequence in order. */
  function HandleEvents(t: Transport, es: seq<AtomBody>): (r: Transport)
    requires EventsSafe(t, es)
    ensures r.rate == t.rate && r.loopBeats == t.loopBeats
    decreases |es|, 1
  {
    if es == [] then t
    else Dispatch(HandleEvents(t, es[..|es| - 1]), es[|es| - 1])
  }

  /** A prefix of a safe event sequence is safe. */
  lemma {:induction false} EventsSafePrefix(t: Transport, es: seq<AtomBody>, k: nat)
    requires k <= |es| && EventsSafe(t, es)
    ensures EventsSafe(t, es[..k])
    decreases |es|
  {
    if k < |es| {
      assert es[..|es| - 1][..k] == es[..k];
      EventsSafePrefix(t, es[..|es| - 1], k);
    } else {
      assert es[..k] == es;
    }
  }

  /** Handling events one at a time: the event loop after one more event. */
  lemma EventsSnoc(t: Transport, es: seq<AtomBody>, e: AtomBody)
    requires EventsSafe(t, es + [e])
    ensures EventsSafe(t, es) && DispatchSafe(HandleEvents(t, es), e)
    ensures HandleEvents(t, es + [e]) == Dispatch(HandleEvents(t, es), e)
  {
    assert (es + [e])[..|es|] == es;
  }

  /** Handling two event sequences one after the other is handling their concatenation. */
  lemma {:induction false} HandleEventsAppend(t: Transport, es: seq<AtomBody>, fs: seq<AtomBody>)
    requires EventsSafe(t, es) && EventsSafe(HandleEvents(t, es), fs)
    ensures EventsSafe(t, es + fs)
    ensures HandleEvents(t, es + fs) == HandleEvents(HandleEvents(t, es), fs)
    decreases |fs|
  {
    if fs == [] {
      assert es + fs == es;
    } else {
      var fs' := fs[..|fs| - 1];
      var f := fs[|fs| - 1];
      HandleEventsAppend(t, es, fs');
      assert es + fs == (es + fs') + [f];
      assert (es + fs)[..|es + fs| - 1] == es + fs';
    }
  }

  /** Events other than position objects leave the transport as it was. */
  lemma {:induction false} OnlyPositionsMatter(t: Transport, es: seq<AtomBody>)
    requires forall i :: 0 <= i < |es| ==> !IsPosition(es[i])
    ensures EventsSafe(t, es) && HandleEvents(t, es) == t
    decreases |es|
  {
    if es != [] {
      OnlyPositionsMatter(t, es[..|es| - 1]);
    }
  }

  /** The loop-beat counter stays within [0, loopBeats], and a beat crossing leaves it in
      [1, loopBeats]. */
  lemma LoopBeatInRange(t: Transport, p: Position)
    requires BpmSafe(t, p.beatsPerMinute)
    requires 1 <= t.loopBeats && 0 <= t.currentLb <= t.loopBeats
    ensures var r := UpdatePosition(t, p);
            0 <= r.currentLb <= r.loopBeats &&
            (r.currentBb != t.currentBb ==> 1 <= r.currentLb)
  {
  }

  /** The loop-beat range is kept by the whole event loop. */
  lemma {:induction false} HandleEventsKeepsLoopBeat(t: Transport, es: seq<AtomBody>)
    requires EventsSafe(t, es)
    requires 1 <= t.loopBeats && 0 <= t.currentLb <= t.loopBeats
    ensures var r := HandleEvents(t, es);
            0 <= r.currentLb <= r.loopBeats
    decreases |es|
  {
    if es != [] {
      var prefix := es[..|es| - 1];
      HandleEventsKeepsLoopBeat(t, prefix);
      var e := es[|es| - 1];
      if IsPosition(e) {
        LoopBeatInRange(HandleEvents(t, prefix), e.props);
      }
    }
  }

  /** The event loop never moves the write position other than back to 0. */
  lemma {:induction false} HandleEventsRewindsOnly(t: Transport, es: seq<AtomBody>)
    requires EventsSafe(t, es)
    ensures var r := HandleEvents(t, es);
            r.loopIndex == t.loopIndex || r.loopIndex == 0
    decreases |es|
  {
    if es != [] {
      HandleEventsRewindsOnly(t, es[..|es| - 1]);
    }
  }

  /** Fields are applied tempo, speed, beat: an event that changes the speed and crosses a
      beat restarts the loop on its first beat. */
  lemma SpeedChangeThenBeat(t: Transport, p: Position)
    requires BpmSafe(t, p.beatsPerMinute) && 1 <= t.loopBeats
    requires p.speed.Some? && p.speed.value != t.speed
    requires p.barBeat.Some? && Trunc(p.barBeat.value) != t.currentBb
    ensures var r := UpdatePosition(t, p);
            r.currentLb == 1 && r.loopIndex == 0 && r.speed == p.speed.value
  {
  }

  /** Stopping the transport turns the plugin off; any other speed change keeps its state. */
  lemma StopTurnsOff(t: Transport, p: Position)
    requires BpmSafe(t, p.beatsPerMinute)
    ensures var r := UpdatePosition(t, p);
            (p.speed.Some? && p.speed.value == 0.0 && t.speed != 0.0 ==> r.state == StateOff) &&
            (p.speed.None? || p.speed.value != 0.0 ==> r.state == t.state)
  {
  }

  /** The tempo and loop length after a position: only a present, different tempo moves them. */
  lemma TempoChange(t: Transport, p: Position)
    requires BpmSafe(t, p.beatsPerMinute)
    ensures var r := UpdatePosition(t, p);
            (p.beatsPerMinute.Some? && p.beatsPerMinute.value != t.bpm ==>
               r.bpm == p.beatsPerMinute.value &&
               r.loopSamples == LoopSamples(t.loopBeats, t.rate, p.beatsPerMinute.value)) &&
            (p.beatsPerMinute.None? || p.beatsPerMinute.value == t.bpm ==>
               r.bpm == t.bpm && r.loopSamples == t.loopSamples)
  {
  }

  /** A position whose present properties all match the transport changes nothing. */
  lemma UnchangedPositionIsIgnored(t: Transport, p: Position)
    requires p.beatsPerMinute.None? || p.beatsPerMinute.value == t.bpm
    requires p.speed.None? || p.speed.value == t.speed
    requires p.barBeat.None? || Trunc(p.barBeat.value) == t.currentBb
    ensures UpdatePosition(t, p) == t
  {
  }

  /** Receiving the same position twice is the same as receiving it once. */
  lemma UpdatePositionIdempotent(t: Transport, p: Position)
    requires BpmSafe(t, p.beatsPerMinute)
    ensures BpmSafe(UpdatePosition(t, p), p.beatsPerMinute)
    ensures UpdatePosition(UpdatePosition(t, p), p) == UpdatePosition(t, p)
  {
  }
}
