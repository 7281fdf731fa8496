/**
 * Gapless scheduling of returned audio chunks (App.tsx): each chunk starts at
 * the later of the queue end `nextStart` and the output clock, and the queue
 * end then advances by the chunk's duration, at once rather than when the
 * chunk finishes.
 */
module Playback {

  /** A chunk as it reaches the scheduler: the output clock reading and the chunk's duration. */
  datatype Arrival = Arrival(now: real, duration: real)

  /** A chunk as it was started: its start time on the output clock and its duration. */
  datatype Slot = Slot(start: real, duration: real)

  function End(slot: Slot): real {
    slot.start + slot.duration
  }

  function Max(a: real, b: real): real {
    if a < b then b else a
  }

  /** The slots the chunks get, in arrival order, when the queue ends at `next`. */
  function Schedule(next: real, arrivals: seq<Arrival>): (slots: seq<Slot>)
    ensures |slots| == |arrivals|
    decreases |arrivals|
  {
    if arrivals == [] then []
    else
      var start := Max(next, arrivals[0].now);
      [Slot(start, arrivals[0].duration)] + Schedule(start + arrivals[0].duration, arrivals[1..])
  }

  /** The queue end after the chunks are scheduled. */
  function QueueEnd(next: real, arrivals: seq<Arrival>): (end: real)
    ensures next + Elapsed(arrivals) <= end
    decreases |arrivals|
  {
    if arrivals == [] then next
    else
      var start := Max(next, arrivals[0].now);
      QueueEnd(start + arrivals[0].duration, arrivals[1..])
  }

  /** Total duration of the chunks. */
  function Elapsed(arrivals: seq<Arrival>): real
    decreases |arrivals|
  {
    if arrivals == [] then 0.0 else arrivals[0].duration + Elapsed(arrivals[1..])
  }

  predicate NonNegativeDurations(arrivals: seq<Arrival>) {
    forall k :: 0 <= k < |arrivals| ==> 0.0 <= arrivals[k].duration
  }

  /**
   * Started chunks that keep the queue discipline: no negative duration,
   * each ending no later than the next one starts, and the last ending no
   * later than the queue end.
   */
  predicate Sequenced(slots: seq<Slot>, next: real)
    decreases |slots|
  {
    slots == [] ||
    (var last := slots[|slots| - 1];
     0.0 <= last.duration && End(last) <= next && Sequenced(slots[..|slots| - 1], last.start))
  }

  /** In a sequenced list every chunk ends before every later one starts, and before the queue end. */
  lemma {:induction false} SequencedNeverOverlaps(slots: seq<Slot>, next: real)
    requires Sequenced(slots, next)
    ensures forall i, j :: 0 <= i < j < |slots| ==> End(slots[i]) <= slots[j].start
    ensures forall i :: 0 <= i < |slots| ==> End(slots[i]) <= next
    decreases |slots|
  {
    if slots != [] {
      var init := slots[..|slots| - 1];
      var last := slots[|slots| - 1];
      SequencedNeverOverlaps(init, last.start);
      forall i, j | 0 <= i < j < |slots|
        ensures End(slots[i]) <= slots[j].start
      {
        assert slots[i] == init[i];
        if j < |init| {
          assert slots[j] == init[j];
        }
      }
      forall i | 0 <= i < |slots|
        ensures End(slots[i]) <= next
      {
        if i < |init| {
          assert slots[i] == init[i];
        }
      }
    }
  }

  /** A chunk started at or after the queue end, with a duration that is not negative, keeps the list sequenced. */
  lemma SequencedSnoc(slots: seq<Slot>, next: real, start: real, duration: real)
    requires Sequenced(slots, next) && next <= start && 0.0 <= duration
    ensures Sequenced(slots + [Slot(start, duration)], start + duration)
  {
    assert (slots + [Slot(start, duration)])[..|slots|] == slots;
  }

  /** Moving the queue end later keeps the list sequenced. */
  lemma SequencedLater(slots: seq<Slot>, next: real, later: real)
    requires Sequenced(slots, next) && next <= later
    ensures Sequenced(slots, later)
  {
  }

  /** Scheduling one more chunk appends one slot, at the later of the queue end and the clock. */
  lemma {:induction false} ScheduleSnoc(next: real, arrivals: seq<Arrival>, a: Arrival)
    ensures Schedule(next, arrivals + [a]) ==
            Schedule(next, arrivals) + [Slot(Max(QueueEnd(next, arrivals), a.now), a.duration)]
    ensures QueueEnd(next, arrivals + [a]) == Max(QueueEnd(next, arrivals), a.now) + a.duration
    decreases |arrivals|
  {
    if arrivals == [] {
      assert [a][1..] == [];
    } else {
      var start := Max(next, arrivals[0].now);
      assert (arrivals + [a])[1..] == arrivals[1..] + [a];
      ScheduleSnoc(start + arrivals[0].duration, arrivals[1..], a);
    }
  }

  /**
   * No chunk starts before its arrival on the clock or before the queue end
   * it found; each keeps its duration; consecutive chunks never overlap; and
   * the queue end is the end of the last chunk.
   */
  lemma {:induction false} ScheduleRespectsQueue(next: real, arrivals: seq<Arrival>)
    ensures forall k :: 0 <= k < |arrivals| ==>
              Schedule(next, arrivals)[k].start >= arrivals[k].now &&
              Schedule(next, arrivals)[k].duration == arrivals[k].duration
    ensures arrivals != [] ==> Schedule(next, arrivals)[0].start >= next
    ensures NonNegativeDurations(arrivals) ==>
              forall k :: 0 <= k < |arrivals| ==> Schedule(next, arrivals)[k].start >= next
    ensures forall k :: 0 <= k < |arrivals| - 1 ==>
              End(Schedule(next, arrivals)[k]) <= Schedule(next, arrivals)[k + 1].start
    ensures arrivals != [] ==> QueueEnd(next, arrivals) == End(Schedule(next, arrivals)[|arrivals| - 1])
    decreases |arrivals|
  {
    if arrivals != [] {
      var start := Max(next, arrivals[0].now);
      var rest := start + arrivals[0].duration;
      ScheduleRespectsQueue(rest, arrivals[1..]);
      var slots := Schedule(next, arrivals);
      assert slots == [Slot(start, arrivals[0].duration)] + Schedule(rest, arrivals[1..]);
      forall k | 0 < k < |arrivals|
        ensures slots[k] == Schedule(rest, arrivals[1..])[k - 1]
      {
      }
    }
  }

  /** With durations that are not negative, every chunk ends before every later chunk starts. */
  lemma {:induction false} ScheduleNeverOverlaps(next: real, arrivals: seq<Arrival>)
    requires NonNegativeDurations(arrivals)
    ensures forall i, j :: 0 <= i < j < |arrivals| ==>
              End(Schedule(next, arrivals)[i]) <= Schedule(next, arrivals)[j].start
    decreases |arrivals|
  {
    if arrivals != [] {
      var start := Max(next, arrivals[0].now);
      var rest := start + arrivals[0].duration;
      ScheduleNeverOverlaps(rest, arrivals[1..]);
      ScheduleRespectsQueue(rest, arrivals[1..]);
      var slots := Schedule(next, arrivals);
      var tail := Schedule(rest, arrivals[1..]);
      assert slots == [Slot(start, arrivals[0].duration)] + tail;
      forall i, j | 0 <= i < j < |arrivals|
        ensures End(slots[i]) <= slots[j].start
      {
        assert slots[j] == tail[j - 1];
        if i > 0 {
          assert slots[i] == tail[i - 1];
        }
      }
    }
  }

  /**
   * A burst: while no chunk arrives after the queue end it would find, every
   * chunk starts exactly at the queue end plus the durations of the chunks
   * before it.
   */
  lemma {:induction false} BurstIsBackToBack(next: real, arrivals: seq<Arrival>)
    requires forall k :: 0 <= k < |arrivals| ==> arrivals[k].now <= next + Elapsed(arrivals[..k])
    ensures forall k :: 0 <= k < |arrivals| ==> Schedule(next, arrivals)[k].start == next + Elapsed(arrivals[..k])
    decreases |arrivals|
  {
    if arrivals != [] {
      assert arrivals[..0] == [];
      var rest := next + arrivals[0].duration;
      var tail := arrivals[1..];
      forall k | 0 <= k < |tail|
        ensures tail[k].now <= rest + Elapsed(tail[..k])
      {
        assert arrivals[..k + 1][1..] == tail[..k];
      }
      BurstIsBackToBack(rest, tail);
      var slots := Schedule(next, arrivals);
      forall k | 0 <= k < |arrivals|
        ensures slots[k].start == next + Elapsed(arrivals[..k])
      {
        if k > 0 {
          assert arrivals[..k][1..] == tail[..k - 1];
          assert slots[k] == Schedule(rest, tail)[k - 1];
        }
      }
    }
  }

  /** Two half-second chunks arriving together at clock 10.0 start at 10.0 and 10.5. */
  lemma TwoChunksAtTen(next: real)
    requires next <= 10.0
    ensures Schedule(next, [Arrival(10.0, 0.5), Arrival(10.0, 0.5)]) == [Slot(10.0, 0.5), Slot(10.5, 0.5)]
    ensures QueueEnd(next, [Arrival(10.0, 0.5), Arrival(10.0, 0.5)]) == 11.0
  {
    var arrivals := [Arrival(10.0, 0.5), Arrival(10.0, 0.5)];
    assert arrivals[1..] == [Arrival(10.0, 0.5)];
    assert arrivals[1..][1..] == [];
  }
}
