/** Interrupt coalescing with EVENT_IDX: GetBuf asks for an interrupt on the
    next completion, the end of Harvest for one on the last of those in flight.
    Counters are unbounded here; what the device compares is 16 bits wide. */
module Coalesce {
  import opened Types
  import opened Counters

  /** Where the one harvester is.  The lock is held at `AtRing` (about to call
      GetBuf) and `Drained` (GetBuf found nothing, coalescing comes next). */
  datatype Phase = Outside | AtRing | Holding | Released | Drained

  /** `posted` requests have been queued, `used` completed, `last` harvested;
      `event` is the used_event word and `pending` an interrupt not yet acted
      on. */
  datatype State = State(posted: nat, used: nat, last: nat, occupied: nat, event: uint16, pending: bool, phase: Phase)

  /** The device's test for having passed `event`, VirtIO 1.2 section 2.7.7:
      all three quantities are 16-bit differences. */
  predicate Crosses(event: uint16, before: nat, after: nat)
  {
    (after - event - 1) % WRAP < (after - before) % WRAP
  }

  datatype Step = Submit | Publish(count: nat) | Wake | GetBuf | Close | Reacquire | FindEmpty | CoalesceStep

  predicate LockFree(p: Phase) { p.Outside? || p.Holding? || p.Released? }

  predicate Enabled(s: State, step: Step, num: nat)
  {
    match step
    case Submit => LockFree(s.phase) && s.posted - s.last < num
    case Publish(count) => count > 0 && s.used + count <= s.posted
    case Wake => s.phase.Outside?
    case GetBuf => s.phase.AtRing? && s.last < s.used
    case Close => s.phase.Holding?
    case Reacquire => s.phase.Released?
    case FindEmpty => s.phase.AtRing? && s.last == s.used
    case CoalesceStep => s.phase.Drained?
  }

  function Override(last: nat, occupied: nat, event: uint16): uint16
  {
    if occupied % WRAP >= 2 then Wrap(last + (occupied % WRAP - 1)) else event
  }

  function Next(s: State, step: Step): State
  {
    match step
    case Submit => s.(posted := s.posted + 1, occupied := s.occupied + 1)
    case Publish(count) =>
      s.(used := s.used + count, pending := s.pending || Crosses(s.event, s.used, s.used + count))
    case Wake => s.(phase := AtRing, pending := false)
    case GetBuf => s.(last := s.last + 1, event := Wrap(s.last + 1), phase := Holding)
    case Close => s.(occupied := if s.occupied > 0 then s.occupied - 1 else 0, phase := Released)
    case Reacquire => s.(phase := AtRing)
    case FindEmpty => s.(phase := Drained)
    case CoalesceStep => s.(event := Override(s.last, s.occupied, s.event), phase := Outside)
  }

  const START := State(0, 0, 0, 0, 0, false, Outside)

  /** The event is `offset` completions past those harvested. */
  predicate Aims(s: State, offset: nat)
  {
    && s.event == Wrap(s.last + offset)
    && (offset == 0 || s.last + offset < s.posted)
    && (s.used <= s.last + offset || s.pending || s.phase in {AtRing, Holding, Released})
  }

  ghost predicate Inv(s: State, num: nat)
  {
    && s.last <= s.used <= s.posted <= s.last + num
    && s.occupied == s.posted - s.last + (if s.phase.Holding? then 1 else 0)
    && (s.phase.Drained? || s.phase.Outside? || s.phase.AtRing? || s.event == Wrap(s.last))
    && exists offset: nat :: Aims(s, offset)
  }

  /** While the event lies within reach and has not been passed, the device's
      16-bit test is exactly "the event has now been passed", over any number of
      wraps of the counters. */
  lemma CrossesExactly(last: nat, offset: nat, before: nat, after: nat)
    requires last <= before < after <= last + 0x8000 && offset < 0x8000
    requires before <= last + offset
    ensures Crosses(Wrap(last + offset), before, after) <==> after > last + offset
  {
    var aim := last + offset;
    var event := Wrap(aim);
    var wraps := aim / WRAP;
    assert aim == WRAP * wraps + event;
    var gap := after - aim - 1;
    assert after - event - 1 == gap + WRAP * wraps;
    assert (gap + WRAP * wraps) % WRAP == gap % WRAP;
  }

  lemma StepKeepsInv(s: State, step: Step, num: nat)
    requires Inv(s, num) && Enabled(s, step, num) && num <= 0x8000
    ensures Inv(Next(s, step), num)
  {
    var offset: nat :| Aims(s, offset);
    var s' := Next(s, step);
    match step
    case Publish(count) =>
      if s.used <= s.last + offset {
        CrossesExactly(s.last, offset, s.used, s'.used);
      }
      assert Aims(s', offset);
    case GetBuf =>
      assert Aims(s', 0);
    case CoalesceStep =>
      if s.occupied >= 2 {
        assert Aims(s', (s.occupied - 1) as nat);
      } else {
        assert Aims(s', offset);
      }
    case _ =>
      assert Aims(s', offset);
  }

  // ---------------------------------------------------------------------
  // Runs
  // ---------------------------------------------------------------------

  ghost predicate Follows(run: seq<State>, k: nat, num: nat)
    requires k + 1 < |run|
  {
    exists step :: Enabled(run[k], step, num) && run[k + 1] == Next(run[k], step)
  }

  /** One harvester, the device and any number of submitters, interleaved. */
  ghost predicate IsRun(run: seq<State>, num: nat)
  {
    run != [] && run[0] == START && forall k | 0 <= k < |run| - 1 :: Follows(run, k, num)
  }

  lemma {:induction false} RunInv(run: seq<State>, num: nat)
    requires IsRun(run, num) && num <= 0x8000
    ensures Inv(run[|run| - 1], num)
  {
    var k := |run| - 1;
    if k == 0 {
      assert Aims(START, 0);
    } else {
      var before := run[..k];
      assert forall j | 0 <= j < k - 1 :: Follows(run, j, num) ==> Follows(before, j, num);
      RunInv(before, num);
      assert Follows(run, k - 1, num);
      var step :| Enabled(run[k - 1], step, num) && run[k] == Next(run[k - 1], step);
      StepKeepsInv(run[k - 1], step, num);
    }
  }

  /** Whenever the harvester is outside with requests outstanding, an interrupt
      is already pending or the event is aimed at one of the outstanding
      completions and not yet passed. */
  lemma NoLostInterrupt(run: seq<State>, num: nat)
    requires IsRun(run, num) && num <= 0x8000
    requires run[|run| - 1].phase.Outside? && run[|run| - 1].last < run[|run| - 1].posted
    ensures var s := run[|run| - 1];
            var offset := (s.event - s.last) % WRAP;
            s.pending || (offset < s.posted - s.last && s.used <= s.last + offset)
  {
    var s := run[|run| - 1];
    RunInv(run, num);
    var offset: nat :| Aims(s, offset);
    var wraps := (s.last + offset) / WRAP;
    assert s.last + offset == WRAP * wraps + s.event;
    assert s.event - s.last == offset + WRAP * -wraps;
    assert (offset + WRAP * -wraps) % WRAP == offset;
  }

  /** The device working alone, publishing completions in batches. */
  function PublishAll(s: State, batches: seq<nat>): State
    decreases |batches|
  {
    if batches == [] then s else PublishAll(Next(s, Publish(batches[0])), batches[1..])
  }

  function Sum(batches: seq<nat>): nat { if batches == [] then 0 else batches[0] + Sum(batches[1..]) }

  /** So the wait always ends: however the device batches its completions, once
      it has made all those outstanding an interrupt is pending. */
  lemma {:induction false} SomeCompletionInterrupts(s: State, batches: seq<nat>, offset: nat)
    requires s.last <= s.used <= s.posted <= s.last + 0x8000 && s.phase.Outside?
    requires s.pending || (s.event == Wrap(s.last + offset) && s.used <= s.last + offset < s.posted)
    requires (forall i | 0 <= i < |batches| :: batches[i] > 0) && s.used + Sum(batches) == s.posted
    ensures PublishAll(s, batches).pending
    decreases |batches|
  {
    if batches != [] {
      var s' := Next(s, Publish(batches[0]));
      if !s.pending {
        CrossesExactly(s.last, offset, s.used, s'.used);
      }
      SomeCompletionInterrupts(s', batches[1..], offset);
    }
  }

  function OneByOne(s: State, n: nat): State
  {
    if n == 0 then s else var t := OneByOne(s, n - 1); Next(t, Publish(1))
  }

  /** With `occupied` requests counted and none completed, coalescing puts the
      interrupt exactly at completion number `occupied`. */
  lemma {:induction false} InterruptAtLast(s: State, n: nat)
    requires s.phase.Drained? && s.used == s.last && !s.pending
    requires 2 <= s.occupied <= 0x8000 && n <= 0x8000
    ensures var t := OneByOne(Next(s, CoalesceStep), n);
            && t.used == s.used + n && t.last == s.last && t.event == Wrap(s.last + s.occupied - 1)
            && (t.pending <==> n >= s.occupied)
  {
    if n > 0 {
      InterruptAtLast(s, n - 1);
      if n <= s.occupied {
        CrossesExactly(s.last, s.occupied - 1, s.used + n - 1, s.used + n);
      }
    }
  }

  /** The count must be right for that.  When Harvest coalesces with nothing
      completed, all the outstanding completions together raise an interrupt if
      and only if `occupied` does not exceed their number. */
  lemma CoalescingNeedsTrueCount(s: State)
    requires s.phase.Drained? && s.used == s.last && !s.pending
    requires 2 <= s.occupied <= 0x8000 && s.last < s.posted <= s.last + 0x8000
    ensures OneByOne(Next(s, CoalesceStep), s.posted - s.last).pending <==> s.occupied <= s.posted - s.last
  {
    InterruptAtLast(s, s.posted - s.last);
  }

  /** A harvester that stops before the ring is empty, as a DoIO does at its own
      cookie, leaves the event at the number harvested.  However the device
      batches the rest, its completions raise an interrupt if and only if none
      had been made before the harvester stopped. */
  lemma StoppingNeedsEmptyRing(s: State, batches: seq<nat>)
    requires s.phase.Outside? && !s.pending && s.event == Wrap(s.last)
    requires s.last <= s.used && s.last < s.posted <= s.last + 0x8000
    requires (forall i | 0 <= i < |batches| :: batches[i] > 0) && s.used + Sum(batches) == s.posted
    ensures PublishAll(s, batches).pending <==> s.used == s.last
  {
    if s.used == s.last {
      SomeCompletionInterrupts(s, batches, 0);
    } else {
      PassedIsSilent(s, batches);
    }
  }

  /** Once the event has been passed nothing interrupts. */
  lemma {:induction false} PassedIsSilent(s: State, batches: seq<nat>)
    requires !s.pending && s.event == Wrap(s.last) && s.last < s.used <= s.posted <= s.last + 0x8000
    requires (forall i | 0 <= i < |batches| :: batches[i] > 0) && s.used + Sum(batches) == s.posted
    ensures !PublishAll(s, batches).pending
    decreases |batches|
  {
    if batches != [] {
      AlreadyPassed(s.last, s.used, s.used + batches[0]);
      PassedIsSilent(Next(s, Publish(batches[0])), batches[1..]);
    }
  }

  lemma AlreadyPassed(last: nat, before: nat, after: nat)
    requires last < before < after <= last + 0x8000
    ensures !Crosses(Wrap(last), before, after)
  {
    var gap, wraps := after - last - 1, last / WRAP;
    assert after - Wrap(last) - 1 == gap + WRAP * wraps;
    assert (gap + WRAP * wraps) % WRAP == gap;
  }
}
