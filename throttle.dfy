/** The per-id throttle gate (throttle and the `throttles` table in
    denops/autocursor/main.ts). Each id has a slot holding the handle of the
    last timer it scheduled and the time of its last immediate run; a missing
    slot reads as [0, 0]. A call cancels the id's timer, then either runs the
    action at once (when more than delay + wait ms have passed since the last
    immediate run) or schedules it delay + wait ms from now. */
module Throttle {
  import opened Timers

  /** `throttles[id]`: [lastTimerId, lastTime]. */
  datatype Slot = Slot(timer: TimerId, lastTime: int)

  /** What a call does with the action: run it now, or leave it on `timer`. */
  datatype Outcome = RunNow | Deferred(timer: TimerId)

  /** A call's effect on its own slot and on the action. */
  datatype Decision = Decision(slot: Slot, outcome: Outcome)

  /** `throttles[id] || [0, 0]`. */
  function SlotOf(slots: map<string, Slot>, id: string): Slot {
    if id in slots then slots[id] else Slot(0, 0)
  }

  /** The branch taken for a slot `last` at time `now`; `nextTimer` is the handle
      setTimeout would return. */
  function Step(last: Slot, now: int, threshold: int, nextTimer: TimerId): (d: Decision)
    // the action runs at once exactly when more than `threshold` ms have passed
    // since the slot's stamp
    ensures d.outcome == RunNow <==> now - last.lastTime > threshold
    // an immediate run stamps `now` and leaves the (cancelled) handle in the slot
    ensures d.outcome == RunNow ==> d.slot == Slot(last.timer, now)
    // a deferral keeps the stamp and records the new timer's handle
    ensures d.outcome.Deferred? ==>
              d.outcome.timer == nextTimer && d.slot == Slot(nextTimer, last.lastTime)
  {
    if now - last.lastTime > threshold then Decision(Slot(last.timer, now), RunNow)
    else Decision(Slot(nextTimer, last.lastTime), Deferred(nextTimer))
  }

  /** The handle setTimeout returns after a call with outcome `o`: only a
      deferral takes one. */
  function NextHandle(o: Outcome, nextTimer: TimerId): TimerId {
    if o == RunNow then nextTimer else nextTimer + 1
  }

  /** The outcomes of successive calls on one id at times `nows`, the call at
      `nows[j]` with threshold `thresholds[j]` (its delay + wait); a deferral
      takes the handle `nextTimer` and the next one moves on, an immediate run
      takes none. */
  function Outcomes(last: Slot, nows: seq<int>, thresholds: seq<int>, nextTimer: TimerId): (r: seq<Outcome>)
    requires |thresholds| == |nows|
    ensures |r| == |nows|
    decreases |nows|
  {
    if nows == [] then []
    else
      var d := Step(last, nows[0], thresholds[0], nextTimer);
      [d.outcome] + Outcomes(d.slot, nows[1..], thresholds[1..], NextHandle(d.outcome, nextTimer))
  }

  predicate NonDecreasing(nows: seq<int>) {
    forall i, j :: 0 <= i < j < |nows| ==> nows[i] <= nows[j]
  }

  /** The first immediate run after a slot was stamped comes more than its own
      threshold after that stamp, whatever deferrals come before it. */
  lemma {:induction false} RunsAfterStamp(last: Slot, nows: seq<int>, thresholds: seq<int>, nextTimer: TimerId)
    requires |thresholds| == |nows|
    ensures var r := Outcomes(last, nows, thresholds, nextTimer);
            forall j :: 0 <= j < |nows| && r[j] == RunNow && (forall k :: 0 <= k < j ==> r[k] != RunNow) ==>
              nows[j] - last.lastTime > thresholds[j]
    decreases |nows|
  {
    if nows != [] {
      var d := Step(last, nows[0], thresholds[0], nextTimer);
      var next := NextHandle(d.outcome, nextTimer);
      var rest := Outcomes(d.slot, nows[1..], thresholds[1..], next);
      RunsAfterStamp(d.slot, nows[1..], thresholds[1..], next);
      var r := Outcomes(last, nows, thresholds, nextTimer);
      forall j | 0 <= j < |nows| && r[j] == RunNow && (forall k :: 0 <= k < j ==> r[k] != RunNow)
        ensures nows[j] - last.lastTime > thresholds[j]
      {
        if j > 0 {
          assert r[0] != RunNow;
          assert forall k :: 0 <= k < j - 1 ==> rest[k] == r[k + 1];
          assert nows[1..][j - 1] == nows[j] && thresholds[1..][j - 1] == thresholds[j];
        }
      }
    }
  }

  /** The throttle's promise: on one id, with a clock that does not run
      backwards, an immediate run comes more than its own delay + wait ms
      after every earlier immediate run, whatever the earlier calls' waits. */
  lemma {:induction false} ImmediateRunsSpaced(last: Slot, nows: seq<int>, thresholds: seq<int>, nextTimer: TimerId)
    requires |thresholds| == |nows|
    requires NonDecreasing(nows)
    ensures var r := Outcomes(last, nows, thresholds, nextTimer);
            forall i, j :: 0 <= i < j < |nows| && r[i] == RunNow && r[j] == RunNow ==>
              nows[j] - nows[i] > thresholds[j]
    decreases |nows|
  {
    if nows != [] {
      var d := Step(last, nows[0], thresholds[0], nextTimer);
      var next := NextHandle(d.outcome, nextTimer);
      var rest := Outcomes(d.slot, nows[1..], thresholds[1..], next);
      ImmediateRunsSpaced(d.slot, nows[1..], thresholds[1..], next);
      RunsAfterStamp(d.slot, nows[1..], thresholds[1..], next);
      var r := Outcomes(last, nows, thresholds, nextTimer);
      assert forall k :: 0 <= k < |rest| ==> rest[k] == r[k + 1];
      forall i, j | 0 <= i < j < |nows| && r[i] == RunNow && r[j] == RunNow
        ensures nows[j] - nows[i] > thresholds[j]
      {
        assert nows[1..][j - 1] == nows[j] && thresholds[1..][j - 1] == thresholds[j];
        if i > 0 {
          assert nows[1..][i - 1] == nows[i];
        } else if k :| 0 < k < j && r[k] == RunNow {
          // an immediate run in between restamped the slot
          assert nows[1..][k - 1] == nows[k];
          assert nows[0] <= nows[k];
        } else {
          // deferrals only: the slot still holds the stamp nows[0]
          assert forall k :: 0 <= k < j - 1 ==> rest[k] != RunNow;
        }
      }
    }
  }

  /** The gate: the `throttles` table over the host's timers. */
  class Gate<A> {
    var slots: map<string, Slot>
    const host: Host<A>

    /** Slot handles were all issued by the host, and two ids share a handle
        only when both hold 0 (no timer ever). */
    ghost predicate Valid()
      reads this, host
    {
      && host.Valid()
      && (forall k :: k in slots ==> slots[k].timer < host.nextId)
      && (forall k1, k2 :: k1 in slots && k2 in slots && k1 != k2 && slots[k1].timer == slots[k2].timer ==>
            slots[k1].timer == 0)
    }

    constructor (host: Host<A>)
      requires host.Valid()
      ensures Valid() && this.host == host && slots == map[]
    {
      this.host := host;
      slots := map[];
    }

    /** throttle(id, fn, delay, wait) at time `now`. */
    method Call(id: string, fn: A, now: int, delay: int, wait: int) returns (o: Outcome)
      requires Valid()
      modifies this, host
      ensures Valid()
      ensures var d := Step(SlotOf(old(slots), id), now, delay + wait, old(host.nextId));
              slots == old(slots)[id := d.slot] && o == d.outcome
      // only a deferral takes a handle from the host
      ensures host.nextId == NextHandle(o, old(host.nextId))
      // the id's previous timer is always cancelled
      ensures SlotOf(old(slots), id).timer !in host.pending
      ensures o == RunNow ==>
                host.pending == old(host.pending) - {SlotOf(old(slots), id).timer}
      ensures o.Deferred? ==>
                o.timer !in old(host.pending) &&
                host.pending == (old(host.pending) - {SlotOf(old(slots), id).timer})
                                [o.timer := Timer(now + Clamp(delay + wait), fn)]
      // other ids keep their slots and their pending timers
      ensures forall k :: k in old(slots) && k != id ==>
                k in slots && slots[k] == old(slots)[k] &&
                (old(slots)[k].timer in old(host.pending) ==>
                   old(slots)[k].timer in host.pending &&
                   host.pending[old(slots)[k].timer] == old(host.pending)[old(slots)[k].timer])
    {
      var last := SlotOf(slots, id);
      var lastTimerId := last.timer;
      var updateTime := now;
      var threshold := delay + wait;
      var elapsed := updateTime - last.lastTime;
      host.ClearTimeout(lastTimerId);
      if elapsed > threshold {
        o := RunNow;
      } else {
        lastTimerId := host.SetTimeout(fn, now, threshold);
        updateTime := last.lastTime;
        o := Deferred(lastTimerId);
      }
      slots := slots[id := Slot(lastTimerId, updateTime)];
    }
  }

  /** With a 300 ms window: a first call long after the epoch runs at once and
      stamps the slot; a call 50 ms later is deferred to 300 ms after itself,
      and a call for another id meanwhile runs at once without cancelling it. */
  method LeadingEdgeScenario() returns (first: Outcome, second: Outcome, other: Outcome, due: int)
    ensures first == RunNow && second.Deferred? && other == RunNow
    ensures due == 1350
    // the gate's first two calls on one id follow the trace function
    ensures [first, second] == Outcomes(Slot(0, 0), [1000, 1050], [300, 300], 1)
  {
    var host := new Host<int>();
    var gate := new Gate(host);
    first := gate.Call("cursorline", 1, 1000, 300, 0);
    second := gate.Call("cursorline", 2, 1050, 300, 0);
    other := gate.Call("cursorcolumn", 3, 1060, 300, 0);
    due := host.pending[second.timer].due;
    assert [1000, 1050][1..] == [1050] && [300, 300][1..] == [300];
  }
}
