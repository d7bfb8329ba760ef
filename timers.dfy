/** The host event loop's timer table, as the toggler sees it through
    setTimeout and clearTimeout. Time is an explicit `now` argument; a timer
    fires when the host calls Fire at or after its due time. */
module Timers {

  /** A timer handle. Live handles are positive and never reused, so 0 (the
      handle of an empty throttle slot) never names a live timer. */
  type TimerId = nat

  datatype Option<T> = None | Some(value: T)

  /** A scheduled callback and the time it is due. */
  datatype Timer<A> = Timer(due: int, callback: A)

  /** The delay setTimeout actually waits: a negative delay is taken as 0. */
  function Clamp(delay: int): (d: nat)
    ensures d >= delay
    ensures delay >= 0 ==> d == delay
    ensures delay < 0 ==> d == 0
  {
    if delay < 0 then 0 else delay
  }

  class Host<A> {
    var pending: map<TimerId, Timer<A>>
    var nextId: TimerId

    ghost predicate Valid()
      reads this
    {
      0 < nextId && forall t :: t in pending ==> 0 < t < nextId
    }

    constructor ()
      ensures Valid() && pending == map[] && nextId == 1
    {
      pending := map[];
      nextId := 1;
    }

    /** setTimeout(callback, delay): a fresh handle, due `delay` ms from now. */
    method SetTimeout(callback: A, now: int, delay: int) returns (t: TimerId)
      requires Valid()
      modifies this
      ensures Valid()
      ensures t == old(nextId) && t !in old(pending) && nextId == old(nextId) + 1
      ensures pending == old(pending)[t := Timer(now + Clamp(delay), callback)]
    {
      t := nextId;
      pending := pending[t := Timer(now + Clamp(delay), callback)];
      nextId := nextId + 1;
    }

    /** clearTimeout(t): the timer no longer fires; an unknown handle is ignored. */
    method ClearTimeout(t: TimerId)
      requires Valid()
      modifies this
      ensures Valid()
      ensures pending == old(pending) - {t} && nextId == old(nextId)
    {
      pending := pending - {t};
    }

    /** The event loop runs timer `t` at time `now`: only a live timer that is
        due runs, and it runs once. */
    method Fire(t: TimerId, now: int) returns (callback: Option<A>)
      requires Valid()
      modifies this
      ensures Valid() && nextId == old(nextId)
      ensures if t in old(pending) && old(pending)[t].due <= now
              then callback == Some(old(pending)[t].callback) && pending == old(pending) - {t}
              else callback == None && pending == old(pending)
    {
      if t in pending && pending[t].due <= now {
        callback := Some(pending[t].callback);
        pending := pending - {t};
      } else {
        callback := None;
      }
    }
  }
}
