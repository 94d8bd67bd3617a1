/**
  Telling a tap from a double tap. The clock is an input: `now` is the time
  read when the tap arrives and `later` the time read when `lastTap` is
  updated at the end of the handler. Timers are numbered; the single-tap
  callback of a timer runs when the host fires it.
 */
module DoubleTap {
  import opened Wrappers

  const DefaultThreshold: int := 300

  /** The callbacks that have run, in order. */
  datatype Callback = OnDoubleTap | OnTap

  /** A tap is a double tap exactly when the previous one was strictly earlier and at most `threshold` before. */
  predicate IsDoubleTap(now: int, lastTap: int, threshold: int) {
    var timeFromLastTap := now - lastTap;
    timeFromLastTap <= threshold && timeFromLastTap > 0
  }

  class DoubleTap {
    /** The ref `lastTap`. */
    var lastTap: int
    const tapThreshold: int
    /** Whether `onDoubleTap` and `onTap` were given; each is called through `?.`. */
    const hasOnDoubleTap: bool
    const hasOnTap: bool
    /** The ref `timeout`: the last timer scheduled, if any. */
    var timeout: Option<nat>
    /** The timers scheduled and neither cleared nor fired. */
    var pending: set<nat>
    /** The next timer number the host hands out (ids are positive, so always truthy). */
    var nextTimer: nat
    /** The callbacks run so far. */
    var log: seq<Callback>

    /** At most one single-tap callback is pending, and it is the one `timeout` holds. */
    ghost predicate Valid()
      reads this
    {
      && (timeout.None? ==> pending == {})
      && (timeout.Some? ==> pending <= {timeout.value} && timeout.value < nextTimer)
      && nextTimer >= 1
    }

    /** `useDoubleTap({ onDoubleTap, onTap, tapThreshold = 300 })`. */
    constructor(hasOnDoubleTap: bool, hasOnTap: bool, tapThreshold: Option<int>)
      ensures Valid()
      ensures lastTap == 0 && this.tapThreshold == tapThreshold.GetOr(DefaultThreshold)
      ensures this.hasOnDoubleTap == hasOnDoubleTap && this.hasOnTap == hasOnTap
      ensures timeout.None? && pending == {} && log == []
    {
      lastTap := 0;
      this.tapThreshold := tapThreshold.GetOr(DefaultThreshold);
      this.hasOnDoubleTap := hasOnDoubleTap;
      this.hasOnTap := hasOnTap;
      timeout := None;
      pending := {};
      nextTimer := 1;
      log := [];
    }

    /** `handleTap`: cancel the pending single tap, then either report a double tap or schedule a single one. */
    method HandleTap(now: int, later: int)
      requires Valid()
      modifies this
      ensures Valid()
      ensures lastTap == later
      ensures IsDoubleTap(now, old(lastTap), tapThreshold) ==>
                log == old(log) + (if hasOnDoubleTap then [OnDoubleTap] else []) && pending == {} &&
                timeout == old(timeout)
      ensures !IsDoubleTap(now, old(lastTap), tapThreshold) ==>
                log == old(log) && timeout == Some(old(nextTimer)) && pending == {old(nextTimer)}
      ensures old(timeout).Some? ==> old(timeout).value !in pending
    {
      if timeout.Some? {
        pending := pending - {timeout.value};
      }
      var timeFromLastTap := now - lastTap;
      if timeFromLastTap <= tapThreshold && timeFromLastTap > 0 {
        if hasOnDoubleTap {
          log := log + [OnDoubleTap];
        }
      } else {
        timeout := Some(nextTimer);
        pending := pending + {nextTimer};
        nextTimer := nextTimer + 1;
      }
      lastTap := later;
    }

    /** The host fires a pending timer: the single-tap callback runs, if one was given. */
    method Fire(id: nat)
      requires Valid() && id in pending
      modifies this
      ensures Valid()
      ensures log == old(log) + (if hasOnTap then [OnTap] else []) && pending == {}
      ensures lastTap == old(lastTap) && timeout == old(timeout)
    {
      pending := pending - {id};
      if hasOnTap {
        log := log + [OnTap];
      }
    }

    /** The state invariant means at most one single-tap callback can be waiting. */
    lemma AtMostOnePending()
      requires Valid()
      ensures |pending| <= 1
    {
      if timeout.Some? {
        assert pending <= {timeout.value};
        SubsetOfSingleton(pending, timeout.value);
      }
    }
  }

  lemma SubsetOfSingleton(s: set<nat>, x: nat)
    requires s <= {x}
    ensures |s| <= 1
  {
    if s != {} {
      assert s == {x};
    }
  }
}
