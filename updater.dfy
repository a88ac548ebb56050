/** `FeedUpdater`: the polling loop. It keeps the tracked feeds, a busy flag
    and the handle of the last timer it set. Real time is not modelled: the
    browser's timer table is the set `pending` of handles that are set and have
    neither fired nor been cleared, `nextHandle` is the handle `setTimeout`
    hands out next (handles are positive, so a set handle is always truthy),
    and a timer that fires is the step `TimerFires`. `performUpdate` is split
    at its `await`: `PerformUpdate` runs up to it and returns the urls the
    update callback was called with; `CompleteUpdate` is the code after it,
    run once every callback promise has settled. */
module Updater {
  import opened Common

  const DefaultInterval: int := 5000

  /** A tracked feed; the updater only reads its `url`. */
  datatype TrackedFeed = TrackedFeed(url: string)

  /** How one callback promise settled, as `Promise.allSettled` reports it. */
  datatype Settled = Fulfilled(hasValue: bool) | Rejected(reason: string)

  /** `feeds.map(feed => feed.url)`: the urls, one per feed, in order. */
  function Urls(feeds: seq<TrackedFeed>): (urls: seq<string>)
    ensures |urls| == |feeds|
    ensures forall i :: 0 <= i < |feeds| ==> urls[i] == feeds[i].url
  {
    seq(|feeds|, i requires 0 <= i < |feeds| => feeds[i].url)
  }

  class FeedUpdater {
    const interval: int
    var timeoutId: Option<nat>
    var isUpdating: bool
    var feeds: seq<TrackedFeed>
    var pending: set<nat>
    var nextHandle: nat
    /** The urls whose callback promises the tick in flight awaits. */
    var awaiting: seq<string>

    ghost predicate Valid()
      reads this
    {
      && 0 < nextHandle
      && (forall h :: h in pending ==> 0 < h < nextHandle)
      && (timeoutId.Some? ==> 0 < timeoutId.value < nextHandle)
      && (isUpdating <==> awaiting != [])
    }

    /** The handle `stop()` can still clear. */
    ghost function Reachable(): set<nat>
      reads this
    {
      if timeoutId.Some? then {timeoutId.value} else {}
    }

    /** Live timers `stop()` can no longer reach: each one will still fire. */
    ghost function Orphans(): set<nat>
      reads this
    {
      pending - Reachable()
    }

    constructor (interval: int := DefaultInterval)
      ensures Valid()
      ensures this.interval == interval
      ensures timeoutId == None && !isUpdating && feeds == []
      ensures pending == {} && awaiting == []
    {
      this.interval := interval;
      timeoutId := None;
      isUpdating := false;
      feeds := [];
      pending := {};
      nextHandle := 1;
      awaiting := [];
    }

    /** Replaces the tracked feeds; a tick in flight is not affected. */
    method SetFeeds(newFeeds: seq<TrackedFeed>)
      modifies this
      ensures feeds == newFeeds
      ensures timeoutId == old(timeoutId) && isUpdating == old(isUpdating) && pending == old(pending)
      ensures nextHandle == old(nextHandle) && awaiting == old(awaiting)
    {
      feeds := newFeeds;
    }

    method AddFeed(feed: TrackedFeed)
      modifies this
      ensures feeds == old(feeds) + [feed]
      ensures timeoutId == old(timeoutId) && isUpdating == old(isUpdating) && pending == old(pending)
      ensures nextHandle == old(nextHandle) && awaiting == old(awaiting)
    {
      feeds := feeds + [feed];
    }

    /** Sets a new timer and records its handle, without clearing the old one:
        every timer that was live before becomes unreachable. */
    method ScheduleUpdate()
      requires Valid()
      modifies this
      ensures Valid()
      ensures timeoutId == Some(old(nextHandle)) && nextHandle == old(nextHandle) + 1
      ensures timeoutId.value !in old(pending)
      ensures pending == old(pending) + {timeoutId.value}
      ensures Orphans() == old(pending)
      ensures isUpdating == old(isUpdating) && feeds == old(feeds) && awaiting == old(awaiting)
    {
      timeoutId := Some(nextHandle);
      pending := pending + {nextHandle};
      nextHandle := nextHandle + 1;
    }

    /** Clears the recorded timer, if any, and forgets its handle. The busy
        flag, the feeds and any unreachable timer are left as they are. */
    method Stop()
      requires Valid()
      modifies this
      ensures Valid()
      ensures timeoutId == None
      ensures pending == old(Orphans()) && Orphans() == old(Orphans())
      ensures old(timeoutId) == None ==> pending == old(pending)
      ensures isUpdating == old(isUpdating) && feeds == old(feeds) && awaiting == old(awaiting)
      ensures nextHandle == old(nextHandle)
    {
      if timeoutId.Some? {
        pending := pending - {timeoutId.value};
        timeoutId := None;
      }
    }

    /** Stop, then schedule: exactly one reachable timer afterwards, and no
        timer added beside it. */
    method Start()
      requires Valid()
      modifies this
      ensures Valid()
      ensures timeoutId.Some? && timeoutId.value !in old(pending)
      ensures pending == old(Orphans()) + {timeoutId.value}
      ensures Orphans() == old(Orphans())
      ensures isUpdating == old(isUpdating) && feeds == old(feeds) && awaiting == old(awaiting)
    {
      Stop();
      ScheduleUpdate();
    }

    /** `performUpdate` up to its `await`. When busy or without feeds it only
        reschedules. Otherwise it raises the busy flag and calls the update
        callback once per feed, with the feed's url, in the order of `feeds`;
        `called` lists those urls. */
    method PerformUpdate() returns (called: seq<string>)
      requires Valid()
      modifies this
      ensures Valid()
      ensures feeds == old(feeds)
      ensures old(isUpdating) || old(feeds) == [] ==>
        && called == []
        && isUpdating == old(isUpdating) && awaiting == old(awaiting)
        && timeoutId == Some(old(nextHandle)) && timeoutId.value !in old(pending)
        && pending == old(pending) + {timeoutId.value}
      ensures !old(isUpdating) && old(feeds) != [] ==>
        && isUpdating
        && called == Urls(old(feeds)) && awaiting == called
        && timeoutId == old(timeoutId) && pending == old(pending)
    {
      if isUpdating || feeds == [] {
        ScheduleUpdate();
        called := [];
        return;
      }
      isUpdating := true;
      called := Urls(feeds);
      awaiting := called;
    }

    /** `performUpdate` after its `await`: whatever each callback settled to,
        the busy flag drops and a new timer is set. No rejection escapes. */
    method CompleteUpdate(results: seq<Settled>)
      requires Valid() && isUpdating && |results| == |awaiting|
      modifies this
      ensures Valid()
      ensures !isUpdating && awaiting == []
      ensures timeoutId.Some? && timeoutId.value !in old(pending)
      ensures pending == old(pending) + {timeoutId.value}
      ensures feeds == old(feeds)
    {
      isUpdating := false;
      awaiting := [];
      ScheduleUpdate();
    }

    /** The callback of the timer `h`: it leaves the timer table, then
        `performUpdate` runs. The recorded handle is not cleared. */
    method TimerFires(h: nat) returns (called: seq<string>)
      requires Valid() && h in pending
      modifies this
      ensures Valid()
      ensures feeds == old(feeds)
      ensures old(isUpdating) || old(feeds) == [] ==>
        && called == []
        && isUpdating == old(isUpdating) && awaiting == old(awaiting)
        && timeoutId.Some? && timeoutId.value !in old(pending)
        && pending == old(pending) - {h} + {timeoutId.value}
      ensures !old(isUpdating) && old(feeds) != [] ==>
        && isUpdating
        && called == Urls(old(feeds)) && awaiting == called
        && timeoutId == old(timeoutId) && pending == old(pending) - {h}
    {
      pending := pending - {h};
      called := PerformUpdate();
    }

    /** Does nothing while busy; otherwise runs `performUpdate` right away,
        without clearing the timer that is already set. */
    method ForceUpdate() returns (called: seq<string>)
      requires Valid()
      modifies this
      ensures Valid()
      ensures feeds == old(feeds)
      ensures old(isUpdating) ==>
        && called == []
        && timeoutId == old(timeoutId) && isUpdating && pending == old(pending) && awaiting == old(awaiting)
      ensures !old(isUpdating) && old(feeds) == [] ==>
        && called == [] && !isUpdating
        && timeoutId.Some? && timeoutId.value !in old(pending)
        && pending == old(pending) + {timeoutId.value}
      ensures !old(isUpdating) && old(feeds) != [] ==>
        && isUpdating
        && called == Urls(old(feeds)) && awaiting == called
        && timeoutId == old(timeoutId) && pending == old(pending)
    {
      if isUpdating {
        called := [];
        return;
      }
      called := PerformUpdate();
    }
  }

  /** However many times `start()` is called on a new updater, exactly one
      timer is live afterwards and it is the one `stop()` can clear. */
  method StartedRepeatedly(n: nat) returns (u: FeedUpdater)
    ensures u.Valid()
    ensures u.timeoutId.Some? && u.pending == {u.timeoutId.value}
    ensures !u.isUpdating
  {
    u := new FeedUpdater();
    u.Start();
    var i := 0;
    while i < n
      invariant 0 <= i <= n
      invariant u.Valid()
      invariant u.timeoutId.Some? && u.pending == {u.timeoutId.value}
      invariant !u.isUpdating
    {
      u.Start();
      i := i + 1;
    }
  }

  /** `forceUpdate()` with no feeds reschedules without clearing the timer
      `start()` set: after `stop()` that first timer is still live. */
  method ForceUpdateLeaksTimer() returns (u: FeedUpdater, leaked: nat)
    ensures u.Valid()
    ensures u.timeoutId == None && leaked in u.pending
  {
    u := new FeedUpdater();
    u.Start();
    leaked := u.timeoutId.value;
    var _ := u.ForceUpdate();
    u.Stop();
  }

  /** `forceUpdate()` while a timer is set starts a tick beside it; when the
      tick completes two timers are live, so polling runs twice as often. */
  method ForceUpdateDoublesTimers(feed: TrackedFeed) returns (u: FeedUpdater)
    ensures u.Valid()
    ensures |u.pending| == 2 && |u.Orphans()| == 1
  {
    u := new FeedUpdater();
    u.AddFeed(feed);
    u.Start();
    var first := u.timeoutId.value;
    var called := u.ForceUpdate();
    assert called == [feed.url];
    u.CompleteUpdate([Fulfilled(true)]);
    assert u.pending == {first, u.timeoutId.value};
  }

  /** For any busy updater, a `stop()` issued while the tick is in flight is
      undone when the tick completes: the `finally` block sets a new timer,
      records it, and that timer is live. */
  method StopDuringTickRestarts(u: FeedUpdater, results: seq<Settled>)
    requires u.Valid() && u.isUpdating && |results| == |u.awaiting|
    modifies u
    ensures u.Valid()
    ensures !u.isUpdating
    ensures u.timeoutId.Some? && u.timeoutId.value in u.pending
    ensures u.pending == old(u.Orphans()) + {u.timeoutId.value}
  {
    u.Stop();
    u.CompleteUpdate(results);
  }

  /** Two feeds, the timer fires, one callback fulfils and one rejects. The
      tick calls the callback for both urls in order, nothing escapes, the busy
      flag drops and exactly one new timer is live. A `stop()` issued while
      the tick was in flight is undone by the reschedule after the `await`. */
  method StopDuringTickIsUndone(a: TrackedFeed, b: TrackedFeed) returns (u: FeedUpdater, called: seq<string>)
    ensures u.Valid()
    ensures called == [a.url, b.url]
    ensures !u.isUpdating
    ensures u.timeoutId.Some? && u.pending == {u.timeoutId.value}
  {
    u := new FeedUpdater(1000);
    u.SetFeeds([a, b]);
    u.Start();
    called := u.TimerFires(u.timeoutId.value);
    u.Stop();
    assert u.pending == {};
    u.CompleteUpdate([Fulfilled(true), Rejected("networkError")]);
  }
}
