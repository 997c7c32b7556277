/** The barcode frame lifecycle store (ios/BarcodeFrameManager.swift).

    The manager keeps one `BarcodeFrame` per decoded payload. Each detection
    update is authoritative: it refreshes the payloads it names and drops
    every other one at once. A cleanup timer is the safety net for when
    updates stop: when it fires it drops the frames not seen for
    `frameTimeout` seconds and re-arms itself while frames remain.

    Time is explicit: every operation that reads the clock takes `now`
    (seconds). The cleanup timer is its pending fire time, so there is at
    most one pending timer by construction. Notifications to the delegate
    and the callback are recorded, in order, in a ghost log. */
module FrameLifecycle {
  import opened BridgeValues
  import opened Models

  /** A frame is stale at `now` once `timeout` seconds have passed since it
      was last seen: from its expiry instant `lastSeenTime + timeout` on,
      and from then on for good. */
  predicate IsStale(f: BarcodeFrame, now: real, timeout: real): (stale: bool)
    ensures stale <==> now >= f.lastSeenTime + timeout
  {
    now - f.lastSeenTime >= timeout
  }

  /** A stale frame stays stale while it is not refreshed. */
  lemma StaleStaysStale(f: BarcodeFrame, now: real, later: real, timeout: real)
    requires IsStale(f, now, timeout) && later >= now
    ensures IsStale(f, later, timeout)
  {
  }

  /** The store an update leaves behind: exactly the detected payloads, each
      with its new rectangle, last seen `now`. */
  function Refreshed(frames: map<string, Rect>, now: real): (m: map<string, BarcodeFrame>)
    ensures m.Keys == frames.Keys
    ensures forall k :: k in m ==> m[k].rect == frames[k] && m[k].lastSeenTime == now
  {
    map k | k in frames :: BarcodeFrame(frames[k], now)
  }

  /** The store a cleanup pass leaves behind: every frame that is not stale,
      unchanged, and nothing else. */
  function WithoutStale(m: map<string, BarcodeFrame>, now: real, timeout: real): (r: map<string, BarcodeFrame>)
    ensures r.Keys <= m.Keys
    ensures forall k :: k in r ==> r[k] == m[k] && !IsStale(m[k], now, timeout)
    ensures forall k :: k in m && !IsStale(m[k], now, timeout) ==> k in r
  {
    map k | k in m && !IsStale(m[k], now, timeout) :: m[k]
  }

  predicate HasStale(m: map<string, BarcodeFrame>, now: real, timeout: real) {
    exists k :: k in m && IsStale(m[k], now, timeout)
  }

  /** The payloads whose frame shows rectangle `x`. */
  function KeysShowing(m: map<string, BarcodeFrame>, x: Rect): set<string> {
    set k | k in m && m[k].rect == x
  }

  /** `rects` lists the rectangles of `m`, one per tracked payload, in some
      order: each rectangle occurs as often as there are payloads showing it. */
  ghost predicate IsSnapshot(rects: seq<Rect>, m: map<string, BarcodeFrame>) {
    |rects| == |m.Keys| && forall x :: multiset(rects)[x] == |KeysShowing(m, x)|
  }

  class BarcodeFrameManager {
    /** The tracked frames, keyed by decoded payload. */
    var activeFrames: map<string, BarcodeFrame>
    /** How long (seconds) an unrefreshed frame survives. */
    const frameTimeout: real
    /** The fire time of the pending cleanup timer, if one is pending. */
    var cleanupTimer: Option<real>
    /** Every payload delivered to the observers, oldest first. */
    ghost var notifications: seq<seq<Rect>>

    /** No frame is tracked without a cleanup pending, and that cleanup
        fires no earlier than any tracked frame expires. */
    ghost predicate Valid()
      reads this
    {
      activeFrames != map[] ==>
        && cleanupTimer.Some?
        && forall k :: k in activeFrames ==> activeFrames[k].lastSeenTime + frameTimeout <= cleanupTimer.value
    }

    constructor (frameTimeout: real := 1.0)
      ensures Valid()
      ensures this.frameTimeout == frameTimeout
      ensures activeFrames == map[] && cleanupTimer == None && notifications == []
    {
      this.frameTimeout := frameTimeout;
      activeFrames := map[];
      cleanupTimer := None;
      notifications := [];
    }

    /** Replaces the tracked set by the detected one: refresh or add every
        detected payload, drop every other, arm the cleanup if frames remain,
        then notify once with the new rectangles. */
    method UpdateBarcodeFrames(frames: map<string, Rect>, now: real)
      requires Valid()
      modifies this
      ensures Valid()
      ensures activeFrames == Refreshed(frames, now)
      ensures forall k :: k in old(activeFrames) && k !in frames ==> k !in activeFrames
      ensures cleanupTimer == if frames != map[] then Some(now + frameTimeout) else old(cleanupTimer)
      ensures |notifications| == |old(notifications)| + 1
      ensures notifications[..|old(notifications)|] == old(notifications)
      ensures IsSnapshot(notifications[|old(notifications)|], activeFrames)
    {
      RefreshDetected(frames, now);
      RemoveUndetected(frames);
      RefreshedIsUnique(activeFrames, frames, now);
      if activeFrames != map[] {
        ScheduleCleanup(now);
      }
      NotifyFramesChanged();
    }

    /** Update step 1: every detected payload gets its detected rectangle,
        last seen `now`, whether it was tracked before or not. */
    method RefreshDetected(frames: map<string, Rect>, now: real)
      modifies this`activeFrames
      ensures activeFrames.Keys == old(activeFrames).Keys + frames.Keys
      ensures forall k :: k in frames ==> activeFrames[k] == BarcodeFrame(frames[k], now)
      ensures forall k :: k in old(activeFrames) && k !in frames ==> activeFrames[k] == old(activeFrames)[k]
    {
      var pending := frames.Keys;
      while pending != {}
        invariant pending <= frames.Keys
        invariant activeFrames.Keys == old(activeFrames).Keys + (frames.Keys - pending)
        invariant forall k :: k in frames && k !in pending ==> activeFrames[k] == BarcodeFrame(frames[k], now)
        invariant forall k :: k in old(activeFrames) && k !in frames ==> activeFrames[k] == old(activeFrames)[k]
        decreases pending
      {
        var k :| k in pending;
        activeFrames := activeFrames[k := BarcodeFrame(frames[k], now)];
        pending := pending - {k};
      }
    }

    /** Update step 2: every payload missing from the detection is dropped;
        the others keep their frames. */
    method RemoveUndetected(frames: map<string, Rect>)
      modifies this`activeFrames
      ensures activeFrames.Keys == old(activeFrames).Keys * frames.Keys
      ensures forall k :: k in activeFrames ==> activeFrames[k] == old(activeFrames)[k]
    {
      var absent := activeFrames.Keys - frames.Keys;
      while absent != {}
        invariant absent <= old(activeFrames).Keys
        invariant activeFrames.Keys == (old(activeFrames).Keys * frames.Keys) + absent
        invariant forall k :: k in activeFrames ==> activeFrames[k] == old(activeFrames)[k]
        decreases absent
      {
        var k :| k in absent;
        activeFrames := activeFrames - {k};
        absent := absent - {k};
      }
    }

    /** A snapshot of the tracked rectangles, one per payload; the store is
        left as it is. */
    method GetActiveFrames() returns (rects: seq<Rect>)
      ensures IsSnapshot(rects, activeFrames)
    {
      var m := activeFrames;
      rects := [];
      var pending := m.Keys;
      while pending != {}
        invariant pending <= m.Keys
        invariant |rects| + |pending| == |m.Keys|
        invariant CollectedExcept(rects, m, pending)
        decreases pending
      {
        var k :| k in pending;
        CollectStep(rects, m, pending, k);
        rects := rects + [m[k].rect];
        pending := pending - {k};
      }
      assert forall x :: KeysShowing(m, x) - {} == KeysShowing(m, x);
    }

    /** Empties the store and cancels the pending cleanup, then notifies the
        observers (with no rectangles). */
    method ClearAllFrames()
      modifies this
      ensures Valid()
      ensures activeFrames == map[] && cleanupTimer == None
      ensures notifications == old(notifications) + [[]]
    {
      cleanupTimer := None;
      activeFrames := map[];
      NotifyFramesChanged();
    }

    /** Stops the timer and releases the frames; observers are not told. */
    method Shutdown()
      modifies this
      ensures Valid()
      ensures activeFrames == map[] && cleanupTimer == None
      ensures notifications == old(notifications)
    {
      cleanupTimer := None;
      activeFrames := map[];
    }

    /** Cancels any pending cleanup and arms a new one `frameTimeout` from
        `now`: there is never more than one. */
    method ScheduleCleanup(now: real)
      modifies this`cleanupTimer
      ensures cleanupTimer == Some(now + frameTimeout)
    {
      cleanupTimer := None;
      cleanupTimer := Some(now + frameTimeout);
    }

    /** The cleanup timer firing at `now`: drop the stale frames, notify only
        if something was dropped, and re-arm only if frames remain. Only a
        pending timer fires, at or after its fire time, so a cancelled one
        never does. */
    method CleanupStaleFrames(now: real)
      requires Valid()
      requires cleanupTimer.Some? && now >= cleanupTimer.value
      modifies this
      ensures Valid()
      ensures activeFrames == WithoutStale(old(activeFrames), now, frameTimeout)
      ensures HasStale(old(activeFrames), now, frameTimeout) ==>
                |notifications| == |old(notifications)| + 1
                && notifications[..|old(notifications)|] == old(notifications)
                && IsSnapshot(notifications[|old(notifications)|], activeFrames)
      ensures !HasStale(old(activeFrames), now, frameTimeout) ==> notifications == old(notifications)
      ensures cleanupTimer == if activeFrames != map[] then Some(now + frameTimeout) else None
      ensures activeFrames == map[]
    {
      // The timer that fired is no longer pending.
      cleanupTimer := None;
      var pending := activeFrames.Keys;
      var removed := false;
      while pending != {}
        invariant pending <= old(activeFrames).Keys
        invariant activeFrames == map k | k in old(activeFrames)
                    && (k in pending || !IsStale(old(activeFrames)[k], now, frameTimeout)) :: old(activeFrames)[k]
        invariant removed <==> exists k :: k in old(activeFrames) && k !in pending
                                 && IsStale(old(activeFrames)[k], now, frameTimeout)
        invariant cleanupTimer == None && notifications == old(notifications)
        decreases pending
      {
        var k :| k in pending;
        if IsStale(activeFrames[k], now, frameTimeout) {
          activeFrames := activeFrames - {k};
          removed := true;
        }
        pending := pending - {k};
      }
      assert activeFrames == WithoutStale(old(activeFrames), now, frameTimeout);
      if removed {
        NotifyFramesChanged();
      }
      if activeFrames != map[] {
        ScheduleCleanup(now);
      }
    }

    /** Delivers the current rectangles to the observers. */
    method NotifyFramesChanged()
      modifies this`notifications
      ensures |notifications| == |old(notifications)| + 1
      ensures notifications[..|old(notifications)|] == old(notifications)
      ensures IsSnapshot(notifications[|old(notifications)|], activeFrames)
    {
      var rects := GetActiveFrames();
      notifications := notifications + [rects];
    }
  }

  // ---------------------------------------------------------------------
  // Properties of the specification functions
  // ---------------------------------------------------------------------

  /** A store holding exactly the detected payloads, each with its detected
      rectangle and last seen `now`, is the refreshed store. */
  lemma RefreshedIsUnique(m: map<string, BarcodeFrame>, frames: map<string, Rect>, now: real)
    requires m.Keys == frames.Keys
    requires forall k :: k in frames ==> m[k] == BarcodeFrame(frames[k], now)
    ensures m == Refreshed(frames, now)
  {
  }

  /** `rects` lists the rectangles of every payload of `m` not in `pending`. */
  ghost predicate CollectedExcept(rects: seq<Rect>, m: map<string, BarcodeFrame>, pending: set<string>) {
    forall x :: multiset(rects)[x] == |KeysShowing(m, x) - pending|
  }

  /** Collecting payload `k` keeps `CollectedExcept`. */
  lemma CollectStep(rects: seq<Rect>, m: map<string, BarcodeFrame>, pending: set<string>, k: string)
    requires k in pending && pending <= m.Keys
    requires CollectedExcept(rects, m, pending)
    ensures CollectedExcept(rects + [m[k].rect], m, pending - {k})
  {
    forall x ensures multiset(rects + [m[k].rect])[x] == |KeysShowing(m, x) - (pending - {k})| {
      ShowingStep(m, pending, k, x);
    }
  }

  /** Taking payload `k` out of the pending set adds one to the count of
      its own rectangle and leaves every other count alone. */
  lemma ShowingStep(m: map<string, BarcodeFrame>, pending: set<string>, k: string, x: Rect)
    requires k in pending && pending <= m.Keys
    ensures |KeysShowing(m, x) - (pending - {k})|
            == |KeysShowing(m, x) - pending| + (if m[k].rect == x then 1 else 0)
  {
    var done := KeysShowing(m, x) - pending;
    if m[k].rect == x {
      assert KeysShowing(m, x) - (pending - {k}) == done + {k};
      assert k !in done;
    } else {
      assert KeysShowing(m, x) - (pending - {k}) == done;
    }
  }

  /** A snapshot holds a rectangle exactly when some tracked payload shows it. */
  lemma SnapshotMembership(rects: seq<Rect>, m: map<string, BarcodeFrame>, x: Rect)
    requires IsSnapshot(rects, m)
    ensures x in rects <==> exists k :: k in m && m[k].rect == x
  {
    if x in rects {
      assert multiset(rects)[x] > 0;
      var k :| k in KeysShowing(m, x);
    }
    if exists k :: k in m && m[k].rect == x {
      var k :| k in m && m[k].rect == x;
      assert k in KeysShowing(m, x);
      assert multiset(rects)[x] > 0;
    }
  }

  /** Two snapshots of one store hold the same rectangles, as often each:
      only their order may differ. */
  lemma SnapshotIsUniqueUpToOrder(r1: seq<Rect>, r2: seq<Rect>, m: map<string, BarcodeFrame>)
    requires IsSnapshot(r1, m) && IsSnapshot(r2, m)
    ensures multiset(r1) == multiset(r2)
  {
    forall x ensures multiset(r1)[x] == multiset(r2)[x] {
    }
  }

  /** The only snapshot of an empty store is the empty list. */
  lemma SnapshotOfEmpty(rects: seq<Rect>)
    ensures IsSnapshot(rects, map[]) <==> rects == []
  {
    if rects != [] {
      assert multiset(rects)[rects[0]] > 0;
      assert KeysShowing(map[], rects[0]) == {};
    }
  }

  /** A cleanup pass sooner than `timeout` after an update removes nothing. */
  lemma NoPrematureExpiry(frames: map<string, Rect>, seen: real, now: real, timeout: real)
    requires now - seen < timeout
    ensures WithoutStale(Refreshed(frames, seen), now, timeout) == Refreshed(frames, seen)
    ensures !HasStale(Refreshed(frames, seen), now, timeout)
  {
  }

  /** A cleanup pass `timeout` or more after the last update removes every
      frame of that update. */
  lemma ExpiryAfterTimeout(frames: map<string, Rect>, seen: real, now: real, timeout: real)
    requires now - seen >= timeout
    ensures WithoutStale(Refreshed(frames, seen), now, timeout) == map[]
    ensures frames != map[] ==> HasStale(Refreshed(frames, seen), now, timeout)
  {
    if frames != map[] {
      var k :| k in frames;
      assert k in Refreshed(frames, seen);
    }
  }

  /** A second cleanup pass at the same moment changes nothing. */
  lemma WithoutStaleIsIdempotent(m: map<string, BarcodeFrame>, now: real, timeout: real)
    ensures WithoutStale(WithoutStale(m, now, timeout), now, timeout) == WithoutStale(m, now, timeout)
    ensures !HasStale(WithoutStale(m, now, timeout), now, timeout)
  {
  }

  /** A two-update scenario: X seen at 0 and again at 0.5, Y first seen at
      0.5, nothing after. The timer armed at 0.5 fires at 1.5, drops both
      and reports an empty set. */
  method ExpiryScenario()
  {
    var manager := new BarcodeFrameManager();
    var x, y := Rect(0.0, 0.0, 10.0, 10.0), Rect(5.0, 5.0, 10.0, 10.0);
    manager.UpdateBarcodeFrames(map["X" := x], 0.0);
    assert manager.cleanupTimer == Some(1.0);
    manager.UpdateBarcodeFrames(map["X" := x, "Y" := y], 0.5);
    assert manager.cleanupTimer == Some(1.5);
    var seen := manager.GetActiveFrames();
    SnapshotMembership(seen, manager.activeFrames, y);
    assert manager.activeFrames["Y"].rect == y;
    assert y in seen;
    ghost var logged := |manager.notifications|;
    assert logged == 2;
    assert IsStale(manager.activeFrames["X"], 1.5, manager.frameTimeout);
    manager.CleanupStaleFrames(1.5);
    assert manager.activeFrames == map[];
    assert manager.cleanupTimer == None;
    SnapshotOfEmpty(manager.notifications[logged]);
    assert manager.notifications[logged] == [];
  }
}
