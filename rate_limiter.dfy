// The gateway's per-sender rate limiter: for every sender, the times at
// which its recent messages were let through, most recent last. A message
// is let through when fewer than the channel's limit were let through in the
// minute before it. Time is seconds since the epoch, as a real, and is a
// parameter instead of a clock reading.

module RateLimit {
  import opened Text

  /** Length of the sliding window, in seconds. */
  const WindowSeconds: real := 60.0

  /** The timestamps of w later than the cutoff, in their order: the window after eviction. */
  function Recent(w: seq<real>, cutoff: real): (r: seq<real>)
    ensures |r| <= |w|
    ensures forall i :: 0 <= i < |r| ==> r[i] > cutoff
    decreases |w|
  {
    if w == [] then []
    else Recent(w[..|w| - 1], cutoff) + (if w[|w| - 1] > cutoff then [w[|w| - 1]] else [])
  }

  /** Eviction keeps exactly the timestamps later than the cutoff. */
  lemma {:induction false} RecentKeepsExactlyLater(w: seq<real>, cutoff: real, x: real)
    ensures x in Recent(w, cutoff) <==> x in w && x > cutoff
    decreases |w|
  {
    if w != [] {
      var init := w[..|w| - 1];
      RecentKeepsExactlyLater(init, cutoff, x);
      assert w == init + [w[|w| - 1]];
    }
  }

  /** Evicting twice, with a later second cutoff, is evicting once with the later cutoff. */
  lemma {:induction false} RecentTwice(w: seq<real>, c1: real, c2: real)
    requires c1 <= c2
    ensures Recent(Recent(w, c1), c2) == Recent(w, c2)
    decreases |w|
  {
    if w != [] {
      var init, last := w[..|w| - 1], w[|w| - 1];
      RecentTwice(init, c1, c2);
      var r1 := Recent(init, c1);
      if last > c1 {
        RecentSnoc(r1, last, c2);
      } else {
        assert r1 + [] == r1;
      }
    }
  }

  /** Eviction of a history with one more timestamp at its end. */
  lemma RecentSnoc(w: seq<real>, x: real, cutoff: real)
    ensures Recent(w + [x], cutoff) == Recent(w, cutoff) + (if x > cutoff then [x] else [])
  {
    assert (w + [x])[..|w|] == w;
  }

  /** The answer to one message, and the sender's window afterwards. */
  datatype Admission = Admission(allowed: bool, window: seq<real>)

  /** One decision of is_allowed for a positive limit: evict what is a minute old or older, deny
      without recording when the limit is already reached, otherwise record this message. */
  function Admit(w: seq<real>, limit: int, now: real): (a: Admission)
    requires limit > 0
    ensures a.allowed <==> |Recent(w, now - WindowSeconds)| < limit
    ensures a.allowed ==> a.window == Recent(w, now - WindowSeconds) + [now] && |a.window| <= limit
    ensures !a.allowed ==> a.window == Recent(w, now - WindowSeconds)
  {
    var kept := Recent(w, now - WindowSeconds);
    if |kept| >= limit then Admission(false, kept) else Admission(true, kept + [now])
  }

  /** A sender's window; a sender never seen has an empty one. */
  function WindowOf(windows: map<string, seq<real>>, sender: string): seq<real>
  {
    if sender in windows then windows[sender] else []
  }

  class SlidingWindowLimiter {
    /** sender -> times its recent messages were let through, oldest first */
    var windows: map<string, seq<real>>

    constructor()
      ensures windows == map[]
    {
      windows := map[];
    }

    /** is_allowed: a limit of zero or less lets everything through and records nothing;
        otherwise the sender's window is evicted and the message is admitted as Admit says. */
    method IsAllowed(sender: string, maxPerMinute: int, now: real) returns (ok: bool)
      modifies this
      ensures maxPerMinute <= 0 ==> ok && windows == old(windows)
      ensures maxPerMinute > 0 ==>
                var a := Admit(WindowOf(old(windows), sender), maxPerMinute, now);
                ok == a.allowed && windows == old(windows)[sender := a.window]
      ensures maxPerMinute > 0 && ok ==> |windows[sender]| <= maxPerMinute
    {
      if maxPerMinute <= 0 {
        return true;
      }
      var window := WindowOf(windows, sender);
      window := Recent(window, now - WindowSeconds);
      if |window| >= maxPerMinute {
        windows := windows[sender := window];
        return false;
      }
      window := window + [now];
      windows := windows[sender := window];
      ok := true;
    }

    /** clear: a non-empty sender forgets that sender's window only; no sender (or an empty one)
        forgets every window. */
    method Clear(sender: Option<string>)
      modifies this
      ensures Truthy(sender) ==> windows == old(windows) - {sender.value}
      ensures !Truthy(sender) ==> windows == map[]
    {
      if Truthy(sender) {
        windows := windows - {sender.value};
      } else {
        windows := map[];
      }
    }
  }

  // ---------------------------------------------------------------- a sender's history

  /** Which of one sender's messages, arriving at times ts, were let through under a fixed limit,
      and the window left afterwards. */
  datatype History = History(allowed: seq<real>, window: seq<real>)

  function Replay(ts: seq<real>, limit: int): History
    requires limit > 0
    decreases |ts|
  {
    if ts == [] then History([], [])
    else
      var h := Replay(ts[..|ts| - 1], limit);
      var now := ts[|ts| - 1];
      var a := Admit(h.window, limit, now);
      History(if a.allowed then h.allowed + [now] else h.allowed, a.window)
  }

  predicate Ascending(ts: seq<real>)
  {
    forall i, j :: 0 <= i < j < |ts| ==> ts[i] <= ts[j]
  }

  /** With messages in time order the window is always the admitted messages of the last minute,
      and never longer than the limit. */
  lemma {:induction false} ReplayWindow(ts: seq<real>, limit: int)
    requires limit > 0 && Ascending(ts) && ts != []
    ensures Replay(ts, limit).window == Recent(Replay(ts, limit).allowed, ts[|ts| - 1] - WindowSeconds)
    ensures |Replay(ts, limit).window| <= limit
    decreases |ts|
  {
    var init, now := ts[..|ts| - 1], ts[|ts| - 1];
    var h := Replay(init, limit);
    var a := Admit(h.window, limit, now);
    if init == [] {
      assert Recent([], now - WindowSeconds) == [];
      assert Recent([now], now - WindowSeconds) == Recent([], now - WindowSeconds) + [now];
    } else {
      ReplayWindow(init, limit);
      var prev := init[|init| - 1];
      RecentTwice(h.allowed, prev - WindowSeconds, now - WindowSeconds);
      if a.allowed {
        RecentSnoc(h.allowed, now, now - WindowSeconds);
      }
    }
  }

  /** The limit holds: at every message, at most `limit` messages were let through during the
      minute up to it (earlier messages are covered by the same lemma on a prefix). */
  lemma AtMostLimitPerMinute(ts: seq<real>, limit: int)
    requires limit > 0 && Ascending(ts) && ts != []
    ensures |Recent(Replay(ts, limit).allowed, ts[|ts| - 1] - WindowSeconds)| <= limit
  {
    ReplayWindow(ts, limit);
  }
}
