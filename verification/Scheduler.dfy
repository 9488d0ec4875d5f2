/**
 The local scheduler's watermark loop (backend/scheduler.py:50-153). A parseable cron
 expression stands for a strictly increasing sequence of fire times, which may run out: asking
 for a fire time beyond the last makes the tick fail when it is reached.
 */
module Scheduler {
  import opened Common

  datatype Cron = Unparseable | RunsOut(fires: seq<int>) | Fires(at: nat -> int)

  ghost predicate Proper(c: Cron) {
    && (c.Fires? ==> forall k: nat :: c.at(k) < c.at(k + 1))
    && (c.RunsOut? ==> forall i, j :: 0 <= i < j < |c.fires| ==> c.fires[i] < c.fires[j])
  }

  /** The fire time at position k, None if the expression has run out before. */
  function FireAt(c: Cron, k: nat): Option<int> {
    match c
    case Unparseable => None
    case RunsOut(fires) => if k < |fires| then Some(fires[k]) else None
    case Fires(at) => Some(at(k))
  }

  ghost predicate IsFire(c: Cron, t: int) {
    exists k: nat :: FireAt(c, k) == Some(t)
  }

  /** Looking for a fire time after `to` fails: the expression has run out. */
  predicate RunsOutBy(c: Cron, to: int) {
    c.RunsOut? && forall f <- c.fires :: f <= to
  }

  datatype Schedule = Schedule(id: string, cron: Cron)

  // ---------------------------------------------------------------------------
  // Counting fires in a window
  // ---------------------------------------------------------------------------

  /** How many fire times may follow until one is after t, or none is left. */
  ghost function Left(c: Cron, t: int, k: nat): int {
    match c
    case Unparseable => 0
    case RunsOut(fires) => |fires| - k
    case Fires(at) => t - at(k) + 1
  }

  /** How many fires, from the k-th on, are at or before t: the index of the first one after t. */
  ghost function UpTo(c: Cron, t: int, k: nat): (n: nat)
    requires Proper(c)
    ensures k <= n && (FireAt(c, n).Some? ==> FireAt(c, n).value > t)
    ensures forall i: nat :: k <= i < n ==> FireAt(c, i).Some? && FireAt(c, i).value <= t
    decreases Left(c, t, k)
  {
    if FireAt(c, k).None? || FireAt(c, k).value > t then k else UpTo(c, t, k + 1)
  }

  /** The number of fires in (from, to]. */
  ghost function Count(c: Cron, from: int, to: int): int
    requires Proper(c)
  {
    if to < from then 0 else UpTo(c, to, 0) - UpTo(c, from, 0)
  }

  ghost predicate HasFireIn(c: Cron, from: int, to: int) {
    exists k: nat :: FireAt(c, k).Some? && from < FireAt(c, k).value <= to
  }

  lemma {:induction false} Increasing(c: Cron, i: nat, j: nat)
    requires Proper(c) && i < j && FireAt(c, j).Some?
    ensures FireAt(c, i).Some? && FireAt(c, i).value < FireAt(c, j).value
  {
    if c.Fires? {
      if i + 1 < j {
        Increasing(c, i, j - 1);
      }
      assert c.at(j - 1) < c.at(j - 1 + 1);
    }
  }

  lemma UpToUnique(c: Cron, t: int, n: nat)
    requires Proper(c) && (FireAt(c, n).Some? ==> FireAt(c, n).value > t)
    requires forall i: nat :: i < n ==> FireAt(c, i).Some? && FireAt(c, i).value <= t
    ensures UpTo(c, t, 0) == n
  {}

  /** Counts telescope: cutting a window in two loses and repeats nothing. */
  lemma CountsTelescope(c: Cron, a: int, b: int, d: int)
    requires Proper(c) && a <= b <= d
    ensures Count(c, a, b) + Count(c, b, d) == Count(c, a, d)
  {}

  /** A window is due exactly if it contains a fire. */
  lemma DueIff(c: Cron, from: int, to: int)
    requires Proper(c) && from <= to
    ensures Count(c, from, to) > 0 <==> HasFireIn(c, from, to)
    ensures Count(c, from, to) >= 0
  {
    var lo, hi := UpTo(c, from, 0), UpTo(c, to, 0);
    if lo < hi {
      assert FireAt(c, lo).Some? && from < FireAt(c, lo).value <= to;
    }
    if k: nat :| FireAt(c, k).Some? && from < FireAt(c, k).value <= to {
      assert lo <= k;
      if hi < k {
        Increasing(c, hi, k);
      }
    }
  }

  /**
   _fires_in_window: `first` is the position of the first fire after the window's start. None
   stands for the exception of an expression that runs out before a fire after its end.
   */
  method FiresInWindow(c: Cron, ghost from: int, to: int, first: nat) returns (count: Option<nat>)
    requires Proper(c) && from <= to
    requires first == UpTo(c, from, 0)
    ensures count.None? <==> RunsOutBy(c, to)
    ensures count.Some? ==> count.value == Count(c, from, to)
  {
    if c.Unparseable? {
      return Some(0);
    }
    var position, n := first, 0;
    while true
      invariant position == first + n
      invariant forall i: nat :: i < position ==> FireAt(c, i).Some? && FireAt(c, i).value <= to
      decreases Left(c, to, position)
    {
      var next := FireAt(c, position);
      if next.None? {
        AllFiresBefore(c, to, position);
        return None;
      }
      position := position + 1;
      if next.value > to {
        break;
      }
      n := n + 1;
    }
    UpToUnique(c, to, first + n);
    assert c.RunsOut? ==> c.fires[first + n] in c.fires && c.fires[first + n] > to;
    return Some(n);
  }

  lemma AllFiresBefore(c: Cron, to: int, n: nat)
    requires c.RunsOut? && FireAt(c, n).None?
    requires forall i: nat :: i < n ==> FireAt(c, i).Some? && FireAt(c, i).value <= to
    ensures RunsOutBy(c, to)
  {
    forall f <- c.fires
      ensures f <= to
    {
      var i :| 0 <= i < |c.fires| && c.fires[i] == f;
      assert FireAt(c, i).Some?;
    }
  }

  // ---------------------------------------------------------------------------
  // Ticks
  // ---------------------------------------------------------------------------

  datatype Window = Window(from: int, to: int)

  /** One dispatch, remembered with the window whose fires it stands for. */
  datatype Dispatch = Dispatch(id: string, window: Window)

  datatype State = State(watermark: Option<int>, windows: seq<Window>, dispatched: seq<Dispatch>)

  /** A tick reads the clock and the enabled schedules, None if they cannot be loaded. */
  datatype Tick = Tick(now: int, schedules: Option<seq<Schedule>>)

  ghost predicate Due(s: Schedule, w: Window) {
    HasFireIn(s.cron, w.from, w.to)
  }

  /** Whether the schedule is to be dispatched for the window, None if its expression has run out. */
  method IsDue(s: Schedule, from: int, to: int, first: nat) returns (due: Option<bool>)
    requires Proper(s.cron) && from <= to && first == UpTo(s.cron, from, 0)
    ensures due.None? <==> RunsOutBy(s.cron, to)
    ensures due.Some? ==> (due.value <==> Due(s, Window(from, to)))
  {
    var count := FiresInWindow(s.cron, from, to, first);
    DueIff(s.cron, from, to);
    return if count.None? then None else Some(count.value > 0);
  }

  ghost function DispatchedBy(schedules: seq<Schedule>, w: Window): seq<Dispatch> {
    if schedules == [] then []
    else
      var last := schedules[|schedules| - 1];
      DispatchedBy(schedules[..|schedules| - 1], w) + if Due(last, w) then [Dispatch(last.id, w)] else []
  }

  lemma DispatchedNext(schedules: seq<Schedule>, i: nat, w: Window)
    requires i < |schedules|
    ensures DispatchedBy(schedules[..i + 1], w) ==
      DispatchedBy(schedules[..i], w) + if Due(schedules[i], w) then [Dispatch(schedules[i].id, w)] else []
  {
    assert schedules[..i + 1][..i] == schedules[..i];
  }

  /** The position of the first expression that has run out by then, the length if there is none. */
  function FirstFailing(schedules: seq<Schedule>, to: int): (n: nat)
    ensures n <= |schedules| && (n < |schedules| ==> RunsOutBy(schedules[n].cron, to))
    ensures forall i :: 0 <= i < n ==> !RunsOutBy(schedules[i].cron, to)
  {
    if schedules == [] || RunsOutBy(schedules[0].cron, to) then 0 else 1 + FirstFailing(schedules[1..], to)
  }

  ghost function Ticked(s: State, t: Tick): State {
    if s.watermark.None? then s.(watermark := Some(t.now))
    else if t.schedules.None? then s
    else
      var w, n := Window(s.watermark.value, t.now), FirstFailing(t.schedules.value, t.now);
      if n < |t.schedules.value| then s.(dispatched := s.dispatched + DispatchedBy(t.schedules.value[..n], w))
      else State(Some(t.now), s.windows + [w], s.dispatched + DispatchedBy(t.schedules.value, w))
  }

  ghost predicate Sane(s: State, t: Tick) {
    && (s.watermark.Some? ==> s.watermark.value <= t.now)
    && (t.schedules.Some? ==> forall i :: 0 <= i < |t.schedules.value| ==> Proper(t.schedules.value[i].cron))
  }

  /**
   The first tick only sets the watermark. Later the watermark moves to the tick's time, and its
   window is complete, if and only if the schedules can be loaded and none has run out by then.
   */
  lemma WatermarkMoves(s: State, t: Tick)
    ensures s.watermark.None? ==> Ticked(s, t) == State(Some(t.now), s.windows, s.dispatched)
    ensures s.watermark.Some? ==>
      var u := Ticked(s, t);
      var completes := t.schedules.Some? && forall x <- t.schedules.value :: !RunsOutBy(x.cron, t.now);
      && u.watermark == (if completes then Some(t.now) else s.watermark)
      && u.windows == (if completes then s.windows + [Window(s.watermark.value, t.now)] else s.windows)
      && s.dispatched <= u.dispatched && (t.schedules.None? ==> u == s)
  {
    if t.schedules.Some? {
      var schedules := t.schedules.value;
      var n := FirstFailing(schedules, t.now);
      assert forall i :: 0 <= i < |schedules| ==> schedules[i] in schedules;
    }
  }

  class LocalScheduler {
    var watermark: Option<int>
    ghost var windows: seq<Window>
    var dispatched: seq<Dispatch>

    ghost function View(): State
      reads this
    {
      State(watermark, windows, dispatched)
    }

    constructor ()
      ensures View() == State(None, [], [])
    {
      watermark, windows, dispatched := None, [], [];
    }

    /** The schedules of one window, in order: how far it got, and what it dispatched. */
    method DispatchDue(schedules: seq<Schedule>, from: int, to: int, firstAfter: nat -> nat) returns (n: nat)
      requires from <= to
      requires forall i :: 0 <= i < |schedules| ==>
        Proper(schedules[i].cron) && firstAfter(i) == UpTo(schedules[i].cron, from, 0)
      modifies this`dispatched
      ensures n == FirstFailing(schedules, to)
      ensures dispatched == old(dispatched) + DispatchedBy(schedules[..n], Window(from, to))
    {
      hide Due, UpTo, Proper, RunsOutBy;
      for i := 0 to |schedules|
        invariant dispatched == old(dispatched) + DispatchedBy(schedules[..i], Window(from, to))
        invariant forall j :: 0 <= j < i ==> !RunsOutBy(schedules[j].cron, to)
      {
        var due := IsDue(schedules[i], from, to, firstAfter(i));
        if due.None? {
          FirstFailingUnique(schedules, to, i);
          return i;
        }
        DispatchedNext(schedules, i, Window(from, to));
        if due.value {
          dispatched := dispatched + [Dispatch(schedules[i].id, Window(from, to))];
        }
      }
      FirstFailingUnique(schedules, to, |schedules|);
      return |schedules|;
    }

    /** One turn of the loop; `firstAfter` gives croniter's position at the start of the window. */
    method RunTick(t: Tick, firstAfter: nat -> nat)
      requires Sane(View(), t)
      requires watermark.Some? && t.schedules.Some? ==> forall i :: 0 <= i < |t.schedules.value| ==>
        firstAfter(i) == UpTo(t.schedules.value[i].cron, watermark.value, 0)
      modifies this
      ensures View() == Ticked(old(View()), t)
    {
      if watermark.None? {
        watermark := Some(t.now);
        return;
      }
      if t.schedules.None? {
        return;
      }
      var schedules := t.schedules.value;
      var n := DispatchDue(schedules, watermark.value, t.now, firstAfter);
      if n < |schedules| {
        return;
      }
      assert schedules[..n] == schedules;
      windows := windows + [Window(watermark.value, t.now)];
      watermark := Some(t.now);
    }
  }

  lemma FirstFailingUnique(schedules: seq<Schedule>, to: int, n: nat)
    requires n <= |schedules| && (n < |schedules| ==> RunsOutBy(schedules[n].cron, to))
    requires forall i :: 0 <= i < n ==> !RunsOutBy(schedules[i].cron, to)
    ensures FirstFailing(schedules, to) == n
  {}

  // ---------------------------------------------------------------------------
  // Whole runs
  // ---------------------------------------------------------------------------

  ghost predicate IsRun(s: State, ticks: seq<Tick>)
    decreases |ticks|
  {
    ticks == [] || (IsRun(s, ticks[..|ticks| - 1]) && Sane(After(s, ticks[..|ticks| - 1]), ticks[|ticks| - 1]))
  }

  ghost function After(s: State, ticks: seq<Tick>): State
    decreases |ticks|
  {
    if ticks == [] then s else Ticked(After(s, ticks[..|ticks| - 1]), ticks[|ticks| - 1])
  }

  /** Where the i-th window has to start. */
  function StartOf(windows: seq<Window>, origin: int, i: nat): int
    requires i <= |windows|
  {
    if i == 0 then origin else windows[i - 1].to
  }

  /** The windows follow each other without gap or overlap, from the first watermark to the current one. */
  ghost predicate Tiled(s: State, origin: int) {
    && s.watermark.Some?
    && (forall i :: 0 <= i < |s.windows| ==>
          s.windows[i].from <= s.windows[i].to && s.windows[i].from == StartOf(s.windows, origin, i))
    && s.watermark.value == StartOf(s.windows, origin, |s.windows|)
  }

  lemma TickTiles(s: State, t: Tick, origin: int)
    requires Tiled(s, origin) && Sane(s, t)
    ensures Tiled(Ticked(s, t), origin)
  {}

  /** Whatever fails, the completed windows tile (first watermark, current watermark]. */
  lemma {:induction false} RunTiles(origin: int, ticks: seq<Tick>)
    requires IsRun(State(Some(origin), [], []), ticks)
    ensures Tiled(After(State(Some(origin), [], []), ticks), origin)
  {
    if ticks != [] {
      RunTiles(origin, ticks[..|ticks| - 1]);
      TickTiles(After(State(Some(origin), [], []), ticks[..|ticks| - 1]), ticks[|ticks| - 1], origin);
    }
  }

  predicate Covers(w: Window, t: int) {
    w.from < t <= w.to
  }

  lemma {:induction false} WindowsOrdered(windows: seq<Window>, i: nat, j: nat)
    requires i < j < |windows|
    requires forall k :: 0 <= k < |windows| ==> windows[k].from <= windows[k].to
    requires forall k :: 0 < k < |windows| ==> windows[k].from == windows[k - 1].to
    ensures windows[i].to <= windows[j].from
    decreases j
  {
    if i + 1 < j {
      WindowsOrdered(windows, i, j - 1);
    }
  }

  lemma {:induction false} SomeWindowCovers(windows: seq<Window>, origin: int, t: int)
    requires windows != [] && windows[0].from == origin && origin < t <= windows[|windows| - 1].to
    requires forall k :: 0 < k < |windows| ==> windows[k].from == windows[k - 1].to
    ensures exists i :: 0 <= i < |windows| && Covers(windows[i], t)
  {
    var last := |windows| - 1;
    if windows[last].from < t {
      assert Covers(windows[last], t);
    } else {
      SomeWindowCovers(windows[..last], origin, t);
      var i :| 0 <= i < last && Covers(windows[..last][i], t);
      assert Covers(windows[i], t);
    }
  }

  /** Every instant since the first watermark lies in exactly one completed window. */
  lemma ExactlyOneWindow(s: State, origin: int, t: int)
    requires Tiled(s, origin) && origin < t <= s.watermark.value
    ensures exists i :: 0 <= i < |s.windows| && Covers(s.windows[i], t)
    ensures forall i, j :: 0 <= i < j < |s.windows| ==> !(Covers(s.windows[i], t) && Covers(s.windows[j], t))
  {
    assert forall k :: 0 < k < |s.windows| ==> s.windows[k].from == s.windows[k - 1].to;
    assert s.windows != [] && s.windows[0].from == origin;
    SomeWindowCovers(s.windows, origin, t);
    forall i, j | 0 <= i < j < |s.windows|
      ensures !(Covers(s.windows[i], t) && Covers(s.windows[j], t))
    {
      WindowsOrdered(s.windows, i, j);
    }
  }

  ghost function Total(c: Cron, windows: seq<Window>): int
    requires Proper(c)
  {
    if windows == [] then 0
    else Total(c, windows[..|windows| - 1]) + Count(c, windows[|windows| - 1].from, windows[|windows| - 1].to)
  }

  /** Over a run the window counts add up to the count since the first watermark. */
  lemma {:induction false} TotalsTelescope(c: Cron, windows: seq<Window>, origin: int)
    requires Proper(c) && Tiled(State(Some(StartOf(windows, origin, |windows|)), windows, []), origin)
    ensures Total(c, windows) == Count(c, origin, StartOf(windows, origin, |windows|))
    ensures origin <= StartOf(windows, origin, |windows|)
  {
    if windows != [] {
      var front, last := windows[..|windows| - 1], windows[|windows| - 1];
      assert forall i :: 0 <= i < |front| ==> front[i] == windows[i];
      assert last.from == StartOf(windows, origin, |front|) == StartOf(front, origin, |front|);
      forall i | 0 <= i < |front|
        ensures front[i].from == StartOf(front, origin, i)
      {
        assert windows[i].from == StartOf(windows, origin, i);
      }
      TotalsTelescope(c, front, origin);
      CountsTelescope(c, origin, last.from, last.to);
    }
  }

  // ---------------------------------------------------------------------------
  // Each fire is dispatched exactly once
  // ---------------------------------------------------------------------------

  /** Dispatches of one schedule that stand for the instant t. */
  function Covering(log: seq<Dispatch>, id: string, t: int): nat {
    if log == [] then 0
    else
      var last := log[|log| - 1];
      Covering(log[..|log| - 1], id, t) + if last.id == id && Covers(last.window, t) then 1 else 0
  }

  lemma {:induction false} CoveringConcat(a: seq<Dispatch>, b: seq<Dispatch>, id: string, t: int)
    ensures Covering(a + b, id, t) == Covering(a, id, t) + Covering(b, id, t)
  {
    if b == [] {
      assert a + b == a;
    } else {
      assert (a + b)[..|a + b| - 1] == a + b[..|b| - 1];
      CoveringConcat(a, b[..|b| - 1], id, t);
    }
  }

  predicate IsListed(schedules: seq<Schedule>, s: Schedule) {
    exists i :: 0 <= i < |schedules| && schedules[i].id == s.id
  }

  /** The list has no other schedule under the id of s, and s not twice. */
  ghost predicate OwnListing(schedules: seq<Schedule>, s: Schedule) {
    && (forall x <- schedules :: x.id == s.id ==> x == s)
    && (forall i, j :: 0 <= i < j < |schedules| && schedules[i].id == s.id ==> schedules[j].id != s.id)
  }

  ghost predicate Own(t: Tick, s: Schedule) {
    t.schedules.Some? ==> OwnListing(t.schedules.value, s)
  }

  lemma ListedAtTheEnd(schedules: seq<Schedule>, s: Schedule)
    requires schedules != [] && OwnListing(schedules, s)
    ensures var n := |schedules| - 1;
      && OwnListing(schedules[..n], s)
      && (schedules[n].id == s.id ==> schedules[n] == s && !IsListed(schedules[..n], s))
      && (IsListed(schedules, s) <==> IsListed(schedules[..n], s) || schedules[n].id == s.id)
  {
    var n := |schedules| - 1;
    assert forall i :: 0 <= i < n ==> schedules[..n][i] == schedules[i];
    assert schedules[n] in schedules && forall x <- schedules[..n] :: x in schedules;
  }

  lemma {:induction false} CoveringOfTick(schedules: seq<Schedule>, s: Schedule, w: Window, instant: int)
    requires IsFire(s.cron, instant) && OwnListing(schedules, s)
    ensures Covering(DispatchedBy(schedules, w), s.id, instant) ==
      if Covers(w, instant) && IsListed(schedules, s) then 1 else 0
  {
    if schedules != [] {
      var n := |schedules| - 1;
      var front, last := schedules[..n], schedules[n];
      ListedAtTheEnd(schedules, s);
      CoveringOfTick(front, s, w, instant);
      CoveringConcat(DispatchedBy(front, w), if Due(last, w) then [Dispatch(last.id, w)] else [], s.id, instant);
      if last.id == s.id && Covers(w, instant) {
        assert Due(last, w);
      }
    } else {
      assert !IsListed(schedules, s);
    }
  }

  /** The tick works on a window that holds the instant, and its list has s before any expression that has run out. */
  ghost predicate Reaches(state: State, t: Tick, s: Schedule, instant: int) {
    && state.watermark.Some? && t.schedules.Some?
    && Covers(Window(state.watermark.value, t.now), instant)
    && IsListed(t.schedules.value[..FirstFailing(t.schedules.value, t.now)], s)
  }

  lemma TickCovers(state: State, t: Tick, s: Schedule, instant: int)
    requires IsFire(s.cron, instant) && Own(t, s)
    ensures Covering(Ticked(state, t).dispatched, s.id, instant) ==
      Covering(state.dispatched, s.id, instant) + if Reaches(state, t, s, instant) then 1 else 0
  {
    if state.watermark.Some? && t.schedules.Some? {
      var w, schedules := Window(state.watermark.value, t.now), t.schedules.value;
      var reached := schedules[..FirstFailing(schedules, t.now)];
      assert FirstFailing(schedules, t.now) == |schedules| ==> reached == schedules;
      assert forall x <- reached :: x in schedules;
      CoveringOfTick(reached, s, w, instant);
      CoveringConcat(state.dispatched, DispatchedBy(reached, w), s.id, instant);
    }
  }

  /** The ticks of a run that reach the schedule with a window holding the instant. */
  ghost function Reaching(state: State, ticks: seq<Tick>, s: Schedule, instant: int): set<nat> {
    set i | 0 <= i < |ticks| && Reaches(After(state, ticks[..i]), ticks[i], s, instant)
  }

  lemma ReachingLast(state: State, ticks: seq<Tick>, s: Schedule, instant: int)
    requires ticks != []
    ensures var n := |ticks| - 1;
      |Reaching(state, ticks, s, instant)| == |Reaching(state, ticks[..n], s, instant)|
        + if Reaches(After(state, ticks[..n]), ticks[n], s, instant) then 1 else 0
  {
    hide Reaches, After;
    var n := |ticks| - 1;
    assert forall i :: 0 <= i < n ==> ticks[..i] == ticks[..n][..i];
    var all, front := Reaching(state, ticks, s, instant), Reaching(state, ticks[..n], s, instant);
    var last := if Reaches(After(state, ticks[..n]), ticks[n], s, instant) then {n} else {};
    forall i
      ensures i in all <==> i in front + last
    {}
    assert all == front + last && front !! last;
  }

  /**
   Over every run, the dispatches that stand for one fire of a schedule are as many as the
   ticks that reach it with a window holding the fire. So the fire is dispatched for exactly
   once if and only if there is one such tick.
   */
  lemma {:induction false} FireCount(state: State, ticks: seq<Tick>, s: Schedule, instant: int)
    requires IsFire(s.cron, instant) && forall t <- ticks :: Own(t, s)
    ensures Covering(After(state, ticks).dispatched, s.id, instant) ==
      Covering(state.dispatched, s.id, instant) + |Reaching(state, ticks, s, instant)|
  {
    if ticks != [] {
      var n := |ticks| - 1;
      assert ticks[n] in ticks;
      FireCount(state, ticks[..n], s, instant);
      TickCovers(After(state, ticks[..n]), ticks[n], s, instant);
      ReachingLast(state, ticks, s, instant);
    }
  }

  function Windows(windows: seq<Window>, t: int): nat {
    if windows == [] then 0
    else Windows(windows[..|windows| - 1], t) + if Covers(windows[|windows| - 1], t) then 1 else 0
  }

  /** The tick stops at an expression that has run out and leaves the watermark. */
  predicate Fails(t: Tick) {
    t.schedules.Some? && FirstFailing(t.schedules.value, t.now) < |t.schedules.value|
  }

  ghost predicate Repeats(state: State, t: Tick, s: Schedule, instant: int) {
    Reaches(state, t, s, instant) && Fails(t)
  }

  /** Those of the reaching ticks that fail behind the schedule, so that its window is tried again. */
  ghost function Repeating(state: State, ticks: seq<Tick>, s: Schedule, instant: int): set<nat> {
    set i | 0 <= i < |ticks| && Repeats(After(state, ticks[..i]), ticks[i], s, instant)
  }

  lemma RepeatingLast(state: State, ticks: seq<Tick>, s: Schedule, instant: int)
    requires ticks != []
    ensures var n := |ticks| - 1;
      |Repeating(state, ticks, s, instant)| == |Repeating(state, ticks[..n], s, instant)|
        + if Repeats(After(state, ticks[..n]), ticks[n], s, instant) then 1 else 0
  {
    hide Repeats, After;
    var n := |ticks| - 1;
    assert forall i :: 0 <= i < n ==> ticks[..i] == ticks[..n][..i];
    var all, front := Repeating(state, ticks, s, instant), Repeating(state, ticks[..n], s, instant);
    var last := if Repeats(After(state, ticks[..n]), ticks[n], s, instant) then {n} else {};
    forall i
      ensures i in all <==> i in front + last
    {}
    assert all == front + last && front !! last;
  }

  /** Whenever the schedules can be loaded, s is among them. */
  ghost predicate Enabled(t: Tick, s: Schedule) {
    t.schedules.Some? ==> IsListed(t.schedules.value, s)
  }

  lemma TickWindows(state: State, t: Tick, s: Schedule, instant: int)
    requires Enabled(t, s)
    ensures Windows(Ticked(state, t).windows, instant) ==
      Windows(state.windows, instant) + if Reaches(state, t, s, instant) && !Repeats(state, t, s, instant) then 1 else 0
  {
    if state.watermark.Some? && t.schedules.Some? && !Fails(t) {
      var w, schedules := Window(state.watermark.value, t.now), t.schedules.value;
      assert (state.windows + [w])[..|state.windows|] == state.windows;
      assert schedules[..|schedules|] == schedules;
    }
  }

  lemma NothingReached(state: State, s: Schedule, instant: int)
    ensures Reaching(state, [], s, instant) == {} && Repeating(state, [], s, instant) == {}
    ensures Windows([], instant) == 0
  {}

  /** The reaching ticks are those that complete a window with the instant, and the repeating ones. */
  lemma {:induction false} ReachingSplits(state: State, ticks: seq<Tick>, s: Schedule, instant: int)
    requires state.windows == [] && forall t <- ticks :: Enabled(t, s)
    ensures |Reaching(state, ticks, s, instant)| ==
      Windows(After(state, ticks).windows, instant) + |Repeating(state, ticks, s, instant)|
  {
    hide Reaches, Fails, Ticked, Enabled, Reaching, Repeating, Windows;
    if ticks == [] {
      NothingReached(state, s, instant);
    } else {
      var n := |ticks| - 1;
      assert ticks[n] in ticks && forall t <- ticks[..n] :: t in ticks;
      ReachingSplits(state, ticks[..n], s, instant);
      TickWindows(After(state, ticks[..n]), ticks[n], s, instant);
      ReachingLast(state, ticks, s, instant);
      RepeatingLast(state, ticks, s, instant);
    }
  }

  lemma {:induction false} NoneCover(windows: seq<Window>, t: int)
    requires forall i :: 0 <= i < |windows| ==> !Covers(windows[i], t)
    ensures Windows(windows, t) == 0
  {
    if windows != [] {
      NoneCover(windows[..|windows| - 1], t);
    }
  }

  lemma {:induction false} OneCovers(windows: seq<Window>, t: int, i: nat)
    requires i < |windows| && Covers(windows[i], t)
    requires forall j :: 0 <= j < |windows| && j != i ==> !Covers(windows[j], t)
    ensures Windows(windows, t) == 1
  {
    var last := |windows| - 1;
    if i == last {
      NoneCover(windows[..last], t);
    } else {
      OneCovers(windows[..last], t, i);
    }
  }

  /**
   Over every run with a monotone clock and any failures to load the schedules: a fire of an
   always enabled schedule, after the first watermark and up to the current one, is dispatched
   for once, and once more by each tick that holds it and fails behind the schedule. So it is
   never lost, and it is dispatched for exactly once if and only if no tick does that.
   */
  lemma ExactlyOnceIff(origin: int, ticks: seq<Tick>, s: Schedule, instant: int)
    requires IsRun(State(Some(origin), [], []), ticks)
    requires IsFire(s.cron, instant) && forall t <- ticks :: Own(t, s) && Enabled(t, s)
    requires var end := After(State(Some(origin), [], []), ticks);
      end.watermark.Some? && origin < instant <= end.watermark.value
    ensures var start := State(Some(origin), [], []);
      var dispatches := Covering(After(start, ticks).dispatched, s.id, instant);
      && dispatches == 1 + |Repeating(start, ticks, s, instant)|
      && (dispatches == 1 <==> Repeating(start, ticks, s, instant) == {})
  {
    var start := State(Some(origin), [], []);
    var end := After(start, ticks);
    RunTiles(origin, ticks);
    FireCount(start, ticks, s, instant);
    ReachingSplits(start, ticks, s, instant);
    ExactlyOneWindow(end, origin, instant);
    var i :| 0 <= i < |end.windows| && Covers(end.windows[i], instant);
    OneCovers(end.windows, instant, i);
  }

  /** In particular, without expressions that have run out each such fire is dispatched for exactly once. */
  lemma EachFireOnce(origin: int, ticks: seq<Tick>, s: Schedule, instant: int)
    requires IsRun(State(Some(origin), [], []), ticks)
    requires IsFire(s.cron, instant) && forall t <- ticks :: Own(t, s) && Enabled(t, s) && !Fails(t)
    requires var end := After(State(Some(origin), [], []), ticks);
      end.watermark.Some? && origin < instant <= end.watermark.value
    ensures Covering(After(State(Some(origin), [], []), ticks).dispatched, s.id, instant) == 1
  {
    var start := State(Some(origin), [], []);
    ExactlyOnceIff(origin, ticks, s, instant);
    forall i | 0 <= i < |ticks|
      ensures !Fails(ticks[i])
    {
      assert ticks[i] in ticks;
    }
  }

  /**
   The last fire of an expression that runs out is never dispatched for, by any tick of any run:
   looking beyond it fails. After it the schedule makes every tick fail.
   */
  lemma LastFireIsLost(state: State, ticks: seq<Tick>, s: Schedule)
    requires s.cron.RunsOut? && Proper(s.cron) && s.cron.fires != [] && forall t <- ticks :: Own(t, s)
    ensures var last := s.cron.fires[|s.cron.fires| - 1];
      Covering(After(state, ticks).dispatched, s.id, last) == Covering(state.dispatched, s.id, last)
  {
    var last := s.cron.fires[|s.cron.fires| - 1];
    assert FireAt(s.cron, |s.cron.fires| - 1) == Some(last);
    hide Own, Covering, After, Reaching;
    FireCount(state, ticks, s, last);
    NeverReached(state, ticks, s, last);
  }

  lemma NeverReached(state: State, ticks: seq<Tick>, s: Schedule, instant: int)
    requires s.cron.RunsOut? && (forall f <- s.cron.fires :: f <= instant) && forall t <- ticks :: Own(t, s)
    ensures Reaching(state, ticks, s, instant) == {}
  {
    hide Own, After, Reaches;
    forall i | 0 <= i < |ticks|
      ensures !Reaches(After(state, ticks[..i]), ticks[i], s, instant)
    {
      assert ticks[i] in ticks;
      NotReached(After(state, ticks[..i]), ticks[i], s, instant);
    }
  }

  lemma NotReached(state: State, t: Tick, s: Schedule, instant: int)
    requires Own(t, s) && s.cron.RunsOut? && forall f <- s.cron.fires :: f <= instant
    ensures !Reaches(state, t, s, instant)
  {
    if t.schedules.Some? && instant <= t.now {
      var schedules := t.schedules.value;
      forall i | 0 <= i < FirstFailing(schedules, t.now)
        ensures schedules[i].id != s.id
      {
        assert schedules[i] in schedules && !RunsOutBy(schedules[i].cron, t.now);
      }
    }
  }

  /**
   An expression that has run out breaks this. Its tick dispatches what comes before it, then
   fails and leaves the watermark; the next tick with the same list dispatches for the same
   fires again, and schedules behind it are never dispatched.
   */
  lemma ExhaustedRepeats(s: State, t: Tick, u: Tick, due: Schedule, bad: Schedule, behind: Schedule, instant: int)
    requires IsFire(due.cron, instant) && !RunsOutBy(due.cron, u.now) && RunsOutBy(bad.cron, t.now)
    requires due.id != behind.id
    requires s.watermark.Some? && s.watermark.value < instant <= t.now <= u.now
    requires t.schedules == Some([due, bad, behind]) && u.schedules == t.schedules
    ensures var s1 := Ticked(s, t);
      var s2 := Ticked(s1, u);
      && s1.watermark == s.watermark && s2.watermark == s.watermark
      && Covering(s2.dispatched, due.id, instant) == Covering(s.dispatched, due.id, instant) + 2
      && Covering(s2.dispatched, behind.id, instant) == Covering(s.dispatched, behind.id, instant)
  {
    var w1, w2 := Window(s.watermark.value, t.now), Window(s.watermark.value, u.now);
    var list := [due, bad, behind];
    assert list[1] == bad && RunsOutBy(bad.cron, u.now);
    StillRuns(due.cron, t.now, u.now);
    FirstFailingUnique(list, t.now, 1);
    FirstFailingUnique(list, u.now, 1);
    assert list[..1] == [due];
    OnlyDue(due, w1, instant);
    OnlyDue(due, w2, instant);
    var s1 := Ticked(s, t);
    CoveringConcat(s.dispatched, [Dispatch(due.id, w1)], due.id, instant);
    CoveringConcat(s1.dispatched, [Dispatch(due.id, w2)], due.id, instant);
    CoveringConcat(s.dispatched, [Dispatch(due.id, w1)], behind.id, instant);
    CoveringConcat(s1.dispatched, [Dispatch(due.id, w2)], behind.id, instant);
  }

  /** What has not run out later had not before. */
  lemma StillRuns(c: Cron, earlier: int, later: int)
    requires earlier <= later && !RunsOutBy(c, later)
    ensures !RunsOutBy(c, earlier)
  {}

  lemma OnlyDue(due: Schedule, w: Window, instant: int)
    requires IsFire(due.cron, instant) && Covers(w, instant)
    ensures DispatchedBy([due], w) == [Dispatch(due.id, w)]
  {}
}

/** The executor's in-flight tables (backend/executor/local.py:40-138). */
module InFlight {

  /** A background task; its done-callback runs some time after it finished. */
  datatype Task = Task(id: string, done: bool)

  datatype State = State(table: map<string, nat>, tasks: seq<Task>)

  predicate Busy(s: State, id: string) {
    id in s.table && s.table[id] < |s.tasks| && !s.tasks[s.table[id]].done
  }

  /** dispatch_scheduled_collection and dispatch_acquisition: skip while the previous run is in flight. */
  function Dispatched(s: State, id: string): State {
    if Busy(s, id) then s else State(s.table[id := |s.tasks|], s.tasks + [Task(id, false)])
  }

  /** The done-callback: drop the entry only if it is still this task's. */
  function Forgotten(s: State, k: nat): State
    requires k < |s.tasks|
  {
    var id := s.tasks[k].id;
    if id in s.table && s.table[id] == k then s.(table := s.table - {id}) else s
  }

  datatype Action = Dispatch(id: string) | Finish(k: nat) | Callback(k: nat)

  predicate Enabled(s: State, a: Action) {
    match a
    case Dispatch(_) => true
    case Finish(k) => k < |s.tasks| && !s.tasks[k].done
    case Callback(k) => k < |s.tasks| && s.tasks[k].done
  }

  function Step(s: State, a: Action): State
    requires Enabled(s, a)
  {
    match a
    case Dispatch(id) => Dispatched(s, id)
    case Finish(k) => s.(tasks := s.tasks[k := s.tasks[k].(done := true)])
    case Callback(k) => Forgotten(s, k)
  }

  ghost predicate IsRun(s: State, run: seq<Action>)
    decreases |run|
  {
    run == [] || (Enabled(s, run[0]) && IsRun(Step(s, run[0]), run[1..]))
  }

  ghost function After(s: State, run: seq<Action>): State
    requires IsRun(s, run)
    decreases |run|
  {
    if run == [] then s else After(Step(s, run[0]), run[1..])
  }

  /** Every unfinished task is the one in the table, so a strong reference to it is held. */
  ghost predicate Tracked(s: State) {
    && (forall k :: 0 <= k < |s.tasks| && !s.tasks[k].done ==> s.tasks[k].id in s.table && s.table[s.tasks[k].id] == k)
    && (forall id <- s.table :: s.table[id] < |s.tasks| && s.tasks[s.table[id]].id == id)
  }

  /**
   Over every interleaving of dispatches, completions and callbacks, runs of one schedule
   never overlap, and no callback forgets a run that is still going.
   */
  lemma {:induction false} RunsNeverOverlap(run: seq<Action>, s: State)
    requires Tracked(s) && IsRun(s, run)
    ensures Tracked(After(s, run))
    ensures var t := After(s, run);
      forall j, k :: 0 <= j < k < |t.tasks| && !t.tasks[j].done && !t.tasks[k].done ==> t.tasks[j].id != t.tasks[k].id
    decreases |run|
  {
    if run != [] {
      RunsNeverOverlap(run[1..], Step(s, run[0]));
    }
  }

  /** Some unfinished task belongs to the schedule. */
  predicate IsRunning(s: State, id: string) {
    exists k :: 0 <= k < |s.tasks| && s.tasks[k].id == id && !s.tasks[k].done
  }

  /** A dispatch starts a run exactly if none of the schedule is running; then one is, and others are as before. */
  lemma DispatchStartsIff(s: State, id: string)
    requires Tracked(s)
    ensures var t := Step(s, Dispatch(id));
      && (IsRunning(s, id) <==> t == s)
      && (!IsRunning(s, id) ==> t.tasks == s.tasks + [Task(id, false)])
      && IsRunning(t, id)
      && (forall other: string :: other != id ==> (other in t.table <==> other in s.table))
      && (forall other <- s.table :: other != id ==> t.table[other] == s.table[other])
  {
    if k :| 0 <= k < |s.tasks| && s.tasks[k].id == id && !s.tasks[k].done {
      assert s.table[id] == k;
    }
    var t := Step(s, Dispatch(id));
    if t != s {
      assert t.tasks[|s.tasks|] == Task(id, false);
    }
  }

  /** A run that finishes is over, and its callback forgets its entry and no other. */
  lemma CallbackForgets(s: State, k: nat)
    requires k < |s.tasks|
    ensures !s.tasks[k].done ==> Step(s, Finish(k)).tasks[k] == Task(s.tasks[k].id, true)
    ensures !s.tasks[k].done ==>
      forall j :: 0 <= j < |s.tasks| && j != k ==> Step(s, Finish(k)).tasks[j] == s.tasks[j]
    ensures s.tasks[k].done ==>
      var t, id := Step(s, Callback(k)), s.tasks[k].id;
      && t.tasks == s.tasks
      && (id in s.table && s.table[id] == k ==> t.table == s.table - {id})
      && (!(id in s.table && s.table[id] == k) ==> t == s)
  {}

  lemma NothingInFlight()
    ensures Tracked(State(map[], []))
  {}

  class LocalExecutor {
    var scheduled: map<string, nat>
    var tasks: seq<Task>

    function View(): State
      reads this
    {
      State(scheduled, tasks)
    }

    constructor ()
      ensures View() == State(map[], [])
    {
      scheduled, tasks := map[], [];
    }

    method DispatchScheduledCollection(id: string) returns (started: bool)
      modifies this
      ensures View() == Dispatched(old(View()), id)
      ensures started <==> !old(Busy(View(), id))
    {
      if id in scheduled {
        var current := scheduled[id];
        if current < |tasks| && !tasks[current].done {
          return false;
        }
      }
      scheduled := scheduled[id := |tasks|];
      tasks := tasks + [Task(id, false)];
      return true;
    }

    method OnDone(k: nat)
      requires k < |tasks|
      modifies this
      ensures View() == Forgotten(old(View()), k)
    {
      var id := tasks[k].id;
      if id in scheduled && scheduled[id] == k {
        scheduled := scheduled - {id};
      }
    }
  }
}
