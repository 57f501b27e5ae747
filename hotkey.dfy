/**
  The Fn-key gesture classifier (`HotkeyManager`).

  Modifier-flag snapshots become press and release edges of the Fn key, and a
  press that comes less than `doubleTapThreshold` after the previously recorded
  press enters push-to-talk. Time is an explicit input in integer milliseconds.
  The callbacks the manager would invoke are returned, in invocation order, as a
  sequence of `Callback` values.
*/
module Hotkey {
  import opened Wrappers

  /** `doubleTapThreshold`, 0.3 s. */
  const DoubleTapThresholdMs: int := 300

  /** The three optional closures `onDoubleTapFn`, `onFnKeyDown`, `onFnKeyUp`. */
  datatype Callback = DoubleTapFn | FnKeyDown | FnKeyUp

  /** The manager's three private fields. */
  datatype Gesture = Gesture(isFnPressed: bool, lastFnPressTime: Option<int>, isInPushToTalkMode: bool)

  const Initial: Gesture := Gesture(false, None, false)

  /** The state after an event and the callbacks it fired, in order. */
  datatype Step = Step(next: Gesture, fired: seq<Callback>)

  /** One modifier-flag snapshot: is the Fn flag set, and when it was delivered (ms). */
  datatype Snapshot = Snapshot(fn: bool, at: int)

  /** A press at `now` completes a double-tap: a previous press was recorded and is less than 300 ms old. */
  predicate IsDoubleTap(g: Gesture, now: int) {
    g.lastFnPressTime.Some? && now - g.lastFnPressTime.value < DoubleTapThresholdMs
  }

  /** `handleFnKeyDown`. */
  function KeyDown(g: Gesture, now: int): (r: Step)
    ensures r.fired != [] <==> IsDoubleTap(g, now)
    ensures IsDoubleTap(g, now) ==>
              r.fired == [DoubleTapFn, FnKeyDown] && r.next.isInPushToTalkMode && r.next.lastFnPressTime == None
    ensures !IsDoubleTap(g, now) ==>
              r.next.lastFnPressTime == Some(now) && r.next.isInPushToTalkMode == g.isInPushToTalkMode
    ensures r.next.isFnPressed == g.isFnPressed
  {
    if IsDoubleTap(g, now) then
      Step(g.(isInPushToTalkMode := true, lastFnPressTime := None), [DoubleTapFn, FnKeyDown])
    else
      Step(g.(lastFnPressTime := Some(now)), [])
  }

  /** `handleFnKeyUp`: only a release in push-to-talk fires, and it leaves push-to-talk. */
  function KeyUp(g: Gesture): (r: Step)
    ensures g.isInPushToTalkMode ==> r.fired == [FnKeyUp] && r.next == g.(isInPushToTalkMode := false)
    ensures !g.isInPushToTalkMode ==> r == Step(g, [])
  {
    if g.isInPushToTalkMode then Step(g.(isInPushToTalkMode := false), [FnKeyUp]) else Step(g, [])
  }

  /** `handleFlagsChanged`: an edge of the Fn bit is a press or a release; the bit is then recorded. */
  function FlagsChanged(g: Gesture, fnPressed: bool, now: int): (r: Step)
    ensures r.next.isFnPressed == fnPressed
    ensures fnPressed == g.isFnPressed ==> r == Step(g, [])
    ensures fnPressed && !g.isFnPressed ==>
              r.fired == KeyDown(g, now).fired && r.next == KeyDown(g, now).next.(isFnPressed := true)
    ensures !fnPressed && g.isFnPressed ==>
              r.fired == KeyUp(g).fired && r.next == KeyUp(g).next.(isFnPressed := false)
  {
    var s :=
      if fnPressed && !g.isFnPressed then KeyDown(g, now)
      else if !fnPressed && g.isFnPressed then KeyUp(g)
      else Step(g, []);
    Step(s.next.(isFnPressed := fnPressed), s.fired)
  }

  /** Feeds a stream of snapshots to the manager, collecting every callback fired. */
  function Run(g: Gesture, trace: seq<Snapshot>): (r: Step)
    ensures trace == [] ==> r == Step(g, [])
    ensures trace != [] ==> r.next.isFnPressed == trace[|trace| - 1].fn
    decreases |trace|
  {
    if trace == [] then Step(g, [])
    else
      var s := FlagsChanged(g, trace[0].fn, trace[0].at);
      var rest := Run(s.next, trace[1..]);
      Step(rest.next, s.fired + rest.fired)
  }

  /** The press and release callbacks of a list of fired callbacks (without `DoubleTapFn`). */
  function Edges(fired: seq<Callback>): (e: seq<Callback>)
    decreases |fired|
  {
    if fired == [] then []
    else (if fired[0] == DoubleTapFn then [] else [fired[0]]) + Edges(fired[1..])
  }

  /**
    `e` alternates between down and up callbacks; it starts with an up exactly
    when push-to-talk is already `open`.
  */
  predicate AlternatingFrom(e: seq<Callback>, open: bool)
    decreases |e|
  {
    e == [] || (e[0] == (if open then FnKeyUp else FnKeyDown) && AlternatingFrom(e[1..], !open))
  }

  /** Push-to-talk is entered only on a press, so it implies the key is down. */
  predicate Consistent(g: Gesture) {
    g.isInPushToTalkMode ==> g.isFnPressed
  }

  lemma {:induction false} EdgesAppend(a: seq<Callback>, b: seq<Callback>)
    ensures Edges(a + b) == Edges(a) + Edges(b)
    decreases |a|
  {
    if a == [] {
      assert a + b == b;
    } else {
      assert (a + b)[1..] == a[1..] + b;
      EdgesAppend(a[1..], b);
    }
  }

  /** One snapshot fires at most one edge callback: a down that opens push-to-talk or an up that closes it. */
  lemma StepEdges(g: Gesture, fnPressed: bool, now: int)
    requires Consistent(g)
    ensures var s := FlagsChanged(g, fnPressed, now);
      Consistent(s.next) &&
      ((Edges(s.fired) == [] && s.next.isInPushToTalkMode == g.isInPushToTalkMode) ||
       (Edges(s.fired) == [FnKeyDown] && !g.isInPushToTalkMode && s.next.isInPushToTalkMode) ||
       (Edges(s.fired) == [FnKeyUp] && g.isInPushToTalkMode && !s.next.isInPushToTalkMode))
  {
  }

  /**
    Over any stream of snapshots from a consistent state, the down and up
    callbacks alternate, and push-to-talk is open at the end exactly when the
    last of them was a down (or, with none, as it was at the start).
  */
  lemma {:induction false} EdgesAlternate(g: Gesture, trace: seq<Snapshot>)
    requires Consistent(g)
    ensures var r := Run(g, trace); var e := Edges(r.fired);
      Consistent(r.next) &&
      AlternatingFrom(e, g.isInPushToTalkMode) &&
      r.next.isInPushToTalkMode == (if e == [] then g.isInPushToTalkMode else e[|e| - 1] == FnKeyDown)
    decreases |trace|
  {
    if trace != [] {
      var s := FlagsChanged(g, trace[0].fn, trace[0].at);
      var rest := Run(s.next, trace[1..]);
      var r := Run(g, trace);
      assert r.next == rest.next && r.fired == s.fired + rest.fired;
      StepEdges(g, trace[0].fn, trace[0].at);
      EdgesAlternate(s.next, trace[1..]);
      EdgesAppend(s.fired, rest.fired);
      var e1, e2 := Edges(s.fired), Edges(rest.fired);
      JoinAlternating(e1, e2, g.isInPushToTalkMode, s.next.isInPushToTalkMode);
      assert Edges(r.fired) == e1 + e2;
    }
  }

  /** An edge of one snapshot followed by an alternating run is an alternating run. */
  lemma JoinAlternating(e1: seq<Callback>, e2: seq<Callback>, open: bool, mid: bool)
    requires (e1 == [] && mid == open) || (e1 == [if open then FnKeyUp else FnKeyDown] && mid == !open)
    requires AlternatingFrom(e2, mid)
    ensures AlternatingFrom(e1 + e2, open)
    ensures (if e2 == [] then mid else e2[|e2| - 1] == FnKeyDown) ==
            (if e1 + e2 == [] then open else (e1 + e2)[|e1 + e2| - 1] == FnKeyDown)
  {
    if e1 == [] {
      assert e1 + e2 == e2;
    } else {
      assert (e1 + e2)[1..] == e2;
    }
  }

  /**
    From the initial state every `onFnKeyUp` is preceded by its own
    `onFnKeyDown`: the edge callbacks alternate, starting with a down.
  */
  lemma DownUpAlternate(trace: seq<Snapshot>)
    ensures AlternatingFrom(Edges(Run(Initial, trace).fired), false)
  {
    EdgesAlternate(Initial, trace);
  }

  /** A lone tap (press, then release, no press recorded within 300 ms before it) fires nothing. */
  lemma LoneTapIsSilent(g: Gesture, pressAt: int, releaseAt: int)
    requires !g.isFnPressed && !g.isInPushToTalkMode && !IsDoubleTap(g, pressAt)
    ensures Run(g, [Snapshot(true, pressAt), Snapshot(false, releaseAt)]).fired == []
  {
  }

  /** The 300 ms bound is strict: a second press 299 ms after the first arms push-to-talk, one 300 ms after does not. */
  lemma ThresholdIsStrict()
    ensures Run(Initial, [Snapshot(true, 0), Snapshot(false, 50), Snapshot(true, 299)]).fired == [DoubleTapFn, FnKeyDown]
    ensures Run(Initial, [Snapshot(true, 0), Snapshot(false, 50), Snapshot(true, 300)]).fired == []
  {
  }

  /** The press that follows a recognised double-tap is never a double-tap itself. */
  lemma NoDoubleTapRightAfterDoubleTap(g: Gesture, t1: int, t2: int, t3: int)
    requires !g.isFnPressed && IsDoubleTap(g, t1)
    ensures var s1 := FlagsChanged(g, true, t1);
      var s2 := FlagsChanged(s1.next, false, t2);
      var s3 := FlagsChanged(s2.next, true, t3);
      s1.fired == [DoubleTapFn, FnKeyDown] && s2.fired == [FnKeyUp] && s3.fired == [] &&
      s3.next.lastFnPressTime == Some(t3)
  {
  }

  /**
    The Fn-key monitor's state. The NSEvent monitors that feed it are left out;
    each handler returns the callbacks it fired.
  */
  class HotkeyManager {
    var lastFnPressTime: Option<int>
    var isFnPressed: bool
    var isInPushToTalkMode: bool

    function State(): (g: Gesture)
      reads this
    {
      Gesture(isFnPressed, lastFnPressTime, isInPushToTalkMode)
    }

    constructor ()
      ensures State() == Initial
    {
      lastFnPressTime := None;
      isFnPressed := false;
      isInPushToTalkMode := false;
    }

    method HandleFlagsChanged(fnPressed: bool, now: int) returns (fired: seq<Callback>)
      modifies this
      ensures Step(State(), fired) == FlagsChanged(old(State()), fnPressed, now)
    {
      fired := [];
      if fnPressed && !isFnPressed {
        fired := HandleFnKeyDown(now);
      } else if !fnPressed && isFnPressed {
        fired := HandleFnKeyUp();
      }
      isFnPressed := fnPressed;
    }

    method HandleFnKeyDown(now: int) returns (fired: seq<Callback>)
      modifies this
      ensures Step(State(), fired) == KeyDown(old(State()), now)
    {
      if lastFnPressTime.Some? && now - lastFnPressTime.value < DoubleTapThresholdMs {
        isInPushToTalkMode := true;
        fired := [DoubleTapFn, FnKeyDown];
        lastFnPressTime := None;
      } else {
        lastFnPressTime := Some(now);
        fired := [];
      }
    }

    method HandleFnKeyUp() returns (fired: seq<Callback>)
      modifies this
      ensures Step(State(), fired) == KeyUp(old(State()))
    {
      fired := [];
      if isInPushToTalkMode {
        fired := [FnKeyUp];
        isInPushToTalkMode := false;
      }
    }

    /**
      The check scheduled `holdThreshold` after a first press: it tests whether
      the key is still held but takes no action in either case.
    */
    method HoldCheck() returns (fired: seq<Callback>)
      ensures fired == []
    {
      fired := [];
      if isFnPressed && lastFnPressTime.Some? {
        // a single press still held: deliberately no callback
      }
    }
  }
}
