/**
 * The arithmetic and the dispatch order of the tick broadcaster
 * (TimeInvoker.Update), as pure functions: one `Step` is one frame, a `Run`
 * is any number of frames.
 */
module Ticking {

  /** The broadcaster's four events. */
  datatype Channel = UpdateTicked | SecondTicked | UpdateTickedUnscaled | SecondTickedUnscaled

  /** One dispatch on a channel; the two per-frame channels carry the frame's delta. */
  datatype Tick = PerFrame(delta: real) | PerSecond | PerFrameUnscaled(delta: real) | PerSecondUnscaled
  {
    function On(): Channel
    {
      match this
      case PerFrame(_) => UpdateTicked
      case PerSecond => SecondTicked
      case PerFrameUnscaled(_) => UpdateTickedUnscaled
      case PerSecondUnscaled => SecondTickedUnscaled
    }

    /** Position of the tick's channel in the fixed per-frame order. */
    function Rank(): nat
    {
      match this
      case PerFrame(_) => 0
      case PerSecond => 1
      case PerFrameUnscaled(_) => 2
      case PerSecondUnscaled => 3
    }
  }

  /** The two second accumulators, `_secondTime` and `_secondTimeUnscaled`. */
  datatype Clock = Clock(scaled: real, unscaled: real)

  /** A frame's two deltas, `Time.deltaTime` and `Time.unscaledDeltaTime`. */
  datatype Frame = Frame(delta: real, unscaledDelta: real)

  datatype Carried = Carried(fired: bool, rest: real)

  /**
   * `acc += delta; if (acc >= 1) { acc -= 1; fire }`: a single test, not a
   * loop, so at most one second fires however large `delta` is, and the
   * fraction (or a backlog of whole seconds) is carried to the next frame.
   */
  function Carry(acc: real, delta: real): (r: Carried)
    ensures r.fired <==> acc + delta >= 1.0
    ensures r.rest + (if r.fired then 1.0 else 0.0) == acc + delta
  {
    var sum := acc + delta;
    if sum >= 1.0 then Carried(true, sum - 1.0) else Carried(false, sum)
  }

  /** What one frame produces: the accumulators afterwards and the ticks dispatched, in order. */
  datatype Cycle = Cycle(next: Clock, ticks: seq<Tick>)

  /** Number of `SecondTicked` dispatches in `ts`. */
  function Seconds(ts: seq<Tick>): nat
  {
    if ts == [] then 0 else (if ts[0] == PerSecond then 1 else 0) + Seconds(ts[1..])
  }

  /** Number of `SecondTickedUnscaled` dispatches in `ts`. */
  function SecondsUnscaled(ts: seq<Tick>): nat
  {
    if ts == [] then 0 else (if ts[0] == PerSecondUnscaled then 1 else 0) + SecondsUnscaled(ts[1..])
  }

  /** Sum of the deltas carried by the `UpdateTicked` dispatches in `ts`. */
  function Elapsed(ts: seq<Tick>): real
  {
    if ts == [] then 0.0 else (if ts[0].PerFrame? then ts[0].delta else 0.0) + Elapsed(ts[1..])
  }

  /** Sum of the deltas carried by the `UpdateTickedUnscaled` dispatches in `ts`. */
  function ElapsedUnscaled(ts: seq<Tick>): real
  {
    if ts == [] then 0.0 else (if ts[0].PerFrameUnscaled? then ts[0].delta else 0.0) + ElapsedUnscaled(ts[1..])
  }

  /** The second tick `k`, when its accumulator overflowed. */
  function Due(fired: bool, k: Tick): (ts: seq<Tick>)
    ensures |ts| <= 1
  {
    if fired then [k] else []
  }

  /** The scaled half of a frame: `UpdateTicked(delta)`, then `SecondTicked` if the accumulator overflowed. */
  function ScaledTicks(delta: real, fired: bool): (ts: seq<Tick>)
    ensures Seconds(ts) == (if fired then 1 else 0) && SecondsUnscaled(ts) == 0
    ensures Elapsed(ts) == delta && ElapsedUnscaled(ts) == 0.0
  {
    var ts := [PerFrame(delta)] + Due(fired, PerSecond);
    assert ts[1..] == Due(fired, PerSecond);
    assert [PerSecond][1..] == [];
    ts
  }

  /** The unscaled half: `UpdateTickedUnscaled(delta)`, then `SecondTickedUnscaled` on overflow. */
  function UnscaledTicks(delta: real, fired: bool): (ts: seq<Tick>)
    ensures Seconds(ts) == 0 && SecondsUnscaled(ts) == (if fired then 1 else 0)
    ensures Elapsed(ts) == 0.0 && ElapsedUnscaled(ts) == delta
  {
    var ts := [PerFrameUnscaled(delta)] + Due(fired, PerSecondUnscaled);
    assert ts[1..] == Due(fired, PerSecondUnscaled);
    assert [PerSecondUnscaled][1..] == [];
    ts
  }

  /**
   * One call of Update: the per-frame tick, then possibly the second tick,
   * then the unscaled per-frame tick, then possibly the unscaled second tick.
   * Each accumulator sees only its own delta.
   */
  function Step(c: Clock, f: Frame): (r: Cycle)
    ensures 2 <= |r.ticks| <= 4 && r.ticks[0] == PerFrame(f.delta)
    ensures r.next.scaled + (if c.scaled + f.delta >= 1.0 then 1.0 else 0.0) == c.scaled + f.delta
    ensures r.next.unscaled + (if c.unscaled + f.unscaledDelta >= 1.0 then 1.0 else 0.0) == c.unscaled + f.unscaledDelta
  {
    var s := Carry(c.scaled, f.delta);
    var u := Carry(c.unscaled, f.unscaledDelta);
    Cycle(Clock(s.rest, u.rest), ScaledTicks(f.delta, s.fired) + UnscaledTicks(f.unscaledDelta, u.fired))
  }

  /**
   * The order of one frame's dispatches: always both per-frame ticks, each
   * second tick exactly when its accumulator reaches 1, channels in the
   * fixed order and none twice.
   */
  lemma StepOrder(c: Clock, f: Frame)
    ensures var r := Step(c, f);
            && (forall i, j :: 0 <= i < j < |r.ticks| ==> r.ticks[i].Rank() < r.ticks[j].Rank())
            && PerFrame(f.delta) in r.ticks && PerFrameUnscaled(f.unscaledDelta) in r.ticks
            && (PerSecond in r.ticks <==> c.scaled + f.delta >= 1.0)
            && (PerSecondUnscaled in r.ticks <==> c.unscaled + f.unscaledDelta >= 1.0)
  {
    var s := Carry(c.scaled, f.delta);
    var u := Carry(c.unscaled, f.unscaledDelta);
    var frame, frameUnscaled := PerFrame(f.delta), PerFrameUnscaled(f.unscaledDelta);
    var ts := Step(c, f).ticks;
    if s.fired && u.fired {
      assert ts == [frame, PerSecond, frameUnscaled, PerSecondUnscaled];
    } else if s.fired {
      assert ts == [frame, PerSecond, frameUnscaled];
    } else if u.fired {
      assert ts == [frame, frameUnscaled, PerSecondUnscaled];
    } else {
      assert ts == [frame, frameUnscaled];
    }
  }

  /** Every second a frame fires and every delta it reports are accounted for in the accumulators. */
  lemma StepBalance(c: Clock, f: Frame)
    ensures var r := Step(c, f);
            && Seconds(r.ticks) as real + r.next.scaled == c.scaled + f.delta
            && SecondsUnscaled(r.ticks) as real + r.next.unscaled == c.unscaled + f.unscaledDelta
            && Elapsed(r.ticks) == f.delta && ElapsedUnscaled(r.ticks) == f.unscaledDelta
  {
    var s := Carry(c.scaled, f.delta);
    var u := Carry(c.unscaled, f.unscaledDelta);
    CountsAppend(ScaledTicks(f.delta, s.fired), UnscaledTicks(f.unscaledDelta, u.fired));
  }

  /** A log of ticks that accounts for every second of both accumulators still does after one more frame. */
  lemma BalanceKept(ts: seq<Tick>, c: Clock, f: Frame)
    requires Seconds(ts) as real + c.scaled == Elapsed(ts)
    requires SecondsUnscaled(ts) as real + c.unscaled == ElapsedUnscaled(ts)
    ensures var r := Step(c, f);
            && Seconds(ts + r.ticks) as real + r.next.scaled == Elapsed(ts + r.ticks)
            && SecondsUnscaled(ts + r.ticks) as real + r.next.unscaled == ElapsedUnscaled(ts + r.ticks)
  {
    StepBalance(c, f);
    CountsAppend(ts, Step(c, f).ticks);
  }

  lemma {:induction false} CountsAppend(a: seq<Tick>, b: seq<Tick>)
    ensures Seconds(a + b) == Seconds(a) + Seconds(b)
    ensures SecondsUnscaled(a + b) == SecondsUnscaled(a) + SecondsUnscaled(b)
    ensures Elapsed(a + b) == Elapsed(a) + Elapsed(b)
    ensures ElapsedUnscaled(a + b) == ElapsedUnscaled(a) + ElapsedUnscaled(b)
  {
    if a != [] {
      assert (a + b)[1..] == a[1..] + b;
      CountsAppend(a[1..], b);
    } else {
      assert a + b == b;
    }
  }

  /** Any number of consecutive Update calls, oldest frame first. */
  function Run(c: Clock, fs: seq<Frame>): Cycle
  {
    if fs == [] then Cycle(c, [])
    else
      var before := Run(c, fs[..|fs| - 1]);
      var last := Step(before.next, fs[|fs| - 1]);
      Cycle(last.next, before.ticks + last.ticks)
  }

  function TotalDelta(fs: seq<Frame>): real
  {
    if fs == [] then 0.0 else TotalDelta(fs[..|fs| - 1]) + fs[|fs| - 1].delta
  }

  function TotalUnscaledDelta(fs: seq<Frame>): real
  {
    if fs == [] then 0.0 else TotalUnscaledDelta(fs[..|fs| - 1]) + fs[|fs| - 1].unscaledDelta
  }

  /**
   * No time is lost or invented across frames: seconds fired plus the
   * current accumulator equal the starting accumulator plus every delta.
   */
  lemma {:induction false} Conservation(c: Clock, fs: seq<Frame>)
    ensures Seconds(Run(c, fs).ticks) as real + Run(c, fs).next.scaled == c.scaled + TotalDelta(fs)
    ensures SecondsUnscaled(Run(c, fs).ticks) as real + Run(c, fs).next.unscaled == c.unscaled + TotalUnscaledDelta(fs)
    ensures Elapsed(Run(c, fs).ticks) == TotalDelta(fs)
    ensures ElapsedUnscaled(Run(c, fs).ticks) == TotalUnscaledDelta(fs)
  {
    if fs != [] {
      var before := Run(c, fs[..|fs| - 1]);
      var last := Step(before.next, fs[|fs| - 1]);
      Conservation(c, fs[..|fs| - 1]);
      CountsAppend(before.ticks, last.ticks);
    }
  }

  /** With every scaled delta in [0, 1), a scaled accumulator that starts in [0, 1) stays there. */
  lemma {:induction false} ScaledStaysBelowOneSecond(c: Clock, fs: seq<Frame>)
    requires 0.0 <= c.scaled < 1.0
    requires forall i :: 0 <= i < |fs| ==> 0.0 <= fs[i].delta < 1.0
    ensures 0.0 <= Run(c, fs).next.scaled < 1.0
  {
    if fs != [] {
      ScaledStaysBelowOneSecond(c, fs[..|fs| - 1]);
    }
  }

  /** The same for the unscaled accumulator, whatever the scaled deltas are. */
  lemma {:induction false} UnscaledStaysBelowOneSecond(c: Clock, fs: seq<Frame>)
    requires 0.0 <= c.unscaled < 1.0
    requires forall i :: 0 <= i < |fs| ==> 0.0 <= fs[i].unscaledDelta < 1.0
    ensures 0.0 <= Run(c, fs).next.unscaled < 1.0
  {
    if fs != [] {
      UnscaledStaysBelowOneSecond(c, fs[..|fs| - 1]);
    }
  }

  /**
   * Because the overflow test is an `if`, a frame of 2.5 seconds fires one
   * second tick, not two, and leaves 1.5 in the accumulator; the next frame
   * fires again even with a zero delta.
   */
  lemma LongFrameLeavesBacklog()
    ensures Seconds(Step(Clock(0.0, 0.0), Frame(2.5, 0.0)).ticks) == 1
    ensures Step(Clock(0.0, 0.0), Frame(2.5, 0.0)).next.scaled == 1.5
    ensures Seconds(Run(Clock(0.0, 0.0), [Frame(2.5, 0.0), Frame(0.0, 0.0)]).ticks) == 2
  {
    var fs := [Frame(2.5, 0.0), Frame(0.0, 0.0)];
    var first := Step(Clock(0.0, 0.0), Frame(2.5, 0.0));
    assert Seconds(first.ticks) == 1 && first.next == Clock(1.5, 0.0);
    assert fs[..1] == [Frame(2.5, 0.0)] && fs[..1][..0] == [];
    assert Run(Clock(0.0, 0.0), fs[..1]) == Cycle(first.next, [] + first.ticks);
    var second := Step(Clock(1.5, 0.0), Frame(0.0, 0.0));
    assert Seconds(second.ticks) == 1;
    assert Run(Clock(0.0, 0.0), fs).ticks == [] + first.ticks + second.ticks;
    assert [] + first.ticks == first.ticks;
    CountsAppend(first.ticks, second.ticks);
  }

  /**
   * However long a frame is, it fires at most one second tick per clock;
   * the next frame inherits a whole second exactly when accumulator plus
   * delta reached 2.
   */
  lemma AtMostOneSecondPerFrame(c: Clock, f: Frame)
    ensures Seconds(Step(c, f).ticks) <= 1 && SecondsUnscaled(Step(c, f).ticks) <= 1
    ensures Step(c, f).next.scaled >= 1.0 <==> c.scaled + f.delta >= 2.0
    ensures Step(c, f).next.unscaled >= 1.0 <==> c.unscaled + f.unscaledDelta >= 2.0
  {
    var s := Carry(c.scaled, f.delta);
    var u := Carry(c.unscaled, f.unscaledDelta);
    CountsAppend(ScaledTicks(f.delta, s.fired), UnscaledTicks(f.unscaledDelta, u.fired));
  }

  /** The scaled accumulator and its second tick never depend on the unscaled delta, and vice versa. */
  lemma ChannelsIndependent(c: Clock, f: Frame, g: Frame)
    ensures f.delta == g.delta ==>
              Step(c, f).next.scaled == Step(c, g).next.scaled
              && (PerSecond in Step(c, f).ticks <==> PerSecond in Step(c, g).ticks)
    ensures f.unscaledDelta == g.unscaledDelta ==>
              Step(c, f).next.unscaled == Step(c, g).next.unscaled
              && (PerSecondUnscaled in Step(c, f).ticks <==> PerSecondUnscaled in Step(c, g).ticks)
  {
  }
}
