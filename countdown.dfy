/**
 * The countdown timer as a state machine over values. A `TimerState` is the
 * timer's remaining time, its pause flag and every event it has raised so
 * far; each operation of the Timer class is a function here, and those that
 * touch the broadcaster also say what they do to the timer's channel.
 */
module Countdown {
  import opened Delegates
  import opened Ticking

  /** Which broadcaster channel a timer listens to; fixed at construction. */
  datatype TimerType = SecondTick | UpdateTick | SecondTickUnscaled | UpdateTickUnscaled

  /** The switch of SubscribeEvents / UnsubscribeEvents. */
  function ChannelOf(t: TimerType): (c: Channel)
    ensures c == SecondTicked <==> t == SecondTick
    ensures c == UpdateTicked <==> t == UpdateTick
    ensures c == SecondTickedUnscaled <==> t == SecondTickUnscaled
    ensures c == UpdateTickedUnscaled <==> t == UpdateTickUnscaled
  {
    match t
    case SecondTick => SecondTicked
    case UpdateTick => UpdateTicked
    case SecondTickUnscaled => SecondTickedUnscaled
    case UpdateTickUnscaled => UpdateTickedUnscaled
  }

  /** TimerValueChanged(value), TimerFinished, TimerPaused, TimerUnpaused. */
  datatype TimerEvent = ValueChanged(value: real) | Finished | Paused | Unpaused

  datatype TimerState = TimerState(remaining: real, paused: bool, trace: seq<TimerEvent>)

  /** A new state and what the operation did to the timer's own channel. */
  datatype Effect = Effect(state: TimerState, change: Change)

  /** The only way the remaining time is written: overwrite it and announce the new value. */
  function SetRemainingTime(s: TimerState, value: real): (r: TimerState)
    ensures r.remaining == value && r.paused == s.paused
    ensures r.trace == s.trace + [ValueChanged(value)]
  {
    s.(remaining := value, trace := s.trace + [ValueChanged(value)])
  }

  /** A timer as its constructor leaves it: fields at their defaults, then the setter. */
  function Created(duration: real): (r: TimerState)
    ensures r.remaining == duration && !r.paused && r.trace == [ValueChanged(duration)]
  {
    SetRemainingTime(TimerState(0.0, false, []), duration)
  }

  /** Start(): a finished timer (remaining <= 0) only logs; otherwise unpause, subscribe, announce. */
  function Start(s: TimerState): (r: Effect)
    ensures r.state.remaining == s.remaining
    ensures r.change == Add <==> s.remaining > 0.0
    ensures r.change != Remove
    ensures s.remaining <= 0.0 ==> r.state == s
    ensures s.remaining > 0.0 ==> !r.state.paused && r.state.trace == s.trace + [ValueChanged(s.remaining)]
  {
    if s.remaining <= 0.0 then Effect(s, Keep)
    else Effect(s.(paused := false, trace := s.trace + [ValueChanged(s.remaining)]), Add)
  }

  /** Pause(): set the flag, unsubscribe once, announce. */
  function Pause(s: TimerState): (r: Effect)
    ensures r.state.paused && r.state.remaining == s.remaining
    ensures r.change == Remove && r.state.trace == s.trace + [Paused]
  {
    Effect(s.(paused := true, trace := s.trace + [Paused]), Remove)
  }

  /** Unpause(): clear the flag, run Start(), then announce TimerUnpaused whatever Start() did. */
  function Unpause(s: TimerState): (r: Effect)
    ensures !r.state.paused && r.state.remaining == s.remaining
    ensures r.change == Start(s).change
    ensures r.state.trace == Start(s).state.trace + [Unpaused]
  {
    var started := Start(s.(paused := false));
    Effect(started.state.(trace := started.state.trace + [Unpaused]), started.change)
  }

  /** Stop(): clear the flag, set the remaining time to 0 through the setter, announce TimerFinished. */
  function Stop(s: TimerState): (r: TimerState)
    ensures r.remaining == 0.0 && !r.paused
    ensures r.trace == s.trace + [ValueChanged(0.0), Finished]
  {
    var zeroed := SetRemainingTime(s.(paused := false), 0.0);
    zeroed.(trace := zeroed.trace + [Finished])
  }

  /**
   * OnUpdateTimerTicked(delta): ignored while paused; otherwise subtract
   * and announce the (possibly negative) result, then CheckFinish stops the
   * timer when nothing is left.
   */
  function OnUpdateTimerTicked(s: TimerState, delta: real): (r: TimerState)
    ensures s.paused ==> r == s
    ensures !s.paused ==> !r.paused && r.remaining == if s.remaining - delta > 0.0 then s.remaining - delta else 0.0
  {
    if s.paused then s
    else
      var decremented := SetRemainingTime(s, s.remaining - delta);
      if decremented.remaining <= 0.0 then Stop(decremented) else decremented
  }

  /**
   * What one unpaused tick raises: the decremented value first (even when
   * negative), then, only when nothing is left, TimerValueChanged(0) and
   * TimerFinished. The first ensures picks out, as a corollary of the
   * exact trace in the second, the first and last events and when
   * TimerFinished appears.
   */
  lemma TickAnnouncements(s: TimerState, delta: real)
    requires !s.paused
    ensures var r := OnUpdateTimerTicked(s, delta);
            |r.trace| > |s.trace| && r.trace[..|s.trace|] == s.trace
            && r.trace[|s.trace|] == ValueChanged(s.remaining - delta)
            && (Finished in r.trace[|s.trace|..] <==> s.remaining - delta <= 0.0)
            && r.trace[|r.trace| - 1] == (if s.remaining - delta <= 0.0 then Finished else ValueChanged(r.remaining))
    ensures OnUpdateTimerTicked(s, delta).trace ==
              s.trace + if s.remaining - delta <= 0.0
                        then [ValueChanged(s.remaining - delta), ValueChanged(0.0), Finished]
                        else [ValueChanged(s.remaining - delta)]
  {
    var r := OnUpdateTimerTicked(s, delta);
    if s.remaining - delta <= 0.0 {
      assert r.trace[|s.trace|..] == [ValueChanged(s.remaining - delta), ValueChanged(0.0), Finished];
    } else {
      assert r.trace[|s.trace|..] == [ValueChanged(s.remaining - delta)];
    }
  }

  /** OnSecondTimerTicked(): the per-frame handler with a delta of exactly one second. */
  function OnSecondTimerTicked(s: TimerState): (r: TimerState)
    ensures s.paused ==> r == s
    ensures !s.paused ==> !r.paused && r.remaining == if s.remaining > 1.0 then s.remaining - 1.0 else 0.0
  {
    OnUpdateTimerTicked(s, 1.0)
  }

  /** `n` deliveries of the same per-frame delta, one after the other. */
  function TickTimes(s: TimerState, delta: real, n: nat): TimerState
  {
    if n == 0 then s else OnUpdateTimerTicked(TickTimes(s, delta, n - 1), delta)
  }

  /** A paused timer is frozen however many ticks still reach it. */
  lemma {:induction false} PausedTimerIgnoresTicks(s: TimerState, delta: real, n: nat)
    requires s.paused
    ensures TickTimes(s, delta, n) == s
  {
    if n > 0 {
      PausedTimerIgnoresTicks(s, delta, n - 1);
    }
  }

  /** A running timer loses exactly `delta` per tick until it reaches 0, and then stays at 0. */
  lemma {:induction false} CountsDown(s: TimerState, delta: real, n: nat)
    requires !s.paused && s.remaining >= 0.0
    ensures !TickTimes(s, delta, n).paused
    ensures TickTimes(s, delta, n).remaining ==
              if s.remaining - n as real * delta > 0.0 then s.remaining - n as real * delta else 0.0
  {
    if n > 0 {
      CountsDown(s, delta, n - 1);
      var before := TickTimes(s, delta, n - 1);
      assert TickTimes(s, delta, n) == OnUpdateTimerTicked(before, delta);
      assert n as real * delta == (n - 1) as real * delta + delta by {
        assert n as real == (n - 1) as real + 1.0;
      }
    }
  }

  /**
   * Stop() does not unsubscribe: a timer that reached 0 while subscribed
   * raises TimerFinished again on every later tick.
   */
  lemma {:induction false} FinishedTimerFinishesAgain(s: TimerState, delta: real, n: nat)
    requires !s.paused && s.remaining <= 0.0 && delta >= 0.0
    ensures !TickTimes(s, delta, n).paused && TickTimes(s, delta, n).remaining <= 0.0
    ensures Count(TickTimes(s, delta, n).trace, Finished) == Count(s.trace, Finished) + n
  {
    if n > 0 {
      FinishedTimerFinishesAgain(s, delta, n - 1);
      var before := TickTimes(s, delta, n - 1);
      var decremented := before.trace + [ValueChanged(before.remaining - delta)];
      var zeroed := decremented + [ValueChanged(0.0)];
      assert TickTimes(s, delta, n) == Stop(SetRemainingTime(before, before.remaining - delta));
      assert TickTimes(s, delta, n).trace == zeroed + [Finished];
      CountSnoc(before.trace, ValueChanged(before.remaining - delta), Finished);
      CountSnoc(decremented, ValueChanged(0.0), Finished);
      CountSnoc(zeroed, Finished, Finished);
    }
  }

  /** Start(duration) is the setter followed by Start(): two announcements and one subscription when positive. */
  lemma StartWithDuration(s: TimerState, duration: real)
    ensures var r := Start(SetRemainingTime(s, duration));
            r.state.remaining == duration
            && (duration > 0.0 ==> !r.state.paused && r.change == Add
                                   && r.state.trace == s.trace + [ValueChanged(duration), ValueChanged(duration)])
            && (duration <= 0.0 ==> r.state.paused == s.paused && r.change == Keep
                                    && r.state.trace == s.trace + [ValueChanged(duration)])
  {
  }

  /** A stopped timer is finished: Start() afterwards changes nothing and raises nothing. */
  lemma StoppedTimerIsInert(s: TimerState)
    ensures Start(Stop(s)) == Effect(Stop(s), Keep)
  {
  }

  /** Unpausing a finished timer subscribes nothing, yet clears the flag and still raises TimerUnpaused. */
  lemma UnpauseFinishedTimer(s: TimerState)
    requires s.remaining <= 0.0
    ensures Unpause(s) == Effect(s.(paused := false, trace := s.trace + [Unpaused]), Keep)
  {
  }

  /** Pause() right after a Start() that subscribed leaves the channel exactly as it was. */
  lemma PauseUndoesStart<T>(channel: seq<T>, handler: T, s: TimerState)
    requires s.remaining > 0.0
    ensures var started := Start(s);
            Apply(Apply(channel, handler, started.change), handler, Pause(started.state).change) == channel
  {
    RemoveUndoesAdd(channel, handler);
  }

  /** Start() while running subscribes a second time: each Start adds one occurrence. */
  lemma StartTwiceSubscribesTwice<T>(channel: seq<T>, handler: T, s: TimerState)
    requires s.remaining > 0.0
    ensures var first := Start(s);
            var second := Start(first.state);
            Count(Apply(Apply(channel, handler, first.change), handler, second.change), handler)
              == Count(channel, handler) + 2
  {
    ApplyCount(channel, handler, Add);
    ApplyCount(Apply(channel, handler, Add), handler, Add);
  }

  /**
   * Start(d), Stop(), Start(d) does not give a fresh timer: Stop() kept the
   * first subscription, so the timer ends up subscribed twice.
   */
  lemma RestartAfterStopSubscribesTwice<T>(channel: seq<T>, handler: T, s: TimerState, duration: real)
    requires duration > 0.0
    ensures var first := Start(SetRemainingTime(s, duration));
            var second := Start(SetRemainingTime(Stop(first.state), duration));
            second.state.remaining == duration && !second.state.paused
            && Count(Apply(Apply(channel, handler, first.change), handler, second.change), handler)
                 == Count(channel, handler) + 2
  {
    ApplyCount(channel, handler, Add);
    ApplyCount(Apply(channel, handler, Add), handler, Add);
  }

  /** How often a timer's handler occurs in each of the broadcaster's channels. */
  datatype Subscriptions = Subscriptions(update: nat, second: nat, updateUnscaled: nat, secondUnscaled: nat)
  {
    function Of(c: Channel): nat
    {
      match c
      case UpdateTicked => update
      case SecondTicked => second
      case UpdateTickedUnscaled => updateUnscaled
      case SecondTickedUnscaled => secondUnscaled
    }
  }

  /** Subscribed once, to the channel of its own type, as after a single Start(). */
  function Once(t: TimerType): (r: Subscriptions)
    ensures forall c :: r.Of(c) == if c == ChannelOf(t) then 1 else 0
  {
    match t
    case SecondTick => Subscriptions(0, 1, 0, 0)
    case UpdateTick => Subscriptions(1, 0, 0, 0)
    case SecondTickUnscaled => Subscriptions(0, 0, 0, 1)
    case UpdateTickUnscaled => Subscriptions(0, 0, 1, 0)
  }

  /** The delta a handler applies for a tick: the frame's delta, or 1 for a second tick. */
  function HandlerDelta(k: Tick): real
  {
    match k
    case PerFrame(d) => d
    case PerFrameUnscaled(d) => d
    case PerSecond => 1.0
    case PerSecondUnscaled => 1.0
  }

  /** One dispatch reaches the timer once per occurrence of its handler in that channel. */
  function Receive(s: TimerState, k: Tick, subs: Subscriptions): TimerState
  {
    TickTimes(s, HandlerDelta(k), subs.Of(k.On()))
  }

  /** The timer after a sequence of dispatches, oldest first. */
  function Deliver(s: TimerState, ks: seq<Tick>, subs: Subscriptions): TimerState
  {
    if ks == [] then s else Receive(Deliver(s, ks[..|ks| - 1], subs), ks[|ks| - 1], subs)
  }

  lemma DeliverOne(s: TimerState, k: Tick, subs: Subscriptions)
    ensures Deliver(s, [k], subs) == Receive(s, k, subs)
  {
    assert [k][..0] == [];
  }

  lemma {:induction false} DeliverAppend(s: TimerState, a: seq<Tick>, b: seq<Tick>, subs: Subscriptions)
    ensures Deliver(s, a + b, subs) == Deliver(Deliver(s, a, subs), b, subs)
  {
    if b == [] {
      assert a + b == a;
    } else {
      assert (a + b)[..|a + b| - 1] == a + b[..|b| - 1];
      DeliverAppend(s, a, b[..|b| - 1], subs);
    }
  }

  /**
   * Per frame, a timer subscribed once to its own channel is ticked exactly
   * once with the frame's delta (per-frame types), or once with 1 second
   * exactly when that accumulator overflows (second types).
   */
  lemma OneTickPerFrame(s: TimerState, t: TimerType, c: Clock, f: Frame)
    ensures Deliver(s, Step(c, f).ticks, Once(t)) ==
              match t
              case UpdateTick => OnUpdateTimerTicked(s, f.delta)
              case UpdateTickUnscaled => OnUpdateTimerTicked(s, f.unscaledDelta)
              case SecondTick => if c.scaled + f.delta >= 1.0 then OnSecondTimerTicked(s) else s
              case SecondTickUnscaled => if c.unscaled + f.unscaledDelta >= 1.0 then OnSecondTimerTicked(s) else s
  {
    var sc := Carry(c.scaled, f.delta);
    var un := Carry(c.unscaled, f.unscaledDelta);
    var a := ScaledTicks(f.delta, sc.fired);
    var b := UnscaledTicks(f.unscaledDelta, un.fired);
    DeliverAppend(s, a, b, Once(t));
    DeliverPart(s, [PerFrame(f.delta)], if sc.fired then [PerSecond] else [], Once(t));
    DeliverPart(Deliver(s, a, Once(t)), [PerFrameUnscaled(f.unscaledDelta)],
                if un.fired then [PerSecondUnscaled] else [], Once(t));
    var x1 := Receive(s, PerFrame(f.delta), Once(t));
    var x2 := if sc.fired then Receive(x1, PerSecond, Once(t)) else x1;
    var x3 := Receive(x2, PerFrameUnscaled(f.unscaledDelta), Once(t));
    ReceiveOnce(s, PerFrame(f.delta), t);
    ReceiveOnce(x1, PerSecond, t);
    ReceiveOnce(x2, PerFrameUnscaled(f.unscaledDelta), t);
    ReceiveOnce(x3, PerSecondUnscaled, t);
  }

  lemma ReceiveOnce(s: TimerState, k: Tick, t: TimerType)
    ensures Receive(s, k, Once(t)) == if k.On() == ChannelOf(t) then OnUpdateTimerTicked(s, HandlerDelta(k)) else s
  {
    if k.On() == ChannelOf(t) {
      assert TickTimes(s, HandlerDelta(k), 1) == OnUpdateTimerTicked(TickTimes(s, HandlerDelta(k), 0), HandlerDelta(k));
    }
  }

  lemma DeliverPart(s: TimerState, one: seq<Tick>, maybe: seq<Tick>, subs: Subscriptions)
    requires |one| == 1 && |maybe| <= 1
    ensures Deliver(s, one + maybe, subs) ==
              if maybe == [] then Receive(s, one[0], subs)
              else Receive(Receive(s, one[0], subs), maybe[0], subs)
  {
    assert one[..0] == [];
    assert Deliver(s, one, subs) == Receive(s, one[0], subs);
    if maybe != [] {
      assert (one + maybe)[..1] == one;
      assert (one + maybe)[1] == maybe[0];
    } else {
      assert one + maybe == one;
    }
  }

  /**
   * The behaviour a caller sees: a timer created with 5 seconds of type
   * UpdateTick, started, then ticked five times by one second.
   */
  lemma FiveSecondCountdown()
    ensures var started := Start(Created(5.0)).state;
            var done := TickTimes(started, 1.0, 5);
            done.remaining == 0.0 && !done.paused
            && done.trace == [ValueChanged(5.0), ValueChanged(5.0), ValueChanged(4.0), ValueChanged(3.0),
                              ValueChanged(2.0), ValueChanged(1.0), ValueChanged(0.0), ValueChanged(0.0), Finished]
  {
    var s0 := Start(Created(5.0)).state;
    assert TickTimes(s0, 1.0, 1).trace == s0.trace + [ValueChanged(4.0)];
    assert TickTimes(s0, 1.0, 2).trace == s0.trace + [ValueChanged(4.0), ValueChanged(3.0)];
    assert TickTimes(s0, 1.0, 3).trace == s0.trace + [ValueChanged(4.0), ValueChanged(3.0), ValueChanged(2.0)];
    assert TickTimes(s0, 1.0, 4).remaining == 1.0;
  }
}
