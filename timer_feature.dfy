/**
 * The two classes of the timer feature, with their state updated in place:
 * the tick broadcaster (TimeInvoker) whose four channels are invocation
 * lists of timers, and the countdown Timer that subscribes to one of them.
 * Every method is proved against the functions of Ticking and Countdown.
 */
module TimerFeature {
  import opened Delegates
  import opened Ticking
  import opened Countdown

  /** One handler call made by the broadcaster: which timer received which tick. */
  datatype Delivery = Delivery(target: Timer, tick: Tick)

  /** The handler calls of one dispatch of `k`: every occurrence in `subs`, in list order. */
  function Fanout(subs: seq<Timer>, k: Tick): seq<Delivery>
  {
    if subs == [] then [] else Fanout(subs[..|subs| - 1], k) + [Delivery(subs[|subs| - 1], k)]
  }

  lemma FanoutSnoc(subs: seq<Timer>, target: Timer, k: Tick)
    ensures Fanout(subs + [target], k) == Fanout(subs, k) + [Delivery(target, k)]
  {
    assert (subs + [target])[..|subs|] == subs;
  }

  /** The `i`-th handler call of a dispatch goes to the `i`-th entry of the invocation list. */
  lemma {:induction false} FanoutInOrder(subs: seq<Timer>, k: Tick)
    ensures |Fanout(subs, k)| == |subs|
    ensures forall i :: 0 <= i < |subs| ==> Fanout(subs, k)[i] == Delivery(subs[i], k)
  {
    if subs != [] {
      FanoutInOrder(subs[..|subs| - 1], k);
    }
  }

  /** The broadcaster's four invocation lists, as one value. */
  datatype Channels = Channels(update: seq<Timer>, second: seq<Timer>,
                               updateUnscaled: seq<Timer>, secondUnscaled: seq<Timer>)
  {
    function Of(c: Channel): seq<Timer>
    {
      match c
      case UpdateTicked => update
      case SecondTicked => second
      case UpdateTickedUnscaled => updateUnscaled
      case SecondTickedUnscaled => secondUnscaled
    }

    /** The same lists, with that of channel `c` replaced by `s`. */
    function With(c: Channel, s: seq<Timer>): Channels
    {
      match c
      case UpdateTicked => this.(update := s)
      case SecondTicked => this.(second := s)
      case UpdateTickedUnscaled => this.(updateUnscaled := s)
      case SecondTickedUnscaled => this.(secondUnscaled := s)
    }

    /** How often `t` occurs in each list. */
    function Multiplicity(t: Timer): Subscriptions
    {
      Subscriptions(Count(update, t), Count(second, t), Count(updateUnscaled, t), Count(secondUnscaled, t))
    }
  }

  /** The handler calls that dispatching `ks` makes with the invocation lists `chs`. */
  function Fanouts(chs: Channels, ks: seq<Tick>): seq<Delivery>
  {
    if ks == [] then [] else Fanouts(chs, ks[..|ks| - 1]) + Fanout(chs.Of(ks[|ks| - 1].On()), ks[|ks| - 1])
  }

  lemma FanoutsOne(chs: Channels, k: Tick)
    ensures Fanouts(chs, [k]) == Fanout(chs.Of(k.On()), k)
  {
    assert [k][..0] == [];
  }

  lemma {:induction false} FanoutsAppend(chs: Channels, a: seq<Tick>, b: seq<Tick>)
    ensures Fanouts(chs, a + b) == Fanouts(chs, a) + Fanouts(chs, b)
  {
    if b == [] {
      assert a + b == a;
    } else {
      var front, k := b[..|b| - 1], b[|b| - 1];
      assert b == front + [k];
      assert a + b == (a + front) + [k];
      FanoutsAppend(chs, a, front);
      FanoutsSnoc(chs, a + front, k);
      FanoutsSnoc(chs, front, k);
      AppendAssociates(Fanouts(chs, a), Fanouts(chs, front), Fanout(chs.Of(k.On()), k));
    }
  }

  lemma FanoutsSnoc(chs: Channels, ks: seq<Tick>, k: Tick)
    ensures Fanouts(chs, ks + [k]) == Fanouts(chs, ks) + Fanout(chs.Of(k.On()), k)
  {
    assert (ks + [k])[..|ks|] == ks;
  }

  class TimeInvoker {
    var updateTicked: seq<Timer>
    var secondTicked: seq<Timer>
    var updateTickedUnscaled: seq<Timer>
    var secondTickedUnscaled: seq<Timer>
    var secondTime: real
    var secondTimeUnscaled: real
    /** Every tick dispatched so far, subscribed or not, oldest first. */
    ghost var dispatched: seq<Tick>
    /** Every handler call made so far, oldest first. */
    ghost var delivered: seq<Delivery>

    /** No second is lost or invented: seconds fired plus the accumulator equal all time reported. */
    ghost predicate Valid()
      reads this
    {
      && Seconds(dispatched) as real + secondTime == Elapsed(dispatched)
      && SecondsUnscaled(dispatched) as real + secondTimeUnscaled == ElapsedUnscaled(dispatched)
    }

    function Accumulators(): Clock
      reads this
    {
      Clock(secondTime, secondTimeUnscaled)
    }

    /** The four invocation lists. */
    function Lists(): Channels
      reads this`updateTicked, this`secondTicked, this`updateTickedUnscaled, this`secondTickedUnscaled
    {
      Channels(updateTicked, secondTicked, updateTickedUnscaled, secondTickedUnscaled)
    }

    /** The invocation list of channel `c`. */
    function Subscribers(c: Channel): seq<Timer>
      reads this`updateTicked, this`secondTicked, this`updateTickedUnscaled, this`secondTickedUnscaled
    {
      Lists().Of(c)
    }

    /** How often `t` occurs in each channel. */
    function Multiplicity(t: Timer): Subscriptions
      reads this`updateTicked, this`secondTicked, this`updateTickedUnscaled, this`secondTickedUnscaled
    {
      Lists().Multiplicity(t)
    }

    constructor ()
      ensures Valid()
      ensures Lists() == Channels([], [], [], [])
      ensures Accumulators() == Clock(0.0, 0.0)
      ensures dispatched == [] && delivered == []
    {
      updateTicked, secondTicked, updateTickedUnscaled, secondTickedUnscaled := [], [], [], [];
      secondTime, secondTimeUnscaled := 0.0, 0.0;
      dispatched, delivered := [], [];
    }

    /** One delegate call: a per-frame channel calls OnUpdateTimerTicked, a second channel OnSecondTimerTicked. */
    static method Call(target: Timer, k: Tick)
      modifies target
      ensures target.State() == OnUpdateTimerTicked(old(target.State()), HandlerDelta(k))
    {
      match k {
        case PerFrame(d) => target.OnUpdateTimerTicked(d);
        case PerFrameUnscaled(d) => target.OnUpdateTimerTicked(d);
        case PerSecond => target.OnSecondTimerTicked();
        case PerSecondUnscaled => target.OnSecondTimerTicked();
      }
    }

    /** The loop of a multicast invocation: each entry of `subs`, in order, once per occurrence. */
    method CallAll(subs: seq<Timer>, k: Tick)
      modifies this`delivered, subs
      ensures forall t :: t in subs ==> t.State() == TickTimes(old(t.State()), HandlerDelta(k), Count(subs, t))
      ensures delivered == old(delivered) + Fanout(subs, k)
    {
      var i := 0;
      while i < |subs|
        invariant 0 <= i <= |subs|
        invariant forall t :: t in subs ==> t.State() == TickTimes(old(t.State()), HandlerDelta(k), Count(subs[..i], t))
        invariant delivered == old(delivered) + Fanout(subs[..i], k)
      {
        var target := subs[i];
        label BeforeCall:
        Call(target, k);
        delivered := delivered + [Delivery(target, k)];
        assert subs[..i + 1] == subs[..i] + [target];
        FanoutSnoc(subs[..i], target, k);
        forall t | t in subs
          ensures t.State() == TickTimes(old(t.State()), HandlerDelta(k), Count(subs[..i + 1], t))
        {
          CountSnoc(subs[..i], target, t);
          if t != target {
            assert t.State() == old@BeforeCall(t.State());
          }
        }
        i := i + 1;
      }
      assert subs[..i] == subs;
    }

    /**
     * `Channel?.Invoke(...)`: call the handler of every subscriber of the
     * tick's channel, in list order, once per occurrence, and record the
     * dispatch.
     */
    method Invoke(k: Tick)
      modifies this`delivered, this`dispatched, updateTicked, secondTicked, updateTickedUnscaled, secondTickedUnscaled
      ensures forall t: Timer :: old(allocated(t)) ==> t.State() == Receive(old(t.State()), k, Multiplicity(t))
      ensures delivered == old(delivered) + Fanout(Subscribers(k.On()), k)
      ensures dispatched == old(dispatched) + [k]
    {
      var subs := Subscribers(k.On());
      CallAll(subs, k);
      dispatched := dispatched + [k];
      forall t: Timer | old(allocated(t))
        ensures t.State() == Receive(old(t.State()), k, Multiplicity(t))
      {
        assert Multiplicity(t).Of(k.On()) == Count(subs, t);
        if t !in subs {
          CountPositive(subs, t);
        }
      }
    }

    /** `if (_secondTime >= 1) { _secondTime -= 1; SecondTicked?.Invoke(); }` */
    method SecondIfDue()
      modifies this`secondTime, this`delivered, this`dispatched, updateTicked, secondTicked, updateTickedUnscaled, secondTickedUnscaled
      ensures var due := Due(old(secondTime) >= 1.0, PerSecond);
              && secondTime == (if old(secondTime) >= 1.0 then old(secondTime) - 1.0 else old(secondTime))
              && dispatched == old(dispatched) + due
              && delivered == old(delivered) + Fanouts(Lists(), due)
              && (forall t: Timer :: old(allocated(t)) ==> t.State() == Deliver(old(t.State()), due, Multiplicity(t)))
    {
      if secondTime >= 1.0 {
        secondTime := secondTime - 1.0;
        Invoke(PerSecond);
        FanoutsOne(Lists(), PerSecond);
        forall t: Timer | old(allocated(t))
          ensures t.State() == Deliver(old(t.State()), [PerSecond], Multiplicity(t))
        {
          DeliverOne(old(t.State()), PerSecond, Multiplicity(t));
        }
      }
    }

    /**
     * The scaled half of Update: UpdateTicked(delta), then `_secondTime +=
     * delta` and SecondTicked if it reached 1.
     */
    method TickScaled(delta: real)
      modifies this`secondTime, this`delivered, this`dispatched, updateTicked, secondTicked, updateTickedUnscaled, secondTickedUnscaled
      ensures var carried := Carry(old(secondTime), delta);
              var part := ScaledTicks(delta, carried.fired);
              && secondTime == carried.rest
              && dispatched == old(dispatched) + part
              && delivered == old(delivered) + Fanouts(Lists(), part)
              && (forall t: Timer :: old(allocated(t)) ==> t.State() == Deliver(old(t.State()), part, Multiplicity(t)))
    {
      ghost var carried := Carry(secondTime, delta);
      ghost var due := Due(carried.fired, PerSecond);
      ghost var first := Fanout(Subscribers(UpdateTicked), PerFrame(delta));
      Invoke(PerFrame(delta));
      secondTime := secondTime + delta;
      assert due == Due(secondTime >= 1.0, PerSecond);
      label Mid:
      SecondIfDue();
      forall t: Timer | old(allocated(t))
        ensures t.State() == Deliver(old(t.State()), [PerFrame(delta)] + due, Multiplicity(t))
      {
        assert old@Mid(t.State()) == Receive(old(t.State()), PerFrame(delta), Multiplicity(t));
        assert old@Mid(allocated(t));
        assert t.State() == Deliver(old@Mid(t.State()), due, Multiplicity(t));
        DeliverOne(old(t.State()), PerFrame(delta), Multiplicity(t));
        DeliverAppend(old(t.State()), [PerFrame(delta)], due, Multiplicity(t));
      }
      FanoutsOne(Lists(), PerFrame(delta));
      FanoutsAppend(Lists(), [PerFrame(delta)], due);
      AppendAssociates(old(delivered), first, Fanouts(Lists(), due));
      AppendAssociates(old(dispatched), [PerFrame(delta)], due);
    }

    /** `if (_secondTimeUnscaled >= 1) { _secondTimeUnscaled -= 1; SecondTickedUnscaled?.Invoke(); }` */
    method SecondUnscaledIfDue()
      modifies this`secondTimeUnscaled, this`delivered, this`dispatched, updateTicked, secondTicked, updateTickedUnscaled, secondTickedUnscaled
      ensures var due := Due(old(secondTimeUnscaled) >= 1.0, PerSecondUnscaled);
              && secondTimeUnscaled == (if old(secondTimeUnscaled) >= 1.0 then old(secondTimeUnscaled) - 1.0 else old(secondTimeUnscaled))
              && dispatched == old(dispatched) + due
              && delivered == old(delivered) + Fanouts(Lists(), due)
              && (forall t: Timer :: old(allocated(t)) ==> t.State() == Deliver(old(t.State()), due, Multiplicity(t)))
    {
      if secondTimeUnscaled >= 1.0 {
        secondTimeUnscaled := secondTimeUnscaled - 1.0;
        Invoke(PerSecondUnscaled);
        FanoutsOne(Lists(), PerSecondUnscaled);
        forall t: Timer | old(allocated(t))
          ensures t.State() == Deliver(old(t.State()), [PerSecondUnscaled], Multiplicity(t))
        {
          DeliverOne(old(t.State()), PerSecondUnscaled, Multiplicity(t));
        }
      }
    }

    /**
     * The unscaled half of Update: UpdateTickedUnscaled(unscaledDelta), then
     * `_secondTimeUnscaled += unscaledDelta` and SecondTickedUnscaled if it reached 1.
     */
    method TickUnscaled(unscaledDelta: real)
      modifies this`secondTimeUnscaled, this`delivered, this`dispatched, updateTicked, secondTicked, updateTickedUnscaled, secondTickedUnscaled
      ensures var carried := Carry(old(secondTimeUnscaled), unscaledDelta);
              var part := UnscaledTicks(unscaledDelta, carried.fired);
              && secondTimeUnscaled == carried.rest
              && dispatched == old(dispatched) + part
              && delivered == old(delivered) + Fanouts(Lists(), part)
              && (forall t: Timer :: old(allocated(t)) ==> t.State() == Deliver(old(t.State()), part, Multiplicity(t)))
    {
      ghost var carried := Carry(secondTimeUnscaled, unscaledDelta);
      ghost var due := Due(carried.fired, PerSecondUnscaled);
      ghost var first := Fanout(Subscribers(UpdateTickedUnscaled), PerFrameUnscaled(unscaledDelta));
      Invoke(PerFrameUnscaled(unscaledDelta));
      secondTimeUnscaled := secondTimeUnscaled + unscaledDelta;
      assert due == Due(secondTimeUnscaled >= 1.0, PerSecondUnscaled);
      label Mid:
      SecondUnscaledIfDue();
      forall t: Timer | old(allocated(t))
        ensures t.State() == Deliver(old(t.State()), [PerFrameUnscaled(unscaledDelta)] + due, Multiplicity(t))
      {
        assert old@Mid(t.State()) == Receive(old(t.State()), PerFrameUnscaled(unscaledDelta), Multiplicity(t));
        assert old@Mid(allocated(t));
        assert t.State() == Deliver(old@Mid(t.State()), due, Multiplicity(t));
        DeliverOne(old(t.State()), PerFrameUnscaled(unscaledDelta), Multiplicity(t));
        DeliverAppend(old(t.State()), [PerFrameUnscaled(unscaledDelta)], due, Multiplicity(t));
      }
      FanoutsOne(Lists(), PerFrameUnscaled(unscaledDelta));
      FanoutsAppend(Lists(), [PerFrameUnscaled(unscaledDelta)], due);
      AppendAssociates(old(delivered), first, Fanouts(Lists(), due));
      AppendAssociates(old(dispatched), [PerFrameUnscaled(unscaledDelta)], due);
    }

    /**
     * One frame: UpdateTicked(delta); the scaled second tick if its
     * accumulator reaches 1; UpdateTickedUnscaled(unscaledDelta); the
     * unscaled second tick if its accumulator reaches 1.
     */
    method Update(delta: real, unscaledDelta: real)
      requires Valid()
      modifies this`secondTime, this`secondTimeUnscaled, this`delivered, this`dispatched, updateTicked, secondTicked, updateTickedUnscaled, secondTickedUnscaled
      ensures Valid() && Lists() == old(Lists())
      ensures var cycle := Step(old(Accumulators()), Frame(delta, unscaledDelta));
              && Accumulators() == cycle.next
              && dispatched == old(dispatched) + cycle.ticks
              && delivered == old(delivered) + Fanouts(Lists(), cycle.ticks)
              && (forall t: Timer :: old(allocated(t)) ==> t.State() == Deliver(old(t.State()), cycle.ticks, Multiplicity(t)))
    {
      ghost var chs := Lists();
      ghost var clock, frame := Accumulators(), Frame(delta, unscaledDelta);
      ghost var dispatched0, delivered0 := dispatched, delivered;
      ghost var scaledPart := ScaledTicks(delta, Carry(secondTime, delta).fired);
      ghost var unscaledPart := UnscaledTicks(unscaledDelta, Carry(secondTimeUnscaled, unscaledDelta).fired);
      TickScaled(delta);
      label Mid:
      TickUnscaled(unscaledDelta);
      forall t: Timer | old(allocated(t))
        ensures t.State() == Deliver(old(t.State()), scaledPart + unscaledPart, chs.Multiplicity(t))
      {
        assert old@Mid(allocated(t));
        DeliverAppend(old(t.State()), scaledPart, unscaledPart, chs.Multiplicity(t));
      }
      FanoutsAppend(chs, scaledPart, unscaledPart);
      AppendAssociates(delivered0, Fanouts(chs, scaledPart), Fanouts(chs, unscaledPart));
      AppendAssociates(dispatched0, scaledPart, unscaledPart);
      assert Step(clock, frame) == Cycle(Accumulators(), scaledPart + unscaledPart);
      BalanceKept(dispatched0, clock, frame);
    }
  }

  class Timer {
    const timerType: TimerType
    const invoker: TimeInvoker
    var remainingTime: real
    var isPaused: bool
    /** Every TimerValueChanged / TimerFinished / TimerPaused / TimerUnpaused raised, oldest first. */
    var events: seq<TimerEvent>

    function State(): TimerState
      reads this
    {
      TimerState(remainingTime, isPaused, events)
    }

    /**
     * The broadcaster changed only in this timer's own channel, by `c`, and
     * its accumulators and logs are untouched.
     */
    twostate predicate ChannelChanged(c: Change)
      reads invoker
    {
      && invoker.Lists() == old(invoker.Lists()).With(ChannelOf(timerType), Apply(old(invoker.Subscribers(ChannelOf(timerType))), this, c))
      && invoker.Accumulators() == old(invoker.Accumulators())
      && invoker.dispatched == old(invoker.dispatched)
      && invoker.delivered == old(invoker.delivered)
    }

    constructor (timerType: TimerType, duration: real, invoker: TimeInvoker)
      ensures this.timerType == timerType && this.invoker == invoker
      ensures State() == Created(duration)
    {
      this.timerType := timerType;
      this.invoker := invoker;
      remainingTime := 0.0;
      isPaused := false;
      events := [];
      new;
      SetRemainingTime(duration);
    }

    method SetRemainingTime(value: real)
      modifies this
      ensures State() == Countdown.SetRemainingTime(old(State()), value)
    {
      remainingTime := value;
      events := events + [ValueChanged(remainingTime)];
    }

    method Start()
      modifies this, invoker
      ensures State() == Countdown.Start(old(State())).state
      ensures ChannelChanged(Countdown.Start(old(State())).change)
    {
      if remainingTime <= 0.0 {
        return;
      }
      isPaused := false;
      SubscribeEvents();
      events := events + [ValueChanged(remainingTime)];
    }

    /** Start(float duration). */
    method StartWith(duration: real)
      modifies this, invoker
      ensures State() == Countdown.Start(Countdown.SetRemainingTime(old(State()), duration)).state
      ensures ChannelChanged(Countdown.Start(Countdown.SetRemainingTime(old(State()), duration)).change)
    {
      SetRemainingTime(duration);
      Start();
    }

    method Pause()
      modifies this, invoker
      ensures State() == Countdown.Pause(old(State())).state
      ensures ChannelChanged(Remove)
    {
      isPaused := true;
      UnsubscribeEvents();
      events := events + [Paused];
    }

    method Unpause()
      modifies this, invoker
      ensures State() == Countdown.Unpause(old(State())).state
      ensures ChannelChanged(Countdown.Unpause(old(State())).change)
    {
      isPaused := false;
      Start();
      events := events + [Unpaused];
    }

    method Stop()
      modifies this
      ensures State() == Countdown.Stop(old(State()))
    {
      isPaused := false;
      SetRemainingTime(0.0);
      events := events + [Finished];
    }

    method SubscribeEvents()
      modifies invoker
      ensures ChannelChanged(Add)
    {
      match timerType
      case SecondTick => invoker.secondTicked := invoker.secondTicked + [this];
      case UpdateTick => invoker.updateTicked := invoker.updateTicked + [this];
      case SecondTickUnscaled => invoker.secondTickedUnscaled := invoker.secondTickedUnscaled + [this];
      case UpdateTickUnscaled => invoker.updateTickedUnscaled := invoker.updateTickedUnscaled + [this];
    }

    method UnsubscribeEvents()
      modifies invoker
      ensures ChannelChanged(Remove)
    {
      match timerType
      case SecondTick => invoker.secondTicked := RemoveLast(invoker.secondTicked, this);
      case UpdateTick => invoker.updateTicked := RemoveLast(invoker.updateTicked, this);
      case SecondTickUnscaled => invoker.secondTickedUnscaled := RemoveLast(invoker.secondTickedUnscaled, this);
      case UpdateTickUnscaled => invoker.updateTickedUnscaled := RemoveLast(invoker.updateTickedUnscaled, this);
    }

    method CheckFinish()
      modifies this
      ensures State() == if old(remainingTime) <= 0.0 then Countdown.Stop(old(State())) else old(State())
    {
      if remainingTime <= 0.0 {
        Stop();
      }
    }

    method OnUpdateTimerTicked(deltaTime: real)
      modifies this
      ensures State() == Countdown.OnUpdateTimerTicked(old(State()), deltaTime)
    {
      if isPaused {
        return;
      }
      remainingTime := remainingTime - deltaTime;
      SetRemainingTime(remainingTime);
      CheckFinish();
    }

    method OnSecondTimerTicked()
      modifies this
      ensures State() == Countdown.OnSecondTimerTicked(old(State()))
    {
      OnUpdateTimerTicked(1.0);
    }
  }

  /** The static `_instance` field behind the lazy `Instance` getter. */
  class InstanceSlot {
    var instance: TimeInvoker?

    constructor ()
      ensures instance == null
    {
      instance := null;
    }

    /** Create the broadcaster on first access; afterwards always return that same one. */
    method Instance() returns (r: TimeInvoker)
      modifies this
      ensures old(instance) == null ==> fresh(r) && r.Valid() && r.Lists() == Channels([], [], [], []) && r.Accumulators() == Clock(0.0, 0.0)
      ensures old(instance) != null ==> r == old(instance)
      ensures instance == r
    {
      if instance == null {
        instance := new TimeInvoker();
      }
      r := instance;
    }
  }

  /** Every access after the first returns the broadcaster the first one created. */
  method InstanceIsShared(slot: InstanceSlot) returns (first: TimeInvoker, second: TimeInvoker)
    modifies slot
    ensures first == second && slot.instance == first
    ensures old(slot.instance) != null ==> first == old(slot.instance)
  {
    first := slot.Instance();
    second := slot.Instance();
  }

  /**
   * One Update while `timer` is the broadcaster's only subscriber, once, on
   * UpdateTicked: it is ticked exactly once, with the frame's scaled delta.
   */
  method OneFrame(invoker: TimeInvoker, timer: Timer, delta: real, unscaledDelta: real)
    requires invoker.Valid() && timer.timerType == UpdateTick
    requires invoker.Lists() == Channels([timer], [], [], [])
    modifies invoker, timer
    ensures invoker.Valid() && invoker.Lists() == old(invoker.Lists())
    ensures timer.State() == Countdown.OnUpdateTimerTicked(old(timer.State()), delta)
  {
    assert invoker.Multiplicity(timer) == Once(UpdateTick) by {
      assert [timer][..0] == [];
    }
    ghost var c := invoker.Accumulators();
    invoker.Update(delta, unscaledDelta);
    OneTickPerFrame(old(timer.State()), UpdateTick, c, Frame(delta, unscaledDelta));
  }

  /**
   * The player loop calling Update once per frame, `frames` times with the
   * same deltas, while `timer` is the broadcaster's only subscriber, once,
   * on UpdateTicked: the timer is ticked once per frame with the scaled delta.
   */
  method RunFrames(invoker: TimeInvoker, timer: Timer, delta: real, unscaledDelta: real, frames: nat)
    requires invoker.Valid() && timer.timerType == UpdateTick
    requires invoker.Lists() == Channels([timer], [], [], [])
    modifies invoker, timer
    ensures timer.State() == TickTimes(old(timer.State()), delta, frames)
  {
    var n := 0;
    while n < frames
      invariant 0 <= n <= frames
      invariant invoker.Valid() && invoker.Lists() == Channels([timer], [], [], [])
      invariant timer.State() == TickTimes(old(timer.State()), delta, n)
    {
      OneFrame(invoker, timer, delta, unscaledDelta);
      n := n + 1;
    }
  }

  /** A fresh broadcaster with one fresh UpdateTick timer of `duration` seconds, started. */
  method StartAlone(duration: real) returns (invoker: TimeInvoker, timer: Timer)
    requires duration > 0.0
    ensures fresh(invoker) && fresh(timer) && timer.timerType == UpdateTick
    ensures invoker.Valid() && invoker.Lists() == Channels([timer], [], [], [])
    ensures timer.State() == Countdown.Start(Created(duration)).state
  {
    invoker := new TimeInvoker();
    timer := new Timer(UpdateTick, duration, invoker);
    timer.Start();
    assert Apply([], timer, Add) == [timer];
  }

  /**
   * A client run: an UpdateTick timer of 5 seconds, started, then five
   * frames of one second each. Returns the timer's events and final value.
   */
  method FiveFramesOfOneSecond() returns (events: seq<TimerEvent>, remaining: real)
    ensures remaining == 0.0
    ensures events == [ValueChanged(5.0), ValueChanged(5.0), ValueChanged(4.0), ValueChanged(3.0),
                       ValueChanged(2.0), ValueChanged(1.0), ValueChanged(0.0), ValueChanged(0.0), Finished]
  {
    var invoker, timer := StartAlone(5.0);
    RunFrames(invoker, timer, 1.0, 1.0, 5);
    FiveSecondCountdown();
    events, remaining := timer.events, timer.remainingTime;
  }
}
