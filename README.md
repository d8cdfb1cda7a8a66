# Unity TimerFeature in Dafny

A model of the two classes of the Unity timer feature:

- `TimeInvoker`, the per-frame tick broadcaster. Each frame it raises
  `UpdateTicked(deltaTime)`, then `SecondTicked` when the scaled
  second accumulator reaches one second. It then raises
  `UpdateTickedUnscaled(unscaledDeltaTime)`, then `SecondTickedUnscaled`
  when the unscaled accumulator reaches one second.
- `Timer`, a countdown that subscribes one of its handlers to the channel of
  its `TimerType`. It raises `TimerValueChanged`, `TimerFinished`,
  `TimerPaused` and `TimerUnpaused`.

The project has four modules:

- `Delegates` (delegates.dfy) gives the semantics of a C# multicast invocation list.
  `+=` appends, so a handler added twice runs twice. `-=` removes the last
  occurrence and does nothing when the handler is absent. Handlers run in
  the order they were added.
- `Ticking` (ticking.dfy) holds the broadcaster's arithmetic and its
  dispatch order as pure functions. `Carry` is one accumulator update. `Step` is
  one `Update` call. `Run` is any number of calls.
- `Countdown` (countdown.dfy) is the timer as a state machine over values.
  `TimerState` holds the remaining time, the pause flag and the trace of
  every event raised so far. The operations that touch the broadcaster also
  return the `Change` they make to the timer's channel.
- `TimerFeature` (timer_feature.dfy) holds the classes, with state updated in place:
  - `TimeInvoker` has four `seq<Timer>` invocation lists, the two
    accumulators, and two ghost logs (every tick dispatched, every handler
    call made). Its invariant `Valid()` says that the seconds fired plus
    the accumulator equal all the time reported.
  - `Timer` has the remaining time, the pause flag and its event trace.
  - `InstanceSlot` is the static `_instance` behind the lazy `Instance` getter.

  Every method is proved against the functions of `Ticking` and `Countdown`.
  `TimeInvoker.Update` states the new accumulators and the ticks dispatched
  (`Step`). It also states, for every timer, its new state: every dispatched
  tick, delivered as many times as the timer's handler occurs in that
  channel's list.

Two behaviours of the code shape the model:

- The overflow test of each second accumulator is a single `if`
  (TimeInvoker/TimeInvoker.cs:45 and :63), not a loop. So any frame fires
  at most one second tick, however long it is. A frame that brings the
  accumulator to 2 seconds or more leaves at least a whole second, which
  the next frame fires even with a zero delta
  (`Ticking.AtMostOneSecondPerFrame`, `Ticking.LongFrameLeavesBacklog`).
- `Stop` (Timer/Timer.cs:69-76) never unsubscribes. A timer that ran down
  stays subscribed and raises `TimerFinished` again on every later tick
  (`Countdown.FinishedTimerFinishesAgain`). Restarting it after `Stop`
  subscribes its handler a second time
  (`Countdown.RestartAfterStopSubscribesTwice`).

## Model

Source paths are relative to the repository root; `Timer.cs` is
Assets/PS/TimerFeature/Timer/Timer.cs and `TimeInvoker.cs` is
Assets/PS/TimerFeature/TimeInvoker/TimeInvoker.cs.

| member | source | states |
|---|---|---|
| Delegates.RemoveLast | Assets/PS/TimerFeature/Timer/Timer.cs:102-122 | `-=` shortens the invocation list by one exactly when the handler is in it, and keeps its length otherwise |
| Delegates.RemoveLastAbsent | Assets/PS/TimerFeature/Timer/Timer.cs:102-122 | `-=` of a handler that is not subscribed leaves the invocation list unchanged |
| Delegates.LastIndex | Assets/PS/TimerFeature/Timer/Timer.cs:102-122 | the occurrence `-=` deletes: it holds the handler and none follows it |
| Delegates.RemoveLastAt | Assets/PS/TimerFeature/Timer/Timer.cs:102-122 | `-=` deletes exactly the last occurrence and keeps every other entry in order |
| Delegates.RemoveLastCount | Assets/PS/TimerFeature/Timer/Timer.cs:102-122 | after `-=` the handler occurs once less (never below zero), every other handler as often as before |
| Delegates.RemoveUndoesAdd | Assets/PS/TimerFeature/Timer/Timer.cs:80-122 | a `-=` right after a `+=` of the same handler restores the list |
| Delegates.ApplyCount | Assets/PS/TimerFeature/Timer/Timer.cs:80-122 | subscribing adds one occurrence, unsubscribing removes one if there is one, other operations none |
| Delegates.CountPositive | Assets/PS/TimerFeature/Timer/Timer.cs:80-122 | a handler is called by a channel exactly when its occurrence count there is positive |
| Ticking.Carry | Assets/PS/TimerFeature/TimeInvoker/TimeInvoker.cs:44-49 | a second fires iff accumulator plus delta reaches 1, and the carried rest plus the fired second equals accumulator plus delta |
| Ticking.ScaledTicks | Assets/PS/TimerFeature/TimeInvoker/TimeInvoker.cs:35-51 | the scaled half of a frame reports exactly the frame's delta and one scaled second iff it overflowed, nothing unscaled |
| Ticking.UnscaledTicks | Assets/PS/TimerFeature/TimeInvoker/TimeInvoker.cs:53-69 | the unscaled half reports exactly the unscaled delta and one unscaled second iff it overflowed, nothing scaled |
| Ticking.Step | Assets/PS/TimerFeature/TimeInvoker/TimeInvoker.cs:33-71 | a frame dispatches two to four ticks, the scaled per-frame tick first, and each accumulator keeps what its second tick did not take |
| Ticking.StepOrder | Assets/PS/TimerFeature/TimeInvoker/TimeInvoker.cs:33-71 | a frame always dispatches both per-frame ticks, each second tick iff its accumulator reaches 1, in the fixed channel order, none twice |
| Ticking.StepBalance | Assets/PS/TimerFeature/TimeInvoker/TimeInvoker.cs:33-71 | per frame, seconds fired plus the new accumulator equal old accumulator plus delta, for both clocks |
| Ticking.BalanceKept | Assets/PS/TimerFeature/TimeInvoker/TimeInvoker.cs:33-71 | a tick log that accounts for both accumulators still does after one more frame |
| Ticking.Conservation | Assets/PS/TimerFeature/TimeInvoker/TimeInvoker.cs:33-71 | over any run of frames no time is lost or invented: seconds fired plus accumulator equal start plus all deltas, and the per-frame ticks report every delta |
| Ticking.ScaledStaysBelowOneSecond | Assets/PS/TimerFeature/TimeInvoker/TimeInvoker.cs:44-49 | the scaled accumulator, started in [0, 1), stays in [0, 1) over any run whose scaled deltas are in [0, 1), whatever the unscaled deltas |
| Ticking.UnscaledStaysBelowOneSecond | Assets/PS/TimerFeature/TimeInvoker/TimeInvoker.cs:62-67 | the unscaled accumulator, started in [0, 1), stays in [0, 1) over any run whose unscaled deltas are in [0, 1), whatever the scaled deltas |
| Ticking.LongFrameLeavesBacklog | Assets/PS/TimerFeature/TimeInvoker/TimeInvoker.cs:44-49 | a 2.5-second frame fires one second tick, not two, leaves 1.5, and the next frame fires again with a zero delta |
| Ticking.AtMostOneSecondPerFrame | Assets/PS/TimerFeature/TimeInvoker/TimeInvoker.cs:44-67 | any frame fires at most one second tick per clock, and leaves a whole second for the next frame exactly when accumulator plus delta reached 2 |
| Ticking.ChannelsIndependent | Assets/PS/TimerFeature/TimeInvoker/TimeInvoker.cs:42-67 | the scaled accumulator and second tick do not depend on the unscaled delta, and vice versa |
| Countdown.Created | Assets/PS/TimerFeature/Timer/Timer.cs:18-22 | a new timer holds the duration, is not paused and has raised TimerValueChanged(duration) once, the first entry of its trace |
| Countdown.ChannelOf | Assets/PS/TimerFeature/Timer/Timer.cs:82-99 | each timer type listens to its own channel and no two types share one |
| Countdown.SetRemainingTime | Assets/PS/TimerFeature/Timer/Timer.cs:24-28 | the setter overwrites the remaining time, keeps the pause flag and the history, and adds exactly one announcement of the new value |
| Countdown.Start | Assets/PS/TimerFeature/Timer/Timer.cs:30-43 | a finished timer is untouched and not subscribed; a running one is unpaused, subscribed once more and announces its value |
| Countdown.Pause | Assets/PS/TimerFeature/Timer/Timer.cs:51-58 | pausing sets the flag, keeps the time, unsubscribes once and raises TimerPaused |
| Countdown.Unpause | Assets/PS/TimerFeature/Timer/Timer.cs:60-67 | unpausing clears the flag, does what Start does to the channel and always raises TimerUnpaused last |
| Countdown.Stop | Assets/PS/TimerFeature/Timer/Timer.cs:69-76 | stopping zeroes the time, clears the flag and raises TimerValueChanged(0) then TimerFinished |
| Countdown.OnUpdateTimerTicked | Assets/PS/TimerFeature/Timer/Timer.cs:134-141 | a paused timer ignores the tick; otherwise the time drops by delta, clamped at 0 by the finish check |
| Countdown.TickAnnouncements | Assets/PS/TimerFeature/Timer/Timer.cs:128-141 | a tick adds exactly the decremented value, even a negative one, and, iff nothing is left, then TimerValueChanged(0) and TimerFinished, which is the last event |
| Countdown.OnSecondTimerTicked | Assets/PS/TimerFeature/Timer/Timer.cs:143-146 | a second tick leaves a paused timer untouched and otherwise takes exactly one second, clamped at 0 |
| Countdown.PausedTimerIgnoresTicks | Assets/PS/TimerFeature/Timer/Timer.cs:134-137 | a paused timer is unchanged by any number of ticks |
| Countdown.CountsDown | Assets/PS/TimerFeature/Timer/Timer.cs:128-141 | after n ticks of delta a running timer holds max(remaining - n*delta, 0) and is still unpaused |
| Countdown.FinishedTimerFinishesAgain | Assets/PS/TimerFeature/Timer/Timer.cs:128-141 | a finished timer that is still subscribed raises TimerFinished once more on every tick |
| Countdown.StartWithDuration | Assets/PS/TimerFeature/Timer/Timer.cs:45-49 | Start(duration) announces the duration twice and subscribes iff it is positive, else only sets it |
| Countdown.StoppedTimerIsInert | Assets/PS/TimerFeature/Timer/Timer.cs:30-36 | Start after Stop changes nothing and subscribes nothing |
| Countdown.UnpauseFinishedTimer | Assets/PS/TimerFeature/Timer/Timer.cs:60-67 | unpausing a finished timer subscribes nothing but clears the flag and still raises TimerUnpaused |
| Countdown.PauseUndoesStart | Assets/PS/TimerFeature/Timer/Timer.cs:51-58 | Pause right after a subscribing Start restores the channel's list exactly |
| Countdown.StartTwiceSubscribesTwice | Assets/PS/TimerFeature/Timer/Timer.cs:30-43 | Start has no guard against re-subscription: two Starts add two occurrences |
| Countdown.RestartAfterStopSubscribesTwice | Assets/PS/TimerFeature/Timer/Timer.cs:69-76 | Start(d), Stop, Start(d) leaves the timer running with d but subscribed twice, since Stop does not unsubscribe |
| Countdown.Once | Assets/PS/TimerFeature/Timer/Timer.cs:80-100 | a single subscription lies in the channel of the timer's type and no other |
| Countdown.ReceiveOnce | Assets/PS/TimerFeature/Timer/Timer.cs:143-146 | a timer subscribed once is ticked by its own channel only, by the frame delta or by exactly one second |
| Countdown.OneTickPerFrame | Assets/PS/TimerFeature/TimeInvoker/TimeInvoker.cs:33-71 | per frame a timer subscribed once is ticked once with its delta (per-frame types) or once with 1 s iff its accumulator overflows (second types) |
| Countdown.FiveSecondCountdown | Assets/PS/TimerFeature/Timer/Timer.cs:134-141 | a 5-second timer, started and ticked five times by 1 s, ends at 0 having raised exactly 5, 5, 4, 3, 2, 1, 0, 0, Finished |
| TimerFeature.FanoutInOrder | Assets/PS/TimerFeature/TimeInvoker/TimeInvoker.cs:37-38 | a dispatch makes one handler call per list entry, the i-th to the i-th subscriber |
| TimerFeature.TimeInvoker.constructor | Assets/PS/TimerFeature/TimeInvoker/TimeInvoker.cs:30-31 | a new broadcaster has no subscribers, zero accumulators and keeps its invariant |
| TimerFeature.TimeInvoker.Call | Assets/PS/TimerFeature/Timer/Timer.cs:143-146 | a delegate call ticks the target by the frame delta, or by one second on a second channel |
| TimerFeature.TimeInvoker.CallAll | Assets/PS/TimerFeature/TimeInvoker/TimeInvoker.cs:38 | each subscriber is ticked once per occurrence, and the handler calls are logged in list order |
| TimerFeature.TimeInvoker.Invoke | Assets/PS/TimerFeature/TimeInvoker/TimeInvoker.cs:37-38 | every timer receives the tick as often as it occurs in the tick's channel; the dispatch is logged |
| TimerFeature.TimeInvoker.SecondIfDue | Assets/PS/TimerFeature/TimeInvoker/TimeInvoker.cs:45-49 | at most one second is taken from the scaled accumulator and dispatched, exactly when it holds at least 1 |
| TimerFeature.TimeInvoker.TickScaled | Assets/PS/TimerFeature/TimeInvoker/TimeInvoker.cs:35-51 | the scaled half of a frame carries the accumulator as `Carry` does and delivers the scaled ticks to every timer |
| TimerFeature.TimeInvoker.SecondUnscaledIfDue | Assets/PS/TimerFeature/TimeInvoker/TimeInvoker.cs:63-67 | at most one second is taken from the unscaled accumulator and dispatched, exactly when it holds at least 1 |
| TimerFeature.TimeInvoker.TickUnscaled | Assets/PS/TimerFeature/TimeInvoker/TimeInvoker.cs:53-69 | the unscaled half of a frame carries its accumulator and delivers the unscaled ticks to every timer |
| TimerFeature.TimeInvoker.Update | Assets/PS/TimerFeature/TimeInvoker/TimeInvoker.cs:33-71 | one frame keeps the conservation invariant and the lists, moves the accumulators as `Step` does, and delivers its ticks in order to every timer, once per subscription |
| TimerFeature.Timer.constructor | Assets/PS/TimerFeature/Timer/Timer.cs:18-22 | the new timer is in the state `Created(duration)` and keeps its type |
| TimerFeature.Timer.SetRemainingTime | Assets/PS/TimerFeature/Timer/Timer.cs:24-28 | the remaining time is overwritten and announced |
| TimerFeature.Timer.Start | Assets/PS/TimerFeature/Timer/Timer.cs:30-43 | the timer moves as `Countdown.Start` says and only its own channel changes, by that operation's change |
| TimerFeature.Timer.StartWith | Assets/PS/TimerFeature/Timer/Timer.cs:45-49 | the setter followed by Start, on the timer and its channel |
| TimerFeature.Timer.Pause | Assets/PS/TimerFeature/Timer/Timer.cs:51-58 | the timer moves as `Countdown.Pause` says and its last occurrence leaves its own channel |
| TimerFeature.Timer.Unpause | Assets/PS/TimerFeature/Timer/Timer.cs:60-67 | the timer moves as `Countdown.Unpause` says and its channel changes as Start's would |
| TimerFeature.Timer.Stop | Assets/PS/TimerFeature/Timer/Timer.cs:69-76 | the timer moves as `Countdown.Stop` says; the broadcaster is not touched |
| TimerFeature.Timer.SubscribeEvents | Assets/PS/TimerFeature/Timer/Timer.cs:80-100 | the timer is appended to the channel of its type and to no other |
| TimerFeature.Timer.UnsubscribeEvents | Assets/PS/TimerFeature/Timer/Timer.cs:102-122 | the timer's last occurrence is removed from the channel of its type, no other changes |
| TimerFeature.Timer.CheckFinish | Assets/PS/TimerFeature/Timer/Timer.cs:128-132 | the timer is stopped exactly when nothing is left |
| TimerFeature.Timer.OnUpdateTimerTicked | Assets/PS/TimerFeature/Timer/Timer.cs:134-141 | the tick acts as `Countdown.OnUpdateTimerTicked` says |
| TimerFeature.Timer.OnSecondTimerTicked | Assets/PS/TimerFeature/Timer/Timer.cs:143-146 | a second tick is a one-second frame tick |
| TimerFeature.InstanceSlot.constructor | Assets/PS/TimerFeature/TimeInvoker/TimeInvoker.cs:14 | no broadcaster exists before the first access |
| TimerFeature.InstanceSlot.Instance | Assets/PS/TimerFeature/TimeInvoker/TimeInvoker.cs:15-28 | the first access creates a fresh, empty broadcaster; later accesses return that same one |
| TimerFeature.InstanceIsShared | Assets/PS/TimerFeature/TimeInvoker/TimeInvoker.cs:15-28 | two accesses return the same broadcaster |
| TimerFeature.OneFrame | Assets/PS/TimerFeature/TimeInvoker/TimeInvoker.cs:33-40 | with a sole UpdateTick subscriber, one Update ticks it exactly once with the scaled delta and keeps the invariant |
| TimerFeature.RunFrames | Assets/PS/TimerFeature/TimeInvoker/TimeInvoker.cs:33-71 | n frames with a sole UpdateTick subscriber tick it n times with the scaled delta |
| TimerFeature.StartAlone | Assets/PS/TimerFeature/Timer/Timer.cs:30-43 | starting a fresh timer of positive duration leaves it the only subscriber, once, of its channel |
| TimerFeature.FiveFramesOfOneSecond | Assets/PS/TimerFeature/Timer/Timer.cs:134-141 | a 5-second UpdateTick timer run for five 1-second frames ends at 0 having raised 5, 5, 4, 3, 2, 1, 0, 0, Finished |

## Left out

- Unity plumbing: `MonoBehaviour`, the `GameObject` that `Instance` creates,
  `DontDestroyOnLoad`, and the engine calling `Update` once per frame. The
  frame's `Time.deltaTime` and `Time.unscaledDeltaTime` are parameters of
  `TimeInvoker.Update`. `RunFrames` stands for the engine's loop.
- `Debug.Log` in `Start` on a finished timer: it prints a message only, so the model leaves it out.
- Ticking.Carry: times are exact reals, not IEEE single-precision floats, so rounding in `+=` and `-=` is not modelled.
- Countdown.OnUpdateTimerTicked: `RemainingTime -= deltaTime` and the `<= 0` test (Timer.cs:130, :139) are exact over reals. Float subtraction can leave a tiny positive rest where the model reaches 0, so `Countdown.CountsDown`'s closed form holds over reals only.
- Countdown.Created: the trace logs every raise the code reaches, as if a listener were attached. The constructor's raise (Timer.cs:21 via :27) happens before anyone can subscribe, so a listener attached after construction sees the trace without its first entry. In the 5-second run that listener sees 5, 4, 3, 2, 1, 0, 0, Finished.
- Handlers outside the feature: only `Timer` handlers subscribe to the
  broadcaster's events. Outside subscribers to a timer's four events are
  replaced by the timer's event trace. A handler that re-enters the timer or
  the broadcaster during a dispatch is not modelled. The timer's own
  handlers only change the timer, so each dispatch walks a list that does not
  change while it runs, as a C# invocation list snapshot does.
- Delegate identity: a list entry is the subscribing timer. A timer only ever
  adds its own handler to its own channel, so timer identity gives the same
  `-=` matches as C# delegate equality.
- The static `Instance` lookup inside `SubscribeEvents`/`UnsubscribeEvents`:
  each timer holds its broadcaster in the constant `invoker`. The lazy getter is
  modelled separately by `InstanceSlot.Instance`.
