# World clocks: hand angles and the hand animation

This project models the part of a web page with three analog clocks (New York, Kyiv and Moscow) that decides where the hands point. The page draws the clocks with paper.js, and all of this logic lives in `js/main.js`. The model covers:

- **Setting the hands** (`ClockManager.setCurrentTime`). Each clock's hands are rotated from twelve o'clock to its local time:
  - the second hand by 6 degrees per second, plus one second when the page is being redrawn after a resize;
  - the minute hand by 6 degrees per minute;
  - the hour hand by 30 degrees per hour plus half a degree per minute, rounded down.

  The minute read is cached on the minute hand (`data.now`).
- **The per-second tick** (the `runClocksInterval` body). For every clock:
  - the second hand is queued on the animation scheduler;
  - when the minute read differs from the cached one, the minute hand is queued too, the hour hand is turned 1 degree at once if the new minute is even, and the cache is updated.

  Then a 6-degree batch starts.
- **The animation scheduler** (`ClockHandAnimationManager`). It holds a queue of hands, a target in degrees and its progress. On every frame event it either stops, which empties the queue and unsubscribes, or turns every queued entry by one degree. A hand queued twice turns twice.
- **The clocks** (`Clock`). Each clock holds its selector, its timezone and its hands. Items 0, 1 and 2 of the hands group are the hour, minute and second hand.

Design decisions:

- **Hand angles.** A paper.js rotation about the view centre is modelled as an integer angle that accumulates every rotation. Where a hand points on the dial (`Hand.Position`) is that angle reduced modulo 360.
- **Inputs instead of services.** Local times, as moment-timezone would produce them, are parameters of the model (`LocalTime`, with the hour on the 12-hour dial). Frame events are calls of `FrameHandler`.
- **Classes.** The controller, the scheduler, the clocks and the hands are classes, because the source updates them in place. The formulas are pure functions.
- **Clock construction.** The `Clock` constructor also stands for `renderClocks` drawing that clock's three hands, all pointing at twelve.

Modules:

- `Wrappers`: `Option`, used for a cache that can be `undefined`.
- `Angles`: the dial, the formulas, and the lemmas that say where they put the hands and how a tick keeps them there.
- `Animation`: `Hand` and `ClockHandAnimationManager`.
- `Clocks`: `Clock`, `ClockManager` and start-up.

Three behaviours of the code that the model keeps:

- **`run` does not clear the queue; only `_stop` does.** Hands left over from an unfinished batch therefore keep turning in the next batch. `Run`'s contract leaves `hands` unchanged.
- **A resize builds new `Clock` objects.** After a resize, `initializeCanvas` creates new clocks, and `renderClocks` draws new hands for them. `Start` models drawing the clocks and setting their hands, with the resize flag as a parameter.
- **12 o'clock gives 360 degrees.** This is the same dial position as 0 (`HourFromTwelve`).

## Model

| member | source | states |
|---|---|---|
| Angles.Normalize | js/main.js:267-269 | the dial position reached by a rotation is in 0..359 and differs from the rotation by a multiple of 360 |
| Angles.RotationsCompose | js/main.js:267-269 | rotating relative to the current position twice lands where one combined rotation does |
| Angles.SecondFromTwelve | js/main.js:177-179 | from twelve, the second hand set at second s points at ((s + resize) mod 60) * 6 degrees |
| Angles.MinuteFromTwelve | js/main.js:181-184 | from twelve, the minute hand set at minute m points at m * 6 degrees |
| Angles.HourFromTwelve | js/main.js:186-188 | from twelve, the hour hand points at (h mod 12) * 30 + floor(m / 2) degrees; at 12 o'clock only the minute part remains |
| Angles.ResizeSkew | js/main.js:171-177 | with the resize flag, the second hand is set exactly 6 degrees (one second) further |
| Angles.SecondStep | js/main.js:203 | a 6-degree batch moves the second hand from second s to second s + 1 mod 60 |
| Angles.MinuteStep | js/main.js:206-207 | a 6-degree batch moves the minute hand to the next minute's position, 59 wrapping to 0 |
| Angles.HourNudgeStep | js/main.js:209-211 | the 1-degree nudge on even minutes keeps the hour hand on the setCurrentTime formula when the minute advances, across the hour and across 12 |
| Angles.NudgeKeepsFormula | js/main.js:205-213 | one tick that reads the same or the next minute keeps an hour hand that is on the formula on it |
| Angles.HourTracksClock | js/main.js:195-219 | after any run of ticks that advance one minute at most, the hour hand set by setCurrentTime still points where the formula says for the last reading |
| Angles.NudgeScenario | js/main.js:206-213 | readings 5, 6, 6, 7 after a cached 5 nudge the hour hand once: a repeated minute and an odd minute give nothing |
| Angles.ThreeFortyFiveScenario | js/main.js:177-188 | at 3:45:30 the hands point at 112, 270 and 180 degrees |
| Animation.Hand.constructor | js/main.js:68-93 | a newly drawn hand points at twelve, has rotated 0 degrees and has no cached minute |
| Animation.Hand.Rotate | js/main.js:267-269 | the rotation is relative: the angle grows by the degree, and the position moves on by it modulo 360 |
| Animation.ClockHandAnimationManager.constructor | js/main.js:279-283 | the scheduler starts with an empty queue, target 0, progress 0 and no frame subscription |
| Animation.ClockHandAnimationManager.Add | js/main.js:285-287 | the hand is appended to the queue, duplicates included |
| Animation.ClockHandAnimationManager.Run | js/main.js:289-295 | sets the target, resets progress, subscribes, and leaves the queue as it is; progress is within bounds exactly when the target is non-negative |
| Animation.ClockHandAnimationManager.Stop | js/main.js:297-300 | empties the queue and unsubscribes |
| Animation.ClockHandAnimationManager.TurnQueued | js/main.js:309-311 | every hand turns one degree per queue entry naming it; caches are untouched |
| Animation.ClockHandAnimationManager.FrameHandler | js/main.js:302-313 | at the target: stops and turns nothing; otherwise each hand turns as often as it is queued and progress rises by one; progress stays within bounds |
| Animation.ClockHandAnimationManager.PlayFrames | js/main.js:302-313 | frame events of a running batch until unsubscribed: the frames still due plus one; each hand turns by the degrees still due times its queue count; the queue ends empty |
| Animation.ClockHandAnimationManager.RunToCompletion | js/main.js:289-313 | run(d) plus frame events until unsubscribed: exactly d + 1 frames; each hand turns d times its queue count; the queue ends empty |
| Animation.DuplicateHandScenario | js/main.js:285-313 | hands A, B, A with run(6): seven frames, A turns 12 degrees, B 6 degrees, the queue ends empty |
| Clocks.Clock.constructor | js/main.js:68-106 | a clock keeps its selector and timezone (the `Clock` function, js/main.js:320-328) and has three distinct hands at twelve with nothing cached |
| Clocks.Clock.SetTime | js/main.js:175-188 | for one clock: each hand is rotated by its formula, the minute is cached, the other caches are unchanged |
| Clocks.Clock.TickHands | js/main.js:199-214 | for one clock: the second hand is queued, and the minute hand too when the cached minute differs; the hour hand gets its nudge at once; the minute is cached |
| Clocks.ClockManager.constructor | js/main.js:24-45 | the three configured clocks with their selectors and timezones; hands at twelve with nothing cached; no hand belongs to two clocks; the footprint is exactly the hands of the three clocks |
| Clocks.ClockManager.SetCurrentTime | js/main.js:169-190 | every clock is set from its own local time, as for SetTime |
| Clocks.ClockManager.BatchCounts | js/main.js:197-215 | in the hands one tick queues, each clock's second hand appears once, its minute hand once exactly when its minute changed, its hour hand never |
| Clocks.ClockManager.CountOf | js/main.js:197-215 | a hand of one clock appears in the whole tick's queue as often as in what its own clock queues, since no other clock queues it |
| Clocks.ClockManager.Tick | js/main.js:195-219 | the queue grows by each clock's second hand and changed minute hands in clock order; a 6-degree batch starts; each clock's hour hand gets its nudge and its minute is cached |
| Clocks.ClockManager.TickKeepsHourFormula | js/main.js:205-213 | when every hour hand is on the setCurrentTime formula for its reading and that minute is cached, a tick whose readings are the same or the next minute leaves every hour hand on the formula for the new reading, with the new minute cached; the rest of the tick is as for Tick: the queue grows by the tick's batch, a 6-degree batch starts, and every clock is ticked |
| Clocks.ClockManager.WholeBatch | js/main.js:197-215 | across all clocks, one tick queues each second hand once, each minute hand once exactly when its minute changed, no hour hand, and only hands of the clocks |
| Clocks.ClockManager.TickAndSettle | js/main.js:195-219 | a tick on an empty queue (which calls run(6) once) followed by its frames: seven frames; every second hand turns 6 degrees, every minute hand 6 degrees if its minute changed and 0 otherwise, every hour hand only its nudge; the queue ends empty, the handler unsubscribed, target and progress both 6 |
| Clocks.Start | js/main.js:134-138 | clocks drawn anew and set from their local times show them: second, minute and hour hand at the dial positions of the reading, minute cached; the manager, its scheduler and all hands are newly allocated; the scheduler has an empty queue, target 0, progress 0 and no subscription (js/main.js:281-283); the clocks carry the configured timezones and selectors |

## Left out

- Drawing: paper.js paths, segments, colours, stroke widths, the centre dot (the fourth item of each hands group, which never moves), opacity, canvas sizing and scaling, and clearing and removing canvases. Hand geometry is reduced to a whole-degree rotation, and floating point is not modelled.
- moment and moment-timezone (`getMoment`, `moment().millisecond()`): clock readings are parameters.
- Timers and events: `setTimeout`, `setInterval`, `clearInterval`, the millisecond alignment, the window resize handler's guard `isClockStarted` and its timeout. The frame event is a call of `FrameHandler`, and paper.js only calls subscribed handlers, so `FrameHandler` requires a subscription.
- `view.on` is taken to register a handler only once, so the frame subscription is a boolean. A handler registered twice, firing twice per frame, is not modelled.
- The intro animation (`runIntroducing`, `introduceLogo`, `introduceFrameHandler`): it only fades elements in and does not move hands.
- `Clock` name, canvas and hands-group accessors (`getName`, `getCanvas`, `setCanvas`, `getHands`, `setHands`): they only store and return values. The hand accessors `HourHand`, `MinuteHand` and `SecondHand` are plain projections of items 0, 1 and 2, so they have no contract of their own and no row above.
- Ticks that arrive before the previous batch has finished: `Run` keeps the queue, so the model captures what happens then, but no lemma describes the resulting over-rotation. `TickAndSettle` covers the case where the batch finishes first.
- A resize that lands mid-batch: the page keeps its single scheduler, whose queue may still hold hands of the old clocks. `Start` starts from a new, empty scheduler, so those left-over queue entries are not modelled.
