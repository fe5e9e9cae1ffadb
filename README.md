# Kracked Devs site core in Dafny

This project models the logic behind the interactive parts of the Kracked Devs
site and proves properties about it. There are three parts.

- **Dev runner** (`runner_scene.dfy`, `runner_player.dfy`). This is an endless
  runner.
  - The first jump press starts a run and registers three repeating timers:
    obstacles every 1500 ms, pickups every 2500 ms, and a new sprint day every
    5000 ms.
  - Each day raises the speed to `min(450, 200 + 8 * day)`.
  - Collecting a pickup adds its value (100, 50 or 25) and one shipped
    feature. Each frame rewrites the score as `floor(distance / 10) + 25 * shipped`.
  - Entities that leave the screen are destroyed. Hitting an obstacle ends the
    run: the timers are removed, every entity stops, and the obstacle's type is
    recorded as the cause. `R` then restarts the scene.
  - The player's jump has an impulse of -280 and a 300 ms boost window while the
    key is held. The boost decays linearly from full strength to half strength.
    A latch refuses a new jump until the key has been released.
  - Each scene handler is a function between `GameState` values. The class
    `Scene` keeps the scene's fields. Each of its handlers, and `EngineStep`
    for the engine's position update, is proved to perform the matching
    function while keeping the invariant `Inv`.
  - The inner steps `ResetGameState`, `StartGame` and `StopEntities` are only
    called from other methods. Each is proved to perform its own step, and the
    calling handler re-establishes `Inv`.
  - `Player` is built the same way over `JumpState`.
  - Timer events act only while their timer is registered, which is exactly
    during a run.
- **Bounty board** (`bounty_data.dfy`, `bounty_board.dfy`).
  - The catalogue holds three bounties, all completed.
  - The lookups are by slug, by status, active, completed and all.
  - The page chains three filters: a case-insensitive search over title,
    description and tags, then difficulty, then status.
  - The filtered list is split into active, completed and other sections.
  - The page shows the reward paid out and the reward still active.
- **Number guesser** (`number_guesser.dfy`). A target in 1..100 is drawn from
  `Math.random()`. A guess is read with `parseInt`. An unreadable guess only
  changes the message. Otherwise the attempt is counted and the message says
  whether the guess is too low, too high, or wins.

`seqs.dfy` gives `Array.prototype.filter`, `find` and their facts.
`text.dfy` gives `toLowerCase`, `includes`, `parseInt` and a decimal rendering
that `parseInt` reads back.

Some facts about the runner that the proofs make explicit:

- `collectPickup` has no game-over guard. A pickup is only removed when its
  150 ms fade ends, so an overlap reported twice during the fade counts twice
  (`CollectingTwiceCountsTwice`).
- The frame update's score formula counts every shipped feature as 25, whatever
  its value. An "Offer Letter" therefore raises the score by 100 until the next
  frame, and by 25 from then on (`FrameForgetsPickupValues`,
  `OfferLetterScenario`). The model keeps this behaviour as the code has it.
- The game-over handler stops entities without removing them. After it, timer
  events, frames, jumps and hits change nothing, until a restart
  (`EndedRunIsFrozen`, `EndedStaysEnded`).
- The chained spawn checks `isGameOver` again when it fires, 300 ms later
  (`FireChainedSpawn`).

Things the host decides are parameters:

- the random picks and rolls;
- ground contact;
- frame times and the lengths of the engine's physics steps;
- the canvas width;
- which entity an overlap names.

## Model

| member | source | states |
|---|---|---|
| Seqs.Filter | src/lib/bounty/data.ts:185-187 | `filter` keeps exactly the elements that pass the test and never grows the list |
| Seqs.FilterCounts | src/lib/bounty/data.ts:185-187 | each passing element keeps its multiplicity; every other element occurs 0 times |
| Seqs.FilterIsSubsequence | src/lib/bounty/data.ts:185-187 | the filtered list keeps the original order (it is a subsequence) |
| Seqs.FilterFilter | src/app/code/bounty/page.tsx:174-196 | filtering by `p` and then by `q` is the same as filtering once by `p && q` |
| Seqs.Find | src/lib/bounty/data.ts:173-175 | `find` returns nothing exactly when no element passes; otherwise it returns the first element that passes |
| Text.Lower | src/app/code/bounty/page.tsx:178-183 | `toLowerCase` keeps the length and lower-cases each ASCII letter in place |
| Text.Includes | src/app/code/bounty/page.tsx:181-183 | `includes` is true exactly when the pattern occurs at some position |
| Text.ParseInt | src/app/game/game2/page.tsx:28-32 | `parseInt` gives `NaN` (None) exactly when no digit follows the leading white space and the optional sign |
| Text.ParseSkipsSpace | src/app/game/game2/page.tsx:28 | a leading white-space character of any kind does not change what `parseInt` reads |
| Text.TrimSkipsSpace | src/app/game/game2/page.tsx:28 | trimming drops a leading white-space character |
| Text.UnicodeSpaces | src/app/game/game2/page.tsx:28 | the ideographic space, the line separator, the Ogham space mark and the no-break space count as white space; the zero-width space does not |
| Text.ParseAfterIdeographicSpace | src/app/game/game2/page.tsx:28 | an ideographic space before a decimal number is skipped and the number is read back |
| Text.ParseShowRoundTrip | src/app/game/game2/page.tsx:28 | `parseInt` reads the decimal form of every integer back as that integer |
| BountyData.BountyBySlug | src/lib/bounty/data.ts:173-175 | nothing comes back exactly when no bounty has the slug; otherwise the first bounty with that slug comes back |
| BountyData.AllBounties | src/lib/bounty/data.ts:181-183 | the catalogue is returned unchanged |
| BountyData.BountiesByStatus | src/lib/bounty/data.ts:185-187 | a bounty is listed exactly when it is in the catalogue with that status |
| BountyData.ActiveBounties | src/lib/bounty/data.ts:177-179 | a bounty is listed exactly when it is in the catalogue and active |
| BountyData.CompletedBounties | src/lib/bounty/data.ts:189-191 | a bounty is listed exactly when it is in the catalogue and completed |
| BountyData.BountiesByStatusIsExact | src/lib/bounty/data.ts:185-187 | the status query keeps catalogue order and the exact multiplicity of each matching entry |
| BountyData.FixedStatusQueries | src/lib/bounty/data.ts:177-191 | the active and completed queries equal the status query at those statuses |
| BountyData.CatalogStatuses | src/lib/bounty/data.ts:3-171 | every shipped bounty is completed: the completed query returns the whole catalogue and the active query returns nothing |
| BountyData.CatalogSlugs | src/lib/bounty/data.ts:3-175 | a catalogue slug resolves to its entry; an unknown slug resolves to nothing |
| BountyBoard.AnyTagIncludes | src/app/code/bounty/page.tsx:183 | `tags.some(...)` is true exactly when some lower-cased tag contains the query |
| BountyBoard.FilteredBounties | src/app/code/bounty/page.tsx:174-196 | the shown list is drawn from the catalogue, is no longer than it, and matches both drop-downs |
| BountyBoard.SearchStep | src/app/code/bounty/page.tsx:177-185 | an empty query keeps the list exactly; a non-empty query keeps exactly the bounties of the list whose title, description or a tag contains the lower-cased query |
| BountyBoard.DifficultyStep | src/app/code/bounty/page.tsx:187-189 | everything kept has the selected difficulty, or any difficulty when "all" is selected |
| BountyBoard.StatusStep | src/app/code/bounty/page.tsx:191-193 | everything kept has the selected status, or any status when "all" is selected |
| BountyBoard.SearchStepIsFilter | src/app/code/bounty/page.tsx:177-185 | the search step is one filter by "empty query or match" |
| BountyBoard.DifficultyStepIsFilter | src/app/code/bounty/page.tsx:187-189 | the difficulty step is one filter by the selector |
| BountyBoard.StatusStepIsFilter | src/app/code/bounty/page.tsx:191-193 | the status step is one filter by the selector |
| BountyBoard.FilteredIsOneFilter | src/app/code/bounty/page.tsx:174-196 | the three chained filters are one filter by the conjunction of their tests |
| BountyBoard.FilteredMembership | src/app/code/bounty/page.tsx:174-196 | a bounty is shown exactly when it is in the catalogue, it passes both drop-downs, and either the query is empty or the lower-cased query occurs in its lower-cased title, description or a tag |
| BountyBoard.FilteredOrderAndIdentity | src/app/code/bounty/page.tsx:174-196 | the shown list keeps catalogue order and multiplicity; with no filter it is the whole catalogue |
| BountyBoard.DisplaySections | src/app/code/bounty/page.tsx:199-207 | the active, completed and other sections hold exactly the filtered bounties with those statuses |
| BountyBoard.DisplaySectionsPartition | src/app/code/bounty/page.tsx:199-207 | the sections are pairwise disjoint, and together they hold every filtered entry exactly as often as the filtered list does |
| BountyBoard.SumRewardsNonNegative | src/app/code/bounty/page.tsx:209-216 | the sum of non-negative rewards is non-negative |
| BountyBoard.SumRewardsSplit | src/app/code/bounty/page.tsx:209-216 | the sum of the bounties that pass a test plus the sum of those that fail it is the total |
| BountyBoard.TotalRewardPaid | src/app/code/bounty/page.tsx:209-212 | the paid total sums the completed bounties of the whole catalogue and is non-negative when no reward is negative |
| BountyBoard.TotalActiveReward | src/app/code/bounty/page.tsx:213-216 | the active total sums the active bounties of the whole catalogue and is non-negative when no reward is negative |
| BountyBoard.TotalsWithinCatalogue | src/app/code/bounty/page.tsx:209-216 | the paid total plus the active total never exceeds the catalogue's total reward |
| BountyBoard.CatalogTotals | src/app/code/bounty/page.tsx:209-216 | the shipped catalogue shows 400 paid and 0 active |
| NumberGuesser.TargetFor | src/app/game/game2/page.tsx:20 | `floor(random * 100) + 1` lies in 1..100 |
| NumberGuesser.Guesser.constructor | src/app/game/game2/page.tsx:9-25 | mounting gives a target in 1..100, an empty guess, no attempts, the prompt and no win |
| NumberGuesser.Guesser.StartNewGame | src/app/game/game2/page.tsx:19-25 | a fresh target in 1..100 and a cleared board |
| NumberGuesser.Guesser.SetGuess | src/app/game/game2/page.tsx:109 | the typed text becomes the guess and nothing else changes |
| NumberGuesser.Guesser.HandleGuess | src/app/game/game2/page.tsx:27-45 | an unreadable guess only shows the invalid-number message; a readable guess counts one attempt, and equal wins with the new count, lower says too low, higher says too high |
| NumberGuesser.TypeNumber | src/app/game/game2/page.tsx:28 | the decimal text of `n` is read back as `n` |
| NumberGuesser.TypeAndGuess | src/app/game/game2/page.tsx:27-45 | guessing `n` counts an attempt, keeps the target, and gives the win, too low or too high according to how `n` compares with the target |
| NumberGuesser.GuessingScenario | src/app/game/game2/page.tsx:19-45 | one below the target says too low and leaves the game open; the target then wins on the second attempt |
| RunnerPlayer.BoostStrength | src/game/runner/entities/RunnerPlayer.ts:95 | the boost multiplier inside the window lies in (0.5, 1] |
| RunnerPlayer.BoostStrengthDecays | src/game/runner/entities/RunnerPlayer.ts:95 | the multiplier strictly decreases as boost time grows |
| RunnerPlayer.RestingIsConsistent | src/game/runner/entities/RunnerPlayer.ts:4-11 | the fresh player satisfies the controller invariant |
| RunnerPlayer.OperationsPreserveConsistent | src/game/runner/entities/RunnerPlayer.ts:56-110 | jump, release and update (for a non-negative frame time) keep the controller invariant |
| RunnerPlayer.JumpRefusal | src/game/runner/entities/RunnerPlayer.ts:56-77 | a jump is refused exactly when a release is pending or the player is in the air; a refused jump changes nothing |
| RunnerPlayer.JumpLaunch | src/game/runner/entities/RunnerPlayer.ts:65-73 | a jump from the ground with no pending release succeeds, launches at -280, opens the boost window at 0 and sets the latch |
| RunnerPlayer.SecondJumpFails | src/game/runner/entities/RunnerPlayer.ts:56-110 | after a successful jump, any number of frames without a release leave the next jump refused and the state untouched |
| RunnerPlayer.UpdateAllKeepsLatch | src/game/runner/entities/RunnerPlayer.ts:85-110 | no sequence of frames changes the release latch |
| RunnerPlayer.ReleaseClearsOnly | src/game/runner/entities/RunnerPlayer.ts:79-83 | release clears the hold, the boost window and the latch, and keeps the velocity, the timer and the jump flag |
| RunnerPlayer.BoostWindow | src/game/runner/entities/RunnerPlayer.ts:89-102 | the velocity changes only while boosting inside the window, where it gets the decaying upward push; when the window runs out the velocity is kept and the window closes |
| RunnerPlayer.LandingResets | src/game/runner/entities/RunnerPlayer.ts:104-109 | ground contact ends the jump, closes the window and zeroes the timer |
| RunnerPlayer.UpdateKeepsInput | src/game/runner/entities/RunnerPlayer.ts:85-110 | an update never touches the hold flag or the latch |
| RunnerPlayer.Player.constructor | src/game/runner/entities/RunnerPlayer.ts:4-11 | a new player is at rest and consistent |
| RunnerPlayer.Player.Jump | src/game/runner/entities/RunnerPlayer.ts:56-77 | the new state and the result are those of `AfterJump`, and the invariant holds |
| RunnerPlayer.Player.ReleaseJump | src/game/runner/entities/RunnerPlayer.ts:79-83 | the new state is that of `AfterRelease`, and the invariant holds |
| RunnerPlayer.Player.UpdateJump | src/game/runner/entities/RunnerPlayer.ts:85-110 | the new state is that of `AfterUpdate`, and the invariant holds |
| RunnerScene.PickupValue | src/game/runner/RunnerScene.ts:290 | a pickup is worth 25, 50 or 100 |
| RunnerScene.PickupValueCases | src/game/runner/RunnerScene.ts:290 | exactly "Offer Letter" is worth 100, exactly "Feature Shipped" is worth 50, and every other type is worth 25 |
| RunnerScene.SpeedForDay | src/game/runner/RunnerScene.ts:329 | the day's speed never exceeds 450 and, from day 0 on, is at least 200 |
| RunnerScene.SpeedRamp | src/game/runner/RunnerScene.ts:329 | the speed never decreases with the day; it is 200 + 8 * day before day 32 and 450 from then on |
| RunnerScene.Score | src/game/runner/RunnerScene.ts:487 | a non-negative distance gives a score of at least 25 per shipped feature |
| RunnerScene.ScoreCountsTens | src/game/runner/RunnerScene.ts:487 | the distance part of the score is the number of whole tens run |
| RunnerScene.Travelled | src/game/runner/RunnerScene.ts:486 | a frame never reduces the distance, and a zero-length frame adds nothing |
| RunnerScene.Drifted | src/game/runner/RunnerScene.ts:265-271 | the engine's position update moves every entity of a group by its velocity times the step, and keeps the group's length and order |
| RunnerScene.WithVelocityX | src/game/runner/RunnerScene.ts:506-514 | every entity keeps its place in the group and only its x velocity changes |
| RunnerScene.Visible | src/game/runner/RunnerScene.ts:491-504 | the destroy loop keeps exactly the entities whose x is not below -50 |
| RunnerScene.VisibleAppend | src/game/runner/RunnerScene.ts:491-504 | the loop's result grows one entity at a time, which is the destroy loop's invariant |
| RunnerScene.VisibleIsFilter | src/game/runner/RunnerScene.ts:491-504 | the survivors keep their order and multiplicity (the loop is a filter) |
| RunnerScene.MoveGroup | src/game/runner/RunnerScene.ts:491-514 | a frame's two loops never grow the group |
| RunnerScene.OnScreenWithVelocity | src/game/runner/RunnerScene.ts:491-514 | destroy-then-set-velocity leaves exactly the entities that were on screen, each moving at the given velocity: everything left came from an on-screen entity, and every on-screen entity is still there |
| RunnerScene.VelocityKeepsValues | src/game/runner/RunnerScene.ts:506-514 | changing velocities keeps every pickup's table value |
| RunnerScene.DriftKeepsValues | src/game/runner/RunnerScene.ts:302-309 | the engine's position update keeps every pickup's table value |
| RunnerScene.RemoveOffscreen | src/game/runner/RunnerScene.ts:491-504 | the loop computes `Visible` of the group |
| RunnerScene.SetVelocitiesX | src/game/runner/RunnerScene.ts:506-514 | the loop computes `WithVelocityX` of the group |
| RunnerScene.DriftAll | src/game/runner/RunnerScene.ts:265-271 | the loop computes `Drifted` of the group |
| RunnerScene.InitialSatisfiesInv | src/game/runner/RunnerScene.ts:19-35 | the initial field values satisfy the scene invariant |
| RunnerScene.EndedKeepsInv | src/game/runner/RunnerScene.ts:381-397 | the end of a run keeps the invariant |
| RunnerScene.ApplyKeepsInv | src/game/runner/RunnerScene.ts:190-515 | every handler keeps the invariant: speed tied to the day, non-negative distance and score, timers registered exactly during a run, pickups carrying their table values |
| RunnerScene.EndedRunIsFrozen | src/game/runner/RunnerScene.ts:190-343 | after game over, jumps, spawns, days, frames and hits change nothing, and a release clears only the key flag; a collect still counts |
| RunnerScene.EndingStopsEverything | src/game/runner/RunnerScene.ts:381-397 | game over sets the flag, removes the timers, records the cause, and stops every entity in place, keeping score and day |
| RunnerScene.RestartResets | src/game/runner/RunnerScene.ts:211-215 | restart does nothing during a run; after a game over it gives day 1, speed 200 and no score, features, timers or entities |
| RunnerScene.JumpPressedCases | src/game/runner/RunnerScene.ts:190-203 | a press is ignored exactly after game over or while the key is held; otherwise it marks the key held, and the first press starts the run with its three timers |
| RunnerScene.JumpReleasedCases | src/game/runner/RunnerScene.ts:205-209 | a release always clears the key flag and nothing else; it reaches the player exactly during a run |
| RunnerScene.ResetClearsRun | src/game/runner/RunnerScene.ts:468-477 | the reset zeroes the counters and flags and keeps the timers, the entities and the cause; on a bare scene it gives the initial state |
| RunnerScene.DayAdvances | src/game/runner/RunnerScene.ts:322-333 | during a run a new day adds one day and sets the speed to `min(450, 200 + 8 * day)`, changing nothing else; after game over it does nothing |
| RunnerScene.CollectCountsValue | src/game/runner/RunnerScene.ts:345-353 | a collect adds the pickup type's table value and one shipped feature, and changes nothing else |
| RunnerScene.FrameAdvancesRun | src/game/runner/RunnerScene.ts:479-488 | a frame adds `speed * delta / 1000` to the distance, never reduces it, and rewrites the score from it; day, speed and features stay |
| RunnerScene.FrameKeepsOnScreen | src/game/runner/RunnerScene.ts:479-515 | during a run a frame leaves exactly the obstacles and pickups that were on screen, each moving at the current speed |
| RunnerScene.FramedGroups | src/game/runner/RunnerScene.ts:491-514 | during a run a frame puts each group through the destroy loop and the velocity loop |
| RunnerScene.FrameForgetsPickupValues | src/game/runner/RunnerScene.ts:487 | a collect adds the pickup's value at once, but after the next frame it is worth 25 |
| RunnerScene.CollectingTwiceCountsTwice | src/game/runner/RunnerScene.ts:345-363 | a second overlap during the fade counts a second feature and a second value |
| RunnerScene.SpeedFollowsDay | src/game/runner/RunnerScene.ts:322-333 | in every reachable state the speed lies in 200..450 and is the ramp's value after day 1; a new day never slows the run |
| RunnerScene.RunKeepsInv | src/game/runner/RunnerScene.ts:190-515 | every sequence of events keeps the invariant |
| RunnerScene.IdleIgnoresTimers | src/game/runner/RunnerScene.ts:217-244 | outside a run no timer is registered, so obstacle, pickup and day timer events change nothing |
| RunnerScene.TimersFireDuringRun | src/game/runner/RunnerScene.ts:217-244 | during a run the three timers are registered, and each timer event performs its spawn or its new day |
| RunnerScene.OffscreenObstacleIsDestroyed | src/game/runner/RunnerScene.ts:491-496 | the first obstacle of a run, carried by 4 s of physics to x = -140, is destroyed by the next frame |
| RunnerScene.EndedStaysEnded | src/game/runner/RunnerScene.ts:190-515 | after game over, no sequence of events without a restart brings back the run or its timers, or changes the day, the speed or the distance |
| RunnerScene.Scene.constructor | src/game/runner/RunnerScene.ts:55-56 | `create` gives the initial state with a fresh player at rest |
| RunnerScene.Scene.ResetGameState | src/game/runner/RunnerScene.ts:468-477 | the new state is `Reset` of the old one |
| RunnerScene.Scene.Recreate | src/game/runner/RunnerScene.ts:211-215 | `scene.restart()` gives the initial state with a new player at rest |
| RunnerScene.Scene.HandleJump | src/game/runner/RunnerScene.ts:190-203 | the scene does `JumpPressed`, and the player jumps exactly when the press got through the guards |
| RunnerScene.Scene.HandleJumpRelease | src/game/runner/RunnerScene.ts:205-209 | the scene does `JumpReleased`, and the player releases exactly during a run |
| RunnerScene.Scene.HandleRestart | src/game/runner/RunnerScene.ts:211-215 | the scene does `Restarted`, with a new player exactly after game over |
| RunnerScene.Scene.StartGame | src/game/runner/RunnerScene.ts:217-244 | the run is marked started and the three timers are registered |
| RunnerScene.Scene.SpawnObstacle | src/game/runner/RunnerScene.ts:246-279 | unless the run is over, one obstacle is appended at `width + 20` with the current speed, and a second spawn is scheduled exactly when the roll is below 0.3 after day 2; the timer that calls it is registered only during a run |
| RunnerScene.Scene.FireChainedSpawn | src/game/runner/RunnerScene.ts:274-278 | the delayed spawn acts as a spawn that is skipped after game over |
| RunnerScene.Scene.SpawnPickup | src/game/runner/RunnerScene.ts:281-320 | unless the run is over, one pickup with its table value is appended at `width + 20` with the current speed; the timer that calls it is registered only during a run |
| RunnerScene.Scene.AdvanceDay | src/game/runner/RunnerScene.ts:322-333 | the new state is `DayAdvanced` of the old one, and the invariant holds |
| RunnerScene.Scene.HitObstacle | src/game/runner/RunnerScene.ts:335-343 | a hit during a run ends it with the obstacle's type as the cause; after game over it does nothing |
| RunnerScene.Scene.GameOver | src/game/runner/RunnerScene.ts:381-397 | the new state is `Ended` of the old one, and the invariant holds |
| RunnerScene.Scene.StopEntities | src/game/runner/RunnerScene.ts:389-397 | both groups get x velocity 0 |
| RunnerScene.Scene.CollectPickup | src/game/runner/RunnerScene.ts:345-379 | the new state is `Collected` of the old one, and the invariant holds |
| RunnerScene.Scene.RemovePickup | src/game/runner/RunnerScene.ts:356-363 | the fade's end removes exactly that pickup, and the invariant holds |
| RunnerScene.Scene.EngineStep | src/game/runner/RunnerScene.ts:265-271 | the engine's step moves both groups as `Moved` says, keeps the player and keeps the invariant |
| RunnerScene.Scene.Update | src/game/runner/RunnerScene.ts:479-515 | the scene does `Framed`, and the player does `AfterUpdate` exactly during a run |
| RunnerScene.Scene.MoveRun | src/game/runner/RunnerScene.ts:485-515 | the distance, score, destroy and velocity steps of a frame give `Framed` and keep the invariant |
| RunnerScene.SprintScenario | src/game/runner/RunnerScene.ts:322-333 | a run that sees three new days is on day 4 at speed 232 |
| RunnerScene.BurnoutScenario | src/game/runner/RunnerScene.ts:381-397 | after a hit every entity stands still, and later timer events and frames change nothing |
| RunnerScene.RestartScenario | src/game/runner/RunnerScene.ts:211-215 | restarting after a burnout gives day 1, speed 200, no score and nothing shipped |
| RunnerScene.DeadlineScenario | src/game/runner/RunnerScene.ts:246-279 | one obstacle spawned at the start of a run is gone after 4 s of physics and a frame |
| RunnerScene.OfferLetterScenario | src/game/runner/RunnerScene.ts:345-352 | an Offer Letter shows 100 at once and 25 after the next frame |

## Left out

- Rendering is not modelled. That covers the HUD texts, the start and burnout overlays, the tints, the camera flash, the tweens, the pop-up text and the page markup. None of it affects game state.
- Phaser's physics is modelled only as the position update `x += vx * dt / 1000` of the obstacles and pickups (`Physics` events, `EngineStep`). Gravity, acceleration, the y velocity of entities and the player's y position are left out.
- Engine scheduling is left out. The collision and overlap tests, the timers' clock and `delayedCall` are not modelled; the host calls the matching methods instead. The model does keep which timers are registered, and a timer event acts only while its timer is.
- Randomness is a parameter. `Phaser.Math.RND.pick` becomes an index, `Math.random()` a roll, and the pickup's y from `Phaser.Math.Between` is left out.
- `isOnGround` and the body's ground-contact test (src/game/runner/entities/RunnerPlayer.ts:63, 87, 112-115) are a parameter of each call, because they read the physics body.
- The keyboard and pointer wiring (src/game/runner/RunnerScene.ts:131-161) is not modelled. It only routes input to the handlers.
- The `preload` function, the `RunnerPlayer` constructor's texture drawing and the world setup inside `create` are not modelled; they are rendering and engine configuration.
- JavaScript numbers are not modelled exactly. Distances, times and velocities are `real`; counters are unbounded integers. Floating-point rounding is not modelled.
- RunnerScene.Scene.GameOver: `setVelocity(0)` also zeroes the y velocity. The model has no y velocity for entities, so only the x velocity is stated.
- RunnerScene.Scene.Update: the source's destroy loop calls `destroy` while it iterates over `getChildren()`. In Phaser this can skip the element after a destroyed one, but the model removes every entity left of -50. The element order and the partial skipping are engine behaviour that is not part of this model.
- Text.ParseInt: `parseInt` with no radix also reads a `0x` prefix as hexadecimal; the model reads decimal digits only. On the page the input has type "number", so the browser gives only decimal text or the empty string.
- Text.Lower: `toLowerCase` is modelled for ASCII letters only; Unicode case mapping is left out.
- Text.Includes and the search filter use code points as characters. UTF-16 code units are not modelled.
- The number guesser's feedback rendering (the message texts with emoji, and the guess input shown only while the game is not won) is not modelled. Messages are a datatype of kinds.
- The rest of the repository is not part of this model: the blog, the achievements, the job pages and the other games.
