# ants2027 in Dafny

ants2027 is a small game about an ant infestation. In stage A1 (Easy) ants crawl
over a coffee cup, a keyboard and a mouse. Each object's dirtiness grows on a
fixed cadence, holding the mouse button over an object pushes it back, and
every idle tick earns money. In stage B1 (Medium) the player watches three
houses over a timed shift, holding the button over a house to keep it in range
and to earn money. A button buys repellants (drones in B1): they slow the Easy
cadence and raise the Medium earnings. The level is won when the money passes
its goal. It is lost when all Easy objects are overrun, when any Medium object
leaves the 40..200 range, or when the Medium shift ends.

This project models the deterministic core of the game, with all drawing removed:

- `Geometry` (`geometry.dfy`) is the point-in-quad hit test of `src/util.rs`:
  - `sign` is `Sign`.
  - `in_triange` is `InTriangle`, which accepts points on edges.
  - `LineSegment::lies_between` is `LiesBetween`, a union of three triangles.
  - `LineSegment::new` is the datatype constructor `LineSegment`.
  - Points are pairs of reals.
- `Infestation` (`infestation.dfy`) covers the objects:
  - `DirtyObj` with its constructor `NewDirtyObj`, which stores the difference of the two segments' midpoints.
  - The 100-entry noise table.
  - The two gates at the top of `lerp_ant`. One culls a creature when noise² · dirtiness < 63. The other swaps its start and end when noise · 255 < `chance_bidir`.
- `Level` (`level.dfy`) is `manage_level`, one tick of a stage:
  - `LevelState` is a class whose `Tick` method walks the objects in order, like the game's loop.
  - Each object gets the cadence gate, saturating `u8` dirtiness steps, the click or idle money and the completion tally.
  - Before the loop the tick advances the shift clock. After it, a Medium tick prints the shift countdown; then the tick handles the buy button and evaluates the ordered Won/Lost decision.
  - `Tick` is proved equal to the value-level specification `Step`. The properties of a tick are lemmas about `Step`.
  - `Step` follows a debug build, where integer overflow panics. A tick panics when buying a repellant overflows the `u16` count (`RepellantOverflow`). It also panics when the countdown underflows because the shift has ended (`CountdownUnderflow`); that happens before the timeout test could report the loss (see "## Findings").
  - `CorrectedStep` is the tick with the countdown stopping at zero. The timeout guarantees are proved about it, and `CorrectedStepAgrees` shows it differs from `Step` only on the underflowing ticks.
  - The routines a tick calls but does not define are passed in an `Env` value: `f32::exp` and the hit test. The game passes `Geometry.LiesBetween` for the hit test. This keeps the proofs about a tick independent of the geometry, and `BuyButtonIsRectangle` pins down the hit test for the buy button.
- `Screens` (`screens.dfy`) is the main loop:
  - the stage templates;
  - the screen machine (main menu, a stage in play, death animation, won/lost dialogs);
  - the frame counter;
  - the global shift clock, which is never reset;
  - the death animation's progress counter.

  `Game.Frame` is one pass of the loop. Every entry into a stage starts from a fresh `LevelState` built from the immutable template map.

The model follows the code where the code is surprising:
- A win always shows `Won(A1, B1)`, whatever the stage.
- Every loss shows `Lost(B1)`, so losing A1 restarts B1.
- The game opens directly on stage B1.
- Nothing reaches the main menu or the death animation from launch. `Game.Reachable` states the reachable screens, and `Frame` preserves it.

## Model

| member | source | states |
|---|---|---|
| Geometry.SignSwap | src/util.rs:51-53 | swapping the first two points negates `sign` |
| Geometry.SignRotate | src/util.rs:51-53 | rotating the three points leaves `sign` unchanged |
| Geometry.SignDegenerate | src/util.rs:51-53 | a triangle with two equal corners has `sign` zero |
| Geometry.SignOfCombination | src/util.rs:51-53 | the edge signs of a convex combination are the weights times the triangle's orientation |
| Geometry.EdgeSignsSum | src/util.rs:51-53 | the three edge signs of any point add up to the triangle's orientation |
| Geometry.EdgeSignsWeighCorners | src/util.rs:51-53 | the edge signs, used as weights of the opposite corners, rebuild the point scaled by the triangle's orientation |
| Geometry.InTriangleMeaning | src/util.rs:54-63 | `in_triange` holds exactly when the three signs are not of strictly mixed sign |
| Geometry.VerticesInside | src/util.rs:54-63 | each corner lies in its own triangle |
| Geometry.ConvexCombinationInside | src/util.rs:54-63 | every convex combination of the corners, edges included, is accepted |
| Geometry.InsideIsConvexCombination | src/util.rs:54-63 | conversely, every accepted point of a non-degenerate triangle is a convex combination of its corners |
| Geometry.InTriangleRotation | src/util.rs:54-63 | the test is unchanged by rotating the corners |
| Geometry.InTriangleReversal | src/util.rs:54-63 | the test is unchanged by reversing the corners' winding |
| Geometry.EndpointsLieBetween | src/util.rs:87-91 | all four segment endpoints lie between the two segments |
| Geometry.SquareExample | src/util.rs:87-91 | a point inside the square spanned by two horizontal segments is accepted and one above it is not |
| Geometry.LiesBetweenNotSymmetric | src/util.rs:87-91 | `lies_between` is not symmetric in its two segments: one concrete point is accepted one way round and rejected the other |
| Infestation.NewDirtyObj | src/main.rs:384-403 | the object keeps every argument, and its distance is the midpoint of `end` minus the midpoint of `start` |
| Infestation.DistanceIgnoresDirection | src/main.rs:392-393 | reversing either segment leaves the distance unchanged |
| Infestation.DistanceAntisymmetric | src/main.rs:392-393 | exchanging the two segments negates the distance |
| Infestation.NoiseTable | src/main.rs:27 | every noise entry lies in [0, 1) |
| Infestation.LerpGates | src/main.rs:413-418 | the result is absent exactly when the creature is culled; otherwise it is (start, end), swapped exactly when the flip gate fires |
| Infestation.CullPeriodic | src/main.rs:413-415 | two seeds equal modulo 100 get the same cull decision |
| Infestation.CulledWhenClean | src/main.rs:413-415 | every creature of an object with dirtiness below 63 is culled |
| Infestation.SmallNoiseCulls | src/main.rs:413-415 | any noise value in [0, 1) culls at dirtiness below 63 |
| Infestation.CulledAtSeedZero | src/main.rs:413-415 | seeds that are multiples of 100 are always culled (the table starts with 0) |
| Infestation.CullMonotone | src/main.rs:413-415 | a creature culled at some dirtiness is culled at every lower one |
| Infestation.NeverFlippedAtZeroChance | src/main.rs:416-418 | with `chance_bidir` zero no creature is swapped |
| Level.ShiftCountdown | src/main.rs:312-323 | the printed countdown `MEDIUM_DURATION - duration` exists exactly while duration ≤ 18000, and then adds up with the duration to 18000 |
| Level.Cadence | src/main.rs:212-225 | the cadence is at least 7; exactly 7 on Medium; on Easy 7 plus the truncation of 0.3·repellants, the `usize` cast of `3.0 * (r / 10.0)` |
| Level.CadenceMonotone | src/main.rs:214-215 | more repellants never shorten the Easy cadence |
| Level.NextDirtiness | src/main.rs:227-252 | on a cadence tick Easy dirt rises by one and Medium dirt falls by one; a click then moves it one step the other way; each step stops at 0 and 255 |
| Level.NoneClicked | src/main.rs:236-237 | no object is counted as held exactly when the pointer holds none of them |
| Level.EasyEarnings | src/main.rs:254-277 | an Easy tick pays 0.1 per object with the button up and nothing with it held |
| Level.MediumEarnings | src/main.rs:254-277 | a Medium tick pays 0.5 + exp(repellants) for each object held down, and nothing else |
| Level.EarningsNonNegative | src/main.rs:254-277 | with a non-negative bonus the per-object loop never lowers the money |
| Level.StepMoneyWithoutBuying | src/main.rs:236-365 | with a non-negative bonus only a purchase lowers the money: a tick that leaves the repellant count alone ends with at least the money it started with |
| Level.ScaleIsProduct | src/main.rs:254-277 | n equal per-object payments add up to n times the payment |
| Level.AllComplete | src/main.rs:279-292 | the tally equals the number of objects exactly when every object is complete |
| Level.SomeComplete | src/main.rs:279-292 | the tally is positive exactly when some object is complete |
| Level.CountComplete | src/main.rs:279-292 | the tally never exceeds the number of objects |
| Level.StepOutcome | src/main.rs:312-381 | a Medium tick past the end of the shift panics on the countdown, and only such a tick does; any other tick that does not overflow decides after the purchase: money past the goal wins Won(A1, B1); otherwise an Easy level with all objects past 200 is lost; otherwise a Medium level with an object outside 40..200 or a shift past 18000 ticks is lost; otherwise nothing happens |
| Level.StepPurchase | src/main.rs:358-365 | on a tick that reaches the button, a press on it with money above the price buys one repellant for the price; the buy fails exactly when the `u16` count is full; otherwise count and money stay as the loop left them |
| Level.StepKeepsLevel | src/main.rs:142-293 | a tick keeps the difficulty, goal, price, name, the number, order and geometry of the objects, and gives every object the same dirtiness rule on the same cadence |
| Level.ShiftClock | src/main.rs:124-133 | a Medium tick starts the clock at 0 or adds one; an Easy tick leaves it alone |
| Level.TimeoutLoses | src/main.rs:375-378 | with the corrected countdown, once the shift clock has reached 18000, every Medium tick that neither wins nor overflows is lost |
| Level.CountdownUnderflowsAtTimeout | src/main.rs:312-323 | as written, on every Medium tick whose timeout test would fire, the countdown printed before it has underflowed and the tick panics instead of reporting the loss; this first happens on the tick after the clock reads 18000 |
| Level.RemainingShift | src/main.rs:316 | the corrected countdown never exceeds the shift length, adds up with the clock to 18000 while the shift lasts, and stops at zero afterwards |
| Level.TimeoutShowsZero | src/main.rs:312-323 | in the corrected tick, on every Medium tick whose timeout test fires, the countdown shows zero and the tick is lost unless it wins or overflows |
| Level.CorrectedStepAgrees | src/main.rs:312-323 | the as-written and the corrected tick have the same clock and agree on every tick whose countdown does not underflow; on one that does, the as-written tick stops with the level as the loop left it |
| Level.BuyButtonIsRectangle | src/main.rs:326-332 | the hit test on the buy button's two edges accepts exactly the rectangle 780..950 × 10..40 |
| Level.LevelState.FromTemplate | src/main.rs:577-580 | a new level is a copy of its template |
| Level.LevelState.TendObject | src/main.rs:212-277 | one object's new dirtiness and earnings are those of the specification |
| Level.LevelState.TendAll | src/main.rs:142-293 | the loop over the objects updates objects and money as specified and returns the object count and the completion tally |
| Level.LevelState.BuyRepellant | src/main.rs:358-365 | the state after the buy button is the specified purchase, and an overflow is reported exactly when it fails |
| Level.LevelState.Conclude | src/main.rs:367-381 | the outcome from the loop's tallies is the decision over the objects themselves |
| Level.LevelState.Tick | src/main.rs:113-382 | one tick, as a debug build runs it, changes the level, the shift clock and the outcome exactly as `Step` says, including both panics |
| Screens.TemplatesStartIncomplete | src/main.rs:484-562 | no template starts with an object that already ends its level |
| Screens.A1FirstTickContinues | src/main.rs:486-523 | the first tick of a fresh A1 buys nothing, ends nothing and earns at most 0.3 |
| Screens.DeathAnimClimbs | src/main.rs:623-635 | while below the threshold, each frame of the running animation adds two to the progress |
| Screens.DeathAnimEnds | src/main.rs:623-654 | from any progress, the death animation plays 128 frames after starting its emitter and then shows its stage's Lost dialog |
| Screens.Game.constructor | src/main.rs:565-569 | the game opens on a fresh copy of stage B1 with tick 0 and no shift clock |
| Screens.Game.Frame | src/main.rs:571-706 | one loop pass: a press on the menu or a dialog enters the right stage as a fresh template copy, and without a press nothing changes; a stage in play does one `Step` and shows its dialog, and reports a panic exactly when the tick overflows the repellant count or underflows the countdown, leaving the screen and the frame counter as they were; the death animation follows `DeathFrame`; the clock changes only in play; the tick advances; the reachable screens stay reachable |

## Left out

- Drawing, textures, text, the window configuration and asset loading: they produce no state.
- Sprite selection and the `gen_range` jitter of ant positions: drawing only, with an external random source.
- The position arithmetic of `lerp_ant` (f32 `%`, casts, `randomize_end`), `pythogoras` and the `points_on` iterator: they depend on `sqrt` and f32 rounding and only place sprites. Only the two gates of `lerp_ant` are modelled.
- The particle emitter of the death animation is foreign library state. Only whether it exists (`Game.emitting`) and the progress counter are modelled.
- f32 arithmetic is modelled on reals. Money, the edge signs and the noise table do not round.
- `f32::exp` is a parameter of the tick (`Env.exp`).
- The hit test is the parameter `Env.liesBetween`. The game passes `Geometry.LiesBetween`.
- Mouse position and button state are a per-frame `Pointer` value passed in.
- `Difficulty::Hard` is not in the model. Its tick panics through `todo!()` before doing anything, and no template uses it.
- The `Display` text of `Stage` (B1 prints as "B2") is text only.
- The frame counter and the shift clock are `nat`. A `usize` overflow would need more frames than a session can run.
- Buying past 65535 repellants is modelled as the debug-build panic (`RepellantOverflow`). The release-build wrap to 0 is not modelled.
- Level.EarningsNonNegative: requires the repellant bonus to be non-negative, which `f32::exp` guarantees but the model's parameter does not.
- A panic ends the process. The model does not: `Game.Frame` reports it and leaves the state as it was at the panic.
- The release-build wrap of the shift countdown (a huge remaining time on screen) is not modelled; the tick follows the debug build's panic.

## Findings

| source | as written | input that shows it | evidently intended | confidence | as-written member | corrected member |
|---|---|---|---|---|---|---|
| src/main.rs:316 | the countdown `MEDIUM_DURATION - duration` is computed on `usize` before the timeout test at src/main.rs:376 | a Medium tick entered with the clock at 18000: the clock becomes 18001, so the subtraction underflows (a panic in a debug build) before the tick can report the loss | the countdown stops at zero and the tick reports Lost(B1), as `Level.CorrectedStep` does | not executed | Level.CountdownUnderflowsAtTimeout | Level.TimeoutShowsZero |
