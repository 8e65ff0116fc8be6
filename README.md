# Garry Run — the game simulation

Garry Run is a browser endless runner. The player is a square that stays at a
fixed column, jumps over barriers scrolling in from the right and collects
coins. Touching a barrier ends the run. This project models the state the page
keeps between animation frames, and the operations that change that state:
one frame of the game loop, a jump, the start of a run and its end. It also
models the pure helpers those operations use: spawning, the barrier collision
test, the coin pickup test, and the leaderboard's Twitter-handle formatting.

Modules:

- `Seqs`: `Map` and `Filter` on sequences. Also the subsequence and spacing
  facts about them that the rest of the model relies on.
- `Difficulty`: the speed step driven by the run clock, and the
  obstacle-height factor.
- `Entities`: barriers and coins, how they are spawned and how they scroll.
  Also the layout every list of them keeps: each entity lies between its
  retirement line and the spawn edge, and entities are spaced in spawn order.
- `Physics`: gravity with the floor clamp, and the jump impulse with its
  two-jump limit.
- `Collision`: the barrier overlap test and the coin pickup pass.
- `Handles`: the blank-name test, which is JavaScript's `trim`, and the
  handle formatting.
- `Simulation`: the class `Game`, whose fields are reassigned by its methods.
  Its invariant `Valid` is established by the constructor and `Reset`. It is
  kept by `Start`, `Jump`, `Tick` and every phase of a frame: `ApplyGravity`,
  `ScrollAndSpawn`, `CollectTouchedCoins`, `MoveWorld`, `EndGame` and
  `AdvanceClock`. `SpawnBarrier` and `SpawnCoin` do not keep it on their own.
  They are steps inside `ScrollAndSpawn`, and are only valid right after a
  scroll has made room at the spawn edge.

All geometry is exact `real` arithmetic. The constants 0.6 and 0.5 are exact,
and no floating-point rounding is modelled. The canvas width `W` and height
`H` are fixed when a `Game` is created. Each `Math.random()` draw of a frame
is an explicit argument in `[0, 1)`.

## Model

| member | source | states |
|---|---|---|
| `Simulation.Game.constructor` | pages/index.js:15-27 | The page before any run. The player is at (50, 300), at rest, with no jumps used. There is no run, the score is 0, there are no entities, the speed is 3 and the clock is 0. The invariant holds. |
| `Simulation.Game.Start` | pages/index.js:206-220 | A name that trims to "" is refused, and the whole state is unchanged. Any other name starts a run: the score is 0, the player stands on the floor at rest with no jumps used, both lists are empty, the speed is 3 and the clock is 0. |
| `Simulation.Game.Reset` | pages/index.js:211-217 | The reset of every ref that starting a run performs. The invariant holds afterwards. |
| `Simulation.Game.Jump` | pages/index.js:238-245 | The player becomes `Jumped` of the old player, and the invariant is kept, including `jumps <= 2`. |
| `Simulation.Game.SpawnBarrier` | pages/index.js:251-260 | Appends exactly one barrier, `NewBarrier` for the current clock and the draw, at the end of the list. |
| `Simulation.Game.SpawnCoin` | pages/index.js:262-267 | Appends exactly one coin, `NewCoin` for the draw, at the end of the list. |
| `Simulation.Game.EndGame` | pages/index.js:222-223 | The run is over. Nothing else in the game state changes, and the invariant is kept. |
| `Simulation.Game.ApplyGravity` | pages/index.js:118-127 | The player becomes `Fall` of the old player, and the invariant is kept. |
| `Simulation.Game.ScrollAndSpawn` | pages/index.js:154-164 | Barriers and coins are scrolled and retired. Then a barrier is appended when its draw is below 0.01. A coin is appended when its draw is below 0.05, or whenever fewer than 3 coins survived. The invariant, including the layout of both lists, is kept. |
| `Simulation.Game.CollectTouchedCoins` | pages/index.js:166-173 | Exactly the untouched coins remain, in order. The score rises by the number of touched coins. The invariant is kept. |
| `Simulation.Game.AdvanceClock` | pages/index.js:182-187 | The clock advances by 16 ms. The speed rises by 0.5 exactly when the source's modulo test fires. Afterwards the speed is again `SpeedAt(time)`, and the invariant is kept. |
| `Simulation.Game.MoveWorld` | pages/index.js:118-173 | Gravity, then scrolling and spawning, then pickup, with the resulting player, lists and score stated in full. The invariant is kept. |
| `Simulation.Game.Tick` | pages/index.js:111-196 | One frame of a run, stated in full. The player falls and is clamped to the floor. The entities scroll, retire and spawn, with a coin forced when fewer than 3 remain. Touched coins are removed and counted. The run ends exactly when the player overlaps a barrier, and then the clock and speed are left as they were. Otherwise the clock advances by 16 ms and the speed steps on each 10 s boundary. The invariant `Valid` is kept. |
| `Simulation.EntitiesBounded` | pages/index.js:154-164 | In any valid state, the number of barriers and of coins on screen is bounded by the width of the strip between the retirement line and the spawn edge, divided by the least gap of 3 px. |
| `Physics.Fall` | pages/index.js:119-127 | After gravity, the player is never below the floor (`y <= H - 100`). When the clamp fires, the velocity and the jump count are 0. Otherwise the jump count is unchanged, the velocity grows by 0.6 and the player moves by the new velocity. |
| `Physics.Jumped` | pages/index.js:238-245 | On the ground, or with fewer than 2 jumps used, the velocity becomes -15. The jump count becomes 1 on the ground and one more otherwise. In any other case the player is unchanged. A count of at most 2 stays at most 2. |
| `Physics.RestIsStable` | pages/index.js:119-127 | A player at rest on the floor stays there after a tick. |
| `Physics.ThirdAirJumpIgnored` | pages/index.js:241-243 | In the air, a third press in a row changes nothing. |
| `Physics.ArcStep` | pages/index.js:119-120 | One tick along the arc of a ground jump moves the player by that tick's velocity. Through tick 49 the player is never below the floor. |
| `Physics.GroundJumpArc` | pages/index.js:119-127 | For `n <= 49` ticks after a jump from rest on the floor, the player follows the arc `H - 100 - 0.3·n·(49 - n)` with velocity `-15 + 0.6·n` and one jump used. |
| `Physics.GroundJumpLands` | pages/index.js:123-127 | The 50th tick of a jump from the floor lands the player back at rest with its jumps restored. |
| `Physics.GroundJumpApex` | pages/index.js:119-120 | A jump from the floor rises at most 180 px, and reaches exactly 180 px at ticks 24 and 25. |
| `Collision.Overlaps` | pages/index.js:270-275 | For a barrier of positive size, the four strict inequalities hold exactly when the hit box and the barrier share an interior point. |
| `Collision.CoinHit` | pages/index.js:168 | A coin is touched exactly when its corner lies strictly within 40 px of the player's corner along both axes. |
| `Collision.CheckCollision` | pages/index.js:269-276 | True exactly when some barrier strictly overlaps the player's 40 px hit box. |
| `Collision.CoinHitIsBoxOverlap` | pages/index.js:168 | The pickup test is exactly the overlap of the player's hit box with a 40 px square placed at the coin. |
| `Collision.CollectCoins` | pages/index.js:167-173 | The filter pass keeps exactly the untouched coins, in order. It counts exactly the touched ones. Kept plus counted equals the number of coins offered. |
| `Collision.PickupKeepsUntouched` | pages/index.js:167-173 | A coin remains exactly when it was offered and not touched. The remaining coins are a subsequence of those offered. |
| `Collision.GroundedPlayerHitsBarrier` | pages/index.js:269-276 | A player on the floor overlaps every barrier standing in its columns. |
| `Entities.NewBarrier` | pages/index.js:251-260 | The spawned barrier is at `x = W` and rests on the floor top (`y + height = H - 50`). Its height is `60 <= height < 60 + 60·0.7`, is at most `60 + 60·difficulty`, and is exactly 60 at the start of a run. |
| `Entities.NewCoin` | pages/index.js:262-267 | The spawned coin is at `x = W`, with `H - 180 < y <= H - 80`. |
| `Entities.BarrierWidth` | pages/index.js:257 | The barrier width is the smaller of 30 and `W / 26`. |
| `Entities.MoveBarriers` | pages/index.js:155 | Scrolling never grows the barrier list, and every surviving barrier has `x > -100`. |
| `Entities.MoveCoins` | pages/index.js:156 | Scrolling never grows the coin list, and every surviving coin has `x > -30`. |
| `Entities.MoveBarriersSurvivors` | pages/index.js:155 | Every surviving barrier is an original barrier moved left by exactly the speed, with its other fields unchanged. Every moved barrier still right of -100 survives. |
| `Entities.MoveCoinsSurvivors` | pages/index.js:156 | Every surviving coin is an original coin moved left by exactly the speed, with its other fields unchanged. Every moved coin still right of -30 survives. |
| `Entities.MoveBarriersKeepsOrder` | pages/index.js:155 | The surviving barriers keep their relative order. |
| `Entities.MoveCoinsKeepsOrder` | pages/index.js:156 | The surviving coins keep their relative order. |
| `Entities.MoveBarriersKeepsLayout` | pages/index.js:155 | Scrolling left by any speed keeps the barrier layout, and leaves every barrier at least the speed left of the edge. |
| `Entities.SpawnBarrierKeepsLayout` | pages/index.js:159-161 | Appending a floor-standing barrier at the edge keeps the layout, when every barrier already on screen is at least 3 px left of the edge. A scroll at the game's speed, which is never below 3, leaves that room. |
| `Entities.MoveCoinsKeepsLayout` | pages/index.js:156 | Scrolling left by any speed keeps the coin layout, and leaves every coin at least the speed left of the edge. |
| `Entities.SpawnCoinKeepsLayout` | pages/index.js:162-164 | Appending an in-band coin at the edge keeps the layout, when every coin already on screen is at least 3 px left of the edge. A scroll at the game's speed, which is never below 3, leaves that room. |
| `Entities.FilterCoinsKeepsLayout` | pages/index.js:167-173 | Removing coins keeps the coin layout. |
| `Entities.BarrierCountBound` | pages/index.js:155-161 | Laid-out barriers number at most `1 + (W + 100) / 3`. |
| `Entities.CoinCountBound` | pages/index.js:156-164 | Laid-out coins number at most `1 + (W + 30) / 3`. |
| `Difficulty.SpeedAt` | pages/index.js:182-187 | The speed for a clock value is never below the initial 3. |
| `Difficulty.DifficultyAt` | pages/index.js:252 | The difficulty is `time / 120000`, capped at 0.7. It lies in `[0, 0.7]` and sits at the cap from 84 s on. |
| `Difficulty.SpeedsUp` | pages/index.js:184 | On a frame-aligned clock, the modulo test fires exactly on a 10 s boundary. |
| `Difficulty.FramePhase` | pages/index.js:183 | A clock advanced in whole 16 ms frames stays frame-aligned within each 10 s interval. |
| `Difficulty.SpeedStepExact` | pages/index.js:183-185 | On a frame-aligned clock, the test `time % 10000 < 16` fires exactly on 10 s boundaries. The speed formula steps by 0.5 exactly there. |
| `Difficulty.SpeedUpEvery625Ticks` | pages/index.js:182-187 | Counted in ticks, the speed steps on every 625th tick and on no other. |
| `Handles.LeadingSpace` | pages/index.js:207 | The count of leading characters that trimming drops. All of them are white space, and the character after them is not. |
| `Handles.TrailingSpace` | pages/index.js:207 | The count of trailing characters that trimming drops. All of them are white space, and the character before them is not. |
| `Handles.TrimStart` | pages/index.js:207 | The result is a suffix of the name. Every character dropped is white space, and the result does not start with white space. |
| `Handles.TrimEnd` | pages/index.js:207 | The result is a prefix of the name. Every character dropped is white space, and the result does not end with white space. |
| `Handles.Trim` | pages/index.js:207 | The result is a contiguous part of the name with only white space before and after it. It neither starts nor ends with white space. |
| `Handles.TrimPadded` | pages/index.js:207 | Trimming drops exactly the leading white space and then the trailing white space. What remains sits at the offset of the first character that is not white space, and it neither starts nor ends with white space. |
| `Handles.BlankIffAllSpace` | pages/index.js:207 | A name is refused exactly when every character is JavaScript white space. |
| `Handles.TrimKeepsVisible` | pages/index.js:207 | Trimming keeps every character that is not white space. |
| `Handles.FormatTwitterHandle` | pages/index.js:278-280 | The result is the handle itself, or the handle with one leading '@' dropped. It is the handle itself exactly when the handle does not start with '@'. |
| `Handles.FormatStripsAt` | pages/index.js:278-280 | Formatting '@' followed by a bare handle gives the bare handle back. |

## Left out

- Drawing is not modelled: canvas clearing, the images, the floor, the score and speed text, and the drawn player size. None of it changes the game state.
- Window resize and orientation handling are not modelled. `W` and `H` are fixed for the life of a `Game`, and the landscape check that guards the game loop is not modelled.
- `canvas.height` vs `canvasSize.height`: the loop clamps against `canvas.height`, an integer canvas attribute. `jump`, `startGame`, `spawnBarrier` and `spawnCoin` use `canvasSize.height`, which can end in .5 for odd widths. The model uses one `H` for all of them, including in `StandsOnFloor` and `InCoinBand`.
- Network and foreign calls are not modelled: the Supabase high-score fetch, insert and connection check, `confetti()`, and console logging. `EndGame` models only the end of the run (`started := false`). The score it saves is not modelled.
- `alert` on a blank name is not modelled. `Start` returns `false` and changes nothing.
- `requestAnimationFrame` scheduling and React plumbing are not modelled. That includes state setters, and re-running the effect whenever `score` changes, which restarts the loop with an immediate extra frame. `score` and `speed` are plain fields updated at once, and `Tick` is one frame of a run in progress.
- Keyboard and touch listeners only call `jump` during a run, so they are not modelled. `Jump` is the operation they trigger.
- `Math.random()` is not modelled; its draws are parameters.
- The JSX markup and `pages/_app.js` are not part of this model.
- The speed step follows the code's modulo test (`time % 10000 < 16` after the clock advances), not a threshold on elapsed time. With 16 ms frames the two agree, since 10000 is a multiple of 16. `SpeedStepExact` proves this.
