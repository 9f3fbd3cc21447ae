# Snowball runner: a verified model of the game's rules and buffers

The game is an OpenGL endless runner. A snowball rolls down a road, melts as it goes,
and must pass rows of barriers. It may side-step between three lanes, eat food to grow
again, and finally reach a snow house. This project models, in Dafny, the parts of the
game that are rules and bookkeeping rather than rendering:

- the barrier lane window (`Barriers`), a fixed-length deque of safe lanes in {-1, 0, 1}
  that slides one row forward for each row scored, and its parallel window of barrier
  types, two slots per row (module `Objects`);
- the sphere mesh buffers of `Ball`, which grow by a fixed block on every regeneration
  (module `Objects`);
- row selection, food placement and the three-way collision decision of one frame
  (module `GameRules`), and the frame update around them: stage machine, scene recycling,
  snowball physics, steering and key handling (module `GameLoop`, class `Game`);
- the in-place vertical flip of a screenshot's RGBA buffer (module `Screenshot`);
- the particle pool of the snow: the resume-from-cursor search for a dead slot,
  respawning, ageing and the dense packing of survivors (module `Particles`);
- the terrain grid: heights from a height map, in-place smoothing, the vertex, texture,
  normal and index buffers, and altitude lookup (module `TerrainGrid`);
- the height-map generator's parameter dictionary, the period arithmetic of smooth
  noise, the circle-strike crash schedule and the pixel layout of `save`
  (module `HeightMapGen`);
- the fly camera's angle and field-of-view clamps (module `Cameras`).

Floating-point values are modelled as `real`. Every call to `rand()` becomes a
parameter: a `nat` for `rand()`, and a `real` in [0, 1] for `rand() / RAND_MAX`.
Trigonometry, `normalize` and π also become parameters or opaque tokens: the cosine of
the noise blend, the terrain normals and the snowball's spin rate.

The most valuable property is the pinned-row invariant, carried by `GameLoop.Game.Valid`.
Once the score reaches half the window, the checked slot is pinned at `size / 2 - 1`.
Each scoring at or past that threshold pops exactly one row, so the pinned slot always
holds the lane that was generated for row number `score`. `Game` keeps the whole road
ever pushed as ghost state. `Valid` states that the window is the stretch of that road
which starts at the number of rows popped so far. `CheckRow` then proves that the
checked slot is row `score` of the road.

`Game` groups the stage globals of src/main.cpp (`stageA`, `stageB`, the seven draw and
snow flags, and `pathTexA`/`pathTexB` as whether each path shows mud) into one record `stages`, and the scene globals (`updateA` and the
model matrices of scenes A and B) into one record `scenes`. Every frame method states its
whole new state as a function of the old one, through `Snapshot`, and the properties of
a frame are lemmas about those functions.

## Model

| member | source | states |
|---|---|---|
| Common.TruncToNat | src/particle_system.h:222 | The conversion of a float above -1 to `GLuint` truncates toward zero: the floor for a non-negative value, and 0 for any value below 1. |
| Objects.Ball.constructor | src/objects.h:27-36 | The constructor stores radius, slices and stacks and fills `vertex` and `uvcord` with exactly one sphere. |
| Objects.Ball.GenVertCord | src/objects.h:126-155 | `genVertCord` appends one sphere's coordinates to `vertex` and does not clear what was there. |
| Objects.Ball.PushVertexCell | src/objects.h:145-152 | One cell of the nested loop pushes its six coordinates. |
| Objects.Ball.GenUVCord | src/objects.h:159-174 | `genUVCord` appends one sphere's texture coordinates to `uvcord` and does not clear it. |
| Objects.Ball.PushUVCell | src/objects.h:168-171 | One cell pushes its four texture coordinates. |
| Objects.SphereVerticesLength | src/objects.h:130-153 | One sphere has exactly 6 · slices · stacks vertex coordinates. |
| Objects.SphereVerticesAt | src/objects.h:145-152 | Entry 6 · (i · slices + j) + r is coordinate r of cell (i, j), in loop order. |
| Objects.VertexRowsAt | src/objects.h:130-153 | The same cell addressing, row by row, for the first n bands. |
| Objects.VertexRowAt | src/objects.h:136-153 | Within a band, cell j occupies entries 6 · j to 6 · j + 5. |
| Objects.VertexRowLength | src/objects.h:136-153 | A band of j cells has 6 · j coordinates. |
| Objects.VertexRowsLength | src/objects.h:130-153 | n bands have 6 · n · slices coordinates. |
| Objects.UVRowInUnit | src/objects.h:164-172 | A band of j texture cells has 4 · j entries, all in [0, 1]. |
| Objects.UVRowsInUnit | src/objects.h:162-173 | n bands have 4 · n · slices texture entries, all in [0, 1]. |
| Objects.SphereUVsFacts | src/objects.h:159-174 | One sphere has exactly 4 · slices · stacks texture entries and every one lies in [0, 1]. |
| Objects.Ball.SetRadius | src/objects.h:46 | `setRadius` stores the radius and appends one more sphere to both buffers. |
| Objects.Resized | src/objects.h:46 | As a value: `setRadius(r)` gives radius r, keeps the resolution, and keeps both buffers as prefixes of the longer new ones. |
| Objects.Ball.SetSlices | src/objects.h:47 | `setSlices` does the same with the new slice count. |
| Objects.Ball.SetStacks | src/objects.h:48 | `setStacks` does the same with the new stack count. |
| Objects.Ball.Reset | src/objects.h:51-60 | `reset` stores all three settings and appends one sphere built from them. |
| Objects.SnowBall.constructor | src/objects.h:209-224 | The snowball starts at (0, radius, 4 · radius) with the given spin, speed, acceleration and melt rate. |
| Objects.Lane | src/objects.h:358 | `rand() % 3 - 1` on a non-negative value is a lane in {-1, 0, 1}: -1 exactly when the value is 0 mod 3, and 1 exactly when it is 2 mod 3. |
| Objects.Lanes | src/objects.h:355-360 | The lanes drawn from a list of values correspond to it entry by entry, and each one is in {-1, 0, 1}. |
| Objects.Slide | src/objects.h:381-387 | One update keeps the length, shifts every row forward by one and puts the new lane last. |
| Objects.SlideAllWindow | src/objects.h:381-387 | After k updates, with k at most the window size, the window is the stretch of (old window + new lanes) that starts at row k. |
| Objects.SlideAllRows | src/objects.h:385-386 | After k updates entry i is old entry i + k, the last k entries are the new lanes, and a full turnover leaves only new lanes. |
| Objects.WrapDegrees | src/objects.h:336-341 | The wrapped angle lies in [0, 360) and differs from the input by a whole number of turns. |
| Objects.WrapDegreesIdentity | src/objects.h:336-341 | An angle already in [0, 360) is unchanged. |
| Objects.WrapDegreesUnique | src/objects.h:336-341 | Any value in [0, 360) that is a whole number of turns away from the input is the wrapped angle. |
| Objects.Barriers.constructor | src/objects.h:311-320 | The constructor stores the baseline, rotation speed, spacing and row size, and both windows are empty. |
| Objects.Barriers.SetRotSpeed | src/objects.h:336-341 | Its two while loops leave `rotSpeed` equal to the wrapped angle, and an input in [0, 360) is kept as it is. |
| Objects.Barriers.InitDeque | src/objects.h:344-361 | On a non-empty deque it exits and changes nothing. Otherwise the deque becomes exactly `rowSize` lanes drawn from the random values, in order. |
| Objects.Barriers.InitDequeFrom | src/objects.h:364-377 | On a non-empty deque it exits and changes nothing. Otherwise the deque becomes the first `rowSize` entries of the array, in order. |
| Objects.Barriers.UpdateDeque | src/objects.h:381-387 | `updateDeque` pops the front row and pushes a new lane at the back. |
| Objects.Barriers.InitBarTypes | src/main.cpp:476 | An empty type window takes the 2 · rowSize types given. A filled one exits and is kept. |
| Objects.Barriers.Update | src/main.cpp:575 | `update` slides the lane window by one row and the type window by two slots. |
| GameRules.ActiveRowIndex | src/main.cpp:489-490 | The checked slot always lies in the front half of the window. That it is road row `score` is `StretchPinnedRow`. |
| GameRules.FoodSlots | src/main.cpp:502-503 | The two type slots read are adjacent and inside the type window of 2 · size slots. Which row they belong to is `StretchFoodSlots`. |
| GameRules.Pops | src/main.cpp:570-576 | The number of rows popped after `score` scorings: none before half the window, then one per scoring. |
| GameRules.OccupiedLanes | src/main.cpp:491-499 | A safe lane maps to two lanes left < right, and {safe, left, right} = {-1, 0, 1}. Any other value keeps the initial (2, 2). |
| GameRules.FoodPositions | src/main.cpp:502-503 | The food list holds 3 · left exactly when the first slot is 0, then 3 · right exactly when the second slot is 0. |
| GameRules.FoodPositionsDistinct | src/main.cpp:487-503 | There are at most two foods, in increasing order, and no food sits on the safe lane. |
| GameRules.RowDecision | src/main.cpp:529-567 | With no food, it is game over exactly when the ball is outside the safe zone or too small. With one food, there is a bonus exactly when the food is reached, and otherwise the same game-over test applies. With two foods, there is a bonus exactly when the ball is outside the safe zone, and never a game over. |
| GameRules.SafeBallSurvives | src/main.cpp:529-567 | A ball in the safe zone with radius at least 0.05 is never out, and neither is any ball on a two-food row. |
| GameRules.CheckedRowOutcome | src/main.cpp:485-567 | A ball in the checked row's safe zone and large enough is never out. |
| GameRules.WindowAfterScores | src/main.cpp:569-576 | Repeated scoring keeps the window length. |
| GameRules.TypesAfterScores | src/main.cpp:569-576 | Repeated scoring keeps the type window at two slots per row. |
| GameRules.WindowIsRoadStretch | src/main.cpp:569-576 | After `s` scorings the window is the stretch of the road that starts at `Pops(s)`. |
| GameRules.TypesAreRoadStretch | src/main.cpp:569-576 | After `s` scorings the type window is the matching stretch of type slots. |
| GameRules.StretchPinnedRow | src/main.cpp:489-508 | The checked slot of the road stretch that starts at `Pops(s)` is road row `s`. |
| GameRules.StretchFoodSlots | src/main.cpp:502-521 | The type slots read belong to row `s` exactly when the row is not pinned or the size is even. At or past the pin with an odd size they are off by one slot. |
| GameRules.CheckedRowIsRowScore | src/main.cpp:489-576 | After `s` scorings from an initial window, the checked lane is lane number `s` of the whole road. |
| GameRules.FoodSlotsAreRowScore | src/main.cpp:502-521 | The type slots read are row `s`'s own two slots, unless the row is pinned and the size is odd. |
| GameRules.NextStage | src/main.cpp:306-329 | A stage never decreases and never passes 3. It moves only from stage 1 or 2 and past the first threshold, reaches 3 past the second, and may take both steps in one call. |
| GameLoop.Shifted | src/main.cpp:409-443 | A recycle moves every matrix 200 back along z and keeps their relative offsets. |
| GameLoop.MovedBack | src/main.cpp:410-426 | A moved scene's path goes back 200. Its grass and trees move only when its plants are drawn, and its terrain only when its terrain is drawn. No list changes length. |
| GameLoop.Recycle | src/main.cpp:406-447 | Past 100 units the scene `updateA` names moves back, the other scene is untouched and `updateA` flips. At 100 or less nothing moves. |
| GameLoop.Recycled | src/main.cpp:406-446 | Past 100 units the distance counter loses 100 and stays positive; otherwise it is kept. |
| GameLoop.Step | src/main.cpp:456-472 | While running: z goes back by speed · dt, y becomes the radius, the speed grows by a · dt, and `offset_z` is speed · dt, which both distances gain. Otherwise `offset_z` is 0 and the position, speed and x stay. |
| GameLoop.Melt | src/main.cpp:463 | While running the radius falls by melt rate · dt and the resolution is kept; otherwise the ball is unchanged. |
| GameLoop.AdvancedFromStart | src/main.cpp:306-341 | From the start values the ten checks make every stage and flag a function of the distance alone: stage A is 2 past 900 and 3 past 1900, stage B the same at 1000 and 2000, plants vanish past 900/1000, terrain shows in (900, 2500] and (1000, 2600], snow past 1900, the moving snow past 2000, mud past 900/1000 and the snow house past 2700. |
| GameLoop.AdvancedIdempotent | src/main.cpp:306-341 | A second round of the checks at the same distance changes nothing. |
| GameLoop.AdvancedAgain | src/main.cpp:306-341 | From the start, checks at d1 and then at a larger d2 leave the same stages as one check at d2: only the distance reached matters. |
| GameLoop.Scored | src/main.cpp:569-576 | The score goes up by one. Once the new score reaches half the window, the lane window slides by one new row, the type window by two slots, and the road gains that row and its types; below half only the score changes. |
| GameLoop.ScoredConsistent | src/main.cpp:569-576 | Scoring keeps the windows equal to the stretch of the road from the number of rows popped so far. |
| GameLoop.Finished | src/main.cpp:343-584 | The frame after the stage machine and the snow keeps the windows on the road. |
| GameLoop.FinishedMotion | src/main.cpp:348-472 | That part of the frame sets the win flag past z = -3000, recycles the scenes on the old distance counter, takes the physics step with the ball's old radius, spins the ball and adds 0.01 to the barriers' spin, wrapped to [0, 360). The stages, the start flag and the ball's rates are kept. |
| GameLoop.FinishedRow | src/main.cpp:474-577 | The row check reads the ball's x and z from before the physics step and the radius after the melt. There is an outcome exactly when the old z lies in row `score`'s band, and it is that row's decision on the old windows. A game over toggles `bTemp` and `bGameOver`, a bonus grows the melted ball by 0.01, and a checked row is scored. |
| GameLoop.SteerX | src/main.cpp:789-794 | LEFT subtracts 0.2 only while x > -3, and then RIGHT adds 0.2 only while x < 3. A position inside (-3.2, 3.2) stays inside. |
| GameLoop.Game.NewPlayerSnowball | src/util.h:86 | `SnowBall snowball(1.0f, 20, 20, 1.0, 0.0, 10)`: a fresh snowball of radius 1 with 20 slices and stacks and one sphere in each buffer, spin angle 1, speed 0, acceleration 10, the default melt rate 0.01, at (0, 1, 4). |
| GameLoop.Game.NewWindow | src/objects.h:344-360 | A fresh default `Barriers` (spacing 30, rotation speed 0, 20 rows) whose lane window is the 20 lanes drawn at start-up and whose type window is their 40 slots. |
| GameLoop.Game.constructor | src/util.h:43-180 | The globals start as declared: the snowball is the one of src/util.h:86 (`PlayerSnowball`, the state `NewPlayerSnowball` builds), score 0, running and not over, not won and not started, the stages and flags at `StartStages` (stages 1, plants on, terrain, mud and snow off), scene A next to recycle, distances and `offset_z` 0, no key down. The lane window holds 20 random lanes spaced 30 apart, and the road is exactly that window. |
| GameLoop.Game.UpdateStages | src/main.cpp:306-341 | Both stages advance by `NextStage` (thresholds 900/1900 and 1000/2000). Each flag is set, cleared or kept exactly as the source's ten conditionals dictate. |
| GameLoop.Game.UpdateStageA | src/main.cpp:306-333 | Scene A: mud and terrain past 900, snow past 1900, terrain off past 2500. |
| GameLoop.Game.UpdateStageB | src/main.cpp:313-336 | Scene B: mud and terrain past 1000, moving snow past 2000, terrain off past 2600. |
| GameLoop.Game.RecycleScenes | src/main.cpp:407-447 | Past 100 units, the scene `updateA` names moves back 200, the other scene is untouched, `updateA` flips and 100 is taken off the distance. Otherwise nothing changes. |
| GameLoop.Game.RecycleA | src/main.cpp:410-427 | Scene A's plants move if drawn, its terrain moves if drawn, and its path always moves. |
| GameLoop.Game.RecycleB | src/main.cpp:428-445 | The same for scene B. |
| GameLoop.Game.SpinBall | src/main.cpp:451-455 | The snowball's rotation angle grows by its spin rate times `dt` on every frame. |
| GameLoop.Game.StepPhysics | src/main.cpp:456-472 | When running and started: z moves back by s · dt, y becomes the old radius, speed grows by a · dt, the ball melts by m · dt, and `offset_z` and both distances grow by s · dt. Otherwise `offset_z` is 0 and nothing else moves. |
| GameLoop.Game.ScoreRow | src/main.cpp:569-576 | The score goes up by one. The window slides (lanes by one, types by two) exactly when the new score reaches half the window. `Valid` is kept. |
| GameLoop.Game.CheckRow | src/main.cpp:474-577 | The checked slot holds road row `score`. The food slots read hold that row's types, unless the row is pinned on an odd size. The whole new state and the outcome are `Checked`: in the band the row is taken, out of it nothing changes. `Valid` is kept. |
| GameLoop.Game.CheckBand | src/main.cpp:525-577 | Inside the band of row `score` (z strictly between rowZ + 1 and rowZ + 3, with rowZ = -(score + 1) · spacing) the row is taken as in `Taken`; outside it nothing changes. `Valid` is kept. |
| GameLoop.Game.TakeRow | src/main.cpp:485-576 | The outcome is the row's decision for the ball's x and radius. A game over toggles `bTemp` and `bGameOver`, a bonus grows the ball by 0.01, and the row is scored; nothing else changes and `Valid` is kept. |
| GameLoop.Game.ApplyOutcome | src/main.cpp:529-567 | Game over toggles (does not set) `bTemp` and `bGameOver`. A bonus adds 0.01 to the radius. A pass changes nothing. |
| GameLoop.Game.PrepareFrame | src/main.cpp:348-472 | The whole state after the win test, the recycle, the spin and the physics step is `Prepared` of the old state: the win flag is set past z = -3000, and the ball moves and melts only while running and started. |
| GameLoop.Game.TestWinAndRecycle | src/main.cpp:348-447 | The win flag is set past z = -3000 and the scenes and distance counter are recycled; nothing else changes. |
| GameLoop.Game.MoveBall | src/main.cpp:449-472 | The ball spins by spin · dt, then takes the physics step with its old radius and melts; nothing else changes. |
| GameLoop.Game.FinishFrame | src/main.cpp:343-584 | The whole new state and the outcome are `Finished` of the old state: the row check uses the position read before the physics step (see `FinishedRow`), and the barriers' rotation speed rises by 0.01, wrapped (see `FinishedMotion`). `Valid` is kept. |
| GameLoop.Game.UpdateSnow | src/main.cpp:391-404 | While snow is drawn: the emitter follows the ball's z at height 30 once the moving snow has started, the particle system takes its update with this frame's `offset_z` not yet recomputed, and the texture blend grows by 0.05 · dt while below 0.9. Without snow the system, the emitter and the blend are unchanged. |
| GameLoop.Game.AdvanceAndSnow | src/main.cpp:304-404 | The stage machine, then the snow as in `UpdateSnow` with the new flags; apart from the stages and the snow nothing changes. |
| GameLoop.Game.UpdateScene | src/main.cpp:304-584 | One whole frame: the snow update as in `UpdateSnow`, on the ball's old z and the old `offset_z`, and the rest of the state and the outcome are `Finished` of the old state with its stages advanced to the old total distance. The pinned-row invariant `Valid` is kept. |
| GameLoop.Game.MoveFunc | src/main.cpp:778-795 | The snowball's x follows `SteerX` on the LEFT and RIGHT keys. Nothing else about it changes. |
| GameLoop.Game.KeyCallback | src/main.cpp:798-816 | ESC press asks to close and Z press asks for a screenshot. SPACE press flips `bTemp` and clears a game over. A press sets the key, a release clears it, and any other action leaves the table alone. |
| Screenshot.Idx | src/main.cpp:64-65 | The byte of channel c of pixel (x, y) is inside the 4 · w · h buffer. |
| Screenshot.IdxInjective | src/main.cpp:64-65 | Distinct (pixel, channel) triples address distinct bytes. |
| Screenshot.IdxCover | src/main.cpp:64-65 | Every byte of the buffer is addressed by some triple. |
| Screenshot.SwapBytes | src/main.cpp:68-71 | `std::swap` exchanges two bytes and changes nothing else. |
| Screenshot.PixelsExchanged | src/main.cpp:68-71 | The four swaps exchange two pixels with channels 0 and 2 crossed, and leave every other byte alone. |
| Screenshot.SwapPixelPair | src/main.cpp:61-71 | One inner step: pixel (x0, y0) takes pixel (x0, y1) with red and blue exchanged, and the other way round. |
| Screenshot.FlipRowsAsWritten | src/main.cpp:59-73 | The loop as written flips the image vertically and exchanges red and blue everywhere except the middle row of an odd-height image. |
| Screenshot.FlipRows | src/main.cpp:59-73 | The corrected loop also converts the middle row, so every pixel is converted. |
| Screenshot.SwapRedBlue | src/main.cpp:68-70 | The corrected loop's extra step exchanges red and blue of one pixel in place. |
| Screenshot.FlipUnique | src/main.cpp:59-73 | The flipped buffer is fully determined by the original. |
| Screenshot.FlipInvolution | src/main.cpp:59-73 | Flipping twice gives back the original buffer. |
| Screenshot.EvenHeightFlipConverts | src/main.cpp:59 | For an even height the loop as written already converts every pixel. |
| Screenshot.MiddleRowUnconverted | src/main.cpp:59 | For a 1 x 1 image the loop as written leaves the pixel in RGBA order. |
| Screenshot.MiddleRowConverted | src/main.cpp:59-73 | For a 1 x 1 image the corrected loop converts the pixel to BGRA. |
| Particles.NewParticle | src/particle_system.h:54-65 | A new particle is dead, with life -1, at rest, and keeps its drag coefficient and size. |
| Particles.RandomMinMax | src/particle_system.h:25 | `RANDOM_MIN_MAX` with a fraction in [0, 1] lies in [min, max], at min for 0 and at max for 1. |
| Particles.Respawned | src/particle_system.h:317-328 | A respawned particle has life `period` and zero velocity, and lies within rangeX and rangeZ of the generator and up to 10 below it. |
| Particles.SearchDead | src/particle_system.h:286-306 | A linear scan of [lo, hi) finds the first dead particle there, or reports that there is none. |
| Particles.FirstDead | src/particle_system.h:280-312 | The result is the first dead slot at or after the cursor; failing that, the first dead slot before it; failing that, 0. It is always inside a non-empty pool. |
| Particles.FirstDeadStable | src/particle_system.h:284-311 | Searching again from the returned slot returns it again. |
| Particles.LiveIndices | src/particle_system.h:171-183 | The live slots are valid indices of living particles, at most one per particle. |
| Particles.LiveIndicesOrdered | src/particle_system.h:164-185 | The live slots increase, and a slot is listed exactly when its particle lives. |
| Particles.NewPoolHasNoLive | src/particle_system.h:226-230 | A pool of new particles has no live slot. |
| Particles.SpawnAll | src/particle_system.h:158-162 | k spawns keep the pool size and choose k slots inside the pool. The cursor ends at the last one chosen. |
| Particles.SpawnRevivesDistinct | src/particle_system.h:158-162 | While dead particles remain, each spawn revives a distinct particle that was dead. The others are unchanged and the dead count falls by one per spawn. |
| Particles.ReviveOne | src/particle_system.h:160-161 | Reviving the next dead slot keeps the distinct-revival invariant. |
| Particles.SpawnAllStep | src/particle_system.h:158-162 | One more spawn is the search from the cursor followed by a respawn of that slot. |
| Particles.UpdateDrag | src/particle_system.h:78-85 | The drag update keeps life, position and velocity, and changes nothing at zero velocity. |
| Particles.Aged | src/particle_system.h:166-178 | Every particle loses `dt` of life, alive or dead. A particle that dies this frame does nothing else. |
| Particles.LiveIndicesSnoc | src/particle_system.h:171 | Looking at one more slot adds it to the live list exactly when it lives. |
| Particles.PackedStep | src/particle_system.h:180-183 | Writing a survivor's position at triple `count` extends the packing. |
| Particles.ParticleSystem.Settings | src/particle_system.h:320-327 | The emitter of `respawn` is the system's generator, ranges and period. |
| Particles.ParticleSystem.constructor | src/particle_system.h:114-230 | `period` is 4 + drag/400 and `total_num` is trunc(period · generate_speed). The pool holds that many new particles, and no particle lives. |
| Particles.ParticleSystem.GetFirstDeadParticle | src/particle_system.h:280-312 | It returns `FirstDead` from the cursor and moves the cursor there. |
| Particles.ParticleSystem.Respawn | src/particle_system.h:317-328 | Only the chosen particle changes, and it becomes `Respawned`. |
| Particles.ParticleSystem.SpawnParticles | src/particle_system.h:155-162 | The spawn loop leaves the pool and cursor as `SpawnAll` says. |
| Particles.ParticleSystem.SpawnOne | src/particle_system.h:160-161 | One iteration of the spawn loop. |
| Particles.ParticleSystem.AgeParticles | src/particle_system.h:164-187 | Every particle ages. `total_num_live` is the number of survivors, at most `total_num`. The first triples of the buffer are the survivors' positions in pool order. |
| Particles.ParticleSystem.AgeSlot | src/particle_system.h:166-184 | One iteration of the ageing loop keeps the packing. |
| Particles.ParticleSystem.Update | src/particle_system.h:151-188 | trunc(dt · generate_speed) spawns, then ageing. The live count and the position buffer are as above. |
| Particles.ParticleSystem.SetGeneratorPos | src/particle_system.h:147 | The emitter moves to the given position; the other respawn settings are kept. |
| Particles.ParticleSystem.SpawnCount | src/particle_system.h:155 | `num_new_particles` is dt · generate_speed truncated toward zero, and 0 for any product below 1. |
| TerrainGrid.SameGrid | src/terrain.h:170-173 | Two grids equal at every cell are equal. |
| TerrainGrid.Cell | src/terrain.h:270 | h · cells + w lies inside the buffer of `rows` rows. |
| TerrainGrid.PixelHeight | src/terrain.h:235 | A pixel's height, peak · byte / 255, lies in [0, peak] for peak ≥ 0: 0 for black and peak for white. |
| TerrainGrid.FromImage | src/terrain.h:232-237 | The heights read from the image fill a square grid, each one in [0, peak] for peak ≥ 0. |
| TerrainGrid.Classify | src/terrain.h:295-305 | A point is a corner exactly when it is on an edge both ways, on the border exactly when it is on one edge only, and interior otherwise. |
| TerrainGrid.SmoothCell | src/terrain.h:320-325 | For alpha in [0, 1] and non-negative heights, each of the three weightings (corner, border, interior) gives a height between 0 and the larger of the point's own height and its neighbours' mean over 3, 5 or 8 neighbours. |
| TerrainGrid.SmoothCellBounded | src/terrain.h:320-325 | With alpha in [0, 1], each of the three weightings keeps a height in [0, peak] when its neighbours are in [0, peak]. |
| TerrainGrid.NeighbourSumBounded | src/terrain.h:308-318 | The neighbour sum counts 3, 5 or 8 in-grid neighbours, and out-of-grid ones add 0. |
| TerrainGrid.SmoothedPointBounded | src/terrain.h:307-325 | The new height of a point lies in [0, peak]. |
| TerrainGrid.NeighbourSumFrame | src/terrain.h:308-315 | A point's neighbour sum reads only already-smoothed top and left neighbours and original right and bottom ones. |
| TerrainGrid.LaterUnchanged | src/terrain.h:293-294 | The points the sweep has not reached yet still hold their original heights. |
| TerrainGrid.SmoothStep | src/terrain.h:320-325 | Writing one point in row-major order extends the smoothed prefix. |
| TerrainGrid.NextRow | src/terrain.h:293-294 | Finishing a row starts the next. |
| TerrainGrid.OffsetIsProduct | src/terrain.h:266-284 | The running position after k steps is k · cell_size. |
| TerrainGrid.GridVertices | src/terrain.h:255-266 | There is one vertex per grid point. |
| TerrainGrid.GridVerticesAt | src/terrain.h:258 | The vertex of point (h, w) is (w · cs, height, h · cs). |
| TerrainGrid.GridUVs | src/terrain.h:259-264 | There is one texture coordinate per grid point. |
| TerrainGrid.GridUVsAt | src/terrain.h:259 | The texture coordinate of (h, w) is (w · cs / size, h · cs / size). |
| TerrainGrid.GridNormals | src/terrain.h:260-265 | There is one normal per grid point. |
| TerrainGrid.GridNormalsAt | src/terrain.h:260 | The normal of (h, w) is the one computed for that point. |
| TerrainGrid.RowQuads | src/terrain.h:268-281 | A row of quads has six indices per quad. |
| TerrainGrid.RowQuadsAt | src/terrain.h:270-280 | Quad k of row h emits bl, bl+1, bl+n+1, bl, bl+n+1, bl+n with bl = h · n + k. |
| TerrainGrid.RowQuadsSnoc | src/terrain.h:275-280 | One more quad appends its six indices. |
| TerrainGrid.RowQuadsBounded | src/terrain.h:270-273 | A row's indices stay below the start of the row after next. |
| TerrainGrid.GridIndices | src/terrain.h:268-281 | There are exactly 6 · (cells - 1)² indices. |
| TerrainGrid.GridIndicesBounded | src/terrain.h:270-273 | Every index names a vertex of the grid. |
| TerrainGrid.GridIndicesAt | src/terrain.h:270-280 | Slot t of cell (h, w) is corner t of that cell's quad, in the source's order. |
| TerrainGrid.GridIndicesEntry | src/terrain.h:270-280 | The same, stated for a given slot number and value. |
| TerrainGrid.GridIndicesPrefix | src/terrain.h:255-281 | Later rows only append. |
| TerrainGrid.GridIndicesLastRow | src/terrain.h:268-281 | The entries of the last row added are that row's quads. |
| TerrainGrid.BufferSizes | src/terrain.h:255-281 | The buffers hold cells² vertices, texture coordinates and normals, and 6 · (cells - 1)² indices, each < cells². |
| TerrainGrid.QuadCorners | src/terrain.h:270-280 | The six indices of a quad are its four corners: two triangles sharing the diagonal. |
| TerrainGrid.PlaneAltitude | src/terrain.h:436-447 | `genAltitudeCoord` is the plane through its three vertices: at the x and z of each vertex it gives that vertex's height. |
| TerrainGrid.Trunc | src/terrain.h:139-140 | The float-to-integer conversion truncates. |
| TerrainGrid.FMod | src/terrain.h:149-150 | `fmod(x, cs) / cs` is the part of x / cs that truncation toward zero drops, and lies in [0, 1) for x ≥ 0 and cs > 0. |
| TerrainGrid.OnGridLine | src/terrain.h:139-150 | A coordinate on a grid line falls in that cell with offset 0. |
| TerrainGrid.LowerTriangle | src/terrain.h:153-156 | Below the diagonal, the altitude is the barycentric mix of the three corners given. |
| TerrainGrid.UpperTriangle | src/terrain.h:157-160 | Above the diagonal, the same with the other triangle. |
| TerrainGrid.CellAltitudeBounded | src/terrain.h:153-160 | An altitude inside a cell lies between 0 and peak when the corners do. |
| TerrainGrid.CellAltitude | src/terrain.h:153-160 | Below the diagonal (xc < zc) the altitude is the lower triangle's plane h00 · (1 − zc) + h10 · (zc − xc) + h11 · xc, on or above it the upper triangle's, and at offset (0, 0) it is the cell's own corner height h00. |
| TerrainGrid.Terrain.Heights | src/terrain.h:170-173 | The grid view of the 2-D height array. |
| TerrainGrid.Terrain.constructor | src/terrain.h:168-188 | A 256 x 256 terrain: the heights are the image's heights smoothed with factor 0.1, each in [0, peak], and the buffers are exactly the grid's vertices, texture coordinates, normals and indices. |
| TerrainGrid.Terrain.Load | src/terrain.h:168-188 | `generate`: read the heights, then compute the buffers. |
| TerrainGrid.Terrain.ReadHeightMapData | src/terrain.h:232-244 | Every height is taken from the red byte of its pixel and then smoothed. The result is in [0, peak]. |
| TerrainGrid.Terrain.FillHeights | src/terrain.h:233-238 | The double loop stores the image's heights in every cell. |
| TerrainGrid.Terrain.Smoothing | src/terrain.h:292-328 | The in-place sweep gives every point its weighted mean, read in row-major order, and keeps [0, peak] for alpha in [0, 1]. |
| TerrainGrid.Terrain.SmoothRow | src/terrain.h:294-326 | One row of the sweep. |
| TerrainGrid.Terrain.SmoothAt | src/terrain.h:295-325 | One point of the sweep. |
| TerrainGrid.Terrain.PointKind | src/terrain.h:295-305 | The flag tests give the point's class. |
| TerrainGrid.Terrain.NeighbourTotal | src/terrain.h:308-318 | The eight guarded reads add up to the neighbour sum. |
| TerrainGrid.Terrain.ComputeBufferObjects | src/terrain.h:249-286 | The four buffers are extended by exactly the grid's vertices, texture coordinates, normals and indices. |
| TerrainGrid.Terrain.PushGridRow | src/terrain.h:255-285 | One row of the outer loop extends each buffer by one more row. |
| TerrainGrid.Terrain.PushRow | src/terrain.h:256-282 | One row pushes its points, and its quads unless it is the last row. |
| TerrainGrid.Terrain.PushPoint | src/terrain.h:257-281 | One point pushes its vertex, texture coordinate and normal, plus its quad inside the grid. |
| TerrainGrid.Terrain.PushVertex | src/terrain.h:258-263 | The vertex pushed is (x, height, y). |
| TerrainGrid.Terrain.PushUV | src/terrain.h:259-264 | The texture coordinate pushed is (x / size, y / size). |
| TerrainGrid.Terrain.PushQuad | src/terrain.h:270-280 | The six indices of the cell's quad are pushed in order. |
| TerrainGrid.Terrain.GetAltitude | src/terrain.h:132-163 | A failure is always the error `_VECTOR_ILLEGAL_SIZE_` (2). Where it fails and what it returns are the next four lemmas. |
| TerrainGrid.Terrain.AltitudeDomain | src/terrain.h:139-146 | For x, z ≥ 0, an altitude exists exactly when both coordinates are below `size`. |
| TerrainGrid.Terrain.CellSizeSpansGrid | src/terrain.h:136 | For a positive size, `size / (cells - 1)` is positive and cells - 1 of them span the terrain. |
| TerrainGrid.Terrain.AltitudeAtGridPoint | src/terrain.h:139-160 | At a grid point the altitude is the height stored there. |
| TerrainGrid.Terrain.AltitudeAtPoint | src/terrain.h:139-160 | The same for given coordinates x = w · cs and z = h · cs, which also meet the lookup's precondition. |
| TerrainGrid.Terrain.VertexAltitude | src/terrain.h:132-163 | The altitude at a mesh vertex is that vertex's height, so sampling agrees with the mesh drawn. |
| TerrainGrid.Terrain.AltitudeBounded | src/terrain.h:132-163 | On a terrain with heights in [0, peak], every altitude is in [0, peak]. |
| HeightMapGen.HeightMapParams.constructor | src/hmap_generator.h:49-69 | The map holds exactly the keys algorithm, heightMapPath, width and height, with the given values. |
| HeightMapGen.HeightMapParams.CircleStrike | src/hmap_generator.h:202-221 | It holds the four base keys (circle strike, 256 x 256) and exactly circleRadius, forwardFlx and backwardFlx besides. |
| HeightMapGen.HeightMapParams.PerlinNoise | src/hmap_generator.h:409-422 | It holds the four base keys (Perlin noise, 256 x 256) and exactly smooth and persistence besides. |
| HeightMapGen.HeightMapParams.Insert | src/hmap_generator.h:65-68 | `(*this)[key] = value` adds or replaces one entry and keeps the rest. |
| HeightMapGen.HeightMapParams.InsertBase | src/hmap_generator.h:65-68 | The four base insertions into an empty map. |
| HeightMapGen.HeightMapParams.GetParamOr | src/hmap_generator.h:73-81 | The stored value when the key is present, and the default otherwise. |
| HeightMapGen.HeightMapParams.GetParam | src/hmap_generator.h:84-91 | The stored value when the key is present. A missing key throws its own name. |
| HeightMapGen.HeightMapParams.GetParamAgrees | src/hmap_generator.h:73-91 | The two lookups agree, and the default is used exactly where the other lookup would throw. |
| HeightMapGen.PerlinNoiseGenerator.constructor | src/hmap_generator.h:430-439 | The settings are stored as given, except that `octaves` is ignored and 8 is stored. |
| HeightMapGen.PerlinNoiseGenerator.FromParams | src/hmap_generator.h:442-449 | Each setting is read from the dictionary with its default, and the octave count is always 8. |
| HeightMapGen.CircleStrikeGenerator.constructor | src/hmap_generator.h:229-246 | The settings are stored as given, on a 256 x 256 map tagged as circle strike. |
| HeightMapGen.CircleStrikeGenerator.FromParams | src/hmap_generator.h:249-263 | The base and circle settings are read from the dictionary with their defaults. The schedule settings are the arguments. |
| HeightMapGen.NewCircleStrikeGenerator | src/hmap_generator.h:666-675 | Building the parameters and then the generator from them gives back every setting the parameters were built from. |
| HeightMapGen.NewPerlinNoiseGenerator | src/hmap_generator.h:679-684 | The same round trip for Perlin noise, with the octave count 8. |
| HeightMapGen.DispAsWritten | src/hmap_generator.h:324-327 | As written, the crash factor is always `minCrash`, whatever the iteration. |
| HeightMapGen.Disp | src/hmap_generator.h:324-327 | Corrected: `maxCrash` at the start, falling to `minCrash` at `stableIterNum` and staying there, always within [min, max]. |
| HeightMapGen.DispNonIncreasing | src/hmap_generator.h:323-327 | The corrected factor never grows with the iteration count. |
| HeightMapGen.DispDiffers | src/hmap_generator.h:327 | At strike 50 of 100 with crash 1.0 to 0.1, the two differ: 0.1 as written, 0.55 corrected. |
| HeightMapGen.Pow | src/hmap_generator.h:586 | The period `pow(persistence, octave)` is positive for a positive base, and 1 for octave 0. |
| HeightMapGen.PeriodStart | src/hmap_generator.h:610-616 | `(i / period) · period` is the start of i's period: at most i, less than one period below it, and i % period below it. |
| HeightMapGen.PeriodStartIsBoundary | src/hmap_generator.h:610-616 | A period start is its own period start. |
| HeightMapGen.NextPeriodStart | src/hmap_generator.h:611-617 | `(cur + period) % n` is a valid index, and is the next start when that is in range. |
| HeightMapGen.Blend | src/hmap_generator.h:614-618 | `(i - cur) · frequency` lies in [0, 1) and is 0 at a period start. |
| HeightMapGen.Interpolate | src/hmap_generator.h:639-641 | The cosine interpolation lies between its two ends, at `top` for cos = 1 and at `bottom` for cos = -1. |
| HeightMapGen.CosineBlendBetween | src/hmap_generator.h:640 | The algebra behind `Interpolate`. |
| HeightMapGen.SmoothNoise | src/hmap_generator.h:583-636 | A fresh square array in which every cell is the interpolation of its period's four corners. |
| HeightMapGen.SmoothRow | src/hmap_generator.h:593-628 | One row of the outer loop. |
| HeightMapGen.ToPixel | src/hmap_generator.h:155 | `(unsigned char)(v · 255)`: 0 for 0 and 255 for 1. |
| HeightMapGen.PixelIndex | src/hmap_generator.h:155 | Pixel (h, w) with w below the width sits at index h · width + w, from which division by the width recovers h and the remainder recovers w. |
| HeightMapGen.PixelIndexInRange | src/hmap_generator.h:152-156 | `h · width + w` stays below width · height. |
| HeightMapGen.PixelIndexInjective | src/hmap_generator.h:155 | No two pixels share an index. |
| HeightMapGen.SavePixels | src/hmap_generator.h:151-157 | A buffer of width · height bytes in which every pixel holds its converted height. |
| HeightMapGen.SaveRow | src/hmap_generator.h:153-157 | One row of the loop. |
| HeightMapGen.SavedNextRow | src/hmap_generator.h:153-156 | Finishing a row starts the next. |
| Cameras.Clamp | src/camera.h:252-266 | The clamped value lies in [lo, hi], equals the input inside, and equals the nearer bound outside. |
| Cameras.ZoomedFovy | src/camera.h:261-267 | After a scroll the field of view is in [1, 45]. An in-range value moves by exactly -offset when that stays in range; otherwise it is clamped. |
| Cameras.ZoomUndo | src/camera.h:261-267 | A scroll that stays in range is undone by the opposite scroll. |
| Cameras.RotatedPitch | src/camera.h:248-253 | The pitch after a mouse move is the scaled sum clamped to [-89, 89]. |
| Cameras.RotateStill | src/camera.h:248-253 | An in-range pitch is kept by a move with no vertical part. |
| Cameras.Camera.constructor | src/camera.h:179-197 | Every setting is stored as given, and the world-up is the `up` argument. |
| Cameras.Camera.Default | src/camera.h:179-185 | The default camera: origin, y up, yaw -90, pitch 0, speed 5, sensitivity 0.25, fovy 45. |
| Cameras.Camera.SetYawPitch | src/camera.h:222-228 | Both angles are stored as given, without clamping the pitch. |
| Cameras.Camera.Rotate | src/camera.h:244-257 | The yaw moves freely by the scaled offset; the pitch follows `RotatedPitch`. |
| Cameras.Camera.Zoom | src/camera.h:261-267 | The three conditional assignments give `ZoomedFovy`. |

## Left out

- Rendering, windowing and asset loading: every GL, GLFW, SDL and assimp call, shaders,
  textures, models, the shadow map, billboards, lights, `draw` and the render pass. These
  only wrap libraries.
- File output: the PNG written by `screenshot`, by the height-map `save` and by
  `saveNormalMap`. The `IMG_Load` of a height map is modelled only by the bytes it
  yields (`data`).
- `rand()`, `srand` and the clock: their values are parameters.
- Floating point: positions, radii and distances are exact reals. IEEE rounding,
  overflow to infinity and NaN are not modelled.
- Objects.Ball.GenVertCord: the sphere's trigonometry (`sin`/`cos` of the angles) is kept
  symbolic. Each vertex records which angle pair it comes from, not its coordinates.
- Particles.UpdateDrag: the drag magnitude and `normalize(velocity)` are a function
  parameter `dragFor`.
- Particles.Aged: the velocity and position updates of a living particle are stored as
  the source writes them, with gravity and drag as reals. Their physical meaning is not
  proved.
- Particles.ParticleSystem.constructor: `last_particle` is never initialised in the
  source, so it is an argument `initialCursor` required to lie inside the pool.
- Particles.ParticleSystem.SpawnCount: converting dt · generate_speed of -1 or less to
  `GLuint` is undefined behaviour. The model gives 0 there, and `Update` requires the
  product to be above -1.
- Particles.ParticleSystem.Update: a spawn into an empty pool indexes out of bounds in the
  source, so `Update` requires a non-empty pool whenever something spawns.
- Particles: `getTotalNum` returns a float and the range getters truncate to `GLuint`.
  Getters and setters are plain field accesses and are not modelled.
- Cameras: `genCameraView` (the front, right and up vectors from yaw and pitch by `sin`
  and `cos`), `translate`, which moves along those vectors, and `getViewMat` are not
  modelled.
- GameLoop.Game.MoveFunc: the W/S/A/D camera moves of `move_func` are left out for the
  same reason.
- GameLoop.Game.SpinBall: the spin rate `getRotSpeed() = speed / radians(radius)`
  involves π and may divide by zero. It is a parameter `spin`.
- GameLoop: the model matrices of recycling are reduced to their z translations,
  because multiplying by `translate(0, 0, -200)` changes only that.
- GameLoop.Game.KeyCallback: `keys[key]` is unchecked in the source, so the key is
  required to be non-negative and below 1024; GLFW's unknown key, -1, would index before
  the table. Closing the window and taking the screenshot are reported as results.
- GameLoop: the billboard and shader uniforms set at the end of `updateScene`, the
  camera and light updates between the stage machine and recycling, and the food and
  barrier drawing are not modelled.
- Objects.Barriers.Update, Objects.Barriers.InitBarTypes: `Barriers::update`,
  `getBarTypes` and `setNumBarTypes` are called at src/main.cpp:575, :476 and :298 but
  are not defined in `src/objects.h`. The type window is modelled as two slots per row
  that slide by two, which is what `src/main.cpp:502-503` and `520-521` read. Their
  internals beyond that are not modelled. No call of `initDeque` appears in
  `src/main.cpp`; the window is assumed filled at start-up, and
  `GameLoop.Game.constructor` fills it with 20 rows.
- Objects: `setBarrierObj`, the getters and `Cube` are not modelled.
- Objects: the slices and stacks of `Ball` and `SnowBall` are `GLint` in the source and
  `nat` here, so a negative resolution is not modelled.
- GameLoop.Game.constructor: the scenes start with empty model-matrix lists and path z 0,
  the state as declared before `initScene` (src/main.cpp:134, called at :704) fills
  them. `initScene` is glm matrix composition and is not modelled.
- GameRules and GameLoop: `score` is a non-negative `int` compared against the unsigned
  size. Its growth past `INT_MAX` is not modelled.
- TerrainGrid: `computeNormals` is a parameter `normalAt`. `smoothingNormals` is
  compiled out (`_TERRAIN_NORMAL_SMOOTH_` is not defined) and is left out.
- TerrainGrid.Terrain.ReadHeightMapData: the null test on `data` comes after the first
  read through it, so a null image is undefined behaviour. The image is required to be
  present and large enough.
- TerrainGrid.Terrain.GetAltitude: a negative coordinate of -1 cell or less converts to
  `GLuint` with undefined behaviour, so those points are excluded by its requires.
  `exit` is modelled as the `Err` result.
- TerrainGrid.Terrain.ComputeBufferObjects: the texture coordinates divide by `size`. A zero size would give
  infinities, so the terrain requires a non-zero size, and the altitude lemmas a positive one.
- TerrainGrid: the destructor (which uses `delete` where `delete[]` is due) and the
  allocation-failure branch are not modelled.
- HeightMapGen.HeightMapParams: the map stores `void*` pointers read back by
  `reinterpret_cast<T*>`. The model tags each value with its type (`ParamValue`), and the
  generators require each key to hold the type they read (`WellTyped`).
- HeightMapGen: the circle-strike `generate` loop (random centres, the cosine dome and
  the normalisation) and the Perlin `generate` (white noise, octave amplitudes and their
  sums) are floating-point pipelines over `rand()` and are not modelled. Only the
  crash schedule `disp` and `generateSmoothNoise` are.
- HeightMapGen.SmoothNoise: the source allocates `width` row pointers but fills
  `height` rows of `height` cells and reads `width` columns, which stays in bounds only
  on a square map. The method requires `width == height`.
- HeightMapGen.Interpolate: `cos(factor · π)` is a parameter `cosPi`.
- HeightMapGen.SavePixels: the stored byte is taken to be the floor of v · 255 for v in
  [0, 1]. Heights outside [0, 1] are excluded, because the cast is undefined there.

## Findings

| source | as written | input that shows it | evidently intended | confidence | as-written member | corrected member |
|---|---|---|---|---|---|---|
| src/main.cpp:59-73 | The loop visits y < h / 2 and swaps R and B only inside the swapped pairs. For an odd height the middle row is never visited and stays RGBA while every other row becomes BGRA. | A 1 x 1 image with bytes [1, 2, 3, 4] is left as [1, 2, 3, 4]. | Every pixel is converted, the middle row in place: [3, 2, 1, 4]. | medium, not executed | Screenshot.FlipRowsAsWritten, Screenshot.MiddleRowUnconverted | Screenshot.FlipRows, Screenshot.MiddleRowConverted |
| src/hmap_generator.h:326-327 | `iter_done / stableIterNum` divides two `GLuint`s and is taken only when `iter_done < stableIterNum`, so it is 0 and `disp` is always `minCrash`. | iter_done = 50, stableIterNum = 100, maxCrash = 1.0, minCrash = 0.1 gives 0.1. | A ramp from `maxCrash` down to `minCrash` over the first `stableIterNum` strikes: 0.55 at strike 50. | medium, not executed | HeightMapGen.DispAsWritten, HeightMapGen.DispDiffers | HeightMapGen.Disp, HeightMapGen.DispNonIncreasing |
