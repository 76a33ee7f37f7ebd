# diorama, modelled in Dafny

diorama is a set of Bevy demo scenes: a **museum** (framed paintings with
generated textures, sculptures that pulse, spin, morph and cycle colour, a
material cycler, rooms joined by corridors, dialogue started from
paintings), an **ocean floor** (fish schools, jellyfish, a patrolling
turtle, bubbles, plankton, sand, god rays, caustics, coral and a treasure
chest), an **alien planet** (a sky-ray flock, bubble bushes that grow when
clicked, a scanner), and a **platformer** (a level of eleven sections,
moving platforms, gems and respawn). They share a first-person controller
and a mesh-picking label.

This project models the per-frame update rules and the discrete game
logic of those scenes, and proves what each rule guarantees:

- the two flocking simulations read a snapshot taken before any agent is
  written, count exactly the neighbours the source's filters admit, and
  keep every speed within its clamp;
- the time-driven animators stay within the bounds their formulas allow,
  whatever the sine and cosine samples are;
- the discrete logic (material cycler, dialogue start guard and cleanup,
  painting-to-node mapping, wall placement, the integer texture fillers,
  the Mandelbrot escape bound, level assembly and totals, gem accounting,
  respawn, picking and scanner labels, wall openings) computes exactly
  what the source computes, and the museum's configuration tables agree
  with its room geometry.

Entities are records (`datatype`s) or, where the source mutates a
component in place, classes or arrays that the systems update. A Bevy
query loop becomes a `while` loop over an array or sequence, proved
against a function of the snapshot it reads (`Sequences.MapFirst`).
`f32` values are `real`. The outside world comes in as parameters:

- sine and cosine samples, as reals in [-1, 1] or as functions
  constrained to that range (`Vectors.IsWave`);
- vector length, as a function obeying the laws of a norm
  (`Vectors.IsLength`), with normalisation derived from it;
- random draws, as values in [0, 1);
- ray-cast and picking hits, as optional entity indices;
- timer fractions and terrain heights.

`sequences.dfy` and `vectors.dfy` hold the shared sequence and vector
machinery; the other files follow the source's files:

| file | source |
|---|---|
| artworks.dfy, painting_nodes.dfy, textures.dfy | examples/museum/artworks.rs |
| museum_animation.dfy | examples/museum/main.rs |
| museum_config.dfy | examples/museum/config.rs |
| room_layout.dfy | examples/museum/room_layout.rs |
| creatures.dfy, atmosphere.dfy, coral.dfy, treasure.dfy, dialogue.dfy | examples/ocean_depths/ |
| fauna.dfy, flora.dfy, scanner.dfy | examples/alien_planet/ |
| platforms.dfy, level.dfy, collectibles.dfy, movement.dfy | examples/platformer/ |
| firstsight.dfy, picking.dfy | src/firstsight.rs, src/picking.rs |

## Model

| member | source | states |
|---|---|---|
| Artworks.NextIndex | examples/museum/artworks.rs:945 | the index after a click is below the number of materials; it is one more than before except from the last material, which wraps to 0 |
| Artworks.Clicks | examples/museum/artworks.rs:937-948 | after any number of clicks the index is below the number of materials, or is the starting index when there were no clicks |
| Artworks.ClicksBelow | examples/museum/artworks.rs:945 | clicks that do not reach the last material advance the index by exactly one each |
| Artworks.ClicksCompose | examples/museum/artworks.rs:937-948 | clicking a times and then b times is the same as clicking a + b times |
| Artworks.CycleRestores | examples/museum/artworks.rs:937-948 | as many clicks as there are materials bring back the material shown before them |
| Artworks.ClicksPeriodic | examples/museum/artworks.rs:937-948 | the material shown is periodic in the number of clicks, with the number of materials as its period |
| Artworks.MaterialCycler.constructor | examples/museum/artworks.rs:144-167 | the installation spawns with index 0, showing the first material |
| Artworks.MaterialCycler.Click | examples/museum/artworks.rs:945-946 | `on_sphere_click` moves the index to the next one, wrapping, keeps the material list and shows the material at the new index |
| Artworks.FiveClicksRestore | examples/museum/artworks.rs:937-948 | on the five-material installation, five clicks restore the shown material; the cycler is the one of lines 144-167 |
| Artworks.OnPaintingClick | examples/museum/artworks.rs:950-973 | a click on an entity without a `PaintingDialogue` changes nothing; otherwise the runners are exactly what `start_dialogue` leaves for the painting's node; at most one runner stays running |
| Artworks.WallOf | examples/museum/artworks.rs:214-255 | the wall is chosen in the source's order: the right corridor wall for z < -13.5 and 5 < x < 7, the left one for z < -13.5 and -7 < x < -5, otherwise the north wall for z < -13.5; the south wall for z > 13.5; the east wall for x > 13.5; the west wall for x < -13.5; the default case otherwise. Each case holds exactly when its condition holds |
| Artworks.CorridorFacesWall | examples/museum/artworks.rs:216-225 | with the rotation as written, a corridor painting's front points along the wall's outward direction, opposite to the direction its offset goes into the corridor |
| Artworks.RotationFor | examples/museum/artworks.rs:214-255 | the corrected rotation turns the painting's front along the wall's inward normal for every wall |
| Artworks.PlaceOn | examples/museum/artworks.rs:208-255 | the frame sits 0.09 off the wall along the inward direction, the painting a further 0.09, so 0.18 in total, and both are turned by the rotation chosen for the wall; the frame depth and gaps are the constants of lines 42-45, 261 and 272 |
| Artworks.PlaceFramed | examples/museum/artworks.rs:190-272 | `create_framed_painting` as written: frame 0.09 and painting 0.18 in from the position along the wall's inward direction, height never changed; on the four room walls the painting faces into the room, on the two corridor walls it faces the wall it hangs on |
| Artworks.PlaceFramedCorrected | examples/museum/artworks.rs:214-255 | the corrected placement puts frame and painting exactly where the source does and turns every painting, corridor walls included, to face away from its wall |
| Artworks.CorrectionOnlyOnCorridors | examples/museum/artworks.rs:216-225 | the corrected placement agrees with the source on every wall but the two corridor walls, and differs from it (in rotation only) on both of those |
| Artworks.PaintingInFrontOfWall | examples/museum/artworks.rs:214-255 | on the east, west, north and south walls the painting ends up 0.18 from its configured position, toward the inside of the room; on the right corridor wall it moves 0.18 toward -x and on the left one 0.18 toward +x, into the corridor |
| Artworks.GalleryOnNamedWalls | examples/museum/artworks.rs:214-246 | every main-gallery position is recognised on a named wall and never falls to the default case; the second and third paintings are on the left and right corridor walls; the positions are those of config.rs:64-130 |
| Atmosphere.SpawnedCaustics | examples/ocean_depths/atmosphere.rs:103-129 | seven caustic lights are spawned, light i with base intensity 50000 and phase 1.2·i |
| Atmosphere.Flicker | examples/ocean_depths/atmosphere.rs:333-338 | the flicker factor 0.6 + 0.2·w1 + 0.15·w2 + 0.1·w3 lies in [0.15, 1.05] for samples in [-1, 1], and reaches both ends |
| Atmosphere.CausticsTick | examples/ocean_depths/atmosphere.rs:332-339 | a light's intensity lies between 0.15 and 1.05 times its base intensity, and its component is kept |
| Atmosphere.AnimateCausticsLight | examples/ocean_depths/atmosphere.rs:328-341 | every light in the query is updated in place by the tick at elapsed time t, and nothing else changes |
| Atmosphere.SpawnedCausticsBand | examples/ocean_depths/atmosphere.rs:333-338 | after any tick every spawned light shines between 7500 and 52500 and keeps its phase; the lights are those spawned at lines 119-127 |
| Atmosphere.StartCoordinate | examples/ocean_depths/atmosphere.rs:141-142 | a draw in [0, 1) gives a start coordinate in [-50, 50); the reset at lines 358-359 draws the same way |
| Atmosphere.SpawnBubble | examples/ocean_depths/atmosphere.rs:140-155 | a spawned bubble's start lies in the 100 by 100 square, its height in [-5, 15) and its speed in [0.8, 3.3), and it sits at its start |
| Atmosphere.BubbleTick | examples/ocean_depths/atmosphere.rs:347-362 | a bubble rises by speed·dt; if that takes it above 20 it returns to -5 at a fresh start drawn from the two draws, otherwise it wobbles within 0.5 of its unchanged start; it never ends above 20, and its speed and phase are kept |
| Atmosphere.BubbleTickKeepsValid | examples/ocean_depths/atmosphere.rs:347-362 | a tick keeps every bubble at most at the surface, within 0.5 of its start, and with its start inside the square |
| Atmosphere.AnimateBubbles | examples/ocean_depths/atmosphere.rs:343-364 | every bubble in the query is updated in place by the tick, using its own draw if it resets |
| Atmosphere.BubblesBelowSurface | examples/ocean_depths/atmosphere.rs:349-362 | after a tick at any time, no bubble is above 20 and every bubble is within 0.5 of its start in x and z |
| Atmosphere.PlanktonPulse | examples/ocean_depths/atmosphere.rs:382 | the pulse 0.9 + 0.1·s lies in [0.8, 1.0]; it is 1 at s = 1 and 0.8 at s = -1 |
| Atmosphere.DriftOffset | examples/ocean_depths/atmosphere.rs:374-377 | the drift offset is within 1.5 in x and z and within 0.8 in y |
| Atmosphere.PlanktonScaleAsWritten | examples/ocean_depths/atmosphere.rs:382-384 | the update as written gives a uniform scale between 0.8 and 1 times the current scale |
| Atmosphere.AsWrittenNeverGrows | examples/ocean_depths/atmosphere.rs:382-384 | with the update as written the scale never grows over any run of ticks |
| Atmosphere.AsWrittenDriftsBelowPulse | examples/ocean_depths/atmosphere.rs:382-384 | with the update as written, two ticks at the bottom of the pulse take a scale of 1 to 0.64, below the 0.8 floor of a single pulse |
| Atmosphere.PlanktonTick | examples/ocean_depths/atmosphere.rs:370-385 | a plankton sits at its base position plus the drift offset; with the corrected update its uniform scale lies between 0.8 and 1 times its spawned scale |
| Atmosphere.PlanktonForgetsHistory | examples/ocean_depths/atmosphere.rs:370-385 | with the corrected update, two plankton with the same component end a tick in the same state, whatever their previous position and scale |
| Atmosphere.PlanktonAfterInBand | examples/ocean_depths/atmosphere.rs:382-384 | over any non-empty run of corrected ticks the scale stays between 0.8 and 1 times the spawned scale |
| Atmosphere.SpawnPlankton | examples/ocean_depths/atmosphere.rs:204-220 | a spawned plankton sits at its base, with a spawned scale of lo + r·span in [lo, lo + span]; the second batch at lines 233-249 is spawned the same way |
| Atmosphere.AnimatePlankton | examples/ocean_depths/atmosphere.rs:367-386 | every plankton in the query is updated in place by the corrected tick |
| Atmosphere.SandLift | examples/ocean_depths/atmosphere.rs:396-410 | the vertical offset is (stir − 0.7)·5 above the 0.7 threshold; below it, with a non-negative settle speed, it is −(0.7 − stir)·settle or −0.5, whichever is higher; it is never below −0.5, and it is at most 1.5 for stir ≤ 1 |
| Atmosphere.SandTick | examples/ocean_depths/atmosphere.rs:392-411 | a grain stays within 2 of its base in x and z, its height is its base plus the lift, and its component is kept |
| Atmosphere.SandHeightBand | examples/ocean_depths/atmosphere.rs:396-410 | a grain with a non-negative settle speed stays between 0.5 below and 1.5 above its base |
| Atmosphere.SpawnSand | examples/ocean_depths/atmosphere.rs:261-278 | a spawned grain's settle speed lies in [0.1, 0.3), and it sits at its base |
| Atmosphere.AnimateSandParticles | examples/ocean_depths/atmosphere.rs:389-412 | every grain in the query is updated in place by the tick |
| Atmosphere.GodRayTick | examples/ocean_depths/atmosphere.rs:418-428 | a ray is tilted 0.15 ± 0.05 about X and ± 0.03 about Y; its width and depth are set to the same intensity in [0.8, 1.0]; its length and component are kept |
| Atmosphere.AnimateGodRays | examples/ocean_depths/atmosphere.rs:415-430 | every ray in the query is updated in place by the tick |
| Atmosphere.GodRaysKeepLength | examples/ocean_depths/atmosphere.rs:426-428 | after a tick each ray keeps the length it had, at any time |
| Collectibles.SpawnCollectibles | examples/platformer/collectibles.rs:76-95 | one gem per level position, in order: gem i is numbered i + 1, worth 10, placed at position i, floating about that position's height with amplitude 0.3, frequency 2 and phase 0.5·i, and turning at 1.5 |
| Collectibles.TotalValue | examples/platformer/collectibles.rs:133 | the summed value of no gems is 0 |
| Collectibles.TotalOfTens | examples/platformer/collectibles.rs:80 | gems all worth 10 are worth 10 times their number |
| Collectibles.DefaultLevelWorth | examples/platformer/collectibles.rs:76-95 | the gems spawned for the default level's 32 positions are worth 320 together; the positions are those of level.rs:734-788 |
| Collectibles.FloatTick | examples/platformer/collectibles.rs:106-115 | a gem's height is its base height plus the amplitude times a sample in [-1, 1], so it stays within one amplitude of the base; x and z are kept; it turns by its speed times dt; nothing else changes |
| Collectibles.AnimateCollectibles | examples/platformer/collectibles.rs:99-116 | every gem in the query is updated in place by the tick at elapsed time t |
| Collectibles.GemClearsPlatform | examples/platformer/collectibles.rs:82-84 | a default-level gem never floats into the platform it was placed on: its lowest point stays at least 0.15 above the platform's top face; the float offset is that of lines 109-111 and the platforms those of level.rs:349-719 |
| Collectibles.TickTimer | examples/platformer/collectibles.rs:200 | a once-mode timer advances by dt but never past its duration, which is kept |
| Collectibles.Fraction | examples/platformer/collectibles.rs:213 | while a timer with a positive duration runs, its fraction lies in [0, 1) |
| Collectibles.BurstParticle | examples/platformer/collectibles.rs:166-179 | particle i of a burst has a fresh one-second timer, full scale, starting velocity (cos, 0.5, sin) for its angle, whose horizontal part is a unit vector, and starts at the gem plus a twentieth of that velocity (a tenth of the offset) |
| Collectibles.Burst | examples/platformer/collectibles.rs:150-182 | a burst is exactly eight particles, particle i being the one for the i-th angle of the radial pattern |
| Collectibles.SpawnCollectionEffect | examples/platformer/collectibles.rs:151-182 | the loop over the eight angles spawns exactly the burst at the given position, particle by particle in angle order |
| Collectibles.ParticleTick | examples/platformer/collectibles.rs:199-215 | a surviving particle's timer is ticked, its scale becomes one minus the timer's fraction, which lies in (0, 1], and its starting velocity is kept |
| Collectibles.AnimateCollectionParticles | examples/platformer/collectibles.rs:194-217 | the particles whose timers finish are despawned; the others advance by one tick and keep their order |
| Collectibles.ParticleExpires | examples/platformer/collectibles.rs:200-203 | once the elapsed time plus the tick reaches one second, the particle is despawned; the one-second timer is set at lines 25 and 174 |
| Collectibles.TotalSplits | examples/platformer/collectibles.rs:127-147 | splitting gems into those in reach and those out of reach keeps their total value |
| Collectibles.HandleCollectiblePickup | examples/platformer/collectibles.rs:119-148 | the gems left are exactly those out of reach, in order; the score grows by the total value of the gems in reach; score plus the value left is conserved; the particles spawned are the bursts at the positions of the gems picked up, one after another in gem order; the checkpoint is untouched |
| Collectibles.BurstsNext | examples/platformer/collectibles.rs:127-147 | picking up one more gem appends exactly its burst to the particles spawned so far |
| Collectibles.BurstsLength | examples/platformer/collectibles.rs:127-147 | the pickup spawns eight particles per gem picked up |
| Collectibles.FilterOfTens | examples/platformer/collectibles.rs:80 | whatever a test keeps of gems all worth 10 is still worth 10 each |
| Collectibles.ScoreInTens | examples/platformer/collectibles.rs:133 | with every gem worth 10, a score that is a multiple of 10 stays a multiple of 10 after a pickup; every gem is spawned with value 10 at line 80 |
| Coral.GlowIntensity | examples/ocean_depths/coral.rs:68-76 | every species has a glow intensity, one of 0.2, 0.15, 0.3 and 0.25 |
| Coral.SpeciesTables | examples/ocean_depths/coral.rs:50-76 | every species has base and tip colours with components in [0, 1] and full alpha; its tips are at least as light as its base in every channel and differ from it; two different species differ in glow and in base colour |
| Coral.CoralCount | examples/ocean_depths/coral.rs:104 | a cluster holds 15 + r mod 10 corals, between 15 and 24 |
| Coral.EveryCountOccurs | examples/ocean_depths/coral.rs:104 | every cluster size from 15 to 24 comes from some draw |
| Coral.SpeciesOf | examples/ocean_depths/coral.rs:114-119 | a draw r gives Branching, Brain, Fan or Tube exactly when r mod 4 is 0, 1, 2 or 3 |
| Coral.SpeciesCycle | examples/ocean_depths/coral.rs:114-119 | the species depends only on the draw mod 4, and every species is drawn by one of 0 to 3 |
| Coral.ClusterPosition | examples/ocean_depths/coral.rs:107-126 | a coral lies within 10 of its cluster centre in x and z, at the terrain height there |
| Coral.ColliderMatchesMesh | examples/ocean_depths/coral.rs:151-190 | for every species the collider is the mesh's shape with every dimension multiplied by the coral's scale |
| Coral.SpawnRotation | examples/ocean_depths/coral.rs:192-198 | a sea fan, and only a sea fan, is first stood up by a quarter turn about X and then turned; every other species gets one turn about Y |
| Coral.SpawnDraws | examples/ocean_depths/coral.rs:138-146 | for draws in [0, 1) the scale lies in [0.5, 2), the phase in [0, tau), the polyp density in [15, 25) and the sway amplitude in [0.02, 0.05); the polyp density is drawn at line 211 |
| Coral.SpawnCoral | examples/ocean_depths/coral.rs:131-216 | a coral sits at its position with a uniform scale, its species' rotation and its drawn sway phase and amplitude |
| Coral.SwayAngle | examples/ocean_depths/coral.rs:223 | the sway angle sin·amplitude lies within the amplitude either way, and is 0 when the sample is 0 |
| Coral.SwayAsWritten | examples/ocean_depths/coral.rs:222-229 | the sway as written keeps the scale, position and component |
| Coral.SwayAsWrittenIgnoresSpawnRotation | examples/ocean_depths/coral.rs:218-228 | with the sway as written, the new rotation does not depend on the coral's rotation at all: it is exactly the turn about Z by the sway angle followed by half of it about X |
| Coral.SwayAsWrittenLosesFanTilt | examples/ocean_depths/coral.rs:192-228 | with the sway as written, a sea fan standing on its quarter turn about X (lines 192-194) with an amplitude below 0.05 has no quarter turn about X anywhere in its rotation after one tick, only the two small sway turns |
| Coral.SwayTick | examples/ocean_depths/coral.rs:223-228 | the corrected sway keeps the spawn rotation and adds a turn about Z by the sway angle and half of it about X; scale, position, component and species are kept |
| Coral.SwayKeepsSpawnTilt | examples/ocean_depths/coral.rs:192-228 | under the corrected sway a spawned sea fan keeps its quarter turn about X, and every other species keeps its turn about Y |
| Coral.SwayCoral | examples/ocean_depths/coral.rs:219-230 | every coral in the query is updated in place by the corrected tick |
| Coral.SwayKeepsScale | examples/ocean_depths/coral.rs:224-228 | after a tick each coral keeps the scale, position and species it had |
| Creatures.EffectivePerception | examples/ocean_depths/creatures.rs:172-177 | a school mate is noticed within the full perception radius 8, a fish of another school within half of it; either way the range is larger than the avoidance radius |
| Creatures.Visit | examples/ocean_depths/creatures.rs:179-196 | a neighbour closer than 0.01 or outside the effective range changes nothing; a mate in range adds its position and velocity and one to the count; any fish within the avoidance radius adds its push away |
| Creatures.GatherMeaning | examples/ocean_depths/creatures.rs:170-197 | the scan counts exactly the school mates in perception range and sums their positions and velocities, and sums the push away from every fish in avoidance range whatever its school |
| Creatures.NoMatesNoPull | examples/ocean_depths/creatures.rs:165-197 | when no school mate is in range, cohesion and alignment stay zero |
| Creatures.OtherSchoolIgnored | examples/ocean_depths/creatures.rs:172-196 | adding a fish of another school to the snapshot never changes the mates, their count, cohesion or alignment |
| Creatures.FloorAvoidance | examples/ocean_depths/creatures.rs:209-213 | the floor push is non-zero exactly below y = -2 |
| Creatures.CeilingAvoidance | examples/ocean_depths/creatures.rs:216-220 | the ceiling push is non-zero exactly above y = 12 |
| Creatures.AvoidanceExclusive | examples/ocean_depths/creatures.rs:209-220 | the floor and ceiling pushes never both act in one tick |
| Creatures.Steer | examples/ocean_depths/creatures.rs:164-251 | a fish keeps its school, moves by its new velocity times dt, and ends either still or at a speed between the minimum 2 and the maximum 5 |
| Creatures.Step | examples/ocean_depths/creatures.rs:159-164 | a tick yields one fish per fish of the snapshot |
| Creatures.ScanNeighbours | examples/ocean_depths/creatures.rs:165-197 | the neighbour loop computes the sums the reference scan defines |
| Creatures.SteerFish | examples/ocean_depths/creatures.rs:164-251 | the loop body for one fish computes its steered state |
| Creatures.FishBoids | examples/ocean_depths/creatures.rs:150-252 | the system replaces every fish by its steering from the snapshot taken before the loop |
| Creatures.StepInvariants | examples/ocean_depths/creatures.rs:237-246 | after a tick every fish has kept its school, moved by its new velocity times dt, and is still or swimming at a speed in [2, 5] |
| Creatures.Pulse | examples/ocean_depths/creatures.rs:360 | the bell contraction factor lies in [0.9, 1.1], reaching 0.9 and 1.1 at the sine's extremes |
| Creatures.JellyTick | examples/ocean_depths/creatures.rs:351-365 | a jellyfish bobs within 0.5 of its base height, its bell keeps x and z equal within [0.9, 1.1] and the area x·y at 0.6, and it drifts by at most 0.002 per axis per tick |
| Creatures.JellyShapeFromTimeOnly | examples/ocean_depths/creatures.rs:356-361 | height and bell shape depend only on the time and the component, not on where the jellyfish was |
| Creatures.AnimateJellyfish | examples/ocean_depths/creatures.rs:351-365 | every jellyfish of the query is replaced by its tick |
| Creatures.PatrolTarget | examples/ocean_depths/creatures.rs:496-498 | the patrol target lies within the radius of the centre in x and z and within 2 of the centre's height |
| Creatures.Advanced | examples/ocean_depths/creatures.rs:493 | the angle advances by speed·dt and nothing else of the turtle changes |
| Creatures.TurtleTick | examples/ocean_depths/creatures.rs:489-511 | the turtle's angle advances, and a turtle already at its target stays put |
| Creatures.TurtleMovesTowardTarget | examples/ocean_depths/creatures.rs:500-503 | off its target the turtle moves straight toward it, by exactly speed·5·dt for a non-negative step |
| Creatures.PatrolTurtle | examples/ocean_depths/creatures.rs:489-511 | every turtle of the query is replaced by its tick |
| Creatures.SpawnBubble | examples/ocean_depths/creatures.rs:607-630 | a spawned bubble sits at the given position with the given size and zero lifetime, rises at 1.5 to 2.5 with a sideways drift under 0.25, and lives between 2 and 4 seconds |
| Creatures.Fade | examples/ocean_depths/creatures.rs:659-661 | the shrink factor never exceeds 1 and stays above 0.99 within the lifetime |
| Creatures.BubbleTick | examples/ocean_depths/creatures.rs:641-661 | for a non-zero lifetime bound: the lifetime grows by dt; an expired bubble is otherwise unchanged; a live one rises by its velocity, wobbles by at most 0.01 per axis, has its sideways velocity damped by 0.98, and shrinks uniformly by a factor that is at most 1, and at least 0.99 while its lifetime is non-negative |
| Creatures.BubbleNext | examples/ocean_depths/creatures.rs:641-646 | every bubble ages by dt, whatever its lifetime bound, keeps that bound, and is otherwise unchanged once expired |
| Creatures.AnimateCreatureBubbles | examples/ocean_depths/creatures.rs:632-663 | every bubble is replaced by its tick, and exactly the expired ones are marked for despawning |
| Dialogue.IsDialogueRunning | examples/ocean_depths/dialogue.rs:41-44 | true exactly when some runner is running |
| Dialogue.RunningCount | examples/ocean_depths/dialogue.rs:41-44 | the number of running runners never exceeds the number of runners |
| Dialogue.RunningCountZero | examples/ocean_depths/dialogue.rs:41-44 | no runner is running exactly when the running count is zero |
| Dialogue.StartDialogue | examples/ocean_depths/dialogue.rs:46-61 | with a runner running nothing is spawned and false is returned; otherwise a running runner at the node is added and true is returned |
| Dialogue.RunningCountAppend | examples/ocean_depths/dialogue.rs:57-59 | spawning a runner adds one to the running count exactly when the new runner is running |
| Dialogue.StartKeepsAtMostOne | examples/ocean_depths/dialogue.rs:46-61 | starting a dialogue never leads to two running runners, and a successful start leaves exactly one |
| Dialogue.Running | examples/ocean_depths/dialogue.rs:29-39 | the runners kept by the cleanup are all running and as many as were running |
| Dialogue.RunningMembers | examples/ocean_depths/dialogue.rs:29-39 | a runner survives the cleanup exactly when it was there and running |
| Dialogue.RunningKeepsCount | examples/ocean_depths/dialogue.rs:29-39 | the cleanup leaves the running count as it was |
| Dialogue.CountAllRunning | examples/ocean_depths/dialogue.rs:29-39 | when every runner runs, the running count is the number of runners |
| Dialogue.Finish | examples/ocean_depths/dialogue.rs:35 | a runner finishing stops only that runner |
| Dialogue.FinishLowersCount | examples/ocean_depths/dialogue.rs:35 | a runner finishing never raises the running count |
| Dialogue.DialogueRunners.Start | examples/ocean_depths/dialogue.rs:46-61 | the method spawns and answers as the start rule says, and keeps at most one runner running |
| Dialogue.DialogueRunners.Cleanup | examples/ocean_depths/dialogue.rs:29-39 | exactly the finished runners are despawned, in order, and at most one runner stays running |
| Dialogue.DialogueRunners.FinishRunner | examples/ocean_depths/dialogue.rs:35 | a finishing runner stops and at most one runner stays running |
| Fauna.Visit | examples/alien_planet/fauna.rs:89-105 | a ray at the same position changes nothing; a ray in perception range adds its position, velocity and one to the count, and within the avoidance radius also its repulsion |
| Fauna.GatherMeaning | examples/alien_planet/fauna.rs:84-105 | the scan counts exactly the rays in perception range and sums their positions and velocities, and sums the repulsion of every ray within the avoidance radius |
| Fauna.EveryNeighbourCounts | examples/alien_planet/fauna.rs:91-103 | appending a ray in perception range adds one to the count, its position to cohesion and its velocity to alignment |
| Vectors.Average | examples/alien_planet/fauna.rs:107-110 | with a positive count, cohesion becomes the offset from the boid to its neighbours' mean position and alignment their mean velocity; separation and count are kept; with no neighbours nothing changes; both boid systems average this way (also creatures.rs:199-202) |
| Fauna.NoNeighboursNoPull | examples/alien_planet/fauna.rs:84-110 | without neighbours in range, cohesion, alignment and separation stay zero |
| Fauna.Steer | examples/alien_planet/fauna.rs:83-133 | a ray moves by its new velocity times dt and always flies at a speed between 3 and 8; a blended velocity already in that band is kept as it is |
| Fauna.ScanNeighbours | examples/alien_planet/fauna.rs:84-105 | the neighbour loop computes the sums the reference scan defines |
| Fauna.SteerRay | examples/alien_planet/fauna.rs:83-133 | the loop body for one ray computes its steered state |
| Fauna.TickRay | examples/alien_planet/fauna.rs:83-133 | the update of the ray at a position of the snapshot is its steering from that snapshot |
| Fauna.BoidSimulation | examples/alien_planet/fauna.rs:68-134 | every ray of the query is replaced by its steering from the snapshot taken before the loop |
| Fauna.StepInvariants | examples/alien_planet/fauna.rs:124-131 | after a tick every ray has moved by its new velocity times dt and flies at a speed in [3, 8] |
| Fauna.SpawnRay | examples/alien_planet/fauna.rs:38-49 | a spawned ray lies in the 50 by 20 by 50 box from height 10 to 30 and flies at speed 5 |
| Fauna.SpawnFauna | examples/alien_planet/fauna.rs:37-65 | fifty rays are spawned, one per draw |
| Fauna.SpawnedSpeedInBand | examples/alien_planet/fauna.rs:48-49 | every spawned ray starts within the speed band [3, 8] the simulation clamps to; the band is the clamp of lines 72-73 |
| FirstSight.Clamp | src/firstsight.rs:190 | the clamped value lies between the bounds, equals the input inside them and the nearer bound outside |
| FirstSight.PlayerCamera.constructor | src/firstsight.rs:40-50 | a default camera has zero yaw and pitch |
| FirstSight.PlayerCamera.UpdateLookingAt | src/firstsight.rs:180-191 | a camera with look disabled is untouched; otherwise the yaw becomes LookedYaw (turned by -dx·0.002) and the pitch LookedPitch (turned by -dy·0.002 and clamped to ±1.5), so the pitch stays within ±1.5 |
| FirstSight.PlayerCamera.UpdatePosition | src/firstsight.rs:169-177 | the camera sits the camera height above the player and keeps its yaw and pitch |
| FirstSight.PitchClamped | src/firstsight.rs:186-190 | whatever the mouse does the pitch ends within ±1.5; a motion within the limits is applied exactly, and a large one pins the pitch at the limit |
| FirstSight.YawReachesAnyTarget | src/firstsight.rs:186 | the yaw update is unclamped: from any yaw, exactly one horizontal mouse motion turns the camera to any chosen yaw |
| FirstSight.OppositeKeysCancel | src/firstsight.rs:132-145 | W with S adds no forward component, A with D no sideways component, and no key held asks for no facing |
| FirstSight.SpeedFor | src/firstsight.rs:148-152 | the walk speed is 15 with left shift held and 10 otherwise; the constants are those of lines 32-35 |
| FirstSight.Flattened | src/firstsight.rs:129-130 | a flattened camera direction has no vertical component |
| FirstSight.KeyFacing | src/firstsight.rs:132-145 | W adds the forward direction, S subtracts it, A subtracts the right direction and D adds it |
| FirstSight.WalkVelocity | src/firstsight.rs:125-155 | the walk velocity is the key facing along the flattened camera directions, made unit length and scaled to the key speed |
| FirstSight.HandleMovement | src/firstsight.rs:115-166 | the controller gets the walk velocity, a float height half a unit above the camera height, and a jump of 4 exactly while space is held |
| FirstSight.MovementSystem | src/firstsight.rs:115-166 | a player with movement disabled gets no command at all; any other player gets the command of `handle_movement`: the walk velocity from the keys along the flattened camera basis at the key speed, a float height half a unit above the camera height and a jump of 4 while space is held |
| FirstSight.DesiredSpeed | src/firstsight.rs:148-155 | whenever the keys ask for a facing, the walk velocity has exactly the key speed, 10 or 15 |
| FirstSight.NewBundle | src/firstsight.rs:85-93 | the bundle has a capsule collider of the given radius and height, a flat cylinder sensor 0.01 narrower, and the height as camera height |
| FirstSight.DefaultBundle | src/firstsight.rs:96-99 | the default bundle has radius 0.5 and height 1, so the player floats at 1.5; the defaults are those of lines 29-30 |
| Flora.Toggled | examples/alien_planet/flora.rs:143-151 | a click always sets the target to 1 or 2, and sets it back to 1 exactly when the target's x was above 1.5 |
| Flora.ToggleTwice | examples/alien_planet/flora.rs:143-151 | two clicks bring a bush back to a target a click can set |
| Flora.ClicksAlternate | examples/alien_planet/flora.rs:143-151 | from the spawned target 1, an even number of clicks leaves the target at 1 and an odd number at 2; the spawned target is that of lines 111-114 |
| Flora.StepTowards | examples/alien_planet/flora.rs:153-159 | one component moved a fraction k of the way keeps exactly (1 - k) of its gap to the target, and for k in [0, 1] ends between where it was and the target |
| Flora.NoOvershoot | examples/alien_planet/flora.rs:153-159 | a frame with dt·speed in [0, 1] never moves any component of the scale past the target, and a bush at its target stays there |
| Flora.FrameKeepsBand | examples/alien_planet/flora.rs:111-159 | with targets only ever 1 or 2 and dt·speed in [0, 1], every component of a bush's scale stays in [1, 2] |
| Flora.ComponentInBand | examples/alien_planet/flora.rs:153-159 | one component moved toward a target in [1, 2] stays in [1, 2] |
| Flora.Bush.constructor | examples/alien_planet/flora.rs:102-114 | a spawned bush has unit scale, unit target and speed 5 |
| Flora.Bush.Click | examples/alien_planet/flora.rs:143-151 | a click changes only the bush's target, to the toggled one |
| Flora.Bush.Animate | examples/alien_planet/flora.rs:153-159 | a frame moves the scale the fraction dt·speed of the way to the target and changes nothing else |
| Flora.OnBushClick | examples/alien_planet/flora.rs:143-151 | a click on an entity without a bush animation changes nothing; a click on a bush toggles its target and keeps its scale and speed |
| Flora.AnimateBushes | examples/alien_planet/flora.rs:153-159 | every bush of the query moves toward its own target by its own speed, and keeps target and speed |
| Level.MaterialConfigOf | examples/platformer/level.rs:60-86 | ground platforms are green, metallic 0 and roughness 0.8; challenge platforms red, 0.3 and 0.4; standard platforms and stepping stones amber, 0.2 and 0.6 |
| Level.SameConfigIff | examples/platformer/level.rs:60-86 | two kinds of platform share a material configuration exactly when they are the same kind, or are standard platforms and stepping stones |
| Level.FromConfig | examples/platformer/level.rs:96-110 | the material built from a configuration has its colour, metallic factor and roughness |
| Level.MaterialAssets.Add | examples/platformer/level.rs:103-108 | adding a material appends it to the asset collection and returns the handle of the new slot |
| Level.NewMaterialCache | examples/platformer/level.rs:124-151 | six new materials are added in the order ground, standard, challenge, stepping stone, wall, pillar; each handle names the material built for it, and the six handles are distinct |
| Level.Get | examples/platformer/level.rs:153-161 | the cache returns the handle of the platform's own kind, which is never the wall's or the pillar's handle |
| Level.GetBuiltFor | examples/platformer/level.rs:124-161 | the handle returned for a kind names the material of that kind's configuration, and two kinds get the same handle exactly when they are the same kind, even where their materials are equal |
| Level.GroundPlatform | examples/platformer/level.rs:201-204 | a ground platform keeps the name, position and size it is given |
| Level.StandardPlatform | examples/platformer/level.rs:206-209 | a standard platform keeps the name, position and size it is given |
| Level.ChallengePlatform | examples/platformer/level.rs:211-214 | a challenge platform keeps the name, position and size it is given |
| Level.SteppingStonePlatform | examples/platformer/level.rs:216-223 | a stepping stone keeps its name and position and is always 1.5 by 0.3 by 1.5 |
| Level.NorthWall | examples/platformer/level.rs:262-265 | a north or south wall is as wide as given along x and as thick as given along z |
| Level.EastWall | examples/platformer/level.rs:267-270 | an east wall is as thick as given along x and as deep as given along z |
| Level.WestWall | examples/platformer/level.rs:272-275 | a west wall is as thick as given along x and as deep as given along z |
| Level.PlatformsAssembled | examples/platformer/level.rs:734-782 | the level's platforms are the eleven sections' platforms, in the order tutorial, spiral ascent, gap jumps, narrow bridge, aerial challenge, descent, zigzag, bonus area, challenge, stepping stones, finale |
| Level.CollectiblesAssembled | examples/platformer/level.rs:734-782 | the level's collectible positions are the eleven sections' in the same order |
| Level.DefaultLevel | examples/platformer/level.rs:734-788 | the default level extends its platforms and collectible positions section by section, and takes the boundary walls and decorative pillars |
| Level.DefaultLevelTotals | examples/platformer/level.rs:349-719 | the default level has 45 platforms, 32 collectible positions, 4 boundary walls and 9 pillars |
| Level.TutorialSupported | examples/platformer/level.rs:349-380 | each tutorial collectible rests on a tutorial platform, 0.75 to 1.75 above its top face |
| Level.SpiralAscentSupported | examples/platformer/level.rs:383-418 | each spiral ascent collectible rests on one of that section's platforms |
| Level.GapJumpsSupported | examples/platformer/level.rs:421-456 | each gap jumps collectible rests on one of that section's platforms |
| Level.NarrowBridgeSupported | examples/platformer/level.rs:459-488 | each narrow bridge collectible rests on one of that section's platforms |
| Level.AerialChallengeSupported | examples/platformer/level.rs:491-521 | each aerial challenge collectible rests on one of that section's platforms |
| Level.DescentSupported | examples/platformer/level.rs:524-559 | each descent collectible rests on one of that section's platforms |
| Level.ZigzagPathSupported | examples/platformer/level.rs:562-597 | each zigzag path collectible rests on one of that section's platforms |
| Level.BonusAreaSupported | examples/platformer/level.rs:600-623 | each bonus area collectible rests on one of that section's platforms |
| Level.ChallengeSectionSupported | examples/platformer/level.rs:626-637 | the challenge section's collectible rests on its platform |
| Level.SteppingStonesSupported | examples/platformer/level.rs:639-655 | each stepping stones collectible rests on its own stepping stone |
| Level.FinaleSupported | examples/platformer/level.rs:657-685 | each finale collectible rests on one of the finale's platforms |
| Level.SectionSupported | examples/platformer/level.rs:349-685 | every section's collectibles rest on the platforms listed for it |
| Level.CollectiblesOnPlatforms | examples/platformer/level.rs:349-685 | every collectible of every section stands within the x-z footprint of a platform of the same section, between 0.75 and 1.75 above its top face |
| Level.PlatformEntity | examples/platformer/level.rs:226-247 | a spawned platform carries its name, its position, a cuboid mesh of its size, a collider of the same shape and the given material |
| Level.WallEntity | examples/platformer/level.rs:277-298 | a spawned wall is named "Boundary Wall" and has a cuboid mesh of its size, a collider of the same shape and the given material |
| Level.PillarEntity | examples/platformer/level.rs:318-332 | a spawned pillar is named "Decorative Pillar", has a cylinder mesh of its radius and height and the given material, and has no collider |
| Level.SpawnLevelGeometry | examples/platformer/level.rs:801-830 | the cache is built first, then the platforms, the walls and the pillars are spawned in that order, each with its material |
| Level.SpawnedMaterials | examples/platformer/level.rs:801-830 | each spawned platform carries the material of its own kind, each wall the wall material and each pillar the pillar material, which has no collider |
| Movement.GameState.constructor | examples/platformer/main.rs:63-71 | a new game state has no gems and its checkpoint at the spawn point (0, 20, 0) |
| Movement.Respawned | examples/platformer/movement.rs:8-26 | a player below y = -100 is put on the checkpoint, any other player stays where it is |
| Movement.RespawnIdempotent | examples/platformer/movement.rs:18-32 | a second respawn check changes nothing, and afterwards the player is never below the threshold when the checkpoint is not |
| Movement.SpawnPlayer | examples/platformer/movement.rs:12-15 | the player is placed at (0, 20, 0) |
| Movement.CheckPlayerRespawn | examples/platformer/movement.rs:18-32 | the player's translation becomes its respawned position and the game state is unchanged |
| MuseumAnimation.Spin | examples/museum/main.rs:384-391 | an entity that is rotating and not an animated light turns by 0.3·dt about Y; any other entity is unchanged |
| MuseumAnimation.SpinsAdd | examples/museum/main.rs:384-391 | two ticks turn an entity as far as one tick of their summed duration |
| MuseumAnimation.RotateOne | examples/museum/main.rs:388-390 | the loop body turns exactly the entities the query matches |
| MuseumAnimation.RotateArtworks | examples/museum/main.rs:384-391 | every entity is replaced by its tick |
| MuseumAnimation.LightPulse | examples/museum/main.rs:397 | the light pulse lies in [0.85, 1], is 1 at the sine's extremes and 0.85 at its zeros |
| MuseumAnimation.LightTick | examples/museum/main.rs:395-401 | an animated light gets intensity 6000 times the pulse, between 5100 and 6000; any other light is unchanged |
| MuseumAnimation.AnimateLighting | examples/museum/main.rs:395-401 | every light is replaced by its tick |
| MuseumAnimation.LightsAgree | examples/museum/main.rs:395-401 | after a tick every animated light has the same intensity, within [5100, 6000], and every other light is as it was; the animated lights are those marked at lines 190-203 |
| MuseumAnimation.PulseScale | examples/museum/main.rs:410-414 | the scale lies within the sculpture's range, at its top at the sine's extremes and at its bottom at its zeros |
| MuseumAnimation.PulseTick | examples/museum/main.rs:405-417 | a pulsing sculpture is scaled uniformly within its scale range |
| MuseumAnimation.PulseForgetsScale | examples/museum/main.rs:410-415 | the scale depends only on the time and the component, never on the scale the sculpture had |
| MuseumAnimation.AnimatePulsingSculptures | examples/museum/main.rs:405-417 | every pulsing sculpture is replaced by its tick |
| MuseumAnimation.SpawnedPulsingInRange | examples/museum/artworks.rs:1158-1162 | the energy sphere and the energy torus stay within scale [0.8, 1.2]; the second pulsing sculpture at lines 1219-1223 likewise |
| MuseumAnimation.Rem360 | examples/museum/main.rs:432-433 | the float remainder by 360 keeps the sign of its operand, lies in [0, 360) for a non-negative one, and leaves a hue below 360 as it is |
| MuseumAnimation.Rem360Periodic | examples/museum/main.rs:432-433 | a hue and the hue a full turn later are the same |
| MuseumAnimation.Hue | examples/museum/main.rs:432-433 | for a non-negative angle the hue lies in [0, 360) |
| MuseumAnimation.CycleColor | examples/museum/main.rs:421-438 | an entity with a standard material gets base colour HSL(h, 0.8, 0.6) and emissive HSL(h, 0.8, 0.3) times 0.3 for the hue h at that time; an entity whose material is not a standard material is not matched and is unchanged |
| MuseumAnimation.AnimateColorCyclingSculptures | examples/museum/main.rs:421-438 | every colour-cycling entity is replaced by its tick |
| MuseumAnimation.SpawnedCyclersUnchanged | examples/museum/artworks.rs:388-407 | every colour-cycling sculpture the museum spawns uses a shader material, so the system changes none of them at any time; the other cyclers are spawned at lines 1104-1113 and 1169-1184 |
| MuseumAnimation.MorphFactor | examples/museum/main.rs:460-461 | for a non-negative amplitude the common factor lies within 1 ± 0.65·amplitude |
| MuseumAnimation.AxisScale | examples/museum/main.rs:464-466 | each axis scales the common factor by a factor in [0.9, 1.1] |
| MuseumAnimation.MorphTick | examples/museum/main.rs:453-468 | every axis of a morphing sculpture lies between 0.9·(1 - 0.65·amplitude) and 1.1·(1 + 0.65·amplitude) |
| MuseumAnimation.MorphForgetsScale | examples/museum/main.rs:459-467 | the scale depends only on the time and the component |
| MuseumAnimation.AnimateMorphingSculptures | examples/museum/main.rs:453-468 | every morphing sculpture is replaced by its tick |
| MuseumAnimation.MorphingNeverCollapses | examples/museum/room_layout.rs:1380-1512 | with the amplitudes the museum spawns, at most 0.4, every axis keeps a scale of at least 0.666; the amplitudes are set at lines 1380-1382, 1416-1418, 1445-1447, 1471-1473 and 1510-1512 |
| MuseumConfig.GalleryNamesDistinct | examples/museum/config.rs:58-135 | the main gallery has twelve paintings with pairwise distinct names |
| MuseumConfig.GalleryStylesDistinct | examples/museum/config.rs:58-135 | no two paintings of the gallery share a style |
| MuseumConfig.GalleryStylesInOrder | examples/museum/config.rs:58-135 | painting i of the gallery has the i-th painting style in declaration order; the styles are the enum of lines 27-40 |
| MuseumConfig.GalleryUsesEachStyleOnce | examples/museum/config.rs:58-135 | every painting style is used by exactly one painting of the gallery; the styles are the enum of lines 27-40 |
| MuseumConfig.FramesAlternate | examples/museum/config.rs:58-135 | the gallery's frames alternate wood and gold, starting with wood; the frame types are the enum of lines 44-47 |
| MuseumConfig.GardenCorners | examples/museum/config.rs:138-164 | the sculpture garden has four sculptures, one of each type in declaration order, at the four distinct corners (±10.5, 1.8, ±10.5); the sculpture types are the enum of lines 51-56 |
| PaintingNodes.DialogueNode | examples/museum/artworks.rs:988-1008 | a title without a node of its own opens the fallback node "FractalDreams" |
| PaintingNodes.NodesInOrder | examples/museum/artworks.rs:990-1001 | each of the twelve mapped titles opens its own node, in the order of the titles |
| PaintingNodes.NodeNamesDistinct | examples/museum/artworks.rs:990-1001 | the twelve node names are pairwise distinct |
| PaintingNodes.MappedNodesDistinct | examples/museum/artworks.rs:988-1008 | different mapped titles open different nodes |
| PaintingNodes.GalleryTitlesMapped | examples/museum/artworks.rs:988-1008 | the gallery's titles are exactly the mapped titles in order, so every painting opens its own node and none falls back; the titles are those of config.rs:58-135 |
| Picking.NewHint | src/picking.rs:31-35 | a hint keeps the text it is given |
| Picking.PickingDisplay.constructor | src/picking.rs:48-59 | the display starts with "No entity picked" |
| Picking.FirstHit | src/picking.rs:70-84 | the position found is the first pointer with a hit: every pointer before it has none, and it is past the end only when no pointer has one |
| Picking.Label | src/picking.rs:72-81 | a named entity shows its name, followed by " - " and its hint when it has one; an unnamed entity shows "unknown" |
| Picking.DisplayText | src/picking.rs:67-91 | the text is "Looking at: " and the label when something is picked, and "No entity picked" exactly when nothing is |
| Picking.FindPicked | src/picking.rs:67-85 | the search loop returns the label of the first pointer with a hit, or nothing |
| Picking.UpdatePickingDisplay | src/picking.rs:61-93 | with exactly one display it is set to the text for the first hit; otherwise no display changes |
| Picking.NoHitIffDefault | src/picking.rs:61-93 | the display reads "No entity picked" exactly when no pointer has a hit |
| Picking.OnlyFirstHitCounts | src/picking.rs:70-84 | pointers without a hit before the first hit are skipped, and whatever later pointers hit is ignored |
| Picking.UnnamedIsUnknown | src/picking.rs:80-81 | a hit on an entity without a name reads "Looking at: unknown", even when it has a hint |
| Platforms.Target | examples/platformer/platforms.rs:95-100 | a platform heading forward aims for its end position, any other for its start position |
| Platforms.PlatformTick | examples/platformer/platforms.rs:92-119 | a tick keeps the translation, ends and speed; it reverses the direction exactly when the platform is within 0.1 of its target, so a direction of ±1 stays ±1; the velocity points from start to end or back as the new direction says, with length equal to the speed |
| Platforms.MovePlatform | examples/platformer/platforms.rs:93-118 | the loop body for one platform computes its tick |
| Platforms.AnimateMovingPlatforms | examples/platformer/platforms.rs:89-120 | every platform of the query is replaced by its tick |
| Platforms.StepKeeps | examples/platformer/platforms.rs:89-120 | over a tick every platform keeps its translation, its ends and its speed, and a direction of ±1 stays ±1 |
| Platforms.Ticks | examples/platformer/platforms.rs:89-120 | any number of ticks keeps a platform's end positions |
| Platforms.TicksKeepUnitDirection | examples/platformer/platforms.rs:105-107 | any number of ticks keeps the direction at 1 or -1; the direction field is declared at lines 19-20 |
| Platforms.SpawnedPlatformsWellFormed | examples/platformer/platforms.rs:39-85 | each of the three spawned platforms starts at its start position, with distinct ends, a positive speed and direction 1 |
| RoomLayout.WallSections | examples/museum/room_layout.rs:689-691 | a wall of length R with a centred opening O splits into two sections of width (R - O)/2 centred at ±(O/2 + (R - O)/4), spanning [-R/2, -O/2] and [O/2, R/2]; the other walls compute the same at lines 751-753 and 1284-1285 |
| RoomLayout.SectionsCoverAllButOpening | examples/museum/room_layout.rs:689-741 | a point of the wall line is covered by a section exactly when it lies outside the opening |
| RoomLayout.SectionsDisjoint | examples/museum/room_layout.rs:689-741 | the two sections never overlap, and touch only when there is no opening |
| RoomLayout.SecondRoomSouthWallSections | examples/museum/room_layout.rs:682-742 | the second room's south wall is the wall split around an opening of 12, flush with the room's south edge, one thickness deep and floor to ceiling |
| RoomLayout.SecondRoomEastWallSections | examples/museum/room_layout.rs:744-796 | the second room's east wall is the wall split around an opening of 8, flush with the room's east edge, one thickness thick and floor to ceiling |
| RoomLayout.ThirdRoomWestWallSections | examples/museum/room_layout.rs:1276-1328 | the third room's west wall is the wall split around an opening of 8, flush with the room's west edge, one thickness thick and floor to ceiling |
| RoomLayout.MainRoomWalls | examples/museum/room_layout.rs:159-228 | the main room's east and west walls sit at x = ±(15 - 0.15) with outer faces at ±15 and inner faces at ±14.7, and its north and south walls are the sections of a 30-long wall with an opening of 12; the north wall at lines 409-438 is split the same way |
| RoomLayout.MainRoomFramesClearWalls | examples/museum/config.rs:58-135 | every framed painting on a main-room wall hangs with the back of its frame 0.015 in front of the wall's inner face; the walls are those of room_layout.rs:172, 184 and 424 |
| RoomLayout.CorridorWalls | examples/museum/room_layout.rs:499-550 | a corridor's side walls sit at ±(width/2 - 0.15), so their outer faces are at ±width/2, run its whole length and reach from floor to ceiling |
| RoomLayout.ThirdCorridorWalls | examples/museum/room_layout.rs:1095-1160 | the third room's corridor walls sit at ±(width/2 - 0.15) across z, run its whole length along x and reach from floor to ceiling |
| RoomLayout.CorridorsJoinRooms | examples/museum/room_layout.rs:457-459 | each opening is as wide as the corridor through it (12 and 8), the corridor walls' outer faces meet the openings' edges at both ends, and each corridor runs exactly from one room's wall to the next; the other corridor and opening constants are at lines 569, 690, 752, 1097-1099, 1173 and 1284 |
| RoomLayout.CorridorPaintingsOnWallCentres | examples/museum/config.rs:64-75 | the two corridor paintings are configured on the centre lines of the corridor walls, within the corridor's length; the corridor walls are those of room_layout.rs:499-550 |
| RoomLayout.PedestalTop | examples/museum/room_layout.rs:345-363 | a pedestal's top is half its height of 1.2 above its centre |
| RoomLayout.SculpturesOnPedestals | examples/museum/room_layout.rs:330-368 | each garden sculpture stands over the centre of its corner pedestal, above that pedestal's top at 1.2, and the pedestals lie inside the main room's walls; the sculptures are those of config.rs:138-164 |
| RoomLayout.MandalaFragment | examples/museum/room_layout.rs:1428-1455 | each mandala fragment sits at a fraction of a turn on radius 3.2, with amplitude 0.15 and a speed between 1.5 and 2.55 |
| RoomLayout.PlatonicSolid | examples/museum/room_layout.rs:1399-1425 | each platonic solid sits at a fraction of a turn on radius 2 at a height between 2.2 and 2.8, with amplitude 0.25 and a speed between 1 and 1.8 |
| RoomLayout.MandalaRing | examples/museum/room_layout.rs:1428-1455 | the mandala has eight fragments an eighth of a turn apart around a full turn, alternating between heights 3.5 and 1.5 starting high, with speeds rising by 0.15 from 1.5 |
| RoomLayout.NeighbourFragments | examples/museum/room_layout.rs:1430-1447 | neighbouring fragments differ by an eighth of a turn and 0.15 in speed, and one is high where the other is low |
| RoomLayout.RingPosition | examples/museum/room_layout.rs:1405-1407 | a ring member keeps its height and lies on its orbit's circle; the mandala ring at lines 1432-1434 is placed the same way |
| Scanner.ScannerText.constructor | examples/alien_planet/scanner.rs:22-59 | a scanner text starts with "Scanning..." |
| Scanner.ScanRay | examples/alien_planet/scanner.rs:69-81 | the ray starts at the camera, points along its forward direction, is 100 long and solid, and excludes the first player when there is one |
| Scanner.ScanLabel | examples/alien_planet/scanner.rs:82-98 | a scannable hit shows "Target: ", its name and its description; a named hit "Object: " and its name; any other hit "Unknown Signal"; and "Scanning..." exactly when nothing is hit |
| Scanner.ScannableFirst | examples/alien_planet/scanner.rs:82-89 | a scannable entity shows its scan text whatever name it carries |
| Scanner.TargetIffScannable | examples/alien_planet/scanner.rs:82-98 | the text starts with "Target: " exactly when the ray hit a scannable entity |
| Scanner.PlayerNeverScanned | examples/alien_planet/scanner.rs:76-81 | with a player present, the scanner never reports the player |
| Scanner.SetAll | examples/alien_planet/scanner.rs:83-97 | every scanner text gets the given string |
| Scanner.ScanSystem | examples/alien_planet/scanner.rs:61-100 | without a camera nothing changes; otherwise every scanner text reads the label of what the ray from the first camera hits |
| Textures.Bytes | examples/museum/artworks.rs:916-934 | a pixel of an RGBA8 image is four bytes |
| Textures.TextureFor | examples/museum/artworks.rs:414-434 | exactly the geometric, cellular, digital, minimalist and fractal styles have a modelled generator |
| Textures.GeometricPixel | examples/museum/artworks.rs:467-491 | a pixel is orange exactly when its 32-pixel grid cell has an even coordinate sum, blue otherwise |
| Textures.CheckerboardAlternates | examples/museum/artworks.rs:475-477 | moving one 32-pixel square along either axis flips the colour, two squares restore it |
| Textures.SatAdd | examples/museum/artworks.rs:680-681 | the u32 saturating addition: exact below 2³² and pinned at 2³² - 1 above it |
| Textures.SatMul | examples/museum/artworks.rs:680-681 | the u32 saturating multiplication: exact below 2³² and pinned at 2³² - 1 above it |
| Textures.CellularPixel | examples/museum/artworks.rs:669-697 | a pixel is the alive colour exactly when its 16-pixel cell's saturating hash is below 30 modulo 100, the dead colour otherwise |
| Textures.CellHashExactBelow2048 | examples/museum/artworks.rs:676-681 | for cells of a canvas up to 2048 pixels square no step saturates and the hash is (cx + 13·cy)·1234567 |
| Textures.CellularCellsUniform | examples/museum/artworks.rs:676-684 | every pixel has the colour of its cell's corner |
| Textures.DigitalLevel | examples/museum/artworks.rs:617-619 | the lit level is 255·((x + y) mod 64)/64 truncated, at most 251 |
| Textures.DigitalPixel | examples/museum/artworks.rs:609-644 | every digital pixel is opaque |
| Textures.DigitalChannels | examples/museum/artworks.rs:617-636 | red is lit by the x stripe bit, green by the y bit, blue exactly when one bit but not both is set |
| Textures.MinimalistPixel | examples/museum/artworks.rs:584-607 | a pixel is the dark ink colour exactly when it lies in the central block (0.3 < x/w < 0.7, h/3 < y < 2h/3), the paper colour otherwise |
| Textures.MinimalistCentre | examples/museum/artworks.rs:592-600 | on a 2048-square canvas the centre is ink and the corners are paper |
| Textures.Step | examples/museum/artworks.rs:563-567 | one z := z² + c iteration counts one more iteration |
| Textures.EscapeFrom | examples/museum/artworks.rs:559-568 | the escape loop ends within 50 iterations, ends early only once the orbit has left radius 2, and does nothing to an orbit that already escaped |
| Textures.EscapeIterations | examples/museum/artworks.rs:559-568 | the while loop computes the escape loop's iteration count, at most 50 |
| Textures.EscapeAtOnce | examples/museum/artworks.rs:563 | a point already outside radius 2 takes no iterations |
| Textures.FractalColor | examples/museum/artworks.rs:570-577 | no iterations gives pure blue, 50 gives (255, 127, 0), and red plus blue is always 254 or 255 |
| Textures.FractalRedGrows | examples/museum/artworks.rs:570-575 | more iterations never give less red, nor more blue |
| Textures.Row | examples/museum/artworks.rs:473-488 | a row of n pixels is 4·n bytes |
| Textures.Image | examples/museum/artworks.rs:471-488 | a canvas of w by rows pixels is 4·w·rows bytes |
| Textures.RowAt | examples/museum/artworks.rs:474-488 | byte c of pixel x of a row sits at offset 4·x + c and is that pixel's channel c |
| Textures.ImageAt | examples/museum/artworks.rs:471-488 | byte c of pixel (x, y) sits at offset 4·(y·w + x) + c of the buffer and is that pixel's channel c; this is the layout create_image hands over at lines 916-934 |
| Textures.ComputePixel | examples/museum/artworks.rs:467-697 | the pixel a generator computes, running the escape loop for the fractal, is the texture's pixel function; these lines hold the five modelled generators |
| Textures.GenerateRow | examples/museum/artworks.rs:474-488 | the inner loop emits row y's pixels left to right as the texture's row bytes |
| Textures.GenerateTexture | examples/museum/artworks.rs:467-697 | the nested loops emit the whole canvas row by row, 4·w·h bytes with each pixel at its RGBA8 offset; these lines hold the five modelled generators |
| Treasure.ChestPosition | examples/ocean_depths/treasure.rs:46-50 | the chest stands at x 25 and z -20, half a unit above the seafloor there |
| Treasure.SpawnGlow | examples/ocean_depths/treasure.rs:140-146 | the glow sphere spawns 1.5 above the chest at unit scale |
| Treasure.GlowScale | examples/ocean_depths/treasure.rs:206-207 | the glow scale 1 + 0.2·s is uniform, lies in [0.8, 1.2] and is 1 for a zero sample |
| Treasure.GlowAt | examples/ocean_depths/treasure.rs:201-207 | at any elapsed time the glow scale is uniform and within [0.8, 1.2] |
| Treasure.AnimateTreasureGlow | examples/ocean_depths/treasure.rs:201-209 | every glow gets the scale for the elapsed time and keeps its position |
| Treasure.RingSquare | examples/ocean_depths/treasure.rs:110-116 | a unit-circle direction scaled by a radius in [2, 3.5) lies at a squared horizontal distance in [4, 12.25) |
| Treasure.SpawnGoldParticle | examples/ocean_depths/treasure.rs:108-128 | a particle rests at its base position, 1 to 3 above the chest and 2 to 3.5 from it horizontally, with a uniform scale in [0.3, 0.7) |
| Treasure.SpawnGoldParticles | examples/ocean_depths/treasure.rs:108-129 | twelve particles are spawned, particle i at angle i·TAU/12 with its own draws |
| Treasure.GoldTick | examples/ocean_depths/treasure.rs:214-223 | one tick keeps the particle's base, phase and scale, turns it by exactly 0.01 about Y and puts it within 0.3, 0.5 and 0.3 of its base |
| Treasure.AnimateGoldParticles | examples/ocean_depths/treasure.rs:211-225 | every particle of the query is ticked in place at the elapsed time |
| Treasure.GoldTurnsPerTick | examples/ocean_depths/treasure.rs:214-223 | after n ticks, however they are spaced, a particle has turned by 0.01·n and stays within the float offsets of its base |
| Treasure.SpawnCoin | examples/ocean_depths/treasure.rs:179-195 | a coin lies within 2 of the chest in x and z, 0.2 above the seafloor there, tilted by less than a quarter turn about X and Z and by less than a full turn about Y |
| Treasure.SpawnGoldCoins | examples/ocean_depths/treasure.rs:165-199 | twenty coins are spawned, each from its own draws |

## Left out

- Floating point: `f32` rounding, overflow to infinity and NaN are not modelled; all arithmetic is on `real`.
- Transcendental functions: `sin`, `cos`, `sqrt`, `length` and `normalize` are parameters with the laws the proofs need, not implementations.
- Quaternions: rotations are kept as sequences of elementary turns, not composed. The camera rotation built from yaw and pitch (src/firstsight.rs:193-194) and `look_at` facing are not modelled.
- Colour: the HSL to RGB conversion of the colour-cycling sculptures is not modelled; materials carry HSL colours.
- Randomness: every `rand::random` draw is a parameter in [0, 1).
- Bevy `Timer` internals: a timer is its elapsed time and duration, ticked by `dt`.
- Asset handles: meshes and materials are numbered indices in a cache, not GPU assets.
- Terrain height: `terrain_height_at` in examples/ocean_depths/dialogue.rs is built on a noise library, so it is a parameter.
- Textures: the abstract, noise, colour-field, organic, cloud, marble, gold and holographic painting generators work on float noise fields and are not modelled.
- Integer widths: the `u32` pixel arithmetic of the texture fillers is exact, except the cellular hash, whose saturating operations are modelled as written.
- Physics: the character controller, `LinearVelocity` integration, colliders and the ray cast are outside the model; the movement system's output is the command it hands over, and the scanner's hit is a parameter.
- Dialogue: YarnSpinner's execution is outside the model; a runner is a node name and a running flag. The `OceanDialogue` component is data only.
- `on_treasure_click` in examples/ocean_depths/treasure.rs only calls `start_dialogue` with the chest's node; the start itself is `Dialogue.StartDialogue`.
- Picking gizmos: `draw_mesh_intersections` only draws debug lines and is not modelled; `cleanup_picking_ui` only despawns the display.
- Picking.UpdatePickingDisplay: `text_query.single_mut` is modelled as writing the display when there is exactly one and doing nothing otherwise.
- `on_spire_click` on the alien planet picks random colours and is not modelled.
- `update_fractal_materials` only writes the elapsed time into a shader uniform and is not modelled.
- Coral names and descriptions: the strings attached to spawned coral are not modelled; the species tables are.
- Fauna.BoidSimulation: requires every ray's steering target and blended velocity to be non-zero, because `normalize` of a zero vector gives NaN in the source.
- Platforms.AnimateMovingPlatforms: requires every platform's start and end to differ, because the source's direction between equal points is NaN.
- Atmosphere: the plankton record carries its spawned scale (`baseScale`), which the corrected pulse scales from; the source keeps no such field.
- Coral: the sway record carries the spawn rotation (`rest`), which the corrected sway composes with; the source keeps no such field.
- Creatures.BubbleNext: a bubble with a zero lifetime bound whose lifetime is still negative after the tick would, in the source, be divided by zero in floating point and get an infinite scale; the model only ages such a bubble. Spawned bubbles have a bound of at least 2.
- Scheduling: Bevy's system ordering and parallel execution are not modelled; every system is one sequential call per frame. Bevy's `Commands` (spawn, despawn, insert) are deferred to the end of the system, while the model applies them at once: Dialogue.DialogueRunners.Start and Dialogue.StartDialogue add the runner immediately, so of two starts in one frame the second sees the first runner, whereas in the source both are admitted.

## Findings

| source | as written | input that shows it | evidently intended | confidence | as-written member | corrected member |
|---|---|---|---|---|---|---|
| examples/museum/artworks.rs:216-225 | the corridor walls rotate a painting by a quarter turn that points its front at the wall it hangs on | "Color Study #47", configured at (5.85, 3, -25) on the right corridor wall: its front points toward +x, into the wall, while its offset moves it toward the corridor's centre | the painting faces the corridor centre, as the comment on that branch says | not executed | Artworks.CorridorFacesWall | Artworks.PlaceFramedCorrected |
| examples/ocean_depths/atmosphere.rs:382-384 | the pulse multiplies the current scale, so pulses compound from frame to frame | two frames with the sine at -1 take a plankton of scale 1 to 0.8 and then 0.64 | the scale pulses between 0.8 and 1 times the spawned scale ("preserve original scale ratio") | not executed | Atmosphere.AsWrittenDriftsBelowPulse | Atmosphere.PlanktonAfterInBand |
| examples/ocean_depths/coral.rs:192-228 | the sway overwrites the rotation with the sway turns alone, discarding the spawn rotation | a sea fan spawned with a quarter turn about X and amplitude 0.04 has, after one frame, only turns of at most 0.04 about Z and X | the coral sways about its spawned orientation, so fans stay upright and other species keep their turn about Y | not executed | Coral.SwayAsWrittenLosesFanTilt | Coral.SwayKeepsSpawnTilt |
