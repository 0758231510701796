# Robocode bots: target tracking and fire decision

This project models the engine shared by a family of Robocode battle robots:
the ChutluV5, V6, V9, V10, V10V2, V10V3, V15, V16 and V17 bots, ApexusBot, and
the robocode ApexV2, ApexV2Fixed, ApexV3 and ApexV4 bots. Each bot keeps a
table of enemy records keyed by robot name, chooses a current target, and
keeps a ten-slot ring of the target's recent headings, velocities and
positions. The robot's reaction to each scan is the same pipeline with
different constants:

- the record is updated in place or rebuilt;
- the target is kept or switched;
- the history is cleared when the target changes and written when it does not;
- the radar is locked onto the target with a small overshoot;
- a bullet power is chosen and an aim is predicted (linear, lead, circular or
  pattern estimates, blended by spin-bot and wall-hugger detectors);
- the gun turns and fires behind a heat, energy and alignment gate;
- an energy drop in the shot window triggers a dodge.

The run loops drive corner tours, X patterns, chunked and stepping go-to
walks, jittery steps and a diagonal bounce. The collision handlers steer away.

The model is layered:

- `angles.dfy`, `common.dfy`: bearing and radian normalisation (the source's
  `while` loops), clamping and truncation.
- `host.dfy`: what the robot reads from the game (`SelfState`), the scan
  event (`Scan`), the actuator calls it issues (`Command`), trigonometry
  (`Trig`) and random draws (`Draws`).
- `tracks.dfy`: the enemy record (`Track`, and the in-place class `EnemyData`)
  and the two ways the sources refresh it.
- `targeting.dfy`: the switch rule, the nearer-target rule and the nearest
  survivor after a death.
- `gunnery.dfy`: the bullet-power policies, bullet flight time, the
  predictors and their blend, and the fire gate.
- `radar.dfy`: the radar locks.
- `history.dfy`: the ten-slot ring as arrays, with the spin-bot and
  wall-hugger detectors, the average speed, the circular turn rate and the
  pattern heading as loops proved against functions on sequences.
- `engine.dfy`: the robot as a `class Bot` with a map of `EnemyData` objects
  and four history arrays. Its methods change those fields and state the new
  `State()`, a `BotState` value, and keep the invariant `Valid()`.
- `handlers.dfy`: the stages of `onScannedRobot` that several bots share. Each
  stage is a function on `BotState`, with a `...Step` method on the `Bot`
  proved equal to it.
- `movement.dfy`: the smooth, smart and corner movements, go-to walks,
  corner tours and the diagonal bounce.
- `collisions.dfy`: the bullet, wall and robot collision reactions.
- One module per bot holds its constants, its `onScannedRobot` (a method
  proved equal to a `ScanOutcome` function) and its run-loop pass. Lemmas
  state the bot's target, history, fire, dodge and loop rules.
  - `CornerBots` (`corner_bots.dfy`) holds what ChutluV10, ChutluV6 and
    ChutluV17 share.
  - `ChutluV10V3` also models ChutluV10V2, whose engine is the same.

Doubles are modelled as `real`. Trigonometric functions are total functions
passed in as a `Trig` value. `Math.random()` draws are parameters. The
host's blocking calls (`turnRight`, `ahead`, `fire`, ...) are returned as a
sequence of `Command` values in the order the handler issues them. Where the
source reads the robot's state again after a blocking call, the model takes
the snapshot it reads as a further parameter (`Moments`, `LoopMoments`).

## Model

| member | source | states |
|---|---|---|
| Angles.NormalizeBearingByLoops | ChutluV10V3.java:497-501 | the two `while` loops of normalizeBearing compute the closed-form normalisation |
| Angles.NormalizeRadiansByLoops | robocode/ApexV4.java:507-511 | the two `while` loops of normalizeRadians compute the closed-form normalisation |
| Angles.NormalizeInRange | ChutluV10V3.java:497-501 | a normalised angle lies within [-half, half] |
| Angles.NormalizeIdentity | ChutluV10V3.java:497-501 | an angle already in range is left unchanged |
| Angles.NormalizeIdempotent | ChutluV10V3.java:497-501 | normalising twice equals normalising once |
| Angles.NormalizeCongruent | ChutluV10V3.java:497-501 | normalisation subtracts a whole number of turns |
| Angles.NormalizeBearingProperties | ChutluV10V3.java:497-501 | degree normalisation lands in [-180, 180], differs by whole turns of 360, fixes angles in range and is idempotent |
| Angles.NormalizeRadiansProperties | robocode/ApexV4.java:507-511 | radian normalisation lands in [-pi, pi], differs by whole turns of 2 pi, fixes angles in range and is idempotent |
| Angles.WholeTurnsVanish | ChutluV10V3.java:497-501 | any whole number of turns normalises to 0 |
| Angles.NormalizeWholeTurnsAway | ChutluV10V3.java:497-501 | adding whole turns to an angle strictly inside (-180, 180) normalises back to that angle |
| Angles.ExactTurnLeavesNoResidual | ChutluV10V3.java:222-225 | turning by exactly the normalised difference leaves a residual of 0: the gun's after-turn check, and the goTo's next aim once it faces the target |
| Angles.Clamp | ChutluV10V3.java:491-495 | the result lies in [min, max] when that range is non-empty, equals the value inside it, and equals min below it |
| Tracks.FirstSighting | ChutluV10V3.java:50-52 | a new record reflects the scan, and its previous snapshot (heading, position, energy) is the scan itself |
| Tracks.Resighting | ChutluV10V3.java:54-80 | an updated record reflects the scan, and its previous snapshot is the old record's heading, position and energy |
| Tracks.Replacement | robocode/ApexV4.java:129-139 | a rebuilt record reflects the scan and carries over the old heading, and the old position too when the bot copies it; with no old record it is a first sighting |
| Tracks.EnemyData.constructor | ChutluV10V3.java:50-52 | a fresh EnemyData object holds the first sighting of the scan |
| Tracks.EnemyData.Update | ChutluV10V3.java:54-80 | update(e, ..., false) moves the current values into the previous snapshot and takes the scan; update(..., true) makes both the scan |
| Tracks.Sighted | ChutluV10V3.java:168-177 | the table gains exactly the sighted name; its record reflects the scan, keeps the old energy as the previous energy, and no other record changes |
| Tracks.Replaced | robocode/ApexV4.java:129-139 | putting a rebuilt record adds exactly the sighted name and changes no other record |
| Targeting.SwitchReasons | ChutluV10V3.java:478-489 | shouldSwitchTarget holds exactly when there is no target, the target is the sighted robot, the target has no record, the target was last seen more than 20 ticks ago, or the sighted robot is more than 80 closer |
| Targeting.FreshTargetIsSticky | ChutluV10V3.java:478-489 | a target seen within 20 ticks is kept against any robot that is not more than 80 closer |
| Targeting.StaleTargetGivesWay | ChutluV10V3.java:478-489 | a target unseen for more than 20 ticks always gives way |
| Targeting.NearerTarget | ChutluV9.java:205-218 | the target afterwards is the old target or the sighted robot |
| Targeting.NearerTargetReasons | ChutluV9.java:205-218 | the sighted robot is taken exactly when there is no target, the target's record is gone, or it is strictly nearer |
| Targeting.NearestSurvivor | ChutluV10V3.java:437-454 | the loop over the records picks a record with the least distance (below Double.MAX_VALUE), and picks none exactly when no distance is below it |
| Targeting.NearestOfNone | ChutluV10V3.java:437-454 | an empty table gives no target, and a table with a finite distance always gives one |
| Gunnery.PowerWithinLegalRange | ChutluV10V3.java:423-430 | the tiered, range-only and conservative powers lie in [1, 3], and drop to 1 at low own energy (under 15, resp. 20) |
| Gunnery.EnergyScaledPowerBounds | robocode/ApexV2.java:273-296 | the energy-scaled power never exceeds 3, is at most 2.5 from 100 out, is capped by energy/8 and enemyEnergy/4 at mid range, and is at least 1 on its fixed tiers |
| Gunnery.TieredPowerFallsWithRange | ChutluV10V3.java:423-430 | a farther robot never gets a stronger bullet under the tiered, range-only or conservative policy |
| Gunnery.BulletSpeed | ChutluV10V3.java:311 | 20 - 3 * power lies in [11, 17] for powers in [1, 3] |
| Gunnery.TravelTime | ChutluV10V3.java:312 | the (long) cast of distance / speed is the number of whole ticks the bullet needs: ticks * speed <= distance < (ticks + 1) * speed |
| Gunnery.LeadReachesFurther | ChutluV10V3.java:394 | the 1.4 lead never predicts fewer ticks than the flight time, nor more than 1.4 times it |
| Gunnery.KeepInField | ChutluV10V3.java:388-389 | a clamped prediction lies within the margin of both walls; without a clamp the point is unchanged |
| Gunnery.BlendWeights | ChutluV10V3.java:317-335 | the blend weights are non-negative and sum to 1; linear-only predictors use the linear estimate alone; only the wall/spin/speed blend uses the lead and only the pattern mix uses the pattern |
| Gunnery.BlendIsConvexCombination | ChutluV10V3.java:317-335 | every predictor's blended angle is the weighted sum of the estimates under its weights |
| Gunnery.CombineEqual | ChutluV10V3.java:317-335 | when all estimates agree, the blend returns that angle |
| Gunnery.StoppedTargetIsAimedAtDirectly | ChutluV10V3.java:385-421 | for a robot with velocity 0 every predictor aims straight at its (clamped) position |
| Gunnery.PowersAreCarried | ChutluV10V3.java:215-237 | the power the gun fires is the power its policy chooses, never above 3 |
| Gunnery.FireCommands | ChutluV10V3.java:215-237 | fire control issues one gun turn, the shortest turn onto the aim, then exactly one fire of the chosen power when the gate opens, and nothing else |
| Gunnery.AfterTurnGateUnderExactHost | ChutluV10V3.java:225-236 | when the host turns the gun exactly, an after-turn gate fires exactly when its heat and energy test passes (cold and more than the power, or not hot and at least the power) and the robot has energy |
| Gunnery.BeforeTurnGateRefusesWideSwings | robocode/ApexV4.java:199-203 | a before-turn gate never fires when the commanded turn is at least its limit |
| Radar.LockTurn | ChutluV10V3.java:456-465 | the corrected lock turn lies in [-180, 180] |
| Radar.LockTurnPassesTarget | ChutluV10V3.java:456-465 | normalising first and then overshooting passes the target in its own direction, by exactly the overshoot |
| Radar.SwitchingLockTurn | ChutluV10V3.java:456-465 | the lock turn lies in [-180, 180], or in [-360, 360] when the doubled one-on-one turn is used |
| Radar.DoubledTurnPassesTarget | ChutluV10V3.java:456-465 | against a single opponent the doubled turn passes any target not dead ahead |
| Radar.RawSignLockTurn | ChutluV10.java:218-225 | the as-written lock turn (sign of the raw angle, then normalise) lies in [-180, 180] |
| Radar.RawSignLockAgreesInRange | ChutluV10.java:218-225 | when the raw angle is already in [-180, 180], the as-written lock equals the corrected one |
| Radar.RawSignLockFallsShort | ChutluV10.java:218-225 | for raw angles in (180, 360 - overshoot] the as-written lock turns the wrong way from the target and does not pass it |
| Radar.RawSignLockFallsShortNegative | ChutluV10.java:218-225 | for raw angles in [-360 + overshoot, -180) the as-written lock likewise stops overshoot degrees short of the target |
| Radar.RawSignLockStandsStill | ChutluV10.java:218-225 | at heading 350, bearing 5, radar 0 the as-written lock turns 0 and misses the target at -5, where the corrected lock turns -10 |
| Radar.RadiansLockPassesTarget | robocode/ApexV4.java:101-111 | the radians lock passes the target by exactly 0.05 radians in its own direction |
| Collisions.BulletDodge | robocode/ApexV4.java:444-449 | onHitByBullet flips the direction, turns by a normalised angle that is square to the robot for a hit from dead ahead, and drives the given distance |
| Collisions.BulletSwerve | ChutluV15.java:332-337 | onHitByBullet flips the direction, turns 30 degrees against the old direction and drives ahead |
| Collisions.WallReverse | robocode/ApexV4.java:454-458 | onHitWall flips the direction, backs off 100 and turns a quarter turn against the old direction |
| Collisions.HitRobot | robocode/ApexV4.java:463-471 | ramming a weak robot (under 20 energy, own energy above 30) fires 3 and keeps the direction; otherwise the direction flips and the robot only backs off |
| Collisions.Collide | ChutluV9.java:527-532 | a collision handler flips moveDirection exactly as its reaction says, changes nothing else, and issues the reaction's calls |
| History.SpinDetected | ChutluV10V3.java:338-358 | no spin bot is reported before five samples |
| History.WallHuggerDetected | ChutluV10V3.java:360-383 | no wall hugger is reported before five samples |
| History.DetectSpinbot | ChutluV10V3.java:338-358 | the loop over the ring computes the spin-bot test on its contents |
| History.DetectWallHugger | ChutluV10V3.java:360-383 | the loop over the ring computes the wall-hugger test on its contents |
| History.AverageSpeed | ChutluV10V3.java:322-326 | the loop computes the mean absolute speed of the ring |
| History.CircularTurnRate | ChutluV10V3.java:402-412 | the loop computes the mean normalised heading change over the ring's window |
| History.AveragePatternHeading | robocode/ApexV2.java:250-262 | the loop computes the mean of the ring's non-zero headings, or the current heading when there are none |
| History.SpinNeedsFastTurningSamples | ChutluV10V3.java:338-358 | a reported spin bot has at least one sample faster than 7 and one heading change larger than 5 degrees |
| History.SpinBySums | ChutluV10V3.java:338-358 | the spin test is exactly: the summed speed exceeds 7 per sample and the summed turn exceeds 5 per sample |
| History.WallHuggerBySums | ChutluV10V3.java:360-383 | the wall-hugger test is exactly: more than 60% of samples near a side and the summed speed under 6 per sample |
| History.FullSpeedCirclerIsSpinbot | ChutluV10V3.java:338-358 | a robot that keeps speed 8 and turns at least 6 degrees per tick is reported as a spin bot |
| History.WallHuggerNeedsNearSlowSamples | ChutluV10V3.java:360-383 | a reported wall hugger has a window of 5 to 8 samples, at least 4 of them near a side, and one slower than 6 |
| History.TurnRateBounded | ChutluV10V3.java:402-412 | the circular turn rate lies in [-180, 180] and is 0 with fewer than two samples |
| History.ConstantHeadingHasNoTurnRate | ChutluV10V3.java:402-412 | a robot with a constant heading has turn rate 0 |
| History.PatternOfConstantHeading | robocode/ApexV2.java:250-262 | a ring holding one non-zero heading throughout gives that heading |
| History.PatternOfClearedRing | robocode/ApexV2.java:250-262 | a cleared ring falls back to the current heading |
| History.Zeros | ChutluV10V3.java:21-24 | a fresh history array holds only zeros |
| History.Cleared | ChutluV10V3.java:240-248 | resetPatternHistory zeroes every slot of every array, keeps their lengths and sets the index to 0 |
| History.Recorded | ChutluV10V3.java:203-207 | a write fills the slot at the index with the sample, changes no other slot, and advances the index modulo 10 |
| History.ClearedRingIsQuiet | ChutluV10V3.java:240-248 | after a reset neither detector fires, the turn rate is 0 and the pattern heading is the current heading |
| History.OneSampleAfterReset | ChutluV10V3.java:203-207 | a write after a reset leaves exactly that sample in slot 0, zeros elsewhere, and the index at 1 |
| Engine.Bot.Valid | ChutluV10V3.java:11-27 | the fields' invariant implies the abstract state is consistent: distinct arrays of the right lengths, the index in range, directions in {-1, 1} |
| Engine.Bot.constructor | ChutluV10V3.java:11-27 | a new robot starts with no records, no target, moveDirection 1 and zeroed history arrays |
| Engine.Bot.ResetHistory | ChutluV10V3.java:240-248 | resetPatternHistory clears the ring in place and changes nothing else |
| Engine.Bot.ZeroSlots | ChutluV10V3.java:240-248 | the reset loop leaves all four arrays zero |
| Engine.Bot.RecordHistory | ChutluV10V3.java:203-207 | the history write updates the arrays and index as Recorded says and changes nothing else |
| Engine.Bot.ObserveInPlace | ChutluV10V3.java:168-177 | the sighting updates an existing EnemyData object in place or puts a new one, and returns the sighted robot's record |
| Engine.Bot.Resight | ChutluV10V3.java:171-173 | updating the object already in the table changes only that robot's record, to its resighting |
| Engine.Bot.Put | ChutluV10V3.java:176 | putting an object not aliased by another entry sets exactly that name's record |
| Engine.Bot.ObserveReplacing | robocode/ApexV4.java:129-139 | the sighting puts a freshly built record and returns it |
| Engine.Bot.RemoveRecord | ChutluV17.java:338-340 | the dead robot's record is removed and nothing else changes |
| Engine.Bot.OnRobotDeath | ChutluV10V3.java:437-454 | the dead robot's record is removed; if it was the target, the death policy either picks the nearest survivor, forgets the target or keeps the name, and clears the history where the bot does; otherwise the target is kept |
| Engine.NewRecord | robocode/ApexV4.java:129-137 | a new EnemyData object holds the rebuilt record |
| Handlers.Sight | robocode/ApexV4.java:119-148 | taking a sighting in keeps the state consistent and leaves a record for the sighted robot |
| Handlers.Noted | robocode/ApexV4.java:123-127 | clearing on a change of robot and noting lastTarget keeps the state consistent |
| Handlers.Observed | robocode/ApexV4.java:129-148 | storing the record leaves the ring and the movement fields unchanged |
| Handlers.NoteStep | robocode/ApexV4.java:123-127 | the in-place step reaches the state Noted describes |
| Handlers.ObserveStep | robocode/ApexV4.java:129-148 | the in-place step reaches the state Observed describes |
| Handlers.SightStep | robocode/ApexV4.java:119-148 | the in-place step reaches the state Sight describes |
| Handlers.Prepared | robocode/ApexV4.java:119-155 | taking a sighting in and writing the history keeps the state consistent with a record for the robot |
| Handlers.PrepareStep | robocode/ApexV4.java:119-155 | the in-place step reaches the state Prepared describes |
| Handlers.LockRadar | ChutluV10V3.java:456-465 | the normalise-first radar lock turns at most 180 degrees and passes the target by exactly the overshoot, in the target's direction |
| Handlers.LockRadarAsWritten | ChutluV10.java:218-225 | the raw-sign lock the ten variants issue is one radar turn of at most 180 degrees |
| Handlers.LockRadarAsWrittenFallsShort | ChutluV10.java:218-225 | the raw-sign lock equals the normalise-first lock while heading + bearing - radarHeading lies in [-180, 180]; for raw in (180, 360 - overshoot] or [-360 + overshoot, -180) it stops overshoot degrees short of the target and does not pass it |
| Handlers.Record | robocode/ApexV4.java:151-155 | the history write records the scan's heading and velocity and the record's position, and changes only the ring |
| Handlers.FireAt | robocode/ApexV4.java:180-205 | fire control only turns the gun and fires, with a power of at most 3 and at most the energy left |
| Handlers.RecordStep | robocode/ApexV4.java:151-155 | the in-place step reaches the state Record describes |
| Handlers.FireStep | robocode/ApexV4.java:180-205 | fire control changes no field and issues FireAt's calls |
| Handlers.Dodge | robocode/ApexV4.java:161-168 | a detected shot flips moveDirection, notes the time and issues the perpendicular turn and the drive; otherwise nothing happens |
| Handlers.DodgeStep | robocode/ApexV4.java:161-168 | the in-place step reaches Dodge's state and calls |
| Handlers.CooldownMove | robocode/ApexV4.java:171-174 | the cooldown movement changes only moveDirection and lastMoveTime, keeps the direction a direction, and only turns and drives |
| Handlers.CooldownMoveRule | robocode/ApexV4.java:171-174 | once 5 ticks have passed the movement turns at most 90 degrees, drives at most 120, notes the time and flips exactly on a draw below 0.15; before that nothing happens |
| Handlers.CooldownMoveStep | robocode/ApexV4.java:171-174 | the in-place step reaches CooldownMove's state and calls |
| Handlers.DodgeAndMoveStep | robocode/ApexV4.java:161-174 | the in-place dodge-then-move reaches the composed outcome |
| Handlers.DodgeAndMoveRule | robocode/ApexV4.java:161-174 | a drop in [0.1, 3] dodges and skips the move; otherwise the cooldown movement runs |
| Handlers.ShotFlip | robocode/ApexV2.java:167-170 | moveDirection flips exactly when the drop is a detected shot, and nothing else changes |
| Handlers.ShotFlipStep | robocode/ApexV2.java:167-170 | the in-place step reaches the state ShotFlip describes |
| Movement.Flip | ChutluV10V3.java:196 | flipping turns a direction into the other direction |
| Movement.ShotWindowsNest | ChutluV10V3.java:193-200 | the shot windows (0.1, 3] ⊆ [0.1, 3] ⊆ (0, 3] nest, and the first two differ only at 0.1 |
| Movement.TurnAndMove | ChutluV10V3.java:297-305 | turn-and-move issues one turn and then one drive, ahead or back |
| Movement.TurnAndMoveTravelsAlong | ChutluV10V3.java:297-305 | the turn is at most 90 degrees and the robot then travels exactly along the intended angle |
| Movement.SmoothMovementShape | ChutluV10V3.java:250-308 | the smooth movement turns at most 90 degrees and drives at most 120 (or the cap); near a wall it drives 100 towards the centre |
| Movement.CalculateMovementOverrides | robocode/ApexV2.java:301-348 | the plan always drives 30: straight away from a robot under 150, straight at one beyond 350, and square to it otherwise |
| Movement.SmartMovementShape | robocode/ApexV2Fixed.java:164-212 | the smart movement turns at most 90 degrees, drives 30, flips on a draw below 0.08, and near a wall travels towards the centre |
| Movement.DodgeTurn | robocode/ApexV4.java:164-165 | the dodge turn is normalised |
| Movement.DodgeIsPerpendicular | robocode/ApexV4.java:164-165 | for a robot dead ahead the dodge turns square, in the current direction |
| Movement.NearestWallIsChosen | ChutluV10V3.java:138-156 | goToWall's point lies off a wall at least as near as every other, with ties going to the first wall tested |
| Movement.ChosenWallIsUnique | ChutluV10V3.java:138-156 | that choice is unique |
| Movement.GoToCommands | ChutluV10V3.java:124-136 | goTo turns the short way and then drives ahead |
| Movement.GoToWallHeadsForNearestWall | ChutluV10V3.java:138-156 | goToWall is goTo to the chosen nearest-wall point |
| Movement.GoToDrivesLeg | ChutluV10V3.java:124-136 | goTo drives exactly the distance to its target |
| Movement.ChunkedAdvance | ChutluV16.java:143-164 | the chunking loop issues the chunks the specification function lists |
| Movement.ChunksCoverDistance | ChutluV16.java:143-164 | the chunks drive the whole distance in pieces of at most 140, each followed by the radar sweep |
| Movement.ChunkedGoToLoop | ChutluV16.java:143-164 | the chunked goTo method issues the calls ChunkedGoTo lists |
| Movement.ChunkedGoToDrives | ChutluV16.java:143-164 | the chunked goTo turns the short way once, then drives the whole leg in chunks of at most 140 with a sweep after each |
| Movement.ChunkedTourLoops | ChutluV16.java:93-103 | the tour loop issues the calls ChunkedTour lists |
| Movement.ChunkedTourDrives | ChutluV16.java:93-103 | the chunked tour drives the sum of its four legs |
| Movement.ApproachInSteps | ChutluV9.java:111-140 | the stepping loop issues the calls Approach lists |
| Movement.ApproachArrives | ChutluV9.java:111-140 | the stepping walk stops within 25 (ARRIVE) of the target without passing it, in steps of at most 120 (STEP) with the radar swept before each |
| Movement.SteppingGoToLoop | ChutluV9.java:111-140 | the stepping goTo method issues the calls SteppingGoTo lists |
| Movement.SteppingGoToArrives | ChutluV9.java:111-140 | the stepping goTo ends within 25 of its target without passing it |
| Movement.SteppingTourLoops | ChutluV9.java:93-104 | the stepping tour loop issues the calls SteppingTour lists |
| Movement.SteppingTourArrives | ChutluV9.java:93-104 | each leg of the stepping corner tour arrives within 25 of its corner |
| Movement.Corners | ChutluV10.java:99-110 | the tour's four corners lie margin in from the walls, are distinct, and each leg crosses the field |
| Movement.CornerTourDrives | ChutluV10.java:99-110 | the X tour is four short-way turns, each followed by a drive, and drives the sum of the legs |
| Movement.Bounce | ChutluV5.java:128-140 | a direction turns inwards at its margin and is otherwise kept |
| Movement.DiagonalHeadingQuadrant | ChutluV5.java:142-152 | the diagonal heading points east exactly for dirX 1 and north exactly for dirY 1; reversing both directions turns it by 180 degrees |
| Movement.DiagonalTurn | ChutluV5.java:142-152 | setDiagonalHeading turns the short way |
| CornerBots.OnScannedRobot | ChutluV10.java:195-242 | the in-place handler reaches ScanOutcome's state and calls |
| CornerBots.ScanTakesSighted | ChutluV10.java:195-242 | a sighting makes the robot the target and lastTarget, rebuilds its record with the old heading and position as the previous snapshot, notes its energy and keeps the other records |
| CornerBots.ScanHistoryRule | ChutluV10.java:195-242 | a sighting of another robot than the last-scanned one leaves only this sighting in the ring; otherwise it overwrites the oldest slot |
| CornerBots.AimRule | ChutluV10.java:218-242 | the raw-sign radar lock with a 5-degree overshoot comes first, the gun turns by the normalised aim, and fires once exactly when the gate opens |
| CornerBots.RunLoopPass | ChutluV10.java:86-111 | one pass issues the sweep and the X tour and changes nothing |
| CornerBots.LoopRule | ChutluV10.java:86-111 | a pass sweeps 45 degrees without a target and 20 with one, then turns the short way onto each corner and drives the sum of the four legs |
| ChutluV10.AimFireRule | ChutluV10.java:247-273 | the tiered power fires exactly when the gun is not hot, own energy covers the power, the robot has energy and the residual is under 12 |
| ChutluV6.AimFireRule | ChutluV6.java:165-182 | the tiered power fires exactly when the gun is cold, own energy exceeds the power, the robot has energy and the residual is under 12 |
| ChutluV17.ScanTakesSighted | ChutluV17.java:161-193 | a sighting makes the robot the target and the previous target and replaces its record by a first sighting; lastEnemyEnergy is untouched |
| ChutluV17.AimFireRule | ChutluV17.java:198-225 | the gun aims circularly when the ring's mean speed exceeds 7 and linearly otherwise, and fires the tiered power exactly when the gun is cold, own energy exceeds the power, the robot has energy and the residual is under 12 |
| ChutluV10V3.Retarget | ChutluV10V3.java:168-186 | the first half of the handler keeps the state consistent and leaves a record for the sighted robot |
| ChutluV10V3.RetargetStep | ChutluV10V3.java:168-186 | the in-place step reaches the state Retarget describes |
| ChutluV10V3.LockAndDodgeStep | ChutluV10V3.java:188-200 | the in-place step reaches LockAndDodge's state and calls |
| ChutluV10V3.RecordAndFireStep | ChutluV10V3.java:202-212 | the in-place step reaches RecordAndFire's state and calls |
| ChutluV10V3.OnScannedRobot | ChutluV10V3.java:167-213 | the in-place handler reaches ScanOutcome's state and calls |
| ChutluV10V3.ScanKeepsConsistent | ChutluV10V3.java:167-213 | a sighting keeps the state consistent, adds only the sighted robot's record, which reflects the scan, and makes it lastTarget |
| ChutluV10V3.ScanTargetRule | ChutluV10V3.java:179-186 | the target is kept or becomes the sighted robot, and it switches exactly for one of shouldSwitchTarget's reasons |
| ChutluV10V3.ScanHistoryRule | ChutluV10V3.java:179-207 | switching to a robot other than the last-scanned one leaves only this sighting in the ring; otherwise the sighting overwrites the oldest slot |
| ChutluV10V3.ScanDodgeRule | ChutluV10V3.java:192-200 | moveDirection flips exactly when the target's energy fell by more than 0.1 and at most 3 |
| ChutluV10V3.ScanDodgeStep | ChutluV10V3.java:196-198 | the 30-unit step is taken exactly on a flip, in the new direction |
| ChutluV10V3.ScanFireRule | ChutluV10V3.java:209-212 | the gun fires only at the target, with at most 3 and at most the energy left |
| ChutluV10V3.SweepOutcome | ChutluV10V3.java:115-120 | the sweep rule changes only the sweep time |
| ChutluV10V3.TrackAndMoveStep | ChutluV10V3.java:102-113 | the in-place step reaches TrackAndMove's state and calls |
| ChutluV10V3.SweepStep | ChutluV10V3.java:115-120 | the in-place step reaches SweepOutcome's state and calls |
| ChutluV10V3.RunLoopPass | ChutluV10V3.java:102-121 | the in-place pass reaches LoopOutcome's state and calls |
| ChutluV10V3.LoopSweepRule | ChutluV10V3.java:102-121 | a pass changes only moveDirection and the sweep time, sweeps fully exactly when a sweep is due or there is no target, and with a target drives at most 60 after turning at most 90 |
| ChutluV9.EngageStep | ChutluV9.java:225-253 | the in-place step reaches Engage's state and calls |
| ChutluV9.OnScannedRobot | ChutluV9.java:184-255 | the in-place handler reaches the composed outcome |
| ChutluV9.ScanTargetRule | ChutluV9.java:184-223 | the record is rebuilt with the old heading and position, lastTarget and the energy are noted, and the robot becomes the target exactly when there is none, the target's record is gone, or it is strictly nearer |
| ChutluV9.EngageKeepsTracks | ChutluV9.java:225-253 | the lock, fire and dodge change only the movement fields |
| ChutluV9.ScanHistoryRule | ChutluV9.java:187-240 | a sighting of another robot than the last-scanned one leaves only this sighting in the ring; otherwise it overwrites the oldest slot |
| ChutluV9.EngageFireRule | ChutluV9.java:260-286 | the raw-sign lock with a 5-degree overshoot comes first, the gun turn follows, and the tiered power fires once exactly when the gun is cold, own energy exceeds the power, the robot has energy and the residual is under 18 |
| ChutluV9.EngageDodgeRule | ChutluV9.java:246-253 | a drop in [0.1, 3] flips moveDirection, notes the time and ends with the perpendicular turn and a 60 drive; otherwise the state stays as recorded |
| ChutluV9.ScanDodgeRule | ChutluV9.java:221-253 | the same dodge rule with the drop measured against the shared lastEnemyEnergy |
| ChutluV9.RunLoopPass | ChutluV9.java:74-109 | the in-place pass reaches LoopOutcome's state and calls |
| ChutluV9.LoopRule | ChutluV9.java:74-109 | without a target the stepping tour arrives within 25 of each corner and nothing changes; with one the strafe turns 35, drives 120 and flips exactly on a draw below 0.12 |
| ApexusBot.Retarget | ApexusBot.java:193-207 | the first half of the handler keeps the state consistent with a record for the sighted robot |
| ApexusBot.RetargetStep | ApexusBot.java:193-207 | the in-place step reaches the state Retarget describes |
| ApexusBot.OnScannedRobot | ApexusBot.java:190-231 | the in-place handler reaches ScanOutcome's state and calls |
| ApexusBot.ScanTargetRule | ApexusBot.java:203-207 | the target is kept or becomes the sighted robot, exactly for one of the switch rule's reasons |
| ApexusBot.ScanDodgeAndFire | ApexusBot.java:213-229 | moveDirection flips exactly when the target's energy fell by more than 0.1 and at most 3, and the gun fires only at the target with at most 3 and the energy left |
| ApexusBot.TrackAndMoveStep | ApexusBot.java:84-121 | the in-place step reaches TrackAndMove's state and calls |
| ApexusBot.RunLoopPass | ApexusBot.java:84-121 | the in-place pass reaches LoopOutcome's state and calls |
| ApexusBot.LoopMovesWithinCap | ApexusBot.java:84-121 | with a tracked target a pass drives at most 60 after turning at most 90, changes only moveDirection and the sweep time, and flips only on a draw below 0.15 |
| ApexV2.SightingRule | robocode/ApexV2.java:112-149 | a sighting makes the robot the target and lastTarget, rebuilds its record carrying only the old heading, notes its energy and writes heading and velocity into the history (alone after a reset) |
| ApexV2.PlanStep | robocode/ApexV2.java:173 | the in-place step stores the plan Planned describes |
| ApexV2.EngageStep | robocode/ApexV2.java:136-173 | the in-place step reaches Engage's state and calls |
| ApexV2.OnScannedRobot | robocode/ApexV2.java:112-174 | the in-place handler reaches the composed outcome |
| ApexV2.EngageFireRule | robocode/ApexV2.java:151-164 | the energy-scaled power fires once exactly when the gun turn is under 10, the gun is cold, own energy exceeds the power and the robot has energy |
| ApexV2.EngagePlanRule | robocode/ApexV2.java:166-173 | the plan changes only the direction and the plan fields: it flips for a shot and again on a draw below 0.08, and drives 30 away, at or square to the robot by range |
| ApexV2.RunLoopPass | robocode/ApexV2.java:72-107 | one pass issues LoopCommands' calls and changes nothing |
| ApexV2.LoopRule | robocode/ApexV2.java:72-107 | a pass sweeps only without a target, then moves once: the stored plan with a tracked target, else a turn to the centre and a 20 step |
| ApexV2.HitWall | robocode/ApexV2.java:378-386 | onHitWall flips the direction, backs off 50 and then turns |
| ApexV2.HitWallTurnsSideOn | robocode/ApexV2.java:378-386 | after the turn the wall lies square on the left |
| ApexV2Fixed.Moved | robocode/ApexV2Fixed.java:147 | the smart movement is one turn and one drive |
| ApexV2Fixed.MoveStep | robocode/ApexV2Fixed.java:147 | the in-place step reaches Moved's state and calls |
| ApexV2Fixed.EngageStep | robocode/ApexV2Fixed.java:113-147 | the in-place step reaches Engage's state and calls |
| ApexV2Fixed.OnScannedRobot | robocode/ApexV2Fixed.java:89-148 | the in-place handler reaches the composed outcome |
| ApexV2Fixed.EngageFireRule | robocode/ApexV2Fixed.java:128-139 | the energy-scaled power fires once exactly when the gun turn is under 10, the gun is cold, own energy exceeds the power and the robot has energy |
| ApexV2Fixed.EngageMoveRule | robocode/ApexV2Fixed.java:141-147 | only moveDirection changes, flipping for a shot and again on a draw below 0.08; the move turns at most 90 and drives 30, towards the centre near a wall |
| ApexV2Fixed.RunLoopPass | robocode/ApexV2Fixed.java:67-84 | each pass only sweeps the radar 45 degrees |
| ApexV3.EngageStep | robocode/ApexV3.java:123-169 | the in-place step reaches Engage's state and calls |
| ApexV3.OnScannedRobot | robocode/ApexV3.java:99-170 | the in-place handler reaches the composed outcome |
| ApexV3.ScanTakesSighted | robocode/ApexV3.java:99-121 | a sighting makes the robot the target and lastTarget, rebuilds its record carrying only the old heading, keeps the other records and notes its energy |
| ApexV3.ScanHistoryRule | robocode/ApexV3.java:102-138 | a sighting of another robot than the last-scanned one leaves only this sighting in the ring; otherwise it overwrites the oldest slot |
| ApexV3.EngageOrder | robocode/ApexV3.java:123-146 | the raw-sign radar lock with a 10-degree overshoot comes first and the gun turn onto the normalised aim second |
| ApexV3.EngageFireRule | robocode/ApexV3.java:140-151 | the conservative power fires once exactly when the gun turn is under 10, the gun is cold, own energy exceeds the power and the robot has energy |
| ApexV3.EngageEvasionRule | robocode/ApexV3.java:153-169 | a drop in [0.1, 3] flips the direction and ends with a 100-unit perpendicular dodge; otherwise a due move turns at most 90; otherwise only the radar and gun move |
| ApexV3.RunLoopPass | robocode/ApexV3.java:72-94 | each pass sweeps 360 degrees without a target and 45 with one |
| ApexV4.Adopt | robocode/ApexV4.java:119-148 | adopting the sighting keeps the state consistent with a record for the robot |
| ApexV4.Registered | robocode/ApexV4.java:119-155 | adopting and recording keeps the state consistent with a record for the robot |
| ApexV4.AdoptStep | robocode/ApexV4.java:119-148 | the in-place step reaches the state Adopt describes |
| ApexV4.AdoptAndRecordStep | robocode/ApexV4.java:119-155 | the in-place step reaches the state Registered describes |
| ApexV4.EngageStep | robocode/ApexV4.java:157-174 | the in-place step reaches Engage's state and calls |
| ApexV4.OnScannedRobot | robocode/ApexV4.java:119-175 | the in-place handler reaches the composed outcome |
| ApexV4.ScanAlwaysTakesSighted | robocode/ApexV4.java:119-148 | a sighting makes the robot the target and lastTarget, carries the old heading and position over, and notes its bearing and energy |
| ApexV4.ScanHistoryRule | robocode/ApexV4.java:119-155 | a sighting of another robot than the last-scanned one leaves only this sighting in the ring; otherwise it overwrites the oldest slot |
| ApexV4.ScanFireRule | robocode/ApexV4.java:180-205 | the gun turns first and fires the tiered power once exactly when the turn is under 20, the gun is cold, own energy exceeds the power and the robot has energy |
| ApexV4.EngageFireRule | robocode/ApexV4.java:180-205 | the same fire rule for a recorded sighting, whatever the drop |
| ApexV4.ScanEvasionRule | robocode/ApexV4.java:157-174 | the drop against the shared lastEnemyEnergy triggers the dodge, which ends the calls; otherwise a due move turns at most 90; otherwise only the gun moves |
| ApexV4.EngageEvasionRule | robocode/ApexV4.java:161-174 | the same evasion rule for a given drop |
| ApexV4.RadarLock | robocode/ApexV4.java:94-112 | 45 degrees without a target; otherwise the lock passes the last absolute bearing by exactly 0.05 radians |
| ApexV4.RunLoopPass | robocode/ApexV4.java:94-112 | each pass only turns the radar |
| ChutluV15.Flipped | ChutluV15.java:140-147 | a drop in (0, 3] flips moveDirection and changes nothing else |
| ChutluV15.Registered | ChutluV15.java:117-167 | the sighting, the flip and the history write keep the state consistent with a record for the robot |
| ChutluV15.FlipStep | ChutluV15.java:140-147 | the in-place step reaches the state Flipped describes |
| ChutluV15.SightFlipStep | ChutluV15.java:117-147 | the in-place step reaches the sighting followed by the flip |
| ChutluV15.RegisterStep | ChutluV15.java:117-167 | the in-place step reaches the state Registered describes |
| ChutluV15.EvadeStep | ChutluV15.java:149-160 | the evasion method issues Evade's calls |
| ChutluV15.EngageStep | ChutluV15.java:135-170 | the calls of a recorded sighting change no field |
| ChutluV15.OnScannedRobot | ChutluV15.java:115-171 | the in-place handler reaches ScanOutcome's state and calls |
| ChutluV15.ScanTakesSighted | ChutluV15.java:115-147 | a sighting makes the robot the target and lastTarget, carries the old heading and position over, notes its energy, and flips exactly for a drop in (0, 3] |
| ChutluV15.EvadeRule | ChutluV15.java:149-160 | the evasion opens with the jittered perpendicular turn, then near a wall drives all the way to the centre, otherwise steps 80 to 180 ahead or back; it never fires |
| ChutluV15.EngageOrder | ChutluV15.java:135-170 | the raw-sign radar lock with a 10-degree overshoot first, the evasion next, then the gun turn |
| ChutluV15.EngageFireRule | ChutluV15.java:177-194 | the tiered power fires once exactly when the gun is not hot, own energy covers the power, the robot has energy and the residual is under 10 |
| ChutluV15.RunLoopPass | ChutluV15.java:64-80 | the loop pass method issues LoopCommands' calls |
| ChutluV15.JitterStepBounds | ChutluV15.java:85-98 | near a wall the step drives all the way to the centre; otherwise it turns at most 30 and drives ahead 70 to 180 |
| ChutluV16.Flipped | ChutluV16.java:225-231 | against a single opponent, counted once the radar turn returns, a drop in (0, 3] flips moveDirection; nothing else changes |
| ChutluV16.Registered | ChutluV16.java:198-238 | the sighting, the flip and the history write keep the state consistent with a record for the robot |
| ChutluV16.FlipStep | ChutluV16.java:225-231 | the in-place step reaches the state Flipped describes |
| ChutluV16.SightFlipStep | ChutluV16.java:198-231 | the in-place step reaches the sighting followed by the flip |
| ChutluV16.RegisterStep | ChutluV16.java:198-238 | the in-place step reaches the state Registered describes |
| ChutluV16.EngageStep | ChutluV16.java:218-253 | the calls of a recorded sighting change no field |
| ChutluV16.OnScannedRobot | ChutluV16.java:195-254 | the in-place handler reaches ScanOutcome's state and calls |
| ChutluV16.ScanTakesSighted | ChutluV16.java:195-231 | a sighting makes the robot the target and lastTarget, carries the old heading and position over, notes its energy, and flips exactly against one opponent for a drop in (0, 3] |
| ChutluV16.SidestepRule | ChutluV16.java:240-250 | no side step against several opponents (counted once the radar turn returns); against one, the jittered perpendicular turn, then, if the robot is away from the walls once that turn returns, 60 ahead or back |
| ChutluV16.EngageOrder | ChutluV16.java:218-253 | the raw-sign radar lock with a 5-degree overshoot first, the side step next, then the gun turn |
| ChutluV16.EngageFireRule | ChutluV16.java:259-275 | the tiered power fires once exactly when the gun is not hot, own energy covers the power, the robot has energy and the residual is under 12 |
| ChutluV16.OpeningRule | ChutluV16.java:166-184 | the opening drive heads for the nearest wall and covers the whole distance to the point 200 off it, in chunks of at most 140 |
| ChutluV16.RunLoopPass | ChutluV16.java:69-105 | the loop pass method issues LoopCommands' calls |
| ChutluV16.OneOnOneStepBounds | ChutluV16.java:113-133 | near a wall the step drives all the way to the centre; otherwise it turns at most 30 and drives 90 to 210 |
| ChutluV5.OnScannedRobot | ChutluV5.java:67-85 | the in-place handler reaches ScanOutcome's state and calls |
| ChutluV5.ScanTakesSighted | ChutluV5.java:67-85 | a sighting makes the robot the target and replaces its record by a first sighting; lastTarget and the energy are untouched, and the never-cleared ring takes the sample |
| ChutluV5.AimFireRule | ChutluV5.java:87-106 | the raw-sign radar lock with a 5-degree overshoot, then the gun turn onto the linear estimate, and the range-only power fires once exactly when the gun is cold, own energy exceeds the power and the residual is under 12 |
| ChutluV5.Bounced | ChutluV5.java:128-140 | the bounce keeps the state consistent |
| ChutluV5.RunLoopPass | ChutluV5.java:43-65 | the in-place pass reaches LoopOutcome's state and calls |
| ChutluV5.LoopRule | ChutluV5.java:43-65 | the course turns inwards at each margin and is kept in between; the robot turns the short way onto the diagonal and drives 200 |
| ChutluV5.OnHitWall | ChutluV5.java:154-159 | the in-place handler reaches HitWall's state and calls |
| ChutluV5.HitWallReverses | ChutluV5.java:154-159 | hitting a wall reverses the course exactly (180 degrees), then turns the short way and drives 150 |

## Left out

- Trigonometry and IEEE rounding. Doubles are exact reals, and sin, cos, atan2, toRadians and toDegrees come in as a `Trig` value of arbitrary total functions. Properties that need the real trigonometric identities are not stated.
- The host's blocking semantics. Each actuator call is returned as a `Command`. Events that the game delivers while a blocking call is running are not interleaved. The values read back after a call are parameters, and only `AfterTurnGateUnderExactHost` assumes the host turns the gun exactly.
- `Math.random()`: every draw is a `Draws` parameter. Lemmas about ranges assume draws in [0, 1).
- `HashMap` iteration order. The nearest-survivor loop visits the records in a chosen order; ties between equally near survivors may resolve to a different name than in the JVM.
- ChutluV2, ChutluV3 and ChutluV4 are not part of this model.
- The commented-out movement in ChutluV9.java:304-371 is not modelled: it is never called.
- ApexV4's `lastEnemyDistance` (robocode/ApexV4.java:144) is written but never read, so the model has no such field.
- Colours and the `setAdjust*` calls have no effect on the modelled state and are left out.
- Movement.ApproachInSteps: ChutluV9's goTo reads its position and heading again before each step. The model assumes the host carries out each turn and drive exactly, so the angle to the target stays fixed and the remaining distance falls by each step. The radar sweep (60 or 20 by whether there is a target) is a parameter.
- Telemetry is taken from one snapshot at the start of each handler (`m.start`) except where the source reads it again after a blocking call.
- The onHitWall reactions of ChutluV6, V10, V15, V16 and V17 are `Steer` constants of their modules: back, a quarter turn and (V15, V16) a drive, with no change of direction. They are run through `Collisions.Collide`, and no lemma is stated about them.
- ChutluV15's steering snapshot after its dodge turn is a parameter (`steering`), not derived from the turn. So are ChutluV16's snapshots after its radar turn (`locked`, read for the opponent count) and after its side-step turn (`steering`, read for the wall test).
- ChutluV10V2 is covered by the `ChutluV10V3` module: its handlers, switch rule, radar lock and movement carry the same constants.
- ApexV2Fixed shares ApexV2's sighting, power policy and predictor constants (the `ApexV2.SIGHTING` value).

## Findings

The bots whose source takes the overshoot's sign from the raw angle issue that lock as written (`Handlers.LockRadarAsWritten`), and their rule lemmas state it. The normalise-first lock (`Radar.LockTurn`, `Handlers.LockRadar`) is the one ChutluV10V3 and ApexusBot compute, and it is the corrected half of the row below.

| source | as written | input that shows it | evidently intended | confidence | as-written member | corrected member |
|---|---|---|---|---|---|---|
| ChutluV10.java:218-225 | the overshoot's sign is taken from the raw angle heading + bearing - radarHeading before it is normalised (also ChutluV5.java:75-78, ChutluV6.java:145-148, ChutluV9.java:226-233, ChutluV15.java:136-138, ChutluV16.java:219-222, ChutluV17.java:177-183, robocode/ApexV2.java:137-144, robocode/ApexV2Fixed.java:114-121, robocode/ApexV3.java:124-131) | heading 350, bearing 5, radar heading 0: raw angle 355, overshoot +5 gives 360, normalised to 0, so the radar does not move while the robot lies at -5 | normalise first, then overshoot in the direction of the normalised angle (as ChutluV10V3.java:456-465 and ApexusBot.java:419-429 do), which turns -10 and passes the robot | not executed | Radar.RawSignLockStandsStill | Radar.LockTurnPassesTarget |
