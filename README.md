# Crook Scooters: track streaming, difficulty and player state, in Dafny

A model of the game logic of Crook Scooters, an endless-runner party game
for up to four players on scooters.

- `game_manager.dfy` (module `Track`) holds the game manager.
  - It lays out the start of the level from template 0.
  - It appends one chunk per frame once the middle of the screen is close to
    the last chunk.
  - At every time milestone it steps the empty-chunk spawn weight and the
    game speed up to a maximum. The speed of the object that moves the track
    follows the game speed.
- `player_movement.dfy` (module `Players`) holds the player component and the
  controller members it uses.
  - The player handlers flip flags: jump, ground re-check, taunt, stun, death
    and join.
  - A death counts the roster players still active. One left opens a short
    tie window; none left while a window is open marks the match tied. The
    game ends when the window closes, or at once in singleplayer.
  - The flags are also modelled as a value (`PlayerFlags`) with the handlers
    as events (`Apply`, `Run`), and the controller's bookkeeping as a value
    (`Roster`, `Die`, `TieWindowEnd`). The lemmas about them cover whole
    event sequences and the tie scenarios.
- `player_icons.dfy` (module `Icons`) holds the lobby icon row: the first n
  icons are shown and the rest hidden.
- `common.dfy` (module `Common`) holds vectors, the engine's integer random
  draw, and counting of true flags.

How the environment enters the model:

- Every engine query is a parameter: the distance check (`closeEnough`),
  `Time.time` (`now`), the box-casts (`groundHit`, `leftHit`, `rightHit`,
  `below`), the input vector, the smoothing filter's output and the frame
  time.
- A random draw is a raw generator output `u`. `Random.Range(lo, hi)` maps it
  to `lo + u % (hi - lo)`, or to `lo` when the range is empty. Every value of
  the range is reachable (`RandomRangeCovers`).
- A coroutine is split at its `WaitForSeconds`. The part before the wait
  runs inside the handler. The part after is a separate method
  (`TauntSequenceEnd`, `StunTimerEnd`, `SetCanCheckOnGroundEnd`,
  `LastPlayerLeftSequenceEnd`) that the environment calls later. Ghost
  counters record how many stun timers, ground-check delays and tie windows
  are still waiting. A taunt sequence needs none: `isTaunting` stays true
  until its end.
- `GameEnd(won)` is recorded as an entry appended to the controller's
  `gameEndCalls`.
- Floats are reals.

Behaviours of the code that the model keeps as they are:

- There is no cap on consecutive empty chunks.
- The random pick ranges over all of `levelParts`, template 0 included.
- One frame fires at most one milestone, however far `Time.time` has run
  past it. The backlog is worked off one milestone per frame.
- With non-negative increase amounts the weight and the speed only ever
  increase (`ChanceNeverDecreases`, `SpeedNeverDecreases`). Both amounts are
  serialized settings, and a negative one makes its value fall at every
  milestone while it is below its maximum. Each can overshoot its maximum by
  less than one increase (`ChanceBounded`, `SpeedBounded`) rather than being
  clamped to it.
- A death of a player who is already dead is counted again
  (`RepeatedDeathReopensWindow`). The roster is not frozen either:
  `InitialisePlayer` appends whenever it runs.

## Model

| member | source | states |
|---|---|---|
| `Common.RandomRange` | Assets/Scripts/GameManager.cs:48 | an integer draw lies in [lo, hi), and is lo when the range is empty |
| `Common.RandomRangeCovers` | Assets/Scripts/GameManager.cs:83 | every value of a non-empty range is the draw for some generator output |
| `Common.CountTrue` | Assets/Scripts/PlayerMovement.cs:339-348 | the number of active entries never exceeds the roster size |
| `Common.CountTrueZero` | Assets/Scripts/PlayerMovement.cs:356 | the active count is zero exactly when no entry is active |
| `Common.CountTrueClear` | Assets/Scripts/PlayerMovement.cs:323-348 | a death of an active player lowers the active count by exactly one; a death of an inactive player leaves it unchanged |
| `Common.CountTrueOne` | Assets/Scripts/PlayerMovement.cs:351 | with entry k active, a count of one holds exactly when every other entry is inactive |
| `Track.SpawnPointOf` | Assets/Scripts/GameManager.cs:75-78 | the template's spawn-point offset is recovered from a chunk's spawn point by undoing the half turn the chunk was placed with |
| `Track.StepChance` | Assets/Scripts/GameManager.cs:91-94 | one milestone never lowers the weight for a non-negative increase, never lifts it to max + increase or beyond, and leaves it alone at or above the maximum |
| `Track.StepSpeed` | Assets/Scripts/GameManager.cs:97-101 | one milestone never lowers the speed for a non-negative increase, never lifts it to maxSpeed + increase or beyond, and leaves it alone at or above the maximum |
| `Track.StartRun` | Assets/Scripts/GameManager.cs:61-70 | the start run of length n has n chunks, all of template 0 |
| `Track.StartRunIsTheChain` | Assets/Scripts/GameManager.cs:63-69 | the start run has chunk 0 at the origin and chunk i at chunk i-1's spawn point, and it is the only such sequence of its length |
| `Track.ChanceNeverDecreases` | Assets/Scripts/GameManager.cs:91-94 | with a non-negative increase the empty-chunk weight never decreases over milestones |
| `Track.ChanceBounded` | Assets/Scripts/GameManager.cs:91-94 | a weight starting below max + increase stays below max + increase forever |
| `Track.ChanceClosedForm` | Assets/Scripts/GameManager.cs:91-94 | after n milestones the weight is the start plus increase times min(n, steps to reach the cap), then it stays put |
| `Track.ReachCapAfter` | Assets/Scripts/GameManager.cs:91 | before the step count the weight is below the cap; at the step count it has reached it |
| `Track.SpeedNeverDecreases` | Assets/Scripts/GameManager.cs:97-101 | with a non-negative increase the game speed never decreases over milestones |
| `Track.SpeedBounded` | Assets/Scripts/GameManager.cs:97-101 | a speed starting below maxSpeed + increase stays below it forever |
| `Track.SpeedSaturates` | Assets/Scripts/GameManager.cs:97 | once the speed reaches maxSpeed, later milestones leave it unchanged |
| `Track.MilestonesIncrease` | Assets/Scripts/GameManager.cs:31 | with a positive interval, the milestone times interval*(k+1) strictly increase in k |
| `Track.DrawBranches` | Assets/Scripts/GameManager.cs:48-56 | a weight of at most 11 sends every draw to the random template; above 11, some draw places template 0 |
| `Track.MoveObjectScript.constructor` | Assets/Scripts/MoveObjectScript.cs:7 | the track mover starts with the given move speed |
| `Track.GameManager.constructor` | Assets/Scripts/GameManager.cs:13-26 | the configuration values are as given and no chunk is spawned yet |
| `Track.GameManager.Awake` | Assets/Scripts/GameManager.cs:28-33 | the original move speed is recorded, the first milestone is one interval in, no milestone has fired, and the chunks are the start run of max(1, levelStartLength) |
| `Track.GameManager.SpawnLevelStart` | Assets/Scripts/GameManager.cs:61-70 | the spawned chunks become the start run of max(1, levelStartLength) chunks from the chunk parent |
| `Track.GameManager.SpawnChunk` | Assets/Scripts/GameManager.cs:73-79 | exactly one chunk of the given template at the given position is appended, earlier chunks unchanged, and its spawn point is returned |
| `Track.GameManager.RandomChunkNumber` | Assets/Scripts/GameManager.cs:81-84 | the random template index is always within levelParts |
| `Track.GameManager.RandomChunkNumberCovers` | Assets/Scripts/GameManager.cs:83 | every template, template 0 included, can be the random pick |
| `Track.GameManager.ChosenTemplate` | Assets/Scripts/GameManager.cs:49-56 | the chosen template is within levelParts, and is 0 whenever the draw is outside [0, 10] |
| `Track.GameManager.ChangeMoveSpeed` | Assets/Scripts/GameManager.cs:107-110 | the track moves at the original move speed times the given speed |
| `Track.GameManager.ChangeGameIntensity` | Assets/Scripts/GameManager.cs:86-105 | the weight and the speed each step only while below their maximum, the track speed follows a speed change, the next milestone is one interval later; the invariant tying all three to the milestone count is kept |
| `Track.GameManager.Update` | Assets/Scripts/GameManager.cs:36-58 | at most one milestone fires, exactly when now >= the milestone; at most one chunk is spawned, exactly when close enough, at the last chunk's spawn point, with the template chosen from a draw over the stepped weight |
| `Players.Apply` | Assets/Scripts/PlayerMovement.cs:323 | an event leaves a player alive exactly when it was alive and the event is not its death |
| `Players.ActiveAfterRun` | Assets/Scripts/PlayerMovement.cs:26 | after any sequence of events a player is alive exactly when it was alive before and no death occurred |
| `Players.DeadNeverMoves` | Assets/Scripts/PlayerMovement.cs:144 | after a death the movement guard of FixedUpdate never holds again, even when a stun later sets canMove |
| `Players.JumpEffect` | Assets/Scripts/PlayerMovement.cs:400-415 | a jump changes the flags exactly when grounded, allowed to jump, alive and not stunned, and then clears onGround and canCheckOnGround |
| `Players.GroundCheckStaysOff` | Assets/Scripts/PlayerMovement.cs:274-278 | canCheckOnGround, once false, stays false through any events until the ground-check delay ends |
| `Players.TickGroundRecheck` | Assets/Scripts/PlayerMovement.cs:80-86 | a frame changes onGround only for a live, airborne player allowed to re-check, and a frame of a dead player changes nothing |
| `Players.TauntRoundTrip` | Assets/Scripts/PlayerMovement.cs:224-271 | a taunt while taunting does nothing; otherwise taunt then end restores jumping, ends the taunt and sets canMove to !tauntIntro, and nothing else changes |
| `Players.StunRoundTrip` | Assets/Scripts/PlayerMovement.cs:300-311 | a stun and its end leave the player unstunned and able to move, and nothing else changes |
| `Players.DeathDecision` | Assets/Scripts/PlayerMovement.cs:331-364 | singleplayer always ends the game; in multiplayer one player left opens the tie window, and none left with a window open marks a tie |
| `Players.Die` | Assets/Scripts/PlayerMovement.cs:313-364 | only the dying entry leaves the race, the mode never changes, at most one game end is appended, windows only open and a tie once marked stays |
| `Players.TieWindowEnd` | Assets/Scripts/PlayerMovement.cs:377-392 | the window closes and one GameEnd(false) is appended; roster, mode and tie stay |
| `Players.DeathIsDie` | Assets/Scripts/PlayerMovement.cs:313-364 | a death of the player at its only roster index changes the controller exactly as `Die` changes the roster value |
| `Players.SingleplayerDeathEnds` | Assets/Scripts/PlayerMovement.cs:332-336 | in singleplayer every death calls GameEnd(false) and leaves the tie flags alone |
| `Players.TieOnlyInWindow` | Assets/Scripts/PlayerMovement.cs:356-362 | a death marks the match tied exactly when in multiplayer, with a tie window open, and nobody active after it |
| `Players.LastTwoDieInWindowTie` | Assets/Scripts/PlayerMovement.cs:339-362 | when the last two active players die, the second inside the window the first opened, the match is tied and no game end has happened yet |
| `Players.SecondDeathAfterWindowNoTie` | Assets/Scripts/PlayerMovement.cs:379-393 | when the window closes before the second death, the game ends once and tied stays as it was |
| `Players.ThreePlayersOneSurvivor` | Assets/Scripts/PlayerMovement.cs:339-393 | with three active players and two deaths, the first changes only the roster, the second opens the window, and at its end the game ends untied with the third the only one active |
| `Players.RepeatedDeathReopensWindow` | Assets/Scripts/PlayerMovement.cs:313-353 | a second death of the same player with one other player left opens a second tie window |
| `Players.MatchController.GameEnd` | Assets/Scripts/PlayerMovement.cs:335 | each call is recorded with its argument, in order |
| `Players.Player.constructor` | Assets/Scripts/PlayerMovement.cs:19-31 | the public and serialized flags (active, canMove, canJump, tauntIntro, stunned, grounded, wall) are as configured, the private ones off |
| `Players.Player.InitialisePlayer` | Assets/Scripts/PlayerMovement.cs:442-476 | the player is appended to the roster; onGround, canJump and tauntIntro are set; join slots 0 to 3 take their spawn location and colour, any other slot keeps them |
| `Players.Player.OnMove` | Assets/Scripts/PlayerMovement.cs:395-398 | the movement input is the value received |
| `Players.Player.Update` | Assets/Scripts/PlayerMovement.cs:78-139 | a dead player is untouched; a live one re-checks the ground only while airborne and allowed, records the wall casts, taunts on down input while grounded and not stunned, and when airborne stuns the player below, changing nothing of it but its flags and stun timers |
| `Players.Player.JumpOnPlayer` | Assets/Scripts/PlayerMovement.cs:184-194 | the player below is stunned, with one more stun timer running |
| `Players.Player.FixedUpdate` | Assets/Scripts/PlayerMovement.cs:141-152 | the player moves only while it can move and is alive, and then makes exactly MovePlayer's move, never toward a wall it touches |
| `Players.Player.MovePlayer` | Assets/Scripts/PlayerMovement.cs:196-221 | without the wall guard nothing moves; with it the input vector is smoothed when grounded or steering, and the movement is zeroed toward a touched wall |
| `Players.Player.Taunt` | Assets/Scripts/PlayerMovement.cs:224-237 | no effect while taunting; otherwise canMove and canJump go off and the taunt begins |
| `Players.Player.TauntSequenceEnd` | Assets/Scripts/PlayerMovement.cs:253-271 | the x input is zeroed if the player can move; canMove is restored only outside the join phase; canJump is restored; the taunt ends |
| `Players.Player.OnJump` | Assets/Scripts/PlayerMovement.cs:400-416 | the jump happens exactly under its guard: onGround and canCheckOnGround go off and one ground-check delay starts |
| `Players.Player.SetCanCheckOnGroundEnd` | Assets/Scripts/PlayerMovement.cs:274-278 | after the delay the ground may be re-checked |
| `Players.Player.GetStunned` | Assets/Scripts/PlayerMovement.cs:294-304 | the player cannot move, is stunned, and one more stun timer runs |
| `Players.Player.StunTimerEnd` | Assets/Scripts/PlayerMovement.cs:306-311 | the player can move and is unstunned, even with another stun still running |
| `Players.Player.CountActivePlayers` | Assets/Scripts/PlayerMovement.cs:339-348 | the loop's result is the number of active players in the roster |
| `Players.Player.PlayerDeath` | Assets/Scripts/PlayerMovement.cs:313-329 | the player is inactive and cannot move, only its own roster entries change, and the controller reacts to the active count that follows |
| `Players.Player.ReactToDeath` | Assets/Scripts/PlayerMovement.cs:331-364 | singleplayer ends the game; one active player opens the tie window; none active with a window open marks the match tied; otherwise nothing changes |
| `Players.Player.LastPlayerLeftSequenceStart` | Assets/Scripts/PlayerMovement.cs:379-390 | the tie window opens |
| `Players.Player.LastPlayerLeftSequenceEnd` | Assets/Scripts/PlayerMovement.cs:385-392 | the tie window closes, and only then GameEnd(false) is called; the controller changes exactly as `TieWindowEnd` changes the roster value |
| `Players.Player.OnTriggerEnter` | Assets/Scripts/PlayerMovement.cs:428-439 | an obstacle contact has the full effect of a death unless god mode is on; otherwise neither the player nor the controller changes |
| `Icons.IconsShown` | Assets/Scripts/Networking/PlayerIcons.cs:9-20 | the number of icons shown is the player count clamped to [0, number of icons] |
| `Icons.PlayerIcons.constructor` | Assets/Scripts/Networking/PlayerIcons.cs:7 | the component holds the given icon array |
| `Icons.PlayerIcons.UpdatePlayerIcons` | Assets/Scripts/Networking/PlayerIcons.cs:9-20 | icon i is active exactly when i < the count, whatever the icons were before, so a second call with the same count changes nothing; the array itself stays the same |

## Left out

- Rendering, animation, tilt, particles and sound: `PlaySound`, `PlayLaugh` and the laugh's `Random.Range(0, 4)`, `anim.Play`, `currentTilt` and the model's rotation. They write no game state.
- Rigidbody physics: gravity, jump and bounce forces, and `rb.velocity`. The box-casts `CheckWall`, `CheckGround` and `CheckPlayerJump` become boolean and player inputs to `Update`.
- Players.Player.Update: the player the downward cast hits is assumed not to be the player itself (`requires below != this`). The cast starts inside the player's own box, and the engine does not report colliders overlapping a cast's start.
- `Vector2.SmoothDamp`: its result is supplied to `MovePlayer`, and its velocity state is not kept.
- Players.Player.MovePlayer: `transform.Translate` moves in the player's local frame. The model adds the movement in world axes, taking the player's transform to be unrotated; the code turns only the child model.
- `SetPlayerDeathLocation`: the death offset, the disabled collider and gravity after half a second are left out. With the collider disabled, a dead player touches no more obstacles. The model lets `OnTriggerEnter` kill a dead player again at any later time (`RepeatedDeathReopensWindow`), which over-approximates the source.
- Track.GameManager.Awake, Track.GameManager.SpawnLevelStart and Track.GameManager.Valid require a non-empty `levelParts`. With none configured the source throws at `levelParts[0]` in `SpawnChunk`, and the model has no exception path for that.
- Track.GameManager.constructor and Track.GameManager.Awake take the public serialized `spawnedChunks` list to start empty (`Awake` requires it). The start run then indexes only chunks that `SpawnLevelStart` itself placed. Chunks pre-filled in the scene are not modelled.
- Players.Player.InitialisePlayer requires the spawn locations and colours to cover join slots 0 to 3. With a shorter list the source has already appended the player and set its flags before it throws. The model has no exception path for that partial effect.
- `OnStart` and quick restart: they call controller members that are not part of this model.
- `Start`: finding the controller by tag and reading components are engine lookups. The controller is a constructor argument, and `InitialisePlayer` is modelled directly.
- `distanceSpawnChunk` and `Vector3.Distance`: the comparison is the boolean `closeEnough`.
- `Random.Range`: the distribution of draws is not modelled, only which values are possible. An empty range is taken to yield its lower bound.
- `WaitForSeconds`: durations are not modelled. The environment decides when the part after a wait runs.
- Float rounding: the game speed, positions and times are exact reals. So the model does not show a float sum landing just below `maxSpeed`.
- Writes by code outside these files: the fields `active`, `canMove`, `tauntIntro`, `gameSpeed`, `emptyChunkSpawnChance` and `spawnedChunks` are public, and other components may write them. The GameManager class of the controller that declares `players`, `singleplayerMode`, `checkingForTie`, `tied`, `godMode`, `spawnLocations` and `GameEnd` is not part of this model. Its members form the abstract record `MatchController`.
- The lobby's networking (`OnlineMatchMaking.cs`) is not part of this model. It only passes the room's player count to `UpdatePlayerIcons`.
