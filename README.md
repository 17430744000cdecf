# ScavengerScramble gameplay core in Dafny

This project models the gameplay logic of ScavengerScramble, a Unity two-player
platformer. The logic is a set of small, frame-driven state machines and bookkeeping
rules:

- the security camera's sweep and its vision check;
- the two jump controllers, with jump-buffer and coyote-time counters;
- the NPC's waypoint patrol;
- hearts, lives and respawning;
- the three lever switches;
- the "caught" panel's countdown;
- the vision-cone mesh.

Each C# component becomes a Dafny `class` with the component's own fields. Its Unity
messages (`Awake`, `Start`, `Update`, `FixedUpdate`, the trigger handlers) are methods.
Each method's postcondition ties the new field values to a pure step function over a
state datatype. Lemmas about those step functions, and about runs of them over a
sequence of frames, state what the components promise:

- the sweep angle never leaves its arc;
- a jump controller never jumps more than its allowance between landings;
- the patrol index stays on the path;
- the game ends at most once per revival;
- the panel stays up exactly as long as the frames add up to less than its linger time;
- the triangle fan indexes only existing vertices.

Engine services are inputs rather than code:

- frame and physics time steps, key and button state;
- ground checks and the distance to a waypoint;
- overlap queries, ray casts and view angles;
- lookups such as `GameObject.Find` and `FindFirstObjectByType`.

Components that refer to one another are given their collaborators explicitly.

Numbers:

- Floats are exact `real` numbers.
- `Mathf.Approximately` follows Unity's formula, with the relative tolerance 1e-6 and the
  absolute floor 8 × `float.Epsilon`.
- `Vector3 ==` is a squared distance below 1e-10.
- C# `int` arithmetic on hearts and lives wraps round at 32 bits (`Unity.Add32`,
  `Unity.Sub32`).

Files:

- `unity.dfy` (module `Unity`): the engine vocabulary, meaning vectors, the `Mathf`
  helpers, 32-bit integers, key codes and the target objects (`Behaviour`, `Renderer`,
  `GameObject`, a text `Label`, a rigid `Body`).
- One module per component:
  - `security_camera.dfy`, `vision_cone.dfy`;
  - `dual_player_controller.dfy`, `player_controller.dfy`, `npc_patrol.dfy`;
  - `lives_manager.dfy`, `player_health.dfy`, `player_respawn.dfy`, `respawn_manager.dfy`,
    `pushable_box.dfy` (the box reset a respawn triggers);
  - `switch_targets.dfy` (target scanning and writing shared by the switches);
  - `toggle_switch.dfy` (`Assets/Scripts/ToggleSwitch.cs`), `toggle_switch_assets.dfy`
    (`Assets/ToggleSwitch.cs`), `toggle_fan_switch.dfy`;
  - `caught_ui.dfy`.

The two `ToggleSwitch` classes share a name in the game's global namespace. They are
separate modules here.

Where the code's callers must meet a condition the code does not check, the model makes
it a precondition:

- **NPC patrol:** ping-pong mode needs two or more waypoints. The component's own comment
  asks for this, and with one waypoint the index leaves the array; the lemma
  `SinglePointPingPongLeavesPath` exhibits that.
- **Switch arrays:** `Start` in both lever switches walks the behaviour array without a
  null check, so the array must exist. The fan switch likewise needs its fan array.
- **Health label:** the health text needs a label or a scene object named `healthText`.
  Damage with a tag other than "Player1" or "Player2" never touches the label, so it
  needs none.
- **Respawn hook:** `PlayerRespawn` needs the health manager that `Start` looks up; the
  code calls it without a null check. On a death it also needs
  `RespawnManager.Instance`, which the code reads without a check after the hearts
  have already been reset (`Ready`, `CheckIfDead`, `RespawnBothPlayers`).

Three details of the code that the model follows:

- **No cooldown:** the security camera has no per-target cooldown and no damage. It
  raises `OnPlayerCaught` once, for the first candidate seen, and stops.
- **Coincident targets:** a candidate at the camera head's own position is not skipped.
  `Vector3.Angle` of a zero vector is 0, so such a candidate counts as inside the cone
  unless it is obstructed. Here the view angle is an input, so the model leaves it to
  that input.
- **Default arguments:** `AddLife` and `LoseLife` default their amount to 1. The model
  always takes the amount explicitly.

## Model

| member | source | states |
|---|---|---|
| SecurityCameraModel.SweepStep | Assets/Scripts/SecurityCamera.cs:43-69 | a paused camera keeps its angle and accumulates the timer until pauseAtEnds, then resets the timer, resumes and negates the direction; a sweeping one moves by speed·dt·dir clamped to ±sweepAngle/2, pauses exactly when the clamped angle is approximately an end, never changes direction mid-sweep, and never leaves the arc |
| SecurityCameraModel.InitialSatisfiesInvariant | Assets/Scripts/SecurityCamera.cs:23-26 | the field initialisers (angle 0, direction +1, not paused, timer 0) satisfy the sweep invariant |
| SecurityCameraModel.SweepRunKeepsInvariant | Assets/Scripts/SecurityCamera.cs:57-68 | over any run of frames the angle stays within ±sweepAngle/2 and the direction stays ±1 |
| SecurityCameraModel.OneFlipPerPause | Assets/Scripts/SecurityCamera.cs:45-55 | over any run, the direction flips exactly as often as a pause ends |
| SecurityCameraModel.DefaultSweepReachesEndAfterOneSecond | Assets/Scripts/SecurityCamera.cs:10-12 | with the defaults (60°, 30°/s, 0.35 s), one second of sweeping from rest reaches +30° and pauses, 0.75 s reaches 22.5° still sweeping, and 0.35 s of pause turns the direction round |
| SecurityCameraModel.FirstSpotted | Assets/Scripts/SecurityCamera.cs:75-89 | the candidate that raises the event is the first one inside the view cone (angle ≤ viewHalfAngle) with no obstruction, and there is none exactly when no candidate qualifies |
| SecurityCameraModel.ConeBoundaryIsInclusive | Assets/Scripts/SecurityCamera.cs:81-83 | a candidate exactly on the cone edge is seen, one beyond it is not, and an obstructed one is not |
| SecurityCameraModel.SecurityCamera.constructor | Assets/Scripts/SecurityCamera.cs:10-26 | the tuning fields as given and the initial sweep state |
| SecurityCameraModel.SecurityCamera.Awake | Assets/Scripts/SecurityCamera.cs:30-35 | an unassigned head defaults to the base transform |
| SecurityCameraModel.SecurityCamera.SweepUpdate | Assets/Scripts/SecurityCamera.cs:43-69 | the new sweep fields are one SweepStep of the old ones |
| SecurityCameraModel.SecurityCamera.VisionUpdate | Assets/Scripts/SecurityCamera.cs:71-90 | the event count grows by one exactly when FirstSpotted finds a candidate, so at most once per frame |
| SecurityCameraModel.SecurityCamera.Update | Assets/Scripts/SecurityCamera.cs:37-41 | the sweep step runs first and the vision check uses the post-sweep angle |
| DualPlayerControllerModel.Press | Assets/Scripts/DualPlayerController.cs:64-68 | a jump press fills the buffer with jumpBufferTime and changes nothing else |
| DualPlayerControllerModel.Ground | Assets/Scripts/DualPlayerController.cs:75-94 | grounded refreshes coyote time, airborne spends it by the step; the jump count is reset to 0 only on a landing (airborne before, grounded now) |
| DualPlayerControllerModel.CanJump | Assets/Scripts/DualPlayerController.cs:119-123 | the three-way jump test is equivalent to buffer > 0 and (coyote > 0 or jumps left) |
| DualPlayerControllerModel.Jump | Assets/Scripts/DualPlayerController.cs:117-141 | a jump fires exactly when CanJump holds, and then counts itself, empties both counters and leaves the ground; otherwise the buffer runs down by the step |
| DualPlayerControllerModel.RestSatisfiesInvariant | Assets/Scripts/DualPlayerController.cs:38-42 | the initial fields satisfy the jump invariant |
| DualPlayerControllerModel.TickKeepsInvariant | Assets/Scripts/DualPlayerController.cs:70-97 | one physics step keeps the jump count within 0..maxJumps, and at 0 while grounded or in coyote time |
| DualPlayerControllerModel.RunKeepsInvariant | Assets/Scripts/DualPlayerController.cs:64-97 | over any sequence of presses and physics steps the jump count never exceeds maxJumps |
| DualPlayerControllerModel.AirborneJumpsBounded | Assets/Scripts/DualPlayerController.cs:119-135 | without ground contact and with coyote time spent, a run fires at most maxJumps − jumpCount jumps |
| DualPlayerControllerModel.MoveDirection | Assets/Scripts/DualPlayerController.cs:101-103 | +1 exactly when right is held (right wins), −1 exactly when only left is held, 0 exactly when neither is |
| DualPlayerControllerModel.Facing | Assets/Scripts/DualPlayerController.cs:109-114 | the pivot yaw becomes −90 moving right, +90 moving left, and is unchanged standing still |
| DualPlayerControllerModel.DualPlayerController.constructor | Assets/Scripts/DualPlayerController.cs:9-42 | the field initialisers: keys A/D/W, one jump, counters at rest |
| DualPlayerControllerModel.DualPlayerController.Awake | Assets/Scripts/DualPlayerController.cs:44-62 | the Rat gets one jump and A/D/W, the Pigeon two jumps and J/L/Space |
| DualPlayerControllerModel.DualPlayerController.Update | Assets/Scripts/DualPlayerController.cs:64-68 | the jump key fills the buffer; otherwise nothing changes |
| DualPlayerControllerModel.DualPlayerController.HandleMove | Assets/Scripts/DualPlayerController.cs:99-115 | only the horizontal velocity follows MoveDirection·moveSpeed, and the pivot turns per Facing when there is one |
| DualPlayerControllerModel.DualPlayerController.HandleJump | Assets/Scripts/DualPlayerController.cs:117-141 | the counters follow Jump, and a jump zeroes the vertical velocity and adds jumpForce |
| DualPlayerControllerModel.DualPlayerController.FixedUpdate | Assets/Scripts/DualPlayerController.cs:70-97 | moves, grounds and jumps in the source's order, and keeps the jump invariant |
| PotControllerLegacyModel.Tick | Assets/Scripts/PlayerController.cs:44-70 | grounded refreshes coyote time, airborne spends it; a jump fires exactly when buffer > 0 and coyote > 0 after that update, and empties both; otherwise the buffer runs down |
| PotControllerLegacyModel.NoJumpWithoutGround | Assets/Scripts/PlayerController.cs:51-64 | with coyote time spent and no grounded step, no sequence of presses and steps fires a jump, and coyote stays spent |
| PotControllerLegacyModel.JumpSpendsCoyote | Assets/Scripts/PlayerController.cs:63-64 | a jump leaves coyote time spent, so there is no second jump before re-grounding |
| PotControllerLegacyModel.PotControllerLegacy.constructor | Assets/Scripts/PlayerController.cs:7-24 | the tuning fields as given and the counters at rest |
| PotControllerLegacyModel.PotControllerLegacy.Update | Assets/Scripts/PlayerController.cs:28-33 | a jump press fills the buffer with jumpBufferTime |
| PotControllerLegacyModel.PotControllerLegacy.FixedUpdate | Assets/Scripts/PlayerController.cs:35-71 | the counters follow Tick; the horizontal velocity is axis·moveSpeed, depth velocity is kept, and a jump sets the vertical one to jumpForce |
| NPCPatrolModel.Advance | Assets/NPCPatrol.cs:78-87 | looping wraps round with % and stays in range; ping-pong turns round at 0 and at the last point and keeps its direction in between |
| NPCPatrolModel.PatrolStep | Assets/NPCPatrol.cs:32-89 | with no points nothing changes; while waiting the timer runs down and index and direction stay; before arrival they stay; on arrival the wait restarts and Advance picks the next point; in every case with points the vertical velocity is one Fall step |
| NPCPatrolModel.StepStaysOnPath | Assets/NPCPatrol.cs:74-88 | one frame keeps the index on the path and the direction ±1, given two or more points in ping-pong mode |
| NPCPatrolModel.RunStaysOnPath | Assets/NPCPatrol.cs:32-89 | any run of frames keeps the index on the path under the same condition |
| NPCPatrolModel.SinglePointPingPongLeavesPath | Assets/NPCPatrol.cs:78-83 | with a single point in ping-pong mode the first arrival sets the index to 1, past the end of the array |
| NPCPatrolModel.NPCPatrol.constructor | Assets/NPCPatrol.cs:7-24 | the path settings as given and index 0, direction +1, no wait, no fall |
| NPCPatrolModel.NPCPatrol.Update | Assets/NPCPatrol.cs:32-89 | the new fields are one PatrolStep of the old ones, and the index stays on the path |
| LivesManagerModel.FullLives | Assets/Scripts/LivesManager.cs:25 | max(1, maxLives): at least 1, and maxLives itself when that is positive |
| LivesManagerModel.AddedLives | Assets/Scripts/LivesManager.cs:35 | the 32-bit sum of lives and amount clamped to 0..maxLives: 0 when the sum is negative, maxLives when it is above, the sum itself when in range, and never outside 0..maxLives for a non-negative maxLives |
| LivesManagerModel.Apply | Assets/Scripts/LivesManager.cs:32-69 | AddLife clamps and reports only a change; LoseLife does nothing at 0 or below, else subtracts without a clamp, always reports, and ends the game exactly when the lives reach 0 or below; ResetLives restores FullLives and reports it |
| LivesManagerModel.GameOverOncePerRevival | Assets/Scripts/LivesManager.cs:41-50 | over any sequence of calls, game overs number at most one plus the number of times the lives are raised back above 0 |
| LivesManagerModel.LosingAloneEndsTheGameOnce | Assets/Scripts/LivesManager.cs:39-63 | a sequence of LoseLife calls alone ends the game at most once |
| LivesManagerModel.LivesRegistry.constructor | Assets/Scripts/LivesManager.cs:6 | the instance slot starts empty |
| LivesManagerModel.LivesManager.constructor | Assets/Scripts/LivesManager.cs:9-19 | the configuration as given, no lives and no events yet |
| LivesManagerModel.LivesManager.Awake | Assets/Scripts/LivesManager.cs:21-28 | a second instance destroys itself and leaves the slot alone; the first takes the slot, starts with FullLives and reports it |
| LivesManagerModel.LivesManager.CurrentLives | Assets/Scripts/LivesManager.cs:30 | the lives left as last stored |
| LivesManagerModel.LivesManager.AddLife | Assets/Scripts/LivesManager.cs:32-37 | the lives and the reports follow Apply for AddLife |
| LivesManagerModel.LivesManager.LoseLife | Assets/Scripts/LivesManager.cs:39-63 | the lives, reports and game overs follow Apply for LoseLife; a surviving player is moved to the respawn point with its rigidbody's velocity cleared, and otherwise no one moves |
| LivesManagerModel.LivesManager.ResetLives | Assets/Scripts/LivesManager.cs:65-69 | the lives and the reports follow Apply for ResetLives |
| RespawnManagerModel.SelectRespawnPoint | Assets/Scripts/RespawnManager.cs:29-41 | the checkpoint when it differs from the origin, else the default spawn point's position, else the origin |
| RespawnManagerModel.RespawnPointHasASource | Assets/Scripts/RespawnManager.cs:29-41 | the respawn point is always the checkpoint, the default spawn point or the origin |
| RespawnManagerModel.OriginCheckpointIsUnset | Assets/Scripts/RespawnManager.cs:9-32 | a checkpoint equal to the origin under Vector3 equality behaves exactly like no checkpoint |
| RespawnManagerModel.TinyCheckpointIsIgnored | Assets/Scripts/RespawnManager.cs:31-32 | a checkpoint at (0.000001, 0, 0) is ignored too |
| RespawnManagerModel.RespawnRegistry.constructor | Assets/Scripts/RespawnManager.cs:5 | the instance slot starts empty |
| RespawnManagerModel.RespawnManager.constructor | Assets/Scripts/RespawnManager.cs:7-9 | the default spawn point as given and the checkpoint at the origin |
| RespawnManagerModel.RespawnManager.Awake | Assets/Scripts/RespawnManager.cs:11-21 | a second instance destroys itself and leaves the slot alone; otherwise this instance takes the slot |
| RespawnManagerModel.RespawnManager.SetCheckpoint | Assets/Scripts/RespawnManager.cs:23-27 | after storing a checkpoint away from the origin it is the respawn point; at the origin the fallback applies |
| RespawnManagerModel.RespawnManager.GetRespawnPoint | Assets/Scripts/RespawnManager.cs:29-41 | the active checkpoint unless it equals the origin, else the default spawn point when there is one, else the origin |
| PlayerHealthModel.TrimStart | Assets/Scripts/PlayerHealth.cs:66 | a suffix of the input with no white space left at its start, and only white space removed |
| PlayerHealthModel.TrimEnd | Assets/Scripts/PlayerHealth.cs:66 | a prefix of the input with no white space left at its end, and only white space removed |
| PlayerHealthModel.Trim | Assets/Scripts/PlayerHealth.cs:66 | a slice s[i..j] of the input with only white space before i and after j, and white space at neither end of the result |
| PlayerHealthModel.TrimCutsOnlyWhiteSpace | Assets/Scripts/PlayerHealth.cs:66 | what TrimEnd keeps of what TrimStart keeps is one slice of the input, with only white space before and after it |
| PlayerHealthModel.HeartRowShape | Assets/Scripts/PlayerHealth.cs:57-66 | the heart row for n ≥ 1 has 2n − 1 characters, 'O' at even and ' ' at odd positions |
| PlayerHealthModel.RepeatIsRowPlusSpace | Assets/Scripts/PlayerHealth.cs:60-64 | n copies of "O " are the heart row followed by one space |
| PlayerHealthModel.TrimmedRepeatIsHeartRow | Assets/Scripts/PlayerHealth.cs:57-66 | trimming n copies of "O " gives the heart row: n "O"s separated by single spaces, empty for 0 |
| PlayerHealthModel.Damaged | Assets/Scripts/PlayerHealth.cs:26-27 | never negative; the hearts minus the amount floored at 0 whenever the subtraction fits in 32 bits; never raised by a non-negative hit |
| PlayerHealthModel.TakeDamageOn | Assets/Scripts/PlayerHealth.cs:22-36 | "Player1" damages only Pigeonton, "Player2" only Squeaks, any other tag changes nothing |
| PlayerHealthModel.DamageLowers | Assets/Scripts/PlayerHealth.cs:22-36 | from non-negative counts, a non-negative hit never raises either count and leaves both non-negative |
| PlayerHealthModel.SetHeartsValue | Assets/Scripts/PlayerHealth.cs:77 | the value clamped to 0..maxHearts: 0 for a negative value, maxHearts above it, the value itself in range |
| PlayerHealthModel.BuildHearts | Assets/Scripts/PlayerHealth.cs:60-64 | the loop appends exactly n copies of "O " |
| PlayerHealthModel.BuildHealthText | Assets/Scripts/PlayerHealth.cs:57-66 | the text is "Pigeonton: " + the first heart row + "\nSqueaks: " + the second |
| PlayerHealthModel.PlayerHealthManager.constructor | Assets/Scripts/PlayerHealth.cs:6-10 | the label and maxHearts as given, both counts 0 |
| PlayerHealthModel.PlayerHealthManager.UpdateHealthUI | Assets/Scripts/PlayerHealth.cs:52-67 | an unassigned label is replaced by the scene's healthText object, which then shows the two heart rows; an assigned label keeps its place and the scene's label, when it is another one, is left unchanged |
| PlayerHealthModel.PlayerHealthManager.Start | Assets/Scripts/PlayerHealth.cs:12-17 | both counts become maxHearts and are shown; the scene's label is touched only when it is the label drawn on |
| PlayerHealthModel.PlayerHealthManager.TakeDamage | Assets/Scripts/PlayerHealth.cs:22-36 | the counts follow TakeDamageOn; a player tag refreshes the label, and any other tag leaves it alone and needs no label; the scene's label is touched only when it is the label drawn on |
| PlayerHealthModel.PlayerHealthManager.DamagePlayer1 | Assets/Scripts/PlayerHealth.cs:39-42 | the same as TakeDamage("Player1", amount), with the same label framing |
| PlayerHealthModel.PlayerHealthManager.DamagePlayer2 | Assets/Scripts/PlayerHealth.cs:44-47 | the same as TakeDamage("Player2", amount), with the same label framing |
| PlayerHealthModel.PlayerHealthManager.GetPlayer1Hearts | Assets/Scripts/PlayerHealth.cs:72 | Pigeonton's current count; SetPlayer1Hearts's contract reads it back as the clamped value |
| PlayerHealthModel.PlayerHealthManager.GetPlayer2Hearts | Assets/Scripts/PlayerHealth.cs:73 | Squeaks's current count; SetPlayer2Hearts's contract reads it back as the clamped value |
| PlayerHealthModel.PlayerHealthManager.SetPlayer1Hearts | Assets/Scripts/PlayerHealth.cs:75-79 | Pigeonton's count becomes SetHeartsValue(value), Squeaks's is kept, and both are shown; GetPlayer1Hearts then returns the clamped value; the scene's label is touched only when it is the label drawn on |
| PlayerHealthModel.PlayerHealthManager.SetPlayer2Hearts | Assets/Scripts/PlayerHealth.cs:81-85 | Squeaks's count becomes SetHeartsValue(value), Pigeonton's is kept, and both are shown; GetPlayer2Hearts then returns the clamped value; the scene's label is touched only when it is the label drawn on |
| PlayerRespawnModel.RestoredHearts | Assets/Scripts/PlayerRespawn.cs:43-44 | clamp(3, 0, maxHearts): 3 when maxHearts ≥ 3, else maxHearts |
| PlayerRespawnModel.ForwardedTag | Assets/Scripts/PlayerRespawn.cs:19-22 | "Player1" damages player 1 and every other tag damages player 2 |
| PlayerRespawnModel.AfterHit | Assets/Scripts/PlayerRespawn.cs:17-38 | a hit that leaves the damaged player at 0 restores both players to RestoredHearts; otherwise only the damaged player's count drops, floored at 0 |
| PlayerRespawnModel.HitNeverLeavesPlayerHeartless | Assets/Scripts/PlayerRespawn.cs:17-44 | with maxHearts ≥ 1, the damaged player has hearts after any hit |
| PlayerRespawnModel.DeathRestoresThree | Assets/Scripts/PlayerRespawn.cs:30-44 | with maxHearts ≥ 3, a death brings both players back to 3 hearts |
| PlayerRespawnModel.SpawnSpotsDiffer | Assets/Scripts/PlayerRespawn.cs:47-56 | the two respawn spots, 2 units apart, are never equal under Vector3 equality |
| PlayerRespawnModel.PlayerRespawn.constructor | Assets/Scripts/PlayerRespawn.cs:5-7 | the collaborators (respawn slot, the two players, the boxes) as given, no health manager and no tag yet |
| PlayerRespawnModel.PlayerRespawn.Start | Assets/Scripts/PlayerRespawn.cs:9-14 | records the health manager found and the object's own tag |
| PlayerRespawnModel.PlayerRespawn.TakeDamage | Assets/Scripts/PlayerRespawn.cs:17-25 | the counts follow AfterHit and maxHearts is kept; on a death both players move to the respawn point plus (−1, 0.5, 0) and (1, 0.5, 0) and every box is reset, otherwise nobody and no box moves; the players' velocity and rigidbody flag are always kept, and the scene's label is touched only when it is the label drawn on |
| PlayerRespawnModel.PlayerRespawn.CheckIfDead | Assets/Scripts/PlayerRespawn.cs:28-38 | respawns both players and resets the boxes exactly when this player's count is 0 or below, and otherwise changes no count, position or box; the players' velocity and rigidbody flag are always kept, and the scene's label is touched only when it is the label drawn on |
| PlayerRespawnModel.PlayerRespawn.RespawnBothPlayers | Assets/Scripts/PlayerRespawn.cs:40-65 | both counts become RestoredHearts, the players move to their spots beside the respawn point with velocity and rigidbody flag kept, and every box found is at rest at its recorded start; the scene's label is touched only when it is the label drawn on |
| PlayerRespawnModel.PlayerRespawn.MovePlayers | Assets/Scripts/PlayerRespawn.cs:52-56 | each player found is put at the respawn point plus its offset, player 2 last; only positions change, velocity and rigidbody flag are kept |
| PushableBoxModel.PushableBox.constructor | Assets/Scripts/PushableBox.cs:12-14 | a box at rest at its position, with the start not yet recorded (zero) |
| PushableBoxModel.PushableBox.Start | Assets/Scripts/PushableBox.cs:29-34 | the current position becomes the start |
| PushableBoxModel.PushableBox.ResetBox | Assets/Scripts/PushableBox.cs:53-60 | both velocities become zero and the box is back at its start |
| PushableBoxModel.ResetBoxes | Assets/Scripts/PlayerRespawn.cs:58-62 | after the loop every box found is at rest at its start, and no start changes |
| SwitchTargets.EventFor | Assets/Scripts/ToggleSwitch.cs:95 | onTurnOn exactly when the new state is on, onTurnOff exactly when it is off |
| SwitchTargets.FirstBehaviourState | Assets/Scripts/ToggleSwitch.cs:54-55 | the enabled flag of the first non-null behaviour, and none exactly when every entry is null |
| SwitchTargets.AdoptedState | Assets/Scripts/ToggleSwitch.cs:54-59 | the first object's active flag wins over renderers[0], which wins over the first behaviour, which wins over the current state |
| SwitchTargets.ScanBehaviours | Assets/Scripts/ToggleSwitch.cs:54-55 | the early-exit loop computes FirstBehaviourState |
| SwitchTargets.FirstNonNullIsFirst | Assets/Scripts/ToggleSwitch.cs:54-55 | a non-null entry with only nulls before it is the first non-null entry |
| SwitchTargets.SetBehavioursEnabled | Assets/Scripts/ToggleSwitch.cs:100-101 | every non-null behaviour's enabled flag equals the state; null entries and a missing array are skipped |
| SwitchTargets.SetRenderersEnabled | Assets/Scripts/ToggleSwitch.cs:102-103 | every non-null renderer's enabled flag equals the state |
| SwitchTargets.SetObjectsActive | Assets/Scripts/ToggleSwitch.cs:104-105 | every non-null object's active flag equals the state |
| ScriptsToggleSwitchModel.PromptText | Assets/Scripts/ToggleSwitch.cs:129 | "Press {key} to turn off" when on and "Press {key} to turn on" when off |
| ScriptsToggleSwitchModel.PromptOffersTheOtherState | Assets/Scripts/ToggleSwitch.cs:129 | the last word of the prompt, read back, is the state a toggle switches to: the opposite of the current one |
| ScriptsToggleSwitchModel.PromptTellsStatesApart | Assets/Scripts/ToggleSwitch.cs:129 | the prompt reads differently in the two states, since each offers a different state |
| ScriptsToggleSwitchModel.ToggleSwitch.constructor | Assets/Scripts/ToggleSwitch.cs:12-43 | the targets and settings as given, the player out of range and the state on |
| ScriptsToggleSwitchModel.ToggleSwitch.ApplyAllTargets | Assets/Scripts/ToggleSwitch.cs:98-108 | every non-null behaviour, renderer and object equals isOn afterwards, and the prompt root changes only when it is one of the target objects |
| ScriptsToggleSwitchModel.ToggleSwitch.ShowPrompt | Assets/Scripts/ToggleSwitch.cs:124-131 | the prompt's root shows or hides, and showing it rewrites the text to PromptText for the current state |
| ScriptsToggleSwitchModel.ToggleSwitch.AdoptInitialState | Assets/Scripts/ToggleSwitch.cs:54-59 | isOn becomes AdoptedState of the targets' first entries |
| ScriptsToggleSwitchModel.ToggleSwitch.Start | Assets/Scripts/ToggleSwitch.cs:51-64 | adopts the initial state, applies it to every target and hides the prompt |
| ScriptsToggleSwitchModel.ToggleSwitch.OnTriggerEnter | Assets/Scripts/ToggleSwitch.cs:66-71 | only the player tag puts the player in range and shows the prompt |
| ScriptsToggleSwitchModel.ToggleSwitch.OnTriggerExit | Assets/Scripts/ToggleSwitch.cs:73-78 | only the player tag takes the player out of range and hides the prompt |
| ScriptsToggleSwitchModel.ToggleSwitch.Toggle | Assets/Scripts/ToggleSwitch.cs:86-96 | negates isOn, applies it everywhere, refreshes the prompt while in range, and fires exactly the matching event; the refreshed prompt offers to switch back to the state before the toggle; out of range the prompt root changes only as one of the target objects, and the text not at all |
| ScriptsToggleSwitchModel.ToggleSwitch.Update | Assets/Scripts/ToggleSwitch.cs:80-84 | toggles exactly when the player is in range and the use key is pressed, then the prompt is up and offers the other state; otherwise no state, event, target or prompt changes |
| AssetsToggleSwitchModel.ToggleSwitch.constructor | Assets/ToggleSwitch.cs:9-32 | the targets and settings as given, the player out of range and the state on |
| AssetsToggleSwitchModel.ToggleSwitch.ApplyAllTargets | Assets/ToggleSwitch.cs:71-81 | every non-null behaviour, renderer and object equals isOn afterwards |
| AssetsToggleSwitchModel.ToggleSwitch.AdoptInitialState | Assets/ToggleSwitch.cs:43-48 | isOn becomes AdoptedState of the targets' first entries |
| AssetsToggleSwitchModel.ToggleSwitch.Start | Assets/ToggleSwitch.cs:40-52 | adopts the initial state and applies it to every target |
| AssetsToggleSwitchModel.ToggleSwitch.OnTriggerEnter | Assets/ToggleSwitch.cs:54 | only the player tag puts the player in range |
| AssetsToggleSwitchModel.ToggleSwitch.OnTriggerExit | Assets/ToggleSwitch.cs:55 | only the player tag takes the player out of range |
| AssetsToggleSwitchModel.ToggleSwitch.Toggle | Assets/ToggleSwitch.cs:63-69 | negates isOn, applies it everywhere and fires exactly the matching event |
| AssetsToggleSwitchModel.ToggleSwitch.Update | Assets/ToggleSwitch.cs:57-61 | toggles exactly when the player is in range and the use key is pressed; otherwise nothing changes |
| ToggleFanSwitchModel.FanState | Assets/Scripts/ToggleFanSwitch.cs:42-45 | the enabled flag of the first non-null fan, else the current state |
| ToggleFanSwitchModel.ToggleFanSwitch.constructor | Assets/Scripts/ToggleFanSwitch.cs:9-31 | the fans and settings as given, the player out of range and the state on |
| ToggleFanSwitchModel.ToggleFanSwitch.Start | Assets/Scripts/ToggleFanSwitch.cs:39-47 | isOn becomes FanState of the fans, and no fan is written |
| ToggleFanSwitchModel.ToggleFanSwitch.OnTriggerEnter | Assets/Scripts/ToggleFanSwitch.cs:49-52 | only the player tag puts the player in range |
| ToggleFanSwitchModel.ToggleFanSwitch.OnTriggerExit | Assets/Scripts/ToggleFanSwitch.cs:54-57 | only the player tag takes the player out of range |
| ToggleFanSwitchModel.ToggleFanSwitch.Toggle | Assets/Scripts/ToggleFanSwitch.cs:65-79 | negates isOn, sets every non-null fan's enabled flag to it, and fires exactly the matching event |
| ToggleFanSwitchModel.ToggleFanSwitch.Update | Assets/Scripts/ToggleFanSwitch.cs:59-63 | toggles exactly when the player is in range and the use key is pressed; otherwise nothing changes |
| CaughtUIModel.Tick | Assets/Scripts/CaughtUI.cs:10-20 | a stopped countdown changes nothing; a running one loses dt and hides the panel on the frame it reaches 0 or below, and only then |
| CaughtUIModel.Show | Assets/Scripts/CaughtUI.cs:25-29 | the panel comes up and the countdown restarts at the full lingerTime, whatever was left |
| CaughtUIModel.SumNonNegative | Assets/Scripts/CaughtUI.cs:14 | frame times that never go backwards add up to a non-negative total |
| CaughtUIModel.StoppedCountdownIsFrozen | Assets/Scripts/CaughtUI.cs:12 | once the timer is 0 or below, no run of frames changes anything |
| CaughtUIModel.PanelLingers | Assets/Scripts/CaughtUI.cs:10-20 | with non-negative frame times, a shown panel with t seconds left is still up after a run exactly when the frames add up to less than t, and t minus their total is then left |
| CaughtUIModel.NonPositiveLingerKeepsPanel | Assets/Scripts/CaughtUI.cs:6-29 | a lingerTime of 0 or less never starts the countdown, so the panel stays up |
| CaughtUIModel.CaughtUI.constructor | Assets/Scripts/CaughtUI.cs:5-8 | the panel as given, lingerTime 1.5 and the timer at 0 |
| CaughtUIModel.CaughtUI.Update | Assets/Scripts/CaughtUI.cs:10-20 | the timer and the panel's flag follow Tick; without a panel only the timer runs |
| CaughtUIModel.CaughtUI.ShowCaught | Assets/Scripts/CaughtUI.cs:23-30 | with a panel, the timer and flag follow Show; without one nothing changes |
| VisionConeModel.EffectiveSegments | Assets/Scripts/VisionCone.cs:67 | the segment count raised to at least 6 |
| VisionConeModel.RayAnglesSpanTheCone | Assets/Scripts/VisionCone.cs:82-87 | ray 0 points at −viewHalfAngle, ray `segments` at +viewHalfAngle, and consecutive rays are one equal step apart |
| VisionConeModel.RayDistance | Assets/Scripts/VisionCone.cs:90-100 | with clipping on and a hit, the hit distance; otherwise the view distance; never more than the view distance |
| VisionConeModel.FanTrianglesShape | Assets/Scripts/VisionCone.cs:107-113 | 3·segments indices, triangle i is (0, i+1, i+2), every index names one of the segments+2 vertices, and consecutive triangles share an edge |
| VisionConeModel.VisionCone.constructor | Assets/Scripts/VisionCone.cs:8-20 | the linked camera and settings as given |
| VisionConeModel.VisionCone.RayEnd | Assets/Scripts/VisionCone.cs:87-103 | the end of ray i is its direction scaled by RayDistance, at height yOffset |
| VisionConeModel.VisionCone.WriteRay | Assets/Scripts/VisionCone.cs:103-105 | vertex and UV i+1 take ray i's end and (i/segments, 1), and the earlier ones are kept |
| VisionConeModel.VisionCone.WriteTriangle | Assets/Scripts/VisionCone.cs:107-113 | writing (0, i+1, i+2) after the first i triangles gives the first i+1 triangles of the fan |
| VisionConeModel.VisionCone.BuildFan | Assets/Scripts/VisionCone.cs:69-114 | fresh arrays of segments+2 vertices and UVs and 3·segments indices: the centre at (0, yOffset, 0) with UV (0.5, 0), the ray ends with UVs (i/segments, 1), and the fan's triangles |
| VisionConeModel.VisionCone.Rebuild | Assets/Scripts/VisionCone.cs:65-122 | raises the segment count to at least 6, then hands BuildFan's arrays to the mesh |
| VisionConeModel.VisionCone.LateUpdate | Assets/Scripts/VisionCone.cs:38-53 | a linked camera's view distance and half-angle are copied unless both already match approximately, so afterwards they agree with it up to Mathf.Approximately; then the cone is rebuilt, with the same array contents Rebuild states |
| Unity.Clamp | Assets/Scripts/SecurityCamera.cs:59 | Mathf.Clamp: a value below lo gives lo, a value not below lo but above hi gives hi, a value between them is kept, and the result is within ordered bounds |
| Unity.FirstNonNull | Assets/Scripts/ToggleSwitch.cs:54-55 | the index of the first non-null entry (or the length), with only nulls before it |

## Left out

- Quaternion and transform composition are not modelled: the sweep's rotation of the base and head transforms, the NPC's facing and movement through `CharacterController.Move`, and the ray directions of the vision cone. Only the scalar angles and indices are modelled; directions and view angles are inputs.
- Rendering is not modelled: the lever rotation and indicator colours of the switches (`ApplyStateVisuals`), gizmos, the animator, and the mesh upload (`Clear`, normals, bounds). The mesh is modelled as the three arrays Rebuild hands over.
- `VisionCone.OnValidate` and `EnsureMesh` are editor and engine set-up; they are not modelled.
- Physics queries (`OverlapSphere`, `Raycast`, `CheckSphere`) and `Vector3.Angle` are inputs. The cone's ray cast is assumed to report hits only within the distance it is given (`RaycastHonoursRange`), as the engine documents.
- Float rounding is not modelled: every float is an exact real, so single-precision rounding (in `(float)i / segments`, or in sums of frame times) is not captured.
- `Debug.Log` calls and `DontDestroyOnLoad` have no modelled effect.
- `GameObject.Find`, `FindFirstObjectByType` and `GetComponent` lookups are parameters or fields given to the model.
- UnityEvent listeners are not run: each event firing is recorded in a sequence or a counter.
- ScriptsToggleSwitchModel.ToggleSwitch: the text component exists only when TextMesh Pro is present, so the prompt text is an optional `Label`. Without it, only the prompt's root object is shown or hidden.
- PlayerHealthModel.PlayerHealthManager.UpdateHealthUI: requires that a label is assigned or found in the scene. The source would throw a null reference exception otherwise, and exceptions are not modelled.
- VisionConeModel.VisionCone.Rebuild: `segments * 3` and `segments + 2` are not wrapped at 32 bits. A segment count that large could not be allocated anyway.
- PlayerHealthModel.Repeat: its length is not stated as an ensures. `HeartRowShape` and `TrimmedRepeatIsHeartRow` state the shape of the trimmed row instead.
- The ping-pong patrol with a single waypoint is excluded by a precondition on `NPCPatrolModel.NPCPatrol.Update`. Its first out-of-range index is exhibited by `SinglePointPingPongLeavesPath`.
- `Assets/FanPush.cs` is not part of this model: rigidbody forces, falloff curves, Perlin noise and sphere casts are physics and floating-point numerics. A fan is modelled only as a `Behaviour` whose enabled flag the fan switch writes.
- `Assets/Scripts/CameraController.cs` is not part of this model: it is frame-dependent float interpolation of the view.
- PushableBox pushing is not modelled: `Awake`'s rigidbody settings and `OnCollisionStay`'s force and speed clamp are physics. Only the start record and `ResetBox` are.
- PushableBoxModel.PushableBox.ResetBox: the start rotation is not restored in the model, because rotations are quaternions, which are left out.
- `Assets/Scripts/LivesUI.cs` and `Assets/Scripts/LivesUIBoth.cs` are not part of this model: they only subscribe to events and write text.
