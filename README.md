# FPSCore gameplay core in Dafny

FPSCore is a first-person shooter framework for Unreal Engine. This project models its three
pieces of discrete gameplay logic and proves properties about them:

- **The weapon controller** (`AWeapon`). It handles starting and stopping fire, live and dry
  shots, per-pellet recoil, rapid-fire prevention, and starting a reload. It also does the
  ammunition arithmetic that runs when a reload completes: the clip is refilled from the player's
  ammunition pool.
- **The locomotion state machine of the player character** (`ACharacterCore`). It covers the
  Walk, Crouch, Sprint, Slide and Vault states and the input flags (crouch held, wants to sprint,
  wants to slide, performed slide, wants to aim). It also covers the discrete part of the
  per-frame update and the step scan that decides where a vault lands.
- **The weapon inventory** (`UInventoryComponent`). It covers slot selection by scrolling with
  wrap-around, weapon swaps that wait for an unequip animation, the bookkeeping when a new weapon
  is spawned into a slot, and the policy applied when the current weapon refuses to reload.

Each of these is a class, because the source updates their fields in place:
- `WeaponCore.Weapon` and its shared ammunition pool `WeaponCore.AmmoStore`;
- `CharacterCore.Character`;
- `InventoryCore.Inventory`, over a `map<int, Weapon>`.

Every class has a value snapshot: `Weapon.State()`, `Character.View(weapon)` and
`Inventory.Status()`. Every method that changes state ensures that the new snapshot is a
specification function of the old snapshot and the inputs. The controller's properties are then
proved as lemmas about those functions.

Two loops stay loops:
- the per-pellet loop of `Fire` (`Weapon.FirePellets`);
- the step scan of `CheckVault` (`VaultScan.ScanSteps`).

Each is proved against a fold over its input (`AfterPellets` and `ScanPrefix`). The fold is in
turn characterised without reference to the loop (`AfterPelletsCounts`, `ScanOutcomeMeans`).

Engine services become inputs:
- Collision queries: headroom (`HasSpaceToStandUp`), the wall and ledge sweeps, the per-sample
  vault traces, and the mantle sweep.
- Movement queries: whether the character is on the ground or falling, the sign of the forward
  velocity, the relative movement angle, and the floor-angle sample.
- Other queries: whether a player controller is present, and the time left on the shot timer.

A timer is recorded as the last instruction given to its handle (`Common.Timer`). The scheduler
that later calls back is not modelled. The callbacks themselves are methods the environment calls:
- `Weapon.Fire`, `ReadyToFire`, `EnableFire` and `UpdateAmmo`;
- `Character.ReleaseCrouch` (slide stop) and `Character.TimelineProgress`;
- `Inventory.UnequipReturn` and `Inventory.Reload` (retry).

Like the engine, `SetTimer` with a non-positive delay clears the timer instead of arming it.

Behaviour of the code that the model keeps as written:
- **Chamber bonus.** A completed reload counts the chambered round only when the clip still holds
  a round. Capacity 30, an empty chamberable clip and a pool of 100 end at 30 / 70
  (`EmptyChamberableReload`).
- **One round per shot.** A shot removes one round from the clip whatever its pellet count, while
  the burst's shot counter advances once per pellet.
- **Dry fire.** A weapon that may fire and is not reloading dry-fires whenever a live shot is not
  allowed. This includes the case where it is merely not ready.
- **End of a vault.** When the vault timeline completes, the state stays Vault unless a sprint is
  wanted.
- **Standing up on release.** With hold-to-crouch, releasing crouch stands the character up to Walk
  without consulting headroom.
- **Aiming lag.** The aiming flag of a frame is computed before that frame's deferred slide and
  vault check, so a frame can end aiming while sliding (`AimingLagsDeferredSlide`).
- **Stale slot after a swap.** `SwapWeapon` never assigns the current slot; only `UpdateWeapon`
  does. After a completed swap, the slot of the previously current weapon still reads as current,
  so a direct request for it is ignored (`SwapBackToOriginalSlotIgnored`).
- **Pending swap with no timer.** An unequip animation of non-positive length leaves a swap
  pending with its timer cleared. Scrolling then only retargets the pending swap or is dropped,
  until a direct slot request completes it.
- **Unbounded ChangeState retry.** The ChangeState reload policy recurses without bound when the
  Walk profile does not allow reloading. The model bounds the recursion with fuel and proves that
  no amount of fuel helps (`ChangeStateNeverRecovers`).

## Model

| member | source | states |
|---|---|---|
| WeaponCore.RefillAmmo | Source/FPSCore/Private/WeaponCore/Weapon.cpp:615-644 | clip + pool is conserved; a non-negative pool stays non-negative; a large enough pool fills the clip to capacity + bonus; otherwise the whole pool goes into the clip and the pool becomes 0; the clip never exceeds capacity + bonus |
| WeaponCore.RefillKeepsClipInRange | Source/FPSCore/Private/WeaponCore/Weapon.cpp:615-644 | from a clip between 0 and capacity (+1 if chamberable) and a non-negative pool, the refill keeps the clip in that range, never shrinks it, and never grows the pool |
| WeaponCore.RefillMakesProgress | Source/FPSCore/Private/WeaponCore/Weapon.cpp:536-548 | a refill that the reload guard lets start (clip not full, pool positive, capacity positive) strictly grows the clip and shrinks the pool |
| WeaponCore.EmptyChamberableReload | Source/FPSCore/Private/WeaponCore/Weapon.cpp:615-644 | capacity 30, empty chamberable clip, pool 100: clip 30, pool 70 |
| WeaponCore.ShortPoolReload | Source/FPSCore/Private/WeaponCore/Weapon.cpp:637-643 | capacity 30, empty clip, pool 20: clip 20, pool 0 |
| WeaponCore.PartialChamberableReload | Source/FPSCore/Private/WeaponCore/Weapon.cpp:615-636 | capacity 30, 5 rounds left, chamberable, pool 100: clip 31, pool 74 |
| WeaponCore.KicksAt | Source/FPSCore/Private/WeaponCore/Weapon.cpp:494-513 | the k-th recoil call of a run samples with k more shots fired than the first |
| WeaponCore.KicksLength | Source/FPSCore/Private/WeaponCore/Weapon.cpp:275-302 | n recoil calls apply n samples |
| WeaponCore.SemiAutomaticKicksOnce | Source/FPSCore/Private/WeaponCore/Weapon.cpp:500-511 | a semi-automatic weapon moves the aim at most once per burst: on the first call, when no shot has been fired, with a controller and valid curves |
| WeaponCore.AutomaticKicksEveryShot | Source/FPSCore/Private/WeaponCore/Weapon.cpp:500-506 | an automatic weapon with a controller and valid curves moves the aim on every pellet |
| WeaponCore.AfterPelletsCounts | Source/FPSCore/Private/WeaponCore/Weapon.cpp:275-315 | n pellets add exactly n to the shot count and leave the clip alone; only the animation wait (when configured) disables fire and arms its timer |
| WeaponCore.StopFireEndsBurst | Source/FPSCore/Private/WeaponCore/Weapon.cpp:236-253 | StopFire resets the shot count and the shot timer and stops recoil; with rapid-fire prevention and a recent shot it clears fired-recently and readiness and arms the cooldown exactly when time remains; otherwise the flags are untouched |
| WeaponCore.StopFireIdempotent | Source/FPSCore/Private/WeaponCore/Weapon.cpp:236-253 | a second consecutive StopFire changes no flag, counter or timer (it restarts the recovery timeline, whose position is not modelled) |
| WeaponCore.LiveShotUsesOneRound | Source/FPSCore/Private/WeaponCore/Weapon.cpp:258-315 | a live shot removes exactly one round whatever the pellet count, adds the pellet count to the shot count, sets fired-recently, and disables fire only to wait for the firing animation |
| WeaponCore.FireKeepsClipNonNegative | Source/FPSCore/Private/WeaponCore/Weapon.cpp:483-490 | Fire never makes the clip negative; a dry fire keeps clip and flags and clears the shot timer; a weapon that cannot fire or is reloading is unchanged |
| WeaponCore.ReloadGuard | Source/FPSCore/Private/WeaponCore/Weapon.cpp:536-592 | a reload that starts sets reloading, clears can-fire and keeps the clip; one that does not start changes nothing |
| WeaponCore.ReloadingBlocksFireAndReload | Source/FPSCore/Private/WeaponCore/Weapon.cpp:536-548 | while reloading, neither Reload nor Fire changes anything |
| WeaponCore.UpdateAmmoEndsReload | Source/FPSCore/Private/WeaponCore/Weapon.cpp:654-663 | after UpdateAmmo the weapon is not reloading and is ready to fire; can-fire is set unless the character sprints or slides, and is otherwise left as it was |
| WeaponCore.Weapon.constructor | Source/FPSCore/Private/Components/InventoryComponent.cpp:201-210 | a spawned weapon carries its runtime ammunition data, may fire and reload, is ready, and has every timer cleared |
| WeaponCore.Weapon.StartFire | Source/FPSCore/Private/WeaponCore/Weapon.cpp:192-208 | with can-fire, arms the shot timer at 60 / rate of fire (looping for automatic fire) and starts recoil; otherwise nothing changes |
| WeaponCore.Weapon.ArmShotTimer | Source/FPSCore/Private/WeaponCore/Weapon.cpp:194-196 | the shot timer is armed with interval 60 / rate of fire, looping exactly for automatic weapons |
| WeaponCore.Weapon.StartRecoil | Source/FPSCore/Private/WeaponCore/Weapon.cpp:210-223 | recoil starts and recovery is wanted only when a round can be fired with a controller |
| WeaponCore.Weapon.EnableFire | Source/FPSCore/Private/WeaponCore/Weapon.cpp:225-229 | can-fire becomes true and nothing else changes |
| WeaponCore.Weapon.ReadyToFire | Source/FPSCore/Private/WeaponCore/Weapon.cpp:231-234 | ready-to-fire becomes true and nothing else changes |
| WeaponCore.Weapon.SetCanFire | Source/FPSCore/Private/CharacterCore/CharacterCore.cpp:518 | can-fire takes the movement profile's value and nothing else changes |
| WeaponCore.Weapon.SetCanReload | Source/FPSCore/Private/CharacterCore/CharacterCore.cpp:519 | can-reload takes the movement profile's value and nothing else changes |
| WeaponCore.Weapon.CancelRecovery | Source/FPSCore/Private/CharacterCore/CharacterCore.cpp:113-118 | recovery is no longer wanted and the recovery timeline stops |
| WeaponCore.Weapon.RecoilRecovery | Source/FPSCore/Private/WeaponCore/Weapon.cpp:515-522 | recovery restarts only when it is wanted |
| WeaponCore.Weapon.StopFire | Source/FPSCore/Private/WeaponCore/Weapon.cpp:236-253 | the new state is StopFireSpec of the old one |
| WeaponCore.Weapon.Recoil | Source/FPSCore/Private/WeaponCore/Weapon.cpp:494-513 | the shot count grows by exactly 1; the first-shot kick is sampled exactly when no shot was fired yet (controller, valid curves); the live kick exactly for automatic weapons with shots fired |
| WeaponCore.Weapon.FirePellets | Source/FPSCore/Private/WeaponCore/Weapon.cpp:275-315 | the pellet loop reaches AfterPellets of the pellet count and applies the kicks of consecutive shot counts |
| WeaponCore.Weapon.Fire | Source/FPSCore/Private/WeaponCore/Weapon.cpp:255-492 | the new state is FireSpec of the old one (live shot, dry fire or nothing), with recoil only for a live shot; a clip between 0 and capacity (+1 if chamberable) stays in that range |
| WeaponCore.Weapon.Reload | Source/FPSCore/Private/WeaponCore/Weapon.cpp:525-600 | returns false exactly when reloading is not allowed, true otherwise even when nothing starts; the state follows ReloadGuard |
| WeaponCore.Weapon.UpdateAmmo | Source/FPSCore/Private/WeaponCore/Weapon.cpp:602-664 | the pool entry and the clip become RefillAmmo's result, and the flags follow UpdateAmmoEndsReload; from a clip in range and a non-negative pool, the clip stays in range and the pool stays non-negative and does not grow |
| VaultScan.ScanPrefixMeans | Source/FPSCore/Private/CharacterCore/CharacterCore.cpp:319-376 | after n samples the loop is still scanning (no earlier stop or acceptance, first and last measured heights recorded), accepted the first acceptable sample, or stopped at the first headroom hit |
| VaultScan.ScanOutcomeMeans | Source/FPSCore/Private/CharacterCore/CharacterCore.cpp:319-378 | the scan returns sample k exactly when k passes the acceptance rule (height more than 20 from the first, below the mantle limit, within 3 of the previous, landing clear) and no earlier sample stopped or was accepted; it returns none (mantle fallback) exactly when no such k exists |
| VaultScan.AcceptedAfterTwoMeasured | Source/FPSCore/Private/CharacterCore/CharacterCore.cpp:336-346 | an accepted sample is preceded by at least two measured samples, so neither of the first two measured samples is ever a vault target |
| VaultScan.DecisionStays | Source/FPSCore/Private/CharacterCore/CharacterCore.cpp:335-375 | once the scan has stopped or accepted, later samples do not change the outcome |
| VaultScan.ScanSteps | Source/FPSCore/Private/CharacterCore/CharacterCore.cpp:305-378 | the loop over VaultTraceAmount + 1 samples returns exactly ScanOutcome |
| CharacterCore.UpdateMovementStateSets | Source/FPSCore/Private/CharacterCore/CharacterCore.cpp:502-541 | the state becomes s, and crouching holds iff s is Crouch and sprinting iff s is Sprint; with a profile for s its movement parameters and the weapon's can-fire/can-reload are applied, without one both are left unchanged; nothing else changes |
| CharacterCore.UpdateMovementStateIdempotent | Source/FPSCore/Private/CharacterCore/CharacterCore.cpp:502-541 | entering the same state twice equals entering it once |
| CharacterCore.NoHeadroomKeepsCrouched | Source/FPSCore/Private/CharacterCore/CharacterCore.cpp:169-194 | without headroom, StopCrouch and StartSprint leave a crouching or sliding character unchanged |
| CharacterCore.StopCrouchMoves | Source/FPSCore/Private/CharacterCore/CharacterCore.cpp:169-182 | StopCrouch changes state only from Crouch or Slide with headroom, to Sprint or Walk as asked; otherwise nothing changes |
| CharacterCore.StartSprintEnters | Source/FPSCore/Private/CharacterCore/CharacterCore.cpp:184-194 | a sprint that is not refused enters Sprint, sets wants-to-sprint and clears performed-slide |
| CharacterCore.StopSprintMoves | Source/FPSCore/Private/CharacterCore/CharacterCore.cpp:196-207 | wants-to-sprint is always cleared; Slide with crouch held goes to Crouch, Sprint goes to Walk, any other state is kept |
| CharacterCore.ToggleCrouchCases | Source/FPSCore/Private/CharacterCore/CharacterCore.cpp:122-149 | crouch-held is set; grounded Crouch behaves as StopCrouch(false); grounded Sprint without a performed slide and with sliding enabled enters Slide; other grounded cases enter Crouch and clear wants-to-sprint; in the air the state is kept and wants-to-slide is set unless a slide was performed |
| CharacterCore.StopSlideEndsSlide | Source/FPSCore/Private/CharacterCore/CharacterCore.cpp:216-243 | a slide ends exactly when the floor angle exceeds the continue angle, into Crouch (no headroom), Sprint (wanted), Crouch (held) or Walk, with performed-slide and the slide timer cleared |
| CharacterCore.ReleaseCrouchClears | Source/FPSCore/Private/CharacterCore/CharacterCore.cpp:151-167 | crouch-held and performed-slide are cleared; a slide is handed to StopSlide; with hold-to-crouch every state but Sprint and Slide goes to Walk without a headroom check, Vault included with its vaulting flag kept; a sprint, and with toggle-crouch any state but Slide, is kept |
| CharacterCore.CheckVaultChooses | Source/FPSCore/Private/CharacterCore/CharacterCore.cpp:255-405 | with the guards met, the vault targets the scan's accepted sample if any, else the mantle point if the mantle sweep is clear, else nothing happens; a started vault is in the Vault state with vaulting set |
| CharacterCore.CheckVaultNeedsFallingForward | Source/FPSCore/Private/CharacterCore/CharacterCore.cpp:260-261 | no vault starts while vaulting, when not falling, or without forward velocity |
| CharacterCore.TimelineEndsVault | Source/FPSCore/Private/CharacterCore/CharacterCore.cpp:408-420 | at timeline value 1 vaulting ends, and Sprint is entered exactly when a sprint is wanted |
| CharacterCore.LaterStepsKeepAim | Source/FPSCore/Private/CharacterCore/CharacterCore.cpp:587-594 | the deferred slide and the vault check leave the aiming flag and the aim wish unchanged |
| CharacterCore.TickAiming | Source/FPSCore/Private/CharacterCore/CharacterCore.cpp:577-594 | after a frame, aiming holds iff aim is wanted and the state after the sprint restriction is neither Sprint nor Slide; when the frame does not change that state, this holds of the final state |
| CharacterCore.AimingLagsDeferredSlide | Source/FPSCore/Private/CharacterCore/CharacterCore.cpp:577-591 | a walking character that wants to aim and has a slide pending ends its landing frame sliding and aiming, with the slide request cleared |
| CharacterCore.UpdateMovementStateCoherent | Source/FPSCore/Private/CharacterCore/CharacterCore.cpp:502-541 | entering a state (Vault only with a target) establishes the locomotion invariant |
| CharacterCore.StopCrouchCoherent | Source/FPSCore/Private/CharacterCore/CharacterCore.cpp:169-182 | StopCrouch keeps the locomotion invariant |
| CharacterCore.StartSlideCoherent | Source/FPSCore/Private/CharacterCore/CharacterCore.cpp:209-214 | StartSlide establishes the locomotion invariant |
| CharacterCore.StopSlideCoherent | Source/FPSCore/Private/CharacterCore/CharacterCore.cpp:216-243 | StopSlide keeps the locomotion invariant |
| CharacterCore.SprintRestrictionCoherent | Source/FPSCore/Private/CharacterCore/CharacterCore.cpp:559-574 | the sprint-angle restriction keeps the locomotion invariant |
| CharacterCore.CheckVaultCoherent | Source/FPSCore/Private/CharacterCore/CharacterCore.cpp:255-405 | the vault check keeps the locomotion invariant |
| CharacterCore.TickCoherent | Source/FPSCore/Private/CharacterCore/CharacterCore.cpp:544-598 | a frame keeps the locomotion invariant |
| CharacterCore.ApplyCoherent | Source/FPSCore/Private/CharacterCore/CharacterCore.cpp:101-253 | every input, timer callback, timeline callback and frame keeps the locomotion invariant: crouching iff Crouch, sprinting iff Sprint, movement parameters equal to the current state's profile, and Vault only with a target |
| CharacterCore.RunCoherent | Source/FPSCore/Private/CharacterCore/CharacterCore.cpp:502-541 | any run of inputs from a coherent character ends coherent |
| CharacterCore.StartCoherence | Source/FPSCore/Private/CharacterCore/CharacterCore.cpp:25-44 | at the start of play the flags match Walk and no vault is pending, the walk speed is the Walk row's, and the character is coherent exactly when the default acceleration, braking and friction equal the Walk row |
| CharacterCore.FirstStateChangeCoheres | Source/FPSCore/Private/CharacterCore/CharacterCore.cpp:502-541 | from the start of play, the first change of movement state (other than a vault) makes the character coherent, so RunCoherent applies from then on |
| CharacterCore.Character.constructor | Source/FPSCore/Private/CharacterCore/CharacterCore.cpp:25-31 | a new character walks with every flag clear, no timer and no vault target, and the movement component's own parameters; it is coherent exactly when those parameters are the Walk profile's |
| CharacterCore.Character.BeginPlay | Source/FPSCore/Private/CharacterCore/CharacterCore.cpp:33-44 | only the walk speed of the Walk row, when there is one, is applied; nothing else changes |
| CharacterCore.Character.UpdateMovementState | Source/FPSCore/Private/CharacterCore/CharacterCore.cpp:502-541 | the character and the current weapon become UpdateMovementStateSpec of the old ones |
| CharacterCore.Character.StopCrouch | Source/FPSCore/Private/CharacterCore/CharacterCore.cpp:169-182 | the character and weapon become StopCrouchSpec of the old ones |
| CharacterCore.Character.StartSprint | Source/FPSCore/Private/CharacterCore/CharacterCore.cpp:184-194 | the character and weapon become StartSprintSpec of the old ones |
| CharacterCore.Character.StopSprint | Source/FPSCore/Private/CharacterCore/CharacterCore.cpp:196-207 | the character and weapon become StopSprintSpec of the old ones |
| CharacterCore.Character.StartSlide | Source/FPSCore/Private/CharacterCore/CharacterCore.cpp:209-214 | Slide is entered with performed-slide set, and the slide-stop timer is armed for the slide time |
| CharacterCore.Character.StopSlide | Source/FPSCore/Private/CharacterCore/CharacterCore.cpp:216-243 | the character and weapon become StopSlideSpec of the old ones, including the 0.1 s re-arm on a steep downhill |
| CharacterCore.Character.ToggleCrouch | Source/FPSCore/Private/CharacterCore/CharacterCore.cpp:122-149 | the character and weapon become ToggleCrouchSpec of the old ones |
| CharacterCore.Character.ReleaseCrouch | Source/FPSCore/Private/CharacterCore/CharacterCore.cpp:151-167 | the character and weapon become ReleaseCrouchSpec of the old ones |
| CharacterCore.Character.StartAds | Source/FPSCore/Private/CharacterCore/CharacterCore.cpp:245-248 | wants-to-aim becomes true and nothing else changes |
| CharacterCore.Character.StopAds | Source/FPSCore/Private/CharacterCore/CharacterCore.cpp:250-253 | wants-to-aim becomes false and nothing else changes |
| CharacterCore.Character.Look | Source/FPSCore/Private/CharacterCore/CharacterCore.cpp:111-119 | view input that moves cancels recoil recovery on the current weapon; nothing else changes |
| CharacterCore.Character.Vault | Source/FPSCore/Private/CharacterCore/CharacterCore.cpp:492-499 | the vault target is recorded and the Vault state entered |
| CharacterCore.Character.TimelineProgress | Source/FPSCore/Private/CharacterCore/CharacterCore.cpp:408-420 | the character and weapon become TimelineProgressSpec of the old ones |
| CharacterCore.Character.CheckVault | Source/FPSCore/Private/CharacterCore/CharacterCore.cpp:255-405 | the character and weapon become CheckVaultSpec of the old ones, with the scan run as a loop |
| CharacterCore.Character.RestrictSprint | Source/FPSCore/Private/CharacterCore/CharacterCore.cpp:559-574 | the character and weapon become SprintRestrictionSpec of the old ones: a too wide angle turns a sprint into a restricted walk, a narrow one resumes a wanted, restricted sprint |
| CharacterCore.Character.SlideOnLanding | Source/FPSCore/Private/CharacterCore/CharacterCore.cpp:587-591 | on a grounded frame with a slide requested in the air and none performed yet, the slide starts and the request is cleared; otherwise nothing changes |
| CharacterCore.Character.Tick | Source/FPSCore/Private/CharacterCore/CharacterCore.cpp:544-598 | the character and weapon become TickSpec of the old ones: sprint restriction, aiming, deferred slide, vault check, floor sample, in that order |
| InventoryCore.ScrollTarget | Source/FPSCore/Private/Components/InventoryComponent.cpp:28-47 | with at least one slot the result is a valid slot; a negative scroll from the last slot gives 0; another scroll from slot 0 gives the last slot; otherwise the result is the current slot + 1 or - 1 |
| InventoryCore.ScrollRoundTrip | Source/FPSCore/Private/Components/InventoryComponent.cpp:28-47 | scrolling one way and back returns to the starting slot |
| InventoryCore.ScrollForwardSteps | Source/FPSCore/Private/Components/InventoryComponent.cpp:28-37 | up to a full turn, n forward scrolls move n slots on, wrapping past the last slot |
| InventoryCore.ScrollCyclesThroughSlots | Source/FPSCore/Private/Components/InventoryComponent.cpp:28-37 | forward scrolling returns to the start after exactly one turn and not before |
| InventoryCore.SwapOutcomes | Source/FPSCore/Private/Components/InventoryComponent.cpp:117-159 | a request for the current slot number or an empty slot changes nothing; a deferred swap records the target; a completed swap ends the pending swap; the current slot is never assigned |
| InventoryCore.UnequipReturnCompletes | Source/FPSCore/Private/Components/InventoryComponent.cpp:358-361 | the unequip callback's request for the recorded target always completes a deferred swap and ends it |
| InventoryCore.NonPositiveUnequipLeavesSwapPending | Source/FPSCore/Private/Components/InventoryComponent.cpp:343-356 | an unequip animation of non-positive length leaves the swap pending with its timer cleared |
| InventoryCore.SwapBackToOriginalSlotIgnored | Source/FPSCore/Private/Components/InventoryComponent.cpp:117-159 | after the swap from current slot 1 to slot 0, a request for slot 1 is ignored |
| InventoryCore.ReloadPolicyDispatch | Source/FPSCore/Private/Components/InventoryComponent.cpp:285-326 | an accepted reload runs no policy; a refused one runs exactly the configured policy: Retry, HandleInBP and Ignore report themselves and change neither character nor weapon; ChangeState ends reloaded or out of fuel |
| InventoryCore.ChangeStateEnds | Source/FPSCore/Private/Components/InventoryComponent.cpp:301-307 | the ChangeState policy ends either reloaded or out of fuel |
| InventoryCore.ChangeStateRecovers | Source/FPSCore/Private/Components/InventoryComponent.cpp:301-307 | when Walk allows reloading, ChangeState walks and reloads on the first retry |
| InventoryCore.ChangeStateNeverRecovers | Source/FPSCore/Private/Components/InventoryComponent.cpp:301-307 | when Walk does not allow reloading, ChangeState never reloads, whatever the fuel |
| InventoryCore.Inventory.constructor | Source/FPSCore/Private/Components/InventoryComponent.cpp:15-17 | an empty inventory with no current weapon and no swap pending |
| InventoryCore.Inventory.SwapWeapon | Source/FPSCore/Private/Components/InventoryComponent.cpp:117-159 | the slot bookkeeping follows SwapOutcomes; a completed swap stops the old weapon's fire, makes the slot's weapon current and, with an equip animation, re-applies the owner's movement state to it; otherwise the current weapon, its state, the requested slot's weapon and the owner are unchanged |
| InventoryCore.Inventory.HandleUnequip | Source/FPSCore/Private/Components/InventoryComponent.cpp:343-356 | the unequip timer is set for the current weapon's unequip animation length when it has one |
| InventoryCore.Inventory.UnequipReturn | Source/FPSCore/Private/Components/InventoryComponent.cpp:358-361 | SwapWeapon's full contract for the pending target slot: on completion the old weapon stops firing, the target's weapon becomes current and the equip re-application is done; otherwise the current weapon, the target's weapon and the owner are unchanged |
| InventoryCore.Inventory.ScrollWeapon | Source/FPSCore/Private/Components/InventoryComponent.cpp:20-57 | while a swap is pending, only the target slot changes (under UseNewValue) and no weapon or the owner changes; otherwise the selected slot is requested with SwapWeapon's full contract (bookkeeping, stop fire, new current weapon, equip re-application, or nothing changed) |
| InventoryCore.Inventory.UpdateWeapon | Source/FPSCore/Private/Components/InventoryComponent.cpp:162-242 | after a spawn the slot holds the new weapon, all other entries are unchanged, the new weapon is current and its slot is the current slot, and the old weapon's fire stopped; a failed spawn changes nothing |
| InventoryCore.Inventory.Reload | Source/FPSCore/Private/Components/InventoryComponent.cpp:285-326 | no current weapon: nothing happens; otherwise outcome, owner and weapon follow ReloadPolicySpec, a retry timer is armed for 0.1 s only under Retry, and one failure event is broadcast only under HandleInBP |

## Left out

- Effects and presentation are left out: particles, sounds, camera shake, debug drawing and
  messages, and the remaining-ammunition text. The core's state does not depend on them.
- Animation montages are left out. An animation asset is modelled by its play length (`None` when
  it is not set), and that length is what the engine's montage call returns.
- Geometry is left out: vectors, rotators, transforms, the vault and mantle target transforms, and
  the capsule-height interpolation in `Tick`. The sweeps and traces are boolean or height inputs;
  the vault target is only the accepted sample or the mantle point.
- The relative movement angle and the sprint angle limit are taken in the same unit. The source's
  degree-to-radian conversion of the limit (`SprintAngleLimit * (PI/180)`) happens before the
  configuration is built.
- Floating point is left out: spread, damage, recoil curve values, the recovery interpolation and
  the vault position interpolation. Heights and angles are mathematical reals, without rounding.
- The timer scheduler and the frame clock are not modelled. `Weapon.StopFire` takes the time left
  on the shot timer as an input.
- The vault timeline is not ticked inside `Character.Tick`. Its progress callback is the separate
  method `TimelineProgress`.
- Engine and asset wiring are left out: `BeginPlay` of the weapon and the inventory, the timeline binding and inventory lookup in the character's `BeginPlay`, data-table lookups,
  attachment spawning and its modifiers, input binding, `Move`, and the header defaults of every
  field. Constructors start from plausible defaults: a weapon may fire and reload and is ready;
  the character walks with every flag clear; the inventory is empty on slot 0.
- Actors, pickups and destruction are left out. `Inventory.UpdateWeapon` receives the newly
  spawned weapon, already carrying its runtime data, or null when spawning failed. The pickup
  spawned for a replaced weapon, and that weapon's destruction, are not modelled.
- `Inventory.UpdateWeapon`: the requirement that the spawned weapon is not already equipped
  expresses that the engine spawns a new actor.
- The inventory's `StartFire`, `StopFire` and `Inspect` only forward to the current weapon or play
  animations, and are not modelled. `GetCurrentWeaponRemainingAmmo` is formatting only.
- The owner of the inventory is taken to be the character, so the casts to `ACharacterCore`
  always succeed. The current weapon is taken to implement the weapon interface.
- `InventoryCore.SwapBehaviour` has `UseNewValue` and one other value (`IgnoreNewValue`) standing
  for every other behaviour. The code only tests for `UseNewValue`.
- `InventoryCore.Inventory.Reload`: the ChangeState policy's unbounded recursion is cut off after
  `fuel` retries with outcome `OutOfFuel`. Termination of the source is not claimed; instead
  `ChangeStateNeverRecovers` shows when it does not terminate.
- `WeaponCore.Weapon.UpdateAmmo` requires the pool to hold an entry for the weapon's ammunition
  type, because the source's map lookup assumes the key is present.
- `WeaponCore.Weapon.Fire`: the hit scan, damage and effects of each pellet are left out. Only
  recoil, the shot count and the animation wait are modelled per pellet.
- Timeline positions are not modelled: a recoil or recovery timeline is only playing or not, so a
  restart from the beginning (`PlayFromStart` on a timeline already playing) looks like no change.
- `WeaponCore.WeaponData`: the rate of fire is a positive real. The source divides 60 by it
  unguarded, and a zero or negative rate (an infinite delay, or a cleared shot timer so no shot is
  ever scheduled) is outside the model.
- Ammunition counts (clip size, clip capacity, pool entries) are unbounded integers; the source's
  32-bit `int` overflow is not modelled.
- `CharacterCore.Character.constructor`: the movement component's default acceleration, braking and
  friction are an input. `BeginPlay` copies only the walk speed, so the locomotion invariant holds
  from the start only when those defaults equal the Walk row (`StartCoherence`), and in every case
  after the first change of movement state (`FirstStateChangeCoheres`).
