/**
  The locomotion state machine of the player character (ACharacterCore): walking, crouching,
  sprinting, sliding and vaulting, the flags that record the player's intent, and the per-frame
  update. Engine queries are oracle parameters: headroom (HasSpaceToStandUp), whether the character
  is on the ground, the movement angle relative to the view, the vault traces and the floor sample.
  The inventory's current weapon is passed to every transition, because changing the movement state
  copies the state's fire and reload permissions onto it.
*/
module CharacterCore {
  import opened Common
  import opened WeaponCore
  import opened VaultScan

  /** One row of MovementDataMap: the movement parameters and weapon permissions of a state. */
  datatype MovementProfile = MovementProfile(
    maxAcceleration: real,
    brakingDecelerationWalking: real,
    groundFriction: real,
    maxWalkSpeed: real,
    canFire: bool,
    canReload: bool)

  /** The movement component's parameters that a movement state sets. */
  datatype Physics = Physics(maxAcceleration: real, brakingDecelerationWalking: real, groundFriction: real, maxWalkSpeed: real)

  /**
    The character's configuration. The sprint angle limit is taken in the unit of the relative
    movement angle (radians).
  */
  datatype CharacterConfig = CharacterConfig(
    profiles: map<MovementState, MovementProfile>,
    crouchIsToggle: bool,
    canSlide: bool,
    slideTime: real,
    slideContinueAngle: real,
    restrictSprintAngle: bool,
    sprintAngleLimit: real,
    canVault: bool,
    vaultTraceAmount: int,
    maxMantleHeight: real)

  /** Where a vault goes: the accepted scan sample, or the mantle point on the ledge. */
  datatype VaultTarget = StepTarget(index: nat) | MantleTarget

  /**
    The engine's answers for one vault check: forward velocity positive, falling, a wall in front,
    a standable ledge on it, the per-sample step probes, and whether the mantle sweep is blocked.
  */
  datatype VaultProbe = VaultProbe(
    forwardVelocityPositive: bool,
    falling: bool,
    wallHit: bool,
    ledgeStandable: bool,
    steps: seq<StepProbe>,
    mantleBlocked: bool)

  /** The movement state and the flags derived from it or set by the per-frame update. */
  datatype Status = Status(
    state: MovementState,
    isCrouching: bool,
    isSprinting: bool,
    isAiming: bool,
    restrictingSprint: bool,
    isVaulting: bool)

  /** The flags that record the player's input and the slide bookkeeping. */
  datatype Intent = Intent(
    holdingCrouch: bool,
    wantsToSprint: bool,
    wantsToSlide: bool,
    performedSlide: bool,
    wantsToAim: bool)

  /** Every field of the character that its methods change. */
  datatype Locomotion = Locomotion(
    status: Status,
    intent: Intent,
    physics: Physics,
    floorAngle: real,
    slideStop: Timer,
    vaultTarget: Option<VaultTarget>)

  /** The character together with the state of the current weapon, if there is one. */
  datatype CharView = CharView(loco: Locomotion, weapon: Option<WeaponState>)

  function WithStatus(v: CharView, st: Status): CharView
  {
    v.(loco := v.loco.(status := st))
  }

  function WithIntent(v: CharView, i: Intent): CharView
  {
    v.(loco := v.loco.(intent := i))
  }

  function ProfilePhysics(p: MovementProfile): Physics
  {
    Physics(p.maxAcceleration, p.brakingDecelerationWalking, p.groundFriction, p.maxWalkSpeed)
  }

  /** The current weapon with the fire and reload permissions of a movement profile. */
  function WithPermissions(w: Option<WeaponState>, p: MovementProfile): Option<WeaponState>
  {
    match w
    case None => None
    case Some(ws) => Some(ws.(flags := ws.flags.(canFire := p.canFire, canReload := p.canReload)))
  }

  // ---------------------------------------------------------------------------------------------
  // Specification functions of the transitions

  /** UpdateMovementState: enter a state, applying its profile when the table has one. */
  function UpdateMovementStateSpec(cfg: CharacterConfig, v: CharView, s: MovementState): CharView
  {
    var st := v.loco.status.(state := s, isCrouching := s == Crouch, isSprinting := s == Sprint);
    if s in cfg.profiles
    then CharView(v.loco.(status := st, physics := ProfilePhysics(cfg.profiles[s])), WithPermissions(v.weapon, cfg.profiles[s]))
    else WithStatus(v, st)
  }

  function StateOf(v: CharView): MovementState
  {
    v.loco.status.state
  }

  /** StopCrouch: stand up (to Sprint or Walk) from Crouch or Slide, only with headroom. */
  function StopCrouchSpec(cfg: CharacterConfig, v: CharView, toSprint: bool, hasSpace: bool): CharView
  {
    if (StateOf(v) == Crouch || StateOf(v) == Slide) && hasSpace
    then UpdateMovementStateSpec(cfg, v, if toSprint then Sprint else Walk)
    else v
  }

  /** StartSprint: refused while crouched or sliding without headroom. */
  function StartSprintSpec(cfg: CharacterConfig, v: CharView, hasSpace: bool): CharView
  {
    if !hasSpace && (StateOf(v) == Crouch || StateOf(v) == Slide) then v
    else
      var sprinting := UpdateMovementStateSpec(cfg, WithIntent(v, v.loco.intent.(performedSlide := false)), Sprint);
      WithIntent(sprinting, sprinting.loco.intent.(wantsToSprint := true))
  }

  /** StopSprint: a slide with crouch held becomes a crouch, a sprint becomes a walk; the sprint wish ends. */
  function StopSprintSpec(cfg: CharacterConfig, v: CharView): CharView
  {
    var w :=
      if StateOf(v) == Slide && v.loco.intent.holdingCrouch then UpdateMovementStateSpec(cfg, v, Crouch)
      else if StateOf(v) == Sprint then UpdateMovementStateSpec(cfg, v, Walk)
      else v;
    WithIntent(w, w.loco.intent.(wantsToSprint := false))
  }

  /** StartSlide: enter Slide and arm the slide-stop timer for the slide time. */
  function StartSlideSpec(cfg: CharacterConfig, v: CharView): CharView
  {
    var sliding := UpdateMovementStateSpec(cfg, WithIntent(v, v.loco.intent.(performedSlide := true)), Slide);
    sliding.(loco := sliding.loco.(slideStop := SetTimer(cfg.slideTime, false)))
  }

  /**
    StopSlide: on a floor steeper than the continue angle the slide ends (Crouch without headroom,
    else Sprint if wanted, else Crouch if crouch is held, else Walk); on a steep downhill the
    slide-stop timer is re-armed for 0.1 seconds; otherwise nothing changes.
  */
  function StopSlideSpec(cfg: CharacterConfig, v: CharView, hasSpace: bool): CharView
  {
    if StateOf(v) == Slide && v.loco.floorAngle > cfg.slideContinueAngle then
      var w :=
        if !hasSpace then UpdateMovementStateSpec(cfg, v, Crouch)
        else if v.loco.intent.wantsToSprint then StopCrouchSpec(cfg, v, true, hasSpace)
        else if v.loco.intent.holdingCrouch then UpdateMovementStateSpec(cfg, v, Crouch)
        else UpdateMovementStateSpec(cfg, v, Walk);
      var ended := WithIntent(w, w.loco.intent.(performedSlide := false));
      ended.(loco := ended.loco.(slideStop := Cleared))
    else if v.loco.floorAngle < -cfg.slideContinueAngle then
      v.(loco := v.loco.(slideStop := SetTimer(0.1, false)))
    else v
  }

  /** ToggleCrouch: the crouch key was pressed. */
  function ToggleCrouchSpec(cfg: CharacterConfig, v: CharView, grounded: bool, hasSpace: bool): CharView
  {
    var held := WithIntent(v, v.loco.intent.(holdingCrouch := true));
    if grounded then
      if StateOf(held) == Crouch then StopCrouchSpec(cfg, held, false, hasSpace)
      else if StateOf(held) == Sprint && !held.loco.intent.performedSlide && cfg.canSlide then StartSlideSpec(cfg, held)
      else
        var crouched := UpdateMovementStateSpec(cfg, held, Crouch);
        WithIntent(crouched, crouched.loco.intent.(wantsToSprint := false))
    else if !held.loco.intent.performedSlide then WithIntent(held, held.loco.intent.(wantsToSlide := true))
    else held
  }

  /** ReleaseCrouch: the crouch key was released, or the slide-stop timer fired. */
  function ReleaseCrouchSpec(cfg: CharacterConfig, v: CharView, hasSpace: bool): CharView
  {
    var released := WithIntent(v, v.loco.intent.(holdingCrouch := false, performedSlide := false));
    if StateOf(released) == Slide then StopSlideSpec(cfg, released, hasSpace)
    else if !cfg.crouchIsToggle then
      if StateOf(released) == Sprint then released else UpdateMovementStateSpec(cfg, released, Walk)
    else released
  }

  /** StartAds / StopAds: record whether the player wants to aim. */
  function SetAimSpec(v: CharView, wantsToAim: bool): CharView
  {
    WithIntent(v, v.loco.intent.(wantsToAim := wantsToAim))
  }

  /** Vault: remember the target and enter the Vault state. */
  function VaultSpec(cfg: CharacterConfig, v: CharView, target: VaultTarget): CharView
  {
    UpdateMovementStateSpec(cfg, v.(loco := v.loco.(vaultTarget := Some(target))), Vault)
  }

  /** Starts a vault to the target: the character is vaulting. */
  function BeginVault(cfg: CharacterConfig, v: CharView, target: VaultTarget): CharView
  {
    VaultSpec(cfg, WithStatus(v, v.loco.status.(isVaulting := true)), target)
  }

  /**
    CheckVault: when vaulting is enabled and the character moves forward while falling into a wall
    with a standable ledge, vault to the first accepted step; failing that, mantle onto the ledge
    when there is room.
  */
  function CheckVaultSpec(cfg: CharacterConfig, v: CharView, probe: VaultProbe): CharView
  {
    if !cfg.canVault then v
    else if !(probe.forwardVelocityPositive && !v.loco.status.isVaulting && probe.falling) then v
    else if !probe.wallHit || !probe.ledgeStandable then v
    else match ScanOutcome(probe.steps, cfg.maxMantleHeight)
      case Some(k) => BeginVault(cfg, v, StepTarget(k))
      case None => if probe.mantleBlocked then v else BeginVault(cfg, v, MantleTarget)
  }

  /** TimelineProgress: at the end of the vault timeline the vault ends, and a wanted sprint resumes. */
  function TimelineProgressSpec(cfg: CharacterConfig, v: CharView, value: real): CharView
  {
    if value == 1.0 then
      var landed := WithStatus(v, v.loco.status.(isVaulting := false));
      if landed.loco.intent.wantsToSprint then UpdateMovementStateSpec(cfg, landed, Sprint) else landed
    else v
  }

  /** Look: aim input that moves the view cancels recoil recovery on the current weapon. */
  function LookSpec(v: CharView, moved: bool): CharView
  {
    match v.weapon
    case Some(ws) =>
      if moved then v.(weapon := Some(ws.(recoil := ws.recoil.(shouldRecover := false, recoveryPlaying := false))))
      else v
    case None => v
  }

  /** The sprint-angle restriction of Tick: too wide an angle stops a sprint, a narrow one resumes it. */
  function SprintRestrictionSpec(cfg: CharacterConfig, v: CharView, relativeAngle: real): CharView
  {
    if !cfg.restrictSprintAngle then v
    else if relativeAngle > cfg.sprintAngleLimit && StateOf(v) == Sprint then
      var walking := UpdateMovementStateSpec(cfg, v, Walk);
      WithStatus(walking, walking.loco.status.(restrictingSprint := true))
    else if relativeAngle < cfg.sprintAngleLimit && v.loco.status.restrictingSprint && v.loco.intent.wantsToSprint
            && StateOf(v) != Sprint then
      var sprinting := UpdateMovementStateSpec(cfg, v, Sprint);
      WithStatus(sprinting, sprinting.loco.status.(restrictingSprint := false))
    else v
  }

  /** The aiming update of Tick. */
  function AimingSpec(v: CharView): CharView
  {
    WithStatus(v, v.loco.status.(isAiming := v.loco.intent.wantsToAim && StateOf(v) != Sprint && StateOf(v) != Slide))
  }

  /** The deferred slide of Tick: a slide requested in the air starts on landing. */
  function DeferredSlideSpec(cfg: CharacterConfig, v: CharView, grounded: bool): CharView
  {
    if grounded && !v.loco.intent.performedSlide && v.loco.intent.wantsToSlide then
      var sliding := StartSlideSpec(cfg, v);
      WithIntent(sliding, sliding.loco.intent.(wantsToSlide := false))
    else v
  }

  /** CheckGroundAngle: the floor angle is updated only when the floor trace hits. */
  function GroundAngleSpec(v: CharView, floorSample: Option<real>): CharView
  {
    match floorSample
    case Some(angle) => v.(loco := v.loco.(floorAngle := angle))
    case None => v
  }

  /** Tick: the discrete part of the per-frame update, in the order the frame runs it. */
  function TickSpec(cfg: CharacterConfig, v: CharView, relativeAngle: real, grounded: bool, probe: VaultProbe,
                    floorSample: Option<real>): CharView
  {
    var restricted := SprintRestrictionSpec(cfg, v, relativeAngle);
    var aimed := AimingSpec(restricted);
    var slid := DeferredSlideSpec(cfg, aimed, grounded);
    GroundAngleSpec(CheckVaultSpec(cfg, slid, probe), floorSample)
  }

  /** A freshly constructed character: Walk, every flag clear, the movement component's own parameters. */
  function InitialLoco(physics: Physics): Locomotion
  {
    Locomotion(Status(Walk, false, false, false, false, false), Intent(false, false, false, false, false),
               physics, 0.0, Cleared, None)
  }

  /** BeginPlay: only the walk speed is taken from the Walk row of the movement table, when there is one. */
  function BeginPlaySpec(cfg: CharacterConfig, l: Locomotion): Locomotion
  {
    if Walk in cfg.profiles then l.(physics := l.physics.(maxWalkSpeed := cfg.profiles[Walk].maxWalkSpeed)) else l
  }

  // ---------------------------------------------------------------------------------------------
  // Properties of the transitions

  /**
    After UpdateMovementState(s) the state is s and exactly the matching crouching/sprinting flag is
    set. With a profile for s, its movement parameters and its weapon permissions are applied; without
    one, movement parameters and weapon are untouched. Nothing else changes.
  */
  lemma UpdateMovementStateSets(cfg: CharacterConfig, v: CharView, s: MovementState)
    ensures var r := UpdateMovementStateSpec(cfg, v, s);
            StateOf(r) == s && (r.loco.status.isCrouching <==> s == Crouch) && (r.loco.status.isSprinting <==> s == Sprint)
            && r.loco.intent == v.loco.intent
            && r.loco.status.(state := StateOf(v), isCrouching := v.loco.status.isCrouching,
                              isSprinting := v.loco.status.isSprinting) == v.loco.status
            && r.loco.(status := v.loco.status, physics := v.loco.physics) == v.loco
            && r.weapon.Some? == v.weapon.Some?
            && (s in cfg.profiles ==>
                  r.loco.physics == ProfilePhysics(cfg.profiles[s])
                  && (r.weapon.Some? ==>
                        r.weapon.value.flags.canFire == cfg.profiles[s].canFire
                        && r.weapon.value.flags.canReload == cfg.profiles[s].canReload))
            && (s !in cfg.profiles ==> r.loco.physics == v.loco.physics && r.weapon == v.weapon)
  {
  }

  /** Entering the same state twice is the same as entering it once. */
  lemma UpdateMovementStateIdempotent(cfg: CharacterConfig, v: CharView, s: MovementState)
    ensures UpdateMovementStateSpec(cfg, UpdateMovementStateSpec(cfg, v, s), s) == UpdateMovementStateSpec(cfg, v, s)
  {
  }

  /** Without headroom, neither StopCrouch nor StartSprint gets a crouching or sliding character up. */
  lemma NoHeadroomKeepsCrouched(cfg: CharacterConfig, v: CharView, toSprint: bool)
    requires StateOf(v) == Crouch || StateOf(v) == Slide
    ensures StopCrouchSpec(cfg, v, toSprint, false) == v
    ensures StartSprintSpec(cfg, v, false) == v
  {
  }

  /** StopCrouch changes the state only from Crouch or Slide with headroom, to Sprint or Walk as asked. */
  lemma StopCrouchMoves(cfg: CharacterConfig, v: CharView, toSprint: bool, hasSpace: bool)
    ensures var r := StopCrouchSpec(cfg, v, toSprint, hasSpace);
            if (StateOf(v) == Crouch || StateOf(v) == Slide) && hasSpace
            then StateOf(r) == (if toSprint then Sprint else Walk)
            else r == v
  {
  }

  /** A sprint that is not refused enters Sprint, wants to sprint, and clears the slide bookkeeping. */
  lemma StartSprintEnters(cfg: CharacterConfig, v: CharView, hasSpace: bool)
    requires hasSpace || (StateOf(v) != Crouch && StateOf(v) != Slide)
    ensures var r := StartSprintSpec(cfg, v, hasSpace);
            StateOf(r) == Sprint && r.loco.status.isSprinting && !r.loco.status.isCrouching
            && r.loco.intent.wantsToSprint && !r.loco.intent.performedSlide
  {
  }

  /** StopSprint always ends the sprint wish; only Slide (crouch held) and Sprint change state. */
  lemma StopSprintMoves(cfg: CharacterConfig, v: CharView)
    ensures var r := StopSprintSpec(cfg, v);
            !r.loco.intent.wantsToSprint
            && StateOf(r) == (if StateOf(v) == Slide && v.loco.intent.holdingCrouch then Crouch
                              else if StateOf(v) == Sprint then Walk
                              else StateOf(v))
  {
  }

  /** ToggleCrouch always records that crouch is held, and its four cases do what the key promises. */
  lemma ToggleCrouchCases(cfg: CharacterConfig, v: CharView, grounded: bool, hasSpace: bool)
    ensures var r := ToggleCrouchSpec(cfg, v, grounded, hasSpace);
            r.loco.intent.holdingCrouch
            && (grounded && StateOf(v) == Crouch ==>
                  r == StopCrouchSpec(cfg, WithIntent(v, v.loco.intent.(holdingCrouch := true)), false, hasSpace))
            && (grounded && StateOf(v) == Sprint && !v.loco.intent.performedSlide && cfg.canSlide ==>
                  StateOf(r) == Slide && r.loco.intent.performedSlide)
            && (grounded && StateOf(v) != Crouch && !(StateOf(v) == Sprint && !v.loco.intent.performedSlide && cfg.canSlide) ==>
                  StateOf(r) == Crouch && !r.loco.intent.wantsToSprint)
            && (!grounded ==> StateOf(r) == StateOf(v)
                              && r.loco.intent.wantsToSlide == (v.loco.intent.wantsToSlide || !v.loco.intent.performedSlide))
  {
  }

  /**
    StopSlide ends a slide exactly when the floor angle exceeds the continue angle; the slide then
    ends in Crouch, Sprint or Walk with the slide bookkeeping and its timer cleared.
  */
  lemma StopSlideEndsSlide(cfg: CharacterConfig, v: CharView, hasSpace: bool)
    requires StateOf(v) == Slide
    ensures var r := StopSlideSpec(cfg, v, hasSpace);
            (StateOf(r) != Slide <==> v.loco.floorAngle > cfg.slideContinueAngle)
            && (StateOf(r) != Slide ==>
                  !r.loco.intent.performedSlide && r.loco.slideStop == Cleared
                  && StateOf(r) == (if !hasSpace then Crouch else if v.loco.intent.wantsToSprint then Sprint
                                    else if v.loco.intent.holdingCrouch then Crouch else Walk))
  {
  }

  /**
    ReleaseCrouch always clears crouch-held and the slide bookkeeping. A slide is handed to StopSlide.
    Otherwise, with hold-to-crouch, every state but Sprint goes to Walk without consulting headroom,
    even Vault, which leaves the vaulting flag set; with toggle-crouch the state is kept.
  */
  lemma ReleaseCrouchClears(cfg: CharacterConfig, v: CharView, hasSpace: bool)
    ensures var r := ReleaseCrouchSpec(cfg, v, hasSpace);
            var released := WithIntent(v, v.loco.intent.(holdingCrouch := false, performedSlide := false));
            !r.loco.intent.holdingCrouch && !r.loco.intent.performedSlide
            && (StateOf(v) == Slide ==> r == StopSlideSpec(cfg, released, hasSpace))
            && (!cfg.crouchIsToggle && StateOf(v) != Sprint && StateOf(v) != Slide ==>
                  StateOf(r) == Walk && r.loco.status.isVaulting == v.loco.status.isVaulting)
            && (StateOf(v) == Sprint ==> r == released)
            && (cfg.crouchIsToggle && StateOf(v) != Slide ==> r == released)
  {
  }

  /**
    The vault check vaults to the first accepted step when there is one, and falls back to the mantle
    only when no step is accepted; either way the character is vaulting in the Vault state.
  */
  lemma CheckVaultChooses(cfg: CharacterConfig, v: CharView, probe: VaultProbe)
    requires cfg.canVault && probe.forwardVelocityPositive && probe.falling && !v.loco.status.isVaulting
    requires probe.wallHit && probe.ledgeStandable
    ensures var r := CheckVaultSpec(cfg, v, probe);
            var outcome := ScanOutcome(probe.steps, cfg.maxMantleHeight);
            (outcome.Some? ==> r.loco.vaultTarget == Some(StepTarget(outcome.value)))
            && (outcome.None? && !probe.mantleBlocked ==> r.loco.vaultTarget == Some(MantleTarget))
            && (outcome.None? && probe.mantleBlocked ==> r == v)
            && (r != v ==> StateOf(r) == Vault && r.loco.status.isVaulting)
  {
  }

  /** A vault already in progress, or a character not falling forward, never starts another vault. */
  lemma CheckVaultNeedsFallingForward(cfg: CharacterConfig, v: CharView, probe: VaultProbe)
    requires v.loco.status.isVaulting || !probe.falling || !probe.forwardVelocityPositive
    ensures CheckVaultSpec(cfg, v, probe) == v
  {
  }

  /** The end of the vault timeline clears vaulting and enters Sprint exactly when a sprint is wanted. */
  lemma TimelineEndsVault(cfg: CharacterConfig, v: CharView)
    ensures var r := TimelineProgressSpec(cfg, v, 1.0);
            !r.loco.status.isVaulting
            && StateOf(r) == (if v.loco.intent.wantsToSprint then Sprint else StateOf(v))
  {
  }

  /** The steps of Tick after the aiming update leave the aiming flag and the aim wish alone. */
  lemma LaterStepsKeepAim(cfg: CharacterConfig, v: CharView, grounded: bool, probe: VaultProbe)
    ensures var r := CheckVaultSpec(cfg, DeferredSlideSpec(cfg, v, grounded), probe);
            r.loco.status.isAiming == v.loco.status.isAiming && r.loco.intent.wantsToAim == v.loco.intent.wantsToAim
  {
  }

  /**
    Tick's aiming flag is computed from the state after the sprint restriction, before the deferred
    slide and the vault check; when neither of those starts, it agrees with the state the frame ends in.
  */
  lemma TickAiming(cfg: CharacterConfig, v: CharView, relativeAngle: real, grounded: bool, probe: VaultProbe,
                   floorSample: Option<real>)
    ensures var restricted := SprintRestrictionSpec(cfg, v, relativeAngle);
            var r := TickSpec(cfg, v, relativeAngle, grounded, probe, floorSample);
            r.loco.status.isAiming == (restricted.loco.intent.wantsToAim && StateOf(restricted) != Sprint && StateOf(restricted) != Slide)
            && (StateOf(r) == StateOf(restricted) ==>
                  r.loco.status.isAiming == (r.loco.intent.wantsToAim && StateOf(r) != Sprint && StateOf(r) != Slide))
  {
    var aimed := AimingSpec(SprintRestrictionSpec(cfg, v, relativeAngle));
    LaterStepsKeepAim(cfg, aimed, grounded, probe);
  }

  /**
    A slide requested in the air starts on the frame the character lands, after the aiming flag was
    computed: a walking character that wants to aim ends that frame aiming while sliding.
  */
  lemma AimingLagsDeferredSlide(cfg: CharacterConfig, v: CharView, relativeAngle: real, probe: VaultProbe,
                                floorSample: Option<real>)
    requires StateOf(v) == Walk && !v.loco.status.restrictingSprint && !cfg.canVault
    requires v.loco.intent.wantsToAim && v.loco.intent.wantsToSlide && !v.loco.intent.performedSlide
    ensures var r := TickSpec(cfg, v, relativeAngle, true, probe, floorSample);
            StateOf(r) == Slide && r.loco.status.isAiming && !r.loco.intent.wantsToSlide
  {
  }

  /**
    At the start of play the flags match the Walk state and no vault is pending, but the movement
    parameters match the Walk row only if the movement component's own acceleration, braking and
    friction already equal it, because BeginPlay copies the walk speed alone.
  */
  lemma StartCoherence(cfg: CharacterConfig, physics: Physics, w: Option<WeaponState>)
    ensures var v := CharView(BeginPlaySpec(cfg, InitialLoco(physics)), w);
            StateOf(v) == Walk && !v.loco.status.isCrouching && !v.loco.status.isSprinting && v.loco.vaultTarget == None
            && (Walk in cfg.profiles ==> v.loco.physics.maxWalkSpeed == cfg.profiles[Walk].maxWalkSpeed)
            && (Coherent(cfg, v) <==>
                  (Walk in cfg.profiles ==>
                     physics.maxAcceleration == cfg.profiles[Walk].maxAcceleration
                     && physics.brakingDecelerationWalking == cfg.profiles[Walk].brakingDecelerationWalking
                     && physics.groundFriction == cfg.profiles[Walk].groundFriction))
  {
  }

  /** The first change of movement state other than a vault makes the starting character coherent. */
  lemma {:induction false} FirstStateChangeCoheres(cfg: CharacterConfig, physics: Physics, w: Option<WeaponState>,
                                                   s: MovementState)
    requires s != Vault
    ensures Coherent(cfg, UpdateMovementStateSpec(cfg, CharView(BeginPlaySpec(cfg, InitialLoco(physics)), w), s))
  {
    UpdateMovementStateCoherent(cfg, CharView(BeginPlaySpec(cfg, InitialLoco(physics)), w), s);
  }

  // ---------------------------------------------------------------------------------------------
  // Runs of inputs

  /** The events that drive the character: input actions, timer and timeline callbacks, frames. */
  datatype Input =
    | ToggleCrouchInput(grounded: bool, hasSpace: bool)
    | ReleaseCrouchInput(hasSpace: bool)
    | StartSprintInput(hasSpace: bool)
    | StopSprintInput
    | StartAdsInput
    | StopAdsInput
    | LookInput(moved: bool)
    | TimelineInput(value: real)
    | TickInput(relativeAngle: real, grounded: bool, probe: VaultProbe, floorSample: Option<real>)

  function Apply(cfg: CharacterConfig, v: CharView, e: Input): CharView
  {
    match e
    case ToggleCrouchInput(grounded, hasSpace) => ToggleCrouchSpec(cfg, v, grounded, hasSpace)
    case ReleaseCrouchInput(hasSpace) => ReleaseCrouchSpec(cfg, v, hasSpace)
    case StartSprintInput(hasSpace) => StartSprintSpec(cfg, v, hasSpace)
    case StopSprintInput => StopSprintSpec(cfg, v)
    case StartAdsInput => SetAimSpec(v, true)
    case StopAdsInput => SetAimSpec(v, false)
    case LookInput(moved) => LookSpec(v, moved)
    case TimelineInput(value) => TimelineProgressSpec(cfg, v, value)
    case TickInput(angle, grounded, probe, floorSample) => TickSpec(cfg, v, angle, grounded, probe, floorSample)
  }

  function Run(cfg: CharacterConfig, v: CharView, es: seq<Input>): CharView
    decreases |es|
  {
    if es == [] then v else Run(cfg, Apply(cfg, v, es[0]), es[1..])
  }

  /**
    The locomotion invariant: the crouching and sprinting flags mirror the state, the movement
    parameters are those of the current state's profile (when it has one), and the Vault state
    always has a target.
  */
  predicate Coherent(cfg: CharacterConfig, v: CharView)
  {
    (v.loco.status.isCrouching <==> StateOf(v) == Crouch)
    && (v.loco.status.isSprinting <==> StateOf(v) == Sprint)
    && (StateOf(v) in cfg.profiles ==> v.loco.physics == ProfilePhysics(cfg.profiles[StateOf(v)]))
    && (StateOf(v) == Vault ==> v.loco.vaultTarget.Some?)
  }

  lemma UpdateMovementStateCoherent(cfg: CharacterConfig, v: CharView, s: MovementState)
    requires s != Vault || v.loco.vaultTarget.Some?
    ensures Coherent(cfg, UpdateMovementStateSpec(cfg, v, s))
  {
  }

  lemma {:induction false} StopCrouchCoherent(cfg: CharacterConfig, v: CharView, toSprint: bool, hasSpace: bool)
    requires Coherent(cfg, v)
    ensures Coherent(cfg, StopCrouchSpec(cfg, v, toSprint, hasSpace))
  {
    UpdateMovementStateCoherent(cfg, v, if toSprint then Sprint else Walk);
  }

  lemma {:induction false} StartSlideCoherent(cfg: CharacterConfig, v: CharView)
    ensures Coherent(cfg, StartSlideSpec(cfg, v))
  {
    UpdateMovementStateCoherent(cfg, WithIntent(v, v.loco.intent.(performedSlide := true)), Slide);
  }

  lemma {:induction false} StopSlideCoherent(cfg: CharacterConfig, v: CharView, hasSpace: bool)
    requires Coherent(cfg, v)
    ensures Coherent(cfg, StopSlideSpec(cfg, v, hasSpace))
  {
    if StateOf(v) == Slide && v.loco.floorAngle > cfg.slideContinueAngle {
      UpdateMovementStateCoherent(cfg, v, Crouch);
      UpdateMovementStateCoherent(cfg, v, Walk);
      StopCrouchCoherent(cfg, v, true, hasSpace);
    }
  }

  lemma {:induction false} SprintRestrictionCoherent(cfg: CharacterConfig, v: CharView, relativeAngle: real)
    requires Coherent(cfg, v)
    ensures Coherent(cfg, SprintRestrictionSpec(cfg, v, relativeAngle))
  {
    UpdateMovementStateCoherent(cfg, v, Walk);
    UpdateMovementStateCoherent(cfg, v, Sprint);
  }

  lemma {:induction false} CheckVaultCoherent(cfg: CharacterConfig, v: CharView, probe: VaultProbe)
    requires Coherent(cfg, v)
    ensures Coherent(cfg, CheckVaultSpec(cfg, v, probe))
  {
    var target := match ScanOutcome(probe.steps, cfg.maxMantleHeight) { case Some(k) => StepTarget(k) case None => MantleTarget };
    var vaulting := WithStatus(v, v.loco.status.(isVaulting := true));
    UpdateMovementStateCoherent(cfg, vaulting.(loco := vaulting.loco.(vaultTarget := Some(target))), Vault);
  }

  lemma {:induction false} TickCoherent(cfg: CharacterConfig, v: CharView, relativeAngle: real, grounded: bool,
                                        probe: VaultProbe, floorSample: Option<real>)
    requires Coherent(cfg, v)
    ensures Coherent(cfg, TickSpec(cfg, v, relativeAngle, grounded, probe, floorSample))
  {
    SprintRestrictionCoherent(cfg, v, relativeAngle);
    var aimed := AimingSpec(SprintRestrictionSpec(cfg, v, relativeAngle));
    StartSlideCoherent(cfg, aimed);
    var slid := DeferredSlideSpec(cfg, aimed, grounded);
    CheckVaultCoherent(cfg, slid, probe);
  }

  /** Every input keeps the locomotion invariant. */
  lemma {:induction false} ApplyCoherent(cfg: CharacterConfig, v: CharView, e: Input)
    requires Coherent(cfg, v)
    ensures Coherent(cfg, Apply(cfg, v, e))
  {
    match e
    case ToggleCrouchInput(grounded, hasSpace) =>
      var held := WithIntent(v, v.loco.intent.(holdingCrouch := true));
      StopCrouchCoherent(cfg, held, false, hasSpace);
      StartSlideCoherent(cfg, held);
      UpdateMovementStateCoherent(cfg, held, Crouch);
    case ReleaseCrouchInput(hasSpace) =>
      var released := WithIntent(v, v.loco.intent.(holdingCrouch := false, performedSlide := false));
      StopSlideCoherent(cfg, released, hasSpace);
      UpdateMovementStateCoherent(cfg, released, Walk);
    case StartSprintInput(hasSpace) =>
      UpdateMovementStateCoherent(cfg, WithIntent(v, v.loco.intent.(performedSlide := false)), Sprint);
    case StopSprintInput =>
      UpdateMovementStateCoherent(cfg, v, Crouch);
      UpdateMovementStateCoherent(cfg, v, Walk);
    case StartAdsInput =>
    case StopAdsInput =>
    case LookInput(moved) =>
    case TimelineInput(value) =>
      UpdateMovementStateCoherent(cfg, WithStatus(v, v.loco.status.(isVaulting := false)), Sprint);
    case TickInput(angle, grounded, probe, floorSample) =>
      TickCoherent(cfg, v, angle, grounded, probe, floorSample);
  }

  /** The locomotion invariant holds after any run of inputs that starts in a coherent state. */
  lemma {:induction false} RunCoherent(cfg: CharacterConfig, v: CharView, es: seq<Input>)
    requires Coherent(cfg, v)
    ensures Coherent(cfg, Run(cfg, v, es))
    decreases |es|
  {
    if es != [] {
      ApplyCoherent(cfg, v, es[0]);
      RunCoherent(cfg, Apply(cfg, v, es[0]), es[1..]);
    }
  }

  // ---------------------------------------------------------------------------------------------
  // The character

  class Character {
    const cfg: CharacterConfig

    var state: MovementState
    var isCrouching: bool
    var isSprinting: bool
    var isAiming: bool
    var restrictingSprint: bool
    var isVaulting: bool
    var holdingCrouch: bool
    var wantsToSprint: bool
    var wantsToSlide: bool
    var performedSlide: bool
    var wantsToAim: bool
    /** The movement component's parameters. */
    var physics: Physics
    var floorAngle: real
    var slideStop: Timer
    var vaultTarget: Option<VaultTarget>

    function Loco(): Locomotion
      reads this
    {
      Locomotion(Status(state, isCrouching, isSprinting, isAiming, restrictingSprint, isVaulting),
                 Intent(holdingCrouch, wantsToSprint, wantsToSlide, performedSlide, wantsToAim),
                 physics, floorAngle, slideStop, vaultTarget)
    }

    /** The character and the current weapon (null when the inventory has none). */
    function View(weapon: Weapon?): CharView
      reads this, weapon
    {
      CharView(Loco(), if weapon == null then None else Some(weapon.State()))
    }

    /** A character standing in Walk with every flag clear and the movement component's parameters. */
    constructor (cfg: CharacterConfig, physics: Physics)
      ensures this.cfg == cfg
      ensures Loco() == InitialLoco(physics)
      ensures Coherent(cfg, CharView(Loco(), None)) <==> (Walk in cfg.profiles ==> physics == ProfilePhysics(cfg.profiles[Walk]))
    {
      this.cfg := cfg;
      state := Walk;
      isCrouching, isSprinting, isAiming, restrictingSprint, isVaulting := false, false, false, false, false;
      holdingCrouch, wantsToSprint, wantsToSlide, performedSlide, wantsToAim := false, false, false, false, false;
      this.physics := physics;
      floorAngle := 0.0;
      slideStop := Cleared;
      vaultTarget := None;
    }

    /** BeginPlay: the walk speed of the Walk row is applied to the movement component. */
    method BeginPlay()
      modifies this
      ensures Loco() == BeginPlaySpec(cfg, old(Loco()))
    {
      if Walk in cfg.profiles {
        physics := physics.(maxWalkSpeed := cfg.profiles[Walk].maxWalkSpeed);
      }
    }

    method UpdateMovementState(s: MovementState, weapon: Weapon?)
      modifies this, weapon
      ensures View(weapon) == UpdateMovementStateSpec(cfg, old(View(weapon)), s)
    {
      isSprinting := false;
      isCrouching := false;
      state := s;
      if s in cfg.profiles {
        var p := cfg.profiles[s];
        if weapon != null {
          weapon.SetCanFire(p.canFire);
          weapon.SetCanReload(p.canReload);
        }
        physics := Physics(p.maxAcceleration, p.brakingDecelerationWalking, p.groundFriction, p.maxWalkSpeed);
      }
      if state == Crouch {
        isCrouching := true;
      }
      if state == Sprint {
        isSprinting := true;
      }
    }

    method StopCrouch(toSprint: bool, hasSpace: bool, weapon: Weapon?)
      modifies this, weapon
      ensures View(weapon) == StopCrouchSpec(cfg, old(View(weapon)), toSprint, hasSpace)
    {
      if (state == Crouch || state == Slide) && hasSpace {
        if toSprint {
          UpdateMovementState(Sprint, weapon);
        } else {
          UpdateMovementState(Walk, weapon);
        }
      }
    }

    method StartSprint(hasSpace: bool, weapon: Weapon?)
      modifies this, weapon
      ensures View(weapon) == StartSprintSpec(cfg, old(View(weapon)), hasSpace)
    {
      if !hasSpace && (state == Crouch || state == Slide) {
        return;
      }
      performedSlide := false;
      ghost var marked := View(weapon);
      assert marked == WithIntent(old(View(weapon)), old(View(weapon)).loco.intent.(performedSlide := false));
      UpdateMovementState(Sprint, weapon);
      assert View(weapon) == UpdateMovementStateSpec(cfg, marked, Sprint);
      wantsToSprint := true;
    }

    method StopSprint(weapon: Weapon?)
      modifies this, weapon
      ensures View(weapon) == StopSprintSpec(cfg, old(View(weapon)))
    {
      if state == Slide && holdingCrouch {
        UpdateMovementState(Crouch, weapon);
      } else if state == Sprint {
        UpdateMovementState(Walk, weapon);
      }
      wantsToSprint := false;
    }

    method StartSlide(weapon: Weapon?)
      modifies this, weapon
      ensures View(weapon) == StartSlideSpec(cfg, old(View(weapon)))
    {
      performedSlide := true;
      ghost var marked := View(weapon);
      assert marked == WithIntent(old(View(weapon)), old(View(weapon)).loco.intent.(performedSlide := true));
      UpdateMovementState(Slide, weapon);
      assert View(weapon) == UpdateMovementStateSpec(cfg, marked, Slide);
      slideStop := SetTimer(cfg.slideTime, false);
    }

    method StopSlide(hasSpace: bool, weapon: Weapon?)
      modifies this, weapon
      ensures View(weapon) == StopSlideSpec(cfg, old(View(weapon)), hasSpace)
    {
      if state == Slide && floorAngle > cfg.slideContinueAngle {
        if !hasSpace {
          UpdateMovementState(Crouch, weapon);
        } else if wantsToSprint {
          StopCrouch(true, hasSpace, weapon);
        } else if holdingCrouch {
          UpdateMovementState(Crouch, weapon);
        } else {
          UpdateMovementState(Walk, weapon);
        }
        performedSlide := false;
        slideStop := Cleared;
      } else if floorAngle < -cfg.slideContinueAngle {
        slideStop := SetTimer(0.1, false);
      }
    }

    method ToggleCrouch(grounded: bool, hasSpace: bool, weapon: Weapon?)
      modifies this, weapon
      ensures View(weapon) == ToggleCrouchSpec(cfg, old(View(weapon)), grounded, hasSpace)
    {
      holdingCrouch := true;
      ghost var held := View(weapon);
      assert held == WithIntent(old(View(weapon)), old(View(weapon)).loco.intent.(holdingCrouch := true));
      if grounded {
        if state == Crouch {
          StopCrouch(false, hasSpace, weapon);
        } else if state == Sprint && !performedSlide && cfg.canSlide {
          StartSlide(weapon);
        } else {
          UpdateMovementState(Crouch, weapon);
          if wantsToSprint {
            wantsToSprint := false;
          }
        }
      } else if !performedSlide {
        wantsToSlide := true;
      }
    }

    /** ReleaseCrouch: the crouch key's release, and the callback of the slide-stop timer. */
    method ReleaseCrouch(hasSpace: bool, weapon: Weapon?)
      modifies this, weapon
      ensures View(weapon) == ReleaseCrouchSpec(cfg, old(View(weapon)), hasSpace)
    {
      holdingCrouch := false;
      performedSlide := false;
      if state == Slide {
        StopSlide(hasSpace, weapon);
      } else if !cfg.crouchIsToggle {
        if state == Sprint {
          return;
        }
        UpdateMovementState(Walk, weapon);
      }
    }

    method StartAds()
      modifies this
      ensures Loco() == SetAimSpec(CharView(old(Loco()), None), true).loco
    {
      wantsToAim := true;
    }

    method StopAds()
      modifies this
      ensures Loco() == SetAimSpec(CharView(old(Loco()), None), false).loco
    {
      wantsToAim := false;
    }

    method Look(moved: bool, weapon: Weapon?)
      modifies this, weapon
      ensures View(weapon) == LookSpec(old(View(weapon)), moved)
    {
      if moved && weapon != null {
        weapon.CancelRecovery();
      }
    }

    method Vault(target: VaultTarget, weapon: Weapon?)
      modifies this, weapon
      ensures View(weapon) == VaultSpec(cfg, old(View(weapon)), target)
    {
      vaultTarget := Some(target);
      UpdateMovementState(MovementState.Vault, weapon);
    }

    /** The vault timeline's progress callback; only its completion (value 1) changes state. */
    method TimelineProgress(value: real, weapon: Weapon?)
      modifies this, weapon
      ensures View(weapon) == TimelineProgressSpec(cfg, old(View(weapon)), value)
    {
      if value == 1.0 {
        isVaulting := false;
        if wantsToSprint {
          UpdateMovementState(Sprint, weapon);
        }
      }
    }

    /** CheckVault: the vault and mantle decision, with the step scan as a loop over the probes. */
    method CheckVault(probe: VaultProbe, weapon: Weapon?)
      requires |probe.steps| == StepCount(cfg.vaultTraceAmount)
      modifies this, weapon
      ensures View(weapon) == CheckVaultSpec(cfg, old(View(weapon)), probe)
    {
      if !cfg.canVault {
        return;
      }
      if !(probe.forwardVelocityPositive && !isVaulting && probe.falling) {
        return;
      }
      if !probe.wallHit || !probe.ledgeStandable {
        return;
      }
      var accepted := ScanSteps(probe.steps, cfg.vaultTraceAmount, cfg.maxMantleHeight);
      if accepted.Some? {
        isVaulting := true;
        Vault(StepTarget(accepted.value), weapon);
        return;
      }
      if probe.mantleBlocked {
        return;
      }
      isVaulting := true;
      Vault(MantleTarget, weapon);
    }

    /** The sprint-angle restriction at the start of Tick. */
    method RestrictSprint(relativeAngle: real, weapon: Weapon?)
      modifies this, weapon
      ensures View(weapon) == SprintRestrictionSpec(cfg, old(View(weapon)), relativeAngle)
    {
      if cfg.restrictSprintAngle {
        if relativeAngle > cfg.sprintAngleLimit && state == Sprint {
          UpdateMovementState(Walk, weapon);
          restrictingSprint := true;
        } else if relativeAngle < cfg.sprintAngleLimit && restrictingSprint && wantsToSprint && state != Sprint {
          UpdateMovementState(Sprint, weapon);
          restrictingSprint := false;
        }
      }
    }

    /** The deferred slide of Tick. */
    method SlideOnLanding(grounded: bool, weapon: Weapon?)
      modifies this, weapon
      ensures View(weapon) == DeferredSlideSpec(cfg, old(View(weapon)), grounded)
    {
      if grounded && !performedSlide && wantsToSlide {
        StartSlide(weapon);
        wantsToSlide := false;
      }
    }

    /** Tick: the discrete part of the frame update. */
    method Tick(relativeAngle: real, grounded: bool, probe: VaultProbe, floorSample: Option<real>, weapon: Weapon?)
      requires |probe.steps| == StepCount(cfg.vaultTraceAmount)
      modifies this, weapon
      ensures View(weapon) == TickSpec(cfg, old(View(weapon)), relativeAngle, grounded, probe, floorSample)
    {
      RestrictSprint(relativeAngle, weapon);
      ghost var restricted := View(weapon);
      isAiming := wantsToAim && state != Sprint && state != Slide;
      assert View(weapon) == AimingSpec(restricted);
      SlideOnLanding(grounded, weapon);
      ghost var slid := View(weapon);
      CheckVault(probe, weapon);
      assert View(weapon) == CheckVaultSpec(cfg, slid, probe);
      if floorSample.Some? {
        floorAngle := floorSample.value;
      }
    }
  }
}
