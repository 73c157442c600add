/**
  The per-weapon fire, recoil and reload controller (AWeapon). The weapon is a class whose fields
  the methods update in place; every method is specified by a pure function over WeaponState, the
  value snapshot of those fields, and the properties of the controller are lemmas about those
  functions.
*/
module WeaponCore {
  import opened Common

  /** Identifies an ammunition type (an EAmmoType enumerator). */
  type AmmoType = nat

  /** A rate of fire in rounds per minute; the shot interval is 60 / rate. */
  type PositiveReal = r: real | r > 0.0 witness 1.0

  /**
    The static weapon configuration (FStaticWeaponData) that the controller reads. Animation assets
    are represented by their play length: None when the asset is not set.
  */
  datatype WeaponData = WeaponData(
    rateOfFire: PositiveReal,
    automaticFire: bool,
    canBeChambered: bool,
    preventRapidManualFire: bool,
    isShotgun: bool,
    shotgunPellets: int,
    gunShot: Option<real>,
    waitForAnim: bool,
    emptyPlayerReload: Option<real>,
    playerReload: Option<real>,
    recoilCurvesValid: bool,
    weaponEquip: bool,
    weaponUnequip: Option<real>)

  /** The per-instance ammunition data (FRuntimeWeaponData) handed to a weapon when it is spawned. */
  datatype RuntimeWeaponData = RuntimeWeaponData(ammoType: AmmoType, clipCapacity: int, clipSize: int)

  /** Which recoil sample a shot applies: none, the fixed first-shot kick at time 0, or the live timeline position. */
  datatype RecoilKick = NoKick | FirstShotKick | LiveKick

  /** The weapon's fire-control flags. */
  datatype FireFlags = FireFlags(
    canFire: bool,
    canReload: bool,
    isReloading: bool,
    isReadyToFire: bool,
    hasFiredRecently: bool)

  /**
    The recoil bookkeeping: shots fired in the current burst, whether recovery is wanted, and whether
    the recoil timelines (vertical and horizontal) and the recovery timeline are playing.
  */
  datatype RecoilState = RecoilState(
    shotsFired: nat,
    shouldRecover: bool,
    recoilPlaying: bool,
    recoveryPlaying: bool)

  /** The weapon's four timer handles. */
  datatype WeaponTimers = WeaponTimers(
    shotDelay: Timer,
    spamFireDelay: Timer,
    animWaitDelay: Timer,
    reloadDelay: Timer)

  /** Every field of a weapon that its methods change. */
  datatype WeaponState = WeaponState(clipSize: int, flags: FireFlags, recoil: RecoilState, timers: WeaponTimers)

  /** The result of a completed reload: the new clip and the new pool for the weapon's ammunition type. */
  datatype Refill = Refill(clip: int, pool: int)

  /** The player controller's ammunition pool (AmmoMap), shared by every weapon. */
  class AmmoStore {
    var ammo: map<AmmoType, int>

    constructor (ammo: map<AmmoType, int>)
      ensures this.ammo == ammo
    {
      this.ammo := ammo;
    }
  }

  // ---------------------------------------------------------------------------------------------
  // Ammunition arithmetic

  /** The extra round a chamberable weapon can hold beyond its clip capacity. */
  function MaxChamber(chamberable: bool): int
  {
    if chamberable then 1 else 0
  }

  /** The chambered round counted by a completed reload: only when a round is still in the clip. */
  function ChamberBonus(clip: int, chamberable: bool): int
  {
    if clip > 0 && chamberable then 1 else 0
  }

  /** The clip invariant: between empty and full capacity plus a chambered round. */
  predicate ClipInRange(clip: int, capacity: int, chamberable: bool)
  {
    0 <= capacity && 0 <= clip <= capacity + MaxChamber(chamberable)
  }

  /** The clip and pool after a reload completes (the arithmetic of UpdateAmmo). */
  function RefillAmmo(capacity: int, clip: int, chamberable: bool, pool: int): (r: Refill)
    ensures r.clip + r.pool == clip + pool
    ensures pool >= 0 ==> r.pool >= 0
    ensures pool >= capacity - clip + ChamberBonus(clip, chamberable) ==>
              r.clip == capacity + ChamberBonus(clip, chamberable)
    ensures pool < capacity - clip + ChamberBonus(clip, chamberable) ==> r.clip == clip + pool && r.pool == 0
    ensures clip <= capacity && pool >= 0 ==> r.clip <= capacity + ChamberBonus(clip, chamberable)
  {
    var bonus := ChamberBonus(clip, chamberable);
    var needed := capacity - clip;
    if pool >= needed + bonus then Refill(capacity + bonus, pool - (needed + bonus))
    else Refill(clip + pool, 0)
  }

  /** A completed reload keeps the clip invariant and never drives the pool negative. */
  lemma RefillKeepsClipInRange(capacity: int, clip: int, chamberable: bool, pool: int)
    requires ClipInRange(clip, capacity, chamberable) && pool >= 0
    ensures ClipInRange(RefillAmmo(capacity, clip, chamberable, pool).clip, capacity, chamberable)
    ensures 0 <= RefillAmmo(capacity, clip, chamberable, pool).pool <= pool
    ensures RefillAmmo(capacity, clip, chamberable, pool).clip >= clip
  {
    var r := RefillAmmo(capacity, clip, chamberable, pool);
    var bonus := ChamberBonus(clip, chamberable);
    if pool >= capacity - clip + bonus {
      assert r.clip == capacity + bonus;
      assert bonus <= MaxChamber(chamberable);
      if clip == capacity + 1 {
        assert chamberable && bonus == 1;
      }
    } else {
      assert r.clip == clip + pool && r.pool == 0;
    }
  }

  /**
    A reload that the weapon agreed to start (clip not full, pool non-empty) takes at least one
    round from the pool into the clip, except for a chamberable weapon of capacity 0.
  */
  lemma RefillMakesProgress(capacity: int, clip: int, chamberable: bool, pool: int)
    requires ClipInRange(clip, capacity, chamberable) && capacity > 0
    requires clip != capacity + MaxChamber(chamberable) && pool > 0
    ensures RefillAmmo(capacity, clip, chamberable, pool).clip > clip
    ensures RefillAmmo(capacity, clip, chamberable, pool).pool < pool
  {
    var bonus := ChamberBonus(clip, chamberable);
    if clip == capacity {
      assert chamberable && bonus == 1;
    }
  }

  /** A chamberable weapon reloaded from empty gets no chambered round: capacity 30, pool 100 ends at 30 / 70. */
  lemma EmptyChamberableReload()
    ensures RefillAmmo(30, 0, true, 100) == Refill(30, 70)
  {
  }

  /** Not enough ammunition: the clip absorbs the whole pool. */
  lemma ShortPoolReload()
    ensures RefillAmmo(30, 0, true, 20) == Refill(20, 0)
  {
  }

  /** A partly full chamberable weapon is topped up to capacity plus the chambered round. */
  lemma PartialChamberableReload()
    ensures RefillAmmo(30, 5, true, 100) == Refill(31, 74)
  {
  }

  // ---------------------------------------------------------------------------------------------
  // Recoil

  /** The recoil sample applied by one call of Recoil, given the shots fired so far in the burst. */
  function Kick(data: WeaponData, hasController: bool, shotsFired: nat): RecoilKick
  {
    if data.automaticFire && hasController && shotsFired > 0 && data.recoilCurvesValid then LiveKick
    else if hasController && shotsFired <= 0 && data.recoilCurvesValid then FirstShotKick
    else NoKick
  }

  /** The samples applied by n consecutive calls of Recoil starting with `start` shots fired. */
  function Kicks(data: WeaponData, hasController: bool, start: nat, n: nat): seq<RecoilKick>
  {
    if n == 0 then [] else Kicks(data, hasController, start, n - 1) + [Kick(data, hasController, start + n - 1)]
  }

  /** The number of samples that actually move the aim. */
  function KickCount(ks: seq<RecoilKick>): nat
  {
    if ks == [] then 0 else KickCount(ks[..|ks| - 1]) + (if ks[|ks| - 1] == NoKick then 0 else 1)
  }

  /** The k-th call of Recoil in a run samples with k more shots fired than the first. */
  lemma {:induction false} KicksAt(data: WeaponData, hasController: bool, start: nat, n: nat, k: nat)
    requires k < n
    ensures |Kicks(data, hasController, start, n)| == n
    ensures Kicks(data, hasController, start, n)[k] == Kick(data, hasController, start + k)
  {
    KicksLength(data, hasController, start, n - 1);
    if k < n - 1 {
      KicksAt(data, hasController, start, n - 1, k);
    }
  }

  lemma {:induction false} KicksLength(data: WeaponData, hasController: bool, start: nat, n: nat)
    ensures |Kicks(data, hasController, start, n)| == n
  {
    if n > 0 {
      KicksLength(data, hasController, start, n - 1);
    }
  }

  /**
    A semi-automatic weapon kicks at most once per burst: only the first pellet of the first shot
    (shots fired 0) samples the curves, at time 0.
  */
  lemma {:induction false} SemiAutomaticKicksOnce(data: WeaponData, hasController: bool, start: nat, n: nat)
    requires !data.automaticFire
    ensures KickCount(Kicks(data, hasController, start, n)) ==
              (if start == 0 && n > 0 && hasController && data.recoilCurvesValid then 1 else 0)
  {
    if n > 0 {
      var ks := Kicks(data, hasController, start, n);
      assert ks[..|ks| - 1] == Kicks(data, hasController, start, n - 1);
      SemiAutomaticKicksOnce(data, hasController, start, n - 1);
    }
  }

  /** An automatic weapon with a controller and valid curves kicks on every pellet. */
  lemma {:induction false} AutomaticKicksEveryShot(data: WeaponData, hasController: bool, start: nat, n: nat)
    requires data.automaticFire && hasController && data.recoilCurvesValid
    ensures KickCount(Kicks(data, hasController, start, n)) == n
  {
    if n > 0 {
      var ks := Kicks(data, hasController, start, n);
      assert ks[..|ks| - 1] == Kicks(data, hasController, start, n - 1);
      AutomaticKicksEveryShot(data, hasController, start, n - 1);
    }
  }

  // ---------------------------------------------------------------------------------------------
  // Specification functions of the weapon's transitions

  /**
    RecoilRecovery: the recovery timeline (re)starts only while recovery is wanted. The flag records
    that the timeline is playing; a restart from the beginning of a timeline already playing is not
    told apart from leaving it running.
  */
  function Recovery(s: WeaponState): WeaponState
  {
    if s.recoil.shouldRecover then s.(recoil := s.recoil.(recoveryPlaying := true)) else s
  }

  /** Stops the recoil timelines. */
  function StopRecoil(s: WeaponState): WeaponState
  {
    s.(recoil := s.recoil.(recoilPlaying := false))
  }

  /** StopFire, with the time left on the shot timer read by the engine before it is cleared. */
  function StopFireSpec(data: WeaponData, s: WeaponState, remaining: real): WeaponState
  {
    var recovering := Recovery(StopRecoil(s));
    var stopped := recovering.(recoil := recovering.recoil.(shotsFired := 0));
    var cooled :=
      if data.preventRapidManualFire && stopped.flags.hasFiredRecently
      then stopped.(flags := stopped.flags.(hasFiredRecently := false, isReadyToFire := false),
                    timers := stopped.timers.(spamFireDelay := SetTimer(remaining, false)))
      else stopped;
    cooled.(timers := cooled.timers.(shotDelay := Cleared))
  }

  /** The guard of a live shot. */
  predicate FireAllowed(s: WeaponState)
  {
    s.flags.canFire && s.flags.isReadyToFire && s.clipSize > 0 && !s.flags.isReloading
  }

  /** The guard of a dry fire: the weapon could fire but has no live shot. */
  predicate DryFires(s: WeaponState)
  {
    !FireAllowed(s) && s.flags.canFire && !s.flags.isReloading
  }

  /** Projectiles per shot: the pellet count of a shotgun (a non-positive count fires none), else one. */
  function Pellets(data: WeaponData): nat
  {
    if data.isShotgun then (if data.shotgunPellets > 0 then data.shotgunPellets else 0) else 1
  }

  /** Whether each projectile holds the weapon until the firing animation ends. */
  predicate WaitsForAnim(data: WeaponData)
  {
    data.gunShot.Some? && data.waitForAnim
  }

  /** The effect of one projectile: one recoil call and, if configured, the animation wait. */
  function PelletStep(data: WeaponData, s: WeaponState): WeaponState
  {
    var counted := s.(recoil := s.recoil.(shotsFired := s.recoil.shotsFired + 1));
    if WaitsForAnim(data)
    then counted.(flags := counted.flags.(canFire := false),
                  timers := counted.timers.(animWaitDelay := SetTimer(data.gunShot.value, false)))
    else counted
  }

  /** The state after the first n projectiles of one shot. */
  function AfterPellets(data: WeaponData, s: WeaponState, n: nat): WeaponState
  {
    if n == 0 then s else PelletStep(data, AfterPellets(data, s, n - 1))
  }

  /** A live shot: one round leaves the clip, every projectile recoils, a semi-automatic burst ends at once. */
  function LiveShot(data: WeaponData, s: WeaponState): WeaponState
  {
    var shot := AfterPellets(data, s.(clipSize := s.clipSize - 1), Pellets(data));
    var settled := if !data.automaticFire then Recovery(StopRecoil(shot)) else shot;
    settled.(flags := settled.flags.(hasFiredRecently := true))
  }

  /** A dry fire: the shot timer is cleared and recovery restarts. */
  function DryFire(s: WeaponState): WeaponState
  {
    Recovery(s.(timers := s.timers.(shotDelay := Cleared)))
  }

  /** Fire (one tick of the shot timer): a live shot, a dry fire, or nothing. */
  function FireSpec(data: WeaponData, s: WeaponState): WeaponState
  {
    if FireAllowed(s) then LiveShot(data, s)
    else if s.flags.canFire && !s.flags.isReloading then DryFire(s)
    else s
  }

  /** The guard under which Reload starts a reload. */
  predicate ReloadStarts(data: WeaponData, s: WeaponState, ammoType: AmmoType, capacity: int, pool: map<AmmoType, int>)
  {
    s.flags.canReload && ammoType in pool && !s.flags.isReloading && pool[ammoType] > 0
    && s.clipSize != capacity + MaxChamber(data.canBeChambered)
  }

  /** The reload delay: the empty-clip montage, else the partial-clip montage, else two seconds. */
  function ReloadTime(data: WeaponData, clip: int): real
  {
    if clip <= 0 && data.emptyPlayerReload.Some? then data.emptyPlayerReload.value
    else if data.playerReload.Some? then data.playerReload.value
    else 2.0
  }

  /** Reload: the state after the call. */
  function ReloadSpec(data: WeaponData, s: WeaponState, ammoType: AmmoType, capacity: int, pool: map<AmmoType, int>): WeaponState
  {
    if ReloadStarts(data, s, ammoType, capacity, pool)
    then s.(flags := s.flags.(canFire := false, isReloading := true),
            timers := s.timers.(reloadDelay := SetTimer(ReloadTime(data, s.clipSize), false)))
    else s
  }

  /** UpdateAmmo: the state after a reload completes while the character is in the given movement state. */
  function UpdateAmmoSpec(s: WeaponState, clip: int, movement: MovementState): WeaponState
  {
    s.(clipSize := clip,
       flags := s.flags.(isReloading := false, isReadyToFire := true,
                         canFire := s.flags.canFire || (movement != Sprint && movement != Slide)))
  }

  /** Every projectile adds one to the burst's shot count; only the first can start the animation wait. */
  lemma {:induction false} AfterPelletsCounts(data: WeaponData, s: WeaponState, n: nat)
    ensures var t := AfterPellets(data, s, n);
            t.recoil.shotsFired == s.recoil.shotsFired + n && t.clipSize == s.clipSize
            && t.flags.canFire == (s.flags.canFire && !(n > 0 && WaitsForAnim(data)))
            && t.flags.(canFire := s.flags.canFire) == s.flags
            && t.recoil.(shotsFired := s.recoil.shotsFired) == s.recoil
            && t.timers == (if n > 0 && WaitsForAnim(data)
                            then s.timers.(animWaitDelay := SetTimer(data.gunShot.value, false))
                            else s.timers)
  {
    if n > 0 {
      AfterPelletsCounts(data, s, n - 1);
    }
  }

  /**
    StopFire ends the burst: the shot counter and the shot timer are reset, the recoil timelines stop,
    and the rapid-fire cooldown starts exactly when it is enabled and the weapon has fired since the
    last stop; otherwise readiness and the fired-recently flag are left alone.
  */
  lemma StopFireEndsBurst(data: WeaponData, s: WeaponState, remaining: real)
    ensures var t := StopFireSpec(data, s, remaining);
            t.recoil.shotsFired == 0 && t.timers.shotDelay == Cleared && !t.recoil.recoilPlaying
            && t.clipSize == s.clipSize
            && (data.preventRapidManualFire && s.flags.hasFiredRecently ==>
                  !t.flags.hasFiredRecently && !t.flags.isReadyToFire
                  && t.timers.spamFireDelay.Armed? == (remaining > 0.0))
            && (!(data.preventRapidManualFire && s.flags.hasFiredRecently) ==>
                  t.flags == s.flags && t.timers.spamFireDelay == s.timers.spamFireDelay)
            && t.recoil.recoveryPlaying == (s.recoil.recoveryPlaying || s.recoil.shouldRecover)
  {
  }

  /**
    Stopping fire twice in a row leaves every flag, counter and timer as stopping it once does (the
    second call restarts the recovery timeline, whose position is not modelled).
  */
  lemma StopFireIdempotent(data: WeaponData, s: WeaponState, r1: real, r2: real)
    ensures StopFireSpec(data, StopFireSpec(data, s, r1), r2) == StopFireSpec(data, s, r1)
  {
  }

  /**
    A live shot removes exactly one round whatever the pellet count, counts one shot per projectile
    and marks the weapon as having fired; it disables fire only when it waits for the firing
    animation, and never touches reloading.
  */
  lemma {:induction false} LiveShotUsesOneRound(data: WeaponData, s: WeaponState)
    requires FireAllowed(s)
    ensures var t := FireSpec(data, s);
            t.clipSize == s.clipSize - 1 && t.flags.hasFiredRecently
            && t.recoil.shotsFired == s.recoil.shotsFired + Pellets(data)
            && t.flags.canFire == !(Pellets(data) > 0 && WaitsForAnim(data))
            && !t.flags.isReloading && t.flags.canReload == s.flags.canReload
  {
    AfterPelletsCounts(data, s.(clipSize := s.clipSize - 1), Pellets(data));
  }

  /**
    Fire never leaves the clip negative. A dry fire leaves the clip and the flags unchanged and clears
    the shot timer; a weapon that cannot fire or is reloading is left exactly as it was.
  */
  lemma {:induction false} FireKeepsClipNonNegative(data: WeaponData, s: WeaponState)
    requires s.clipSize >= 0
    ensures FireSpec(data, s).clipSize >= 0
    ensures DryFires(s) ==>
              FireSpec(data, s).clipSize == s.clipSize && FireSpec(data, s).flags == s.flags
              && FireSpec(data, s).timers.shotDelay == Cleared
    ensures !s.flags.canFire || s.flags.isReloading ==> FireSpec(data, s) == s
  {
    if FireAllowed(s) {
      AfterPelletsCounts(data, s.(clipSize := s.clipSize - 1), Pellets(data));
    }
  }

  /** A reload that starts leaves the weapon unable to fire until UpdateAmmo; one that does not start changes nothing. */
  lemma ReloadGuard(data: WeaponData, s: WeaponState, ammoType: AmmoType, capacity: int, pool: map<AmmoType, int>)
    ensures var t := ReloadSpec(data, s, ammoType, capacity, pool);
            if ReloadStarts(data, s, ammoType, capacity, pool)
            then t.flags.isReloading && !t.flags.canFire && t.clipSize == s.clipSize
                 && t.timers.reloadDelay.Armed? == (ReloadTime(data, s.clipSize) > 0.0)
            else t == s
  {
  }

  /**
    While a reload is in progress a second Reload changes nothing, and Fire does nothing at all:
    the reload cannot be restarted and no round can be fired until UpdateAmmo ends it.
  */
  lemma ReloadingBlocksFireAndReload(data: WeaponData, s: WeaponState, ammoType: AmmoType, capacity: int, pool: map<AmmoType, int>)
    requires s.flags.isReloading
    ensures ReloadSpec(data, s, ammoType, capacity, pool) == s
    ensures FireSpec(data, s) == s
  {
  }

  /** After UpdateAmmo the weapon is ready again and no longer reloading; fire is re-enabled unless sprinting or sliding. */
  lemma UpdateAmmoEndsReload(s: WeaponState, clip: int, movement: MovementState)
    ensures var t := UpdateAmmoSpec(s, clip, movement);
            !t.flags.isReloading && t.flags.isReadyToFire && t.clipSize == clip
            && (movement != Sprint && movement != Slide ==> t.flags.canFire)
            && (movement == Sprint || movement == Slide ==> t.flags.canFire == s.flags.canFire)
  {
  }

  /** The state of a freshly spawned weapon. */
  function InitialState(clipSize: int): WeaponState
  {
    WeaponState(clipSize, FireFlags(true, true, false, true, false), RecoilState(0, false, false, false),
                WeaponTimers(Cleared, Cleared, Cleared, Cleared))
  }

  // ---------------------------------------------------------------------------------------------
  // The weapon

  class Weapon {
    const data: WeaponData
    const ammoType: AmmoType
    const clipCapacity: int

    var clipSize: int
    var canFire: bool
    var canReload: bool
    var isReloading: bool
    var isReadyToFire: bool
    var hasFiredRecently: bool
    var shotsFired: nat
    var shouldRecover: bool
    /** Whether the vertical and horizontal recoil timelines are playing. */
    var recoilPlaying: bool
    /** Whether the recoil recovery timeline is playing. */
    var recoveryPlaying: bool
    var shotDelay: Timer
    var spamFireDelay: Timer
    var animWaitDelay: Timer
    var reloadDelay: Timer

    /** The value of every field the methods change. */
    function State(): WeaponState
      reads this
    {
      WeaponState(clipSize, FireFlags(canFire, canReload, isReloading, isReadyToFire, hasFiredRecently),
                  RecoilState(shotsFired, shouldRecover, recoilPlaying, recoveryPlaying),
                  WeaponTimers(shotDelay, spamFireDelay, animWaitDelay, reloadDelay))
    }

    constructor (data: WeaponData, runtime: RuntimeWeaponData)
      ensures this.data == data && ammoType == runtime.ammoType && clipCapacity == runtime.clipCapacity
      ensures State() == InitialState(runtime.clipSize)
    {
      this.data := data;
      ammoType := runtime.ammoType;
      clipCapacity := runtime.clipCapacity;
      clipSize := runtime.clipSize;
      canFire, canReload, isReloading, isReadyToFire, hasFiredRecently := true, true, false, true, false;
      shotsFired, shouldRecover, recoilPlaying, recoveryPlaying := 0, false, false, false;
      shotDelay, spamFireDelay, animWaitDelay, reloadDelay := Cleared, Cleared, Cleared, Cleared;
    }

    /** StartFire: arms the shot timer (repeating for automatic fire) and starts the recoil timelines. */
    method StartFire(hasController: bool)
      modifies this
      ensures State() == if old(canFire) then StartRecoilSpec(ArmShotTimer(data, old(State())), hasController)
                         else old(State())
    {
      if canFire {
        shotDelay := SetTimer(60.0 / data.rateOfFire, data.automaticFire);
        StartRecoil(hasController);
      }
    }

    /** The shot timer armed at the weapon's rate of fire, looping for automatic fire. */
    static function ArmShotTimer(data: WeaponData, s: WeaponState): (t: WeaponState)
      ensures t.timers.shotDelay == Armed(60.0 / data.rateOfFire, data.automaticFire)
    {
      s.(timers := s.timers.(shotDelay := SetTimer(60.0 / data.rateOfFire, data.automaticFire)))
    }

    /** The recoil burst begins only for a weapon that can actually fire a round. */
    static function StartRecoilSpec(s: WeaponState, hasController: bool): WeaponState
    {
      if s.flags.canFire && s.clipSize > 0 && !s.flags.isReloading && hasController
      then s.(recoil := s.recoil.(recoilPlaying := true, shouldRecover := true))
      else s
    }

    /** StartRecoil: plays the recoil timelines and arms recovery when a round can be fired. */
    method StartRecoil(hasController: bool)
      modifies this
      ensures State() == StartRecoilSpec(old(State()), hasController)
    {
      if canFire && clipSize > 0 && !isReloading && hasController {
        recoilPlaying := true;
        shouldRecover := true;
      }
    }

    /** EnableFire: the callback that ends an animation wait. */
    method EnableFire()
      modifies this
      ensures State() == old(State()).(flags := old(State()).flags.(canFire := true))
    {
      canFire := true;
    }

    /** ReadyToFire: the callback that ends the rapid-fire cooldown. */
    method ReadyToFire()
      modifies this
      ensures State() == old(State()).(flags := old(State()).flags.(isReadyToFire := true))
    {
      isReadyToFire := true;
    }

    /** SetCanFire: the movement state's permission to fire. */
    method SetCanFire(value: bool)
      modifies this
      ensures State() == old(State()).(flags := old(State()).flags.(canFire := value))
    {
      canFire := value;
    }

    /** SetCanReload: the movement state's permission to reload. */
    method SetCanReload(value: bool)
      modifies this
      ensures State() == old(State()).(flags := old(State()).flags.(canReload := value))
    {
      canReload := value;
    }

    /** Cancels recoil recovery (the player moved the aim): recovery is no longer wanted and its timeline stops. */
    method CancelRecovery()
      modifies this
      ensures State() == old(State()).(recoil := old(State()).recoil.(shouldRecover := false, recoveryPlaying := false))
    {
      shouldRecover := false;
      recoveryPlaying := false;
    }

    /** RecoilRecovery: restarts the recovery timeline while recovery is wanted. */
    method RecoilRecovery()
      modifies this
      ensures State() == Recovery(old(State()))
    {
      if shouldRecover {
        recoveryPlaying := true;
      }
    }

    /** StopFire: stops recoil, starts recovery, resets the burst and, under rapid-fire prevention, starts the cooldown. */
    method StopFire(remaining: real)
      modifies this
      ensures State() == StopFireSpec(data, old(State()), remaining)
    {
      recoilPlaying := false;
      RecoilRecovery();
      shotsFired := 0;
      if data.preventRapidManualFire && hasFiredRecently {
        hasFiredRecently := false;
        isReadyToFire := false;
        spamFireDelay := SetTimer(remaining, false);
      }
      shotDelay := Cleared;
    }

    /** Recoil: picks the recoil sample for this projectile and counts the shot. */
    method Recoil(hasController: bool) returns (kick: RecoilKick)
      modifies this
      ensures kick == Kick(data, hasController, old(shotsFired))
      ensures kick == FirstShotKick <==> hasController && data.recoilCurvesValid && old(shotsFired) <= 0
      ensures kick == LiveKick <==> data.automaticFire && hasController && data.recoilCurvesValid && old(shotsFired) > 0
      ensures State() == old(State()).(recoil := old(State()).recoil.(shotsFired := old(shotsFired) + 1))
    {
      if data.automaticFire && hasController && shotsFired > 0 && data.recoilCurvesValid {
        kick := LiveKick;
      } else if hasController && shotsFired <= 0 && data.recoilCurvesValid {
        kick := FirstShotKick;
      } else {
        kick := NoKick;
      }
      shotsFired := shotsFired + 1;
    }

    /**
      The per-projectile loop of a live shot: one recoil sample per projectile and, when the firing
      animation is awaited, fire is held until the animation's length has elapsed.
    */
    method FirePellets(hasController: bool) returns (kicks: seq<RecoilKick>)
      modifies this
      ensures State() == AfterPellets(data, old(State()), Pellets(data))
      ensures kicks == Kicks(data, hasController, old(shotsFired), Pellets(data))
    {
      kicks := [];
      var numberOfShots := if data.isShotgun then data.shotgunPellets else 1;
      var i := 0;
      while i < numberOfShots
        invariant 0 <= i <= Pellets(data)
        invariant kicks == Kicks(data, hasController, old(shotsFired), i)
        invariant State() == AfterPellets(data, old(State()), i)
      {
        var kick := Recoil(hasController);
        kicks := kicks + [kick];
        if data.gunShot.Some? && data.waitForAnim {
          canFire := false;
          animWaitDelay := SetTimer(data.gunShot.value, false);
        }
        i := i + 1;
      }
    }

    /**
      Fire: one tick of the shot timer. A live shot removes one round and runs the per-projectile loop;
      returns the recoil samples applied, in order. Without a live shot, a weapon that could fire
      dry-fires: the shot timer is cleared and recovery restarts.
    */
    method Fire(hasController: bool) returns (kicks: seq<RecoilKick>)
      modifies this
      ensures State() == FireSpec(data, old(State()))
      ensures ClipInRange(old(clipSize), clipCapacity, data.canBeChambered) ==>
                ClipInRange(clipSize, clipCapacity, data.canBeChambered)
      ensures kicks == if FireAllowed(old(State())) then Kicks(data, hasController, old(shotsFired), Pellets(data)) else []
    {
      kicks := [];
      if canFire && isReadyToFire && clipSize > 0 && !isReloading {
        clipSize := clipSize - 1;
        ghost var loaded := State();
        kicks := FirePellets(hasController);
        AfterPelletsCounts(data, loaded, Pellets(data));
        if !data.automaticFire {
          recoilPlaying := false;
          RecoilRecovery();
        }
        hasFiredRecently := true;
      } else if canFire && !isReloading {
        shotDelay := Cleared;
        RecoilRecovery();
      }
    }

    /**
      Reload: refuses (false) when the movement state forbids reloading; otherwise returns true and
      starts a reload only when one is useful.
    */
    method Reload(store: AmmoStore) returns (ok: bool)
      modifies this
      ensures ok == old(canReload)
      ensures State() == ReloadSpec(data, old(State()), ammoType, clipCapacity, store.ammo)
    {
      if !canReload {
        return false;
      }
      var value := if data.canBeChambered then 1 else 0;
      if ammoType in store.ammo {
        if !isReloading && store.ammo[ammoType] > 0 && clipSize != clipCapacity + value {
          var animTime := ReloadTime(data, clipSize);
          canFire := false;
          isReloading := true;
          reloadDelay := SetTimer(animTime, false);
        }
      }
      return true;
    }

    /**
      UpdateAmmo: the reload timer's callback. Moves ammunition from the pool to the clip, ends the
      reload and re-enables fire unless the character is sprinting or sliding. The pool must hold an
      entry for the weapon's ammunition type (the engine's map lookup requires the key).
    */
    method UpdateAmmo(store: AmmoStore, movement: MovementState)
      requires ammoType in store.ammo
      modifies this, store
      ensures var r := RefillAmmo(clipCapacity, old(clipSize), data.canBeChambered, old(store.ammo[ammoType]));
              store.ammo == old(store.ammo)[ammoType := r.pool] && State() == UpdateAmmoSpec(old(State()), r.clip, movement)
      ensures ClipInRange(old(clipSize), clipCapacity, data.canBeChambered) && old(store.ammo[ammoType]) >= 0 ==>
                ClipInRange(clipSize, clipCapacity, data.canBeChambered) && 0 <= store.ammo[ammoType] <= old(store.ammo[ammoType])
    {
      ghost var r := RefillAmmo(clipCapacity, clipSize, data.canBeChambered, store.ammo[ammoType]);
      if ClipInRange(clipSize, clipCapacity, data.canBeChambered) && store.ammo[ammoType] >= 0 {
        RefillKeepsClipInRange(clipCapacity, clipSize, data.canBeChambered, store.ammo[ammoType]);
      }
      var value := 0;
      if clipSize > 0 && data.canBeChambered {
        value := 1;
      }
      var temp := clipCapacity - clipSize;
      if store.ammo[ammoType] >= temp + value {
        clipSize := clipCapacity + value;
        store.ammo := store.ammo[ammoType := store.ammo[ammoType] - (temp + value)];
      } else {
        clipSize := clipSize + store.ammo[ammoType];
        store.ammo := store.ammo[ammoType := 0];
      }
      assert clipSize == r.clip && store.ammo == old(store.ammo)[ammoType := r.pool];
      isReloading := false;
      if movement != Sprint && movement != Slide {
        EnableFire();
      }
      isReadyToFire := true;
    }
  }
}
