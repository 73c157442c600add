/**
  The weapon inventory of the character (UInventoryComponent): weapon slots held in a map from slot
  number to weapon, the current weapon, slot selection by scrolling with wrap-around, weapon swaps
  that wait for an unequip animation, the spawn bookkeeping of a new weapon, and the policy applied
  when the current weapon refuses to reload.
*/
module InventoryCore {
  import opened Common
  import opened WeaponCore
  import opened CharacterCore

  /** What a scroll does while a swap is pending: retarget the swap, or be dropped. */
  datatype SwapBehaviour = UseNewValue | IgnoreNewValue

  /** EReloadFailedBehaviour: what happens when the current weapon refuses to reload. */
  datatype ReloadFailedBehaviour = Retry | ChangeState | HandleInBP | Ignore

  /**
    How a reload request ended: no current weapon, the weapon accepted it, a retry was scheduled,
    the failure event was broadcast, the failure was ignored, or the ChangeState policy ran out of
    fuel (the source recurses without bound there).
  */
  datatype ReloadDispatch = NoWeapon | Reloaded | RetryScheduled | FailureBroadcast | FailureIgnored | OutOfFuel

  /** The inventory's own bookkeeping of slots and the pending swap. */
  datatype SwapStatus = SwapStatus(currentSlot: int, targetSlot: int, performingSwap: bool, swapDelay: Timer)

  /** FMath::Clamp: below the minimum gives the minimum, otherwise at most the maximum. */
  function Clamp(x: int, lo: int, hi: int): int
  {
    if x < lo then lo else if x < hi then x else hi
  }

  /**
    The slot a scroll selects. A negative scroll value moves to the next slot and wraps from the last
    slot to 0; any other value moves to the previous slot and wraps from 0 to the last slot.
  */
  function ScrollTarget(current: int, slots: int, scroll: real): (id: int)
    ensures slots >= 1 ==> 0 <= id < slots
    ensures scroll < 0.0 && current == slots - 1 ==> id == 0
    ensures scroll >= 0.0 && current == 0 ==> id == slots - 1
    ensures 0 <= current < slots - 1 && scroll < 0.0 ==> id == current + 1
    ensures 0 < current < slots && scroll >= 0.0 ==> id == current - 1
  {
    if scroll < 0.0 then
      if current == slots - 1 then 0 else Clamp(current + 1, 0, slots - 1)
    else
      if current == 0 then slots - 1 else Clamp(current - 1, 0, slots - 1)
  }

  /** Scrolling one way and then the other returns to the slot scrolled from. */
  lemma ScrollRoundTrip(current: int, slots: int)
    requires 0 <= current < slots
    ensures ScrollTarget(ScrollTarget(current, slots, -1.0), slots, 1.0) == current
    ensures ScrollTarget(ScrollTarget(current, slots, 1.0), slots, -1.0) == current
  {
  }

  /** The slot reached by n forward scrolls. */
  function ScrollForward(current: int, slots: int, n: nat): int
  {
    if n == 0 then current else ScrollTarget(ScrollForward(current, slots, n - 1), slots, -1.0)
  }

  /** Up to a full turn, n forward scrolls move n slots on, wrapping past the last slot to 0. */
  lemma {:induction false} ScrollForwardSteps(current: int, slots: int, n: nat)
    requires 0 <= current < slots && n <= slots
    ensures ScrollForward(current, slots, n) == if current + n < slots then current + n else current + n - slots
  {
    if n > 0 {
      ScrollForwardSteps(current, slots, n - 1);
    }
  }

  /** Scrolling forward visits every other slot before it comes back, after exactly one turn. */
  lemma ScrollCyclesThroughSlots(current: int, slots: int)
    requires 0 <= current < slots
    ensures ScrollForward(current, slots, slots as nat) == current
    ensures forall n: nat :: 0 < n < slots ==> ScrollForward(current, slots, n) != current
  {
    ScrollForwardSteps(current, slots, slots as nat);
    forall n: nat | 0 < n < slots
      ensures ScrollForward(current, slots, n) != current
    {
      ScrollForwardSteps(current, slots, n);
    }
  }

  /** A SwapWeapon request that is acted on: a different slot number that holds a weapon. */
  predicate SwapApplies(st: SwapStatus, slot: int, slotsInUse: set<int>)
  {
    slot != st.currentSlot && slot in slotsInUse
  }

  /** A swap that waits for the current weapon's unequip animation before it completes. */
  predicate SwapDefers(st: SwapStatus, slot: int, slotsInUse: set<int>, unequip: Option<real>)
  {
    SwapApplies(st, slot, slotsInUse) && !st.performingSwap && unequip.Some?
  }

  /** A swap that changes the current weapon now. */
  predicate SwapCompletes(st: SwapStatus, slot: int, slotsInUse: set<int>, unequip: Option<real>)
  {
    SwapApplies(st, slot, slotsInUse) && !SwapDefers(st, slot, slotsInUse, unequip)
  }

  /**
    SwapWeapon's effect on the slot bookkeeping, given the slots in use and the current weapon's
    unequip animation length: a deferred swap records the target and arms the unequip timer for the
    animation's length; a completed swap ends the pending swap. The current slot never changes.
  */
  function SwapStatusSpec(st: SwapStatus, slot: int, slotsInUse: set<int>, unequip: Option<real>): SwapStatus
  {
    if SwapDefers(st, slot, slotsInUse, unequip) then
      st.(performingSwap := true, targetSlot := slot, swapDelay := SetTimer(unequip.value, false))
    else if SwapCompletes(st, slot, slotsInUse, unequip) then st.(performingSwap := false)
    else st
  }

  /** The three outcomes of SwapWeapon exclude each other, and the current slot is never assigned. */
  lemma SwapOutcomes(st: SwapStatus, slot: int, slotsInUse: set<int>, unequip: Option<real>)
    ensures var r := SwapStatusSpec(st, slot, slotsInUse, unequip);
            r.currentSlot == st.currentSlot
            && (!SwapApplies(st, slot, slotsInUse) ==> r == st)
            && (SwapDefers(st, slot, slotsInUse, unequip) ==>
                  r.performingSwap && r.targetSlot == slot && !SwapCompletes(st, slot, slotsInUse, unequip))
            && (SwapCompletes(st, slot, slotsInUse, unequip) ==> !r.performingSwap && r.targetSlot == st.targetSlot)
  {
  }

  /**
    A deferred swap is completed by the unequip timer's callback, which asks for the recorded target:
    whatever the weapon's unequip animation, that request completes the swap and ends it.
  */
  lemma UnequipReturnCompletes(st: SwapStatus, slot: int, slotsInUse: set<int>, unequip: Option<real>, unequip2: Option<real>)
    requires SwapDefers(st, slot, slotsInUse, unequip)
    ensures var pending := SwapStatusSpec(st, slot, slotsInUse, unequip);
            SwapCompletes(pending, pending.targetSlot, slotsInUse, unequip2)
            && !SwapStatusSpec(pending, pending.targetSlot, slotsInUse, unequip2).performingSwap
  {
  }

  /**
    With an unequip animation of non-positive length the unequip timer is cleared instead of armed,
    so the swap stays pending until a direct slot request arrives.
  */
  lemma NonPositiveUnequipLeavesSwapPending(st: SwapStatus, slot: int, slotsInUse: set<int>, length: real)
    requires SwapApplies(st, slot, slotsInUse) && !st.performingSwap && length <= 0.0
    ensures var r := SwapStatusSpec(st, slot, slotsInUse, Some(length));
            r.performingSwap && r.swapDelay == Cleared
  {
  }

  /**
    Because a completed swap keeps the current slot, the weapon that was current before the swap
    cannot be selected again through its own slot: slot 1 is current, the swap to slot 0 completes,
    and then the request for slot 1 is ignored.
  */
  lemma SwapBackToOriginalSlotIgnored(st: SwapStatus, unequip: Option<real>, unequip2: Option<real>)
    requires st.currentSlot == 1 && st.performingSwap
    ensures var swapped := SwapStatusSpec(st, 0, {0, 1}, unequip);
            SwapCompletes(st, 0, {0, 1}, unequip)
            && SwapStatusSpec(swapped, 1, {0, 1}, unequip2) == swapped
            && !SwapApplies(swapped, 1, {0, 1})
  {
  }

  /** The owner's movement state re-applied to a newly equipped weapon that has an equip animation. */
  function EquipSpec(cfg: CharacterConfig, v: CharView, equipAnimation: bool): CharView
  {
    if equipAnimation then UpdateMovementStateSpec(cfg, v, StateOf(v)) else v
  }

  /** The result of a reload request: how it ended, and the owner with the current weapon after it. */
  datatype ReloadResult = ReloadResult(outcome: ReloadDispatch, view: CharView)

  /**
    The reload request on a current weapon (in the owner's view) with the given failure policy: the
    weapon's own Reload runs; when it refuses, the policy decides, and ChangeState enters Walk and
    asks again, at most fuel more times.
  */
  function ReloadPolicySpec(policy: ReloadFailedBehaviour, cfg: CharacterConfig, v: CharView, data: WeaponData,
                            ammoType: AmmoType, capacity: int, pool: map<AmmoType, int>, fuel: nat): ReloadResult
    requires v.weapon.Some?
    decreases fuel
  {
    var ws := v.weapon.value;
    if ws.flags.canReload then ReloadResult(Reloaded, v.(weapon := Some(ReloadSpec(data, ws, ammoType, capacity, pool))))
    else match policy
      case Retry => ReloadResult(RetryScheduled, v)
      case HandleInBP => ReloadResult(FailureBroadcast, v)
      case Ignore => ReloadResult(FailureIgnored, v)
      case ChangeState =>
        var walking := UpdateMovementStateSpec(cfg, v, Walk);
        if fuel == 0 then ReloadResult(OutOfFuel, walking)
        else ReloadPolicySpec(policy, cfg, walking, data, ammoType, capacity, pool, fuel - 1)
  }

  /**
    An accepted reload runs no failure policy; a refused one runs exactly the configured policy, only
    ChangeState changes the owner or the weapon, and only ChangeState can still end in a reload.
  */
  lemma ReloadPolicyDispatch(policy: ReloadFailedBehaviour, cfg: CharacterConfig, v: CharView, data: WeaponData,
                             ammoType: AmmoType, capacity: int, pool: map<AmmoType, int>, fuel: nat)
    requires v.weapon.Some?
    ensures var r := ReloadPolicySpec(policy, cfg, v, data, ammoType, capacity, pool, fuel);
            (v.weapon.value.flags.canReload ==>
               r == ReloadResult(Reloaded, v.(weapon := Some(ReloadSpec(data, v.weapon.value, ammoType, capacity, pool)))))
            && (!v.weapon.value.flags.canReload ==>
                  r.outcome == (match policy
                                case Retry => RetryScheduled
                                case HandleInBP => FailureBroadcast
                                case Ignore => FailureIgnored
                                case ChangeState => r.outcome)
                  && (policy != ChangeState ==> r.view == v && r.outcome != Reloaded)
                  && (policy == ChangeState ==> r.outcome == Reloaded || r.outcome == OutOfFuel))
  {
    if !v.weapon.value.flags.canReload && policy == ChangeState && fuel > 0 {
      ChangeStateEnds(cfg, UpdateMovementStateSpec(cfg, v, Walk), data, ammoType, capacity, pool, fuel - 1);
    }
  }

  lemma {:induction false} ChangeStateEnds(cfg: CharacterConfig, v: CharView, data: WeaponData, ammoType: AmmoType,
                                           capacity: int, pool: map<AmmoType, int>, fuel: nat)
    requires v.weapon.Some?
    ensures var r := ReloadPolicySpec(ChangeState, cfg, v, data, ammoType, capacity, pool, fuel);
            r.outcome == Reloaded || r.outcome == OutOfFuel
    decreases fuel
  {
    if !v.weapon.value.flags.canReload && fuel > 0 {
      ChangeStateEnds(cfg, UpdateMovementStateSpec(cfg, v, Walk), data, ammoType, capacity, pool, fuel - 1);
    }
  }

  /**
    When the Walk profile allows reloading, the ChangeState policy recovers a refused reload with a
    single retry: the owner walks and the weapon's Reload runs on the walking state.
  */
  lemma ChangeStateRecovers(cfg: CharacterConfig, v: CharView, data: WeaponData, ammoType: AmmoType,
                            capacity: int, pool: map<AmmoType, int>, fuel: nat)
    requires v.weapon.Some? && !v.weapon.value.flags.canReload && fuel >= 1
    requires Walk in cfg.profiles && cfg.profiles[Walk].canReload
    ensures var r := ReloadPolicySpec(ChangeState, cfg, v, data, ammoType, capacity, pool, fuel);
            var walking := UpdateMovementStateSpec(cfg, v, Walk);
            r.outcome == Reloaded && StateOf(r.view) == Walk
            && r.view.weapon == Some(ReloadSpec(data, walking.weapon.value, ammoType, capacity, pool))
  {
  }

  /**
    When the Walk profile does not allow reloading (or there is none), the ChangeState policy never
    gets the weapon to reload: whatever the fuel, it runs out, so the source's recursion never ends.
  */
  lemma {:induction false} ChangeStateNeverRecovers(cfg: CharacterConfig, v: CharView, data: WeaponData, ammoType: AmmoType,
                                                    capacity: int, pool: map<AmmoType, int>, fuel: nat)
    requires v.weapon.Some? && !v.weapon.value.flags.canReload
    requires Walk !in cfg.profiles || !cfg.profiles[Walk].canReload
    ensures ReloadPolicySpec(ChangeState, cfg, v, data, ammoType, capacity, pool, fuel).outcome == OutOfFuel
    decreases fuel
  {
    if fuel > 0 {
      var walking := UpdateMovementStateSpec(cfg, v, Walk);
      assert !walking.weapon.value.flags.canReload;
      ChangeStateNeverRecovers(cfg, walking, data, ammoType, capacity, pool, fuel - 1);
    }
  }

  class Inventory {
    /** NumberOfWeaponSlots. */
    const slots: int
    const swapBehaviour: SwapBehaviour
    const reloadFailed: ReloadFailedBehaviour

    /** EquippedWeapons: the weapon in each occupied slot. */
    var equipped: map<int, Weapon>
    var currentWeapon: Weapon?
    var currentSlot: int
    var targetSlot: int
    var performingSwap: bool
    /** The timer that calls UnequipReturn. */
    var swapDelay: Timer
    /** The timer that calls Reload again under the Retry policy. */
    var reloadRetry: Timer
    /** How many reload-failed events were broadcast. */
    var failedReloadEvents: nat

    /** The current weapon is one of the equipped weapons, and there is one exactly when a slot is occupied. */
    predicate Valid()
      reads this
    {
      (currentWeapon == null <==> equipped == map[])
      && (currentWeapon != null ==> currentWeapon in equipped.Values)
    }

    function Status(): SwapStatus
      reads this
    {
      SwapStatus(currentSlot, targetSlot, performingSwap, swapDelay)
    }

    /** The weapon a request for the slot would equip, as a frame. */
    function SlotWeapon(slot: int): set<Weapon>
      reads this
    {
      if slot in equipped then {equipped[slot]} else {}
    }

    /** The unequip animation of the current weapon, if there is a current weapon. */
    function CurrentUnequip(): Option<real>
      reads this, currentWeapon
    {
      if currentWeapon == null then None else currentWeapon.data.weaponUnequip
    }

    /** An empty inventory with no swap pending. */
    constructor (slots: int, swapBehaviour: SwapBehaviour, reloadFailed: ReloadFailedBehaviour)
      ensures this.slots == slots && this.swapBehaviour == swapBehaviour && this.reloadFailed == reloadFailed
      ensures equipped == map[] && currentWeapon == null && Valid()
      ensures Status() == SwapStatus(0, 0, false, Cleared)
      ensures reloadRetry == Cleared && failedReloadEvents == 0
    {
      this.slots := slots;
      this.swapBehaviour := swapBehaviour;
      this.reloadFailed := reloadFailed;
      equipped := map[];
      currentWeapon := null;
      currentSlot, targetSlot := 0, 0;
      performingSwap := false;
      swapDelay, reloadRetry := Cleared, Cleared;
      failedReloadEvents := 0;
    }

    /**
      SwapWeapon: a request for a slot. Ignored for the current slot number or an empty slot; deferred
      behind the unequip animation when no swap is pending and the current weapon has one; otherwise
      the current weapon stops firing, the slot's weapon becomes current, and an equip animation
      re-applies the owner's movement state to it. The remaining time of the old weapon's shot timer
      is an input.
    */
    method SwapWeapon(slot: int, owner: Character, remaining: real)
      requires Valid()
      modifies this, owner, currentWeapon, SlotWeapon(slot)
      ensures Valid() && equipped == old(equipped)
      ensures Status() == SwapStatusSpec(old(Status()), slot, old(equipped).Keys, old(CurrentUnequip()))
      ensures reloadRetry == old(reloadRetry) && failedReloadEvents == old(failedReloadEvents)
      ensures !SwapCompletes(old(Status()), slot, old(equipped).Keys, old(CurrentUnequip())) ==>
                currentWeapon == old(currentWeapon) && owner.Loco() == old(owner.Loco())
                && (currentWeapon != null ==> currentWeapon.State() == old(currentWeapon.State()))
      ensures SwapCompletes(old(Status()), slot, old(equipped).Keys, old(CurrentUnequip())) ==>
                var previous := old(currentWeapon);
                var next := old(equipped[slot]);
                var before := if previous == next then StopFireSpec(previous.data, old(previous.State()), remaining)
                              else old(next.State());
                currentWeapon == next
                && (previous != next ==> previous.State() == StopFireSpec(previous.data, old(previous.State()), remaining))
                && owner.View(next) == EquipSpec(owner.cfg, CharView(old(owner.Loco()), Some(before)), next.data.weaponEquip)
      ensures slot in old(equipped) && !SwapCompletes(old(Status()), slot, old(equipped).Keys, old(CurrentUnequip())) ==>
                equipped[slot].State() == old(equipped[slot].State())
    {
      if currentSlot == slot {
        return;
      }
      if slot !in equipped {
        return;
      }
      if !performingSwap {
        if currentWeapon.data.weaponUnequip.Some? {
          performingSwap := true;
          targetSlot := slot;
          HandleUnequip();
          return;
        }
      }
      if currentWeapon != null {
        currentWeapon.StopFire(remaining);
      }
      currentWeapon := equipped[slot];
      if currentWeapon.data.weaponEquip {
        owner.UpdateMovementState(owner.state, currentWeapon);
      }
      performingSwap := false;
    }

    /** HandleUnequip: arm the unequip timer for the length of the current weapon's unequip animation. */
    method HandleUnequip()
      modifies this
      ensures Status() == old(Status()).(swapDelay := if old(CurrentUnequip()).Some? then SetTimer(old(CurrentUnequip()).value, false)
                                                      else old(swapDelay))
      ensures equipped == old(equipped) && currentWeapon == old(currentWeapon)
      ensures reloadRetry == old(reloadRetry) && failedReloadEvents == old(failedReloadEvents)
    {
      if currentWeapon != null {
        if currentWeapon.data.weaponUnequip.Some? {
          swapDelay := SetTimer(currentWeapon.data.weaponUnequip.value, false);
        }
      }
    }

    /** UnequipReturn: the unequip timer's callback asks again for the pending target slot. */
    method UnequipReturn(owner: Character, remaining: real)
      requires Valid()
      modifies this, owner, currentWeapon, SlotWeapon(targetSlot)
      ensures Valid() && equipped == old(equipped)
      ensures Status() == SwapStatusSpec(old(Status()), old(targetSlot), old(equipped).Keys, old(CurrentUnequip()))
      ensures reloadRetry == old(reloadRetry) && failedReloadEvents == old(failedReloadEvents)
      ensures !SwapCompletes(old(Status()), old(targetSlot), old(equipped).Keys, old(CurrentUnequip())) ==>
                currentWeapon == old(currentWeapon) && owner.Loco() == old(owner.Loco())
                && (currentWeapon != null ==> currentWeapon.State() == old(currentWeapon.State()))
                && (old(targetSlot) in old(equipped) ==> equipped[old(targetSlot)].State() == old(equipped[targetSlot].State()))
      ensures SwapCompletes(old(Status()), old(targetSlot), old(equipped).Keys, old(CurrentUnequip())) ==>
                var previous := old(currentWeapon);
                var next := old(equipped[targetSlot]);
                var before := if previous == next then StopFireSpec(previous.data, old(previous.State()), remaining)
                              else old(next.State());
                currentWeapon == next
                && (previous != next ==> previous.State() == StopFireSpec(previous.data, old(previous.State()), remaining))
                && owner.View(next) == EquipSpec(owner.cfg, CharView(old(owner.Loco()), Some(before)), next.data.weaponEquip)
    {
      SwapWeapon(targetSlot, owner, remaining);
    }

    /**
      ScrollWeapon: select the next or previous slot. While a swap is pending the scroll only
      retargets it (under UseNewValue) or is dropped; otherwise it requests the selected slot.
    */
    method ScrollWeapon(scroll: real, owner: Character, remaining: real)
      requires Valid()
      modifies this, owner, currentWeapon, SlotWeapon(ScrollTarget(currentSlot, slots, scroll))
      ensures Valid() && equipped == old(equipped)
      ensures reloadRetry == old(reloadRetry) && failedReloadEvents == old(failedReloadEvents)
      ensures old(performingSwap) ==>
                currentWeapon == old(currentWeapon) && owner.Loco() == old(owner.Loco())
                && (currentWeapon != null ==> currentWeapon.State() == old(currentWeapon.State()))
                && (var id := ScrollTarget(old(currentSlot), slots, scroll);
                    id in old(equipped) ==> equipped[id].State() == old(equipped[id].State()))
                && Status() == if swapBehaviour == UseNewValue
                               then old(Status()).(targetSlot := ScrollTarget(old(currentSlot), slots, scroll))
                               else old(Status())
      ensures !old(performingSwap) ==>
                Status() == SwapStatusSpec(old(Status()), ScrollTarget(old(currentSlot), slots, scroll), old(equipped).Keys,
                                           old(CurrentUnequip()))
      ensures var id := ScrollTarget(old(currentSlot), slots, scroll);
              !old(performingSwap) && !SwapCompletes(old(Status()), id, old(equipped).Keys, old(CurrentUnequip())) ==>
                currentWeapon == old(currentWeapon) && owner.Loco() == old(owner.Loco())
                && (currentWeapon != null ==> currentWeapon.State() == old(currentWeapon.State()))
                && (id in old(equipped) ==> equipped[id].State() == old(equipped[id].State()))
      ensures var id := ScrollTarget(old(currentSlot), slots, scroll);
              !old(performingSwap) && SwapCompletes(old(Status()), id, old(equipped).Keys, old(CurrentUnequip())) ==>
                var previous := old(currentWeapon);
                var next := old(equipped[id]);
                var before := if previous == next then StopFireSpec(previous.data, old(previous.State()), remaining)
                              else old(next.State());
                currentWeapon == next
                && (previous != next ==> previous.State() == StopFireSpec(previous.data, old(previous.State()), remaining))
                && owner.View(next) == EquipSpec(owner.cfg, CharView(old(owner.Loco()), Some(before)), next.data.weaponEquip)
    {
      var id := ScrollTarget(currentSlot, slots, scroll);
      if performingSwap && swapBehaviour == UseNewValue {
        targetSlot := id;
      } else if !performingSwap {
        SwapWeapon(id, owner, remaining);
      }
    }

    /**
      UpdateWeapon, for a weapon that was spawned (null when spawning failed): the new weapon takes
      the slot, the previous current weapon stops firing, and the new weapon becomes current in that
      slot; an equip animation re-applies the owner's movement state to it. The weapon is newly
      spawned, so it is none of the equipped weapons.
    */
    method UpdateWeapon(position: int, spawned: Weapon?, owner: Character, remaining: real)
      requires Valid()
      requires spawned == null || spawned !in equipped.Values
      modifies this, owner, currentWeapon, spawned
      ensures Valid()
      ensures reloadRetry == old(reloadRetry) && failedReloadEvents == old(failedReloadEvents)
      ensures spawned == null ==>
                equipped == old(equipped) && currentWeapon == old(currentWeapon) && Status() == old(Status())
                && owner.Loco() == old(owner.Loco())
                && (currentWeapon != null ==> currentWeapon.State() == old(currentWeapon.State()))
      ensures spawned != null ==>
                equipped == old(equipped)[position := spawned]
                && equipped.Keys == old(equipped).Keys + {position}
                && currentWeapon == spawned
                && Status() == old(Status()).(currentSlot := position)
                && (old(currentWeapon) != null ==>
                      old(currentWeapon).State() == StopFireSpec(old(currentWeapon).data, old(currentWeapon.State()), remaining))
                && owner.View(spawned) == EquipSpec(owner.cfg, CharView(old(owner.Loco()), Some(old(spawned.State()))),
                                                    spawned.data.weaponEquip)
    {
      if spawned != null {
        equipped := equipped[position := spawned];
        if currentWeapon != null {
          currentWeapon.StopFire(remaining);
        }
        currentWeapon := equipped[position];
        currentSlot := position;
        if currentWeapon.data.weaponEquip {
          owner.UpdateMovementState(owner.state, currentWeapon);
        }
      }
    }

    /**
      Reload: forward the request to the current weapon and, when the weapon refuses, apply the
      configured policy: schedule a retry in 0.1 seconds, make the owner walk and ask again (at most
      fuel more times), broadcast the failure event, or ignore it.
    */
    method Reload(store: AmmoStore, owner: Character, fuel: nat) returns (outcome: ReloadDispatch)
      modifies this, owner, currentWeapon
      decreases fuel
      ensures equipped == old(equipped) && currentWeapon == old(currentWeapon) && Status() == old(Status())
      ensures old(currentWeapon) == null ==>
                outcome == NoWeapon && owner.Loco() == old(owner.Loco())
                && reloadRetry == old(reloadRetry) && failedReloadEvents == old(failedReloadEvents)
      ensures old(currentWeapon) != null ==>
                var r := ReloadPolicySpec(reloadFailed, owner.cfg, old(owner.View(currentWeapon)), currentWeapon.data,
                                          currentWeapon.ammoType, currentWeapon.clipCapacity, store.ammo, fuel);
                outcome == r.outcome && owner.View(currentWeapon) == r.view
                && reloadRetry == (if outcome == RetryScheduled then SetTimer(0.1, false) else old(reloadRetry))
                && failedReloadEvents == old(failedReloadEvents) + (if outcome == FailureBroadcast then 1 else 0)
    {
      if currentWeapon == null {
        return NoWeapon;
      }
      var ok := currentWeapon.Reload(store);
      if ok {
        return Reloaded;
      }
      match reloadFailed
      case Retry =>
        reloadRetry := SetTimer(0.1, false);
        outcome := RetryScheduled;
      case ChangeState =>
        owner.UpdateMovementState(Walk, currentWeapon);
        if fuel == 0 {
          outcome := OutOfFuel;
        } else {
          outcome := Reload(store, owner, fuel - 1);
        }
      case HandleInBP =>
        failedReloadEvents := failedReloadEvents + 1;
        outcome := FailureBroadcast;
      case Ignore =>
        outcome := FailureIgnored;
    }
  }
}
