/**
 * The `Gun` component as the engine drives it: fields updated in place by
 * `Awake`, `OnEnable`, `Update`, `Shoot` and the two coroutines. Each method
 * is proved to leave the fields exactly as the matching function of module
 * GunSpec describes, so everything proved there holds of the object.
 */
module Weaponry {
  import opened GunSpec
  import GunProperties

  class Gun {
    const cfg: Config

    var currentAmmo: int   // `_currentAmmo`
    var totalAmmo: int     // `_totalAmmo`
    var isReloading: bool  // `_isReloading`
    var isCooling: bool    // `_isCooling`
    var nextFire: int      // `_nextFire`

    // Where the two coroutines are suspended.
    var reloadPhase: ReloadPhase
    var reloadDue: int
    var coolDue: int

    /** The fields as one value. */
    function State(): GunState
      reads this
    {
      GunState(currentAmmo, totalAmmo, isReloading, isCooling, nextFire, reloadPhase, reloadDue, coolDue)
    }

    /** `Awake`. */
    constructor (cfg: Config)
      ensures this.cfg == cfg
      ensures State() == GunSpec.Init(cfg)
      ensures ValidConfig(cfg) ==> Inv(cfg, State())
    {
      this.cfg := cfg;
      currentAmmo := cfg.capacity;
      totalAmmo := cfg.capacity * cfg.rounds;
      isReloading, isCooling := false, false;
      nextFire := 0;
      reloadPhase, reloadDue, coolDue := Winding, 0, 0;
    }

    /** `OnEnable`: drops both flags, leaving the ledger and the rate gate alone. */
    method Reset()
      modifies this
      ensures State() == GunSpec.Reset(old(State()))
      ensures currentAmmo == old(currentAmmo) && totalAmmo == old(totalAmmo) && nextFire == old(nextFire)
      ensures !isReloading && !isCooling
    {
      isReloading := false;
      isCooling := false;
    }

    /** `StartCoroutine(Reload())`, run to its first wait. */
    method StartReload(now: int)
      modifies this
      ensures State() == GunSpec.StartReload(cfg, old(State()), now)
    {
      isReloading := true;
      reloadPhase := Winding;
      reloadDue := now + Wait(cfg.reloadTicks - cfg.tail);
    }

    /** `StartCoroutine(Cooldown())`, run to its wait. */
    method StartCooldown(now: int)
      modifies this
      ensures State() == GunSpec.StartCooldown(cfg, old(State()), now)
    {
      isCooling := true;
      coolDue := now + Wait(cfg.cooldownTicks + cfg.tail);
    }

    /** `Shoot`, with the raycast's outcome and the random impact index as inputs. */
    method Shoot(now: int, ray: Ray, pick: nat) returns (shot: Shot)
      requires ValidPick(cfg, pick)
      modifies this
      ensures Step(State(), shot) == GunSpec.Shoot(cfg, old(State()), now, ray, pick)
    {
      if currentAmmo <= 0 {
        return DryFire;
      }
      currentAmmo := currentAmmo - 1;
      totalAmmo := totalAmmo - 1;
      ghost var spent := State();
      var effects: seq<Effect> := [];
      if ray.Hit? {
        // each capability is queried and called on its own
        effects := Dispatch(ray.caps);
        if cfg.impactEffects <= 0 {
          assert GunSpec.Shoot(cfg, old(State()), now, ray, pick) == Step(spent, Fired(effects));
          return Fired(effects);
        }
        effects := effects + [SpawnImpact(pick)];
      }
      StartCooldown(now);
      shot := Fired(effects);
      assert GunSpec.Shoot(cfg, old(State()), now, ray, pick)
        == Step(GunSpec.StartCooldown(cfg, spent, now), shot);
    }

    /** `Update`, with the buttons as inputs. */
    method Update(inp: Input) returns (shot: Shot)
      requires ValidPick(cfg, inp.pick)
      modifies this
      ensures Step(State(), shot) == GunSpec.Update(cfg, old(State()), inp)
    {
      shot := NoTrigger;
      if isReloading {
        return;
      }
      if isCooling {
        return;
      }
      if currentAmmo <= 0 && totalAmmo > 0 {
        StartReload(inp.now);
        return;
      }
      if cfg.automatic && inp.held && inp.now >= nextFire {
        nextFire := inp.now + cfg.period;
        shot := Shoot(inp.now, inp.ray, inp.pick);
      } else if inp.pressed {
        shot := Shoot(inp.now, inp.ray, inp.pick);
      }
      if inp.reloadPressed && currentAmmo < cfg.capacity {
        StartReload(inp.now);
      }
    }

    /** The coroutines' resumption after `Update`: each one whose wait has
        elapsed runs on to its next wait or to its end. */
    method ResumeCoroutines(now: int)
      modifies this
      ensures State() == GunSpec.Resume(cfg, old(State()), now)
    {
      if isCooling && now >= coolDue {
        isCooling := false;
      }
      if isReloading && now >= reloadDue {
        match reloadPhase
        case Winding =>
          reloadPhase := Settling;
          reloadDue := now + Wait(cfg.tail);
        case Settling =>
          if totalAmmo >= cfg.capacity {
            currentAmmo := cfg.capacity;
          } else {
            currentAmmo := totalAmmo;
          }
          isReloading := false;
      }
    }

    /** One frame, keeping the ledger invariant. */
    method Tick(inp: Input) returns (shot: Shot)
      requires ValidPick(cfg, inp.pick)
      modifies this
      ensures Step(State(), shot) == GunSpec.Tick(cfg, old(State()), inp)
      ensures ValidConfig(cfg) && Inv(cfg, old(State())) ==> Inv(cfg, State())
      ensures totalAmmo <= old(totalAmmo)
    {
      ghost var before := State();
      shot := Update(inp);
      ResumeCoroutines(inp.now);
      if ValidConfig(cfg) && Inv(cfg, before) {
        GunProperties.TickKeepsInv(cfg, before, inp);
      }
    }
  }
}
