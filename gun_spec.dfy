/**
 * Functional specification of one Unity `Gun` component: its ammunition
 * ledger, its busy flags with the deadlines of the two coroutines that clear
 * them, and the effects a fired round dispatches to whatever the ray struck.
 *
 * Time is a whole number of ticks (frames). Within one tick the engine first
 * runs `Update` and then resumes every coroutine whose wait has elapsed; a
 * wait always spans at least one tick, even when its length is zero or
 * negative. Each operation of the component is a function from the old state
 * to the new one; the class in module Weaponry is proved against them.
 */
module GunSpec {

  /** The Inspector settings of a gun; they never change after `Awake`. */
  datatype Config = Config(
    capacity: int,       // the public field `currentAmmo`: rounds a full clip holds
    rounds: int,         // how many clips' worth of ammunition the gun starts with
    automatic: bool,
    period: int,         // ticks between two automatic shots (`1 / fireRate`)
    reloadTicks: int,    // `reloadTime`
    cooldownTicks: int,  // `cooldownTime`
    tail: int,           // the fixed 0.25 s animation tail, in ticks
    impactEffects: nat)  // `impactEffects.Length`

  /** Which wait the `Reload` coroutine is suspended in. */
  datatype ReloadPhase =
    | Winding   // `reloadTime - .25f`, with the animator's "Reloading" flag raised
    | Settling  // the final `.25f`, after the flag was dropped

  /** The private fields of the component, plus where its coroutines are suspended. */
  datatype GunState = GunState(
    currentAmmo: int,          // `_currentAmmo`: rounds in the clip
    totalAmmo: int,            // `_totalAmmo`: rounds left, the clip included
    isReloading: bool,         // `_isReloading`
    isCooling: bool,           // `_isCooling`
    nextFire: int,             // `_nextFire`: earliest tick of the next automatic shot
    reloadPhase: ReloadPhase,  // meaningful while isReloading
    reloadDue: int,            // tick at which the current reload wait elapses
    coolDue: int)              // tick at which the cooldown wait elapses

  /** The components a raycast can find on the struck object. */
  datatype Capability =
    | Target       // a `Target` on the struck transform
    | Rigidbody    // the hit's rigidbody
    | Grenade      // a `Grenade` on the struck transform
    | ParentDummy  // a `Dummy` on the struck transform or one of its parents

  /** What `Physics.Raycast` reported, reduced to which capabilities were struck. */
  datatype Ray = Miss | Hit(caps: set<Capability>)

  /** A call the shot makes into another object. */
  datatype Effect =
    | TakeDamage          // `Target.TakeDamage(damage)`
    | AddForce            // `Rigidbody.AddForce(-normal * impactForce)`
    | Explode             // `Grenade.Explode()`
    | DamageDummy         // `Dummy.Damage(damage)`
    | SpawnImpact(index: nat)  // instantiate `impactEffects[index]` at the hit point

  /** What happened to the trigger in one call. */
  datatype Shot =
    | NoTrigger                   // `Shoot` was not called
    | DryFire                     // `Shoot` was called with an empty clip
    | Fired(effects: seq<Effect>) // a round left the clip

  datatype Step = Step(state: GunState, shot: Shot)

  /** Input for one tick: the fire and reload buttons, the raycast a shot would
      see, and the value `Random.Range(0, impactEffects.Length)` would draw. */
  datatype Input = Input(
    now: int,
    held: bool,           // Fire is down this tick
    pressed: bool,        // Fire went down this tick
    reloadPressed: bool,  // Reload went down this tick
    ray: Ray,
    pick: nat)

  /** The settings under which the ledger invariant holds. */
  predicate ValidConfig(cfg: Config) {
    cfg.capacity >= 0 && cfg.rounds >= 1
  }

  /** The ammunition ledger invariant: the clip is never negative, never holds
      more than there is in all, and never more than a full clip. */
  predicate Inv(cfg: Config, s: GunState) {
    0 <= s.currentAmmo <= s.totalAmmo && s.currentAmmo <= cfg.capacity
  }

  /** A choice `Random.Range(0, n)` can make: below n whenever n is positive. */
  predicate ValidPick(cfg: Config, pick: nat) {
    cfg.impactEffects == 0 || pick < cfg.impactEffects
  }

  /** The clip is empty and rounds remain: the condition for an automatic reload. */
  predicate NeedsReload(s: GunState) {
    s.currentAmmo <= 0 && s.totalAmmo > 0
  }

  /** Neither flag is up: `Update` gets past its two early returns. */
  predicate Idle(s: GunState) {
    !s.isReloading && !s.isCooling
  }

  /** The automatic fire gate of `Update`: an automatic gun, Fire held, and the rate gate open. */
  predicate AutoGate(cfg: Config, s: GunState, inp: Input) {
    cfg.automatic && inp.held && inp.now >= s.nextFire
  }

  /** Ticks until a `WaitForSeconds(d)` started now resumes: never within the tick. */
  function Wait(d: int): (w: int)
    ensures w >= 1 && w >= d
    ensures d >= 1 ==> w == d
  {
    if d < 1 then 1 else d
  }

  /** `Awake`: a full clip and `rounds` clips in all; not busy, automatic fire open from tick 0. */
  function Init(cfg: Config): (s: GunState)
    ensures s.currentAmmo == cfg.capacity && s.totalAmmo == cfg.capacity * cfg.rounds
    ensures Idle(s) && s.nextFire == 0
    ensures ValidConfig(cfg) ==> Inv(cfg, s)
  {
    assert ValidConfig(cfg) ==> cfg.capacity * cfg.rounds == cfg.capacity + cfg.capacity * (cfg.rounds - 1);
    GunState(cfg.capacity, cfg.capacity * cfg.rounds, false, false, 0, Winding, 0, 0)
  }

  /** `OnEnable`: both busy flags drop, whatever was in flight; the ledger and
      the fire-rate gate are kept. */
  function Reset(s: GunState): (r: GunState)
    ensures Idle(r)
    ensures r.currentAmmo == s.currentAmmo && r.totalAmmo == s.totalAmmo && r.nextFire == s.nextFire
  {
    s.(isReloading := false, isCooling := false)
  }

  /** `StartCoroutine(Reload())` up to its first wait. The guard on an empty
      reserve stops a fresh enumerator, not this one, so it changes nothing. */
  function StartReload(cfg: Config, s: GunState, now: int): (r: GunState)
    ensures r.isReloading && r.reloadPhase == Winding && r.reloadDue > now
    ensures r.reloadDue >= now + cfg.reloadTicks - cfg.tail
    ensures r.reloadDue == now + Wait(cfg.reloadTicks - cfg.tail)
    ensures r == s.(isReloading := true, reloadPhase := Winding, reloadDue := r.reloadDue)
  {
    s.(isReloading := true, reloadPhase := Winding, reloadDue := now + Wait(cfg.reloadTicks - cfg.tail))
  }

  /** `StartCoroutine(Cooldown())` up to its wait of `cooldownTime + .25f`. */
  function StartCooldown(cfg: Config, s: GunState, now: int): (r: GunState)
    ensures r.isCooling && r.coolDue > now && r.coolDue >= now + cfg.cooldownTicks + cfg.tail
    ensures r == s.(isCooling := true, coolDue := r.coolDue)
  {
    s.(isCooling := true, coolDue := now + Wait(cfg.cooldownTicks + cfg.tail))
  }

  /** The calls a hit makes, in the source's order; each capability is
      queried on its own, so each call happens exactly when its capability was struck. */
  function Dispatch(caps: set<Capability>): (r: seq<Effect>)
    ensures (TakeDamage in r) == (Target in caps)
    ensures (AddForce in r) == (Rigidbody in caps)
    ensures (Explode in r) == (Grenade in caps)
    ensures (DamageDummy in r) == (ParentDummy in caps)
    ensures forall e | e in r :: !e.SpawnImpact?
    ensures r == [] <==> caps == {}
    ensures forall i, j | 0 <= i < j < |r| :: r[i] != r[j]
  {
    assert caps != {} ==> Target in caps || Rigidbody in caps || Grenade in caps || ParentDummy in caps by {
      if caps != {} {
        var c :| c in caps;
        assert c.Target? || c.Rigidbody? || c.Grenade? || c.ParentDummy?;
      }
    }
    (if Target in caps then [TakeDamage] else [])
    + (if Rigidbody in caps then [AddForce] else [])
    + (if Grenade in caps then [Explode] else [])
    + (if ParentDummy in caps then [DamageDummy] else [])
  }

  /** `Shoot`. An empty clip returns at once. Otherwise one round leaves both
      counters, the hit is dispatched, and a cooldown starts, except when the
      ray hit something and there are no impact effects: that early return
      skips the cooldown. */
  function Shoot(cfg: Config, s: GunState, now: int, ray: Ray, pick: nat): (r: Step)
    requires ValidPick(cfg, pick)
    ensures s.currentAmmo <= 0 ==> r == Step(s, DryFire)
    ensures s.currentAmmo > 0 ==>
      && r.shot.Fired?
      && r.state.currentAmmo == s.currentAmmo - 1
      && r.state.totalAmmo == s.totalAmmo - 1
    ensures r.state.isReloading == s.isReloading && r.state.nextFire == s.nextFire
    ensures r.state.reloadPhase == s.reloadPhase && r.state.reloadDue == s.reloadDue
    ensures s.currentAmmo > 0 && (ray.Miss? || cfg.impactEffects > 0) ==>
      r.state.isCooling && r.state.coolDue == now + Wait(cfg.cooldownTicks + cfg.tail)
    ensures s.currentAmmo > 0 && ray.Hit? && cfg.impactEffects == 0 ==>
      r.state.isCooling == s.isCooling && r.state.coolDue == s.coolDue
    ensures r.shot.Fired? ==> (r.shot.effects == [] <==> ray.Miss? || (ray.caps == {} && cfg.impactEffects == 0))
    ensures r.shot.Fired? && ray.Hit? ==> Dispatch(ray.caps) <= r.shot.effects
    ensures r.shot.Fired? && ray.Hit? ==>
      && |r.shot.effects| == |Dispatch(ray.caps)| + (if cfg.impactEffects > 0 then 1 else 0)
      && (SpawnImpact(pick) in r.shot.effects <==> cfg.impactEffects > 0)
    ensures r.shot.Fired? ==> forall e | e in r.shot.effects :: e.SpawnImpact? ==>
      ray.Hit? && e.index == pick && e.index < cfg.impactEffects
  {
    if s.currentAmmo <= 0 then Step(s, DryFire)
    else
      var spent := s.(currentAmmo := s.currentAmmo - 1, totalAmmo := s.totalAmmo - 1);
      match ray
      case Miss => Step(StartCooldown(cfg, spent, now), Fired([]))
      case Hit(caps) =>
        if cfg.impactEffects <= 0 then Step(spent, Fired(Dispatch(caps)))
        else
          var effects := Dispatch(caps) + [SpawnImpact(pick)];
          Step(StartCooldown(cfg, spent, now), Fired(effects))
  }

  /** `Update`. Busy flags return first; an empty clip with rounds left starts a
      reload and returns; otherwise the automatic gate or a press edge calls
      `Shoot` (the automatic gate moves `_nextFire` before the call), and then
      a Reload press with the clip below capacity starts a reload. */
  function Update(cfg: Config, s: GunState, inp: Input): (r: Step)
    requires ValidPick(cfg, inp.pick)
    ensures r.shot.Fired? ==>
      r.state.currentAmmo == s.currentAmmo - 1 && r.state.totalAmmo == s.totalAmmo - 1
    ensures !r.shot.Fired? ==>
      r.state.currentAmmo == s.currentAmmo && r.state.totalAmmo == s.totalAmmo
    ensures !r.shot.NoTrigger? ==> Idle(s) && !NeedsReload(s)
  {
    if s.isReloading then Step(s, NoTrigger)
    else if s.isCooling then Step(s, NoTrigger)
    else if NeedsReload(s) then Step(StartReload(cfg, s, inp.now), NoTrigger)
    else
      var fired :=
        if AutoGate(cfg, s, inp) then
          Shoot(cfg, s.(nextFire := inp.now + cfg.period), inp.now, inp.ray, inp.pick)
        else if inp.pressed then
          Shoot(cfg, s, inp.now, inp.ray, inp.pick)
        else
          Step(s, NoTrigger);
      if inp.reloadPressed && fired.state.currentAmmo < cfg.capacity then
        Step(StartReload(cfg, fired.state, inp.now), fired.shot)
      else
        fired
  }

  /** The coroutines resuming after `Update`: a cooldown whose wait elapsed
      drops `_isCooling`; a reload whose first wait elapsed drops the animator
      flag and waits the tail, and one whose tail elapsed refills the clip to
      `min(capacity, _totalAmmo)` and drops `_isReloading`. */
  function Resume(cfg: Config, s: GunState, now: int): (r: GunState)
    ensures r.totalAmmo == s.totalAmmo && r.nextFire == s.nextFire
    ensures r.isCooling == (s.isCooling && now < s.coolDue)
    ensures r.isReloading ==> s.isReloading
    ensures s.isReloading && s.reloadPhase == Settling && now >= s.reloadDue ==>
      && !r.isReloading
      && r.currentAmmo <= cfg.capacity && r.currentAmmo <= s.totalAmmo
      && (r.currentAmmo == cfg.capacity || r.currentAmmo == s.totalAmmo)
    ensures s.isReloading && s.reloadPhase == Winding && now >= s.reloadDue ==>
      r.isReloading && r.reloadPhase == Settling && r.reloadDue == now + Wait(cfg.tail)
        && r.currentAmmo == s.currentAmmo
    ensures (s.isReloading && now < s.reloadDue) ==>
      r.isReloading && r.reloadPhase == s.reloadPhase && r.reloadDue == s.reloadDue
        && r.currentAmmo == s.currentAmmo
    ensures !s.isReloading ==> !r.isReloading && r.currentAmmo == s.currentAmmo
  {
    var cooled := if s.isCooling && now >= s.coolDue then s.(isCooling := false) else s;
    if !cooled.isReloading || now < cooled.reloadDue then cooled
    else
      match cooled.reloadPhase
      case Winding => cooled.(reloadPhase := Settling, reloadDue := now + Wait(cfg.tail))
      case Settling =>
        var refill := if cooled.totalAmmo >= cfg.capacity then cfg.capacity else cooled.totalAmmo;
        cooled.(currentAmmo := refill, isReloading := false)
  }

  /** One frame: `Update`, then the coroutines. */
  function Tick(cfg: Config, s: GunState, inp: Input): (r: Step)
    requires ValidPick(cfg, inp.pick)
    ensures r.state.totalAmmo <= s.totalAmmo
    ensures !r.shot.NoTrigger? ==> Idle(s) && !NeedsReload(s)
    ensures !r.shot.NoTrigger? ==> AutoGate(cfg, s, inp) || inp.pressed
    ensures r.state.nextFire ==
      if Idle(s) && !NeedsReload(s) && AutoGate(cfg, s, inp)
      then inp.now + cfg.period else s.nextFire
  {
    var u := Update(cfg, s, inp);
    Step(Resume(cfg, u.state, inp.now), u.shot)
  }
}
