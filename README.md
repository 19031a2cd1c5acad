# Gun: a verified model of a first-person shooter's weapon component

This project models the Unity component `Gun` (Assets/Scripts/Weaponary/Gun.cs).
The component keeps an ammunition ledger: `_currentAmmo` is the clip, and
`_totalAmmo` is every round left, the clip included. Each shot takes one round
from both counters. A reload refills the clip to `min(currentAmmo, _totalAmmo)`,
where the public field `currentAmmo` is the clip's capacity.

Two busy flags make `Update` return early:

- `_isReloading` is raised by the two-phase `Reload` coroutine.
- `_isCooling` is raised by the `Cooldown` coroutine that follows a shot.

An empty clip with rounds left starts a reload before any shot is considered.
An automatic gun fires while Fire is held and the rate gate `_nextFire` is open.
Otherwise a shot needs a press edge. A Reload press starts a reload when the clip
is below capacity, but only in a frame that got past both early returns. That
includes the frame of a shot, after the shot's cooldown has started. A fired round is dispatched to whatever the ray struck:
a `Target`, a rigidbody, a `Grenade`, or a `Dummy` in the struck object's parents.

## How the model is built

- Time is whole ticks (frames).
- In each tick, `Update` runs first. Then every coroutine whose wait has elapsed
  runs on to its next wait or to its end. This is the engine's order.
- A coroutine advances at most one wait per tick.
- A wait always spans at least one tick, even when its length is zero or
  negative (`GunSpec.Wait`). So a `reloadTime` shorter than the 0.25 s tail
  needs no precondition.
- The second wait of a reload counts from the tick in which the first wait
  resumed, as `WaitForSeconds` does.
- Coroutines become deadline fields: `reloadPhase` with `reloadDue`, and
  `coolDue`. There is no concurrency.
- `Input` holds the buttons (`held`, `pressed`, `reloadPressed`), the raycast's
  outcome (`Miss`, or `Hit` with the set of struck capabilities), and the index
  `Random.Range` would draw.

The model has three modules:

- `GunSpec` (gun_spec.dfy): the datatypes, and one function per operation from
  the old state to the new one, each with its one-call contract.
- `GunProperties` (gun_properties.dfy): the rules of one frame, the ledger
  invariant, and lemmas over any run of frames and disable/enable cycles.
- `Weaponry` (gun.dfy): class `Gun`, with the source's fields. Each method
  updates them in place and is proved to leave them as the matching `GunSpec`
  function says.

### Where the code departs from what it evidently intends (the model follows the code)

- **Reload with no rounds left.** The guard `if (_totalAmmo <= 0)
  StopCoroutine(Reload());` at Gun.cs:148-149 is evidently meant to abort the
  reload. But `StopCoroutine(Reload())` stops a new enumerator, not the one
  that is running. So with `_currentAmmo == 0` and `_totalAmmo == 0`, a Reload
  press still makes the gun reload (`GunProperties.EmptyReserveReloadStillRuns`).
  Resumed after both waits, that reload ends with the clip refilled to 0
  (the same lemma, using `GunSpec.Resume`).
- **Cooldown after a hit.** The comment at Gun.cs:236 ("check that we have
  impact effects") shows that the `return` at Gun.cs:237-238 was meant to skip
  only the impact spawn. As written, it also skips `AmmoCountUpdate` and
  `StartCoroutine(Cooldown())` at Gun.cs:248-251. So a hit with `impactEffects`
  empty starts no cooldown (`GunProperties.ShotCooldown`).
- **Reload in the frame of a shot.** The Reload press is tested after `Shoot`
  in the same `Update` (Gun.cs:139-141). So a reload can start in the frame of
  a shot, while that shot's cooldown runs (`GunProperties.ManualReload`).
- **Dry calls to `Shoot`.** The automatic gate moves `_nextFire` before calling
  `Shoot` (Gun.cs:129-130), even when `Shoot` then returns on an empty clip.

## Model

| member | source | states |
|---|---|---|
| `GunSpec.Init` | Assets/Scripts/Weaponary/Gun.cs:78-87 | `Awake` fills the clip to capacity and sets the total to `capacity * rounds`; the gun starts neither reloading nor cooling, and `_nextFire` is 0; with `capacity >= 0` and `rounds >= 1` the ledger invariant holds from the start |
| `GunSpec.Reset` | Assets/Scripts/Weaponary/Gun.cs:89-97 | `OnEnable` clears both busy flags and leaves clip, total and `_nextFire` as they were |
| `GunSpec.Wait` | Assets/Scripts/Weaponary/Gun.cs:158-160 | a wait resumes at least one tick later and never before its length has elapsed |
| `GunSpec.StartReload` | Assets/Scripts/Weaponary/Gun.cs:146-158 | starting `Reload` raises `_isReloading` whatever the reserve (the guard is a no-op); it enters the first wait, which ends exactly `Wait(reloadTime - tail)` from now, so no earlier than `reloadTime - tail` and at least one tick later; nothing else changes |
| `GunSpec.StartCooldown` | Assets/Scripts/Weaponary/Gun.cs:178-184 | starting `Cooldown` raises `_isCooling` until at least `cooldownTime + tail` from now and at least one tick later; nothing else changes |
| `GunSpec.Dispatch` | Assets/Scripts/Weaponary/Gun.cs:210-233 | each of the four calls happens exactly when its capability was struck, each at most once; no capability struck means no call |
| `GunSpec.Shoot` | Assets/Scripts/Weaponary/Gun.cs:190-252 | an empty clip returns with no change; otherwise clip and total each drop by exactly one and the reload state and `_nextFire` are untouched; on a hit, the capability calls come first, followed by exactly one impact spawn when `impactEffects.Length > 0` and none otherwise, and nothing else; the spawn uses the drawn index, which lies below `impactEffects.Length`; a miss makes no call; a cooldown of `cooldownTime + tail` starts unless the ray hit and there are no impact effects, in which case the cooling state is untouched |
| `GunSpec.Update` | Assets/Scripts/Weaponary/Gun.cs:100-143 | the ledger changes only when a round is fired, and then by exactly one in both counters; `Shoot` is reached only when neither flag is up and no automatic reload is due |
| `GunSpec.Resume` | Assets/Scripts/Weaponary/Gun.cs:146-186 | the total and `_nextFire` are never touched; cooling ends exactly when its deadline has passed; a reload in its first wait moves to the tail wait without touching the clip; a reload whose tail has elapsed ends with the clip at `min(capacity, total)`; a reload still waiting stays as it was; no reload ever starts here |
| `GunSpec.Tick` | Assets/Scripts/Weaponary/Gun.cs:100-136 | the total never grows; `Shoot` is called only when the gun is idle, needs no automatic reload, and either the automatic gate is open or Fire was pressed; `_nextFire` moves to `now + period` exactly when the automatic gate let the call through, and otherwise stays |
| `GunProperties.BusyTickFreezes` | Assets/Scripts/Weaponary/Gun.cs:104-109 | while reloading or cooling, a frame calls no `Shoot`, starts no reload, and leaves the total and `_nextFire` alone; the clip changes only when the reload finishes in that frame |
| `GunProperties.AutoReloadFirst` | Assets/Scripts/Weaponary/Gun.cs:112-116 | an idle gun with an empty clip and rounds left starts a reload (first wait) and calls no `Shoot`, whatever the input; ledger and `_nextFire` stay unchanged |
| `GunProperties.AutomaticFire` | Assets/Scripts/Weaponary/Gun.cs:127-131 | an automatic gun with Fire held and `now >= _nextFire` calls `Shoot`, a round leaves exactly when the clip has one, and `_nextFire` becomes `now + period` |
| `GunProperties.EdgeFire` | Assets/Scripts/Weaponary/Gun.cs:127-136 | when the automatic gate is shut (a manual gun, Fire not held, or before `_nextFire`), `Shoot` is called exactly on a press edge, and `_nextFire` does not move |
| `GunProperties.ManualReload` | Assets/Scripts/Weaponary/Gun.cs:139-142 | past the automatic reload, a reload starts exactly when Reload was pressed and the clip after this frame's shot is below capacity, even if that shot has just started a cooldown |
| `GunProperties.ShotCooldown` | Assets/Scripts/Weaponary/Gun.cs:235-251 | a round fired from an idle gun leaves it cooling exactly unless the ray hit and `impactEffects` is empty; the cooldown ends `Wait(cooldownTime + tail)` after the shot |
| `GunProperties.QuietTickChangesNothing` | Assets/Scripts/Weaponary/Gun.cs:100-143 | an idle gun that needs no reload and sees no button stays exactly as it was |
| `GunProperties.EmptyReserveReloadStillRuns` | Assets/Scripts/Weaponary/Gun.cs:146-171 | with clip and total both 0, a Reload press still makes the gun reload, with its first wait ending `Wait(reloadTime - tail)` from now; no round is fired and the total stays 0; resumed at the end of its first wait and then of its tail, the reload ends with the clip at 0 |
| `GunProperties.TickKeepsInv` | Assets/Scripts/Weaponary/Gun.cs:192-204 | every frame keeps `0 <= _currentAmmo <= _totalAmmo` and `_currentAmmo <= capacity` |
| `GunProperties.RunKeepsInv` | Assets/Scripts/Weaponary/Gun.cs:162-169 | any run of frames and re-activations keeps the ledger invariant, and the total never grows over the run |
| `GunProperties.ReachableKeepsInv` | Assets/Scripts/Weaponary/Gun.cs:82-83 | every state reachable from `Awake` satisfies the ledger invariant and holds at most `capacity * rounds` rounds |
| `GunProperties.ManualShotsAtMostPresses` | Assets/Scripts/Weaponary/Gun.cs:132-136 | on a manual gun, a run calls `Shoot` at most once per press edge, so holding Fire down never produces a second shot |
| `GunProperties.AutoFireRateBound` | Assets/Scripts/Weaponary/Gun.cs:127-131 | in a run with no press edges and every frame in `[a, b]`, k calls of `Shoot` satisfy `(k - 1) * period <= b - max(a, _nextFire)`, whatever re-activations happen in between |
| `Weaponry.Gun.constructor` | Assets/Scripts/Weaponary/Gun.cs:78-87 | `Awake` sets the fields to `GunSpec.Init`, so the ledger invariant holds for a valid configuration |
| `Weaponry.Gun.Reset` | Assets/Scripts/Weaponary/Gun.cs:89-97 | `OnEnable` clears both flags and keeps clip, total and `_nextFire` |
| `Weaponry.Gun.StartReload` | Assets/Scripts/Weaponary/Gun.cs:146-158 | the fields become `GunSpec.StartReload` of the old fields |
| `Weaponry.Gun.StartCooldown` | Assets/Scripts/Weaponary/Gun.cs:178-184 | the fields become `GunSpec.StartCooldown` of the old fields |
| `Weaponry.Gun.Shoot` | Assets/Scripts/Weaponary/Gun.cs:190-252 | the in-place guard, decrements, dispatch and early return leave the fields and the result as `GunSpec.Shoot` says |
| `Weaponry.Gun.Update` | Assets/Scripts/Weaponary/Gun.cs:100-143 | the ordered early returns and in-place updates leave the fields and the result as `GunSpec.Update` says |
| `Weaponry.Gun.ResumeCoroutines` | Assets/Scripts/Weaponary/Gun.cs:158-186 | resuming the coroutines updates the fields as `GunSpec.Resume` says |
| `Weaponry.Gun.Tick` | Assets/Scripts/Weaponary/Gun.cs:100-186 | one frame updates the fields as `GunSpec.Tick` says, keeps the ledger invariant, and never raises the total |

## Left out

- Unity object plumbing is left out: `Instantiate` and `Destroy` of the muzzle
  flash and impact effects, `Camera.main`, and transforms. These engine calls
  decide nothing in the state machine. An impact spawn is recorded only as `SpawnImpact(index)`.
- Audio (`AudioManager`), animator calls and `print` are foreign side effects
  and are not recorded. The reload's two phases are still kept apart, because
  the animator's "Reloading" flag drops between them.
- The HUD updates in `AmmoCountUpdate` are left out. They only write text, and
  their null checks change no field.
- Input polling through `Input` and the Rewired player, including the lazy
  fetch of `_player`, is left out. The buttons are parameters instead.
- Raycast geometry and physics are left out: `Physics.Raycast` with `range`,
  the force `-hit.normal * impactForce`, and `Quaternion.LookRotation`. These
  are float vector maths in foreign libraries. Only which capabilities were
  struck is modelled. `damage`, `impactForce` and the force vector are not
  modelled at all: `TakeDamage`, `AddForce` and `DamageDummy` record only that
  the call is made.
- Float time is left out: `Time.time`, `1 / fireRate`, and the 0.25 s tail.
  They are integer ticks (`period`, `tail`, `reloadTicks`, `cooldownTicks`).
- `Random.Range` is left out. Its result is the input `pick`, constrained to
  the array's bounds (`ValidPick`).
- Coroutine scheduling is modelled as deadline fields. Disabling the object
  stops its coroutines, so `Reset` simply makes the pending deadlines dead: no
  flag is up, and nothing resumes. A component disabled without its game
  object being deactivated, whose coroutines keep running, is not modelled.
- `gunType`, `weaponCam` and the `FpsCustom` lookup in `Awake` are left out.
  They do not affect the state machine.
- The model assumes that every engine or foreign call returns normally. In
  the source, a null reference throws and ends the method part-way. A null
  `muzzleFlash`, `muzzlePoint` or `AudioManager.instance` throws at
  Gun.cs:196-200, before the decrement at Gun.cs:203-204. A null `animator`
  throws at Gun.cs:156, after `_isReloading` was raised at Gun.cs:151. It
  throws at Gun.cs:183 after `_isCooling` was raised at Gun.cs:180, and in
  `OnEnable` at Gun.cs:94. In each of these cases the flag would stay up
  forever. A null `_custom` or `mainCam` throws too. None of these cases is
  modelled.
- GunSpec.Init: the model uses unbounded integers and does not reproduce a
  32-bit wrap of `currentAmmo * rounds`. When that product fits in 32 bits, no
  counter can leave the range, because the total never grows
  (`GunProperties.ReachableKeepsInv`).
