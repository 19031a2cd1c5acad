/**
 * What the gun promises about one frame and about any run of frames and
 * re-activations: the rules `Update` applies in order, the ledger invariant,
 * and the limits on how often the trigger can be honoured.
 */
module GunProperties {
  import opened GunSpec

  // ---------------------------------------------------------------------------
  // One frame
  // ---------------------------------------------------------------------------

  /** While reloading or cooling, a frame honours no trigger, starts no reload
      and fires no round; only the coroutines move on, and the clip changes
      only when a reload finishes in this frame. */
  lemma BusyTickFreezes(cfg: Config, s: GunState, inp: Input)
    requires ValidPick(cfg, inp.pick)
    requires s.isReloading || s.isCooling
    ensures Tick(cfg, s, inp).shot == NoTrigger
    ensures Tick(cfg, s, inp).state == Resume(cfg, s, inp.now)
    ensures Tick(cfg, s, inp).state.totalAmmo == s.totalAmmo
    ensures Tick(cfg, s, inp).state.nextFire == s.nextFire
    ensures !s.isReloading ==> !Tick(cfg, s, inp).state.isReloading
    ensures Tick(cfg, s, inp).state.currentAmmo != s.currentAmmo ==>
      s.isReloading && s.reloadPhase == Settling && !Tick(cfg, s, inp).state.isReloading
  {
  }

  /** An idle gun with an empty clip and rounds left starts a reload and
      honours no trigger in that frame, whatever the buttons do. */
  lemma AutoReloadFirst(cfg: Config, s: GunState, inp: Input)
    requires ValidPick(cfg, inp.pick)
    requires Idle(s) && NeedsReload(s)
    ensures Tick(cfg, s, inp).shot == NoTrigger
    ensures Tick(cfg, s, inp).state.isReloading && Tick(cfg, s, inp).state.reloadPhase == Winding
    ensures !Tick(cfg, s, inp).state.isCooling
    ensures Tick(cfg, s, inp).state.currentAmmo == s.currentAmmo
    ensures Tick(cfg, s, inp).state.totalAmmo == s.totalAmmo
    ensures Tick(cfg, s, inp).state.nextFire == s.nextFire
  {
  }

  /** An automatic gun with Fire held and the rate gate open calls `Shoot`
      and moves the gate one period past now; a round leaves when the clip
      has one. */
  lemma AutomaticFire(cfg: Config, s: GunState, inp: Input)
    requires ValidPick(cfg, inp.pick)
    requires Idle(s) && !NeedsReload(s) && AutoGate(cfg, s, inp)
    ensures !Tick(cfg, s, inp).shot.NoTrigger?
    ensures Tick(cfg, s, inp).shot.Fired? <==> s.currentAmmo > 0
    ensures Tick(cfg, s, inp).state.nextFire == inp.now + cfg.period
  {
  }

  /** Without the automatic gate, `Shoot` is called exactly on a press edge,
      and the rate gate does not move. */
  lemma EdgeFire(cfg: Config, s: GunState, inp: Input)
    requires ValidPick(cfg, inp.pick)
    requires Idle(s) && !NeedsReload(s) && !AutoGate(cfg, s, inp)
    ensures Tick(cfg, s, inp).shot.NoTrigger? <==> !inp.pressed
    ensures inp.pressed ==> (Tick(cfg, s, inp).shot.Fired? <==> s.currentAmmo > 0)
    ensures Tick(cfg, s, inp).state.nextFire == s.nextFire
  {
  }

  /** Past the automatic reload, a reload starts exactly when Reload was
      pressed and the clip, after this frame's shot, is below capacity; the
      frame's own shot and its cooldown do not prevent it. */
  lemma ManualReload(cfg: Config, s: GunState, inp: Input)
    requires ValidPick(cfg, inp.pick)
    requires Idle(s) && !NeedsReload(s)
    ensures Tick(cfg, s, inp).state.isReloading <==>
      inp.reloadPressed &&
      s.currentAmmo - (if Tick(cfg, s, inp).shot.Fired? then 1 else 0) < cfg.capacity
    ensures Tick(cfg, s, inp).state.isReloading ==> Tick(cfg, s, inp).state.reloadPhase == Winding
  {
  }

  /** A round fired from an idle gun starts a cooldown lasting
      `cooldownTime + tail`, except that a hit with no impact effects returns
      before the cooldown, leaving the gun free to fire next frame. */
  lemma ShotCooldown(cfg: Config, s: GunState, inp: Input)
    requires ValidPick(cfg, inp.pick)
    requires Idle(s)
    requires Tick(cfg, s, inp).shot.Fired?
    ensures Tick(cfg, s, inp).state.isCooling <==> !(inp.ray.Hit? && cfg.impactEffects == 0)
    ensures Tick(cfg, s, inp).state.isCooling ==>
      Tick(cfg, s, inp).state.coolDue == inp.now + Wait(cfg.cooldownTicks + cfg.tail)
  {
  }

  /** With no button touched, an idle gun that needs no reload stays exactly as it was. */
  lemma QuietTickChangesNothing(cfg: Config, s: GunState, inp: Input)
    requires ValidPick(cfg, inp.pick)
    requires Idle(s) && !NeedsReload(s)
    requires !inp.held && !inp.pressed && !inp.reloadPressed
    ensures Tick(cfg, s, inp) == Step(s, NoTrigger)
  {
  }

  /** The guard on an empty reserve does not stop the reload: with nothing
      left at all, a Reload press still makes the gun busy for a whole
      reload. Resumed when its first wait and then its tail have elapsed, the
      reload ends with the clip refilled to the nothing that is left. */
  lemma EmptyReserveReloadStillRuns(cfg: Config, s: GunState, inp: Input)
    requires ValidPick(cfg, inp.pick)
    requires Idle(s) && s.currentAmmo == 0 && s.totalAmmo == 0 && cfg.capacity > 0
    requires inp.reloadPressed
    ensures Tick(cfg, s, inp).state.isReloading
    ensures !Tick(cfg, s, inp).shot.Fired?
    ensures Tick(cfg, s, inp).state.totalAmmo == 0
    ensures Tick(cfg, s, inp).state.reloadDue == inp.now + Wait(cfg.reloadTicks - cfg.tail)
    ensures var r := Tick(cfg, s, inp).state;
      var settling := Resume(cfg, r, r.reloadDue);
      settling.isReloading && settling.reloadPhase == Settling &&
      var done := Resume(cfg, settling, settling.reloadDue);
      !done.isReloading && done.currentAmmo == 0 && done.totalAmmo == 0
  {
  }

  /** The ledger invariant survives every frame. */
  lemma TickKeepsInv(cfg: Config, s: GunState, inp: Input)
    requires ValidPick(cfg, inp.pick)
    requires ValidConfig(cfg) && Inv(cfg, s)
    ensures Inv(cfg, Tick(cfg, s, inp).state)
  {
  }

  // ---------------------------------------------------------------------------
  // Runs of frames and re-activations
  // ---------------------------------------------------------------------------

  /** What can happen to an active gun: a frame, or a disable/enable cycle. */
  datatype Event = Frame(input: Input) | Reenable

  predicate ValidEvents(cfg: Config, evs: seq<Event>) {
    forall i | 0 <= i < |evs| :: evs[i].Frame? ==> ValidPick(cfg, evs[i].input.pick)
  }

  function Apply(cfg: Config, s: GunState, e: Event): (r: Step)
    requires e.Frame? ==> ValidPick(cfg, e.input.pick)
    ensures e.Reenable? ==> r.shot == NoTrigger
  {
    match e
    case Frame(inp) => Tick(cfg, s, inp)
    case Reenable => Step(Reset(s), NoTrigger)
  }

  /** The state after all of evs. */
  function Final(cfg: Config, s: GunState, evs: seq<Event>): GunState
    requires ValidEvents(cfg, evs)
    decreases |evs|
  {
    if evs == [] then s
    else Final(cfg, Apply(cfg, s, evs[0]).state, evs[1..])
  }

  /** How many times evs call `Shoot`, dry calls included. */
  function Shots(cfg: Config, s: GunState, evs: seq<Event>): nat
    requires ValidEvents(cfg, evs)
    decreases |evs|
  {
    if evs == [] then 0
    else
      var st := Apply(cfg, s, evs[0]);
      (if st.shot.NoTrigger? then 0 else 1) + Shots(cfg, st.state, evs[1..])
  }

  /** How many frames of evs have Fire going down. */
  function Presses(evs: seq<Event>): nat
    decreases |evs|
  {
    if evs == [] then 0
    else (if evs[0].Frame? && evs[0].input.pressed then 1 else 0) + Presses(evs[1..])
  }

  function Max(a: int, b: int): int {
    if a >= b then a else b
  }

  /** Every run keeps the ledger invariant, and the total never grows. */
  lemma {:induction false} RunKeepsInv(cfg: Config, s: GunState, evs: seq<Event>)
    requires ValidEvents(cfg, evs)
    requires ValidConfig(cfg) && Inv(cfg, s)
    ensures Inv(cfg, Final(cfg, s, evs))
    ensures Final(cfg, s, evs).totalAmmo <= s.totalAmmo
    decreases |evs|
  {
    if evs != [] {
      var s1 := Apply(cfg, s, evs[0]).state;
      if evs[0].Frame? { TickKeepsInv(cfg, s, evs[0].input); }
      assert ValidEvents(cfg, evs[1..]) by {
        forall i | 0 <= i < |evs[1..]| ensures evs[1..][i] == evs[i + 1] { }
      }
      RunKeepsInv(cfg, s1, evs[1..]);
    }
  }

  /** Every state reachable from `Awake` satisfies the ledger invariant and
      holds no more than `capacity * rounds` rounds. */
  lemma ReachableKeepsInv(cfg: Config, evs: seq<Event>)
    requires ValidEvents(cfg, evs)
    requires ValidConfig(cfg)
    ensures Inv(cfg, Final(cfg, Init(cfg), evs))
    ensures Final(cfg, Init(cfg), evs).totalAmmo <= cfg.capacity * cfg.rounds
  {
    RunKeepsInv(cfg, Init(cfg), evs);
  }

  /** A manual gun calls `Shoot` at most once per press edge: holding Fire
      down never produces a second shot. */
  lemma {:induction false} ManualShotsAtMostPresses(cfg: Config, s: GunState, evs: seq<Event>)
    requires ValidEvents(cfg, evs)
    requires !cfg.automatic
    ensures Shots(cfg, s, evs) <= Presses(evs)
    decreases |evs|
  {
    if evs != [] {
      assert ValidEvents(cfg, evs[1..]) by {
        forall i | 0 <= i < |evs[1..]| ensures evs[1..][i] == evs[i + 1] { }
      }
      ManualShotsAtMostPresses(cfg, Apply(cfg, s, evs[0]).state, evs[1..]);
    }
  }

  lemma PeriodsAddUp(k: int, p: int)
    ensures k * p == (k - 1) * p + p
  {
  }

  /** With Fire never going down, the automatic gate alone decides: if every
      frame lies in [a, b], then k calls of `Shoot` need (k - 1) periods
      between the first eligible tick and b, whatever the re-activations do. */
  lemma {:induction false} AutoFireRateBound(cfg: Config, s: GunState, evs: seq<Event>, a: int, b: int)
    requires ValidEvents(cfg, evs)
    requires cfg.period >= 0
    requires forall i | 0 <= i < |evs| :: evs[i].Frame? ==>
      a <= evs[i].input.now <= b && !evs[i].input.pressed
    ensures Shots(cfg, s, evs) >= 1 ==>
      (Shots(cfg, s, evs) - 1) * cfg.period <= b - Max(a, s.nextFire)
    decreases |evs|
  {
    if evs != [] {
      var e := evs[0];
      var st := Apply(cfg, s, e);
      var rest := evs[1..];
      assert ValidEvents(cfg, rest) by {
        forall i | 0 <= i < |rest| ensures rest[i] == evs[i + 1] { }
      }
      AutoFireRateBound(cfg, st.state, rest, a, b);
      var k := Shots(cfg, st.state, rest);
      assert Shots(cfg, s, evs) == (if st.shot.NoTrigger? then 0 else 1) + k;
      if st.shot.NoTrigger? {
        assert st.state.nextFire == s.nextFire;
      } else {
        // no press edge, so the automatic gate let this shot through
        assert e.Frame? && !e.input.pressed;
        assert AutoGate(cfg, s, e.input);
        assert st.state.nextFire == e.input.now + cfg.period;
        if k >= 1 {
          PeriodsAddUp(k, cfg.period);
        }
      }
    }
  }
}
