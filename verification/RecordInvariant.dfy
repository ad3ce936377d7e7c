/**
 What every reachable record satisfies, whatever the interleaving of encrypted and
 plaintext informs, admin saves and lost sweeps.
 */
module RecordInvariant {
  import opened Options
  import opened Wlans
  import opened Plan
  import opened Delivery
  import opened BlockedSta
  import opened Engine

  ghost predicate KeysOk(r: Record, next: nat) {
    && |r.authkeys| <= 2
    && (|r.authkeys| == 2 ==> r.authkeys[0] != r.authkeys[1])
    && FactoryKey !in r.authkeys
    && (forall k :: k in r.authkeys ==> KeyUsed(k, next))
    && (r.xAuthkey.Some? ==> r.xAuthkey.value in r.authkeys)
  }

  ghost predicate LifecycleOk(r: Record) {
    && (r.state == Pending ==> r.authkeys == [] && r.xAuthkey.None? && !r.keyConfirmed)
    && (r.state != Pending ==> r.xAuthkey.Some?)
    && (r.state == Adopted || r.state == Lost ==> r.keyConfirmed && r.extra.delivery.sha.Some?)
  }

  /** The persisted delivery rows agree with each other and with the hashes they stand for. */
  ghost predicate DeliveryOk(b: Bookkeeping) {
    && (b.pendingSha.Some? ==>
          && b.pendingWlans.Some? && b.pendingSha.value == WlanListHash(DecodeStoredWlans(b.pendingWlans.value))
          && b.offeredCfg.Some? && b.placements.Some?
          && b.pendingOld == b.applied
          && b.attemptSha == b.pendingSha && b.attempts >= 1)
    && (b.pendingSha.None? ==> b.pendingWlans.None? && b.offeredCfg.None? && b.placements.None?)
    && (b.sha.Some? <==> b.applied.Some?)
    && (b.sha.Some? ==> b.sha.value == WlanListHash(DecodeStoredWlans(b.applied.value)))
    && (b.applied.None? ==> b.pendingOld.None?)
  }

  ghost predicate WatchdogsOk(r: Record, next: nat) {
    && r.extra.delivery.notRunningMisses < 2
    && r.extra.vapMisses < 2
    && (r.extra.marker.Some? && r.extra.marker == r.cfgVersion ==> r.extra.vapMisses == 0)
    && Used(r.extra.marker, next)
    && Used(r.cfgVersion, next)
    && Used(r.extra.delivery.offeredCfg, next)
    && (r.extra.cmdTask.Some? ==> r.extra.cmdTask.value != "")
  }

  ghost predicate Inv(r: Record, next: nat) {
    && KeysOk(r, next)
    && LifecycleOk(r)
    && DeliveryOk(r.extra.delivery)
    && (r.extra.delivery.pendingSha.Some? ==> r.keyConfirmed)
    && WatchdogsOk(r, next)
  }

  ghost predicate InvW(w: World) {
    Inv(w.rec, w.next)
  }

  /** A decision is good when its record, once ConfirmKey stamped it, satisfies the invariant. */
  ghost predicate Good(v: Verdict, used: Key) {
    v.Success? ==> Inv(ConfirmKey(v.value.rec, used), v.value.gen.next)
  }

  // ---- one lemma per part of the decision ------------------------------------------------

  lemma MintKeeps(r: Record, g: Gen)
    requires Inv(r, g.next)
    ensures MintVersion(r, g).Success? ==>
              Inv(MintVersion(r, g).value.0, MintVersion(r, g).value.1.next) && MintVersion(r, g).value.1.next >= g.next
  {
  }

  lemma ConfirmKeeps(r: Record, next: nat, used: Key)
    requires Inv(r, next)
    ensures Inv(ConfirmKey(r, used), next)
  {
    if used in r.authkeys {
      assert r.state != Pending;
    }
  }

  lemma ArmedKeeps(r: Record, next: nat)
    requires Inv(r, next)
    ensures ArmedLifecycle(r).Some? ==> Inv(ArmedLifecycle(r).value.0, next)
  {
  }

  lemma SettleKeeps(r: Record, next: nat)
    requires Inv(r, next)
    ensures Inv(SettleRecord(r), next)
  {
  }

  /** The newest two keys after adding an unused one: distinct, assigned, ending in the new key. */
  lemma RotatedKeys(keys: seq<Key>, k: Key, next: nat)
    requires |keys| <= 2 && (|keys| == 2 ==> keys[0] != keys[1]) && FactoryKey !in keys
    requires k == DeviceKey(next) && forall x :: x in keys ==> KeyUsed(x, next)
    ensures var all := NewestTwo(AddKey(keys, k));
            && 1 <= |all| <= 2 && (|all| == 2 ==> all[0] != all[1]) && FactoryKey !in all
            && k in all && forall x :: x in all ==> KeyUsed(x, next + 2)
  {
    assert k !in keys;
    var all := NewestTwo(AddKey(keys, k));
    forall x | x in all ensures x in keys || x == k {
    }
    assert all[|all| - 1] == k;
  }

  lemma RotateKeeps(r: Record, g: Gen)
    requires Inv(r, g.next) && RotateKeys(r, g).Success?
    requires r.state == Pending || (r.state == Adopting && !r.keyConfirmed)
    ensures Inv(RotateKeys(r, g).value.0, RotateKeys(r, g).value.1.next)
    ensures !RotateKeys(r, g).value.0.keyConfirmed
  {
    RotatedKeys(r.authkeys, DeviceKey(g.next), g.next);
    hide AddKey, NewestTwo, WlanListHash, DecodeStoredWlans;
  }

  lemma FlowKeeps(r: Record, req: Request, plan: ProvisioningPlan, g: Gen)
    requires Inv(r, g.next) && OnAssigned(r, req.usedKey) && plan.driftHash == WlanListHash(plan.wlans)
    ensures Good(AssignedKeyFlow(r, req, plan, g), req.usedKey)
  {
    StoredRoundTrip(plan.wlans);
    if r.cfgVersion.None? { MintKeeps(r, g); }
  }

  lemma VapRowsKeep(r: Record, used: Key, next: nat, adopt: bool, misses: nat, marker: Option<Version>, reboot: bool)
    requires Inv(r, next) && OnAssigned(r, used) && r.extra.delivery.sha.Some?
    requires misses < 2 && Used(marker, next) && (marker.Some? && marker == r.cfgVersion ==> misses == 0)
    ensures Inv(ConfirmKey(r.(state := if adopt then Adopted else r.state,
                              extra := r.extra.(vapMisses := misses, marker := marker, rebootArmed := reboot)), used), next)
  {
    assert used in r.authkeys && r.state != Pending;
  }

  lemma DevnameKeeps(r: Record, used: Key, plan: ProvisioningPlan, g: Gen)
    requires Inv(r, g.next) && OnAssigned(r, used) && r.extra.delivery.sha.Some?
    ensures Good(DevnameWatchdog(r, plan, g), used)
  {
    var x := r.extra;
    if MissingVaps(plan.vaps, x.vapTable) == {} {
      VapRowsKeep(r, used, g.next, true, 0, None, x.rebootArmed);
    } else if x.rebootArmed {
      VapRowsKeep(r, used, g.next, true, x.vapMisses, x.marker, x.rebootArmed);
    } else if x.marker.Some? && x.marker == r.cfgVersion {
      VapRowsKeep(r, used, g.next, true, 0, x.marker, x.rebootArmed);
    } else if x.vapMisses + 1 < 2 {
      VapRowsKeep(r, used, g.next, true, x.vapMisses + 1, x.marker, x.rebootArmed);
    } else {
      VapRowsKeep(r, used, g.next, false, 0, r.cfgVersion, true);
    }
  }

  lemma WatchdogsKeep(r: Record, used: Key, plan: ProvisioningPlan, g: Gen)
    requires Inv(r, g.next) && OnAssigned(r, used) && r.extra.delivery.sha.Some?
    ensures Good(Watchdogs(r, plan, g), used)
  {
    hide DevnameWatchdog, MissingVaps, NotRunningEvidence;
    assert used in r.authkeys && r.state != Pending;
    var n := r.extra.delivery.notRunningMisses + 1;
    match NotRunningEvidence(r.extra.delivery, r.extra.vapTable)
    case Unknown =>
    case Miss =>
      if n >= 2 {
        MintKeeps(SetMisses(r, 0), g);
        var m := MintVersion(SetMisses(r, 0), g);
        if m.Success? { ConfirmKeeps(m.value.0, m.value.1.next, used); }
      }
    case Run => DevnameKeeps(SetMisses(r, 0), used, plan, g);
  }

  lemma ConnectedKeeps(r: Record, used: Key, plan: ProvisioningPlan, g: Gen)
    requires Inv(r, g.next) && OnAssigned(r, used)
    ensures Good(Connected(r, plan, g), used)
  {
    assert used in r.authkeys && r.state != Pending;
    if r.extra.delivery.sha.None? {
      MintKeeps(r, g);
      if MintVersion(r, g).Success? { ConfirmKeeps(MintVersion(r, g).value.0, MintVersion(r, g).value.1.next, used); }
    } else if r.extra.delivery.pendingSha.Some? {
      ConfirmKeeps(r, g.next, used);
    } else {
      var quiet := r.(extra := r.extra.(disconnectPending := false));
      if !(r.extra.disconnectPending && BlockedStaWire(r.extra.blocked) != "") {
        WatchdogsKeep(quiet, used, plan, g);
      }
    }
  }

  lemma DecideKeyKeeps(r: Record, req: Request, plan: ProvisioningPlan, g: Gen, drift: bool)
    requires Inv(r, g.next) && plan.driftHash == WlanListHash(plan.wlans)
    requires req.usedKey == FactoryKey ==> r.state == Pending || (r.state == Adopting && !r.keyConfirmed)
    ensures Good(DecideKey(r, req, plan, g, drift), req.usedKey)
  {
    if req.usedKey == FactoryKey {
      if RotateKeys(r, g).Success? {
        RotateKeeps(r, g);
      }
    } else if !OnAssigned(r, req.usedKey) {
      ConfirmKeeps(r, g.next, req.usedKey);
    } else {
      FlowKeeps(r, req, plan, g);
      ConnectedKeeps(r, req.usedKey, plan, g);
    }
  }

  lemma HeldKeeps(r: Record, used: Key, next: nat)
    requires Inv(r, next)
    ensures Inv(ConfirmKey(r.(extra := r.extra.(delivery := AfterRetryCheck(r.extra.delivery))), used), next)
  {
    ConfirmKeeps(r, next, used);
  }

  /** Everything before the gate: settle, then at most one mint for each kind of drift. */
  lemma DriftKeeps(r: Record, cur: Hash, g: Gen)
    requires Inv(r, g.next) && DriftPhase(r, cur, g).Success?
    ensures Inv(DriftPhase(r, cur, g).value.0, DriftPhase(r, cur, g).value.1.next)
  {
    hide SettleReady, BlockedDrift;
    var s := SettleRecord(r);
    SettleKeeps(r, g.next);
    MintKeeps(s, g);
    var w := MintForWlanDrift(s, cur, g);
    MintKeeps(w.value.0, w.value.1);
  }

  lemma StatusKeeps(r: Record, req: Request, plan: ProvisioningPlan, g: Gen)
    requires Inv(r, g.next) && plan.driftHash == WlanListHash(plan.wlans)
    requires !FactoryKeyRefused(r, req.usedKey)
    ensures Good(DecideStatus(r, req, plan, g), req.usedKey)
  {
    if DriftPhase(r, plan.driftHash, g).Success? {
      DriftKeeps(r, plan.driftHash, g);
      DriftFrame(r, plan.driftHash, g);
      var (b, h, drift) := DriftPhase(r, plan.driftHash, g).value;
      HeldKeeps(b, req.usedKey, h.next);
      DecideKeyKeeps(b, req, plan, h, drift);
    }
  }

  lemma DecideKeeps(r: Record, req: Request, g: Gen)
    requires Inv(r, g.next)
    ensures Decide(r, req, g).Success? ==> Inv(Decide(r, req, g).value.rec, Decide(r, req, g).value.gen.next)
  {
    hide PlanOf, DecideStatus, AssignedKeyFlow, Inv;
    var plan := PlanOf(r.extra);
    PlanHash(r.extra);
    ConfirmKeeps(r, g.next, req.usedKey);
    ArmedKeeps(r, g.next);
    if ArmedLifecycle(r).Some? {
      ConfirmKeeps(ArmedLifecycle(r).value.0, g.next, req.usedKey);
    }
    if req.plaintext {
      if OnAssigned(r, req.usedKey) { FlowKeeps(r, req, plan, g); }
    } else if !FactoryKeyRefused(r, req.usedKey) {
      StatusKeeps(r, req, plan, g);
    }
  }

  lemma PreparedKeeps(r: Record, req: Request, next: nat)
    requires Inv(r, next)
    ensures Inv(Prepared(r, req), next)
  {
  }

  lemma SaveKeeps(r: Record, save: Save, next: nat)
    requires Inv(r, next)
    ensures Inv(SaveIntent(r, save, next).0, SaveIntent(r, save, next).1)
  {
    SaveFrame(r, save, next);
    hide SaveIntent, DeliveryOk;
  }

  lemma SweepKeeps(r: Record, now: int, next: nat)
    requires Inv(r, next)
    ensures Inv(SweepLost(r, now), next)
  {
  }

  /** Every step of every kind keeps the invariant. */
  lemma StepKeeps(w: World, step: Step)
    requires InvW(w)
    ensures InvW(Next(w, step).world)
  {
    hide Decide, Prepared, SaveIntent, SweepLost, Inv;
    match step
    case Inform(req) =>
      PreparedKeeps(w.rec, req, w.next);
      DecideKeeps(Prepared(w.rec, req), req, Gen(w.next, req.entropy));
    case Admin(save) => SaveKeeps(w.rec, save, w.next);
    case Sweep(now) => SweepKeeps(w.rec, now, w.next);
  }

  /** The invariant holds after every run from a freshly created record. */
  lemma {:induction false} RunKeeps(steps: seq<Step>)
    ensures InvW(After(Start, steps))
  {
    if steps != [] {
      var before := steps[..|steps| - 1];
      RunKeeps(before);
      StepKeeps(After(Start, before), steps[|steps| - 1]);
    }
  }

  /** Past the armed commands no path clears the confirmation. */
  lemma StatusStaysConfirmed(r: Record, req: Request, plan: ProvisioningPlan, g: Gen)
    requires r.keyConfirmed && DecideStatus(r, req, plan, g).Success?
    ensures DecideStatus(r, req, plan, g).value.rec.keyConfirmed
  {
    DriftFrame(r, plan.driftHash, g);
    var (b, h, drift) := DriftPhase(r, plan.driftHash, g).value;
    KeyPathStaysConfirmed(b, req, plan, h, drift);
  }

  lemma KeyPathStaysConfirmed(r: Record, req: Request, plan: ProvisioningPlan, g: Gen, drift: bool)
    requires r.keyConfirmed
    ensures DecideKey(r, req, plan, g, drift).Success? ==> DecideKey(r, req, plan, g, drift).value.rec.keyConfirmed
  {
  }

  /**
   KeyConfirmed is cleared by no step but one that answers Setdefault, and that step also
   removes every swept row and every key.
   */
  lemma ConfirmationClearedOnlyByReset(w: World, step: Step)
    requires w.rec.keyConfirmed
    ensures var after := Next(w, step);
            !after.world.rec.keyConfirmed ==>
              && after.out == Some(Setdefault)
              && after.world.rec.authkeys == [] && after.world.rec.xAuthkey.None? && after.world.rec.state == Pending
              && after.world.rec.extra.delivery == NoBookkeeping
              && !after.world.rec.extra.disconnectPending
              && after.world.rec.extra.vapMisses == 0 && after.world.rec.extra.marker.None?
  {
    hide PlanOf, DecideStatus, BlockedStaWire, EncodeStoredWlans, BlockedClients;
    if step.Inform? {
      var r, req, g := Prepared(w.rec, step.req), step.req, Gen(w.next, step.req.entropy);
      var plan := PlanOf(r.extra);
      if DecideStatus(r, req, plan, g).Success? { StatusStaysConfirmed(r, req, plan, g); }
    }
  }
}
