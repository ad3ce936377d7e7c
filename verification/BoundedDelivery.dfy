/**
 The retry budget of one WLAN delivery over whole runs: how often, and how far apart, an
 unchanged configuration is pushed again.
 */
module BoundedDelivery {
  import opened Options
  import opened Wlans
  import opened Plan
  import opened Delivery
  import opened BlockedSta
  import opened Engine
  import opened RecordInvariant
  import opened BlockedRuns

  /** The delivery of the current envelope is in flight and nothing else asks for a push. */
  ghost predicate InFlight(w: World) {
    var x := w.rec.extra;
    && InvW(w)
    && x.delivery.pendingSha == Some(WlanListHash(DeviceWlans(x)))
    && x.delivery.offeredCfg == w.rec.cfgVersion
    && !BlockedDrift(x)
    && x.delivery.lastAttempt > 0
    && 1 <= x.delivery.attempts <= MAX_ATTEMPTS
  }

  /** Steps of the regime: no plaintext inform, no settling, nothing the operator changes. */
  ghost predicate Unchanged(w: World, step: Step) {
    var after := Next(w, step).world.rec;
    && (step.Inform? ==>
          && !step.req.plaintext && step.req.now > 0
          && !SettleReady(w.rec.extra.delivery, step.req.body.vapTable))
    && after.cfgVersion == w.rec.cfgVersion
    && after.extra.deviceWlans == w.rec.extra.deviceWlans
    && after.extra.blocked == w.rec.extra.blocked
  }

  predicate Provisioned(report: Report) {
    report.out.Some? && report.out.value.FullProvision?
  }

  ghost predicate UnchangedRun(w: World, steps: seq<Step>) {
    steps != [] ==>
      UnchangedRun(w, steps[..|steps| - 1]) && Unchanged(After(w, steps[..|steps| - 1]), steps[|steps| - 1])
  }

  /** Times of the full provisionings a run emits. */
  function Times(w: World, steps: seq<Step>): seq<int> {
    if steps == [] then []
    else
      var n := |steps| - 1;
      Times(w, steps[..n])
      + (if steps[n].Inform? && Provisioned(Next(After(w, steps[..n]), steps[n])) then [steps[n].req.now] else [])
  }

  lemma DelayIsPowerOfTwo(attempts: nat)
    requires 1 <= attempts < MAX_ATTEMPTS
    ensures RetryDelay(attempts) == Pow2(attempts) < RETRY_MAX
  {
    assert Pow2(1) == 2 && Pow2(2) == 4 && Pow2(3) == 8 && Pow2(4) == 16 && Pow2(5) == 32;
  }

  /** How one decision moves the retry bookkeeping while a delivery is in flight. */
  ghost predicate RetryEffect(r: Record, d: Decision, now: int) {
    var b, c := r.extra.delivery, d.rec.extra.delivery;
    && d.rec.extra.blocked == r.extra.blocked
    && (if d.out.FullProvision? then
          && RetryDue(b, now) && c.attempts == b.attempts + 1 && c.lastAttempt == now
          && c.pendingSha == b.pendingSha && c.offeredCfg == d.rec.cfgVersion
          && d.rec.extra.blockedSha == Some(Sha256(BlockedStaWire(r.extra.blocked)))
        else if d.out.Setdefault? then
          d.rec.cfgVersion.None?
        else
          && c.attempts == b.attempts && c.lastAttempt == b.lastAttempt
          && c.pendingSha == b.pendingSha && c.offeredCfg == b.offeredCfg
          && d.rec.extra.blockedSha == r.extra.blockedSha)
  }

  lemma FlowStarts(r: Record, req: Request, plan: ProvisioningPlan, g: Gen)
    ensures var v := AssignedKeyFlow(r, req, plan, g);
            v.Success? ==>
              var c := v.value.rec.extra.delivery;
              && v.value.out.FullProvision?
              && c.pendingSha == Some(plan.driftHash) && c.lastAttempt == req.now && c.offeredCfg == v.value.rec.cfgVersion
              && c.attempts == (if r.extra.delivery.attemptSha == Some(plan.driftHash) then r.extra.delivery.attempts + 1 else 1)
              && v.value.rec.extra.deviceWlans == r.extra.deviceWlans && v.value.rec.extra.blocked == r.extra.blocked
              && v.value.rec.extra.blockedSha == Some(Sha256(BlockedStaWire(r.extra.blocked)))
  {
    hide BlockedStaWire, EncodeStoredWlans;
  }

  lemma FlightDrift(r: Record, cur: Hash, g: Gen)
    requires r.extra.delivery.pendingSha == Some(cur) && !BlockedDrift(r.extra)
    requires !SettleReady(r.extra.delivery, r.extra.vapTable)
    ensures DriftPhase(r, cur, g) == Success((r, g, true))
  {
    hide SettleReady, BlockedDrift;
    assert SettleRecord(r) == r;
  }

  lemma FlightStatus(r: Record, req: Request, plan: ProvisioningPlan, g: Gen)
    requires r.extra.delivery.pendingSha == Some(plan.driftHash) && r.extra.delivery.attemptSha == Some(plan.driftHash)
    requires r.extra.delivery.offeredCfg == r.cfgVersion && r.cfgVersion.Some? && !BlockedDrift(r.extra)
    requires !SettleReady(r.extra.delivery, r.extra.vapTable)
    ensures var v := DecideStatus(r, req, plan, g);
            v.Success? ==> RetryEffect(r, v.value, req.now) && !v.value.out.Setdefault?
  {
    hide DriftPhase, BlockedDrift, SettleReady, BlockedStaWire, AssignedKeyFlow, Connected, RetryDue, NewestTwo, AddKey, GentleNoop;
    FlightDrift(r, plan.driftHash, g);
    FlowStarts(r, req, plan, g);
  }

  lemma FlightDecide(r: Record, req: Request, g: Gen)
    requires !req.plaintext && r.cfgVersion.Some?
    requires r.extra.delivery.pendingSha == Some(WlanListHash(DeviceWlans(r.extra)))
    requires r.extra.delivery.attemptSha == r.extra.delivery.pendingSha
    requires r.extra.delivery.offeredCfg == r.cfgVersion && !BlockedDrift(r.extra)
    requires !SettleReady(r.extra.delivery, r.extra.vapTable)
    ensures Decide(r, req, g).Success? ==> RetryEffect(r, Decide(r, req, g).value, req.now)
  {
    hide PlanOf, DecideStatus, DecidePlain, GentleNoop, BlockedDrift, SettleReady, BlockedStaWire, WlanListHash, DeviceWlans, RetryDue;
    PlanHash(r.extra);
    FlightStatus(r, req, PlanOf(r.extra), g);
  }

  /** One step of the regime: a push is due, spends one attempt, and restarts the clock; any other step leaves both. */
  lemma FlightStep(w: World, step: Step)
    requires InFlight(w) && Unchanged(w, step)
    ensures var report := Next(w, step);
            var b, c := w.rec.extra.delivery, report.world.rec.extra.delivery;
            && InFlight(report.world)
            && (if Provisioned(report) then
                  b.attempts < MAX_ATTEMPTS && c.attempts == b.attempts + 1
                  && step.Inform? && c.lastAttempt == step.req.now >= b.lastAttempt + Pow2(b.attempts)
                else c.attempts == b.attempts && c.lastAttempt == b.lastAttempt)
  {
    StepKeeps(w, step);
    if step.Inform? {
      var r, g := Prepared(w.rec, step.req), Gen(w.next, step.req.entropy);
      assert InvW(w);
      FlightDecide(r, step.req, g);
      hide Decide, SettleReady, BlockedStaWire, WlanListHash, DeviceWlans;
      var v := Decide(r, step.req, g);
      if v.Success? && v.value.out.FullProvision? {
        DelayIsPowerOfTwo(w.rec.extra.delivery.attempts);
      }
    } else {
      AdminInFlight(w, step);
    }
  }

  lemma AdminInFlight(w: World, step: Step)
    requires InFlight(w) && Unchanged(w, step) && !step.Inform?
    ensures Next(w, step).world.rec.extra.delivery == w.rec.extra.delivery && Next(w, step).out.None?
    ensures !BlockedDrift(Next(w, step).world.rec.extra)
  {
    hide SaveIntent, BlockedStaWire, DeviceWlans, WlanListHash, InvW;
    if step.Admin? { SaveFrame(w.rec, step.save, w.next); }
  }

  /** The first push of an envelope: the hash was not attempted before. */
  ghost predicate FirstPush(before: World, req: Request) {
    var report := Next(before, Inform(req));
    && InvW(before) && req.now > 0 && Provisioned(report)
    && before.rec.extra.delivery.attemptSha != Some(WlanListHash(DeviceWlans(before.rec.extra)))
  }

  lemma OnlyTheFlowProvisions(r: Record, req: Request, g: Gen)
    requires Decide(r, req, g).Success? && Decide(r, req, g).value.out.FullProvision?
    ensures exists b: Record, h: Gen :: AssignedKeyFlow(b, req, PlanOf(r.extra), h).Success?
              && Decide(r, req, g).value == AssignedKeyFlow(b, req, PlanOf(r.extra), h).value.(rec := ConfirmKey(AssignedKeyFlow(b, req, PlanOf(r.extra), h).value.rec, req.usedKey))
              && b.extra.delivery.attemptSha == r.extra.delivery.attemptSha && b.extra.deviceWlans == r.extra.deviceWlans && b.extra.blocked == r.extra.blocked
  {
    hide PlanOf, DriftPhase, AssignedKeyFlow, HeldAtGate, Connected, SettleReady;
    var plan := PlanOf(r.extra);
    if !req.plaintext {
      DriftFrame(r, plan.driftHash, g);
      var (b, h, drift) := DriftPhase(r, plan.driftHash, g).value;
      ConnectedNeverProvisions(b, plan, h);
      assert AssignedKeyFlow(b, req, plan, h).Success?;
    } else {
      assert AssignedKeyFlow(r, req, plan, g).Success?;
    }
  }

  lemma ConnectedNeverProvisions(r: Record, plan: ProvisioningPlan, g: Gen)
    ensures Connected(r, plan, g).Success? ==> !Connected(r, plan, g).value.out.FullProvision?
  {
    hide BlockedStaWire, NotRunningEvidence, MissingVaps;
  }

  lemma FirstPushStarts(before: World, req: Request)
    requires FirstPush(before, req)
    ensures var w := Next(before, Inform(req)).world;
            InFlight(w) && w.rec.extra.delivery.attempts == 1 && w.rec.extra.delivery.lastAttempt == req.now
  {
    hide Decide, PlanOf, AssignedKeyFlow, BlockedStaWire, WlanListHash;
    StepKeeps(before, Inform(req));
    var r, g := Prepared(before.rec, req), Gen(before.next, req.entropy);
    OnlyTheFlowProvisions(r, req, g);
    var plan := PlanOf(r.extra);
    PlanHash(r.extra);
    var b: Record, h: Gen :| AssignedKeyFlow(b, req, plan, h).Success?
      && Decide(r, req, g).value == AssignedKeyFlow(b, req, plan, h).value.(rec := ConfirmKey(AssignedKeyFlow(b, req, plan, h).value.rec, req.usedKey))
      && b.extra.delivery.attemptSha == r.extra.delivery.attemptSha && b.extra.deviceWlans == r.extra.deviceWlans && b.extra.blocked == r.extra.blocked;
    FlowStarts(b, req, plan, h);
  }

  ghost predicate Spaced(times: seq<int>) {
    forall k :: 1 <= k < |times| ==> times[k] - times[k - 1] >= Pow2(k)
  }

  lemma SpacedSnoc(times: seq<int>, t: int)
    requires times != [] && Spaced(times) && t - times[|times| - 1] >= Pow2(|times|)
    ensures Spaced(times + [t])
  {
  }

  ghost predicate Tracks(w: World, times: seq<int>) {
    var b := w.rec.extra.delivery;
    InFlight(w) && times != [] && b.attempts == |times| && b.lastAttempt == times[|times| - 1] && Spaced(times)
  }

  lemma TracksStep(w: World, step: Step, times: seq<int>)
    requires Tracks(w, times) && Unchanged(w, step)
    ensures Tracks(Next(w, step).world,
                   if step.Inform? && Provisioned(Next(w, step)) then times + [step.req.now] else times)
  {
    hide Next, InFlight, Unchanged, Pow2, Spaced;
    FlightStep(w, step);
    if step.Inform? && Provisioned(Next(w, step)) {
      SpacedSnoc(times, step.req.now);
    }
  }

  lemma FirstPushTracks(before: World, req: Request)
    requires FirstPush(before, req)
    ensures Tracks(Next(before, Inform(req)).world, [req.now])
  {
    FirstPushStarts(before, req);
    hide Next, InFlight, FirstPush;
  }

  lemma {:induction false} FlightTimes(before: World, req: Request, steps: seq<Step>)
    requires FirstPush(before, req)
    requires UnchangedRun(Next(before, Inform(req)).world, steps)
    ensures var w := Next(before, Inform(req)).world;
            Tracks(After(w, steps), [req.now] + Times(w, steps))
  {
    hide Next, Tracks, Unchanged, Provisioned;
    var w := Next(before, Inform(req)).world;
    if steps == [] {
      FirstPushTracks(before, req);
      assert [req.now] + Times(w, []) == [req.now];
    } else {
      var n := |steps| - 1;
      FlightTimes(before, req, steps[..n]);
      var earlier := [req.now] + Times(w, steps[..n]);
      TracksStep(After(w, steps[..n]), steps[n], earlier);
      var times := [req.now] + Times(w, steps);
      if steps[n].Inform? && Provisioned(Next(After(w, steps[..n]), steps[n])) {
        assert times == earlier + [steps[n].req.now];
      } else {
        assert times == earlier;
      }
    }
  }

  /**
   While nothing changes and nothing settles, an envelope is pushed at most six times, the
   (k+1)-th push at least 2^k seconds after the k-th, 62 seconds from first to sixth.
   */
  lemma DeliveryIsBounded(before: World, req: Request, steps: seq<Step>)
    requires FirstPush(before, req)
    requires UnchangedRun(Next(before, Inform(req)).world, steps)
    ensures var times := [req.now] + Times(Next(before, Inform(req)).world, steps);
            && |times| <= MAX_ATTEMPTS
            && Spaced(times)
            && (|times| == MAX_ATTEMPTS ==> times[5] - times[0] >= 62)
  {
    FlightTimes(before, req, steps);
    hide Next;
    var times := [req.now] + Times(Next(before, Inform(req)).world, steps);
    assert Pow2(1) == 2 && Pow2(2) == 4 && Pow2(3) == 8 && Pow2(4) == 16 && Pow2(5) == 32;
    if |times| == MAX_ATTEMPTS {
      assert times[1] - times[0] >= 2 && times[2] - times[1] >= 4 && times[3] - times[2] >= 8
             && times[4] - times[3] >= 16 && times[5] - times[4] >= 32;
    }
  }

  // ---- the escape for operator content -----------------------------------------------------------

  /** A saved change minted a version the pending offer does not carry and the device does not echo. */
  predicate OperatorContent(r: Record) {
    r.cfgVersion.Some? && r.cfgVersion != r.appliedCfg && r.cfgVersion != r.extra.delivery.offeredCfg
  }

  /**
   An exhausted retry never holds operator content hostage: the next assigned-key status
   inform provisions in full, with a version the device was not offered before.
   */
  lemma OperatorContentIsDelivered(w: World, req: Request)
    requires InvW(w) && Deliverable(Prepared(w.rec, req), req) && OperatorContent(Prepared(w.rec, req))
    ensures var out := Next(w, Inform(req)).out;
            && out.Some? && out.value.FullProvision?
            && Some(out.value.cfg) != w.rec.extra.delivery.offeredCfg
            && out.value.plan == PlanOf(Prepared(w.rec, req).extra)
            && out.value.blockedSta == BlockedStaWire(w.rec.extra.blocked)
  {
    var r, g := Prepared(w.rec, req), Gen(w.next, req.entropy);
    var plan := PlanOf(r.extra);
    PreparedKeeps(w.rec, req, w.next);
    NeverFactory(r, req, w.next);
    DriftSucceeds(r, plan.driftHash, g);
    DriftFrame(r, plan.driftHash, g);
    var (b, h, drift) := DriftPhase(r, plan.driftHash, g).value;
    OfferedIsOld(r, plan.driftHash, g);
    hide DriftPhase, PlanOf, AssignedKeyFlow, BlockedStaWire, SettleReady, Connected;
    FlowProvisions(b, req, plan, h);
    assert !HeldAtGate(b, plan.driftHash, req.now);
  }

  lemma OfferedIsOld(r: Record, cur: Hash, g: Gen)
    requires Inv(r, g.next) && DriftPhase(r, cur, g).Success? && OperatorContent(r)
    requires Used(r.extra.delivery.offeredCfg, g.next)
    ensures DriftPhase(r, cur, g).value.0.cfgVersion != r.extra.delivery.offeredCfg
  {
    DriftFrame(r, cur, g);
  }
}
