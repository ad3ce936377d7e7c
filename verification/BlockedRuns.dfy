/** Delivery of the blocked-client set over whole runs. */
module BlockedRuns {
  import opened Options
  import opened Text
  import opened Wlans
  import opened Plan
  import opened Delivery
  import opened BlockedSta
  import opened Engine
  import opened RecordInvariant

  /** The set carried by the last full provisioning of a run; None before the first. */
  function LastSent(w: World, steps: seq<Step>): Option<seq<string>> {
    if steps == [] then None
    else
      var n := |steps| - 1;
      var report := Next(After(w, steps[..n]), steps[n]);
      if report.out.Some? && report.out.value.FullProvision?
      then Some(BlockedClients(report.world.rec.extra.blocked))
      else LastSent(w, steps[..n])
  }

  function WireHash(macs: seq<string>): Digest<string>
    requires forall c :: c in macs ==> IsMac(c)
  {
    Sha256(Join(macs))
  }

  ghost predicate BaselineIs(x: Extra, sent: Option<seq<string>>) {
    match sent
    case None => x.blockedSha.None?
    case Some(macs) => (forall c :: c in macs ==> IsMac(c)) && x.blockedSha == Some(WireHash(macs))
  }

  /** What one decision does to the blocked rows and the disconnect event. */
  ghost predicate BlockedEffect(r: Record, d: Decision) {
    var x, y := r.extra, d.rec.extra;
    && y.blocked == x.blocked
    && (d.out.FullProvision? ==>
          d.out.blockedSta == BlockedStaWire(x.blocked) && y.blockedSha == Some(Sha256(BlockedStaWire(x.blocked))) && !y.disconnectPending)
    && (!d.out.FullProvision? ==> y.blockedSha == x.blockedSha)
    && (d.out.BlockedStaPush? ==>
          && x.disconnectPending && !y.disconnectPending
          && d.out.wire == BlockedStaWire(x.blocked) && d.out.wire != ""
          && x.blockedSha == Some(Sha256(d.out.wire)))
    && (y.disconnectPending ==> x.disconnectPending)
  }

  lemma WatchdogsBlocked(r: Record, plan: ProvisioningPlan, g: Gen)
    ensures Watchdogs(r, plan, g).Success? ==>
              BlockedEffect(r, Watchdogs(r, plan, g).value) && Watchdogs(r, plan, g).value.out == Noop
  {
    hide BlockedStaWire, NotRunningEvidence, MissingVaps;
  }

  lemma ConnectedBlocked(r: Record, plan: ProvisioningPlan, g: Gen)
    requires !BlockedDrift(r.extra)
    ensures Connected(r, plan, g).Success? ==> BlockedEffect(r, Connected(r, plan, g).value)
  {
    hide Watchdogs, BlockedStaWire;
    var quiet := r.(extra := r.extra.(disconnectPending := false));
    WatchdogsBlocked(quiet, plan, g);
  }

  lemma FlowBlocked(r: Record, req: Request, plan: ProvisioningPlan, g: Gen)
    ensures AssignedKeyFlow(r, req, plan, g).Success? ==> BlockedEffect(r, AssignedKeyFlow(r, req, plan, g).value)
  {
    hide BlockedStaWire, EncodeStoredWlans;
  }

  lemma KeyPathBlocked(r: Record, req: Request, plan: ProvisioningPlan, g: Gen, drift: bool)
    requires drift || !BlockedDrift(r.extra)
    ensures DecideKey(r, req, plan, g, drift).Success? ==> BlockedEffect(r, DecideKey(r, req, plan, g, drift).value)
  {
    hide AssignedKeyFlow, Connected, BlockedStaWire, BlockedDrift;
    FlowBlocked(r, req, plan, g);
    if !drift { ConnectedBlocked(r, plan, g); }
  }

  lemma StatusBlocked(r: Record, req: Request, plan: ProvisioningPlan, g: Gen)
    ensures DecideStatus(r, req, plan, g).Success? ==> BlockedEffect(r, DecideStatus(r, req, plan, g).value)
  {
    hide DriftPhase, DecideKey, HeldAtGate, BlockedStaWire, SettleReady;
    if DriftPhase(r, plan.driftHash, g).Success? {
      DriftFrame(r, plan.driftHash, g);
      var (b, h, drift) := DriftPhase(r, plan.driftHash, g).value;
      KeyPathBlocked(b, req, plan, h, drift);
    }
  }

  lemma DecideBlocked(r: Record, req: Request, g: Gen)
    ensures Decide(r, req, g).Success? ==> BlockedEffect(r, Decide(r, req, g).value)
  {
    hide PlanOf, DecideStatus, AssignedKeyFlow, BlockedStaWire;
    var plan := PlanOf(r.extra);
    StatusBlocked(r, req, plan, g);
    FlowBlocked(r, req, plan, g);
  }

  // ---- the baseline --------------------------------------------------------------------------

  lemma AdminKeepsBaseline(w: World, step: Step)
    requires !step.Inform?
    ensures Next(w, step).world.rec.extra.blockedSha == w.rec.extra.blockedSha && Next(w, step).out.None?
    ensures Next(w, step).world.rec.extra.disconnectPending == w.rec.extra.disconnectPending
  {
    hide SaveIntent;
    if step.Admin? { SaveFrame(w.rec, step.save, w.next); }
  }

  /** In every run the delivery baseline is the hash of the set last sent in a full provisioning. */
  lemma {:induction false} BaselineIsLastSent(steps: seq<Step>)
    ensures BaselineIs(After(Start, steps).rec.extra, LastSent(Start, steps))
  {
    if steps != [] {
      var n := |steps| - 1;
      var w, step := After(Start, steps[..n]), steps[n];
      BaselineIsLastSent(steps[..n]);
      hide Decide, BlockedStaWire, Join, BlockedClients;
      if step.Inform? {
        var r, g := Prepared(w.rec, step.req), Gen(w.next, step.req.entropy);
        DecideBlocked(r, step.req, g);
        WireOf(r.extra.blocked);
      } else {
        AdminKeepsBaseline(w, step);
      }
    }
  }

  lemma WireOf(row: seq<string>)
    ensures forall c :: c in BlockedClients(row) ==> IsMac(c)
    ensures BlockedStaWire(row) == Join(BlockedClients(row))
  {
    BlockedClientsMeaning(row);
  }

  /**
   Hence a reconnect push resends exactly the set of the last full provisioning: not just
   equal bytes, the same clients.
   */
  lemma ReconnectResendsLastSent(steps: seq<Step>, req: Request)
    requires var report := Next(After(Start, steps), Inform(req));
             report.out.Some? && report.out.value.BlockedStaPush?
    ensures var w := After(Start, steps);
            LastSent(Start, steps) == Some(BlockedClients(w.rec.extra.blocked))
            && Next(w, Inform(req)).out == Some(BlockedStaPush(BlockedStaWire(w.rec.extra.blocked)))
  {
    BaselineIsLastSent(steps);
    var w := After(Start, steps);
    hide Decide, Join, BlockedClients;
    var r, g := Prepared(w.rec, req), Gen(w.next, req.entropy);
    DecideBlocked(r, req, g);
    WireOf(w.rec.extra.blocked);
    var macs := LastSent(Start, steps).value;
    JoinInjective(macs, BlockedClients(w.rec.extra.blocked));
  }

  // ---- a changed set is delivered ---------------------------------------------------------------

  /** A status inform that reaches the decision: assigned key, nothing armed, draws and rendering succeed. */
  predicate Deliverable(r: Record, req: Request) {
    && !req.plaintext && OnAssigned(r, req.usedKey) && !GentleNoop(req.body.kind)
    && !Armed(r.extra) && req.entropy >= 3 && req.renders
  }

  lemma DriftSucceeds(r: Record, cur: Hash, g: Gen)
    requires g.left >= 3
    ensures DriftPhase(r, cur, g).Success? && DriftPhase(r, cur, g).value.1.left >= 1
  {
    hide SettleReady, BlockedStaWire;
  }

  lemma FlowProvisions(r: Record, req: Request, plan: ProvisioningPlan, g: Gen)
    requires req.renders && g.left >= 1
    ensures var v := AssignedKeyFlow(r, req, plan, g);
            v.Success? && v.value.out.FullProvision? && v.value.out.blockedSta == BlockedStaWire(r.extra.blocked)
            && (r.cfgVersion.Some? ==> v.value.out.cfg == r.cfgVersion.value)
            && v.value.out.plan == plan
  {
    hide BlockedStaWire, EncodeStoredWlans;
  }

  /** A blocked-set change outranks the rate limit: the next such inform carries the new set. */
  lemma ChangedSetIsDelivered(w: World, req: Request)
    requires InvW(w) && Deliverable(Prepared(w.rec, req), req) && BlockedDrift(w.rec.extra)
    ensures var out := Next(w, Inform(req)).out;
            out.Some? && out.value.FullProvision? && out.value.blockedSta == BlockedStaWire(w.rec.extra.blocked)
  {
    var r, g := Prepared(w.rec, req), Gen(w.next, req.entropy);
    var plan := PlanOf(r.extra);
    PreparedKeeps(w.rec, req, w.next);
    NeverFactory(r, req, w.next);
    DriftSucceeds(r, plan.driftHash, g);
    DriftFrame(r, plan.driftHash, g);
    var (b, h, drift) := DriftPhase(r, plan.driftHash, g).value;
    hide DriftPhase, PlanOf, AssignedKeyFlow, BlockedStaWire, SettleReady, Connected;
    FlowProvisions(b, req, plan, h);
    assert !HeldAtGate(b, plan.driftHash, req.now);
  }

  lemma NeverFactory(r: Record, req: Request, next: nat)
    requires Inv(r, next) && OnAssigned(r, req.usedKey)
    ensures req.usedKey != FactoryKey && !FactoryKeyRefused(r, req.usedKey)
  {
  }

  /** In terms of sets: whenever the set differs from the one last sent, it is delivered, never answered by a noop. */
  lemma DifferentSetIsDelivered(steps: seq<Step>, req: Request)
    requires LastSent(Start, steps).Some?
    requires BlockedClients(After(Start, steps).rec.extra.blocked) != LastSent(Start, steps).value
    requires Deliverable(Prepared(After(Start, steps).rec, req), req)
    ensures var out := Next(After(Start, steps), Inform(req)).out;
            out.Some? && out.value.FullProvision?
            && out.value.blockedSta == BlockedStaWire(After(Start, steps).rec.extra.blocked)
  {
    var w := After(Start, steps);
    RunKeeps(steps);
    BaselineIsLastSent(steps);
    WireOf(w.rec.extra.blocked);
    assert BlockedDrift(w.rec.extra) by {
      if !BlockedDrift(w.rec.extra) {
        JoinInjective(LastSent(Start, steps).value, BlockedClients(w.rec.extra.blocked));
      }
    }
    hide Next, Prepared, BlockedStaWire;
    ChangedSetIsDelivered(w, req);
  }

  // ---- one push per armed event ---------------------------------------------------------------------

  function Pushes(w: World, steps: seq<Step>): nat {
    if steps == [] then 0
    else
      var n := |steps| - 1;
      var out := Next(After(w, steps[..n]), steps[n]).out;
      Pushes(w, steps[..n]) + (if out.Some? && out.value.BlockedStaPush? then 1 else 0)
  }

  /** Committed informs whose session refresh saw a disconnect. */
  function DisconnectsSeen(w: World, steps: seq<Step>): nat {
    if steps == [] then 0
    else
      var n := |steps| - 1;
      var out := Next(After(w, steps[..n]), steps[n]).out;
      DisconnectsSeen(w, steps[..n]) + (if out.Some? && steps[n].Inform? && steps[n].req.body.disconnectSeen then 1 else 0)
  }

  /** Every reconnect push is paid for by its own disconnect observation, and a standing event by one more. */
  lemma {:induction false} AtMostOnePushPerDisconnect(steps: seq<Step>)
    ensures Pushes(Start, steps) + (if After(Start, steps).rec.extra.disconnectPending then 1 else 0)
            <= DisconnectsSeen(Start, steps)
  {
    if steps != [] {
      var n := |steps| - 1;
      var w, step := After(Start, steps[..n]), steps[n];
      AtMostOnePushPerDisconnect(steps[..n]);
      hide Decide, BlockedStaWire;
      if step.Inform? {
        var r, g := Prepared(w.rec, step.req), Gen(w.next, step.req.entropy);
        DecideBlocked(r, step.req, g);
      } else {
        AdminKeepsBaseline(w, step);
      }
    }
  }
}
