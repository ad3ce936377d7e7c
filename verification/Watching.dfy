/**
 What the two watchdogs of a settled record do, told by the rows of the reported tables: an applied
 SSID that is not running in two consecutive informs forces a re-provisioning, a planned devname
 that is not running in two consecutive informs forces one reboot for the running version.
 */
module Watching {
  import opened Options
  import opened Text
  import opened Wlans
  import opened Plan
  import opened Delivery
  import opened BlockedSta
  import opened Engine
  import opened RecordInvariant
  import Convergence
  import BoundedDelivery
  import BlockedRuns

  /** Adopted content confirmed, nothing pending, drifted or armed. */
  ghost predicate Resting(w: World) {
    var r := w.rec;
    && InvW(w) && r.xAuthkey.Some? && r.cfgVersion.Some?
    && !Armed(r.extra) && !BlockedDrift(r.extra) && !r.extra.disconnectPending
    && r.extra.delivery.sha == Some(WlanListHash(DeviceWlans(r.extra))) && r.extra.delivery.pendingSha.None?
  }

  /** A status inform under the assigned key that echoes the version and reports these vaps. */
  predicate Reports(w: World, req: Request, rows: seq<Row>) {
    && !req.plaintext && Some(req.usedKey) == w.rec.xAuthkey && req.body.kind == ""
    && req.body.cfgVersion == w.rec.cfgVersion && req.body.vapTable == Some(rows) && rows != [] && !req.body.disconnectSeen
  }

  /** The vaps planned for the radios the record knows once the inform is absorbed. */
  function Planned(w: World, req: Request): seq<VapPlan> {
    var radios := StoredRadios(if req.body.radioTable.Some? then req.body.radioTable else w.rec.extra.radioTable);
    VapsOfFirst(radios, |radios|, DeviceWlans(w.rec.extra))
  }

  function AppliedWlans(w: World): seq<Wlan> {
    DecodedOr(w.rec.extra.delivery.applied)
  }

  /** Some enabled applied WLAN has no RUN row with its SSID. */
  ghost predicate SsidGap(w: World, rows: seq<Row>) {
    exists i :: 0 <= i < |AppliedWlans(w)| && AppliedWlans(w)[i].enabled && !SsidRuns(rows, SsidOf(AppliedWlans(w)[i]))
  }

  ghost predicate AnyApplied(w: World) {
    exists i :: 0 <= i < |AppliedWlans(w)| && AppliedWlans(w)[i].enabled
  }

  /** Some planned devname has no RUN row. */
  ghost predicate DevnameGap(w: World, req: Request, rows: seq<Row>) {
    exists k :: 0 <= k < |Planned(w, req)| && !NameRuns(rows, Devname(Planned(w, req)[k].athN))
  }

  // ---- the reading of a table -------------------------------------------------------------------------

  lemma EvidenceByRow(b: Bookkeeping, rows: seq<Row>)
    requires rows != [] && b.applied.Some?
    ensures var wls := DecodeStoredWlans(b.applied.value);
            && (NotRunningEvidence(b, Some(rows)) == Miss <==> exists i :: 0 <= i < |wls| && wls[i].enabled && !SsidRuns(rows, SsidOf(wls[i])))
            && (NotRunningEvidence(b, Some(rows)) == Unknown <==> forall i :: 0 <= i < |wls| ==> !wls[i].enabled)
  {
    var wls := DecodeStoredWlans(b.applied.value);
    EnabledSsidsMembers(wls);
    hide DecodeStoredWlans, RunningRows, SsidRuns, SsidOf, EnabledSsids;
    var need, runs := EnabledSet(wls), RunningRows(rows);
    forall s ensures s in RunSsids(runs) <==> SsidRuns(rows, s) {
      RunningByRow(rows, "", s);
    }
    assert forall i :: 0 <= i < |wls| && wls[i].enabled ==> SsidOf(wls[i]) in need;
    if NotRunningEvidence(b, Some(rows)) == Miss {
      var s :| s in need && s !in RunSsids(runs);
      var i :| 0 <= i < |wls| && wls[i].enabled && SsidOf(wls[i]) == s;
    }
    if i :| 0 <= i < |wls| && wls[i].enabled && !SsidRuns(rows, SsidOf(wls[i])) {
      assert SsidOf(wls[i]) in need && SsidOf(wls[i]) !in RunSsids(runs);
    }
  }

  lemma PlannedAreEnabled(radios: seq<Radio>, wls: seq<Wlan>)
    ensures forall k :: 0 <= k < |VapsOfFirst(radios, |radios|, wls)| ==> VapsOfFirst(radios, |radios|, wls)[k].wlan.enabled
  {
    PlanSound(radios, |radios|, wls);
    hide VapsOfFirst;
  }

  lemma MissingByRow(vaps: seq<VapPlan>, rows: seq<Row>)
    requires rows != [] && forall k :: 0 <= k < |vaps| ==> vaps[k].wlan.enabled
    ensures MissingVaps(vaps, Some(rows)) == {} <==> forall k :: 0 <= k < |vaps| ==> NameRuns(rows, Devname(vaps[k].athN))
  {
    hide MissingVaps, NameRuns, Devname;
    if MissingVaps(vaps, Some(rows)) != {} {
      var n :| n in MissingVaps(vaps, Some(rows));
      MissingExactly(vaps, rows, n);
    }
    forall k | 0 <= k < |vaps| && MissingVaps(vaps, Some(rows)) == {} ensures NameRuns(rows, Devname(vaps[k].athN)) {
      MissingExactly(vaps, rows, Devname(vaps[k].athN));
    }
  }

  // ---- one inform -----------------------------------------------------------------------------------------

  /** A resting record passes everything before the watchdogs unchanged. */
  lemma ReachesWatchdogs(w: World, req: Request, rows: seq<Row>)
    requires Resting(w) && Reports(w, req, rows)
    ensures var r := Prepared(w.rec, req); var g := Gen(w.next, req.entropy);
            && PlanOf(r.extra).vaps == Planned(w, req)
            && InformCycle(w.rec, req, w.next) ==
               (match Watchdogs(r, PlanOf(r.extra), g) case Success(d) => Success(d.(rec := ConfirmKey(d.rec, req.usedKey))) case Failure(e) => Failure(e))
  {
    var r, g := Prepared(w.rec, req), Gen(w.next, req.entropy);
    Convergence.InvKeys(w);
    Convergence.SameWlans(r.extra, w.rec.extra);
    Convergence.SameBlocked(r.extra, w.rec.extra);
    PlanHash(r.extra);
    assert PlanOf(r.extra).vaps == Planned(w, req);
    hide BlockedDrift, DeviceWlans, PlanOf, Watchdogs, InvW, DriftPhase, BlockedStaWire, WlanListHash;
    Convergence.QuietDrift(r, PlanOf(r.extra).driftHash, g);
  }

  /** What an inform of a resting record leaves: the record it absorbed, up to the watchdogs' own rows. */
  predicate Watched(w: World, req: Request, rows: seq<Row>, next: Report) {
    var r, n := w.rec, next.world.rec;
    && next.out == Some(Noop)
    && n == r.(state := n.state, keyConfirmed := true, lastSeen := req.now, appliedCfg := r.cfgVersion, cfgVersion := n.cfgVersion,
               extra := r.extra.(radioTable := if req.body.radioTable.Some? then req.body.radioTable else r.extra.radioTable, vapTable := Some(rows),
                                 rebootArmed := n.extra.rebootArmed, vapMisses := n.extra.vapMisses, marker := n.extra.marker,
                                 delivery := r.extra.delivery.(notRunningMisses := n.extra.delivery.notRunningMisses)))
  }

  lemma PreparedIs(w: World, req: Request, rows: seq<Row>)
    requires Reports(w, req, rows) && w.rec.cfgVersion.Some?
    ensures Prepared(w.rec, req) == w.rec.(appliedCfg := w.rec.cfgVersion, lastSeen := req.now,
              extra := w.rec.extra.(radioTable := if req.body.radioTable.Some? then req.body.radioTable else w.rec.extra.radioTable, vapTable := Some(rows)))
  {
  }

  /** What the watchdogs decide is what the inform leaves, stamped as confirmed. */
  lemma Lifted(w: World, req: Request, rows: seq<Row>)
    requires Resting(w) && Reports(w, req, rows)
    requires var v := Watchdogs(Prepared(w.rec, req), PlanOf(Prepared(w.rec, req).extra), Gen(w.next, req.entropy));
             v.Success? && v.value.rec.authkeys == w.rec.authkeys
    ensures var d := Watchdogs(Prepared(w.rec, req), PlanOf(Prepared(w.rec, req).extra), Gen(w.next, req.entropy)).value;
            Next(w, Inform(req)) == Report(World(d.rec.(keyConfirmed := true), d.gen.next), Some(d.out), d.marks)
  {
    Convergence.InvKeys(w);
    ReachesWatchdogs(w, req, rows);
    hide Watchdogs, PlanOf, Prepared, InformCycle, InvW, BlockedDrift, DeviceWlans;
  }

  lemma SsidMissOutcome(r: Record, plan: ProvisioningPlan, g: Gen)
    requires NotRunningEvidence(r.extra.delivery, r.extra.vapTable) == Miss && g.left >= 1 && r.extra.delivery.notRunningMisses < 2
    ensures var v := Watchdogs(r, plan, g);
            && v.Success? && v.value.out == Noop
            && (if r.extra.delivery.notRunningMisses == 0
                then v.value.rec == SetMisses(r, 1).(state := Adopted) && v.value.gen.next == g.next
                else v.value.rec == SetMisses(r, 0).(cfgVersion := Some(Stamp(g.next))) && v.value.gen.next == g.next + 1)
  {
    hide NotRunningEvidence, DevnameWatchdog;
  }

  lemma DevnameGapOutcome(r: Record, plan: ProvisioningPlan, g: Gen)
    requires NotRunningEvidence(r.extra.delivery, r.extra.vapTable) == Run && MissingVaps(plan.vaps, r.extra.vapTable) != {}
    requires !r.extra.rebootArmed && r.extra.vapMisses < 2 && r.cfgVersion.Some?
    ensures var v := Watchdogs(r, plan, g); var x := SetMisses(r, 0).extra;
            && v.Success? && v.value.out == Noop && v.value.gen == g
            && (if x.marker == r.cfgVersion then v.value.rec == r.(state := Adopted, extra := x.(vapMisses := 0))
                else if x.vapMisses == 0 then v.value.rec == r.(state := Adopted, extra := x.(vapMisses := 1))
                else v.value.rec == r.(extra := x.(vapMisses := 0, rebootArmed := true, marker := r.cfgVersion)))
  {
    hide NotRunningEvidence, MissingVaps;
  }

  lemma NoGapOutcome(r: Record, plan: ProvisioningPlan, g: Gen)
    requires NotRunningEvidence(r.extra.delivery, r.extra.vapTable) == Run && MissingVaps(plan.vaps, r.extra.vapTable) == {}
    ensures var v := Watchdogs(r, plan, g);
            && v.Success? && v.value.out == Noop && v.value.gen == g
            && v.value.rec == r.(state := Adopted, extra := SetMisses(r, 0).extra.(vapMisses := 0, marker := None))
  {
    hide NotRunningEvidence, MissingVaps;
  }

  lemma StillResting(w: World, req: Request, rows: seq<Row>)
    requires Resting(w) && Watched(w, req, rows, Next(w, Inform(req)))
    requires var n := Next(w, Inform(req)).world.rec; n.cfgVersion.Some? && !n.extra.rebootArmed
    ensures Resting(Next(w, Inform(req)).world)
  {
    var n := Next(w, Inform(req)).world.rec;
    StepKeeps(w, Inform(req));
    Convergence.SameWlans(n.extra, w.rec.extra);
    Convergence.SameBlocked(n.extra, w.rec.extra);
    hide Next, BlockedDrift, DeviceWlans, InvW;
  }

  lemma CountsBelowTwo(w: World)
    requires Resting(w)
    ensures w.rec.extra.delivery.notRunningMisses < 2 && w.rec.extra.vapMisses < 2 && w.rec.extra.delivery.applied.Some?
    ensures w.rec.extra.marker == w.rec.cfgVersion ==> w.rec.extra.vapMisses == 0
  {
  }

  lemma GapIsMissing(w: World, req: Request, rows: seq<Row>)
    requires rows != []
    ensures DevnameGap(w, req, rows) <==> MissingVaps(Planned(w, req), Some(rows)) != {}
  {
    var radios := StoredRadios(if req.body.radioTable.Some? then req.body.radioTable else w.rec.extra.radioTable);
    PlannedAreEnabled(radios, DeviceWlans(w.rec.extra));
    hide MissingVaps, NameRuns, VapsOfFirst, StoredRadios, Devname;
    MissingByRow(Planned(w, req), rows);
  }

  /** An inform in which an applied SSID does not run: counted once, and the second one in a row mints a version. */
  lemma SsidGapStep(w: World, req: Request, rows: seq<Row>)
    requires Resting(w) && Reports(w, req, rows) && SsidGap(w, rows) && req.entropy >= 1
    ensures var next := Next(w, Inform(req)); var n := next.world.rec;
            && Watched(w, req, rows, next) && !n.extra.rebootArmed && n.extra.marker == w.rec.extra.marker && n.extra.vapMisses == w.rec.extra.vapMisses
            && (if w.rec.extra.delivery.notRunningMisses == 0
                then n.extra.delivery.notRunningMisses == 1 && n.cfgVersion == w.rec.cfgVersion && next.world.next == w.next
                else n.extra.delivery.notRunningMisses == 0 && n.cfgVersion == Some(Stamp(w.next)) && next.world.next == w.next + 1)
  {
    CountsBelowTwo(w);
    PreparedIs(w, req, rows);
    EvidenceByRow(w.rec.extra.delivery, rows);
    hide Watchdogs, PlanOf, Prepared, Next, InvW, BlockedDrift, DeviceWlans, NotRunningEvidence, SsidRuns, SsidOf, DecodeStoredWlans, Reports;
    var r := Prepared(w.rec, req);
    SsidMissOutcome(r, PlanOf(r.extra), Gen(w.next, req.entropy));
    Lifted(w, req, rows);
  }

  /** An inform in which every applied SSID runs and a planned devname does not. */
  lemma DevnameGapStep(w: World, req: Request, rows: seq<Row>)
    requires Resting(w) && Reports(w, req, rows) && AnyApplied(w) && !SsidGap(w, rows) && DevnameGap(w, req, rows)
    ensures var next := Next(w, Inform(req)); var n := next.world.rec; var x := w.rec.extra;
            && Watched(w, req, rows, next) && n.cfgVersion == w.rec.cfgVersion && n.extra.delivery.notRunningMisses == 0 && next.world.next == w.next
            && (if x.marker == w.rec.cfgVersion then !n.extra.rebootArmed && n.extra.marker == x.marker && n.extra.vapMisses == 0
                else if x.vapMisses == 0 then !n.extra.rebootArmed && n.extra.marker == x.marker && n.extra.vapMisses == 1
                else n.extra.rebootArmed && n.extra.marker == w.rec.cfgVersion && n.extra.vapMisses == 0)
  {
    CountsBelowTwo(w);
    PreparedIs(w, req, rows);
    EvidenceByRow(w.rec.extra.delivery, rows);
    GapIsMissing(w, req, rows);
    ReachesWatchdogs(w, req, rows);
    hide Watchdogs, PlanOf, Prepared, Next, InvW, BlockedDrift, DeviceWlans, NotRunningEvidence, SsidRuns, SsidOf, DecodeStoredWlans, Reports, DevnameGap, MissingVaps, Planned;
    var r := Prepared(w.rec, req);
    DevnameGapOutcome(r, PlanOf(r.extra), Gen(w.next, req.entropy));
    Lifted(w, req, rows);
  }

  /** An inform in which everything runs: every count and marker is cleared. */
  lemma NoGapStep(w: World, req: Request, rows: seq<Row>)
    requires Resting(w) && Reports(w, req, rows) && AnyApplied(w) && !SsidGap(w, rows) && !DevnameGap(w, req, rows)
    ensures var next := Next(w, Inform(req)); var n := next.world.rec;
            && Watched(w, req, rows, next) && n.cfgVersion == w.rec.cfgVersion && n.state == Adopted && next.world.next == w.next
            && !n.extra.rebootArmed && n.extra.marker.None? && n.extra.vapMisses == 0 && n.extra.delivery.notRunningMisses == 0
  {
    CountsBelowTwo(w);
    PreparedIs(w, req, rows);
    EvidenceByRow(w.rec.extra.delivery, rows);
    GapIsMissing(w, req, rows);
    ReachesWatchdogs(w, req, rows);
    hide Watchdogs, PlanOf, Prepared, Next, InvW, BlockedDrift, DeviceWlans, NotRunningEvidence, SsidRuns, SsidOf, DecodeStoredWlans, Reports, DevnameGap, MissingVaps, Planned;
    var r := Prepared(w.rec, req);
    NoGapOutcome(r, PlanOf(r.extra), Gen(w.next, req.entropy));
    Lifted(w, req, rows);
  }

  // ---- two in a row ------------------------------------------------------------------------------------------

  /**
   Two consecutive informs of a settled device in which all applied SSIDs run and a planned devname
   does not: with no count standing the reboot is armed after exactly the second, for the running
   version; with a marker for that version it never is.
   */
  lemma TwoGapsArm(w: World, first: Request, rows1: seq<Row>, second: Request, rows2: seq<Row>)
    requires Resting(w) && AnyApplied(w) && w.rec.extra.vapMisses == 0
    requires Reports(w, first, rows1) && !SsidGap(w, rows1) && DevnameGap(w, first, rows1)
    requires var w1 := Next(w, Inform(first)).world;
             Reports(w1, second, rows2) && !SsidGap(w1, rows2) && DevnameGap(w1, second, rows2)
    ensures var w1 := Next(w, Inform(first)).world; var w2 := Next(w1, Inform(second)).world;
            && !w1.rec.extra.rebootArmed
            && w2.rec.cfgVersion == w.rec.cfgVersion
            && (w2.rec.extra.rebootArmed <==> w.rec.extra.marker != w.rec.cfgVersion)
            && w2.rec.extra.marker == w.rec.cfgVersion
  {
    hide Next, SsidGap, DevnameGap, Reports, InvW, BlockedDrift, DeviceWlans;
    DevnameGapStep(w, first, rows1);
    StillResting(w, first, rows1);
    assert AppliedWlans(Next(w, Inform(first)).world) == AppliedWlans(w);
    DevnameGapStep(Next(w, Inform(first)).world, second, rows2);
  }

  /** The very next inform on the assigned key carries the reboot, once. */
  lemma ArmedMeansReboot(w: World, req: Request)
    requires InvW(w) && w.rec.extra.rebootArmed && !w.rec.extra.setdefaultArmed
    requires !req.plaintext && Some(req.usedKey) == w.rec.xAuthkey && req.body.kind == ""
    ensures Next(w, Inform(req)).out == Some(Reboot) && !Next(w, Inform(req)).world.rec.extra.rebootArmed
  {
    Convergence.InvKeys(w);
    hide DecideStatus, PlanOf, InvW;
  }

  /**
   Two consecutive informs of a settled device in which an applied SSID does not run: with no count
   standing, the version changes after exactly the second, to one never handed out before, and the
   next status inform that still echoes the old one is answered by full provisioning.
   */
  lemma TwoSsidGapsProvision(w: World, first: Request, rows1: seq<Row>, second: Request, rows2: seq<Row>, third: Request)
    requires Resting(w) && w.rec.extra.delivery.notRunningMisses == 0 && first.entropy >= 1 && second.entropy >= 1
    requires Reports(w, first, rows1) && SsidGap(w, rows1)
    requires var w1 := Next(w, Inform(first)).world; Reports(w1, second, rows2) && SsidGap(w1, rows2)
    requires !third.plaintext && Some(third.usedKey) == w.rec.xAuthkey && third.body.kind == "" && third.entropy >= 3 && third.renders
    requires third.body.cfgVersion == w.rec.cfgVersion
    ensures var w1 := Next(w, Inform(first)).world; var w2 := Next(w1, Inform(second)).world; var out := Next(w2, Inform(third)).out;
            && w1.rec.cfgVersion == w.rec.cfgVersion && w2.rec.cfgVersion == Some(Stamp(w.next)) && w2.rec.cfgVersion != w.rec.cfgVersion
            && out.Some? && out.value.FullProvision?
  {
    hide Next, SsidGap, Reports, InvW, BlockedDrift, DeviceWlans;
    SsidGapStep(w, first, rows1);
    StillResting(w, first, rows1);
    var w1 := Next(w, Inform(first)).world;
    SsidGapStep(w1, second, rows2);
    StillResting(w1, second, rows2);
    Convergence.InvKeys(w);
    SettledHasNoOffer(Next(w1, Inform(second)).world);
    BoundedDelivery.OperatorContentIsDelivered(Next(w1, Inform(second)).world, third);
  }

  lemma SettledHasNoOffer(w: World)
    requires Resting(w)
    ensures w.rec.extra.delivery.offeredCfg.None?
  {
  }
}
