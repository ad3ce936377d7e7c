/**
 Adoption converges and stays put: a pending candidate and a device that applies every
 push reach a connected noop by the fourth inform, and nothing changes after that.
 */
module Convergence {
  import opened Options
  import opened Text
  import opened Wlans
  import opened Plan
  import opened Delivery
  import opened BlockedSta
  import opened Engine
  import opened RecordInvariant
  import BlockedRuns

  // ---- the cooperative device ---------------------------------------------------------------

  datatype Device = Device(key: Key, cfg: Option<Version>, running: seq<VapPlan>)

  /** The vap_table row of one running vap. */
  function ReportRow(v: VapPlan): Row {
    map["state" := JStr("RUN"), "name" := JStr(Devname(v.athN)), "essid" := JStr(SsidOf(v.wlan)), "radio_name" := JStr(v.phyname)]
  }

  function ReportTable(vaps: seq<VapPlan>): seq<Row> {
    if vaps == [] then [] else ReportTable(vaps[..|vaps| - 1]) + [ReportRow(vaps[|vaps| - 1])]
  }

  /** A status inform under the device's own key, echoing its cfgversion and reporting what runs. */
  function DeviceInform(d: Device, radios: seq<Row>, now: int): Request {
    Request(false, d.key, Body("", d.cfg, Some(radios), Some(ReportTable(d.running)), false), now, 4, true)
  }

  /** The device applies every push; a factory reset leaves it with the factory key and nothing running. */
  function Applied(d: Device, out: Outcome): Device {
    match out
    case AdoptionPush(key, cfg) => d.(key := if key.Some? then key.value else d.key, cfg := cfg)
    case FullProvision(cfg, plan, _) => d.(cfg := Some(cfg), running := plan.vaps)
    case Setdefault => Device(FactoryKey, None, [])
    case _ => d
  }

  datatype Pair = Pair(world: World, device: Device)

  function Exchange(p: Pair, radios: seq<Row>, now: int): (Pair, Option<Outcome>) {
    var report := Next(p.world, Inform(DeviceInform(p.device, radios, now)));
    (Pair(report.world, if report.out.Some? then Applied(p.device, report.out.value) else p.device), report.out)
  }

  /** The pair after the first n exchanges, at arbitrary inform times. */
  function Exchanges(p: Pair, radios: seq<Row>, times: seq<int>): Pair {
    if times == [] then p else Exchange(Exchanges(p, radios, times[..|times| - 1]), radios, times[|times| - 1]).0
  }

  // ---- assumptions on the envelope --------------------------------------------------------------

  /** Every enabled WLAN has an SSID and a provisionable radio its band allows. */
  ghost predicate Plannable(wls: seq<Wlan>, radios: seq<Radio>) {
    forall i :: 0 <= i < |wls| && wls[i].enabled ==>
      SsidOf(wls[i]) != "" && exists n :: 0 <= n < |radios| && Provisionable(radios[n]) && PlacedOn(wls[i], radios[n])
  }

  // ---- a device running its plan proves the delivery -----------------------------------------------

  lemma RunRowOf(v: VapPlan)
    ensures IsRunRow(ReportRow(v)) && RunOf(ReportRow(v)) == VapRun(Devname(v.athN), SsidOf(v.wlan), v.phyname)
  {
    var m := ReportRow(v);
    assert "state" in m && "name" in m && "essid" in m && "radio_name" in m;
    assert "state"[0] == 's' && "essid"[0] == 'e';
    assert m["state"] == JStr("RUN") && m["name"] == JStr(Devname(v.athN)) && m["essid"] == JStr(SsidOf(v.wlan));
    assert Lower("RUN") == "run";
    assert "ssid" !in m && "parent" !in m by {
      assert |"ssid"| == 4 && |"parent"| == 6 && "ssid"[0] == 's' && "name"[0] == 'n';
    }
  }

  lemma {:induction false} ReportedRuns(vaps: seq<VapPlan>)
    ensures |ReportTable(vaps)| == |vaps| && |RunningRows(ReportTable(vaps))| == |vaps|
    ensures forall k :: 0 <= k < |vaps| ==>
              RunningRows(ReportTable(vaps))[k] == VapRun(Devname(vaps[k].athN), SsidOf(vaps[k].wlan), vaps[k].phyname)
  {
    if vaps != [] {
      var n := |vaps| - 1;
      ReportedRuns(vaps[..n]);
      RunRowOf(vaps[n]);
      var t := ReportTable(vaps);
      assert t[..|t| - 1] == ReportTable(vaps[..n]);
    }
  }

  /** Slots of the planned vaps that carry one SSID. */
  function PlannedSlots(vaps: seq<VapPlan>, ssid: string): seq<Slot> {
    if vaps == [] then []
    else
      var n := |vaps| - 1;
      if SsidOf(vaps[n].wlan) == ssid then PlannedSlots(vaps[..n], ssid) + [SlotOf(vaps[n])] else PlannedSlots(vaps[..n], ssid)
  }

  lemma {:induction false} RunSlotsArePlanned(runs: seq<VapRun>, vaps: seq<VapPlan>, ssid: string)
    requires |runs| == |vaps| && forall k :: 0 <= k < |vaps| ==> runs[k].ssid == SsidOf(vaps[k].wlan) && runs[k].radio == vaps[k].phyname
    ensures RunSlots(runs, ssid) == PlannedSlots(vaps, ssid)
  {
    if runs != [] {
      RunSlotsArePlanned(runs[..|runs| - 1], vaps[..|vaps| - 1], ssid);
    }
  }

  lemma {:induction false} PlannedWithinPlacements(vaps: seq<VapPlan>, ssid: string)
    ensures multiset(PlannedSlots(vaps, ssid)) <= Placements(vaps)
  {
    if vaps != [] {
      var n := |vaps| - 1;
      PlannedWithinPlacements(vaps[..n], ssid);
      assert SlotsOf(vaps) == SlotsOf(vaps[..n]) + [SlotOf(vaps[n])];
    }
  }

  lemma {:induction false} PlannedConcat(a: seq<VapPlan>, b: seq<VapPlan>, ssid: string)
    ensures |PlannedSlots(a + b, ssid)| == |PlannedSlots(a, ssid)| + |PlannedSlots(b, ssid)|
  {
    if b == [] {
      assert a + b == a;
    } else {
      var n := |b| - 1;
      PlannedConcat(a, b[..n], ssid);
      assert (a + b)[..|a + b| - 1] == a + b[..n];
    }
  }

  predicate OnSomeRadio(w: Wlan, radios: seq<Radio>, n: nat)
    requires n <= |radios|
  {
    exists i :: 0 <= i < n && Provisionable(radios[i]) && PlacedOn(w, radios[i])
  }

  /** Enabled entries with one SSID among the first j that one of the first n radios takes. */
  function Covered(wls: seq<Wlan>, j: nat, radios: seq<Radio>, n: nat, ssid: string): nat
    requires j <= |wls| && n <= |radios|
  {
    if j == 0 then 0
    else Covered(wls, j - 1, radios, n, ssid)
         + (if SsidOf(wls[j - 1]) == ssid && OnSomeRadio(wls[j - 1], radios, n) then 1 else 0)
  }

  lemma {:induction false} CoveredByNextRadio(wls: seq<Wlan>, j: nat, radios: seq<Radio>, n: nat, ssid: string, base: nat)
    requires j <= |wls| && n < |radios|
    ensures Covered(wls, j, radios, n + 1, ssid) <= Covered(wls, j, radios, n, ssid)
              + (if Provisionable(radios[n]) then |PlannedSlots(VapsOnRadio(radios[n], n + 1, wls, j, base), ssid)| else 0)
  {
    if j > 0 {
      CoveredByNextRadio(wls, j - 1, radios, n, ssid, base);
      var w := wls[j - 1];
      if OnSomeRadio(w, radios, n + 1) && !OnSomeRadio(w, radios, n) {
        assert Provisionable(radios[n]) && PlacedOn(w, radios[n]);
      }
    }
  }

  lemma PlannedByNextRadio(wls: seq<Wlan>, radios: seq<Radio>, n: nat, ssid: string)
    requires n < |radios|
    ensures var before := VapsOfFirst(radios, n, wls);
            |PlannedSlots(VapsOfFirst(radios, n + 1, wls), ssid)| == |PlannedSlots(before, ssid)|
              + (if Provisionable(radios[n]) then |PlannedSlots(VapsOnRadio(radios[n], n + 1, wls, |wls|, |before|), ssid)| else 0)
  {
    hide PlannedSlots, VapsOnRadio;
    var before := VapsOfFirst(radios, n, wls);
    PlannedConcat(before, VapsOnRadio(radios[n], n + 1, wls, |wls|, |before|), ssid);
  }

  lemma {:induction false} CoveredIsPlanned(wls: seq<Wlan>, radios: seq<Radio>, n: nat, ssid: string)
    requires n <= |radios|
    ensures Covered(wls, |wls|, radios, n, ssid) <= |PlannedSlots(VapsOfFirst(radios, n, wls), ssid)|
  {
    hide VapsOfFirst, VapsOnRadio, PlannedSlots, Covered, Provisionable;
    if n == 0 {
      NothingCovered(wls, |wls|, radios, ssid);
    } else {
      CoveredIsPlanned(wls, radios, n - 1, ssid);
      CoveredByNextRadio(wls, |wls|, radios, n - 1, ssid, |VapsOfFirst(radios, n - 1, wls)|);
      PlannedByNextRadio(wls, radios, n - 1, ssid);
    }
  }

  lemma {:induction false} NothingCovered(wls: seq<Wlan>, j: nat, radios: seq<Radio>, ssid: string)
    requires j <= |wls|
    ensures Covered(wls, j, radios, 0, ssid) == 0
  {
    if j > 0 { NothingCovered(wls, j - 1, radios, ssid); }
  }

  lemma {:induction false} EnabledAreCovered(wls: seq<Wlan>, j: nat, radios: seq<Radio>, ssid: string)
    requires j <= |wls| && Plannable(wls, radios)
    ensures multiset(EnabledSsids(wls[..j]))[ssid] <= Covered(wls, j, radios, |radios|, ssid)
  {
    if j > 0 {
      EnabledAreCovered(wls, j - 1, radios, ssid);
      EnabledSnoc(wls, j - 1);
      if wls[j - 1].enabled { assert OnSomeRadio(wls[j - 1], radios, |radios|); }
    } else {
      assert wls[..0] == [];
    }
  }

  /** The settle proof succeeds on a device that runs exactly the plan it was offered. */
  lemma RunningPlanIsProven(wls: seq<Wlan>, radios: seq<Radio>, prior: seq<Wlan>)
    requires Plannable(wls, radios)
    ensures var vaps := VapsOfFirst(radios, |radios|, wls);
            DeliveryProven(wls, prior, Placements(vaps), RunningRows(ReportTable(vaps)))
  {
    var vaps := VapsOfFirst(radios, |radios|, wls);
    var runs := RunningRows(ReportTable(vaps));
    var placed := Placements(vaps);
    ReportedRuns(vaps);
    EnabledSsidsMembers(wls);
    forall ssid | ssid in EnabledSsids(wls)
      ensures multiset(EnabledSsids(wls))[ssid] <= Proven(ssid, placed, runs)
    {
      RunSlotsArePlanned(runs, vaps, ssid);
      PlannedWithinPlacements(vaps, ssid);
      CoveredIsPlanned(wls, radios, |radios|, ssid);
      EnabledAreCovered(wls, |wls|, radios, ssid);
      assert wls[..|wls|] == wls;
      var slots := PlannedSlots(vaps, ssid);
      assert multiset(slots) * placed == multiset(slots);
      assert |multiset(slots)| == |slots|;
    }
    forall i | 0 <= i < |runs| ensures runs[i].ssid in EnabledSsids(wls) { OnlyDesiredRun(wls, radios, i); }
  }

  /** Nothing but enabled SSIDs of the envelope runs, so whatever was removed from it does not. */
  lemma OnlyDesiredRun(wls: seq<Wlan>, radios: seq<Radio>, i: nat)
    requires i < |RunningRows(ReportTable(VapsOfFirst(radios, |radios|, wls)))|
    ensures RunningRows(ReportTable(VapsOfFirst(radios, |radios|, wls)))[i].ssid in EnabledSsids(wls)
  {
    hide ReportTable, RunningRows, VapsOfFirst;
    var vaps := VapsOfFirst(radios, |radios|, wls);
    ReportedRuns(vaps);
    EnabledSsidsMembers(wls);
    PlanSound(radios, |radios|, wls);
  }

  lemma EnabledRun(wls: seq<Wlan>, radios: seq<Radio>, s: string)
    requires Plannable(wls, radios) && s in EnabledSsids(wls)
    ensures s in RunSsids(RunningRows(ReportTable(VapsOfFirst(radios, |radios|, wls))))
  {
    hide VapsOfFirst, ReportTable, RunningRows;
    var vaps := VapsOfFirst(radios, |radios|, wls);
    var runs := RunningRows(ReportTable(vaps));
    ReportedRuns(vaps);
    EnabledSsidsMembers(wls);
    var i :| 0 <= i < |wls| && wls[i].enabled && SsidOf(wls[i]) == s;
    var n :| 0 <= n < |radios| && Provisionable(radios[n]) && PlacedOn(wls[i], radios[n]);
    var k := PlanComplete(radios, |radios|, wls, n, i);
    assert runs[k].ssid == s;
  }

  lemma NothingMissing(vaps: seq<VapPlan>)
    ensures MissingVaps(vaps, Some(ReportTable(vaps))) == {}
  {
    hide ReportTable, RunningRows;
    var runs := RunningRows(ReportTable(vaps));
    ReportedRuns(vaps);
    forall i | 0 <= i < |vaps| && vaps[i].wlan.enabled
      ensures Devname(vaps[i].athN) in (set k | 0 <= k < |runs| :: runs[k].name)
    {
      assert runs[i].name == Devname(vaps[i].athN);
    }
  }

  lemma RunningPlanIsRun(wls: seq<Wlan>, radios: seq<Radio>, b: Bookkeeping)
    requires Plannable(wls, radios) && b.applied.Some? && DecodeStoredWlans(b.applied.value) == wls
    ensures var vaps := VapsOfFirst(radios, |radios|, wls);
            NotRunningEvidence(b, Some(ReportTable(vaps))) != Miss && MissingVaps(vaps, Some(ReportTable(vaps))) == {}
  {
    hide VapsOfFirst, ReportTable, RunningRows, MissingVaps, Plannable;
    var vaps := VapsOfFirst(radios, |radios|, wls);
    NothingMissing(vaps);
    forall s | s in EnabledSsids(wls) ensures s in RunSsids(RunningRows(ReportTable(vaps))) {
      EnabledRun(wls, radios, s);
    }
  }

  // ---- the phases of an adoption ------------------------------------------------------------------

  /** The fixed surroundings: envelope, radios, nothing armed. */
  ghost predicate Around(p: Pair, radios: seq<Row>, wls: seq<Wlan>) {
    var r := p.world.rec;
    && InvW(p.world)
    && KeyUsed(p.device.key, p.world.next) && Used(p.device.cfg, p.world.next)
    && DeviceWlans(r.extra) == wls && Plannable(wls, StoredRadios(Some(radios)))
    && !Armed(r.extra)
  }

  /** No disconnect event, no watchdog count and no marker stand. */
  predicate AtRest(x: Extra) {
    !x.disconnectPending && x.vapMisses == 0 && x.marker.None? && x.delivery.notRunningMisses == 0
  }

  ghost predicate Setting(p: Pair, radios: seq<Row>, wls: seq<Wlan>) {
    Around(p, radios, wls) && AtRest(p.world.rec.extra)
  }

  /** A fresh or factory-reset candidate facing a factory-default device. */
  ghost predicate Candidate(p: Pair) {
    p.world.rec.state == Pending && p.world.rec.extra.delivery == NoBookkeeping && p.device.key == FactoryKey
  }

  ghost predicate Keyed(p: Pair) {
    var r := p.world.rec;
    r.state == Adopting && r.xAuthkey == Some(p.device.key) && r.extra.delivery == NoBookkeeping && r.cfgVersion.Some?
  }

  /** Keyed, and the device still echoes another cfgversion. */
  ghost predicate Stale(p: Pair) {
    Keyed(p) && p.device.cfg.Some? && p.device.cfg != p.world.rec.cfgVersion
  }

  ghost predicate Echoing(p: Pair) {
    p.device.cfg.Some? && p.device.cfg == p.world.rec.cfgVersion
  }

  ghost predicate Runs(p: Pair, radios: seq<Row>, wls: seq<Wlan>) {
    p.device.running == VapsOfFirst(StoredRadios(Some(radios)), |StoredRadios(Some(radios))|, wls)
  }

  /** Provisioned: the offer is pending and the device runs it. */
  ghost predicate Provisioned(p: Pair, radios: seq<Row>, wls: seq<Wlan>) {
    var r := p.world.rec;
    && r.xAuthkey == Some(p.device.key) && Echoing(p) && Runs(p, radios, wls)
    && r.extra.delivery.pendingSha == Some(WlanListHash(wls))
    && r.extra.delivery.pendingWlans == Some(EncodeStoredWlans(wls))
    && r.extra.delivery.placements == Some(Placements(p.device.running))
    && !BlockedDrift(r.extra) && !r.extra.disconnectPending
  }

  /** Adopted and settled on the envelope the device runs. */
  ghost predicate AdoptedAndSettled(p: Pair, radios: seq<Row>, wls: seq<Wlan>) {
    var r := p.world.rec;
    && r.state == Adopted && r.keyConfirmed && r.xAuthkey == Some(p.device.key) && Echoing(p) && Runs(p, radios, wls)
    && r.appliedCfg == r.cfgVersion
    && r.extra.delivery.sha == Some(WlanListHash(wls)) && r.extra.delivery.pendingSha.None?
    && r.extra.delivery.applied.Some? && DecodeStoredWlans(r.extra.delivery.applied.value) == wls
    && !BlockedDrift(r.extra)
    && r.extra.radioTable == Some(radios) && r.extra.vapTable == Some(ReportTable(p.device.running))
  }

  lemma SameWlans(x: Extra, y: Extra)
    requires x.deviceWlans == y.deviceWlans
    ensures DeviceWlans(x) == DeviceWlans(y)
  {
  }

  lemma SameBlocked(x: Extra, y: Extra)
    requires x.blocked == y.blocked && x.blockedSha == y.blockedSha
    ensures BlockedDrift(x) == BlockedDrift(y)
  {
  }

  // ---- one lemma per phase ------------------------------------------------------------------------------

  lemma NoPendingNoSettle(r: Record)
    requires r.extra.delivery.pendingSha.None?
    ensures SettleRecord(r) == r
  {
    hide DeliveryProven;
  }

  /** Without a pending delivery, a baseline or blocked drift, the drift phase is the identity. */
  lemma QuietDrift(r: Record, cur: Hash, g: Gen)
    requires r.extra.delivery.pendingSha.None? && !BlockedDrift(r.extra)
    requires r.extra.delivery.sha.Some? ==> r.extra.delivery.sha.value == cur
    ensures DriftPhase(r, cur, g) == Success((r, g, false))
  {
    hide BlockedStaWire, DeliveryProven;
    NoPendingNoSettle(r);
  }

  /** Without bookkeeping only blocked drift can mint. */
  lemma AdoptionDrift(r: Record, cur: Hash, g: Gen)
    requires r.extra.delivery == NoBookkeeping && g.left >= 3
    ensures DriftPhase(r, cur, g).Success?
    ensures var (b, h, _) := DriftPhase(r, cur, g).value;
            b == r.(cfgVersion := b.cfgVersion) && h.left >= 2 && h.next >= g.next
  {
    hide BlockedStaWire, DeliveryProven;
    NoPendingNoSettle(r);
  }

  lemma Adopts(p: Pair, radios: seq<Row>, wls: seq<Wlan>, now: int)
    requires Setting(p, radios, wls) && Candidate(p)
    ensures var q := Exchange(p, radios, now).0; Setting(q, radios, wls) && Keyed(q) && Echoing(q)
  {
    hide BlockedDrift, ReportTable, PlanOf, Plannable, DeviceWlans, InvW, AddKey, NewestTwo, DriftPhase;
    var req := DeviceInform(p.device, radios, now);
    var r, g := Prepared(p.world.rec, req), Gen(p.world.next, 4);
    SameWlans(r.extra, p.world.rec.extra);
    AdoptionDrift(r, PlanOf(r.extra).driftHash, g);
    var plan := PlanOf(r.extra);
    StepKeeps(p.world, Inform(req));
    InvKeys(Next(p.world, Inform(req)).world);
    SameWlans(r.extra, Next(p.world, Inform(req)).world.rec.extra);
  }

  lemma InvKeys(w: World)
    requires InvW(w)
    ensures w.rec.xAuthkey.Some? ==> KeyUsed(w.rec.xAuthkey.value, w.next) && w.rec.xAuthkey.value != FactoryKey && w.rec.xAuthkey.value in w.rec.authkeys
    ensures Used(w.rec.cfgVersion, w.next)
  {
  }

  lemma PlanShape(x: Extra, radios: seq<Row>, wls: seq<Wlan>)
    requires DeviceWlans(x) == wls && x.radioTable == Some(radios)
    ensures PlanOf(x).driftHash == WlanListHash(wls)
    ensures PlanOf(x).vaps == VapsOfFirst(StoredRadios(Some(radios)), |StoredRadios(Some(radios))|, wls)
  {
  }

  /** Full provisioning, and the device applying it. */
  lemma FlowPhase(p: Pair, r: Record, radios: seq<Row>, wls: seq<Wlan>, req: Request, g: Gen)
    requires r.cfgVersion.Some? && req.renders
    requires DeviceWlans(r.extra) == wls && r.extra.radioTable == Some(radios)
    ensures var plan := PlanOf(r.extra);
            var v := AssignedKeyFlow(r, req, plan, g);
            && v.Success? && v.value.gen == g
            && v.value.out == FullProvision(r.cfgVersion.value, plan, BlockedStaWire(r.extra.blocked))
            && v.value.rec == r.(state := Adopting, extra := v.value.rec.extra)
            && plan.vaps == VapsOfFirst(StoredRadios(Some(radios)), |StoredRadios(Some(radios))|, wls)
            && !BlockedDrift(v.value.rec.extra)
            && v.value.rec.extra == r.extra.(delivery := v.value.rec.extra.delivery, blockedSha := v.value.rec.extra.blockedSha, disconnectPending := false)
            && (var b := v.value.rec.extra.delivery;
                && b.pendingSha == Some(WlanListHash(wls)) && b.pendingWlans == Some(EncodeStoredWlans(wls))
                && b.placements == Some(Placements(plan.vaps)) && b.notRunningMisses == r.extra.delivery.notRunningMisses)
            && Attempted(r, v.value.rec, WlanListHash(wls), req.now)
  {
    hide BlockedStaWire;
  }

  /** Nothing armed, and the device on its assigned key; watchdog counts, markers and events may stand. */
  ghost predicate Calm(p: Pair) {
    var r := p.world.rec;
    && InvW(p.world)
    && KeyUsed(p.device.key, p.world.next) && Used(p.device.cfg, p.world.next)
    && !Armed(r.extra)
    && r.xAuthkey == Some(p.device.key) && p.device.cfg.Some? && r.cfgVersion.Some?
  }

  ghost predicate Ready(p: Pair, radios: seq<Row>, wls: seq<Wlan>) {
    Calm(p) && DeviceWlans(p.world.rec.extra) == wls && Plannable(wls, StoredRadios(Some(radios)))
  }

  /** What the device runs does not prove the pending delivery, if there is one. */
  predicate Unproven(p: Pair) {
    !SettleReady(p.world.rec.extra.delivery, Some(ReportTable(p.device.running)))
  }

  /** Something calls for a push at now: drift or a stale version at rest, a release of the hold in flight. */
  predicate Open(r: Record, echoed: Option<Version>, cur: Hash, now: int) {
    var b := r.extra.delivery;
    if b.pendingSha.None? then (b.sha.Some? && b.sha.value != cur) || BlockedDrift(r.extra) || echoed != r.cfgVersion
    else b.pendingSha.value != cur || BlockedDrift(r.extra) || OperatorMint(r) || RetryDue(b, now)
  }

  /** What one push leaves of the attempt bookkeeping. */
  predicate Attempted(r: Record, q: Record, cur: Hash, now: int) {
    var b, c := r.extra.delivery, q.extra.delivery;
    && c.attemptSha == Some(cur) && c.attempts == (if b.attemptSha == Some(cur) then b.attempts + 1 else 1)
    && c.lastAttempt == now && c.offeredCfg == q.cfgVersion
  }

  lemma UnprovenIsNoSettle(r: Record)
    requires !SettleReady(r.extra.delivery, r.extra.vapTable)
    ensures SettleRecord(r) == r
  {
    hide SettleReady;
  }

  lemma OpenDrift(r: Record, cur: Hash, g: Gen, now: int)
    requires !SettleReady(r.extra.delivery, r.extra.vapTable) && g.left >= 3 && Open(r, r.appliedCfg, cur, now)
    ensures DriftPhase(r, cur, g).Success?
    ensures var (b, h, drift) := DriftPhase(r, cur, g).value;
            && b == r.(cfgVersion := b.cfgVersion) && (r.cfgVersion.Some? ==> b.cfgVersion.Some?) && h.next >= g.next
            && !HeldAtGate(b, cur, now) && (drift || b.appliedCfg != b.cfgVersion)
  {
    hide SettleReady, BlockedStaWire, RetryDue;
    UnprovenIsNoSettle(r);
  }

  lemma OpenDecides(r: Record, req: Request, plan: ProvisioningPlan, g: Gen, b: Record, h: Gen, drift: bool)
    requires !req.plaintext && OnAssigned(r, req.usedKey) && req.usedKey != FactoryKey && req.body.kind == "" && !Armed(r.extra)
    requires DriftPhase(r, plan.driftHash, g) == Success((b, h, drift)) && b == r.(cfgVersion := b.cfgVersion)
    requires !HeldAtGate(b, plan.driftHash, req.now) && (drift || b.appliedCfg != b.cfgVersion)
    ensures DecideEncrypted(r, req, plan, g) == AssignedKeyFlow(b, req, plan, h)
  {
    hide DriftPhase, HeldAtGate, AssignedKeyFlow, Connected;
  }

  /** An open record answers the next inform with the full configuration, which the device then runs. */
  lemma Pushes(p: Pair, radios: seq<Row>, wls: seq<Wlan>, now: int)
    requires Ready(p, radios, wls) && Unproven(p) && Open(p.world.rec, p.device.cfg, WlanListHash(wls), now)
    ensures var q := Exchange(p, radios, now).0;
            && Around(q, radios, wls) && Provisioned(q, radios, wls) && (Setting(p, radios, wls) ==> Setting(q, radios, wls))
            && Attempted(p.world.rec, q.world.rec, WlanListHash(wls), now) && q.device.key == p.device.key
  {
    hide BlockedDrift, BlockedStaWire, ReportTable, PlanOf, Plannable, DeviceWlans, InvW, DriftPhase, AssignedKeyFlow, DecideEncrypted, SettleReady, RetryDue, HeldAtGate;
    var req := DeviceInform(p.device, radios, now);
    var r, g := Prepared(p.world.rec, req), Gen(p.world.next, 4);
    var plan := PlanOf(r.extra);
    StepKeeps(p.world, Inform(req));
    InvKeys(p.world);
    InvKeys(Next(p.world, Inform(req)).world);
    SameWlans(r.extra, p.world.rec.extra);
    SameBlocked(r.extra, p.world.rec.extra);
    PlanShape(r.extra, radios, wls);
    OpenDrift(r, plan.driftHash, g, now);
    var (b, h, drift) := DriftPhase(r, plan.driftHash, g).value;
    OpenDecides(r, req, plan, g, b, h, drift);
    FlowPhase(p, b, radios, wls, req, h);
    SameWlans(r.extra, Next(p.world, Inform(req)).world.rec.extra);
  }

  /** A keyed device with blocked drift or a stale cfgversion is provisioned in full. */
  lemma Provisions(p: Pair, radios: seq<Row>, wls: seq<Wlan>, now: int)
    requires Setting(p, radios, wls) && Keyed(p) && p.device.cfg.Some?
    requires BlockedDrift(p.world.rec.extra) || p.device.cfg != p.world.rec.cfgVersion
    ensures var q := Exchange(p, radios, now).0; Setting(q, radios, wls) && Provisioned(q, radios, wls)
  {
    hide BlockedDrift, DeliveryProven, Plannable, DeviceWlans, InvW, Exchange;
    Pushes(p, radios, wls, now);
  }

  /** Without blocked drift the echoed adoption version only triggers the self-heal mint. */
  lemma SelfHeals(p: Pair, radios: seq<Row>, wls: seq<Wlan>, now: int)
    requires Setting(p, radios, wls) && Keyed(p) && Echoing(p) && !BlockedDrift(p.world.rec.extra)
    ensures var q := Exchange(p, radios, now).0; Setting(q, radios, wls) && Stale(q)
  {
    hide BlockedDrift, ReportTable, PlanOf, Plannable, DeviceWlans, InvW, DriftPhase, Watchdogs;
    var req := DeviceInform(p.device, radios, now);
    var r, g := Prepared(p.world.rec, req), Gen(p.world.next, 4);
    var plan := PlanOf(r.extra);
    StepKeeps(p.world, Inform(req));
    InvKeys(p.world);
    SameWlans(r.extra, p.world.rec.extra);
    SameBlocked(r.extra, p.world.rec.extra);
    QuietDrift(r, plan.driftHash, g);
    SameWlans(r.extra, Next(p.world, Inform(req)).world.rec.extra);
  }

  /** Connected with a running plan: a noop that clears watchdog counts at most. */
  lemma ConnectedQuietly(r: Record, radios: seq<Row>, wls: seq<Wlan>, plan: ProvisioningPlan, g: Gen)
    requires Plannable(wls, StoredRadios(Some(radios)))
    requires plan.vaps == VapsOfFirst(StoredRadios(Some(radios)), |StoredRadios(Some(radios))|, wls)
    requires r.extra.vapTable == Some(ReportTable(plan.vaps))
    requires r.extra.delivery.sha.Some? && r.extra.delivery.pendingSha.None?
    requires r.extra.delivery.applied.Some? && DecodeStoredWlans(r.extra.delivery.applied.value) == wls
    requires !r.extra.disconnectPending
    ensures Connected(r, plan, g).Success?
    ensures var d := Connected(r, plan, g).value; var x := d.rec.extra;
            && d.out == Noop && d.gen == g
            && d.rec == r.(state := Adopted, extra := r.extra.(vapMisses := x.vapMisses, marker := x.marker,
                                                             delivery := r.extra.delivery.(notRunningMisses := x.delivery.notRunningMisses)))
            && (AtRest(r.extra) ==> d.rec == r.(state := Adopted))
  {
    RunningPlanIsRun(wls, StoredRadios(Some(radios)), r.extra.delivery);
    hide NotRunningEvidence, MissingVaps, ReportTable, BlockedStaWire, StoredRadios, VapsOfFirst;
  }

  /** The device proves the offer: the delivery settles and the record is adopted. */
  lemma Settles(p: Pair, radios: seq<Row>, wls: seq<Wlan>, now: int)
    requires Around(p, radios, wls) && Provisioned(p, radios, wls)
    ensures var (q, out) := Exchange(p, radios, now);
            && Around(q, radios, wls) && AdoptedAndSettled(q, radios, wls) && out == Some(Noop)
            && (Setting(p, radios, wls) ==> Setting(q, radios, wls))
  {
    var req := DeviceInform(p.device, radios, now);
    var r, g := Prepared(p.world.rec, req), Gen(p.world.next, 4);
    var plan := PlanOf(r.extra);
    StepKeeps(p.world, Inform(req));
    InvKeys(p.world);
    StoredRoundTrip(wls);
    RunningPlanIsProven(wls, StoredRadios(Some(radios)), DecodedOr(r.extra.delivery.pendingOld));
    assert SettleReady(r.extra.delivery, r.extra.vapTable);
    var s := SettleRecord(r);
    assert !BlockedDrift(s.extra);
    PlanShape(r.extra, radios, wls);
    QuietAfterSettle(r, plan.driftHash, g);
    ConnectedQuietly(s, radios, wls, plan, g);
    hide BlockedDrift, ReportTable, PlanOf, Plannable, DeviceWlans, InvW, DriftPhase, Connected, SettleReady, StoredRadios, VapsOfFirst;
    assert DecideStatus(r, req, plan, g) == Connected(s, plan, g);
  }

  lemma QuietAfterSettle(r: Record, cur: Hash, g: Gen)
    requires SettleReady(r.extra.delivery, r.extra.vapTable) && r.extra.delivery.pendingSha == Some(cur) && !BlockedDrift(r.extra)
    ensures DriftPhase(r, cur, g) == Success((SettleRecord(r), g, false))
  {
    hide SettleReady, BlockedStaWire;
  }

  /** From then on every inform is a noop that mints nothing and leaves the decision state alone. */
  lemma Stays(p: Pair, radios: seq<Row>, wls: seq<Wlan>, now: int)
    requires Setting(p, radios, wls) && AdoptedAndSettled(p, radios, wls)
    ensures var (q, out) := Exchange(p, radios, now);
            && Setting(q, radios, wls) && AdoptedAndSettled(q, radios, wls) && out == Some(Noop)
            && q.device == p.device && q.world == World(p.world.rec.(lastSeen := now), p.world.next)
  {
    hide BlockedDrift, ReportTable, PlanOf, Plannable, DeviceWlans, InvW, DriftPhase, Connected, StoredRadios, VapsOfFirst;
    var req := DeviceInform(p.device, radios, now);
    var r, g := Prepared(p.world.rec, req), Gen(p.world.next, 4);
    var plan := PlanOf(r.extra);
    StepKeeps(p.world, Inform(req));
    InvKeys(p.world);
    SameWlans(r.extra, p.world.rec.extra);
    SameBlocked(r.extra, p.world.rec.extra);
    PlanShape(r.extra, radios, wls);
    QuietDrift(r, plan.driftHash, g);
    ConnectedQuietly(r, radios, wls, plan, g);
    assert DecideStatus(r, req, plan, g) == Connected(r, plan, g);
    assert r == p.world.rec.(lastSeen := now);
  }

  // ---- the theorems ------------------------------------------------------------------------------------

  /** Four informs take any candidate to Adopted with a settled baseline; the fourth answer is a noop. */
  lemma AdoptedByFourthInform(p: Pair, radios: seq<Row>, wls: seq<Wlan>, t: seq<int>)
    requires Setting(p, radios, wls) && Candidate(p) && |t| == 4
    ensures var q := Exchanges(p, radios, t[..3]);
            AdoptedAndSettled(Exchanges(p, radios, t), radios, wls) && Exchange(q, radios, t[3]).1 == Some(Noop)
            && Setting(Exchanges(p, radios, t), radios, wls)
  {
    hide Exchange, Setting, Candidate, Keyed, Echoing, Provisioned, AdoptedAndSettled, Stale, BlockedDrift;
    assert t[..1][..0] == [] && t[..2][..1] == t[..1] && t[..3][..2] == t[..2];
    var p1 := Exchange(p, radios, t[0]).0;
    var p2 := Exchange(p1, radios, t[1]).0;
    var p3 := Exchange(p2, radios, t[2]).0;
    assert Exchanges(p, radios, t[..1]) == p1;
    assert Exchanges(p, radios, t[..2]) == p2;
    assert Exchanges(p, radios, t[..3]) == p3;
    Adopts(p, radios, wls, t[0]);
    SecondAndThird(p1, radios, wls, t[1], t[2], t[3]);
  }

  lemma SecondAndThird(p1: Pair, radios: seq<Row>, wls: seq<Wlan>, t1: int, t2: int, t3: int)
    requires Setting(p1, radios, wls) && Keyed(p1) && Echoing(p1)
    ensures var p2 := Exchange(p1, radios, t1).0;
            var p3 := Exchange(p2, radios, t2).0;
            var (p4, out) := Exchange(p3, radios, t3);
            AdoptedAndSettled(p4, radios, wls) && out == Some(Noop) && Setting(p4, radios, wls)
  {
    hide Exchange, Around, AtRest, Provisioned, AdoptedAndSettled, BlockedDrift;
    var p2 := Exchange(p1, radios, t1).0;
    var p3 := Exchange(p2, radios, t2).0;
    if BlockedDrift(p1.world.rec.extra) {
      Provisions(p1, radios, wls, t1);
      Settles(p2, radios, wls, t2);
      Stays(p3, radios, wls, t3);
    } else {
      SelfHeals(p1, radios, wls, t1);
      Provisions(p2, radios, wls, t2);
      Settles(p3, radios, wls, t3);
    }
  }

  /** Every later inform is answered by a noop and changes nothing but the time it was seen. */
  lemma {:induction false} StaysAdopted(p: Pair, radios: seq<Row>, wls: seq<Wlan>, t: seq<int>)
    requires Setting(p, radios, wls) && Candidate(p) && |t| >= 4
    ensures var settled := Exchanges(p, radios, t[..4]);
            var now := Exchanges(p, radios, t);
            && Setting(now, radios, wls) && AdoptedAndSettled(now, radios, wls)
            && now.device == settled.device && now.world.next == settled.world.next
            && now.world.rec == settled.world.rec.(lastSeen := now.world.rec.lastSeen)
            && Exchange(Exchanges(p, radios, t[..|t| - 1]), radios, t[|t| - 1]).1 == Some(Noop)
  {
    hide Exchange, Setting, Candidate, AdoptedAndSettled;
    if |t| == 4 {
      AdoptedByFourthInform(p, radios, wls, t);
      assert t[..4] == t && t[..|t| - 1] == t[..3];
    } else {
      var n := |t| - 1;
      StaysAdopted(p, radios, wls, t[..n]);
      assert t[..n][..4] == t[..4];
      Stays(Exchanges(p, radios, t[..n]), radios, wls, t[n]);
    }
  }
}
