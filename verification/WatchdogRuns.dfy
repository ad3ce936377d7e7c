/**
 The two not-running watchdogs over whole runs: what the log of any run from a fresh
 record can look like.
 */
module WatchdogRuns {
  import opened Options
  import opened Wlans
  import opened Plan
  import opened Delivery
  import opened BlockedSta
  import opened Engine
  import opened RecordInvariant

  datatype Event = Logged(mark: Mark) | RebootSent | ResetSent

  function Events(out: Option<Outcome>, marks: seq<Mark>): seq<Event> {
    if out == Some(Reboot) then [RebootSent]
    else if out == Some(Setdefault) then [ResetSent]
    else seq(|marks|, i requires 0 <= i < |marks| => Logged(marks[i]))
  }

  function Log(w: World, steps: seq<Step>): seq<Event> {
    if steps == [] then []
    else
      var n := |steps| - 1;
      var report := Next(After(w, steps[..n]), steps[n]);
      Log(w, steps[..n]) + Events(report.out, report.marks)
  }

  // ---- the SSID watchdog ------------------------------------------------------------------

  /** Events that restart the SSID window. */
  predicate RestartsWindow(e: Event) {
    e == Logged(SsidRun) || e == Logged(SsidMint) || e == RebootSent || e == ResetSent
  }

  function MissesSince(log: seq<Event>): nat {
    if log == [] then 0
    else
      var e := log[|log| - 1];
      if RestartsWindow(e) then 0 else MissesSince(log[..|log| - 1]) + (if e == Logged(SsidMiss) then 1 else 0)
  }

  lemma MissesSnoc(log: seq<Event>, e: Event)
    ensures MissesSince(log + [e]) ==
            if RestartsWindow(e) then 0 else MissesSince(log) + (if e == Logged(SsidMiss) then 1 else 0)
  {
    assert (log + [e])[..|log|] == log;
  }

  lemma {:induction false} MissWitness(log: seq<Event>) returns (j: nat)
    requires MissesSince(log) >= 1
    ensures j < |log| && log[j] == Logged(SsidMiss) && forall k :: j <= k < |log| ==> !RestartsWindow(log[k])
  {
    var n := |log| - 1;
    if log[n] == Logged(SsidMiss) {
      j := n;
    } else {
      j := MissWitness(log[..n]);
      assert log[..n][j] == log[j];
      forall k | j <= k < |log| ensures !RestartsWindow(log[k]) {
        if k < n { assert log[..n][k] == log[k]; }
      }
    }
  }

  /** The marks a decision may log about the SSID window, and the counter it leaves. */
  ghost predicate SsidEffect(before: nat, out: Outcome, marks: seq<Mark>, after: nat) {
    if out == Reboot || out == Setdefault then after == 0
    else if marks == [] then after == before
    else if marks == [SsidMiss] then after == before + 1
    else if marks == [SsidMiss, SsidMint] then before == 1 && after == 0
    else
      after == 0 && marks[0] == SsidRun && |marks| <= 3
      && forall i :: 1 <= i < |marks| ==> marks[i] != SsidMiss && marks[i] != SsidMint && marks[i] != SsidRun
  }

  lemma DecideKeySsid(r: Record, req: Request, plan: ProvisioningPlan, g: Gen, drift: bool)
    requires r.extra.delivery.notRunningMisses < 2
    ensures var v := DecideKey(r, req, plan, g, drift);
            v.Success? ==> SsidEffect(r.extra.delivery.notRunningMisses, v.value.out, v.value.marks, v.value.rec.extra.delivery.notRunningMisses)
  {
    hide PlanOf, BlockedStaWire, BlockedDrift, SettleReady, NotRunningEvidence, MissingVaps, RetryDue, EncodeStoredWlans, Connected;
    if OnAssigned(r, req.usedKey) {
      ConnectedSsid(r, plan, g);
    }
  }

  lemma ConnectedSsid(r: Record, plan: ProvisioningPlan, g: Gen)
    requires r.extra.delivery.notRunningMisses < 2
    ensures var v := Connected(r, plan, g);
            v.Success? ==> SsidEffect(r.extra.delivery.notRunningMisses, v.value.out, v.value.marks, v.value.rec.extra.delivery.notRunningMisses)
  {
    hide PlanOf, BlockedStaWire, BlockedDrift, SettleReady, NotRunningEvidence, MissingVaps, RetryDue, EncodeStoredWlans;
    var quiet := r.(extra := r.extra.(disconnectPending := false));
    if NotRunningEvidence(quiet.extra.delivery, quiet.extra.vapTable) == Run {
      var v := DevnameWatchdog(SetMisses(quiet, 0), plan, g);
      assert SsidEffect(r.extra.delivery.notRunningMisses, v.value.out, v.value.marks, v.value.rec.extra.delivery.notRunningMisses);
    }
  }

  lemma StatusSsid(r: Record, req: Request, plan: ProvisioningPlan, g: Gen)
    requires r.extra.delivery.notRunningMisses < 2
    ensures var v := DecideStatus(r, req, plan, g);
            v.Success? ==> SsidEffect(r.extra.delivery.notRunningMisses, v.value.out, v.value.marks, v.value.rec.extra.delivery.notRunningMisses)
  {
    hide DriftPhase, DecideKey, HeldAtGate, SettleReady;
    if DriftPhase(r, plan.driftHash, g).Success? {
      DriftFrame(r, plan.driftHash, g);
      var (b, h, drift) := DriftPhase(r, plan.driftHash, g).value;
      DecideKeySsid(b, req, plan, h, drift);
    }
  }

  lemma DecideSsid(r: Record, req: Request, g: Gen)
    requires r.extra.delivery.notRunningMisses < 2
    ensures var v := Decide(r, req, g);
            v.Success? ==> SsidEffect(r.extra.delivery.notRunningMisses, v.value.out, v.value.marks, v.value.rec.extra.delivery.notRunningMisses)
  {
    hide PlanOf, DecideStatus, BlockedStaWire, EncodeStoredWlans;
    StatusSsid(r, req, PlanOf(r.extra), g);
  }

  lemma MissesAfter(log: seq<Event>, out: Outcome, marks: seq<Mark>, after: nat)
    requires SsidEffect(MissesSince(log), out, marks, after)
    ensures MissesSince(log + Events(Some(out), marks)) == after
  {
    var events := Events(Some(out), marks);
    if |events| == 0 {
      assert log + events == log;
    } else if |events| == 1 {
      assert events == [events[0]];
      MissesSnoc(log, events[0]);
    } else if |events| == 2 {
      assert log + events == (log + [events[0]]) + [events[1]];
      MissesSnoc(log, events[0]);
      MissesSnoc(log + [events[0]], events[1]);
    } else {
      assert log + events == ((log + [events[0]]) + [events[1]]) + [events[2]];
      MissesSnoc(log, events[0]);
      MissesSnoc(log + [events[0]], events[1]);
      MissesSnoc(log + [events[0]] + [events[1]], events[2]);
    }
  }

  /** The persisted counter is the number of misses logged since the window last restarted. */
  lemma {:induction false} CounterIsMissCount(steps: seq<Step>)
    ensures After(Start, steps).rec.extra.delivery.notRunningMisses == MissesSince(Log(Start, steps))
  {
    if steps != [] {
      var n := |steps| - 1;
      var w := After(Start, steps[..n]);
      CounterIsMissCount(steps[..n]);
      RunKeeps(steps[..n]);
      CounterStep(w, steps[n], Log(Start, steps[..n]));
    }
  }

  lemma CounterStep(w: World, step: Step, log: seq<Event>)
    requires InvW(w) && w.rec.extra.delivery.notRunningMisses == MissesSince(log)
    ensures var report := Next(w, step);
            report.world.rec.extra.delivery.notRunningMisses == MissesSince(log + Events(report.out, report.marks))
  {
    hide Decide, SsidEffect, MissesSince;
    assert log + [] == log;
    if step.Inform? {
      var r, g := Prepared(w.rec, step.req), Gen(w.next, step.req.entropy);
      DecideSsid(r, step.req, g);
      var v := Decide(r, step.req, g);
      if v.Success? {
        MissesAfter(log, v.value.out, v.value.marks, v.value.rec.extra.delivery.notRunningMisses);
      } else {
        assert Events(None, []) == [];
      }
    } else {
      assert Events(None, []) == [];
      OtherStepsKeepCounters(w, step);
    }
  }

  lemma OtherStepsKeepCounters(w: World, step: Step)
    requires !step.Inform?
    ensures Next(w, step).world.rec.extra.delivery == w.rec.extra.delivery && Next(w, step).marks == [] && Next(w, step).out.None?
  {
    hide SaveIntent;
    if step.Admin? { SaveFrame(w.rec, step.save, w.next); }
  }

  /**
   A watchdog re-provisioning is logged only right after a miss that followed an earlier
   miss with no RUN reading, mint, reboot or factory reset in between.
   */
  lemma {:induction false} MintNeedsTwoMisses(steps: seq<Step>, i: nat) returns (j: nat)
    requires i < |Log(Start, steps)| && Log(Start, steps)[i] == Logged(SsidMint)
    ensures var log := Log(Start, steps);
            && j + 1 < i && log[j] == Logged(SsidMiss) && log[i - 1] == Logged(SsidMiss)
            && forall k :: j <= k < i ==> !RestartsWindow(log[k])
  {
    hide Next, InvW, MissesSince, Events;
    var n := |steps| - 1;
    var before := Log(Start, steps[..n]);
    var w := After(Start, steps[..n]);
    var events := Events(Next(w, steps[n]).out, Next(w, steps[n]).marks);
    assert Log(Start, steps) == before + events;
    if i < |before| {
      j := MintNeedsTwoMisses(steps[..n], i);
      PrefixAgrees(before, events);
    } else {
      RunKeeps(steps[..n]);
      CounterIsMissCount(steps[..n]);
      MintEvents(w, steps[n], i - |before|);
      j := MissWitness(before);
      PrefixAgrees(before, events);
    }
  }

  lemma PrefixAgrees(a: seq<Event>, b: seq<Event>)
    ensures forall k :: 0 <= k < |a| ==> (a + b)[k] == a[k]
    ensures forall k :: 0 <= k < |b| ==> (a + b)[|a| + k] == b[k]
  {
  }

  lemma MintEvents(w: World, step: Step, e: nat)
    requires InvW(w)
    requires var report := Next(w, step); e < |Events(report.out, report.marks)| && Events(report.out, report.marks)[e] == Logged(SsidMint)
    ensures Next(w, step).marks == [SsidMiss, SsidMint] && e == 1
    ensures Events(Next(w, step).out, Next(w, step).marks) == [Logged(SsidMiss), Logged(SsidMint)]
    ensures w.rec.extra.delivery.notRunningMisses == 1
  {
    hide PlanOf, BlockedStaWire, BlockedDrift, SettleReady, NotRunningEvidence, MissingVaps, RetryDue, EncodeStoredWlans, Decide;
    var r, g := Prepared(w.rec, step.req), Gen(w.next, step.req.entropy);
    DecideSsid(r, step.req, g);
  }

  // ---- the devname watchdog ------------------------------------------------------------------

  predicate EndsArming(e: Event) {
    e == Logged(DevnameRun) || e == ResetSent
  }

  /** Whether arming for v must not happen again while the record still carries v. */
  predicate Blocks(r: Record, v: Version) {
    r.cfgVersion == Some(v) ==> r.extra.marker == Some(v)
  }

  predicate NoEnd(out: Outcome, marks: seq<Mark>) {
    out == Reboot || (out != Setdefault && DevnameRun !in marks)
  }

  lemma ConnectedBlocks(r: Record, plan: ProvisioningPlan, g: Gen, v: Version)
    requires Blocks(r, v) && Used(Some(v), g.next)
    ensures var d := Connected(r, plan, g);
            d.Success? && NoEnd(d.value.out, d.value.marks) ==> Blocks(d.value.rec, v) && DevnameArm(Some(v)) !in d.value.marks
  {
    hide PlanOf, BlockedStaWire, BlockedDrift, SettleReady, NotRunningEvidence, MissingVaps, RetryDue, EncodeStoredWlans;
    var quiet := r.(extra := r.extra.(disconnectPending := false));
    if NotRunningEvidence(quiet.extra.delivery, quiet.extra.vapTable) == Run {
      var d := DevnameWatchdog(SetMisses(quiet, 0), plan, g);
      assert NoEnd(d.value.out, d.value.marks) ==> Blocks(d.value.rec, v) && DevnameArm(Some(v)) !in d.value.marks;
    }
  }

  lemma DecideKeyBlocks(r: Record, req: Request, plan: ProvisioningPlan, g: Gen, drift: bool, v: Version)
    requires Blocks(r, v) && Used(Some(v), g.next)
    ensures var d := DecideKey(r, req, plan, g, drift);
            d.Success? && NoEnd(d.value.out, d.value.marks) ==> Blocks(d.value.rec, v) && DevnameArm(Some(v)) !in d.value.marks
  {
    hide PlanOf, BlockedStaWire, BlockedDrift, SettleReady, NotRunningEvidence, MissingVaps, RetryDue, EncodeStoredWlans, Connected;
    ConnectedBlocks(r, plan, g, v);
  }

  lemma StatusBlocks(r: Record, req: Request, plan: ProvisioningPlan, g: Gen, v: Version)
    requires Blocks(r, v) && Used(Some(v), g.next)
    ensures var d := DecideStatus(r, req, plan, g);
            d.Success? && NoEnd(d.value.out, d.value.marks) ==> Blocks(d.value.rec, v) && DevnameArm(Some(v)) !in d.value.marks
  {
    hide DriftPhase, DecideKey, HeldAtGate, SettleReady;
    if DriftPhase(r, plan.driftHash, g).Success? {
      DriftFrame(r, plan.driftHash, g);
      var (b, h, drift) := DriftPhase(r, plan.driftHash, g).value;
      DecideKeyBlocks(b, req, plan, h, drift, v);
    }
  }

  lemma DecideBlocks(r: Record, req: Request, g: Gen, v: Version)
    requires Blocks(r, v) && Used(Some(v), g.next)
    ensures var d := Decide(r, req, g);
            d.Success? && NoEnd(d.value.out, d.value.marks) ==> Blocks(d.value.rec, v) && DevnameArm(Some(v)) !in d.value.marks
  {
    hide PlanOf, DecideStatus, BlockedStaWire, EncodeStoredWlans;
    StatusBlocks(r, req, PlanOf(r.extra), g, v);
  }

  lemma OtherStepsBlock(w: World, step: Step, v: Version)
    requires !step.Inform? && Blocks(w.rec, v) && Used(Some(v), w.next)
    ensures Blocks(Next(w, step).world.rec, v)
  {
    hide SaveIntent;
    if step.Admin? { SaveFrame(w.rec, step.save, w.next); }
  }

  lemma StepBlocks(w: World, step: Step, v: Version)
    requires Blocks(w.rec, v) && Used(Some(v), w.next)
    ensures var report := Next(w, step);
            var events := Events(report.out, report.marks);
            (forall k :: 0 <= k < |events| ==> !EndsArming(events[k])) ==>
              Blocks(report.world.rec, v) && Logged(DevnameArm(Some(v))) !in events
  {
    hide PlanOf, BlockedStaWire, BlockedDrift, SettleReady, NotRunningEvidence, MissingVaps, RetryDue, EncodeStoredWlans, Decide;
    var report := Next(w, step);
    var events := Events(report.out, report.marks);
    if !step.Inform? {
      OtherStepsBlock(w, step, v);
    } else if forall k :: 0 <= k < |events| ==> !EndsArming(events[k]) {
      var r, g := Prepared(w.rec, step.req), Gen(w.next, step.req.entropy);
      DecideBlocks(r, step.req, g, v);
      var d := Decide(r, step.req, g);
      if d.Success? {
        QuietEvents(d.value.out, d.value.marks, v);
      }
    }
  }

  lemma QuietEvents(out: Outcome, marks: seq<Mark>, v: Version)
    requires var events := Events(Some(out), marks); forall k :: 0 <= k < |events| ==> !EndsArming(events[k])
    requires NoEnd(out, marks) ==> DevnameArm(Some(v)) !in marks
    ensures NoEnd(out, marks) && Logged(DevnameArm(Some(v))) !in Events(Some(out), marks)
  {
    var events := Events(Some(out), marks);
    if out == Setdefault { assert EndsArming(events[0]); }
    if out != Reboot {
      forall m | m in marks ensures m != DevnameRun {
        var k :| 0 <= k < |marks| && marks[k] == m;
        assert events[k] == Logged(m);
      }
    }
  }

  /** What an arming decision looks like: the record carries v and the marker now stands for it. */
  ghost predicate ArmShape(d: Decision, v: Option<Version>) {
    && d.marks == [SsidRun, DevnameMiss, DevnameArm(v)] && d.out == Noop
    && d.rec.cfgVersion == v && d.rec.extra.marker == v
  }

  lemma ConnectedArm(r: Record, plan: ProvisioningPlan, g: Gen, v: Option<Version>)
    requires Connected(r, plan, g).Success? && DevnameArm(v) in Connected(r, plan, g).value.marks
    ensures ArmShape(Connected(r, plan, g).value, v) && v == r.cfgVersion
  {
    hide BlockedStaWire, NotRunningEvidence, MissingVaps;
  }

  lemma StatusArm(r: Record, req: Request, plan: ProvisioningPlan, g: Gen, v: Option<Version>)
    requires DecideStatus(r, req, plan, g).Success? && DevnameArm(v) in DecideStatus(r, req, plan, g).value.marks
    ensures ArmShape(DecideStatus(r, req, plan, g).value, v) && v.Some?
  {
    hide DriftPhase, Connected, HeldAtGate;
    var (b, h, drift) := DriftPhase(r, plan.driftHash, g).value;
    ConnectedArm(b, plan, h, v);
  }

  lemma DecideArm(r: Record, req: Request, g: Gen, v: Option<Version>)
    requires Decide(r, req, g).Success? && DevnameArm(v) in Decide(r, req, g).value.marks
    ensures ArmShape(Decide(r, req, g).value, v) && v.Some?
  {
    hide PlanOf, DecideStatus, AssignedKeyFlow;
    var plan := PlanOf(r.extra);
    FlowLogsNothing(r, req, plan, g);
    if !req.plaintext { StatusArm(r, req, plan, g, v); }
  }

  lemma ArmEffect(w: World, step: Step, v: Option<Version>)
    requires InvW(w) && Logged(DevnameArm(v)) in Events(Next(w, step).out, Next(w, step).marks)
    ensures var report := Next(w, step);
            && v.Some? && Used(v, report.world.next) && Blocks(report.world.rec, v.value)
            && Events(report.out, report.marks) == [Logged(SsidRun), Logged(DevnameMiss), Logged(DevnameArm(v))]
  {
    StepKeeps(w, step);
    InvVersions(Next(w, step).world);
    hide Decide, InvW, Prepared;
    assert DevnameArm(v) in Next(w, step).marks;
    DecideArm(Prepared(w.rec, step.req), step.req, Gen(w.next, step.req.entropy), v);
  }

  lemma InvVersions(w: World)
    requires InvW(w)
    ensures Used(w.rec.cfgVersion, w.next)
  {
  }

  lemma FlowLogsNothing(r: Record, req: Request, plan: ProvisioningPlan, g: Gen)
    ensures AssignedKeyFlow(r, req, plan, g).Success? ==> AssignedKeyFlow(r, req, plan, g).value.marks == []
  {
  }

  lemma KeyPathGrows(r: Record, req: Request, plan: ProvisioningPlan, g: Gen, drift: bool)
    ensures DecideKey(r, req, plan, g, drift).Success? ==> DecideKey(r, req, plan, g, drift).value.gen.next >= g.next
  {
    hide BlockedStaWire, NotRunningEvidence, MissingVaps, EncodeStoredWlans;
  }

  /** No step hands a serial out twice. */
  lemma NextGrows(w: World, step: Step)
    ensures Next(w, step).world.next >= w.next
  {
    hide PlanOf, Prepared, BlockedStaWire, EncodeStoredWlans, DecideKey, HeldAtGate, DriftPhase;
    if step.Inform? {
      var r, req, g := Prepared(w.rec, step.req), step.req, Gen(w.next, step.req.entropy);
      var plan := PlanOf(r.extra);
      if DriftPhase(r, plan.driftHash, g).Success? {
        DriftFrame(r, plan.driftHash, g);
        var (b, h, drift) := DriftPhase(r, plan.driftHash, g).value;
        KeyPathGrows(b, req, plan, h, drift);
      }
    }
  }

  ghost predicate QuietSince(log: seq<Event>, i: nat)
    requires i < |log|
  {
    forall k :: i < k < |log| ==> !EndsArming(log[k])
  }

  /** While no devname RUN proof and no reset followed an arming, it stands. */
  lemma {:induction false} ArmedVersionBlocked(steps: seq<Step>, i: nat, v: Option<Version>)
    requires i < |Log(Start, steps)| && Log(Start, steps)[i] == Logged(DevnameArm(v)) && QuietSince(Log(Start, steps), i)
    ensures v.Some? && Used(v, After(Start, steps).next) && Blocks(After(Start, steps).rec, v.value)
    ensures forall j :: i < j < |Log(Start, steps)| ==> Log(Start, steps)[j] != Logged(DevnameArm(v))
  {
    hide PlanOf, BlockedStaWire, BlockedDrift, SettleReady, NotRunningEvidence, MissingVaps, RetryDue, EncodeStoredWlans, Next, Blocks;
    var n := |steps| - 1;
    var before := Log(Start, steps[..n]);
    var w := After(Start, steps[..n]);
    var log := Log(Start, steps);
    var events := Events(Next(w, steps[n]).out, Next(w, steps[n]).marks);
    assert log == before + events;
    RunKeeps(steps[..n]);
    if i < |before| {
      assert forall k :: 0 <= k < |before| ==> log[k] == before[k];
      assert forall k :: 0 <= k < |events| ==> log[|before| + k] == events[k];
      ArmedVersionBlocked(steps[..n], i, v);
      StepBlocks(w, steps[n], v.value);
      NextGrows(w, steps[n]);
      forall j | i < j < |log| ensures log[j] != Logged(DevnameArm(v)) {
        if j >= |before| { assert log[j] == events[j - |before|]; }
      }
    } else {
      assert events[i - |before|] == Logged(DevnameArm(v));
      ArmEffect(w, steps[n], v);
    }
  }

  /**
   Between two armings for one cfgversion there is a devname RUN proof or a factory reset:
   at most one materialization reboot per cfgversion otherwise.
   */
  lemma {:induction false} OneArmPerVersion(steps: seq<Step>, i: nat, j: nat, v: Option<Version>)
    requires i < j < |Log(Start, steps)|
    requires Log(Start, steps)[i] == Logged(DevnameArm(v)) && Log(Start, steps)[j] == Logged(DevnameArm(v))
    ensures exists k :: i < k < j && EndsArming(Log(Start, steps)[k])
  {
    hide PlanOf, BlockedStaWire, BlockedDrift, SettleReady, NotRunningEvidence, MissingVaps, RetryDue, EncodeStoredWlans, Next, Blocks;
    var n := |steps| - 1;
    var before := Log(Start, steps[..n]);
    var w := After(Start, steps[..n]);
    var log := Log(Start, steps);
    var events := Events(Next(w, steps[n]).out, Next(w, steps[n]).marks);
    assert log == before + events;
    assert forall k :: 0 <= k < |before| ==> log[k] == before[k];
    RunKeeps(steps[..n]);
    if j < |before| {
      OneArmPerVersion(steps[..n], i, j, v);
      var k :| i < k < j && EndsArming(before[k]);
      assert log[k] == before[k];
    } else {
      assert events[j - |before|] == Logged(DevnameArm(v));
      ArmEffect(w, steps[n], v);
      if i < |before| && QuietSince(before, i) {
        ArmedVersionBlocked(steps[..n], i, v);
        StepBlocks(w, steps[n], v.value);
      } else if i < |before| {
        var k :| i < k < |before| && EndsArming(before[k]);
        assert log[k] == before[k];
      }
    }
  }

  // ---- unreachable states ------------------------------------------------------------------------

  /** A reboot flag never survives to the watchdog: the branch guarding against it is dead. */
  lemma AlreadyPendingUnreachable(w: World, step: Step)
    ensures DevnameAlreadyPending !in Next(w, step).marks
  {
    hide PlanOf, Connected, DriftPhase, HeldAtGate, BlockedStaWire, EncodeStoredWlans, SettleReady;
    if step.Inform? {
      var r, req, g := Prepared(w.rec, step.req), step.req, Gen(w.next, step.req.entropy);
      var plan := PlanOf(r.extra);
      if ArmedLifecycle(r).None? && DriftPhase(r, plan.driftHash, g).Success? {
        DriftFrame(r, plan.driftHash, g);
        var (b, h, drift) := DriftPhase(r, plan.driftHash, g).value;
        ConnectedNeverPending(b, plan, h);
      }
    }
  }

  lemma ConnectedNeverPending(r: Record, plan: ProvisioningPlan, g: Gen)
    requires !r.extra.rebootArmed
    ensures Connected(r, plan, g).Success? ==> DevnameAlreadyPending !in Connected(r, plan, g).value.marks
  {
    hide PlanOf, BlockedStaWire, BlockedDrift, SettleReady, NotRunningEvidence, MissingVaps, RetryDue, EncodeStoredWlans;
    var quiet := r.(extra := r.extra.(disconnectPending := false));
    if NotRunningEvidence(quiet.extra.delivery, quiet.extra.vapTable) == Run {
      assert DevnameAlreadyPending !in DevnameWatchdog(SetMisses(quiet, 0), plan, g).value.marks;
    }
  }

  /** No reachable record counts devname misses against a marker that stands for its own version. */
  lemma NoCountUnderOwnMarker(steps: seq<Step>)
    ensures var r := After(Start, steps).rec;
            r.extra.marker.Some? && r.extra.marker == r.cfgVersion ==> r.extra.vapMisses == 0
  {
    RunKeeps(steps);
  }
}
