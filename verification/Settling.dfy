/**
 When a pending delivery counts as proven, said from the rows a device reports: which rows must be
 gone, and which rows each wanted network needs.
 */
module Settling {
  import opened Options
  import opened Text
  import opened Wlans
  import opened Plan
  import opened Delivery
  import opened BlockedSta
  import opened Engine

  /** The radio a reported row names. */
  function RadioOf(row: Row): string {
    JsonStr(row, "radio_name", JsonStr(row, "parent", ""))
  }

  /** An enabled WLAN that goes on air under this SSID. */
  predicate Airs(w: Wlan, ssid: string) {
    w.enabled && (if w.ssid != "" then w.ssid else w.name) == ssid
  }

  predicate SomeAirs(wls: seq<Wlan>, ssid: string) {
    exists d :: 0 <= d < |wls| && Airs(wls[d], ssid)
  }

  function Entries(wls: seq<Wlan>, ssid: string): set<nat> {
    set d: nat | d < |wls| && Airs(wls[d], ssid)
  }

  /** Those of the chosen rows that are on one radio. */
  function OnRadio(rows: seq<Row>, chosen: set<nat>, radio: string): set<nat> {
    set i | i in chosen && i < |rows| && RadioOf(rows[i]) == radio
  }

  /** The chosen rows all run this SSID, on no radio more of them than were planned there, when placements were recorded. */
  ghost predicate Matching(rows: seq<Row>, ssid: string, placed: multiset<Slot>, chosen: set<nat>) {
    && (forall i :: i in chosen ==> i < |rows| && RunsSsid(rows[i], ssid))
    && (placed != multiset{} ==> forall radio :: |OnRadio(rows, chosen, radio)| <= placed[Slot(ssid, radio)])
  }

  /** As many different rows as the network has enabled entries can be chosen for it. */
  ghost predicate Covered(rows: seq<Row>, ssid: string, placed: multiset<Slot>, need: nat) {
    exists chosen :: Matching(rows, ssid, placed, chosen) && |chosen| == need
  }

  // ---- entries -----------------------------------------------------------------------------------

  lemma EntriesSnoc(wls: seq<Wlan>, ssid: string)
    requires wls != []
    ensures |Entries(wls, ssid)| == |Entries(wls[..|wls| - 1], ssid)| + if Airs(wls[|wls| - 1], ssid) then 1 else 0
  {
    hide Airs;
    var n := |wls| - 1;
    assert Entries(wls, ssid) == Entries(wls[..n], ssid) + if Airs(wls[n], ssid) then {n} else {};
  }

  lemma EnabledOneMore(wls: seq<Wlan>, ssid: string)
    requires wls != []
    ensures multiset(EnabledSsids(wls))[ssid] == multiset(EnabledSsids(wls[..|wls| - 1]))[ssid] + if Airs(wls[|wls| - 1], ssid) then 1 else 0
  {
    var before := EnabledSsids(wls[..|wls| - 1]);
    if wls[|wls| - 1].enabled { assert multiset(before + [SsidOf(wls[|wls| - 1])]) == multiset(before) + multiset{SsidOf(wls[|wls| - 1])}; }
  }

  lemma {:induction false} EntriesCounted(wls: seq<Wlan>, ssid: string)
    ensures multiset(EnabledSsids(wls))[ssid] == |Entries(wls, ssid)|
  {
    if wls == [] {
      assert Entries(wls, ssid) == {};
    } else {
      hide EnabledSsids, Entries, Airs;
      EntriesCounted(wls[..|wls| - 1], ssid);
      EntriesSnoc(wls, ssid);
      EnabledOneMore(wls, ssid);
    }
  }

  lemma AirsIsEnabled(wls: seq<Wlan>, ssid: string)
    ensures SomeAirs(wls, ssid) <==> ssid in EnabledSsids(wls)
  {
    EnabledSsidsMembers(wls);
    if d :| 0 <= d < |wls| && Airs(wls[d], ssid) { assert wls[d].enabled && SsidOf(wls[d]) == ssid; }
  }

  // ---- chosen rows as slots ---------------------------------------------------------------------------

  /** The slots of the chosen rows among the first n. */
  ghost function SlotsIn(rows: seq<Row>, ssid: string, chosen: set<nat>, n: nat): multiset<Slot>
    requires n <= |rows|
  {
    if n == 0 then multiset{}
    else SlotsIn(rows, ssid, chosen, n - 1) + if n - 1 in chosen then multiset{Slot(ssid, RadioOf(rows[n - 1]))} else multiset{}
  }

  function Below(chosen: set<nat>, n: nat): set<nat> {
    set i | i in chosen && i < n
  }

  lemma BelowStep(chosen: set<nat>, n: nat)
    ensures Below(chosen, n + 1) == Below(chosen, n) + if n in chosen then {n} else {}
    ensures |Below(chosen, n + 1)| == |Below(chosen, n)| + if n in chosen then 1 else 0
  {
  }

  lemma SlotsInStep(rows: seq<Row>, ssid: string, chosen: set<nat>, n: nat, s: Slot)
    requires n < |rows|
    ensures |SlotsIn(rows, ssid, chosen, n + 1)| == |SlotsIn(rows, ssid, chosen, n)| + if n in chosen then 1 else 0
    ensures SlotsIn(rows, ssid, chosen, n + 1)[s] == SlotsIn(rows, ssid, chosen, n)[s] + if n in chosen && s == Slot(ssid, RadioOf(rows[n])) then 1 else 0
  {
    hide RadioOf;
  }

  lemma NothingBelow(rows: seq<Row>, ssid: string, chosen: set<nat>, radio: string)
    ensures SlotsIn(rows, ssid, chosen, 0) == multiset{} && Below(chosen, 0) == {} && OnRadio(rows, {}, radio) == {}
  {
  }

  lemma {:induction false} SlotsCounted(rows: seq<Row>, ssid: string, chosen: set<nat>, n: nat)
    requires n <= |rows|
    ensures |SlotsIn(rows, ssid, chosen, n)| == |Below(chosen, n)|
  {
    hide RadioOf, Below, SlotsIn, OnRadio;
    if n == 0 {
      NothingBelow(rows, ssid, chosen, "");
    } else {
      SlotsCounted(rows, ssid, chosen, n - 1);
      BelowStep(chosen, n - 1);
      SlotsInStep(rows, ssid, chosen, n - 1, Slot("", ""));
    }
  }

  lemma OnRadioStep(rows: seq<Row>, chosen: set<nat>, n: nat, radio: string)
    requires n < |rows|
    ensures |OnRadio(rows, Below(chosen, n + 1), radio)| == |OnRadio(rows, Below(chosen, n), radio)| + if n in chosen && RadioOf(rows[n]) == radio then 1 else 0
  {
    hide RadioOf;
    assert OnRadio(rows, Below(chosen, n + 1), radio) ==
           OnRadio(rows, Below(chosen, n), radio) + if n in chosen && RadioOf(rows[n]) == radio then {n} else {};
  }

  lemma {:induction false} SlotsPerRadio(rows: seq<Row>, ssid: string, chosen: set<nat>, n: nat, s: Slot)
    requires n <= |rows|
    ensures SlotsIn(rows, ssid, chosen, n)[s] == if s.ssid == ssid then |OnRadio(rows, Below(chosen, n), s.radio)| else 0
  {
    hide RadioOf, Below, SlotsIn, OnRadio;
    if n == 0 {
      NothingBelow(rows, ssid, chosen, s.radio);
    } else {
      SlotsPerRadio(rows, ssid, chosen, n - 1, s);
      OnRadioStep(rows, chosen, n - 1, s.radio);
      SlotsInStep(rows, ssid, chosen, n - 1, s);
    }
  }

  /** Slots of the RUN rows of one SSID among the first n rows. */
  function Running(rows: seq<Row>, ssid: string, n: nat): multiset<Slot>
    requires n <= |rows|
  {
    multiset(RunSlots(RunningRows(rows[..n]), ssid))
  }

  lemma RunningStep(rows: seq<Row>, ssid: string, n: nat)
    requires n < |rows|
    ensures Running(rows, ssid, n + 1) == Running(rows, ssid, n) + if RunsSsid(rows[n], ssid) then multiset{Slot(ssid, RadioOf(rows[n]))} else multiset{}
  {
    hide JsonStr, Lower, RunSlots;
    assert rows[..n + 1][..n] == rows[..n];
    var runs, slots := RunningRows(rows[..n]), RunSlots(RunningRows(rows[..n]), ssid);
    RunSlotsSnoc(runs, RunOf(rows[n]), ssid);
    assert multiset(slots + [Slot(ssid, RadioOf(rows[n]))]) == multiset(slots) + multiset{Slot(ssid, RadioOf(rows[n]))};
    assert RunningRows(rows[..n + 1]) == if IsRunRow(rows[n]) then runs + [RunOf(rows[n])] else runs;
  }

  lemma {:induction false} ChosenRun(rows: seq<Row>, ssid: string, chosen: set<nat>, n: nat)
    requires n <= |rows| && forall i :: i in chosen ==> i < |rows| && RunsSsid(rows[i], ssid)
    ensures SlotsIn(rows, ssid, chosen, n) <= Running(rows, ssid, n)
  {
    hide RadioOf, RunsSsid, Running;
    if n == 0 {
    } else {
      ChosenRun(rows, ssid, chosen, n - 1);
      RunningStep(rows, ssid, n - 1);
    }
  }

  lemma All(rows: seq<Row>, chosen: set<nat>)
    requires forall i :: i in chosen ==> i < |rows|
    ensures Below(chosen, |rows|) == chosen
  {
  }

  lemma ProvenIs(rows: seq<Row>, ssid: string, placed: multiset<Slot>)
    requires ssid != ""
    ensures var run := Running(rows, ssid, |rows|);
            Proven(ssid, placed, RunningRows(rows)) == if placed == multiset{} then |run| else |run * placed|
  {
    assert rows[..|rows|] == rows;
    SeqSize(RunSlots(RunningRows(rows), ssid));
  }

  lemma {:induction false} SeqSize(s: seq<Slot>)
    ensures |multiset(s)| == |s|
  {
  }

  lemma SmallerMultiset(a: multiset<Slot>, b: multiset<Slot>)
    requires a <= b
    ensures |a| <= |b|
  {
    assert b == a + (b - a);
  }

  /** A choice of rows is never larger than what the counting proves. */
  lemma ChoiceIsProven(rows: seq<Row>, ssid: string, placed: multiset<Slot>, chosen: set<nat>)
    requires ssid != "" && Matching(rows, ssid, placed, chosen)
    ensures |chosen| <= Proven(ssid, placed, RunningRows(rows))
  {
    hide Running, RunsSsid, RadioOf, Proven, OnRadio;
    var n := |rows|;
    var mine := SlotsIn(rows, ssid, chosen, n);
    All(rows, chosen);
    SlotsCounted(rows, ssid, chosen, n);
    ChosenRun(rows, ssid, chosen, n);
    ProvenIs(rows, ssid, placed);
    if placed == multiset{} {
      SmallerMultiset(mine, Running(rows, ssid, n));
    } else {
      forall s: Slot ensures mine[s] <= placed[s] {
        SlotsPerRadio(rows, ssid, chosen, n, s);
        assert s.ssid == ssid ==> s == Slot(ssid, s.radio);
      }
      SmallerMultiset(mine, Running(rows, ssid, n) * placed);
    }
  }

  // ---- choosing rows -----------------------------------------------------------------------------------

  /** The rows the counting takes, first come first served. */
  ghost function Picked(rows: seq<Row>, ssid: string, placed: multiset<Slot>, n: nat): set<nat>
    requires n <= |rows|
  {
    if n == 0 then {}
    else
      var before := Picked(rows, ssid, placed, n - 1);
      var slot := Slot(ssid, RadioOf(rows[n - 1]));
      if RunsSsid(rows[n - 1], ssid) && (placed == multiset{} || Running(rows, ssid, n - 1)[slot] < placed[slot]) then before + {n - 1} else before
  }

  lemma {:induction false} PickedRun(rows: seq<Row>, ssid: string, placed: multiset<Slot>, n: nat)
    requires n <= |rows|
    ensures forall i :: i in Picked(rows, ssid, placed, n) ==> i < n && RunsSsid(rows[i], ssid)
  {
    hide RunsSsid, Running, RadioOf;
    if n > 0 { PickedRun(rows, ssid, placed, n - 1); }
  }

  lemma {:induction false} SameSlots(rows: seq<Row>, ssid: string, a: set<nat>, b: set<nat>, n: nat)
    requires n <= |rows| && forall i :: 0 <= i < n ==> (i in a <==> i in b)
    ensures SlotsIn(rows, ssid, a, n) == SlotsIn(rows, ssid, b, n)
  {
    hide RadioOf;
    if n > 0 { SameSlots(rows, ssid, a, b, n - 1); }
  }

  lemma OneMore(a: multiset<Slot>, s: Slot, p: multiset<Slot>)
    ensures (a + multiset{s}) * p == a * p + if a[s] < p[s] then multiset{s} else multiset{}
  {
  }

  /** The slots of the rows the counting takes. */
  ghost function Taken(rows: seq<Row>, ssid: string, placed: multiset<Slot>, n: nat): multiset<Slot>
    requires n <= |rows|
  {
    if placed == multiset{} then Running(rows, ssid, n) else Running(rows, ssid, n) * placed
  }

  lemma TakenStep(rows: seq<Row>, ssid: string, placed: multiset<Slot>, n: nat)
    requires n < |rows|
    ensures var slot := Slot(ssid, RadioOf(rows[n]));
            Taken(rows, ssid, placed, n + 1) == Taken(rows, ssid, placed, n)
              + if RunsSsid(rows[n], ssid) && (placed == multiset{} || Running(rows, ssid, n)[slot] < placed[slot]) then multiset{slot} else multiset{}
  {
    hide RunsSsid, Running, RadioOf;
    RunningStep(rows, ssid, n);
    OneMore(Running(rows, ssid, n), Slot(ssid, RadioOf(rows[n])), placed);
  }

  lemma PickedStep(rows: seq<Row>, ssid: string, placed: multiset<Slot>, n: nat)
    requires n < |rows|
    ensures var slot := Slot(ssid, RadioOf(rows[n]));
            SlotsIn(rows, ssid, Picked(rows, ssid, placed, n + 1), n + 1) == SlotsIn(rows, ssid, Picked(rows, ssid, placed, n), n)
              + if RunsSsid(rows[n], ssid) && (placed == multiset{} || Running(rows, ssid, n)[slot] < placed[slot]) then multiset{slot} else multiset{}
  {
    hide RunsSsid, Running, RadioOf;
    PickedRun(rows, ssid, placed, n);
    SameSlots(rows, ssid, Picked(rows, ssid, placed, n + 1), Picked(rows, ssid, placed, n), n);
  }

  lemma {:induction false} PickedSlots(rows: seq<Row>, ssid: string, placed: multiset<Slot>, n: nat)
    requires n <= |rows|
    ensures SlotsIn(rows, ssid, Picked(rows, ssid, placed, n), n) == Taken(rows, ssid, placed, n)
  {
    hide RunsSsid, Running, RadioOf, Taken, SlotsIn, Picked;
    if n > 0 {
      PickedSlots(rows, ssid, placed, n - 1);
      PickedStep(rows, ssid, placed, n - 1);
      TakenStep(rows, ssid, placed, n - 1);
    } else {
      NothingTaken(rows, ssid, placed);
    }
  }

  lemma NothingTaken(rows: seq<Row>, ssid: string, placed: multiset<Slot>)
    ensures Taken(rows, ssid, placed, 0) == multiset{} == SlotsIn(rows, ssid, Picked(rows, ssid, placed, 0), 0)
  {
    assert Running(rows, ssid, 0) == multiset{};
  }

  /** What the counting proves can be chosen. */
  lemma ProvenIsChoice(rows: seq<Row>, ssid: string, placed: multiset<Slot>)
    requires ssid != ""
    ensures var chosen := Picked(rows, ssid, placed, |rows|);
            Matching(rows, ssid, placed, chosen) && |chosen| == Proven(ssid, placed, RunningRows(rows))
  {
    hide Running, RunsSsid, RadioOf, Proven, OnRadio, Picked;
    var n := |rows|;
    var chosen := Picked(rows, ssid, placed, n);
    PickedRun(rows, ssid, placed, n);
    PickedSlots(rows, ssid, placed, n);
    All(rows, chosen);
    SlotsCounted(rows, ssid, chosen, n);
    ProvenIs(rows, ssid, placed);
    if placed != multiset{} {
      forall radio: string ensures |OnRadio(rows, chosen, radio)| <= placed[Slot(ssid, radio)] {
        SlotsPerRadio(rows, ssid, chosen, n, Slot(ssid, radio));
      }
    }
  }

  lemma {:induction false} Fewer(chosen: set<nat>, k: nat) returns (some: set<nat>)
    requires k <= |chosen|
    ensures some <= chosen && |some| == k
  {
    if k == |chosen| {
      some := chosen;
    } else {
      var i :| i in chosen;
      some := Fewer(chosen - {i}, k);
    }
  }

  lemma SubsetSize(a: set<nat>, b: set<nat>)
    requires a <= b
    ensures |a| <= |b|
  {
    assert b == a + (b - a);
  }

  lemma FewerMatch(rows: seq<Row>, ssid: string, placed: multiset<Slot>, chosen: set<nat>, some: set<nat>)
    requires Matching(rows, ssid, placed, chosen) && some <= chosen
    ensures Matching(rows, ssid, placed, some)
  {
    hide RunsSsid, RadioOf;
    if placed != multiset{} {
      forall radio: string ensures |OnRadio(rows, some, radio)| <= placed[Slot(ssid, radio)] {
        SubsetSize(OnRadio(rows, some, radio), OnRadio(rows, chosen, radio));
      }
    }
  }

  /** Counting proves a network exactly when rows can be chosen for all its entries. */
  lemma CoveredIff(rows: seq<Row>, ssid: string, placed: multiset<Slot>, need: nat)
    requires ssid != ""
    ensures Covered(rows, ssid, placed, need) <==> need <= Proven(ssid, placed, RunningRows(rows))
  {
    hide Matching, Proven, Picked, RunningRows;
    if chosen :| Matching(rows, ssid, placed, chosen) && |chosen| == need { ChoiceIsProven(rows, ssid, placed, chosen); }
    if need <= Proven(ssid, placed, RunningRows(rows)) {
      ProvenIsChoice(rows, ssid, placed);
      var some := Fewer(Picked(rows, ssid, placed, |rows|), need);
      FewerMatch(rows, ssid, placed, Picked(rows, ssid, placed, |rows|), some);
    }
  }

  // ---- the proof of a delivery ----------------------------------------------------------------------------

  /** No row still runs a network that was on before and is not wanted any more. */
  ghost predicate NothingRemovedRuns(rows: seq<Row>, prior: seq<Wlan>, desired: seq<Wlan>) {
    forall ssid: string :: ssid != "" && SsidRuns(rows, ssid) && SomeAirs(prior, ssid) ==> SomeAirs(desired, ssid)
  }

  /** Every wanted network has a name and rows for all its entries. */
  ghost predicate AllWantedRun(rows: seq<Row>, desired: seq<Wlan>, placed: multiset<Slot>) {
    forall ssid: string :: SomeAirs(desired, ssid) ==> ssid != "" && Covered(rows, ssid, placed, |Entries(desired, ssid)|)
  }

  lemma RemovedByRow(rows: seq<Row>, prior: seq<Wlan>, desired: seq<Wlan>, ssid: string)
    requires ssid != ""
    ensures RunsCarrying(RunningRows(rows), ssid) && Removed(ssid, prior, desired) <==>
            SsidRuns(rows, ssid) && SomeAirs(prior, ssid) && !SomeAirs(desired, ssid)
  {
    hide RunsCarrying, SsidRuns, SomeAirs, RunningRows, EnabledSsids;
    RunningByRow(rows, "", ssid);
    AirsIsEnabled(prior, ssid);
    AirsIsEnabled(desired, ssid);
  }

  lemma NoneRemovedByRow(rows: seq<Row>, prior: seq<Wlan>, desired: seq<Wlan>)
    ensures NoneRemoved(RunningRows(rows), prior, desired) <==> NothingRemovedRuns(rows, prior, desired)
  {
    hide Removed, SsidRuns, SomeAirs, RunningRows;
    var runs := RunningRows(rows);
    forall k | 0 <= k < |runs| && runs[k].ssid != ""
      ensures Removed(runs[k].ssid, prior, desired) <==>
              SsidRuns(rows, runs[k].ssid) && SomeAirs(prior, runs[k].ssid) && !SomeAirs(desired, runs[k].ssid)
    {
      assert RunsCarrying(runs, runs[k].ssid);
      RemovedByRow(rows, prior, desired, runs[k].ssid);
    }
    if NoneRemoved(runs, prior, desired) {
      forall ssid: string | ssid != "" && SsidRuns(rows, ssid) && SomeAirs(prior, ssid) ensures SomeAirs(desired, ssid) {
        RunningByRow(rows, "", ssid);
        RemovedByRow(rows, prior, desired, ssid);
      }
    }
  }

  lemma WantedByRow(rows: seq<Row>, desired: seq<Wlan>, placed: multiset<Slot>, ssid: string)
    ensures SomeAirs(desired, ssid) ==>
            (multiset(EnabledSsids(desired))[ssid] <= Proven(ssid, placed, RunningRows(rows)) <==> ssid != "" && Covered(rows, ssid, placed, |Entries(desired, ssid)|))
  {
    hide Covered, EnabledSsids, RunningRows, Entries, Airs;
    EntriesCounted(desired, ssid);
    AirsIsEnabled(desired, ssid);
    if ssid != "" { CoveredIff(rows, ssid, placed, |Entries(desired, ssid)|); }
  }

  /** A delivery is proven by a table exactly when nothing removed runs there and everything wanted does. */
  lemma ProvenByRows(desired: seq<Wlan>, prior: seq<Wlan>, placed: multiset<Slot>, rows: seq<Row>)
    ensures DeliveryProven(desired, prior, placed, RunningRows(rows)) <==> NothingRemovedRuns(rows, prior, desired) && AllWantedRun(rows, desired, placed)
  {
    hide Covered, EnabledSsids, RunningRows, Entries, SomeAirs, Removed, NothingRemovedRuns, Proven;
    NoneRemovedByRow(rows, prior, desired);
    forall ssid: string ensures SomeAirs(desired, ssid) <==> ssid in EnabledSsids(desired) { AirsIsEnabled(desired, ssid); }
    forall ssid: string ensures SomeAirs(desired, ssid) ==>
        (multiset(EnabledSsids(desired))[ssid] <= Proven(ssid, placed, RunningRows(rows)) <==> ssid != "" && Covered(rows, ssid, placed, |Entries(desired, ssid)|)) {
      WantedByRow(rows, desired, placed, ssid);
    }
  }

  // ---- from a full provisioning to its settlement -----------------------------------------------------------

  /** What was on before this provisioning: the settled networks, or those an earlier offer was to replace. */
  function PriorOf(b: Bookkeeping): seq<Wlan> {
    DecodedOr(if b.applied.Some? then b.applied else b.pendingOld)
  }

  /** A full provisioning leaves its plan pending, and what has to stop is what is on now. */
  lemma ProvisionLeaves(r: Record, req: Request, next: nat)
    requires InformCycle(r, req, next).Success? && InformCycle(r, req, next).value.out.FullProvision?
    ensures var d := InformCycle(r, req, next).value;
            var b := d.rec.extra.delivery;
            && b.pendingSha == Some(d.out.plan.driftHash) && DecodedOr(b.pendingWlans) == d.out.plan.wlans
            && b.placements == Some(d.out.plan.placements) && DecodedOr(b.pendingOld) == PriorOf(b)
  {
    hide DriftPhase, HeldAtGate, FactoryKeyRefused, GentleNoop, BlockedStaWire, EncodeStoredWlans, DecodeStoredWlans, RetryDelay;
    hide NotRunningEvidence, MissingVaps, PlanProvisioning, Absorb;
    StoredRoundTrip(InformCycle(r, req, next).value.out.plan.wlans);
    ProvisionPending(Prepared(r, req), req, PlanOf(Prepared(r, req).extra), Gen(next, req.entropy));
  }

  /** Whatever the lane, a full provisioning comes from the assigned-key flow. */
  lemma ProvisionPending(r: Record, req: Request, plan: ProvisioningPlan, g: Gen)
    ensures var d := if req.plaintext then DecidePlain(r, req, plan, g) else DecideEncrypted(r, req, plan, g);
            d.Success? && d.value.out.FullProvision? ==> OfferedNow(d.value.rec.extra.delivery, d.value.out.plan)
  {
    hide DriftPhase, HeldAtGate, FactoryKeyRefused, GentleNoop, BlockedStaWire, EncodeStoredWlans, NotRunningEvidence, MissingVaps, AssignedKeyFlow, BlockedDrift, OfferedNow;
    FlowOffers(r, req, plan, g);
    if DriftPhase(r, plan.driftHash, g).Success? {
      var d := DriftPhase(r, plan.driftHash, g).value;
      FlowOffers(d.0, req, plan, d.1);
    }
  }

  ghost predicate OfferedNow(b: Bookkeeping, plan: ProvisioningPlan) {
    && b.pendingSha == Some(plan.driftHash) && b.pendingWlans == Some(EncodeStoredWlans(plan.wlans))
    && b.placements == Some(plan.placements) && (b.applied.Some? ==> b.pendingOld == b.applied)
  }

  lemma FlowOffers(r: Record, req: Request, plan: ProvisioningPlan, g: Gen)
    ensures var d := AssignedKeyFlow(r, req, plan, g);
            d.Success? ==> d.value.out.FullProvision? && d.value.out.plan == plan && OfferedNow(d.value.rec.extra.delivery, plan)
  {
    hide BlockedStaWire, EncodeStoredWlans;
  }

  /** After the drift phase no reply touches what is settled. */
  lemma ReplyKeepsSettled(r: Record, req: Request, plan: ProvisioningPlan, g: Gen, drift: bool)
    ensures var d := DecideKey(r, req, plan, g, drift);
            d.Success? ==> d.value.rec.extra.delivery.sha == r.extra.delivery.sha && d.value.rec.extra.delivery.applied == r.extra.delivery.applied
  {
    hide BlockedStaWire, EncodeStoredWlans, NotRunningEvidence, MissingVaps;
  }

  /** A status inform settles what its own table proves, before anything else is decided. */
  lemma StatusSettles(r: Record, req: Request, plan: ProvisioningPlan, g: Gen)
    requires DecideStatus(r, req, plan, g).Success?
    ensures var b, d := r.extra.delivery, DecideStatus(r, req, plan, g).value.rec.extra.delivery;
            if SettleReady(b, r.extra.vapTable) then d.sha == b.pendingSha && d.applied == b.pendingWlans
            else d.sha == b.sha && d.applied == b.applied
  {
    hide BlockedStaWire, EncodeStoredWlans, DriftPhase, DecideKey, HeldAtGate, SettleReady;
    DriftFrame(r, plan.driftHash, g);
    var d := DriftPhase(r, plan.driftHash, g).value;
    ReplyKeepsSettled(d.0, req, plan, d.1, d.2);
  }

  /**
   After a full provisioning, the next authenticated status inform settles it exactly when its table
   proves it: then the provisioned networks are the settled ones. Otherwise what was settled stays.
   */
  lemma ProvisionThenSettle(r: Record, first: Request, n1: nat, second: Request, n2: nat)
    requires InformCycle(r, first, n1).Success? && InformCycle(r, first, n1).value.out.FullProvision?
    requires var d := InformCycle(r, first, n1).value;
             !Armed(d.rec.extra) && !second.plaintext && !GentleNoop(second.body.kind) && InformCycle(d.rec, second, n2).Success?
    ensures var d := InformCycle(r, first, n1).value;
            var was, after := d.rec.extra.delivery, InformCycle(d.rec, second, n2).value.rec.extra.delivery;
            var table, plan := second.body.vapTable, d.out.plan;
            if table.Some? && NothingRemovedRuns(table.value, PriorOf(was), plan.wlans) && AllWantedRun(table.value, plan.wlans, plan.placements)
            then after.sha == Some(plan.driftHash) && DecodedOr(after.applied) == plan.wlans
            else after.sha == was.sha && after.applied == was.applied
  {
    hide DecideStatus, NothingRemovedRuns, AllWantedRun, PriorOf, BlockedStaWire, DeliveryProven, FactoryKeyRefused, PlanProvisioning;
    var d := InformCycle(r, first, n1).value;
    ProvisionLeaves(r, first, n1);
    var p := Prepared(d.rec, second);
    hide InformCycle;
    SecondIsStatus(d.rec, second, n2);
    StatusSettles(p, second, PlanOf(p.extra), Gen(n2, second.entropy));
    if second.body.vapTable.Some? { ProvenByRows(d.out.plan.wlans, PriorOf(d.rec.extra.delivery), d.out.plan.placements, second.body.vapTable.value); }
  }

  lemma SecondIsStatus(r: Record, req: Request, next: nat)
    requires !Armed(r.extra) && !req.plaintext && !GentleNoop(req.body.kind) && InformCycle(r, req, next).Success?
    ensures var p := Prepared(r, req);
            var d := DecideStatus(p, req, PlanOf(p.extra), Gen(next, req.entropy));
            && d.Success? && InformCycle(r, req, next).value.rec.extra == d.value.rec.extra
            && p.extra.delivery == r.extra.delivery && p.extra.vapTable == req.body.vapTable
  {
    hide DecideStatus, GentleNoop, FactoryKeyRefused, PlanProvisioning;
  }
}
