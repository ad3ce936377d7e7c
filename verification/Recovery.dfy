/**
 After adoption: when a resting or in-flight record and a device that applies every push reach
 a settled delivery again, and when they never do.
 */
module Recovery {
  import opened Options
  import opened Wlans
  import opened Plan
  import opened Delivery
  import opened BlockedSta
  import opened Engine
  import opened RecordInvariant
  import opened Convergence
  import WatchdogRuns

  /** The budget of the current content is spent and nothing else releases the hold. */
  predicate Stuck(r: Record, cur: Hash) {
    var b := r.extra.delivery;
    b.pendingSha == Some(cur) && b.attempts >= MAX_ATTEMPTS && !BlockedDrift(r.extra) && !OperatorMint(r)
  }

  // ---- a push and its proof -----------------------------------------------------------------------

  lemma TwoExchanges(p: Pair, radios: seq<Row>, t0: int, t1: int)
    ensures Exchanges(p, radios, [t0, t1]) == Exchange(Exchange(p, radios, t0).0, radios, t1).0
  {
    hide Exchange;
    assert [t0, t1][..1] == [t0] && [t0][..0] == [];
    assert Exchanges(p, radios, [t0]) == Exchange(p, radios, t0).0;
  }

  /** Two informs deliver and settle whatever an open record holds. */
  lemma OpenSettles(p: Pair, radios: seq<Row>, wls: seq<Wlan>, t0: int, t1: int)
    requires Ready(p, radios, wls) && Unproven(p) && Open(p.world.rec, p.device.cfg, WlanListHash(wls), t0)
    ensures Around(Exchanges(p, radios, [t0, t1]), radios, wls) && AdoptedAndSettled(Exchanges(p, radios, [t0, t1]), radios, wls)
    ensures Exchange(Exchange(p, radios, t0).0, radios, t1).1 == Some(Noop)
  {
    hide Exchange, Exchanges, Ready, Unproven, Open, Around, Provisioned, AdoptedAndSettled;
    Pushes(p, radios, wls, t0);
    Settles(Exchange(p, radios, t0).0, radios, wls, t1);
    TwoExchanges(p, radios, t0, t1);
  }

  // ---- the spent budget ---------------------------------------------------------------------------------

  lemma HeldDecides(r: Record, req: Request, plan: ProvisioningPlan, g: Gen)
    requires !req.plaintext && req.usedKey != FactoryKey && req.body.kind == "" && !Armed(r.extra)
    requires !SettleReady(r.extra.delivery, r.extra.vapTable) && Stuck(r, plan.driftHash)
    ensures DecideEncrypted(r, req, plan, g) ==
            Success(Decision(r.(extra := r.extra.(delivery := AfterRetryCheck(r.extra.delivery))), NoopPendingWlan, g, []))
  {
    hide SettleReady, BlockedStaWire;
    UnprovenIsNoSettle(r);
  }

  /** A stuck record holds its delivery back once more. */
  lemma HeldAgain(p: Pair, radios: seq<Row>, wls: seq<Wlan>, now: int)
    requires Ready(p, radios, wls) && Unproven(p) && Stuck(p.world.rec, WlanListHash(wls))
    ensures var (q, out) := Exchange(p, radios, now);
            && Ready(q, radios, wls) && Unproven(q) && Stuck(q.world.rec, WlanListHash(wls))
            && q.device == p.device && out == Some(NoopPendingWlan)
  {
    hide BlockedDrift, ReportTable, PlanOf, Plannable, DeviceWlans, InvW, DecideEncrypted, DeliveryProven, EvidenceOf;
    var req := DeviceInform(p.device, radios, now);
    var r, g := Prepared(p.world.rec, req), Gen(p.world.next, 4);
    var plan := PlanOf(r.extra);
    StepKeeps(p.world, Inform(req));
    InvKeys(p.world);
    SameWlans(r.extra, p.world.rec.extra);
    SameBlocked(r.extra, p.world.rec.extra);
    PlanShape(r.extra, radios, wls);
    HeldDecides(r, req, plan, g);
    var q := Next(p.world, Inform(req)).world.rec;
    SameWlans(q.extra, p.world.rec.extra);
    SameBlocked(q.extra, p.world.rec.extra);
  }

  /** However often the device informs, a stuck delivery stays pending and unpushed. */
  lemma {:induction false} StuckForever(p: Pair, radios: seq<Row>, wls: seq<Wlan>, t: seq<int>)
    requires Ready(p, radios, wls) && Unproven(p) && Stuck(p.world.rec, WlanListHash(wls))
    ensures var q := Exchanges(p, radios, t);
            && Ready(q, radios, wls) && Unproven(q) && Stuck(q.world.rec, WlanListHash(wls)) && q.device == p.device
            && (t != [] ==> Exchange(Exchanges(p, radios, t[..|t| - 1]), radios, t[|t| - 1]).1 == Some(NoopPendingWlan))
  {
    hide Exchange, Ready, Unproven, Stuck;
    if t != [] {
      StuckForever(p, radios, wls, t[..|t| - 1]);
      HeldAgain(Exchanges(p, radios, t[..|t| - 1]), radios, wls, t[|t| - 1]);
    }
  }

  lemma StuckIsUnsettled(p: Pair, radios: seq<Row>, wls: seq<Wlan>)
    requires Stuck(p.world.rec, WlanListHash(wls))
    ensures !AdoptedAndSettled(p, radios, wls)
  {
    hide BlockedDrift;
  }

  /** Without a spent budget there is a time at which the next retry is due. */
  lemma NotStuckOpens(r: Record, echoed: Option<Version>, cur: Hash, now: int)
    requires r.extra.delivery.pendingSha.Some? && !Stuck(r, cur)
    requires now >= r.extra.delivery.lastAttempt + RetryDelay(r.extra.delivery.attempts)
    ensures Open(r, echoed, cur, now)
  {
    hide BlockedDrift, RetryDelay;
  }

  /**
   Exactly when a delivery the device does not yet run can still settle by informs alone: unless
   its budget is spent with no other release in sight. Then no number of informs settles it;
   otherwise two do, the first at or after the next due time.
   */
  lemma SettlesAgainIff(p: Pair, radios: seq<Row>, wls: seq<Wlan>)
    requires Ready(p, radios, wls) && Unproven(p) && p.world.rec.extra.delivery.pendingSha.Some?
    ensures (exists t: seq<int> :: AdoptedAndSettled(Exchanges(p, radios, t), radios, wls)) <==> !Stuck(p.world.rec, WlanListHash(wls))
  {
    hide Exchanges, Ready, Unproven, Stuck, AdoptedAndSettled, Open, RetryDelay;
    var r, cur := p.world.rec, WlanListHash(wls);
    if Stuck(r, cur) {
      forall t: seq<int> ensures !AdoptedAndSettled(Exchanges(p, radios, t), radios, wls) {
        StuckForever(p, radios, wls, t);
        StuckIsUnsettled(Exchanges(p, radios, t), radios, wls);
      }
    } else {
      var due := r.extra.delivery.lastAttempt + RetryDelay(r.extra.delivery.attempts);
      NotStuckOpens(r, p.device.cfg, cur, due);
      OpenSettles(p, radios, wls, due, due);
    }
  }

  // ---- a stuck record is reachable --------------------------------------------------------------------------

  /** The push goes out and never arrives. */
  function Lost(p: Pair, radios: seq<Row>, now: int): Pair {
    Pair(Next(p.world, Inform(DeviceInform(p.device, radios, now))).world, p.device)
  }

  function Losing(p: Pair, radios: seq<Row>, times: seq<int>): Pair {
    if times == [] then p else Lost(Losing(p, radios, times[..|times| - 1]), radios, times[|times| - 1])
  }

  /** The informs of such a stretch as steps of a run. */
  function Informs(d: Convergence.Device, radios: seq<Row>, times: seq<int>): seq<Step> {
    seq(|times|, i requires 0 <= i < |times| => Inform(DeviceInform(d, radios, times[i])))
  }

  lemma {:induction false} LosingIsARun(p: Pair, radios: seq<Row>, times: seq<int>)
    ensures Losing(p, radios, times) == Pair(After(p.world, Informs(p.device, radios, times)), p.device)
  {
    hide Next, DeviceInform;
    var steps := Informs(p.device, radios, times);
    if times != [] {
      LosingIsARun(p, radios, times[..|times| - 1]);
      assert steps[..|steps| - 1] == Informs(p.device, radios, times[..|times| - 1]);
    }
  }

  /** A device that runs nothing, and an envelope that wants something run. */
  ghost predicate Idle(p: Pair, wls: seq<Wlan>) {
    p.device.running == [] && exists i :: 0 <= i < |wls| && wls[i].enabled
  }

  lemma IdleProvesNothing(b: Bookkeeping, wls: seq<Wlan>, i: nat)
    requires b.pendingWlans == Some(EncodeStoredWlans(wls)) && i < |wls| && wls[i].enabled
    ensures !SettleReady(b, Some(ReportTable([])))
  {
    StoredRoundTrip(wls);
    EnabledSsidsMembers(wls);
    hide EncodeStoredWlans, DecodeStoredWlans, EnabledSsids;
    var s := SsidOf(wls[i]);
    assert s in EnabledSsids(wls);
    assert multiset(EnabledSsids(wls))[s] > 0;
    assert RunningRows(ReportTable([])) == [];
  }

  /** In flight: k pushes of the current content went out, and nothing but a retry releases the hold. */
  ghost predicate InFlight(p: Pair, radios: seq<Row>, wls: seq<Wlan>, k: nat) {
    var b := p.world.rec.extra.delivery;
    && Ready(p, radios, wls) && Unproven(p)
    && b.pendingSha == Some(WlanListHash(wls)) && b.attemptSha == Some(WlanListHash(wls)) && b.attempts == k
    && !BlockedDrift(p.world.rec.extra) && !OperatorMint(p.world.rec)
  }

  lemma LostPush(p: Pair, radios: seq<Row>, wls: seq<Wlan>, now: int)
    requires Ready(p, radios, wls) && Unproven(p) && Open(p.world.rec, p.device.cfg, WlanListHash(wls), now) && Idle(p, wls)
    ensures var b := p.world.rec.extra.delivery;
            InFlight(Lost(p, radios, now), radios, wls, if b.attemptSha == Some(WlanListHash(wls)) then b.attempts + 1 else 1)
  {
    hide BlockedDrift, InvW, Plannable, DeviceWlans, SettleReady, ReportTable, Next, DeviceInform, Runs, Open;
    Pushes(p, radios, wls, now);
    WatchdogRuns.NextGrows(p.world, Inform(DeviceInform(p.device, radios, now)));
    var i :| 0 <= i < |wls| && wls[i].enabled;
    IdleProvesNothing(Lost(p, radios, now).world.rec.extra.delivery, wls, i);
  }

  /** While the budget lasts, the next due inform opens the hold once more. */
  lemma FlightOpens(p: Pair, radios: seq<Row>, wls: seq<Wlan>, k: nat, now: int)
    requires InFlight(p, radios, wls, k) && k < MAX_ATTEMPTS
    requires now == p.world.rec.extra.delivery.lastAttempt + RetryDelay(p.world.rec.extra.delivery.attempts)
    ensures Open(p.world.rec, p.device.cfg, WlanListHash(wls), now)
  {
    hide RetryDelay, BlockedDrift, Ready, Unproven;
  }

  lemma {:induction false} LoseTheRest(p: Pair, radios: seq<Row>, wls: seq<Wlan>, k: nat) returns (times: seq<int>)
    requires InFlight(p, radios, wls, k) && k <= MAX_ATTEMPTS && Idle(p, wls)
    ensures InFlight(Losing(p, radios, times), radios, wls, MAX_ATTEMPTS)
    decreases MAX_ATTEMPTS - k
  {
    if k == MAX_ATTEMPTS {
      times := [];
    } else {
      var now := p.world.rec.extra.delivery.lastAttempt + RetryDelay(p.world.rec.extra.delivery.attempts);
      FlightOpens(p, radios, wls, k, now);
      hide Open, RetryDelay, Lost;
      LostPush(p, radios, wls, now) by { assert InFlight(p, radios, wls, k); }
      hide InFlight;
      var rest := LoseTheRest(Lost(p, radios, now), radios, wls, k + 1) by { assert Idle(Lost(p, radios, now), wls) by { LostSameDevice(p, radios, now); } }
      times := [now] + rest;
      LosingFirst(p, radios, now, rest);
    }
  }

  lemma LostSameDevice(p: Pair, radios: seq<Row>, now: int)
    ensures Lost(p, radios, now).device == p.device
  {
  }

  lemma {:induction false} LosingFirst(p: Pair, radios: seq<Row>, now: int, rest: seq<int>)
    ensures Losing(p, radios, [now] + rest) == Losing(Lost(p, radios, now), radios, rest)
  {
    hide Lost;
    var all := [now] + rest;
    if rest == [] {
      assert all[..0] == [];
    } else {
      LosingFirst(p, radios, now, rest[..|rest| - 1]);
      assert all[..|all| - 1] == [now] + rest[..|rest| - 1];
    }
  }

  /** Six lost pushes of an open record's content leave it stuck. */
  lemma SixLostPushes(p: Pair, radios: seq<Row>, wls: seq<Wlan>, now: int) returns (times: seq<int>)
    requires Ready(p, radios, wls) && Unproven(p) && Open(p.world.rec, p.device.cfg, WlanListHash(wls), now) && Idle(p, wls)
    requires p.world.rec.extra.delivery.attempts < MAX_ATTEMPTS
    ensures var q := Losing(p, radios, times); Ready(q, radios, wls) && Unproven(q) && Stuck(q.world.rec, WlanListHash(wls))
  {
    hide Ready, Unproven, Open, BlockedDrift, Lost;
    LostPush(p, radios, wls, now);
    LostSameDevice(p, radios, now);
    var k := Lost(p, radios, now).world.rec.extra.delivery.attempts;
    var rest := LoseTheRest(Lost(p, radios, now), radios, wls, k);
    times := [now] + rest;
    LosingFirst(p, radios, now, rest);
  }

  /** The record of a fresh device whose WLANs were saved, and the device in its factory state. */
  const Factory := Convergence.Device(FactoryKey, None, [])

  function Fresh(wls: seq<Wlan>): Pair {
    Pair(Next(Start, Admin(PutWlans(wls))).world, Factory)
  }

  lemma FreshIsCandidate(radios: seq<Row>, wls: seq<Wlan>)
    requires Plannable(wls, StoredRadios(Some(radios)))
    ensures Setting(Fresh(wls), radios, wls) && Candidate(Fresh(wls))
  {
    hide Plannable;
    StepKeeps(Start, Admin(PutWlans(wls)));
    StoredRoundTrip(wls);
    assert wls == [] ==> DeviceWlans(Fresh(wls).world.rec.extra) == wls;
  }

  /** One applied inform, as a step of a run. */
  lemma ExchangeIsAStep(p: Pair, radios: seq<Row>, now: int, w: World, steps: seq<Step>)
    requires p.world == After(w, steps)
    ensures Exchange(p, radios, now).0.world == After(w, steps + [Inform(DeviceInform(p.device, radios, now))])
  {
    hide Next;
    var more := steps + [Inform(DeviceInform(p.device, radios, now))];
    assert more[..|more| - 1] == steps;
  }

  lemma {:induction false} AfterConcat(w: World, a: seq<Step>, b: seq<Step>)
    ensures After(w, a + b) == After(After(w, a), b)
  {
    hide Next;
    if b == [] {
      assert a + b == a;
    } else {
      AfterConcat(w, a, b[..|b| - 1]);
      assert (a + b)[..|a + b| - 1] == a + b[..|b| - 1];
    }
  }

  /** The same record facing a device that has its keys but runs nothing. */
  function Unconfigured(p: Pair): Pair {
    p.(device := p.device.(running := []))
  }

  lemma KeyedIsReady(p: Pair, radios: seq<Row>, wls: seq<Wlan>, now: int)
    requires Setting(p, radios, wls) && Keyed(p) && p.device.cfg.Some?
    requires BlockedDrift(p.world.rec.extra) || p.device.cfg != p.world.rec.cfgVersion
    ensures var q := Unconfigured(p);
            Ready(q, radios, wls) && Unproven(q) && Open(q.world.rec, q.device.cfg, WlanListHash(wls), now) && q.world.rec.extra.delivery.attempts == 0
  {
    hide InvW, Plannable, DeviceWlans, BlockedDrift, DeliveryProven;
  }

  /** From a fresh record on, a run that brings the record to its first open state, and the device there. */
  lemma FirstOpen(radios: seq<Row>, wls: seq<Wlan>, now: int) returns (p: Pair, steps: seq<Step>)
    requires Plannable(wls, StoredRadios(Some(radios)))
    ensures p.world == After(Start, steps) && p.device.running == []
    ensures Ready(p, radios, wls) && Unproven(p) && Open(p.world.rec, p.device.cfg, WlanListHash(wls), now) && p.world.rec.extra.delivery.attempts == 0
  {
    hide Exchange, Around, AtRest, Candidate, Keyed, BlockedDrift, After, Ready, Unproven, Open, Plannable, Next;
    FreshIsCandidate(radios, wls);
    steps := [Admin(PutWlans(wls))];
    FirstStep(Admin(PutWlans(wls)));
    var p0 := Fresh(wls);
    Adopts(p0, radios, wls, now);
    ExchangeIsAStep(p0, radios, now, Start, steps);
    var p1 := Exchange(p0, radios, now).0;
    steps := steps + [Inform(DeviceInform(p0.device, radios, now))];
    if BlockedDrift(p1.world.rec.extra) {
      KeyedIsReady(p1, radios, wls, now);
      p := Unconfigured(p1);
    } else {
      SelfHeals(p1, radios, wls, now);
      ExchangeIsAStep(p1, radios, now, Start, steps);
      var p2 := Exchange(p1, radios, now).0;
      steps := steps + [Inform(DeviceInform(p1.device, radios, now))];
      KeyedIsReady(p2, radios, wls, now);
      p := Unconfigured(p2);
    }
  }

  lemma FirstStep(step: Step)
    ensures After(Start, [step]) == Next(Start, step).world
  {
    assert [step][..0] == [];
  }

  /**
   Every envelope with something to run can get stuck: a run from the fresh record whose device is
   adopted, loses six pushes, and can never be configured again without an operator.
   */
  lemma StuckIsReachable(radios: seq<Row>, wls: seq<Wlan>, now: int) returns (p: Pair, steps: seq<Step>)
    requires Plannable(wls, StoredRadios(Some(radios))) && exists i :: 0 <= i < |wls| && wls[i].enabled
    ensures p.world == After(Start, steps)
    ensures Ready(p, radios, wls) && Unproven(p) && Stuck(p.world.rec, WlanListHash(wls))
  {
    hide Ready, Unproven, Open, Stuck, Plannable, After;
    var first, before := FirstOpen(radios, wls, now);
    var times := SixLostPushes(first, radios, wls, now);
    p := Losing(first, radios, times);
    steps := before + Informs(first.device, radios, times);
    LosingIsARun(first, radios, times);
    AfterConcat(Start, before, Informs(first.device, radios, times));
  }

  /** One enabled WLAN and one radio are enough. */
  lemma OneRadioPlans(w: Wlan, row: Row)
    requires w.enabled && SsidOf(w) != "" && EffectiveBand(w) == "both"
    requires row == map["name" := JStr("wifi0"), "radio" := JStr("ng")]
    ensures Plannable([w], StoredRadios(Some([row])))
  {
    assert [row][..0] == [];
    assert "name" in row && "radio" in row && "usage" !in row by { assert |"usage"| == 5 && |"name"| == 4 && "usage"[0] != "radio"[0]; }
    var r := Radio("wifi0", "ng", row);
    assert row["name"] == JStr("wifi0") && row["radio"] == JStr("ng") by { assert |"name"| == 4 && |"radio"| == 5; }
    assert JsonStr(row, "name", "") == "wifi0" && JsonStr(row, "radio", "") == "ng" by { assert |"wifi0"| == 5 && |"ng"| == 2; }
    assert SortedRadios([row]) == InsertRadio(r, SortedRadios([])) == [r];
    assert StoredRadios(Some([row])) == [r];
    assert Provisionable(r) && PlacedOn(w, r);
    forall i | 0 <= i < 1 && [w][i].enabled ensures exists n :: 0 <= n < |[r]| && Provisionable([r][n]) && PlacedOn([w][i], [r][n]) {
      assert Provisionable([r][0]) && PlacedOn([w][i], [r][0]);
    }
  }
}
