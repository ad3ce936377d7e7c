/**
 WLAN delivery bookkeeping (internal/wireless/delivery_state.go): what Settle,
 Offer, RetryDue and the not-running evidence compute over the persisted rows.
 */
module Delivery {
  import opened Options
  import opened Text
  import opened Wlans
  import opened Plan

  /** A cfgversion: one the controller minted, or any other text a device may echo. */
  datatype Version = Stamp(serial: nat) | Foreign(text: string)

  datatype Status = NoStatus | StatusPending | StatusConfirmed | StatusExhausted

  /** The controller-owned wlan_cfg_* rows. Counters and times read 0 when absent. */
  datatype Bookkeeping = Bookkeeping(
    sha: Option<Hash>,
    pendingSha: Option<Hash>,
    pendingWlans: Option<Blob>,
    pendingOld: Option<Blob>,
    applied: Option<Blob>,
    placements: Option<multiset<Slot>>,
    attemptSha: Option<Hash>,
    attempts: nat,
    lastAttempt: int,
    status: Status,
    notRunningMisses: nat,
    offeredCfg: Option<Version>)

  const NoBookkeeping := Bookkeeping(None, None, None, None, None, None, None, 0, 0, NoStatus, 0, None)

  function DecodedOr(b: Option<Blob>): seq<Wlan> {
    match b case None => [] case Some(blob) => DecodeStoredWlans(blob)
  }

  // ---- Settle ------------------------------------------------------------------------

  /** Slots of the RUN rows that carry one SSID, in reported order. */
  function RunSlots(running: seq<VapRun>, ssid: string): seq<Slot> {
    if running == [] then []
    else
      var n := |running| - 1;
      if running[n].ssid == ssid then RunSlots(running[..n], ssid) + [Slot(ssid, running[n].radio)]
      else RunSlots(running[..n], ssid)
  }

  /**
   How many enabled entries of one SSID the RUN rows prove. With placements recorded
   it is the sum over radios of min(RUN rows, planned vaps), the size of the multiset
   intersection; without, the number of RUN rows. Rows with an empty SSID prove nothing.
   */
  function Proven(ssid: string, placed: multiset<Slot>, running: seq<VapRun>): nat {
    if ssid == "" then 0
    else if placed == multiset{} then |RunSlots(running, ssid)|
    else |multiset(RunSlots(running, ssid)) * placed|
  }

  predicate Removed(ssid: string, prior: seq<Wlan>, desired: seq<Wlan>) {
    ssid in EnabledSsids(prior) && ssid !in EnabledSsids(desired)
  }

  /** The settle proof: nothing removed still runs, everything desired runs where planned. */
  predicate DeliveryProven(desired: seq<Wlan>, prior: seq<Wlan>, placed: multiset<Slot>, running: seq<VapRun>) {
    && (forall i :: 0 <= i < |running| ==> running[i].ssid == "" || !Removed(running[i].ssid, prior, desired))
    && (forall ssid :: ssid in EnabledSsids(desired) ==>
          multiset(EnabledSsids(desired))[ssid] <= Proven(ssid, placed, running))
  }

  predicate SettleReady(b: Bookkeeping, table: Option<seq<Row>>) {
    && b.pendingSha.Some?
    && table.Some?
    && DeliveryProven(DecodedOr(b.pendingWlans), DecodedOr(b.pendingOld),
                      if b.placements.None? then multiset{} else b.placements.value,
                      EvidenceOf(table).running)
  }

  /** Settle on the bookkeeping rows; the materialization marker is handled by MarkerAfterSettle. */
  function Settled(b: Bookkeeping, table: Option<seq<Row>>): Bookkeeping {
    if !SettleReady(b, table) then b
    else b.(sha := b.pendingSha, applied := b.pendingWlans, status := StatusConfirmed,
            pendingSha := None, pendingWlans := None, placements := None, offeredCfg := None)
  }

  function MarkerAfterSettle(b: Bookkeeping, table: Option<seq<Row>>, marker: Option<Version>, cfg: Option<Version>): Option<Version> {
    if SettleReady(b, table) && marker.Some? && marker != cfg then None else marker
  }

  lemma IntersectOneMore(a: multiset<Slot>, s: Slot, p: multiset<Slot>)
    ensures |(a + multiset{s}) * p| == |a * p| + (if a[s] < p[s] then 1 else 0)
  {
    if a[s] < p[s] {
      assert (a + multiset{s}) * p == a * p + multiset{s};
    } else {
      assert (a + multiset{s}) * p == a * p;
    }
  }

  function At(m: map<string, int>, k: string): int {
    if k in m then m[k] else 0
  }

  function Left(planned: nat, used: nat): nat {
    if used < planned then planned - used else 0
  }

  lemma EnabledSnoc(wls: seq<Wlan>, i: nat)
    requires i < |wls|
    ensures multiset(EnabledSsids(wls[..i + 1])) ==
            multiset(EnabledSsids(wls[..i])) + (if wls[i].enabled then multiset{SsidOf(wls[i])} else multiset{})
  {
    assert wls[..i + 1][..i] == wls[..i];
  }

  ghost predicate Counts(need: map<string, int>, want: multiset<string>) {
    forall s: string :: At(need, s) == want[s]
  }

  lemma CountsOneMore(need: map<string, int>, want: multiset<string>, s: string)
    requires Counts(need, want)
    ensures Counts(need[s := At(need, s) + 1], want + multiset{s})
  {
  }

  /** need[ssid]: one per enabled desired entry. */
  method CountNeed(desired: seq<Wlan>) returns (need: map<string, int>)
    ensures Counts(need, multiset(EnabledSsids(desired)))
  {
    need := map[];
    assert multiset(EnabledSsids(desired[..0])) == multiset{};
    assert Counts(need, multiset{});
    hide Counts, EnabledSsids, SsidOf;
    for i := 0 to |desired|
      invariant Counts(need, multiset(EnabledSsids(desired[..i])))
    {
      EnabledSnoc(desired, i);
      if desired[i].enabled {
        CountsOneMore(need, multiset(EnabledSsids(desired[..i])), SsidOf(desired[i]));
        need := need[SsidOf(desired[i]) := At(need, SsidOf(desired[i])) + 1];
      }
    }
    assert desired[..|desired|] == desired;
  }

  /** What the two mutated maps hold after the rows in seen were walked. */
  ghost predicate LeftOver(placements: multiset<Slot>, placed: multiset<Slot>, seen: seq<VapRun>) {
    forall s: Slot :: s.ssid != "" ==> placements[s] == Left(placed[s], multiset(RunSlots(seen, s.ssid))[s])
  }

  ghost predicate StillNeeded(need: map<string, int>, want: multiset<string>, placed: multiset<Slot>, seen: seq<VapRun>) {
    forall s: string ::
      At(need, s) == if placed == multiset{} then Left(want[s], Proven(s, placed, seen)) else want[s] - Proven(s, placed, seen)
  }

  lemma CountingSkips(need: map<string, int>, want: multiset<string>, placements: multiset<Slot>, placed: multiset<Slot>, seen: seq<VapRun>, r: VapRun)
    requires r.ssid == ""
    requires LeftOver(placements, placed, seen) && StillNeeded(need, want, placed, seen)
    ensures LeftOver(placements, placed, seen + [r]) && StillNeeded(need, want, placed, seen + [r])
  {
    forall s: string | s != "" ensures RunSlots(seen + [r], s) == RunSlots(seen, s) {
      assert (seen + [r])[..|seen|] == seen;
    }
  }

  lemma RunSlotsSnoc(seen: seq<VapRun>, r: VapRun, s: string)
    ensures RunSlots(seen + [r], s) == if r.ssid == s then RunSlots(seen, s) + [Slot(s, r.radio)] else RunSlots(seen, s)
  {
    assert (seen + [r])[..|seen|] == seen;
  }

  lemma PlacementsStep(placements: multiset<Slot>, placed: multiset<Slot>, seen: seq<VapRun>, r: VapRun)
    requires r.ssid != "" && LeftOver(placements, placed, seen)
    ensures var slot := Slot(r.ssid, r.radio);
            LeftOver(if placements[slot] > 0 then placements - multiset{slot} else placements, placed, seen + [r])
  {
    var slot := Slot(r.ssid, r.radio);
    forall s: Slot | s.ssid != ""
      ensures multiset(RunSlots(seen + [r], s.ssid))[s] == multiset(RunSlots(seen, s.ssid))[s] + (if s == slot then 1 else 0)
    {
      RunSlotsSnoc(seen, r, s.ssid);
    }
  }

  lemma ProvenOther(placed: multiset<Slot>, seen: seq<VapRun>, r: VapRun, s: string)
    requires s != r.ssid
    ensures Proven(s, placed, seen + [r]) == Proven(s, placed, seen)
  {
    RunSlotsSnoc(seen, r, s);
  }

  lemma ProvenSame(placed: multiset<Slot>, seen: seq<VapRun>, r: VapRun)
    requires r.ssid != ""
    ensures var slot := Slot(r.ssid, r.radio);
            Proven(r.ssid, placed, seen + [r]) == Proven(r.ssid, placed, seen)
              + (if placed == multiset{} || multiset(RunSlots(seen, r.ssid))[slot] < placed[slot] then 1 else 0)
  {
    RunSlotsSnoc(seen, r, r.ssid);
    var slot := Slot(r.ssid, r.radio);
    var run := RunSlots(seen, r.ssid);
    assert multiset(run + [slot]) == multiset(run) + multiset{slot};
    IntersectOneMore(multiset(run), slot, placed);
  }

  lemma NeedStep(need: map<string, int>, want: multiset<string>, placements: multiset<Slot>, placed: multiset<Slot>, seen: seq<VapRun>, r: VapRun)
    requires r.ssid != ""
    requires LeftOver(placements, placed, seen) && StillNeeded(need, want, placed, seen)
    ensures var need' := need[r.ssid := At(need, r.ssid) - 1];
            StillNeeded(if placements[Slot(r.ssid, r.radio)] > 0 || (At(need, r.ssid) > 0 && placed == multiset{}) then need' else need,
                        want, placed, seen + [r])
  {
    var slot := Slot(r.ssid, r.radio);
    var need' := need[r.ssid := At(need, r.ssid) - 1];
    assert slot.ssid == r.ssid;
    assert placements[slot] == Left(placed[slot], multiset(RunSlots(seen, r.ssid))[slot]);
    ProvenSame(placed, seen, r);
    forall s: string | s != r.ssid ensures Proven(s, placed, seen + [r]) == Proven(s, placed, seen) && At(need', s) == At(need, s) {
      ProvenOther(placed, seen, r, s);
    }
  }

  lemma NeedDecides(need: map<string, int>, desired: seq<Wlan>, prior: seq<Wlan>, placed: multiset<Slot>, running: seq<VapRun>)
    requires StillNeeded(need, multiset(EnabledSsids(desired)), placed, running)
    requires forall k :: 0 <= k < |running| ==> running[k].ssid == "" || !Removed(running[k].ssid, prior, desired)
    ensures DeliveryProven(desired, prior, placed, running) <==> forall s :: s in EnabledSsids(desired) ==> At(need, s) <= 0
  {
    var want := multiset(EnabledSsids(desired));
    forall s: string ensures At(need, s) <= 0 <==> want[s] <= Proven(s, placed, running) {
    }
  }

  lemma CountingStarts(need: map<string, int>, want: multiset<string>, placed: multiset<Slot>)
    requires Counts(need, want)
    ensures LeftOver(placed, placed, []) && StillNeeded(need, want, placed, [])
  {
  }

  /** One RUN row that is not removed: the placement it fills, else the entry it proves. */
  method CountRunRow(need: map<string, int>, placements: multiset<Slot>, placed: multiset<Slot>, r: VapRun, ghost want: multiset<string>, ghost seen: seq<VapRun>)
    returns (need': map<string, int>, placements': multiset<Slot>)
    requires LeftOver(placements, placed, seen) && StillNeeded(need, want, placed, seen)
    ensures LeftOver(placements', placed, seen + [r]) && StillNeeded(need', want, placed, seen + [r])
  {
    need', placements' := need, placements;
    if r.ssid == "" {
      CountingSkips(need, want, placements, placed, seen, r);
      return;
    }
    PlacementsStep(placements, placed, seen, r);
    NeedStep(need, want, placements, placed, seen, r);
    var slot := Slot(r.ssid, r.radio);
    if placements[slot] > 0 {
      placements' := placements - multiset{slot};
      need' := need[r.ssid := At(need, r.ssid) - 1];
    } else if At(need, r.ssid) > 0 && placed == multiset{} {
      need' := need[r.ssid := At(need, r.ssid) - 1];
    }
  }

  ghost predicate NoneRemoved(running: seq<VapRun>, prior: seq<Wlan>, desired: seq<Wlan>) {
    forall i :: 0 <= i < |running| ==> running[i].ssid == "" || !Removed(running[i].ssid, prior, desired)
  }

  /** The counting loop of Settle: it gives up on the first removed SSID. */
  method WalkRunRows(desired: seq<Wlan>, prior: seq<Wlan>, placed: multiset<Slot>, running: seq<VapRun>, start: map<string, int>, ghost want: multiset<string>)
    returns (ok: bool, need: map<string, int>)
    requires Counts(start, want)
    ensures ok == NoneRemoved(running, prior, desired)
    ensures ok ==> StillNeeded(need, want, placed, running)
  {
    var placements := placed;
    need := start;
    CountingStarts(need, want, placed);
    var i := 0;
    ghost var seen: seq<VapRun> := [];
    while i < |running|
      invariant 0 <= i <= |running| && seen == running[..i]
      invariant LeftOver(placements, placed, seen)
      invariant StillNeeded(need, want, placed, seen)
      invariant NoneRemoved(seen, prior, desired)
    {
      var r := running[i];
      if r.ssid != "" && Removed(r.ssid, prior, desired) {
        return false, need;
      }
      need, placements := CountRunRow(need, placements, placed, r, want, seen);
      seen := seen + [r];
      i := i + 1;
    }
    assert seen == running;
    ok := true;
  }

  /** The verdict of Settle, loops and all, is DeliveryProven. */
  method CheckDelivery(desired: seq<Wlan>, prior: seq<Wlan>, placed: multiset<Slot>, running: seq<VapRun>) returns (ok: bool)
    ensures ok == DeliveryProven(desired, prior, placed, running)
  {
    var need := CountNeed(desired);
    ok, need := WalkRunRows(desired, prior, placed, running, need, multiset(EnabledSsids(desired)));
    if ok {
      NeedDecides(need, desired, prior, placed, running);
      ok := NothingNeeded(desired, need);
    }
  }

  /** The closing loop of Settle: no enabled desired entry is still needed. */
  method NothingNeeded(desired: seq<Wlan>, need: map<string, int>) returns (ok: bool)
    ensures ok == forall s :: s in EnabledSsids(desired) ==> At(need, s) <= 0
  {
    EnabledSsidsMembers(desired);
    for i := 0 to |desired|
      invariant forall k :: 0 <= k < i && desired[k].enabled ==> At(need, SsidOf(desired[k])) <= 0
    {
      if desired[i].enabled && At(need, SsidOf(desired[i])) > 0 {
        return false;
      }
    }
    ok := true;
  }

  lemma {:induction false} RunSlotsConcat(a: seq<VapRun>, b: seq<VapRun>, ssid: string)
    ensures RunSlots(a + b, ssid) == RunSlots(a, ssid) + RunSlots(b, ssid)
  {
    if b == [] {
      assert a + b == a;
    } else {
      var n := |b| - 1;
      RunSlotsConcat(a, b[..n], ssid);
      assert (a + b)[..|a + b| - 1] == a + b[..n];
    }
  }

  lemma CancelOne(x: multiset<VapRun>, y: multiset<VapRun>, e: VapRun)
    requires x + multiset{e} == y + multiset{e}
    ensures x == y
  {
    forall v: VapRun ensures x[v] == y[v] {
      assert (x + multiset{e})[v] == (y + multiset{e})[v];
    }
  }

  lemma {:induction false} RunSlotsPermuted(p: seq<VapRun>, q: seq<VapRun>, ssid: string)
    requires multiset(p) == multiset(q)
    ensures multiset(RunSlots(p, ssid)) == multiset(RunSlots(q, ssid))
  {
    if p == [] {
      assert |q| == |multiset(q)| == 0;
    } else {
      var n := |p| - 1;
      assert p == p[..n] + [p[n]];
      assert p[n] in multiset(q);
      var k :| 0 <= k < |q| && q[k] == p[n];
      var rest := q[..k] + q[k + 1..];
      assert q == q[..k] + [q[k]] + q[k + 1..];
      assert multiset(p) == multiset(p[..n]) + multiset{p[n]};
      assert multiset(q) == multiset(rest) + multiset{p[n]};
      CancelOne(multiset(p[..n]), multiset(rest), p[n]);
      RunSlotsPermuted(p[..n], rest, ssid);
      RunSlotsConcat(q[..k] + [q[k]], q[k + 1..], ssid);
      RunSlotsConcat(q[..k], [q[k]], ssid);
      RunSlotsConcat(q[..k], q[k + 1..], ssid);
      RunSlotsConcat(p[..n], [p[n]], ssid);
    }
  }

  /** The order in which a device lists its RUN rows never changes the verdict. */
  lemma SettleOrderIndependent(desired: seq<Wlan>, prior: seq<Wlan>, placed: multiset<Slot>, p: seq<VapRun>, q: seq<VapRun>)
    requires multiset(p) == multiset(q)
    ensures DeliveryProven(desired, prior, placed, p) == DeliveryProven(desired, prior, placed, q)
  {
    forall ssid ensures Proven(ssid, placed, p) == Proven(ssid, placed, q) {
      RunSlotsPermuted(p, q, ssid);
      assert |RunSlots(p, ssid)| == |multiset(RunSlots(p, ssid))| && |RunSlots(q, ssid)| == |multiset(RunSlots(q, ssid))|;
    }
    forall i | 0 <= i < |p| ensures p[i] in q { assert p[i] in multiset(q); }
    forall i | 0 <= i < |q| ensures q[i] in p { assert q[i] in multiset(p); }
  }

  // ---- Offer ---------------------------------------------------------------------------

  function Offered(b: Bookkeeping, cur: Hash, now: int, wls: seq<Wlan>, placed: multiset<Slot>, cfg: Version): Bookkeeping {
    b.(pendingSha := Some(cur),
       attemptSha := Some(cur),
       attempts := if b.attemptSha != Some(cur) then 1 else b.attempts + 1,
       lastAttempt := now,
       status := StatusPending,
       offeredCfg := Some(cfg),
       pendingOld := if b.applied.Some? then b.applied else b.pendingOld,
       pendingWlans := Some(EncodeStoredWlans(wls)),
       placements := Some(placed))
  }

  // ---- retry budget -----------------------------------------------------------------------

  const MAX_ATTEMPTS := 6
  const RETRY_BASE := 2
  const RETRY_MAX := 60

  function Pow2(n: nat): nat {
    if n == 0 then 1 else 2 * Pow2(n - 1)
  }

  function RetryDelay(attempts: nat): nat {
    var delay := RETRY_BASE * Pow2(if attempts == 0 then 0 else attempts - 1);
    if delay > RETRY_MAX then RETRY_MAX else delay
  }

  predicate RetryDue(b: Bookkeeping, now: int) {
    b.attempts < MAX_ATTEMPTS && (b.lastAttempt == 0 || now >= b.lastAttempt + RetryDelay(b.attempts))
  }

  /** RetryDue's write: the status flips at the cap. */
  function AfterRetryCheck(b: Bookkeeping): Bookkeeping {
    if b.attempts >= MAX_ATTEMPTS then b.(status := StatusExhausted) else b
  }

  // ---- not-running evidence ---------------------------------------------------------------

  datatype NotRunning = Unknown | Run | Miss

  function RunSsids(running: seq<VapRun>): set<string> {
    set i | 0 <= i < |running| :: running[i].ssid
  }

  function EnabledSet(wls: seq<Wlan>): set<string> {
    set s | s in EnabledSsids(wls)
  }

  function NotRunningEvidence(b: Bookkeeping, table: Option<seq<Row>>): NotRunning {
    var ev := EvidenceOf(table);
    if ev.rows == 0 || b.applied.None? then Unknown
    else
      var need := EnabledSet(DecodeStoredWlans(b.applied.value));
      if need == {} then Unknown
      else if need <= RunSsids(ev.running) then Run
      else Miss
  }
}
