/**
 The inform cycle in the form the controller runs it: methods that assign fields of a
 working copy of the record, proved against the step functions of Engine.
 (internal/server/adoption/engine.go, internal/wireless/delivery_state.go,
 internal/server/server.go)
 */
module Adapter {
  import opened Options
  import opened Text
  import opened Wlans
  import opened Plan
  import opened Delivery
  import opened BlockedSta
  import opened Engine

  /** store.Device, the fields the decision reads and writes. */
  class Device {
    var state: State
    var xAuthkey: Option<Key>
    var authkeys: seq<Key>
    var keyConfirmed: bool
    var cfgVersion: Option<Version>
    var appliedCfg: Option<Version>
    var lastSeen: int
    var extra: Extra

    function View(): Record
      reads this
    {
      Record(state, xAuthkey, authkeys, keyConfirmed, cfgVersion, appliedCfg, lastSeen, extra)
    }

    /** CloneDevice: a detached copy. */
    constructor Clone(d: Device)
      ensures View() == d.View()
    {
      state, xAuthkey, authkeys, keyConfirmed := d.state, d.xAuthkey, d.authkeys, d.keyConfirmed;
      cfgVersion, appliedCfg, lastSeen, extra := d.cfgVersion, d.appliedCfg, d.lastSeen, d.extra;
    }

    /** Absorb and the session refresh, the two steps before the decision. */
    method AbsorbInform(body: Body, now: int)
      modifies this
      ensures View() == RefreshEvent(Engine.Absorb(old(View()), body, now), body)
    {
      extra := extra.(vapTable := body.vapTable);
      if body.radioTable.Some? {
        extra := extra.(radioTable := body.radioTable);
      }
      if body.cfgVersion.Some? {
        appliedCfg := body.cfgVersion;
      }
      lastSeen := now;
      if body.disconnectSeen {
        extra := extra.(disconnectPending := true);
      }
    }

    /** AddBlockedClient: None for an unparseable spelling, else whether the row changed. */
    method BlockClient(client: string) returns (changed: Option<bool>)
      modifies this`extra
      ensures var added := AddBlockedClient(old(extra.blocked), client);
              && changed == (if added.None? then None else Some(added.value.1))
              && extra == old(extra).(blocked := if added.None? then old(extra.blocked) else added.value.0)
    {
      var c := CanonicalMac(client);
      if c.None? {
        return None;
      }
      var clients := ReadBlockedClients(extra.blocked);
      if c.value in clients {
        return Some(false);
      }
      BlockedClientsMeaning(extra.blocked);
      InsertMembers(c.value, clients);
      InsertIncreasing(c.value, clients);
      clients := SortStrings(clients + [c.value], Insert(c.value, clients));
      extra := extra.(blocked := clients);
      changed := Some(true);
    }

    /** RemoveBlockedClient */
    method UnblockClient(client: string) returns (changed: Option<bool>)
      modifies this`extra
      ensures var removed := RemoveBlockedClient(old(extra.blocked), client);
              && changed == (if removed.None? then None else Some(removed.value.1))
              && extra == old(extra).(blocked := if removed.None? then old(extra.blocked) else removed.value.0)
    {
      var c := CanonicalMac(client);
      if c.None? {
        return None;
      }
      var clients := ReadBlockedClients(extra.blocked);
      if c.value !in clients {
        return Some(false);
      }
      var kept := FilterOut(clients, c.value);
      extra := extra.(blocked := kept);
      changed := Some(true);
    }

    /** saveIntent: the verb's change, then one fresh cfgversion when it was effective. */
    method SaveIntent(save: Save, next: nat) returns (next': nat)
      modifies this
      ensures (View(), next') == Engine.SaveIntent(old(View()), save, next)
    {
      hide AddBlockedClient, RemoveBlockedClient, EncodeStoredWlans;
      next' := next;
      match save {
        case Bookkeep =>
        case EffectiveSave =>
          cfgVersion := Some(Stamp(next));
          next' := next + 1;
        case Block(c) =>
          var _ := BlockClient(c);
        case Unblock(c) =>
          var _ := UnblockClient(c);
        case ArmReboot => extra := extra.(rebootArmed := true);
        case ArmReset => extra := extra.(setdefaultArmed := true);
        case Enqueue(cmd) =>
          if cmd != "" { extra := extra.(cmdTask := Some(cmd)); }
        case PutWlans(wls) =>
          extra := extra.(deviceWlans := if wls == [] then None else Some(EncodeStoredWlans(wls)));
      }
    }

    /** One record of the lost sweep, its conditions checked again inside the cycle. */
    method SweepLost(now: int)
      modifies this`state
      ensures View() == Engine.SweepLost(old(View()), now)
    {
      if state != Adopted || lastSeen <= 0 {
        return;
      }
      if now - lastSeen <= LOST_AFTER {
        return;
      }
      state := Lost;
    }
  }

  method FilterOut(s: seq<string>, c: string) returns (kept: seq<string>)
    ensures kept == WithoutClient(s, c)
  {
    kept := [];
    var i := |s|;
    while i > 0
      invariant 0 <= i <= |s| && kept == WithoutClient(s[i..], c)
    {
      i := i - 1;
      assert s[i..][1..] == s[i + 1..];
      if s[i] != c {
        kept := [s[i]] + kept;
      }
    }
    assert s[0..] == s;
  }

  /** The injected random source: serials in order until it fails. */
  class KeySource {
    var next: nat
    var left: nat

    function View(): Gen
      reads this
    {
      Gen(next, left)
    }

    constructor (next: nat, left: nat)
      ensures View() == Gen(next, left)
    {
      this.next, this.left := next, left;
    }

    method KeyChars() returns (r: Option<nat>)
      modifies this
      ensures r.Some? == (old(left) > 0)
      ensures r.Some? ==> r.value == old(next) && next == old(next) + 1 && left == old(left) - 1
      ensures r.None? ==> View() == old(View())
    {
      if left == 0 {
        return None;
      }
      r := Some(next);
      next, left := next + 1, left - 1;
    }
  }

  // ---- delivery state ------------------------------------------------------------------------

  /** Typed copies of the delivery rows beside the record they were loaded from. */
  class DeliveryState {
    const dev: Device
    var sha: Option<Hash>
    var pendingSha: Option<Hash>
    var pendingWlans: seq<Wlan>
    var priorWlans: seq<Wlan>
    var applied: Option<Blob>
    var placements: Option<multiset<Slot>>
    var attemptSha: Option<Hash>
    var attempts: nat
    var lastAttempt: int
    var notRunningMisses: nat
    var vapMisses: nat
    var offeredCfg: Option<Version>

    /** The copies agree with the rows; the applied snapshot is only guaranteed before Settle. */
    ghost predicate Mirrors()
      reads this, dev
    {
      var b := dev.extra.delivery;
      && sha == b.sha && pendingSha == b.pendingSha
      && pendingWlans == DecodedOr(b.pendingWlans) && priorWlans == DecodedOr(b.pendingOld)
      && placements == b.placements && attemptSha == b.attemptSha && attempts == b.attempts
      && lastAttempt == b.lastAttempt && notRunningMisses == b.notRunningMisses
      && offeredCfg == b.offeredCfg && vapMisses == dev.extra.vapMisses
    }

    /** LoadDeliveryState. */
    constructor (d: Device)
      ensures dev == d && Mirrors() && applied == d.extra.delivery.applied
    {
      var b := d.extra.delivery;
      dev := d;
      sha, pendingSha, pendingWlans, priorWlans := b.sha, b.pendingSha, DecodedOr(b.pendingWlans), DecodedOr(b.pendingOld);
      applied, placements, attemptSha, attempts := b.applied, b.placements, b.attemptSha, b.attempts;
      lastAttempt, notRunningMisses, offeredCfg := b.lastAttempt, b.notRunningMisses, b.offeredCfg;
      vapMisses := d.extra.vapMisses;
    }

    /** The evidence half of Settle: nothing is written. */
    method ReadyToSettle() returns (ok: bool)
      requires Mirrors()
      ensures ok == SettleReady(dev.extra.delivery, dev.extra.vapTable)
    {
      hide DeliveryProven, DecodeStoredWlans, RunningRows;
      if pendingSha.None? {
        return false;
      }
      var ev := ReadVapEvidence(dev.extra.vapTable);
      if !ev.present {
        return false;
      }
      ok := CheckDelivery(pendingWlans, priorWlans, if placements.None? then multiset{} else placements.value, ev.running);
    }

    /** Settle: promotes the offer exactly when SettleReady holds, and writes nothing otherwise. */
    method Settle(cfg: Option<Version>)
      requires Mirrors()
      modifies this, dev`extra
      ensures Mirrors()
      ensures dev.extra == old(dev.extra).(
                delivery := Settled(old(dev.extra.delivery), dev.extra.vapTable),
                marker := MarkerAfterSettle(old(dev.extra.delivery), dev.extra.vapTable, old(dev.extra.marker), cfg))
    {
      hide SettleReady, DecodeStoredWlans;
      var ok := ReadyToSettle();
      if !ok {
        return;
      }
      var x := dev.extra;
      var b := x.delivery;
      dev.extra := x.(
        marker := if x.marker.Some? && x.marker != cfg then None else x.marker,
        delivery := b.(sha := pendingSha, applied := b.pendingWlans, status := StatusConfirmed,
                       pendingSha := None, pendingWlans := None, placements := None, offeredCfg := None));
      sha := pendingSha;
      pendingSha, pendingWlans, placements, offeredCfg := None, [], None, None;
    }

    /** Offer: one delivery attempt. */
    method Offer(cur: Hash, now: int, wls: seq<Wlan>, placed: multiset<Slot>, cfg: Version)
      requires Mirrors() && applied == dev.extra.delivery.applied
      modifies dev`extra
      ensures dev.extra == old(dev.extra).(delivery := Offered(old(dev.extra.delivery), cur, now, wls, placed, cfg))
    {
      var b := dev.extra.delivery.(pendingSha := Some(cur));
      if attemptSha != Some(cur) {
        b := b.(attemptSha := Some(cur), attempts := 1);
      } else {
        b := b.(attempts := attempts + 1);
      }
      b := b.(lastAttempt := now, status := StatusPending, offeredCfg := Some(cfg));
      if applied.Some? {
        b := b.(pendingOld := applied);
      }
      b := b.(pendingWlans := Some(EncodeStoredWlans(wls)), placements := Some(placed));
      dev.extra := dev.extra.(delivery := b);
    }

    /** RetryDue: the status flips to exhausted at the cap. */
    method CheckRetry(now: int) returns (due: bool)
      requires Mirrors()
      modifies dev`extra
      ensures due == RetryDue(old(dev.extra.delivery), now)
      ensures dev.extra == old(dev.extra).(delivery := AfterRetryCheck(old(dev.extra.delivery)))
    {
      if attempts >= MAX_ATTEMPTS {
        dev.extra := dev.extra.(delivery := dev.extra.delivery.(status := StatusExhausted));
        return false;
      }
      due := lastAttempt == 0 || now >= lastAttempt + RetryDelay(attempts);
    }

    /** NotRunningEvidence: re-reads the applied snapshot, which Settle may have promoted. */
    method Classify() returns (c: NotRunning)
      ensures c == NotRunningEvidence(dev.extra.delivery, dev.extra.vapTable)
    {
      hide EnabledSet, RunSsids, DecodeStoredWlans, RunningRows;
      var ev := ReadVapEvidence(dev.extra.vapTable);
      if ev.rows == 0 || dev.extra.delivery.applied.None? {
        return Unknown;
      }
      var need := NeededSsids(DecodeStoredWlans(dev.extra.delivery.applied.value));
      if need == {} {
        return Unknown;
      }
      var left := WithoutRunning(need, ev.running);
      assert left == {} <==> need <= RunSsids(ev.running) by {
        if left == {} {
          forall s | s in need ensures s in RunSsids(ev.running) { assert s !in left; }
        }
      }
      c := if left == {} then Run else Miss;
    }

    /** RecordNotRunningMiss, or its reset for 0. */
    method SetNotRunningMisses(n: nat)
      requires Mirrors()
      modifies this`notRunningMisses, dev`extra
      ensures Mirrors()
      ensures dev.extra == old(dev.extra).(delivery := old(dev.extra.delivery).(notRunningMisses := n))
    {
      notRunningMisses := n;
      dev.extra := dev.extra.(delivery := dev.extra.delivery.(notRunningMisses := n));
    }

    /** RecordVapNotRunningMiss, or its reset for 0. */
    method SetVapMisses(n: nat)
      requires Mirrors()
      modifies this`vapMisses, dev`extra
      ensures Mirrors()
      ensures dev.extra == old(dev.extra).(vapMisses := n)
    {
      vapMisses := n;
      dev.extra := dev.extra.(vapMisses := n);
    }
  }

  /** The enabled applied SSIDs, collected entry by entry. */
  method NeededSsids(wls: seq<Wlan>) returns (need: set<string>)
    ensures need == EnabledSet(wls)
  {
    need := {};
    for i := 0 to |wls|
      invariant need == EnabledSet(wls[..i])
    {
      assert wls[..i + 1][..i] == wls[..i];
      if wls[i].enabled {
        need := need + {SsidOf(wls[i])};
      }
    }
    assert wls[..|wls|] == wls;
  }

  /** Deletes every SSID a RUN row carries. */
  method WithoutRunning(need: set<string>, running: seq<VapRun>) returns (left: set<string>)
    ensures left == need - RunSsids(running)
  {
    left := need;
    for i := 0 to |running|
      invariant forall s :: s in left <==> s in need && forall k :: 0 <= k < i ==> running[k].ssid != s
    {
      left := left - {running[i].ssid};
    }
  }

  // ---- the decision ----------------------------------------------------------------------------

  /** What a method that stands for a Verdict function promises. */
  ghost predicate Agrees(v: Verdict, out: Result<Outcome, Refusal>, d: Record, g: Gen) {
    if v.Failure? then out.Failure? && out.error == v.error
    else out == Success(v.value.out) && d == v.value.rec && g == v.value.gen
  }

  method Mint(d: Device, keys: KeySource) returns (ok: bool)
    modifies d`cfgVersion, keys
    ensures ok == MintVersion(old(d.View()), old(keys.View())).Success?
    ensures ok ==> (d.View(), keys.View()) == MintVersion(old(d.View()), old(keys.View())).value
    ensures !ok ==> old(keys.left) == 0
  {
    var serial := keys.KeyChars();
    if serial.None? {
      return false;
    }
    d.cfgVersion := Some(Stamp(serial.value));
    ok := true;
  }

  /** armedLifecycle: fires and consumes at most one armed command. */
  method FireArmed(d: Device) returns (out: Option<Outcome>)
    modifies d
    ensures match ArmedLifecycle(old(d.View()))
            case None => out.None? && d.View() == old(d.View())
            case Some(a) => out == Some(a.1) && d.View() == a.0
  {
    if d.extra.setdefaultArmed {
      d.state := Pending;
      d.xAuthkey, d.cfgVersion, d.appliedCfg := None, None, None;
      d.authkeys := [];
      d.keyConfirmed := false;
      d.extra := Swept(d.extra);
      d.extra := d.extra.(setdefaultArmed := false);
      d.extra := d.extra.(rebootArmed := false);
      d.extra := d.extra.(cmdTask := None);
      return Some(Setdefault);
    }
    if d.extra.rebootArmed {
      d.extra := d.extra.(rebootArmed := false);
      d.extra := d.extra.(vapMisses := 0, delivery := d.extra.delivery.(notRunningMisses := 0));
      return Some(Reboot);
    }
    if d.extra.cmdTask.Some? {
      var task := d.extra.cmdTask.value;
      d.extra := d.extra.(cmdTask := None);
      return Some(Cmd(task));
    }
    out := None;
  }

  /** rotateKeys: a fresh key and version, keeping only the newest two keys. */
  method Rotate(d: Device, keys: KeySource) returns (ok: bool)
    modifies d, keys
    ensures ok == RotateKeys(old(d.View()), old(keys.View())).Success?
    ensures ok ==> (d.View(), keys.View()) == RotateKeys(old(d.View()), old(keys.View())).value
    ensures !ok ==> RotateKeys(old(d.View()), old(keys.View())) == Failure(NoEntropy)
  {
    var key := keys.KeyChars();
    if key.None? {
      return false;
    }
    var cfg := keys.KeyChars();
    if cfg.None? {
      return false;
    }
    d.xAuthkey := Some(DeviceKey(key.value));
    d.cfgVersion := Some(Stamp(cfg.value));
    d.authkeys := AddKey(d.authkeys, DeviceKey(key.value));
    if |d.authkeys| > 2 {
      d.authkeys := d.authkeys[|d.authkeys| - 2..];
    }
    d.state := Adopting;
    ok := true;
  }

  /** assignedKeyFlow: the single emission point of full provisioning. */
  method Provision(d: Device, req: Request, plan: ProvisioningPlan, keys: KeySource) returns (out: Result<Outcome, Refusal>)
    modifies d, keys
    ensures Agrees(AssignedKeyFlow(old(d.View()), req, plan, old(keys.View())), out, d.View(), keys.View())
  {
    if d.cfgVersion.None? {
      var ok := Mint(d, keys);
      if !ok {
        return Failure(NoEntropy);
      }
    }
    d.state := Adopting;
    if !req.renders {
      return Failure(RenderFailed);
    }
    var st := new DeliveryState(d);
    st.Offer(plan.driftHash, req.now, plan.wlans, plan.placements, d.cfgVersion.value);
    var wire := BlockedStaWire(d.extra.blocked);
    d.extra := d.extra.(blockedSha := Some(Sha256(wire)));
    d.extra := d.extra.(disconnectPending := false);
    out := Success(FullProvision(d.cfgVersion.value, plan, wire));
  }

  lemma NoneMissing(missing: seq<string>, vaps: seq<VapPlan>, table: Option<seq<Row>>)
    requires forall n :: n in missing <==> n in MissingVaps(vaps, table)
    ensures |missing| == 0 <==> MissingVaps(vaps, table) == {}
  {
    hide MissingVaps;
    if |missing| > 0 { assert missing[0] in missing; }
    if MissingVaps(vaps, table) != {} { var n :| n in MissingVaps(vaps, table); }
  }

  /** The devname materialization watchdog. */
  method WatchDevnames(d: Device, st: DeliveryState, plan: ProvisioningPlan, keys: KeySource) returns (out: Result<Outcome, Refusal>)
    requires st.dev == d && st.Mirrors()
    modifies d, st
    ensures Agrees(DevnameWatchdog(old(d.View()), plan, keys.View()), out, d.View(), keys.View())
  {
    out := Success(Noop);
    var missing := FindMissing(plan.vaps, d.extra.vapTable);
    NoneMissing(missing, plan.vaps, d.extra.vapTable);
    if |missing| == 0 {
      st.SetVapMisses(0);
      d.extra := d.extra.(marker := None);
    } else if d.extra.rebootArmed {
    } else if d.extra.marker.Some? && d.extra.marker == d.cfgVersion {
      st.SetVapMisses(0);
    } else if st.vapMisses + 1 < 2 {
      st.SetVapMisses(st.vapMisses + 1);
    } else {
      st.SetVapMisses(0);
      d.extra := d.extra.(rebootArmed := true);
      d.extra := d.extra.(marker := d.cfgVersion);
      return;
    }
    d.state := Adopted;
  }

  /** The cfgversion-equality branch. */
  method AnswerConnected(d: Device, st: DeliveryState, plan: ProvisioningPlan, keys: KeySource) returns (out: Result<Outcome, Refusal>)
    requires st.dev == d && st.Mirrors()
    modifies d, st, keys
    ensures Agrees(Connected(old(d.View()), plan, old(keys.View())), out, d.View(), keys.View())
  {
    hide BlockedStaWire, Watchdogs;
    if st.sha.None? {
      var ok := Mint(d, keys);
      return if ok then Success(Noop) else Failure(NoEntropy);
    }
    if st.pendingSha.Some? {
      return Success(NoopPendingWlan);
    }
    if d.extra.disconnectPending {
      d.extra := d.extra.(disconnectPending := false);
      var wire := BlockedStaWire(d.extra.blocked);
      if wire != "" {
        d.state := Adopted;
        return Success(BlockedStaPush(wire));
      }
    }
    out := Watch(d, st, plan, keys);
  }

  /** The SSID watchdog, and the devname watchdog behind a RUN reading. */
  method Watch(d: Device, st: DeliveryState, plan: ProvisioningPlan, keys: KeySource) returns (out: Result<Outcome, Refusal>)
    requires st.dev == d && st.Mirrors()
    modifies d, st, keys
    ensures Agrees(Watchdogs(old(d.View()), plan, old(keys.View())), out, d.View(), keys.View())
  {
    hide NotRunningEvidence, DevnameWatchdog;
    var ev := st.Classify();
    match ev {
      case Unknown =>
        d.state := Adopted;
        out := Success(Noop);
      case Miss =>
        st.SetNotRunningMisses(st.notRunningMisses + 1);
        if st.notRunningMisses < 2 {
          d.state := Adopted;
          return Success(Noop);
        }
        st.SetNotRunningMisses(0);
        var ok := Mint(d, keys);
        return if ok then Success(Noop) else Failure(NoEntropy);
      case Run =>
        st.SetNotRunningMisses(0);
        out := WatchDevnames(d, st, plan, keys);
    }
  }

  /** The drift phase of decideEncrypted, up to the pending gate. */
  method DetectDrift(d: Device, st: DeliveryState, cur: Hash, keys: KeySource) returns (ok: bool, wlanDrift: bool, blockedDrift: bool)
    requires st.dev == d && st.Mirrors()
    modifies d, st, keys
    ensures st.Mirrors()
    ensures var v := DriftPhase(old(d.View()), cur, old(keys.View()));
            && ok == v.Success?
            && (ok ==> (d.View(), keys.View(), wlanDrift || blockedDrift || st.pendingSha.Some?) == v.value
                       && blockedDrift == BlockedDrift(d.extra))
            && (!ok ==> v == Failure(NoEntropy))
  {
    hide SettleReady, BlockedStaWire;
    st.Settle(d.cfgVersion);
    wlanDrift, blockedDrift := false, false;
    if st.sha.Some? && cur != st.sha.value {
      wlanDrift := true;
      if st.pendingSha != Some(cur) {
        ok := Mint(d, keys);
        if !ok { return; }
      }
    }
    if BlockedDrift(d.extra) {
      blockedDrift := true;
      ok := Mint(d, keys);
      if !ok { return; }
    }
    ok := true;
  }

  method AnswerByKey(d: Device, st: DeliveryState, req: Request, plan: ProvisioningPlan, keys: KeySource, drift: bool) returns (out: Result<Outcome, Refusal>)
    requires st.dev == d && st.Mirrors()
    modifies d, st, keys
    ensures Agrees(DecideKey(old(d.View()), req, plan, old(keys.View()), drift), out, d.View(), keys.View())
  {
    if req.usedKey == FactoryKey {
      var ok := Rotate(d, keys);
      return if ok then Success(PushFor(d.View(), Some(req.usedKey))) else Failure(NoEntropy);
    }
    if d.xAuthkey != Some(req.usedKey) {
      return Success(PushFor(d.View(), Some(req.usedKey)));
    }
    if !drift && d.cfgVersion.Some? && d.appliedCfg == d.cfgVersion {
      out := AnswerConnected(d, st, plan, keys);
    } else {
      out := Provision(d, req, plan, keys);
    }
  }

  /** The pending gate: an unchanged offer waits for its retry unless blocked or operator content is due. */
  method HoldPending(d: Device, st: DeliveryState, cur: Hash, blockedDrift: bool, now: int) returns (held: bool)
    requires st.dev == d && st.Mirrors() && blockedDrift == BlockedDrift(d.extra)
    modifies d`extra
    ensures held == HeldAtGate(old(d.View()), cur, now)
    ensures d.extra == if held then old(d.extra).(delivery := AfterRetryCheck(old(d.extra.delivery))) else old(d.extra)
    ensures st.Mirrors()
  {
    hide BlockedDrift;
    if st.pendingSha.None? {
      return false;
    }
    var operatorMint := st.offeredCfg.Some? && d.cfgVersion != st.offeredCfg;
    if !blockedDrift && !operatorMint && st.pendingSha.value == cur {
      var due := st.CheckRetry(now);
      return !due;
    }
    held := false;
  }

  /** decideEncrypted. */
  method AnswerEncrypted(d: Device, req: Request, plan: ProvisioningPlan, keys: KeySource) returns (out: Result<Outcome, Refusal>)
    modifies d, keys
    ensures Agrees(DecideEncrypted(old(d.View()), req, plan, old(keys.View())), out, d.View(), keys.View())
  {
    hide DriftPhase, DecideKey, ArmedLifecycle, BlockedDrift, HeldAtGate;
    if req.usedKey == FactoryKey && d.state != Pending && (d.state != Adopting || d.keyConfirmed) {
      return Failure(DefaultKeyRejected);
    }
    if GentleNoop(req.body.kind) {
      return Success(Noop);
    }
    var armed := FireArmed(d);
    if armed.Some? {
      return Success(armed.value);
    }
    var st := new DeliveryState(d);
    var ok, wlanDrift, blockedDrift := DetectDrift(d, st, plan.driftHash, keys);
    if !ok {
      return Failure(NoEntropy);
    }
    var held := HoldPending(d, st, plan.driftHash, blockedDrift, req.now);
    if held {
      return Success(NoopPendingWlan);
    }
    out := AnswerByKey(d, st, req, plan, keys, wlanDrift || blockedDrift || st.pendingSha.Some?);
  }

  /** decidePlain. */
  method AnswerPlain(d: Device, req: Request, plan: ProvisioningPlan, keys: KeySource) returns (out: Result<Outcome, Refusal>)
    modifies d, keys
    ensures Agrees(DecidePlain(old(d.View()), req, plan, old(keys.View())), out, d.View(), keys.View())
  {
    if GentleNoop(req.body.kind) {
      return Success(Noop);
    }
    if d.xAuthkey == Some(req.usedKey) {
      var armed := FireArmed(d);
      if armed.Some? {
        return Success(armed.value);
      }
    }
    if d.xAuthkey.None? {
      return Success(Noop);
    }
    if d.xAuthkey != Some(req.usedKey) {
      return Success(PushFor(d.View(), d.xAuthkey));
    }
    out := Provision(d, req, plan, keys);
  }

  // ---- deltas and the cycle -------------------------------------------------------------------------

  /** The record deltas of an Outcome: a field is set only when the decision changed it. */
  datatype Deltas = Deltas(
    state: Option<State>, xAuthkey: Option<Option<Key>>, cfgVersion: Option<Option<Version>>,
    appliedCfg: Option<Option<Version>>, authkeys: Option<seq<Key>>, keyConfirmed: Option<bool>, extra: Extra)

  function DeltasOf(snapshot: Record, work: Record): Deltas {
    Deltas(
      if work.state != snapshot.state then Some(work.state) else None,
      if work.xAuthkey != snapshot.xAuthkey then Some(work.xAuthkey) else None,
      if work.cfgVersion != snapshot.cfgVersion then Some(work.cfgVersion) else None,
      if work.appliedCfg != snapshot.appliedCfg then Some(work.appliedCfg) else None,
      if work.authkeys != snapshot.authkeys then Some(work.authkeys) else None,
      if work.keyConfirmed != snapshot.keyConfirmed then Some(work.keyConfirmed) else None,
      work.extra)
  }

  /** Decide: works on a clone and leaves the handed record alone. */
  method DecideInform(rec: Device, req: Request, keys: KeySource) returns (out: Result<(Outcome, Deltas), Refusal>)
    modifies keys
    ensures var v := Decide(rec.View(), req, old(keys.View()));
            if v.Failure? then out.Failure? && out.error == v.error
            else out == Success((v.value.out, DeltasOf(rec.View(), v.value.rec))) && keys.View() == v.value.gen
  {
    hide DecideEncrypted, DecidePlain, PlanOf;
    var work := new Device.Clone(rec);
    var plan := PlanOf(work.extra);
    var answer: Result<Outcome, Refusal>;
    if req.plaintext {
      answer := AnswerPlain(work, req, plan, keys);
    } else {
      answer := AnswerEncrypted(work, req, plan, keys);
    }
    if answer.Failure? {
      return Failure(answer.error);
    }
    var i := 0;
    while i < |work.authkeys| && work.authkeys[i] != req.usedKey
      invariant 0 <= i <= |work.authkeys| && req.usedKey !in work.authkeys[..i]
    {
      i := i + 1;
    }
    if i < |work.authkeys| {
      work.keyConfirmed := true;
    }
    out := Success((answer.value, DeltasOf(rec.View(), work.View())));
  }

  /** applyOutcome: the deltas land on the record inside the read-modify-write cycle. */
  method ApplyOutcome(rec: Device, d: Deltas)
    modifies rec
    ensures forall work: Record :: d == DeltasOf(old(rec.View()), work) && work.lastSeen == old(rec.lastSeen) ==> rec.View() == work
  {
    if d.state.Some? { rec.state := d.state.value; }
    if d.xAuthkey.Some? { rec.xAuthkey := d.xAuthkey.value; }
    if d.cfgVersion.Some? { rec.cfgVersion := d.cfgVersion.value; }
    if d.appliedCfg.Some? { rec.appliedCfg := d.appliedCfg.value; }
    if d.authkeys.Some? { rec.authkeys := d.authkeys.value; }
    if d.keyConfirmed.Some? { rec.keyConfirmed := d.keyConfirmed.value; }
    rec.extra := d.extra;
  }

  lemma KeyPathKeepsLastSeen(r: Record, req: Request, plan: ProvisioningPlan, g: Gen, drift: bool)
    ensures DecideKey(r, req, plan, g, drift).Success? ==> DecideKey(r, req, plan, g, drift).value.rec.lastSeen == r.lastSeen
  {
    hide BlockedStaWire, EncodeStoredWlans, NotRunningEvidence, MissingVaps, AddKey, NewestTwo;
  }

  lemma DecisionKeepsLastSeen(r: Record, req: Request, g: Gen)
    ensures Decide(r, req, g).Success? ==> Decide(r, req, g).value.rec.lastSeen == r.lastSeen
  {
    hide PlanOf, DriftPhase, HeldAtGate, DecideKey, BlockedStaWire, EncodeStoredWlans, SettleReady;
    var plan := PlanOf(r.extra);
    if DriftPhase(r, plan.driftHash, g).Success? {
      DriftFrame(r, plan.driftHash, g);
      var (b, h, drift) := DriftPhase(r, plan.driftHash, g).value;
      KeyPathKeepsLastSeen(b, req, plan, h, drift);
    }
  }

  /**
   runInformCycle inside UpdateExisting: the cycle works on a detached copy of the stored
   record, and a refusal stores nothing.
   */
  method RunInformCycle(stored: Device, req: Request, keys: KeySource) returns (out: Result<Outcome, Refusal>)
    requires keys.left == req.entropy
    modifies stored, keys
    ensures var v := InformCycle(old(stored.View()), req, old(keys.next));
            if v.Failure? then out == Failure(v.error) && stored.View() == old(stored.View())
            else out == Success(v.value.out) && stored.View() == v.value.rec && keys.View() == v.value.gen
  {
    hide Decide;
    var rec := new Device.Clone(stored);
    rec.AbsorbInform(req.body, req.now);
    ghost var prepared := rec.View();
    DecisionKeepsLastSeen(prepared, req, keys.View());
    var decided := DecideInform(rec, req, keys);
    if decided.Failure? {
      return Failure(decided.error);
    }
    ApplyOutcome(rec, decided.value.1);
    stored.state, stored.xAuthkey, stored.authkeys, stored.keyConfirmed := rec.state, rec.xAuthkey, rec.authkeys, rec.keyConfirmed;
    stored.cfgVersion, stored.appliedCfg, stored.lastSeen, stored.extra := rec.cfgVersion, rec.appliedCfg, rec.lastSeen, rec.extra;
    out := Success(decided.value.0);
  }
}
