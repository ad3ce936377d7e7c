/**
 What each lane may tell and take: the plaintext lane never tells a key and takes an unproved claim
 for nothing, the encrypted lane refuses the factory key of a confirmed device, armed commands fire
 in order and once, and blocked clients reach the device.
 */
module Lanes {
  import opened Options
  import opened Text
  import opened Wlans
  import opened Plan
  import opened Delivery
  import opened BlockedSta
  import opened Engine
  import opened RecordInvariant
  import Convergence
  import BlockedRuns

  /** What absorbing the body and refreshing the sessions leave, and the confirmation an assigned key stamps. */
  predicate OnlyAbsorbed(r: Record, req: Request, n: Record) {
    n == r.(lastSeen := req.now, keyConfirmed := r.keyConfirmed || req.usedKey in r.authkeys,
            appliedCfg := if req.body.cfgVersion.Some? then req.body.cfgVersion else r.appliedCfg,
            extra := r.extra.(radioTable := if req.body.radioTable.Some? then req.body.radioTable else r.extra.radioTable,
                              vapTable := req.body.vapTable,
                              disconnectPending := r.extra.disconnectPending || req.body.disconnectSeen))
  }

  /** The inform types the decision answers; any other named one is a gentle noop. */
  predicate Answered(kind: string) {
    kind in ["", "info", "heartbeat", "cmd", "setparam", "setparam-ack", "cmd-ack", "alarms", "disconnect"]
  }

  // ---- the plaintext lane --------------------------------------------------------------------------

  /** Nobody is ever told a key in the clear. */
  lemma PlainTellsNoKey(r: Record, req: Request, next: nat)
    requires req.plaintext && InformCycle(r, req, next).Success?
    ensures var out := InformCycle(r, req, next).value.out; out.AdoptionPush? ==> out.authkey.None?
  {
    hide PlanOf, BlockedStaWire, AssignedKeyFlow;
    var p := Prepared(r, req);
    FlowPushesNothing(p, req, PlanOf(p.extra), Gen(next, req.entropy));
  }

  lemma FlowPushesNothing(r: Record, req: Request, plan: ProvisioningPlan, g: Gen)
    ensures AssignedKeyFlow(r, req, plan, g).Success? ==> AssignedKeyFlow(r, req, plan, g).value.out.FullProvision?
  {
    hide BlockedStaWire;
  }

  /**
   A claim that is not the assigned key gets the current version back and nothing else: no command
   fires, nothing is minted, no row moves beyond what the inform itself reported.
   */
  lemma PlainClaimUnproved(r: Record, req: Request, next: nat)
    requires req.plaintext && Answered(req.body.kind) && r.xAuthkey.Some? && req.usedKey != r.xAuthkey.value
    ensures var v := InformCycle(r, req, next);
            && v.Success? && v.value.out == AdoptionPush(None, r.cfgVersion) && v.value.gen == Gen(next, req.entropy)
            && OnlyAbsorbed(r, req, v.value.rec)
  {
    hide PlanOf, AssignedKeyFlow;
  }

  /** Without an assigned key the lane does nothing at all. */
  lemma PlainUnassigned(r: Record, req: Request, next: nat)
    requires req.plaintext && r.xAuthkey.None?
    ensures var v := InformCycle(r, req, next);
            v.Success? && v.value.out == Noop && v.value.gen == Gen(next, req.entropy) && OnlyAbsorbed(r, req, v.value.rec)
  {
    hide PlanOf, AssignedKeyFlow;
  }

  /** A matching claim with nothing armed is provisioned in full, from the radios just reported. */
  lemma PlainClaimProvisions(r: Record, req: Request, next: nat)
    requires req.plaintext && Answered(req.body.kind) && r.xAuthkey == Some(req.usedKey) && !Armed(r.extra) && req.entropy >= 1 && req.renders
    ensures var v := InformCycle(r, req, next);
            && v.Success? && v.value.out.FullProvision? && v.value.rec.state == Adopting
            && v.value.rec.cfgVersion == Some(v.value.out.cfg) && (r.cfgVersion.Some? ==> v.value.rec.cfgVersion == r.cfgVersion)
            && (r.cfgVersion.None? ==> v.value.out.cfg == Stamp(next))
            && v.value.out.blockedSta == BlockedStaWire(r.extra.blocked)
            && v.value.out.plan == PlanProvisioning(if req.body.radioTable.Some? then req.body.radioTable else r.extra.radioTable, DeviceWlans(r.extra))
            && v.value.rec.extra.delivery.pendingSha == Some(WlanListHash(DeviceWlans(r.extra)))
            && v.value.rec.authkeys == r.authkeys && v.value.rec.xAuthkey == r.xAuthkey
  {
    hide BlockedStaWire, PlanProvisioning, WlanListHash;
    var p := Prepared(r, req);
    Convergence.SameWlans(p.extra, r.extra);
    PlanHash(p.extra);
  }

  // ---- the encrypted lane ------------------------------------------------------------------------------

  /** The factory key is refused, ahead of everything, once a device proved its own key or was adopted; nothing is stored. */
  lemma FactoryKeyRefusedIff(w: World, req: Request)
    requires InvW(w) && !req.plaintext && req.usedKey == FactoryKey
    ensures InformCycle(w.rec, req, w.next) == Failure(DefaultKeyRejected) <==> w.rec.keyConfirmed || w.rec.state == Adopted || w.rec.state == Lost
    ensures w.rec.keyConfirmed ==> Next(w, Inform(req)).world == w && Next(w, Inform(req)).out == None
  {
    hide DecideStatus, PlanOf, BlockedStaWire;
    StatusNeverRefuses(Prepared(w.rec, req), req, PlanOf(Prepared(w.rec, req).extra), Gen(w.next, req.entropy));
  }

  lemma DriftNeverRefuses(r: Record, cur: Hash, g: Gen)
    ensures DriftPhase(r, cur, g) != Failure(DefaultKeyRejected)
  {
    hide SettleRecord, BlockedDrift;
  }

  lemma ConnectedNeverRefuses(r: Record, plan: ProvisioningPlan, g: Gen)
    ensures Connected(r, plan, g) != Failure(DefaultKeyRejected)
  {
    hide BlockedStaWire, NotRunningEvidence, MissingVaps;
  }

  lemma StatusNeverRefuses(r: Record, req: Request, plan: ProvisioningPlan, g: Gen)
    ensures DecideStatus(r, req, plan, g) != Failure(DefaultKeyRejected)
  {
    DriftNeverRefuses(r, plan.driftHash, g);
    hide DriftPhase, HeldAtGate, Connected, BlockedStaWire, EncodeStoredWlans;
    if DriftPhase(r, plan.driftHash, g).Success? {
      ConnectedNeverRefuses(DriftPhase(r, plan.driftHash, g).value.0, plan, DriftPhase(r, plan.driftHash, g).value.1);
    }
  }

  /** Types the controller does not know get a noop on both lanes, and leave no trace but the absorbed report. */
  lemma UnknownTypeIsNoop(w: World, req: Request)
    requires InvW(w) && !Answered(req.body.kind) && (req.plaintext || req.usedKey != FactoryKey)
    ensures var next := Next(w, Inform(req));
            next.out == Some(Noop) && OnlyAbsorbed(w.rec, req, next.world.rec) && next.world.next == w.next
  {
    hide PlanOf, DecideStatus, AssignedKeyFlow;
  }

  /** An inform under an older assigned key is sent the current one again, once nothing is held. */
  lemma OlderKeyIsRepushed(w: World, req: Request)
    requires InvW(w) && !req.plaintext && req.body.kind == "" && !Armed(w.rec.extra)
    requires req.usedKey in w.rec.authkeys && Some(req.usedKey) != w.rec.xAuthkey && w.rec.xAuthkey.Some?
    requires w.rec.extra.delivery.pendingSha.None? && !BlockedDrift(w.rec.extra)
    requires w.rec.extra.delivery.sha.Some? ==> w.rec.extra.delivery.sha == Some(WlanListHash(DeviceWlans(w.rec.extra)))
    ensures Next(w, Inform(req)).out == Some(AdoptionPush(w.rec.xAuthkey, w.rec.cfgVersion))
    ensures OnlyAbsorbed(w.rec, req, Next(w, Inform(req)).world.rec)
  {
    var r, g := Prepared(w.rec, req), Gen(w.next, req.entropy);
    Convergence.SameWlans(r.extra, w.rec.extra);
    Convergence.SameBlocked(r.extra, w.rec.extra);
    PlanHash(r.extra);
    assert req.usedKey != FactoryKey;
    hide BlockedDrift, DeviceWlans, PlanOf, DriftPhase, BlockedStaWire, WlanListHash, Connected, AssignedKeyFlow;
    Convergence.QuietDrift(r, PlanOf(r.extra).driftHash, g);
  }

  // ---- armed commands -----------------------------------------------------------------------------------------

  /** The inform is admitted to the armed commands: encrypted and not refused, or a proved plaintext claim. */
  predicate Admitted(r: Record, req: Request) {
    Answered(req.body.kind) && if req.plaintext then r.xAuthkey == Some(req.usedKey) else req.usedKey != FactoryKey
  }

  /** A factory reset outranks a reboot, which outranks a task; each is answered and consumed alone, and nothing is minted. */
  lemma CommandsInOrder(r: Record, req: Request, next: nat)
    requires Admitted(r, req)
    ensures var v := InformCycle(r, req, next); var x := r.extra;
            && (Armed(x) ==> v.Success? && v.value.gen == Gen(next, req.entropy))
            && (x.setdefaultArmed ==>
                  var n := v.value.rec;
                  && v.value.out == Setdefault && n.state == Pending && n.xAuthkey.None? && n.authkeys == [] && !n.keyConfirmed
                  && n.cfgVersion.None? && n.appliedCfg.None? && !Armed(n.extra) && n.extra.delivery == NoBookkeeping
                  && n.extra.blocked == x.blocked && n.extra.deviceWlans == x.deviceWlans)
            && (!x.setdefaultArmed && x.rebootArmed ==>
                  var n := v.value.rec;
                  && v.value.out == Reboot && !n.extra.rebootArmed && n.extra.cmdTask == x.cmdTask
                  && n.extra.vapMisses == 0 && n.extra.delivery == x.delivery.(notRunningMisses := 0) && n.extra.marker == x.marker
                  && n.cfgVersion == r.cfgVersion && n.state == r.state && n.xAuthkey == r.xAuthkey)
            && (!x.setdefaultArmed && !x.rebootArmed && x.cmdTask.Some? ==>
                  var n := v.value.rec;
                  && v.value.out == Cmd(x.cmdTask.value) && n.extra.cmdTask.None? && !Armed(n.extra)
                  && n.extra.delivery == x.delivery && n.cfgVersion == r.cfgVersion && n.state == r.state && n.xAuthkey == r.xAuthkey)
  {
    hide PlanOf, DecideStatus, AssignedKeyFlow;
  }

  /** What an operator armed is what the device's next admitted inform is answered with, when nothing stronger was armed before. */
  lemma VerbFires(w: World, req: Request, task: string)
    requires Admitted(w.rec, req) && task != ""
    ensures Next(Next(w, Admin(ArmReset)).world, Inform(req)).out == Some(Setdefault)
    ensures !w.rec.extra.setdefaultArmed ==> Next(Next(w, Admin(ArmReboot)).world, Inform(req)).out == Some(Reboot)
    ensures !w.rec.extra.setdefaultArmed && !w.rec.extra.rebootArmed ==> Next(Next(w, Admin(Enqueue(task))).world, Inform(req)).out == Some(Cmd(task))
  {
    hide InformCycle;
    CommandsInOrder(Next(w, Admin(ArmReset)).world.rec, req, w.next);
    CommandsInOrder(Next(w, Admin(ArmReboot)).world.rec, req, w.next);
    CommandsInOrder(Next(w, Admin(Enqueue(task))).world.rec, req, w.next);
  }

  /** A saved WLAN list is the one the next decision plans from, the empty list too, and no save but an effective one mints. */
  lemma SavedWlansAreTheRecords(w: World, wls: seq<Wlan>)
    ensures var s := Next(w, Admin(PutWlans(wls))).world;
            DeviceWlans(s.rec.extra) == wls && s == w.(rec := w.rec.(extra := w.rec.extra.(deviceWlans := s.rec.extra.deviceWlans)))
    ensures Next(w, Admin(EffectiveSave)).world == World(w.rec.(cfgVersion := Some(Stamp(w.next))), w.next + 1)
    ensures Next(w, Admin(Bookkeep)).world == w && Next(w, Admin(Enqueue(""))).world == w
  {
    hide EncodeStoredWlans, DecodeStoredWlans;
    StoredRoundTrip(wls);
  }

  /** A record is swept to lost exactly when it was adopted, was seen, and has been silent for more than 75 seconds; nothing else moves. */
  lemma SilenceIsLost(w: World, now: int)
    ensures var s := Next(w, Sweep(now)).world;
            && s == w.(rec := w.rec.(state := s.rec.state))
            && s.rec.state == if w.rec.state == Adopted && w.rec.lastSeen > 0 && now > w.rec.lastSeen + 75 then Lost else w.rec.state
  {
  }

  /** Silence counts from the last inform that was answered. */
  lemma SilenceSinceInform(w: World, req: Request, now: int)
    requires Next(w, Inform(req)).out.Some?
    ensures var a := Next(w, Inform(req)).world; a.rec.lastSeen == req.now && (now <= req.now + 75 ==> Next(a, Sweep(now)).world == a)
  {
    hide PlanOf, DriftPhase, HeldAtGate, AssignedKeyFlow, Connected;
    var p := Prepared(w.rec, req);
    var plan, g := PlanOf(p.extra), Gen(w.next, req.entropy);
    SeenByFlow(p, req, plan, g);
    if DriftPhase(p, plan.driftHash, g).Success? {
      var d := DriftPhase(p, plan.driftHash, g).value;
      DriftFrame(p, plan.driftHash, g);
      SeenByFlow(d.0, req, plan, d.1);
    }
  }

  lemma SeenByFlow(r: Record, req: Request, plan: ProvisioningPlan, g: Gen)
    ensures AssignedKeyFlow(r, req, plan, g).Success? ==> AssignedKeyFlow(r, req, plan, g).value.rec.lastSeen == r.lastSeen
    ensures Connected(r, plan, g).Success? ==> Connected(r, plan, g).value.rec.lastSeen == r.lastSeen
  {
    hide BlockedStaWire, NotRunningEvidence, MissingVaps;
  }

  // ---- blocked clients ------------------------------------------------------------------------------------------

  /** Position i of the wire is client i, and a line ends behind all but the last. */
  predicate Placed(wire: string, clients: seq<string>, i: nat)
    requires i < |clients|
  {
    && 18 * i + 17 <= |wire| && IsMac(clients[i]) && wire[18 * i..18 * i + 17] == ColonMac(clients[i])
    && (i < |clients| - 1 ==> 18 * i + 17 < |wire| && wire[18 * i + 17] == '\n')
  }

  /** The wire text of a set of clients: their colon spellings in increasing order, one a line. */
  ghost predicate WireFor(wire: string, clients: seq<string>) {
    && Increasing(clients) && (forall c :: c in clients ==> IsMac(c))
    && |wire| == (if clients == [] then 0 else 18 * |clients| - 1)
    && forall i :: 0 <= i < |clients| ==> Placed(wire, clients, i)
  }

  lemma PlacedLater(wire: string, head: string, tail: string, clients: seq<string>, i: nat)
    requires wire == head + "\n" + tail && |head| == 17 && 0 < i < |clients| && Placed(tail, clients[1..], i - 1)
    ensures Placed(wire, clients, i)
  {
    hide ColonMac, IsMac;
    assert wire[18..] == tail && clients[1..][i - 1] == clients[i];
    assert wire[18 * i..18 * i + 17] == tail[18 * (i - 1)..18 * (i - 1) + 17];
  }

  lemma {:induction false} JoinPlaces(clients: seq<string>)
    requires forall c :: c in clients ==> IsMac(c)
    ensures |Join(clients)| == (if clients == [] then 0 else 18 * |clients| - 1)
    ensures forall i :: 0 <= i < |clients| ==> Placed(Join(clients), clients, i)
  {
    hide ColonMac, IsMac;
    if |clients| > 1 {
      var rest := clients[1..];
      JoinPlaces(rest);
      var wire := Join(clients);
      assert clients[0] in clients && wire == ColonMac(clients[0]) + "\n" + Join(rest);
      forall i | 0 <= i < |clients| ensures Placed(wire, clients, i) {
        if i > 0 {
          PlacedLater(wire, ColonMac(clients[0]), Join(rest), clients, i);
        } else {
          assert wire[0..17] == ColonMac(clients[0]);
        }
      }
    } else if |clients| == 1 {
      assert clients[0] in clients && Join(clients)[0..17] == ColonMac(clients[0]);
    }
  }

  /** Whether a stored row blocks a client, in whichever spelling. */
  predicate Blocks(row: seq<string>, c: string) {
    exists i :: 0 <= i < |row| && CanonicalMac(row[i]) == Some(c)
  }

  /** The clients a full provisioning or a reconnect push carries. */
  ghost predicate CarriesExactly(wire: string, row: seq<string>) {
    exists clients :: WireFor(wire, clients) && forall c :: c in clients <==> Blocks(row, c)
  }

  lemma WireCarries(row: seq<string>)
    ensures CarriesExactly(BlockedStaWire(row), row)
  {
    hide CanonicalMac, Placed, Join, Blocks;
    BlockedClientsMeaning(row);
    JoinPlaces(BlockedClients(row));
    forall c ensures c in BlockedClients(row) <==> Blocks(row, c) { BlocksIsMember(row, c); }
    assert WireFor(BlockedStaWire(row), BlockedClients(row));
  }

  /** A block or unblock save changes whom the row blocks by exactly that client, and nothing else of the record. */
  lemma BlockSave(w: World, client: string, c: string)
    requires CanonicalMac(client).Some?
    ensures var b, u := Next(w, Admin(Block(client))).world, Next(w, Admin(Unblock(client))).world;
            && b == w.(rec := w.rec.(extra := w.rec.extra.(blocked := b.rec.extra.blocked)))
            && u == w.(rec := w.rec.(extra := w.rec.extra.(blocked := u.rec.extra.blocked)))
            && (Blocks(b.rec.extra.blocked, c) <==> Blocks(w.rec.extra.blocked, c) || c == CanonicalMac(client).value)
            && (Blocks(u.rec.extra.blocked, c) <==> Blocks(w.rec.extra.blocked, c) && c != CanonicalMac(client).value)
  {
    hide CanonicalMac, AddBlockedClient, RemoveBlockedClient, BlockedClients, Blocks;
    var row := w.rec.extra.blocked;
    AddNeedsMac(row, client);
    AddRemoveAreSetOperations(row, client);
    BlocksIsMember(row, c);
    BlocksIsMember(AddBlockedClient(row, client).value.0, c);
    BlocksIsMember(RemoveBlockedClient(row, client).value.0, c);
  }

  lemma BlocksIsMember(row: seq<string>, c: string)
    ensures Blocks(row, c) <==> c in BlockedClients(row)
  {
    hide CanonicalMac;
    BlockedClientsMeaning(row);
  }

  lemma AddNeedsMac(row: seq<string>, client: string)
    requires CanonicalMac(client).Some?
    ensures AddBlockedClient(row, client).Some? && RemoveBlockedClient(row, client).Some?
  {
  }

  /** The next provisioning carries whom the row blocks then: after a block the client too, after an unblock the client no more. */
  lemma BlockReachesDevice(w: World, client: string, req: Request)
    requires CanonicalMac(client).Some?
    ensures var b := Next(w, Admin(Block(client))).world; var out := Next(b, Inform(req)).out;
            out.Some? && out.value.FullProvision? ==> CarriesExactly(out.value.blockedSta, b.rec.extra.blocked) && Blocks(b.rec.extra.blocked, CanonicalMac(client).value)
    ensures var u := Next(w, Admin(Unblock(client))).world; var out := Next(u, Inform(req)).out;
            out.Some? && out.value.FullProvision? ==> CarriesExactly(out.value.blockedSta, u.rec.extra.blocked) && !Blocks(u.rec.extra.blocked, CanonicalMac(client).value)
  {
    hide Next, CanonicalMac, CarriesExactly, Blocks;
    var c := CanonicalMac(client).value;
    BlockSave(w, client, c);
    ProvisionCarries(Next(w, Admin(Block(client))).world, req);
    ProvisionCarries(Next(w, Admin(Unblock(client))).world, req);
  }

  lemma ProvisionCarries(w: World, req: Request)
    ensures var out := Next(w, Inform(req)).out;
            out.Some? && out.value.FullProvision? ==> CarriesExactly(out.value.blockedSta, w.rec.extra.blocked)
  {
    WireCarries(w.rec.extra.blocked);
    hide CarriesExactly, BlockedStaWire, Decide, Prepared;
    BlockedRuns.DecideBlocked(Prepared(w.rec, req), req, Gen(w.next, req.entropy));
    PreparedBlocked(w.rec, req);
  }

  lemma PreparedBlocked(r: Record, req: Request)
    ensures Prepared(r, req).extra.blocked == r.extra.blocked
  {
  }

  /** On a resting connected record, a standing disconnect is answered by pushing whom the row blocks, once. */
  lemma ReconnectPushes(w: World, req: Request)
    requires InvW(w) && !req.plaintext && Some(req.usedKey) == w.rec.xAuthkey && req.body.kind == "" && !Armed(w.rec.extra)
    requires w.rec.extra.delivery.pendingSha.None? && !BlockedDrift(w.rec.extra)
    requires w.rec.extra.delivery.sha == Some(WlanListHash(DeviceWlans(w.rec.extra)))
    requires w.rec.cfgVersion.Some? && req.body.cfgVersion == w.rec.cfgVersion
    requires w.rec.extra.disconnectPending || req.body.disconnectSeen
    requires exists c :: Blocks(w.rec.extra.blocked, c)
    ensures var next := Next(w, Inform(req));
            && next.out.Some? && next.out.value.BlockedStaPush? && CarriesExactly(next.out.value.wire, w.rec.extra.blocked)
            && !next.world.rec.extra.disconnectPending && next.world.rec.cfgVersion == w.rec.cfgVersion && next.world.next == w.next
  {
    var r, g := Prepared(w.rec, req), Gen(w.next, req.entropy);
    WireCarries(w.rec.extra.blocked);
    SomeoneBlocked(w.rec.extra.blocked);
    Convergence.InvKeys(w);
    Convergence.SameWlans(r.extra, w.rec.extra);
    Convergence.SameBlocked(r.extra, w.rec.extra);
    PlanHash(r.extra);
    hide BlockedDrift, DeviceWlans, PlanOf, DriftPhase, BlockedStaWire, WlanListHash, Watchdogs, AssignedKeyFlow, CarriesExactly, Blocks, InvW;
    Convergence.QuietDrift(r, PlanOf(r.extra).driftHash, g);
  }

  lemma SomeoneBlocked(row: seq<string>)
    requires exists c :: Blocks(row, c)
    ensures BlockedStaWire(row) != ""
  {
    hide CanonicalMac, Join;
    BlockedClientsMeaning(row);
    var c :| Blocks(row, c);
    BlocksIsMember(row, c);
    JoinPlaces(BlockedClients(row));
  }

  // ---- content that changed ------------------------------------------------------------------------------

  /** A status inform under the assigned key with nothing armed, on a controller that can draw and render. */
  predicate StatusInform(r: Record, req: Request) {
    && !req.plaintext && Answered(req.body.kind) && req.usedKey != FactoryKey && r.xAuthkey == Some(req.usedKey)
    && !Armed(r.extra) && req.renders && req.entropy >= 3
  }

  /** Full provisioning with the record's own WLANs, under a version handed out just now. */
  predicate FreshlyProvisioned(r: Record, next: nat, v: Verdict) {
    && v.Success? && v.value.out.FullProvision? && v.value.out.plan.wlans == DeviceWlans(r.extra)
    && v.value.out.blockedSta == BlockedStaWire(r.extra.blocked)
    && v.value.out.cfg.Stamp? && next <= v.value.out.cfg.serial < v.value.gen.next && v.value.rec.cfgVersion == Some(v.value.out.cfg)
  }

  lemma StatusIsDecided(r: Record, req: Request, next: nat)
    requires StatusInform(r, req)
    ensures var p := Prepared(r, req);
            var d := DecideStatus(p, req, PlanOf(p.extra), Gen(next, req.entropy));
            && InformCycle(r, req, next).Success? == d.Success?
            && (d.Success? ==> InformCycle(r, req, next).value == d.value.(rec := ConfirmKey(d.value.rec, req.usedKey)))
            && PlanOf(p.extra).driftHash == WlanListHash(DeviceWlans(r.extra)) && PlanOf(p.extra).wlans == DeviceWlans(r.extra)
  {
    hide DecideStatus, PlanProvisioning, WlanListHash;
    var p := Prepared(r, req);
    Convergence.SameWlans(p.extra, r.extra);
    PlanHash(p.extra);
  }

  /** The drift phase after a change of content: a version of its own, and nothing is held back. */
  lemma ChangeDrifts(r: Record, cur: Hash, g: Gen, now: int)
    requires g.left >= 2
    requires BlockedDrift(r.extra) || (r.extra.delivery.sha.Some? && r.extra.delivery.sha != Some(cur) && r.extra.delivery.pendingSha != Some(cur))
    ensures var d := DriftPhase(r, cur, g);
            && d.Success? && d.value.2 && !HeldAtGate(d.value.0, cur, now)
            && g.next < d.value.1.next && d.value.0.cfgVersion == Some(Stamp(d.value.1.next - 1))
            && d.value.0.xAuthkey == r.xAuthkey && d.value.0.extra.blocked == r.extra.blocked
  {
    hide DeliveryProven, BlockedStaWire, RetryDue;
  }

  lemma DriftedIsProvisioned(r: Record, req: Request, plan: ProvisioningPlan, g: Gen)
    requires req.usedKey != FactoryKey && r.xAuthkey == Some(req.usedKey) && req.renders && r.cfgVersion.Some?
    ensures var d := DecideKey(r, req, plan, g, true);
            && d.Success? && d.value.out == FullProvision(r.cfgVersion.value, plan, BlockedStaWire(r.extra.blocked))
            && d.value.gen == g && d.value.rec.cfgVersion == r.cfgVersion
  {
    hide BlockedStaWire, Connected;
  }

  /** A WLAN list that is neither the settled nor the pending one is provisioned at once, under a version no device has seen. */
  lemma ChangedWlansAreFresh(r: Record, req: Request, next: nat)
    requires StatusInform(r, req) && r.extra.delivery.sha.Some?
    requires var cur := Some(WlanListHash(DeviceWlans(r.extra))); r.extra.delivery.sha != cur && r.extra.delivery.pendingSha != cur
    ensures FreshlyProvisioned(r, next, InformCycle(r, req, next))
  {
    hide WlanListHash, PlanOf, BlockedStaWire, DriftPhase, DecideKey, HeldAtGate, InformCycle, BlockedDrift, DeviceWlans;
    var p, g := Prepared(r, req), Gen(next, req.entropy);
    var plan := PlanOf(p.extra);
    StatusIsDecided(r, req, next);
    ChangeDrifts(p, plan.driftHash, g, req.now);
    var d := DriftPhase(p, plan.driftHash, g).value;
    DriftedIsProvisioned(d.0, req, plan, d.1);
  }

  /** So is a list of blocked clients other than the one last sent. */
  lemma ChangedBlockedAreFresh(r: Record, req: Request, next: nat)
    requires StatusInform(r, req)
    requires if r.extra.blockedSha.Some? then r.extra.blockedSha.value != Sha256(BlockedStaWire(r.extra.blocked)) else BlockedStaWire(r.extra.blocked) != ""
    ensures FreshlyProvisioned(r, next, InformCycle(r, req, next))
  {
    hide WlanListHash, PlanOf, BlockedStaWire, DriftPhase, DecideKey, HeldAtGate, InformCycle, DeviceWlans;
    var p, g := Prepared(r, req), Gen(next, req.entropy);
    var plan := PlanOf(p.extra);
    StatusIsDecided(r, req, next);
    ChangeDrifts(p, plan.driftHash, g, req.now);
    var d := DriftPhase(p, plan.driftHash, g).value;
    DriftedIsProvisioned(d.0, req, plan, d.1);
  }

  /** A device that is in step although nothing was ever settled gets a new version, and with it a full provisioning next time. */
  lemma UnsettledHeals(r: Record, first: Request, next: nat, second: Request)
    requires StatusInform(r, first) && r.extra.delivery.sha.None? && r.extra.delivery.pendingSha.None? && !BlockedDrift(r.extra)
    requires r.cfgVersion.Some? && r.cfgVersion == if first.body.cfgVersion.Some? then first.body.cfgVersion else r.appliedCfg
    requires r.cfgVersion != Some(Stamp(next)) && StatusInform(r, second) && second.body.cfgVersion != Some(Stamp(next))
    ensures var v := InformCycle(r, first, next);
            && v.Success? && v.value.out == Noop && v.value.rec.cfgVersion == Some(Stamp(next)) && v.value.gen.next == next + 1
            && var w := InformCycle(v.value.rec, second, next + 1);
               w.Success? && w.value.out.FullProvision? && w.value.out.cfg == Stamp(next) && w.value.out.plan.wlans == DeviceWlans(r.extra)
  {
    hide WlanListHash, PlanOf, BlockedStaWire, InformCycle, DeviceWlans, DecideStatus;
    var p, g := Prepared(r, first), Gen(next, first.entropy);
    StatusIsDecided(r, first, next);
    HealsFirst(p, first, PlanOf(p.extra), g);
    var healed := InformCycle(r, first, next).value.rec;
    StatusIsDecided(healed, second, next + 1);
    var q := Prepared(healed, second);
    HealsSecond(q, second, PlanOf(q.extra), Gen(next + 1, second.entropy));
    Convergence.SameWlans(healed.extra, r.extra);
  }

  lemma HealsFirst(r: Record, req: Request, plan: ProvisioningPlan, g: Gen)
    requires req.usedKey != FactoryKey && r.xAuthkey == Some(req.usedKey) && g.left >= 1
    requires r.extra.delivery.sha.None? && r.extra.delivery.pendingSha.None? && !BlockedDrift(r.extra) && r.cfgVersion.Some? && r.appliedCfg == r.cfgVersion
    ensures DecideStatus(r, req, plan, g) == Success(Decision(r.(cfgVersion := Some(Stamp(g.next))), Noop, Gen(g.next + 1, g.left - 1), []))
  {
    hide BlockedStaWire, BlockedDrift, DeliveryProven;
  }

  lemma HealsSecond(r: Record, req: Request, plan: ProvisioningPlan, g: Gen)
    requires req.usedKey != FactoryKey && r.xAuthkey == Some(req.usedKey) && req.renders
    requires r.extra.delivery.sha.None? && r.extra.delivery.pendingSha.None? && !BlockedDrift(r.extra) && r.cfgVersion.Some? && r.appliedCfg != r.cfgVersion
    ensures var d := DecideStatus(r, req, plan, g); d.Success? && d.value.out == FullProvision(r.cfgVersion.value, plan, BlockedStaWire(r.extra.blocked))
  {
    hide BlockedStaWire, BlockedDrift, DeliveryProven;
  }

  // ---- confirmation and the spent budget -------------------------------------------------------------------

  /** A device that used a key of its own is confirmed, unless this inform reset it. */
  lemma OwnKeyConfirms(r: Record, req: Request, next: nat)
    requires InformCycle(r, req, next).Success? && req.usedKey in r.authkeys && req.usedKey != FactoryKey && !InformCycle(r, req, next).value.out.Setdefault?
    ensures InformCycle(r, req, next).value.rec.keyConfirmed
  {
    hide PlanOf, DriftPhase, HeldAtGate, AssignedKeyFlow, Connected;
    var p := Prepared(r, req);
    var plan, g := PlanOf(p.extra), Gen(next, req.entropy);
    KeysOfFlow(p, req, plan, g);
    if DriftPhase(p, plan.driftHash, g).Success? {
      var d := DriftPhase(p, plan.driftHash, g).value;
      DriftFrame(p, plan.driftHash, g);
      KeysOfFlow(d.0, req, plan, d.1);
      KeysOfConnected(d.0, plan, d.1);
    }
  }

  lemma KeysOfFlow(r: Record, req: Request, plan: ProvisioningPlan, g: Gen)
    ensures AssignedKeyFlow(r, req, plan, g).Success? ==> AssignedKeyFlow(r, req, plan, g).value.rec.authkeys == r.authkeys
  {
    hide BlockedStaWire;
  }

  lemma KeysOfConnected(r: Record, plan: ProvisioningPlan, g: Gen)
    ensures Connected(r, plan, g).Success? ==> Connected(r, plan, g).value.rec.authkeys == r.authkeys
  {
    hide BlockedStaWire, NotRunningEvidence, MissingVaps;
  }

  /** Seconds between push k and the next. */
  function Wait(k: nat): nat
    requires 1 <= k <= 5
  {
    [2, 4, 8, 16, 32][k - 1]
  }

  lemma WaitIsDelay(k: nat)
    requires 1 <= k <= 5
    ensures RetryDelay(k) == Wait(k)
  {
    assert Pow2(0) == 1 && Pow2(1) == 2 && Pow2(2) == 4;
    assert Pow2(3) == 8 && Pow2(4) == 16;
  }

  /** An unproved delivery is pushed again from the very second its wait is over, under its own version, and is held until then. */
  lemma PendingWaits(r: Record, req: Request, next: nat)
    requires StatusInform(r, req) && req.body.vapTable.None? && !BlockedDrift(r.extra)
    requires var b := r.extra.delivery; var cur := Some(WlanListHash(DeviceWlans(r.extra)));
             b.pendingSha == cur && b.attemptSha == cur && b.offeredCfg == r.cfgVersion && r.cfgVersion.Some? && 1 <= b.attempts <= 5 && b.lastAttempt > 0
    ensures var v, b := InformCycle(r, req, next), r.extra.delivery;
            && v.Success? && v.value.gen == Gen(next, req.entropy) && v.value.rec.cfgVersion == r.cfgVersion
            && (if req.now < b.lastAttempt + Wait(b.attempts) then v.value.out == NoopPendingWlan && v.value.rec.extra.delivery == b
                else && v.value.out.FullProvision? && v.value.out.cfg == r.cfgVersion.value && v.value.out.plan.wlans == DeviceWlans(r.extra)
                     && v.value.rec.extra.delivery.attempts == b.attempts + 1 && v.value.rec.extra.delivery.lastAttempt == req.now)
  {
    hide WlanListHash, PlanOf, BlockedStaWire, InformCycle, DeviceWlans, DecideStatus, Wait;
    StatusIsDecided(r, req, next);
    var p, g := Prepared(r, req), Gen(next, req.entropy);
    WaitIsDelay(r.extra.delivery.attempts);
    PendingDecided(p, req, PlanOf(p.extra), g);
  }

  lemma PendingDecided(r: Record, req: Request, plan: ProvisioningPlan, g: Gen)
    requires req.usedKey != FactoryKey && r.xAuthkey == Some(req.usedKey) && req.renders && r.extra.vapTable.None? && !BlockedDrift(r.extra)
    requires var b := r.extra.delivery;
             b.pendingSha == Some(plan.driftHash) == b.attemptSha && b.offeredCfg == r.cfgVersion && r.cfgVersion.Some? && 1 <= b.attempts <= 5 && b.lastAttempt > 0
    ensures var v, b := DecideStatus(r, req, plan, g), r.extra.delivery;
            && v.Success? && v.value.gen == g && v.value.rec.cfgVersion == r.cfgVersion && v.value.rec.authkeys == r.authkeys
            && (if req.now < b.lastAttempt + RetryDelay(b.attempts) then v.value.out == NoopPendingWlan && v.value.rec.extra.delivery == b
                else && v.value.out.FullProvision? && v.value.out.cfg == r.cfgVersion.value && v.value.out.plan == plan
                     && v.value.rec.extra.delivery.attempts == b.attempts + 1 && v.value.rec.extra.delivery.lastAttempt == req.now)
  {
    hide BlockedStaWire, RetryDelay, EncodeStoredWlans, DeliveryProven;
  }

  /** With its six pushes spent, an unproved delivery is held for good and the record says so. */
  lemma SpentBudgetShows(r: Record, req: Request, next: nat)
    requires StatusInform(r, req) && req.body.vapTable.None? && !BlockedDrift(r.extra)
    requires r.extra.delivery.pendingSha == Some(WlanListHash(DeviceWlans(r.extra))) && r.extra.delivery.offeredCfg == r.cfgVersion
    requires r.extra.delivery.attempts >= 6
    ensures var v := InformCycle(r, req, next);
            && v.Success? && v.value.out == NoopPendingWlan && v.value.gen == Gen(next, req.entropy)
            && v.value.rec.extra.delivery == r.extra.delivery.(status := StatusExhausted)
  {
    hide WlanListHash, PlanOf, BlockedStaWire, InformCycle, DeviceWlans, DecideKey, DeliveryProven;
    StatusIsDecided(r, req, next);
  }
}
