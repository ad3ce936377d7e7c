/**
 The device record and the adoption engine as a step function: one decoded inform is
 Absorb, the session refresh, Decide and the outcome's record deltas
 (internal/server/adoption/engine.go, internal/server/server.go,
 internal/store/trustpolicy.go). Random keys and cfgversions are serial numbers handed
 out in order, so a minted value differs from every earlier one.
 */
module Engine {
  import opened Options
  import opened Text
  import opened Wlans
  import opened Plan
  import opened Delivery
  import opened BlockedSta

  // ---- the record -----------------------------------------------------------------------

  datatype State = Pending | Adopting | Adopted | Lost

  datatype Key = FactoryKey | DeviceKey(serial: nat)

  /** The typed Extra rows the decision reads and writes. */
  datatype Extra = Extra(
    delivery: Bookkeeping,
    disconnectPending: bool,
    radioTable: Option<seq<Row>>,
    vapTable: Option<seq<Row>>,
    rebootArmed: bool,
    setdefaultArmed: bool,
    cmdTask: Option<string>,
    blocked: seq<string>,
    blockedSha: Option<Digest<string>>,
    vapMisses: nat,
    marker: Option<Version>,
    deviceWlans: Option<Blob>)

  const NoExtra := Extra(NoBookkeeping, false, None, None, false, false, None, [], None, 0, None, None)

  datatype Record = Record(
    state: State,
    xAuthkey: Option<Key>,
    authkeys: seq<Key>,
    keyConfirmed: bool,
    cfgVersion: Option<Version>,
    appliedCfg: Option<Version>,
    lastSeen: int,
    extra: Extra)

  /** What CreateDevice and AdoptPending seed for an unknown MAC. */
  const FreshRecord := Record(Pending, None, [], false, None, None, 0, NoExtra)

  // ---- requests, outcomes, log marks --------------------------------------------------------

  /** The parts of a decoded inform body the decision depends on. */
  datatype Body = Body(
    kind: string,
    cfgVersion: Option<Version>,
    radioTable: Option<seq<Row>>,
    vapTable: Option<seq<Row>>,
    disconnectSeen: bool)

  datatype Request = Request(plaintext: bool, usedKey: Key, body: Body, now: int, entropy: nat, renders: bool)

  datatype Outcome =
    | Noop
    | NoopPendingWlan
    | AdoptionPush(authkey: Option<Key>, pushedCfg: Option<Version>)
    | FullProvision(cfg: Version, plan: ProvisioningPlan, blockedSta: string)
    | BlockedStaPush(wire: string)
    | Reboot
    | Setdefault
    | Cmd(task: string)

  /** The decision's log lines about the two watchdogs. */
  datatype Mark = SsidMiss | SsidRun | SsidMint | DevnameMiss | DevnameRun | DevnameHeld | DevnameArm(armedFor: Option<Version>) | DevnameAlreadyPending

  datatype Refusal = DefaultKeyRejected | NoEntropy | RenderFailed

  /** keyChars: next unused serial and how many draws still succeed. */
  datatype Gen = Gen(next: nat, left: nat)

  datatype Decision = Decision(rec: Record, out: Outcome, gen: Gen, marks: seq<Mark>)

  type Verdict = Result<Decision, Refusal>

  function Draw(g: Gen): Result<(nat, Gen), Refusal> {
    if g.left == 0 then Failure(NoEntropy) else Success((g.next, Gen(g.next + 1, g.left - 1)))
  }

  function MintVersion(r: Record, g: Gen): Result<(Record, Gen), Refusal> {
    var d :- Draw(g);
    Success((r.(cfgVersion := Some(Stamp(d.0))), d.1))
  }

  // ---- small predicates ------------------------------------------------------------------------

  const KNOWN_KINDS := {"info", "heartbeat", "cmd", "setparam", "setparam-ack", "cmd-ack", "alarms", "disconnect"}

  predicate GentleNoop(kind: string) {
    kind != "" && kind !in KNOWN_KINDS
  }

  predicate FactoryKeyRefused(r: Record, used: Key) {
    used == FactoryKey && r.state != Pending && (r.state != Adopting || r.keyConfirmed)
  }

  predicate OnAssigned(r: Record, used: Key) {
    r.xAuthkey == Some(used)
  }

  function DeviceWlans(x: Extra): seq<Wlan> {
    DecodedOr(x.deviceWlans)
  }

  function PlanOf(x: Extra): ProvisioningPlan {
    PlanProvisioning(x.radioTable, DeviceWlans(x))
  }

  lemma PlanHash(x: Extra)
    ensures PlanOf(x).driftHash == WlanListHash(DeviceWlans(x)) && PlanOf(x).wlans == DeviceWlans(x)
  {
  }

  predicate BlockedDrift(x: Extra) {
    if x.blockedSha.None? then BlockedStaWire(x.blocked) != ""
    else Sha256(BlockedStaWire(x.blocked)) != x.blockedSha.value
  }

  predicate WlanDrift(r: Record, cur: Hash) {
    r.extra.delivery.sha.Some? && r.extra.delivery.sha.value != cur
  }

  predicate Armed(x: Extra) {
    x.setdefaultArmed || x.rebootArmed || x.cmdTask.Some?
  }

  // ---- armed commands ----------------------------------------------------------------------------

  /** The rows FactoryResetSweepKeys deletes. */
  function Swept(x: Extra): Extra {
    x.(delivery := NoBookkeeping, disconnectPending := false, vapMisses := 0, marker := None)
  }

  function ArmedLifecycle(r: Record): Option<(Record, Outcome)> {
    if r.extra.setdefaultArmed then
      Some((r.(state := Pending, xAuthkey := None, cfgVersion := None, appliedCfg := None, authkeys := [], keyConfirmed := false,
               extra := Swept(r.extra).(setdefaultArmed := false, rebootArmed := false, cmdTask := None)),
            Setdefault))
    else if r.extra.rebootArmed then
      Some((r.(extra := r.extra.(rebootArmed := false, vapMisses := 0,
                                 delivery := r.extra.delivery.(notRunningMisses := 0))),
            Reboot))
    else if r.extra.cmdTask.Some? then
      Some((r.(extra := r.extra.(cmdTask := None)), Cmd(r.extra.cmdTask.value)))
    else None
  }

  // ---- drift ---------------------------------------------------------------------------------------

  function SettleRecord(r: Record): Record {
    var x := r.extra;
    r.(extra := x.(delivery := Settled(x.delivery, x.vapTable),
                   marker := MarkerAfterSettle(x.delivery, x.vapTable, x.marker, r.cfgVersion)))
  }

  function MintForWlanDrift(r: Record, cur: Hash, g: Gen): Result<(Record, Gen), Refusal> {
    if WlanDrift(r, cur) && r.extra.delivery.pendingSha != Some(cur) then MintVersion(r, g)
    else Success((r, g))
  }

  function MintForBlockedDrift(r: Record, g: Gen): Result<(Record, Gen), Refusal> {
    if BlockedDrift(r.extra) then MintVersion(r, g) else Success((r, g))
  }

  predicate OperatorMint(r: Record) {
    r.extra.delivery.offeredCfg.Some? && r.cfgVersion != r.extra.delivery.offeredCfg
  }

  /** The gate that rate-limits an unchanged pending delivery. */
  predicate HeldAtGate(r: Record, cur: Hash, now: int) {
    var b := r.extra.delivery;
    b.pendingSha.Some? && !BlockedDrift(r.extra) && !OperatorMint(r) && b.pendingSha.value == cur && !RetryDue(b, now)
  }

  // ---- keys ------------------------------------------------------------------------------------------

  function AddKey(keys: seq<Key>, k: Key): seq<Key> {
    if k in keys then keys else keys + [k]
  }

  function NewestTwo(keys: seq<Key>): seq<Key> {
    if |keys| > 2 then keys[|keys| - 2..] else keys
  }

  function RotateKeys(r: Record, g: Gen): Result<(Record, Gen), Refusal> {
    var k :- Draw(g);
    var c :- Draw(k.1);
    Success((r.(xAuthkey := Some(DeviceKey(k.0)), cfgVersion := Some(Stamp(c.0)),
                authkeys := NewestTwo(AddKey(r.authkeys, DeviceKey(k.0))), state := Adopting), c.1))
  }

  /** The mgmt_cfg authkey row is written only when the device used another key. */
  function PushFor(r: Record, used: Option<Key>): Outcome {
    AdoptionPush(if r.xAuthkey.Some? && used != r.xAuthkey then r.xAuthkey else None, r.cfgVersion)
  }

  // ---- full provisioning --------------------------------------------------------------------------------

  function AssignedKeyFlow(r: Record, req: Request, plan: ProvisioningPlan, g: Gen): Verdict {
    var m :- if r.cfgVersion.None? then MintVersion(r, g) else Success((r, g));
    if !req.renders then Failure(RenderFailed)
    else
      var x := m.0.extra;
      var cfg := m.0.cfgVersion.value;
      var wire := BlockedStaWire(x.blocked);
      Success(Decision(
        m.0.(state := Adopting,
             extra := x.(delivery := Offered(x.delivery, plan.driftHash, req.now, plan.wlans, plan.placements, cfg),
                         blockedSha := Some(Sha256(wire)), disconnectPending := false)),
        FullProvision(cfg, plan, wire), m.1, []))
  }

  // ---- the connected path ----------------------------------------------------------------------------------

  function Connected(r: Record, plan: ProvisioningPlan, g: Gen): Verdict {
    if r.extra.delivery.sha.None? then
      var m :- MintVersion(r, g);
      Success(Decision(m.0, Noop, m.1, []))
    else if r.extra.delivery.pendingSha.Some? then
      Success(Decision(r, NoopPendingWlan, g, []))
    else if r.extra.disconnectPending && BlockedStaWire(r.extra.blocked) != "" then
      Success(Decision(r.(state := Adopted, extra := r.extra.(disconnectPending := false)),
                       BlockedStaPush(BlockedStaWire(r.extra.blocked)), g, []))
    else
      Watchdogs(r.(extra := r.extra.(disconnectPending := false)), plan, g)
  }

  function SetMisses(r: Record, n: nat): Record {
    r.(extra := r.extra.(delivery := r.extra.delivery.(notRunningMisses := n)))
  }

  function Watchdogs(r: Record, plan: ProvisioningPlan, g: Gen): Verdict {
    match NotRunningEvidence(r.extra.delivery, r.extra.vapTable)
    case Unknown => Success(Decision(r.(state := Adopted), Noop, g, []))
    case Miss =>
      var misses := r.extra.delivery.notRunningMisses + 1;
      if misses < 2 then
        Success(Decision(SetMisses(r, misses).(state := Adopted), Noop, g, [SsidMiss]))
      else
        var m :- MintVersion(SetMisses(r, 0), g);
        Success(Decision(m.0, Noop, m.1, [SsidMiss, SsidMint]))
    case Run => DevnameWatchdog(SetMisses(r, 0), plan, g)
  }

  function DevnameWatchdog(r: Record, plan: ProvisioningPlan, g: Gen): Verdict {
    var x := r.extra;
    if MissingVaps(plan.vaps, x.vapTable) == {} then
      Success(Decision(r.(state := Adopted, extra := x.(vapMisses := 0, marker := None)), Noop, g, [SsidRun, DevnameRun]))
    else if x.rebootArmed then
      Success(Decision(r.(state := Adopted), Noop, g, [SsidRun, DevnameAlreadyPending]))
    else if x.marker.Some? && x.marker == r.cfgVersion then
      Success(Decision(r.(state := Adopted, extra := x.(vapMisses := 0)), Noop, g, [SsidRun, DevnameHeld]))
    else if x.vapMisses + 1 < 2 then
      Success(Decision(r.(state := Adopted, extra := x.(vapMisses := x.vapMisses + 1)), Noop, g, [SsidRun, DevnameMiss]))
    else
      Success(Decision(r.(extra := x.(vapMisses := 0, rebootArmed := true, marker := r.cfgVersion)), Noop, g,
                       [SsidRun, DevnameMiss, DevnameArm(r.cfgVersion)]))
  }

  // ---- the two lanes --------------------------------------------------------------------------------------------

  function DecideKey(r: Record, req: Request, plan: ProvisioningPlan, g: Gen, drift: bool): Verdict {
    if req.usedKey == FactoryKey then
      var k :- RotateKeys(r, g);
      Success(Decision(k.0, PushFor(k.0, Some(req.usedKey)), k.1, []))
    else if !OnAssigned(r, req.usedKey) then
      Success(Decision(r, PushFor(r, Some(req.usedKey)), g, []))
    else if !drift && r.cfgVersion.Some? && r.appliedCfg == r.cfgVersion then
      Connected(r, plan, g)
    else
      AssignedKeyFlow(r, req, plan, g)
  }

  /** Settle, then at most one mint for each kind of content drift; the flag asks for full provisioning. */
  function DriftPhase(r: Record, cur: Hash, g: Gen): Result<(Record, Gen, bool), Refusal> {
    var s := SettleRecord(r);
    var w :- MintForWlanDrift(s, cur, g);
    var b :- MintForBlockedDrift(w.0, w.1);
    Success((b.0, b.1, WlanDrift(s, cur) || BlockedDrift(s.extra) || s.extra.delivery.pendingSha.Some?))
  }

  function DecideStatus(r: Record, req: Request, plan: ProvisioningPlan, g: Gen): Verdict {
    var d :- DriftPhase(r, plan.driftHash, g);
    if HeldAtGate(d.0, plan.driftHash, req.now) then
      Success(Decision(d.0.(extra := d.0.extra.(delivery := AfterRetryCheck(d.0.extra.delivery))), NoopPendingWlan, d.1, []))
    else
      DecideKey(d.0, req, plan, d.1, d.2)
  }

  function DecideEncrypted(r: Record, req: Request, plan: ProvisioningPlan, g: Gen): Verdict {
    if FactoryKeyRefused(r, req.usedKey) then Failure(DefaultKeyRejected)
    else if GentleNoop(req.body.kind) then Success(Decision(r, Noop, g, []))
    else match ArmedLifecycle(r)
      case Some(armed) => Success(Decision(armed.0, armed.1, g, []))
      case None => DecideStatus(r, req, plan, g)
  }

  function DecidePlain(r: Record, req: Request, plan: ProvisioningPlan, g: Gen): Verdict {
    if GentleNoop(req.body.kind) || r.xAuthkey.None? then Success(Decision(r, Noop, g, []))
    else if !OnAssigned(r, req.usedKey) then Success(Decision(r, PushFor(r, r.xAuthkey), g, []))
    else match ArmedLifecycle(r)
      case Some(armed) => Success(Decision(armed.0, armed.1, g, []))
      case None => AssignedKeyFlow(r, req, plan, g)
  }

  /** Decide's closing stamp: the inform authenticated with a per-device key. */
  function ConfirmKey(r: Record, used: Key): Record {
    if used in r.authkeys then r.(keyConfirmed := true) else r
  }

  function Decide(r: Record, req: Request, g: Gen): Verdict {
    var plan := PlanOf(r.extra);
    var d :- if req.plaintext then DecidePlain(r, req, plan, g) else DecideEncrypted(r, req, plan, g);
    Success(d.(rec := ConfirmKey(d.rec, req.usedKey)))
  }

  /** Everything DriftPhase may change, and what an unset drift flag says. */
  lemma DriftFrame(r: Record, cur: Hash, g: Gen)
    requires DriftPhase(r, cur, g).Success?
    ensures var (b, h, drift) := DriftPhase(r, cur, g).value;
            && b == r.(cfgVersion := b.cfgVersion, extra := r.extra.(delivery := Settled(r.extra.delivery, r.extra.vapTable), marker := b.extra.marker))
            && b.extra.marker == MarkerAfterSettle(r.extra.delivery, r.extra.vapTable, r.extra.marker, r.cfgVersion)
            && g.next <= h.next
            && (b.cfgVersion == r.cfgVersion || (h.next > g.next && b.cfgVersion == Some(Stamp(h.next - 1))))
            && (!drift ==> b == SettleRecord(r) && h == g && b.extra.delivery.pendingSha.None? && !BlockedDrift(r.extra) && !WlanDrift(b, cur))
            && (drift <== BlockedDrift(r.extra) || b.extra.delivery.pendingSha.Some?)
            && (b.extra.delivery.pendingSha.None? && !drift ==> b.cfgVersion == r.cfgVersion)
  {
    hide SettleReady, BlockedStaWire;
  }

  // ---- the inform cycle ------------------------------------------------------------------------------------------

  /**
   Absorb for a body without controller-owned keys: controller- and admin-owned rows keep
   the record's value, device-refreshable rows take the body's when present, and the rest
   is replaced by the body.
   */
  function Absorb(r: Record, body: Body, now: int): Record {
    r.(appliedCfg := if body.cfgVersion.Some? then body.cfgVersion else r.appliedCfg,
       lastSeen := now,
       extra := r.extra.(radioTable := if body.radioTable.Some? then body.radioTable else r.extra.radioTable,
                         vapTable := body.vapTable))
  }

  /** The refresh arms the one-shot event when a connected client left the station table. */
  function RefreshEvent(r: Record, body: Body): Record {
    r.(extra := r.extra.(disconnectPending := r.extra.disconnectPending || body.disconnectSeen))
  }

  function Prepared(r: Record, req: Request): Record {
    RefreshEvent(Absorb(r, req.body, req.now), req.body)
  }

  /** runInformCycle; a refusal persists nothing. */
  function InformCycle(r: Record, req: Request, next: nat): Verdict {
    Decide(Prepared(r, req), req, Gen(next, req.entropy))
  }

  /** keyCandidates: every assigned key, then the factory default. */
  function KeyCandidates(r: Record): set<Key> {
    (set k | k in r.authkeys) + {FactoryKey}
  }

  // ---- steps of a run ----------------------------------------------------------------------------------------------

  datatype Save =
    | Bookkeep
    | EffectiveSave
    | Block(client: string)
    | Unblock(client: string)
    | ArmReboot
    | ArmReset
    | Enqueue(cmd: string)
    | PutWlans(wlans: seq<Wlan>)

  datatype Step = Inform(req: Request) | Admin(save: Save) | Sweep(now: int)

  datatype World = World(rec: Record, next: nat)

  datatype Report = Report(world: World, out: Option<Outcome>, marks: seq<Mark>)

  const LOST_AFTER := 75

  function SaveIntent(r: Record, save: Save, next: nat): (Record, nat) {
    match save
    case Bookkeep => (r, next)
    case EffectiveSave => (r.(cfgVersion := Some(Stamp(next))), next + 1)
    case Block(c) =>
      (match AddBlockedClient(r.extra.blocked, c) case None => r case Some(a) => r.(extra := r.extra.(blocked := a.0)), next)
    case Unblock(c) =>
      (match RemoveBlockedClient(r.extra.blocked, c) case None => r case Some(a) => r.(extra := r.extra.(blocked := a.0)), next)
    case ArmReboot => (r.(extra := r.extra.(rebootArmed := true)), next)
    case ArmReset => (r.(extra := r.extra.(setdefaultArmed := true)), next)
    case Enqueue(cmd) => (if cmd == "" then r else r.(extra := r.extra.(cmdTask := Some(cmd))), next)
    case PutWlans(wls) => (r.(extra := r.extra.(deviceWlans := if wls == [] then None else Some(EncodeStoredWlans(wls)))), next)
  }

  /** The only rows an admin save can touch. */
  lemma SaveFrame(r: Record, save: Save, next: nat)
    ensures var (s, n) := SaveIntent(r, save, next);
            && s == r.(cfgVersion := s.cfgVersion,
                       extra := r.extra.(rebootArmed := s.extra.rebootArmed, setdefaultArmed := s.extra.setdefaultArmed,
                                         cmdTask := s.extra.cmdTask, blocked := s.extra.blocked, deviceWlans := s.extra.deviceWlans))
            && (s.cfgVersion == r.cfgVersion || (s.cfgVersion == Some(Stamp(next)) && n == next + 1))
            && n >= next
            && (s.extra.cmdTask != r.extra.cmdTask ==> s.extra.cmdTask.Some? && s.extra.cmdTask.value != "")
  {
    hide AddBlockedClient, RemoveBlockedClient, EncodeStoredWlans;
  }

  function SweepLost(r: Record, now: int): Record {
    if r.state != Adopted || r.lastSeen <= 0 || now - r.lastSeen <= LOST_AFTER then r else r.(state := Lost)
  }

  function Next(w: World, step: Step): Report {
    match step
    case Inform(req) =>
      (match InformCycle(w.rec, req, w.next)
       case Success(d) => Report(World(d.rec, d.gen.next), Some(d.out), d.marks)
       case Failure(_) => Report(w, None, []))
    case Admin(save) =>
      var s := SaveIntent(w.rec, save, w.next);
      Report(World(s.0, s.1), None, [])
    case Sweep(now) => Report(World(SweepLost(w.rec, now), w.next), None, [])
  }

  predicate Used(v: Option<Version>, next: nat) {
    v.Some? && v.value.Stamp? ==> v.value.serial < next
  }

  predicate KeyUsed(k: Key, next: nat) {
    k.DeviceKey? ==> k.serial < next
  }

  /** A device cannot know a key or cfgversion that was not minted yet. */
  predicate Possible(w: World, step: Step) {
    step.Inform? ==> KeyUsed(step.req.usedKey, w.next) && Used(step.req.body.cfgVersion, w.next)
  }

  function After(w: World, steps: seq<Step>): World {
    if steps == [] then w else Next(After(w, steps[..|steps| - 1]), steps[|steps| - 1]).world
  }

  const Start := World(FreshRecord, 0)
}
