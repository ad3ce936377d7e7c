/**
 Key rotation in the product of controller and device. The device seals every inform with
 the key it holds; a response may be applied, lost, or applied one exchange late. Admin
 saves and lost sweeps interleave freely.
 */
module KeySafety {
  import opened Options
  import opened Wlans
  import opened Plan
  import opened Delivery
  import opened BlockedSta
  import opened Engine
  import opened RecordInvariant

  /** The key the device seals with, and an authkey row it has received but not applied yet. */
  datatype Device = Device(key: Key, late: Option<Key>)

  datatype Channel = Applied | LostOnTheWay | AppliedLate

  datatype Move = Exchange(req: Request, channel: Channel) | Local(step: Step)

  datatype Pair = Pair(world: World, device: Device)

  /** The authkey row of a response, if it carries one. */
  function AuthkeyRow(out: Option<Outcome>): Option<Key> {
    if out.Some? && out.value.AdoptionPush? then out.value.authkey else None
  }

  function Or(k: Option<Key>, otherwise: Key): Key {
    if k.Some? then k.value else otherwise
  }

  /** A late response is applied after the next inform was sent and before its response. */
  function Receive(d: Device, row: Option<Key>, channel: Channel): Device {
    var caughtUp := Or(d.late, d.key);
    match channel
    case Applied => Device(Or(row, caughtUp), None)
    case LostOnTheWay => Device(caughtUp, None)
    case AppliedLate => Device(caughtUp, row)
  }

  /** An inform the record has no key for is answered 400 before the cycle runs. */
  function Exchanged(p: Pair, req: Request, channel: Channel): Pair {
    if p.device.key !in KeyCandidates(p.world.rec) then Pair(p.world, Receive(p.device, None, LostOnTheWay))
    else
      var r := Next(p.world, Inform(req));
      Pair(r.world, Receive(p.device, AuthkeyRow(r.out), channel))
  }

  function Moved(p: Pair, m: Move): Pair {
    match m
    case Exchange(req, channel) => Exchanged(p, req, channel)
    case Local(step) => Pair(Next(p.world, step).world, p.device)
  }

  /** Sequential encrypted exchanges under the device's own key; no factory reset is emitted. */
  ghost predicate Allowed(p: Pair, m: Move) {
    match m
    case Exchange(req, _) =>
      && !req.plaintext && req.usedKey == p.device.key
      && Possible(p.world, Inform(req))
      && Next(p.world, Inform(req)).out != Some(Setdefault)
    case Local(step) => !step.Inform?
  }

  /** The device is never stranded, and a confirmed record holds the device's own key. */
  ghost predicate Safe(p: Pair) {
    var keys := p.world.rec.authkeys;
    && InvW(p.world)
    && p.device.key in KeyCandidates(p.world.rec)
    && (p.device.late.Some? ==> p.device.late.value in keys)
    && (p.device.key == FactoryKey ==> !p.world.rec.keyConfirmed)
    && (p.device.key == FactoryKey && p.device.late.Some? ==> keys[|keys| - 1] == p.device.late.value)
  }

  // ---- what one decision does to the keys ----------------------------------------------------

  /** Two records agree on everything the key machinery reads. */
  predicate SameKeys(a: Record, b: Record) {
    a.authkeys == b.authkeys && a.xAuthkey == b.xAuthkey && a.keyConfirmed == b.keyConfirmed
  }

  lemma ConnectedSameKeys(r: Record, plan: ProvisioningPlan, g: Gen)
    ensures Connected(r, plan, g).Success? ==>
              SameKeys(r, Connected(r, plan, g).value.rec) && !Connected(r, plan, g).value.out.AdoptionPush?
  {
    hide BlockedStaWire, NotRunningEvidence, MissingVaps;
  }

  /** What a non-reset decision may do to the keys and tell the device about them. */
  ghost predicate KeyEffect(r: Record, used: Key, d: Decision, next: nat) {
    if used == FactoryKey && d.rec.authkeys != r.authkeys then
      && d.rec.authkeys == NewestTwo(AddKey(r.authkeys, DeviceKey(next)))
      && d.rec.xAuthkey == Some(DeviceKey(next))
      && !d.rec.keyConfirmed
      && AuthkeyRow(Some(d.out)) == Some(DeviceKey(next))
    else
      && d.rec.authkeys == r.authkeys && d.rec.xAuthkey == r.xAuthkey
      && (AuthkeyRow(Some(d.out)).Some? ==> AuthkeyRow(Some(d.out)) == r.xAuthkey)
      && (used == FactoryKey ==> d.rec.keyConfirmed == r.keyConfirmed && AuthkeyRow(Some(d.out)).None?)
  }

  lemma DecideKeyEffect(r: Record, req: Request, plan: ProvisioningPlan, g: Gen, drift: bool)
    requires Inv(r, g.next)
    requires req.usedKey == FactoryKey ==> !r.keyConfirmed
    ensures var v := DecideKey(r, req, plan, g, drift);
            v.Success? ==> exists n :: KeyEffect(r, req.usedKey, v.value, n)
  {
    hide Connected, BlockedStaWire, EncodeStoredWlans;
    var v := DecideKey(r, req, plan, g, drift);
    if v.Success? {
      if req.usedKey == FactoryKey {
        assert DeviceKey(g.next) !in r.authkeys by {
          assert forall x :: x in r.authkeys ==> KeyUsed(x, g.next);
        }
        assert KeyEffect(r, req.usedKey, v.value, g.next);
      } else {
        ConnectedSameKeys(r, plan, g);
        assert KeyEffect(r, req.usedKey, v.value, 0);
      }
    }
  }

  lemma StatusKeyEffect(r: Record, req: Request, plan: ProvisioningPlan, g: Gen)
    requires Inv(r, g.next) && !FactoryKeyRefused(r, req.usedKey)
    ensures var v := DecideStatus(r, req, plan, g);
            v.Success? ==> exists n :: KeyEffect(r, req.usedKey, v.value, n)
  {
    hide DriftPhase, DecideKey, HeldAtGate;
    if DriftPhase(r, plan.driftHash, g).Success? {
      DriftKeeps(r, plan.driftHash, g);
      DriftFrame(r, plan.driftHash, g);
      var (b, h, drift) := DriftPhase(r, plan.driftHash, g).value;
      if HeldAtGate(b, plan.driftHash, req.now) {
        assert KeyEffect(r, req.usedKey, DecideStatus(r, req, plan, g).value, 0);
      } else {
        DecideKeyEffect(b, req, plan, h, drift);
        var v := DecideKey(b, req, plan, h, drift);
        if v.Success? {
          var n :| KeyEffect(b, req.usedKey, v.value, n);
          assert KeyEffect(r, req.usedKey, v.value, n);
        }
      }
    }
  }

  /** The effect of a whole encrypted exchange that does not emit a factory reset. */
  lemma ExchangeKeyEffect(r: Record, req: Request, g: Gen)
    requires Inv(r, g.next) && !req.plaintext
    ensures var v := Decide(r, req, g);
            v.Success? && v.value.out != Setdefault ==>
              exists d: Decision, n :: KeyEffect(r, req.usedKey, d, n) && v.value == d.(rec := ConfirmKey(d.rec, req.usedKey))
  {
    var plan := PlanOf(r.extra);
    var v := DecideEncrypted(r, req, plan, g);
    if v.Success? && v.value.out != Setdefault {
      if GentleNoop(req.body.kind) || ArmedLifecycle(r).Some? {
        assert KeyEffect(r, req.usedKey, v.value, 0);
      } else {
        StatusKeyEffect(r, req, plan, g);
      }
    }
  }

  // ---- safety --------------------------------------------------------------------------------------

  lemma RotationKeepsNewest(keys: seq<Key>, k: Key)
    requires |keys| <= 2 && k !in keys
    ensures var all := NewestTwo(AddKey(keys, k));
            && |all| >= 1 && all[|all| - 1] == k
            && (|keys| > 0 ==> keys[|keys| - 1] in all)
  {
    var all := NewestTwo(AddKey(keys, k));
    if |keys| > 0 { assert all[|all| - 2] == keys[|keys| - 1]; }
  }

  lemma ReceiveAfterRotation(p: Pair, w: World, k: Key, channel: Channel)
    requires Safe(p) && InvW(w) && p.device.key == FactoryKey
    requires k !in p.world.rec.authkeys && k != FactoryKey
    requires w.rec.authkeys == NewestTwo(AddKey(p.world.rec.authkeys, k)) && !w.rec.keyConfirmed
    ensures Safe(Pair(w, Receive(p.device, Some(k), channel)))
  {
    RotationKeepsNewest(p.world.rec.authkeys, k);
    assert k in w.rec.authkeys;
  }

  lemma ReceiveWithoutRotation(p: Pair, w: World, row: Option<Key>, channel: Channel)
    requires Safe(p) && InvW(w) && w.rec.authkeys == p.world.rec.authkeys
    requires row.Some? ==> row.value in w.rec.authkeys
    requires p.device.key == FactoryKey ==> row.None? && !w.rec.keyConfirmed
    ensures Safe(Pair(w, Receive(p.device, row, channel)))
  {
  }

  lemma ExchangeSafe(p: Pair, req: Request, channel: Channel)
    requires Safe(p) && Allowed(p, Exchange(req, channel))
    ensures Safe(Exchanged(p, req, channel))
  {
    var r, g := Prepared(p.world.rec, req), Gen(p.world.next, req.entropy);
    var step := Next(p.world, Inform(req));
    StepKeeps(p.world, Inform(req));
    PreparedKeeps(p.world.rec, req, p.world.next);
    assert SameKeys(r, p.world.rec);
    if Decide(r, req, g).Failure? {
      ReceiveWithoutRotation(p, step.world, None, channel);
    } else {
      ExchangeKeyEffect(r, req, g);
      var d: Decision, n :| KeyEffect(r, req.usedKey, d, n) && Decide(r, req, g).value == d.(rec := ConfirmKey(d.rec, req.usedKey));
      KeyEffectSafe(p, r, req.usedKey, d, n, step.world, channel);
    }
  }

  lemma KeyEffectSafe(p: Pair, r: Record, used: Key, d: Decision, n: nat, w: World, channel: Channel)
    requires Safe(p) && used == p.device.key && SameKeys(r, p.world.rec)
    requires KeyEffect(r, used, d, n) && InvW(w) && w.rec == ConfirmKey(d.rec, used)
    ensures Safe(Pair(w, Receive(p.device, AuthkeyRow(Some(d.out)), channel)))
  {
    if used == FactoryKey && d.rec.authkeys != r.authkeys {
      ReceiveAfterRotation(p, w, DeviceKey(n), channel);
    } else {
      ReceiveWithoutRotation(p, w, AuthkeyRow(Some(d.out)), channel);
    }
  }

  lemma MoveSafe(p: Pair, m: Move)
    requires Safe(p) && Allowed(p, m)
    ensures Safe(Moved(p, m))
  {
    match m
    case Exchange(req, channel) => ExchangeSafe(p, req, channel);
    case Local(step) => StepKeeps(p.world, step);
  }

  // ---- runs ------------------------------------------------------------------------------------------

  function Played(p: Pair, moves: seq<Move>): Pair {
    if moves == [] then p else Moved(Played(p, moves[..|moves| - 1]), moves[|moves| - 1])
  }

  ghost predicate AllowedRun(p: Pair, moves: seq<Move>) {
    moves != [] ==> AllowedRun(p, moves[..|moves| - 1]) && Allowed(Played(p, moves[..|moves| - 1]), moves[|moves| - 1])
  }

  const Unadopted := Pair(Start, Device(FactoryKey, None))

  /** In every run without a factory reset the record can decrypt the device's next inform. */
  lemma {:induction false} NeverStranded(moves: seq<Move>)
    requires AllowedRun(Unadopted, moves)
    ensures Safe(Played(Unadopted, moves))
    ensures Played(Unadopted, moves).device.key in KeyCandidates(Played(Unadopted, moves).world.rec)
  {
    if moves != [] {
      NeverStranded(moves[..|moves| - 1]);
      MoveSafe(Played(Unadopted, moves[..|moves| - 1]), moves[|moves| - 1]);
    }
  }

  /** Hence the factory-key rejection never hits the device itself. */
  lemma RejectionNeverHitsTheDevice(moves: seq<Move>, req: Request)
    requires AllowedRun(Unadopted, moves)
    requires !req.plaintext && req.usedKey == Played(Unadopted, moves).device.key
    ensures var p := Played(Unadopted, moves);
            && (p.world.rec.keyConfirmed ==> p.device.key in p.world.rec.authkeys)
            && InformCycle(p.world.rec, req, p.world.next) != Failure(DefaultKeyRejected)
  {
    NeverStranded(moves);
    var p := Played(Unadopted, moves);
    var r, g := Prepared(p.world.rec, req), Gen(p.world.next, req.entropy);
    assert !FactoryKeyRefused(r, req.usedKey);
    OnlyTheGateRejects(r, req, g);
  }

  lemma StatusNeverRejects(r: Record, req: Request, plan: ProvisioningPlan, g: Gen)
    ensures DecideStatus(r, req, plan, g) != Failure(DefaultKeyRejected)
  {
    hide DecideKey, HeldAtGate, BlockedDrift, SettleReady;
    if DriftPhase(r, plan.driftHash, g).Success? {
      var (b, h, drift) := DriftPhase(r, plan.driftHash, g).value;
      KeyPathNeverRejects(b, req, plan, h, drift);
    }
  }

  lemma KeyPathNeverRejects(r: Record, req: Request, plan: ProvisioningPlan, g: Gen, drift: bool)
    ensures DecideKey(r, req, plan, g, drift) != Failure(DefaultKeyRejected)
  {
    assert Watchdogs(r.(extra := r.extra.(disconnectPending := false)), plan, g) != Failure(DefaultKeyRejected);
  }

  lemma OnlyTheGateRejects(r: Record, req: Request, g: Gen)
    requires !req.plaintext && !FactoryKeyRefused(r, req.usedKey)
    ensures Decide(r, req, g) != Failure(DefaultKeyRejected)
  {
    StatusNeverRejects(r, req, PlanOf(r.extra), g);
  }
}
