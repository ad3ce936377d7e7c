/**
 After adoption, admin saves of any kind: content, armed reboots and tasks, factory resets. A
 settled device that applies every push is settled again within five informs.
 */
module Saves {
  import opened Options
  import opened Wlans
  import opened Plan
  import opened Delivery
  import opened BlockedSta
  import opened Engine
  import opened RecordInvariant
  import opened Convergence
  import opened Recovery

  /** The device on its assigned key, whatever stands armed. */
  ghost predicate Known(p: Pair) {
    var r := p.world.rec;
    && InvW(p.world)
    && KeyUsed(p.device.key, p.world.next) && Used(p.device.cfg, p.world.next)
    && r.xAuthkey == Some(p.device.key) && p.device.cfg.Some? && r.cfgVersion.Some?
  }

  function Saved(p: Pair, saves: seq<Save>): Pair {
    if saves == [] then p
    else
      var before := Saved(p, saves[..|saves| - 1]);
      Pair(Next(before.world, Admin(saves[|saves| - 1])).world, before.device)
  }

  /** All a list of saves can have changed. */
  predicate OnlySaved(a: Record, b: Record) {
    b == a.(cfgVersion := b.cfgVersion,
            extra := a.extra.(rebootArmed := b.extra.rebootArmed, setdefaultArmed := b.extra.setdefaultArmed,
                              cmdTask := b.extra.cmdTask, blocked := b.extra.blocked, deviceWlans := b.extra.deviceWlans))
  }

  lemma SaveKeepsKnown(p: Pair, s: Save)
    requires Known(p)
    ensures var w := Next(p.world, Admin(s)).world; Known(Pair(w, p.device)) && OnlySaved(p.world.rec, w.rec)
  {
    hide InvW, AddBlockedClient, RemoveBlockedClient, EncodeStoredWlans;
    StepKeeps(p.world, Admin(s));
    SaveFrame(p.world.rec, s, p.world.next);
  }

  lemma {:induction false} SavesKeepKnown(p: Pair, saves: seq<Save>)
    requires Known(p)
    ensures Known(Saved(p, saves)) && OnlySaved(p.world.rec, Saved(p, saves).world.rec) && Saved(p, saves).device == p.device
  {
    hide Next, Known;
    if saves != [] {
      SavesKeepKnown(p, saves[..|saves| - 1]);
      SaveKeepsKnown(Saved(p, saves[..|saves| - 1]), saves[|saves| - 1]);
    }
  }

  lemma {:induction false} ExchangesConcat(p: Pair, radios: seq<Row>, a: seq<int>, b: seq<int>)
    ensures Exchanges(p, radios, a + b) == Exchanges(Exchanges(p, radios, a), radios, b)
  {
    hide Exchange;
    if b == [] {
      assert a + b == a;
    } else {
      ExchangesConcat(p, radios, a, b[..|b| - 1]);
      assert (a + b)[..|a + b| - 1] == a + b[..|b| - 1] && (a + b)[|a + b| - 1] == b[|b| - 1];
    }
  }

  // ---- armed reboots and tasks --------------------------------------------------------------------------

  function Arms(x: Extra): nat {
    (if x.rebootArmed then 1 else 0) + (if x.cmdTask.Some? then 1 else 0)
  }

  /** What an inform that fires an armed reboot or task leaves of the record. */
  predicate OnlyFired(p: Pair, q: Pair, radios: seq<Row>) {
    var a, b := p.world.rec, q.world.rec;
    && q.device == p.device
    && b == a.(lastSeen := b.lastSeen, appliedCfg := p.device.cfg, keyConfirmed := true,
               extra := a.extra.(radioTable := Some(radios), vapTable := Some(ReportTable(p.device.running)),
                                 rebootArmed := b.extra.rebootArmed, cmdTask := b.extra.cmdTask, vapMisses := b.extra.vapMisses,
                                 delivery := a.extra.delivery.(notRunningMisses := b.extra.delivery.notRunningMisses)))
  }

  lemma FiresOne(p: Pair, radios: seq<Row>, now: int)
    requires Known(p) && !p.world.rec.extra.setdefaultArmed && Arms(p.world.rec.extra) > 0
    ensures var q := Exchange(p, radios, now).0;
            Known(q) && OnlyFired(p, q, radios) && Arms(q.world.rec.extra) == Arms(p.world.rec.extra) - 1
  {
    hide ReportTable, PlanOf, DecideStatus, InvW;
    var req := DeviceInform(p.device, radios, now);
    StepKeeps(p.world, Inform(req));
    InvKeys(p.world);
  }

  /** A push is due as soon as nothing armed is in the way. */
  predicate Due(p: Pair, cur: Hash) {
    var r := p.world.rec;
    && r.extra.delivery.pendingSha.None?
    && ((r.extra.delivery.sha.Some? && r.extra.delivery.sha.value != cur) || BlockedDrift(r.extra) || p.device.cfg != r.cfgVersion)
  }

  /** Firing changes neither whether the pair is settled nor whether a push is due. */
  lemma FiringKeeps(p: Pair, q: Pair, radios: seq<Row>, wls: seq<Wlan>)
    requires Known(p) && OnlyFired(p, q, radios)
    ensures DeviceWlans(q.world.rec.extra) == DeviceWlans(p.world.rec.extra)
    ensures AdoptedAndSettled(p, radios, wls) ==> AdoptedAndSettled(q, radios, wls)
    ensures Due(p, WlanListHash(wls)) ==> Due(q, WlanListHash(wls))
    ensures !p.world.rec.extra.setdefaultArmed ==> !q.world.rec.extra.setdefaultArmed
  {
    hide ReportTable, DeviceWlans, BlockedDrift, InvW, VapsOfFirst, StoredRadios;
    SameWlans(p.world.rec.extra, q.world.rec.extra);
    SameBlocked(p.world.rec.extra, q.world.rec.extra);
  }

  /** After as many informs as commands are armed, none is, and the rest stands. */
  lemma {:induction false} FiresAll(p: Pair, radios: seq<Row>, wls: seq<Wlan>, t: seq<int>)
    requires Known(p) && !p.world.rec.extra.setdefaultArmed && |t| <= Arms(p.world.rec.extra)
    ensures var q := Exchanges(p, radios, t);
            && Known(q) && Arms(q.world.rec.extra) == Arms(p.world.rec.extra) - |t| && !q.world.rec.extra.setdefaultArmed
            && DeviceWlans(q.world.rec.extra) == DeviceWlans(p.world.rec.extra)
            && (AdoptedAndSettled(p, radios, wls) ==> AdoptedAndSettled(q, radios, wls))
            && (Due(p, WlanListHash(wls)) ==> Due(q, WlanListHash(wls)))
  {
    hide Exchange, Known, AdoptedAndSettled, Due, DeviceWlans, OnlyFired, Arms;
    if t != [] {
      var before := Exchanges(p, radios, t[..|t| - 1]);
      FiresAll(p, radios, wls, t[..|t| - 1]);
      FiresOne(before, radios, t[|t| - 1]);
      FiringKeeps(before, Exchange(before, radios, t[|t| - 1]).0, radios, wls);
    }
  }

  // ---- a factory reset -------------------------------------------------------------------------------------

  /** An armed reset makes a candidate of the record and a factory device of the device. */
  lemma Resets(p: Pair, radios: seq<Row>, wls: seq<Wlan>, now: int)
    requires Known(p) && p.world.rec.extra.setdefaultArmed
    requires DeviceWlans(p.world.rec.extra) == wls && Plannable(wls, StoredRadios(Some(radios)))
    ensures var q := Exchange(p, radios, now).0; Setting(q, radios, wls) && Candidate(q)
  {
    hide ReportTable, PlanOf, DecideStatus, InvW, Plannable, DeviceWlans;
    var req := DeviceInform(p.device, radios, now);
    StepKeeps(p.world, Inform(req));
    InvKeys(p.world);
    SameWlans(Next(p.world, Inform(req)).world.rec.extra, p.world.rec.extra);
  }

  // ---- any saves ---------------------------------------------------------------------------------------------

  /** What a settled pair looks like after any saves. */
  lemma SavedIsSettledOrDue(p: Pair, radios: seq<Row>, prior: seq<Wlan>, saves: seq<Save>, wls: seq<Wlan>)
    requires Around(p, radios, prior) && AdoptedAndSettled(p, radios, prior)
    ensures var q := Saved(p, saves);
            && Known(q)
            && (Due(q, WlanListHash(wls)) || (WlanListHash(wls) == WlanListHash(prior) && AdoptedAndSettled(q, radios, prior)))
  {
    hide InvW, DeviceWlans, BlockedDrift, Plannable, Saved, ReportTable, VapsOfFirst, StoredRadios;
    SavesKeepKnown(p, saves);
  }

  /**
   Any list of saves on a settled device, armed reboots, tasks and resets included: at most five
   informs later the device is settled and nothing is armed. It runs the saved envelope, or the one
   before where the save did not even move the drift hash.
   */
  lemma AnySavesSettle(p: Pair, radios: seq<Row>, prior: seq<Wlan>, saves: seq<Save>, wls: seq<Wlan>, t: seq<int>) returns (n: nat)
    requires Around(p, radios, prior) && AdoptedAndSettled(p, radios, prior) && |t| == 5
    requires DeviceWlans(Saved(p, saves).world.rec.extra) == wls && Plannable(wls, StoredRadios(Some(radios)))
    ensures n <= 5
    ensures var q := Exchanges(Saved(p, saves), radios, t[..n]);
            && Around(q, radios, wls)
            && (AdoptedAndSettled(q, radios, wls) || (WlanListHash(wls) == WlanListHash(prior) && AdoptedAndSettled(q, radios, prior)))
  {
    hide Exchange, Exchanges, Saved, Known, AdoptedAndSettled, Due, DeviceWlans, Plannable, Candidate;
    var s := Saved(p, saves);
    SavedIsSettledOrDue(p, radios, prior, saves, wls);
    if s.world.rec.extra.setdefaultArmed {
      n := 5;
      SettlesAfterReset(s, radios, wls, t);
    } else {
      n := SettlesAfterFiring(s, radios, prior, wls, t);
    }
  }

  lemma SettlesAfterReset(s: Pair, radios: seq<Row>, wls: seq<Wlan>, t: seq<int>)
    requires Known(s) && s.world.rec.extra.setdefaultArmed && |t| == 5
    requires DeviceWlans(s.world.rec.extra) == wls && Plannable(wls, StoredRadios(Some(radios)))
    ensures Around(Exchanges(s, radios, t[..5]), radios, wls) && AdoptedAndSettled(Exchanges(s, radios, t[..5]), radios, wls)
  {
    hide Exchange, Known, AdoptedAndSettled, DeviceWlans, Plannable, Candidate, Around, AtRest;
    Resets(s, radios, wls, t[0]);
    assert t[..5] == [t[0]] + t[1..] && [t[0]][..0] == [];
    assert Exchanges(s, radios, [t[0]]) == Exchange(s, radios, t[0]).0;
    ExchangesConcat(s, radios, [t[0]], t[1..]);
    AdoptedByFourthInform(Exchange(s, radios, t[0]).0, radios, wls, t[1..]);
  }

  lemma SettlesAfterFiring(s: Pair, radios: seq<Row>, prior: seq<Wlan>, wls: seq<Wlan>, t: seq<int>) returns (n: nat)
    requires Known(s) && !s.world.rec.extra.setdefaultArmed && |t| == 5
    requires DeviceWlans(s.world.rec.extra) == wls && Plannable(wls, StoredRadios(Some(radios)))
    requires Due(s, WlanListHash(wls)) || (WlanListHash(wls) == WlanListHash(prior) && AdoptedAndSettled(s, radios, prior))
    ensures n <= 4
    ensures var q := Exchanges(s, radios, t[..n]);
            && Around(q, radios, wls)
            && (AdoptedAndSettled(q, radios, wls) || (WlanListHash(wls) == WlanListHash(prior) && AdoptedAndSettled(q, radios, prior)))
  {
    hide Exchange, Exchanges, AdoptedAndSettled, DeviceWlans, Plannable, InvW, BlockedDrift, DeliveryProven, WlanListHash, Arms;
    var m := Arms(s.world.rec.extra);
    assert m <= 2 && m - |t[..m]| == 0 by { ArmsBound(s.world.rec.extra); }
    FiresAll(s, radios, wls, t[..m]);
    FiresAll(s, radios, prior, t[..m]);
    var q := Exchanges(s, radios, t[..m]);
    ArmsBound(q.world.rec.extra);
    if Due(s, WlanListHash(wls)) {
      n := m + 2;
      OpenSettles(q, radios, wls, t[m], t[m + 1]);
      assert t[..n] == t[..m] + [t[m], t[m + 1]];
      ExchangesConcat(s, radios, t[..m], [t[m], t[m + 1]]);
    } else {
      n := m;
    }
  }

  lemma ArmsBound(x: Extra)
    ensures Arms(x) <= 2 && (Arms(x) == 0 && !x.setdefaultArmed ==> !Armed(x))
  {
  }
}
