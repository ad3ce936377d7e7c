/**
 The cross-AP client tracker (internal/clientevents/tracker.go): per-AP session transitions
 become client events, with disconnects held back during a grace window.
 */
module Tracker {
  import opened Options
  import opened Text
  import opened Sorting
  import opened Sessions

  datatype Presence = Presence(ap: string, session: Row)

  datatype Held = Held(ap: string, session: Row, at: int, deadline: int)

  datatype Key = EvtConnected | EvtDisconnected | EvtRoam | EvtRoamRadio

  /** One client event; the rendered message, date string and AP display names are left out. */
  datatype Event = Event(
    key: Key, time: int, client: string, hostname: string, ip: string, ap: string, apFrom: string, apTo: string,
    ssid: string, radio: string, radioFrom: string, channel: int, channelFrom: int, duration: int, bytes: int)

  function Millis(at: int): int {
    at * 1000
  }

  function ConnectEvent(ap: string, tr: Transition): Event {
    Event(EvtConnected, Millis(tr.at), tr.mac, tr.session.hostname, tr.session.ip, ap, "", "",
          tr.session.essid, tr.session.radio, "", tr.session.channel, 0, 0, 0)
  }

  function DisconnectEvent(client: string, p: Held): Event {
    var s := p.session;
    var duration := if s.since > 0 && s.lastSeen >= s.since then s.lastSeen - s.since else 0;
    Event(EvtDisconnected, Millis(p.at), client, s.hostname, s.ip, p.ap, "", "", s.essid, s.radio, "", s.channel, 0, duration, s.bytes)
  }

  function RoamEvent(fromAp: string, from: Row, toAp: string, tr: Transition): Event {
    Event(EvtRoam, Millis(tr.at), tr.mac, KnownText(tr.session.hostname, from.hostname), KnownText(tr.session.ip, from.ip), "", fromAp, toAp,
          KnownText(tr.session.essid, from.essid), tr.session.radio, from.radio, tr.session.channel, from.channel, 0, 0)
  }

  function RadioEvent(ap: string, tr: Transition): Event {
    Event(EvtRoamRadio, Millis(tr.at), tr.mac, tr.session.hostname, tr.session.ip, ap, "", "",
          tr.session.essid, tr.session.radio, tr.prev.radio, tr.session.channel, tr.prev.channel, 0, 0)
  }

  /** The tracker's two maps and everything its sinks were given so far. */
  datatype State = State(current: map<string, Presence>, pending: map<string, Held>, log: seq<Event>)

  function Connecting(s: State, ap: string, tr: Transition): State {
    var c := tr.mac;
    var here := s.current[c := Presence(ap, tr.session)];
    if c in s.pending then
      var p := s.pending[c];
      State(here, s.pending - {c},
            s.log + if p.ap == ap then [DisconnectEvent(c, p), ConnectEvent(ap, tr)] else [RoamEvent(p.ap, p.session, ap, tr)])
    else if c in s.current then
      s.(current := here, log := if s.current[c].ap == ap then s.log else s.log + [RoamEvent(s.current[c].ap, s.current[c].session, ap, tr)])
    else s.(current := here, log := s.log + [ConnectEvent(ap, tr)])
  }

  /** A disconnect report is accepted when the client is recorded here and none is held yet. */
  predicate Accepts(s: State, ap: string, c: string) {
    c in s.current && s.current[c].ap == ap && c !in s.pending
  }

  function Disconnecting(s: State, ap: string, tr: Transition, deadline: int): State {
    if Accepts(s, ap, tr.mac) then s.(pending := s.pending[tr.mac := Held(ap, tr.session, tr.at, deadline)]) else s
  }

  function Retuning(s: State, ap: string, tr: Transition): State {
    if Accepts(s, ap, tr.mac) then
      s.(current := s.current[tr.mac := Presence(ap, tr.session)], log := s.log + [RadioEvent(ap, tr)])
    else s
  }

  function Releasing(s: State, c: string): State {
    if c !in s.pending then s
    else
      var p := s.pending[c];
      State(if c in s.current && s.current[c].ap == p.ap then s.current - {c} else s.current,
            s.pending - {c}, s.log + [DisconnectEvent(c, p)])
  }

  /** One transition of one inform, or one held disconnect released. */
  datatype Step =
    | See(ap: string, tr: Transition, deadline: int)
    | Release(client: string)

  function Do(s: State, st: Step): State {
    match st
    case Release(c) => Releasing(s, c)
    case See(ap, tr, deadline) =>
      match tr.kind
      case Connect => Connecting(s, ap, tr)
      case Disconnect => Disconnecting(s, ap, tr, deadline)
      case RadioChange => Retuning(s, ap, tr)
  }

  function DoAll(s: State, steps: seq<Step>): State {
    if steps == [] then s else Do(DoAll(s, steps[..|steps| - 1]), steps[|steps| - 1])
  }

  /** One Observe call: clock[i] is what the clock read while transition i was handled. */
  function Sees(ap: string, ts: seq<Transition>, clock: seq<int>, grace: int): seq<Step>
    requires |clock| == |ts|
  {
    seq(|ts|, i requires 0 <= i < |ts| => See(ap, ts[i], clock[i] + grace))
  }

  function Releases(due: seq<string>): seq<Step> {
    seq(|due|, i requires 0 <= i < |due| => Release(due[i]))
  }

  function HeldAt(s: State, c: string): int {
    if c in s.pending then s.pending[c].at else 0
  }

  /** Release order of a flush: earlier disconnect first, the MAC breaking ties. */
  predicate Sooner(s: State, a: string, b: string) {
    HeldAt(s, a) < HeldAt(s, b) || (HeldAt(s, a) == HeldAt(s, b) && Less(a, b))
  }

  function ReleaseOrder(s: State): (string, string) -> bool {
    (a: string, b: string) => Sooner(s, a, b)
  }

  /** due lists the held disconnects whose window has elapsed at now, in release order. */
  ghost predicate IsDue(s: State, now: int, due: seq<string>) {
    && (forall c :: c in due <==> c in s.pending && s.pending[c].deadline <= now)
    && (forall i, j :: 0 <= i < j < |due| ==> Sooner(s, due[i], due[j]))
  }

  lemma ReleaseOrderIsStrict(s: State, due: seq<string>)
    requires Distinct(due)
    ensures StrictOrder(ReleaseOrder(s)) && Comparable(ReleaseOrder(s), due)
  {
    LessIsStrict();
    hide Less;
  }

  lemma DueOf(s: State, now: int, found: seq<string>, due: seq<string>)
    requires forall c :: c in found <==> c in s.pending && s.pending[c].deadline <= now
    requires SameItems(due, found) && Ascending(ReleaseOrder(s), due)
    ensures IsDue(s, now, due)
  {
    hide Sooner;
    forall i, j | 0 <= i < j < |due| ensures Sooner(s, due[i], due[j]) {
      assert ReleaseOrder(s)(due[i], due[j]);
    }
  }

  lemma DueDistinct(s: State, now: int, due: seq<string>)
    requires IsDue(s, now, due)
    ensures Distinct(due) && forall j :: 0 <= j < |due| ==> due[j] in s.pending
  {
    forall i, j | 0 <= i < j < |due| ensures due[i] != due[j] {
      LessIrreflexive(due[i]);
    }
  }

  /** One device's stored session rows, as Seed reads them. */
  datatype Device = Device(ap: string, rows: Rows)

  predicate IsOn(d: Device, c: string) {
    c in d.rows && d.rows[c].connected
  }

  predicate Offers(d: Device, c: string, p: Presence) {
    IsOn(d, c) && p == Presence(d.ap, d.rows[c])
  }

  /** The freshest connected row of every client, among what was known before and the devices. */
  ghost predicate SeededFrom(before: map<string, Presence>, devices: seq<Device>, after: map<string, Presence>) {
    && (forall c :: c in before ==> c in after && before[c].session.lastSeen <= after[c].session.lastSeen)
    && (forall d, c :: d in devices && IsOn(d, c) ==> c in after && d.rows[c].lastSeen <= after[c].session.lastSeen)
    && (forall c :: c in after ==> (c in before && after[c] == before[c]) || exists d :: d in devices && Offers(d, c, after[c]))
  }

  /** A row replaces what is known only when it is strictly fresher. */
  predicate Fresher(before: map<string, Presence>, d: Device, c: string) {
    IsOn(d, c) && (c in before ==> before[c].session.lastSeen < d.rows[c].lastSeen)
  }

  /** The index once the rows of done were read from one device. */
  function SeededRows(before: map<string, Presence>, d: Device, done: set<string>): map<string, Presence> {
    map c | c in before.Keys + done && (c in before || IsOn(d, c)) ::
      if c in done && Fresher(before, d, c) then Presence(d.ap, d.rows[c]) else if c in before then before[c] else Presence(d.ap, d.rows[c])
  }

  lemma SeedNothing(before: map<string, Presence>, d: Device)
    ensures SeededRows(before, d, {}) == before
  {
  }

  lemma SeedStep(before: map<string, Presence>, d: Device, done: set<string>, c: string)
    requires c in d.rows && c !in done
    ensures var cur, row := SeededRows(before, d, done), d.rows[c];
            SeededRows(before, d, done + {c}) ==
            if row.connected && !(c in cur && cur[c].session.lastSeen >= row.lastSeen) then cur[c := Presence(d.ap, row)] else cur
  {
  }

  lemma SeedDevice(first: map<string, Presence>, seen: seq<Device>, before: map<string, Presence>, d: Device)
    requires SeededFrom(first, seen, before)
    ensures SeededFrom(first, seen + [d], SeededRows(before, d, d.rows.Keys))
  {
    var after := SeededRows(before, d, d.rows.Keys);
    forall c | c in after ensures (c in first && after[c] == first[c]) || exists d' :: d' in seen + [d] && Offers(d', c, after[c]) {
      if Fresher(before, d, c) {
        assert d in seen + [d] && Offers(d, c, after[c]);
      } else if !(c in first && after[c] == first[c]) {
        var d' :| d' in seen && Offers(d', c, before[c]);
        assert d' in seen + [d];
      }
    }
  }

  lemma DoNothing(s: State)
    ensures DoAll(s, []) == s
  {
  }

  lemma DoOneMore(s: State, steps: seq<Step>, i: nat)
    requires i < |steps|
    ensures DoAll(s, steps[..i + 1]) == Do(DoAll(s, steps[..i]), steps[i])
  {
    assert steps[..i + 1][..i] == steps[..i];
  }

  class ClientTracker {
    const grace: int
    var current: map<string, Presence>
    var pending: map<string, Held>
    var log: seq<Event>            // what every sink received, in order

    function View(): State
      reads this
    {
      State(current, pending, log)
    }

    constructor (grace: int)
      ensures this.grace == grace && View() == State(map[], map[], [])
    {
      this.grace, current, pending, log := grace, map[], map[], [];
    }

    /** Seed: primes the index from persisted rows without emitting events. */
    method Seed(devices: seq<Device>)
      modifies this
      ensures SeededFrom(old(current), devices, current)
      ensures pending == old(pending) && log == old(log)
    {
      ghost var first := current;
      for i := 0 to |devices|
        invariant SeededFrom(first, devices[..i], current)
        invariant pending == old(pending) && log == old(log)
      {
        SeedDevice(first, devices[..i], current, devices[i]);
        assert devices[..i + 1] == devices[..i] + [devices[i]];
        SeedRows(devices[i]);
      }
      assert devices[..|devices|] == devices;
    }

    method SeedRows(d: Device)
      modifies this
      ensures current == SeededRows(old(current), d, d.rows.Keys)
      ensures pending == old(pending) && log == old(log)
    {
      ghost var before := current;
      var rest := d.rows.Keys;
      ghost var done: set<string> := {};
      SeedNothing(before, d);
      hide SeededRows;
      while rest != {}
        invariant rest <= d.rows.Keys && done == d.rows.Keys - rest
        invariant current == SeededRows(before, d, done)
        invariant pending == old(pending) && log == old(log)
        decreases |rest|
      {
        var c :| c in rest;
        SeedStep(before, d, done, c);
        var row := d.rows[c];
        if row.connected && !(c in current && current[c].session.lastSeen >= row.lastSeen) {
          current := current[c := Presence(d.ap, row)];
        }
        rest := rest - {c};
        done := done + {c};
      }
      assert done == d.rows.Keys;
    }

    method Connect(ap: string, tr: Transition)
      modifies this
      ensures View() == Connecting(old(View()), ap, tr)
    {
      var c := tr.mac;
      if c in pending {
        var pend := pending[c];
        pending := pending - {c};
        if pend.ap == ap {
          log := log + [DisconnectEvent(c, pend)];
          log := log + [ConnectEvent(ap, tr)];
        } else {
          log := log + [RoamEvent(pend.ap, pend.session, ap, tr)];
        }
        current := current[c := Presence(ap, tr.session)];
        return;
      }
      if c in current {
        var cur := current[c];
        if cur.ap == ap {
          current := current[c := Presence(ap, tr.session)];
          return;
        }
        log := log + [RoamEvent(cur.ap, cur.session, ap, tr)];
        current := current[c := Presence(ap, tr.session)];
        return;
      }
      log := log + [ConnectEvent(ap, tr)];
      current := current[c := Presence(ap, tr.session)];
    }

    method Disconnect(ap: string, tr: Transition, now: int)
      modifies this`pending
      ensures View() == Disconnecting(old(View()), ap, tr, now + grace)
    {
      var c := tr.mac;
      if c !in current || current[c].ap != ap {
        return;
      }
      if c in pending {
        return;
      }
      pending := pending[c := Held(ap, tr.session, tr.at, now + grace)];
    }

    method RadioChanged(ap: string, tr: Transition)
      modifies this
      ensures View() == Retuning(old(View()), ap, tr)
    {
      var c := tr.mac;
      if c !in current || current[c].ap != ap {
        return;
      }
      if c in pending {
        return;
      }
      log := log + [RadioEvent(ap, tr)];
      current := current[c := Presence(ap, tr.session)];
    }

    /** Observe: the transitions one committed inform produced. */
    method Observe(ap: string, ts: seq<Transition>, clock: seq<int>)
      requires |clock| == |ts|
      modifies this
      ensures View() == DoAll(old(View()), Sees(ap, ts, clock, grace))
    {
      hide Connecting, Disconnecting, Retuning, DoAll;
      DoNothing(View());
      ghost var steps := Sees(ap, ts, clock, grace);
      for i := 0 to |ts|
        invariant View() == DoAll(old(View()), steps[..i])
      {
        ghost var before := View();
        match ts[i].kind {
          case Connect => Connect(ap, ts[i]);
          case Disconnect => Disconnect(ap, ts[i], clock[i]);
          case RadioChange => RadioChanged(ap, ts[i]);
        }
        assert View() == Do(before, steps[i]);
        DoOneMore(old(View()), steps, i);
      }
      assert steps[..|ts|] == steps;
    }

    method ReleaseOne(c: string)
      requires c in pending
      modifies this
      ensures View() == Releasing(old(View()), c)
      ensures pending == old(pending) - {c}
    {
      var p := pending[c];
      pending := pending - {c};
      if c in current && current[c].ap == p.ap {
        current := current - {c};
      }
      log := log + [DisconnectEvent(c, p)];
    }

    /** Flush: emits the held disconnects whose grace window has elapsed. */
    method Flush(now: int) returns (ghost released: seq<string>)
      modifies this
      ensures IsDue(old(View()), now, released)
      ensures View() == DoAll(old(View()), Releases(released))
    {
      ghost var start := View();
      hide DoAll, IsDue, ReleaseOrder, StrictOrder, Comparable, Ascending, Releasing;
      var found := ListOf(set c | c in pending && !(now < pending[c].deadline));
      ReleaseOrderIsStrict(View(), found);
      var due := SortBy(found, ReleaseOrder(View()));
      DueOf(View(), now, found, due);
      DueDistinct(View(), now, due);
      released := due;
      ghost var steps := Releases(due);
      DoNothing(start);
      for i := 0 to |due|
        invariant View() == DoAll(start, steps[..i])
        invariant forall j :: i <= j < |due| ==> due[j] in pending
      {
        ReleaseOne(due[i]);
        DoOneMore(start, steps, i);
      }
      assert steps[..|due|] == steps;
    }
  }
}
