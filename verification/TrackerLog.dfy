/**
 The tracker is a faithful log: replaying what it emitted through an "away, or at one AP"
 machine is always legal and ends where the tracker believes every client is.
 */
module TrackerLog {
  import opened Options
  import opened Sessions
  import opened Tracker

  /** Where each client is; a client away has no entry. */
  type Where = map<string, string>

  /** The reference machine: one event read as a move, None when the move is illegal. */
  function Replay1(w: Where, e: Event): Option<Where> {
    match e.key
    case EvtConnected => if e.client in w then None else Some(w[e.client := e.ap])
    case EvtDisconnected => if e.client in w && w[e.client] == e.ap then Some(w - {e.client}) else None
    case EvtRoam => if e.client in w && w[e.client] == e.apFrom && e.apFrom != e.apTo then Some(w[e.client := e.apTo]) else None
    case EvtRoamRadio => if e.client in w && w[e.client] == e.ap then Some(w) else None
  }

  function Replay(w: Where, log: seq<Event>): Option<Where> {
    if log == [] then Some(w)
    else
      var before := Replay(w, log[..|log| - 1]);
      if before.None? then None else Replay1(before.value, log[|log| - 1])
  }

  function Located(current: map<string, Presence>): Where {
    map c | c in current :: current[c].ap
  }

  /** A held disconnect always matches the client's current AP. */
  ghost predicate HeldMatchesCurrent(s: State) {
    forall c :: c in s.pending ==> c in s.current && s.current[c].ap == s.pending[c].ap
  }

  ghost predicate Faithful(seed: Where, s: State) {
    HeldMatchesCurrent(s) && Replay(seed, s.log) == Some(Located(s.current))
  }

  lemma ReplaySnoc(w: Where, log: seq<Event>, e: Event)
    ensures Replay(w, log + [e]) == if Replay(w, log).None? then None else Replay1(Replay(w, log).value, e)
  {
    assert (log + [e])[..|log|] == log;
  }

  lemma ConnectingFaithful(seed: Where, s: State, ap: string, tr: Transition)
    requires Faithful(seed, s)
    ensures Faithful(seed, Connecting(s, ap, tr))
  {
    hide Replay;
    var c, w := tr.mac, Located(s.current);
    assert Located(s.current[c := Presence(ap, tr.session)]) == w[c := ap];
    if c in s.pending {
      var p := s.pending[c];
      if p.ap == ap {
        var away := w - {c};
        ReplaySnoc(seed, s.log, DisconnectEvent(c, p));
        ReplaySnoc(seed, s.log + [DisconnectEvent(c, p)], ConnectEvent(ap, tr));
        assert s.log + [DisconnectEvent(c, p), ConnectEvent(ap, tr)] == s.log + [DisconnectEvent(c, p)] + [ConnectEvent(ap, tr)];
        assert away[c := ap] == w[c := ap];
      } else {
        ReplaySnoc(seed, s.log, RoamEvent(p.ap, p.session, ap, tr));
      }
    } else if c in s.current {
      if s.current[c].ap != ap {
        ReplaySnoc(seed, s.log, RoamEvent(s.current[c].ap, s.current[c].session, ap, tr));
      } else {
        assert w[c := ap] == w;
      }
    } else {
      ReplaySnoc(seed, s.log, ConnectEvent(ap, tr));
    }
  }

  lemma RetuningFaithful(seed: Where, s: State, ap: string, tr: Transition)
    requires Faithful(seed, s)
    ensures Faithful(seed, Retuning(s, ap, tr))
  {
    hide Replay;
    if Accepts(s, ap, tr.mac) {
      assert Located(s.current[tr.mac := Presence(ap, tr.session)]) == Located(s.current);
      ReplaySnoc(seed, s.log, RadioEvent(ap, tr));
    }
  }

  lemma ReleasingFaithful(seed: Where, s: State, c: string)
    requires Faithful(seed, s)
    ensures Faithful(seed, Releasing(s, c))
  {
    hide Replay;
    if c in s.pending {
      assert Located(s.current - {c}) == Located(s.current) - {c};
      ReplaySnoc(seed, s.log, DisconnectEvent(c, s.pending[c]));
    }
  }

  lemma StepFaithful(seed: Where, s: State, st: Step)
    requires Faithful(seed, s)
    ensures Faithful(seed, Do(s, st))
  {
    hide Replay, Connecting, Retuning, Releasing;
    match st
    case Release(c) => ReleasingFaithful(seed, s, c);
    case See(ap, tr, deadline) =>
      match tr.kind
      case Connect => ConnectingFaithful(seed, s, ap, tr);
      case Disconnect =>
      case RadioChange => RetuningFaithful(seed, s, ap, tr);
  }

  /**
   From any seeded index and through any interleaving of transitions and released
   disconnects, the emitted log replays legally to exactly the tracker's index.
   */
  lemma {:induction false} LogReplaysToCurrent(seeded: map<string, Presence>, steps: seq<Step>)
    ensures Faithful(Located(seeded), DoAll(State(seeded, map[], []), steps))
  {
    if steps != [] {
      LogReplaysToCurrent(seeded, steps[..|steps| - 1]);
      hide Faithful, Do;
      StepFaithful(Located(seeded), DoAll(State(seeded, map[], []), steps[..|steps| - 1]), steps[|steps| - 1]);
    }
  }

  // ---- every accepted disconnect is accounted for -------------------------------------------------

  function CountEvents(log: seq<Event>, key: Key, c: string): nat {
    if log == [] then 0
    else CountEvents(log[..|log| - 1], key, c) + (if log[|log| - 1].key == key && log[|log| - 1].client == c then 1 else 0)
  }

  lemma CountSnoc(log: seq<Event>, e: Event, key: Key, c: string)
    ensures CountEvents(log + [e], key, c) == CountEvents(log, key, c) + (if e.key == key && e.client == c then 1 else 0)
  {
    assert (log + [e])[..|log|] == log;
  }

  predicate AcceptedIn(s: State, st: Step, c: string) {
    st.See? && st.tr.kind == Disconnect && st.tr.mac == c && Accepts(s, st.ap, c)
  }

  /** A connect on another AP within the grace window turns the held disconnect into a roam. */
  predicate RoamsHeld(s: State, st: Step, c: string) {
    st.See? && st.tr.kind == Connect && st.tr.mac == c && c in s.pending && s.pending[c].ap != st.ap
  }

  function AcceptedDisconnects(s: State, steps: seq<Step>, c: string): nat {
    if steps == [] then 0
    else
      var init := steps[..|steps| - 1];
      AcceptedDisconnects(s, init, c) + (if AcceptedIn(DoAll(s, init), steps[|steps| - 1], c) then 1 else 0)
  }

  function RoamsFromHeld(s: State, steps: seq<Step>, c: string): nat {
    if steps == [] then 0
    else
      var init := steps[..|steps| - 1];
      RoamsFromHeld(s, init, c) + (if RoamsHeld(DoAll(s, init), steps[|steps| - 1], c) then 1 else 0)
  }

  function StillHeld(s: State, c: string): nat {
    if c in s.pending then 1 else 0
  }

  function OneIf(b: bool): nat {
    if b then 1 else 0
  }

  lemma StepAccounts(s: State, st: Step, c: string)
    ensures var s' := Do(s, st);
            CountEvents(s'.log, EvtDisconnected, c) + OneIf(RoamsHeld(s, st, c)) + StillHeld(s', c) ==
            CountEvents(s.log, EvtDisconnected, c) + OneIf(AcceptedIn(s, st, c)) + StillHeld(s, c)
  {
    hide CountEvents;
    match st
    case Release(d) =>
      if d in s.pending { CountSnoc(s.log, DisconnectEvent(d, s.pending[d]), EvtDisconnected, c); }
    case See(ap, tr, deadline) =>
      match tr.kind {
        case Connect => ConnectAccounts(s, ap, tr, c);
        case Disconnect =>
        case RadioChange => CountSnoc(s.log, RadioEvent(ap, tr), EvtDisconnected, c);
      }
  }

  lemma ConnectAccounts(s: State, ap: string, tr: Transition, c: string)
    ensures var s' := Connecting(s, ap, tr); var d := tr.mac;
            CountEvents(s'.log, EvtDisconnected, c) + OneIf(d == c && c in s.pending && s.pending[c].ap != ap) + StillHeld(s', c) ==
            CountEvents(s.log, EvtDisconnected, c) + StillHeld(s, c)
  {
    hide CountEvents;
    var d := tr.mac;
    if d in s.pending {
      var p := s.pending[d];
      CountSnoc(s.log, DisconnectEvent(d, p), EvtDisconnected, c);
      CountSnoc(s.log + [DisconnectEvent(d, p)], ConnectEvent(ap, tr), EvtDisconnected, c);
      assert s.log + [DisconnectEvent(d, p), ConnectEvent(ap, tr)] == s.log + [DisconnectEvent(d, p)] + [ConnectEvent(ap, tr)];
      CountSnoc(s.log, RoamEvent(p.ap, p.session, ap, tr), EvtDisconnected, c);
    } else if d in s.current {
      CountSnoc(s.log, RoamEvent(s.current[d].ap, s.current[d].session, ap, tr), EvtDisconnected, c);
    } else {
      CountSnoc(s.log, ConnectEvent(ap, tr), EvtDisconnected, c);
    }
  }

  /**
   Conservation per client: every accepted disconnect became exactly one disconnect event or
   one roam, or is still held.
   */
  lemma {:induction false} DisconnectsConserved(s: State, steps: seq<Step>, c: string)
    ensures var s' := DoAll(s, steps);
            CountEvents(s'.log, EvtDisconnected, c) + RoamsFromHeld(s, steps, c) + StillHeld(s', c) ==
            CountEvents(s.log, EvtDisconnected, c) + AcceptedDisconnects(s, steps, c) + StillHeld(s, c)
  {
    if steps != [] {
      var init := steps[..|steps| - 1];
      DisconnectsConserved(s, init, c);
      hide CountEvents, StillHeld, RoamsHeld, AcceptedIn, Do;
      StepAccounts(DoAll(s, init), steps[|steps| - 1], c);
    }
  }

  // ---- each client's events leave in the order they happened ----------------------------------------

  /** Observation times of a run never step back and start after zero. */
  ghost predicate ClockMonotone(steps: seq<Step>) {
    && (forall i :: 0 <= i < |steps| && steps[i].See? ==> steps[i].tr.at > 0)
    && (forall i, j :: 0 <= i < j < |steps| && steps[i].See? && steps[j].See? ==> steps[i].tr.at <= steps[j].tr.at)
  }

  /** One client's events, in log order. */
  function Of(log: seq<Event>, c: string): seq<Event> {
    if log == [] then []
    else Of(log[..|log| - 1], c) + if log[|log| - 1].client == c then [log[|log| - 1]] else []
  }

  ghost predicate Chronological(log: seq<Event>) {
    && (forall i :: 0 <= i < |log| ==> log[i].time > 0)
    && (forall i, j :: 0 <= i < j < |log| ==> log[i].time <= log[j].time)
  }

  lemma OfSnoc(log: seq<Event>, e: Event, c: string)
    ensures Of(log + [e], c) == if e.client == c then Of(log, c) + [e] else Of(log, c)
    ensures e.client == c ==> |Of(log, c)| < |Of(log + [e], c)| && Of(log + [e], c)[|Of(log, c)|] == e
  {
    assert (log + [e])[..|log|] == log;
  }

  /** Everything c did so far happened by the time clock, a held disconnect after every event. */
  ghost predicate Timely(s: State, c: string, clock: int) {
    && Chronological(Of(s.log, c))
    && (forall i :: 0 <= i < |Of(s.log, c)| ==> Of(s.log, c)[i].time <= Millis(clock))
    && (c in s.pending ==>
          0 < s.pending[c].at <= clock &&
          forall i :: 0 <= i < |Of(s.log, c)| ==> Of(s.log, c)[i].time <= Millis(s.pending[c].at))
  }

  /** Appending one event no earlier than c's last keeps c's log chronological. */
  lemma EmitTimely(log: seq<Event>, c: string, e: Event, clock: int)
    requires Chronological(Of(log, c)) && e.time > 0
    requires forall i :: 0 <= i < |Of(log, c)| ==> Of(log, c)[i].time <= e.time
    requires e.time <= Millis(clock)
    ensures Chronological(Of(log + [e], c))
    ensures forall i :: 0 <= i < |Of(log + [e], c)| ==> Of(log + [e], c)[i].time <= Millis(clock)
  {
    OfSnoc(log, e, c);
    hide Of;
  }

  lemma ConnectTimely(s: State, ap: string, tr: Transition, c: string, clock: int)
    requires Timely(s, c, clock) && clock <= tr.at && tr.at > 0
    ensures Timely(Connecting(s, ap, tr), c, tr.at)
  {
    var d := tr.mac;
    hide Of, Chronological;
    if d in s.pending {
      var p := s.pending[d];
      OfSnoc(s.log, DisconnectEvent(d, p), c);
      OfSnoc(s.log + [DisconnectEvent(d, p)], ConnectEvent(ap, tr), c);
      assert s.log + [DisconnectEvent(d, p), ConnectEvent(ap, tr)] == s.log + [DisconnectEvent(d, p)] + [ConnectEvent(ap, tr)];
      OfSnoc(s.log, RoamEvent(p.ap, p.session, ap, tr), c);
      if d == c {
        EmitTimely(s.log, c, DisconnectEvent(d, p), tr.at);
        EmitTimely(s.log + [DisconnectEvent(d, p)], c, ConnectEvent(ap, tr), tr.at);
        EmitTimely(s.log, c, RoamEvent(p.ap, p.session, ap, tr), tr.at);
      }
    } else if d in s.current {
      var e := RoamEvent(s.current[d].ap, s.current[d].session, ap, tr);
      OfSnoc(s.log, e, c);
      if d == c { EmitTimely(s.log, c, e, tr.at); }
    } else {
      OfSnoc(s.log, ConnectEvent(ap, tr), c);
      if d == c { EmitTimely(s.log, c, ConnectEvent(ap, tr), tr.at); }
    }
  }

  lemma SeeTimely(s: State, ap: string, tr: Transition, deadline: int, c: string, clock: int)
    requires Timely(s, c, clock) && clock <= tr.at && tr.at > 0
    ensures Timely(Do(s, See(ap, tr, deadline)), c, tr.at)
  {
    hide Of, Chronological, Connecting;
    match tr.kind
    case Connect => ConnectTimely(s, ap, tr, c, clock);
    case Disconnect =>
    case RadioChange =>
      OfSnoc(s.log, RadioEvent(ap, tr), c);
      if tr.mac == c { EmitTimely(s.log, c, RadioEvent(ap, tr), tr.at); }
  }

  lemma ReleaseTimely(s: State, d: string, c: string, clock: int)
    requires Timely(s, c, clock)
    ensures Timely(Releasing(s, d), c, clock)
  {
    hide Of, Chronological;
    if d in s.pending {
      OfSnoc(s.log, DisconnectEvent(d, s.pending[d]), c);
      if d == c { EmitTimely(s.log, c, DisconnectEvent(d, s.pending[d]), clock); }
    }
  }

  /** The latest observation time of a run, 0 when nothing was observed. */
  function LastSeenAt(steps: seq<Step>): int {
    if steps == [] then 0
    else if steps[|steps| - 1].See? then steps[|steps| - 1].tr.at
    else LastSeenAt(steps[..|steps| - 1])
  }

  lemma {:induction false} LastSeenAtBound(steps: seq<Step>, at: int)
    requires at >= 0 && forall i :: 0 <= i < |steps| && steps[i].See? ==> steps[i].tr.at <= at
    ensures LastSeenAt(steps) <= at
  {
    if steps != [] && !steps[|steps| - 1].See? { LastSeenAtBound(steps[..|steps| - 1], at); }
  }

  lemma {:induction false} RunTimely(seeded: map<string, Presence>, steps: seq<Step>, c: string)
    requires ClockMonotone(steps)
    ensures Timely(DoAll(State(seeded, map[], []), steps), c, LastSeenAt(steps))
  {
    if steps != [] {
      var init, last := steps[..|steps| - 1], steps[|steps| - 1];
      var s := DoAll(State(seeded, map[], []), init);
      RunTimely(seeded, init, c);
      match last
      case Release(d) => hide Timely, Releasing; ReleaseTimely(s, d, c, LastSeenAt(init));
      case See(ap, tr, deadline) =>
        LastSeenAtBound(init, tr.at);
        hide Timely, Connecting;
        SeeTimely(s, ap, tr, deadline, c, LastSeenAt(init));
    }
  }
}
