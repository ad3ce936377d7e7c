/**
 The grace window over runs of observations and flushes with their clock readings: no flush
 releases a disconnect before its window is over, the first one after it does, and a client that
 shows up on another access point in between roamed and never disconnected.
 */
module Grace {
  import opened Options
  import opened Text
  import opened Sessions
  import opened Tracker
  import opened TrackerLog

  /** One transition observed while the clock read clock, or a flush at now that released due. */
  datatype Call =
    | Seen(ap: string, tr: Transition, clock: int)
    | Flushed(now: int, due: seq<string>)

  ghost predicate CallOk(s: State, call: Call) {
    call.Flushed? ==> IsDue(s, call.now, call.due)
  }

  function Called(s: State, call: Call, grace: int): State {
    match call
    case Seen(ap, tr, clock) => Do(s, See(ap, tr, clock + grace))
    case Flushed(_, due) => DoAll(s, Releases(due))
  }

  function Run(s: State, calls: seq<Call>, grace: int): State {
    if calls == [] then s else Called(Run(s, calls[..|calls| - 1], grace), calls[|calls| - 1], grace)
  }

  ghost predicate RunOk(s: State, calls: seq<Call>, grace: int) {
    calls != [] ==> RunOk(s, calls[..|calls| - 1], grace) && CallOk(Run(s, calls[..|calls| - 1], grace), calls[|calls| - 1])
  }

  /** The calls are those of a tracker: one observed transition, and one flush. */
  method ObserveOne(t: ClientTracker, ap: string, tr: Transition, clock: int)
    modifies t
    ensures t.View() == Called(old(t.View()), Seen(ap, tr, clock), t.grace)
  {
    hide Do;
    t.Observe(ap, [tr], [clock]);
    assert Sees(ap, [tr], [clock], t.grace) == [See(ap, tr, clock + t.grace)];
    OneStep(old(t.View()), See(ap, tr, clock + t.grace));
  }

  method FlushNow(t: ClientTracker, now: int) returns (ghost due: seq<string>)
    modifies t
    ensures CallOk(old(t.View()), Flushed(now, due)) && t.View() == Called(old(t.View()), Flushed(now, due), t.grace)
  {
    hide IsDue, DoAll;
    due := t.Flush(now);
  }

  lemma OneStep(s: State, step: Step)
    ensures DoAll(s, [step]) == Do(s, step)
  {
    hide Do;
    assert [step][..0] == [];
  }

  // ---- what a flush does ---------------------------------------------------------------------------

  lemma DueApart(s: State, now: int, due: seq<string>)
    requires IsDue(s, now, due)
    ensures forall i, j :: 0 <= i < j < |due| ==> due[i] != due[j]
  {
    forall i, j | 0 <= i < j < |due| ensures due[i] != due[j] {
      assert Sooner(s, due[i], due[j]);
      LessIrreflexive(due[i]);
    }
  }

  /** What was told of c, and where it is and held. */
  predicate SameClient(s: State, t: State, c: string) {
    && Of(t.log, c) == Of(s.log, c)
    && (c in t.pending <==> c in s.pending) && (c in s.pending ==> t.pending[c] == s.pending[c])
    && (c in t.current <==> c in s.current) && (c in s.current ==> t.current[c] == s.current[c])
  }

  predicate ReleasedClient(s: State, t: State, c: string) {
    c in s.pending && c !in t.pending && Of(t.log, c) == Of(s.log, c) + [DisconnectEvent(c, s.pending[c])]
  }

  lemma OneRelease(s: State, d: string, c: string)
    requires d in s.pending
    ensures if c == d then ReleasedClient(s, Releasing(s, d), c) else SameClient(s, Releasing(s, d), c)
  {
    hide Of;
    OfSnoc(s.log, DisconnectEvent(d, s.pending[d]), c);
  }

  lemma NoReleases(s: State)
    ensures DoAll(s, Releases([])) == s
  {
    assert Releases([]) == [];
  }

  lemma OneMoreRelease(s: State, due: seq<string>)
    requires due != []
    ensures DoAll(s, Releases(due)) == Releasing(DoAll(s, Releases(due[..|due| - 1])), due[|due| - 1])
  {
    hide Releasing;
    var steps, n := Releases(due), |due| - 1;
    assert steps[..n] == Releases(due[..n]) && steps[..n + 1] == steps && steps[n] == Release(due[n]);
    DoOneMore(s, steps, n);
  }

  /** Releases touch only the clients they name, each once. */
  lemma {:induction false} ReleasesClient(s: State, due: seq<string>, c: string)
    requires forall i, j :: 0 <= i < j < |due| ==> due[i] != due[j]
    requires forall i :: 0 <= i < |due| ==> due[i] in s.pending
    ensures var t := DoAll(s, Releases(due)); if c in due then ReleasedClient(s, t, c) else SameClient(s, t, c)
  {
    hide DoAll, Releases, DisconnectEvent, Of, Releasing;
    if due == [] {
      NoReleases(s);
    } else {
      var n := |due| - 1;
      ReleasesClient(s, due[..n], c);
      ReleasesClient(s, due[..n], due[n]);
      OneMoreRelease(s, due);
      assert due == due[..n] + [due[n]] && due[n] !in due[..n];
      OneRelease(DoAll(s, Releases(due[..n])), due[n], c);
    }
  }

  lemma DisconnectIsClients(c: string, p: Held)
    ensures DisconnectEvent(c, p).client == c
  {
  }

  lemma FlushClient(s: State, now: int, due: seq<string>, c: string)
    requires IsDue(s, now, due)
    ensures var t := DoAll(s, Releases(due));
            if c in s.pending && s.pending[c].deadline <= now
            then c !in t.pending && Of(t.log, c) == Of(s.log, c) + [DisconnectEvent(c, s.pending[c])]
            else && Of(t.log, c) == Of(s.log, c) && (c in t.pending <==> c in s.pending) && (c in s.pending ==> t.pending[c] == s.pending[c])
                 && (c in t.current <==> c in s.current) && (c in s.current ==> t.current[c] == s.current[c])
  {
    hide DoAll;
    DueApart(s, now, due);
    assert forall i :: 0 <= i < |due| ==> due[i] in due;
    ReleasesClient(s, due, c);
    hide DisconnectEvent;
  }

  // ---- the window of one disconnect --------------------------------------------------------------------

  /** Calls during which c is not observed connecting and no flush reads end or later. */
  predicate Quiet(calls: seq<Call>, c: string, end: int) {
    forall i :: 0 <= i < |calls| ==> match calls[i] case Seen(_, tr, _) => tr.mac != c || tr.kind != Connect case Flushed(now, _) => now < end
  }

  /** c is placed at ap and no disconnect of it is held. */
  predicate Here(s: State, ap: string, c: string) {
    c in s.current && s.current[c].ap == ap && c !in s.pending
  }

  lemma OthersUntouched(s: State, call: Call, grace: int, c: string)
    requires call.Seen? && (call.tr.mac != c || (call.tr.kind != Connect && c in s.pending))
    ensures var t := Called(s, call, grace);
            && Of(t.log, c) == Of(s.log, c) && (c in t.pending <==> c in s.pending) && (c in s.pending ==> t.pending[c] == s.pending[c])
            && (c in t.current <==> c in s.current) && (c in s.current ==> t.current[c] == s.current[c])
  {
    var t := Called(s, call, grace);
    if t.log != s.log {
      if call.tr.kind == Connect && call.tr.mac in s.pending && s.pending[call.tr.mac].ap == call.ap {
        var d, e := DisconnectEvent(call.tr.mac, s.pending[call.tr.mac]), ConnectEvent(call.ap, call.tr);
        assert s.log + [d, e] == s.log + [d] + [e];
        OfSnoc(s.log, d, c);
        OfSnoc(s.log + [d], e, c);
      } else {
        assert t.log == s.log + [t.log[|s.log|]];
        OfSnoc(s.log, t.log[|s.log|], c);
      }
    }
  }

  lemma {:induction false} StillHeld(s: State, calls: seq<Call>, grace: int, c: string, end: int)
    requires RunOk(s, calls, grace) && Quiet(calls, c, end) && c in s.pending && s.pending[c].deadline == end
    ensures var t := Run(s, calls, grace); c in t.pending && t.pending[c] == s.pending[c] && Of(t.log, c) == Of(s.log, c)
  {
    hide IsDue, Of, Do, DoAll, DisconnectEvent;
    if calls != [] {
      var init, call := calls[..|calls| - 1], calls[|calls| - 1];
      StillHeld(s, init, grace, c, end);
      match call
      case Seen(_, _, _) => OthersUntouched(Run(s, init, grace), call, grace, c);
      case Flushed(now, due) => FlushClient(Run(s, init, grace), now, due, c);
    }
  }

  /** The run from the disconnect on: the report of c leaving ap at clock, then the quiet calls, then one more. */
  function Window(s: State, ap: string, tr: Transition, clock: int, quiet: seq<Call>, last: Call, grace: int): State {
    Called(Run(Called(s, Seen(ap, tr, clock), grace), quiet, grace), last, grace)
  }

  /**
   A disconnect of c observed at clock where c was. Through any calls that do not observe c connecting
   and flush only before clock + grace nothing is told of c. Then: a flush at clock + grace or later
   tells the disconnect; an earlier one still nothing; c on another access point is one roam, and
   c back on this one is a disconnect and a connect.
   */
  lemma GraceWindow(s: State, ap: string, tr: Transition, clock: int, quiet: seq<Call>, last: Call, grace: int)
    requires tr.kind == Disconnect && Here(s, ap, tr.mac) && Quiet(quiet, tr.mac, clock + grace)
    requires var held := Called(s, Seen(ap, tr, clock), grace); RunOk(held, quiet, grace) && CallOk(Run(held, quiet, grace), last)
    requires last.Flushed? || (last.tr.mac == tr.mac && last.tr.kind == Connect)
    ensures var before, told := Of(s.log, tr.mac), Of(Window(s, ap, tr, clock, quiet, last, grace).log, tr.mac);
            match last
            case Flushed(now, _) =>
              if now < clock + grace then told == before
              else |told| == |before| + 1 && told[..|before|] == before && Left(told[|before|], tr, ap)
            case Seen(to, arrival, _) =>
              if to != ap then |told| == |before| + 1 && told[..|before|] == before && Roamed(told[|before|], tr, ap, arrival, to)
              else |told| == |before| + 2 && told[..|before|] == before
                   && Left(told[|before|], tr, ap) && Joined(told[|before| + 1], arrival, ap)
  {
    var c := tr.mac;
    var held := Called(s, Seen(ap, tr, clock), grace);
    assert c in held.pending && held.pending[c] == Held(ap, tr.session, tr.at, clock + grace) && held.log == s.log;
    StillHeld(held, quiet, grace, c, clock + grace);
    var t := Run(held, quiet, grace);
    hide Called, Of, Run, RunOk, CallOk, Left, Joined, Roamed;
    WindowEnds(t, ap, tr, clock + grace, last, grace);
  }

  /** The call that ends a window, or does not. */
  lemma WindowEnds(t: State, ap: string, tr: Transition, end: int, last: Call, grace: int)
    requires tr.mac in t.pending && t.pending[tr.mac] == Held(ap, tr.session, tr.at, end) && CallOk(t, last)
    requires last.Flushed? || (last.tr.mac == tr.mac && last.tr.kind == Connect)
    ensures var before, told := Of(t.log, tr.mac), Of(Called(t, last, grace).log, tr.mac);
            match last
            case Flushed(now, _) =>
              if now < end then told == before
              else |told| == |before| + 1 && told[..|before|] == before && Left(told[|before|], tr, ap)
            case Seen(to, arrival, _) =>
              if to != ap then |told| == |before| + 1 && told[..|before|] == before && Roamed(told[|before|], tr, ap, arrival, to)
              else |told| == |before| + 2 && told[..|before|] == before
                   && Left(told[|before|], tr, ap) && Joined(told[|before| + 1], arrival, ap)
  {
    hide Of, IsDue, DoAll;
    var c := tr.mac;
    match last
    case Flushed(now, due) =>
      FlushClient(t, now, due, c);
    case Seen(to, arrival, _) =>
      if to != ap {
        OfSnoc(t.log, RoamEvent(ap, tr.session, to, arrival), c);
      } else {
        var d, e := DisconnectEvent(c, t.pending[c]), ConnectEvent(ap, arrival);
        assert t.log + [d, e] == t.log + [d] + [e];
        OfSnoc(t.log, d, c);
        OfSnoc(t.log + [d], e, c);
      }
  }

  /** A client with no departure held: new, it joined; elsewhere, it roamed; here already, nothing is told. */
  lemma Arrival(s: State, ap: string, tr: Transition, clock: int, grace: int)
    requires tr.kind == Connect && tr.mac !in s.pending
    ensures var before, told := Of(s.log, tr.mac), Of(Called(s, Seen(ap, tr, clock), grace).log, tr.mac);
            && Here(Called(s, Seen(ap, tr, clock), grace), ap, tr.mac)
            && (if tr.mac !in s.current then told == before + [told[|told| - 1]] && Joined(told[|told| - 1], tr, ap)
                else if s.current[tr.mac].ap == ap then told == before
                else told == before + [told[|told| - 1]]
                     && Roamed(told[|told| - 1], tr.(session := s.current[tr.mac].session), s.current[tr.mac].ap, tr, ap))
  {
    hide Of;
    if tr.mac !in s.current {
      OfSnoc(s.log, ConnectEvent(ap, tr), tr.mac);
    } else {
      OfSnoc(s.log, RoamEvent(s.current[tr.mac].ap, s.current[tr.mac].session, ap, tr), tr.mac);
    }
  }

  /** A retuned client is told of where it is and nothing is held, with both ends; anywhere else nothing is told. */
  lemma Retune(s: State, ap: string, tr: Transition, clock: int, grace: int)
    requires tr.kind == RadioChange
    ensures var before, told := Of(s.log, tr.mac), Of(Called(s, Seen(ap, tr, clock), grace).log, tr.mac);
            if !Here(s, ap, tr.mac) then told == before
            else told == before + [told[|told| - 1]] && (var e := told[|told| - 1];
                 && e.key == EvtRoamRadio && e.client == tr.mac && e.ap == ap && e.time == tr.at * 1000
                 && e.radioFrom == tr.prev.radio && e.radio == tr.session.radio && e.channelFrom == tr.prev.channel && e.channel == tr.session.channel)
  {
    hide Of;
    OfSnoc(s.log, RadioEvent(ap, tr), tr.mac);
  }

  /** The event of a departure, with the length and volume of the session that ended. */
  predicate Left(e: Event, tr: Transition, ap: string) {
    && e.key == EvtDisconnected && e.client == tr.mac && e.ap == ap && e.time == tr.at * 1000
    && e.hostname == tr.session.hostname && e.ip == tr.session.ip && e.ssid == tr.session.essid
    && e.radio == tr.session.radio && e.channel == tr.session.channel && e.bytes == tr.session.bytes
    && e.duration == (if tr.session.since <= 0 || tr.session.lastSeen < tr.session.since then 0 else tr.session.lastSeen - tr.session.since)
  }

  predicate Joined(e: Event, tr: Transition, ap: string) {
    && e.key == EvtConnected && e.client == tr.mac && e.ap == ap && e.time == tr.at * 1000
    && e.hostname == tr.session.hostname && e.ip == tr.session.ip && e.ssid == tr.session.essid
    && e.radio == tr.session.radio && e.channel == tr.session.channel
  }

  /** The event of a move, with both radios; what the new access point left out comes from the old session. */
  predicate Roamed(e: Event, left: Transition, from: string, tr: Transition, to: string) {
    && e.key == EvtRoam && e.client == tr.mac && e.apFrom == from && e.apTo == to && e.time == tr.at * 1000
    && e.hostname == (if tr.session.hostname == "" then left.session.hostname else tr.session.hostname)
    && e.ip == (if tr.session.ip == "" then left.session.ip else tr.session.ip)
    && e.ssid == (if tr.session.essid == "" then left.session.essid else tr.session.essid)
    && e.radio == tr.session.radio && e.radioFrom == left.session.radio
    && e.channel == tr.session.channel && e.channelFrom == left.session.channel
  }

  // ---- over whole runs --------------------------------------------------------------------------------------

  /** Call j is the report that holds c at the end of the run: c left ap then and was not observed connecting since. */
  predicate HeldBy(calls: seq<Call>, j: nat, c: string) {
    && j < |calls| && calls[j].Seen? && calls[j].tr.mac == c && calls[j].tr.kind == Disconnect
    && forall k :: j < k < |calls| && calls[k].Seen? && calls[k].tr.mac == c ==> calls[k].tr.kind != Connect
  }

  lemma {:induction false} HeldSince(s: State, calls: seq<Call>, grace: int, c: string) returns (j: nat)
    requires RunOk(s, calls, grace) && s.pending == map[] && c in Run(s, calls, grace).pending
    ensures HeldBy(calls, j, c)
    ensures Run(s, calls, grace).pending[c] == Held(calls[j].ap, calls[j].tr.session, calls[j].tr.at, calls[j].clock + grace)
  {
    hide IsDue, Of, DoAll, DisconnectEvent, ConnectEvent, RoamEvent, RadioEvent;
    var n := |calls| - 1;
    var init, call := calls[..n], calls[n];
    var before := Run(s, init, grace);
    if call.Seen? && call.tr.mac == c && call.tr.kind == Disconnect && c !in before.pending {
      j := n;
    } else {
      match call {
        case Seen(_, tr, _) => if tr.mac != c { OthersUntouched(before, call, grace, c); }
        case Flushed(now, due) => FlushClient(before, now, due, c);
      }
      j := HeldSince(s, init, grace, c);
      assert forall k :: 0 <= k < n ==> calls[k] == init[k];
    }
  }

  /**
   In every run from a tracker that holds nothing: a flush tells a disconnect only of a client whose
   departure was observed at least the grace window earlier, at the access point and with the time
   the event names, and which was not observed connecting since.
   */
  lemma NeverEarly(s: State, calls: seq<Call>, now: int, due: seq<string>, grace: int, c: string) returns (j: nat)
    requires RunOk(s, calls, grace) && s.pending == map[] && CallOk(Run(s, calls, grace), Flushed(now, due))
    requires var t := Run(s, calls, grace); Of(Called(t, Flushed(now, due), grace).log, c) != Of(t.log, c)
    ensures HeldBy(calls, j, c) && calls[j].clock + grace <= now
    ensures var t := Run(s, calls, grace); var told := Of(Called(t, Flushed(now, due), grace).log, c);
            |told| == |Of(t.log, c)| + 1 && told[..|told| - 1] == Of(t.log, c) && Left(told[|told| - 1], calls[j].tr, calls[j].ap)
  {
    hide Run, RunOk, IsDue, DoAll, Of;
    var t := Run(s, calls, grace);
    FlushClient(t, now, due, c);
    j := HeldSince(s, calls, grace, c);
    DisconnectIsClients(c, t.pending[c]);
  }

  // ---- the order of a flush ------------------------------------------------------------------------------

  lemma {:induction false} ReleasesAppend(s: State, due: seq<string>)
    requires forall i, j :: 0 <= i < j < |due| ==> due[i] != due[j]
    requires forall i :: 0 <= i < |due| ==> due[i] in s.pending
    ensures var t := DoAll(s, Releases(due));
            && |t.log| == |s.log| + |due| && t.log[..|s.log|] == s.log
            && (forall k :: |s.log| <= k < |t.log| ==> t.log[k] == DisconnectEvent(due[k - |s.log|], s.pending[due[k - |s.log|]]))
            && (forall c :: c in s.pending && c !in due ==> c in t.pending && t.pending[c] == s.pending[c])
  {
    hide DoAll, Releases, DisconnectEvent;
    if due == [] {
      NoReleases(s);
    } else {
      var n := |due| - 1;
      ReleasesAppend(s, due[..n]);
      OneMoreRelease(s, due);
      assert due == due[..n] + [due[n]] && due[n] !in due[..n];
    }
  }

  /** The earlier event first; at one time the smaller MAC first. */
  predicate InOrder(a: Event, b: Event) {
    a.time < b.time || (a.time == b.time && Less(a.client, b.client))
  }

  /** Over all clients a flush tells disconnects only, one of every client it releases, in the order of their times. */
  lemma FlushInOrder(s: State, now: int, due: seq<string>, grace: int)
    requires CallOk(s, Flushed(now, due))
    ensures var told := Called(s, Flushed(now, due), grace).log;
            && |told| == |s.log| + |due| && told[..|s.log|] == s.log
            && (forall k :: |s.log| <= k < |told| ==> told[k].key == EvtDisconnected && told[k].client == due[k - |s.log|])
            && (forall i, j :: |s.log| <= i < j < |told| ==> InOrder(told[i], told[j]))
  {
    DueDistinct(s, now, due);
    ReleasesAppend(s, due);
    var told := Called(s, Flushed(now, due), grace).log;
    hide DoAll;
    forall i, j | |s.log| <= i < j < |told| ensures InOrder(told[i], told[j]) {
      assert Sooner(s, due[i - |s.log|], due[j - |s.log|]);
    }
  }
}
